/**
 * `evaluate_advanced_pivot_table` (app.py:141-153) over an abstract workbook:
 * the names of its sheets and the column labels of its `Summary` sheet, as
 * the spreadsheet reader would deliver them. Either read can fail; the
 * exception's text is then part of the message.
 */
module PivotValidation {
  import opened Wrappers

  /** What reading the `Summary` sheet yields: its column labels, or the reader's error text. */
  datatype SummarySheet = Columns(labels: seq<string>) | ReadFailed(error: string)

  /** An uploaded file: not a readable workbook at all, or its sheet names and its `Summary` sheet. */
  datatype Workbook = Unreadable(error: string) | Opened(sheetNames: seq<string>, summary: SummarySheet)

  const MissingSummaryMessage := "The 'Summary' sheet was not found. Please ensure the sheet is named correctly."
  const WrongStructureMessage := "The structure in the 'Summary' sheet doesn't look like the requested pivot table. It should have 'Region' as a row."
  const WrongAggregateMessage := "The pivot table seems to be calculating something other than the Average of Sales. Please check the value field settings."
  const AcceptedMessage := "File received. The pivot table structure in the 'Summary' sheet appears correct."

  /** The message of the `except` clause, which embeds the exception's text. */
  function ReadErrorMessage(error: string): string {
    "An error occurred while reading your file. Please ensure it's a valid .xlsx format. Error: " + error
  }

  /** The second check: a `Region` column and at least two columns. */
  predicate HasPivotShape(labels: seq<string>) {
    "Region" in labels && |labels| >= 2
  }

  /** The third check: an average-of-sales value column, under either of its two names. */
  predicate HasAverageOfSales(labels: seq<string>) {
    "Average of Sales" in labels || "Avg of Sales" in labels
  }

  /** The validator: the first failing check wins; a read failure becomes a message, never an error. */
  function EvaluatePivotTable(w: Workbook): (r: (bool, string))
    ensures r.0 <==> w.Opened? && "Summary" in w.sheetNames && w.summary.Columns?
                     && HasPivotShape(w.summary.labels) && HasAverageOfSales(w.summary.labels)
    ensures r.0 ==> r.1 == AcceptedMessage
  {
    match w
    case Unreadable(e) => (false, ReadErrorMessage(e))
    case Opened(names, summary) =>
      if "Summary" !in names then (false, MissingSummaryMessage)
      else
        match summary
        case ReadFailed(e) => (false, ReadErrorMessage(e))
        case Columns(labels) =>
          if !HasPivotShape(labels) then (false, WrongStructureMessage)
          else if !HasAverageOfSales(labels) then (false, WrongAggregateMessage)
          else (true, AcceptedMessage)
  }

  /** One requirement on the workbook: whether it holds, and the message shown when it does not. */
  datatype Check = Check(holds: bool, message: string)

  /** The requirements in the order the validator tests them, for a workbook whose reads succeed. */
  function Requirements(sheetNames: seq<string>, labels: seq<string>): seq<Check> {
    [ Check("Summary" in sheetNames, MissingSummaryMessage),
      Check(HasPivotShape(labels), WrongStructureMessage),
      Check(HasAverageOfSales(labels), WrongAggregateMessage) ]
  }

  /** The message of the first requirement that fails, if any. */
  function FirstFailure(checks: seq<Check>): (r: Option<string>)
    ensures r.None? <==> forall i :: 0 <= i < |checks| ==> checks[i].holds
    ensures r.Some? ==> exists i :: 0 <= i < |checks| && !checks[i].holds && checks[i].message == r.value
                           && forall j :: 0 <= j < i ==> checks[j].holds
  {
    if checks == [] then None
    else if !checks[0].holds then Some(checks[0].message)
    else
      var r := FirstFailure(checks[1..]);
      assert forall i :: 1 <= i < |checks| ==> checks[1..][i - 1] == checks[i];
      r
  }

  /** On a workbook that reads cleanly, the validator reports exactly the first failed requirement. */
  lemma ValidatorReportsFirstFailure(sheetNames: seq<string>, labels: seq<string>)
    ensures var r := EvaluatePivotTable(Opened(sheetNames, Columns(labels)));
            match FirstFailure(Requirements(sheetNames, labels))
            case None => r == (true, AcceptedMessage)
            case Some(m) => r == (false, m)
  {
    var checks := Requirements(sheetNames, labels);
    if checks[0].holds {
      assert checks[1..][0] == checks[1];
      if checks[1].holds {
        assert checks[1..][1..][0] == checks[2];
        assert checks[1..][1..][1..] == [];
      }
    }
  }

  /** A missing `Summary` sheet is reported whatever that sheet would have held. */
  lemma MissingSummaryWins(sheetNames: seq<string>, summary: SummarySheet)
    requires "Summary" !in sheetNames
    ensures EvaluatePivotTable(Opened(sheetNames, summary)) == (false, MissingSummaryMessage)
  {
  }

  /** A failed read is never fatal: it becomes a rejection whose message carries the error text. */
  lemma ReadFailureIsRejection(w: Workbook)
    requires w.Unreadable? || ("Summary" in w.sheetNames && w.summary.ReadFailed?)
    ensures var e := if w.Unreadable? then w.error else w.summary.error;
            EvaluatePivotTable(w) == (false, ReadErrorMessage(e))
  {
  }
}
