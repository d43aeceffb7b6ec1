/** The fixed question table `INTERVIEW_QUESTIONS` (app.py:95-130) and its sorted id list (app.py:183). */
module QuestionBank {
  import opened Wrappers

  /**
   * How a question is graded. A conceptual answer goes to the language
   * model; a practical value is compared with `correctAnswer`; a practical
   * file goes to the pivot-table validator, the only one the table names.
   */
  datatype Kind = Conceptual | PracticalValue(correctAnswer: int) | PracticalFile

  /**
   * Which question's text an entry carries. The texts themselves are given
   * by `PromptText`, so that reasoning about the table does not have to
   * unfold them.
   */
  datatype Prompt = IfFunction | NorthSales | ElectronicsProfit | PivotTable

  /** The `"text"` of each entry, word for word. */
  function PromptText(p: Prompt): string {
    match p
    case IfFunction => "Let's start with a conceptual question: What is the primary purpose of the `IF` function in Excel?"
    case NorthSales => "Using the `SalesData` sheet, what are the total sales for the 'North' region?"
    case ElectronicsProfit => "On the `SalesData` sheet, a new column `Profit` needs to be added. Use the `Products` sheet to look up the `Unit_Cost` for each `Product_ID` and calculate the profit for each sale (`Sales` - `Unit_Cost`). What is the total profit for the 'Electronics' category?"
    case PivotTable => "Excellent. For the final task, create a Pivot Table in a new sheet named 'Summary'. It should show the average `Sales` for each `Region`. Then, add a slicer to filter the Pivot Table by `Category`. Please upload the file once completed."
  }

  /** One entry of the table; `retries` is `None` where the entry has no `"retries"` key. */
  datatype Question = Question(difficulty: string, kind: Kind, prompt: Prompt, retries: Option<nat>)

  /** `q.get("retries", 0)`: the value under the key, or 0 where the entry has none. */
  function RetryBudget(q: Question): (r: nat)
    ensures q.retries.Some? ==> r == q.retries.value
    ensures q.retries.None? ==> r == 0
  {
    q.retries.GetOr(0)
  }

  const InterviewQuestions: map<string, Question> := map[
    "1" := Question("easy", Conceptual, IfFunction, None),
    "2" := Question("easy", PracticalValue(2000), NorthSales, Some(1)),
    "3" := Question("medium", PracticalValue(1350), ElectronicsProfit, Some(1)),
    "4" := Question("hard", PracticalFile, PivotTable, Some(0))
  ]

  /** `sorted(INTERVIEW_QUESTIONS.keys())`. */
  const QuestionIds: seq<string> := ["1", "2", "3", "4"]

  /** `len(INTERVIEW_QUESTIONS)`. */
  const QuestionCount := 4

  /** `len(INTERVIEW_QUESTIONS) * 10`. */
  const MaxScore := QuestionCount * 10

  /** Python's `<` on strings: lexicographic by code point. */
  predicate StringLess(a: string, b: string) {
    if a == [] then b != []
    else if b == [] then false
    else a[0] < b[0] || (a[0] == b[0] && StringLess(a[1..], b[1..]))
  }

  /** The id list holds each key of the table once, in ascending order. */
  lemma QuestionIdsAreSortedKeys()
    ensures |QuestionIds| == |InterviewQuestions| == QuestionCount
    ensures forall i :: 0 <= i < |QuestionIds| ==> QuestionIds[i] in InterviewQuestions
    ensures forall k :: k in InterviewQuestions ==> k in QuestionIds
    ensures forall i, j :: 0 <= i < j < |QuestionIds| ==> StringLess(QuestionIds[i], QuestionIds[j])
  {
    assert InterviewQuestions.Keys == {"1", "2", "3", "4"};
  }

  /** `INTERVIEW_QUESTIONS[question_ids[i]]`. */
  function QuestionAt(i: nat): Question
    requires i < QuestionCount
  {
    assert QuestionIds[i] in InterviewQuestions by {
      assert InterviewQuestions.Keys == {"1", "2", "3", "4"};
    }
    InterviewQuestions[QuestionIds[i]]
  }

  /**
   * The table in id order: a conceptual question with no `"retries"` key, two
   * value questions (2000 and 1350) with one retry each, and the file question
   * with an explicit budget of 0.
   */
  lemma QuestionTable()
    ensures QuestionAt(0).kind == Conceptual && QuestionAt(0).retries == None && RetryBudget(QuestionAt(0)) == 0
    ensures QuestionAt(1).kind == PracticalValue(2000) && QuestionAt(1).retries == Some(1) && RetryBudget(QuestionAt(1)) == 1
    ensures QuestionAt(2).kind == PracticalValue(1350) && QuestionAt(2).retries == Some(1) && RetryBudget(QuestionAt(2)) == 1
    ensures QuestionAt(3).kind == PracticalFile && QuestionAt(3).retries == Some(0) && RetryBudget(QuestionAt(3)) == 0
  {
  }
}
