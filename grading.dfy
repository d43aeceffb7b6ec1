/**
 * The verdict of the `evaluation` stage (app.py:262-280): whether the
 * answer is correct, the feedback shown, and the sub-score. The reply of
 * the language model is an input; the model itself is not part of this model.
 */
module Grading {
  import opened Wrappers
  import opened Text
  import opened AnswerNormalization
  import opened ScoreExtraction
  import opened PivotValidation
  import opened QuestionBank

  /** `user_answer_submitted`: the text typed in, or the uploaded file with its name. */
  datatype Submission = TextAnswer(text: string) | FileUpload(name: string, workbook: Workbook)

  /** Text questions offer a text box, the file question an uploader (app.py:239-251). */
  predicate Fits(k: Kind, s: Submission) {
    if k.PracticalFile? then s.FileUpload? else s.TextAnswer?
  }

  /** `is_correct, feedback, current_score`. */
  datatype Verdict = Verdict(correct: bool, feedback: string, points: int)

  const PassMark := 7
  const FullPoints := 10
  const CorrectValueFeedback := "That is correct. Well done."
  const WrongValueFeedback := "That's not the value I was expecting."

  function ConceptualFeedback(reply: string): string {
    "**AI Evaluation:** " + reply
  }

  /** A conceptual answer, given the model's reply: the parsed score, correct from the pass mark up. */
  function JudgeConceptual(reply: string): (v: Verdict)
    ensures v.points == ExtractScore(reply).GetOr(0)
    ensures v.correct <==> ExtractScore(reply).Some? && ExtractScore(reply).value >= PassMark
    ensures v.feedback == ConceptualFeedback(reply)
  {
    match ExtractScore(reply)
    case None => Verdict(false, ConceptualFeedback(reply), 0)
    case Some(n) => Verdict(n >= PassMark, ConceptualFeedback(reply), n)
  }

  /** A practical value: correct exactly when the normalized answer equals the expected number. */
  function JudgeValue(answer: string, expected: int): (v: Verdict)
    ensures v.correct <==> NormalizeAnswer(answer) == Some(expected as real)
    ensures v.points == (if v.correct then FullPoints else 0)
    ensures v.feedback == (if v.correct then CorrectValueFeedback else WrongValueFeedback)
  {
    var normalized := NormalizeAnswer(answer);
    var correct := normalized.Some? && normalized.value == expected as real;
    Verdict(correct, if correct then CorrectValueFeedback else WrongValueFeedback, if correct then FullPoints else 0)
  }

  /** An uploaded file: the validator's verdict and message, full points when it passes. */
  function JudgeFile(w: Workbook): (v: Verdict)
    ensures (v.correct, v.feedback) == EvaluatePivotTable(w)
    ensures v.points == (if v.correct then FullPoints else 0)
  {
    var (ok, message) := EvaluatePivotTable(w);
    Verdict(ok, message, if ok then FullPoints else 0)
  }

  /** The dispatch on the question's kind (app.py:264-280). */
  function Judge(q: Question, s: Submission, reply: string): (v: Verdict)
    requires Fits(q.kind, s)
    ensures v.correct ==> v.points >= PassMark
    ensures !q.kind.Conceptual? ==> v.points == (if v.correct then FullPoints else 0)
  {
    match q.kind
    case Conceptual => JudgeConceptual(reply)
    case PracticalValue(expected) => JudgeValue(s.text, expected)
    case PracticalFile => JudgeFile(s.workbook)
  }

  /** What the verdict adds to the score: the points when correct, nothing otherwise (app.py:283-284). */
  function Awarded(v: Verdict): int {
    if v.correct then v.points else 0
  }

  /** A verdict of `Judge` never takes points away. */
  lemma AwardedNonNegative(q: Question, s: Submission, reply: string)
    requires Fits(q.kind, s)
    ensures 0 <= Awarded(Judge(q, s, reply))
    ensures !q.kind.Conceptual? ==> Awarded(Judge(q, s, reply)) <= FullPoints
  {
  }

  /** A reply `... Score: <n>/...` makes the answer correct iff `n >= 7`, with `n` as the sub-score. */
  lemma ConceptualScoreFromReply(prefix: string, n: nat, rest: string)
    requires forall i :: !OccursAt(prefix, Marker, i)
    requires |NatToDigits(n)| <= MaxStrDigits
    ensures var reply := prefix + Marker + " " + NatToDigits(n) + "/" + rest;
            JudgeConceptual(reply) == Verdict(n >= PassMark, ConceptualFeedback(reply), n)
  {
    ScoreRoundTrip(prefix, n, rest);
  }

  /** A reply without `Score:`, such as the fallback of a failed call, is incorrect with score 0. */
  lemma ConceptualWithoutScore(reply: string)
    requires forall i :: !OccursAt(reply, Marker, i)
    ensures JudgeConceptual(reply) == Verdict(false, ConceptualFeedback(reply), 0)
  {
    NoMarkerNoScore(reply);
  }

  /** A score too long for `int()` leaves the answer incorrect with score 0 (the `except` of app.py:271-272). */
  lemma OverlongScoreIsIncorrect(prefix: string, d: string, rest: string)
    requires forall i :: !OccursAt(prefix, Marker, i)
    requires AllDigits(d) && |d| > MaxStrDigits
    ensures var reply := prefix + Marker + " " + d + "/" + rest;
            JudgeConceptual(reply) == Verdict(false, ConceptualFeedback(reply), 0)
  {
    OverlongScoreIsNone(prefix, d, rest);
  }

  lemma FallbackReplyIsIncorrect()
    ensures JudgeConceptual(ModelFallback) == Verdict(false, ConceptualFeedback(ModelFallback), 0)
  {
    FallbackHasNoScore();
  }

  /** A score below the pass mark is recorded but adds nothing; one at or above it adds itself. */
  lemma PassMarkExamples()
    ensures JudgeConceptual("Score: 5/10").points == 5 && Awarded(JudgeConceptual("Score: 5/10")) == 0
    ensures Awarded(JudgeConceptual("Score: 8/10")) == 8
  {
    assert "Score: 5/10" == "" + Marker + " " + NatToDigits(5) + "/" + "10";
    assert "Score: 8/10" == "" + Marker + " " + NatToDigits(8) + "/" + "10";
    ScoreRoundTrip("", 5, "10");
    ScoreRoundTrip("", 8, "10");
  }

  /** Nothing caps the parsed score: a reply of `Score: 11/10` adds 11 points, more than a question is worth. */
  lemma ScoreAboveTenIsAwarded()
    ensures Awarded(JudgeConceptual("Score: 11/10")) == 11 > FullPoints
  {
    assert NatToDigits(11) == "11";
    assert "Score: 11/10" == "" + Marker + " " + NatToDigits(11) + "/" + "10";
    ScoreRoundTrip("", 11, "10");
  }

  /** Currency signs, thousands separators and whitespace never change a value verdict. */
  lemma ValueVerdictIgnoresStrippedChar(a: string, c: char, b: string, expected: int)
    requires IsStripped(c)
    ensures JudgeValue(a + [c] + b, expected) == JudgeValue(a + b, expected)
  {
    NormalizeIgnoresStrippedChar(a, c, b);
  }

  /** `"$2,000"`, `" 2000 "` and `"2000"` all answer the question whose answer is 2000. */
  lemma ValueVerdictExamples()
    ensures JudgeValue("$2,000", 2000) == JudgeValue(" 2000 ", 2000) == JudgeValue("2000", 2000)
    ensures JudgeValue("2000", 2000) == Verdict(true, CorrectValueFeedback, FullPoints)
  {
    NormalizePlainNumber();
    NormalizeCurrency();
    NormalizeSurroundingSpaces();
  }

  /** An answer that does not read as a number is wrong, with no points. */
  lemma UnparsableValueIsWrong(answer: string, expected: int, i: nat)
    requires i < |StripChars(answer)| && !IsNumeral(StripChars(answer)[i])
    ensures JudgeValue(answer, expected) == Verdict(false, WrongValueFeedback, 0)
  {
    UnparsableIsNone(answer, i);
  }
}
