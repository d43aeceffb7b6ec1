/** Whole sessions driven through `Interview.Session`, using only the methods' contracts. */
module InterviewScenarios {
  import opened Wrappers
  import opened Text
  import opened AnswerNormalization
  import opened ScoreExtraction
  import opened PivotValidation
  import opened Grading
  import opened Interview
  import QuestionBank

  /** An empty submission on a text question only raises the warning. */
  method EmptyAnswerWarns(s: Session)
    requires s.Valid() && s.stage == Question && !s.Current().kind.PracticalFile?
    modifies s
    ensures s.Valid() && s.stage == Question && s.qIndex == old(s.qIndex) && s.score == old(s.score)
    ensures s.messages == old(s.messages) && s.transcript == old(s.transcript)
  {
    var warned := s.SubmitText("");
    assert warned;
  }

  /** The first question, answered and scored `n` by the model, at or above the pass mark. */
  method AnswerConceptual(s: Session, answer: string, reply: string, n: int)
    requires s.Valid() && s.stage == Question && s.qIndex == 0
    requires answer != "" && ExtractScore(reply) == Some(n) && n >= PassMark
    modifies s
    ensures s.Valid() && s.stage == Question && s.qIndex == 1 && s.score == old(s.score) + n
  {
    QuestionBank.QuestionTable();
    SubmitNonEmpty(s, answer);
    ScoreConceptual(s, reply, n);
  }

  /** The question is shown again and a non-empty answer is submitted: it goes to evaluation. */
  method SubmitNonEmpty(s: Session, answer: string)
    requires s.Valid() && s.stage == Question && !s.Current().kind.PracticalFile? && answer != ""
    modifies s
    ensures s.Valid() && s.stage == Evaluation && s.qIndex == old(s.qIndex) && s.score == old(s.score)
    ensures s.retriesLeft == QuestionBank.RetryBudget(s.Current())
    ensures s.submitted == Some(TextAnswer(answer))
  {
    s.RenderQuestion();
    var warned := s.SubmitText(answer);
  }

  /** The model's reply to the first question scores it `n`, at or above the pass mark. */
  method ScoreConceptual(s: Session, reply: string, n: int)
    requires s.Valid() && s.stage == Evaluation && s.qIndex == 0
    requires ExtractScore(reply) == Some(n) && n >= PassMark
    modifies s
    ensures s.Valid() && s.stage == Question && s.qIndex == 1 && s.score == old(s.score) + n
  {
    QuestionBank.QuestionTable();
    var v := s.Evaluate(reply);
  }

  /** A value question answered with the right number, however it is written. */
  method AnswerValue(s: Session, answer: string, expected: nat)
    requires s.Valid() && s.stage == Question && 1 <= s.qIndex <= 2
    requires QuestionBank.QuestionAt(s.qIndex).kind == QuestionBank.PracticalValue(expected)
    requires NormalizeAnswer(answer) == Some(expected as real)
    modifies s
    ensures s.Valid() && s.stage == Question && s.qIndex == old(s.qIndex) + 1
    ensures s.score == old(s.score) + FullPoints
  {
    SubmitNonEmpty(s, answer);
    var v := s.Evaluate(ModelFallback);
  }

  /** Both value questions answered right, the first as `$2,000`, the second as `1,350`. */
  method AnswerBothValues(s: Session)
    requires s.Valid() && s.stage == Question && s.qIndex == 1
    modifies s
    ensures s.Valid() && s.stage == Question && s.qIndex == 3 && s.score == old(s.score) + 2 * FullPoints
  {
    QuestionBank.QuestionTable();
    NormalizePlainNumber();
    NormalizeCurrency();
    AnswerValue(s, "$2,000", 2000);
    NormalizeThousandsSeparator();
    AnswerValue(s, "1,350", 1350);
  }

  /** The file question, answered with a workbook that has no `Summary` sheet. */
  method UploadWithoutSummary(s: Session)
    requires s.Valid() && s.stage == Question && s.qIndex == 3
    modifies s
    ensures s.Valid() && s.stage == Report && s.score == old(s.score)
  {
    QuestionBank.QuestionTable();
    s.RenderQuestion();
    var names := ["SalesData", "Products"];
    var workbook := Opened(names, ReadFailed("Worksheet named 'Summary' not found"));
    s.UploadFile("InterviewData.xlsx", workbook);
    MissingSummaryWins(names, workbook.summary);
    var v := s.Evaluate(ModelFallback);
  }

  /**
   * A complete interview: an empty first submission is refused, the model
   * scores the first answer 8/10, the two values are right (one written with
   * `$` and `,`), and the upload lacks the `Summary` sheet. The session ends
   * complete with 8 + 10 + 10 + 0 points.
   */
  method FullInterview() returns (finalScore: int, finalStage: Stage)
    ensures finalScore == 28 && finalStage == Complete
  {
    var s := new Session([]);
    s.Start();
    FirstAnswer(s);
    AnswerBothValues(s);
    UploadWithoutSummary(s);
    var scored := s.score;
    s.FinishReport("Strengths: lookups. Improve: pivot tables.");
    assert s.score == scored;
    finalScore, finalStage := s.score, s.stage;
  }

  /** The first question: an empty submission is refused, then the model scores the answer 8/10. */
  method FirstAnswer(s: Session)
    requires s.Valid() && s.stage == Question && s.qIndex == 0 && s.score == 0
    modifies s
    ensures s.Valid() && s.stage == Question && s.qIndex == 1 && s.score == 8
  {
    QuestionBank.QuestionTable();
    EmptyAnswerWarns(s);
    FormattedReplyScore();
    AnswerConceptual(s, "It returns one value when a condition holds and another otherwise.", FormattedReply, 8);
  }

  /** One more wrong answer to the second question: it is sent back once again. */
  method AnswerSecondWrongly(s: Session, answer: string)
    requires s.Valid() && s.stage == Question && s.qIndex == 1
    requires answer != "" && NormalizeAnswer(answer) != Some(2000 as real)
    modifies s
    ensures s.Valid() && s.stage == Question && s.qIndex == 1 && s.retriesLeft == 0
  {
    QuestionBank.QuestionTable();
    SubmitNonEmpty(s, answer);
    var v := s.Evaluate(ModelFallback);
  }

  /**
   * The retry budget never runs out: because every rerun of the `question`
   * stage resets it, a question with one retry can be answered wrongly any
   * number of times without the interview moving on.
   */
  method WrongAnswersNeverExhaustRetries(answer: string, attempts: nat) returns (index: int, stage: Stage)
    requires answer != "" && NormalizeAnswer(answer) != Some(2000 as real)
    ensures index == 1 && stage == Question
  {
    var s := new Session([]);
    s.Start();
    FormattedReplyScore();
    AnswerConceptual(s, "It picks one of two values by a condition.", FormattedReply, 8);
    var attempt := 0;
    while attempt < attempts
      invariant s.Valid() && s.stage == Question && s.qIndex == 1
    {
      AnswerSecondWrongly(s, answer);
      attempt := attempt + 1;
    }
    index, stage := s.qIndex, s.stage;
  }
}
