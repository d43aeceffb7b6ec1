/**
 * The interview session (app.py:178-310). Streamlit keeps the session's
 * fields between reruns of the script; every rerun runs the branch of the
 * current stage once. Here a `Session` object holds those fields and each
 * kind of rerun is one method that updates them in place.
 */
module Interview {
  import opened Wrappers
  import opened Text
  import QuestionBank
  import opened PivotValidation
  import opened Grading

  datatype Stage = Intro | Question | Evaluation | Report | Complete

  datatype Role = User | Assistant

  /** One entry of the chat history `messages`. */
  datatype Message = Message(role: Role, content: string)

  /** The `Q (...)`/`A: ...` lines a submission adds to the transcript (app.py:244, 254). */
  function AskedEntry(q: QuestionBank.Question, answer: string): string {
    "Q (" + q.difficulty + "): " + QuestionBank.PromptText(q.prompt) + "\nA: " + answer + "\n"
  }

  function UploadedAnswer(name: string): string {
    "(User uploaded " + name + ")"
  }

  function UploadedMessage(name: string): string {
    "(Uploaded file: " + name + ")"
  }

  function FeedbackLine(feedback: string): string {
    "Feedback: " + feedback + "\n"
  }

  function CorrectResultLine(points: int): string {
    "Result: Correct (Score: " + IntToString(points) + "/10)\n---\n"
  }

  const RetryResultLine := "Result: Incorrect. Retrying...\n"
  const ExhaustedResultLine := "Result: Incorrect (Score: 0/10)\n---\n"

  /** The notice shown before a retry; `left` is the number it prints. */
  function RetryMessage(left: int): string {
    "Please try that again. You have " + IntToString(left) + " attempt(s) left."
  }

  function ReportMessage(report: string): string {
    "### Interview Performance Report\n\n" + report
  }

  /** The sum of the points the resolved questions added. */
  function Sum(xs: seq<int>): int {
    if xs == [] then 0 else Sum(xs[..|xs| - 1]) + xs[|xs| - 1]
  }

  lemma SumAppend(xs: seq<int>, x: int)
    ensures Sum(xs + [x]) == Sum(xs) + x
  {
    assert (xs + [x])[..|xs|] == xs;
  }

  /** A sum of terms between 0 and `k` lies between 0 and `k` times their number. */
  lemma {:induction false} SumBetween(xs: seq<int>, k: int)
    requires forall i :: 0 <= i < |xs| ==> 0 <= xs[i] <= k
    ensures 0 <= Sum(xs) <= k * |xs|
  {
    if xs != [] {
      SumBetween(xs[..|xs| - 1], k);
    }
  }

  /**
   * No resolved question took points away, and none but a conceptual one
   * added more than a question is worth.
   */
  ghost predicate AwardsInRange(awarded: seq<int>) {
    forall i :: 0 <= i < |awarded| ==>
      && 0 <= awarded[i]
      && (i < QuestionBank.QuestionCount && !QuestionBank.QuestionAt(i).kind.Conceptual? ==> awarded[i] <= FullPoints)
  }

  /** Logging the points of the next question keeps the log in range. */
  lemma AwardsAppend(awarded: seq<int>, points: int)
    requires AwardsInRange(awarded) && |awarded| < QuestionBank.QuestionCount
    requires 0 <= points && (!QuestionBank.QuestionAt(|awarded|).kind.Conceptual? ==> points <= FullPoints)
    ensures AwardsInRange(awarded + [points])
  {
    var next := awarded + [points];
    forall i | 0 <= i < |next|
      ensures 0 <= next[i]
      ensures i < QuestionBank.QuestionCount && !QuestionBank.QuestionAt(i).kind.Conceptual? ==> next[i] <= FullPoints
    {
      if i < |awarded| {
        assert next[i] == awarded[i];
      }
    }
  }

  class Session {
    var stage: Stage
    var messages: seq<Message>
    var transcript: string
    /** The bytes of the generated sample workbook, made once by a spreadsheet library. */
    var sampleExcel: seq<bv8>
    var questionIds: seq<string>
    var qIndex: int
    var retriesLeft: int
    var score: int
    var maxScore: int
    /** `user_answer_submitted`; absent until the first submission, and kept by a restart. */
    var submitted: Option<Submission>
    /** The points each resolved question added to `score`, in order. */
    ghost var awarded: seq<int>

    /** The current question: `INTERVIEW_QUESTIONS[question_ids[q_index]]`. */
    function Current(): QuestionBank.Question
      reads this
      requires 0 <= qIndex < QuestionBank.QuestionCount
    {
      QuestionBank.QuestionAt(qIndex)
    }

    ghost predicate Valid()
      reads this
    {
      && questionIds == QuestionBank.QuestionIds
      && maxScore == QuestionBank.MaxScore
      && 0 <= qIndex <= QuestionBank.QuestionCount
      && 0 <= retriesLeft
      && |awarded| == qIndex
      && score == Sum(awarded)
      && AwardsInRange(awarded)
      && (stage == Intro ==> qIndex == 0 && retriesLeft == 0 && messages == [] && transcript == [])
      && (stage == Question || stage == Evaluation ==> qIndex < QuestionBank.QuestionCount)
      && (stage == Report || stage == Complete ==> qIndex == QuestionBank.QuestionCount)
      && (stage == Evaluation ==>
            && retriesLeft == QuestionBank.RetryBudget(Current())
            && submitted.Some? && Fits(Current().kind, submitted.value))
    }

    /** The first run of the script (app.py:178-187). */
    constructor (sampleExcel: seq<bv8>)
      ensures Valid()
      ensures stage == Intro && messages == [] && transcript == ""
      ensures qIndex == 0 && retriesLeft == 0 && score == 0
      ensures this.sampleExcel == sampleExcel && questionIds == QuestionBank.QuestionIds
      ensures maxScore == 10 * QuestionBank.QuestionCount && submitted == None
    {
      stage := Intro;
      messages := [];
      transcript := "";
      this.sampleExcel := sampleExcel;
      questionIds := QuestionBank.QuestionIds;
      qIndex := 0;
      retriesLeft := 0;
      score := 0;
      maxScore := QuestionBank.QuestionCount * 10;
      submitted := None;
      awarded := [];
    }

    /** `restart_interview` (app.py:189-196), offered in every stage. */
    method Restart()
      requires Valid()
      modifies this`stage, this`messages, this`transcript, this`qIndex, this`retriesLeft, this`score, this`awarded
      ensures Valid()
      ensures stage == Intro && messages == [] && transcript == ""
      ensures qIndex == 0 && retriesLeft == 0 && score == 0
      ensures maxScore == old(maxScore) && questionIds == old(questionIds) && sampleExcel == old(sampleExcel)
    {
      stage := Intro;
      messages := [];
      transcript := "";
      qIndex := 0;
      retriesLeft := 0;
      score := 0;
      awarded := [];
    }

    /** The Start Interview button, shown only in the `intro` stage (app.py:228-230). */
    method Start()
      requires Valid() && stage == Intro
      modifies this`stage
      ensures Valid() && stage == Question
    {
      stage := Question;
    }

    /**
     * A rerun of the `question` stage in which nothing is submitted. Like
     * every rerun of that stage it resets the retry budget (app.py:232-234).
     */
    method RenderQuestion()
      requires Valid() && stage == Question
      modifies this`retriesLeft
      ensures Valid() && retriesLeft == QuestionBank.RetryBudget(Current())
    {
      retriesLeft := QuestionBank.RetryBudget(Current());
    }

    /**
     * Submit Answer on a text question (app.py:239-249): an empty answer only
     * raises a warning; any other answer is logged and goes to evaluation.
     */
    method SubmitText(answer: string) returns (warned: bool)
      requires Valid() && stage == Question && !Current().kind.PracticalFile?
      modifies this`retriesLeft, this`messages, this`transcript, this`submitted, this`stage
      ensures Valid() && retriesLeft == QuestionBank.RetryBudget(Current())
      ensures warned <==> answer == ""
      ensures warned ==> stage == Question && messages == old(messages)
                         && transcript == old(transcript) && submitted == old(submitted)
      ensures !warned ==> && stage == Evaluation
                          && messages == old(messages) + [Message(User, answer)]
                          && transcript == old(transcript) + AskedEntry(Current(), answer)
                          && submitted == Some(TextAnswer(answer))
    {
      retriesLeft := QuestionBank.RetryBudget(Current());
      warned := answer == "";
      if !warned {
        Accept(answer, AskedEntry(Current(), answer), TextAnswer(answer));
      }
    }

    /** An upload on the file question (app.py:250-257) goes straight to evaluation. */
    method UploadFile(name: string, workbook: Workbook)
      requires Valid() && stage == Question && Current().kind.PracticalFile?
      modifies this`retriesLeft, this`messages, this`transcript, this`submitted, this`stage
      ensures Valid() && retriesLeft == QuestionBank.RetryBudget(Current())
      ensures stage == Evaluation
      ensures messages == old(messages) + [Message(User, UploadedMessage(name))]
      ensures transcript == old(transcript) + AskedEntry(Current(), UploadedAnswer(name))
      ensures submitted == Some(FileUpload(name, workbook))
    {
      retriesLeft := QuestionBank.RetryBudget(Current());
      Accept(UploadedMessage(name), AskedEntry(Current(), UploadedAnswer(name)), FileUpload(name, workbook));
    }

    /** Log a submission in the chat and the transcript, store it, and go to evaluation. */
    method Accept(message: string, entry: string, submission: Submission)
      requires Valid() && stage == Question && retriesLeft == QuestionBank.RetryBudget(Current())
      requires Fits(Current().kind, submission)
      modifies this`messages, this`transcript, this`submitted, this`stage
      ensures Valid() && stage == Evaluation
      ensures messages == old(messages) + [Message(User, message)]
      ensures transcript == old(transcript) + entry
      ensures submitted == Some(submission)
    {
      messages := messages + [Message(User, message)];
      transcript := transcript + entry;
      submitted := Some(submission);
      stage := Evaluation;
    }

    /**
     * The `evaluation` stage (app.py:258-301): grade the stored submission,
     * then apply the verdict. `reply` is what the language model answers;
     * only a conceptual question asks it.
     */
    method Evaluate(reply: string) returns (v: Verdict)
      requires Valid() && stage == Evaluation
      modifies this`transcript, this`messages, this`score, this`qIndex, this`retriesLeft, this`stage, this`awarded
      ensures Valid()
      ensures v == Judge(QuestionBank.QuestionAt(old(qIndex)), submitted.value, reply)
      ensures Applied(v, old(score), old(qIndex), old(retriesLeft), old(transcript), old(messages), old(awarded))
      ensures !v.correct && QuestionBank.RetryBudget(QuestionBank.QuestionAt(old(qIndex))) > 0 ==>
                qIndex == old(qIndex) && stage == Question
    {
      var q := Current();
      v := Judge(q, submitted.value, reply);
      AwardedNonNegative(q, submitted.value, reply);
      ApplyVerdict(v);
    }

    /**
     * The state after a verdict `v` is applied to the given old state
     * (app.py:281-299): a correct answer adds its points and advances; an
     * incorrect one retries the same question while `retriesLeft` is
     * positive, and otherwise advances with nothing added.
     */
    ghost predicate Applied(v: Verdict, score0: int, qIndex0: int, retriesLeft0: int,
                            transcript0: string, messages0: seq<Message>, awarded0: seq<int>)
      reads this
    {
      && score0 <= score && qIndex0 <= qIndex <= qIndex0 + 1
      && (v.correct ==>
            && score == score0 + v.points && qIndex == qIndex0 + 1 && retriesLeft == retriesLeft0
            && transcript == transcript0 + FeedbackLine(v.feedback) + CorrectResultLine(v.points)
            && messages == messages0 + [Message(Assistant, v.feedback)])
      && (!v.correct && retriesLeft0 > 0 ==>
            && score == score0 && qIndex == qIndex0 && stage == Question
            && retriesLeft == retriesLeft0 - 1 && awarded == awarded0
            && transcript == transcript0 + FeedbackLine(v.feedback) + RetryResultLine
            && messages == messages0 + [Message(Assistant, v.feedback), Message(Assistant, RetryMessage(retriesLeft0))])
      && (!v.correct && retriesLeft0 == 0 ==>
            && score == score0 && qIndex == qIndex0 + 1 && retriesLeft == 0
            && transcript == transcript0 + FeedbackLine(v.feedback) + ExhaustedResultLine
            && messages == messages0 + [Message(Assistant, v.feedback)])
      && (qIndex == qIndex0 + 1 ==>
            && stage == (if qIndex >= QuestionBank.QuestionCount then Report else Question)
            && awarded == awarded0 + [Awarded(v)])
    }

    /** Lines 281-299 of the `evaluation` stage, for a verdict that `Judge` could have given. */
    method ApplyVerdict(v: Verdict)
      requires Valid() && stage == Evaluation
      requires v.correct ==> v.points >= 0
      requires !Current().kind.Conceptual? ==> Awarded(v) <= FullPoints
      modifies this`transcript, this`messages, this`score, this`qIndex, this`retriesLeft, this`stage, this`awarded
      ensures Valid()
      ensures Applied(v, old(score), old(qIndex), old(retriesLeft), old(transcript), old(messages), old(awarded))
    {
      transcript := transcript + FeedbackLine(v.feedback);
      messages := messages + [Message(Assistant, v.feedback)];
      if v.correct {
        Advance(v.points, CorrectResultLine(v.points));
      } else if retriesLeft > 0 {
        RetrySameQuestion();
      } else {
        Advance(0, ExhaustedResultLine);
      }
    }

    /** Award `points`, log `resultLine` and move to the next question, or to the report after the last. */
    method Advance(points: int, resultLine: string)
      requires Valid() && stage == Evaluation
      requires 0 <= points && (!Current().kind.Conceptual? ==> points <= FullPoints)
      modifies this`transcript, this`score, this`qIndex, this`stage, this`awarded
      ensures Valid()
      ensures score == old(score) + points && qIndex == old(qIndex) + 1
      ensures transcript == old(transcript) + resultLine && awarded == old(awarded) + [points]
      ensures stage == (if qIndex >= QuestionBank.QuestionCount then Report else Question)
    {
      SumAppend(awarded, points);
      AwardsAppend(awarded, points);
      score := score + points;
      transcript := transcript + resultLine;
      awarded := awarded + [points];
      qIndex := qIndex + 1;
      stage := if qIndex >= QuestionBank.QuestionCount then Report else Question;
    }

    /** Spend one retry and send the same question back (app.py:290-294). */
    method RetrySameQuestion()
      requires Valid() && stage == Evaluation && retriesLeft > 0
      modifies this`transcript, this`messages, this`retriesLeft, this`stage
      ensures Valid() && stage == Question && retriesLeft == old(retriesLeft) - 1
      ensures transcript == old(transcript) + RetryResultLine
      ensures messages == old(messages) + [Message(Assistant, RetryMessage(old(retriesLeft)))]
    {
      retriesLeft := retriesLeft - 1;
      transcript := transcript + RetryResultLine;
      messages := messages + [Message(Assistant, RetryMessage(retriesLeft + 1))];
      stage := Question;
    }

    /**
     * The `report` stage (app.py:302-310): `report` is what the report
     * generator returned; it is posted and the session is complete.
     */
    method FinishReport(report: string)
      requires Valid() && stage == Report
      modifies this`messages, this`stage
      ensures Valid() && stage == Complete
      ensures messages == old(messages) + [Message(Assistant, ReportMessage(report))]
    {
      messages := messages + [Message(Assistant, ReportMessage(report))];
      stage := Complete;
    }
  }

  /** While every conceptual sub-score is at most 10, the score stays within `max_score`. */
  lemma ScoreWithinMaximum(s: Session)
    requires s.Valid()
    requires forall i :: 0 <= i < |s.awarded| && QuestionBank.QuestionAt(i).kind.Conceptual? ==> s.awarded[i] <= FullPoints
    ensures 0 <= s.score <= s.maxScore
  {
    SumBetween(s.awarded, FullPoints);
  }
}
