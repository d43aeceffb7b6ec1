# AI Excel interviewer — a Dafny model of its assessment core

`app.py` is a Streamlit application that runs a mock Excel interview. It
asks four fixed questions in id order: one conceptual, two that ask for a
number computed from a sample workbook, and one that asks for a workbook
with a pivot table. It grades each answer, keeps a score, a chat history and
a text transcript, and finally has a language model write a report.

This project models the parts of `app.py` that decide what happens:

- `QuestionBank`: the question table `INTERVIEW_QUESTIONS` and its sorted id list.
- `AnswerNormalization`: `normalize_answer`. It deletes `$`, `,` and whitespace, then reads the rest with `float`.
- `ScoreExtraction`: how the score is read out of the model's reply. The reply must contain `Score:`. The piece read is the text between the first `Score:` and the next one, or the end of the reply when there is no second one. That piece is stripped, cut at its first `/` and read with `int`.
- `PivotValidation`: `evaluate_advanced_pivot_table`, over an abstract workbook (its sheet names and the column labels of its `Summary` sheet, or a read error).
- `Grading`: the verdict of the `evaluation` stage: correct or not, the feedback text, and the sub-score.
- `Interview`: the session. `Session` is a class whose fields are the `st.session_state` entries. Each kind of script rerun is a method that updates them in place. `Valid()` is the invariant every method keeps. A ghost log `awarded` records the points each resolved question added, and `score` is its sum.
- `InterviewScenarios`: whole sessions driven only through the methods' contracts.
- `Text`: the Python string built-ins the core uses (`split`, `strip`, `int`, `str`).

The language model's reply and the generated report are inputs of the model.

Two consequences of `app.py` as written are worth stating, because the model proves them:

- Every rerun of the `question` stage resets `retries_left` to the question's budget (app.py:234).
  - The `evaluation` stage therefore always sees the full budget, and a question's retry budget never runs out.
  - A wrong answer to a question with one retry is sent back every time, however often it is repeated.
  - `Interview.Session.Evaluate` states this in its last `ensures`; `InterviewScenarios.WrongAnswersNeverExhaustRetries` shows it for any number of wrong answers.
- Nothing caps the conceptual score: the sub-score is whatever integer the reply carries (app.py:269-271).
  - A reply `Score: 11/10` adds 11 points (`Grading.ScoreAboveTenIsAwarded`).
  - So `score` can exceed `max_score`.
  - `Interview.ScoreWithinMaximum` proves `score <= max_score` only for conceptual sub-scores of at most 10.

## Model

| member | source | states |
|---|---|---|
| Text.NatToDigits | app.py:285 | `str(n)` of a natural number: non-empty ASCII digits, without a leading zero unless `n` is 0 |
| Text.IntToString | app.py:285 | `str(n)` of any integer, a `-` before the digits of a negative one; `Text.ParseIntOfIntToString` states that `int` reads it back |
| Text.ParseIntOfIntToString | app.py:270 | `int(str(n)) == n` for negative as well as non-negative `n` within the digit limit |
| Text.DigitsRoundTrip | app.py:270 | reading the decimal digits of `str(n)` gives back `n` |
| Text.IndexFrom | app.py:269 | the search `split` performs: the first occurrence of the separator at or after a position, or none |
| Text.IndexOf | app.py:269 | `find(sep)`: the position of the first occurrence of the separator, with none before it, or none at all |
| Text.IndexOfIsFirstOccurrence | app.py:269 | an occurrence with none before it is the one the search finds |
| Text.AbsentWithoutFirstChar | app.py:269 | a string without the separator's first character holds no occurrence of it |
| Text.SplitFirst | app.py:269 | `split(sep)[0]`: the prefix of the string that holds no separator start and ends where the first separator starts, or the whole string |
| Text.SplitSecond | app.py:269 | `split(sep)[1]`: present exactly when the separator occurs; the piece is the slice right after the first separator, holds no separator start, and runs to the next separator or to the end |
| Text.LStrip | app.py:269 | `lstrip()` removes exactly the leading whitespace: a suffix whose first character is not whitespace |
| Text.RStrip | app.py:269 | `rstrip()` removes exactly the trailing whitespace: a prefix whose last character is not whitespace |
| Text.LStripSpace | app.py:269 | a leading space is removed by stripping |
| Text.LStripStops | app.py:269 | stripping stops at a leading non-space character |
| Text.RStripAfterNonSpace | app.py:269 | right stripping never removes anything before a non-space character |
| Text.StripTrimmed | app.py:269 | `strip()` leaves a string that starts and ends with non-space characters unchanged |
| Text.Strip | app.py:269 | `strip()`: a prefix of the left-stripped string whose first and last characters are not whitespace, with only whitespace cut after it |
| Text.ParseInt | app.py:270 | `int(s)` on decimal text, `None` where `int` raises `ValueError`, including text with more than 4300 digits; characterised by `Text.ParseIntOfDigits`, `Text.ParseIntOfIntToString` and `Text.ParseIntRefusesLongDigits` |
| Text.ParseIntOfDigits | app.py:270 | `int(str(n)) == n` for every `n` of at most 4300 digits |
| Text.ParseIntRefusesLongDigits | app.py:270-272 | digit text longer than CPython's default limit of 4300 digits is refused |
| AnswerNormalization.StripChars | app.py:136 | no `$`, `,` or whitespace is left; the result is no longer than the input; a clean input is returned unchanged |
| AnswerNormalization.StripAppend | app.py:136 | deleting the characters works piece by piece over a concatenation |
| AnswerNormalization.ParseUnsignedDecimal | app.py:137 | an unsigned decimal literal and its exact value; characterised by `AnswerNormalization.UnsignedDecimalChars` and `AnswerNormalization.ParseDecimalOfDigits` |
| AnswerNormalization.ParseDecimal | app.py:137 | `float(t)` on a decimal literal with an optional sign, `None` where `float` raises `ValueError`; characterised by `AnswerNormalization.DecimalChars` and `AnswerNormalization.ParseDecimalOfDigits` |
| AnswerNormalization.NormalizeAnswer | app.py:133-139 | `normalize_answer`: delete `$`, `,` and whitespace, then read a decimal literal, `None` on failure; characterised by `AnswerNormalization.NormalizeIgnoresStrippedChar`, `AnswerNormalization.NormalizeDependsOnlyOnKeptChars`, `AnswerNormalization.NormalizeDigits` and `AnswerNormalization.UnparsableIsNone` |
| AnswerNormalization.NormalizeIgnoresStrippedChar | app.py:133-139 | inserting `$`, `,` or a whitespace character anywhere never changes the normalized value |
| AnswerNormalization.NormalizeDependsOnlyOnKeptChars | app.py:136-137 | answers that agree once those characters are deleted normalize alike |
| AnswerNormalization.ParseDecimalOfDigits | app.py:137 | `float(str(n)) == n` and `float("-" + str(n)) == -n` |
| AnswerNormalization.NormalizeDigits | app.py:133-139 | the digits of `n` normalize to `n` |
| AnswerNormalization.NormalizePlainNumber | app.py:133-139 | `"2000"` normalizes to 2000 |
| AnswerNormalization.NormalizeThousandsSeparator | app.py:133-139 | `"1,350"` normalizes to 1350 |
| AnswerNormalization.NormalizeCurrency | app.py:133-139 | `"$2,000"` normalizes as `"2000"` does |
| AnswerNormalization.NormalizeSurroundingSpaces | app.py:133-139 | `" 2000 "` normalizes as `"2000"` does |
| AnswerNormalization.UnsignedDecimalChars | app.py:137 | an accepted unsigned literal consists of digits and points only |
| AnswerNormalization.DecimalChars | app.py:137 | an accepted literal consists of digits, points and signs only |
| AnswerNormalization.UnparsableIsNone | app.py:137-139 | keeping any other character makes `float` fail, so the answer normalizes to `None` |
| ScoreExtraction.ScoreText | app.py:269 | the text `int` reads: the second `split("Score:")` piece, stripped and cut at `/`, `None` where `[1]` raises `IndexError`; characterised by `ScoreExtraction.ScoreTextOfDigits` and `ScoreExtraction.SecondMarkerEndsPiece` |
| ScoreExtraction.ExtractScore | app.py:268-272 | the score, `None` when `IndexError` or `ValueError` is raised; characterised by `ScoreExtraction.ScoreRoundTrip`, `ScoreExtraction.NoMarkerNoScore` and `ScoreExtraction.OverlongScoreIsNone` |
| ScoreExtraction.NoMarkerNoScore | app.py:268-272 | a reply without `Score:` raises `IndexError`, so no score is read |
| ScoreExtraction.FallbackHasNoScore | app.py:162 | the fallback text of a failed model call carries no score |
| ScoreExtraction.FormattedReplyScore | app.py:106 | a reply in the format the conceptual prompt requests (an evaluation, a bar, then `Score: 8/10`) scores 8 |
| ScoreExtraction.MarkerAfterPrefix | app.py:269 | with no `Score:` in the prefix, the first `Score:` is the one right after it |
| ScoreExtraction.NoMarkerStartsIn | app.py:269 | no `Score:` starts inside a stretch without `S` |
| ScoreExtraction.SecondPieceStartsWith | app.py:269 | `split("Score:")[1]` starts with the text after the first `Score:` when that text has no `S` |
| ScoreExtraction.LStripPadded | app.py:269 | stripping removes the one space before the number |
| ScoreExtraction.StripKeepsDigitsAndSlash | app.py:269 | `strip()` of `" <digits>/<rest>"` keeps `<digits>/` in front |
| ScoreExtraction.CutAtSlash | app.py:269 | `split("/")[0]` of `<digits>/<rest>` is the digits |
| ScoreExtraction.DigitsBeforeSlash | app.py:269 | stripping and then cutting at `/` gives back the digits |
| ScoreExtraction.ScoreTextOfDigits | app.py:269 | in a reply `<prefix>Score: <digits>/<rest>` with no `Score:` in the prefix, the score text is the digits |
| ScoreExtraction.ScoreRoundTrip | app.py:268-272 | a reply `<prefix>Score: <n>/<rest>`, with no `Score:` in the prefix and `n` of at most 4300 digits, scores exactly `n`, whatever follows |
| ScoreExtraction.OverlongScoreIsNone | app.py:269-272 | a score of more than 4300 digits raises `ValueError` in `int`, so there is no score |
| ScoreExtraction.PieceBetweenMarkers | app.py:269 | in a reply starting `Score: Score:`, `split("Score:")[1]` is the single space between the two |
| ScoreExtraction.SecondMarkerEndsPiece | app.py:269-272 | a second `Score:` ends the piece: a reply starting `Score: Score:`, such as `"Score: Score: 8/10"`, has no score |
| PivotValidation.EvaluatePivotTable | app.py:141-153 | the file passes iff it opens, has a `Summary` sheet that reads, with a `Region` column, at least two columns and an average-of-sales column; a passing file gets the acceptance message |
| PivotValidation.FirstFailure | app.py:144-150 | the first failing check's message, or none exactly when every check holds |
| PivotValidation.ValidatorReportsFirstFailure | app.py:144-151 | on a readable workbook the validator reports exactly the first failed requirement, in the order sheet, shape, aggregate |
| PivotValidation.MissingSummaryWins | app.py:144-145 | a missing `Summary` sheet is reported whatever else the file holds |
| PivotValidation.ReadFailureIsRejection | app.py:152-153 | a read failure becomes a rejection whose message carries the error text |
| QuestionBank.QuestionIdsAreSortedKeys | app.py:183 | the id list holds every key of the table once, in ascending string order |
| QuestionBank.QuestionTable | app.py:95-130 | the questions in id order: conceptual with no `retries` key (budget 0); values 2000 and 1350 with `retries` 1; the file question with `retries` 0 |
| Grading.JudgeValue | app.py:273-277 | a value answer is correct iff it normalizes to the expected number; 10 points and the praise when correct, otherwise 0 and the other message |
| Grading.JudgeFile | app.py:278-280 | the validator's verdict and message, and 10 points exactly when it passes |
| Grading.Judge | app.py:264-280 | a correct verdict has at least the pass mark 7; value and file verdicts give 10 or 0 |
| Grading.Awarded | app.py:283-284 | what a verdict adds to `score`: its points when correct, else nothing; characterised by `Grading.AwardedNonNegative` and `Interview.Session.Evaluate` |
| Grading.AwardedNonNegative | app.py:283-284 | a verdict never removes points, and a value or file question adds at most 10 |
| Grading.JudgeConceptual | app.py:264-272 | the sub-score is the extracted score, or 0 when there is none; correct iff a score was extracted and it is at least 7; the reply is the feedback |
| Grading.ConceptualScoreFromReply | app.py:264-272 | a reply scored `n` (at most 4300 digits) is correct iff `n >= 7`, with `n` as the sub-score and the reply in the feedback |
| Grading.ConceptualWithoutScore | app.py:268-272 | a reply without `Score:` is incorrect with sub-score 0 |
| Grading.OverlongScoreIsIncorrect | app.py:269-272 | a reply whose score has more than 4300 digits is incorrect with sub-score 0 |
| Grading.FallbackReplyIsIncorrect | app.py:160-162 | when the model call fails, the conceptual answer is judged incorrect with 0 |
| Grading.PassMarkExamples | app.py:271 | `Score: 5/10` is recorded as 5 but adds nothing; `Score: 8/10` adds 8 |
| Grading.ScoreAboveTenIsAwarded | app.py:269-271 | `Score: 11/10` adds 11 points, more than a question is worth |
| Grading.ValueVerdictIgnoresStrippedChar | app.py:273-276 | `$`, `,` and whitespace never change a value verdict |
| Grading.ValueVerdictExamples | app.py:273-277 | `"$2,000"`, `" 2000 "` and `"2000"` get the same verdict, all correct for 2000 |
| Grading.UnparsableValueIsWrong | app.py:274-276 | an answer that does not read as a number is wrong, with 0 points |
| Interview.SumAppend | app.py:284 | adding a question's points to the log adds them to the sum |
| Interview.SumBetween | app.py:187 | a sum of terms between 0 and k lies between 0 and k times their number |
| Interview.AwardsAppend | app.py:283-286 | logging a value or file question's points, at most 10, or any non-negative conceptual points keeps the log in range |
| Interview.ScoreWithinMaximum | app.py:187 | in every valid state, while conceptual sub-scores are at most 10, `0 <= score <= max_score` |
| Interview.Session.Valid | app.py:178-187 | the session invariant: stage, position and retries in range, the fixed ids and maximum, and `score` the sum of the logged awards, each in range |
| Interview.Session.Applied | app.py:281-299 | the state after a verdict: correct adds the points and advances; incorrect with retries left keeps position, score and log and spends one retry; incorrect with none advances with 0 |
| Interview.Session.constructor | app.py:178-187 | the first run: intro stage, empty history and transcript, position, retries and score 0, sorted ids, `max_score` 10 per question |
| Interview.Session.Restart | app.py:189-196 | back to the intro with everything reset except the sample file, ids and maximum |
| Interview.Session.Start | app.py:228-230 | intro moves to question |
| Interview.Session.RenderQuestion | app.py:231-234 | each rerun of the question stage sets the retries to the current question's budget |
| QuestionBank.RetryBudget | app.py:234 | `q.get("retries", 0)`: the entry's budget, or 0 when it has no `retries` key |
| QuestionBank.QuestionAt | app.py:232-233 | the entry under the `i`-th sorted id; characterised by `QuestionBank.QuestionTable` |
| Interview.Session.SubmitText | app.py:239-249 | an empty answer only warns; any other is logged in chat and transcript, stored, and goes to evaluation |
| Interview.Session.UploadFile | app.py:250-257 | an upload is logged under the file's name, stored, and goes to evaluation |
| Interview.Session.Accept | app.py:242-247 | a submission is appended to chat and transcript and the stage becomes evaluation |
| Interview.Session.Evaluate | app.py:258-301 | the verdict is `Judge` of the current question and the stored submission. Correct: its points are added and the interview advances. Incorrect with retries left: the same question again. Incorrect with none: advance with 0. After the last question the stage is report. A wrong answer never advances while the question has a budget |
| Interview.Session.ApplyVerdict | app.py:281-299 | the three outcomes of a verdict on score, position, retries, stage, transcript lines and chat messages |
| Interview.Session.Advance | app.py:283-288 | points added, position one further, result line logged, report after the last question |
| Interview.Session.RetrySameQuestion | app.py:290-294 | one retry spent, the notice shows the retries left before spending, same question again |
| Interview.Session.FinishReport | app.py:302-310 | the report is posted under its heading and the session is complete |
| InterviewScenarios.EmptyAnswerWarns | app.py:241-249 | an empty submission changes neither position, score, chat nor transcript |
| InterviewScenarios.SubmitNonEmpty | app.py:231-249 | a non-empty answer to a text question goes to evaluation with position and score unchanged and the full retry budget |
| InterviewScenarios.ScoreConceptual | app.py:264-288 | a reply scoring the first question `n >= 7` adds `n` and moves to the second question |
| InterviewScenarios.AnswerConceptual | app.py:231-288 | a conceptual answer scored `n >= 7` adds `n` and moves to the next question |
| InterviewScenarios.AnswerValue | app.py:273-288 | a value answer that normalizes to the expected number adds 10 and moves on |
| InterviewScenarios.AnswerBothValues | app.py:273-288 | `"$2,000"` and `"1,350"` answer questions 2 and 3 for 20 points |
| InterviewScenarios.UploadWithoutSummary | app.py:278-298 | a workbook without `Summary` fails the file question with no retry and the session reaches the report |
| InterviewScenarios.FirstAnswer | app.py:239-288 | an empty answer is refused, then a reply scoring 8/10 adds 8 |
| InterviewScenarios.FullInterview | app.py:222-310 | a whole interview ends complete with 8 + 10 + 10 + 0 = 28 points |
| InterviewScenarios.AnswerSecondWrongly | app.py:231-294 | a wrong answer to question 2 sends it back with the retry spent |
| InterviewScenarios.WrongAnswersNeverExhaustRetries | app.py:231-294 | any number of wrong answers to question 2 leave the interview at question 2 |

## Left out

- Streamlit rendering is not modelled: title, columns, progress bar, question counter, score metric, download button, chat bubbles, spinner, success box and transcript expander (app.py:199-227, 235-238, 303-305, 311-314). It is display only.
- `st.rerun()` and `time.sleep(1)` are not modelled. Each rerun is one method call, and the pause only paces the display.
- The calls to the Gemini model (`get_llm_evaluation`, `generate_final_report`) and the prompts built for them are not modelled. This includes `evaluation_prompt.format` and the `st.error` notice. The reply is the `reply` parameter of `Interview.Session.Evaluate`, and the report is the parameter of `Interview.Session.FinishReport`. Only the fallback text `"Error from model."` is kept.
- `create_sample_excel` writes a workbook with pandas. The model takes its bytes as the constructor's parameter.
- Reading the upload with pandas/openpyxl is left out. A workbook is its sheet names plus either the `Summary` sheet's column labels or the reader's error text. Column labels are strings; non-string labels read from a sheet are not modelled.
- Widget state kept by Streamlit between reruns is not modelled: text-box contents, the remembered upload, and widget keys.
- `AnswerNormalization.NormalizeAnswer`: `float` is modelled on decimal literals only. That means an optional sign, ASCII digits and at most one point, with an exact value. Python's `float` also accepts exponents, `inf`, `nan`, underscores and non-ASCII digits, and rounds to binary floating point. The model rejects the former and does not model the rounding.
- `Text.ParseInt`: `int` is modelled as surrounding whitespace, an optional sign and ASCII digits, with CPython's default limit of 4300 digits (`sys.int_info.default_max_str_digits`, in CPython 3.11 and the 2022 security releases of earlier versions) beyond which it raises `ValueError`. Underscores and non-ASCII digits, which Python also accepts, are not modelled; nor is a limit changed with `sys.set_int_max_str_digits`.
- `Text.IsSpace` is the whitespace set of Python's `str.isspace`, which `\s` and `strip()` use here, as a fixed list of code points.
- `QuestionBank.Question`: the type-specific keys `evaluation_prompt` and `evaluation_logic` are not kept. The kind stands for them, and the file question's kind names the one validator the table uses.
- `Interview.ScoreWithinMaximum`: states `score <= max_score` only under the hypothesis that every conceptual sub-score is at most 10, because the code does not cap it.
