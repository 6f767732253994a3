# interview-ai: the interview session state machine in Dafny

This project models the back end of an AI mock-interview service. A candidate
submits a resume and a job description. A setup pipeline then analyses the
resume, plans up to eight interview topics and asks the first question. Each
answer is recorded as a turn, evaluated, and followed by either the next
question or, after the last question, a coaching report. A main answer can
draw at most one follow-up question. Sessions live in a short-lived cache and
in a durable store. HTTP endpoints project the session into responses and map
failures to status codes.

Every call to a language model enters the model as a value:

- a `Gateway.Generation`: the text, or a failure;
- a `Replies.Reply<T>`: a parsed record, a `ValueError`, or another exception by name.

The retry loop that produces a generation is modelled on its own, over a
sequence of primary outcomes and one fallback outcome. JSON decoding is an
uninterpreted `parse` function.

Modules, one per source file:

- `Schemas` (`models/schemas.py`): enums, records, length and score bounds, the initial state.
- `Text`: Python's `strip`, the two whitespace-collapsing regex substitutions, `lower` and `in`.
- `Parser` (`core/utils.py`): `normalize_unicode` and `extract_json`.
- `Gateway` (`core/llm.py`): the retry, backoff and fallback loop of `invoke_llm`.
- `Replies`: how one agent call turns a generation into a reply.
- `Record`: the mutable `InterviewState` class that the agents update in place.
- The agents: `ResumeAnalyzer`, `Interviewer`, `Evaluator` and `Coach`.
  - Each operation is a method on `InterviewState`.
  - Each method is proved equal to a function on the state value.
  - The properties are lemmas about those functions.
- `Graph` (`agents/graph.py`): the setup and answer-processing pipelines and their routing.
- `Database` (`services/database.py`): row mappings, store updates and state reconstruction.
- `Service` (`services/interview.py`): the class `InterviewService`.
  - Its cache and its store are maps.
  - Each method is proved equal to a transition function on both stores.
  - A global invariant `Valid` is kept by every operation.
- `Routes` (`api/routes.py`): response projections, error mapping, paging, and the report and delete endpoints.

Scores are integers. Overall scores and means are integers in tenths of a point.

## Model

All source paths are under `backend/app/`.

| member | source | states |
|---|---|---|
| Schemas.ValidateConfig | backend/app/models/schemas.py:48-83 | A config is accepted exactly when the resume has 50..50000 characters and the job description 20..20000, counted before sanitising. Both texts are then sanitised. |
| Schemas.ValidateAnswer | backend/app/models/schemas.py:86-103 | An answer is accepted exactly when it has 1..10000 characters. It is then sanitised, and the result is no longer than 10000 characters. |
| Schemas.ClampScore | backend/app/models/schemas.py:152-156 | The clamp lands in 1..10. It keeps any value already in range and sends values below 1 to 1 and above 10 to 10. |
| Schemas.NewEvaluation | backend/app/models/schemas.py:144-156 | An evaluation can be built exactly when the score is in 1..10, so the clamp never alters an accepted score. Score and lists are kept. |
| Schemas.InitialState | backend/app/models/schemas.py:198-231 | A fresh state keeps its inputs. Its index is 0, its question empty, no follow-up is pending and the follow-up count is 0. It has no turns, report, profile, plan or message, and its status is "initialized". |
| Text.StripShape | backend/app/services/interview.py:27 | `strip()` returns a slice of its input. The slice has no whitespace at either end. |
| Text.StripQuotesShape | backend/app/agents/interviewer.py:146 | Stripping whitespace, then `"`, then `'` never lengthens the text. The result does not start or end with `'`. A text already free of both at its ends is kept. |
| Text.SanitizeShape | backend/app/services/interview.py:25-30 | The sanitised text is no longer than the input and has no whitespace at either end. It has no run of 3+ newlines and no run of 2+ spaces. It is empty exactly when the input is all whitespace. |
| Text.SanitizeIdempotent | backend/app/services/interview.py:25-30 | Sanitising twice is sanitising once. |
| Text.Lower | backend/app/core/llm.py:55 | Lower-casing keeps the length and maps each character on its own. |
| Parser.NormalizeUnicode | backend/app/core/utils.py:8-24 | The loop of one `replace` per table entry returns the per-character normalisation of the text. |
| Parser.Normalized | backend/app/core/utils.py:8-24 | Normalisation keeps the length and maps each character independently. |
| Parser.ReplaceChar | backend/app/core/utils.py:23 | `replace` of one character by another changes exactly the occurrences of that character. |
| Parser.NormalizeCharTable | backend/app/core/utils.py:10-21 | Each of the ten listed characters becomes its ASCII stand-in. Every other character is kept. |
| Parser.NormalizedIdempotent | backend/app/core/utils.py:10-23 | None of the ten characters survives normalisation. Normalising twice is normalising once. |
| Parser.NormalizedKeepsAscii | backend/app/core/utils.py:8-24 | Pure ASCII text is left unchanged. |
| Parser.FindFrom | backend/app/core/utils.py:63 | Finds the first occurrence at or after a position, or reports that none exists. |
| Parser.FenceEnd | backend/app/core/utils.py:63 | Finds the first position where whitespace and a closing fence begin: the lazy `(.*?)` stop. |
| Parser.FirstIndex | backend/app/core/utils.py:71 | Finds the first occurrence of a character, or reports none. |
| Parser.LastIndex | backend/app/core/utils.py:71 | Finds the last occurrence of a character, or reports none. |
| Parser.BraceWindow | backend/app/core/utils.py:71 | The brace window runs from the first `{` to the last `}` inclusive. It exists exactly when both characters occur and the `}` comes later. |
| Parser.Excerpt | backend/app/core/utils.py:78 | The excerpt is a prefix of at most 200 characters. Shorter texts are kept whole. |
| Parser.ExtractJson | backend/app/core/utils.py:48-78 | Candidates are tried in order: the whole normalised text, then the fenced body, then the brace window. The first that parses wins. Otherwise the error message ends with the first 200 characters of the normalised text. |
| Parser.NoBraceFails | backend/app/core/utils.py:70-78 | A reply with no `{` that fails the first two strategies is an extraction failure with the excerpt. |
| ParserExamples.FencedPayloadExample | backend/app/core/utils.py:62-68 | For a `json`-tagged fenced reply whose whole text does not parse, the payload inside the fence is what is returned. |
| Gateway.InvokeLlm | backend/app/core/llm.py:33-90 | With a non-negative retry count the primary is called 1..`retry_count`+1 times. Every attempt but the last failed on a rate limit. The last one succeeded, failed otherwise, or used up the retries. Wait `i` is `retry_delay*(i+1)`. The fallback is called exactly when no primary call succeeded. The result is the first success, the fallback's text, or a failure. |
| Gateway.SleepSum | backend/app/core/llm.py:62 | The waits add up to `retry_delay` times the triangle number of the wait count. |
| Gateway.TotalSleepBound | backend/app/core/llm.py:49-69 | The total wait is at most `retry_delay * retry_count * (retry_count + 1) / 2`. |
| Gateway.RateLimitIgnoresCase | backend/app/core/llm.py:55-59 | Rate-limit classification does not depend on letter case. |
| Gateway.TooManyRequestsIsRateLimit | backend/app/core/llm.py:56-59 | A message containing "429" is a rate limit. |
| Gateway.TimeoutIsNotRateLimit | backend/app/core/llm.py:56-59 | "timeout" names none of the four keywords, so it is not retried. |
| Replies.Receive | backend/app/agents/resume_analyzer.py:38-48 | A failed generation surfaces as the gateway's `RuntimeError`. A reply is parsed only when the text was generated and JSON was extracted, and then it is the decoding of exactly the extracted value. An extraction failure is a `ValueError`. |
| ResumeAnalyzer.CleanName | backend/app/agents/resume_analyzer.py:51-53 | The stored name is a prefix of the stripped name, at most 100 characters long, and does not start with whitespace. A stripped name of 100 characters or fewer is kept whole; a longer one is cut to exactly its first 100 characters. |
| ResumeAnalyzer.FailureMessage | backend/app/agents/resume_analyzer.py:65-75 | Every failure message starts "Resume analysis failed: ". A `ValueError` adds "Could not parse response"; any other exception adds its type name. |
| ResumeAnalyzer.Analyzed | backend/app/agents/resume_analyzer.py:13-75 | Success leaves the status "analyzing" and stores the profile with its cleaned name. Failure sets "error" with the failure message and keeps the old profile. Nothing else changes. |
| ResumeAnalyzer.AnalyzeResume | backend/app/agents/resume_analyzer.py:13-75 | The in-place update of the state object ends in `Analyzed` of the old state. |
| ResumeAnalyzer.GenerationFailureMessage | backend/app/agents/resume_analyzer.py:71-75 | A failed generation is reported as "Resume analysis failed: RuntimeError". |
| Interviewer.KeptTopics | backend/app/agents/interviewer.py:85-87 | The kept topics are the first `min(n, MAX_QUESTIONS)` topics received, with no padding. |
| Interviewer.Planned | backend/app/agents/interviewer.py:58-105 | Success stores the truncated plan and sets "interviewing". A `ValueError` sets "error" with the parse message; another exception sets "error" with its name. Nothing else changes. |
| Interviewer.PlanInterview | backend/app/agents/interviewer.py:58-105 | The in-place update ends in `Planned` of the old state. |
| Interviewer.TopicIndex | backend/app/agents/interviewer.py:125-129 | The topic is the one at the question index, or the last one when the index is past the end. |
| Interviewer.QuestionAsked | backend/app/agents/interviewer.py:108-160 | With a plan and a generated text, the question is the quote-stripped text. The follow-up flag and count are then reset and the status is kept. Otherwise only status and message change: "No interview plan available", or the generation failure. |
| Interviewer.GenerateQuestion | backend/app/agents/interviewer.py:108-160 | The in-place update ends in `QuestionAsked` of the old state. |
| Interviewer.FollowUpDecided | backend/app/agents/interviewer.py:163-209 | Only `is_follow_up` changes. It is set exactly when the count is under the cap and the parsed decision asks for a follow-up; every failure clears it. |
| Interviewer.DecideFollowUp | backend/app/agents/interviewer.py:163-209 | The in-place update ends in `FollowUpDecided` of the old state. |
| Interviewer.FollowUpAsked | backend/app/agents/interviewer.py:212-248 | On success the question is replaced by the follow-up, the flag is set and the count grows by one. On failure only the flag is cleared. |
| Interviewer.GenerateFollowUp | backend/app/agents/interviewer.py:212-248 | The in-place update ends in `FollowUpAsked` of the old state. |
| Interviewer.RecordedPair | backend/app/agents/interviewer.py:260-275 | The turn is numbered index+1. With a follow-up question its main question comes from the last turn, if there is one. Answers pass through `sanitize_for_prompt`, and no evaluation is attached. |
| Interviewer.Recorded | backend/app/agents/interviewer.py:251-281 | Exactly one turn is appended. Nothing else changes. |
| Interviewer.RecordAnswer | backend/app/agents/interviewer.py:251-281 | The in-place append ends in `Recorded` of the old state. |
| Interviewer.Advanced | backend/app/agents/interviewer.py:289-294 | The index grows by one and the follow-up flag and count are reset. Nothing else changes. |
| Interviewer.AdvanceQuestion | backend/app/agents/interviewer.py:289-294 | The in-place update ends in `Advanced` of the old state. |
| Interviewer.FollowUpCap | backend/app/agents/interviewer.py:171-174 | A count within `MAX_FOLLOW_UPS` stays within it after a decision and a follow-up. |
| Interviewer.NextQuestionResetsFollowUps | backend/app/agents/graph.py:86-92 | Advancing and asking moves the index by one and resets the follow-up count. Status and turns are kept. |
| Evaluator.WithLastEvaluation | backend/app/agents/evaluator.py:32-66 | Only the last turn's evaluation changes; the earlier turns are untouched. |
| Evaluator.DefaultEvaluated | backend/app/agents/evaluator.py:89-104 | With no turns nothing changes. Otherwise the last turn gets the default evaluation: score 5 with the fixed texts. |
| Evaluator.AssignDefaultEvaluation | backend/app/agents/evaluator.py:89-104 | The in-place update ends in `DefaultEvaluated` of the old state. |
| Evaluator.Evaluated | backend/app/agents/evaluator.py:13-86 | With no turns the status is "error" with "No Q&A pairs available for evaluation". Otherwise the status is "evaluating" and the last turn gets the parsed evaluation, or the default on any failure. Nothing else changes. |
| Evaluator.EvaluateAnswer | backend/app/agents/evaluator.py:13-86 | The in-place update ends in `Evaluated` of the old state. |
| Evaluator.LastPairEvaluated | backend/app/agents/evaluator.py:62-104 | After evaluating a non-empty transcript, the last turn has a score in 1..10 and the status is not "error". The score is 5 after any failure. |
| Evaluator.EarlierPairsKept | backend/app/agents/evaluator.py:32-66 | Turns before the last are never rewritten. |
| Coach.EvaluatedScores | backend/app/agents/coach.py:97-101 | Only evaluated turns contribute a score. The list is empty exactly when no turn is evaluated. |
| Coach.SumScores | backend/app/agents/coach.py:103 | The sum of n scores lies between n and 10n. |
| Coach.MeanTenths | backend/app/agents/coach.py:103 | `round(sum/n, 1)` in tenths is the nearest tenth, with exact halves going to the even tenth. |
| Coach.ScoreMean | backend/app/agents/coach.py:103 | The mean in tenths is within half a tenth of the exact mean, and an exact half goes to the even tenth. |
| Coach.Deviates | backend/app/agents/coach.py:105 | A gap of more than one point is a deviation and a gap of less is not. At exactly one point a deviation happens only for the pairs whose doubles differ by more than 1.0. |
| Coach.GradeFor | backend/app/agents/coach.py:148-157 | The grade is Excellent from 9.0, Very good from 7.0, Good from 5.0, Below average from 3.0 and Poor below, each band as an if-and-only-if. |
| Coach.Corrected | backend/app/agents/coach.py:96-111 | Only the overall score may change, and only when some turn is evaluated. The report is kept exactly when the float comparison `abs(reported - mean) > 1.0` fails (`Deviates`): a gap under one point is always kept, and a gap of exactly one point is corrected only for the six pairs whose doubles differ by more than 1.0. A corrected score is the mean, so afterwards the score is within one point of it. |
| Coach.Coached | backend/app/agents/coach.py:58-133 | With no turns the status is "error" with "No interview data available for coaching". Otherwise the status is "completed" with the corrected report, or with the default report on any failure. |
| Coach.GenerateCoachingReport | backend/app/agents/coach.py:58-133 | The in-place update ends in `Coached` of the old state. |
| Coach.DefaultReport | backend/app/agents/coach.py:136-169 | The score is the rounded mean of the evaluated scores, or 5.0 when none is evaluated. The grade follows the bands. `ready_for_role` holds exactly when the score is at least 6.0. There is no per-question feedback and the texts are fixed. |
| Coach.DefaultReported | backend/app/agents/coach.py:159-171 | The default report is stored and the status is "completed". |
| Coach.AssignDefaultReport | backend/app/agents/coach.py:136-173 | The in-place update ends in `DefaultReported` of the old state. |
| Coach.GradeMonotone | backend/app/agents/coach.py:148-157 | A higher score never earns a lower grade. |
| Coach.DefaultReadyIsGood | backend/app/agents/coach.py:148-167 | "Ready" implies at least "Good", and "Very Good" or better implies "ready". |
| Coach.MeanExact | backend/app/agents/coach.py:103 | A mean that is a whole number of tenths is reported exactly. |
| Coach.MeanOfEqualScores | backend/app/agents/coach.py:103 | Equal scores v give a mean of exactly v points. |
| Coach.SumOfEqualScores | backend/app/agents/coach.py:103 | n equal scores v sum to n·v. |
| CoachExamples.CorrectedExample | backend/app/agents/coach.py:96-111 | With scores 8, 7, 9 and 6, a reported 9.0 is corrected to 7.5. |
| CoachExamples.KeptExample | backend/app/agents/coach.py:105 | A reported score within one point of the mean is kept. |
| CoachExamples.OnePointCorrectedExample | backend/app/agents/coach.py:105 | With scores 8, 8, 8, 8 and 7 (mean 7.8), a reported 8.8 is exactly one point away yet corrected to 7.8, because 8.8 - 7.8 exceeds 1.0 in doubles. |
| CoachExamples.OnePointKeptExample | backend/app/agents/coach.py:105 | With mean 7.5, a reported 8.5 is exactly one point away and kept, because 8.5 - 7.5 is exactly 1.0. |
| CoachExamples.HalfEvenExample | backend/app/agents/coach.py:103 | 7.25 rounds to 7.2 and 7.75 to 7.8. |
| CoachExamples.DefaultExample | backend/app/agents/coach.py:138-169 | Scores 4 and 6 give a default report of 5.0, "Good", not ready. |
| CoachExamples.NoEvaluationExample | backend/app/agents/coach.py:143 | With no evaluated turn the default report scores 5.0. |
| Graph.CheckSetupError | backend/app/agents/graph.py:102-107 | The route is "error" exactly when the status is "error"; otherwise "continue". |
| Graph.CheckInterviewComplete | backend/app/agents/graph.py:109-130 | The route is "error" on an error status. Otherwise it is "done" exactly when the index is at least `MAX_QUESTIONS`-1, and "continue" below that. |
| Graph.RunSetup | backend/app/agents/graph.py:134-239 | The result is `SetupResult`. A normal run works on a fresh copy and leaves the caller's object alone; the copy comes back with the language at English, because the graph state has no language key. A raised pipeline marks the caller's own object "error" with "Interview setup failed: <name>" and returns it, language unchanged. |
| Graph.AdvanceAndGenerate | backend/app/agents/graph.py:86-92 | Advance, then ask, on the same object. |
| Graph.RunProcessAnswer | backend/app/agents/graph.py:173-261 | The result is `ProcessResult`. A normal run works on a fresh copy, which comes back with the language at English. A raised pipeline marks the caller's object "error" with "Answer processing failed: <name>". |
| Graph.SetupChain | backend/app/agents/graph.py:134-170 | The three setup nodes write only the profile, the plan, the question and its flags, the status and the message. A run that does not end in "error" had all three replies succeed. |
| Graph.SetupResult | backend/app/agents/graph.py:218-239 | A raised pipeline leaves the state as it was except status "error" and "Interview setup failed: <name>". Otherwise the result is the chain run on the state with its language at English. |
| Graph.AdvancedAndAsked | backend/app/agents/graph.py:86-92 | The index moves on by exactly one and the turns are kept. Unless the question generation fails, the status is kept, the follow-up flags are cleared and the question is the generated text without quotes. |
| Graph.ProcessChain | backend/app/agents/graph.py:173-209 | Evaluation, then the next question or the report, never changes the language, the profile, the plan or the number of turns. |
| Graph.ProcessResult | backend/app/agents/graph.py:242-261 | A raised pipeline leaves the state as it was except status "error" and "Answer processing failed: <name>". Otherwise the result is the chain run on the state with its language at English. |
| Graph.SetupForgetsLanguage | backend/app/agents/graph.py:233-234 | A session started in Indonesian comes back from a fault-free setup in English. |
| Graph.SetupKeepingLanguage | backend/app/agents/graph.py:24-48 | With a language key in the graph state, setup keeps the language and agrees with `SetupResult` on every other field. |
| Graph.SetupOutcome | backend/app/agents/graph.py:134-170 | Setup from a fresh state ends "interviewing" or "error", with no turns and no report. "Interviewing" implies the three replies succeeded, a profile, a plan of 1..`MAX_QUESTIONS` topics, index 0 and no follow-up. |
| Graph.ProcessOutcome | backend/app/agents/graph.py:173-209 | Processing a recorded answer ends "evaluating", "completed" or "error". It completes exactly when the index is at least `MAX_QUESTIONS`-1, and then with a report. The turn count is unchanged. |
| Graph.ContinueAdvancesOnce | backend/app/agents/graph.py:86-130 | When the interview goes on, the index moves by exactly one. |
| Graph.ProcessKeepsTurns | backend/app/agents/graph.py:173-261 | Processing, even when it raises, keeps every turn; only the last turn's evaluation may change. |
| Graph.IndexStaysBounded | backend/app/agents/graph.py:124-130 | An index within `MAX_QUESTIONS`-1 stays within it. |
| Graph.SetupStopsAtFirstError | backend/app/agents/graph.py:152-168 | Planning never follows a failed analysis, and asking never follows a failed plan. |
| Graph.ProcessRunsOneBranch | backend/app/agents/graph.py:191-207 | Evaluation comes first. Then exactly the branch the route names runs: advance and ask, coaching, or nothing. |
| Graph.FaultKeepsState | backend/app/agents/graph.py:235-261 | A raised pipeline changes only the status and the message. |
| Database.NewRow | backend/app/services/database.py:28-48 | The new row copies inputs, profile, plan, status and message. It has no score, no turns, no report and is not completed. |
| Database.RowsOf | backend/app/services/database.py:125-136 | There is one row per turn, in order. |
| Database.PairOf | backend/app/services/database.py:208-229 | An evaluation is rebuilt exactly when the score is stored. Missing lists become `[]` and missing notes `""`. |
| Database.PairsOf | backend/app/services/database.py:209-229 | There is one turn per row, in row order. |
| Database.RowOf | backend/app/services/database.py:119-145 | A turn's row copies its number, question, answer and follow-up. It has a score exactly when the turn is evaluated. Score, strengths, weaknesses and notes come from the evaluation, and are all empty without one. |
| Database.Reloaded | backend/app/services/database.py:193-253 | The rebuilt state takes inputs, profile, plan, report, status and message from the row, and one turn per turn row. The index is the number of turns, less one for a completed session with turns. Language, question and follow-up context are at their defaults. |
| Database.RebuildState | backend/app/services/database.py:193-253 | The loop that rebuilds the state returns `Reloaded(row)`. |
| Database.Created | backend/app/services/database.py:28-55 | The new row is stored under the id. The other rows are kept. |
| Database.StatusUpdated | backend/app/services/database.py:75-92 | Status and message are overwritten and the completion flag is set for "completed". A missing row stays missing. |
| Database.PairSaved | backend/app/services/database.py:119-145 | The turn's row is appended after the others. A missing session is an integrity error. |
| Database.ReportSaved | backend/app/services/database.py:149-165 | The report is attached to an existing session. |
| Database.FinalScoreUpdated | backend/app/services/database.py:168-189 | Score, grade, "completed" and the completion flag are set. A missing row is left alone. |
| Database.Deleted | backend/app/api/routes.py:414-423 | The row with its turns and report is gone. The result says whether it existed, and every other row is kept. |
| Database.RowRoundTrip | backend/app/services/database.py:208-229 | A row `save_qa_pair` can write is written back the same after a reload. |
| Database.RowsRoundTrip | backend/app/services/database.py:208-229 | Such rows round-trip in order. |
| Database.PairRoundTrip | backend/app/services/database.py:208-229 | A saved turn is rebuilt as the same turn. |
| Database.PairsRoundTrip | backend/app/services/database.py:208-229 | Saved turns are rebuilt as the same turns, in order. |
| Database.SaveThenReload | backend/app/services/database.py:193-253 | A saved session reloads with the same inputs, profile, plan, turns, status and message. The index is the turn count, less one once completed. Question, follow-up fields and language come back at their defaults. |
| Service.CacheKey | backend/app/services/interview.py:17-23 | The key is "interview: " (with the space) followed by the id. |
| Service.Loaded | backend/app/services/interview.py:66-106 | Loading never changes the store. It fails with "Session not found" exactly when the session is in neither store, and then nothing changes. A cache hit is returned as stored and changes nothing. Otherwise the session is rebuilt from its row with no follow-up pending, and cached under its key unless it is completed or in error. No other cache key changes. |
| Service.Started | backend/app/services/interview.py:110-150 | The state setup produced is stored as a new row and cached with no follow-up pending, whatever its status. Every other row and cache key is unchanged. |
| Service.Synced | backend/app/services/interview.py:318-357 | The session leaves the cache exactly when it completed with a report or failed; otherwise it is cached with no follow-up pending. Its row takes the new status and keeps its turns. A completed row is flagged completed, and with a report it gets the report and its score. A failed row gets the error message; any other status clears it. No other row or key changes. |
| Service.Saved | backend/app/services/interview.py:255-259 | Saving fails exactly when the session has no row, with the insert's error, and then nothing changes. Otherwise the last turn's row is added after the others, the row takes the new status, and no follow-up is pending. |
| Service.Committed | backend/app/services/interview.py:240-259 | Committing fails exactly when the session has no row, and then nothing changes. Otherwise the state gains exactly the given turn (up to its evaluation) after the earlier ones, the row gains that turn's row, the row's status is the state's, and no follow-up is pending. |
| Service.MainAnswered | backend/app/services/interview.py:201-270 | The result awaits a follow-up exactly when one is decided. Then no turn is recorded, the store is unchanged, and the main question and answer wait in the cache. Otherwise the answer fails only for a session without a row, and it becomes one turn numbered index+1 with the current question and no follow-up. |
| Service.MainTurn | backend/app/services/interview.py:241-245 | The turn of a main answer is numbered index+1 and holds the current question, the answer, no follow-up and no evaluation. |
| Service.FollowUpPending | backend/app/services/interview.py:213-237 | The result awaits a follow-up and the store is unchanged. No turn is recorded and the status is kept. The cache holds the new state with the original question and the answer pending. No other key changes. |
| Service.FollowUpTurn | backend/app/services/interview.py:283-289 | The turn of a follow-up answer is numbered index+1. It holds the pending question and answer, the follow-up question shown and the follow-up answer, and no evaluation. |
| Service.Submitted | backend/app/services/interview.py:153-189 | A session that cannot be loaded gives "Session not found" and nothing changes. A completed session gives "Interview already completed" and a failed one "Interview is in error state", changing only what loading did. An accepted answer needs an active session and a non-empty sanitised answer, and such an answer to a stored session is always accepted. A database error happens only for a session without a row. |
| Service.ValidSession | backend/app/services/interview.py:66-106 | In valid stores a cached session has a row with the same status and turns, and is interviewing or in error. A completed row holds `MAX_QUESTIONS` turns, a report and the completion flag. An interviewing row holds fewer than `MAX_QUESTIONS` turns. |
| Service.Processed | backend/app/services/interview.py:246-253 | One turn is appended and the earlier turns are kept. The new turn is kept up to its evaluation. The session ends "interviewing", "completed" or "error": the pipeline's "evaluating" never reaches the stores. |
| Service.ProcessTurn | backend/app/services/interview.py:246-253 | The in-place append, pipeline run and normalisation end in `Processed`. |
| Service.LoadKeepsValid | backend/app/services/interview.py:66-106 | Loading changes no row and keeps the stores valid. An active session is left cached as returned. |
| Service.StartKeepsValid | backend/app/services/interview.py:110-150 | Starting a session keeps the stores valid, whatever setup yields. |
| Service.ProcessedOutcome | backend/app/services/interview.py:246-253 | A processed turn goes on "interviewing" at index+1 with the follow-up count reset. Or it completes with a report, only after question `MAX_QUESTIONS`. Or it fails. |
| Service.SyncKeepsValid | backend/app/services/interview.py:318-357 | Each branch of the sync keeps the session valid. |
| Service.CommitKeepsValid | backend/app/services/interview.py:239-270 | Committing a turn keeps the stores valid. |
| Service.PendingKeepsValid | backend/app/services/interview.py:213-237 | Caching a pending follow-up keeps the stores valid. |
| Service.SubmitKeepsValid | backend/app/services/interview.py:153-189 | Submitting any answer keeps the stores valid, whatever the model calls yield. |
| Service.CommitShape | backend/app/services/interview.py:240-270 | A committed turn adds exactly one turn and returns no pending follow-up. |
| Service.AnswerOutcome | backend/app/services/interview.py:153-189 | An accepted answer leaves one of three states. (1) Interviewing with one turn per question asked, fewer than `MAX_QUESTIONS`. (2) Completed with a report and `MAX_QUESTIONS` turns. (3) In error. Only an interviewing session awaits a follow-up. |
| Service.RejectedChangesNothing | backend/app/services/interview.py:170-179 | A refused answer changes nothing beyond what loading did. |
| Service.CompletedRefusesAnswers | backend/app/services/interview.py:171-172 | A completed session refuses with "Interview already completed" and nothing changes. |
| Service.ErrorRefusesAnswers | backend/app/services/interview.py:173-174 | A session in error refuses with "Interview is in error state" and nothing changes. |
| Service.BlankAnswerRefused | backend/app/services/interview.py:177-179 | An all-whitespace answer is refused with "Answer cannot be empty" before any model call. |
| Service.UnknownSessionNotFound | backend/app/services/interview.py:88-90 | A session in neither store raises "Session not found", and nothing changes. |
| Service.ReloadAfterEviction | backend/app/services/interview.py:88-103 | A cached session rebuilt from its row has the same turns and status, and the same index while interviewing. Question and follow-up context are lost. The language is English, as after any pipeline run. |
| Service.FailedFollowUpStillAwaits | backend/app/services/interview.py:213-237 | When a follow-up is decided but cannot be generated, the session still awaits a follow-up answer. The resulting turn records the main question as its own follow-up question. |
| Service.StartStoresSession | backend/app/services/interview.py:122-139 | The started session is stored with no turns and cached with no follow-up pending, whatever setup yields. Its status is "interviewing" or "error". |
| Service.InterviewService.CacheSession | backend/app/services/interview.py:34-52 | Writes the session under its key. The store is untouched. |
| Service.InterviewService.ClearCache | backend/app/services/interview.py:60-62 | Deletes the session's key. The store is untouched. |
| Service.InterviewService.UpdateSessionStatus | backend/app/services/database.py:75-92 | Applies `StatusUpdated` to the store. |
| Service.InterviewService.SaveQAPair | backend/app/services/database.py:119-145 | Applies `PairSaved`. A failure leaves the store as it was. |
| Service.InterviewService.SaveCoachingReport | backend/app/services/database.py:149-165 | Applies `ReportSaved`. |
| Service.InterviewService.UpdateSessionFinalScore | backend/app/services/database.py:168-189 | Applies `FinalScoreUpdated`. |
| Service.InterviewService.LoadSession | backend/app/services/interview.py:66-106 | Result and new stores are `Loaded`, and validity is kept. |
| Service.InterviewService.GetSessionStatus | backend/app/services/interview.py:192-197 | The same as loading. |
| Service.InterviewService.StartInterview | backend/app/services/interview.py:110-150 | Result and new stores are `Started`, and validity is kept. |
| Service.InterviewService.SyncAfterProcessing | backend/app/services/interview.py:318-357 | The new stores are `Synced`. |
| Service.InterviewService.SaveTurn | backend/app/services/interview.py:255-259 | Saves the last turn, then syncs. A failed insert stops before the sync. |
| Service.InterviewService.AskFollowUp | backend/app/services/interview.py:213-237 | Asks the follow-up and caches it with the main question and answer pending. |
| Service.InterviewService.CommitTurn | backend/app/services/interview.py:240-259 | Processes the turn on a new state object, then saves it. |
| Service.InterviewService.HandleMainAnswer | backend/app/services/interview.py:201-270 | Result and new stores are `MainAnswered`. |
| Service.InterviewService.FollowDecision | backend/app/services/interview.py:213-270 | A follow-up is asked exactly when one was decided. Otherwise the answer is committed as a turn of its own. |
| Service.InterviewService.HandleFollowUpAnswer | backend/app/services/interview.py:273-314 | The pending question and answer become a turn with the follow-up attached, which is then committed. |
| Service.InterviewService.SubmitAnswer | backend/app/services/interview.py:153-189 | Result and new stores are `Submitted`, and validity is kept. |
| Routes.CurrentQuestion | backend/app/api/routes.py:209-211 | The question is absent exactly when the status is "completed" or "error". Otherwise it is the current question. |
| Routes.DisplayStatus | backend/app/api/routes.py:214-216 | The status shown is "awaiting_follow_up" exactly when a follow-up is pending. Otherwise it is the state's status. |
| Routes.LastEvaluation | backend/app/api/routes.py:184-195 | An evaluation is shown exactly when no follow-up is pending and the last turn is evaluated. It carries that turn's score, strengths and weaknesses. |
| Routes.AnswerErrorOf | backend/app/api/routes.py:230-241 | A `ValueError` containing "not found" in any case is a 404 "Session not found". Any other `ValueError` is a 400 with its message. Anything else is a 500 with the generic message. |
| Routes.PageClamp | backend/app/api/routes.py:319-320 | The page becomes at least 1 and the page size 1..50. Values already in range are kept; out-of-range ones go to the nearest bound. |
| Routes.PageClampIdempotent | backend/app/api/routes.py:319-320 | Clamping twice is clamping once. |
| Routes.AnswerQuestionNumber | backend/app/api/routes.py:203-206 | A completed session shows the number of turns; any other shows index+1. An ongoing interviewing session shows one more than its number of turns. |
| Routes.AnswerResponseOf | backend/app/api/routes.py:176-228 | The answer response echoes the id and the follow-up flag and shows `MAX_QUESTIONS` as the total. Its status is "awaiting_follow_up" exactly when a follow-up is pending, and otherwise the state's status (`DisplayStatus`). The question is absent exactly when the session is completed or failed, and otherwise the current question (`CurrentQuestion`). The evaluation is the last turn's score, strengths and weaknesses exactly when no follow-up is pending and that turn is evaluated (`LastEvaluation`). The report and error message are the state's. |
| Routes.StatusResponseOf | backend/app/api/routes.py:254-293 | The status response echoes the id and the follow-up flag. Its status is "awaiting_follow_up" exactly when a follow-up is pending, and otherwise the state's status. The question is absent exactly when the session is completed or failed, and otherwise the current question. It shows the interview type and difficulty by name, question number index+1 and the number of turns as answered. The profile's candidate name is shown exactly when there is a profile. The report's score and grade name are shown exactly when there is a report. The error message is the state's. |
| Routes.StartResponseOf | backend/app/api/routes.py:140-154 | The start response shows the id, the status, the question, index+1 and `MAX_QUESTIONS`. The candidate is "Unknown" without a profile and the profile's name otherwise. The error message is the state's. |
| Routes.StartEndpoint | backend/app/api/routes.py:125-154 | The session started is stored and cached. The response shows the stored status and error message and the cached question. |
| Routes.SubmitEndpoint | backend/app/api/routes.py:164-241 | A request failing the checks on the id and the answer length is a 422 and changes nothing. Any other request changes the stores as the service does. Its response is shown only when the service accepts the answer, and its failure is mapped by `AnswerErrorOf`. |
| Routes.SessionEndpoint | backend/app/api/routes.py:244-296 | The status endpoint never changes the store. It is a 404 exactly when the session is in neither store, and then nothing changes. A cached session is shown as cached. |
| Routes.ReportEndpoint | backend/app/api/routes.py:363-396 | A missing session is a 404. A session not completed has no report and the message "Interview not yet completed". A completed one shows its report. |
| Routes.MissingSessionIsNotFound | backend/app/api/routes.py:232-233 | The service's "Session not found" becomes a 404. |
| Routes.ShapedAnswerConsistent | backend/app/api/routes.py:184-228 | An answer shaped as the service returns it has a consistent response. `is_follow_up` holds exactly when the status is "awaiting_follow_up"; a follow-up shows a question and no evaluation. A completed interview shows its report, no question and number `MAX_QUESTIONS`. An interviewing one shows a number in 1..`MAX_QUESTIONS`. |
| Routes.AnswerResponseConsistent | backend/app/api/routes.py:176-228 | For an accepted answer, `is_follow_up` holds exactly when the status shown is "awaiting_follow_up", and a follow-up shows a question and no evaluation. A completed interview shows its report, no question and question number `MAX_QUESTIONS`. An interviewing one shows a number in 1..`MAX_QUESTIONS`. |
| Routes.UnknownSessionAnswerIsNotFound | backend/app/api/routes.py:230-233 | Answering an unknown session is a 404 and changes nothing. |
| Routes.CompletedAnswerIsBadRequest | backend/app/api/routes.py:230-234 | Answering a completed session is a 400 with "Interview already completed" and changes nothing. |
| Routes.ErrorAnswerIsBadRequest | backend/app/api/routes.py:230-234 | Answering a failed session is a 400 with "Interview is in error state" and changes nothing. |
| Routes.BlankAnswerIsBadRequest | backend/app/api/routes.py:230-234 | An answer of blanks passes the request checks and is then a 400 with "Answer cannot be empty". |
| Routes.SessionEndpointAgrees | backend/app/api/routes.py:244-296 | The status endpoint finds exactly the stored sessions and reports the rest as 404. It counts their stored turns and shows the stored status unless a follow-up is pending. A completed session shows a score and no question. |
| Routes.CompletedReportAvailable | backend/app/api/routes.py:388-396 | The report of every completed session can be fetched. |
| Routes.DeleteAsWritten | backend/app/api/routes.py:409-431 | As written, deleting succeeds exactly for a stored session and removes only its row. A missing session is a 404 and nothing changes. On success only the key "interview:" + id leaves the cache. |
| Routes.DeleteEndpoint | backend/app/api/routes.py:409-431 | Deleting succeeds exactly for a stored session and removes only its row. A missing session is a 404 and nothing changes. On success the session's own cache key is gone and no other key changes. |
| Routes.DeleteKeyAsWritten | backend/app/api/routes.py:426 | The key the delete endpoint clears is "interview:" followed by the id, one character short of the cache key's prefix. |
| Routes.DeleteKeyMissesSession | backend/app/api/routes.py:426 | That key never equals the key the session is cached under. |
| Routes.DeletedSessionStillServed | backend/app/api/routes.py:409-431 | As written, deleting a cached session removes its row but leaves it cached. It still loads and is still served by the status endpoint, and the stores no longer agree. |
| Routes.DeleteForgetsSession | backend/app/api/routes.py:409-431 | Clearing the session's own key deletes exactly the stored sessions and reports the rest as 404. The stores stay valid, and the session then loads as "Session not found" and is a 404 at the status endpoint. |

## Left out

- Prompts, prompt formatting and the model clients: generations and replies are inputs. `sanitize_for_prompt` is an uninterpreted function parameter of `Interviewer.RecordedPair`, because its patterns rely on case-insensitive regular expressions.
- `json.loads` and the regular-expression engine. JSON decoding is an uninterpreted `parse`. The fenced-block and brace regexes are written out as searches.
- `Text.Lower` folds ASCII letters only, and `Text.IsSpace` lists Python's whitespace characters explicitly.
- The cache's time-to-live and availability. A session leaving the cache is modelled by `Service.ReloadAfterEviction`.
- Concurrency: the thread hand-offs and simultaneous submissions for one session. Sleeping is recorded as requested waits.
- Floating point. Scores and means are integer tenths, and `round` ties go to the even tenth. The one float comparison whose outcome differs from exact tenths, a gap of exactly one point, is written out in `Coach.Deviates`. This assumes the reported overall score is a whole number of tenths.
- Timestamps. `completed_at` is a flag, and session ids are given, not generated. The source draws each id from `uuid.uuid4().hex` (backend/app/services/interview.py:122), so it never starts a session under a stored id. `Service.Started` and `Database.Created` overwrite the row in that case, where the insert would raise an integrity error.
- The store is a map of rows with turns kept in insertion order. The query's ordering by question number is not modelled separately.
- Database exceptions other than the turn insert failing for a missing session.
- `update_session_results`, `get_session` and `has_more_questions`.
  - `update_session_results` is not called by the service.
  - `get_session` is the map lookup.
  - `has_more_questions` is `Interviewer.HasMoreQuestions`, a predicate the pipelines never consult.
- `list_sessions` and `get_coaching_report` are not part of this model. The history endpoint is modelled only by its paging clamp. The report endpoint reads the report attached to the row.
- `delete_session` is not part of this model. `Database.Deleted` follows what the delete endpoint says it removes.
- The language column. The graph state schema has no language key (backend/app/agents/graph.py:24-48), so every pipeline run that does not raise returns the session in English (`Graph.SetupForgetsLanguage`), and the evaluator's prompt is never in the chosen language. The row's `language` column defaults to "en" (backend/app/models/tables.py:33); `create_session` never sets it and `db_to_interview_state` never reads it, so a reloaded session is in English too (`Database.SaveThenReload`). The column itself and the prompts are not modelled.
- The answer passed to `decide_follow_up` and `generate_follow_up` only shapes prompts, so those agents do not take it.
- The 422 response body of request validation; `Routes.HttpError.ValidationFailed` stands for it.
- The 500 paths of the start, status, report and delete endpoints, because the model raises no such exceptions.
- The field constraints of a pydantic model are checked before its validators run. So the lengths are checked on the raw text, and `clamp_score` never changes an accepted score (`Schemas.NewEvaluation`).

## Findings

| source | as written | input that shows it | evidently intended | confidence | as-written member | corrected member |
|---|---|---|---|---|---|---|
| backend/app/api/routes.py:426 | The delete endpoint clears the key "interview:" + id. The service caches a session under "interview: " + id, with a space (backend/app/services/interview.py:23). | Start a session, then delete it. Its row is gone, but the cache entry survives until it expires, so fetching the session returns 200 instead of 404. | Clear the key the service writes, `Service.CacheKey(id)`. | high; not executed | Routes.DeletedSessionStillServed | Routes.DeleteForgetsSession |
| backend/app/agents/graph.py:233-234 | `run_setup` and `run_process_answer` return the state rebuilt from the graph's result. The graph state schema has no `language` key (backend/app/agents/graph.py:24-48), so the result carries the default language. | Start a session with language "id". The session comes back from setup in English, and every later evaluation prompt is in English. | A `language` key in the graph state, so a run keeps the session's language. The rest of the model follows the code as written; nothing else it models depends on the language. | medium (rests on the graph keeping only schema keys); not executed | Graph.SetupForgetsLanguage | Graph.SetupKeepingLanguage |

