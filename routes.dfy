/**
 * The HTTP endpoints: each one calls the service, projects the state it
 * returns into a response, and maps the service's failures to status codes.
 * The stores are threaded through as values; the delete endpoint is given
 * twice, once as written (clearing a differently spelled cache key) and once
 * as evidently intended.
 */
module Routes {
  import opened Wrappers
  import opened Schemas
  import Text
  import Database
  import Service
  import Graph

  const AWAITING_FOLLOW_UP: string := "awaiting_follow_up"
  const SESSION_NOT_FOUND: string := "Session not found"
  const ANSWER_FAILED: string := "Failed to process answer. Please try again."
  const NOT_COMPLETED: string := "Interview not yet completed"
  const DELETED: string := "Session deleted successfully"
  const UNKNOWN_CANDIDATE: string := "Unknown"
  /** `SubmitAnswerRequest.answer`: `max_length=10000`. */
  const MAX_ANSWER_LENGTH: nat := 10000
  const MAX_PAGE_SIZE: nat := 50

  /** An error response: a status code with its detail, or the framework's request validation failure (422). */
  datatype HttpError = HttpError(code: nat, detail: string) | ValidationFailed

  datatype EvaluationDetail = EvaluationDetail(score: Score, strengths: seq<string>, weaknesses: seq<string>)

  datatype StartResponse = StartResponse(
    sessionId: string,
    status: string,
    currentQuestion: string,
    questionNumber: int,
    totalQuestions: nat,
    candidateName: string,
    interviewType: string,
    difficulty: string,
    errorMessage: Option<string>)

  datatype AnswerResponse = AnswerResponse(
    sessionId: string,
    status: string,
    currentQuestion: Option<string>,
    questionNumber: int,
    isFollowUp: bool,
    totalQuestions: nat,
    lastEvaluation: Option<EvaluationDetail>,
    finalReport: Option<FinalReport>,
    errorMessage: Option<string>)

  datatype StatusResponse = StatusResponse(
    sessionId: string,
    status: string,
    candidateName: Option<string>,
    interviewType: string,
    difficulty: string,
    currentQuestion: Option<string>,
    questionNumber: int,
    isFollowUp: bool,
    totalQuestions: nat,
    questionsAnswered: nat,
    overallScore: Option<Tenths>,
    overallGrade: Option<string>,
    errorMessage: Option<string>)

  datatype ReportResponse = ReportResponse(
    sessionId: string,
    status: string,
    report: Option<FinalReport>,
    errorMessage: Option<string>)

  datatype DeleteResponse = DeleteResponse(message: string, sessionId: string)

  // ---------------------------------------------------------------- projections

  /** The question shown: none once the interview is completed or failed. */
  function CurrentQuestion(s: State): (q: Option<string>)
    ensures q.None? <==> s.status.IsTerminal()
    ensures q.Some? ==> q.value == s.currentQuestion
  {
    if s.status.IsTerminal() then None else Some(s.currentQuestion)
  }

  /** The status shown: a pending follow-up is told apart from every status of the session. */
  function DisplayStatus(s: State, awaiting: bool): (d: string)
    ensures d == AWAITING_FOLLOW_UP <==> awaiting
    ensures !awaiting ==> d == StatusName(s.status)
  {
    if awaiting then AWAITING_FOLLOW_UP else StatusName(s.status)
  }

  /** The question number of an answer response: the number of turns once completed. */
  function AnswerQuestionNumber(s: State): (n: int)
    ensures s.status == Completed ==> n == |s.qaPairs|
    ensures s.status != Completed ==> n == s.currentQuestionIndex + 1
    ensures s.status == Interviewing && Service.Ongoing(s) ==> n == |s.qaPairs| + 1
  {
    if s.status == Completed then |s.qaPairs| else s.currentQuestionIndex + 1
  }

  /** The evaluation shown: the last turn's, without its notes, unless a follow-up is pending. */
  function LastEvaluation(s: State, awaiting: bool): (e: Option<EvaluationDetail>)
    ensures e.Some? <==> !awaiting && s.qaPairs != [] && s.qaPairs[|s.qaPairs| - 1].evaluation.Some?
    ensures e.Some? ==> var v := s.qaPairs[|s.qaPairs| - 1].evaluation.value;
      e.value == EvaluationDetail(v.score, v.strengths, v.weaknesses)
  {
    if !awaiting && s.qaPairs != [] && s.qaPairs[|s.qaPairs| - 1].evaluation.Some? then
      var v := s.qaPairs[|s.qaPairs| - 1].evaluation.value;
      Some(EvaluationDetail(v.score, v.strengths, v.weaknesses))
    else None
  }

  /** `SubmitAnswerResponse` built from what the service returns. */
  function AnswerResponseOf(id: string, a: Service.Answered): (res: AnswerResponse)
    ensures res.sessionId == id && res.isFollowUp == a.awaitingFollowUp && res.totalQuestions == MAX_QUESTIONS
    ensures res.status == AWAITING_FOLLOW_UP <==> a.awaitingFollowUp
    ensures res.status == DisplayStatus(a.state, a.awaitingFollowUp)
    ensures res.currentQuestion.None? <==> a.state.status.IsTerminal()
    ensures res.currentQuestion == CurrentQuestion(a.state)
    ensures res.questionNumber == AnswerQuestionNumber(a.state)
    ensures a.awaitingFollowUp ==> res.lastEvaluation.None?
    ensures res.lastEvaluation == LastEvaluation(a.state, a.awaitingFollowUp)
    ensures res.finalReport == a.state.finalReport && res.errorMessage == a.state.errorMessage
  {
    AnswerResponse(id, DisplayStatus(a.state, a.awaitingFollowUp), CurrentQuestion(a.state),
                   AnswerQuestionNumber(a.state), a.awaitingFollowUp, MAX_QUESTIONS,
                   LastEvaluation(a.state, a.awaitingFollowUp), a.state.finalReport, a.state.errorMessage)
  }

  /** `SessionStatusResponse` built from a loaded session. */
  function StatusResponseOf(id: string, data: Service.SessionData): (res: StatusResponse)
    ensures res.sessionId == id && res.isFollowUp == data.awaitingFollowUp && res.totalQuestions == MAX_QUESTIONS
    ensures res.status == AWAITING_FOLLOW_UP <==> data.awaitingFollowUp
    ensures res.status == DisplayStatus(data.state, data.awaitingFollowUp)
    ensures res.currentQuestion.None? <==> data.state.status.IsTerminal()
    ensures res.currentQuestion == CurrentQuestion(data.state)
    ensures res.interviewType == InterviewTypeName(data.state.interviewType)
    ensures res.difficulty == DifficultyName(data.state.difficulty)
    ensures data.state.candidateProfile.Some? ==> res.candidateName == Some(data.state.candidateProfile.value.candidateName)
    ensures data.state.finalReport.Some? ==> res.overallGrade == Some(GradeName(data.state.finalReport.value.overallGrade))
    ensures res.errorMessage == data.state.errorMessage
    ensures res.questionNumber == data.state.currentQuestionIndex + 1
    ensures res.questionsAnswered == |data.state.qaPairs|
    ensures res.candidateName.Some? <==> data.state.candidateProfile.Some?
    ensures res.overallScore.Some? <==> data.state.finalReport.Some?
    ensures res.overallGrade.Some? <==> data.state.finalReport.Some?
    ensures data.state.finalReport.Some? ==> res.overallScore == Some(data.state.finalReport.value.overallScore)
  {
    var s := data.state;
    StatusResponse(
      id, DisplayStatus(s, data.awaitingFollowUp),
      if s.candidateProfile.Some? then Some(s.candidateProfile.value.candidateName) else None,
      InterviewTypeName(s.interviewType), DifficultyName(s.difficulty), CurrentQuestion(s),
      s.currentQuestionIndex + 1, data.awaitingFollowUp, MAX_QUESTIONS, |s.qaPairs|,
      if s.finalReport.Some? then Some(s.finalReport.value.overallScore) else None,
      if s.finalReport.Some? then Some(GradeName(s.finalReport.value.overallGrade)) else None,
      s.errorMessage)
  }

  /** `StartInterviewResponse` built from the state setup produced. */
  function StartResponseOf(id: string, s: State): (res: StartResponse)
    ensures res.sessionId == id && res.status == StatusName(s.status) && res.currentQuestion == s.currentQuestion
    ensures res.questionNumber == s.currentQuestionIndex + 1 && res.totalQuestions == MAX_QUESTIONS
    ensures s.candidateProfile.None? ==> res.candidateName == UNKNOWN_CANDIDATE
    ensures s.candidateProfile.Some? ==> res.candidateName == s.candidateProfile.value.candidateName
    ensures res.errorMessage == s.errorMessage
  {
    StartResponse(id, StatusName(s.status), s.currentQuestion, s.currentQuestionIndex + 1, MAX_QUESTIONS,
                  if s.candidateProfile.Some? then s.candidateProfile.value.candidateName else UNKNOWN_CANDIDATE,
                  InterviewTypeName(s.interviewType), DifficultyName(s.difficulty), s.errorMessage)
  }

  // ---------------------------------------------------------------- errors and paging

  /** The answer endpoint's handlers: "not found" in a `ValueError` is 404, any other `ValueError` 400, anything else 500. */
  function AnswerErrorOf(f: Service.Failure): (e: HttpError)
    ensures e.HttpError? && (e.code == 404 || e.code == 400 || e.code == 500)
    ensures e.code == 404 <==> f.ValueError? && Text.Contains(Text.Lower(f.message), "not found")
    ensures e.code == 404 ==> e.detail == SESSION_NOT_FOUND
    ensures e.code == 400 ==> f.ValueError? && e.detail == f.message
    ensures e.code == 500 <==> f.DatabaseError?
    ensures e.code == 500 ==> e.detail == ANSWER_FAILED
  {
    match f
    case ValueError(message) =>
      if Text.Contains(Text.Lower(message), "not found") then HttpError(404, SESSION_NOT_FOUND)
      else HttpError(400, message)
    case DatabaseError(_) => HttpError(500, ANSWER_FAILED)
  }

  /** The history endpoint's paging: a page of at least 1 and a page size between 1 and 50. */
  function PageClamp(page: int, pageSize: int): (r: (int, int))
    ensures r.0 >= 1 && 1 <= r.1 <= MAX_PAGE_SIZE
    ensures page >= 1 ==> r.0 == page
    ensures 1 <= pageSize <= MAX_PAGE_SIZE ==> r.1 == pageSize
    ensures page < 1 ==> r.0 == 1
    ensures pageSize > MAX_PAGE_SIZE ==> r.1 == MAX_PAGE_SIZE
    ensures pageSize < 1 ==> r.1 == 1
  {
    var p := if page > 1 then page else 1;
    var bounded := if pageSize < MAX_PAGE_SIZE then pageSize else MAX_PAGE_SIZE;
    (p, if bounded > 1 then bounded else 1)
  }

  // ---------------------------------------------------------------- endpoints

  /** `POST /start`: the configuration arrives validated; the session is started and its first question shown. */
  function StartEndpoint(st: Service.Stores, id: string, config: InterviewConfig, r: Graph.SetupReplies,
                         fault: Option<string>): (t: (StartResponse, Service.Stores))
    ensures t.0.sessionId == id && id in t.1.db && Service.CacheKey(id) in t.1.cache
    ensures t.0.status == StatusName(t.1.db[id].status)
    ensures t.0.currentQuestion == t.1.cache[Service.CacheKey(id)].state.currentQuestion
    ensures t.0.errorMessage == t.1.db[id].errorMessage
  {
    var (s, t) := Service.Started(st, id, config, r, fault);
    (StartResponseOf(id, s), t)
  }

  /** The request checks of `SubmitAnswerRequest`: a non-empty session id and an answer of 1 to 10000 characters. */
  predicate ValidRequest(id: string, answer: string) {
    |id| >= 1 && 1 <= |answer| <= MAX_ANSWER_LENGTH
  }

  /** `POST /answer`. */
  function SubmitEndpoint(st: Service.Stores, id: string, answer: string, r: Service.TurnReplies)
    : (t: (Result<AnswerResponse, HttpError>, Service.Stores))
    ensures t.0 == Err(ValidationFailed) <==> !ValidRequest(id, answer)
    ensures !ValidRequest(id, answer) ==> t.1 == st
    ensures ValidRequest(id, answer) ==> t.1 == Service.Submitted(st, id, answer, r).1
    ensures t.0.Ok? ==> Service.Submitted(st, id, answer, r).0.Ok? && t.0.value.sessionId == id
    ensures t.0.Err? && t.0.error.HttpError? ==>
              Service.Submitted(st, id, answer, r).0.Err?
              && t.0.error == AnswerErrorOf(Service.Submitted(st, id, answer, r).0.error)
  {
    if !ValidRequest(id, answer) then (Err(ValidationFailed), st)
    else
      var (res, t) := Service.Submitted(st, id, answer, r);
      match res
      case Ok(a) => (Ok(AnswerResponseOf(id, a)), t)
      case Err(f) => (Err(AnswerErrorOf(f)), t)
  }

  /** `GET /session/{id}`: any `ValueError` is a 404. */
  function SessionEndpoint(st: Service.Stores, id: string): (t: (Result<StatusResponse, HttpError>, Service.Stores))
    ensures t.1.db == st.db
    ensures t.0.Err? <==> Service.CacheKey(id) !in st.cache && id !in st.db
    ensures t.0.Err? ==> t == (Err(HttpError(404, SESSION_NOT_FOUND)), st)
    ensures t.0.Ok? ==> t.0.value.sessionId == id
    ensures Service.CacheKey(id) in st.cache ==> t == (Ok(StatusResponseOf(id, st.cache[Service.CacheKey(id)])), st)
  {
    var (res, t) := Service.Loaded(st, id);
    match res
    case Ok(data) => (Ok(StatusResponseOf(id, data)), t)
    case Err(_) => (Err(HttpError(404, SESSION_NOT_FOUND)), t)
  }

  /** `GET /{id}/report`: read from the store only; a session not yet completed has no report to show. */
  function ReportEndpoint(db: Database.Store, id: string): (r: Result<ReportResponse, HttpError>)
    ensures id !in db <==> r == Err(HttpError(404, SESSION_NOT_FOUND))
    ensures id in db ==> r.Ok? && r.value.sessionId == id && r.value.status == StatusName(db[id].status)
    ensures id in db && db[id].status != Completed ==> r.value.report.None? && r.value.errorMessage == Some(NOT_COMPLETED)
    ensures id in db && db[id].status == Completed ==> r.value.report == db[id].report && r.value.errorMessage.None?
  {
    if id !in db then Err(HttpError(404, SESSION_NOT_FOUND))
    else if db[id].status != Completed then Ok(ReportResponse(id, StatusName(db[id].status), None, Some(NOT_COMPLETED)))
    else Ok(ReportResponse(id, StatusName(Completed), db[id].report, None))
  }

  /** The cache key the delete endpoint clears: the prefix and the id joined by a colon alone. */
  function DeleteKeyAsWritten(id: string): (k: string)
    ensures |k| == |id| + 10 && k[..10] == "interview:" && k[10..] == id
  {
    "interview:" + id
  }

  /** `DELETE /session/{id}` as written: the row goes, and the key above is cleared. */
  function DeleteAsWritten(st: Service.Stores, id: string): (t: (Result<DeleteResponse, HttpError>, Service.Stores))
    ensures t.0.Ok? <==> id in st.db
    ensures t.0.Ok? ==> t.0.value == DeleteResponse(DELETED, id)
    ensures t.0.Err? ==> t.0.error == HttpError(404, SESSION_NOT_FOUND) && t.1 == st
    ensures id !in t.1.db && t.1.db.Keys == st.db.Keys - {id}
    ensures forall k :: k in t.1.db ==> t.1.db[k] == st.db[k]
    ensures t.1.cache == if id in st.db then st.cache - {DeleteKeyAsWritten(id)} else st.cache
  {
    var (db, existed) := Database.Deleted(st.db, id);
    if !existed then (Err(HttpError(404, SESSION_NOT_FOUND)), st.(db := db))
    else (Ok(DeleteResponse(DELETED, id)), Service.Stores(st.cache - {DeleteKeyAsWritten(id)}, db))
  }

  /** `DELETE /session/{id}` clearing the key the service writes. */
  function DeleteEndpoint(st: Service.Stores, id: string): (t: (Result<DeleteResponse, HttpError>, Service.Stores))
    ensures t.0.Ok? <==> id in st.db
    ensures t.0.Ok? ==> t.0.value == DeleteResponse(DELETED, id) && Service.CacheKey(id) !in t.1.cache
    ensures t.0.Err? ==> t.0.error == HttpError(404, SESSION_NOT_FOUND) && t.1 == st
    ensures id !in t.1.db && t.1.db.Keys == st.db.Keys - {id}
    ensures forall k :: k in t.1.db ==> t.1.db[k] == st.db[k]
    ensures forall k :: k != Service.CacheKey(id) ==> (k in t.1.cache <==> k in st.cache)
  {
    var (db, existed) := Database.Deleted(st.db, id);
    if !existed then (Err(HttpError(404, SESSION_NOT_FOUND)), st.(db := db))
    else (Ok(DeleteResponse(DELETED, id)), Service.Stores(st.cache - {Service.CacheKey(id)}, db))
  }

  // ---------------------------------------------------------------- properties

  /** A refusal whose message has no letter "f" cannot mention "not found", so it is a 400 carrying that message. */
  lemma RefusalWithoutF(message: string)
    requires forall i :: 0 <= i < |message| ==> message[i] != 'f' && message[i] != 'F'
    ensures AnswerErrorOf(Service.ValueError(message)) == HttpError(400, message)
  {
    var lowered := Text.Lower(message);
    assert "not found"[4] == 'f';
    Text.NotContainsWithout(lowered, "not found", 4);
  }

  /** A missing session reaches the client as a 404. */
  lemma MissingSessionIsNotFound()
    ensures AnswerErrorOf(Service.ValueError(Service.NOT_FOUND)) == HttpError(404, SESSION_NOT_FOUND)
  {
    var lowered := Text.Lower(Service.NOT_FOUND);
    assert lowered[8..17] == "not found";
    Text.ContainsAt(lowered, "not found", 8);
  }

  /** The paging clamp leaves a clamped pair as it is. */
  lemma PageClampIdempotent(page: int, pageSize: int)
    ensures var r := PageClamp(page, pageSize); PageClamp(r.0, r.1) == r
  {
  }

  /**
   * An answer response is consistent: a pending follow-up shows its question
   * and no evaluation; a completed interview shows its report, no question,
   * and the last question's number; an interviewing one shows a question
   * number from 1 to `MAX_QUESTIONS`.
   */
  predicate ConsistentResponse(a: AnswerResponse) {
    && (a.isFollowUp <==> a.status == AWAITING_FOLLOW_UP)
    && (a.isFollowUp ==> a.lastEvaluation.None? && a.currentQuestion.Some?)
    && (a.status == StatusName(Completed) ==>
          a.finalReport.Some? && a.currentQuestion.None? && a.questionNumber == MAX_QUESTIONS)
    && (a.status == StatusName(Interviewing) ==> 1 <= a.questionNumber <= MAX_QUESTIONS)
  }

  /** Every answer of the shape the service returns is shown consistently. */
  lemma ShapedAnswerConsistent(id: string, a: Service.Answered)
    requires Service.AnswerShape(a)
    ensures ConsistentResponse(AnswerResponseOf(id, a))
  {
  }

  /** The response to an accepted answer is consistent. */
  lemma AnswerResponseConsistent(st: Service.Stores, id: string, answer: string, r: Service.TurnReplies)
    requires Service.Valid(st)
    ensures var res := SubmitEndpoint(st, id, answer, r).0; res.Ok? ==> ConsistentResponse(res.value)
  {
    if ValidRequest(id, answer) {
      var sub := Service.Submitted(st, id, answer, r).0;
      Service.AnswerOutcome(st, id, answer, r);
      if sub.Ok? {
        ShapedAnswerConsistent(id, sub.value);
      }
    }
  }

  /** An answer to a session that exists nowhere is a 404, and changes nothing. */
  lemma UnknownSessionAnswerIsNotFound(st: Service.Stores, id: string, answer: string, r: Service.TurnReplies)
    requires Service.Valid(st) && id !in st.db && ValidRequest(id, answer)
    ensures SubmitEndpoint(st, id, answer, r) == (Err(HttpError(404, SESSION_NOT_FOUND)), st)
  {
    Service.UnknownSessionNotFound(st, id, answer, r);
    MissingSessionIsNotFound();
  }

  /** An answer to a completed session is a 400 carrying the service's message, and changes nothing. */
  lemma CompletedAnswerIsBadRequest(st: Service.Stores, id: string, answer: string, r: Service.TurnReplies)
    requires Service.Valid(st) && id in st.db && st.db[id].status == Completed && ValidRequest(id, answer)
    ensures SubmitEndpoint(st, id, answer, r) == (Err(HttpError(400, Service.ALREADY_COMPLETED)), st)
  {
    Service.CompletedRefusesAnswers(st, id, answer, r);
    RefusalWithoutF(Service.ALREADY_COMPLETED);
  }

  /** An answer to a failed session is a 400 carrying the service's message, and changes nothing. */
  lemma ErrorAnswerIsBadRequest(st: Service.Stores, id: string, answer: string, r: Service.TurnReplies)
    requires Service.Valid(st) && id in st.db && st.db[id].status == Error && ValidRequest(id, answer)
    ensures SubmitEndpoint(st, id, answer, r) == (Err(HttpError(400, Service.IN_ERROR)), st)
  {
    Service.ErrorRefusesAnswers(st, id, answer, r);
    RefusalWithoutF(Service.IN_ERROR);
  }

  /**
   * An answer of blanks passes the request checks but is refused by the
   * service: a 400 carrying its message, leaving only the session cached.
   */
  lemma BlankAnswerIsBadRequest(st: Service.Stores, id: string, answer: string, r: Service.TurnReplies)
    requires Service.Valid(st) && id in st.db && st.db[id].status == Interviewing && ValidRequest(id, answer)
    requires forall i :: 0 <= i < |answer| ==> Text.IsSpace(answer[i])
    ensures SubmitEndpoint(st, id, answer, r) == (Err(HttpError(400, Service.EMPTY_ANSWER)), Service.Loaded(st, id).1)
  {
    Service.BlankAnswerRefused(st, id, answer, r);
    RefusalWithoutF(Service.EMPTY_ANSWER);
  }

  /**
   * The status endpoint agrees with the durable store: it finds exactly the
   * stored sessions, reports their stored status unless a follow-up is
   * pending, counts their stored turns, and shows the score of a completed one.
   */
  lemma SessionEndpointAgrees(st: Service.Stores, id: string)
    requires Service.Valid(st)
    ensures var res := SessionEndpoint(st, id).0;
      && (res.Ok? <==> id in st.db)
      && (res.Err? ==> res.error == HttpError(404, SESSION_NOT_FOUND))
      && (res.Ok? ==>
            && res.value.questionsAnswered == |st.db[id].qaRows|
            && (!res.value.isFollowUp ==> res.value.status == StatusName(st.db[id].status))
            && (st.db[id].status == Completed ==> res.value.overallScore.Some? && res.value.currentQuestion.None?))
  {
    assert Service.SessionValid(st, id);
  }

  /** The report of every completed session can be fetched. */
  lemma CompletedReportAvailable(st: Service.Stores, id: string)
    requires Service.Valid(st) && id in st.db && st.db[id].status == Completed
    ensures ReportEndpoint(st.db, id).Ok? && ReportEndpoint(st.db, id).value.report.Some?
  {
    assert Service.SessionValid(st, id);
  }

  /** The key the delete endpoint clears is never the key the service caches a session under. */
  lemma DeleteKeyMissesSession(id: string)
    ensures DeleteKeyAsWritten(id) != Service.CacheKey(id)
  {
  }

  /**
   * As written: deleting a cached session removes its row but leaves it in
   * the cache, so it still loads, its status is still served, and the stores
   * no longer agree.
   */
  lemma DeletedSessionStillServed(st: Service.Stores, id: string)
    requires Service.Valid(st) && Service.CacheKey(id) in st.cache
    ensures var (res, t) := DeleteAsWritten(st, id);
      && res.Ok? && id !in t.db
      && Service.Loaded(t, id).0.Ok?
      && SessionEndpoint(t, id).0.Ok?
      && !Service.Valid(t)
  {
    assert Service.SessionValid(st, id);
    var t := DeleteAsWritten(st, id).1;
    DeleteKeyMissesSession(id);
    assert Service.CacheKey(id) in t.cache;
    assert !Service.SessionValid(t, id);
  }

  /** Deleting clears the session's own key: the session is gone from both stores, and the stores stay valid. */
  lemma DeleteForgetsSession(st: Service.Stores, id: string)
    requires Service.Valid(st)
    ensures var (res, t) := DeleteEndpoint(st, id);
      && (res.Ok? <==> id in st.db)
      && (res.Err? ==> res.error == HttpError(404, SESSION_NOT_FOUND) && t == st)
      && Service.Valid(t)
      && Service.Loaded(t, id) == (Err(Service.ValueError(Service.NOT_FOUND)), t)
      && SessionEndpoint(t, id).0 == Err(HttpError(404, SESSION_NOT_FOUND))
  {
    var t := DeleteEndpoint(st, id).1;
    assert Service.SessionValid(st, id);
    if id in st.db {
      assert Service.SessionValid(t, id);
      Service.ValidAfterOne(st, id, t);
    } else {
      assert t.db == st.db;
    }
  }
}
