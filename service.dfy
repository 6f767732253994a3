/**
 * The session service: starting an interview, loading a session (cache
 * first, then the durable store), and submitting answers, with the
 * follow-up context kept in the cache between a main answer and its
 * follow-up answer. The cache and the store are two maps owned by one
 * object; every operation is proved equal to a transition on `Stores`.
 */
module Service {
  import opened Wrappers
  import opened Schemas
  import opened Replies
  import opened Record
  import Text
  import Gateway
  import Interviewer
  import Graph
  import Evaluator
  import Database

  const KEY_PREFIX: string := "interview"
  const NOT_FOUND: string := "Session not found"
  const ALREADY_COMPLETED: string := "Interview already completed"
  const IN_ERROR: string := "Interview is in error state"
  const EMPTY_ANSWER: string := "Answer cannot be empty"

  /** `_redis_key`: the prefix, a colon and a space, then the session id. */
  function CacheKey(id: string): (k: string)
    ensures |k| == |id| + 11 && k[..11] == "interview: " && k[11..] == id
  {
    KEY_PREFIX + ": " + id
  }

  /** A cached session: the state and the pending follow-up context. */
  datatype SessionData = SessionData(
    state: State,
    awaitingFollowUp: bool,
    pendingMainQuestion: string,
    pendingMainAnswer: string)

  /** What `_cache_session` stores when no follow-up is pending. */
  function Settled(s: State): SessionData {
    SessionData(s, false, "", "")
  }

  datatype Stores = Stores(cache: map<string, SessionData>, db: Database.Store)

  /** Why an operation of the service fails: a `ValueError` with its message, or another exception by name. */
  datatype Failure = ValueError(message: string) | DatabaseError(exception: string)

  /** What the model calls of one submitted answer yield, and whether the pipeline raised. */
  datatype TurnReplies = TurnReplies(
    decision: Reply<FollowUpDecision>,
    followUp: Gateway.Generation,
    process: Graph.ProcessReplies,
    fault: Option<string>)

  /** The dictionary `submit_answer` returns. */
  datatype Answered = Answered(state: State, awaitingFollowUp: bool)

  // ---------------------------------------------------------------- transitions

  /**
   * `_load_session`: a cache hit as stored; otherwise the session rebuilt from
   * its row with no follow-up pending, cached again unless it is finished.
   */
  function Loaded(st: Stores, id: string): (r: (Result<SessionData, Failure>, Stores))
    ensures r.1.db == st.db
    ensures r.0.Err? <==> CacheKey(id) !in st.cache && id !in st.db
    ensures r.0.Err? ==> r == (Err(ValueError(NOT_FOUND)), st)
    ensures CacheKey(id) in st.cache ==> r == (Ok(st.cache[CacheKey(id)]), st)
    ensures CacheKey(id) !in st.cache && id in st.db ==> r.0 == Ok(Settled(Database.Reloaded(st.db[id])))
    ensures r.0.Ok? && !r.0.value.state.status.IsTerminal() ==>
              CacheKey(id) in r.1.cache && r.1.cache[CacheKey(id)] == r.0.value
    ensures r.0.Ok? && r.0.value.state.status.IsTerminal() ==> r.1 == st
    ensures forall k :: k != CacheKey(id) ==> (k in r.1.cache <==> k in st.cache)
    ensures forall k :: k != CacheKey(id) && k in st.cache ==> r.1.cache[k] == st.cache[k]
  {
    var key := CacheKey(id);
    if key in st.cache then (Ok(st.cache[key]), st)
    else if id !in st.db then (Err(ValueError(NOT_FOUND)), st)
    else
      var data := Settled(Database.Reloaded(st.db[id]));
      (Ok(data), if data.state.status.IsTerminal() then st else st.(cache := st.cache[key := data]))
  }

  /** `start_interview`: setup runs on a fresh state, and the result is stored and cached whatever its status. */
  function Started(st: Stores, id: string, config: InterviewConfig, r: Graph.SetupReplies, fault: Option<string>)
    : (t: (State, Stores))
    ensures id in t.1.db && t.1.db[id] == Database.NewRow(t.0) && t.1.db.Keys == st.db.Keys + {id}
    ensures forall k :: k in st.db && k != id ==> t.1.db[k] == st.db[k]
    ensures CacheKey(id) in t.1.cache && t.1.cache[CacheKey(id)] == Settled(t.0)
    ensures forall k :: k != CacheKey(id) ==> (k in t.1.cache <==> k in st.cache)
    ensures forall k :: k != CacheKey(id) && k in st.cache ==> t.1.cache[k] == st.cache[k]
  {
    var s := Graph.SetupResult(InitialState(config.resumeText, config.jobDescription, config.interviewType,
                                            config.difficulty, config.language), r, fault);
    (s, Stores(st.cache[CacheKey(id) := Settled(s)], Database.Created(st.db, id, s)))
  }

  /**
   * `_sync_after_processing`: a completed session with a report is finalised
   * and dropped from the cache, an errored one is marked and dropped, any
   * other is cached with no follow-up pending and its status recorded.
   */
  function Synced(st: Stores, id: string, s: State): (t: Stores)
    ensures CacheKey(id) !in t.cache <==> (s.status == Completed && s.finalReport.Some?) || s.status == Error
    ensures CacheKey(id) in t.cache ==> t.cache[CacheKey(id)] == Settled(s)
    ensures forall k :: k != CacheKey(id) ==> (k in t.cache <==> k in st.cache)
    ensures forall k :: k != CacheKey(id) && k in st.cache ==> t.cache[k] == st.cache[k]
    ensures t.db.Keys == st.db.Keys && forall k :: k in st.db && k != id ==> t.db[k] == st.db[k]
    ensures id in st.db ==> t.db[id].status == s.status && t.db[id].qaRows == st.db[id].qaRows
    ensures id in st.db && s.status == Completed ==> t.db[id].completed
    ensures id in st.db && s.status == Completed && s.finalReport.Some? ==>
              t.db[id].report == s.finalReport && t.db[id].overallScore == Some(s.finalReport.value.overallScore)
    ensures id in st.db && s.status != Completed ==> t.db[id].errorMessage == (if s.status == Error then s.errorMessage else None)
  {
    var key := CacheKey(id);
    if s.status == Completed && s.finalReport.Some? then
      var report := s.finalReport.value;
      Stores(st.cache - {key}, Database.FinalScoreUpdated(Database.ReportSaved(st.db, id, report), id, report))
    else if s.status == Error then
      Stores(st.cache - {key}, Database.StatusUpdated(st.db, id, s.status, s.errorMessage))
    else
      Stores(st.cache[key := Settled(s)], Database.StatusUpdated(st.db, id, s.status, None))
  }

  /** The state after the turn `pair` is appended, processed and its status normalised. */
  function Processed(s: State, pair: QAPair, r: TurnReplies): (n: State)
    ensures |n.qaPairs| == |s.qaPairs| + 1 && n.qaPairs[..|s.qaPairs|] == s.qaPairs
    ensures n.qaPairs[|s.qaPairs|].(evaluation := None) == pair.(evaluation := None)
    ensures n.status == Interviewing || n.status == Completed || n.status == Error
  {
    var appended := s.(qaPairs := s.qaPairs + [pair]);
    Graph.ProcessKeepsTurns(appended, r.process, r.fault);
    assert appended.qaPairs[..|s.qaPairs|] == s.qaPairs;
    var p := Graph.ProcessResult(appended, r.process, r.fault);
    if p.status.IsTerminal() then p else p.(status := Interviewing)
  }

  /** Saving a processed turn: its row is inserted, then the stores are synced; a failed insert stops everything. */
  function Saved(st: Stores, id: string, n: State): (t: (Result<Answered, Failure>, Stores))
    requires n.qaPairs != []
    ensures t.0.Err? <==> id !in st.db
    ensures t.0.Err? ==> t == (Err(DatabaseError(Database.INTEGRITY_ERROR)), st)
    ensures t.0.Ok? ==> t.0.value == Answered(n, false) && t.1.db.Keys == st.db.Keys
    ensures t.0.Ok? ==> t.1.db[id].qaRows == st.db[id].qaRows + [Database.RowOf(n.qaPairs[|n.qaPairs| - 1])]
                        && t.1.db[id].status == n.status
  {
    var saved := Database.PairSaved(st.db, id, n.qaPairs[|n.qaPairs| - 1]);
    if saved.Err? then (Err(DatabaseError(saved.error)), st)
    else (Ok(Answered(n, false)), Synced(st.(db := saved.value), id, n))
  }

  /** Committing a turn: process it, then save it. */
  function Committed(st: Stores, id: string, s: State, pair: QAPair, r: TurnReplies)
    : (t: (Result<Answered, Failure>, Stores))
    ensures t.0.Err? <==> id !in st.db
    ensures t.0.Err? ==> t.1 == st
    ensures t.0.Ok? ==> var n := t.0.value.state;
      && !t.0.value.awaitingFollowUp
      && |n.qaPairs| == |s.qaPairs| + 1 && n.qaPairs[..|s.qaPairs|] == s.qaPairs
      && n.qaPairs[|s.qaPairs|].(evaluation := None) == pair.(evaluation := None)
      && id in st.db && id in t.1.db
      && t.1.db[id].qaRows == st.db[id].qaRows + [Database.RowOf(n.qaPairs[|s.qaPairs|])]
      && t.1.db[id].status == n.status
  {
    Saved(st, id, Processed(s, pair, r))
  }

  /** Append the turn to the record, run the pipeline on it and normalise the status. */
  method ProcessTurn(st: InterviewState, pair: QAPair, replies: TurnReplies) returns (n: State)
    modifies st
    ensures n == Processed(old(st.Value()), pair, replies)
  {
    st.qaPairs := st.qaPairs + [pair];
    var result := Graph.RunProcessAnswer(st, replies.process, replies.fault);
    if !result.status.IsTerminal() {
      result.status := Interviewing;
    }
    n := result.Value();
  }

  /**
   * `_handle_main_answer`: when a follow-up is decided, it is asked and the
   * original question and the answer wait in the cache, even if asking failed;
   * otherwise the answer becomes a turn on its own.
   */
  function MainAnswered(st: Stores, id: string, s: State, answer: string, r: TurnReplies)
    : (t: (Result<Answered, Failure>, Stores))
    ensures t.0.Ok? && t.0.value.awaitingFollowUp <==> Interviewer.FollowUpDecided(s, r.decision).isFollowUp
    ensures t.0.Ok? && t.0.value.awaitingFollowUp ==>
              t.1.db == st.db && t.0.value.state.qaPairs == s.qaPairs
              && CacheKey(id) in t.1.cache && t.1.cache[CacheKey(id)].pendingMainQuestion == s.currentQuestion
              && t.1.cache[CacheKey(id)].pendingMainAnswer == answer
    ensures !Interviewer.FollowUpDecided(s, r.decision).isFollowUp ==> (t.0.Err? <==> id !in st.db)
    ensures t.0.Ok? && !t.0.value.awaitingFollowUp ==>
              && |t.0.value.state.qaPairs| == |s.qaPairs| + 1
              && t.0.value.state.qaPairs[|s.qaPairs|].(evaluation := None)
                 == QAPair(s.currentQuestionIndex + 1, s.currentQuestion, answer, None, None, None)
  {
    var d := Interviewer.FollowUpDecided(s, r.decision);
    if d.isFollowUp then FollowUpPending(st, id, d, answer, r.followUp)
    else Committed(st, id, d, MainTurn(d, answer), r)
  }

  /** The turn of a main answer with no follow-up. */
  function MainTurn(d: State, answer: string): (p: QAPair)
    ensures p.questionNumber == d.currentQuestionIndex + 1 && p.question == d.currentQuestion && p.answer == answer
    ensures p.followUpQuestion.None? && p.followUpAnswer.None? && p.evaluation.None?
  {
    QAPair(d.currentQuestionIndex + 1, d.currentQuestion, answer, None, None, None)
  }

  /** A follow-up is asked and the main question and its answer wait in the cache. */
  function FollowUpPending(st: Stores, id: string, d: State, answer: string, g: Gateway.Generation)
    : (t: (Result<Answered, Failure>, Stores))
    ensures t.0.Ok? && t.0.value.awaitingFollowUp && t.1.db == st.db
    ensures t.0.value.state.qaPairs == d.qaPairs && t.0.value.state.status == d.status
    ensures CacheKey(id) in t.1.cache && t.1.cache[CacheKey(id)] == SessionData(t.0.value.state, true, d.currentQuestion, answer)
    ensures forall k :: k != CacheKey(id) ==> (k in t.1.cache <==> k in st.cache)
    ensures forall k :: k != CacheKey(id) && k in st.cache ==> t.1.cache[k] == st.cache[k]
  {
    var f := Interviewer.FollowUpAsked(d, g);
    (Ok(Answered(f, true)), st.(cache := st.cache[CacheKey(id) := SessionData(f, true, d.currentQuestion, answer)]))
  }

  /** `_handle_follow_up_answer`: the waiting question and answer become a turn with the follow-up attached. */
  function FollowUpTurn(data: SessionData, answer: string): (p: QAPair)
    ensures p.questionNumber == data.state.currentQuestionIndex + 1
    ensures p.question == data.pendingMainQuestion && p.answer == data.pendingMainAnswer
    ensures p.followUpQuestion == Some(data.state.currentQuestion) && p.followUpAnswer == Some(answer)
    ensures p.evaluation.None?
  {
    QAPair(data.state.currentQuestionIndex + 1, data.pendingMainQuestion, data.pendingMainAnswer,
           Some(data.state.currentQuestion), Some(answer), None)
  }

  /** `submit_answer`: load, check the guards on the sanitised answer, then route on the pending follow-up. */
  function Submitted(st: Stores, id: string, answer: string, r: TurnReplies): (t: (Result<Answered, Failure>, Stores))
    ensures Loaded(st, id).0.Err? ==> t == (Err(ValueError(NOT_FOUND)), st)
    ensures Loaded(st, id).0.Ok? && Loaded(st, id).0.value.state.status == Completed ==>
              t == (Err(ValueError(ALREADY_COMPLETED)), Loaded(st, id).1)
    ensures Loaded(st, id).0.Ok? && Loaded(st, id).0.value.state.status == Error ==>
              t == (Err(ValueError(IN_ERROR)), Loaded(st, id).1)
    ensures t.0.Ok? ==> Loaded(st, id).0.Ok? && !Loaded(st, id).0.value.state.status.IsTerminal()
                        && Text.Sanitize(answer) != ""
    ensures t.0.Err? && t.0.error.ValueError? ==> t.1 == Loaded(st, id).1
    ensures t.0.Err? && t.0.error.DatabaseError? ==> id !in st.db && t.1 == Loaded(st, id).1
    ensures (Loaded(st, id).0.Ok? && !Loaded(st, id).0.value.state.status.IsTerminal()
             && Text.Sanitize(answer) != "" && id in st.db) ==> t.0.Ok?
  {
    var (loaded, st1) := Loaded(st, id);
    if loaded.Err? then (Err(loaded.error), st1)
    else
      var data := loaded.value;
      var clean := Text.Sanitize(answer);
      if data.state.status == Completed then (Err(ValueError(ALREADY_COMPLETED)), st1)
      else if data.state.status == Error then (Err(ValueError(IN_ERROR)), st1)
      else if clean == "" then (Err(ValueError(EMPTY_ANSWER)), st1)
      else if data.awaitingFollowUp then Committed(st1, id, data.state, FollowUpTurn(data, clean), r)
      else MainAnswered(st1, id, data.state, clean, r)
  }

  // ---------------------------------------------------------------- what the stores keep true

  /** The turns of a row are numbered 1, 2, ... in order. */
  predicate Numbered(rows: seq<Database.QARow>) {
    forall i :: 0 <= i < |rows| ==> rows[i].questionNumber == i + 1
  }

  /**
   * A stored session: it is interviewing with fewer than `MAX_QUESTIONS`
   * numbered turns, completed with exactly `MAX_QUESTIONS` turns and a report,
   * or in error; every turn row is one `save_qa_pair` can write.
   */
  predicate RowValid(row: Database.SessionRow) {
    && (row.status == Interviewing || row.status == Completed || row.status == Error)
    && (row.status == Interviewing ==> |row.qaRows| < MAX_QUESTIONS && Numbered(row.qaRows))
    && (row.status == Completed ==> |row.qaRows| == MAX_QUESTIONS && row.report.Some? && row.completed)
    && forall i :: 0 <= i < |row.qaRows| ==> Database.WellFormedRow(row.qaRows[i])
  }

  /** An interviewing state has one turn per question asked before the current one, and at most one follow-up. */
  predicate Ongoing(s: State) {
    s.status == Interviewing ==>
      |s.qaPairs| == s.currentQuestionIndex && s.followUpCount <= MAX_FOLLOW_UPS
  }

  /**
   * A cached session is interviewing or in error, and agrees with its row on
   * the status and on the turns.
   */
  predicate CachedValid(data: SessionData, row: Database.SessionRow) {
    && (data.state.status == Interviewing || data.state.status == Error)
    && Ongoing(data.state)
    && row.status == data.state.status
    && row.qaRows == Database.RowsOf(data.state.qaPairs)
  }

  /** If `id` is cached, it has a row and agrees with it. */
  ghost predicate Coherent(st: Stores, id: string) {
    CacheKey(id) in st.cache ==> id in st.db && CachedValid(st.cache[CacheKey(id)], st.db[id])
  }

  /** The session `id`, if stored, is valid and, if cached, coherent. */
  ghost predicate SessionValid(st: Stores, id: string) {
    (id in st.db ==> RowValid(st.db[id])) && Coherent(st, id)
  }

  /** Every session is valid: every row is, and every cached session agrees with its row. */
  ghost predicate Valid(st: Stores) {
    forall id :: SessionValid(st, id)
  }

  /**
   * What validity promises about one session: a cached session has a row with
   * the same status and turns and is not finished, and a completed row holds
   * every question's turn and the report.
   */
  lemma ValidSession(st: Stores, id: string)
    requires Valid(st)
    ensures CacheKey(id) in st.cache ==>
              && id in st.db && st.cache[CacheKey(id)].state.status == st.db[id].status
              && (st.db[id].status == Interviewing || st.db[id].status == Error)
    ensures CacheKey(id) in st.cache ==> id in st.db && st.db[id].qaRows == Database.RowsOf(st.cache[CacheKey(id)].state.qaPairs)
    ensures id in st.db && st.db[id].status == Completed ==>
              |st.db[id].qaRows| == MAX_QUESTIONS && st.db[id].report.Some? && st.db[id].completed
    ensures id in st.db && st.db[id].status == Interviewing ==> |st.db[id].qaRows| < MAX_QUESTIONS
  {
    assert SessionValid(st, id);
  }

  lemma CacheKeyInjective(a: string, b: string)
    requires CacheKey(a) == CacheKey(b)
    ensures a == b
  {
    assert a == CacheKey(a)[11..];
  }

  /** `t` differs from `st` at most in the row and the cache entry of `id`. */
  ghost predicate OnlyTouches(st: Stores, id: string, t: Stores) {
    && t.db.Keys <= st.db.Keys + {id}
    && (forall k :: k in st.db && k != id ==> k in t.db && t.db[k] == st.db[k])
    && (forall key :: key != CacheKey(id) && key in t.cache ==> key in st.cache && t.cache[key] == st.cache[key])
  }

  /** The stores stay valid when only the session `id` changes, in a valid way. */
  lemma ValidAfterOne(st: Stores, id: string, t: Stores)
    requires Valid(st) && OnlyTouches(st, id, t) && SessionValid(t, id)
    ensures Valid(t)
  {
    forall k | k != id ensures SessionValid(t, k) {
      assert SessionValid(st, k);
      if CacheKey(k) == CacheKey(id) {
        CacheKeyInjective(k, id);
      }
    }
  }

  // ---------------------------------------------------------------- each operation keeps the stores valid

  /** Loading changes no row, keeps the stores valid and leaves an active session cached as returned. */
  lemma LoadKeepsValid(st: Stores, id: string)
    requires Valid(st)
    ensures var (r, t) := Loaded(st, id);
      && Valid(t) && t.db == st.db
      && (r.Ok? && !r.value.state.status.IsTerminal() ==> CacheKey(id) in t.cache && t.cache[CacheKey(id)] == r.value)
  {
    var key := CacheKey(id);
    if key !in st.cache && id in st.db {
      var row := st.db[id];
      assert SessionValid(st, id);
      var t := Loaded(st, id).1;
      if row.status == Interviewing {
        Database.RowsRoundTrip(row.qaRows);
        assert CachedValid(Settled(Database.Reloaded(row)), row);
        assert SessionValid(t, id);
        ValidAfterOne(st, id, t);
      }
    }
  }

  /** Starting a session keeps the stores valid, whatever setup yields. */
  lemma StartKeepsValid(st: Stores, id: string, config: InterviewConfig, r: Graph.SetupReplies, fault: Option<string>)
    requires Valid(st)
    ensures Valid(Started(st, id, config, r, fault).1)
  {
    // the setup graph runs on the initial state with the language at its default
    var init := InitialState(config.resumeText, config.jobDescription, config.interviewType,
                             config.difficulty, config.language);
    assert init.(language := English) == InitialState(config.resumeText, config.jobDescription, config.interviewType,
                                                      config.difficulty, English);
    Graph.SetupOutcome(config.resumeText, config.jobDescription, config.interviewType, config.difficulty,
                       English, r);
    var (s, t) := Started(st, id, config, r, fault);
    assert s.qaPairs == [] && (s.status == Interviewing || s.status == Error);
    assert CachedValid(Settled(s), t.db[id]);
    assert SessionValid(t, id);
    ValidAfterOne(st, id, t);
  }

  /**
   * What processing a turn of an interviewing state yields: it goes on to the
   * next question with its follow-up count reset, or completes with a report
   * after the last question, or fails.
   */
  lemma ProcessedOutcome(s: State, pair: QAPair, r: TurnReplies)
    requires s.status == Interviewing && s.currentQuestionIndex < MAX_QUESTIONS
    ensures var n := Processed(s, pair, r);
      && (n.status == Interviewing ==>
            n.currentQuestionIndex == s.currentQuestionIndex + 1 < MAX_QUESTIONS && n.followUpCount == 0)
      && (n.status == Completed ==> n.finalReport.Some? && s.currentQuestionIndex == MAX_QUESTIONS - 1)
  {
    var appended := s.(qaPairs := s.qaPairs + [pair], language := English);
    if r.fault.None? {
      Graph.ProcessRunsOneBranch(appended, r.process);
      var e := Evaluator.Evaluated(appended, r.process.evaluation);
      assert e.status == Evaluating && e.currentQuestionIndex == s.currentQuestionIndex;
    }
  }

  /** The rows after a processed turn is saved are the rows of the processed turns. */
  lemma SavedRows(s: State, pair: QAPair, r: TurnReplies, rows: seq<Database.QARow>)
    requires rows == Database.RowsOf(s.qaPairs)
    ensures var n := Processed(s, pair, r);
      && rows + [Database.RowOf(n.qaPairs[|n.qaPairs| - 1])] == Database.RowsOf(n.qaPairs)
      && n.qaPairs[|n.qaPairs| - 1].questionNumber == pair.questionNumber
  {
    var n := Processed(s, pair, r);
    assert n.qaPairs[|s.qaPairs|].questionNumber == pair.questionNumber by {
      assert n.qaPairs[|s.qaPairs|].(evaluation := None).questionNumber == pair.(evaluation := None).questionNumber;
    }
    forall i | 0 <= i < |s.qaPairs| ensures n.qaPairs[i] == s.qaPairs[i] {
      assert n.qaPairs[..|s.qaPairs|][i] == n.qaPairs[i];
    }
  }

  lemma OnlyTouchesTrans(a: Stores, id: string, b: Stores, c: Stores)
    requires OnlyTouches(a, id, b) && OnlyTouches(b, id, c)
    ensures OnlyTouches(a, id, c)
  {
  }

  /** Syncing a processed state whose turns are already saved leaves its session valid. */
  lemma SyncKeepsValid(st: Stores, id: string, n: State)
    requires id in st.db && st.db[id].qaRows == Database.RowsOf(n.qaPairs)
    requires forall i :: 0 <= i < |n.qaPairs| ==> Database.WellFormedRow(st.db[id].qaRows[i])
    requires n.status == Interviewing || n.status == Completed || n.status == Error
    requires n.status == Interviewing ==> Ongoing(n) && n.currentQuestionIndex < MAX_QUESTIONS && Numbered(st.db[id].qaRows)
    requires n.status == Completed ==> n.finalReport.Some? && |n.qaPairs| == MAX_QUESTIONS
    ensures var t := Synced(st, id, n); OnlyTouches(st, id, t) && SessionValid(t, id)
  {
  }

  /** Committing a turn of an interviewing session keeps the stores valid. */
  lemma CommitKeepsValid(st: Stores, id: string, s: State, pair: QAPair, r: TurnReplies)
    requires Valid(st) && id in st.db
    requires s.status == Interviewing && Ongoing(s) && CachedValid(Settled(s), st.db[id])
    requires pair.questionNumber == s.currentQuestionIndex + 1
    ensures Valid(Committed(st, id, s, pair, r).1)
  {
    var row := st.db[id];
    assert SessionValid(st, id);
    var n := Processed(s, pair, r);
    ProcessedOutcome(s, pair, r);
    SavedRows(s, pair, r, row.qaRows);
    var rows := Database.RowsOf(n.qaPairs);
    var st2 := st.(db := st.db[id := row.(qaRows := rows)]);
    assert st2.db == Database.PairSaved(st.db, id, n.qaPairs[|n.qaPairs| - 1]).value;
    forall i | 0 <= i < |rows| ensures Database.WellFormedRow(rows[i]) {
      if i < |row.qaRows| {
        assert rows[i] == row.qaRows[i];
      }
    }
    if n.status == Interviewing {
      forall i | 0 <= i < |rows| ensures rows[i].questionNumber == i + 1 {
        if i < |row.qaRows| {
          assert rows[i] == row.qaRows[i];
        }
      }
    }
    SyncKeepsValid(st2, id, n);
    OnlyTouchesTrans(st, id, st2, Synced(st2, id, n));
    ValidAfterOne(st, id, Synced(st2, id, n));
  }

  /** Asking a follow-up keeps the stores valid. */
  lemma PendingKeepsValid(st: Stores, id: string, d: State, answer: string, g: Gateway.Generation)
    requires Valid(st) && id in st.db
    requires d.status == Interviewing && d.isFollowUp && d.followUpCount < MAX_FOLLOW_UPS
    requires Ongoing(d) && CachedValid(Settled(d), st.db[id])
    ensures Valid(FollowUpPending(st, id, d, answer, g).1)
  {
    var t := FollowUpPending(st, id, d, answer, g).1;
    assert SessionValid(st, id);
    assert SessionValid(t, id);
    ValidAfterOne(st, id, t);
  }

  /** Submitting an answer keeps the stores valid, whatever the model calls yield. */
  lemma SubmitKeepsValid(st: Stores, id: string, answer: string, r: TurnReplies)
    requires Valid(st)
    ensures Valid(Submitted(st, id, answer, r).1)
  {
    LoadKeepsValid(st, id);
    var (loaded, st1) := Loaded(st, id);
    if loaded.Ok? {
      var data := loaded.value;
      var clean := Text.Sanitize(answer);
      if data.state.status != Completed && data.state.status != Error && clean != "" {
        assert SessionValid(st1, id);
        var row := st1.db[id];
        assert CachedValid(Settled(data.state), row);
        if data.awaitingFollowUp {
          CommitKeepsValid(st1, id, data.state, FollowUpTurn(data, clean), r);
        } else {
          var d := Interviewer.FollowUpDecided(data.state, r.decision);
          assert CachedValid(Settled(d), row);
          if d.isFollowUp {
            PendingKeepsValid(st1, id, d, clean, r.followUp);
          } else {
            CommitKeepsValid(st1, id, d, MainTurn(d, clean), r);
          }
        }
      }
    }
  }

  // ---------------------------------------------------------------- what an accepted answer returns

  /** The shape of the state an accepted answer returns. */
  predicate AnswerShape(a: Answered) {
    var s := a.state;
    && (s.status == Interviewing || s.status == Completed || s.status == Error)
    && (a.awaitingFollowUp ==> s.status == Interviewing)
    && (s.status == Interviewing ==> |s.qaPairs| == s.currentQuestionIndex < MAX_QUESTIONS)
    && (s.status == Completed ==> s.finalReport.Some? && |s.qaPairs| == MAX_QUESTIONS)
  }

  lemma CommitShape(st: Stores, id: string, s: State, pair: QAPair, r: TurnReplies)
    requires s.status == Interviewing && |s.qaPairs| == s.currentQuestionIndex < MAX_QUESTIONS
    ensures var res := Committed(st, id, s, pair, r).0;
      res.Ok? ==> AnswerShape(res.value) && !res.value.awaitingFollowUp && |res.value.state.qaPairs| == |s.qaPairs| + 1
  {
    ProcessedOutcome(s, pair, r);
  }

  /**
   * An accepted answer leaves the session interviewing with one turn per
   * question asked so far, fewer than `MAX_QUESTIONS`; or completed with a
   * report and exactly `MAX_QUESTIONS` turns; or in error. Only an
   * interviewing session waits for a follow-up answer.
   */
  lemma AnswerOutcome(st: Stores, id: string, answer: string, r: TurnReplies)
    requires Valid(st)
    ensures var res := Submitted(st, id, answer, r).0; res.Ok? ==> AnswerShape(res.value)
  {
    LoadKeepsValid(st, id);
    var (loaded, st1) := Loaded(st, id);
    if loaded.Ok? {
      var data := loaded.value;
      var clean := Text.Sanitize(answer);
      if data.state.status != Completed && data.state.status != Error && clean != "" {
        assert SessionValid(st1, id);
        assert |data.state.qaPairs| == |st1.db[id].qaRows|;
        if data.awaitingFollowUp {
          CommitShape(st1, id, data.state, FollowUpTurn(data, clean), r);
        } else {
          var d := Interviewer.FollowUpDecided(data.state, r.decision);
          if !d.isFollowUp {
            CommitShape(st1, id, d, MainTurn(d, clean), r);
          }
        }
      }
    }
  }

  // ---------------------------------------------------------------- what a caller sees

  /** A rejected answer changes nothing beyond what loading the session did. */
  lemma RejectedChangesNothing(st: Stores, id: string, answer: string, r: TurnReplies)
    ensures Submitted(st, id, answer, r).0.Err? ==> Submitted(st, id, answer, r).1 == Loaded(st, id).1
  {
  }

  /** An answer to a completed session is refused, and nothing changes. */
  lemma CompletedRefusesAnswers(st: Stores, id: string, answer: string, r: TurnReplies)
    requires Valid(st) && id in st.db && st.db[id].status == Completed
    ensures Submitted(st, id, answer, r) == (Err(ValueError(ALREADY_COMPLETED)), st)
  {
    assert SessionValid(st, id);
  }

  /** An answer to a session in error is refused, and nothing changes. */
  lemma ErrorRefusesAnswers(st: Stores, id: string, answer: string, r: TurnReplies)
    requires Valid(st) && id in st.db && st.db[id].status == Error
    ensures Submitted(st, id, answer, r) == (Err(ValueError(IN_ERROR)), st)
  {
    assert SessionValid(st, id);
  }

  /** An answer of white space only is refused before any model call. */
  lemma BlankAnswerRefused(st: Stores, id: string, answer: string, r: TurnReplies)
    requires Valid(st) && id in st.db && st.db[id].status == Interviewing
    requires forall i :: 0 <= i < |answer| ==> Text.IsSpace(answer[i])
    ensures Submitted(st, id, answer, r) == (Err(ValueError(EMPTY_ANSWER)), Loaded(st, id).1)
  {
    assert SessionValid(st, id);
    Text.SanitizeShape(answer);
  }

  /** An unknown session is reported as not found, and nothing changes. */
  lemma UnknownSessionNotFound(st: Stores, id: string, answer: string, r: TurnReplies)
    requires Valid(st) && id !in st.db
    ensures Submitted(st, id, answer, r) == (Err(ValueError(NOT_FOUND)), st)
  {
    assert SessionValid(st, id);
  }

  /**
   * A cached session that leaves the cache is rebuilt from its row with the
   * same turns, status and question index; the current question and the
   * follow-up context are lost, and the language is English, as it already
   * is after any pipeline run.
   */
  lemma ReloadAfterEviction(st: Stores, id: string)
    requires Valid(st) && CacheKey(id) in st.cache && id in st.db
    ensures var data := st.cache[CacheKey(id)];
      var t := Database.Reloaded(st.db[id]);
      && t.qaPairs == data.state.qaPairs && t.status == data.state.status
      && (t.status == Interviewing ==> t.currentQuestionIndex == data.state.currentQuestionIndex)
      && t.currentQuestion == "" && !t.isFollowUp && t.followUpCount == 0 && t.language == English
  {
    assert SessionValid(st, id);
    Database.PairsRoundTrip(st.cache[CacheKey(id)].state.qaPairs);
  }

  /**
   * When a follow-up is decided but cannot be generated, the session still
   * waits for a follow-up answer, and the turn then records the main
   * question itself as the follow-up question.
   */
  lemma FailedFollowUpStillAwaits(st: Stores, id: string, s: State, answer: string, next: string, r: TurnReplies)
    requires Interviewer.FollowUpDecided(s, r.decision).isFollowUp && r.followUp.GenerationFailed?
    ensures var t := MainAnswered(st, id, s, answer, r);
      && t.0.Ok? && t.0.value.awaitingFollowUp && t.0.value.state.currentQuestion == s.currentQuestion
      && CacheKey(id) in t.1.cache
      && var turn := FollowUpTurn(t.1.cache[CacheKey(id)], next);
         turn.question == s.currentQuestion && turn.followUpQuestion == Some(s.currentQuestion)
         && turn.answer == answer && turn.followUpAnswer == Some(next)
  {
  }

  /** A started session is stored with no turns and cached, whatever setup yields. */
  lemma StartStoresSession(st: Stores, id: string, config: InterviewConfig, r: Graph.SetupReplies, fault: Option<string>)
    ensures var (s, t) := Started(st, id, config, r, fault);
      && id in t.db && t.db[id].qaRows == [] && t.db[id].status == s.status && t.db[id].report == None
      && CacheKey(id) in t.cache && t.cache[CacheKey(id)] == Settled(s)
      && (s.status == Interviewing || s.status == Error)
  {
    var init := InitialState(config.resumeText, config.jobDescription, config.interviewType,
                             config.difficulty, config.language);
    assert init.(language := English) == InitialState(config.resumeText, config.jobDescription, config.interviewType,
                                                      config.difficulty, English);
    Graph.SetupOutcome(config.resumeText, config.jobDescription, config.interviewType, config.difficulty,
                       English, r);
  }

  // ---------------------------------------------------------------- the service object

  class InterviewService {
    /** The cache, keyed by `CacheKey(id)`. */
    var cache: map<string, SessionData>
    /** The durable store, keyed by session id. */
    var db: Database.Store

    function Snapshot(): Stores
      reads this
    {
      Stores(cache, db)
    }

    constructor ()
      ensures cache == map[] && db == map[]
    {
      cache := map[];
      db := map[];
    }

    /** `_cache_session`. */
    method CacheSession(id: string, data: SessionData)
      modifies this
      ensures cache == old(cache)[CacheKey(id) := data] && db == old(db)
    {
      cache := cache[CacheKey(id) := data];
    }

    /** `_clear_cache`. */
    method ClearCache(id: string)
      modifies this
      ensures cache == old(cache) - {CacheKey(id)} && db == old(db)
    {
      cache := cache - {CacheKey(id)};
    }

    method UpdateSessionStatus(id: string, status: Status, message: Option<string>)
      modifies this
      ensures db == Database.StatusUpdated(old(db), id, status, message) && cache == old(cache)
    {
      if id in db {
        var row := db[id].(status := status, errorMessage := message);
        if status == Completed {
          row := row.(completed := true);
        }
        db := db[id := row];
      }
    }

    method SaveQAPair(id: string, pair: QAPair) returns (r: Result<(), string>)
      modifies this
      ensures var saved := Database.PairSaved(old(db), id, pair);
        && (r.Ok? <==> saved.Ok?)
        && (r.Err? ==> r.error == saved.error && db == old(db))
        && (r.Ok? ==> db == saved.value)
      ensures cache == old(cache)
    {
      if id !in db {
        return Err(Database.INTEGRITY_ERROR);
      }
      db := db[id := db[id].(qaRows := db[id].qaRows + [Database.RowOf(pair)])];
      r := Ok(());
    }

    method SaveCoachingReport(id: string, report: FinalReport)
      modifies this
      ensures db == Database.ReportSaved(old(db), id, report) && cache == old(cache)
    {
      if id in db {
        db := db[id := db[id].(report := Some(report))];
      }
    }

    method UpdateSessionFinalScore(id: string, report: FinalReport)
      modifies this
      ensures db == Database.FinalScoreUpdated(old(db), id, report) && cache == old(cache)
    {
      if id in db {
        db := db[id := db[id].(overallScore := Some(report.overallScore), overallGrade := Some(report.overallGrade),
                               status := Completed, completed := true)];
      }
    }

    method LoadSession(id: string) returns (r: Result<SessionData, Failure>)
      modifies this
      ensures (r, Snapshot()) == Loaded(old(Snapshot()), id)
      ensures old(Valid(Snapshot())) ==> Valid(Snapshot())
    {
      if Valid(Snapshot()) {
        LoadKeepsValid(Snapshot(), id);
      }
      var key := CacheKey(id);
      if key in cache {
        return Ok(cache[key]);
      }
      if id !in db {
        return Err(ValueError(NOT_FOUND));
      }
      var state := Database.RebuildState(db[id]);
      var data := Settled(state);
      if !state.status.IsTerminal() {
        CacheSession(id, data);
      }
      r := Ok(data);
    }

    /** `get_session_status`: the loaded session. */
    method GetSessionStatus(id: string) returns (r: Result<SessionData, Failure>)
      modifies this
      ensures (r, Snapshot()) == Loaded(old(Snapshot()), id)
      ensures old(Valid(Snapshot())) ==> Valid(Snapshot())
    {
      r := LoadSession(id);
    }

    method StartInterview(id: string, config: InterviewConfig, replies: Graph.SetupReplies, fault: Option<string>)
      returns (s: State)
      modifies this
      ensures (s, Snapshot()) == Started(old(Snapshot()), id, config, replies, fault)
      ensures old(Valid(Snapshot())) ==> Valid(Snapshot())
    {
      if Valid(Snapshot()) {
        StartKeepsValid(Snapshot(), id, config, replies, fault);
      }
      var initial := new InterviewState(InitialState(config.resumeText, config.jobDescription, config.interviewType,
                                                   config.difficulty, config.language));
      var result := Graph.RunSetup(initial, replies, fault);
      s := result.Value();
      db := Database.Created(db, id, s);
      CacheSession(id, Settled(s));
    }

    method SyncAfterProcessing(id: string, s: State)
      modifies this
      ensures Snapshot() == Synced(old(Snapshot()), id, s)
    {
      if s.status == Completed && s.finalReport.Some? {
        SaveCoachingReport(id, s.finalReport.value);
        UpdateSessionFinalScore(id, s.finalReport.value);
        ClearCache(id);
      } else if s.status == Error {
        UpdateSessionStatus(id, s.status, s.errorMessage);
        ClearCache(id);
      } else {
        CacheSession(id, Settled(s));
        UpdateSessionStatus(id, s.status, None);
      }
    }

    /** Save a processed turn and sync the stores. */
    method SaveTurn(id: string, n: State) returns (r: Result<Answered, Failure>)
      requires n.qaPairs != []
      modifies this
      ensures (r, Snapshot()) == Saved(old(Snapshot()), id, n)
    {
      var saved := SaveQAPair(id, n.qaPairs[|n.qaPairs| - 1]);
      if saved.Err? {
        return Err(DatabaseError(saved.error));
      }
      SyncAfterProcessing(id, n);
      r := Ok(Answered(n, false));
    }

    /** The follow-up branch of `_handle_main_answer`: ask it, and keep the main question and answer waiting. */
    method AskFollowUp(id: string, d: State, answer: string, g: Gateway.Generation)
      returns (r: Result<Answered, Failure>)
      modifies this
      ensures (r, Snapshot()) == FollowUpPending(old(Snapshot()), id, d, answer, g)
    {
      var st := new InterviewState(d);
      var pendingQuestion := st.currentQuestion;
      Interviewer.GenerateFollowUp(st, g);
      CacheSession(id, SessionData(st.Value(), true, pendingQuestion, answer));
      r := Ok(Answered(st.Value(), true));
    }

    /** Process a turn on a record of `s`, then save it. */
    method CommitTurn(id: string, s: State, pair: QAPair, replies: TurnReplies) returns (r: Result<Answered, Failure>)
      modifies this
      ensures (r, Snapshot()) == Committed(old(Snapshot()), id, s, pair, replies)
    {
      var st := new InterviewState(s);
      var n := ProcessTurn(st, pair, replies);
      r := SaveTurn(id, n);
    }

    method HandleMainAnswer(id: string, s: State, answer: string, replies: TurnReplies)
      returns (r: Result<Answered, Failure>)
      modifies this
      ensures (r, Snapshot()) == MainAnswered(old(Snapshot()), id, s, answer, replies)
    {
      var st := new InterviewState(s);
      Interviewer.DecideFollowUp(st, replies.decision);
      r := FollowDecision(id, st.Value(), answer, replies);
    }

    method FollowDecision(id: string, d: State, answer: string, replies: TurnReplies)
      returns (r: Result<Answered, Failure>)
      modifies this
      ensures d.isFollowUp ==> (r, Snapshot()) == FollowUpPending(old(Snapshot()), id, d, answer, replies.followUp)
      ensures !d.isFollowUp ==> (r, Snapshot()) == Committed(old(Snapshot()), id, d, MainTurn(d, answer), replies)
    {
      if d.isFollowUp {
        r := AskFollowUp(id, d, answer, replies.followUp);
      } else {
        r := CommitTurn(id, d, MainTurn(d, answer), replies);
      }
    }

    method HandleFollowUpAnswer(id: string, data: SessionData, answer: string, replies: TurnReplies)
      returns (r: Result<Answered, Failure>)
      modifies this
      ensures (r, Snapshot()) == Committed(old(Snapshot()), id, data.state, FollowUpTurn(data, answer), replies)
    {
      r := CommitTurn(id, data.state, FollowUpTurn(data, answer), replies);
    }

    method SubmitAnswer(id: string, answer: string, replies: TurnReplies) returns (r: Result<Answered, Failure>)
      modifies this
      ensures (r, Snapshot()) == Submitted(old(Snapshot()), id, answer, replies)
      ensures old(Valid(Snapshot())) ==> Valid(Snapshot())
    {
      if Valid(Snapshot()) {
        SubmitKeepsValid(Snapshot(), id, answer, replies);
      }
      var loaded := LoadSession(id);
      if loaded.Err? {
        return Err(loaded.error);
      }
      var data := loaded.value;
      if data.state.status == Completed {
        return Err(ValueError(ALREADY_COMPLETED));
      }
      if data.state.status == Error {
        return Err(ValueError(IN_ERROR));
      }
      var clean := Text.Sanitize(answer);
      if clean == "" {
        return Err(ValueError(EMPTY_ANSWER));
      }
      if data.awaitingFollowUp {
        r := HandleFollowUpAnswer(id, data, clean, replies);
      } else {
        r := HandleMainAnswer(id, data.state, clean, replies);
      }
    }
  }
}
