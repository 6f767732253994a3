/**
 * The durable store: one row per session, with its turns and its report as
 * dependent rows, and the projection that rebuilds a session state from a
 * row. The store is a map from session id to row; the service owns it and
 * applies the updates below to it. What is never written (the current
 * question, the follow-up flags, the language) comes back at its default.
 */
module Database {
  import opened Wrappers
  import opened Schemas

  /** The exception raised when a turn is inserted for a session that has no row. */
  const INTEGRITY_ERROR: string := "IntegrityError"

  /** A row of the turns table; the evaluation is spread over nullable columns. */
  datatype QARow = QARow(
    questionNumber: int,
    question: string,
    answer: string,
    followUpQuestion: Option<string>,
    followUpAnswer: Option<string>,
    score: Option<Score>,
    strengths: Option<seq<string>>,
    weaknesses: Option<seq<string>>,
    notes: Option<string>)

  /**
   * A session row with its turns, in question-number order, and its report.
   * `completed` stands for `completed_at` being set.
   */
  datatype SessionRow = SessionRow(
    resumeText: string,
    jobDescription: string,
    interviewType: InterviewType,
    difficulty: Difficulty,
    candidateProfile: Option<CandidateProfile>,
    interviewPlan: Option<InterviewPlan>,
    status: Status,
    errorMessage: Option<string>,
    overallScore: Option<Tenths>,
    overallGrade: Option<OverallGrade>,
    completed: bool,
    qaRows: seq<QARow>,
    report: Option<FinalReport>)

  type Store = map<string, SessionRow>

  // ---------------------------------------------------------------- row mappings

  /** The row `create_session` inserts: no score, no turns, no report; the language is not stored. */
  function NewRow(s: State): (r: SessionRow)
    ensures r.resumeText == s.resumeText && r.jobDescription == s.jobDescription
    ensures r.interviewType == s.interviewType && r.difficulty == s.difficulty
    ensures r.candidateProfile == s.candidateProfile && r.interviewPlan == s.interviewPlan
    ensures r.status == s.status && r.errorMessage == s.errorMessage
    ensures r.overallScore == None && r.overallGrade == None && !r.completed
    ensures r.qaRows == [] && r.report == None
  {
    SessionRow(s.resumeText, s.jobDescription, s.interviewType, s.difficulty, s.candidateProfile,
               s.interviewPlan, s.status, s.errorMessage, None, None, false, [], None)
  }

  /** The row `save_qa_pair` inserts for a turn. */
  function RowOf(p: QAPair): (r: QARow)
    ensures r.questionNumber == p.questionNumber && r.question == p.question && r.answer == p.answer
    ensures r.followUpQuestion == p.followUpQuestion && r.followUpAnswer == p.followUpAnswer
    ensures r.score.Some? <==> p.evaluation.Some?
    ensures p.evaluation.None? ==> r.strengths.None? && r.weaknesses.None? && r.notes.None?
    ensures p.evaluation.Some? ==> var e := p.evaluation.value;
      r.score == Some(e.score) && r.strengths == Some(e.strengths) && r.weaknesses == Some(e.weaknesses)
      && r.notes == Some(e.notes)
  {
    match p.evaluation
    case Some(e) =>
      QARow(p.questionNumber, p.question, p.answer, p.followUpQuestion, p.followUpAnswer,
            Some(e.score), Some(e.strengths), Some(e.weaknesses), Some(e.notes))
    case None =>
      QARow(p.questionNumber, p.question, p.answer, p.followUpQuestion, p.followUpAnswer,
            None, None, None, None)
  }

  /** The rows the turns `ps` are saved as, one per turn in order. */
  function RowsOf(ps: seq<QAPair>): (rows: seq<QARow>)
    ensures |rows| == |ps| && forall i :: 0 <= i < |ps| ==> rows[i] == RowOf(ps[i])
  {
    seq(|ps|, i requires 0 <= i < |ps| => RowOf(ps[i]))
  }

  /** The turn `db_to_interview_state` rebuilds from a row: an evaluation exactly when a score is stored. */
  function PairOf(r: QARow): (p: QAPair)
    ensures p.evaluation.Some? <==> r.score.Some?
    ensures p.evaluation.Some? ==> p.evaluation.value.score == r.score.value
                                   && p.evaluation.value.strengths == (if r.strengths.Some? then r.strengths.value else [])
                                   && p.evaluation.value.weaknesses == (if r.weaknesses.Some? then r.weaknesses.value else [])
                                   && p.evaluation.value.notes == (if r.notes.Some? then r.notes.value else "")
    ensures p.questionNumber == r.questionNumber && p.question == r.question && p.answer == r.answer
    ensures p.followUpQuestion == r.followUpQuestion && p.followUpAnswer == r.followUpAnswer
  {
    var evaluation :=
      match r.score
      case Some(score) =>
        Some(QuestionEvaluation(score, OrEmpty(r.strengths), OrEmpty(r.weaknesses),
                                if r.notes.Some? then r.notes.value else ""))
      case None => None;
    QAPair(r.questionNumber, r.question, r.answer, r.followUpQuestion, r.followUpAnswer, evaluation)
  }

  /** `value or []` for a nullable list column. */
  function OrEmpty(o: Option<seq<string>>): seq<string> {
    if o.Some? then o.value else []
  }

  /** The turns of a row, in row order. */
  function PairsOf(rows: seq<QARow>): (ps: seq<QAPair>)
    ensures |ps| == |rows| && forall i :: 0 <= i < |rows| ==> ps[i] == PairOf(rows[i])
  {
    seq(|rows|, i requires 0 <= i < |rows| => PairOf(rows[i]))
  }

  /** The question index of a reloaded session: the number of turns, less one once completed. */
  function ReloadedIndex(row: SessionRow): nat {
    if |row.qaRows| > 0 && row.status == Completed then |row.qaRows| - 1 else |row.qaRows|
  }

  /** `db_to_interview_state`. */
  function Reloaded(row: SessionRow): (s: State)
    ensures s.resumeText == row.resumeText && s.jobDescription == row.jobDescription
    ensures s.interviewType == row.interviewType && s.difficulty == row.difficulty
    ensures s.candidateProfile == row.candidateProfile && s.interviewPlan == row.interviewPlan
    ensures s.qaPairs == PairsOf(row.qaRows) && s.finalReport == row.report
    ensures s.status == row.status && s.errorMessage == row.errorMessage
    ensures s.currentQuestionIndex + (if row.status == Completed && row.qaRows != [] then 1 else 0) == |row.qaRows|
    // what no column holds comes back at its default
    ensures s.language == English && s.currentQuestion == "" && !s.isFollowUp && s.followUpCount == 0
  {
    State(row.resumeText, row.jobDescription, row.interviewType, row.difficulty, English,
          row.candidateProfile, row.interviewPlan, ReloadedIndex(row), "", false, 0,
          PairsOf(row.qaRows), row.report, row.status, row.errorMessage)
  }

  /** `db_to_interview_state`, building the turns one row at a time. */
  method RebuildState(row: SessionRow) returns (s: State)
    ensures s == Reloaded(row)
  {
    var pairs: seq<QAPair> := [];
    for i := 0 to |row.qaRows|
      invariant |pairs| == i
      invariant forall j :: 0 <= j < i ==> pairs[j] == PairOf(row.qaRows[j])
    {
      var qaRow := row.qaRows[i];
      var evaluation: Option<QuestionEvaluation> := None;
      if qaRow.score.Some? {
        evaluation := Some(QuestionEvaluation(qaRow.score.value, OrEmpty(qaRow.strengths), OrEmpty(qaRow.weaknesses),
                                              if qaRow.notes.Some? then qaRow.notes.value else ""));
      }
      pairs := pairs + [QAPair(qaRow.questionNumber, qaRow.question, qaRow.answer, qaRow.followUpQuestion,
                               qaRow.followUpAnswer, evaluation)];
    }
    var index := |pairs|;
    if index > 0 && row.status == Completed {
      index := |pairs| - 1;
    }
    s := State(row.resumeText, row.jobDescription, row.interviewType, row.difficulty, English,
               row.candidateProfile, row.interviewPlan, index, "", false, 0, pairs, row.report,
               row.status, row.errorMessage);
  }

  // ---------------------------------------------------------------- store updates

  /** `create_session`: the store with the new row under `id`. */
  function Created(db: Store, id: string, s: State): (r: Store)
    ensures id in r && r[id] == NewRow(s)
    ensures forall k :: k in db && k != id ==> k in r && r[k] == db[k]
    ensures r.Keys == db.Keys + {id}
  {
    db[id := NewRow(s)]
  }

  /**
   * `update_session_status`: status and message are overwritten, and the
   * completion flag is set for "completed"; a missing row is left missing.
   */
  function StatusUpdated(db: Store, id: string, status: Status, message: Option<string>): (r: Store)
    ensures id !in db ==> r == db
    ensures id in db ==> r == db[id := db[id].(status := status, errorMessage := message,
                                               completed := db[id].completed || status == Completed)]
  {
    if id in db then db[id := db[id].(status := status, errorMessage := message,
                                     completed := db[id].completed || status == Completed)]
    else db
  }

  /** `save_qa_pair`: the turn's row is added after the others; the insert fails for a missing session. */
  function PairSaved(db: Store, id: string, p: QAPair): (r: Result<Store, string>)
    ensures id !in db <==> r.Err?
    ensures r.Err? ==> r.error == INTEGRITY_ERROR
    ensures r.Ok? ==> r.value.Keys == db.Keys
                      && r.value[id] == db[id].(qaRows := db[id].qaRows + [RowOf(p)])
                      && forall k :: k in db && k != id ==> r.value[k] == db[k]
  {
    if id in db then Ok(db[id := db[id].(qaRows := db[id].qaRows + [RowOf(p)])]) else Err(INTEGRITY_ERROR)
  }

  /** `save_coaching_report`: the report row of a session. */
  function ReportSaved(db: Store, id: string, report: FinalReport): (r: Store)
    ensures id !in db ==> r == db
    ensures id in db ==> r == db[id := db[id].(report := Some(report))]
  {
    if id in db then db[id := db[id].(report := Some(report))] else db
  }

  /** `update_session_final_score`: score, grade, "completed" and the completion flag. */
  function FinalScoreUpdated(db: Store, id: string, report: FinalReport): (r: Store)
    ensures id !in db ==> r == db
    ensures id in db ==> r == db[id := db[id].(overallScore := Some(report.overallScore),
                                               overallGrade := Some(report.overallGrade),
                                               status := Completed, completed := true)]
  {
    if id in db then db[id := db[id].(overallScore := Some(report.overallScore),
                                     overallGrade := Some(report.overallGrade),
                                     status := Completed, completed := true)]
    else db
  }

  /** Deleting a session removes its row together with its turns and report; the result says whether it existed. */
  function Deleted(db: Store, id: string): (r: (Store, bool))
    ensures r.1 <==> id in db
    ensures id !in r.0 && r.0.Keys == db.Keys - {id}
    ensures forall k :: k in r.0 ==> r.0[k] == db[k]
  {
    (map k | k in db && k != id :: db[k], id in db)
  }

  // ---------------------------------------------------------------- properties

  /** The rows `save_qa_pair` writes: the evaluation columns are all set or all null. */
  predicate WellFormedRow(r: QARow) {
    r.score.Some? == r.strengths.Some? && r.score.Some? == r.weaknesses.Some? && r.score.Some? == r.notes.Some?
  }

  /** A saved turn is rebuilt as the same turn, and a row written from a turn is written back the same. */
  lemma RowRoundTrip(r: QARow)
    requires WellFormedRow(r)
    ensures RowOf(PairOf(r)) == r
  {
  }

  lemma RowsRoundTrip(rows: seq<QARow>)
    requires forall i :: 0 <= i < |rows| ==> WellFormedRow(rows[i])
    ensures RowsOf(PairsOf(rows)) == rows
  {
    forall i | 0 <= i < |rows| ensures RowsOf(PairsOf(rows))[i] == rows[i] {
      RowRoundTrip(rows[i]);
    }
  }

  /** A saved turn is rebuilt as the same turn. */
  lemma PairRoundTrip(p: QAPair)
    ensures PairOf(RowOf(p)) == p
  {
  }

  /** Turns saved as rows are rebuilt as the same turns. */
  lemma PairsRoundTrip(ps: seq<QAPair>)
    ensures PairsOf(RowsOf(ps)) == ps
  {
    forall i | 0 <= i < |ps| ensures PairsOf(RowsOf(ps))[i] == ps[i] {
      PairRoundTrip(ps[i]);
    }
  }

  /**
   * A session created from `s`, then given the turns `ps` in order and a
   * status, reloads with the same inputs, profile, plan, turns and status;
   * what is never stored comes back at its default.
   */
  lemma {:induction false} SaveThenReload(s: State, ps: seq<QAPair>, status: Status, message: Option<string>)
    ensures var row := NewRow(s).(qaRows := RowsOf(ps), status := status, errorMessage := message);
      var t := Reloaded(row);
      && t.qaPairs == ps
      && t.currentQuestionIndex == (if status == Completed && ps != [] then |ps| - 1 else |ps|)
      && t.resumeText == s.resumeText && t.jobDescription == s.jobDescription
      && t.interviewType == s.interviewType && t.difficulty == s.difficulty
      && t.candidateProfile == s.candidateProfile && t.interviewPlan == s.interviewPlan
      && t.status == status && t.errorMessage == message
      && t.currentQuestion == "" && !t.isFollowUp && t.followUpCount == 0 && t.language == English
  {
    PairsRoundTrip(ps);
  }
}
