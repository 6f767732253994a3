/**
 * The records of the interview service: the enumerations, the request
 * schemas with their length bounds and validators, the agents' outputs
 * with their score bounds, and the session state that every step threads.
 */
module Schemas {
  import opened Wrappers
  import Text

  /** Settings defaults: questions per interview and follow-ups per question. */
  const MAX_QUESTIONS: nat := 8
  const MAX_FOLLOW_UPS: nat := 1

  datatype InterviewType = Behavioral | Technical
  datatype Difficulty = Junior | Mid | Senior
  datatype OverallMatch = Strong | Moderate | Weak
  datatype OverallGrade = Excellent | VeryGood | Good | BelowAverage | Poor
  datatype Language = English | Indonesian

  function GradeName(g: OverallGrade): string {
    match g
    case Excellent => "Excellent"
    case VeryGood => "Very Good"
    case Good => "Good"
    case BelowAverage => "Below Average"
    case Poor => "Poor"
  }

  function InterviewTypeName(t: InterviewType): string {
    match t
    case Behavioral => "behavioral"
    case Technical => "technical"
  }

  function DifficultyName(d: Difficulty): string {
    match d
    case Junior => "junior"
    case Mid => "mid"
    case Senior => "senior"
  }

  /** The session lifecycle, stored as a string in the source. */
  datatype Status = Initialized | Analyzing | Planning | Interviewing | Evaluating | Coaching | Completed | Error
  {
    predicate IsTerminal() { this == Completed || this == Error }
  }

  function StatusName(s: Status): string {
    match s
    case Initialized => "initialized"
    case Analyzing => "analyzing"
    case Planning => "planning"
    case Interviewing => "interviewing"
    case Evaluating => "evaluating"
    case Coaching => "coaching"
    case Completed => "completed"
    case Error => "error"
  }

  /** A per-question score: `Field(ge=1, le=10)`. */
  type Score = x: int | 1 <= x <= 10 witness 5

  /** An overall score in tenths of a point: `Field(ge=1.0, le=10.0)` at one decimal. */
  type Tenths = x: int | 10 <= x <= 100 witness 50

  // ---------------------------------------------------------------- inputs

  datatype InterviewConfig = InterviewConfig(
    resumeText: string,
    jobDescription: string,
    interviewType: InterviewType,
    difficulty: Difficulty,
    language: Language)

  predicate LengthWithin(s: string, lo: nat, hi: nat) { lo <= |s| <= hi }

  /**
   * Pydantic validation of an `InterviewConfig`: the length bounds are checked
   * on the text as received, then the `sanitize_text` validator runs.
   */
  function ValidateConfig(resume: string, job: string, t: InterviewType, d: Difficulty, lang: Language)
    : (r: Result<InterviewConfig, string>)
    ensures r.Ok? <==> LengthWithin(resume, 50, 50000) && LengthWithin(job, 20, 20000)
    ensures r.Ok? ==> r.value == InterviewConfig(Text.Sanitize(resume), Text.Sanitize(job), t, d, lang)
    ensures r.Ok? ==> |r.value.resumeText| <= 50000 && |r.value.jobDescription| <= 20000
  {
    Text.SanitizeShape(resume);
    Text.SanitizeShape(job);
    if !LengthWithin(resume, 50, 50000) then Err("resume_text")
    else if !LengthWithin(job, 20, 20000) then Err("job_description")
    else Ok(InterviewConfig(Text.Sanitize(resume), Text.Sanitize(job), t, d, lang))
  }

  /** Pydantic validation of a `UserAnswer`: 1..10000 characters, then sanitised. */
  function ValidateAnswer(answer: string): (r: Result<string, string>)
    ensures r.Ok? <==> LengthWithin(answer, 1, 10000)
    ensures r.Ok? ==> r.value == Text.Sanitize(answer) && |r.value| <= 10000
  {
    Text.SanitizeShape(answer);
    if LengthWithin(answer, 1, 10000) then Ok(Text.Sanitize(answer)) else Err("answer")
  }

  // ---------------------------------------------------------------- agent outputs

  datatype CandidateProfile = CandidateProfile(
    candidateName: string,
    skills: seq<string>,
    experienceYears: string,
    relevantExperience: seq<string>,
    strengths: seq<string>,
    gaps: seq<string>,
    education: string,
    overallMatch: OverallMatch)

  datatype InterviewTopic = InterviewTopic(area: string, focus: string, why: string)

  datatype InterviewPlan = InterviewPlan(topics: seq<InterviewTopic>)

  datatype FollowUpDecision = FollowUpDecision(needsFollowUp: bool, reason: string)

  datatype QuestionEvaluation = QuestionEvaluation(
    score: Score,
    strengths: seq<string>,
    weaknesses: seq<string>,
    notes: string)

  /** The `clamp_score` validator. */
  function ClampScore(v: int): (r: int)
    ensures 1 <= r <= 10
    ensures 1 <= v <= 10 ==> r == v
    ensures v < 1 ==> r == 1
    ensures v > 10 ==> r == 10
  {
    if v < 1 then 1 else if v > 10 then 10 else v
  }

  /**
   * Constructing a `QuestionEvaluation`: the `ge`/`le` bounds reject an
   * out-of-range score before `clamp_score` runs, so the clamp never changes
   * an accepted score.
   */
  function NewEvaluation(score: int, strengths: seq<string>, weaknesses: seq<string>, notes: string)
    : (r: Option<QuestionEvaluation>)
    ensures r.Some? <==> 1 <= score <= 10
    ensures r.Some? ==> r.value.score == score && r.value.strengths == strengths
                        && r.value.weaknesses == weaknesses && r.value.notes == notes
  {
    if 1 <= score <= 10 then Some(QuestionEvaluation(ClampScore(score), strengths, weaknesses, notes)) else None
  }

  datatype QAPair = QAPair(
    questionNumber: int,
    question: string,
    answer: string,
    followUpQuestion: Option<string>,
    followUpAnswer: Option<string>,
    evaluation: Option<QuestionEvaluation>)

  datatype PerQuestionFeedback = PerQuestionFeedback(
    questionNumber: int,
    question: string,
    candidateAnswer: string,
    score: Score,
    feedback: string,
    betterAnswer: string)

  datatype FinalReport = FinalReport(
    overallScore: Tenths,
    overallGrade: OverallGrade,
    summary: string,
    perQuestionFeedback: seq<PerQuestionFeedback>,
    topStrengths: seq<string>,
    areasToImprove: seq<string>,
    actionItems: seq<string>,
    readyForRole: bool,
    readyExplanation: string)

  // ---------------------------------------------------------------- session state

  datatype State = State(
    resumeText: string,
    jobDescription: string,
    interviewType: InterviewType,
    difficulty: Difficulty,
    language: Language,
    candidateProfile: Option<CandidateProfile>,
    interviewPlan: Option<InterviewPlan>,
    currentQuestionIndex: nat,
    currentQuestion: string,
    isFollowUp: bool,
    followUpCount: nat,
    qaPairs: seq<QAPair>,
    finalReport: Option<FinalReport>,
    status: Status,
    errorMessage: Option<string>)

  /** An `InterviewState` built with only its inputs given: every other field at its default. */
  function InitialState(resume: string, job: string, t: InterviewType, d: Difficulty, lang: Language)
    : (s: State)
    ensures s.resumeText == resume && s.jobDescription == job
    ensures s.interviewType == t && s.difficulty == d && s.language == lang
    ensures s.currentQuestionIndex == 0 && s.currentQuestion == "" && !s.isFollowUp && s.followUpCount == 0
    ensures s.qaPairs == [] && s.finalReport == None && s.status == Initialized && s.errorMessage == None
    ensures s.candidateProfile == None && s.interviewPlan == None
  {
    State(resume, job, t, d, lang, None, None, 0, "", false, 0, [], None, Initialized, None)
  }
}
