/**
 * The two pipelines over the agents. Setup analyses the resume, plans the
 * interview and asks the first question, stopping at the first error.
 * Processing an answer evaluates it, then either asks the next question,
 * writes the final report, or stops on an error. Both run on a copy of the
 * session state; when the pipeline itself raises, the caller's state is
 * returned instead, marked as failed.
 */
module Graph {
  import opened Wrappers
  import opened Schemas
  import opened Replies
  import opened Record
  import Text
  import Gateway
  import ResumeAnalyzer
  import Interviewer
  import Evaluator
  import Coach

  const SETUP_FAILED: string := "Interview setup failed: "
  const PROCESSING_FAILED: string := "Answer processing failed: "

  /** The labels of the conditional edges. */
  datatype Route = Continue | Done | Stop

  /** What the model calls of one setup run yield. */
  datatype SetupReplies = SetupReplies(
    analysis: Reply<CandidateProfile>,
    plan: Reply<InterviewPlan>,
    question: Gateway.Generation)

  /** What the model calls of one answer-processing run yield. */
  datatype ProcessReplies = ProcessReplies(
    evaluation: Reply<QuestionEvaluation>,
    nextQuestion: Gateway.Generation,
    report: Reply<FinalReport>)

  // ---------------------------------------------------------------- routing

  /** `check_setup_error`. */
  function CheckSetupError(s: State): (r: Route)
    ensures r != Done
    ensures r == Stop <==> s.status == Error
  {
    if s.status == Error then Stop else Continue
  }

  /** `check_interview_complete`: the index names the question just answered. */
  function CheckInterviewComplete(s: State): (r: Route)
    ensures r == Stop <==> s.status == Error
    ensures r == Done <==> s.status != Error && s.currentQuestionIndex >= MAX_QUESTIONS - 1
    ensures r == Continue <==> s.status != Error && s.currentQuestionIndex < MAX_QUESTIONS - 1
  {
    if s.status == Error then Stop
    else if s.currentQuestionIndex >= MAX_QUESTIONS - 1 then Done
    else Continue
  }

  // ---------------------------------------------------------------- setup

  /** The setup chain: analyse, then plan, then ask, each step only when the one before left no error. */
  function SetupChain(s: State, r: SetupReplies): (t: State)
    // setup writes only the profile, the plan, the question and its flags, the status and the message
    ensures t.(candidateProfile := s.candidateProfile, interviewPlan := s.interviewPlan,
               currentQuestion := s.currentQuestion, isFollowUp := s.isFollowUp, followUpCount := s.followUpCount,
               status := s.status, errorMessage := s.errorMessage) == s
    ensures t.status == Error || (r.analysis.Parsed? && r.plan.Parsed? && r.question.Generated?)
  {
    var analysed := ResumeAnalyzer.Analyzed(s, r.analysis);
    if CheckSetupError(analysed) == Stop then analysed
    else
      var planned := Interviewer.Planned(analysed, r.plan);
      if CheckSetupError(planned) == Stop then planned
      else Interviewer.QuestionAsked(planned, r.question)
  }

  /**
   * `run_setup`: the chain's result, or the input marked failed when the
   * pipeline raised `fault`. The graph's state schema has no language key, so
   * the chain runs on, and returns, the state with the language at its default.
   */
  function SetupResult(s: State, r: SetupReplies, fault: Option<string>): (t: State)
    ensures fault.None? ==> t == SetupChain(s.(language := English), r) && t.language == English
    ensures fault.Some? ==> t == s.(status := Error, errorMessage := Some(SETUP_FAILED + fault.value))
  {
    match fault
    case Some(name) => s.(status := Error, errorMessage := Some(SETUP_FAILED + name))
    case None => SetupChain(s.(language := English), r)
  }

  method RunSetup(st: InterviewState, r: SetupReplies, fault: Option<string>) returns (result: InterviewState)
    modifies st
    ensures result.Value() == SetupResult(old(st.Value()), r, fault)
    // the pipeline works on a copy; only a failed run hands back the caller's own state
    ensures fault.None? ==> fresh(result) && st.Value() == old(st.Value())
    ensures fault.Some? ==> result == st
  {
    if fault.Some? {
      st.status := Error;
      st.errorMessage := Some(SETUP_FAILED + fault.value);
      result := st;
    } else {
      result := new InterviewState(st.Value().(language := English));
      ResumeAnalyzer.AnalyzeResume(result, r.analysis);
      if CheckSetupError(result.Value()) == Continue {
        Interviewer.PlanInterview(result, r.plan);
        if CheckSetupError(result.Value()) == Continue {
          Interviewer.GenerateQuestion(result, r.question);
        }
      }
    }
  }

  // ---------------------------------------------------------------- answer processing

  /** `advance_and_generate_node`: move to the next question, then ask it. */
  function AdvancedAndAsked(s: State, g: Gateway.Generation): (t: State)
    ensures t.currentQuestionIndex == s.currentQuestionIndex + 1 && t.qaPairs == s.qaPairs
    ensures t.status == Error || (t.status == s.status && !t.isFollowUp && t.followUpCount == 0)
    ensures t.status != Error ==> g.Generated? && t.currentQuestion == Text.StripQuotes(g.text)
  {
    Interviewer.QuestionAsked(Interviewer.Advanced(s), g)
  }

  method AdvanceAndGenerate(st: InterviewState, g: Gateway.Generation)
    modifies st
    ensures st.Value() == AdvancedAndAsked(old(st.Value()), g)
  {
    Interviewer.AdvanceQuestion(st);
    Interviewer.GenerateQuestion(st, g);
  }

  /** The process-answer chain: evaluate, then exactly one of next question, coaching, or nothing. */
  function ProcessChain(s: State, r: ProcessReplies): (t: State)
    ensures t.language == s.language && t.candidateProfile == s.candidateProfile && t.interviewPlan == s.interviewPlan
    ensures |t.qaPairs| == |s.qaPairs|
  {
    var evaluated := Evaluator.Evaluated(s, r.evaluation);
    match CheckInterviewComplete(evaluated)
    case Stop => evaluated
    case Continue => AdvancedAndAsked(evaluated, r.nextQuestion)
    case Done => Coach.Coached(evaluated, r.report)
  }

  /**
   * `run_process_answer`: the chain's result on the state without its
   * language, or the input marked failed when the pipeline raised `fault`.
   */
  function ProcessResult(s: State, r: ProcessReplies, fault: Option<string>): (t: State)
    ensures fault.None? ==> t == ProcessChain(s.(language := English), r) && t.language == English
    ensures fault.Some? ==> t == s.(status := Error, errorMessage := Some(PROCESSING_FAILED + fault.value))
  {
    match fault
    case Some(name) => s.(status := Error, errorMessage := Some(PROCESSING_FAILED + name))
    case None => ProcessChain(s.(language := English), r)
  }

  method RunProcessAnswer(st: InterviewState, r: ProcessReplies, fault: Option<string>)
    returns (result: InterviewState)
    modifies st
    ensures result.Value() == ProcessResult(old(st.Value()), r, fault)
    ensures fault.None? ==> fresh(result) && st.Value() == old(st.Value())
    ensures fault.Some? ==> result == st
  {
    if fault.Some? {
      st.status := Error;
      st.errorMessage := Some(PROCESSING_FAILED + fault.value);
      result := st;
    } else {
      result := new InterviewState(st.Value().(language := English));
      Evaluator.EvaluateAnswer(result, r.evaluation);
      match CheckInterviewComplete(result.Value()) {
        case Stop =>
        case Continue => AdvanceAndGenerate(result, r.nextQuestion);
        case Done => Coach.GenerateCoachingReport(result, r.report);
      }
    }
  }

  // ---------------------------------------------------------------- properties

  /**
   * Setup from a fresh state ends either in an error or interviewing, and in
   * the latter case with a profile, a plan of one to `MAX_QUESTIONS` topics
   * and the first question asked; no turn is recorded and no report written.
   */
  lemma SetupOutcome(resume: string, job: string, t: InterviewType, d: Difficulty, lang: Language, r: SetupReplies)
    ensures var u := SetupChain(InitialState(resume, job, t, d, lang), r);
      && (u.status == Interviewing || u.status == Error)
      && u.qaPairs == [] && u.finalReport == None
      && (u.status == Interviewing ==>
            && r.analysis.Parsed? && r.plan.Parsed? && r.question.Generated?
            && u.candidateProfile.Some?
            && u.interviewPlan.Some? && 1 <= |u.interviewPlan.value.topics| <= MAX_QUESTIONS
            && u.currentQuestionIndex == 0
            && !u.isFollowUp && u.followUpCount == 0)
  {
  }

  /** Processing a recorded answer ends evaluating, completed or in error. */
  lemma ProcessOutcome(s: State, r: ProcessReplies)
    requires s.qaPairs != []
    ensures var u := ProcessChain(s, r);
      && (u.status == Evaluating || u.status == Completed || u.status == Error)
      && (u.status == Completed <==> s.currentQuestionIndex >= MAX_QUESTIONS - 1)
      && (u.status == Completed ==> u.finalReport.Some?)
      && |u.qaPairs| == |s.qaPairs|
  {
  }

  /** When the interview goes on, the index moves on by exactly one and the recorded turns stay. */
  lemma ContinueAdvancesOnce(s: State, r: ProcessReplies)
    requires s.qaPairs != [] && s.currentQuestionIndex < MAX_QUESTIONS - 1
    ensures var u := ProcessChain(s, r);
      u.currentQuestionIndex == s.currentQuestionIndex + 1 && |u.qaPairs| == |s.qaPairs|
  {
  }

  /** Processing keeps the recorded turns: only the evaluation of the last one may change. */
  lemma ProcessKeepsTurns(s: State, r: ProcessReplies, fault: Option<string>)
    requires s.qaPairs != []
    ensures var u := ProcessResult(s, r, fault); var n := |s.qaPairs|;
      && |u.qaPairs| == n
      && u.qaPairs[..n - 1] == s.qaPairs[..n - 1]
      && u.qaPairs[n - 1].(evaluation := s.qaPairs[n - 1].evaluation) == s.qaPairs[n - 1]
  {
  }

  /** The question index never passes the last question. */
  lemma IndexStaysBounded(s: State, r: ProcessReplies, fault: Option<string>)
    requires s.currentQuestionIndex <= MAX_QUESTIONS - 1
    ensures ProcessResult(s, r, fault).currentQuestionIndex <= MAX_QUESTIONS - 1
  {
  }

  /** Setup stops at the first step that leaves an error: planning never follows a failed analysis, asking never a failed plan. */
  lemma SetupStopsAtFirstError(s: State, r: SetupReplies)
    ensures var a := ResumeAnalyzer.Analyzed(s, r.analysis);
      var p := Interviewer.Planned(a, r.plan);
      && (a.status == Error ==> SetupChain(s, r) == a)
      && (a.status != Error && p.status == Error ==> SetupChain(s, r) == p)
      && (a.status != Error && p.status != Error ==> SetupChain(s, r) == Interviewer.QuestionAsked(p, r.question))
  {
  }

  /** Processing always evaluates first, then takes exactly the branch the route names. */
  lemma ProcessRunsOneBranch(s: State, r: ProcessReplies)
    ensures var e := Evaluator.Evaluated(s, r.evaluation);
      && (CheckInterviewComplete(e) == Stop ==> ProcessChain(s, r) == e)
      && (CheckInterviewComplete(e) == Continue ==>
            ProcessChain(s, r) == Interviewer.QuestionAsked(Interviewer.Advanced(e), r.nextQuestion))
      && (CheckInterviewComplete(e) == Done ==> ProcessChain(s, r) == Coach.Coached(e, r.report))
  {
  }

  /**
   * As written, the language chosen at the start never survives setup: a
   * session requested in Indonesian comes back in English from any run that
   * does not raise.
   */
  lemma SetupForgetsLanguage(resume: string, job: string, t: InterviewType, d: Difficulty, r: SetupReplies)
    ensures SetupResult(InitialState(resume, job, t, d, Indonesian), r, None).language == English
    ensures InitialState(resume, job, t, d, Indonesian).language != English
  {
  }

  /**
   * Setup as evidently intended, with the language among the keys of the
   * graph's state: the chain runs on the caller's state and keeps its language.
   */
  function SetupKeepingLanguage(s: State, r: SetupReplies, fault: Option<string>): (t: State)
    ensures t.language == s.language
    ensures t.(language := English) == SetupResult(s, r, fault).(language := English)
  {
    match fault
    case Some(name) => s.(status := Error, errorMessage := Some(SETUP_FAILED + name))
    case None => SetupChain(s, r)
  }

  /** A failed pipeline keeps everything but the status and the message as it was. */
  lemma FaultKeepsState(s: State, r: SetupReplies, p: ProcessReplies, name: string)
    ensures SetupResult(s, r, Some(name)).(status := s.status, errorMessage := s.errorMessage) == s
    ensures ProcessResult(s, p, Some(name)).(status := s.status, errorMessage := s.errorMessage) == s
  {
  }
}
