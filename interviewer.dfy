/**
 * The interviewer agents: planning the topics, asking the main question,
 * deciding on and asking a follow-up, recording an answer and moving on to
 * the next question. Each assigns a few fields of the state in place.
 */
module Interviewer {
  import opened Wrappers
  import opened Schemas
  import opened Replies
  import opened Record
  import Gateway
  import Text

  const PLANNING_FAILED: string := "Interview planning failed: "
  const PARSE_FAILURE: string := "Could not parse response"
  const NO_PLAN: string := "No interview plan available"
  const QUESTION_FAILED: string := "Question generation failed: "

  // ---------------------------------------------------------------- plan_interview

  /** The plan as kept: at most `MAX_QUESTIONS` topics, the first ones of the plan received. */
  function KeptTopics(topics: seq<InterviewTopic>): (r: seq<InterviewTopic>)
    ensures |r| == if |topics| <= MAX_QUESTIONS then |topics| else MAX_QUESTIONS
    ensures r == topics[..|r|]
  {
    if |topics| > MAX_QUESTIONS then topics[..MAX_QUESTIONS] else topics
  }

  /** `plan_interview` on `s` when the model call yields `reply`. */
  function Planned(s: State, reply: Reply<InterviewPlan>): (t: State)
    ensures t.status == (if reply.Parsed? then Interviewing else Error)
    ensures reply.Parsed? ==> t.interviewPlan == Some(InterviewPlan(KeptTopics(reply.value.topics)))
                              && t.errorMessage == s.errorMessage
    ensures reply.Invalid? ==> t.interviewPlan == s.interviewPlan
                               && t.errorMessage == Some(PLANNING_FAILED + PARSE_FAILURE)
    ensures reply.Raised? ==> t.interviewPlan == s.interviewPlan
                              && t.errorMessage == Some(PLANNING_FAILED + reply.exceptionName)
    ensures t.(status := s.status, interviewPlan := s.interviewPlan, errorMessage := s.errorMessage) == s
  {
    var entered := s.(status := Planning);
    match reply
    case Parsed(plan) => entered.(interviewPlan := Some(InterviewPlan(KeptTopics(plan.topics))), status := Interviewing)
    case Invalid => entered.(status := Error, errorMessage := Some(PLANNING_FAILED + PARSE_FAILURE))
    case Raised(name) => entered.(status := Error, errorMessage := Some(PLANNING_FAILED + name))
  }

  method PlanInterview(st: InterviewState, reply: Reply<InterviewPlan>)
    modifies st
    ensures st.Value() == Planned(old(st.Value()), reply)
  {
    st.status := Planning;
    match reply {
      case Parsed(received) =>
        var plan := received;
        if |plan.topics| > MAX_QUESTIONS {
          plan := plan.(topics := plan.topics[..MAX_QUESTIONS]);
        }
        st.interviewPlan := Some(plan);
        st.status := Interviewing;
      case Invalid =>
        st.status := Error;
        st.errorMessage := Some(PLANNING_FAILED + PARSE_FAILURE);
      case Raised(name) =>
        st.status := Error;
        st.errorMessage := Some(PLANNING_FAILED + name);
    }
  }

  // ---------------------------------------------------------------- generate_question

  predicate HasPlan(s: State) {
    s.interviewPlan.Some? && s.interviewPlan.value.topics != []
  }

  /** The topic the next question is about: the one at the question index, or the last one. */
  function TopicIndex(s: State): (i: nat)
    requires HasPlan(s)
    ensures i < |s.interviewPlan.value.topics|
    ensures s.currentQuestionIndex < |s.interviewPlan.value.topics| ==> i == s.currentQuestionIndex
    ensures s.currentQuestionIndex >= |s.interviewPlan.value.topics| ==> i == |s.interviewPlan.value.topics| - 1
  {
    var last := |s.interviewPlan.value.topics| - 1;
    if s.currentQuestionIndex < last then s.currentQuestionIndex else last
  }

  /** `generate_question` on `s` when the model call yields `g`. */
  function QuestionAsked(s: State, g: Gateway.Generation): (t: State)
    // a question is asked exactly when there is a plan and the model answered; the status is then kept
    ensures HasPlan(s) && g.Generated? ==>
              t == s.(currentQuestion := Text.StripQuotes(g.text), isFollowUp := false, followUpCount := 0)
    // otherwise only the status and the message change
    ensures !(HasPlan(s) && g.Generated?) ==>
              t == s.(status := Error, errorMessage := Some(if HasPlan(s) then QUESTION_FAILED + Gateway.GENERATION_EXCEPTION else NO_PLAN))
  {
    if !HasPlan(s) then s.(status := Error, errorMessage := Some(NO_PLAN))
    else match g
      case Generated(text) => s.(currentQuestion := Text.StripQuotes(text), isFollowUp := false, followUpCount := 0)
      case GenerationFailed => s.(status := Error, errorMessage := Some(QUESTION_FAILED + Gateway.GENERATION_EXCEPTION))
  }

  method GenerateQuestion(st: InterviewState, g: Gateway.Generation)
    modifies st
    ensures st.Value() == QuestionAsked(old(st.Value()), g)
  {
    if !HasPlan(st.Value()) {
      st.status := Error;
      st.errorMessage := Some(NO_PLAN);
    } else {
      match g {
        case Generated(content) =>
          st.currentQuestion := Text.StripQuotes(content);
          st.isFollowUp := false;
          st.followUpCount := 0;
        case GenerationFailed =>
          st.status := Error;
          st.errorMessage := Some(QUESTION_FAILED + Gateway.GENERATION_EXCEPTION);
      }
    }
  }

  // ---------------------------------------------------------------- decide_follow_up

  /** `decide_follow_up`: only `is_follow_up` changes, and it is set only when the model asks for one under the cap. */
  function FollowUpDecided(s: State, reply: Reply<FollowUpDecision>): (t: State)
    ensures t == s.(isFollowUp := t.isFollowUp)
    ensures t.isFollowUp <==> s.followUpCount < MAX_FOLLOW_UPS && reply.Parsed? && reply.value.needsFollowUp
  {
    if s.followUpCount >= MAX_FOLLOW_UPS then s.(isFollowUp := false)
    else match reply
      case Parsed(decision) => s.(isFollowUp := decision.needsFollowUp)
      case _ => s.(isFollowUp := false)
  }

  method DecideFollowUp(st: InterviewState, reply: Reply<FollowUpDecision>)
    modifies st
    ensures st.Value() == FollowUpDecided(old(st.Value()), reply)
  {
    if st.followUpCount >= MAX_FOLLOW_UPS {
      st.isFollowUp := false;
      return;
    }
    match reply {
      case Parsed(decision) => st.isFollowUp := decision.needsFollowUp;
      case _ => st.isFollowUp := false;
    }
  }

  // ---------------------------------------------------------------- generate_follow_up

  /** `generate_follow_up` on `s` when the model call yields `g`. */
  function FollowUpAsked(s: State, g: Gateway.Generation): (t: State)
    ensures g.Generated? ==> t.currentQuestion == Text.StripQuotes(g.text) && t.isFollowUp
                             && t.followUpCount == s.followUpCount + 1
    ensures g.GenerationFailed? ==> t == s.(isFollowUp := false)
    ensures t.(currentQuestion := s.currentQuestion, isFollowUp := s.isFollowUp, followUpCount := s.followUpCount) == s
  {
    match g
    case Generated(text) => s.(currentQuestion := Text.StripQuotes(text), isFollowUp := true, followUpCount := s.followUpCount + 1)
    case GenerationFailed => s.(isFollowUp := false)
  }

  method GenerateFollowUp(st: InterviewState, g: Gateway.Generation)
    modifies st
    ensures st.Value() == FollowUpAsked(old(st.Value()), g)
  {
    match g {
      case Generated(content) =>
        st.currentQuestion := Text.StripQuotes(content);
        st.isFollowUp := true;
        st.followUpCount := st.followUpCount + 1;
      case GenerationFailed =>
        st.isFollowUp := false;
    }
  }

  // ---------------------------------------------------------------- record_answer

  /** Python truthiness of an optional string: present and non-empty. */
  predicate Truthy(o: Option<string>) {
    o.Some? && o.value != ""
  }

  /**
   * The pair `record_answer` appends; `sanitize` is `sanitize_for_prompt`.
   * With a follow-up question the main question is taken from the last pair
   * when there is one.
   */
  function RecordedPair(s: State, answer: string, followUpQuestion: Option<string>, followUpAnswer: Option<string>,
                        sanitize: string -> string): (p: QAPair)
    ensures p.questionNumber == s.currentQuestionIndex + 1
    ensures p.question == if Truthy(followUpQuestion) && s.qaPairs != [] then s.qaPairs[|s.qaPairs| - 1].question
                          else s.currentQuestion
    ensures p.answer == sanitize(answer) && p.followUpQuestion == followUpQuestion
    ensures p.followUpAnswer == if Truthy(followUpAnswer) then Some(sanitize(followUpAnswer.value)) else None
    ensures p.evaluation == None
  {
    QAPair(
      s.currentQuestionIndex + 1,
      if !Truthy(followUpQuestion) then s.currentQuestion
      else if s.qaPairs != [] then s.qaPairs[|s.qaPairs| - 1].question
      else s.currentQuestion,
      sanitize(answer),
      followUpQuestion,
      if Truthy(followUpAnswer) then Some(sanitize(followUpAnswer.value)) else None,
      None)
  }

  /** `record_answer`: exactly one pair is appended and nothing else changes. */
  function Recorded(s: State, answer: string, followUpQuestion: Option<string>, followUpAnswer: Option<string>,
                    sanitize: string -> string): (t: State)
    ensures |t.qaPairs| == |s.qaPairs| + 1 && t.qaPairs[..|s.qaPairs|] == s.qaPairs
    ensures t.qaPairs[|s.qaPairs|] == RecordedPair(s, answer, followUpQuestion, followUpAnswer, sanitize)
    ensures t.(qaPairs := s.qaPairs) == s
  {
    s.(qaPairs := s.qaPairs + [RecordedPair(s, answer, followUpQuestion, followUpAnswer, sanitize)])
  }

  method RecordAnswer(st: InterviewState, answer: string, followUpQuestion: Option<string>,
                      followUpAnswer: Option<string>, sanitize: string -> string)
    modifies st
    ensures st.Value() == Recorded(old(st.Value()), answer, followUpQuestion, followUpAnswer, sanitize)
  {
    var safeAnswer := sanitize(answer);
    var safeFollowUpAnswer: Option<string> := None;
    if followUpAnswer.Some? && followUpAnswer.value != "" {
      safeFollowUpAnswer := Some(sanitize(followUpAnswer.value));
    }
    var question := st.currentQuestion;
    if Truthy(followUpQuestion) && st.qaPairs != [] {
      question := st.qaPairs[|st.qaPairs| - 1].question;
    }
    var pair := QAPair(st.currentQuestionIndex + 1, question, safeAnswer, followUpQuestion, safeFollowUpAnswer, None);
    st.qaPairs := st.qaPairs + [pair];
  }

  // ---------------------------------------------------------------- has_more_questions / advance_question

  predicate HasMoreQuestions(s: State) {
    s.currentQuestionIndex < MAX_QUESTIONS
  }

  /** `advance_question`: the index moves on by one and the follow-up fields are reset. */
  function Advanced(s: State): (t: State)
    ensures t.currentQuestionIndex == s.currentQuestionIndex + 1
    ensures !t.isFollowUp && t.followUpCount == 0
    ensures t.(currentQuestionIndex := s.currentQuestionIndex, isFollowUp := s.isFollowUp, followUpCount := s.followUpCount) == s
  {
    s.(currentQuestionIndex := s.currentQuestionIndex + 1, isFollowUp := false, followUpCount := 0)
  }

  method AdvanceQuestion(st: InterviewState)
    modifies st
    ensures st.Value() == Advanced(old(st.Value()))
  {
    st.currentQuestionIndex := st.currentQuestionIndex + 1;
    st.isFollowUp := false;
    st.followUpCount := 0;
  }

  // ---------------------------------------------------------------- properties across agents

  /** A follow-up is asked at most `MAX_FOLLOW_UPS` times per main question. */
  lemma FollowUpCap(s: State, reply: Reply<FollowUpDecision>, g: Gateway.Generation)
    requires s.followUpCount <= MAX_FOLLOW_UPS
    ensures var d := FollowUpDecided(s, reply);
      (d.isFollowUp ==> FollowUpAsked(d, g).followUpCount <= MAX_FOLLOW_UPS)
      && (!d.isFollowUp ==> d.followUpCount == s.followUpCount)
  {
  }

  /** Asking the next main question starts its follow-up count afresh. */
  lemma NextQuestionResetsFollowUps(s: State, g: Gateway.Generation)
    requires HasPlan(s) && g.Generated?
    ensures var t := QuestionAsked(Advanced(s), g);
      t.currentQuestionIndex == s.currentQuestionIndex + 1 && t.followUpCount == 0 && !t.isFollowUp
      && t.status == s.status && t.qaPairs == s.qaPairs
  {
  }
}
