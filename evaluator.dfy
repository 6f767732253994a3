/**
 * The evaluator agent: scores the most recent turn. A reply that cannot be
 * obtained, parsed or validated never stops the interview: the turn then gets
 * a fixed middle-of-the-range evaluation instead.
 */
module Evaluator {
  import opened Wrappers
  import opened Schemas
  import opened Replies
  import opened Record

  const NO_PAIRS: string := "No Q&A pairs available for evaluation"

  /** The evaluation `_assign_default_evaluation` gives a turn. */
  const DEFAULT_EVALUATION: QuestionEvaluation := QuestionEvaluation(
    5,
    ["Evaluation could not be completed automatically"],
    ["Please review this answer manually"],
    "Default evaluation assigned due to processing error")

  /** `pairs` with the evaluation of its last pair set to `e`. */
  function WithLastEvaluation(pairs: seq<QAPair>, e: QuestionEvaluation): (r: seq<QAPair>)
    requires pairs != []
    ensures |r| == |pairs|
    ensures r[..|pairs| - 1] == pairs[..|pairs| - 1]
    ensures r[|pairs| - 1].evaluation == Some(e)
    ensures r[|pairs| - 1].(evaluation := pairs[|pairs| - 1].evaluation) == pairs[|pairs| - 1]
  {
    pairs[|pairs| - 1 := pairs[|pairs| - 1].(evaluation := Some(e))]
  }

  /** `_assign_default_evaluation`: the last pair gets the default; with no pairs nothing changes. */
  function DefaultEvaluated(s: State): (t: State)
    ensures s.qaPairs == [] ==> t == s
    ensures s.qaPairs != [] ==> t == s.(qaPairs := WithLastEvaluation(s.qaPairs, DEFAULT_EVALUATION))
  {
    if s.qaPairs == [] then s else s.(qaPairs := WithLastEvaluation(s.qaPairs, DEFAULT_EVALUATION))
  }

  method AssignDefaultEvaluation(st: InterviewState)
    modifies st
    ensures st.Value() == DefaultEvaluated(old(st.Value()))
  {
    if st.qaPairs != [] {
      var last := |st.qaPairs| - 1;
      st.qaPairs := st.qaPairs[last := st.qaPairs[last].(evaluation := Some(DEFAULT_EVALUATION))];
    }
  }

  /**
   * `evaluate_answer` on `s` when the model call yields `reply`; a reply whose
   * score is out of range arrives as `Invalid`, like any other rejected reply.
   */
  function Evaluated(s: State, reply: Reply<QuestionEvaluation>): (t: State)
    // with no turn to evaluate the run stops with an error
    ensures s.qaPairs == [] ==> t == s.(status := Error, errorMessage := Some(NO_PAIRS))
    // otherwise the status is "evaluating" whatever the reply, and only the last pair is touched
    ensures s.qaPairs != [] ==> t.status == Evaluating && t.errorMessage == s.errorMessage
    ensures s.qaPairs != [] && reply.Parsed? ==> t.qaPairs == WithLastEvaluation(s.qaPairs, reply.value)
    ensures s.qaPairs != [] && !reply.Parsed? ==> t.qaPairs == WithLastEvaluation(s.qaPairs, DEFAULT_EVALUATION)
    ensures t.(status := s.status, qaPairs := s.qaPairs, errorMessage := s.errorMessage) == s
  {
    var entered := s.(status := Evaluating);
    if s.qaPairs == [] then entered.(status := Error, errorMessage := Some(NO_PAIRS))
    else match reply
      case Parsed(evaluation) => entered.(qaPairs := WithLastEvaluation(s.qaPairs, evaluation))
      case _ => DefaultEvaluated(entered)
  }

  method EvaluateAnswer(st: InterviewState, reply: Reply<QuestionEvaluation>)
    modifies st
    ensures st.Value() == Evaluated(old(st.Value()), reply)
  {
    st.status := Evaluating;
    if st.qaPairs == [] {
      st.status := Error;
      st.errorMessage := Some(NO_PAIRS);
    } else {
      match reply {
        case Parsed(evaluation) =>
          var last := |st.qaPairs| - 1;
          st.qaPairs := st.qaPairs[last := st.qaPairs[last].(evaluation := Some(evaluation))];
        case _ =>
          AssignDefaultEvaluation(st);
      }
    }
  }

  /** After evaluating a non-empty list, the last turn carries an evaluation and the status is not an error. */
  lemma LastPairEvaluated(s: State, reply: Reply<QuestionEvaluation>)
    requires s.qaPairs != []
    ensures var t := Evaluated(s, reply);
      && |t.qaPairs| == |s.qaPairs|
      && t.qaPairs[|t.qaPairs| - 1].evaluation.Some?
      && 1 <= t.qaPairs[|t.qaPairs| - 1].evaluation.value.score <= 10
      && t.status != Error
      && (!reply.Parsed? ==> t.qaPairs[|t.qaPairs| - 1].evaluation.value.score == 5)
  {
  }

  /** Evaluating never rewrites the turns recorded before the last one. */
  lemma EarlierPairsKept(s: State, reply: Reply<QuestionEvaluation>, i: nat)
    requires i + 1 < |s.qaPairs|
    ensures Evaluated(s, reply).qaPairs[i] == s.qaPairs[i]
  {
    var t := Evaluated(s, reply);
    assert t.qaPairs[..|s.qaPairs| - 1][i] == t.qaPairs[i];
    assert s.qaPairs[..|s.qaPairs| - 1][i] == s.qaPairs[i];
  }
}
