/**
 * The resume-analyzer agent: enters "analyzing", and either stores the
 * candidate profile with a cleaned-up name or records why analysis failed.
 */
module ResumeAnalyzer {
  import opened Wrappers
  import opened Schemas
  import opened Replies
  import opened Record
  import Text
  import Gateway

  const MAX_NAME_LENGTH: nat := 100
  const ANALYSIS_FAILED: string := "Resume analysis failed: "
  const PARSE_FAILURE: string := "Could not parse response"

  /** The candidate name as stored: whitespace-stripped, then cut to 100 characters. */
  function CleanName(name: string): (r: string)
    ensures |r| <= MAX_NAME_LENGTH
    ensures Text.IsPrefix(r, Text.Strip(name))
    ensures |Text.Strip(name)| <= MAX_NAME_LENGTH ==> r == Text.Strip(name)
    ensures |Text.Strip(name)| > MAX_NAME_LENGTH ==> r == Text.Strip(name)[..MAX_NAME_LENGTH]
    ensures r == [] || !Text.IsSpace(r[0])
  {
    Text.StripShape(name);
    var stripped := Text.Strip(name);
    if |stripped| > MAX_NAME_LENGTH then stripped[..MAX_NAME_LENGTH] else stripped
  }

  /** The message stored when analysis fails: a `ValueError` is reported as unparsable. */
  function FailureMessage(reply: Reply<CandidateProfile>): (m: string)
    requires !reply.Parsed?
    ensures Text.IsPrefix(ANALYSIS_FAILED, m)
    ensures reply.Invalid? ==> m[|ANALYSIS_FAILED|..] == PARSE_FAILURE
    ensures reply.Raised? ==> m[|ANALYSIS_FAILED|..] == reply.exceptionName
  {
    if reply.Invalid? then ANALYSIS_FAILED + PARSE_FAILURE else ANALYSIS_FAILED + reply.exceptionName
  }

  /** `analyze_resume` on the state `s` when the model call yields `reply`. */
  function Analyzed(s: State, reply: Reply<CandidateProfile>): (t: State)
    ensures t.status == (if reply.Parsed? then Analyzing else Error)
    ensures reply.Parsed? ==> t.errorMessage == s.errorMessage
                              && t.candidateProfile == Some(reply.value.(candidateName := CleanName(reply.value.candidateName)))
    ensures !reply.Parsed? ==> t.candidateProfile == s.candidateProfile && t.errorMessage == Some(FailureMessage(reply))
    // nothing but the status, the profile and the error message changes
    ensures t.(status := s.status, candidateProfile := s.candidateProfile, errorMessage := s.errorMessage) == s
  {
    var entered := s.(status := Analyzing);
    match reply
    case Parsed(profile) => entered.(candidateProfile := Some(profile.(candidateName := CleanName(profile.candidateName))))
    case _ => entered.(status := Error, errorMessage := Some(FailureMessage(reply)))
  }

  method AnalyzeResume(st: InterviewState, reply: Reply<CandidateProfile>)
    modifies st
    ensures st.Value() == Analyzed(old(st.Value()), reply)
  {
    st.status := Analyzing;
    match reply {
      case Parsed(candidate) =>
        var profile := candidate.(candidateName := Text.Strip(candidate.candidateName));
        if |profile.candidateName| > MAX_NAME_LENGTH {
          profile := profile.(candidateName := profile.candidateName[..MAX_NAME_LENGTH]);
        }
        st.candidateProfile := Some(profile);
      case Invalid =>
        st.status := Error;
        st.errorMessage := Some(ANALYSIS_FAILED + PARSE_FAILURE);
      case Raised(name) =>
        st.status := Error;
        st.errorMessage := Some(ANALYSIS_FAILED + name);
    }
  }

  /** A failed generation reaches the state as "Resume analysis failed: RuntimeError". */
  lemma GenerationFailureMessage<J>(s: State, parse: string -> Option<J>, decode: J -> Reply<CandidateProfile>)
    ensures Analyzed(s, Receive(Gateway.GenerationFailed, parse, decode)).errorMessage
            == Some("Resume analysis failed: RuntimeError")
  {
    assert Receive(Gateway.GenerationFailed, parse, decode) == Raised("RuntimeError");
    assert ANALYSIS_FAILED + "RuntimeError" == "Resume analysis failed: RuntimeError";
  }
}
