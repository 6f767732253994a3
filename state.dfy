/**
 * The `InterviewState` record as the agents see it: one object whose fields
 * they assign in place. `Value()` reads it back as a `Schemas.State`.
 */
module Record {
  import opened Wrappers
  import opened Schemas

  class InterviewState {
    var resumeText: string
    var jobDescription: string
    var interviewType: InterviewType
    var difficulty: Difficulty
    var language: Language
    var candidateProfile: Option<CandidateProfile>
    var interviewPlan: Option<InterviewPlan>
    var currentQuestionIndex: nat
    var currentQuestion: string
    var isFollowUp: bool
    var followUpCount: nat
    var qaPairs: seq<QAPair>
    var finalReport: Option<FinalReport>
    var status: Status
    var errorMessage: Option<string>

    function Value(): State
      reads this
    {
      State(resumeText, jobDescription, interviewType, difficulty, language, candidateProfile,
            interviewPlan, currentQuestionIndex, currentQuestion, isFollowUp, followUpCount,
            qaPairs, finalReport, status, errorMessage)
    }

    /** A record holding the given field values (`model_validate` of a dump). */
    constructor (s: State)
      ensures Value() == s
    {
      resumeText, jobDescription, interviewType, difficulty, language := s.resumeText, s.jobDescription, s.interviewType, s.difficulty, s.language;
      candidateProfile, interviewPlan := s.candidateProfile, s.interviewPlan;
      currentQuestionIndex, currentQuestion := s.currentQuestionIndex, s.currentQuestion;
      isFollowUp, followUpCount := s.isFollowUp, s.followUpCount;
      qaPairs, finalReport, status, errorMessage := s.qaPairs, s.finalReport, s.status, s.errorMessage;
    }
  }
}
