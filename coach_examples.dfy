/** Worked cases of the coach's score arithmetic. */
module CoachExamples {
  import opened Wrappers
  import opened Schemas
  import opened Coach

  /** Scores 8, 7, 9 and 6 average 7.5, so a reported 9.0 is corrected to 7.5. */
  lemma CorrectedExample(report: FinalReport)
    requires report.overallScore == 90
    ensures Corrected(report, [8, 7, 9, 6]).overallScore == 75
    ensures Corrected(report, [8, 7, 9, 6]).overallGrade == report.overallGrade
  {
    assert SumScores([8, 7, 9, 6]) == 30;
    MeanExact(30, 4, 75);
  }

  /** A reported score within one point of the mean is kept. */
  lemma KeptExample(report: FinalReport)
    requires report.overallScore == 80
    ensures Corrected(report, [8, 7, 9, 6]) == report
  {
    assert SumScores([8, 7, 9, 6]) == 30;
    MeanExact(30, 4, 75);
  }

  /**
   * Scores 8, 8, 8, 8 and 7 average 7.8; a reported 8.8 is exactly one point
   * away, yet 8.8 - 7.8 exceeds 1.0 in doubles, so it is corrected to 7.8.
   */
  lemma OnePointCorrectedExample(report: FinalReport)
    requires report.overallScore == 88
    ensures Corrected(report, [8, 8, 8, 8, 7]).overallScore == 78
  {
    assert SumScores([8, 8, 8, 8, 7]) == 39;
    MeanExact(39, 5, 78);
  }

  /** Scores 8, 7, 9 and 6 average 7.5; a reported 8.5 is one point away and 8.5 - 7.5 is exactly 1.0, so it is kept. */
  lemma OnePointKeptExample(report: FinalReport)
    requires report.overallScore == 85
    ensures Corrected(report, [8, 7, 9, 6]) == report
  {
    assert SumScores([8, 7, 9, 6]) == 30;
    MeanExact(30, 4, 75);
  }

  /** An exact half rounds to the even tenth: 7.25 gives 7.2 and 7.75 gives 7.8. */
  lemma HalfEvenExample()
    ensures ScoreMean([7, 7, 7, 8]) == 72
    ensures ScoreMean([7, 8, 8, 8]) == 78
  {
    assert SumScores([7, 7, 7, 8]) == 29;
    assert SumScores([7, 8, 8, 8]) == 31;
  }

  /** Two turns scored 4 and 6 give a default report of 5.0, "Good", not ready. */
  lemma DefaultExample(a: QAPair, b: QAPair)
    requires a.evaluation.Some? && a.evaluation.value.score == 4
    requires b.evaluation.Some? && b.evaluation.value.score == 6
    ensures DefaultReport([a, b]).overallScore == 50
    ensures DefaultReport([a, b]).overallGrade == Good
    ensures !DefaultReport([a, b]).readyForRole
  {
    assert [a, b][1..] == [b];
    assert EvaluatedScores([a, b]) == [4, 6];
    assert SumScores([4, 6]) == 10;
    MeanExact(10, 2, 50);
  }

  /** With no evaluated turn the default report scores 5.0. */
  lemma NoEvaluationExample(a: QAPair)
    requires a.evaluation.None?
    ensures DefaultReport([a]).overallScore == 50 && DefaultReport([a]).overallGrade == Good
  {
  }
}
