/**
 * The coach agent: turns the evaluated transcript into the final report and
 * completes the interview. A report whose overall score strays more than one
 * point from the mean of the per-question scores has that score replaced, and
 * a report that cannot be obtained is replaced by one computed from the scores.
 * Scores and means are kept in tenths of a point.
 */
module Coach {
  import opened Wrappers
  import opened Schemas
  import opened Replies
  import opened Record

  const NO_DATA: string := "No interview data available for coaching"
  /** The largest gap, in tenths, tolerated between the reported score and the mean. */
  const MAX_DEVIATION: nat := 10
  /** The score, in tenths, of a default report with no evaluated turn. */
  const NEUTRAL_SCORE: Tenths := 50
  /** The lowest score, in tenths, at which the default report calls the candidate ready. */
  const READY_SCORE: nat := 60

  const DEFAULT_SUMMARY: string :=
    "Coaching report could not be fully generated. Scores are based on individual evaluations."
  const DEFAULT_REVIEW: string := "Review individual question evaluations for details"
  const DEFAULT_ACTION: string := "Review each question and answer manually for improvement areas"
  const DEFAULT_READY_EXPLANATION: string := "Assessment based on average score from individual evaluations."

  // ---------------------------------------------------------------- score arithmetic

  /** The scores of the evaluated turns, in transcript order. */
  function EvaluatedScores(pairs: seq<QAPair>): (r: seq<Score>)
    ensures |r| <= |pairs|
    ensures r == [] <==> forall i :: 0 <= i < |pairs| ==> pairs[i].evaluation.None?
  {
    if pairs == [] then []
    else
      var rest := EvaluatedScores(pairs[1..]);
      assert forall i :: 1 <= i < |pairs| ==> pairs[i] == pairs[1..][i - 1];
      match pairs[0].evaluation
      case Some(e) => [e.score] + rest
      case None => rest
  }

  /** `sum(scores)`: at least one and at most ten points per score. */
  function SumScores(xs: seq<Score>): (t: int)
    ensures |xs| <= t <= 10 * |xs|
  {
    if xs == [] then 0 else xs[0] + SumScores(xs[1..])
  }

  /**
   * `round(total / n, 1)` in tenths: the integer nearest to `10 * total / n`,
   * an exact half going to the even neighbour as Python's `round` does.
   */
  function MeanTenths(total: int, n: nat): (m: Tenths)
    requires 1 <= n && n <= total <= 10 * n
    ensures 2 * (10 * total - m * n) <= n && 2 * (m * n - 10 * total) <= n
    ensures 2 * (10 * total - m * n) == n || 2 * (m * n - 10 * total) == n ==> m % 2 == 0
  {
    var q := (10 * total) / n;
    var r := (10 * total) % n;
    assert 10 * total == q * n + r;
    QuotientBounds(total, n, q, r);
    if 2 * r < n || (2 * r == n && q % 2 == 0) then q else q + 1
  }

  /** The integer part of `10 * total / n` lies in 10..100, and is 100 only when nothing remains. */
  lemma QuotientBounds(total: int, n: nat, q: int, r: int)
    requires 1 <= n && n <= total <= 10 * n
    requires 10 * total == q * n + r && 0 <= r < n
    ensures 10 <= q <= 100 && (q == 100 ==> r == 0)
  {
    if q == 100 {
      assert 10 * total == 100 * n + r;
    }
  }

  /** The mean of the evaluated scores, when some turn is evaluated. */
  function ScoreMean(scores: seq<Score>): (m: Tenths)
    requires scores != []
    // the nearest tenth to the average, an exact tie going to the even tenth
    ensures 2 * (10 * SumScores(scores) - m * |scores|) <= |scores|
    ensures 2 * (m * |scores| - 10 * SumScores(scores)) <= |scores|
    ensures 2 * (10 * SumScores(scores) - m * |scores|) == |scores| || 2 * (m * |scores| - 10 * SumScores(scores)) == |scores|
            ==> m % 2 == 0
  {
    MeanTenths(SumScores(scores), |scores|)
  }

  // ---------------------------------------------------------------- generate_coaching_report

  function Distance(a: int, b: int): nat {
    if a < b then b - a else a - b
  }

  /**
   * The lower ends, in tenths between 1.0 and 10.0, of the pairs exactly one
   * point apart whose difference as binary doubles comes out above 1.0: 1.2
   * and 2.2, 1.7 and 2.7, 3.4 and 4.4, 3.9 and 4.9, 7.3 and 8.3, 7.8 and 8.8.
   */
  const OVER_ONE_POINT: set<int> := {12, 17, 34, 39, 73, 78}

  /**
   * `abs(reported - mean) > 1.0` on the doubles nearest the two tenths: a gap
   * above one point, or a gap of exactly one point that rounds above 1.0.
   */
  predicate Deviates(reported: int, mean: int)
    ensures Distance(reported, mean) > MAX_DEVIATION ==> Deviates(reported, mean)
    ensures Distance(reported, mean) < MAX_DEVIATION ==> !Deviates(reported, mean)
    ensures Deviates(reported, mean) && Distance(reported, mean) == MAX_DEVIATION ==>
              (if reported < mean then reported else mean) in OVER_ONE_POINT
  {
    || Distance(reported, mean) > MAX_DEVIATION
    || (Distance(reported, mean) == MAX_DEVIATION && (if reported < mean then reported else mean) in OVER_ONE_POINT)
  }

  /** The score check: a reported score more than one point from the mean is replaced by the mean. */
  function Corrected(report: FinalReport, scores: seq<Score>): (r: FinalReport)
    ensures r == report.(overallScore := r.overallScore)
    ensures scores == [] ==> r == report
    ensures scores != [] ==> (r == report <==> !Deviates(report.overallScore, ScoreMean(scores)))
    ensures scores != [] && Deviates(report.overallScore, ScoreMean(scores)) ==> r.overallScore == ScoreMean(scores)
    ensures scores != [] ==> Distance(r.overallScore, ScoreMean(scores)) <= MAX_DEVIATION
    ensures scores != [] && Distance(report.overallScore, ScoreMean(scores)) < MAX_DEVIATION ==> r == report
  {
    if scores != [] && Deviates(report.overallScore, ScoreMean(scores))
    then report.(overallScore := ScoreMean(scores))
    else report
  }

  /** `generate_coaching_report` on `s` when the model call yields `reply`. */
  function Coached(s: State, reply: Reply<FinalReport>): (t: State)
    ensures s.qaPairs == [] ==> t == s.(status := Error, errorMessage := Some(NO_DATA))
    // with a transcript the interview always completes with a report
    ensures s.qaPairs != [] ==> t.status == Completed && t.errorMessage == s.errorMessage
    ensures s.qaPairs != [] && reply.Parsed? ==>
              t.finalReport == Some(Corrected(reply.value, EvaluatedScores(s.qaPairs)))
    ensures s.qaPairs != [] && !reply.Parsed? ==> t.finalReport == Some(DefaultReport(s.qaPairs))
    ensures t.(status := s.status, finalReport := s.finalReport, errorMessage := s.errorMessage) == s
  {
    var entered := s.(status := Coaching);
    if s.qaPairs == [] then entered.(status := Error, errorMessage := Some(NO_DATA))
    else match reply
      case Parsed(report) =>
        entered.(finalReport := Some(Corrected(report, EvaluatedScores(s.qaPairs))), status := Completed)
      case _ => DefaultReported(entered)
  }

  method GenerateCoachingReport(st: InterviewState, reply: Reply<FinalReport>)
    modifies st
    ensures st.Value() == Coached(old(st.Value()), reply)
  {
    st.status := Coaching;
    if st.qaPairs == [] {
      st.status := Error;
      st.errorMessage := Some(NO_DATA);
    } else {
      match reply {
        case Parsed(report) =>
          var finalReport := report;
          var scores := EvaluatedScores(st.qaPairs);
          if scores != [] {
            var actual := MeanTenths(SumScores(scores), |scores|);
            if Deviates(finalReport.overallScore, actual) {
              finalReport := finalReport.(overallScore := actual);
            }
          }
          st.finalReport := Some(finalReport);
          st.status := Completed;
        case _ =>
          AssignDefaultReport(st);
      }
    }
  }

  // ---------------------------------------------------------------- _assign_default_report

  /** The grade band of a score in tenths. */
  function GradeFor(score: int): (g: OverallGrade)
    ensures score >= 90 <==> g == Excellent
    ensures 70 <= score < 90 <==> g == VeryGood
    ensures 50 <= score < 70 <==> g == Good
    ensures 30 <= score < 50 <==> g == BelowAverage
    ensures score < 30 <==> g == Poor
  {
    if score >= 90 then Excellent
    else if score >= 70 then VeryGood
    else if score >= 50 then Good
    else if score >= 30 then BelowAverage
    else Poor
  }

  /** Grades from worst (0) to best (4). */
  function GradeRank(g: OverallGrade): nat {
    match g
    case Poor => 0
    case BelowAverage => 1
    case Good => 2
    case VeryGood => 3
    case Excellent => 4
  }

  /** The report `_assign_default_report` builds from the transcript alone. */
  function DefaultReport(pairs: seq<QAPair>): (r: FinalReport)
    ensures var scores := EvaluatedScores(pairs);
      r.overallScore == if scores == [] then NEUTRAL_SCORE else ScoreMean(scores)
    ensures r.overallGrade == GradeFor(r.overallScore)
    ensures r.readyForRole <==> r.overallScore >= READY_SCORE
    ensures r.perQuestionFeedback == []
    ensures r.summary == DEFAULT_SUMMARY && r.readyExplanation == DEFAULT_READY_EXPLANATION
    ensures r.topStrengths == [DEFAULT_REVIEW] && r.areasToImprove == [DEFAULT_REVIEW]
    ensures r.actionItems == [DEFAULT_ACTION]
  {
    var scores := EvaluatedScores(pairs);
    var average := if scores == [] then NEUTRAL_SCORE else ScoreMean(scores);
    FinalReport(average, GradeFor(average), DEFAULT_SUMMARY, [], [DEFAULT_REVIEW], [DEFAULT_REVIEW],
                [DEFAULT_ACTION], average >= READY_SCORE, DEFAULT_READY_EXPLANATION)
  }

  /** `_assign_default_report`: the default report is stored and the interview completes. */
  function DefaultReported(s: State): (t: State)
    ensures t == s.(finalReport := Some(DefaultReport(s.qaPairs)), status := Completed)
  {
    s.(finalReport := Some(DefaultReport(s.qaPairs)), status := Completed)
  }

  method AssignDefaultReport(st: InterviewState)
    modifies st
    ensures st.Value() == DefaultReported(old(st.Value()))
  {
    var scores := EvaluatedScores(st.qaPairs);
    var average: Tenths := NEUTRAL_SCORE;
    if scores != [] {
      average := MeanTenths(SumScores(scores), |scores|);
    }
    var grade: OverallGrade;
    if average >= 90 {
      grade := Excellent;
    } else if average >= 70 {
      grade := VeryGood;
    } else if average >= 50 {
      grade := Good;
    } else if average >= 30 {
      grade := BelowAverage;
    } else {
      grade := Poor;
    }
    st.finalReport := Some(FinalReport(average, grade, DEFAULT_SUMMARY, [], [DEFAULT_REVIEW], [DEFAULT_REVIEW],
                                       [DEFAULT_ACTION], average >= READY_SCORE, DEFAULT_READY_EXPLANATION));
    st.status := Completed;
  }

  // ---------------------------------------------------------------- properties

  /** A higher score never earns a lower grade. */
  lemma GradeMonotone(a: int, b: int)
    requires a <= b
    ensures GradeRank(GradeFor(a)) <= GradeRank(GradeFor(b))
  {
  }

  /** A default report that calls the candidate ready grades them at least "Good". */
  lemma DefaultReadyIsGood(pairs: seq<QAPair>)
    ensures DefaultReport(pairs).readyForRole ==> GradeRank(DefaultReport(pairs).overallGrade) >= GradeRank(Good)
    ensures GradeRank(DefaultReport(pairs).overallGrade) >= GradeRank(VeryGood) ==> DefaultReport(pairs).readyForRole
  {
  }

  /** A mean that is a whole number of tenths is reported exactly. */
  lemma MeanExact(total: int, n: nat, k: int)
    requires 1 <= n && n <= total <= 10 * n
    requires 10 * total == k * n
    ensures MeanTenths(total, n) == k
  {
    NearestMultiple(total, n, k, MeanTenths(total, n));
  }

  /** `k * n` is the only multiple of `n` within half of `n` of itself. */
  lemma NearestMultiple(total: int, n: nat, k: int, m: int)
    requires 1 <= n && 10 * total == k * n
    requires 2 * (10 * total - m * n) <= n && 2 * (m * n - 10 * total) <= n
    ensures m == k
  {
    var d := k - m;
    SubMul(k, m, n);
    if d >= 1 {
      AtLeastOnce(d, n);
    } else if d <= -1 {
      AtLeastOnce(-d, n);
      SubMul(m, k, n);
    }
  }

  lemma SubMul(a: int, b: int, n: int)
    ensures a * n - b * n == (a - b) * n
  {
  }

  lemma AtLeastOnce(d: int, n: nat)
    requires d >= 1
    ensures d * n >= n
  {
  }

  /** When every evaluated score is `v`, the mean is exactly `v` points. */
  lemma MeanOfEqualScores(scores: seq<Score>, v: Score)
    requires scores != [] && forall i :: 0 <= i < |scores| ==> scores[i] == v
    ensures ScoreMean(scores) == 10 * v
  {
    SumOfEqualScores(scores, v);
    assert 10 * SumScores(scores) == (10 * v) * |scores|;
    MeanExact(SumScores(scores), |scores|, 10 * v);
  }

  lemma {:induction false} SumOfEqualScores(scores: seq<Score>, v: Score)
    requires forall i :: 0 <= i < |scores| ==> scores[i] == v
    ensures SumScores(scores) == v * |scores|
  {
    if scores != [] {
      SumOfEqualScores(scores[1..], v);
    }
  }
}
