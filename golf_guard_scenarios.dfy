/**
 * Concrete rounds from the repository's unit tests, evaluated in the model.
 * Approximate float comparisons of the tests become exact equalities.
 */
module GolfGuardScenarios {
  import opened GolfGuard

  lemma DifferentialCases()
    ensures ScoreDifferential(72.0, 72.0, 113.0) == 0.0
    ensures ScoreDifferential(69.0, 72.0, 113.0) == -3.0
    ensures ScoreDifferential(75.0, 72.0, 113.0) == 3.0
    ensures ScoreDifferential(72.0, 72.0, 130.0) == 0.0
  {
  }

  lemma StdDevRangeCases()
    ensures StdDevRange(0.0) == Band(1.8, 2.2)
    ensures StdDevRange(12.0) == Band(3.0, 3.5)
    ensures StdDevRange(25.0) == Band(4.0, 4.5)
    ensures StdDevRange(35.0) == Band(5.0, 5.5)
  {
  }

  /** Handicap 10 at rating 72 and slope 113 expects 82; 77 is 5 strokes better, 87 is 5 worse. */
  lemma ZScoreCases()
    ensures ZScore(10.0, 72.0, 113.0, 82.0) == 0.0
    ensures ZScore(10.0, 72.0, 113.0, 77.0) == 20.0 / 11.0
    ensures ZScore(10.0, 72.0, 113.0, 87.0) == -20.0 / 11.0
  {
  }

  /**
   * The flag table on the tests' inputs. For (-0.5, 2.5, 3) the table gives
   * RED, since a z-score of exactly 2.5 meets the red threshold.
   */
  lemma FlagCases()
    ensures FlagStatus(0.5, 1.5, -2.0) == NoFlag
    ensures FlagStatus(-1.5, 3.5, 5.0) == RedFlag
    ensures FlagStatus(-0.5, 2.5, 3.0) == RedFlag
    ensures FlagStatus(-0.5, 2.0, 3.0) == Review
    ensures FlagStatus(-1.5, 3.5, -5.0) == NoFlag
  {
  }

  /** A round exactly as expected gets equal probabilities, strictly inside (0, 1) when cdf(0) < 1. */
  lemma ExpectedRoundProbabilities(sf: real -> real, cdf: real -> real)
    requires 0.0 <= cdf(0.0) < 1.0
    ensures var p := ProbabilityRange(10.0, 72.0, 113.0, 82.0, sf, cdf);
      0.0 < p.low == p.high < 1.0
  {
  }

  /** Handicap 10 shooting 77 at rating 72, slope 113: differential 5, z = 20/11 (about 1.82), REVIEW. */
  lemma BetterRoundIsReviewed(sf: real -> real, cdf: real -> real)
    ensures var ev := EvaluateRound(RoundInput(10.0, 72.0, 113.0, 77.0), sf, cdf);
      && ev.Evaluated?
      && ev.report.differential == 5.0
      && ev.report.expectation.expectedScore == 82.0
      && ev.report.expectation.strokesBetter == 5.0
      && ev.report.bestZ == 5.0 / 3.0
      && ev.report.midZ == 20.0 / 11.0
      && ev.report.worstZ == 2.0
      && ev.report.flag == Review
  {
  }
}
