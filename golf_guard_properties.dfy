/**
 * Properties of the GolfGuard model that relate several of its functions:
 * the variance band against an independent tier table, the flag table's
 * monotonicity, the bounds and ordering of the probability range, and the
 * agreement of the round evaluation with the component functions.
 */
module GolfGuardProperties {
  import opened GolfGuard

  // ---------------------------------------------------------------------------
  // Variance band as a table of eight tiers five index points wide
  // ---------------------------------------------------------------------------

  const TierWidth: real := 5.0
  const TopTier: nat := 7

  /** The bands of tiers 0 to 7; tier k (k < 7) covers indexes up to 5k inclusive. */
  const BandTable: seq<Band> := [
    Band(1.8, 2.2), Band(2.0, 2.5), Band(2.5, 3.0), Band(3.0, 3.5),
    Band(3.5, 4.0), Band(4.0, 4.5), Band(4.5, 5.0), Band(5.0, 5.5)]

  /** The first tier at or after `from` whose inclusive upper bound covers the index; the top tier has none. */
  function TierFrom(handicapIndex: real, from: nat): (k: nat)
    requires from <= TopTier
    ensures from <= k <= TopTier
    ensures k < TopTier ==> handicapIndex <= TierWidth * k as real
    ensures k > from ==> handicapIndex > TierWidth * (k - 1) as real
    decreases TopTier - from
  {
    if from == TopTier || handicapIndex <= TierWidth * from as real then from
    else TierFrom(handicapIndex, from + 1)
  }

  function Tier(handicapIndex: real): (k: nat)
    ensures k <= TopTier
    ensures k < TopTier ==> handicapIndex <= TierWidth * k as real
    ensures k > 0 ==> handicapIndex > TierWidth * (k - 1) as real
  {
    TierFrom(handicapIndex, 0)
  }

  /** The if/elif chain is exactly the lookup of the index's tier in the table. */
  lemma StdDevRangeIsTierLookup(handicapIndex: real)
    ensures StdDevRange(handicapIndex) == BandTable[Tier(handicapIndex)]
  {
  }

  /** Each boundary 0, 5, ..., 30 takes the tier it closes, not the next one. */
  lemma BoundaryTakesLowerTier(k: nat)
    requires k < TopTier
    ensures StdDevRange(TierWidth * k as real) == BandTable[k]
  {
  }

  /** Every index above 30 takes the top tier's band. */
  lemma AboveLastBoundaryTakesTopTier(handicapIndex: real)
    requires handicapIndex > TierWidth * (TopTier - 1) as real
    ensures StdDevRange(handicapIndex) == BandTable[TopTier]
  {
  }

  /** Both ends of the band are non-decreasing in the handicap index. */
  lemma BandMonotone(h1: real, h2: real)
    requires h1 <= h2
    ensures StdDevRange(h1).low <= StdDevRange(h2).low
    ensures StdDevRange(h1).high <= StdDevRange(h2).high
  {
  }

  // ---------------------------------------------------------------------------
  // Flag table
  // ---------------------------------------------------------------------------

  /**
   * A round that looks at least as suspicious (differential no higher,
   * z-score no lower, and better than expected whenever the other is) never
   * receives a milder flag.
   */
  lemma FlagSeverityMonotone(d1: real, z1: real, sb1: real, d2: real, z2: real, sb2: real)
    requires d2 <= d1 && z2 >= z1
    requires sb1 > 0.0 ==> sb2 > 0.0
    ensures FlagStatus(d2, z2, sb2).Severity() >= FlagStatus(d1, z1, sb1).Severity()
  {
  }

  /** The printed label determines the flag: the three labels are distinct. */
  lemma LabelsDistinct(f: Flag, g: Flag)
    ensures f.Label() == g.Label() <==> f == g
  {
  }

  // ---------------------------------------------------------------------------
  // Probability range
  // ---------------------------------------------------------------------------

  ghost predicate IsProbabilityFunction(f: real -> real)
  {
    forall x :: 0.0 <= f(x) <= 1.0
  }

  ghost predicate NonDecreasing(f: real -> real)
  {
    forall x, y :: x <= y ==> f(x) <= f(y)
  }

  ghost predicate NonIncreasing(f: real -> real)
  {
    forall x, y :: x <= y ==> f(y) <= f(x)
  }

  /** With sf and cdf valued in [0, 1], both reported probabilities lie in [1e-10, 1]. */
  lemma ProbabilitiesInUnitInterval(
    handicapIndex: real, courseRating: real, courseSlope: real, score: real,
    sf: real -> real, cdf: real -> real)
    requires IsProbabilityFunction(sf) && IsProbabilityFunction(cdf)
    ensures var p := ProbabilityRange(handicapIndex, courseRating, courseSlope, score, sf, cdf);
      ProbabilityFloor <= p.low <= 1.0 && ProbabilityFloor <= p.high <= 1.0
  {
  }

  /**
   * Each reported probability is the floored tail of its z-score, the
   * survival function for a better-than-expected round and the CDF otherwise.
   */
  lemma ProbabilityBranches(
    handicapIndex: real, courseRating: real, courseSlope: real, score: real,
    sf: real -> real, cdf: real -> real)
    ensures var sb := Expect(handicapIndex, courseRating, courseSlope, score).strokesBetter;
      var zs := TailZScores(handicapIndex, courseRating, courseSlope, score);
      var p := ProbabilityRange(handicapIndex, courseRating, courseSlope, score, sf, cdf);
      && (sb > 0.0 ==> p.low == FloorProbability(sf(zs.0)) && p.high == FloorProbability(sf(zs.1)))
      && (sb <= 0.0 ==> p.low == FloorProbability(cdf(zs.0)) && p.high == FloorProbability(cdf(zs.1)))
  {
  }

  /**
   * For a decreasing sf and an increasing cdf, the "low" probability is never
   * below the "high" one, in either branch: the z-score taken from the high
   * standard deviation is the less extreme of the two.
   */
  lemma LowProbabilityNotBelowHigh(
    handicapIndex: real, courseRating: real, courseSlope: real, score: real,
    sf: real -> real, cdf: real -> real)
    requires NonIncreasing(sf) && NonDecreasing(cdf)
    ensures var p := ProbabilityRange(handicapIndex, courseRating, courseSlope, score, sf, cdf);
      p.low >= p.high
  {
  }

  // ---------------------------------------------------------------------------
  // Round evaluation
  // ---------------------------------------------------------------------------

  /**
   * The evaluated round agrees with the component functions: its differential,
   * expectation and probability range are theirs, its midpoint probability is
   * the mean of the range's two ends, its best and worst z-scores
   * are the probability range's (low_z, high_z) pair, swapped when the round
   * is not better than expected, and its flag comes from the midpoint z-score.
   */
  lemma EvaluationAgreesWithComponents(input: RoundInput, sf: real -> real, cdf: real -> real)
    requires input.courseSlope != 0.0
    ensures var ev := EvaluateRound(input, sf, cdf);
      var (h, r, s, x) := (input.handicapIndex, input.courseRating, input.courseSlope, input.score);
      var e := Expect(h, r, s, x);
      var zs := TailZScores(h, r, s, x);
      && ev.Evaluated?
      && ev.report.differential == ScoreDifferential(x, r, s)
      && ev.report.expectation == e
      && ev.report.probabilities == ProbabilityRange(h, r, s, x, sf, cdf)
      && ev.report.midProbability == (ev.report.probabilities.low + ev.report.probabilities.high) / 2.0
      && (e.strokesBetter > 0.0 ==> ev.report.bestZ == zs.0 && ev.report.worstZ == zs.1)
      && (e.strokesBetter <= 0.0 ==> ev.report.bestZ == zs.1 && ev.report.worstZ == zs.0)
      && ev.report.flag == FlagStatus(ev.report.differential, ZScore(h, r, s, x), e.strokesBetter)
  {
  }

  /**
   * The midpoint probability lies between the two ends of the range, and all
   * three odds "1 in n" are at least 1 when sf and cdf are valued in [0, 1].
   */
  lemma ReportedOddsAtLeastOne(input: RoundInput, sf: real -> real, cdf: real -> real)
    requires input.courseSlope != 0.0
    requires IsProbabilityFunction(sf) && IsProbabilityFunction(cdf)
    ensures var rep := EvaluateRound(input, sf, cdf).report;
      var p := rep.probabilities;
      && (p.high <= rep.midProbability <= p.low || p.low <= rep.midProbability <= p.high)
      && ProbabilityFloor <= rep.midProbability <= 1.0
      && Odds(p.low) >= 1 && Odds(p.high) >= 1 && Odds(rep.midProbability) >= 1
  {
  }

  /**
   * The flag raised on an evaluated round is RED exactly when the round is
   * better than expected and either its differential is at most -1 or its
   * midpoint z-score is at least 2.5.
   */
  lemma RedFlagCondition(input: RoundInput, sf: real -> real, cdf: real -> real)
    requires input.courseSlope != 0.0
    ensures var rep := EvaluateRound(input, sf, cdf).report;
      rep.flag == RedFlag <==>
        && input.score < Expect(input.handicapIndex, input.courseRating, input.courseSlope, input.score).expectedScore
        && (rep.differential <= RedDifferential || rep.midZ >= RedZScore)
  {
  }
}
