/**
 * GolfGuard: estimates how improbable a golfer's reported score is, given the
 * golfer's handicap index and the course's rating and slope, and flags rounds
 * that look implausibly good.
 *
 * Every operation is a pure function of its inputs. Python floats become exact
 * `real`s. The normal survival function and CDF are supplied by the caller
 * as `sf` and `cdf`.
 */
module GolfGuard {

  /** Slope rating of a course of standard difficulty. */
  const StandardSlope: real := 113.0

  /** Smallest probability ever reported, keeping the odds 1/p finite. */
  const ProbabilityFloor: real := 1.0e-10

  /** Flag thresholds: a differential at or below, or a z-score at or above. */
  const RedDifferential: real := -1.0
  const RedZScore: real := 2.5
  const ReviewDifferential: real := 0.0
  const ReviewZScore: real := 1.5

  /** Range of a golfer's round-to-round standard deviation (low, high). */
  datatype Band = Band(low: real, high: real)

  datatype Flag = NoFlag | Review | RedFlag
  {
    /** How suspicious a round with this flag is, 0 (normal) to 2 (red). */
    function Severity(): nat
    {
      match this
      case NoFlag => 0
      case Review => 1
      case RedFlag => 2
    }

    /** The flag level text of the source's (flag_level, explanation) pair. */
    function Label(): string
    {
      match this
      case NoFlag => "\U{26AA} NO FLAG"
      case Review => "\U{1F7E1} REVIEW"
      case RedFlag => "\U{1F53A} RED FLAG"
    }

    /** The explanation text of the source's (flag_level, explanation) pair. */
    function Explanation(): string
    {
      match this
      case NoFlag => "Normal round relative to handicap"
      case Review =>
        "Possible anomaly - Could be a career-best round or a fluke, especially in tournament play"
      case RedFlag =>
        "Likely sandbagging - Either scratch-level performance or 2.5+ standard deviations better than expected"
    }
  }

  /** Course handicap, expected score and strokes better than expected. */
  datatype Expectation = Expectation(courseHandicap: real, expectedScore: real, strokesBetter: real)

  /** The (low_probability, high_probability) pair of the probability range. */
  datatype Probabilities = Probabilities(low: real, high: real)

  /** One golfer's one round on one course; the golfer's name is display only. */
  datatype RoundInput = RoundInput(handicapIndex: real, courseRating: real, courseSlope: real, score: real)

  /** Why a round cannot be evaluated: a zero slope makes the differential divide by zero. */
  datatype InputError = ZeroSlope

  /** Everything the round evaluation computes before it is printed. */
  datatype RoundReport = RoundReport(
    differential: real,
    expectation: Expectation,
    probabilities: Probabilities,
    midProbability: real,
    bestZ: real,
    midZ: real,
    worstZ: real,
    flag: Flag)

  datatype Evaluation = Rejected(error: InputError) | Evaluated(report: RoundReport)

  // ---------------------------------------------------------------------------
  // Score differential
  // ---------------------------------------------------------------------------

  /** ((score - rating) * 113) / slope. */
  function ScoreDifferential(score: real, courseRating: real, courseSlope: real): (d: real)
    requires courseSlope != 0.0
    ensures d * courseSlope == (score - courseRating) * StandardSlope
    ensures courseSlope > 0.0 ==>
      (d < 0.0 <==> score < courseRating) && (d == 0.0 <==> score == courseRating) && (d > 0.0 <==> score > courseRating)
    ensures courseSlope < 0.0 ==>
      (d < 0.0 <==> score > courseRating) && (d == 0.0 <==> score == courseRating) && (d > 0.0 <==> score < courseRating)
    ensures courseSlope == StandardSlope ==> d == score - courseRating
  {
    ((score - courseRating) * StandardSlope) / courseSlope
  }

  // ---------------------------------------------------------------------------
  // Variance band
  // ---------------------------------------------------------------------------

  /** Step function from handicap index to the standard-deviation band; upper bounds are inclusive. */
  function StdDevRange(handicapIndex: real): (b: Band)
    ensures 0.0 < b.low < b.high
    ensures 1.8 <= b.low && b.high <= 5.5
    ensures b.high - b.low <= 0.5
  {
    if handicapIndex <= 0.0 then Band(1.8, 2.2)
    else if handicapIndex <= 5.0 then Band(2.0, 2.5)
    else if handicapIndex <= 10.0 then Band(2.5, 3.0)
    else if handicapIndex <= 15.0 then Band(3.0, 3.5)
    else if handicapIndex <= 20.0 then Band(3.5, 4.0)
    else if handicapIndex <= 25.0 then Band(4.0, 4.5)
    else if handicapIndex <= 30.0 then Band(4.5, 5.0)
    else Band(5.0, 5.5)
  }

  function Midpoint(b: Band): real
  {
    (b.low + b.high) / 2.0
  }

  /** Dividing by the smaller of two positive divisors moves the quotient further from zero. */
  lemma QuotientOrder(s: real, a: real, b: real)
    requires 0.0 < a < b
    ensures s > 0.0 ==> 0.0 < s / b < s / a
    ensures s < 0.0 ==> s / a < s / b < 0.0
    ensures s == 0.0 ==> s / a == s / b == 0.0
  {
  }

  // ---------------------------------------------------------------------------
  // Expectation and midpoint z-score
  // ---------------------------------------------------------------------------

  /**
   * Course handicap = index * slope / 113, expected score = rating + course
   * handicap, strokes better = expected score - score.
   */
  function Expect(handicapIndex: real, courseRating: real, courseSlope: real, score: real): (e: Expectation)
    ensures e.courseHandicap * StandardSlope == handicapIndex * courseSlope
    ensures courseSlope == StandardSlope ==> e.courseHandicap == handicapIndex
    ensures e.expectedScore - e.courseHandicap == courseRating
    ensures score + e.strokesBetter == courseRating + e.courseHandicap
  {
    var courseHandicap := handicapIndex * (courseSlope / StandardSlope);
    var expectedScore := courseRating + courseHandicap;
    Expectation(courseHandicap, expectedScore, expectedScore - score)
  }

  /** Strokes better than expected, in units of the band's midpoint standard deviation. */
  function ZScore(handicapIndex: real, courseRating: real, courseSlope: real, score: real): (z: real)
    ensures z * Midpoint(StdDevRange(handicapIndex)) == Expect(handicapIndex, courseRating, courseSlope, score).strokesBetter
    ensures var sb := Expect(handicapIndex, courseRating, courseSlope, score).strokesBetter;
      (z > 0.0 <==> sb > 0.0) && (z == 0.0 <==> sb == 0.0) && (z < 0.0 <==> sb < 0.0)
    ensures z == 0.0 <==> score == Expect(handicapIndex, courseRating, courseSlope, score).expectedScore
  {
    var e := Expect(handicapIndex, courseRating, courseSlope, score);
    var b := StdDevRange(handicapIndex);
    var stdDev := (b.low + b.high) / 2.0;
    e.strokesBetter / stdDev
  }

  // ---------------------------------------------------------------------------
  // Flag table
  // ---------------------------------------------------------------------------

  /**
   * First match wins: red, then review, else no flag; only a round better
   * than expected is ever flagged.
   */
  function FlagStatus(differential: real, z: real, strokesBetter: real): (f: Flag)
    ensures strokesBetter <= 0.0 ==> f == NoFlag
    ensures f == RedFlag <==> strokesBetter > 0.0 && (differential <= RedDifferential || z >= RedZScore)
    ensures f == Review <==>
      strokesBetter > 0.0 && differential > RedDifferential && z < RedZScore
      && (differential <= ReviewDifferential || z >= ReviewZScore)
  {
    if strokesBetter > 0.0 then
      if differential <= RedDifferential || z >= RedZScore then RedFlag
      else if differential <= ReviewDifferential || (z >= ReviewZScore && z < RedZScore) then Review
      else NoFlag
    else NoFlag
  }

  // ---------------------------------------------------------------------------
  // Probability range
  // ---------------------------------------------------------------------------

  /** The tail used for a z-score: the survival function for a better-than-expected round, the CDF otherwise. */
  function Tail(strokesBetter: real, sf: real -> real, cdf: real -> real, z: real): real
  {
    if strokesBetter > 0.0 then sf(z) else cdf(z)
  }

  /** max(p, 1e-10). */
  function FloorProbability(p: real): (r: real)
    ensures r >= ProbabilityFloor
    ensures r == p || r == ProbabilityFloor
    ensures p >= ProbabilityFloor ==> r == p
  {
    if p >= ProbabilityFloor then p else ProbabilityFloor
  }

  /** (low_z, high_z) = (strokes better / high std dev, strokes better / low std dev). */
  function TailZScores(handicapIndex: real, courseRating: real, courseSlope: real, score: real): (zs: (real, real))
    ensures var sb := Expect(handicapIndex, courseRating, courseSlope, score).strokesBetter;
      var b := StdDevRange(handicapIndex);
      zs.0 * b.high == sb && zs.1 * b.low == sb
    ensures var sb := Expect(handicapIndex, courseRating, courseSlope, score).strokesBetter;
      (sb > 0.0 ==> 0.0 < zs.0 < zs.1) && (sb < 0.0 ==> zs.1 < zs.0 < 0.0) && (sb == 0.0 ==> zs.0 == zs.1 == 0.0)
  {
    var sb := Expect(handicapIndex, courseRating, courseSlope, score).strokesBetter;
    var b := StdDevRange(handicapIndex);
    var lowZ := sb / b.high;
    var highZ := sb / b.low;
    QuotientOrder(sb, b.low, b.high);
    (lowZ, highZ)
  }

  /** Floored tail probabilities of the two z-scores, in the order (low_z, high_z). */
  function ProbabilityRange(
    handicapIndex: real, courseRating: real, courseSlope: real, score: real,
    sf: real -> real, cdf: real -> real): (p: Probabilities)
    ensures p.low >= ProbabilityFloor && p.high >= ProbabilityFloor
    ensures Expect(handicapIndex, courseRating, courseSlope, score).strokesBetter == 0.0 ==> p.low == p.high
  {
    var sb := Expect(handicapIndex, courseRating, courseSlope, score).strokesBetter;
    var zs := TailZScores(handicapIndex, courseRating, courseSlope, score);
    Probabilities(FloorProbability(Tail(sb, sf, cdf, zs.0)), FloorProbability(Tail(sb, sf, cdf, zs.1)))
  }

  // ---------------------------------------------------------------------------
  // Odds
  // ---------------------------------------------------------------------------

  /** Nearest integer, ties to the even neighbour (Python's round on one argument). */
  function RoundHalfEven(x: real): (n: int)
    ensures -0.5 <= n as real - x <= 0.5
    ensures (n as real - x == 0.5 || x - n as real == 0.5) ==> n % 2 == 0
  {
    var f := x.Floor;
    var frac := x - f as real;
    if frac < 0.5 then f
    else if frac > 0.5 then f + 1
    else if f % 2 == 0 then f
    else f + 1
  }

  /** "1 in n" odds of an event of probability p: round(1 / p). */
  function Odds(p: real): (n: int)
    requires p > 0.0
    ensures p <= 1.0 ==> n >= 1
    ensures n as real - 0.5 <= 1.0 / p <= n as real + 0.5
  {
    RoundHalfEven(1.0 / p)
  }

  // ---------------------------------------------------------------------------
  // Round evaluation
  // ---------------------------------------------------------------------------

  /**
   * The arithmetic of one round's evaluation: differential, expectation,
   * probability range and its midpoint, best/mid/worst z-scores (best and
   * worst swap when the round is not better than expected) and the flag,
   * which is decided on the midpoint z-score. A zero slope is rejected, as
   * the differential would divide by zero.
   */
  function EvaluateRound(input: RoundInput, sf: real -> real, cdf: real -> real): (ev: Evaluation)
    ensures ev.Rejected? <==> input.courseSlope == 0.0
    ensures ev.Evaluated? ==> ev.report.bestZ <= ev.report.midZ <= ev.report.worstZ
    ensures ev.Evaluated? ==>
      ev.report.midZ == ZScore(input.handicapIndex, input.courseRating, input.courseSlope, input.score)
    ensures ev.Evaluated? && ev.report.expectation.strokesBetter <= 0.0 ==> ev.report.flag == NoFlag
  {
    if input.courseSlope == 0.0 then Rejected(ZeroSlope)
    else
      var differential := ScoreDifferential(input.score, input.courseRating, input.courseSlope);
      var e := Expect(input.handicapIndex, input.courseRating, input.courseSlope, input.score);
      var sb := e.strokesBetter;
      var p := ProbabilityRange(input.handicapIndex, input.courseRating, input.courseSlope, input.score, sf, cdf);
      var midP := (p.low + p.high) / 2.0;
      var b := StdDevRange(input.handicapIndex);
      var bestZ := if sb > 0.0 then sb / b.high else sb / b.low;
      var worstZ := if sb > 0.0 then sb / b.low else sb / b.high;
      var midZ := sb / ((b.low + b.high) / 2.0);
      QuotientOrder(sb, b.low, Midpoint(b));
      QuotientOrder(sb, Midpoint(b), b.high);
      Evaluated(RoundReport(differential, e, p, midP, bestZ, midZ, worstZ, FlagStatus(differential, midZ, sb)))
  }
}
