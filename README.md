# GolfGuard in Dafny

GolfGuard estimates how improbable a golfer's reported score is. It takes
the golfer's handicap index and the course's rating and slope, and it flags
rounds that look implausibly good, which is a heuristic "sandbagging"
detector. One round passes through a forward chain of pure computations:

1. the score differential `((score - rating) * 113) / slope`;
2. a step function from handicap index to a (low, high) band of plausible
   standard deviations, with eight tiers and inclusive upper bounds;
3. the course handicap `index * slope / 113`, the expected score
   `rating + course handicap` and the strokes better than expected
   `expected - score`;
4. z-scores: the midpoint z-score divides strokes-better by the band's
   midpoint, and the two ends of the range divide it by the high and low
   standard deviations;
5. tail probabilities: the normal survival function is used for a round
   better than expected and the CDF otherwise, and each result is floored at
   1e-10;
6. a three-tier, first-match flag table (RED, REVIEW, NO FLAG) on the
   differential and the midpoint z-score.

Files:

- `golf_guard.dfy` (module `GolfGuard`) holds the data model and every
  operation. Each operation is a function with a named result and a
  contract. `EvaluateRound` is the arithmetic of the program's `main`. It
  returns `Rejected(ZeroSlope)` for a zero slope, because the differential
  would divide by zero there.
- `golf_guard_properties.dfy` (module `GolfGuardProperties`) holds the
  lemmas that relate several functions:
  - the band checked against an independent tier table;
  - monotonicity of the band and of the flag severity;
  - bounds and ordering of the probability range;
  - agreement of the round evaluation with its components.
- `golf_guard_scenarios.dfy` (module `GolfGuardScenarios`) holds the unit
  tests' concrete rounds, stated as exact equalities.

Thresholds are named constants:

| constant | value |
|---|---|
| `RedDifferential` | -1.0 |
| `RedZScore` | 2.5 |
| `ReviewDifferential` | 0.0 |
| `ReviewZScore` | 1.5 |
| `ProbabilityFloor` | 1e-10 |
| `StandardSlope` | 113 |

The normal distribution is not computed. The survival function and the CDF
are parameters `sf, cdf: real -> real`. The general lemmas that need them
assume only that their values lie in [0, 1], or that `sf` is non-increasing
and `cdf` is non-decreasing. The scenario `ExpectedRoundProbabilities` also
assumes `0 <= cdf(0) < 1`.

Points where the code decides and the model follows it:

- **Flag at z = 2.5.** The unit test at test_golf_guard.py:73 expects
  REVIEW for (differential -0.5, z 2.5, strokes-better 3). The code
  (golf_guard.py:69) returns RED, because `z >= 2.5` is checked first.
  `FlagCases` states RED. The `z < 2.5` conjunct of the REVIEW test is
  redundant: `FlagStatus`'s contract leaves it out and still characterises
  REVIEW exactly.
- **Order of the probability range.** The docstring at golf_guard.py:86
  calls the result (low_probability, high_probability), and the test at
  test_golf_guard.py:85 asserts `low_prob <= high_prob` for a round exactly
  as expected. The code computes `low_probability` from
  `strokes_better / high_std_dev`. `LowProbabilityNotBelowHigh` proves that,
  for any decreasing `sf` and increasing `cdf`, `low >= high` in both
  branches. The two are equal when the round is exactly as expected.
  The model keeps the code's order and names. The comments at
  golf_guard.py:147-148 call `low_prob` the lowest probability and
  `best_odds` the highest odds. By this lemma `low_prob` is the highest of
  the three probabilities, so `best_odds` is the lowest of the three odds.
- **Pairing of best-case odds with z-scores.** `main` prints the best-case
  odds from `low_prob`, which is the tail of `low_z`. For a round better than
  expected, `low_z` is the best-case z-score. Otherwise the best and worst
  z-scores are swapped, while the probabilities are not. So the best-case
  line pairs the best-case z-score with the worst-case z-score's
  probability. `EvaluationAgreesWithComponents` states this pairing for
  both signs.

## Model

| member | source | states |
|---|---|---|
| `GolfGuard.ScoreDifferential` | golf_guard.py:5-16 | differential times slope equals (score - rating) * 113; for a positive slope its sign is the sign of score - rating (zero exactly at score = rating), reversed for a negative slope; at slope 113 it is score - rating |
| `GolfGuard.StdDevRange` | golf_guard.py:18-38 | every band has 0 < low < high, within [1.8, 5.5], at most 0.5 wide |
| `GolfGuardProperties.StdDevRangeIsTierLookup` | golf_guard.py:23-38 | the if/elif chain equals the lookup of the index's tier (the first k with index <= 5k, or 7) in the table of eight bands |
| `GolfGuardProperties.BoundaryTakesLowerTier` | golf_guard.py:23-36 | each boundary 0, 5, ..., 30 gets the band of the tier it closes, not the next one |
| `GolfGuardProperties.AboveLastBoundaryTakesTopTier` | golf_guard.py:35-38 | every index above 30 gets (5.0, 5.5) |
| `GolfGuardProperties.BandMonotone` | golf_guard.py:23-38 | both band ends are non-decreasing in the handicap index |
| `GolfGuard.Expect` | golf_guard.py:44-51 | course handicap times 113 equals index times slope (so it is the index at slope 113); expected score is rating plus course handicap; score plus strokes-better equals rating plus course handicap |
| `GolfGuard.ZScore` | golf_guard.py:40-58 | z times the band midpoint equals strokes-better; z has the sign of strokes-better; z is 0 exactly when the score equals the expected score |
| `GolfGuard.FlagStatus` | golf_guard.py:60-80 | no flag unless strokes-better > 0; RED exactly when better than expected and (differential <= -1 or z >= 2.5); REVIEW exactly when better than expected, not RED, and (differential <= 0 or z >= 1.5) |
| `GolfGuardProperties.FlagSeverityMonotone` | golf_guard.py:66-80 | a round with no higher differential, no lower z-score and positive strokes-better whenever the other has it never gets a milder flag |
| `GolfGuardProperties.LabelsDistinct` | golf_guard.py:70-80 | the three flag labels are pairwise distinct, so the printed label determines the tier |
| `GolfGuard.TailZScores` | golf_guard.py:97-102 | low_z times the high std dev and high_z times the low std dev both equal strokes-better; low_z < high_z for a better round, high_z < low_z for a worse one, both 0 for an expected one |
| `GolfGuard.FloorProbability` | golf_guard.py:116-118 | the result is at least 1e-10 and is the input whenever the input is at least 1e-10, else 1e-10 |
| `GolfGuard.ProbabilityRange` | golf_guard.py:82-120 | both probabilities are at least 1e-10; they are equal when strokes-better is 0 |
| `GolfGuardProperties.ProbabilityBranches` | golf_guard.py:104-118 | for strokes-better > 0 each probability is the floored survival function of its z-score, otherwise the floored CDF |
| `GolfGuardProperties.ProbabilitiesInUnitInterval` | golf_guard.py:107-120 | when sf and cdf take values in [0, 1], both probabilities lie in [1e-10, 1] |
| `GolfGuardProperties.LowProbabilityNotBelowHigh` | golf_guard.py:100-114 | for non-increasing sf and non-decreasing cdf, low_probability >= high_probability in both branches |
| `GolfGuard.RoundHalfEven` | golf_guard.py:147-149 | the result is an integer within 0.5 of x, and the even one on a tie |
| `GolfGuard.Odds` | golf_guard.py:145-149 | round(1/p) is within 0.5 of 1/p and is at least 1 when 0 < p <= 1 |
| `GolfGuard.EvaluateRound` | golf_guard.py:133-174 | rejected exactly when the slope is 0; otherwise best_z <= mid_z <= worst_z, mid_z equals the z-score function's value, and no flag when strokes-better <= 0 |
| `GolfGuardProperties.EvaluationAgreesWithComponents` | golf_guard.py:133-174 | the evaluated round's differential, expectation and probability range are the component functions' values; the midpoint probability is (low + high) / 2; best/worst z-scores are (low_z, high_z) for a better round and (high_z, low_z) otherwise; the flag is the flag table on the midpoint z-score |
| `GolfGuardProperties.ReportedOddsAtLeastOne` | golf_guard.py:141-149 | with sf and cdf in [0, 1], the midpoint probability lies between the two ends and in [1e-10, 1], and all three odds are at least 1 |
| `GolfGuardProperties.RedFlagCondition` | golf_guard.py:171-174 | an evaluated round is RED exactly when its score is below the expected score and its differential is <= -1 or its midpoint z-score is >= 2.5 |
| `GolfGuardScenarios.DifferentialCases` | test_golf_guard.py:12-27 | differentials 0, -3, 3 and 0 for the tests' four rounds |
| `GolfGuardScenarios.StdDevRangeCases` | test_golf_guard.py:29-48 | bands (1.8, 2.2), (3.0, 3.5), (4.0, 4.5), (5.0, 5.5) for indexes 0, 12, 25, 35 |
| `GolfGuardScenarios.ZScoreCases` | test_golf_guard.py:50-61 | z-scores 0, 20/11 and -20/11 for scores 82, 77 and 87 at index 10, rating 72, slope 113 |
| `GolfGuardScenarios.FlagCases` | test_golf_guard.py:63-78 | NO FLAG, RED, RED (not the REVIEW that the test expects) and NO FLAG on the tests' inputs, and REVIEW when z is below 2.5 |
| `GolfGuardScenarios.ExpectedRoundProbabilities` | test_golf_guard.py:80-85 | a round exactly as expected gets equal probabilities in (0, 1) when cdf(0) < 1 |
| `GolfGuardScenarios.BetterRoundIsReviewed` | golf_guard.py:133-174 | index 10 shooting 77 at rating 72, slope 113: differential 5, expected 82, z-scores 5/3, 20/11, 2, flag REVIEW |

## Left out

- Console input and output: the prompts, `float()` parsing, the golfer's name, and all printing and f-string formatting (golf_guard.py:122-131, 176-191).
- The bodies of `norm.sf` and `norm.cdf`. They belong to a floating-point library and are parameters here. So the tests' numeric probability checks at test_golf_guard.py:89 and 93 (below or above 0.1) are not stated.
- Floating-point behaviour: rounding, infinities and NaN. Every value is an exact real. So `assertAlmostEqual` becomes an exact equality.
- The percentages `p * 100` (golf_guard.py:152-154). They are a display-only scaling.
- GolfGuard.ScoreDifferential: requires a non-zero slope, where Python raises ZeroDivisionError. `EvaluateRound` models that failure as `Rejected(ZeroSlope)`.
- The unused imports `math` and `statistics`.
