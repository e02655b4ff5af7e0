# Sustainability score calculator — scoring core in Dafny

This project models the scoring core of a food-product sustainability
calculator. It has three parts:
- **Inverse normaliser.** It maps a raw indicator value, where lower is better, to a 0–100 "goodness" score against a reference range. A degenerate range gives 50. Values outside the range are not clamped.
- **Composite scorer.** It normalises six indicators: carbon footprint (CF), water footprint (WF), land use (LU), origin, waste percentage and NOVA processing group. It then sums each normalised value times its weight, using one of two scenario weight tables: A (waste 25%) or B (waste 30%).
- **Classifier.** It maps a composite score to one of five tiers with a coloured marker.

The core exists in two copies, and both are modelled:

- **The interactive calculator** (`app_calculadora_sostenibilidad_v2.py`), module `AppCalculator`.
  - Reference ranges: CF (0.3, 60), WF (131, 18900), LU (0.3, 326), Origin (0, 100), Waste (3, 45), NOVA (1, 4).
  - Scenario `"A"` selects table A. *Any* other name selects table B, so unknown names are not rejected.
- **The refactored scorer** (`verify_refactoring_simple.py`), module `RefactoredScorer`.
  - Its ranges differ for CF (0.28, 60), LU (0.18, 326) and Waste (0.4, 45.5).
  - It looks the scenario up in a table holding exactly `"A"` and `"B"`, and rejects anything else. That error is modelled as a `Result` failure.
  - It sums the composite as a running total over the table's indicators in order.

Shared structure:

| file | module | contents |
|---|---|---|
| `wrappers.dfy` | `Wrappers` | `Result` for the refactored copy's error path |
| `indicators.dfy` | `Indicators` | the six indicators, and records holding a product's raw values, the six reference ranges and the six weights |
| `normalizer.dfy` | `Normalizer` | the inverse normaliser and its properties |
| `scenarios.dfy` | `Scenarios` | the two weight tables, which are the same literals in both copies |
| `scoring.dfy` | `Scoring` | the composite scorer, generic over ranges and weights |
| `classifier.dfy` | `Classifier` | the tier ladder |
| `app_calculator.dfy` | `AppCalculator` | the calculator's instantiation |
| `refactored.dfy` | `RefactoredScorer` | the refactored instantiation |

The generic scorer defines the composite as a left-to-right sum over the
indicator order, `WeightedSum`. It is proved equal to the calculator's
explicit six-term expression, and the refactored copy's loop is proved to
compute it.

Arithmetic is over `real`. Every constant in the source is a rational, so the
properties the source's tests check with `==` or with a tolerance hold
exactly here.

The two copies treat an unknown scenario name differently. The refactored
copy raises an error for a name outside its scenario table
(`verify_refactoring_simple.py:45-46`). The calculator falls through to the B
weights for every name other than "A"
(`app_calculadora_sostenibilidad_v2.py:271-280`). The model follows each
copy: `AppCalculator.OtherScenariosScoreAsB` states the fall-through, and
`RefactoredScorer.ScoreProduct` states the rejection.

## Model

| member | source | states |
|---|---|---|
| Normalizer.NormalizeInverse | app_calculadora_sostenibilidad_v2.py:238-242 | No contract of its own: 50 on a degenerate range, otherwise 100 minus the value's fraction of the range times 100; its properties are the lemmas below |
| Normalizer.Landmarks | verify_refactoring_simple.py:34-38 | On a non-degenerate range, the best end scores 100, the worst end 0 and the midpoint 50 |
| Normalizer.DegenerateRange | app_calculadora_sostenibilidad_v2.py:240-241 | When lo == hi, every value scores 50 |
| Normalizer.NoClamping | app_calculadora_sostenibilidad_v2.py:242 | On a proper range, a value is below lo iff its score exceeds 100, above hi iff its score is negative, and inside [lo, hi] iff its score is in [0, 100] |
| Normalizer.StrictlyDecreasing | app_calculadora_sostenibilidad_v2.py:242 | On a proper range, a smaller raw value always scores strictly higher |
| Normalizer.NormalizeDenormalize | app_calculadora_sostenibilidad_v2.py:242 | On a non-degenerate range, normalising the raw value recovered from a score gives that score back (every score is reached) |
| Normalizer.DenormalizeNormalize | app_calculadora_sostenibilidad_v2.py:242 | On a non-degenerate range of either orientation, recovering the raw value from its score gives that value back (distinct values score differently); with the row above, the normaliser is a bijection |
| Normalizer.Affine | app_calculadora_sostenibilidad_v2.py:242 | Shifting a raw value by d shifts its score by exactly −100·d/(hi−lo) |
| Normalizer.Examples | test_app_calculadora_sostenibilidad_v2.py:21-106 | Every normaliser test value exactly: the ends, quarters and midpoint of (0,100); the midpoint of (0.5,2.5); the ends and midpoint of (0.3,60); the ends of (131,18900); the ends of (1,4) and 2 in it giving 200/3; the degenerate (10,10,10) gives 50; (0,10,20) gives 200 and (30,10,20) gives −100; (−5,−10,0) gives 50 |
| Indicators.OrderListsEveryIndicator | verify_refactoring_simple.py:57-61 | Every indicator occurs in the summation order |
| Indicators.OrderIsDistinct | verify_refactoring_simple.py:57-61 | No indicator occurs twice in the summation order, so each weighted term is summed once |
| Scenarios.WeightTablesSumToOne | verify_refactoring_simple.py:18-26 | Both weight tables are non-negative and sum to exactly 1; B gives waste 5 points more than A |
| Scoring.Score | verify_refactoring_simple.py:48-55 | The normalised map has exactly the six indicators as keys, each mapped to its raw value normalised against its own range |
| Scoring.WeightedSum | verify_refactoring_simple.py:58-61 | No contract of its own: the reference definition of the composite as the left-to-right sum of each normalised value times its weight; its properties are the WeightedSum lemmas below |
| Scoring.WeightedSumInOrder | app_calculadora_sostenibilidad_v2.py:282-289 | The ordered running sum equals the explicit six-term expression, and the weights alone sum to the table's total |
| Scoring.WeightedSumPrefix | verify_refactoring_simple.py:57-61 | Extending the summed prefix by one indicator adds exactly that indicator's weighted term |
| Scoring.WeightedSumUpdate | app_calculadora_sostenibilidad_v2.py:282-289 | For any distinct key list: if two normalised maps differ only at i, their weighted sums differ by i's weight times the change when i is listed, and are equal when it is not |
| Scoring.CompositeChange | app_calculadora_sostenibilidad_v2.py:282-289 | The composite is linear in each normalised value: the composites differ by weight(i) × the change at i |
| Scoring.OtherEntriesUnchanged | app_calculadora_sostenibilidad_v2.py:262-268 | Changing one raw value leaves the other five normalised values unchanged |
| Scoring.ScoreExpanded | app_calculadora_sostenibilidad_v2.py:282-289 | For any ranges and weights, the composite is the six-term linear combination of the normalised map's entries |
| Scoring.WeightedSumUniform | app_calculadora_sostenibilidad_v2.py:282-289 | When every normalised value equals c, the weighted sum is c times the sum of the weights |
| Scoring.ScoreAtMinimum | app_calculadora_sostenibilidad_v2.py:253-289 | For any proper ranges and weights summing to 1, all-best inputs give every entry 100 and a composite of exactly 100 |
| Scoring.ScoreAtMaximum | app_calculadora_sostenibilidad_v2.py:253-289 | For any proper ranges and weights summing to 1, all-worst inputs give every entry 0 and a composite of exactly 0 |
| Scoring.ScoreAtMidpoint | app_calculadora_sostenibilidad_v2.py:253-289 | For any proper ranges and weights summing to 1, all-midpoint inputs give every entry 50 and a composite of exactly 50 |
| Scoring.WeightedSumBounds | app_calculadora_sostenibilidad_v2.py:282-289 | With entries in [0, 100] and non-negative weights, the weighted sum lies between 0 and 100 × the sum of the weights |
| Scoring.ScoreWithinNominalRange | verify_refactoring_simple.py:86-92 | For a product inside every range, with non-negative weights summing to 1, the composite lies in [0, 100] |
| Classifier.Classify | app_calculadora_sostenibilidad_v2.py:296-307 | The result's tier is reached by the score, no higher tier is reached, and its marker is the tier's colour |
| Classifier.ClassifyIsHighestReached | verify_refactoring_simple.py:65-76 | A tier's threshold is met iff the tier ranks no higher than the classification |
| Classifier.ClassifyMonotone | app_calculadora_sostenibilidad_v2.py:298-307 | A higher score never gets a lower tier |
| Classifier.ClassifyBands | app_calculadora_sostenibilidad_v2.py:298-307 | Each tier is exactly a half-open band: ≥90, [80,90), [70,80), [60,70), <60 |
| Classifier.MarkerBands | app_calculadora_sostenibilidad_v2.py:299-307 | Green iff ≥80, yellow iff [70,80), orange iff [60,70), red iff <60 |
| Classifier.Label | app_calculadora_sostenibilidad_v2.py:298-307 | No contract of its own: the display label of each tier, as the source spells it; LabelsDistinct states that a label identifies its tier |
| Classifier.LabelsDistinct | app_calculadora_sostenibilidad_v2.py:298-307 | Two tiers have the same label iff they are the same tier |
| Classifier.ClassifyBoundaries | test_app_calculadora_sostenibilidad_v2.py:335-435 | Thresholds belong to the higher tier (90, 80, 70, 60); 89.99 and 59.99 fall below; 105 is Excelente and −10 is Bajo |
| AppCalculator.WeightsFor | app_calculadora_sostenibilidad_v2.py:271-280 | "A" selects table A, and every other name selects table B; the selected table is non-negative and sums to 1 |
| AppCalculator.ScenarioNames | app_calculadora_sostenibilidad_v2.py:271 | Naming "A" gives table A and naming "B" gives table B |
| AppCalculator.AppScoreFormula | app_calculadora_sostenibilidad_v2.py:253-289 | The generic scorer on the calculator's ranges equals the source's explicit sum of each normalised raw value times its literal weight, for both tables |
| AppCalculator.AppNormalized | app_calculadora_sostenibilidad_v2.py:263-268 | Each returned normalised value is the raw value normalised against the calculator's range for that indicator |
| AppCalculator.ScoreProduct | app_calculadora_sostenibilidad_v2.py:244-294 | The returned map has the six keys, each holding that raw value normalised against the calculator's range for it; the composite is the explicit six-term sum with the A weights for "A" and the B weights otherwise |
| AppCalculator.DefaultScenarioIsA | app_calculadora_sostenibilidad_v2.py:244 | Omitting the scenario scores exactly as "A" |
| AppCalculator.OtherScenariosScoreAsB | app_calculadora_sostenibilidad_v2.py:276-280 | Every name other than "A", unknown names included, scores exactly as "B" |
| AppCalculator.AppRangesProper | app_calculadora_sostenibilidad_v2.py:253-260 | All six calculator ranges are non-degenerate |
| AppCalculator.PerfectProduct | test_app_calculadora_sostenibilidad_v2.py:112-137 | (0.3, 131, 0.3, 0, 3, 1) gives every entry 100 and a composite of 100, in every scenario |
| AppCalculator.WorstProduct | test_app_calculadora_sostenibilidad_v2.py:139-163 | (60, 18900, 326, 100, 45, 4) gives every entry 0 and a composite of 0, in every scenario |
| AppCalculator.MidRangeProduct | test_app_calculadora_sostenibilidad_v2.py:181-196 | (30.15, 9515.5, 163.15, 50, 24, 2.5) gives every entry exactly 50 and a composite of 50 |
| AppCalculator.NominalProductWithinRange | app_calculadora_sostenibilidad_v2.py:253-289 | A product inside every calculator range scores within [0, 100] in every scenario |
| AppCalculator.IndicatorSwing | app_calculadora_sostenibilidad_v2.py:253-289 | Whatever the other five inputs, moving one indicator from its best to its worst end lowers the composite by exactly 100 × its weight |
| AppCalculator.WasteImpact | test_app_calculadora_sostenibilidad_v2.py:258-286 | Whatever the other five inputs, waste 3 → 45 costs exactly 25 points under A and 30 under B |
| AppCalculator.StrictlyBetterWhenLower | app_calculadora_sostenibilidad_v2.py:262-289 | Lowering any one raw value, with the others fixed, strictly raises the composite in every scenario |
| AppCalculator.WorkedExample | test_app_calculadora_sostenibilidad_v2.py:198-238 | (0.3, 131, 0.3, 50, 3, 1) scores exactly 90 under A and 91 under B |
| AppCalculator.WorstWasteOnly | test_app_calculadora_sostenibilidad_v2.py:549-561 | All best except waste 45 scores exactly 75 under A |
| AppCalculator.ScenarioBPenalisesWaste | test_app_calculadora_sostenibilidad_v2.py:240-256 | (30, 9500, 163, 50, 45, 2) scores strictly lower under B than under A |
| AppCalculator.ZeroCarbonNormalized | test_app_calculadora_sostenibilidad_v2.py:320-327 | A carbon footprint of 0, below the range, normalises above 100 |
| AppCalculator.ZeroCarbonComposite | test_app_calculadora_sostenibilidad_v2.py:320-329 | With the other inputs at their best, a carbon footprint of 0 gives a composite above 100 |
| AppCalculator.ScoreThenClassify | test_app_calculadora_sostenibilidad_v2.py:496-528 | (1, 500, 5, 5, 5, 1) scores above 85 with a green marker; (55, 17000, 300, 90, 40, 4) scores below 20 and is Bajo with a red marker |
| RefactoredScorer.ScoreProduct | verify_refactoring_simple.py:40-63 | Fails iff the scenario is not in the table, with the offending name; otherwise returns the generic score for the refactored ranges and the named table |
| RefactoredScorer.WeightedTotal | verify_refactoring_simple.py:57-61 | The running sum over the table's indicators equals both the ordered weighted sum and the explicit six-term expression |
| RefactoredScorer.ScenarioTableShape | verify_refactoring_simple.py:28-31 | The table's keys are exactly "A" and "B"; each entry is non-negative and sums to 1; the two differ |
| RefactoredScorer.IndicatorRangesProper | verify_refactoring_simple.py:9-16 | All six refactored ranges are non-degenerate |
| RefactoredScorer.BestAndWorstCases | verify_refactoring_simple.py:105-117 | In either valid scenario, (0.28, 131, 0.18, 0, 0.4, 1) scores exactly 100 and (60, 18900, 326, 100, 45.5, 4) scores exactly 0 |
| RefactoredScorer.NominalProductWithinRange | verify_refactoring_simple.py:40-63 | A product inside every refactored range scores within [0, 100] in either valid scenario |
| RefactoredScorer.RefactoredScoreFormula | verify_refactoring_simple.py:48-61 | On the refactored ranges the composite is the explicit six-term sum of normalised raw values times each table's literal weights |
| RefactoredScorer.ScenariosDiffer | verify_refactoring_simple.py:86-102 | (2, 500, 1.5, 0, 10, 1) scores differently under A and B, and within [0, 100] under A |
| RefactoredScorer.AppleBeatsBeef | verify_refactoring_simple.py:165-181 | Under A, the apple (0.43, 822, 0.63, 50, 6.7, 1) scores strictly above the beef (60, 15415, 326, 50, 3.1, 1) |

## Left out

- User interface: the page setup, styling, navigation, ranking pages, similar-product search and charts. They do not change the scores.
- Data loading and export: the CSV loading with its path fallbacks, and the spreadsheet export. These are file I/O and library plumbing.
- The refactored script's test runner. Its printing and exit code are not modelled; its assertions appear as the lemmas above.
- Floating-point rounding. The model computes over exact reals, so the tests' tolerances are not needed and not modelled.
- The calculator returns the integer `50` on a degenerate range, while the refactored copy returns the float `50.0`. Both are the real 50 here.
- NOVA group is an integer in the refactored copy's signature. It is a real here, because the calculator's tests pass 2.5.
- Dictionaries keyed by indicator-name strings are modelled as records and maps over the `Indicator` enumeration. So a misspelled or missing key cannot occur.
- Markers are an enumeration (green, yellow, orange, red), not the emoji strings.
- Dynamic typing: arguments of the wrong type, which would raise in Python, are not modelled.
- Scoring.CompositeChange: linearity in each indicator is stated generically on score results whose normalised maps differ at one indicator, not directly on two calls of the generic scorer with arbitrary ranges. Over raw values it is stated for the calculator's ranges (`AppCalculator.IndicatorSwing`, `AppCalculator.StrictlyBetterWhenLower`), because the generic statement over symbolic ranges and weights involves products of symbolic quotients that the solver does not handle reliably.
