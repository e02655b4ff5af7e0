/** The refactored scorer: module-level constants for the ranges and the
    scenario table, an explicit check that rejects unknown scenario names,
    and the composite computed as a running sum over the indicators in
    table order. Its ranges differ from the calculator's for carbon
    footprint, land use and waste. */
module RefactoredScorer {
  import opened Wrappers
  import opened Indicators
  import opened Scenarios
  import opened Normalizer
  import opened Scoring

  /** The refactored ranges, best value first. */
  const IndicatorRanges: Ranges :=
    Ranges(Range(0.28, 60.0), Range(131.0, 18900.0), Range(0.18, 326.0),
           Range(0.0, 100.0), Range(0.4, 45.5), Range(1.0, 4.0))

  /** The scenario table: exactly the names "A" and "B" are valid. */
  const ScenarioTable: map<string, Weights> := map["A" := WeightsA, "B" := WeightsB]

  /** The only error: a scenario name missing from the table. */
  datatype ScoreError = InvalidScenario(escenario: string)

  /** Score one product, or reject an unknown scenario; the scenario
      defaults to "A". */
  method ScoreProduct(cf: real, wf: real, lu: real, origin: real, waste: real, nova: real,
                      escenario: string := "A")
    returns (r: Result<ScoreResult, ScoreError>)
    ensures r.Failure? <==> escenario !in ScenarioTable
    ensures r.Failure? ==> r.error == InvalidScenario(escenario)
    ensures r.Success? ==> r.value == Score(IndicatorRanges, ScenarioTable[escenario],
                                            Product(cf, wf, lu, origin, waste, nova))
  {
    if escenario !in ScenarioTable {
      return Failure(InvalidScenario(escenario));
    }
    var product := Product(cf, wf, lu, origin, waste, nova);
    var normalized := map i: Indicator :: NormalizedValue(IndicatorRanges, product, i);
    var total := WeightedTotal(normalized, ScenarioTable[escenario]);
    return Success(ScoreResult(total, normalized));
  }

  /** The running sum of each normalised value times its weight, taken over
      the indicators in table order. */
  method WeightedTotal(normalized: map<Indicator, real>, weights: Weights) returns (total: real)
    requires Complete(normalized)
    ensures total == normalized[CF] * weights.cf + normalized[WF] * weights.wf + normalized[LU] * weights.lu
                     + normalized[Origin] * weights.origin + normalized[Waste] * weights.waste
                     + normalized[NOVA] * weights.nova
    ensures total == WeightedSum(Order, normalized, weights)
  {
    total := 0.0;
    var k := 0;
    while k < |Order|
      invariant 0 <= k <= |Order|
      invariant total == WeightedSum(Order[..k], normalized, weights)
    {
      WeightedSumPrefix(Order, k, normalized, weights);
      total := total + normalized[Order[k]] * weights.Of(Order[k]);
      k := k + 1;
    }
    assert Order[..k] == Order;
    WeightedSumInOrder(normalized, weights);
  }

  /** The table holds exactly "A" and "B", each a convex weighting. */
  lemma ScenarioTableShape()
    ensures ScenarioTable.Keys == {"A", "B"}
    ensures forall s | s in ScenarioTable :: ScenarioTable[s].NonNegative() && ScenarioTable[s].Total() == 1.0
    ensures ScenarioTable["A"] != ScenarioTable["B"]
  {
    WeightTablesSumToOne();
  }

  /** Every refactored range is non-degenerate. */
  lemma IndicatorRangesProper()
    ensures IndicatorRanges.Proper()
  {
  }

  /** The best product in the refactored ranges scores exactly 100, and the
      worst exactly 0, in both scenarios. */
  lemma BestAndWorstCases(escenario: string)
    requires escenario in ScenarioTable
    ensures Score(IndicatorRanges, ScenarioTable[escenario], Product(0.28, 131.0, 0.18, 0.0, 0.4, 1.0)).composite == 100.0
    ensures Score(IndicatorRanges, ScenarioTable[escenario], Product(60.0, 18900.0, 326.0, 100.0, 45.5, 4.0)).composite == 0.0
  {
    ScenarioTableShape();
    IndicatorRangesProper();
    ScoreAtMinimum(IndicatorRanges, ScenarioTable[escenario]);
    ScoreAtMaximum(IndicatorRanges, ScenarioTable[escenario]);
  }

  /** A product inside every refactored range scores within [0, 100] in
      both scenarios. */
  lemma NominalProductWithinRange(p: Product, escenario: string)
    requires escenario in ScenarioTable
    requires IndicatorRanges.Contains(p)
    ensures 0.0 <= Score(IndicatorRanges, ScenarioTable[escenario], p).composite <= 100.0
  {
    ScenarioTableShape();
    IndicatorRangesProper();
    ScoreWithinNominalRange(IndicatorRanges, ScenarioTable[escenario], p);
  }

  /** The refactored scorer's composite written out as the six-term sum of
      the normalised raw values, with each table's weights. */
  lemma RefactoredScoreFormula(p: Product)
    ensures Score(IndicatorRanges, WeightsA, p).composite
            == NormalizeInverse(p.cf, 0.28, 60.0) * 0.15 + NormalizeInverse(p.wf, 131.0, 18900.0) * 0.15
               + NormalizeInverse(p.lu, 0.18, 326.0) * 0.10 + NormalizeInverse(p.origin, 0.0, 100.0) * 0.20
               + NormalizeInverse(p.waste, 0.4, 45.5) * 0.25 + NormalizeInverse(p.nova, 1.0, 4.0) * 0.15
    ensures Score(IndicatorRanges, WeightsB, p).composite
            == NormalizeInverse(p.cf, 0.28, 60.0) * 0.14 + NormalizeInverse(p.wf, 131.0, 18900.0) * 0.14
               + NormalizeInverse(p.lu, 0.18, 326.0) * 0.09 + NormalizeInverse(p.origin, 0.0, 100.0) * 0.18
               + NormalizeInverse(p.waste, 0.4, 45.5) * 0.30 + NormalizeInverse(p.nova, 1.0, 4.0) * 0.15
  {
    ScoreExpanded(IndicatorRanges, WeightsA, p);
    ScoreExpanded(IndicatorRanges, WeightsB, p);
  }

  /** The two scenarios give the same typical product different scores,
      both within [0, 100]. */
  lemma ScenariosDiffer()
    ensures Score(IndicatorRanges, WeightsA, Product(2.0, 500.0, 1.5, 0.0, 10.0, 1.0)).composite
            != Score(IndicatorRanges, WeightsB, Product(2.0, 500.0, 1.5, 0.0, 10.0, 1.0)).composite
    ensures 0.0 <= Score(IndicatorRanges, WeightsA, Product(2.0, 500.0, 1.5, 0.0, 10.0, 1.0)).composite <= 100.0
  {
    RefactoredScoreFormula(Product(2.0, 500.0, 1.5, 0.0, 10.0, 1.0));
  }

  /** Apples outscore beef in scenario A. */
  lemma AppleBeatsBeef()
    ensures Score(IndicatorRanges, WeightsA, Product(0.43, 822.0, 0.63, 50.0, 6.7, 1.0)).composite
            > Score(IndicatorRanges, WeightsA, Product(60.0, 15415.0, 326.0, 50.0, 3.1, 1.0)).composite
  {
    RefactoredScoreFormula(Product(0.43, 822.0, 0.63, 50.0, 6.7, 1.0));
    RefactoredScoreFormula(Product(60.0, 15415.0, 326.0, 50.0, 3.1, 1.0));
  }
}
