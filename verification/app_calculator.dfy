/** The interactive calculator's scorer: its own reference ranges and the
    scenario chosen by name ("A" selects the original weights, every other
    name selects scenario B). The composite is the generic scorer's ordered
    weighted sum, proved equal to the calculator's explicit six-term sum. */
module AppCalculator {
  import opened Indicators
  import opened Scenarios
  import opened Normalizer
  import opened Scoring
  import opened Classifier

  /** The calculator's reference ranges, best value first. */
  const AppRanges: Ranges :=
    Ranges(Range(0.3, 60.0), Range(131.0, 18900.0), Range(0.3, 326.0),
           Range(0.0, 100.0), Range(3.0, 45.0), Range(1.0, 4.0))

  /** The weights selected by a scenario name: "A" selects the original
      table and any other name, unknown ones included, selects table B. */
  function WeightsFor(escenario: string): (w: Weights)
    ensures w.NonNegative() && w.Total() == 1.0
    ensures escenario == "A" <==> w == WeightsA
    ensures escenario != "A" <==> w == WeightsB
  {
    if escenario == "A" then WeightsA else WeightsB
  }

  /** "B" is not "A": naming scenario B does not select the weights of A. */
  lemma ScenarioNames()
    ensures WeightsFor("A") == WeightsA && WeightsFor("B") == WeightsB
  {
    assert "B"[0] != "A"[0];
  }

  /** The generic scorer on the calculator's ranges is the explicit six-term
      weighted sum of the normalised raw values, with each table's weights. */
  lemma AppScoreFormula(p: Product)
    ensures Score(AppRanges, WeightsA, p).composite
            == NormalizeInverse(p.cf, 0.3, 60.0) * 0.15 + NormalizeInverse(p.wf, 131.0, 18900.0) * 0.15
               + NormalizeInverse(p.lu, 0.3, 326.0) * 0.10 + NormalizeInverse(p.origin, 0.0, 100.0) * 0.20
               + NormalizeInverse(p.waste, 3.0, 45.0) * 0.25 + NormalizeInverse(p.nova, 1.0, 4.0) * 0.15
    ensures Score(AppRanges, WeightsB, p).composite
            == NormalizeInverse(p.cf, 0.3, 60.0) * 0.14 + NormalizeInverse(p.wf, 131.0, 18900.0) * 0.14
               + NormalizeInverse(p.lu, 0.3, 326.0) * 0.09 + NormalizeInverse(p.origin, 0.0, 100.0) * 0.18
               + NormalizeInverse(p.waste, 3.0, 45.0) * 0.30 + NormalizeInverse(p.nova, 1.0, 4.0) * 0.15
  {
    ScoreExpanded(AppRanges, WeightsA, p);
    ScoreExpanded(AppRanges, WeightsB, p);
  }

  /** Each normalised value is the raw value scaled against the
      calculator's range for that indicator. */
  lemma AppNormalized(w: Weights, p: Product)
    ensures var n := Score(AppRanges, w, p).normalized;
            Complete(n)
            && n[CF] == NormalizeInverse(p.cf, 0.3, 60.0)
            && n[WF] == NormalizeInverse(p.wf, 131.0, 18900.0)
            && n[LU] == NormalizeInverse(p.lu, 0.3, 326.0)
            && n[Origin] == NormalizeInverse(p.origin, 0.0, 100.0)
            && n[Waste] == NormalizeInverse(p.waste, 3.0, 45.0)
            && n[NOVA] == NormalizeInverse(p.nova, 1.0, 4.0)
  {
  }

  /** Score one product; the scenario defaults to "A". */
  function ScoreProduct(cf: real, wf: real, lu: real, origin: real, waste: real, nova: real,
                        escenario: string := "A"): (r: ScoreResult)
    ensures Complete(r.normalized) && |r.normalized| == 6
    ensures r.normalized[CF] == NormalizeInverse(cf, 0.3, 60.0)
            && r.normalized[WF] == NormalizeInverse(wf, 131.0, 18900.0)
            && r.normalized[LU] == NormalizeInverse(lu, 0.3, 326.0)
            && r.normalized[Origin] == NormalizeInverse(origin, 0.0, 100.0)
            && r.normalized[Waste] == NormalizeInverse(waste, 3.0, 45.0)
            && r.normalized[NOVA] == NormalizeInverse(nova, 1.0, 4.0)
    ensures escenario == "A" ==>
              r.composite == NormalizeInverse(cf, 0.3, 60.0) * 0.15 + NormalizeInverse(wf, 131.0, 18900.0) * 0.15
                             + NormalizeInverse(lu, 0.3, 326.0) * 0.10 + NormalizeInverse(origin, 0.0, 100.0) * 0.20
                             + NormalizeInverse(waste, 3.0, 45.0) * 0.25 + NormalizeInverse(nova, 1.0, 4.0) * 0.15
    ensures escenario != "A" ==>
              r.composite == NormalizeInverse(cf, 0.3, 60.0) * 0.14 + NormalizeInverse(wf, 131.0, 18900.0) * 0.14
                             + NormalizeInverse(lu, 0.3, 326.0) * 0.09 + NormalizeInverse(origin, 0.0, 100.0) * 0.18
                             + NormalizeInverse(waste, 3.0, 45.0) * 0.30 + NormalizeInverse(nova, 1.0, 4.0) * 0.15
  {
    var product := Product(cf, wf, lu, origin, waste, nova);
    AppScoreFormula(product);
    AppNormalized(WeightsFor(escenario), product);
    Score(AppRanges, WeightsFor(escenario), product)
  }

  /** Leaving the scenario out is the same as asking for "A". */
  lemma DefaultScenarioIsA(cf: real, wf: real, lu: real, origin: real, waste: real, nova: real)
    ensures ScoreProduct(cf, wf, lu, origin, waste, nova)
            == ScoreProduct(cf, wf, lu, origin, waste, nova, "A")
  {
  }

  /** Every name other than "A" scores exactly as "B" does: an unknown
      scenario is not rejected. */
  lemma OtherScenariosScoreAsB(cf: real, wf: real, lu: real, origin: real, waste: real, nova: real,
                               escenario: string)
    requires escenario != "A"
    ensures ScoreProduct(cf, wf, lu, origin, waste, nova, escenario)
            == ScoreProduct(cf, wf, lu, origin, waste, nova, "B")
  {
    ScenarioNames();
    assert WeightsFor(escenario) == WeightsFor("B");
  }

  /** The calculator's ranges are all non-degenerate. */
  lemma AppRangesProper()
    ensures AppRanges.Proper()
  {
  }

  /** A product at the best end of every range gets 100 for every indicator
      and overall, in every scenario. */
  lemma PerfectProduct(escenario: string)
    ensures forall i :: ScoreProduct(0.3, 131.0, 0.3, 0.0, 3.0, 1.0, escenario).normalized[i] == 100.0
    ensures ScoreProduct(0.3, 131.0, 0.3, 0.0, 3.0, 1.0, escenario).composite == 100.0
  {
    AppRangesProper();
    ScoreAtMinimum(AppRanges, WeightsFor(escenario));
  }

  /** A product at the worst end of every range gets 0 for every indicator
      and overall, in every scenario. */
  lemma WorstProduct(escenario: string)
    ensures forall i :: ScoreProduct(60.0, 18900.0, 326.0, 100.0, 45.0, 4.0, escenario).normalized[i] == 0.0
    ensures ScoreProduct(60.0, 18900.0, 326.0, 100.0, 45.0, 4.0, escenario).composite == 0.0
  {
    AppRangesProper();
    ScoreAtMaximum(AppRanges, WeightsFor(escenario));
  }

  /** A product at the middle of every range gets 50 for every indicator and
      overall, in every scenario. */
  lemma MidRangeProduct(escenario: string)
    ensures forall i :: ScoreProduct(30.15, 9515.5, 163.15, 50.0, 24.0, 2.5, escenario).normalized[i] == 50.0
    ensures ScoreProduct(30.15, 9515.5, 163.15, 50.0, 24.0, 2.5, escenario).composite == 50.0
  {
    AppRangesProper();
    assert AppRanges.Midpoint() == Product(30.15, 9515.5, 163.15, 50.0, 24.0, 2.5);
    ScoreAtMidpoint(AppRanges, WeightsFor(escenario));
  }

  /** A product inside every range scores within [0, 100]. */
  lemma NominalProductWithinRange(p: Product, escenario: string)
    requires AppRanges.Contains(p)
    ensures 0.0 <= ScoreProduct(p.cf, p.wf, p.lu, p.origin, p.waste, p.nova, escenario).composite <= 100.0
  {
    AppRangesProper();
    ScoreWithinNominalRange(AppRanges, WeightsFor(escenario), p);
    assert Product(p.cf, p.wf, p.lu, p.origin, p.waste, p.nova) == p;
  }

  /** Moving one indicator from the best to the worst end of its range,
      whatever the other five are, costs exactly 100 times its weight. */
  lemma IndicatorSwing(p: Product, i: Indicator, escenario: string)
    ensures var best := p.With(i, AppRanges.Of(i).lo);
            var worst := p.With(i, AppRanges.Of(i).hi);
            ScoreProduct(best.cf, best.wf, best.lu, best.origin, best.waste, best.nova, escenario).composite
            - ScoreProduct(worst.cf, worst.wf, worst.lu, worst.origin, worst.waste, worst.nova, escenario).composite
            == 100.0 * WeightsFor(escenario).Of(i)
  {
  }

  /** Waste from 3 to 45, the rest unchanged, costs 25 points in scenario A
      and 30 in scenario B. */
  lemma WasteImpact(cf: real, wf: real, lu: real, origin: real, nova: real)
    ensures ScoreProduct(cf, wf, lu, origin, 3.0, nova, "A").composite
            - ScoreProduct(cf, wf, lu, origin, 45.0, nova, "A").composite == 25.0
    ensures ScoreProduct(cf, wf, lu, origin, 3.0, nova, "B").composite
            - ScoreProduct(cf, wf, lu, origin, 45.0, nova, "B").composite == 30.0
  {
    ScenarioNames();
    IndicatorSwing(Product(cf, wf, lu, origin, 3.0, nova), Waste, "A");
    IndicatorSwing(Product(cf, wf, lu, origin, 3.0, nova), Waste, "B");
  }

  /** Lowering any one raw value, the others fixed, strictly raises the
      composite. */
  lemma StrictlyBetterWhenLower(p: Product, i: Indicator, v: real, escenario: string)
    requires v < p.Value(i)
    ensures var q := p.With(i, v);
            ScoreProduct(q.cf, q.wf, q.lu, q.origin, q.waste, q.nova, escenario).composite
            > ScoreProduct(p.cf, p.wf, p.lu, p.origin, p.waste, p.nova, escenario).composite
  {
  }

  /** The worked example: perfect except origin 50 scores 90 in A and 91 in B. */
  lemma WorkedExample()
    ensures ScoreProduct(0.3, 131.0, 0.3, 50.0, 3.0, 1.0, "A").composite == 90.0
    ensures ScoreProduct(0.3, 131.0, 0.3, 50.0, 3.0, 1.0, "B").composite == 91.0
  {
    ScenarioNames();
  }

  /** Perfect except the worst waste scores 75 in scenario A. */
  lemma WorstWasteOnly()
    ensures ScoreProduct(0.3, 131.0, 0.3, 0.0, 45.0, 1.0, "A").composite == 75.0
  {
  }

  /** With the worst waste, the heavier waste weight of scenario B gives the
      lower score. */
  lemma ScenarioBPenalisesWaste()
    ensures ScoreProduct(30.0, 9500.0, 163.0, 50.0, 45.0, 2.0, "B").composite
            < ScoreProduct(30.0, 9500.0, 163.0, 50.0, 45.0, 2.0, "A").composite
  {
    ScenarioNames();
  }

  /** No clamping: a carbon footprint below the range's best end normalises
      above 100 ... */
  lemma ZeroCarbonNormalized()
    ensures ScoreProduct(0.0, 131.0, 0.3, 0.0, 3.0, 1.0, "A").normalized[CF] > 100.0
  {
    AppNormalized(WeightsA, Product(0.0, 131.0, 0.3, 0.0, 3.0, 1.0));
  }

  /** ... and with the other five indicators at their best, the composite
      exceeds 100 too. */
  lemma ZeroCarbonComposite()
    ensures ScoreProduct(0.0, 131.0, 0.3, 0.0, 3.0, 1.0, "A").composite > 100.0
  {
  }

  /** Score then classify: a low-impact product lands in a green tier and a
      high-impact one in Bajo. */
  lemma ScoreThenClassify()
    ensures var s := ScoreProduct(1.0, 500.0, 5.0, 5.0, 5.0, 1.0, "A").composite;
            s > 85.0 && Classify(s).marker == Green
    ensures var s := ScoreProduct(55.0, 17000.0, 300.0, 90.0, 40.0, 4.0, "A").composite;
            s < 20.0 && Classify(s) == Classification(Bajo, Red)
  {
  }
}
