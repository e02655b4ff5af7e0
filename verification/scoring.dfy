/** The generic composite scorer: each raw indicator value is normalised
    against its reference range, and the composite is the weighted sum of the
    six normalised values. Both copies of the source instantiate this scorer
    with their own ranges and with one of the two scenario weight tables. */
module Scoring {
  import opened Indicators
  import opened Normalizer

  /** The composite score together with the per-indicator normalised values. */
  datatype ScoreResult = ScoreResult(composite: real, normalized: map<Indicator, real>)

  /** The normalised value of one indicator of `p` */
  function NormalizedValue(ranges: Ranges, p: Product, i: Indicator): (r: real) {
    NormalizeInverse(p.Value(i), ranges.Of(i).lo, ranges.Of(i).hi)
  }

  /** Every indicator is a key of the normalised map */
  predicate Complete(normalized: map<Indicator, real>) {
    forall i :: i in normalized
  }

  /** Reference definition of the composite: the sum, left to right over
      `keys`, of each normalised value times its weight. */
  function WeightedSum(keys: seq<Indicator>, normalized: map<Indicator, real>, w: Weights): (r: real)
    requires Complete(normalized)
  {
    if |keys| == 0 then 0.0
    else
      var last := keys[|keys| - 1];
      WeightedSum(keys[..|keys| - 1], normalized, w) + normalized[last] * w.Of(last)
  }

  /** The sum, left to right over `keys`, of the weights alone. */
  function WeightSum(keys: seq<Indicator>, w: Weights): (r: real)
  {
    if |keys| == 0 then 0.0
    else WeightSum(keys[..|keys| - 1], w) + w.Of(keys[|keys| - 1])
  }

  /** Normalise each of the six raw values, then sum each normalised value
      times its weight over the indicators in order. */
  function Score(ranges: Ranges, w: Weights, p: Product): (r: ScoreResult)
    ensures Complete(r.normalized) && |r.normalized| == 6
    ensures forall i :: r.normalized[i] == NormalizedValue(ranges, p, i)
  {
    var normalized := map i: Indicator :: NormalizedValue(ranges, p, i);
    SixKeys(normalized);
    ScoreResult(WeightedSum(Order, normalized, w), normalized)
  }

  /** A complete normalised map has exactly six entries. */
  lemma SixKeys(normalized: map<Indicator, real>)
    requires Complete(normalized)
    ensures |normalized| == 6
  {
    forall i | i in normalized ensures i in {CF, WF, LU, Origin, Waste, NOVA} {
      match i
      case CF => case WF => case LU => case Origin => case Waste => case NOVA =>
    }
    assert normalized.Keys == {CF, WF, LU, Origin, Waste, NOVA};
  }

  /** Appending one key adds its weighted term. */
  lemma WeightedSumSnoc(keys: seq<Indicator>, k: Indicator, normalized: map<Indicator, real>, w: Weights)
    requires Complete(normalized)
    ensures WeightedSum(keys + [k], normalized, w) == WeightedSum(keys, normalized, w) + normalized[k] * w.Of(k)
    ensures WeightSum(keys + [k], w) == WeightSum(keys, w) + w.Of(k)
  {
    assert (keys + [k])[..|keys|] == keys;
  }

  /** Extending a prefix of `keys` by the next key adds that key's term. */
  lemma WeightedSumPrefix(keys: seq<Indicator>, k: nat, normalized: map<Indicator, real>, w: Weights)
    requires Complete(normalized)
    requires k < |keys|
    ensures WeightedSum(keys[..k + 1], normalized, w)
            == WeightedSum(keys[..k], normalized, w) + normalized[keys[k]] * w.Of(keys[k])
  {
    assert keys[..k + 1] == keys[..k] + [keys[k]];
    WeightedSumSnoc(keys[..k], keys[k], normalized, w);
  }

  /** Summing over `Order` is the six-term linear combination, and the
      weights alone sum to the table's total. */
  lemma WeightedSumInOrder(normalized: map<Indicator, real>, w: Weights)
    requires Complete(normalized)
    ensures WeightedSum(Order, normalized, w)
            == normalized[CF] * w.cf + normalized[WF] * w.wf + normalized[LU] * w.lu
               + normalized[Origin] * w.origin + normalized[Waste] * w.waste + normalized[NOVA] * w.nova
    ensures WeightSum(Order, w) == w.Total()
  {
    WeightedSumSnoc([], CF, normalized, w);
    WeightedSumSnoc([CF], WF, normalized, w);
    WeightedSumSnoc([CF, WF], LU, normalized, w);
    WeightedSumSnoc([CF, WF, LU], Origin, normalized, w);
    WeightedSumSnoc([CF, WF, LU, Origin], Waste, normalized, w);
    WeightedSumSnoc([CF, WF, LU, Origin, Waste], NOVA, normalized, w);
    assert [CF] == [] + [CF];
    assert [CF, WF] == [CF] + [WF];
    assert [CF, WF, LU] == [CF, WF] + [LU];
    assert [CF, WF, LU, Origin] == [CF, WF, LU] + [Origin];
    assert [CF, WF, LU, Origin, Waste] == [CF, WF, LU, Origin] + [Waste];
    assert Order == [CF, WF, LU, Origin, Waste] + [NOVA];
  }

  /** When every normalised value is `c`, the weighted sum is `c` times the
      sum of the weights. */
  lemma {:induction false} WeightedSumUniform(keys: seq<Indicator>, normalized: map<Indicator, real>, w: Weights, c: real)
    requires Complete(normalized)
    requires forall i :: normalized[i] == c
    ensures WeightedSum(keys, normalized, w) == c * WeightSum(keys, w)
  {
    if |keys| > 0 {
      var init, last := keys[..|keys| - 1], keys[|keys| - 1];
      WeightedSumUniform(init, normalized, w, c);
      assert c * WeightSum(init, w) + c * w.Of(last) == c * (WeightSum(init, w) + w.Of(last));
    }
  }

  /** Two normalised maps that differ only at `i` give weighted sums that
      differ only by `i`'s weighted change, over keys listing `i` once. */
  lemma {:induction false} WeightedSumUpdate(keys: seq<Indicator>, before: map<Indicator, real>,
                                            after: map<Indicator, real>, w: Weights, i: Indicator)
    requires Complete(before) && Complete(after)
    requires forall j :: j != i ==> after[j] == before[j]
    requires Distinct(keys)
    ensures i !in keys ==> WeightedSum(keys, after, w) == WeightedSum(keys, before, w)
    ensures i in keys ==> WeightedSum(keys, after, w) - WeightedSum(keys, before, w)
                          == w.Of(i) * (after[i] - before[i])
  {
    if |keys| > 0 {
      var init, last := keys[..|keys| - 1], keys[|keys| - 1];
      DistinctSplit(keys);
      WeightedSumUpdate(init, before, after, w, i);
      assert keys == init + [last];
      if last == i {
        UpdateStepAtKey(init, before, after, w, i);
      } else {
        UpdateStepElsewhere(init, last, before, after, w);
      }
    }
  }

  /** Dropping the last key keeps the keys distinct, and the last key does
      not occur before it. */
  lemma DistinctSplit(keys: seq<Indicator>)
    requires Distinct(keys) && |keys| > 0
    ensures Distinct(keys[..|keys| - 1])
    ensures keys[|keys| - 1] !in keys[..|keys| - 1]
  {
    var init := keys[..|keys| - 1];
    forall a | 0 <= a < |init| ensures init[a] != keys[|keys| - 1] {
      assert keys[a] != keys[|keys| - 1];
    }
  }

  /** The inductive step of `WeightedSumUpdate` when the appended key is the
      changed one. */
  lemma UpdateStepAtKey(init: seq<Indicator>, before: map<Indicator, real>,
                        after: map<Indicator, real>, w: Weights, i: Indicator)
    requires Complete(before) && Complete(after)
    requires WeightedSum(init, after, w) == WeightedSum(init, before, w)
    ensures WeightedSum(init + [i], after, w) - WeightedSum(init + [i], before, w)
            == w.Of(i) * (after[i] - before[i])
  {
    WeightedSumSnoc(init, i, before, w);
    WeightedSumSnoc(init, i, after, w);
    TermDifference(after[i], before[i], w.Of(i));
  }

  /** The inductive step of `WeightedSumUpdate` when the appended key is
      another, unchanged one. */
  lemma UpdateStepElsewhere(init: seq<Indicator>, last: Indicator, before: map<Indicator, real>,
                            after: map<Indicator, real>, w: Weights)
    requires Complete(before) && Complete(after)
    requires after[last] == before[last]
    ensures WeightedSum(init + [last], after, w) - WeightedSum(init + [last], before, w)
            == WeightedSum(init, after, w) - WeightedSum(init, before, w)
  {
    WeightedSumSnoc(init, last, before, w);
    WeightedSumSnoc(init, last, after, w);
  }

  /** The change of a weighted term is the weight times the change of the value. */
  lemma TermDifference(a: real, b: real, weight: real)
    ensures a * weight - b * weight == weight * (a - b)
  {
  }

  /** A score result whose normalised values all equal `c` has composite
      `c` times the total weight. */
  lemma ResultUniform(r: ScoreResult, w: Weights, c: real)
    requires Complete(r.normalized)
    requires r.composite == WeightedSum(Order, r.normalized, w)
    requires forall i :: r.normalized[i] == c
    ensures r.composite == c * w.Total()
  {
    WeightedSumUniform(Order, r.normalized, w, c);
    WeightedSumInOrder(r.normalized, w);
  }

  /** When every normalised value is `c`, the composite is `c` times the
      total weight. */
  lemma ScoreUniform(ranges: Ranges, w: Weights, p: Product, c: real)
    requires forall i :: NormalizedValue(ranges, p, i) == c
    ensures Score(ranges, w, p).composite == c * w.Total()
  {
    ResultUniform(Score(ranges, w, p), w, c);
  }

  /** Every indicator at its best value: each normalised value is 100 and,
      with weights summing to 1, so is the composite. */
  lemma ScoreAtMinimum(ranges: Ranges, w: Weights)
    requires ranges.Proper()
    requires w.Total() == 1.0
    ensures forall i :: Score(ranges, w, ranges.Minimum()).normalized[i] == 100.0
    ensures Score(ranges, w, ranges.Minimum()).composite == 100.0
  {
    forall i ensures NormalizedValue(ranges, ranges.Minimum(), i) == 100.0 {
      Landmarks(ranges.Of(i).lo, ranges.Of(i).hi);
    }
    ScoreUniform(ranges, w, ranges.Minimum(), 100.0);
  }

  /** Every indicator at its worst value: each normalised value and the
      composite are 0. */
  lemma ScoreAtMaximum(ranges: Ranges, w: Weights)
    requires ranges.Proper()
    requires w.Total() == 1.0
    ensures forall i :: Score(ranges, w, ranges.Maximum()).normalized[i] == 0.0
    ensures Score(ranges, w, ranges.Maximum()).composite == 0.0
  {
    forall i ensures NormalizedValue(ranges, ranges.Maximum(), i) == 0.0 {
      Landmarks(ranges.Of(i).lo, ranges.Of(i).hi);
    }
    ScoreUniform(ranges, w, ranges.Maximum(), 0.0);
  }

  /** Every indicator at the middle of its range: each normalised value and
      the composite are 50. */
  lemma ScoreAtMidpoint(ranges: Ranges, w: Weights)
    requires ranges.Proper()
    requires w.Total() == 1.0
    ensures forall i :: Score(ranges, w, ranges.Midpoint()).normalized[i] == 50.0
    ensures Score(ranges, w, ranges.Midpoint()).composite == 50.0
  {
    forall i ensures NormalizedValue(ranges, ranges.Midpoint(), i) == 50.0 {
      Landmarks(ranges.Of(i).lo, ranges.Of(i).hi);
    }
    ScoreUniform(ranges, w, ranges.Midpoint(), 50.0);
  }

  /** The composite is the weighted sum of the normalised map, in order. */
  lemma CompositeIsWeightedSum(ranges: Ranges, w: Weights, p: Product)
    ensures Complete(Score(ranges, w, p).normalized)
    ensures Score(ranges, w, p).composite == WeightedSum(Order, Score(ranges, w, p).normalized, w)
  {
  }

  /** The composite written out as the six-term linear combination of the
      normalised values. */
  lemma ScoreExpanded(ranges: Ranges, w: Weights, p: Product)
    ensures var n := Score(ranges, w, p).normalized;
            Score(ranges, w, p).composite
            == n[CF] * w.cf + n[WF] * w.wf + n[LU] * w.lu + n[Origin] * w.origin + n[Waste] * w.waste + n[NOVA] * w.nova
  {
    CompositeIsWeightedSum(ranges, w, p);
    WeightedSumInOrder(Score(ranges, w, p).normalized, w);
  }

  /** Changing one raw value leaves the other five normalised values as they were. */
  lemma OtherEntriesUnchanged(ranges: Ranges, w: Weights, p: Product, i: Indicator, v: real)
    ensures forall j :: j != i ==> Score(ranges, w, p.With(i, v)).normalized[j] == Score(ranges, w, p).normalized[j]
  {
  }

  /** The composite is linear in each normalised value: two score results
      whose normalised maps agree except at `i` have composites differing by
      `i`'s weight times the change at `i`. */
  lemma CompositeChange(after: ScoreResult, before: ScoreResult, w: Weights, i: Indicator)
    requires Complete(after.normalized) && Complete(before.normalized)
    requires after.composite == WeightedSum(Order, after.normalized, w)
    requires before.composite == WeightedSum(Order, before.normalized, w)
    requires forall j :: j != i ==> after.normalized[j] == before.normalized[j]
    ensures after.composite - before.composite == w.Of(i) * (after.normalized[i] - before.normalized[i])
  {
    OrderListsEveryIndicator(i);
    OrderIsDistinct();
    WeightedSumUpdate(Order, before.normalized, after.normalized, w, i);
  }

  lemma NonNegativeProduct(a: real, b: real)
    requires a >= 0.0 && b >= 0.0
    ensures a * b >= 0.0
  {
  }

  /** A weighted sum of values in [0, 100] with non-negative weights lies
      between 0 and 100 times the sum of the weights. */
  lemma {:induction false} WeightedSumBounds(keys: seq<Indicator>, normalized: map<Indicator, real>, w: Weights)
    requires Complete(normalized)
    requires forall i :: 0.0 <= normalized[i] <= 100.0
    requires w.NonNegative()
    ensures 0.0 <= WeightedSum(keys, normalized, w) <= 100.0 * WeightSum(keys, w)
  {
    if |keys| > 0 {
      var init, last := keys[..|keys| - 1], keys[|keys| - 1];
      WeightedSumBounds(init, normalized, w);
      var n, weight := normalized[last], w.Of(last);
      NonNegativeProduct(n, weight);
      NonNegativeProduct(100.0 - n, weight);
    }
  }

  /** For a product inside every proper range, with non-negative weights
      summing to 1, the composite lies in [0, 100]. */
  lemma ScoreWithinNominalRange(ranges: Ranges, w: Weights, p: Product)
    requires ranges.Proper() && ranges.Contains(p)
    requires w.NonNegative() && w.Total() == 1.0
    ensures 0.0 <= Score(ranges, w, p).composite <= 100.0
  {
    forall i ensures 0.0 <= Score(ranges, w, p).normalized[i] <= 100.0 {
      NoClamping(p.Value(i), ranges.Of(i).lo, ranges.Of(i).hi);
    }
    CompositeBounds(Score(ranges, w, p), w);
  }

  /** A score result whose normalised values lie in [0, 100], combined with
      non-negative weights summing to 1, has a composite in [0, 100]. */
  lemma CompositeBounds(r: ScoreResult, w: Weights)
    requires Complete(r.normalized)
    requires r.composite == WeightedSum(Order, r.normalized, w)
    requires forall i :: 0.0 <= r.normalized[i] <= 100.0
    requires w.NonNegative() && w.Total() == 1.0
    ensures 0.0 <= r.composite <= 100.0
  {
    WeightedSumBounds(Order, r.normalized, w);
    WeightedSumInOrder(r.normalized, w);
  }
}
