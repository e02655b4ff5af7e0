/** The two scenario weight tables. Both copies of the scorer use the same
    literals: A is the original system (waste 25%), B shifts weight towards
    waste (30%) to reflect that wasted food wastes every embedded resource. */
module Scenarios {
  import opened Indicators

  const WeightsA: Weights := Weights(0.15, 0.15, 0.10, 0.20, 0.25, 0.15)

  const WeightsB: Weights := Weights(0.14, 0.14, 0.09, 0.18, 0.30, 0.15)

  /** Each table is a convex combination: non-negative, summing to exactly 1,
      and the two differ only in how much weight they give each indicator. */
  lemma WeightTablesSumToOne()
    ensures WeightsA.Total() == 1.0 && WeightsA.NonNegative()
    ensures WeightsB.Total() == 1.0 && WeightsB.NonNegative()
    ensures WeightsB.Of(Waste) - WeightsA.Of(Waste) == 0.05
  {
  }
}
