/** The inverse normaliser: a raw indicator value, where lower is better, is
    mapped to a "goodness" score against a reference range [lo, hi]. The map
    is affine and is NOT clamped: values below `lo` score above 100 and
    values above `hi` score below 0. A degenerate range (lo == hi) scores 50.
 */
module Normalizer {

  /** Inverse linear scaling of `value` against [lo, hi]. */
  function NormalizeInverse(value: real, lo: real, hi: real): (r: real)
  {
    if hi == lo then 50.0
    else 100.0 - ((value - lo) / (hi - lo) * 100.0)
  }

  /** The best end of the range scores 100, the worst 0 and the middle 50. */
  lemma Landmarks(lo: real, hi: real)
    requires lo != hi
    ensures NormalizeInverse(lo, lo, hi) == 100.0
    ensures NormalizeInverse(hi, lo, hi) == 0.0
    ensures NormalizeInverse((lo + hi) / 2.0, lo, hi) == 50.0
  {
    FractionOfRange(lo, lo, hi);
    FractionOfRange(hi, lo, hi);
    FractionOfRange((lo + hi) / 2.0, lo, hi);
  }

  /** The raw value whose normalised score is `score` on a non-degenerate
      range: the inverse of `NormalizeInverse`. */
  function Denormalize(score: real, lo: real, hi: real): (r: real)
    requires lo != hi
  {
    lo + (100.0 - score) / 100.0 * (hi - lo)
  }

  /** The fraction of the range covered by `value`, scaled back by the
      range's width, is the offset of `value` from `lo`. */
  lemma FractionOfRange(value: real, lo: real, hi: real)
    requires lo != hi
    ensures (value - lo) / (hi - lo) * (hi - lo) == value - lo
    ensures value == lo ==> (value - lo) / (hi - lo) == 0.0
    ensures value == hi ==> (value - lo) / (hi - lo) == 1.0
    ensures value == (lo + hi) / 2.0 ==> (value - lo) / (hi - lo) == 0.5
  {
  }

  /** Dividing by a positive width keeps the sign and the order. */
  lemma QuotientOrder(a: real, b: real, d: real)
    requires d > 0.0
    ensures a < b <==> a / d < b / d
    ensures a < 0.0 <==> a / d < 0.0
    ensures a > 0.0 <==> a / d > 0.0
  {
    assert a / d * d == a;
    assert b / d * d == b;
  }

  /** Normalising a denormalised score gives the score back. */
  lemma NormalizeDenormalize(score: real, lo: real, hi: real)
    requires lo != hi
    ensures NormalizeInverse(Denormalize(score, lo, hi), lo, hi) == score
  {
  }

  /** Denormalising a normalised value gives the value back, so on a
      non-degenerate range (either orientation) the normaliser is a
      bijection with inverse `Denormalize`. */
  lemma DenormalizeNormalize(value: real, lo: real, hi: real)
    requires lo != hi
    ensures Denormalize(NormalizeInverse(value, lo, hi), lo, hi) == value
  {
    FractionOfRange(value, lo, hi);
  }

  /** A degenerate range gives 50 whatever the value. */
  lemma DegenerateRange(value: real, bound: real)
    ensures NormalizeInverse(value, bound, bound) == 50.0
  {
  }

  /** On a proper range the score is strictly decreasing in the value. */
  lemma StrictlyDecreasing(v1: real, v2: real, lo: real, hi: real)
    requires lo < hi
    requires v1 < v2
    ensures NormalizeInverse(v1, lo, hi) > NormalizeInverse(v2, lo, hi)
  {
    QuotientOrder(v1 - lo, v2 - lo, hi - lo);
  }

  /** Shifting the value by `d` shifts the score by -100·d/(hi-lo). */
  lemma Affine(value: real, d: real, lo: real, hi: real)
    requires lo != hi
    ensures NormalizeInverse(value + d, lo, hi)
            == NormalizeInverse(value, lo, hi) - d * 100.0 / (hi - lo)
  {
  }

  /** No clamping: on a proper range the score lies in [0, 100] exactly when
      the value lies in [lo, hi], exceeds 100 exactly below `lo`, and is
      negative exactly above `hi`. */
  lemma NoClamping(value: real, lo: real, hi: real)
    requires lo < hi
    ensures value < lo <==> NormalizeInverse(value, lo, hi) > 100.0
    ensures value > hi <==> NormalizeInverse(value, lo, hi) < 0.0
    ensures lo <= value <= hi <==> 0.0 <= NormalizeInverse(value, lo, hi) <= 100.0
  {
    QuotientOrder(value - lo, hi - lo, hi - lo);
    FractionOfRange(hi, lo, hi);
  }

  /** Worked values: the ends, quarters and midpoint of (0, 100); the
      midpoint of (0.5, 2.5); the ends and midpoint of (0.3, 60); the ends of
      (131, 18900); the ends of (1, 4) and the value 2 in it, exactly 200/3;
      extrapolation on both sides of (10, 20); a negative range; and the
      degenerate (10, 10, 10) giving 50. */
  lemma Examples()
    ensures NormalizeInverse(50.0, 0.0, 100.0) == 50.0
    ensures NormalizeInverse(0.0, 0.0, 100.0) == 100.0
    ensures NormalizeInverse(100.0, 0.0, 100.0) == 0.0
    ensures NormalizeInverse(25.0, 0.0, 100.0) == 75.0
    ensures NormalizeInverse(75.0, 0.0, 100.0) == 25.0
    ensures NormalizeInverse(1.5, 0.5, 2.5) == 50.0
    ensures NormalizeInverse(0.3, 0.3, 60.0) == 100.0
    ensures NormalizeInverse(60.0, 0.3, 60.0) == 0.0
    ensures NormalizeInverse(30.15, 0.3, 60.0) == 50.0
    ensures NormalizeInverse(131.0, 131.0, 18900.0) == 100.0
    ensures NormalizeInverse(18900.0, 131.0, 18900.0) == 0.0
    ensures NormalizeInverse(1.0, 1.0, 4.0) == 100.0
    ensures NormalizeInverse(4.0, 1.0, 4.0) == 0.0
    ensures NormalizeInverse(0.0, 10.0, 20.0) == 200.0
    ensures NormalizeInverse(30.0, 10.0, 20.0) == -100.0
    ensures NormalizeInverse(2.0, 1.0, 4.0) == 200.0 / 3.0
    ensures NormalizeInverse(-5.0, -10.0, 0.0) == 50.0
    ensures NormalizeInverse(10.0, 10.0, 10.0) == 50.0
  {
  }
}
