/** The six environmental indicators of a food product, the per-indicator
    reference ranges used for normalisation and the per-indicator weights of
    a scoring scenario. Each record has one field per indicator, so the
    "exactly six indicators" shape of the source's dictionaries holds by
    construction. */
module Indicators {

  /** Carbon footprint, water footprint, land use, origin, waste
      percentage and processing level (NOVA group). */
  datatype Indicator = CF | WF | LU | Origin | Waste | NOVA

  /** The indicators in the order the source's dictionaries list them; the
      refactored scorer sums in this order. */
  const Order: seq<Indicator> := [CF, WF, LU, Origin, Waste, NOVA]

  /** No indicator occurs twice in `keys` */
  predicate Distinct(keys: seq<Indicator>) {
    forall a, b :: 0 <= a < b < |keys| ==> keys[a] != keys[b]
  }

  /** Every indicator occurs in `Order`. */
  lemma OrderListsEveryIndicator(i: Indicator)
    ensures i in Order
  {
  }

  /** No indicator occurs in `Order` twice. */
  lemma OrderIsDistinct()
    ensures Distinct(Order)
  {
  }

  /** Raw measured values of one product; lower is better for every one. */
  datatype Product = Product(cf: real, wf: real, lu: real, origin: real, waste: real, nova: real) {

    /** The raw value of one indicator */
    function Value(i: Indicator): (v: real) {
      match i
      case CF => cf
      case WF => wf
      case LU => lu
      case Origin => origin
      case Waste => waste
      case NOVA => nova
    }

    /** This product with one indicator replaced and the others kept */
    function With(i: Indicator, v: real): (p: Product)
      ensures p.Value(i) == v
      ensures forall j :: j != i ==> p.Value(j) == Value(j)
    {
      match i
      case CF => this.(cf := v)
      case WF => this.(wf := v)
      case LU => this.(lu := v)
      case Origin => this.(origin := v)
      case Waste => this.(waste := v)
      case NOVA => this.(nova := v)
    }
  }

  /** A reference range: `lo` is the best observed value, `hi` the worst. */
  datatype Range = Range(lo: real, hi: real)

  /** One reference range per indicator. */
  datatype Ranges = Ranges(cf: Range, wf: Range, lu: Range, origin: Range, waste: Range, nova: Range) {

    /** The range of one indicator */
    function Of(i: Indicator): (r: Range) {
      match i
      case CF => cf
      case WF => wf
      case LU => lu
      case Origin => origin
      case Waste => waste
      case NOVA => nova
    }

    /** Every range is non-degenerate, with its best value below its worst. */
    predicate Proper() {
      forall i :: Of(i).lo < Of(i).hi
    }

    /** The product sitting at the best end of every range */
    function Minimum(): (p: Product)
      ensures forall i :: p.Value(i) == Of(i).lo
    {
      Product(cf.lo, wf.lo, lu.lo, origin.lo, waste.lo, nova.lo)
    }

    /** The product sitting at the worst end of every range */
    function Maximum(): (p: Product)
      ensures forall i :: p.Value(i) == Of(i).hi
    {
      Product(cf.hi, wf.hi, lu.hi, origin.hi, waste.hi, nova.hi)
    }

    /** The product sitting at the middle of every range */
    function Midpoint(): (p: Product)
      ensures forall i :: p.Value(i) == (Of(i).lo + Of(i).hi) / 2.0
    {
      Product((cf.lo + cf.hi) / 2.0, (wf.lo + wf.hi) / 2.0, (lu.lo + lu.hi) / 2.0,
              (origin.lo + origin.hi) / 2.0, (waste.lo + waste.hi) / 2.0, (nova.lo + nova.hi) / 2.0)
    }

    /** The product lies inside every range */
    predicate Contains(p: Product) {
      forall i :: Of(i).lo <= p.Value(i) <= Of(i).hi
    }
  }

  /** One weight per indicator: a scoring scenario. */
  datatype Weights = Weights(cf: real, wf: real, lu: real, origin: real, waste: real, nova: real) {

    /** The weight of one indicator */
    function Of(i: Indicator): (v: real) {
      match i
      case CF => cf
      case WF => wf
      case LU => lu
      case Origin => origin
      case Waste => waste
      case NOVA => nova
    }

    /** The sum of the six weights */
    function Total(): (t: real) {
      cf + wf + lu + origin + waste + nova
    }

    /** No weight is negative */
    predicate NonNegative() {
      forall i :: Of(i) >= 0.0
    }
  }
}
