/** Classification of a composite score into five tiers, each shown with a
    coloured marker. The bands are half-open: a score exactly on a threshold
    belongs to the higher tier. Scores outside [0, 100] are classified like
    any other (above 100 is Excelente, below 0 is Bajo). */
module Classifier {

  /** The five tiers, best first. */
  datatype Tier = Excelente | MuyBueno | Bueno | Moderado | Bajo

  /** The coloured marker shown next to a tier. */
  datatype Marker = Green | Yellow | Orange | Red

  /** A tier together with its marker. */
  datatype Classification = Classification(tier: Tier, marker: Marker)

  /** Position of a tier, 0 for the lowest and 4 for the highest. */
  function Rank(t: Tier): (r: nat) {
    match t
    case Bajo => 0
    case Moderado => 1
    case Bueno => 2
    case MuyBueno => 3
    case Excelente => 4
  }

  /** The display label of a tier. */
  function Label(t: Tier): (r: string) {
    match t
    case Excelente => "Excelente"
    case MuyBueno => "Muy Bueno"
    case Bueno => "Bueno"
    case Moderado => "Moderado"
    case Bajo => "Bajo"
  }

  /** The marker of a tier: both top tiers are green. */
  function MarkerOf(t: Tier): (m: Marker) {
    match t
    case Excelente => Green
    case MuyBueno => Green
    case Bueno => Yellow
    case Moderado => Orange
    case Bajo => Red
  }

  /** The score a tier requires; Bajo requires nothing. */
  predicate Reaches(score: real, t: Tier) {
    match t
    case Excelente => score >= 90.0
    case MuyBueno => score >= 80.0
    case Bueno => score >= 70.0
    case Moderado => score >= 60.0
    case Bajo => true
  }

  /** Thresholds are checked from the highest down; the first one met wins. */
  function Classify(score: real): (c: Classification)
    ensures Reaches(score, c.tier)
    ensures forall t :: Rank(t) > Rank(c.tier) ==> !Reaches(score, t)
    ensures c.marker == MarkerOf(c.tier)
  {
    if score >= 90.0 then Classification(Excelente, Green)
    else if score >= 80.0 then Classification(MuyBueno, Green)
    else if score >= 70.0 then Classification(Bueno, Yellow)
    else if score >= 60.0 then Classification(Moderado, Orange)
    else Classification(Bajo, Red)
  }

  /** Reaching a tier implies reaching every lower one. */
  lemma ReachesDownwardClosed(score: real, t: Tier, u: Tier)
    requires Rank(u) <= Rank(t)
    requires Reaches(score, t)
    ensures Reaches(score, u)
  {
  }

  /** The tier is the highest one reached: a tier is reached exactly when it
      ranks no higher than the classification. */
  lemma {:induction false} ClassifyIsHighestReached(score: real, t: Tier)
    ensures Reaches(score, t) <==> Rank(t) <= Rank(Classify(score).tier)
  {
    var c := Classify(score);
    if Rank(t) <= Rank(c.tier) {
      ReachesDownwardClosed(score, c.tier, t);
    }
  }

  /** A higher score never gets a lower tier. */
  lemma ClassifyMonotone(s1: real, s2: real)
    requires s1 <= s2
    ensures Rank(Classify(s1).tier) <= Rank(Classify(s2).tier)
  {
    var t := Classify(s1).tier;
    ClassifyIsHighestReached(s2, t);
  }

  /** The band table: each tier is a half-open interval of scores. */
  lemma ClassifyBands(score: real)
    ensures Classify(score).tier == Excelente <==> score >= 90.0
    ensures Classify(score).tier == MuyBueno <==> 80.0 <= score < 90.0
    ensures Classify(score).tier == Bueno <==> 70.0 <= score < 80.0
    ensures Classify(score).tier == Moderado <==> 60.0 <= score < 70.0
    ensures Classify(score).tier == Bajo <==> score < 60.0
  {
    ClassifyIsHighestReached(score, Excelente);
    ClassifyIsHighestReached(score, MuyBueno);
    ClassifyIsHighestReached(score, Bueno);
    ClassifyIsHighestReached(score, Moderado);
  }

  /** The marker is green exactly from 80 upwards and red exactly below 60. */
  lemma MarkerBands(score: real)
    ensures Classify(score).marker == Green <==> score >= 80.0
    ensures Classify(score).marker == Yellow <==> 70.0 <= score < 80.0
    ensures Classify(score).marker == Orange <==> 60.0 <= score < 70.0
    ensures Classify(score).marker == Red <==> score < 60.0
  {
    ClassifyBands(score);
  }

  /** Distinct tiers have distinct labels, so a label identifies its tier. */
  lemma LabelsDistinct(t: Tier, u: Tier)
    ensures Label(t) == Label(u) <==> t == u
  {
  }

  /** Boundary cases: thresholds belong to the higher tier, and scores
      outside [0, 100] are not rejected. */
  lemma ClassifyBoundaries()
    ensures Classify(90.0) == Classification(Excelente, Green)
    ensures Classify(89.99) == Classification(MuyBueno, Green)
    ensures Classify(80.0) == Classification(MuyBueno, Green)
    ensures Classify(70.0) == Classification(Bueno, Yellow)
    ensures Classify(60.0) == Classification(Moderado, Orange)
    ensures Classify(59.99) == Classification(Bajo, Red)
    ensures Classify(105.0).tier == Excelente
    ensures Classify(-10.0).tier == Bajo
  {
  }
}
