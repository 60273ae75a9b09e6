/**
 * The net-value gauge: benefit minus weighted friction, risk and work
 * intensification, and the four-way label shown under the bars.
 */
module NetValue {

  /** Weights of the three subtractive signal families. They are independent
      costs, not a probability partition, so they need not sum to 1. */
  const FrictionWeight: real := 0.35
  const RiskWeight: real := 0.3
  const IntensificationWeight: real := 0.35

  /** The four signal families of one cycle (the `net_value` record). */
  datatype Families = Families(benefit: real, friction: real, risk: real, intensification: real)

  datatype Label = Negative | Uncertain | Marginal | Positive

  /** Position of a label on the scale Negative < Uncertain < Marginal < Positive. */
  function Rank(l: Label): nat
  {
    match l
    case Negative => 0
    case Uncertain => 1
    case Marginal => 2
    case Positive => 3
  }

  /** The net score. It is not clamped: it may be negative (net harm). */
  function Score(s: Families): (net: real)
    ensures net + s.friction * 0.35 + s.risk * 0.3 + s.intensification * 0.35 == s.benefit
    ensures 0.0 <= s.friction && 0.0 <= s.risk && 0.0 <= s.intensification ==> net <= s.benefit
  {
    s.benefit - s.friction * FrictionWeight - s.risk * RiskWeight - s.intensification * IntensificationWeight
  }

  /** The label for a net score: a total, exclusive partition of the reals. */
  function LabelOf(net: real): (l: Label)
    ensures l == Positive <==> net > 0.15
    ensures l == Marginal <==> 0.0 < net <= 0.15
    ensures l == Uncertain <==> -0.1 < net <= 0.0
    ensures l == Negative <==> net <= -0.1
  {
    if net > 0.15 then Positive
    else if net > 0.0 then Marginal
    else if net > -0.1 then Uncertain
    else Negative
  }

  /** The label the gauge shows for one cycle's signals. */
  function GaugeLabel(s: Families): (l: Label)
    ensures l == LabelOf(Score(s))
    ensures l == Positive <==> s.benefit > s.friction * 0.35 + s.risk * 0.3 + s.intensification * 0.35 + 0.15
  {
    LabelOf(Score(s))
  }

  /** Each family moves the score linearly: one unit of benefit adds one unit,
      one unit of friction, risk or intensification removes its weight. */
  lemma ScoreSensitivity(s: Families, db: real, df: real, dr: real, di: real)
    ensures Score(Families(s.benefit + db, s.friction + df, s.risk + dr, s.intensification + di))
         == Score(s) + db - df * 0.35 - dr * 0.3 - di * 0.35
  {
  }

  /** With every family in [0, 1] the score lies in [-1, 1]; both ends are reached. */
  lemma ScoreRange(s: Families)
    requires 0.0 <= s.benefit <= 1.0 && 0.0 <= s.friction <= 1.0
    requires 0.0 <= s.risk <= 1.0 && 0.0 <= s.intensification <= 1.0
    ensures -1.0 <= Score(s) <= 1.0
    ensures Score(Families(0.0, 1.0, 1.0, 1.0)) == -1.0
    ensures Score(Families(1.0, 0.0, 0.0, 0.0)) == 1.0
  {
  }

  /** The label's rank never decreases as the net score grows. */
  lemma LabelMonotone(x: real, y: real)
    requires x <= y
    ensures Rank(LabelOf(x)) <= Rank(LabelOf(y))
  {
  }

  /** More benefit, the other three held fixed, never lowers the label. */
  lemma MoreBenefitNeverLowersLabel(s: Families, benefit: real)
    requires s.benefit <= benefit
    ensures Rank(GaugeLabel(s)) <= Rank(GaugeLabel(s.(benefit := benefit)))
  {
    ScoreSensitivity(s, benefit - s.benefit, 0.0, 0.0, 0.0);
    LabelMonotone(Score(s), Score(s.(benefit := benefit)));
  }

  /** More friction, risk or intensification, benefit held fixed, never raises the label. */
  lemma MoreCostNeverRaisesLabel(s: Families, friction: real, risk: real, intensification: real)
    requires s.friction <= friction && s.risk <= risk && s.intensification <= intensification
    ensures Rank(GaugeLabel(Families(s.benefit, friction, risk, intensification))) <= Rank(GaugeLabel(s))
  {
    var t := Families(s.benefit, friction, risk, intensification);
    ScoreSensitivity(s, 0.0, friction - s.friction, risk - s.risk, intensification - s.intensification);
    LabelMonotone(Score(t), Score(s));
  }

  /** The cycle-1 signals of the simulated baseline score 0.1775, "Positive". */
  lemma Cycle1Gauge()
    ensures Score(Families(0.58, 0.45, 0.35, 0.40)) == 0.1775
    ensures GaugeLabel(Families(0.58, 0.45, 0.35, 0.40)) == Positive
  {
  }

  /** Scores below zero are kept, and labelled by the same partition. */
  lemma NegativeScoresAreLabelled()
    ensures Score(Families(0.2, 0.6, 0.5, 0.4)) == -0.3
    ensures GaugeLabel(Families(0.2, 0.6, 0.5, 0.4)) == Negative
    ensures GaugeLabel(Families(0.25, 0.4, 0.2, 0.2)) == Uncertain
  {
  }
}
