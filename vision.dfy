/** The probabilities of gaining at least one, two or three lines of vision
    after surgery, without and with pre-operative anti-VEGF. */
module Vision {
  import opened Numeric
  import opened Categories
  import opened Hypertension

  /** The three keys of the result dictionaries: "≥1 línea", "≥2 líneas"
      and "≥3 líneas". */
  datatype Tier = AtLeastOneLine | AtLeastTwoLines | AtLeastThreeLines

  const AllTiers: set<Tier> := {AtLeastOneLine, AtLeastTwoLines, AtLeastThreeLines}

  /** Share of the one-line probability kept for two and three lines. */
  const TwoLineFactor: real := 0.8
  const ThreeLineFactor: real := 0.5
  /** What pre-operative anti-VEGF adds to every tier. */
  const AntiVegfGain: real := 0.08

  /** The starting one-line probability: the worse the acuity (the smaller
      the Snellen fraction), the lower the chance of gaining a line. */
  function StartProbability(fraction: real): (r: real)
    ensures fraction <= 0.05 ==> r == 0.4
    ensures 0.05 < fraction <= 0.1 ==> r == 0.5
    ensures 0.1 < fraction <= 0.5 ==> r == 0.6
    ensures 0.5 < fraction ==> r == 0.7
  {
    if fraction <= 0.05 then 0.4
    else if fraction <= 0.1 then 0.5
    else if fraction <= 0.5 then 0.6
    else 0.7
  }

  /** What the detachment takes off: 0.05 for a tractional or mixed one and
      a further 0.1 when the macula is off. */
  function DetachmentPenalty(d: Detachment): (r: real)
    ensures 0.0 <= r <= 0.15
    ensures d == NoDetachment ==> r == 0.0
  {
    (if Tractional(d) || Mixed(d) then 0.05 else 0.0) +
    (if MaculaOff(d) then 0.1 else 0.0)
  }

  /** What hypertension takes off; an elevated, normal or invalid reading
      takes off nothing. */
  function HtaPenalty(h: HtaStage): (r: real)
    ensures 0.0 <= r <= 0.1
    ensures Severity(h) <= Severity(Elevated) ==> r == 0.0
  {
    match h
    case Stage1 => 0.03
    case Stage2 => 0.05
    case Crisis => 0.1
    case _ => 0.0
  }

  /** The one-line probability: the start less both penalties, clamped to
      [0, 1]. The penalties never exceed 0.25 and the start is at least 0.4,
      so the clamp never changes the value. */
  function OneLine(fraction: real, d: Detachment, h: HtaStage): (r: real)
    ensures r == StartProbability(fraction) - DetachmentPenalty(d) - HtaPenalty(h)
    ensures 0.15 <= r <= 0.7
  {
    Clamp01(StartProbability(fraction) - DetachmentPenalty(d) - HtaPenalty(h))
  }

  /** The source's `calcular_prob_mejoria_visual`: the two- and three-line
      probabilities are fixed shares of the one-line probability, so the three
      are ordered. */
  function Baseline(fraction: real, d: Detachment, h: HtaStage): (m: map<Tier, real>)
    ensures m.Keys == AllTiers
    ensures m[AtLeastOneLine] == StartProbability(fraction) - DetachmentPenalty(d) - HtaPenalty(h)
    ensures m[AtLeastTwoLines] == TwoLineFactor * m[AtLeastOneLine]
    ensures m[AtLeastThreeLines] == ThreeLineFactor * m[AtLeastOneLine]
    ensures 0.0 < m[AtLeastThreeLines] < m[AtLeastTwoLines] < m[AtLeastOneLine] <= 0.7
  {
    var one := OneLine(fraction, d, h);
    map[AtLeastOneLine := one,
        AtLeastTwoLines := Clamp01(one * TwoLineFactor),
        AtLeastThreeLines := Clamp01(one * ThreeLineFactor)]
  }

  /** The step-by-step computation of the source: start from the acuity band,
      subtract each penalty in turn, clamp, and build the dictionary. */
  method ComputeBaseline(fraction: real, d: Detachment, h: HtaStage) returns (m: map<Tier, real>)
    ensures m == Baseline(fraction, d, h)
  {
    var base1 := 0.0;
    if fraction <= 0.05 {
      base1 := 0.4;
    } else if fraction <= 0.1 {
      base1 := 0.5;
    } else if fraction <= 0.5 {
      base1 := 0.6;
    } else {
      base1 := 0.7;
    }
    assert base1 == StartProbability(fraction);

    if Tractional(d) || Mixed(d) {
      base1 := base1 - 0.05;
    }
    if MaculaOff(d) {
      base1 := base1 - 0.1;
    }
    assert base1 == StartProbability(fraction) - DetachmentPenalty(d);

    if h == Stage1 {
      base1 := base1 - 0.03;
    } else if h == Stage2 {
      base1 := base1 - 0.05;
    } else if h == Crisis {
      base1 := base1 - 0.1;
    }

    assert base1 == StartProbability(fraction) - DetachmentPenalty(d) - HtaPenalty(h);
    base1 := Min(Max(base1, 0.0), 1.0);
    var base2 := base1 * 0.8;
    var base3 := base1 * 0.5;
    m := map[AtLeastOneLine := base1,
             AtLeastTwoLines := Min(Max(base2, 0.0), 1.0),
             AtLeastThreeLines := Min(Max(base3, 0.0), 1.0)];
    BaselineFromOneLine(fraction, d, h, base1);
  }

  /** The dictionary is determined by its one-line entry. */
  lemma BaselineFromOneLine(fraction: real, d: Detachment, h: HtaStage, one: real)
    requires one == OneLine(fraction, d, h)
    ensures Baseline(fraction, d, h) ==
              map[AtLeastOneLine := one,
                  AtLeastTwoLines := Min(Max(one * 0.8, 0.0), 1.0),
                  AtLeastThreeLines := Min(Max(one * 0.5, 0.0), 1.0)]
  {
  }

  /** The anti-VEGF adjustment of a dictionary of probabilities: every entry
      gains 0.08, clamped to [0, 1]. */
  function AntiVegfAdjusted(base: map<Tier, real>): (m: map<Tier, real>)
    ensures m.Keys == base.Keys
    ensures forall k :: k in base ==> 0.0 <= m[k] <= 1.0
    ensures forall k :: k in base && base[k] <= 1.0 ==> base[k] <= m[k]
    ensures forall k :: k in base && -AntiVegfGain <= base[k] <= 1.0 - AntiVegfGain ==>
              m[k] == base[k] + AntiVegfGain
    ensures forall k :: k in base && base[k] + AntiVegfGain > 1.0 ==> m[k] == 1.0
    ensures forall k :: k in base && base[k] + AntiVegfGain < 0.0 ==> m[k] == 0.0
  {
    map k | k in base :: Clamp01(base[k] + AntiVegfGain)
  }

  /** The source's loop over the dictionary's entries, adding one adjusted
      entry per step. */
  method AddAntiVegfGain(base: map<Tier, real>) returns (m: map<Tier, real>)
    ensures m == AntiVegfAdjusted(base)
  {
    m := map[];
    var pending := base.Keys;
    while pending != {}
      invariant pending <= base.Keys
      invariant m.Keys == base.Keys - pending
      invariant forall k :: k in m ==> m[k] == Clamp01(base[k] + AntiVegfGain)
      decreases |pending|
    {
      var k :| k in pending;
      var improved := base[k] + 0.08;
      m := m[k := Min(Max(improved, 0.0), 1.0)];
      pending := pending - {k};
    }
  }

  /** The source's `calcular_prob_mejoria_visual_con_antiVEGF`. Every tier
      gains exactly 0.08 over the baseline (no clamp ever applies, the
      largest value being 0.78) and the tiers stay ordered. */
  function WithAntiVegf(fraction: real, d: Detachment, h: HtaStage): (m: map<Tier, real>)
    ensures m.Keys == AllTiers
    ensures forall k :: k in AllTiers ==> m[k] == Baseline(fraction, d, h)[k] + AntiVegfGain
    ensures m[AtLeastThreeLines] < m[AtLeastTwoLines] < m[AtLeastOneLine] <= 0.78
  {
    AntiVegfAdjusted(Baseline(fraction, d, h))
  }

  method ComputeWithAntiVegf(fraction: real, d: Detachment, h: HtaStage) returns (m: map<Tier, real>)
    ensures m == WithAntiVegf(fraction, d, h)
  {
    var base := ComputeBaseline(fraction, d, h);
    m := AddAntiVegfGain(base);
  }

  // ---------------------------------------------------------------------
  // Properties
  // ---------------------------------------------------------------------

  /** A better acuity never lowers the starting probability. */
  lemma StartProbabilityMonotone(x: real, y: real)
    requires x <= y
    ensures StartProbability(x) <= StartProbability(y)
  {
  }

  /** A more severe hypertension stage never lowers the penalty. */
  lemma HtaPenaltyMonotone(h: HtaStage, h': HtaStage)
    requires Severity(h) <= Severity(h')
    ensures HtaPenalty(h) <= HtaPenalty(h')
  {
  }

  /** Every tier of both dictionaries is monotone in the acuity and
      antitone in the hypertension stage. */
  lemma VisionMonotone(x: real, y: real, d: Detachment, h: HtaStage, h': HtaStage, k: Tier)
    requires x <= y && Severity(h') <= Severity(h)
    ensures Baseline(x, d, h)[k] <= Baseline(y, d, h')[k]
    ensures WithAntiVegf(x, d, h)[k] <= WithAntiVegf(y, d, h')[k]
  {
    OneLineMonotone(x, y, d, h, h');
    var p, q := Baseline(x, d, h)[AtLeastOneLine], Baseline(y, d, h')[AtLeastOneLine];
    ScaleMonotone(TwoLineFactor, p, q);
    ScaleMonotone(ThreeLineFactor, p, q);
  }

  lemma OneLineMonotone(x: real, y: real, d: Detachment, h: HtaStage, h': HtaStage)
    requires x <= y && Severity(h') <= Severity(h)
    ensures OneLine(x, d, h) <= OneLine(y, d, h')
  {
    StartProbabilityMonotone(x, y);
    HtaPenaltyMonotone(h', h);
  }

  /** An off macula costs 0.1 on the one-line probability over the
      corresponding macula-on detachment. */
  lemma MaculaOffCost(fraction: real, h: HtaStage)
    ensures Baseline(fraction, TractionalMaculaOn, h)[AtLeastOneLine] -
            Baseline(fraction, TractionalMaculaOff, h)[AtLeastOneLine] == 0.1
    ensures Baseline(fraction, MixedMaculaOn, h)[AtLeastOneLine] -
            Baseline(fraction, MixedMaculaOff, h)[AtLeastOneLine] == 0.1
  {
  }
}
