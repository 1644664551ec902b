/** The additional-therapy advice chosen from the bleeding risk. */
module Recommendation {
  import opened Numeric
  import opened Categories
  import opened Hypertension
  import opened Risk

  /** The three advice blocks: very high risk (pre-operative PRP and/or
      anti-VEGF), moderate risk (partial PRP or an anti-VEGF dose) and low
      risk (standard surgery). */
  datatype Advice = VeryHighRisk | ModerateRisk | LowRisk

  const VeryHighThreshold: real := 0.6
  const ModerateThreshold: real := 0.3

  /** The source's `recomendar_terapia_adicional`: the three advice blocks
      partition the real line at 0.3 and 0.6, both thresholds strict. */
  function Recommend(bleeding: real): (r: Advice)
    ensures r == VeryHighRisk <==> bleeding > VeryHighThreshold
    ensures r == ModerateRisk <==> ModerateThreshold < bleeding <= VeryHighThreshold
    ensures r == LowRisk <==> bleeding <= ModerateThreshold
  {
    if bleeding > 0.6 then VeryHighRisk
    else if bleeding > 0.3 then ModerateRisk
    else LowRisk
  }

  /** Urgency of an advice block. */
  function Urgency(a: Advice): nat
  {
    match a
    case LowRisk => 0
    case ModerateRisk => 1
    case VeryHighRisk => 2
  }

  /** A higher bleeding risk never gets a less urgent advice. */
  lemma RecommendMonotone(x: real, y: real)
    requires x <= y
    ensures Urgency(Recommend(x)) <= Urgency(Recommend(y))
  {
  }

  /** A patient with no risk factor scores the bleeding base 0.1 and is
      advised standard surgery. */
  lemma NoRiskFactorsLow(p: Patient)
    requires p.age <= AgeThreshold && p.dmYears <= DmThreshold && p.hba1c <= Hba1cThreshold
    requires p.renal == NoRenalFailure && p.detachment == NoDetachment
    requires p.hta == Normal || p.hta == NotValid
    ensures BleedingRisk(p) == 0.1
    ensures Recommend(BleedingRisk(p)) == LowRisk
  {
    assert SlopePoints(Bleeding, p) == 0.0;
    assert Score(Bleeding, p) == 0.1;
  }

  /** A mixed detachment with the macula off and a hypertensive crisis put
      the bleeding sum at 0.34 or more, so the advice is never the low-risk
      one whatever the other inputs. */
  lemma MixedOffCrisisNotLow(p: Patient)
    requires p.detachment == MixedMaculaOff && p.hta == Crisis
    ensures BleedingRisk(p) >= 0.34
    ensures Recommend(BleedingRisk(p)) != LowRisk
  {
    SlopePointsNonNegative(Bleeding, p);
    assert RenalPoints(Bleeding, p.renal) >= 0.0;
    assert DetachmentPoints(Bleeding, p.detachment) == 0.12;
    Clamp01Monotone(0.34, Score(Bleeding, p));
  }

  /** CKD 2, a tractional macula-off detachment and stage 2 hypertension,
      with every continuous input at its threshold, sum to exactly 0.3 in
      exact arithmetic, the edge of the low-risk band. */
  lemma ExactThresholdExample()
    ensures BleedingRisk(Patient(50, 10, 7.0, Ckd2, TractionalMaculaOff, Stage2)) == ModerateThreshold
    ensures Recommend(BleedingRisk(Patient(50, 10, 7.0, Ckd2, TractionalMaculaOff, Stage2))) == LowRisk
  {
  }
}
