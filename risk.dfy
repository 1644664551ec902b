/** The two additive point scores: bleeding risk and reintervention risk.
    Both follow the same rule table (a base value, per-unit slopes above an
    age, diabetes-duration and HbA1c threshold, a bonus per renal stage, per
    detachment flag and per hypertension stage) with different coefficients,
    and both clamp the sum to [0, 1]. */
module Risk {
  import opened Numeric
  import opened Categories
  import opened Hypertension

  /** The inputs every risk score reads. */
  datatype Patient = Patient(
    age: int,         // years
    dmYears: int,     // diabetes duration, years
    hba1c: real,      // percent
    renal: RenalStage,
    detachment: Detachment,
    hta: HtaStage)

  /** The coefficients of one point table. */
  datatype RiskTable = RiskTable(
    base: real,
    perAgeYear: real,        // per year of age above 50
    perDmYear: real,         // per year of diabetes above 10
    perHba1cPoint: real,     // per HbA1c point above 7
    ckd1: real, ckd2: real, ckd3: real, ckd4: real, ckd5: real,
    tractional: real, mixed: real, maculaOff: real,
    elevated: real, stage1: real, stage2: real, crisis: real)

  const AgeThreshold: int := 50
  const DmThreshold: int := 10
  const Hba1cThreshold: real := 7.0

  /** `calcular_riesgo_sangrado`'s coefficients. */
  const Bleeding: RiskTable := RiskTable(
    0.1, 0.004, 0.003, 0.02,
    0.01, 0.02, 0.03, 0.06, 0.10,
    0.05, 0.07, 0.05,
    0.02, 0.05, 0.08, 0.12)

  /** `calcular_riesgo_reintervencion`'s coefficients. */
  const Reintervention: RiskTable := RiskTable(
    0.05, 0.002, 0.002, 0.015,
    0.005, 0.01, 0.02, 0.04, 0.08,
    0.04, 0.06, 0.04,
    0.02, 0.04, 0.07, 0.10)

  /** Every coefficient is non-negative. */
  predicate NonNegative(t: RiskTable)
  {
    t.base >= 0.0 && t.perAgeYear >= 0.0 && t.perDmYear >= 0.0 && t.perHba1cPoint >= 0.0 &&
    t.ckd1 >= 0.0 && t.ckd2 >= 0.0 && t.ckd3 >= 0.0 && t.ckd4 >= 0.0 && t.ckd5 >= 0.0 &&
    t.tractional >= 0.0 && t.mixed >= 0.0 && t.maculaOff >= 0.0 &&
    t.elevated >= 0.0 && t.stage1 >= 0.0 && t.stage2 >= 0.0 && t.crisis >= 0.0
  }

  /** Every coefficient of `t` is at least its counterpart in `u`. */
  predicate Dominates(t: RiskTable, u: RiskTable)
  {
    t.base >= u.base && t.perAgeYear >= u.perAgeYear && t.perDmYear >= u.perDmYear &&
    t.perHba1cPoint >= u.perHba1cPoint &&
    t.ckd1 >= u.ckd1 && t.ckd2 >= u.ckd2 && t.ckd3 >= u.ckd3 && t.ckd4 >= u.ckd4 && t.ckd5 >= u.ckd5 &&
    t.tractional >= u.tractional && t.mixed >= u.mixed && t.maculaOff >= u.maculaOff &&
    t.elevated >= u.elevated && t.stage1 >= u.stage1 && t.stage2 >= u.stage2 && t.crisis >= u.crisis
  }

  /** The renal bonus; "Sin IR" contributes nothing. */
  function RenalPoints(t: RiskTable, s: RenalStage): (r: real)
    ensures s == NoRenalFailure ==> r == 0.0
    ensures NonNegative(t) ==> r >= 0.0
  {
    match s
    case NoRenalFailure => 0.0
    case Ckd1 => t.ckd1
    case Ckd2 => t.ckd2
    case Ckd3 => t.ckd3
    case Ckd4 => t.ckd4
    case Ckd5 => t.ckd5
  }

  /** The detachment bonuses: three independent substring checks on the
      label, so a mixed macula-off detachment collects two of them. */
  function DetachmentPoints(t: RiskTable, d: Detachment): (r: real)
    ensures d == NoDetachment ==> r == 0.0
    ensures d == MixedMaculaOff ==> r == t.mixed + t.maculaOff
    ensures NonNegative(t) ==> r >= 0.0
  {
    (if Tractional(d) then t.tractional else 0.0) +
    (if Mixed(d) then t.mixed else 0.0) +
    (if MaculaOff(d) then t.maculaOff else 0.0)
  }

  /** The hypertension bonus; "Normal" and "No válido" contribute nothing. */
  function HtaPoints(t: RiskTable, h: HtaStage): (r: real)
    ensures h == Normal || h == NotValid ==> r == 0.0
    ensures NonNegative(t) ==> r >= 0.0
  {
    match h
    case NotValid => 0.0
    case Normal => 0.0
    case Elevated => t.elevated
    case Stage1 => t.stage1
    case Stage2 => t.stage2
    case Crisis => t.crisis
  }

  /** The three continuous contributions: slopes times the excess above each
      threshold. */
  function SlopePoints(t: RiskTable, p: Patient): (r: real)
    ensures p.age <= AgeThreshold && p.dmYears <= DmThreshold && p.hba1c <= Hba1cThreshold ==> r == 0.0
  {
    t.perAgeYear * Excess(p.age, AgeThreshold) as real +
    t.perDmYear * Excess(p.dmYears, DmThreshold) as real +
    t.perHba1cPoint * ExcessReal(p.hba1c, Hba1cThreshold)
  }

  /** The unclamped score: the base plus every contribution. A patient with
      no risk factor scores the base. */
  function Score(t: RiskTable, p: Patient): (r: real)
    ensures (SlopePoints(t, p) == 0.0 && p.renal == NoRenalFailure && p.detachment == NoDetachment &&
             (p.hta == Normal || p.hta == NotValid)) ==> r == t.base
  {
    t.base + SlopePoints(t, p) + RenalPoints(t, p.renal) +
    DetachmentPoints(t, p.detachment) + HtaPoints(t, p.hta)
  }

  /** A score: the clamped sum, a probability in [0, 1]. */
  function RiskOf(t: RiskTable, p: Patient): (r: real)
    ensures 0.0 <= r <= 1.0
    ensures 0.0 <= Score(t, p) <= 1.0 ==> r == Score(t, p)
    ensures Score(t, p) > 1.0 ==> r == 1.0
  {
    Clamp01(Score(t, p))
  }

  /** The bleeding risk, always in [0, 1]. */
  function BleedingRisk(p: Patient): (r: real)
    ensures 0.0 <= r <= 1.0
  {
    RiskOf(Bleeding, p)
  }

  /** The reintervention risk, always in [0, 1]. */
  function ReinterventionRisk(p: Patient): (r: real)
    ensures 0.0 <= r <= 1.0
  {
    RiskOf(Reintervention, p)
  }

  /** The source's step-by-step accumulation of `base`, in the order the
      source adds the terms: it computes the clamped sum of contributions. */
  method AccumulateRisk(t: RiskTable, p: Patient) returns (risk: real)
    ensures risk == RiskOf(t, p)
    ensures 0.0 <= risk <= 1.0
  {
    var base := t.base;
    base := base + t.perAgeYear * Excess(p.age, AgeThreshold) as real;
    base := base + t.perDmYear * Excess(p.dmYears, DmThreshold) as real;
    base := base + t.perHba1cPoint * ExcessReal(p.hba1c, Hba1cThreshold);
    ghost var slopes := base;
    assert slopes == t.base + SlopePoints(t, p);

    if p.renal == Ckd1 {
      base := base + t.ckd1;
    } else if p.renal == Ckd2 {
      base := base + t.ckd2;
    } else if p.renal == Ckd3 {
      base := base + t.ckd3;
    } else if p.renal == Ckd4 {
      base := base + t.ckd4;
    } else if p.renal == Ckd5 {
      base := base + t.ckd5;
    }
    ghost var renal := base;
    assert renal == slopes + RenalPoints(t, p.renal);

    if Tractional(p.detachment) {
      base := base + t.tractional;
    }
    if Mixed(p.detachment) {
      base := base + t.mixed;
    }
    if MaculaOff(p.detachment) {
      base := base + t.maculaOff;
    }
    ghost var detachment := base;
    assert detachment == renal + DetachmentPoints(t, p.detachment);

    if p.hta == Elevated {
      base := base + t.elevated;
    } else if p.hta == Stage1 {
      base := base + t.stage1;
    } else if p.hta == Stage2 {
      base := base + t.stage2;
    } else if p.hta == Crisis {
      base := base + t.crisis;
    }
    assert base == detachment + HtaPoints(t, p.hta);

    risk := Min(Max(base, 0.0), 1.0);
  }

  /** `calcular_riesgo_sangrado` */
  method ComputeBleedingRisk(p: Patient) returns (risk: real)
    ensures risk == BleedingRisk(p)
  {
    risk := AccumulateRisk(Bleeding, p);
  }

  /** `calcular_riesgo_reintervencion` */
  method ComputeReinterventionRisk(p: Patient) returns (risk: real)
    ensures risk == ReinterventionRisk(p)
  {
    risk := AccumulateRisk(Reintervention, p);
  }

  // ---------------------------------------------------------------------
  // Properties of the rule table
  // ---------------------------------------------------------------------

  lemma TablesNonNegative()
    ensures NonNegative(Bleeding) && NonNegative(Reintervention)
  {
  }

  /** With non-negative coefficients the sum never drops below the base, so
      the lower clamp never changes it. */
  lemma ScoreAtLeastBase(t: RiskTable, p: Patient)
    requires NonNegative(t)
    ensures Score(t, p) >= t.base
  {
    SlopePointsNonNegative(t, p);
    assert RenalPoints(t, p.renal) >= 0.0;
    assert DetachmentPoints(t, p.detachment) >= 0.0;
    assert HtaPoints(t, p.hta) >= 0.0;
  }

  lemma SlopePointsNonNegative(t: RiskTable, p: Patient)
    requires NonNegative(t)
    ensures SlopePoints(t, p) >= 0.0
  {
    ScaleMonotone(t.perAgeYear, 0.0, Excess(p.age, AgeThreshold) as real);
    ScaleMonotone(t.perDmYear, 0.0, Excess(p.dmYears, DmThreshold) as real);
    ScaleMonotone(t.perHba1cPoint, 0.0, ExcessReal(p.hba1c, Hba1cThreshold));
  }

  /** The continuous part of a score grows with age, diabetes duration and
      HbA1c. */
  lemma SlopePointsMonotone(t: RiskTable, p: Patient, q: Patient)
    requires NonNegative(t)
    requires p.age <= q.age && p.dmYears <= q.dmYears && p.hba1c <= q.hba1c
    ensures SlopePoints(t, p) <= SlopePoints(t, q)
  {
    var a, a' := Excess(p.age, AgeThreshold) as real, Excess(q.age, AgeThreshold) as real;
    var d, d' := Excess(p.dmYears, DmThreshold) as real, Excess(q.dmYears, DmThreshold) as real;
    var h, h' := ExcessReal(p.hba1c, Hba1cThreshold), ExcessReal(q.hba1c, Hba1cThreshold);
    ScaleMonotone(t.perAgeYear, a, a');
    ScaleMonotone(t.perDmYear, d, d');
    ScaleMonotone(t.perHba1cPoint, h, h');
    SumMonotone(t.perAgeYear * a, t.perDmYear * d, t.perHba1cPoint * h,
                t.perAgeYear * a', t.perDmYear * d', t.perHba1cPoint * h');
  }

  /** Raising age, diabetes duration or HbA1c, leaving the categories alone,
      never lowers a score with non-negative coefficients. */
  lemma RiskMonotone(t: RiskTable, p: Patient, q: Patient)
    requires NonNegative(t)
    requires p.age <= q.age && p.dmYears <= q.dmYears && p.hba1c <= q.hba1c
    requires p.renal == q.renal && p.detachment == q.detachment && p.hta == q.hta
    ensures Score(t, p) <= Score(t, q)
    ensures RiskOf(t, p) <= RiskOf(t, q)
  {
    SlopePointsMonotone(t, p, q);
    Clamp01Monotone(Score(t, p), Score(t, q));
  }

  /** An age up to 50 does not affect a score, whatever the other inputs:
      it scores as age 50 does. */
  lemma RiskIgnoresAgeBelowThreshold(t: RiskTable, p: Patient)
    requires p.age <= AgeThreshold
    ensures Score(t, p) == Score(t, p.(age := AgeThreshold))
    ensures RiskOf(t, p) == RiskOf(t, p.(age := AgeThreshold))
  {
    var q := p.(age := AgeThreshold);
    assert Excess(p.age, AgeThreshold) == Excess(q.age, AgeThreshold);
    assert SlopePoints(t, p) == SlopePoints(t, q);
  }

  /** A diabetes duration up to 10 years does not affect a score, whatever
      the other inputs: it scores as 10 years do. */
  lemma RiskIgnoresDmYearsBelowThreshold(t: RiskTable, p: Patient)
    requires p.dmYears <= DmThreshold
    ensures Score(t, p) == Score(t, p.(dmYears := DmThreshold))
    ensures RiskOf(t, p) == RiskOf(t, p.(dmYears := DmThreshold))
  {
    var q := p.(dmYears := DmThreshold);
    assert Excess(p.dmYears, DmThreshold) == Excess(q.dmYears, DmThreshold);
    assert SlopePoints(t, p) == SlopePoints(t, q);
  }

  /** An HbA1c up to 7 does not affect a score, whatever the other inputs:
      it scores as 7 does. */
  lemma RiskIgnoresHba1cBelowThreshold(t: RiskTable, p: Patient)
    requires p.hba1c <= Hba1cThreshold
    ensures Score(t, p) == Score(t, p.(hba1c := Hba1cThreshold))
    ensures RiskOf(t, p) == RiskOf(t, p.(hba1c := Hba1cThreshold))
  {
    var q := p.(hba1c := Hba1cThreshold);
    assert ExcessReal(p.hba1c, Hba1cThreshold) == ExcessReal(q.hba1c, Hba1cThreshold);
    assert SlopePoints(t, p) == SlopePoints(t, q);
  }

  /** With all three at or below their thresholds, the continuous part is
      zero and the score is that of the thresholds themselves. */
  lemma RiskIgnoresValuesBelowThresholds(t: RiskTable, p: Patient)
    requires p.age <= AgeThreshold && p.dmYears <= DmThreshold && p.hba1c <= Hba1cThreshold
    ensures SlopePoints(t, p) == 0.0
    ensures RiskOf(t, p) == RiskOf(t, p.(age := AgeThreshold, dmYears := DmThreshold, hba1c := Hba1cThreshold))
  {
    var p1 := p.(age := AgeThreshold);
    var p2 := p1.(dmYears := DmThreshold);
    RiskIgnoresAgeBelowThreshold(t, p);
    RiskIgnoresDmYearsBelowThreshold(t, p1);
    RiskIgnoresHba1cBelowThreshold(t, p2);
    assert p2.(hba1c := Hba1cThreshold) == p.(age := AgeThreshold, dmYears := DmThreshold, hba1c := Hba1cThreshold);
  }

  /** Both of the source's scores are non-decreasing in age, diabetes
      duration and HbA1c. */
  lemma ScoresMonotone(p: Patient, q: Patient)
    requires p.age <= q.age && p.dmYears <= q.dmYears && p.hba1c <= q.hba1c
    requires p.renal == q.renal && p.detachment == q.detachment && p.hta == q.hta
    ensures BleedingRisk(p) <= BleedingRisk(q)
    ensures ReinterventionRisk(p) <= ReinterventionRisk(q)
  {
    TablesNonNegative();
    RiskMonotone(Bleeding, p, q);
    RiskMonotone(Reintervention, p, q);
  }

  /** A table that dominates another scores at least as high on every patient. */
  lemma DominatedScore(t: RiskTable, u: RiskTable, p: Patient)
    requires Dominates(t, u)
    ensures Score(u, p) <= Score(t, p)
    ensures RiskOf(u, p) <= RiskOf(t, p)
  {
    DominatedSlopePoints(t, u, p);
    assert RenalPoints(u, p.renal) <= RenalPoints(t, p.renal);
    assert DetachmentPoints(u, p.detachment) <= DetachmentPoints(t, p.detachment);
    assert HtaPoints(u, p.hta) <= HtaPoints(t, p.hta);
    Clamp01Monotone(Score(u, p), Score(t, p));
  }

  lemma DominatedSlopePoints(t: RiskTable, u: RiskTable, p: Patient)
    requires Dominates(t, u)
    ensures SlopePoints(u, p) <= SlopePoints(t, p)
  {
    var a, d, h := Excess(p.age, AgeThreshold) as real, Excess(p.dmYears, DmThreshold) as real,
                   ExcessReal(p.hba1c, Hba1cThreshold);
    CoefficientMonotone(u.perAgeYear, t.perAgeYear, a);
    CoefficientMonotone(u.perDmYear, t.perDmYear, d);
    CoefficientMonotone(u.perHba1cPoint, t.perHba1cPoint, h);
    SumMonotone(u.perAgeYear * a, u.perDmYear * d, u.perHba1cPoint * h,
                t.perAgeYear * a, t.perDmYear * d, t.perHba1cPoint * h);
  }

  /** Every bleeding coefficient is at least its reintervention counterpart,
      so the bleeding risk is never below the reintervention risk. */
  lemma BleedingAtLeastReintervention(p: Patient)
    ensures Dominates(Bleeding, Reintervention)
    ensures ReinterventionRisk(p) <= BleedingRisk(p)
  {
    assert Dominates(Bleeding, Reintervention);
    DominatedScore(Bleeding, Reintervention, p);
  }

  /** Inputs inside the ranges the form's widgets allow. */
  predicate InFormRanges(p: Patient)
  {
    1 <= p.age <= 120 && 0 <= p.dmYears <= 60 && 4.0 <= p.hba1c <= 14.0
  }

  /** The worst case the form allows: age 120, HbA1c 14, CKD 5, a
      hypertensive crisis and a mixed macula-off detachment. */
  function WorstCase(dmYears: int): Patient
  {
    Patient(120, dmYears, 14.0, Ckd5, MixedMaculaOff, Crisis)
  }

  /** In the worst case the bleeding sum is 0.86 plus the diabetes term, so the
      bleeding risk saturates at exactly 1 when, and only when, diabetes has
      lasted 57 years or more. */
  lemma BleedingSaturation(dmYears: int)
    requires 0 <= dmYears <= 60
    ensures Score(Bleeding, WorstCase(dmYears)) == 0.86 + 0.003 * Excess(dmYears, DmThreshold) as real
    ensures BleedingRisk(WorstCase(dmYears)) == 1.0 <==> dmYears >= 57
  {
    var e := Excess(dmYears, DmThreshold) as real;
    assert SlopePoints(Bleeding, WorstCase(dmYears)) == 0.28 + 0.003 * e + 0.14;
    if dmYears >= 57 {
      assert e >= 47.0;
    } else {
      assert e <= 46.0;
    }
  }

  /** Within the form's ranges the reintervention sum never exceeds 0.675, a
      value the worst case with 60 years of diabetes attains: the clamp never
      changes the reintervention risk and it never reaches 1. */
  lemma ReinterventionNeverSaturates(p: Patient)
    requires InFormRanges(p)
    ensures ReinterventionRisk(p) == Score(Reintervention, p) <= 0.675
    ensures Score(Reintervention, WorstCase(60)) == 0.675
  {
    var q := WorstCase(60);
    assert p.age <= q.age && p.dmYears <= q.dmYears && p.hba1c <= q.hba1c;
    ScoreAtLeastBase(Reintervention, p);
    assert SlopePoints(Reintervention, p) <= SlopePoints(Reintervention, q) by {
      RiskMonotone(Reintervention, p, q.(renal := p.renal, detachment := p.detachment, hta := p.hta));
    }
    assert SlopePoints(Reintervention, q) == 0.14 + 0.1 + 0.105;
    assert RenalPoints(Reintervention, p.renal) <= 0.08;
    assert DetachmentPoints(Reintervention, p.detachment) <= 0.1;
    assert HtaPoints(Reintervention, p.hta) <= 0.10;
  }
}
