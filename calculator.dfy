/** One press of the form's "Calcular" button: the inputs of the form go
    through the classifier, the acuity reader with its fallback, both risk
    scores, both vision tables and the advice. */
module Calculator {
  import opened Numeric
  import opened Categories
  import opened Hypertension
  import opened Acuity
  import opened Risk
  import opened Vision
  import opened Recommendation

  /** What the form collects. */
  datatype Form = Form(
    age: int, dmYears: int, hba1c: real,
    pas: int, pad: int,
    renal: RenalStage, detachment: Detachment,
    acuity: string)

  /** What the form shows after the button. */
  datatype Results = Results(
    bleeding: real,
    reintervention: real,
    withoutAntiVegf: map<Tier, real>,
    withAntiVegf: map<Tier, real>,
    advice: Advice)

  function PatientOf(f: Form): Patient
  {
    Patient(f.age, f.dmYears, f.hba1c, f.renal, f.detachment, ClassifyHta(f.pas, f.pad))
  }

  /** The results for a form: both risks in [0, 1] with bleeding at least
      reintervention, both vision tables with the three tiers, anti-VEGF
      adding exactly 0.08 to every tier, and the advice read from the
      bleeding risk. */
  function Calculate(f: Form): (r: Results)
    ensures 0.0 <= r.reintervention <= r.bleeding <= 1.0
    ensures r.withoutAntiVegf.Keys == AllTiers && r.withAntiVegf.Keys == AllTiers
    ensures forall k :: k in AllTiers ==> r.withAntiVegf[k] == r.withoutAntiVegf[k] + AntiVegfGain
    ensures r.advice == Recommend(r.bleeding)
  {
    var p := PatientOf(f);
    var fraction := FractionFromInput(f.acuity);
    BleedingAtLeastReintervention(p);
    Results(
      BleedingRisk(p),
      ReinterventionRisk(p),
      Baseline(fraction, f.detachment, p.hta),
      WithAntiVegf(fraction, f.detachment, p.hta),
      Recommend(BleedingRisk(p)))
  }

  /** The form's sequence of calls, with the fallback from an unreadable
      acuity to 20/200. */
  method RunCalculation(f: Form) returns (r: Results)
    ensures r == Calculate(f)
  {
    var hta := ClassifyHta(f.pas, f.pad);
    var snellen := InterpretAvInput(f.acuity);
    if snellen == 0.0 {
      snellen := 0.1;
    }
    var p := Patient(f.age, f.dmYears, f.hba1c, f.renal, f.detachment, hta);
    var bleeding := ComputeBleedingRisk(p);
    var reintervention := ComputeReinterventionRisk(p);
    var without := ComputeBaseline(snellen, f.detachment, hta);
    var with := ComputeWithAntiVegf(snellen, f.detachment, hta);
    var advice := Recommend(bleeding);
    r := Results(bleeding, reintervention, without, with, advice);
  }

  // ---------------------------------------------------------------------
  // Worked scenarios
  // ---------------------------------------------------------------------

  /** Age 60, 15 years of diabetes, HbA1c 8.0, 130/85 mmHg, CKD 2, a mixed
      macula-off detachment and 20/200. */
  const MixedOffScenario: Form := Form(60, 15, 8.0, 130, 85, Ckd2, MixedMaculaOff, "20/200")

  /** The form as it first appears: the same numbers, no renal failure and no
      detachment. */
  const DefaultForm: Form := Form(60, 15, 8.0, 130, 85, NoRenalFailure, NoDetachment, "20/200")

  /** Replaying the rules on the mixed macula-off scenario: bleeding 0.365,
      reintervention 0.245, vision 0.32 / 0.256 / 0.16 without anti-VEGF and
      0.40 / 0.336 / 0.24 with it, and the moderate-risk advice. */
  lemma MixedOffScenarioResults()
    ensures Calculate(MixedOffScenario) == Results(
              0.365, 0.245,
              map[AtLeastOneLine := 0.32, AtLeastTwoLines := 0.256, AtLeastThreeLines := 0.16],
              map[AtLeastOneLine := 0.40, AtLeastTwoLines := 0.336, AtLeastThreeLines := 0.24],
              ModerateRisk)
  {
    ScenarioInputs();
    MixedOffBleeding();
    MixedOffReintervention();
    MixedOffBaseline();
    MixedOffWithAntiVegf();
  }

  /** Replaying the rules on the form's initial values: bleeding 0.225,
      reintervention 0.135, vision 0.47 / 0.376 / 0.235 without anti-VEGF and
      0.55 / 0.456 / 0.315 with it, and the low-risk advice. */
  lemma DefaultFormResults()
    ensures Calculate(DefaultForm) == Results(
              0.225, 0.135,
              map[AtLeastOneLine := 0.47, AtLeastTwoLines := 0.376, AtLeastThreeLines := 0.235],
              map[AtLeastOneLine := 0.55, AtLeastTwoLines := 0.456, AtLeastThreeLines := 0.315],
              LowRisk)
  {
    ScenarioInputs();
    DefaultBleeding();
    DefaultReintervention();
    DefaultBaseline();
    DefaultWithAntiVegf();
  }

  /** 20/200 is 0.1, logMAR 1.0 and 35 letters, given that `log10(0.1)` is -1. */
  lemma DefaultAcuityDisplay(log10: real -> real)
    requires log10(0.1) == -1.0
    ensures FractionFromInput(DefaultForm.acuity) == 0.1
    ensures SnellenToLogmar(FractionFromInput(DefaultForm.acuity), log10) == 1.0
    ensures LogmarToEtdrs(SnellenToLogmar(FractionFromInput(DefaultForm.acuity), log10)) == 35.0
  {
    ScenarioInputs();
  }

  lemma ScenarioInputs()
    ensures ClassifyHta(130, 85) == Stage1
    ensures FractionFromInput("20/200") == 0.1
  {
    Example20Over200();
  }

  lemma MixedOffBleeding()
    ensures BleedingRisk(Patient(60, 15, 8.0, Ckd2, MixedMaculaOff, Stage1)) == 0.365
  {
  }

  lemma MixedOffReintervention()
    ensures ReinterventionRisk(Patient(60, 15, 8.0, Ckd2, MixedMaculaOff, Stage1)) == 0.245
  {
  }

  lemma MixedOffBaseline()
    ensures Baseline(0.1, MixedMaculaOff, Stage1) ==
              map[AtLeastOneLine := 0.32, AtLeastTwoLines := 0.256, AtLeastThreeLines := 0.16]
  {
  }

  lemma MixedOffWithAntiVegf()
    ensures WithAntiVegf(0.1, MixedMaculaOff, Stage1) ==
              map[AtLeastOneLine := 0.40, AtLeastTwoLines := 0.336, AtLeastThreeLines := 0.24]
  {
    MixedOffBaseline();
  }

  lemma DefaultBleeding()
    ensures BleedingRisk(Patient(60, 15, 8.0, NoRenalFailure, NoDetachment, Stage1)) == 0.225
  {
  }

  lemma DefaultReintervention()
    ensures ReinterventionRisk(Patient(60, 15, 8.0, NoRenalFailure, NoDetachment, Stage1)) == 0.135
  {
  }

  lemma DefaultBaseline()
    ensures Baseline(0.1, NoDetachment, Stage1) ==
              map[AtLeastOneLine := 0.47, AtLeastTwoLines := 0.376, AtLeastThreeLines := 0.235]
  {
  }

  lemma DefaultWithAntiVegf()
    ensures WithAntiVegf(0.1, NoDetachment, Stage1) ==
              map[AtLeastOneLine := 0.55, AtLeastTwoLines := 0.456, AtLeastThreeLines := 0.315]
  {
    DefaultBaseline();
  }
}
