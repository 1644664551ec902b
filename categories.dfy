/** The categorical inputs chosen in the form: the renal-failure stage and the
    retinal-detachment type, with the flags the scoring rules read off the
    detachment label by lower-cased substring tests. */
module Categories {
  import opened Text

  /** The six renal stages offered by the form. */
  datatype RenalStage = NoRenalFailure | Ckd1 | Ckd2 | Ckd3 | Ckd4 | Ckd5

  /** The five retinal-detachment choices offered by the form. */
  datatype Detachment =
    | NoDetachment
    | TractionalMaculaOn
    | TractionalMaculaOff
    | MixedMaculaOn
    | MixedMaculaOff

  /** The label the form shows, which is the string the scoring rules receive. */
  function Label(d: Detachment): string
  {
    match d
    case NoDetachment => "Sin desprendimiento"
    case TractionalMaculaOn => "Traccional (mácula ON)"
    case TractionalMaculaOff => "Traccional (mácula OFF)"
    case MixedMaculaOn => "Mixto (mácula ON)"
    case MixedMaculaOff => "Mixto (mácula OFF)"
  }

  /** `"traccional" in tipo_dr.lower()` */
  predicate Tractional(d: Detachment)
  {
    d == TractionalMaculaOn || d == TractionalMaculaOff
  }

  /** `"mixto" in tipo_dr.lower()` */
  predicate Mixed(d: Detachment)
  {
    d == MixedMaculaOn || d == MixedMaculaOff
  }

  /** `"off" in tipo_dr.lower()` */
  predicate MaculaOff(d: Detachment)
  {
    d == TractionalMaculaOff || d == MixedMaculaOff
  }

  /** The detachment labels as `tipo_dr.lower()` gives them. */
  function LoweredLabel(d: Detachment): string
  {
    match d
    case NoDetachment => "sin desprendimiento"
    case TractionalMaculaOn => "traccional (mácula on)"
    case TractionalMaculaOff => "traccional (mácula off)"
    case MixedMaculaOn => "mixto (mácula on)"
    case MixedMaculaOff => "mixto (mácula off)"
  }

  lemma LowerLabel(d: Detachment)
    ensures Lower(Label(d)) == LoweredLabel(d)
  {
    match d
    case NoDetachment => LowerNoDetachment();
    case TractionalMaculaOn => LowerTractionalOn();
    case TractionalMaculaOff => LowerTractionalOff();
    case MixedMaculaOn => LowerMixedOn();
    case MixedMaculaOff => LowerMixedOff();
  }

  lemma LowerNoDetachment() ensures Lower("Sin desprendimiento") == "sin desprendimiento" {}
  lemma LowerTractionalOn() ensures Lower("Traccional (mácula ON)") == "traccional (mácula on)" {}
  lemma LowerTractionalOff() ensures Lower("Traccional (mácula OFF)") == "traccional (mácula off)" {}
  lemma LowerMixedOn() ensures Lower("Mixto (mácula ON)") == "mixto (mácula on)" {}
  lemma LowerMixedOff() ensures Lower("Mixto (mácula OFF)") == "mixto (mácula off)" {}

  /** `Tractional` is the test `"traccional" in tipo_dr.lower()` on the label. */
  lemma TractionalMatchesLabel(d: Detachment)
    ensures Tractional(d) <==> Contains(Lower(Label(d)), "traccional")
  {
    LowerLabel(d);
    match d
    case NoDetachment => NotContainsMissingChar("sin desprendimiento", "traccional", 'l');
    case TractionalMaculaOn => ContainsAt("traccional (mácula on)", "traccional", 0);
    case TractionalMaculaOff => ContainsAt("traccional (mácula off)", "traccional", 0);
    case MixedMaculaOn => NotContainsMissingChar("mixto (mácula on)", "traccional", 'r');
    case MixedMaculaOff => NotContainsMissingChar("mixto (mácula off)", "traccional", 'r');
  }

  /** `Mixed` is the test `"mixto" in tipo_dr.lower()` on the label. */
  lemma MixedMatchesLabel(d: Detachment)
    ensures Mixed(d) <==> Contains(Lower(Label(d)), "mixto")
  {
    LowerLabel(d);
    match d
    case NoDetachment => NotContainsMissingChar("sin desprendimiento", "mixto", 'x');
    case TractionalMaculaOn => NotContainsMissingChar("traccional (mácula on)", "mixto", 'x');
    case TractionalMaculaOff => NotContainsMissingChar("traccional (mácula off)", "mixto", 'x');
    case MixedMaculaOn => ContainsAt("mixto (mácula on)", "mixto", 0);
    case MixedMaculaOff => ContainsAt("mixto (mácula off)", "mixto", 0);
  }

  /** `MaculaOff` is the test `"off" in tipo_dr.lower()` on the label. */
  lemma MaculaOffMatchesLabel(d: Detachment)
    ensures MaculaOff(d) <==> Contains(Lower(Label(d)), "off")
  {
    LowerLabel(d);
    match d
    case NoDetachment => NotContainsMissingChar("sin desprendimiento", "off", 'f');
    case TractionalMaculaOn => NotContainsMissingChar("traccional (mácula on)", "off", 'f');
    case TractionalMaculaOff => ContainsAt("traccional (mácula off)", "off", 19);
    case MixedMaculaOn => NotContainsMissingChar("mixto (mácula on)", "off", 'f');
    case MixedMaculaOff => ContainsAt("mixto (mácula off)", "off", 14);
  }
}
