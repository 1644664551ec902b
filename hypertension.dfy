/** Hypertension staging from systolic and diastolic pressure (mmHg). */
module Hypertension {

  /** The stages the classifier returns: "No válido", "Normal", "Elevada",
      "HTA Estadio 1", "HTA Estadio 2" and "Crisis HTA". */
  datatype HtaStage = NotValid | Normal | Elevated | Stage1 | Stage2 | Crisis

  /** The classifier: a reading of zero or below is not valid; otherwise the
      ordered threshold checks are tried top-down and the first match wins.
      The ensures clauses describe the region of readings each stage covers,
      independently of the order of the checks. */
  function ClassifyHta(pas: int, pad: int): (r: HtaStage)
    ensures r == NotValid <==> pas <= 0 || pad <= 0
    ensures r == Crisis <==> pas > 0 && pad > 0 && (pas > 180 || pad > 120)
    ensures r == Stage2 <==> 0 < pas <= 180 && 0 < pad <= 120 && (pas >= 140 || pad >= 90)
    ensures r == Stage1 <==> 0 < pas < 140 && 0 < pad < 90 && (pas >= 130 || pad >= 80)
    ensures r == Elevated <==> 120 <= pas < 130 && 0 < pad < 80
    ensures r == Normal <==> 0 < pas < 120 && 0 < pad < 80
  {
    if pas <= 0 || pad <= 0 then NotValid
    else if pas > 180 || pad > 120 then Crisis
    else if pas >= 140 || pad >= 90 then Stage2
    else if (130 <= pas <= 139) || (80 <= pad <= 89) then Stage1
    else if (120 <= pas <= 129) && pad < 80 then Elevated
    else Normal
  }

  /** Rank of a stage in order of severity. */
  function Severity(h: HtaStage): nat
  {
    match h
    case NotValid => 0
    case Normal => 1
    case Elevated => 2
    case Stage1 => 3
    case Stage2 => 4
    case Crisis => 5
  }

  /** The order of the checks encodes severity: raising either valid reading
      never lowers the stage. */
  lemma ClassifyHtaMonotone(pas: int, pad: int, pas': int, pad': int)
    requires 0 < pas <= pas' && 0 < pad <= pad'
    ensures Severity(ClassifyHta(pas, pad)) <= Severity(ClassifyHta(pas', pad'))
  {
  }

  /** Worked examples of the classifier. */
  lemma ClassifyHtaExamples()
    ensures ClassifyHta(130, 85) == Stage1
    ensures ClassifyHta(150, 95) == Stage2
    ensures ClassifyHta(190, 80) == Crisis
    ensures ClassifyHta(125, 75) == Elevated
    ensures ClassifyHta(110, 70) == Normal
    ensures ClassifyHta(0, 80) == NotValid
  {
  }
}
