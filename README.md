# DRACOV scoring engine in Dafny

DRACOV ("Diabetic Retinopathy Advanced Calculator for Outcomes & Vision") is a
single-page calculator for patients facing vitrectomy for diabetic retinopathy.
From a few systemic and ocular inputs it computes:

- a hypertension stage;
- a Snellen fraction read from free text, with logMAR and ETDRS conversions;
- an additive bleeding risk and an additive reintervention risk;
- the probability of gaining at least one, two or three lines of vision,
  without and with pre-operative anti-VEGF;
- a three-way additional-therapy advice.

This project models that engine: every rule function of `DRACOV.py` and the
step of the form that replaces an unreadable acuity by 20/200. Each is stated
on exact `real` arithmetic. The table below says, member by member, what is
proved, and "Left out" names what the model does not cover, including a
contract stated weaker than the code together with the lemmas that make up
the difference.

Modules, one per file:

- `Numeric` (`numeric.dfy`) holds `max(0, x − t)`, the `min(max(x, 0), 1)`
  clamp, and small order facts about products and quotients.
- `Text` (`text.dfy`) models the Python string operations the acuity reader
  uses:
  - `strip()`, with Python's whitespace set;
  - `lower()`;
  - `split(sep)`, with its join round trip;
  - substring `in`;
  - the signed decimal subset of `float()`, with the narrower whitespace set
    `float()` itself skips.
- `Categories` (`categories.dfy`) has the six renal stages and the five
  detachment labels. Its `Tractional`, `Mixed` and `MaculaOff` predicates are
  proved equal to the source's substring tests on the lower-cased label.
- `Hypertension` (`hypertension.dfy`) is the first-match blood-pressure
  classifier.
- `Acuity` (`acuity.dfy`) covers `interpret_av_input`, the 0 → 0.1 fallback,
  `snellen_to_logmar` and `logmar_to_etdrs`.
- `Risk` (`risk.dfy`) holds both point scores. They are one parameterised
  rule table (`RiskTable`) with the bleeding and reintervention coefficients.
  The step-by-step `base +=` accumulation is the method `AccumulateRisk`,
  proved equal to the clamped sum `RiskOf`.
- `Vision` (`vision.dfy`) has the baseline vision probabilities (method
  `ComputeBaseline` against the function `Baseline`). It also has the
  anti-VEGF adjustment: a map-filling loop, `AddAntiVegfGain`, against the map
  comprehension `AntiVegfAdjusted`.
- `Recommendation` (`recommendation.dfy`) picks the advice from the bleeding
  risk.
- `Calculator` (`calculator.dfy`) is one press of the button: the form's
  sequence of calls, with two replayed scenarios.

The blood pressures are integers, as the form's widgets produce them. The
renal stage and the detachment type are enumerations of the form's choices.
The hypertension stage carries the classifier's six results, which the scoring
rules compare by equality.

Two results go beyond a restatement of the rules:

- **Saturation.** Take the most extreme input the form allows: age 120,
  HbA1c 14, CKD 5, hypertensive crisis, mixed macula-off detachment. The
  bleeding sum there is 0.86 + 0.003 × max(0, diabetes years − 10), so the bleeding
  risk reaches 1 exactly when diabetes has lasted 57 years or more
  (`Risk.BleedingSaturation`). The reintervention sum never exceeds 0.675
  inside the form's ranges, so its clamp never applies
  (`Risk.ReinterventionNeverSaturates`). The extreme combination therefore
  does not saturate both scores at 1.
- **Negative readings.** Python's `float()` accepts a sign, so "-20/200" reads
  as -0.1. The fallback at `DRACOV.py:300` only replaces an exact 0, so the
  form keeps -0.1. The form then takes the `≤ 0` branch of
  `snellen_to_logmar`, showing logMAR 2.0 and -15 ETDRS letters
  (`Acuity.NegativeReadingExample`, `Acuity.FormSentinelOnlyWhenNegative`).
  For this reason the model parses a leading `+` or `-`, as the code does,
  rather than treating signs as a failure.

## Model

| member | source | states |
|---|---|---|
| Numeric.Excess | DRACOV.py:78-79 | `max(0, x − t)` on integers: 0 up to the threshold, the distance above it beyond |
| Numeric.ExcessReal | DRACOV.py:80 | `max(0, x − t)` on reals: never negative, 0 up to the threshold, the distance above it beyond |
| Numeric.Clamp01 | DRACOV.py:111 | `min(max(x, 0), 1)`: in [0, 1], the identity inside it, 0 below and 1 above; the same clamp serves lines 156, 189, 195-196 and 219 |
| Text.Strip | DRACOV.py:33 | the result is a slice of the input with only whitespace (`str.isspace()`) cut from both ends, and it neither starts nor ends with whitespace |
| Text.StripNoSpaces | DRACOV.py:33 | a text that neither starts nor ends with whitespace is unchanged by `strip()` |
| Text.FloatStrip | DRACOV.py:40 | the same slice for the whitespace `float()` ignores, which leaves out U+001C to U+001F |
| Text.ContainsAt | DRACOV.py:94-98 | a pattern found at some index makes the substring test hold |
| Text.NotContainsMissingChar | DRACOV.py:94-98 | a pattern with a character the text lacks makes the substring test fail |
| Text.Lower | DRACOV.py:33 | same length as the input; every character is mapped by the ASCII lower-casing |
| Text.Split | DRACOV.py:39 | at least one part, and no part contains the separator |
| Text.SplitAround | DRACOV.py:39 | a text of two separator-free parts around one separator splits into exactly those two parts |
| Text.SplitJoin | DRACOV.py:39 | joining the parts with the separator gives back the text, and there is one more part than separators |
| Text.ParseDecimal | DRACOV.py:40 | a successful parse comes from a text that is not blank to `float()`, and a negative value needs a leading minus sign |
| Text.ParseSigned | DRACOV.py:40 | an accepted stripped text is non-empty, and a negative value needs a leading minus sign |
| Text.ParseDecimalStripped | DRACOV.py:40 | a text padded with whitespace `float()` skips reads as the text without it |
| Text.ParseDecimalSigned | DRACOV.py:40 | without surrounding whitespace, a leading '-' negates the unsigned number after it, a leading '+' leaves it unchanged, and an unsigned text is read as it is |
| Text.ParseUnsigned | DRACOV.py:40 | a text is accepted exactly when it has a digit, only digits and '.', and at most one '.'; the value is non-negative; a digit string gives its decimal value |
| Text.ParseUnsignedDotted | DRACOV.py:40 | `w.f`, for digit strings not both empty, is w plus f over 10 to the number of digits of f |
| Text.DottedExamples | DRACOV.py:40 | "2.5" is 2.5 and a lone "." is rejected |
| Text.ParseDecimalOfDigits | DRACOV.py:40 | `float()` of a non-empty digit string is the number it denotes |
| Text.ParseDecimalOfNat | DRACOV.py:40 | `float(str(n)) == n` for every natural number |
| Acuity.Normalize | DRACOV.py:33 | `strip().lower()`: no longer than the input, no whitespace at either end, and no upper-case ASCII letter |
| Acuity.InterpretAvInput | DRACOV.py:28-42 | the finger-counting phrases give 0.01, the hand-motion phrases 0.005 (after trimming and lower-casing), and a negative reading needs a minus sign in the text |
| Acuity.ParseFraction | DRACOV.py:38-42 | the `num/den` reading is negative only when the text has a minus sign |
| Acuity.OneSlashRequired | DRACOV.py:39-42 | outside the phrases, a text without exactly one slash reads as 0.0 |
| Acuity.DigitsFraction | DRACOV.py:39-42 | two digit strings around a slash read as their quotient, or 0.0 for a zero denominator |
| Acuity.FractionInput | DRACOV.py:39-42 | `"n/d"` printed in decimal reads as n/d, or 0.0 when d is 0 |
| Acuity.Example20Over200 | DRACOV.py:39-40 | "20/200" reads as 0.1 |
| Acuity.Example20Over40 | DRACOV.py:39-40 | "20/40" reads as 0.5 |
| Acuity.Example20Over0 | DRACOV.py:39-42 | "20/0" reads as 0.0, because the division error is caught |
| Acuity.FingerCountExample | DRACOV.py:33-35 | "Cuenta dedos" reads as 0.01 |
| Acuity.HandMotionExample | DRACOV.py:33-37 | "MM" reads as 0.005 |
| Acuity.TrimmedPhraseExample | DRACOV.py:33-35 | " cd " reads as 0.01 once trimmed |
| Acuity.SpacedFractionExample | DRACOV.py:33-40 | "20 / 200" keeps its inner spaces through `strip()`, `float()` skips them around each part, and the text reads as 0.1 |
| Acuity.UnreadableExample | DRACOV.py:38-42 | "foo" reads as 0.0 |
| Acuity.NumericParts | DRACOV.py:38-42 | outside the phrases, a one-slash text with two numbers reads as their quotient, or 0.0 when the denominator is zero |
| Acuity.NonNumericPart | DRACOV.py:38-42 | outside the phrases, a one-slash text with a part `float()` rejects reads as 0.0 |
| Acuity.NonNumericExample | DRACOV.py:38-42 | "20/abc" reads as 0.0 |
| Acuity.UnitSeparatorExample | DRACOV.py:33-42 | U+001C is cut by `strip()` but not by `float()`, so "20\U{1C}/40" reads as 0.0, not 0.5 |
| Acuity.NegativeReadingExample | DRACOV.py:299-305 | "-20/200" reads as -0.1, survives the fallback, and shows -15 ETDRS letters |
| Acuity.DisplayedFraction | DRACOV.py:300-302 | a 0 reading becomes 0.1 (20/200), any other reading is kept, so the value used is never 0 |
| Acuity.FractionFromInput | DRACOV.py:299-302 | the fraction is the reading when that is not 0 and 0.1 when it is; it is never 0 and is negative only for a text with a minus sign |
| Acuity.FallbackExample | DRACOV.py:299-302 | the unreadable "foo" becomes 0.1 on the form |
| Acuity.SnellenToLogmar | DRACOV.py:13-20 | a fraction ≤ 0 gives logMAR 2.0; a positive fraction gives −log10 of it |
| Acuity.LogmarToEtdrs | DRACOV.py:22-26 | the linear map 85 − 50·x, whose inverse recovers the logMAR value |
| Acuity.EtdrsDecreasesWithLogmar | DRACOV.py:26 | a smaller logMAR gives strictly more letters |
| Acuity.SentinelEtdrs | DRACOV.py:18-26 | a fraction ≤ 0 ends at −15 letters, since there is no clamping |
| Acuity.FormSentinelOnlyWhenNegative | DRACOV.py:299-305 | the form uses log10 for every positive fraction, and reaches −15 letters only for a negative one, which needs a minus sign |
| Categories.Label | DRACOV.py:288-294 | the five option labels of the detachment select box, one per detachment type |
| Categories.LowerLabel | DRACOV.py:288-294 | lower-casing each label gives its lower-case spelling |
| Categories.TractionalMatchesLabel | DRACOV.py:94 | `Tractional(d)` holds exactly when "traccional" is in the lower-cased label |
| Categories.MixedMatchesLabel | DRACOV.py:96 | `Mixed(d)` holds exactly when "mixto" is in the lower-cased label |
| Categories.MaculaOffMatchesLabel | DRACOV.py:98 | `MaculaOff(d)` holds exactly when "off" is in the lower-cased label |
| Hypertension.ClassifyHta | DRACOV.py:44-59 | the region of readings giving each stage, as an if-and-only-if per stage: not valid exactly when a reading is ≤ 0, and otherwise exactly one of the five stages |
| Hypertension.ClassifyHtaMonotone | DRACOV.py:48-59 | raising either valid reading never lowers the stage's severity |
| Hypertension.ClassifyHtaExamples | DRACOV.py:48-59 | (130,85) Stage 1, (150,95) Stage 2, (190,80) crisis, (125,75) elevated, (110,70) normal, (0,80) not valid |
| Risk.SlopePoints | DRACOV.py:78-80 | the age, diabetes and HbA1c terms (lines 125-127 for reintervention); zero when all three inputs are at or below their thresholds |
| Risk.RenalPoints | DRACOV.py:82-91 | the renal bonus (lines 129-138 for reintervention); zero without renal failure and non-negative for a non-negative table |
| Risk.DetachmentPoints | DRACOV.py:94-99 | the detachment bonuses (lines 140-145 for reintervention); zero without a detachment, the mixed and macula-off bonuses together for a mixed macula-off one, non-negative for a non-negative table |
| Risk.HtaPoints | DRACOV.py:102-109 | the hypertension bonus (lines 147-154 for reintervention); zero for a normal or invalid reading and non-negative for a non-negative table |
| Risk.Score | DRACOV.py:77-109 | the unclamped sum; a patient with no risk factor scores the base |
| Risk.RiskOf | DRACOV.py:111 | the score is in [0, 1], equals the raw sum when the sum is in range, and is 1 above it |
| Risk.BleedingRisk | DRACOV.py:65-111 | the bleeding risk is in [0, 1] for every input |
| Risk.ReinterventionRisk | DRACOV.py:113-156 | the reintervention risk is in [0, 1] for every input |
| Risk.AccumulateRisk | DRACOV.py:77-111 | the step-by-step accumulation gives the clamped sum of contributions |
| Risk.ComputeBleedingRisk | DRACOV.py:65-111 | the bleeding computation equals `BleedingRisk` |
| Risk.ComputeReinterventionRisk | DRACOV.py:113-156 | the reintervention computation equals `ReinterventionRisk` |
| Risk.TablesNonNegative | DRACOV.py:77-154 | every coefficient of both tables is non-negative |
| Risk.ScoreAtLeastBase | DRACOV.py:77-109 | with non-negative coefficients the sum is never below the base |
| Risk.SlopePointsMonotone | DRACOV.py:78-80 | the age, diabetes and HbA1c contributions grow with their inputs |
| Risk.RiskMonotone | DRACOV.py:77-111 | each score is non-decreasing in age, diabetes duration and HbA1c |
| Risk.ScoresMonotone | DRACOV.py:65-156 | the bleeding and the reintervention risk are each non-decreasing in age, diabetes duration and HbA1c |
| Risk.RiskIgnoresAgeBelowThreshold | DRACOV.py:78 | an age up to 50 scores as 50 does, whatever the other inputs |
| Risk.RiskIgnoresDmYearsBelowThreshold | DRACOV.py:79 | a diabetes duration up to 10 years scores as 10 years do, whatever the other inputs |
| Risk.RiskIgnoresHba1cBelowThreshold | DRACOV.py:80 | an HbA1c up to 7 scores as 7 does, whatever the other inputs |
| Risk.RiskIgnoresValuesBelowThresholds | DRACOV.py:78-80 | with age ≤ 50, diabetes ≤ 10 years and HbA1c ≤ 7 all at once, the continuous part is zero and the score is that of the thresholds |
| Risk.DominatedScore | DRACOV.py:77-154 | a table whose every coefficient is larger scores at least as high |
| Risk.BleedingAtLeastReintervention | DRACOV.py:77-154 | every bleeding coefficient is at least its reintervention counterpart, so for the same inputs the bleeding risk is at least the reintervention risk |
| Risk.BleedingSaturation | DRACOV.py:77-111 | at the extreme inputs, for 0 to 60 years of diabetes, the bleeding sum is 0.86 plus 0.003 per year above 10, and the risk is 1 exactly when diabetes lasted 57 years or more |
| Risk.ReinterventionNeverSaturates | DRACOV.py:124-156 | inside the form's ranges the reintervention sum is at most 0.675, so the clamp does not apply, and 0.675 is reached |
| Vision.StartProbability | DRACOV.py:166-173 | the acuity bands ≤ 0.05, ≤ 0.1, ≤ 0.5 and above give 0.4, 0.5, 0.6 and 0.7 |
| Vision.DetachmentPenalty | DRACOV.py:176-179 | the detachment takes off between 0 and 0.15, and nothing without a detachment |
| Vision.HtaPenalty | DRACOV.py:182-187 | hypertension takes off between 0 and 0.1, and nothing up to an elevated reading |
| Vision.OneLine | DRACOV.py:166-189 | the one-line probability is the start less both penalties, within [0.15, 0.7], so the clamp never applies |
| Vision.Baseline | DRACOV.py:158-197 | the three tiers are keys; ≥1 is the start less the penalties; ≥2 = 0.8·(≥1) and ≥3 = 0.5·(≥1); 0 < ≥3 < ≥2 < ≥1 ≤ 0.7 |
| Vision.ComputeBaseline | DRACOV.py:166-197 | the step-by-step computation equals `Baseline` |
| Vision.BaselineFromOneLine | DRACOV.py:189-197 | the dictionary is fixed by its one-line entry |
| Vision.AntiVegfAdjusted | DRACOV.py:216-221 | same keys as the input; every value in [0, 1], at least the input, exactly input + 0.08 when that stays in range, 1 when the sum exceeds 1 and 0 when it is below 0 |
| Vision.AddAntiVegfGain | DRACOV.py:216-221 | the loop over the dictionary's entries builds `AntiVegfAdjusted` |
| Vision.WithAntiVegf | DRACOV.py:199-221 | the three tiers are keys, each exactly its baseline + 0.08, still ordered, at most 0.78 |
| Vision.ComputeWithAntiVegf | DRACOV.py:210-221 | the computation equals `WithAntiVegf` |
| Vision.StartProbabilityMonotone | DRACOV.py:166-173 | the starting probability is non-decreasing in the Snellen fraction |
| Vision.HtaPenaltyMonotone | DRACOV.py:182-187 | a more severe stage never takes off less |
| Vision.OneLineMonotone | DRACOV.py:166-189 | the one-line probability rises with acuity and falls with hypertension severity |
| Vision.VisionMonotone | DRACOV.py:166-221 | every tier with and without anti-VEGF rises with acuity and falls with hypertension severity |
| Vision.MaculaOffCost | DRACOV.py:178-179 | an off macula costs exactly 0.1 on the one-line probability |
| Recommendation.Recommend | DRACOV.py:223-246 | very high exactly above 0.6, moderate exactly in (0.3, 0.6], low exactly at or below 0.3 |
| Recommendation.RecommendMonotone | DRACOV.py:227-246 | a higher bleeding risk never gets a less urgent advice |
| Recommendation.NoRiskFactorsLow | DRACOV.py:77-246 | a patient without any risk factor scores bleeding 0.1 and gets the low-risk advice |
| Recommendation.MixedOffCrisisNotLow | DRACOV.py:77-246 | a mixed macula-off detachment with a hypertensive crisis scores at least 0.34 and never gets the low-risk advice |
| Recommendation.ExactThresholdExample | DRACOV.py:77-246 | CKD 2, tractional macula off and stage 2, with the continuous inputs at their thresholds, sum to exactly 0.3 and get the low-risk advice |
| Calculator.Calculate | DRACOV.py:309-331 | both risks in [0, 1] with bleeding ≥ reintervention, both vision tables with the three tiers, anti-VEGF adding exactly 0.08 per tier, advice read from the bleeding risk |
| Calculator.RunCalculation | DRACOV.py:276-331 | the form's sequence of calls, with the fallback, equals `Calculate` |
| Calculator.MixedOffScenarioResults | DRACOV.py:309-331 | 60 y, 15 y diabetes, HbA1c 8, 130/85, CKD 2, mixed macula off, 20/200: bleeding 0.365, reintervention 0.245, vision 0.32/0.256/0.16 and 0.40/0.336/0.24, moderate advice |
| Calculator.DefaultFormResults | DRACOV.py:266-331 | the form's initial values: bleeding 0.225, reintervention 0.135, vision 0.47/0.376/0.235 and 0.55/0.456/0.315, low advice |
| Calculator.DefaultAcuityDisplay | DRACOV.py:298-306 | the initial "20/200" is fraction 0.1, logMAR 1.0 and 35 letters, given log10(0.1) = −1 |

## Left out

- The Streamlit page (`st.*` calls, layout, messages, the reference list) and `main` beyond its sequence of calls. These are user interface only.
- `math.log10`: Dafny has no logarithm, so it is a function parameter of `SnellenToLogmar`. Only the `≤ 0` branch is computed outright.
- IEEE-754 floating point: all arithmetic is exact `real`. The scenario values are exact sums, not the rounded floats Python prints. At the advice thresholds this matters: some inputs sum to exactly 0.3 in reals (`Recommendation.ExactThresholdExample`), while Python's float sum of the same decimals may land just above or below 0.3 and so pick the other advice block.
- `float()` beyond an optional sign and ASCII digits with at most one '.': exponents, "inf", "nan", underscores and non-ASCII digits all read as a failure (0.0) here, while Python accepts them.
- `str.lower()` on non-ASCII letters: only A–Z is lower-cased. The labels and phrases the source compares against are unaffected.
- The order of dictionary keys: the vision tables are Dafny maps, which have no order.
- The prose of the three advice blocks: the advice is a three-value enumeration.
- The widget limits on the form (age 1–120, diabetes 0–60, HbA1c 4–14, systolic pressure 0–300, diastolic pressure 0–200) are not enforced by the scoring functions. They appear only as hypotheses: of `Risk.ReinterventionNeverSaturates` (the age, diabetes and HbA1c ranges) and of `Risk.BleedingSaturation` (diabetes 0–60). No lemma uses the pressure limits, because the pressures enter the scores only through the hypertension stage.
- A tamponade-agent distribution: `DRACOV.py` contains no such logic, so none is modelled.
- Text.ParseDecimal: its own contract gives only the whitespace and sign facts, not the value. The value is stated beside it: surrounding whitespace by `Text.ParseDecimalStripped`, the sign by `Text.ParseDecimalSigned`, and the unsigned number by `Text.ParseUnsigned` (digit strings) and `Text.ParseUnsignedDotted` (texts with a point).
- `float()`'s whitespace follows CPython's own skipping of ASCII C-locale whitespace and of non-ASCII Unicode spaces. Whitespace inside a number, which `float()` rejects, is rejected here as well.
