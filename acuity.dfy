/** Visual acuity: reading the free-text acuity field as a Snellen fraction,
    the fallback the form applies to an unreadable entry, and the conversions
    to logMAR and ETDRS letters. */
module Acuity {
  import opened Text
  import opened Numeric

  /** Accepted (after trimming and lower-casing) for counting fingers. */
  const FingerCountPhrases: seq<string> := ["cuenta dedos", "cd", "count fingers"]
  /** Accepted (after trimming and lower-casing) for hand motion. */
  const HandMotionPhrases: seq<string> := ["movimiento de manos", "mm", "hand motion"]

  const FingerCountFraction: real := 0.01   // about 20/2000
  const HandMotionFraction: real := 0.005   // about 20/4000
  /** Returned for anything that cannot be read. */
  const Unreadable: real := 0.0
  /** What the form uses instead of an unreadable entry (20/200). */
  const DefaultFraction: real := 0.1

  /** `av_input.strip().lower()` */
  function Normalize(input: string): (r: string)
    ensures |r| <= |input|
    ensures r != [] ==> !IsSpace(r[0]) && !IsSpace(r[|r| - 1])
    ensures forall i :: 0 <= i < |r| ==> !('A' <= r[i] <= 'Z')
  {
    Lower(Strip(input))
  }

  /** The source's `interpret_av_input`: a recognised phrase gives its fixed
      fraction; otherwise the text must be `num/den` with exactly one slash and
      two numbers, and gives `num / den`; a missing or extra slash, a part that
      is not a number and a zero denominator all give 0.0. */
  function InterpretAvInput(input: string): (r: real)
    ensures r < 0.0 ==> '-' in Normalize(input)
    ensures Normalize(input) in FingerCountPhrases ==> r == FingerCountFraction
    ensures Normalize(input) !in FingerCountPhrases && Normalize(input) in HandMotionPhrases ==>
              r == HandMotionFraction
  {
    var s := Normalize(input);
    if s in FingerCountPhrases then FingerCountFraction
    else if s in HandMotionPhrases then HandMotionFraction
    else ParseFraction(s)
  }

  /** The `try` block: `num, den = s.split('/')` followed by
      `float(num) / float(den)`, where every exception gives 0.0. */
  function ParseFraction(s: string): (r: real)
    ensures r < 0.0 ==> '-' in s
  {
    var parts := Split(s, '/');
    if |parts| != 2 then Unreadable
    else
      var num, den := ParseDecimal(parts[0]), ParseDecimal(parts[1]);
      if num.None? || den.None? then Unreadable
      else if den.value == 0.0 then Unreadable  // the caught ZeroDivisionError
      else
        FractionSign(s);
        num.value / den.value
  }

  /** A negative quotient of the two parts needs a minus sign in the text. */
  lemma FractionSign(s: string)
    requires |Split(s, '/')| == 2
    requires ParseDecimal(Split(s, '/')[0]).Some? && ParseDecimal(Split(s, '/')[1]).Some?
    requires ParseDecimal(Split(s, '/')[1]).value != 0.0
    ensures ParseDecimal(Split(s, '/')[0]).value / ParseDecimal(Split(s, '/')[1]).value < 0.0 ==> '-' in s
  {
    var parts := Split(s, '/');
    var a, b := ParseDecimal(parts[0]).value, ParseDecimal(parts[1]).value;
    NegativeQuotient(a, b);
    if a / b < 0.0 {
      SplitJoin(s, '/');
      assert s == parts[0] + "/" + parts[1];
      if a < 0.0 {
        SignNeeded(parts[0], a);
      } else {
        SignNeeded(parts[1], b);
      }
    }
  }

  /** A negative number reads from a text that has a minus sign. */
  lemma SignNeeded(part: string, v: real)
    requires ParseDecimal(part) == Some(v) && v < 0.0
    ensures '-' in part
  {
    var i, j :| 0 <= i <= j <= |part| && FloatStrip(part) == part[i..j];
    assert part[i] == FloatStrip(part)[0];
  }

  /** Outside the phrase sets, a text without exactly one slash is unreadable. */
  lemma OneSlashRequired(input: string)
    requires Normalize(input) !in FingerCountPhrases + HandMotionPhrases
    requires Occurrences(Normalize(input), '/') != 1
    ensures InterpretAvInput(input) == Unreadable
  {
    SplitJoin(Normalize(input), '/');
  }

  /** Outside the phrase sets, a text with one slash whose numerator or
      denominator `float()` rejects is unreadable. */
  lemma NonNumericPart(input: string)
    requires Normalize(input) !in FingerCountPhrases + HandMotionPhrases
    requires |Split(Normalize(input), '/')| == 2
    requires ParseDecimal(Split(Normalize(input), '/')[0]).None? ||
             ParseDecimal(Split(Normalize(input), '/')[1]).None?
    ensures InterpretAvInput(input) == Unreadable
  {
  }

  /** Outside the phrase sets, a text with one slash around two numbers
      reads as their quotient, or as 0.0 when the denominator is zero. */
  lemma NumericParts(input: string)
    requires Normalize(input) !in FingerCountPhrases + HandMotionPhrases
    requires |Split(Normalize(input), '/')| == 2
    requires ParseDecimal(Split(Normalize(input), '/')[0]).Some? &&
             ParseDecimal(Split(Normalize(input), '/')[1]).Some?
    ensures var num, den := ParseDecimal(Split(Normalize(input), '/')[0]).value,
                            ParseDecimal(Split(Normalize(input), '/')[1]).value;
            InterpretAvInput(input) == if den == 0.0 then Unreadable else num / den
  {
  }

  /** "20/abc" has a part that is not a number and reads as 0.0. */
  lemma NonNumericExample()
    ensures InterpretAvInput("20/abc") == Unreadable
  {
    NormalizeExample20OverAbc();
    NotPhrase("20/abc", 2);
    SplitAround("20", "abc", '/');
    assert "20" + ['/'] + "abc" == "20/abc";
    NotANumberAbc();
    NonNumericPart("20/abc");
  }

  lemma NormalizeExample20OverAbc()
    ensures Normalize("20/abc") == "20/abc"
  {
    StripNoSpaces("20/abc");
    LowerNoUpper("20/abc");
  }

  lemma NotANumberAbc()
    ensures ParseDecimal("abc") == None
  {
    FloatStripNoSpaces("abc");
    SplitNoSeparator("abc", '.');
    assert !IsDigit("abc"[0]);
  }

  /** U+001C is whitespace to `strip()` but not to `float()`: inside the text
      "20\U{1C}/40", the numerator "20\U{1C}" is not a number, and the whole
      text reads as 0.0 rather than 0.5. */
  lemma UnitSeparatorExample()
    ensures Strip("20\U{1C}") == "20"
    ensures ParseDecimal("20\U{1C}") == None
    ensures InterpretAvInput("20\U{1C}/40") == Unreadable
  {
    StripUnitSeparator();
    NotANumberUnitSeparator();
    NormalizeExampleUnitSeparator();
    NotPhrase("20\U{1C}/40", 3);
    SplitAround("20\U{1C}", "40", '/');
    assert "20\U{1C}" + ['/'] + "40" == "20\U{1C}/40";
    NonNumericPart("20\U{1C}/40");
  }

  lemma NormalizeExampleUnitSeparator()
    ensures Normalize("20\U{1C}/40") == "20\U{1C}/40"
  {
    StripNoSpaces("20\U{1C}/40");
    LowerNoUpper("20\U{1C}/40");
  }

  lemma StripUnitSeparator()
    ensures Strip("20\U{1C}") == "20"
  {
    assert LeadingIn("20\U{1C}", IsSpace) == 0;
    assert TrailingIn("20\U{1C}", IsSpace) == 1;
    assert "20\U{1C}"[0..2] == "20";
  }

  lemma NotANumberUnitSeparator()
    ensures ParseDecimal("20\U{1C}") == None
  {
    FloatStripNoSpaces("20\U{1C}");
    SplitNoSeparator("20\U{1C}", '.');
    assert !IsDigit("20\U{1C}"[2]);
  }

  /** Reading `num/den`, two strings of digits, gives the fraction they
      denote, or 0.0 when the denominator is zero. */
  lemma DigitsFraction(num: string, den: string)
    requires num != [] && den != [] && AllDigits(num) && AllDigits(den)
    ensures InterpretAvInput(num + "/" + den) ==
              if DigitsValue(den) == 0 then Unreadable
              else DigitsValue(num) as real / DigitsValue(den) as real
  {
    var s := num + "/" + den;
    NormalizeDigitsAndSlashes(num, den);
    assert s[|num|] == '/';
    NotPhrase(s, |num|);
    assert s !in FingerCountPhrases + HandMotionPhrases;
    SplitDigitsFraction(num, den);
    ParseDecimalOfDigits(num);
    ParseDecimalOfDigits(den);
    NumericParts(s);
    var x, y := DigitsValue(num) as real, DigitsValue(den) as real;
    assert InterpretAvInput(s) == if y == 0.0 then Unreadable else x / y;
  }

  /** A digit fraction splits into its numerator and denominator. */
  lemma SplitDigitsFraction(num: string, den: string)
    requires AllDigits(num) && AllDigits(den)
    ensures Split(num + "/" + den, '/') == [num, den]
  {
    assert '/' !in num && '/' !in den;
    SplitAround(num, den, '/');
  }

  /** A digit fraction is already trimmed and lower-case. */
  lemma NormalizeDigitsAndSlashes(num: string, den: string)
    requires num != [] && den != [] && AllDigits(num) && AllDigits(den)
    ensures Normalize(num + "/" + den) == num + "/" + den
  {
    var s := num + "/" + den;
    forall i | 0 <= i < |s|
      ensures s[i] == '/' || IsDigit(s[i])
    {
      if i < |num| { assert s[i] == num[i]; }
      else if i > |num| { assert s[i] == den[i - |num| - 1]; }
    }
    assert !IsSpace(s[0]) && !IsSpace(s[|s| - 1]);
    StripNoSpaces(s);
    LowerNoUpper(s);
  }

  /** A text with a slash is none of the phrases. */
  lemma NotPhrase(s: string, k: nat)
    requires k < |s| && s[k] == '/'
    ensures s !in FingerCountPhrases && s !in HandMotionPhrases
  {
  }

  /** Reading `n/d` printed in decimal gives the fraction n/d, or 0.0 when the
      denominator is zero. */
  lemma FractionInput(n: nat, d: nat)
    ensures InterpretAvInput(NatToString(n) + "/" + NatToString(d)) ==
              if d == 0 then Unreadable else n as real / d as real
  {
    NatToStringRoundTrip(n);
    NatToStringRoundTrip(d);
    DigitsFraction(NatToString(n), NatToString(d));
  }

  /** 20/200 reads as 0.1. */
  lemma Example20Over200()
    ensures InterpretAvInput("20/200") == 0.1
  {
    NormalizeExample20Over200();
    NotPhrase("20/200", 2);
    ParseFractionExample20Over200();
  }

  lemma NormalizeExample20Over200()
    ensures Normalize("20/200") == "20/200"
  {
    NormalizeDigitsAndSlashes("20", "200");
    assert "20" + "/" + "200" == "20/200";
  }

  lemma ParseFractionExample20Over200()
    ensures ParseFraction("20/200") == 0.1
  {
    SplitAround("20", "200", '/');
    assert "20" + ['/'] + "200" == "20/200";
    ParseNumberExample20();
    ParseNumberExample200();
  }

  /** 20/40 reads as 0.5. */
  lemma Example20Over40()
    ensures InterpretAvInput("20/40") == 0.5
  {
    NormalizeExample20Over40();
    NotPhrase("20/40", 2);
    ParseFractionExample20Over40();
  }

  lemma NormalizeExample20Over40()
    ensures Normalize("20/40") == "20/40"
  {
    NormalizeDigitsAndSlashes("20", "40");
    assert "20" + "/" + "40" == "20/40";
  }

  lemma ParseFractionExample20Over40()
    ensures ParseFraction("20/40") == 0.5
  {
    SplitAround("20", "40", '/');
    assert "20" + ['/'] + "40" == "20/40";
    ParseNumberExample20();
    ParseNumberExample40();
  }

  /** 20/0 is unreadable: the division by zero is caught. */
  lemma Example20Over0()
    ensures InterpretAvInput("20/0") == Unreadable
  {
    NormalizeExample20Over0();
    NotPhrase("20/0", 2);
    ParseFractionExample20Over0();
  }

  lemma NormalizeExample20Over0()
    ensures Normalize("20/0") == "20/0"
  {
    NormalizeDigitsAndSlashes("20", "0");
    assert "20" + "/" + "0" == "20/0";
  }

  lemma ParseFractionExample20Over0()
    ensures ParseFraction("20/0") == Unreadable
  {
    SplitAround("20", "0", '/');
    assert "20" + ['/'] + "0" == "20/0";
    ParseNumberExample20();
    ParseNumberExample0();
  }

  lemma ParseNumberExample20()
    ensures ParseDecimal("20") == Some(20.0)
  {
    DigitsValue20();
    ParseDecimalOfDigits("20");
  }

  lemma ParseNumberExample200()
    ensures ParseDecimal("200") == Some(200.0)
  {
    DigitsValue200();
    ParseDecimalOfDigits("200");
  }

  lemma ParseNumberExample40()
    ensures ParseDecimal("40") == Some(40.0)
  {
    DigitsValue40();
    ParseDecimalOfDigits("40");
  }

  lemma ParseNumberExample0()
    ensures ParseDecimal("0") == Some(0.0)
  {
    DigitsValue0();
    ParseDecimalOfDigits("0");
  }

  lemma DigitsValue0()
    ensures AllDigits("0") && DigitsValue("0") == 0
  {
    assert "0"[..0] == [];
  }

  lemma DigitsValue20()
    ensures AllDigits("20") && DigitsValue("20") == 20
  {
    assert "20"[..1] == "2";
    assert "2"[..0] == [];
  }

  lemma DigitsValue200()
    ensures AllDigits("200") && DigitsValue("200") == 200
  {
    assert "200"[..2] == "20";
    DigitsValue20();
  }

  lemma DigitsValue40()
    ensures AllDigits("40") && DigitsValue("40") == 40
  {
    assert "40"[..1] == "4";
    assert "4"[..0] == [];
  }

  /** "Cuenta dedos", typed with a capital, is read as counting fingers. */
  lemma FingerCountExample()
    ensures InterpretAvInput("Cuenta dedos") == FingerCountFraction
  {
    StripNoSpaces("Cuenta dedos");
    assert Normalize("Cuenta dedos") == "cuenta dedos";
  }

  /** "MM" is read as hand motion. */
  lemma HandMotionExample()
    ensures InterpretAvInput("MM") == HandMotionFraction
  {
    StripNoSpaces("MM");
    assert Normalize("MM") == "mm";
  }

  /** "20 / 200" keeps its inner spaces through `strip()`; `float()` skips
      them around each part, so the text reads as 0.1. */
  lemma SpacedFractionExample()
    ensures InterpretAvInput("20 / 200") == 0.1
  {
    NormalizeExampleSpaced();
    NotPhrase("20 / 200", 3);
    SplitAround("20 ", " 200", '/');
    assert "20 " + ['/'] + " 200" == "20 / 200";
    ParseNumberExampleSpaced();
    NumericParts("20 / 200");
  }

  lemma NormalizeExampleSpaced()
    ensures Normalize("20 / 200") == "20 / 200"
  {
    StripNoSpaces("20 / 200");
    LowerNoUpper("20 / 200");
  }

  lemma ParseNumberExampleSpaced()
    ensures ParseDecimal("20 ") == Some(20.0)
    ensures ParseDecimal(" 200") == Some(200.0)
  {
    ParseNumberExampleTrailingSpace();
    ParseNumberExampleLeadingSpace();
  }

  lemma ParseNumberExampleTrailingSpace()
    ensures ParseDecimal("20 ") == Some(20.0)
  {
    ParseDecimalStripped("20 ");
    FloatStripTrailingSpace();
    ParseNumberExample20();
  }

  lemma FloatStripTrailingSpace()
    ensures FloatStrip("20 ") == "20"
  {
    assert LeadingIn("20 ", IsFloatSpace) == 0;
    assert TrailingIn("20 ", IsFloatSpace) == 1;
    assert "20 "[0..2] == "20";
  }

  lemma ParseNumberExampleLeadingSpace()
    ensures ParseDecimal(" 200") == Some(200.0)
  {
    ParseDecimalStripped(" 200");
    FloatStripLeadingSpace();
    ParseNumberExample200();
  }

  lemma FloatStripLeadingSpace()
    ensures FloatStrip(" 200") == "200"
  {
    assert LeadingIn(" 200", IsFloatSpace) == 1;
    assert TrailingIn(" 200", IsFloatSpace) == 0;
    assert " 200"[1..4] == "200";
  }

  /** " cd " is read as counting fingers once the spaces are removed. */
  lemma TrimmedPhraseExample()
    ensures InterpretAvInput(" cd ") == FingerCountFraction
  {
    assert LeadingIn(" cd ", IsSpace) == 1;
    assert TrailingIn(" cd ", IsSpace) == 1;
    assert Strip(" cd ") == "cd";
    LowerNoUpper("cd");
  }

  /** Text that is neither a phrase nor a fraction is unreadable. */
  lemma UnreadableExample()
    ensures InterpretAvInput("foo") == Unreadable
  {
    StripNoSpaces("foo");
    LowerNoUpper("foo");
    SplitNoSeparator("foo", '/');
  }

  /** The form's fallback: an unreadable entry (0) is replaced by 20/200. */
  function DisplayedFraction(value: real): (r: real)
    ensures r != 0.0
    ensures value == 0.0 ==> r == DefaultFraction
    ensures value != 0.0 ==> r == value
  {
    if value == 0.0 then DefaultFraction else value
  }

  /** The fraction the form works with for a given acuity text: the reading
      itself, or 0.1 (20/200) when the reading is 0; so never zero, and
      negative only for a text with a minus sign. */
  function FractionFromInput(input: string): (r: real)
    ensures InterpretAvInput(input) == 0.0 ==> r == DefaultFraction
    ensures InterpretAvInput(input) != 0.0 ==> r == InterpretAvInput(input)
    ensures r != 0.0
    ensures r < 0.0 ==> '-' in Normalize(input)
  {
    DisplayedFraction(InterpretAvInput(input))
  }

  /** An unreadable "foo" becomes 20/200 on the form. */
  lemma FallbackExample()
    ensures FractionFromInput("foo") == DefaultFraction
  {
    UnreadableExample();
  }

  /** Snellen fraction to logMAR. Only the sentinel branch is arithmetic;
      `log10` stands for `math.log10`, which is outside the model. */
  function SnellenToLogmar(fraction: real, log10: real -> real): (r: real)
    ensures fraction <= 0.0 ==> r == 2.0
    ensures fraction > 0.0 ==> r == -log10(fraction)
  {
    if fraction <= 0.0 then 2.0 else -log10(fraction)
  }

  /** logMAR to ETDRS letters, `85 - 50 * logmar`: a linear map whose inverse
      recovers the logMAR value, with no clamping to a letter range. */
  function LogmarToEtdrs(logmar: real): (r: real)
    ensures logmar == (85.0 - r) / 50.0
  {
    85.0 - 50.0 * logmar
  }

  /** A better (smaller) logMAR means strictly more ETDRS letters. */
  lemma EtdrsDecreasesWithLogmar(x: real, y: real)
    requires x < y
    ensures LogmarToEtdrs(y) < LogmarToEtdrs(x)
  {
  }

  /** A fraction of zero or below maps to logMAR 2.0 and so to -15 letters,
      outside the 0..100 letter range. */
  lemma SentinelEtdrs(fraction: real, log10: real -> real)
    requires fraction <= 0.0
    ensures LogmarToEtdrs(SnellenToLogmar(fraction, log10)) == -15.0
  {
  }

  /** The form reaches the sentinel branch of the logMAR conversion exactly
      when the reading is negative, which takes a minus sign in the text. */
  lemma FormSentinelOnlyWhenNegative(input: string, log10: real -> real)
    ensures FractionFromInput(input) > 0.0 ==>
              SnellenToLogmar(FractionFromInput(input), log10) == -log10(FractionFromInput(input))
    ensures FractionFromInput(input) < 0.0 ==>
              '-' in Normalize(input) && LogmarToEtdrs(SnellenToLogmar(FractionFromInput(input), log10)) == -15.0
  {
  }

  /** "-20/200" reads as -0.1: the zero-only fallback keeps it, and the form
      shows logMAR 2.0 and -15 letters. */
  lemma NegativeReadingExample(log10: real -> real)
    ensures InterpretAvInput("-20/200") == -0.1
    ensures FractionFromInput("-20/200") == -0.1
    ensures LogmarToEtdrs(SnellenToLogmar(FractionFromInput("-20/200"), log10)) == -15.0
  {
    NormalizeExampleMinus20Over200();
    NotPhrase("-20/200", 3);
    ParseFractionExampleMinus20Over200();
  }

  lemma NormalizeExampleMinus20Over200()
    ensures Normalize("-20/200") == "-20/200"
  {
    StripNoSpaces("-20/200");
    LowerNoUpper("-20/200");
  }

  lemma ParseFractionExampleMinus20Over200()
    ensures ParseFraction("-20/200") == -0.1
  {
    SplitAround("-20", "200", '/');
    assert "-20" + ['/'] + "200" == "-20/200";
    ParseNumberExampleMinus20();
    ParseNumberExample200();
  }

  lemma ParseNumberExampleMinus20()
    ensures ParseDecimal("-20") == Some(-20.0)
  {
    FloatStripNoSpaces("-20");
    assert "-20"[1..] == "20";
    ParseUnsignedExample20();
  }

  lemma ParseUnsignedExample20()
    ensures ParseUnsigned("20") == Some(20.0)
  {
    SplitNoSeparator("20", '.');
    DigitsValue20();
  }
}
