/** The Python string operations the acuity parser and the detachment checks
    rely on: `str.strip()`, `str.lower()`, `str.split(sep)`, the substring test
    `t in s`, and the decimal-number subset of `float(s)`. */
module Text {
  import opened Numeric

  datatype Option<T> = None | Some(value: T)

  /** Python's `str.isspace()`: the characters `str.strip()` removes. */
  predicate IsSpace(c: char)
  {
    var n := c as int;
    (9 <= n <= 13) || (0x1C <= n <= 0x20) || n == 0x85 || n == 0xA0 || n == 0x1680 ||
    (0x2000 <= n <= 0x200A) || n == 0x2028 || n == 0x2029 || n == 0x202F ||
    n == 0x205F || n == 0x3000
  }

  /** The whitespace `float()` skips around a number: the same set except the
      four ASCII separators U+001C to U+001F, which `str.isspace()` accepts but
      the C-locale test that `float()` applies to ASCII characters does not. */
  predicate IsFloatSpace(c: char)
  {
    IsSpace(c) && !(0x1C <= c as int <= 0x1F)
  }

  /** Number of characters of `s` in the set `ws` at its front. */
  function LeadingIn(s: string, ws: char -> bool): (k: nat)
    ensures k <= |s|
    ensures forall i :: 0 <= i < k ==> ws(s[i])
    ensures k < |s| ==> !ws(s[k])
  {
    if s == [] || !ws(s[0]) then 0 else 1 + LeadingIn(s[1..], ws)
  }

  /** Number of characters of `s` in the set `ws` at its end. */
  function TrailingIn(s: string, ws: char -> bool): (k: nat)
    ensures k <= |s|
    ensures forall i :: |s| - k <= i < |s| ==> ws(s[i])
    ensures k < |s| ==> !ws(s[|s| - 1 - k])
  {
    if s == [] || !ws(s[|s| - 1]) then 0 else 1 + TrailingIn(s[..|s| - 1], ws)
  }

  /** Removing the characters in `ws` from both ends: `s` is the result
      surrounded by such characters only, and the result neither starts nor
      ends with one. */
  function StripBy(s: string, ws: char -> bool): (r: string)
    ensures exists i, j ::
              0 <= i <= j <= |s| && r == s[i..j] &&
              (forall k :: 0 <= k < i ==> ws(s[k])) && (forall k :: j <= k < |s| ==> ws(s[k]))
    ensures r != [] ==> !ws(r[0]) && !ws(r[|r| - 1])
  {
    var lead := LeadingIn(s, ws);
    if lead == |s| then
      assert s[|s|..|s|] == [];
      []
    else
      var trail := TrailingIn(s, ws);
      assert trail < |s| - lead;
      s[lead..|s| - trail]
  }

  /** A string that neither starts nor ends with a character of `ws` is left
      as it is. */
  lemma StripByNothing(s: string, ws: char -> bool)
    requires s != [] ==> !ws(s[0]) && !ws(s[|s| - 1])
    ensures StripBy(s, ws) == s
  {
    if s != [] {
      assert LeadingIn(s, ws) == 0;
      assert TrailingIn(s, ws) == 0;
      assert s[0..|s|] == s;
    }
  }

  /** Python `s.strip()`: `s` is the result surrounded by whitespace only, and
      the result neither starts nor ends with whitespace. */
  function Strip(s: string): (r: string)
    ensures exists i, j ::
              0 <= i <= j <= |s| && r == s[i..j] &&
              (forall k :: 0 <= k < i ==> IsSpace(s[k])) && (forall k :: j <= k < |s| ==> IsSpace(s[k]))
    ensures r != [] ==> !IsSpace(r[0]) && !IsSpace(r[|r| - 1])
  {
    StripBy(s, IsSpace)
  }

  /** The whitespace `float()` ignores around a number, removed from both
      ends. */
  function FloatStrip(s: string): (r: string)
    ensures exists i, j ::
              0 <= i <= j <= |s| && r == s[i..j] &&
              (forall k :: 0 <= k < i ==> IsFloatSpace(s[k])) &&
              (forall k :: j <= k < |s| ==> IsFloatSpace(s[k]))
    ensures r != [] ==> !IsFloatSpace(r[0]) && !IsFloatSpace(r[|r| - 1])
  {
    StripBy(s, IsFloatSpace)
  }

  /** A string that neither starts nor ends with whitespace is left as it is. */
  lemma StripNoSpaces(s: string)
    requires s != [] ==> !IsSpace(s[0]) && !IsSpace(s[|s| - 1])
    ensures Strip(s) == s
  {
    StripByNothing(s, IsSpace);
  }

  /** The same for the whitespace `float()` ignores. */
  lemma FloatStripNoSpaces(s: string)
    requires s != [] ==> !IsFloatSpace(s[0]) && !IsFloatSpace(s[|s| - 1])
    ensures FloatStrip(s) == s
  {
    StripByNothing(s, IsFloatSpace);
  }

  /** Python `c.lower()` on the ASCII letters; every other character is kept. */
  function LowerChar(c: char): char
  {
    if 'A' <= c <= 'Z' then (c as int + 32) as char else c
  }

  /** Python `s.lower()`, character by character. */
  function Lower(s: string): (r: string)
    ensures |r| == |s|
    ensures forall i :: 0 <= i < |s| ==> r[i] == LowerChar(s[i])
  {
    seq(|s|, i requires 0 <= i < |s| => LowerChar(s[i]))
  }

  /** A string without upper-case ASCII letters is its own lower-case form. */
  lemma LowerNoUpper(s: string)
    requires forall i :: 0 <= i < |s| ==> !('A' <= s[i] <= 'Z')
    ensures Lower(s) == s
  {
  }

  /** `t` is a prefix of `s`. */
  predicate IsPrefix(t: string, s: string)
  {
    |t| <= |s| && s[..|t|] == t
  }

  /** Python's substring test `t in s`: `t` occurs at some position of `s`. */
  predicate Contains(s: string, t: string)
  {
    exists i :: 0 <= i <= |s| && IsPrefix(t, s[i..])
  }

  /** An occurrence of `t` at position `i` makes `t in s` true. */
  lemma ContainsAt(s: string, t: string, i: nat)
    requires i + |t| <= |s| && s[i..i + |t|] == t
    ensures Contains(s, t)
  {
    assert s[i..][..|t|] == s[i..i + |t|];
  }

  /** If some character of `t` never occurs in `s`, then `t in s` is false. */
  lemma NotContainsMissingChar(s: string, t: string, c: char)
    requires c in t && c !in s
    ensures !Contains(s, t)
  {
  }

  /** Python `s.split(sep)` for a one-character separator: always at least one
      part, and no part contains the separator. */
  function Split(s: string, sep: char): (parts: seq<string>)
    ensures |parts| >= 1
    ensures forall k :: 0 <= k < |parts| ==> sep !in parts[k]
  {
    if s == [] then [[]]
    else if s[0] == sep then [[]] + Split(s[1..], sep)
    else
      var rest := Split(s[1..], sep);
      [[s[0]] + rest[0]] + rest[1..]
  }

  /** `sep.join(parts)`. */
  function Join(parts: seq<string>, sep: char): string
    requires |parts| >= 1
  {
    if |parts| == 1 then parts[0] else parts[0] + [sep] + Join(parts[1..], sep)
  }

  /** Number of occurrences of `c` in `s`. */
  function Occurrences(s: string, c: char): nat
  {
    if s == [] then 0 else (if s[0] == c then 1 else 0) + Occurrences(s[1..], c)
  }

  /** Splitting and joining again gives back the original string, and there is
      one part more than there are separators. */
  lemma {:induction false} SplitJoin(s: string, sep: char)
    ensures Join(Split(s, sep), sep) == s
    ensures |Split(s, sep)| == Occurrences(s, sep) + 1
  {
    if s == [] {
    } else if s[0] == sep {
      SplitJoin(s[1..], sep);
      assert s == [sep] + s[1..];
    } else {
      SplitJoin(s[1..], sep);
      var rest := Split(s[1..], sep);
      var parts := Split(s, sep);
      assert parts == [[s[0]] + rest[0]] + rest[1..];
      assert |parts| == |rest|;
      if |rest| == 1 {
        assert s == [s[0]] + rest[0];
      } else {
        assert parts[1..] == rest[1..];
        assert Join(parts, sep) == ([s[0]] + rest[0]) + [sep] + Join(rest[1..], sep);
        assert s == [s[0]] + (rest[0] + [sep] + Join(rest[1..], sep));
      }
    }
  }

  /** A string without the separator is a single part. */
  lemma {:induction false} SplitNoSeparator(s: string, sep: char)
    requires sep !in s
    ensures Split(s, sep) == [s]
  {
    if s != [] {
      assert sep !in s[1..];
      SplitNoSeparator(s[1..], sep);
      assert [s[0]] + s[1..] == s;
    }
  }

  /** Splitting `a + sep + b` where `a` has no separator yields `a` followed by
      the parts of `b`. */
  lemma {:induction false} SplitAtFirst(a: string, b: string, sep: char)
    requires sep !in a
    ensures Split(a + [sep] + b, sep) == [a] + Split(b, sep)
  {
    if a == [] {
      assert a + [sep] + b == [sep] + b;
      assert ([sep] + b)[1..] == b;
    } else {
      var s := a + [sep] + b;
      assert s[0] == a[0] && s[0] != sep;
      assert sep !in a[1..];
      assert s[1..] == a[1..] + [sep] + b;
      SplitAtFirst(a[1..], b, sep);
      assert [a[0]] + a[1..] == a;
    }
  }

  /** A text made of two separator-free parts around one separator splits
      into exactly those two parts. */
  lemma SplitAround(a: string, b: string, sep: char)
    requires sep !in a && sep !in b
    ensures Split(a + [sep] + b, sep) == [a, b]
  {
    SplitAtFirst(a, b, sep);
    SplitNoSeparator(b, sep);
  }

  predicate IsDigit(c: char) { '0' <= c <= '9' }

  predicate AllDigits(s: string) { forall i :: 0 <= i < |s| ==> IsDigit(s[i]) }

  function DigitValue(c: char): nat
    requires IsDigit(c)
  {
    c as int - '0' as int
  }

  /** The number a string of decimal digits denotes (most significant first). */
  function DigitsValue(s: string): nat
    requires AllDigits(s)
  {
    if s == [] then 0 else 10 * DigitsValue(s[..|s| - 1]) + DigitValue(s[|s| - 1])
  }

  function Pow10(n: nat): (r: nat)
    ensures r >= 1
  {
    if n == 0 then 1 else 10 * Pow10(n - 1)
  }

  /** The shortest decimal representation of `n`, as `str(n)` prints it. */
  function NatToString(n: nat): (s: string)
    ensures |s| >= 1
  {
    if n < 10 then [('0' as int + n) as char]
    else NatToString(n / 10) + [('0' as int + n % 10) as char]
  }

  /** Printing a number and reading it back gives the number again. */
  lemma {:induction false} NatToStringRoundTrip(n: nat)
    ensures AllDigits(NatToString(n))
    ensures DigitsValue(NatToString(n)) == n
  {
    if n >= 10 {
      NatToStringRoundTrip(n / 10);
      var s := NatToString(n);
      assert s[..|s| - 1] == NatToString(n / 10);
    }
  }

  /** The decimal-number subset of Python `float(s)`: the whitespace `float()`
      ignores is removed from both ends, then the text must be an optional sign
      followed by digits with at most one decimal point and at least one digit.
      Anything else is the `ValueError` case, `None`. */
  function ParseDecimal(s: string): (r: Option<real>)
    ensures r.Some? ==> FloatStrip(s) != []
    ensures r.Some? && r.value < 0.0 ==> FloatStrip(s)[0] == '-'
  {
    ParseSigned(FloatStrip(s))
  }

  /** An optional sign followed by an unsigned decimal. */
  function ParseSigned(t: string): (r: Option<real>)
    ensures r.Some? ==> t != []
    ensures r.Some? && r.value < 0.0 ==> t[0] == '-'
  {
    if t != [] && t[0] == '-' then
      match ParseUnsigned(t[1..])
      case Some(v) => Some(-v)
      case None => None
    else if t != [] && t[0] == '+' then ParseUnsigned(t[1..])
    else ParseUnsigned(t)
  }

  /** Some character of `t` is a digit. */
  predicate HasDigit(t: string) { exists i :: 0 <= i < |t| && IsDigit(t[i]) }

  /** Every character of `t` is a digit or a decimal point. */
  predicate DigitsAndPoints(t: string) { forall i :: 0 <= i < |t| ==> IsDigit(t[i]) || t[i] == '.' }

  /** An unsigned decimal: digits with at most one '.', and at least one
      digit in all ("5." and ".5" are numbers, "." is not). Exactly those
      texts are accepted. A string of digits denotes its decimal value. */
  function ParseUnsigned(t: string): (r: Option<real>)
    ensures r.Some? <==> HasDigit(t) && DigitsAndPoints(t) && Occurrences(t, '.') <= 1
    ensures r.Some? ==> r.value >= 0.0
    ensures t != [] && AllDigits(t) ==> r == Some(DigitsValue(t) as real)
  {
    var pieces := Split(t, '.');
    UnsignedShape(t);
    if |pieces| == 1 then
      if t != [] && AllDigits(t) then
        assert IsDigit(t[0]);
        Some(DigitsValue(t) as real)
      else None
    else if |pieces| == 2 then
      var whole, fraction := pieces[0], pieces[1];
      if |whole| + |fraction| > 0 && AllDigits(whole) && AllDigits(fraction) then
        DottedShape(whole, fraction);
        assert t == whole + "." + fraction;
        QuotientNonNegative(DigitsValue(fraction) as real, Pow10(|fraction|) as real);
        Some(DigitsValue(whole) as real + DigitsValue(fraction) as real / Pow10(|fraction|) as real)
      else None
    else None
  }

  /** How `t.split('.')` decomposes `t`. */
  lemma UnsignedShape(t: string)
    ensures |Split(t, '.')| == Occurrences(t, '.') + 1
    ensures AllDigits(t) ==> Split(t, '.') == [t]
    ensures |Split(t, '.')| == 1 ==> Split(t, '.') == [t] && (DigitsAndPoints(t) ==> AllDigits(t))
    ensures |Split(t, '.')| == 2 ==> t == Split(t, '.')[0] + "." + Split(t, '.')[1]
    ensures |Split(t, '.')| == 2 && DigitsAndPoints(t) ==>
              AllDigits(Split(t, '.')[0]) && AllDigits(Split(t, '.')[1])
    ensures |Split(t, '.')| == 2 && HasDigit(t) ==> |Split(t, '.')[0]| + |Split(t, '.')[1]| > 0
  {
    SplitJoin(t, '.');
    if AllDigits(t) {
      assert '.' !in t;
      SplitNoSeparator(t, '.');
    }
    var parts := Split(t, '.');
    if |parts| == 2 {
      assert parts[1..] == [parts[1]];
      var w, f := parts[0], parts[1];
      assert t == w + "." + f;
      if DigitsAndPoints(t) {
        forall i | 0 <= i < |w| ensures IsDigit(w[i]) {
          assert w[i] == t[i];
        }
        forall i | 0 <= i < |f| ensures IsDigit(f[i]) {
          assert f[i] == t[|w| + 1 + i];
        }
      }
    }
  }

  /** A text `w.f` of two digit strings, one of them non-empty, has a digit,
      only digits and points, and one point. */
  lemma DottedShape(w: string, f: string)
    requires |w| + |f| > 0 && AllDigits(w) && AllDigits(f)
    ensures HasDigit(w + "." + f) && DigitsAndPoints(w + "." + f)
    ensures Split(w + "." + f, '.') == [w, f]
  {
    var t := w + "." + f;
    forall i | 0 <= i < |t| ensures IsDigit(t[i]) || t[i] == '.' {
      if i < |w| { assert t[i] == w[i]; }
      else if i > |w| { assert t[i] == f[i - |w| - 1]; }
    }
    if |w| > 0 { assert t[0] == w[0]; } else { assert t[1] == f[0]; }
    assert '.' !in w && '.' !in f;
    SplitAround(w, f, '.');
  }

  /** `float(w + "." + f)` for digit strings `w` and `f`, not both empty,
      is the whole part `w` plus `f` read as a fraction of 10 to the number
      of its digits. */
  lemma {:induction false} ParseUnsignedDotted(w: string, f: string)
    requires |w| + |f| > 0 && AllDigits(w) && AllDigits(f)
    ensures ParseUnsigned(w + "." + f) ==
              Some(DigitsValue(w) as real + DigitsValue(f) as real / Pow10(|f|) as real)
  {
    DottedShape(w, f);
    PartsValue(w + "." + f, w, f);
  }

  lemma {:induction false} PartsValue(t: string, w: string, f: string)
    requires |w| + |f| > 0 && AllDigits(w) && AllDigits(f)
    requires Split(t, '.') == [w, f]
    ensures ParseUnsigned(t) ==
              Some(DigitsValue(w) as real + DigitsValue(f) as real / Pow10(|f|) as real)
  {
  }

  /** "2.5" is 2.5, and a lone point is not a number. */
  lemma DottedExamples()
    ensures ParseUnsigned("2.5") == Some(2.5)
    ensures ParseUnsigned(".") == None
  {
    assert "2" + "." + "5" == "2.5";
    assert "2"[..0] == [] && "5"[..0] == [];
    ParseUnsignedDotted("2", "5");
    assert !IsDigit("."[0]);
  }

  /** Without surrounding whitespace, `float()` negates the unsigned number
      after a minus sign, reads the one after a plus sign unchanged, and reads
      a text without a sign as the unsigned number it is. */
  lemma {:induction false} ParseDecimalSigned(t: string)
    requires t != [] && !IsFloatSpace(t[|t| - 1])
    ensures ParseDecimal("-" + t) ==
              if ParseUnsigned(t).Some? then Some(-ParseUnsigned(t).value) else None
    ensures ParseDecimal("+" + t) == ParseUnsigned(t)
    ensures !IsFloatSpace(t[0]) && t[0] != '-' && t[0] != '+' ==> ParseDecimal(t) == ParseUnsigned(t)
  {
    ParseDecimalMinus(t);
    ParseDecimalPlus(t);
    if !IsFloatSpace(t[0]) {
      FloatStripNoSpaces(t);
    }
  }

  /** `float()` reads a text as it reads the text with the surrounding
      whitespace removed, so a padded number has the value of the unpadded
      one. */
  lemma {:induction false} ParseDecimalStripped(s: string)
    ensures ParseDecimal(s) == ParseDecimal(FloatStrip(s))
  {
    var t := FloatStrip(s);
    FloatStripNoSpaces(t);
    assert FloatStrip(t) == t;
  }

  lemma {:induction false} ParseDecimalMinus(t: string)
    requires t != [] && !IsFloatSpace(t[|t| - 1])
    ensures ParseDecimal("-" + t) ==
              if ParseUnsigned(t).Some? then Some(-ParseUnsigned(t).value) else None
  {
    var s := "-" + t;
    FloatStripNoSpaces(s);
    assert FloatStrip(s)[0] == '-' && FloatStrip(s)[1..] == t;
  }

  lemma {:induction false} ParseDecimalPlus(t: string)
    requires t != [] && !IsFloatSpace(t[|t| - 1])
    ensures ParseDecimal("+" + t) == ParseUnsigned(t)
  {
    var s := "+" + t;
    FloatStripNoSpaces(s);
    assert FloatStrip(s)[0] == '+' && FloatStrip(s)[1..] == t;
  }

  /** `float(s)` of a non-empty string of digits is the number it denotes. */
  lemma ParseDecimalOfDigits(s: string)
    requires s != [] && AllDigits(s)
    ensures ParseDecimal(s) == Some(DigitsValue(s) as real)
  {
    assert !IsFloatSpace(s[0]) && !IsFloatSpace(s[|s| - 1]);
    FloatStripNoSpaces(s);
    assert s[0] != '-' && s[0] != '+';
    assert '.' !in s;
    SplitNoSeparator(s, '.');
  }

  /** `float(str(n)) == n` for every natural number. */
  lemma ParseDecimalOfNat(n: nat)
    ensures ParseDecimal(NatToString(n)) == Some(n as real)
  {
    NatToStringRoundTrip(n);
    ParseDecimalOfDigits(NatToString(n));
  }
}
