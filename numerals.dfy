/**
 * Decimal numerals: fixed-width and minimal digit strings of naturals,
 * their values, the decimal syntax accepted by the amount parser, and the
 * `"%.2f"` rendering of an amount (HALF_UP rounding to hundredths).
 */
module Numerals {
  import opened Wrappers
  import opened Text

  predicate IsDigit(c: char) {
    '0' <= c <= '9'
  }

  predicate AllDigits(s: string) {
    forall i | 0 <= i < |s| :: IsDigit(s[i])
  }

  function DigitChar(d: int): (c: char)
    requires 0 <= d < 10
    ensures IsDigit(c)
  {
    ('0' as int + d) as char
  }

  function DigitValue(c: char): (d: int)
    requires IsDigit(c)
    ensures 0 <= d < 10 && DigitChar(d) == c
  {
    c as int - '0' as int
  }

  function Pow10(w: nat): (p: nat)
    ensures p >= 1
  {
    if w == 0 then 1 else 10 * Pow10(w - 1)
  }

  /** `n` written with exactly `w` digits, most significant first, padded with leading zeros. */
  function Digits(n: nat, w: nat): (s: string)
    ensures |s| == w && AllDigits(s)
  {
    if w == 0 then [] else Digits(n / 10, w - 1) + [DigitChar(n % 10)]
  }

  /** `n.toString()`: the shortest decimal numeral, "0" for zero. */
  function NatToString(n: nat): (s: string)
    ensures |s| >= 1 && AllDigits(s)
    ensures s[0] == '0' <==> n == 0
    ensures n == 0 ==> s == "0"
  {
    if n < 10 then [DigitChar(n)] else NatToString(n / 10) + [DigitChar(n % 10)]
  }

  /** The value of a digit string, most significant digit first. */
  function ValueOf(s: string): nat
    requires AllDigits(s)
  {
    if s == [] then 0 else ValueOf(s[..|s| - 1]) * 10 + DigitValue(s[|s| - 1])
  }

  lemma {:induction false} ValueOfBound(s: string)
    requires AllDigits(s)
    ensures ValueOf(s) < Pow10(|s|)
  {
    if s != [] {
      ValueOfBound(s[..|s| - 1]);
    }
  }

  /** Round trip: reading back a fixed-width numeral gives the number. */
  lemma {:induction false} ValueOfDigits(n: nat, w: nat)
    requires n < Pow10(w)
    ensures ValueOf(Digits(n, w)) == n
  {
    if w > 0 {
      var s := Digits(n, w);
      assert s[..|s| - 1] == Digits(n / 10, w - 1);
      ValueOfDigits(n / 10, w - 1);
    }
  }

  /** Round trip: reading back `n.toString()` gives `n`. */
  lemma {:induction false} ValueOfNatToString(n: nat)
    ensures ValueOf(NatToString(n)) == n
  {
    if n >= 10 {
      var s := NatToString(n);
      assert s[..|s| - 1] == NatToString(n / 10);
      ValueOfNatToString(n / 10);
    }
  }

  /** Fixed-width numerals compare as strings exactly as their values compare. */
  lemma {:induction false} DigitsOrder(n: nat, m: nat, w: nat)
    requires n < Pow10(w) && m < Pow10(w)
    ensures StrLess(Digits(n, w), Digits(m, w)) <==> n < m
    ensures Digits(n, w) == Digits(m, w) <==> n == m
  {
    if w > 0 {
      DigitsOrder(n / 10, m / 10, w - 1);
      var c, d := DigitChar(n % 10), DigitChar(m % 10);
      StrLessConcat(Digits(n / 10, w - 1), Digits(m / 10, w - 1), [c], [d]);
      assert StrLess([c], [d]) <==> c < d by {
        assert [c][1..] == [] && [d][1..] == [];
      }
      ValueOfDigits(n, w);
      ValueOfDigits(m, w);
    }
  }

  /**
   * Length of the longest prefix of `s` made of digits.
   */
  function DigitRun(s: string): (i: nat)
    ensures i <= |s| && AllDigits(s[..i])
    ensures i < |s| ==> !IsDigit(s[i])
  {
    if s == [] || !IsDigit(s[0]) then 0
    else
      var i := 1 + DigitRun(s[1..]);
      assert s[..i] == [s[0]] + s[1..][..i - 1];
      i
  }

  lemma {:induction false} DigitRunOfDigits(s: string, t: string)
    requires AllDigits(s)
    requires t == [] || !IsDigit(t[0])
    ensures DigitRun(s + t) == |s|
  {
    if s == [] {
      assert s + t == t;
    } else {
      assert (s + t)[0] == s[0] && (s + t)[1..] == s[1..] + t;
      DigitRunOfDigits(s[1..], t);
    }
  }

  /** The value of the digits after the decimal point: `"25"` is 0.25. */
  function Fraction(f: string): (v: real)
    requires AllDigits(f)
    ensures 0.0 <= v
  {
    ValueOf(f) as real / Pow10(|f|) as real
  }

  /**
   * An unsigned decimal `D+ ('.' D*)?` or `'.' D+`, with its exact value.
   */
  function ParseUnsigned(s: string): (r: Option<real>)
  {
    var i := DigitRun(s);
    var whole := ValueOf(s[..i]) as real;
    if i == |s| then
      if i > 0 then Some(whole) else None
    else if s[i] != '.' then None
    else
      var frac := s[i + 1..];
      if !AllDigits(frac) || (i == 0 && frac == []) then None
      else Some(whole + Fraction(frac))
  }

  /** An optional sign followed by an unsigned decimal; anything else gives `None`. */
  function ParseSignedNumeral(s: string): (r: Option<real>)
    ensures s == [] ==> r == None
  {
    if s != [] && (s[0] == '-' || s[0] == '+') then
      match ParseUnsigned(s[1..])
      case None => None
      case Some(v) => Some(if s[0] == '-' then -v else v)
    else
      ParseUnsigned(s)
  }

  /** The characters `toDoubleOrNull()` skips around a numeral: code points up to U+0020. */
  predicate IsPadding(c: char) {
    c <= ' '
  }

  /** The Java type suffix a floating-point literal may end with. */
  predicate IsTypeSuffix(c: char) {
    c == 'f' || c == 'F' || c == 'd' || c == 'D'
  }

  /** `s` without its leading padding. */
  function TrimPaddingStart(s: string): (t: string)
    ensures |t| <= |s|
  {
    if s != [] && IsPadding(s[0]) then TrimPaddingStart(s[1..]) else s
  }

  /** `TrimPaddingStart` keeps a suffix of `s` that does not open with padding, and drops only padding. */
  lemma {:induction false} TrimPaddingStartSpec(s: string)
    ensures var t := TrimPaddingStart(s);
      t == s[|s| - |t|..] && (t == [] || !IsPadding(t[0]))
      && forall i | 0 <= i < |s| - |t| :: IsPadding(s[i])
  {
    if s != [] && IsPadding(s[0]) {
      TrimPaddingStartSpec(s[1..]);
    }
  }

  /** `s` without its trailing padding. */
  function TrimPaddingEnd(s: string): (t: string)
    ensures |t| <= |s|
  {
    if s != [] && IsPadding(s[|s| - 1]) then TrimPaddingEnd(s[..|s| - 1]) else s
  }

  /** `TrimPaddingEnd` keeps a prefix of `s` that does not close with padding, and drops only padding. */
  lemma {:induction false} TrimPaddingEndSpec(s: string)
    ensures var t := TrimPaddingEnd(s);
      t == s[..|t|] && (t == [] || !IsPadding(t[|t| - 1]))
      && forall i | |t| <= i < |s| :: IsPadding(s[i])
  {
    if s != [] && IsPadding(s[|s| - 1]) {
      TrimPaddingEndSpec(s[..|s| - 1]);
    }
  }

  function DropTypeSuffix(s: string): (t: string)
    ensures t == s || (s != [] && IsTypeSuffix(s[|s| - 1]) && t == s[..|s| - 1])
  {
    if s != [] && IsTypeSuffix(s[|s| - 1]) then s[..|s| - 1] else s
  }

  /**
   * `toDoubleOrNull()` restricted to decimal numerals: padding on either
   * side, an optional sign, an unsigned decimal and an optional type
   * suffix; anything else gives `None`.
   */
  function ParseDecimal(s: string): (r: Option<real>)
    ensures (forall i | 0 <= i < |s| :: IsPadding(s[i])) ==> r == None
  {
    TrimPaddingStartSpec(s);
    ParseSignedNumeral(DropTypeSuffix(TrimPaddingEnd(TrimPaddingStart(s))))
  }

  /** Padding in front of or after the text does not change what it reads as. */
  lemma ParseDecimalSkipsPadding(s: string, c: char)
    requires IsPadding(c)
    ensures ParseDecimal([c] + s) == ParseDecimal(s)
    ensures ParseDecimal(s + [c]) == ParseDecimal(s)
  {
    assert ([c] + s)[1..] == s;
    var front := TrimPaddingStart(s);
    if front == [] {
      TrimPaddingStartAppend(s, [c]);
      assert TrimPaddingStart([c]) == TrimPaddingStart([c][1..]);
    } else {
      TrimPaddingStartAppend(s, [c]);
      assert (front + [c])[..|front|] == front;
    }
  }

  lemma {:induction false} TrimPaddingStartAppend(s: string, x: string)
    ensures TrimPaddingStart(s) != [] ==> TrimPaddingStart(s + x) == TrimPaddingStart(s) + x
    ensures TrimPaddingStart(s) == [] ==> TrimPaddingStart(s + x) == TrimPaddingStart(x)
  {
    if s == [] {
      assert s + x == x;
    } else if IsPadding(s[0]) {
      assert (s + x)[0] == s[0] && (s + x)[1..] == s[1..] + x;
      TrimPaddingStartAppend(s[1..], x);
    } else {
      assert (s + x)[0] == s[0];
    }
  }

  /** A numeral with no padding reads as it does without its type suffix. */
  lemma ParseDecimalTypeSuffix(u: string, c: char)
    requires IsTypeSuffix(c) && u != [] && !IsPadding(u[0])
    requires !IsPadding(u[|u| - 1]) && !IsTypeSuffix(u[|u| - 1])
    ensures ParseDecimal(u + [c]) == ParseDecimal(u) == ParseSignedNumeral(u)
  {
    var v := u + [c];
    assert v[0] == u[0] && v[|v| - 1] == c && v[..|v| - 1] == u;
    ParseDecimalPlain(u);
  }

  /** Text made of digits, signs and points reads as a signed numeral. */
  lemma NumeralWithoutPadding(s: string)
    requires '.' in s
    requires forall i | 0 <= i < |s| :: IsDigit(s[i]) || s[i] == '-' || s[i] == '.'
    ensures ParseDecimal(s) == ParseSignedNumeral(s)
  {
    assert IsDigit(s[0]) || s[0] == '-' || s[0] == '.';
    assert IsDigit(s[|s| - 1]) || s[|s| - 1] == '-' || s[|s| - 1] == '.';
    ParseDecimalPlain(s);
  }

  /** Text with no padding and no type suffix reads as a signed numeral. */
  lemma ParseDecimalPlain(u: string)
    requires u != [] && !IsPadding(u[0])
    requires !IsPadding(u[|u| - 1]) && !IsTypeSuffix(u[|u| - 1])
    ensures ParseDecimal(u) == ParseSignedNumeral(u)
  {
  }

  function Abs(a: real): real {
    if a < 0.0 then -a else a
  }

  /** The magnitude of `a` in hundredths, rounded HALF_UP as `"%.2f"` does. */
  function Cents(a: real): (c: nat)
    ensures (c as real) - 0.5 <= Abs(a) * 100.0 < (c as real) + 0.5
  {
    (Abs(a) * 100.0 + 0.5).Floor
  }

  /** The value `"%.2f"` displays: `a` rounded HALF_UP to two decimals. */
  function RoundHalfUp2(a: real): (r: real)
    ensures Abs(r - a) <= 0.005
  {
    var v := Cents(a) as real / 100.0;
    if a < 0.0 then -v else v
  }

  /** `String.format("%.2f", a)` with '.' as decimal separator. */
  function FormatFixed2(a: real): (s: string)
    ensures forall i | 0 <= i < |s| :: IsDigit(s[i]) || s[i] == '-' || s[i] == '.'
    ensures ',' !in s && '.' in s
  {
    var c := Cents(a);
    var s := (if a < 0.0 then "-" else "") + NatToString(c / 100) + "." + Digits(c % 100, 2);
    assert s[|s| - 3] == '.';
    s
  }

  /** The case of `ParseUnsigned` with digits on both sides of the point. */
  lemma ParseUnsignedPoint(s: string, i: nat)
    requires i == DigitRun(s) && 0 < i < |s| && s[i] == '.'
    requires s[i + 1..] != [] && AllDigits(s[i + 1..])
    ensures ParseUnsigned(s) == Some(ValueOf(s[..i]) as real + Fraction(s[i + 1..]))
  {
    var frac := s[i + 1..];
    assert !(!AllDigits(frac) || (i == 0 && frac == []));
  }

  lemma PointSplit(w: string, f: string)
    ensures var s := w + "." + f;
      s == w + ("." + f) && s[..|w|] == w && s[|w|] == '.' && s[|w| + 1..] == f
  {
  }

  /** A digit run, a point and a non-empty digit run read as whole part plus fraction. */
  lemma ParseUnsignedParts(w: string, f: string)
    requires w != [] && AllDigits(w) && f != [] && AllDigits(f)
    ensures ParseUnsigned(w + "." + f) == Some(ValueOf(w) as real + Fraction(f))
    ensures IsDigit((w + "." + f)[0])
  {
    var s := w + "." + f;
    PointSplit(w, f);
    assert s[0] == w[0];
    DigitRunOfDigits(w, "." + f);
    ParseUnsignedPoint(s, |w|);
  }

  /** A numeral with digits on both sides of the point, and an optional sign, reads as its value. */
  lemma SignedNumeral(whole: string, frac: string, v: real, negative: bool)
    requires whole != [] && AllDigits(whole) && frac != [] && AllDigits(frac)
    requires ValueOf(whole) as real + Fraction(frac) == v
    ensures ParseSignedNumeral((if negative then "-" else "") + (whole + "." + frac)) == Some(if negative then -v else v)
  {
    var u := whole + "." + frac;
    ParseUnsignedParts(whole, frac);
    ParseOptionalSign(u, v, negative);
  }

  /** Round trip: `w` fraction digits of `n` read back as `n` over ten to the `w`. */
  lemma FractionOfDigits(n: nat, w: nat)
    requires n < Pow10(w)
    ensures Fraction(Digits(n, w)) == n as real / Pow10(w) as real
  {
    ValueOfDigits(n, w);
  }

  lemma FractionOfTwoDigits(n: nat)
    requires n < 100
    ensures Fraction(Digits(n, 2)) == n as real / 100.0
  {
    assert Pow10(2) == 100;
    FractionOfDigits(n, 2);
  }

  lemma FractionOfOneDigit(n: nat)
    requires n < 10
    ensures Fraction(Digits(n, 1)) == n as real / 10.0
  {
    assert Pow10(1) == 10;
    FractionOfDigits(n, 1);
  }

  lemma SplitHundredths(c: nat)
    ensures (c / 100) as real + (c % 100) as real / 100.0 == c as real / 100.0
  {
    var q, r := c / 100, c % 100;
    assert c == 100 * q + r;
    assert c as real == 100.0 * q as real + r as real;
  }

  lemma ParseSigned(u: string, v: real)
    requires u != [] && IsDigit(u[0]) && ParseUnsigned(u) == Some(v)
    ensures ParseSignedNumeral(u) == Some(v)
    ensures ParseSignedNumeral("-" + u) == Some(-v)
  {
    assert ("-" + u)[0] == '-' && ("-" + u)[1..] == u;
  }

  /** A sign in front of an unsigned numeral negates its value; no sign keeps it. */
  lemma ParseOptionalSign(u: string, v: real, negative: bool)
    requires u != [] && IsDigit(u[0]) && ParseUnsigned(u) == Some(v)
    ensures ParseSignedNumeral((if negative then "-" else "") + u) == Some(if negative then -v else v)
  {
    ParseSigned(u, v);
    if !negative {
      assert "" + u == u;
    }
  }

  lemma FormatFixed2Parts(a: real)
    ensures var c := Cents(a);
      FormatFixed2(a) == (if a < 0.0 then "-" else "") + (NatToString(c / 100) + "." + Digits(c % 100, 2))
      && RoundHalfUp2(a) == if a < 0.0 then -(c as real / 100.0) else c as real / 100.0
  {
  }

  /** The whole part and the two fraction digits of `c` hundredths together make `c` hundredths. */
  lemma CentsValue(c: nat)
    ensures ValueOf(NatToString(c / 100)) as real + Fraction(Digits(c % 100, 2)) == c as real / 100.0
  {
    ValueOfNatToString(c / 100);
    FractionOfTwoDigits(c % 100);
    SplitHundredths(c);
  }

  /** `c` hundredths written with 2 decimals, and an optional sign, read back as their value. */
  lemma CentsNumeral(c: nat, negative: bool)
    ensures var v := c as real / 100.0;
      ParseSignedNumeral((if negative then "-" else "") + (NatToString(c / 100) + "." + Digits(c % 100, 2)))
      == Some(if negative then -v else v)
  {
    CentsValue(c);
    SignedNumeral(NatToString(c / 100), Digits(c % 100, 2), c as real / 100.0, negative);
  }

  /** Round trip: parsing `"%.2f"` output gives back the displayed, rounded value. */
  lemma ParseFormatFixed2(a: real)
    ensures ParseDecimal(FormatFixed2(a)) == Some(RoundHalfUp2(a))
  {
    FormatFixed2Parts(a);
    CentsNumeral(Cents(a), a < 0.0);
    NumeralWithoutPadding(FormatFixed2(a));
  }

  lemma CentsOfHundredths(p: int)
    ensures Cents(p as real / 100.0) == if p < 0 then -p else p
  {
    var a := p as real / 100.0;
    var m := if p < 0 then -p else p;
    assert Abs(a) == m as real / 100.0;
    assert Abs(a) * 100.0 == m as real;
  }

  /** Amounts with whole hundredths are displayed exactly. */
  lemma RoundHalfUp2Exact(p: int)
    ensures RoundHalfUp2(p as real / 100.0) == p as real / 100.0
  {
    CentsOfHundredths(p);
  }

  /** The magnitude of `a` in tenths, rounded HALF_UP as `"%.1f"` does. */
  function Tenths(a: real): (t: nat)
    ensures (t as real) - 0.5 <= Abs(a) * 10.0 < (t as real) + 0.5
  {
    (Abs(a) * 10.0 + 0.5).Floor
  }

  /** The value `"%.1f"` displays: `a` rounded HALF_UP to one decimal. */
  function RoundHalfUp1(a: real): (r: real)
    ensures Abs(r - a) <= 0.05
  {
    var v := Tenths(a) as real / 10.0;
    if a < 0.0 then -v else v
  }

  /** `String.format("%.1f", a)` with '.' as decimal separator. */
  function FormatFixed1(a: real): (s: string)
    ensures forall i | 0 <= i < |s| :: IsDigit(s[i]) || s[i] == '-' || s[i] == '.'
    ensures |s| >= 3 && s[|s| - 2] == '.'
    ensures s[0] == '-' <==> a < 0.0
  {
    var t := Tenths(a);
    (if a < 0.0 then "-" else "") + NatToString(t / 10) + "." + Digits(t % 10, 1)
  }

  lemma SplitTenths(t: nat)
    ensures (t / 10) as real + (t % 10) as real / 10.0 == t as real / 10.0
  {
    var q, r := t / 10, t % 10;
    assert t == 10 * q + r;
    assert t as real == 10.0 * q as real + r as real;
  }

  lemma FormatFixed1Parts(a: real)
    ensures var t := Tenths(a);
      FormatFixed1(a) == (if a < 0.0 then "-" else "") + (NatToString(t / 10) + "." + Digits(t % 10, 1))
      && RoundHalfUp1(a) == if a < 0.0 then -(t as real / 10.0) else t as real / 10.0
  {
  }

  /** The whole part and the fraction digit of `c` tenths together make `c` tenths. */
  lemma TenthsValue(c: nat)
    ensures ValueOf(NatToString(c / 10)) as real + Fraction(Digits(c % 10, 1)) == c as real / 10.0
  {
    ValueOfNatToString(c / 10);
    FractionOfOneDigit(c % 10);
    SplitTenths(c);
  }

  /** `c` tenths written with 1 decimal, and an optional sign, read back as their value. */
  lemma TenthsNumeral(c: nat, negative: bool)
    ensures var v := c as real / 10.0;
      ParseSignedNumeral((if negative then "-" else "") + (NatToString(c / 10) + "." + Digits(c % 10, 1)))
      == Some(if negative then -v else v)
  {
    TenthsValue(c);
    SignedNumeral(NatToString(c / 10), Digits(c % 10, 1), c as real / 10.0, negative);
  }

  /** Round trip: parsing `"%.1f"` output gives back the displayed, rounded value. */
  lemma ParseFormatFixed1(a: real)
    ensures ParseDecimal(FormatFixed1(a)) == Some(RoundHalfUp1(a))
  {
    FormatFixed1Parts(a);
    TenthsNumeral(Tenths(a), a < 0.0);
    NumeralWithoutPadding(FormatFixed1(a));
  }

  // ------------------------------------------------------------ negated values

  /**
   * `String.format("%.2f", -a)` for a Double `a` other than -0.0. The
   * Formatter prints a sign for every negative value and for -0.0, which
   * is what negating 0.0 gives; so `-a` shows a minus sign exactly when
   * `a >= 0`, followed by the magnitude as `"%.2f"` rounds it.
   */
  function FormatFixed2Negated(a: real): (s: string)
    ensures |s| > 0 && (s[0] == '-' <==> a >= 0.0)
    ensures a != 0.0 ==> s == FormatFixed2(-a)
    ensures a == 0.0 ==> s == "-" + FormatFixed2(a)
  {
    FormatFixed2Parts(-a);
    if a == 0.0 then "-" + FormatFixed2(a) else FormatFixed2(-a)
  }

  /** A minus sign in front of `"%.2f"` of a non-negative value negates its numeral. */
  lemma MinusFixed2(b: real, c: nat)
    requires b >= 0.0 && c == Cents(b)
    ensures ParseSignedNumeral("-" + FormatFixed2(b)) == Some(-(c as real / 100.0))
  {
    assert FormatFixed2(b) == NatToString(c / 100) + "." + Digits(c % 100, 2) by { FormatFixed2Parts(b); }
    CentsNumeral(c, true);
  }

  /** `"%.2f"` of -0.0 reads back as zero. */
  lemma MinusZero2(z: real)
    requires z == 0.0
    ensures ParseDecimal("-" + FormatFixed2(z)) == Some(0.0)
  {
    MinusFixed2(z, 0);
    MinusPlain(FormatFixed2(z));
  }

  /** `String.format("%.1f", -a)` for a Double `a` other than -0.0, as `FormatFixed2Negated`. */
  function FormatFixed1Negated(a: real): (s: string)
    ensures |s| > 0 && (s[0] == '-' <==> a >= 0.0)
    ensures a != 0.0 ==> s == FormatFixed1(-a)
    ensures a == 0.0 ==> s == "-" + FormatFixed1(a)
  {
    FormatFixed1Parts(-a);
    if a == 0.0 then "-" + FormatFixed1(a) else FormatFixed1(-a)
  }

  /** A minus sign in front of `"%.1f"` of a non-negative value negates its numeral. */
  lemma MinusFixed1(b: real, t: nat)
    requires b >= 0.0 && t == Tenths(b)
    ensures ParseSignedNumeral("-" + FormatFixed1(b)) == Some(-(t as real / 10.0))
  {
    assert FormatFixed1(b) == NatToString(t / 10) + "." + Digits(t % 10, 1) by { FormatFixed1Parts(b); }
    TenthsNumeral(t, true);
  }

  /** `"%.1f"` of -0.0 reads back as zero. */
  lemma MinusZero1(z: real)
    requires z == 0.0
    ensures ParseDecimal("-" + FormatFixed1(z)) == Some(0.0)
  {
    MinusFixed1(z, 0);
    MinusPlain(FormatFixed1(z));
  }

  /** A minus sign in front of a numeral adds no padding and no type suffix. */
  lemma MinusPlain(f: string)
    requires f != [] && (IsDigit(f[|f| - 1]) || f[|f| - 1] == '-' || f[|f| - 1] == '.')
    ensures ParseDecimal("-" + f) == ParseSignedNumeral("-" + f)
  {
    var g := "-" + f;
    assert g[|g| - 1] == f[|f| - 1];
    ParseDecimalPlain(g);
  }
}
