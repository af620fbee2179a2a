/** The JavaScript `Number(value)` conversion, applied to the strings that an
    HTML `<input type="number">` hands to its change handler. Such a string is
    either empty (nothing or nothing valid was typed) or a valid floating-point
    number in the sense of section 2.3.4.3 of the HTML Living Standard: an
    optional '-', then digits, digits '.' digits, or '.' digits, then
    optionally 'e' or 'E', an optional sign and digits. */
module JsNumbers {

  predicate IsDigit(c: char) { '0' <= c <= '9' }

  predicate AllDigits(s: string) { forall i :: 0 <= i < |s| ==> IsDigit(s[i]) }

  function DigitValue(c: char): (d: nat)
    requires IsDigit(c)
    ensures d < 10
  {
    c as int - '0' as int
  }

  function DigitChar(d: nat): (c: char)
    requires d < 10
    ensures IsDigit(c) && DigitValue(c) == d
  {
    ('0' as int + d) as char
  }

  /** The value of a string of decimal digits, most significant first. */
  function DigitsValue(s: string): nat
    requires AllDigits(s)
  {
    if s == [] then 0 else DigitsValue(s[..|s| - 1]) * 10 + DigitValue(s[|s| - 1])
  }

  function Pow10(k: nat): (p: nat)
    ensures p >= 1
  {
    if k == 0 then 1 else 10 * Pow10(k - 1)
  }

  /** Position of the first '.' in s, or |s| when there is none. */
  function DotIndex(s: string): (k: nat)
    ensures k <= |s|
    ensures k < |s| ==> s[k] == '.'
    ensures forall i :: 0 <= i < k ==> s[i] != '.'
  {
    if s == [] then 0 else if s[0] == '.' then 0 else 1 + DotIndex(s[1..])
  }

  predicate IsExponentMark(c: char) { c == 'e' || c == 'E' }

  /** Position of the first 'e' or 'E' in s, or |s| when there is none. */
  function ExpIndex(s: string): (k: nat)
    ensures k <= |s|
    ensures k < |s| ==> IsExponentMark(s[k])
    ensures forall i :: 0 <= i < k ==> !IsExponentMark(s[i])
  {
    if s == [] then 0 else if IsExponentMark(s[0]) then 0 else 1 + ExpIndex(s[1..])
  }

  /** The significand: digits, digits '.' digits, or '.' digits. */
  predicate IsDecimal(m: string) {
    var k := DotIndex(m);
    AllDigits(m[..k]) && ((0 < k && k == |m|) || (k + 1 < |m| && AllDigits(m[k + 1..])))
  }

  /** What follows the exponent mark: an optional sign and at least one digit. */
  predicate IsExponent(t: string) {
    if |t| > 0 && (t[0] == '-' || t[0] == '+') then 1 < |t| && AllDigits(t[1..])
    else 0 < |t| && AllDigits(t)
  }

  /** A numeral without a leading '-'. */
  predicate IsUnsignedNumeral(s: string) {
    var j := ExpIndex(s);
    IsDecimal(s[..j]) && (j == |s| || IsExponent(s[j + 1..]))
  }

  predicate IsNumeral(s: string) {
    if |s| > 0 && s[0] == '-' then IsUnsignedNumeral(s[1..]) else IsUnsignedNumeral(s)
  }

  /** What a number input can report: nothing, or a numeral. */
  predicate IsNumberInput(s: string) { s == "" || IsNumeral(s) }

  /** The digits before the '.'; none stands for 0. */
  function IntegerPart(m: string): nat
    requires IsDecimal(m)
  {
    DigitsValue(m[..DotIndex(m)])
  }

  function FractionPart(m: string): (r: real)
    requires IsDecimal(m)
    ensures r >= 0.0
  {
    var k := DotIndex(m);
    if k == |m| then 0.0 else DigitsValue(m[k + 1..]) as real / Pow10(|m| - k - 1) as real
  }

  function DecimalValue(m: string): (r: real)
    requires IsDecimal(m)
    ensures r >= 0.0
  {
    IntegerPart(m) as real + FractionPart(m)
  }

  function ExponentValue(t: string): int
    requires IsExponent(t)
  {
    if t[0] == '-' then -(DigitsValue(t[1..]) as int)
    else if t[0] == '+' then DigitsValue(t[1..])
    else DigitsValue(t)
  }

  /** 10 raised to e, for a whole exponent of either sign. */
  function Scale(e: int): (r: real)
    ensures r > 0.0
  {
    if e >= 0 then Pow10(e) as real else 1.0 / Pow10(-e) as real
  }

  /** m times 10 to the e. */
  function Shifted(m: real, e: int): (r: real)
    requires m >= 0.0
    ensures r >= 0.0
  {
    NonNegativeProduct(m, Scale(e));
    m * Scale(e)
  }

  function UnsignedValue(s: string): (r: real)
    requires IsUnsignedNumeral(s)
    ensures r >= 0.0
  {
    var j := ExpIndex(s);
    if j == |s| then DecimalValue(s[..j])
    else Shifted(DecimalValue(s[..j]), ExponentValue(s[j + 1..]))
  }

  /** A numeral with an exponent is its significand times 10 to the exponent. */
  lemma ExponentValueSplit(s: string)
    requires IsUnsignedNumeral(s) && ExpIndex(s) < |s|
    ensures UnsignedValue(s) == Shifted(DecimalValue(s[..ExpIndex(s)]), ExponentValue(s[ExpIndex(s) + 1..]))
  {
  }

  lemma NonNegativeProduct(a: real, b: real)
    requires a >= 0.0 && b > 0.0
    ensures a * b >= 0.0
  {
  }

  /** `Number(s)`: the empty string converts to 0, a numeral to its value. */
  function ToNumber(s: string): (r: real)
    requires IsNumberInput(s)
    ensures s == "" ==> r == 0.0
    ensures s != "" && s[0] != '-' ==> r >= 0.0
    ensures s != "" && s[0] == '-' ==> r <= 0.0
  {
    if s == "" then 0.0
    else if s[0] == '-' then -UnsignedValue(s[1..])
    else UnsignedValue(s)
  }

  /** The decimal digits of n, most significant first. */
  function NatToString(n: nat): (s: string)
    ensures |s| >= 1 && AllDigits(s)
  {
    if n < 10 then [DigitChar(n)] else NatToString(n / 10) + [DigitChar(n % 10)]
  }

  lemma {:induction false} DigitsOfNatToString(n: nat)
    ensures DigitsValue(NatToString(n)) == n
  {
    var s := NatToString(n);
    if n >= 10 {
      DigitsOfNatToString(n / 10);
      assert s[..|s| - 1] == NatToString(n / 10);
    }
  }

  lemma NoMarksInDigits(s: string)
    requires AllDigits(s)
    ensures DotIndex(s) == |s| && ExpIndex(s) == |s|
  {
    assert forall i :: 0 <= i < |s| ==> s[i] != '.' && !IsExponentMark(s[i]);
  }

  /** Converting the digits of a whole number gives that number back. */
  lemma {:induction false} NatToStringRoundTrip(n: nat)
    ensures IsNumberInput(NatToString(n))
    ensures ToNumber(NatToString(n)) == n as real
  {
    var s := NatToString(n);
    NoMarksInDigits(s);
    assert s[..|s|] == s;
    DigitsOfNatToString(n);
  }

  lemma {:induction false} DigitsBelowPow10(s: string)
    requires AllDigits(s)
    ensures DigitsValue(s) < Pow10(|s|)
  {
    if s != [] {
      DigitsBelowPow10(s[..|s| - 1]);
    }
  }

  lemma FractionBelowOne(d: nat, p: nat)
    requires d < p
    ensures 0.0 <= d as real / p as real < 1.0
  {
    var q := d as real / p as real;
    assert q * p as real == d as real;
  }

  /** The digits after the '.' make a fraction below one, so a significand's
      value lies between its integer part and the next integer. */
  lemma {:induction false} DecimalValueBounds(m: string)
    requires IsDecimal(m)
    ensures IntegerPart(m) as real <= DecimalValue(m) < IntegerPart(m) as real + 1.0
  {
    var k := DotIndex(m);
    if k < |m| {
      DigitsBelowPow10(m[k + 1..]);
      FractionBelowOne(DigitsValue(m[k + 1..]), Pow10(|m| - k - 1));
    }
  }

  /** An unsigned numeral starts with a digit or a '.', never with a sign. */
  lemma UnsignedStart(s: string)
    requires IsUnsignedNumeral(s)
    ensures s != "" && (IsDigit(s[0]) || s[0] == '.')
  {
    var j := ExpIndex(s);
    var m := s[..j];
    assert m != "";
    assert m[0] == s[0];
    if DotIndex(m) > 0 {
      assert IsDigit(m[..DotIndex(m)][0]);
    }
  }

  /** A leading '-' negates the value. */
  lemma MinusNegates(s: string)
    requires IsUnsignedNumeral(s)
    ensures IsNumberInput("-" + s)
    ensures ToNumber("-" + s) == -ToNumber(s)
  {
    UnsignedStart(s);
    assert ("-" + s)[1..] == s;
    assert ("-" + s)[0] == '-';
  }

  /** The digit before the '.' may be left out: ".d" and "0.d" are the same number. */
  lemma LeadingDotIsZeroPoint(d: string)
    requires |d| > 0 && AllDigits(d)
    ensures IsNumberInput("." + d) && IsNumberInput("0." + d)
    ensures ToNumber("." + d) == ToNumber("0." + d)
  {
    var a, b := "." + d, "0." + d;
    NoMarksInDigits(d);
    assert a == ['.'] + d;
    assert b == ['0', '.'] + d;
    assert DotIndex(a) == 0;
    assert b[1..] == a;
    assert DotIndex(b) == 1;
    assert ExpIndex(a) == |a| by {
      assert !IsExponentMark(a[0]);
      assert a[1..] == d;
    }
    assert ExpIndex(b) == |b| by {
      assert !IsExponentMark(b[0]);
    }
    assert a[..|a|] == a && b[..|b|] == b;
    assert a[1..] == d && b[2..] == d;
    assert b[..1] == "0" && a[..0] == "";
    assert DigitsValue("0") == 0 by { assert "0"[..0] == ""; }
  }

  /** A significand is made of digits and one '.'. */
  lemma DecimalChars(m: string)
    requires IsDecimal(m)
    ensures forall i :: 0 <= i < |m| ==> IsDigit(m[i]) || m[i] == '.'
  {
    var k := DotIndex(m);
    forall i | 0 <= i < |m|
      ensures IsDigit(m[i]) || m[i] == '.'
    {
      if i < k {
        assert m[..k][i] == m[i];
      } else if i > k {
        assert m[k + 1..][i - k - 1] == m[i];
      }
    }
  }

  /** A significand holds no exponent mark and starts with a digit or a '.'. */
  lemma DecimalShape(m: string)
    requires IsDecimal(m)
    ensures ExpIndex(m) == |m|
    ensures m != "" && (IsDigit(m[0]) || m[0] == '.')
  {
    DecimalChars(m);
    assert forall i :: 0 <= i < |m| ==> !IsExponentMark(m[i]);
  }

  lemma SplitAtExponent(m: string, t: string)
    requires IsDecimal(m)
    ensures var s := m + "e" + t;
      ExpIndex(s) == |m| && s[..|m|] == m && s[|m| + 1..] == t && s[0] == m[0]
  {
    var s := m + "e" + t;
    DecimalShape(m);
    assert s[|m|] == 'e';
    assert forall i :: 0 <= i < |m| ==> s[i] == m[i];
    assert s[..|m|] == m;
    assert s[|m| + 1..] == t;
  }

  /** A significand, an exponent mark and an exponent make a numeral whose
      value is the significand times 10 to the exponent. */
  lemma NumeralWithExponent(m: string, t: string)
    requires IsDecimal(m) && IsExponent(t)
    ensures IsNumberInput(m + "e" + t)
    ensures ToNumber(m + "e" + t) == Shifted(DecimalValue(m), ExponentValue(t))
  {
    var s := m + "e" + t;
    SplitAtExponent(m, t);
    DecimalShape(m);
    assert IsUnsignedNumeral(s);
    assert s != "" && s[0] != '-';
    ExponentValueSplit(s);
  }

  lemma ExponentOfDigits(k: nat)
    ensures IsExponent(NatToString(k)) && ExponentValue(NatToString(k)) == k
  {
    var ds := NatToString(k);
    assert IsDigit(ds[0]);
    DigitsOfNatToString(k);
  }

  /** "m" + "e" + the digits of k is the significand m shifted by k places,
      that is m times 10 to the k (`ShiftedByNat`). */
  lemma ExponentShifts(m: string, k: nat)
    requires IsDecimal(m)
    ensures IsNumberInput(m + "e" + NatToString(k))
    ensures ToNumber(m + "e" + NatToString(k)) == Shifted(DecimalValue(m), k)
  {
    ExponentOfDigits(k);
    NumeralWithExponent(m, NatToString(k));
  }

  /** With a whole exponent, shifting multiplies by a power of ten. */
  lemma ShiftedByNat(m: real, k: nat)
    requires m >= 0.0
    ensures Shifted(m, k) == m * Pow10(k) as real
  {
  }

  /** A number input may report a fraction without its leading zero. */
  lemma ExampleLeadingDot()
    ensures ToNumber(".5") == 0.5
    ensures ToNumber("-.5") == -0.5
  {
    LeadingDotIsZeroPoint("5");
    var s := "0.5";
    assert DotIndex(s) == 1;
    assert ExpIndex(s) == 3;
    assert s[..3] == s && s[..1] == "0" && s[2..] == "5";
    assert "0"[..0] == "" && "5"[..0] == "";
    MinusNegates(".5");
  }

  lemma ExampleDecimal()
    ensures ToNumber("12.25") == 12.25
  {
    var s := "12.25";
    assert DotIndex(s) == 2;
    assert ExpIndex(s) == 5;
    assert s[..5] == s && s[..2] == "12" && s[3..] == "25";
    assert "12"[..1] == "1" && "25"[..1] == "2" && "1"[..0] == "" && "2"[..0] == "";
  }

  /** Exponent notation. */
  lemma ExampleExponent()
    ensures ToNumber("1e3") == 1000.0
  {
    var m := "1";
    assert DotIndex(m) == 1 && m[..1] == m && m[..0] == "";
    assert NatToString(3) == "3";
    assert "3"[..0] == "";
    ExponentShifts(m, 3);
    ShiftedByNat(1.0, 3);
    assert m + "e" + "3" == "1e3";
  }

  /** An upper-case mark and a negative exponent. */
  lemma ExampleNegativeExponent()
    ensures ToNumber("25E-2") == 0.25
  {
    var s := "25E-2";
    assert ExpIndex(s) == 2;
    var m := s[..2];
    assert m == "25" && DotIndex(m) == 2 && m[..2] == m && m[..1] == "2" && "2"[..0] == "";
    var t := s[3..];
    assert t == "-2" && t[1..] == "2" && "2"[..0] == "";
    assert Scale(-2) == 1.0 / 100.0;
  }
}
