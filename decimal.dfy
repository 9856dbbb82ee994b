/** Decimal integer text: Python's `str(int)`, `int(str)`, `f"{n:02}"`, and Redis's strict integer parsing. */
module Decimal {
  import opened Wrappers
  import Text

  predicate IsDigit(c: char) {
    '0' <= c <= '9'
  }

  function DigitChar(d: nat): (c: char)
    requires d < 10
    ensures IsDigit(c)
  {
    ('0' as int + d) as char
  }

  function DigitValue(c: char): (d: nat)
    requires IsDigit(c)
    ensures d < 10 && DigitChar(d) == c
  {
    c as int - '0' as int
  }

  predicate AllDigits(s: string) {
    forall k :: 0 <= k < |s| ==> IsDigit(s[k])
  }

  /** `str(n)` for a non-negative integer. */
  function NatToStr(n: nat): (r: string)
    ensures r != [] && AllDigits(r)
    ensures r[0] == '0' ==> n == 0 && r == "0"
    decreases n
  {
    if n < 10 then [DigitChar(n)] else NatToStr(n / 10) + [DigitChar(n % 10)]
  }

  /** `str(n)` for any integer. */
  function IntToStr(n: int): string {
    if n < 0 then "-" + NatToStr(-n) else NatToStr(n)
  }

  /** The value of a string of decimal digits, most significant first. */
  function DigitsValue(s: string): nat
    requires AllDigits(s)
    decreases |s|
  {
    if s == [] then 0 else DigitsValue(s[..|s| - 1]) * 10 + DigitValue(s[|s| - 1])
  }

  lemma {:induction false} DigitsValueOfNatToStr(n: nat)
    ensures DigitsValue(NatToStr(n)) == n
    decreases n
  {
    var r := NatToStr(n);
    if n >= 10 {
      DigitsValueOfNatToStr(n / 10);
      assert r[..|r| - 1] == NatToStr(n / 10);
    }
  }

  /** The two's-complement range of a 64-bit signed integer. */
  predicate InInt64(n: int) {
    -0x8000_0000_0000_0000 <= n < 0x8000_0000_0000_0000
  }

  /** Redis's strict integer parser: `0`, or an optional `-` and digits without a leading zero,
      with nothing else around them, within 64 bits. */
  function ParseCanonical(s: string): Option<int> {
    if s == "0" then Some(0)
    else
      var neg := s != [] && s[0] == '-';
      var ds := if neg then s[1..] else s;
      if ds == [] || !AllDigits(ds) || ds[0] == '0' then None
      else
        var v: int := if neg then 0 - DigitsValue(ds) else DigitsValue(ds);
        if InInt64(v) then Some(v) else None
  }

  lemma {:induction false} NatToStrInjective(a: nat, b: nat)
    requires NatToStr(a) == NatToStr(b)
    ensures a == b
  {
    DigitsValueOfNatToStr(a);
    DigitsValueOfNatToStr(b);
  }

  lemma {:induction false} DigitsRoundTrip(ds: string)
    requires ds != [] && AllDigits(ds) && ds[0] != '0'
    ensures NatToStr(DigitsValue(ds)) == ds
    decreases |ds|
  {
    var init := ds[..|ds| - 1];
    var v := DigitsValue(ds);
    if init == [] {
      assert ds == [ds[0]];
      assert v == DigitsValue(init) * 10 + DigitValue(ds[0]);
    } else {
      assert init[0] == ds[0];
      DigitsRoundTrip(init);
      var w := DigitsValue(init);
      assert NatToStr(0) == "0";
      assert w > 0;
      assert v / 10 == w && v % 10 == DigitValue(ds[|ds| - 1]);
      assert ds == init + [ds[|ds| - 1]];
    }
  }

  lemma ParseCanonicalSound(s: string, n: int)
    requires ParseCanonical(s) == Some(n)
    ensures InInt64(n) && s == IntToStr(n)
  {
    if s != "0" {
      var neg := s != [] && s[0] == '-';
      var ds := if neg then s[1..] else s;
      DigitsRoundTrip(ds);
      if neg {
        assert s == "-" + ds;
        assert n == 0 - DigitsValue(ds);
      } else {
        assert n == DigitsValue(ds);
      }
    }
  }

  lemma ParseCanonicalComplete(n: int)
    requires InInt64(n)
    ensures ParseCanonical(IntToStr(n)) == Some(n)
  {
    var s := IntToStr(n);
    if n < 0 {
      var ds := NatToStr(-n);
      assert s == "-" + ds && s[0] == '-' && s[1..] == ds;
      DigitsValueOfNatToStr(-n);
      assert s != "0";
    } else if n > 0 {
      DigitsValueOfNatToStr(n);
      assert s == NatToStr(n) && s[0] != '-' && s != "0";
    }
  }

  /** Redis accepts exactly the texts `str(n)` of the 64-bit integers. */
  lemma ParseCanonicalIff(s: string, n: int)
    ensures ParseCanonical(s) == Some(n) <==> (InInt64(n) && s == IntToStr(n))
  {
    if ParseCanonical(s) == Some(n) {
      ParseCanonicalSound(s, n);
    }
    if InInt64(n) && s == IntToStr(n) {
      ParseCanonicalComplete(n);
    }
  }

  /** Digit groups joined by single underscores, as Python's `int()` accepts them. */
  predicate Underscored(s: string) {
    && s != [] && IsDigit(s[0]) && IsDigit(s[|s| - 1])
    && (forall k :: 0 <= k < |s| ==> IsDigit(s[k]) || s[k] == '_')
    && (forall k :: 0 <= k < |s| - 1 ==> !(s[k] == '_' && s[k + 1] == '_'))
  }

  function DropUnderscores(s: string): (r: string)
    requires forall k :: 0 <= k < |s| ==> IsDigit(s[k]) || s[k] == '_'
    ensures AllDigits(r)
    decreases |s|
  {
    if s == [] then []
    else if s[0] == '_' then DropUnderscores(s[1..])
    else [s[0]] + DropUnderscores(s[1..])
  }

  /** The digits of `int()`'s argument after an optional sign, as a magnitude. */
  function UnsignedValue(body: string): Option<nat> {
    if Underscored(body) then Some(DigitsValue(DropUnderscores(body))) else None
  }

  /** Python's `int(s)` in base 10: surrounding whitespace, an optional sign, digits with
      single underscores between them, leading zeros allowed; None where Python raises ValueError. */
  function PyInt(s: string): Option<int> {
    var t := Text.Strip(s);
    if t != [] && t[0] == '-' then
      var v :- UnsignedValue(t[1..]);
      Some(0 - v)
    else if t != [] && t[0] == '+' then
      var v :- UnsignedValue(t[1..]);
      Some(v as int)
    else
      var v :- UnsignedValue(t);
      Some(v as int)
  }

  lemma {:induction false} DropUnderscoresOfDigits(s: string)
    requires AllDigits(s)
    ensures DropUnderscores(s) == s
    decreases |s|
  {
    if s != [] {
      DropUnderscoresOfDigits(s[1..]);
    }
  }

  lemma StripOfDigits(s: string)
    requires s != [] && (s[0] == '-' || IsDigit(s[0])) && IsDigit(s[|s| - 1])
    ensures Text.Strip(s) == s
  {
    assert !Text.IsSpace(s[0]);
    assert Text.StripLeft(s) == s;
    assert !Text.IsSpace(s[|s| - 1]);
  }

  /** The digits of `str(v)` are what `int()` accepts after its sign, with value `v`. */
  lemma UnsignedOfNatToStr(v: nat)
    ensures UnsignedValue(NatToStr(v)) == Some(v)
  {
    var ds := NatToStr(v);
    assert Underscored(ds);
    DropUnderscoresOfDigits(ds);
    DigitsValueOfNatToStr(v);
  }

  /** `int()` on a text that starts and ends with a digit. */
  lemma PyIntOfPlain(t: string, v: nat)
    requires t != [] && IsDigit(t[0]) && IsDigit(t[|t| - 1]) && UnsignedValue(t) == Some(v)
    ensures PyInt(t) == Some(v)
  {
    StripOfDigits(t);
  }

  /** `int()` on a text that starts with a minus and ends with a digit. */
  lemma PyIntOfMinus(t: string, v: nat)
    requires |t| > 1 && t[0] == '-' && IsDigit(t[|t| - 1]) && UnsignedValue(t[1..]) == Some(v)
    ensures PyInt(t) == Some(0 - v)
  {
    StripOfDigits(t);
  }

  /** `int(str(n)) == n`. */
  lemma PyIntOfIntToStr(n: int)
    ensures PyInt(IntToStr(n)) == Some(n)
  {
    var m := IntToStr(n);
    if n < 0 {
      var ds := NatToStr(-n);
      assert m[1..] == ds && m[|m| - 1] == ds[|ds| - 1];
      UnsignedOfNatToStr(-n);
      PyIntOfMinus(m, -n);
    } else {
      assert m == NatToStr(n);
      UnsignedOfNatToStr(n);
      PyIntOfPlain(m, n);
    }
  }

  /** `s` with its trailing zeros removed. */
  function DropTrailingZeros(s: string): (r: string)
    ensures |r| <= |s| && r == s[..|r|]
    ensures r == [] || r[|r| - 1] != '0'
    decreases |s|
  {
    if s != [] && s[|s| - 1] == '0' then DropTrailingZeros(s[..|s| - 1]) else s
  }

  /** Python's `float(s)` on the texts that name a whole number: an `int()` text, or an `int()`
      text followed by `.` and zeros (`"18.0"`, `" -3."`). None for every other text. */
  function PyWholeFloat(s: string): Option<int> {
    if '.' !in s then PyInt(s)
    else
      var t := DropTrailingZeros(s);
      if t != [] && t[|t| - 1] == '.' then PyInt(t[..|t| - 1]) else None
  }

  /** `repr(float(n))` for a whole `n` below 10^16 in magnitude: the integer text and `.0`. */
  function FloatText(n: int): (r: string)
    ensures r == IntToStr(n) + ".0"
  {
    IntToStr(n) + ".0"
  }

  lemma NoDotInIntToStr(n: int)
    ensures '.' !in IntToStr(n)
  {
    var d := if n < 0 then NatToStr(-n) else NatToStr(n);
    assert forall k :: 0 <= k < |d| ==> d[k] != '.';
    assert IntToStr(n) == (if n < 0 then "-" else "") + d;
  }

  /** `float(str(n)) == n`. */
  lemma PyWholeFloatOfIntToStr(n: int)
    ensures PyWholeFloat(IntToStr(n)) == Some(n)
  {
    NoDotInIntToStr(n);
    PyIntOfIntToStr(n);
  }

  /** `float(repr(float(n))) == n`. */
  lemma PyWholeFloatOfFloatText(n: int)
    ensures PyWholeFloat(FloatText(n)) == Some(n)
  {
    var r := FloatText(n);
    assert r[|r| - 2] == '.';
    assert r[..|r| - 1] == IntToStr(n) + ".";
    assert DropTrailingZeros(r) == IntToStr(n) + ".";
    assert (IntToStr(n) + ".")[..|IntToStr(n)|] == IntToStr(n);
    PyIntOfIntToStr(n);
  }

  /** `f"{n:02}"`: at least two characters, zero-padded after the sign. */
  function Pad2(n: int): (r: string)
    ensures |r| >= 2
    ensures 0 <= n < 10 ==> r == ['0', DigitChar(n)]
    ensures !(0 <= n < 10) ==> r == IntToStr(n)
  {
    if 0 <= n < 10 then "0" + IntToStr(n) else IntToStr(n)
  }
}
