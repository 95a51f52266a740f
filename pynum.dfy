/**
 * Python's `int(text)` and `float(text)` conversions of strings: surrounding white
 * space is ignored, an optional sign, decimal digits with single `_` separators
 * between them; `float` also takes a fraction, an exponent and the non-finite
 * spellings `inf`, `infinity` and `nan` in any letter case.
 */
module PyNum {
  import opened Text
  import opened Wrappers

  /** A run of digits with single underscores between digits (`digitpart`). */
  predicate DigitRun(s: string)
    decreases |s|
  {
    && s != []
    && IsDigit(s[0])
    && (|s| == 1 || if s[1] == '_' then |s| > 2 && DigitRun(s[2..]) else DigitRun(s[1..]))
  }

  lemma {:induction false} AllDigitsRun(s: string)
    requires s != [] && forall i :: 0 <= i < |s| ==> IsDigit(s[i])
    ensures DigitRun(s)
  {
    if |s| > 1 {
      AllDigitsRun(s[1..]);
    }
  }

  function Digits(s: string): (r: string)
    ensures |r| <= |s|
  {
    if s == [] then []
    else if s[|s| - 1] == '_' then Digits(s[..|s| - 1])
    else Digits(s[..|s| - 1]) + [s[|s| - 1]]
  }

  /** The value of decimal digits (underscores are skipped). */
  function RunValue(s: string): nat {
    if s == [] then 0
    else if IsDigit(s[|s| - 1]) then RunValue(s[..|s| - 1]) * 10 + DigitValue(s[|s| - 1])
    else RunValue(s[..|s| - 1])
  }

  function DigitCount(s: string): nat {
    if s == [] then 0
    else (if IsDigit(s[|s| - 1]) then 1 else 0) + DigitCount(s[..|s| - 1])
  }

  function Pow10(e: nat): (r: nat)
    ensures r >= 1
  {
    if e == 0 then 1 else 10 * Pow10(e - 1)
  }

  function Scale(e: int): (r: real)
    ensures r > 0.0
  {
    if e >= 0 then Pow10(e) as real else 1.0 / Pow10(-e) as real
  }

  function SignOf(t: string): int {
    if t != [] && t[0] == '-' then -1 else 1
  }

  function Unsigned(t: string): string {
    if t != [] && (t[0] == '-' || t[0] == '+') then t[1..] else t
  }

  /** `int(text)`: `None` where Python raises `ValueError`. */
  function ParseInt(text: string): (r: Option<int>)
    ensures r.Some? <==> DigitRun(Unsigned(Strip(text)))
  {
    var t := Strip(text);
    var body := Unsigned(t);
    if DigitRun(body) then Some(SignOf(t) * RunValue(body)) else None
  }

  /** What `float(text)` yields: a finite value, a non-finite one, or `ValueError`. */
  datatype FloatText = Finite(value: real) | NonFinite | Invalid

  function IndexOf(s: string, c: char): (i: nat)
    ensures i <= |s|
    ensures forall j :: 0 <= j < i ==> s[j] != c
    ensures i < |s| ==> s[i] == c
  {
    if s == [] then 0 else if s[0] == c then 0 else 1 + IndexOf(s[1..], c)
  }

  function IndexOfExponent(s: string): (i: nat)
    ensures i <= |s|
    ensures forall j :: 0 <= j < i ==> s[j] != 'e' && s[j] != 'E'
    ensures i < |s| ==> s[i] == 'e' || s[i] == 'E'
  {
    if s == [] then 0 else if s[0] == 'e' || s[0] == 'E' then 0 else 1 + IndexOfExponent(s[1..])
  }

  /** `pointfloat` or `digitpart`: digits with an optional fraction, at least one digit. */
  predicate Mantissa(m: string) {
    var p := IndexOf(m, '.');
    if p == |m| then DigitRun(m)
    else
      var whole, frac := m[..p], m[p + 1..];
      && (whole == [] || DigitRun(whole))
      && (frac == [] || DigitRun(frac))
      && (whole != [] || frac != [])
  }

  function MantissaValue(m: string): real {
    var p := IndexOf(m, '.');
    if p == |m| then RunValue(m) as real
    else RunValue(m[..p]) as real + RunValue(m[p + 1..]) as real / Pow10(DigitCount(m[p + 1..])) as real
  }

  predicate Exponent(x: string) {
    DigitRun(Unsigned(x))
  }

  function ExponentValue(x: string): int {
    SignOf(x) * RunValue(Unsigned(x))
  }

  predicate NonFiniteWord(w: string) {
    var l := Lower(w);
    l == "inf" || l == "infinity" || l == "nan"
  }

  /** `float(text)`. */
  function ParseFloat(text: string): FloatText {
    var t := Strip(text);
    if NonFiniteWord(Unsigned(t)) then NonFinite else Decimal(SignOf(t), Unsigned(t))
  }

  /** A signed decimal literal: mantissa and optional exponent. */
  function Decimal(sign: int, body: string): FloatText {
    var e := IndexOfExponent(body);
    if !Mantissa(body[..e]) then Invalid
    else if e == |body| then Finite(Signed(sign, MantissaValue(body)))
    else if Exponent(body[e + 1..]) then
      Finite(Signed(sign, Scaled(MantissaValue(body[..e]), ExponentValue(body[e + 1..]))))
    else Invalid
  }

  function Signed(sign: int, v: real): real {
    if sign < 0 then -v else v
  }

  /** `v * 10 ** e`. */
  function Scaled(v: real, e: int): real {
    v * Scale(e)
  }

  lemma {:induction false} NatTextIsDigitRun(n: nat)
    ensures DigitRun(NatToText(n))
    ensures RunValue(NatToText(n)) == n
    ensures IndexOf(NatToText(n), '.') == |NatToText(n)|
    ensures IndexOfExponent(NatToText(n)) == |NatToText(n)|
  {
    var s := NatToText(n);
    AllDigitsRun(s);
    if n >= 10 {
      NatTextIsDigitRun(n / 10);
      assert s[..|s| - 1] == NatToText(n / 10);
    }
    NoCharInDigits(s, '.');
    NoCharInDigits(s, 'e');
    NoExponentInDigits(s);
  }

  lemma {:induction false} NoCharInDigits(s: string, c: char)
    requires forall i :: 0 <= i < |s| ==> IsDigit(s[i])
    requires !IsDigit(c)
    ensures IndexOf(s, c) == |s|
  {
    if s != [] {
      NoCharInDigits(s[1..], c);
    }
  }

  lemma {:induction false} NoExponentInDigits(s: string)
    requires forall i :: 0 <= i < |s| ==> IsDigit(s[i])
    ensures IndexOfExponent(s) == |s|
  {
    if s != [] {
      NoExponentInDigits(s[1..]);
    }
  }

  lemma {:induction false} IntTextShape(n: int)
    ensures Strip(IntToText(n)) == IntToText(n)
    ensures Unsigned(IntToText(n)) == NatToText(if n < 0 then -n else n)
    ensures SignOf(IntToText(n)) == (if n < 0 then -1 else 1)
  {
    var d := if n < 0 then -n else n;
    var t := IntToText(n);
    var u := NatToText(d);
    assert IsDigit(u[0]) && IsDigit(u[|u| - 1]);
    assert t[|t| - 1] == u[|u| - 1];
    assert !IsSpace(t[0]);
    StripNoSpace(t);
    if n < 0 {
      assert t[1..] == u;
    }
  }

  /** `int(str(n)) == n`: reading back the text of an integer gives the integer. */
  lemma {:induction false} IntTextRoundTrip(n: int)
    ensures ParseInt(IntToText(n)) == Some(n)
  {
    var d := if n < 0 then -n else n;
    NatTextIsDigitRun(d);
    IntTextShape(n);
  }

  lemma DigitsAreFinite(u: string)
    requires u != [] && IsDigit(u[0])
    ensures !NonFiniteWord(u)
  {
    assert IsDigit(Lower(u)[0]);
  }

  lemma {:induction false} ParseFloatUnfold(t: string)
    requires Strip(t) == t && !NonFiniteWord(Unsigned(t))
    ensures ParseFloat(t) == Decimal(SignOf(t), Unsigned(t))
  {
  }

  lemma {:induction false} DecimalOfPlainDigits(sign: int, u: string)
    requires DigitRun(u) && IndexOf(u, '.') == |u| && IndexOfExponent(u) == |u|
    ensures Decimal(sign, u) == Finite(Signed(sign, RunValue(u) as real))
  {
    assert u[..|u|] == u;
    assert Mantissa(u);
    assert MantissaValue(u) == RunValue(u) as real;
  }

  lemma {:induction false} FloatOfText(t: string, u: string, n: int)
    requires Strip(t) == t && Unsigned(t) == u && SignOf(t) == (if n < 0 then -1 else 1)
    requires DigitRun(u) && IsDigit(u[0]) && IndexOf(u, '.') == |u| && IndexOfExponent(u) == |u|
    requires RunValue(u) == (if n < 0 then -n else n)
    ensures ParseFloat(t) == Finite(n as real)
  {
    DigitsAreFinite(u);
    ParseFloatUnfold(t);
    DecimalOfPlainDigits(SignOf(t), u);
  }

  /** `float(str(n)) == n`: the text of an integer reads back as the same value. */
  lemma {:induction false} FloatOfIntText(n: int)
    ensures ParseFloat(IntToText(n)) == Finite(n as real)
  {
    var d := if n < 0 then -n else n;
    NatTextIsDigitRun(d);
    IntTextShape(n);
    FloatOfText(IntToText(n), NatToText(d), n);
  }

  /** `int(x)` for a float: truncation toward zero. */
  function Trunc(x: real): (n: int)
    ensures x >= 0.0 ==> 0 <= n && n as real <= x < n as real + 1.0
    ensures x < 0.0 ==> n <= 0 && n as real - 1.0 < x <= n as real
  {
    if x >= 0.0 then x.Floor else -((-x).Floor)
  }

  /** Truncation keeps the order of its arguments. */
  lemma TruncMonotone(x: real, y: real)
    requires x <= y
    ensures Trunc(x) <= Trunc(y)
  {
  }
}
