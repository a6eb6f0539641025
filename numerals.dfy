/**
 * The host conversions the reader and the printer rely on: Python's
 * whitespace test, `str.strip()`, the literals accepted by `int(str)` and
 * `float(str)`, and `str(int)`.
 *
 * Only the ASCII digits are recognised (Python also accepts other Unicode
 * decimal digits).  A float literal is recognised but its value is never
 * computed: the model keeps the literal's text, and decides only whether
 * the double it rounds to is 0.0.
 */
module Numerals {

  /** Python's `str.isspace()` for one character. */
  predicate IsSpace(c: char) {
    || c == ' '
    || '\t' <= c <= '\r'
    || '\U{1C}' <= c <= '\U{1F}'
    || c == '\U{85}' || c == '\U{A0}' || c == '\U{1680}'
    || '\U{2000}' <= c <= '\U{200A}'
    || c == '\U{2028}' || c == '\U{2029}' || c == '\U{202F}' || c == '\U{205F}' || c == '\U{3000}'
  }

  predicate IsDigit(c: char) {
    '0' <= c <= '9'
  }

  predicate NoSpace(s: string) {
    forall i :: 0 <= i < |s| ==> !IsSpace(s[i])
  }

  /** Python's `str.strip()` with no argument. */
  function Strip(s: string): (r: string)
    ensures |r| <= |s|
    ensures r == [] || (!IsSpace(r[0]) && !IsSpace(r[|r| - 1]))
    ensures s == [] || (!IsSpace(s[0]) && !IsSpace(s[|s| - 1])) ==> r == s
  {
    StripRight(StripLeft(s))
  }

  function StripLeft(s: string): (r: string)
    ensures |r| <= |s|
    ensures r == [] || !IsSpace(r[0])
    ensures r == [] || r[|r| - 1] == s[|s| - 1]
    ensures s == [] || !IsSpace(s[0]) ==> r == s
  {
    if s != [] && IsSpace(s[0]) then StripLeft(s[1..]) else s
  }

  function StripRight(s: string): (r: string)
    ensures |r| <= |s|
    ensures r == [] || !IsSpace(r[|r| - 1])
    ensures r == [] || r[0] == s[0]
    ensures s == [] || !IsSpace(s[|s| - 1]) ==> r == s
  {
    if s != [] && IsSpace(s[|s| - 1]) then StripRight(s[..|s| - 1]) else s
  }

  /**
   * A run of ASCII digits in which single underscores may separate digits,
   * as Python 3 allows in numeric literals ("1_000").
   */
  predicate DigitRun(s: string) {
    && |s| > 0
    && forall i {:trigger s[i]} :: 0 <= i < |s| ==>
         IsDigit(s[i]) || (s[i] == '_' && 0 < i < |s| - 1 && IsDigit(s[i + 1]))
  }

  /** Splits an optional leading `+` or `-` off `t`: (is it negative, the rest). */
  function Unsign(t: string): (r: (bool, string))
    ensures r.1 == t || (t != [] && r.1 == t[1..] && (t[0] == '+' || t[0] == '-'))
    ensures r.0 ==> t != [] && t[0] == '-'
  {
    if t != [] && (t[0] == '+' || t[0] == '-') then (t[0] == '-', t[1..]) else (false, t)
  }

  /** True when Python's `int(token)` succeeds (base 10). */
  predicate IsIntLiteral(token: string) {
    DigitRun(Unsign(Strip(token)).1)
  }

  function DigitValue(c: char): nat {
    if IsDigit(c) then c as int - '0' as int else 0
  }

  /** The value of a run of digits, skipping underscores. */
  function DigitsValue(s: string): nat {
    if s == [] then 0
    else if s[|s| - 1] == '_' then DigitsValue(s[..|s| - 1])
    else DigitsValue(s[..|s| - 1]) * 10 + DigitValue(s[|s| - 1])
  }

  /** What Python's `int(token)` returns. */
  function IntValue(token: string): int
    requires IsIntLiteral(token)
  {
    var (negative, body) := Unsign(Strip(token));
    var magnitude: int := DigitsValue(body);
    if negative then -magnitude else magnitude
  }

  /** Index of the first character of `s` that is in `cs`, or `|s|` when there is none. */
  function FindAny(s: string, cs: set<char>): (i: nat)
    ensures i <= |s|
    ensures i < |s| ==> s[i] in cs
    ensures forall j :: 0 <= j < i ==> s[j] !in cs
  {
    if s == [] then 0
    else if s[0] in cs then 0
    else 1 + FindAny(s[1..], cs)
  }

  function LowerChar(c: char): char {
    if 'A' <= c <= 'Z' then (c as int + 32) as char else c
  }

  /** ASCII lower-casing, as Python compares "inf" and "nan" case-insensitively. */
  function Lower(s: string): (r: string)
    ensures |r| == |s|
    ensures forall i :: 0 <= i < |s| ==> r[i] == LowerChar(s[i])
  {
    if s == [] then [] else [LowerChar(s[0])] + Lower(s[1..])
  }

  predicate IsSpecialFloat(u: string) {
    Lower(u) in {"inf", "infinity", "nan"}
  }

  /** The part before an exponent: "12", "12.", "12.5" or ".5". */
  predicate Mantissa(m: string) {
    var dot := FindAny(m, {'.'});
    if dot == |m| then DigitRun(m)
    else
      var whole, fraction := m[..dot], m[dot + 1..];
      && (whole != [] || fraction != [])
      && (whole == [] || DigitRun(whole))
      && (fraction == [] || DigitRun(fraction))
  }

  /** A decimal literal with an optional exponent: "1.5e-3". */
  predicate DecimalLiteral(u: string) {
    var e := FindAny(u, {'e', 'E'});
    && Mantissa(u[..e])
    && (e == |u| || DigitRun(Unsign(u[e + 1..]).1))
  }

  /** True when Python's `float(token)` succeeds. */
  predicate IsFloatLiteral(token: string) {
    var u := Unsign(Strip(token)).1;
    IsSpecialFloat(u) || DecimalLiteral(u)
  }

  /** The number of digits of a run of digits, underscores not counted. */
  function DigitCount(s: string): nat {
    if s == [] then 0
    else DigitCount(s[..|s| - 1]) + if s[|s| - 1] == '_' then 0 else 1
  }

  function Pow(b: nat, n: nat): nat {
    if n == 0 then 1 else b * Pow(b, n - 1)
  }

  /**
   * The value of the decimal literal `u` (without sign) as `(m, x)`, for
   * `m × 10^x`: the digits of the mantissa without its point, and the
   * exponent less the number of fraction digits.
   */
  function Decimal(u: string): (nat, int) {
    var e := FindAny(u, {'e', 'E'});
    var m := u[..e];
    var dot := FindAny(m, {'.'});
    var fraction := if dot == |m| then [] else m[dot + 1..];
    var exponent: int :=
      if e == |u| then 0
      else
        var (negative, digits) := Unsign(u[e + 1..]);
        var magnitude: int := DigitsValue(digits);
        if negative then -magnitude else magnitude;
    (DigitsValue(m[..dot] + fraction), exponent - DigitCount(fraction))
  }

  /**
   * True when `float(token)` is zero.  Python rounds a decimal literal to
   * the nearest double, ties to even: a value of at most 2^-1075, half the
   * smallest subnormal, becomes 0.0, and any larger one does not.  The
   * special values are never zero.
   */
  predicate IsZeroFloat(token: string) {
    var u := Unsign(Strip(token)).1;
    var (m, x) := Decimal(u);
    !IsSpecialFloat(u) && Underflows(m, x)
  }

  /** 2^1075 is half the smallest positive subnormal double, inverted. */
  const HalfSubnormalExponent: nat := 1075

  /** True when `m × 10^x` rounds to the double 0.0. */
  predicate Underflows(m: nat, x: int) {
    m == 0 || (x < 0 && m * Pow(2, HalfSubnormalExponent) <= Pow(10, -x))
  }

  lemma {:induction false} PowAdd(b: nat, m: nat, n: nat)
    ensures Pow(b, m + n) == Pow(b, m) * Pow(b, n)
    decreases m
  {
    if m > 0 {
      PowAdd(b, m - 1, n);
      assert Pow(b, m + n) == b * (Pow(b, m - 1) * Pow(b, n));
    }
  }

  lemma {:induction false} PowMul(b: nat, m: nat, n: nat)
    ensures Pow(b, m * n) == Pow(Pow(b, m), n)
    decreases n
  {
    if n > 0 {
      PowMul(b, m, n - 1);
      PowAdd(b, m, m * (n - 1));
      assert m * n == m + m * (n - 1);
    }
  }

  lemma MulMono(a: nat, b: nat, c: nat, d: nat)
    requires a <= b && c <= d
    ensures a * c <= b * d
  {
    assert a * c <= b * c;
    assert b * c <= b * d;
  }

  lemma {:induction false} PowBase(a: nat, b: nat, n: nat)
    requires a <= b
    ensures Pow(a, n) <= Pow(b, n)
    decreases n
  {
    if n > 0 {
      PowBase(a, b, n - 1);
      MulMono(a, b, Pow(a, n - 1), Pow(b, n - 1));
    }
  }

  lemma PowPositive(b: nat, n: nat)
    requires b > 0
    ensures Pow(b, n) > 0
  {
  }

  lemma PowMonotone(b: nat, m: nat, n: nat)
    requires b > 0 && m <= n
    ensures Pow(b, m) <= Pow(b, n)
  {
    PowAdd(b, m, n - m);
    PowPositive(b, n - m);
    PowPositive(b, m);
    MulMono(1, Pow(b, n - m), Pow(b, m), Pow(b, m));
  }

  /** 2^(1 + 3j) = 2 × 8^j <= 2 × 10^j <= 10^(j + d). */
  lemma {:induction false} PowerOfTwoBelow(j: nat, d: nat)
    requires d > 0
    ensures Pow(2, 1 + 3 * j) <= Pow(10, j + d)
  {
    PowAdd(2, 1, 3 * j);
    PowMul(2, 3, j);
    PowBase(8, 10, j);
    PowAdd(10, d, j);
    PowAdd(10, 1, d - 1);
    PowPositive(10, d - 1);
    MulMono(2, Pow(10, d), Pow(8, j), Pow(10, j));
  }

  /** 10^(3h) = 1000^h <= 1024^h = 2^(10h) < 2^(r + 10h). */
  lemma {:induction false} PowerOfTwoAbove(h: nat, r: nat)
    requires r > 0
    ensures Pow(10, 3 * h) < Pow(2, r + 10 * h)
  {
    PowMul(10, 3, h);
    PowBase(1000, 1024, h);
    PowMul(2, 10, h);
    PowAdd(2, r, 10 * h);
    PowAdd(2, 1, r - 1);
    PowPositive(2, r - 1);
    PowPositive(1000, h);
    MulMono(2, Pow(2, r), Pow(1024, h), Pow(1024, h));
  }

  /** A literal `1e-n` with n >= 400 rounds to 0.0: 2^1075 <= 10^400. */
  lemma Underflows400(x: int)
    requires x <= -400
    ensures Underflows(1, x)
  {
    var k := HalfSubnormalExponent;
    var j := (k - 1) / 3;
    PowerOfTwoBelow(j, -x - j);
  }

  /** A literal `1e-n` with n <= 300 does not round to 0.0: 10^300 < 2^1075. */
  lemma NoUnderflow300(x: int)
    requires -300 <= x
    ensures !Underflows(1, x)
  {
    if x < 0 {
      var k := HalfSubnormalExponent;
      var h := (k - 75) / 10;
      PowerOfTwoAbove(h, k - 10 * h);
      PowMonotone(10, -x, 3 * h);
    }
  }

  /** The literal `1e-n` has no surrounding space, no sign and is not a special value. */
  lemma NegativePowerPlain(n: string, t: string)
    requires DigitRun(n) && t == "1e-" + n
    ensures Unsign(Strip(t)).1 == t && !IsSpecialFloat(t)
  {
    assert t[0] == '1' && t[|t| - 1] == n[|n| - 1];
    assert Strip(t) == t;
    var l := Lower(t);
    assert l[0] == '1';
    assert l != "inf" && l != "infinity" && l != "nan";
  }

  /** The literal `1e-n` stands for 1 × 10^-n. */
  lemma NegativePowerValue(n: string, t: string)
    requires DigitRun(n) && t == "1e-" + n
    ensures Decimal(t) == (1, -(DigitsValue(n) as int))
  {
    assert FindAny(t, {'e', 'E'}) == 1 by {
      assert t[0] !in {'e', 'E'} && t[1] == 'e';
    }
    var m := t[..1];
    assert m == "1" && FindAny(m, {'.'}) == 1;
    assert m[..1] + [] == m && DigitsValue(m) == 1;
    assert t[2..] == "-" + n;
    assert Unsign("-" + n) == (true, n);
  }

  /**
   * `float("1e-400")` is 0.0 although its digit is not zero, as is any
   * `1e-n` for n >= 400, while `1e-n` for n <= 300 is not.
   */
  lemma NegativePowerIsZero(n: string)
    requires DigitRun(n)
    ensures DigitsValue(n) >= 400 ==> IsZeroFloat("1e-" + n)
    ensures DigitsValue(n) <= 300 ==> !IsZeroFloat("1e-" + n)
  {
    var t := "1e-" + n;
    NegativePowerPlain(n, t);
    NegativePowerValue(n, t);
    if DigitsValue(n) >= 400 {
      Underflows400(-(DigitsValue(n) as int));
    }
    if DigitsValue(n) <= 300 {
      NoUnderflow300(-(DigitsValue(n) as int));
    }
  }

  function DigitChar(d: nat): (c: char)
    requires d < 10
    ensures IsDigit(c) && DigitValue(c) == d
  {
    ('0' as int + d) as char
  }

  /** Python's `str(n)` for a natural number: its decimal digits. */
  function NatText(n: nat): (r: string)
    ensures |r| > 0
    ensures forall i :: 0 <= i < |r| ==> IsDigit(r[i])
  {
    if n < 10 then [DigitChar(n)] else NatText(n / 10) + [DigitChar(n % 10)]
  }

  /** Python's `str(n)` for an integer. */
  function IntText(n: int): (r: string)
    ensures |r| > 0 && NoSpace(r)
    ensures forall i :: 0 <= i < |r| ==> IsDigit(r[i]) || (i == 0 && r[i] == '-')
  {
    if n < 0 then "-" + NatText(-n) else NatText(n)
  }

  lemma {:induction false} NatTextValue(n: nat)
    ensures DigitsValue(NatText(n)) == n
  {
    if n >= 10 {
      var s := NatText(n / 10);
      NatTextValue(n / 10);
      assert (s + [DigitChar(n % 10)])[..|s|] == s;
    }
  }

  lemma AllDigitsRun(s: string)
    requires |s| > 0 && forall i :: 0 <= i < |s| ==> IsDigit(s[i])
    ensures DigitRun(s)
  {
  }

  /** `int(str(n)) == n`: the printed form of an integer reads back as that integer. */
  lemma IntTextRoundTrip(n: int)
    ensures IsIntLiteral(IntText(n))
    ensures IntValue(IntText(n)) == n
  {
    var t := IntText(n);
    var m: nat := if n < 0 then -n else n;
    var digits := NatText(m);
    assert !IsSpace(t[0]) && !IsSpace(t[|t| - 1]);
    assert Strip(t) == t;
    assert Unsign(t) == (n < 0, digits);
    AllDigitsRun(digits);
    NatTextValue(m);
  }

  /**
   * A word: a token without whitespace whose first character cannot begin
   * a number (no digit, sign or point, and no letter of "inf" or "nan").
   */
  predicate IsWord(t: string) {
    && t != []
    && NoSpace(t)
    && !IsDigit(t[0])
    && t[0] !in "+-.iInN"
  }

  lemma WordIsUnsigned(t: string)
    requires IsWord(t)
    ensures Unsign(Strip(t)).1 == t
  {
    assert Strip(t) == t;
  }

  lemma {:induction false} WordIsNotInt(t: string)
    requires IsWord(t)
    ensures !IsIntLiteral(t)
  {
    WordIsUnsigned(t);
    assert !DigitRun(t) by {
      assert !IsDigit(t[0]);
    }
  }

  /** No mantissa begins with a character that is neither a digit nor a point. */
  lemma NotMantissa(m: string)
    requires m == [] || (!IsDigit(m[0]) && m[0] != '.')
    ensures !Mantissa(m)
  {
    var dot := FindAny(m, {'.'});
    if m != [] && dot < |m| {
      assert m[..dot][0] == m[0];
    }
  }

  lemma {:induction false} WordIsNotFloat(t: string)
    requires IsWord(t)
    ensures !IsFloatLiteral(t)
  {
    WordIsUnsigned(t);
    assert !IsSpecialFloat(t) by {
      var l := Lower(t);
      assert l[0] != 'i' && l[0] != 'n';
      assert l != "inf" && l != "infinity" && l != "nan";
    }
    var e := FindAny(t, {'e', 'E'});
    NotMantissa(t[..e]);
  }
}
