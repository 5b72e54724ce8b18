/**
  The handful of Python built-ins whose exact behaviour the survey code relies on:
  str() of a non-negative int, round() (ties to even), "%.<d>f" formatting,
  slicing s[:n] and the substring test `a in b`.
  Floating-point numbers are modelled as exact reals.
*/
module PyText {

  /** The character of a decimal digit. */
  function DigitChar(d: nat): (c: char)
    requires d < 10
    ensures '0' <= c <= '9'
    ensures c as int - '0' as int == d
  {
    ('0' as int + d) as char
  }

  predicate IsDigits(s: string)
  {
    forall i :: 0 <= i < |s| ==> '0' <= s[i] <= '9'
  }

  /** Python `str(n)` for a non-negative int. */
  function NatToString(n: nat): (s: string)
    ensures |s| >= 1 && IsDigits(s)
    decreases n
  {
    if n < 10 then [DigitChar(n)] else NatToString(n / 10) + [DigitChar(n % 10)]
  }

  /** Reads a string of decimal digits back as the number it denotes. */
  function DigitsValue(s: string): nat
    requires IsDigits(s)
  {
    if s == [] then 0 else 10 * DigitsValue(s[..|s| - 1]) + (s[|s| - 1] as int - '0' as int)
  }

  /** `str(n)` is a non-empty digit string that reads back as n. */
  lemma {:induction false} NatToStringRoundTrip(n: nat)
    ensures IsDigits(NatToString(n)) && |NatToString(n)| >= 1
    ensures DigitsValue(NatToString(n)) == n
    decreases n
  {
    if n >= 10 {
      NatToStringRoundTrip(n / 10);
      var s := NatToString(n);
      assert s[..|s| - 1] == NatToString(n / 10);
    }
  }

  /** Distinct numbers print differently. */
  lemma NatToStringInjective(m: nat, n: nat)
    requires NatToString(m) == NatToString(n)
    ensures m == n
  {
    NatToStringRoundTrip(m);
    NatToStringRoundTrip(n);
  }

  /** Python's `round(x)` on an exact value: the nearest integer, ties going to the even neighbour. */
  function RoundHalfEven(x: real): (r: int)
    ensures x - 0.5 <= r as real <= x + 0.5
    ensures (r as real == x - 0.5 || r as real == x + 0.5) ==> r % 2 == 0
  {
    var f := x.Floor;
    var d := x - f as real;
    if d < 0.5 then f
    else if d > 0.5 then f + 1
    else if f % 2 == 0 then f
    else f + 1
  }

  /** An integer strictly closer than one half to x is what round(x) returns. */
  lemma RoundHalfEvenUnique(x: real, n: int)
    requires x - 0.5 < n as real < x + 0.5
    ensures RoundHalfEven(x) == n
  {
  }

  /** round() is monotone. */
  lemma RoundHalfEvenMonotone(x: real, y: real)
    requires x <= y
    ensures RoundHalfEven(x) <= RoundHalfEven(y)
  {
    var rx, ry := RoundHalfEven(x), RoundHalfEven(y);
    assert ry as real >= y - 0.5 >= x - 0.5 >= rx as real - 1.0;
  }

  /** Away from ties, adding one to the argument adds one to the result. */
  lemma RoundHalfEvenShift(x: real)
    requires x - x.Floor as real != 0.5
    ensures RoundHalfEven(x + 1.0) == RoundHalfEven(x) + 1
  {
    var r := RoundHalfEven(x);
    var f := x.Floor;
    assert f as real <= x < f as real + 1.0;
    assert r as real != x - 0.5 && r as real != x + 0.5;
    RoundHalfEvenUnique(x + 1.0, r + 1);
  }

  /** Arguments more than one apart round to different integers. */
  lemma RoundHalfEvenGap(x: real, y: real)
    requires y - x > 1.0
    ensures RoundHalfEven(x) < RoundHalfEven(y)
  {
    var rx, ry := RoundHalfEven(x), RoundHalfEven(y);
    assert ry as real >= y - 0.5 > x + 0.5 >= rx as real;
  }

  /** At a tie the shift property fails: round(0.5) is 0 but round(1.5) is 2. */
  lemma RoundHalfEvenTie()
    ensures RoundHalfEven(0.5) == 0 && RoundHalfEven(1.5) == 2
    ensures RoundHalfEven(0.5 + 1.0) != RoundHalfEven(0.5) + 1
  {
    assert (0.5).Floor == 0;
    assert (1.5).Floor == 1;
  }

  function Pow10(d: nat): (p: nat)
    ensures p >= 1
  {
    if d == 0 then 1 else 10 * Pow10(d - 1)
  }

  /** The d lowest decimal digits of v, zero-padded to width d. */
  function PadDigits(v: nat, d: nat): (s: string)
    ensures |s| == d && IsDigits(s)
  {
    if d == 0 then "" else PadDigits(v / 10, d - 1) + [DigitChar(v % 10)]
  }

  /** The zero-padded digits read back as v modulo 10^d. */
  lemma {:induction false} PadDigitsValue(v: nat, d: nat)
    ensures DigitsValue(PadDigits(v, d)) == v % Pow10(d)
  {
    if d > 0 {
      PadDigitsValue(v / 10, d - 1);
      var s := PadDigits(v, d);
      assert s[..|s| - 1] == PadDigits(v / 10, d - 1);
      ModDivTen(v, Pow10(d - 1));
    }
  }

  lemma ModDivTen(v: nat, p: nat)
    requires p >= 1
    ensures v % (10 * p) == 10 * ((v / 10) % p) + v % 10
  {
    var q := v / 10;
    assert v == 10 * q + v % 10;
    assert q == p * (q / p) + q % p;
    assert v == (10 * p) * (q / p) + (10 * (q % p) + v % 10);
    assert 0 <= 10 * (q % p) + v % 10 < 10 * p;
    DivModUnique(v, 10 * p, q / p, 10 * (q % p) + v % 10);
  }

  lemma DivModUnique(v: int, p: int, q: int, r: int)
    requires p > 0 && v == p * q + r && 0 <= r < p
    ensures v % p == r && v / p == q
  {
    var q0, r0 := v / p, v % p;
    assert v == p * q0 + r0;
    assert p * (q0 - q) == r - r0;
    MultipleBelowDivisor(p, q0 - q);
  }

  lemma MultipleBelowDivisor(p: int, k: int)
    requires p > 0 && -p < p * k < p
    ensures k == 0
  {
    if k > 0 {
      MultipleAtLeastDivisor(p, k);
    } else if k < 0 {
      MultipleAtLeastDivisor(p, -k);
    }
  }

  lemma {:induction false} MultipleAtLeastDivisor(p: int, k: int)
    requires p > 0 && k >= 1
    ensures p * k >= p
    decreases k
  {
    if k > 1 {
      MultipleAtLeastDivisor(p, k - 1);
      assert p * k == p * (k - 1) + p;
    }
  }

  function Abs(x: real): (r: real)
    ensures r >= 0.0 && (r == x || r == -x)
  {
    if x < 0.0 then -x else x
  }

  /** The integer that "%.<d>f" prints, before the decimal point is inserted: round(|x| * 10^d). */
  function ScaledDigits(x: real, d: nat): (m: nat)
  {
    var m := RoundHalfEven(Abs(x) * Pow10(d) as real);
    assert m >= 0;
    m
  }

  /** The printed form of the scaled integer m with d decimals, with or without a leading minus. */
  function FixedText(negative: bool, m: nat, d: nat): (s: string)
    requires d >= 1
    ensures |s| >= d + 2
    ensures s[0] == '-' <==> negative
    ensures s[|s| - d - 1] == '.'
  {
    var p := Pow10(d);
    Assemble(negative, NatToString(Quotient(m, p)), PadDigits(m % p, d))
  }

  function Quotient(m: nat, p: nat): nat
    requires p >= 1
  {
    m / p
  }

  /** Sign, integer digits, point and decimals side by side. */
  function Assemble(negative: bool, whole: string, frac: string): (s: string)
    requires |whole| >= 1 && IsDigits(whole)
    ensures |s| >= |frac| + 2
    ensures s[0] == '-' <==> negative
    ensures s[|s| - |frac| - 1] == '.'
  {
    (if negative then "-" else "") + whole + "." + frac
  }

  /** Python `"%.<d>f" % x` for d >= 1: sign, integer part, point, d decimals. */
  function FormatFixed(x: real, d: nat): (s: string)
    requires d >= 1
    ensures |s| >= d + 2
    ensures s[0] == '-' <==> x < 0.0
    ensures s[|s| - d - 1] == '.'
  {
    FixedText(x < 0.0, ScaledDigits(x, d), d)
  }

  /** A number of at least 10^e has at least e + 1 digits. */
  lemma {:induction false} NatToStringLength(n: nat, e: nat)
    requires n >= Pow10(e)
    ensures |NatToString(n)| >= e + 1
  {
    if e > 0 {
      assert n / 10 >= Pow10(e - 1);
      NatToStringLength(n / 10, e - 1);
    }
  }

  /** A magnitude of at least 10^e + 1 prints with "%.2f" in at least e + 4 characters: e + 1 digits, the point and two decimals. */
  lemma FormatTwoDecimalsLength(x: real, e: nat)
    requires Abs(x) >= Pow10(e) as real + 1.0
    ensures |FormatFixed(x, 2)| >= e + 4
  {
    var big := Pow10(e);
    assert Pow10(2) == 100;
    var m := ScaledDigits(x, 2);
    assert Abs(x) * 100.0 >= (big as real + 1.0) * 100.0;
    assert m as real >= Abs(x) * 100.0 - 0.5;
    assert m >= 100 * big;
    assert Quotient(m, 100) >= big;
    NatToStringLength(Quotient(m, 100), e);
  }

  /** Two numbers of the same sign print alike only if they round to the same multiple of 10^-d. */
  lemma FormatFixedInjective(x: real, y: real, d: nat)
    requires d >= 1
    requires (x < 0.0) == (y < 0.0)
    requires FormatFixed(x, d) == FormatFixed(y, d)
    ensures ScaledDigits(x, d) == ScaledDigits(y, d)
  {
    FixedTextInjective(x < 0.0, ScaledDigits(x, d), ScaledDigits(y, d), d);
  }

  lemma FixedTextInjective(negative: bool, mx: nat, my: nat, d: nat)
    requires d >= 1
    requires FixedText(negative, mx, d) == FixedText(negative, my, d)
    ensures mx == my
  {
    var p := Pow10(d);
    var sign := if negative then "-" else "";
    assert FixedText(negative, mx, d) == sign + NatToString(mx / p) + "." + PadDigits(mx % p, d);
    assert FixedText(negative, my, d) == sign + NatToString(my / p) + "." + PadDigits(my % p, d);
    PartsEqual(sign, NatToString(mx / p), PadDigits(mx % p, d), NatToString(my / p), PadDigits(my % p, d));
    NatToStringInjective(mx / p, my / p);
    PadDigitsValue(mx % p, d);
    PadDigitsValue(my % p, d);
    SameQuotientRemainder(mx, my, p);
  }

  lemma PartsEqual(sign: string, ix: string, fx: string, iy: string, fy: string)
    requires |fx| == |fy|
    requires sign + ix + "." + fx == sign + iy + "." + fy
    ensures ix == iy && fx == fy
  {
    SplitAt(sign + ix + ".", fx, sign + iy + ".", fy);
    SplitAt(sign + ix, ".", sign + iy, ".");
    SplitAt(sign, ix, sign, iy);
  }

  lemma SameQuotientRemainder(x: nat, y: nat, p: nat)
    requires p >= 1
    requires x / p == y / p && (x % p) % p == (y % p) % p
    ensures x == y
  {
    var rx, ry := x % p, y % p;
    DivModUnique(rx, p, 0, rx);
    DivModUnique(ry, p, 0, ry);
    assert rx == ry;
    DivModUnique(x, p, x / p, rx);
    assert x == p * (x / p) + rx;
    assert y == p * (y / p) + ry;
  }

  lemma SplitAt(a1: string, b1: string, a2: string, b2: string)
    requires a1 + b1 == a2 + b2 && |b1| == |b2|
    ensures a1 == a2 && b1 == b2
  {
    assert a1 == (a1 + b1)[..|a1|];
    assert a2 == (a2 + b2)[..|a2|];
    assert b1 == (a1 + b1)[|a1|..];
    assert b2 == (a2 + b2)[|a2|..];
  }

  /** Equal strings with equal prefixes have equal remainders. */
  lemma CancelPrefix(a: string, x: string, y: string)
    requires a + x == a + y
    ensures x == y
  {
    assert x == (a + x)[|a|..];
    assert y == (a + y)[|a|..];
  }

  /** Python `s[:n]`. */
  function Truncate(s: string, n: nat): (r: string)
    ensures |r| == if |s| <= n then |s| else n
    ensures r == s[..|r|]
  {
    if |s| <= n then s else s[..n]
  }

  predicate StartsWith(s: string, prefix: string)
  {
    |prefix| <= |s| && s[..|prefix|] == prefix
  }

  /** Python `sub in s` for strings: sub occurs at some position of s. */
  predicate Contains(s: string, sub: string)
  {
    StartsWith(s, sub) || (|s| > 0 && Contains(s[1..], sub))
  }

  /** Every string contains itself. */
  lemma ContainsItself(s: string)
    ensures Contains(s, s)
  {
    assert s[..|s|] == s;
  }

  /** A string never contains a longer one. */
  lemma {:induction false} ContainsLonger(s: string, sub: string)
    requires |sub| > |s|
    ensures !Contains(s, sub)
  {
    if |s| > 0 {
      ContainsLonger(s[1..], sub);
    }
  }
}
