/** Decimal text of numbers, as Python's f-strings and `str()` and
    JavaScript's string concatenation print them, together with the parser
    that reads such text back. */
module Numerals {

  predicate IsDigit(c: char) {
    '0' <= c <= '9'
  }

  function DigitChar(d: int): (c: char)
    requires 0 <= d < 10
    ensures IsDigit(c) && DigitValue(c) == d
  {
    ('0' as int + d) as char
  }

  function DigitValue(c: char): (d: int)
    requires IsDigit(c)
    ensures 0 <= d < 10
  {
    c as int - '0' as int
  }

  predicate AllDigits(s: string) {
    forall i :: 0 <= i < |s| ==> IsDigit(s[i])
  }

  /** Decimal digits of a natural number, most significant first, without
      leading zeros. */
  function NatText(n: nat): (r: string)
    ensures |r| >= 1 && AllDigits(r)
    ensures |r| > 1 ==> r[0] != '0'
    decreases n
  {
    if n < 10 then [DigitChar(n)]
    else
      var r := NatText(n / 10) + [DigitChar(n % 10)];
      assert r[0] == NatText(n / 10)[0];
      r
  }

  /** `str(n)` / `f"{n}"` for an integer. */
  function IntText(n: int): (r: string)
    ensures |r| >= 1
    ensures n >= 0 ==> AllDigits(r)
    ensures n < 0 ==> r[0] == '-' && AllDigits(r[1..])
  {
    if n < 0 then "-" + NatText(-n) else NatText(n)
  }

  /** `int(s)` for a string of ASCII digits (an empty string reads 0). */
  function ParseNat(s: string): (n: nat)
    requires AllDigits(s)
    decreases |s|
  {
    if |s| == 0 then 0
    else ParseNat(s[..|s| - 1]) * 10 + DigitValue(s[|s| - 1])
  }

  /** `int(s)` for an optionally negative decimal numeral. */
  function ParseInt(s: string): int
    requires AllDigits(s) || (|s| > 0 && s[0] == '-' && AllDigits(s[1..]))
  {
    if |s| > 0 && s[0] == '-' then 0 - ParseNat(s[1..]) else ParseNat(s)
  }

  lemma {:induction false} ParseNatText(n: nat)
    ensures ParseNat(NatText(n)) == n
    decreases n
  {
    if n >= 10 {
      ParseNatText(n / 10);
      var r := NatText(n);
      assert r[..|r| - 1] == NatText(n / 10);
    }
  }

  /** Printing an integer and reading it back gives the integer. */
  lemma {:induction false} IntTextRoundTrip(n: int)
    ensures ParseInt(IntText(n)) == n
  {
    if n < 0 {
      ParseNatText(-n);
      assert IntText(n)[1..] == NatText(-n);
    } else {
      ParseNatText(n);
    }
  }

  /** Distinct integers print differently. */
  lemma IntTextInjective(a: int, b: int)
    requires IntText(a) == IntText(b)
    ensures a == b
  {
    IntTextRoundTrip(a);
    IntTextRoundTrip(b);
  }

  /** `f"{n:02d}"` for a natural number: at least two digits, zero
      padded. */
  function Pad2(n: nat): (r: string)
    ensures |r| >= 2 && AllDigits(r)
    ensures ParseNat(r) == n
  {
    ParseNatText(n);
    if n < 10 then
      var r := "0" + NatText(n);
      assert r[..|r| - 1] == "0";
      assert ParseNat("0"[..0]) == 0;
      r
    else NatText(n)
  }

  /** A real number is a whole number. */
  predicate IsWhole(x: real) {
    x == x.Floor as real
  }

  /** Python's integer conversion `int(x)` of a float: truncation toward
      zero. */
  function Trunc(x: real): (r: int)
    ensures x >= 0.0 ==> r as real <= x < r as real + 1.0
    ensures x < 0.0 ==> r as real - 1.0 < x <= r as real
    ensures IsWhole(x) ==> r as real == x
  {
    if x >= 0.0 then x.Floor
    else
      WholeNegation(x);
      -((-x).Floor)
  }

  /** Negation preserves being whole, and commutes with the floor of a
      whole number. */
  lemma WholeNegation(x: real)
    ensures IsWhole(x) <==> IsWhole(-x)
    ensures IsWhole(x) ==> (-x).Floor == -x.Floor
  {
    if IsWhole(x) {
      var k := x.Floor;
      assert -x == (-k) as real;
    }
    if IsWhole(-x) {
      var k := (-x).Floor;
      assert x == (-k) as real;
    }
  }

  /** How a dimension or amount prints in the source's labels: a whole
      number as an integer (`int(x) if x == int(x) else x`), any other
      value as its decimal expansion, cut after `MaxDigits` fractional
      digits. */
  function NumText(x: real): (r: string)
    ensures IsWhole(x) ==> r == IntText(x.Floor)
    ensures !IsWhole(x) ==> '.' in r
  {
    if IsWhole(x) then IntText(x.Floor)
    else if x < 0.0 then
      WholeNegation(x);
      var p := PointText(-x);
      assert ("-" + p)[1..] == p;
      "-" + p
    else PointText(x)
  }

  const MaxDigits: nat := 17

  function PointText(x: real): (r: string)
    requires x >= 0.0 && !IsWhole(x)
    ensures '.' in r
  {
    var f := x - x.Floor as real;
    var r := NatText(x.Floor) + "." + Fraction(f, MaxDigits);
    assert r[|NatText(x.Floor)|] == '.';
    r
  }

  /** The decimal digits of a fraction in [0, 1), stopping when the
      fraction is used up or the digit budget is spent. */
  function Fraction(f: real, fuel: nat): (r: string)
    requires 0.0 <= f < 1.0
    ensures |r| <= fuel && AllDigits(r)
    decreases fuel
  {
    if f == 0.0 || fuel == 0 then []
    else
      var t := f * 10.0;
      [DigitChar(t.Floor)] + Fraction(t - t.Floor as real, fuel - 1)
  }
}
