/** Rounding and division as the source's languages perform them, over
    exact reals: Python's float floor division, its ceiling idioms, its
    half-to-even `round`, and JavaScript's `Math.round`. */
module Arith {
  import opened Numerals

  /** Python's `a // b` on floats, for a non-zero divisor: the floor of the
      quotient. */
  function FloorDiv(a: real, b: real): (r: int)
    requires b != 0.0
    ensures r as real <= a / b < r as real + 1.0
  {
    (a / b).Floor
  }

  /** `math.ceil(a / b)`, equally `-(-a // b)`: the least whole number of
      `b`-sized units that covers `a`. */
  function CeilDiv(a: real, b: real): (r: int)
    requires b > 0.0
    ensures (r - 1) as real * b < a <= r as real * b
  {
    var q := (-a / b).Floor;
    CeilBounds(a, b, q);
    -q
  }

  lemma CeilBounds(a: real, b: real, q: int)
    requires b > 0.0
    requires q as real <= -a / b < q as real + 1.0
    ensures (-q - 1) as real * b < a
    ensures a <= (-q) as real * b
  {
    DivOrder(q as real, -a, b);
    DivOrder(q as real + 1.0, -a, b);
  }

  /** Comparing with a quotient is comparing with the product. */
  lemma DivOrder(y: real, x: real, b: real)
    requires b > 0.0
    ensures y <= x / b <==> y * b <= x
    ensures x / b < y <==> x < y * b
  {
    var d := x / b;
    assert d * b == x;
    if y <= d {
      MulLeft(y, d, b);
    } else {
      MulLeft(d, y, b);
    }
    if d < y {
      MulLeft(d, y, b);
    } else {
      MulLeft(y, d, b);
    }
  }

  /** `part` for each of `count` makes `whole`. */
  predicate Spread(part: real, count: real, whole: real) {
    part * count == whole
  }

  /** `total / count`: the share each of `count` carries. */
  function Share(total: real, count: real): (r: real)
    requires count != 0.0
    ensures Spread(r, count, total)
  {
    total / count
  }

  /** Multiplying both sides of `x <= y` by a non-negative factor, or of
      `x < y` by a positive one, keeps the order. */
  lemma MulLeft(x: real, y: real, b: real)
    requires b >= 0.0
    ensures x <= y ==> x * b <= y * b
    ensures b > 0.0 && x < y ==> x * b < y * b
  {
  }

  /** `x ** 2`. */
  function Square(x: real): (r: real)
    ensures r == x * x
  {
    x * x
  }

  lemma PositiveProduct(a: real, b: real)
    ensures a > 0.0 && b > 0.0 ==> a * b > 0.0
  {
    if a > 0.0 && b > 0.0 {
      MulLeft(0.0, a, b);
    }
  }

  /** A part of a positive whole is a fraction in [0, 1]. */
  lemma UnitFraction(part: real, whole: real)
    requires whole > 0.0 && 0.0 <= part <= whole
    ensures 0.0 <= part / whole <= 1.0
  {
  }

  /** Python's `round(q)` on a float: the nearest integer, ties to the even
      neighbour. */
  function RoundHalfEven(q: real): (n: int)
    ensures -0.5 <= n as real - q <= 0.5
  {
    var f := q.Floor;
    var d := q - f as real;
    if d < 0.5 then f
    else if d > 0.5 then f + 1
    else if f % 2 == 0 then f
    else f + 1
  }

  /** A real that is a whole multiple of 5. */
  predicate MultipleOf5(x: real) {
    IsWhole(x / 5.0)
  }

  /** `round(raw / 5) * 5`: a multiple of 5 within 2.5 of `raw`. */
  function RoundTo5(raw: real): (r: real)
    ensures MultipleOf5(r)
    ensures -2.5 <= r - raw <= 2.5
  {
    var n := RoundHalfEven(raw / 5.0);
    assert (n as real * 5.0) / 5.0 == n as real;
    n as real * 5.0
  }

  /** A multiple of 5 that is above 30 is at least 35: so rounding a raw
      price of at least 35 never drops below 35. */
  lemma MultipleOf5Above(x: real)
    requires MultipleOf5(x) && x > 30.0
    ensures x >= 35.0
  {
    var k := (x / 5.0).Floor;
    assert x == k as real * 5.0;
  }

  /** JavaScript's `Math.round(x)`: the nearest integer, halves rounded
      up. */
  function JsRound(x: real): (n: int)
    ensures -0.5 < n as real - x <= 0.5
  {
    (x + 0.5).Floor
  }

  /** JavaScript's `a % n` on integers: the remainder takes the sign of
      `a`, so a negative `a` gives a remainder in (-n, 0]. */
  function JsRem(a: int, n: int): (r: int)
    requires n > 0
    ensures a >= 0 ==> 0 <= r < n && r == a % n
    ensures a < 0 ==> -n < r <= 0
  {
    if a >= 0 then a % n else -((-a) % n)
  }

  /** The JavaScript remainder is odd in its first operand, which is
      where it parts from Dafny's Euclidean `%`. */
  lemma JsRemOdd(a: int, n: int)
    requires n > 0
    ensures JsRem(-a, n) == -JsRem(a, n)
  {
  }

  /** Python's `x or default` for a float field: an unset (zero) value
      falls back to the default. */
  function Or(x: real, default: real): (r: real)
    ensures x != 0.0 ==> r == x
    ensures x == 0.0 ==> r == default
  {
    if x == 0.0 then default else x
  }

  /** The same idiom for an integer field. */
  function OrInt(x: int, default: int): (r: int)
    ensures x != 0 ==> r == x
    ensures x == 0 ==> r == default
  {
    if x == 0 then default else x
  }

  function Max(a: real, b: real): (r: real)
    ensures r >= a && r >= b && (r == a || r == b)
  {
    if a >= b then a else b
  }

  /** `Max` on whole numbers. */
  function MaxInt(a: int, b: int): (r: int)
    ensures r >= a && r >= b && (r == a || r == b)
  {
    Max(a as real, b as real).Floor
  }

  function MinInt(a: int, b: int): (r: int)
    ensures r <= a && r <= b && (r == a || r == b)
  {
    if a <= b then a else b
  }

  /** The proportion `part / whole` as a percentage, and 0 for a zero
      whole: the `x / y * 100 if y else 0` idiom of the source. */
  function Percent(part: real, whole: real): (p: real)
    ensures whole == 0.0 ==> p == 0.0
    ensures whole != 0.0 ==> p * whole == part * 100.0
  {
    if whole == 0.0 then 0.0 else part / whole * 100.0
  }
}
