/** The press-layout arithmetic every panel-sign pricing path shares: how
    many signs fit on one press mold when the sign may be placed in either
    orientation, and how many whole batches cover an order. */
module PanelFit {
  import opened Arith

  /** The press mold is 13 by 19 inches. */
  const PressWidth: real := 13.0
  const PressHeight: real := 19.0

  /** Signs of `w` by `h` laid in a grid on a `pw` by `ph` press without
      rotation: `int(pw // w) * int(ph // h)`. */
  function Fit(w: real, h: real, pw: real, ph: real): int
    requires w != 0.0 && h != 0.0
  {
    FloorDiv(pw, w) * FloorDiv(ph, h)
  }

  /** `max(fit1, fit2, 1)`: the better of the two orientations, and never
      less than one sign per mold. */
  function SignsPerMold(w: real, h: real, pw: real, ph: real): (n: int)
    requires w != 0.0 && h != 0.0
    ensures n >= 1
    ensures n >= Fit(w, h, pw, ph) && n >= Fit(h, w, pw, ph)
    ensures n == 1 || n == Fit(w, h, pw, ph) || n == Fit(h, w, pw, ph)
  {
    MaxInt(MaxInt(Fit(w, h, pw, ph), Fit(h, w, pw, ph)), 1)
  }

  /** Turning the sign by a quarter turn does not change the count. */
  lemma SignsPerMoldSymmetric(w: real, h: real, pw: real, ph: real)
    requires w != 0.0 && h != 0.0
    ensures SignsPerMold(w, h, pw, ph) == SignsPerMold(h, w, pw, ph)
  {
  }

  /** For a real sign on a real press the grid layout never claims more
      sign area than the press has. */
  lemma {:induction false} FitArea(w: real, h: real, pw: real, ph: real)
    requires w > 0.0 && h > 0.0 && pw > 0.0 && ph > 0.0
    ensures Fit(w, h, pw, ph) as real * (w * h) <= pw * ph
  {
    var a := FloorDiv(pw, w);
    var b := FloorDiv(ph, h);
    assert 0 <= a && 0 <= b;
    assert a as real <= pw / w;
    MulLeft(a as real, pw / w, w);
    assert pw / w * w == pw;
    assert a as real * w <= pw;
    MulLeft(b as real, ph / h, h);
    assert ph / h * h == ph;
    assert b as real * h <= ph;
    MulBounds(a as real * w, pw, b as real * h, ph);
    assert (a * b) as real * (w * h) == (a as real * w) * (b as real * h);
  }

  lemma MulBounds(x: real, x': real, y: real, y': real)
    requires 0.0 <= x <= x' && 0.0 <= y <= y'
    ensures x * y <= x' * y'
  {
    MulLeft(x, x', y);
    MulLeft(y, y', x');
  }

  /** When more than one sign goes on a mold, all of them fit on the press
      by area. */
  lemma {:induction false} SignsPerMoldArea(w: real, h: real, pw: real, ph: real)
    requires w > 0.0 && h > 0.0 && pw > 0.0 && ph > 0.0
    requires SignsPerMold(w, h, pw, ph) > 1
    ensures SignsPerMold(w, h, pw, ph) as real * (w * h) <= pw * ph
  {
    FitArea(w, h, pw, ph);
    FitArea(h, w, pw, ph);
    assert h * w == w * h;
  }

  lemma ProductSign(m: int, p: int)
    requires p >= 0
    ensures m <= 0 ==> m * p <= 0
    ensures m >= 0 ==> m * p >= 0
  {
  }

  /** `k` units of `n` cover `q`, and `k - 1` units do not. */
  predicate Covers(k: int, n: int, q: real) {
    (k - 1) as real * n as real < q <= k as real * n as real
  }

  /** The fewest whole units of `n` that cover `q`: the true ceiling the
      source's idiom is meant to compute. */
  function Cover(q: real, n: int): (k: int)
    requires n >= 1
    ensures Covers(k, n, q)
    ensures q > 0.0 ==> k >= 1
  {
    var k := CeilDiv(q, n as real);
    MulLeft(k as real, 0.0, n as real);
    k
  }

  /** Covering units leave less than one unit of surplus. */
  lemma {:induction false} CoverSurplus(k: int, n: int, q: real)
    requires n >= 1 && Covers(k, n, q)
    ensures q <= (k * n) as real && (k * n) as real - q < n as real
  {
    var kn := k as real * n as real;
    assert (k * n) as real == kn;
    assert (k - 1) as real * n as real == kn - n as real;
  }

  /** The batch plan for an order: how many molds, how many signs they
      produce, and how many of those are surplus stock. */
  datatype Batch = Batch(perMold: int, molds: int, produced: int, stock: int)

  /** `math.ceil(qty / per_mold)` molds, `molds * per_mold` signs produced
      and the surplus over the order.  The fewest molds that cover the
      order, and the surplus is less than one mold's worth. */
  function PlanBatch(qty: int, perMold: int): (b: Batch)
    requires perMold >= 1
    ensures b.perMold == perMold
    ensures b.produced == b.molds * perMold && b.stock == b.produced - qty
    ensures b.produced >= qty
    ensures (b.molds - 1) * perMold < qty
    ensures 0 <= b.stock < perMold
    ensures qty >= 1 ==> b.molds >= 1
    ensures qty <= 0 ==> b.molds <= 0
  {
    var molds := CeilDiv(qty as real, perMold as real);
    assert (molds - 1) * perMold < qty && qty <= molds * perMold by {
      assert ((molds - 1) * perMold) as real == (molds - 1) as real * perMold as real;
      assert (molds * perMold) as real == molds as real * perMold as real;
    }
    ProductSign(molds, perMold);
    ProductSign(molds - 1, perMold);
    Batch(perMold, molds, molds * perMold, molds * perMold - qty)
  }
}
