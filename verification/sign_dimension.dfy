/** Standard sign dimensions (`sign.dimension`): the generated name, the
    area, the inch, feet-and-inch and diameter displays, and the
    find-or-create rule that keeps (width, height, depth) triples
    unique. */
module SignDimensions {
  import opened Wrappers
  import opened Arith
  import opened Numerals
  import opened Text

  // The error messages the operations raise.
  const UniqueDimensions := "unique_dimensions"

  /** U+00D8, the diameter mark. */
  const DiameterMark: string := "\U{00D8} "

  datatype Dimension = Dimension(
    id: int, width: real, height: real, depth: real,
    diameter: real, canBeRound: bool, active: bool)

  /** `_compute_name`: "W x H", with " x D" when a depth is set; the
      diameter form when only a diameter is set; "Undefined" otherwise.
      Whole numbers print without a fractional part. */
  function Name(d: Dimension): (r: string)
    ensures d.width != 0.0 && d.height != 0.0 && d.depth == 0.0 ==>
      r == NumText(d.width) + " x " + NumText(d.height)
    ensures d.width != 0.0 && d.height != 0.0 && d.depth != 0.0 ==>
      r == NumText(d.width) + " x " + NumText(d.height) + " x " + NumText(d.depth)
    ensures (d.width == 0.0 || d.height == 0.0) && d.diameter != 0.0 ==>
      r == DiameterMark + NumText(d.diameter)
    ensures (d.width == 0.0 || d.height == 0.0) && d.diameter == 0.0 ==> r == "Undefined"
  {
    if d.width != 0.0 && d.height != 0.0 then
      var wh := NumText(d.width) + " x " + NumText(d.height);
      if d.depth != 0.0 then wh + " x " + NumText(d.depth) else wh
    else if d.diameter != 0.0 then DiameterMark + NumText(d.diameter)
    else "Undefined"
  }

  /** A whole-inch rectangular dimension is named by its integers. */
  lemma WholeName(w: int, h: int, d: Dimension)
    requires w != 0 && h != 0
    requires d.width == w as real && d.height == h as real && d.depth == 0.0
    ensures Name(d) == IntText(w) + " x " + IntText(h)
  {
  }

  /** `_compute_square_inches`, with pi passed in: a round-capable
      dimension with a diameter has the circle's area; otherwise width
      times height when both are set, else 0. */
  function SquareInches(d: Dimension, pi: real): (a: real)
    ensures d.canBeRound && d.diameter != 0.0 ==> a == pi * Square(d.diameter / 2.0)
    ensures !(d.canBeRound && d.diameter != 0.0) && d.width != 0.0 && d.height != 0.0 ==>
      a == d.width * d.height
    ensures !(d.canBeRound && d.diameter != 0.0) && (d.width == 0.0 || d.height == 0.0) ==> a == 0.0
  {
    if d.canBeRound && d.diameter != 0.0 then pi * Square(d.diameter / 2.0)
    else if d.width != 0.0 && d.height != 0.0 then d.width * d.height
    else 0.0
  }

  /** A round sign's area depends on its diameter alone: its width and
      height are ignored. */
  lemma RoundAreaIgnoresBox(d: Dimension, w: real, h: real, pi: real)
    requires d.canBeRound && d.diameter != 0.0
    ensures SquareInches(d.(width := w, height := h), pi) == SquareInches(d, pi)
  {
  }

  /** `display_by_inch`: "W x H", or empty without both dimensions. */
  function InchDisplay(d: Dimension): (r: string)
    ensures d.width == 0.0 || d.height == 0.0 <==> r == []
  {
    if d.width != 0.0 && d.height != 0.0 then NumText(d.width) + " x " + NumText(d.height) else ""
  }

  /** `to_feet_inches`: whole feet from floor division by 12 and the
      remainder, printed `F'-R"`, `F'-0"` for an exact number of feet, or
      `R"` under a foot. */
  function FeetInches(inches: real): (r: string)
    ensures |r| > 0 && r[|r| - 1] == '"'
  {
    var feet := FloorDiv(inches, 12.0);
    var rem := inches - 12.0 * feet as real;
    if feet > 0 && rem > 0.0 then IntText(feet) + "'-" + IntText(Trunc(rem)) + "\""
    else if feet > 0 then IntText(feet) + "'-0\""
    else IntText(Trunc(rem)) + "\""
  }

  /** Reads a feet-and-inch label back into whole inches. */
  function ParseFeetInches(s: string): Option<int> {
    if |s| == 0 || s[|s| - 1] != '"' then None
    else
      var k := IndexOf(s, '\'');
      if k < 0 then
        if AllDigits(s[..|s| - 1]) then Some(ParseNat(s[..|s| - 1])) else None
      else if k + 2 <= |s| - 1 && s[k + 1] == '-' && AllDigits(s[..k]) && AllDigits(s[k + 2..|s| - 1]) then
        Some(12 * ParseNat(s[..k]) + ParseNat(s[k + 2..|s| - 1]))
      else None
  }

  lemma NoQuote(s: string)
    requires AllDigits(s)
    ensures IndexOf(s, '\'') == -1
  {
    assert forall j :: 0 <= j < |s| ==> s[j] != '\'';
  }

  /** The label of a whole, non-negative number of inches. */
  lemma {:induction false} FeetInchesWhole(n: nat)
    ensures FeetInches(n as real) ==
      if n >= 12 then NatText(n / 12) + "'-" + NatText(n % 12) + "\""
      else NatText(n) + "\""
  {
    var x, feet, rem := n as real, n / 12, n % 12;
    WholeFeet(n);
    assert Trunc(rem as real) == rem;
    if feet > 0 && rem > 0 {
      assert FeetInches(x) == IntText(feet) + "'-" + IntText(rem) + "\"";
    } else if feet > 0 {
      assert FeetInches(x) == IntText(feet) + "'-0\"";
      assert NatText(0) == "0";
    } else {
      assert FeetInches(x) == IntText(rem) + "\"";
    }
  }

  /** Whole inches split into whole feet and the whole inches left over. */
  lemma {:induction false} WholeFeet(n: nat)
    ensures FloorDiv(n as real, 12.0) == n / 12
    ensures n as real - 12.0 * (n / 12) as real == (n % 12) as real
  {
    var x := n as real;
    assert (n / 12) as real <= x / 12.0 < (n / 12) as real + 1.0 by {
      assert n == 12 * (n / 12) + n % 12;
      assert x == 12.0 * (n / 12) as real + (n % 12) as real;
    }
  }

  /** The two label shapes read back to the inches they stand for. */
  lemma {:induction false} ParseFeetLabel(f: nat, r: nat)
    ensures ParseFeetInches(NatText(f) + "'-" + NatText(r) + "\"") == Some(12 * f + r)
  {
    ParseFeetShape(NatText(f), NatText(r));
    ParseNatText(f);
    ParseNatText(r);
  }

  /** Any `F'-R"` with digit runs `F` and `R` reads as 12 F + R. */
  lemma {:induction false} ParseFeetShape(ft: string, rt: string)
    requires |ft| >= 1 && AllDigits(ft) && AllDigits(rt)
    ensures ParseFeetInches(ft + "'-" + rt + "\"") == Some(12 * ParseNat(ft) + ParseNat(rt))
  {
    var tail := "'-" + rt + "\"";
    var s := ft + tail;
    assert ft + "'-" + rt + "\"" == s;
    var k := |ft|;
    assert IndexOf(s, '\'') == k by {
      NoQuote(ft);
      assert IndexOf(tail, '\'') == 0;
      IndexOfAppend(ft, tail, '\'');
    }
    assert s[|s| - 1] == '"';
    assert s[k + 1] == '-';
    assert s[..k] == ft;
    assert s[k + 2..|s| - 1] == rt;
  }

  lemma {:induction false} ParseInchLabel(r: nat)
    ensures ParseFeetInches(NatText(r) + "\"") == Some(r)
  {
    var rt := NatText(r);
    var u := rt + "\"";
    assert u[..|u| - 1] == rt;
    assert IndexOf(u, '\'') == -1 by {
      NoQuote(rt);
      IndexOfAppend(rt, "\"", '\'');
    }
    ParseNatText(r);
  }

  /** For a whole, non-negative number of inches the label reads back as
      12 times the feet plus the inches: no information is lost. */
  lemma {:induction false} FeetInchesRoundTrip(n: nat)
    ensures ParseFeetInches(FeetInches(n as real)) == Some(n)
  {
    var shown := FeetInches(n as real);
    FeetInchesWhole(n);
    if n >= 12 {
      var f, r := n / 12, n % 12;
      assert shown == NatText(f) + "'-" + NatText(r) + "\"";
      ParseFeetLabel(f, r);
      assert 12 * f + r == n;
    } else {
      assert shown == NatText(n) + "\"";
      ParseInchLabel(n);
    }
  }

  /** Searching a concatenation whose first part lacks `c`. */
  lemma {:induction false} IndexOfAppend(a: string, b: string, c: char)
    requires IndexOf(a, c) == -1
    ensures IndexOf(a + b, c) == (if IndexOf(b, c) == -1 then -1 else |a| + IndexOf(b, c))
    decreases |a|
  {
    if |a| > 0 {
      assert (a + b)[1..] == a[1..] + b;
      IndexOfAppend(a[1..], b, c);
    } else {
      assert a + b == b;
    }
  }

  /** `display_by_feet_inch`: both sides in feet and inches, or empty
      without both dimensions. */
  function FeetInchDisplay(d: Dimension): (r: string)
    ensures d.width == 0.0 || d.height == 0.0 <==> r == []
  {
    if d.width != 0.0 && d.height != 0.0 then FeetInches(d.width) + " x " + FeetInches(d.height) else ""
  }

  /** `display_diameter`: the diameter form, or empty without a
      diameter. */
  function DiameterDisplay(diameter: real): (r: string)
    ensures diameter == 0.0 <==> r == []
    ensures diameter != 0.0 ==> |r| > 2 && r[..2] == DiameterMark
  {
    if diameter != 0.0 then DiameterMark + NumText(diameter) + "\"" else ""
  }

  /** The (width, height, depth) key the table's unique constraint is
      on. */
  predicate SameSize(d: Dimension, w: real, h: real, depth: real) {
    d.width == w && d.height == h && d.depth == depth
  }

  /** No two records share a (width, height, depth) triple. */
  predicate UniqueSizes(ds: seq<Dimension>) {
    forall i, j :: 0 <= i < j < |ds| ==>
      !SameSize(ds[j], ds[i].width, ds[i].height, ds[i].depth)
  }

  /** The index of the first active record of that size, the one an
      ordinary `search(..., limit=1)` returns. */
  function FindActive(ds: seq<Dimension>, w: real, h: real, depth: real): (k: int)
    ensures -1 <= k < |ds|
    ensures k >= 0 ==> ds[k].active && SameSize(ds[k], w, h, depth)
    ensures k >= 0 ==> forall j :: 0 <= j < k ==> !(ds[j].active && SameSize(ds[j], w, h, depth))
    ensures k == -1 ==> forall j :: 0 <= j < |ds| ==> !(ds[j].active && SameSize(ds[j], w, h, depth))
    decreases |ds|
  {
    if |ds| == 0 then -1
    else if ds[0].active && SameSize(ds[0], w, h, depth) then 0
    else
      var k := FindActive(ds[1..], w, h, depth);
      if k == -1 then -1 else k + 1
  }

  /** `find_or_create`: the existing active record of that size, or a new
      record (with the next free id) appended to the table.  Archived
      records are invisible to the search but still count for the unique
      constraint, so an archived match makes the insert fail. */
  function FindOrCreate(ds: seq<Dimension>, w: real, h: real, depth: real, newId: int): (r: Result<(seq<Dimension>, Dimension)>)
    ensures r.Ok? ==> SameSize(r.value.1, w, h, depth)
    ensures FindActive(ds, w, h, depth) >= 0 ==>
      r == Ok((ds, ds[FindActive(ds, w, h, depth)]))
    ensures FindActive(ds, w, h, depth) == -1 && r.Ok? ==>
      r.value.0 == ds + [r.value.1] && r.value.1.id == newId && r.value.1.active
    ensures r.Err? <==> FindActive(ds, w, h, depth) == -1 && exists j :: 0 <= j < |ds| && SameSize(ds[j], w, h, depth)
  {
    var k := FindActive(ds, w, h, depth);
    if k >= 0 then Ok((ds, ds[k]))
    else if exists j :: 0 <= j < |ds| && SameSize(ds[j], w, h, depth) then Err(UniqueDimensions)
    else
      var d := Dimension(newId, w, h, depth, 0.0, false, true);
      Ok((ds + [d], d))
  }

  /** Find-or-create never breaks the uniqueness of sizes. */
  lemma FindOrCreateKeepsUnique(ds: seq<Dimension>, w: real, h: real, depth: real, newId: int)
    requires UniqueSizes(ds)
    ensures var r := FindOrCreate(ds, w, h, depth, newId);
      r.Ok? ==> UniqueSizes(r.value.0)
  {
  }

  /** Asking twice for the same size returns the same record the second
      time and adds nothing. */
  lemma FindOrCreateIdempotent(ds: seq<Dimension>, w: real, h: real, depth: real, id1: int, id2: int)
    requires FindOrCreate(ds, w, h, depth, id1).Ok?
    ensures var (ds1, d1) := FindOrCreate(ds, w, h, depth, id1).value;
      FindOrCreate(ds1, w, h, depth, id2) == Ok((ds1, d1))
  {
    var (ds1, d1) := FindOrCreate(ds, w, h, depth, id1).value;
    if FindActive(ds, w, h, depth) == -1 {
      assert ds1[|ds|] == d1;
      assert FindActive(ds1, w, h, depth) >= 0;
      assert FindActive(ds1, w, h, depth) == |ds|;
    }
  }
}
