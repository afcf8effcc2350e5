/** The manufacturing-order component rewrite of the configurable panel
    pricing add-on: when a manufacturing order is created for a panel sign
    sold on a sale order, the quantities of its raw-material moves are
    replaced by the usage figures of the sale line that ordered it. */
module MrpRewrite {
  import opened Wrappers

  /** The product records the parameters record links; 0 stands for an
      unset link, whose id reads as `False`. */
  datatype ProductIds = ProductIds(
    pionite: int, ink: int, paint: int, tape: int, lube: int,
    window: int, labor: int, abs18: int, abs316: int, acrylic18: int)

  /** The sale order line fields the rewrite reads: the procurement group
      of its order, its product, the panel flag, the thickness selection
      key and the per-component usage figures. */
  datatype SaleLine = SaleLine(
    group: int, product: int, isPanelSign: bool, thickness: string,
    usagePionite: real, usageInk: real, usagePaint: real, usageTape: real,
    usageLube: real, usageWindowSheet: real, usageLabor: real,
    usageSubstrateAbs: real, usageSubstrateAcrylic: real)

  datatype Move = Move(id: int, product: int, qty: real)

  /** A manufacturing order: its procurement group (0 when it has none),
      its product and its raw-material moves. */
  datatype Production = Production(group: int, product: int, moves: seq<Move>)

  /** The map a sequence of key/value pairs builds as a Python dict
      display: a later pair overrides an earlier one with the same key. */
  function MapOf(ps: seq<(int, real)>): (m: map<int, real>)
    ensures forall k :: k in m <==> exists j :: 0 <= j < |ps| && ps[j].0 == k
  {
    if |ps| == 0 then map[]
    else
      var m := MapOf(ps[..|ps| - 1]);
      assert forall j :: 0 <= j < |ps| - 1 ==> ps[..|ps| - 1][j] == ps[j];
      m[ps[|ps| - 1].0 := ps[|ps| - 1].1]
  }

  /** The value a key gets is that of its last pair. */
  lemma {:induction false} MapOfLast(ps: seq<(int, real)>, j: int)
    requires 0 <= j < |ps|
    requires forall i :: j < i < |ps| ==> ps[i].0 != ps[j].0
    ensures ps[j].0 in MapOf(ps) && MapOf(ps)[ps[j].0] == ps[j].1
    decreases |ps|
  {
    if j < |ps| - 1 {
      var init := ps[..|ps| - 1];
      assert forall i :: j < i < |init| ==> init[i] == ps[i];
      MapOfLast(init, j);
    }
  }

  /** The ten (product, usage) pairs in the order the source lists them.
      ABS usage goes to the 1/8 product only for a one-eighth line and to
      the 3/16 product only for a three-sixteenths line; otherwise that
      product maps to 0. */
  function ComponentPairs(line: SaleLine, ids: ProductIds): (ps: seq<(int, real)>)
    ensures |ps| == 10
    ensures ps[7] == (ids.abs18, if line.thickness == "one_eighth" then line.usageSubstrateAbs else 0.0)
    ensures ps[8] == (ids.abs316, if line.thickness == "three_sixteenth" then line.usageSubstrateAbs else 0.0)
    ensures ps[9] == (ids.acrylic18, line.usageSubstrateAcrylic)
  {
    [(ids.pionite, line.usagePionite), (ids.ink, line.usageInk),
     (ids.paint, line.usagePaint), (ids.tape, line.usageTape),
     (ids.lube, line.usageLube), (ids.window, line.usageWindowSheet),
     (ids.labor, line.usageLabor),
     (ids.abs18, if line.thickness == "one_eighth" then line.usageSubstrateAbs else 0.0),
     (ids.abs316, if line.thickness == "three_sixteenth" then line.usageSubstrateAbs else 0.0),
     (ids.acrylic18, line.usageSubstrateAcrylic)]
  }

  function ComponentMap(line: SaleLine, ids: ProductIds): map<int, real> {
    MapOf(ComponentPairs(line, ids))
  }

  /** The product ids are ten different products. */
  predicate Distinct(ids: ProductIds) {
    var ks := [ids.pionite, ids.ink, ids.paint, ids.tape, ids.lube,
               ids.window, ids.labor, ids.abs18, ids.abs316, ids.acrylic18];
    forall a, b :: 0 <= a < b < |ks| ==> ks[a] != ks[b]
  }

  /** With ten different products, the ABS 1/8 product gets the ABS usage
      exactly for a one-eighth line and the 3/16 product exactly for a
      three-sixteenths line, and the other eight get their own usage. */
  lemma {:induction false} SubstrateByThickness(line: SaleLine, ids: ProductIds)
    requires Distinct(ids)
    ensures var m := ComponentMap(line, ids);
      && ids.abs18 in m && ids.abs316 in m && ids.acrylic18 in m
      && m[ids.abs18] == (if line.thickness == "one_eighth" then line.usageSubstrateAbs else 0.0)
      && m[ids.abs316] == (if line.thickness == "three_sixteenth" then line.usageSubstrateAbs else 0.0)
      && m[ids.acrylic18] == line.usageSubstrateAcrylic
      && ids.pionite in m && m[ids.pionite] == line.usagePionite
  {
    var ps := ComponentPairs(line, ids);
    var ks := [ids.pionite, ids.ink, ids.paint, ids.tape, ids.lube,
               ids.window, ids.labor, ids.abs18, ids.abs316, ids.acrylic18];
    assert forall i :: 0 <= i < 10 ==> ps[i].0 == ks[i];
    MapOfLast(ps, 7);
    MapOfLast(ps, 8);
    MapOfLast(ps, 9);
    MapOfLast(ps, 0);
  }

  /** The new quantity of a mapped move: the usage when positive, else 0. */
  function NewQty(usage: real): (q: real)
    ensures q >= 0.0
    ensures usage > 0.0 ==> q == usage
    ensures usage <= 0.0 ==> q == 0.0
  {
    if usage > 0.0 then usage else 0.0
  }

  /** The loop over the raw moves: a move whose product is in the map
      takes the mapped quantity, and every other move is kept as is. */
  function RewriteMoves(moves: seq<Move>, m: map<int, real>): (r: seq<Move>)
    ensures |r| == |moves|
    ensures forall k :: 0 <= k < |r| && moves[k].product in m ==>
      r[k] == moves[k].(qty := NewQty(m[moves[k].product]))
    ensures forall k :: 0 <= k < |r| && moves[k].product !in m ==> r[k] == moves[k]
  {
    if |moves| == 0 then []
    else
      var mv := moves[0];
      var first := if mv.product in m then mv.(qty := NewQty(m[mv.product])) else mv;
      [first] + RewriteMoves(moves[1..], m)
  }

  /** Rewriting with the same map twice is the same as rewriting once. */
  lemma RewriteMovesIdempotent(moves: seq<Move>, m: map<int, real>)
    ensures RewriteMoves(RewriteMoves(moves, m), m) == RewriteMoves(moves, m)
  {
    var r := RewriteMoves(moves, m);
    var rr := RewriteMoves(r, m);
    assert forall k :: 0 <= k < |rr| ==> rr[k] == r[k];
  }

  /** The sale lines the source's search returns: the lines of the order
      in the production's procurement group, for the production's
      product, in the oracle's order. */
  function Matching(all: seq<SaleLine>, mo: Production): (r: seq<SaleLine>)
    ensures forall l :: l in r <==> l in all && l.group == mo.group && l.product == mo.product
    ensures |r| <= |all|
  {
    if |all| == 0 then []
    else
      var rest := Matching(all[1..], mo);
      assert forall l :: l in all <==> l == all[0] || l in all[1..];
      if all[0].group == mo.group && all[0].product == mo.product then [all[0]] + rest else rest
  }

  /** The first line of `Matching`, if any, is the first line of the
      oracle that matches. */
  lemma {:induction false} MatchingFirst(all: seq<SaleLine>, mo: Production, j: int)
    requires 0 <= j < |all| && all[j].group == mo.group && all[j].product == mo.product
    requires forall i :: 0 <= i < j ==> !(all[i].group == mo.group && all[i].product == mo.product)
    ensures |Matching(all, mo)| > 0 && Matching(all, mo)[0] == all[j]
    decreases j
  {
    if j > 0 {
      assert forall i :: 0 <= i < j - 1 ==> all[1..][i] == all[i + 1];
      MatchingFirst(all[1..], mo, j - 1);
    }
  }

  /** Whether the rewrite acts on this production. */
  predicate Rewrites(mo: Production, all: seq<SaleLine>, params: Option<ProductIds>) {
    && mo.group != 0
    && |Matching(all, mo)| > 0
    && Matching(all, mo)[0].isPanelSign
    && params.Some?
  }

  /** The `create` override, for one new production: without a
      procurement group, a matching sale line, a panel-sign first line or
      a parameters record the production is left untouched; otherwise
      its raw moves are rewritten from the first matching line's usage. */
  function RewriteProduction(mo: Production, all: seq<SaleLine>, params: Option<ProductIds>): (r: Production)
    ensures !Rewrites(mo, all, params) ==> r == mo
    ensures Rewrites(mo, all, params) ==>
      r == mo.(moves := RewriteMoves(mo.moves, ComponentMap(Matching(all, mo)[0], params.value)))
    ensures r.group == mo.group && r.product == mo.product && |r.moves| == |mo.moves|
  {
    if mo.group == 0 then mo
    else
      var lines := Matching(all, mo);
      if |lines| == 0 then mo
      else
        var line := lines[0];
        if !line.isPanelSign then mo
        else if params.None? then mo
        else mo.(moves := RewriteMoves(mo.moves, ComponentMap(line, params.value)))
  }

  /** Only the first matching line counts: matching lines after it, with
      whatever usage figures, do not change the result. */
  lemma {:induction false} OnlyFirstLineUsed(mo: Production, all: seq<SaleLine>, more: seq<SaleLine>, params: Option<ProductIds>)
    requires |Matching(all, mo)| > 0
    ensures RewriteProduction(mo, all + more, params) == RewriteProduction(mo, all, params)
  {
    MatchingPrefix(all, more, mo);
  }

  lemma {:induction false} MatchingPrefix(all: seq<SaleLine>, more: seq<SaleLine>, mo: Production)
    requires |Matching(all, mo)| > 0
    ensures |Matching(all + more, mo)| > 0 && Matching(all + more, mo)[0] == Matching(all, mo)[0]
  {
    if all[0].group == mo.group && all[0].product == mo.product {
      assert (all + more)[0] == all[0];
    } else {
      assert (all + more)[1..] == all[1..] + more;
      MatchingPrefix(all[1..], more, mo);
    }
  }

  /** `create` over a batch of new productions, each rewritten on its own. */
  function RewriteAll(mos: seq<Production>, all: seq<SaleLine>, params: Option<ProductIds>): (r: seq<Production>)
    ensures |r| == |mos|
    ensures forall k :: 0 <= k < |r| ==> r[k] == RewriteProduction(mos[k], all, params)
  {
    if |mos| == 0 then []
    else [RewriteProduction(mos[0], all, params)] + RewriteAll(mos[1..], all, params)
  }
}
