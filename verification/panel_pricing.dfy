/** The configurable panel pricing engine (`patriot_panel_pricing`): the
    same press-fit and batch arithmetic as the Studio engine, but every
    rate, cost and press size is read from a pricing-parameters record,
    and the unit price is the marked-up line cost divided by the
    quantity. */
module PanelPricing {
  import opened Wrappers
  import opened Arith
  import PanelFit

  // The error messages the operations raise.
  const DivisionByZero := "float floor division by zero"

  /** The values the compute reads from the active parameters record. */
  datatype Params = Params(
    pressW: real, pressH: real, moldsPerSheet: int,
    pioniteSheetCost: real, abs18SheetCost: real, abs316SheetCost: real,
    acrylic18SheetCost: real, windowSheetCost: real,
    inkPerSign: real, paintPerSign: real, hotstampPerSign: real,
    tapePerMold: real, mclubePerMold: real,
    laborRateWorst: real, markup: real, overheadPct: real,
    pioniteW: real, pioniteH: real)

  /** The panel inputs of a sale order line.  `material` and `thickness`
      hold selection keys, "" when unset. */
  datatype Panel = Panel(
    width: real, height: real, material: string, thickness: string,
    windowed: bool, windowHeight: real, qty: real)

  /** A sale order line: whether its product is a panel sign, the panel
      inputs, and the fields the compute writes. */
  datatype Line = Line(
    isPanel: bool, panel: Panel,
    priceUnit: real, costMaterials: real, costLabor: real,
    wastePct: real, signsPerSheet: int)

  /** `-(-a // b)`: the negated floor division the source uses as a
      ceiling. */
  function NegCeil(a: real, b: real): int
    requires b != 0.0
  {
    -FloorDiv(-a, b)
  }

  /** For a positive divisor the idiom is the true ceiling, so it yields
      the fewest whole units covering `q`. */
  lemma {:induction false} NegCeilIsCover(q: real, n: int)
    requires n >= 1
    ensures NegCeil(q, n as real) == PanelFit.Cover(q, n)
  {
    var f := FloorDiv(-q, n as real);
    var k := -f;
    var c := PanelFit.Cover(q, n);
    DivOrder(f as real, -q, n as real);
    DivOrder(f as real + 1.0, -q, n as real);
    assert f as real * n as real <= -q < (f as real + 1.0) * n as real;
    assert (k - 1) as real * n as real < q <= k as real * n as real;
    CoverUnique(k, c, n, q);
  }

  /** Only one whole count of `n` covers `q`. */
  lemma {:induction false} CoverUnique(a: int, b: int, n: int, q: real)
    requires n >= 1
    requires PanelFit.Covers(a, n, q) && PanelFit.Covers(b, n, q)
    ensures a == b
  {
    if a < b {
      CoverBelow(a, b, n, q);
    } else if b < a {
      CoverBelow(b, a, n, q);
    }
  }

  /** A smaller count than one that covers `q` falls short of it. */
  lemma {:induction false} CoverBelow(a: int, b: int, n: int, q: real)
    requires n >= 1 && a < b && PanelFit.Covers(b, n, q)
    ensures !PanelFit.Covers(a, n, q)
  {
    var x, y, m := a as real, (b - 1) as real, n as real;
    assert x <= y && m >= 1.0;
    MulLeft(x, y, m);
    assert x * m <= y * m < q;
  }

  /** The substrate sheet cost: ABS 3/16 for ABS at three-sixteenths,
      ABS 1/8 for ABS at any other thickness, and acrylic for any other
      material, an unset one included. */
  function SubstrateSheetCost(i: Panel, p: Params): (c: real)
    ensures i.material == "abs" && i.thickness == "three_sixteenth" ==> c == p.abs316SheetCost
    ensures i.material == "abs" && i.thickness != "three_sixteenth" ==> c == p.abs18SheetCost
    ensures i.material != "abs" ==> c == p.acrylic18SheetCost
  {
    if i.material == "abs" then
      if i.thickness == "three_sixteenth" then p.abs316SheetCost else p.abs18SheetCost
    else p.acrylic18SheetCost
  }

  /** The sheet cost of window lens: bought by the same sheet count, but
      only for a windowed sign with a positive window height. */
  function WindowTotal(i: Panel, p: Params, sheets: int): (c: real)
    ensures c != 0.0 ==> i.windowed && i.windowHeight > 0.0
    ensures i.windowed && i.windowHeight > 0.0 ==> c == sheets as real * p.windowSheetCost
  {
    if i.windowed && i.windowHeight > 0.0 then sheets as real * p.windowSheetCost else 0.0
  }

  /** Per-sign consumables (ink, paint, hot stamp) and per-mold ones
      (tape, mold lube). */
  function Consumables(i: Panel, p: Params, molds: int): (c: real)
    ensures c == i.qty * (p.inkPerSign + p.paintPerSign + p.hotstampPerSign)
               + molds as real * (p.tapePerMold + p.mclubePerMold)
  {
    p.inkPerSign * i.qty + p.paintPerSign * i.qty + p.hotstampPerSign * i.qty
      + p.tapePerMold * molds as real + p.mclubePerMold * molds as real
  }

  /** Consumables add up over orders: two lines together need the
      consumables of each, for their quantities and molds combined. */
  lemma ConsumablesAdd(i: Panel, p: Params, q1: real, q2: real, m1: int, m2: int)
    ensures Consumables(i.(qty := q1 + q2), p, m1 + m2)
         == Consumables(i.(qty := q1), p, m1) + Consumables(i.(qty := q2), p, m2)
  {
  }

  /** The press and sheet counts for a line. */
  datatype Layout = Layout(perMold: int, molds: int, perSheet: int, sheets: int)

  /** Signs per mold by the better press orientation, molds by ceiling
      division, signs per master sheet, and master sheets by ceiling
      division; for at least one mold per sheet both counts are the
      fewest that cover the order. */
  function ComputeLayout(i: Panel, p: Params): (b: Layout)
    requires i.width > 0.0 && i.height > 0.0 && i.qty > 0.0
    requires p.moldsPerSheet != 0
    ensures b.perMold == PanelFit.SignsPerMold(i.width, i.height, p.pressW, p.pressH)
    ensures b.molds == PanelFit.Cover(i.qty, b.perMold)
    ensures b.perSheet == b.perMold * p.moldsPerSheet && b.perSheet != 0
    ensures p.moldsPerSheet >= 1 ==> b.sheets == PanelFit.Cover(i.qty, b.perSheet)
  {
    var spm := PanelFit.SignsPerMold(i.width, i.height, p.pressW, p.pressH);
    var molds := NegCeil(i.qty, spm as real);
    NegCeilIsCover(i.qty, spm);
    var sps := spm * p.moldsPerSheet;
    assert sps != 0 by { ProductNonZero(spm, p.moldsPerSheet); }
    var sheets := NegCeil(i.qty, sps as real);
    assert p.moldsPerSheet >= 1 ==> sheets == PanelFit.Cover(i.qty, sps) by {
      if p.moldsPerSheet >= 1 {
        ProductAtLeastOne(spm, p.moldsPerSheet);
        NegCeilIsCover(i.qty, sps);
      }
    }
    Layout(spm, molds, sps, sheets)
  }

  /** Everything the compute derives for one line before writing. */
  datatype Quote = Quote(
    layout: Layout,
    pioniteTotal: real, substrateTotal: real, windowTotal: real,
    consumables: real, materials: real, labor: real, total: real,
    finalPrice: real, unitPrice: real, usedArea: real, totalArea: real)

  /** The costs of a layout: Pionite, substrate and window sheets at their
      sheet costs, the consumables, and worst-case labour per mold; the
      final price is the total with overhead, marked up, and the unit
      price is that divided by the quantity. */
  function PriceLayout(i: Panel, p: Params, b: Layout): (q: Quote)
    requires i.qty > 0.0
    ensures q.layout == b
    ensures q.pioniteTotal == b.sheets as real * p.pioniteSheetCost
    ensures q.substrateTotal == b.sheets as real * SubstrateSheetCost(i, p)
    ensures q.windowTotal == WindowTotal(i, p, b.sheets)
    ensures q.consumables == Consumables(i, p, b.molds)
    ensures q.materials == q.pioniteTotal + q.substrateTotal + q.windowTotal + q.consumables
    ensures q.labor == p.laborRateWorst * b.molds as real
    ensures q.total == q.materials + q.labor
    ensures q.finalPrice == (q.total + q.total * p.overheadPct) * p.markup
    ensures Spread(q.unitPrice, i.qty, q.finalPrice)
    ensures q.usedArea == i.width * i.height * i.qty
    ensures q.totalArea == b.sheets as real * (p.pioniteW * p.pioniteH)
  {
    var pionite := b.sheets as real * p.pioniteSheetCost;
    var substrate := b.sheets as real * SubstrateSheetCost(i, p);
    var window := WindowTotal(i, p, b.sheets);
    var consumables := Consumables(i, p, b.molds);
    var materials := pionite + substrate + window + consumables;
    var labor := p.laborRateWorst * b.molds as real;
    var total := materials + labor;
    var final := (total + total * p.overheadPct) * p.markup;
    Quote(b, pionite, substrate, window, consumables, materials, labor, total,
          final, Share(final, i.qty), i.width * i.height * i.qty,
          b.sheets as real * (p.pioniteW * p.pioniteH))
  }

  /** The quote for a line with positive width, height and quantity and a
      non-zero sign count per master sheet. */
  function ComputeQuote(i: Panel, p: Params): Quote
    requires i.width > 0.0 && i.height > 0.0 && i.qty > 0.0
    requires p.moldsPerSheet != 0
  {
    PriceLayout(i, p, ComputeLayout(i, p))
  }

  /** A window adds exactly its lens sheets to the materials: the same
      line without the window costs the window total less, and a window
      of no height costs nothing. */
  lemma WindowShare(i: Panel, p: Params, b: Layout)
    requires i.qty > 0.0
    ensures PriceLayout(i, p, b).materials
         == PriceLayout(i.(windowed := false), p, b).materials + WindowTotal(i, p, b.sheets)
    ensures i.windowHeight <= 0.0 ==> PriceLayout(i, p, b).materials == PriceLayout(i.(windowed := false), p, b).materials
  {
  }

  lemma ProductNonZero(a: int, b: int)
    requires a >= 1 && b != 0
    ensures a * b != 0
  {
  }

  lemma ProductAtLeastOne(a: int, b: int)
    requires a >= 1 && b >= 1
    ensures a * b >= 1
  {
  }

  /** `(1 - used / total) * 100`: the share of the bought area not used
      by signs, in percent. */
  function WastePercent(used: real, total: real): (w: real)
    requires total > 0.0
    ensures w * total == (total - used) * 100.0
  {
    (1.0 - used / total) * 100.0
  }

  /** Whether the compute writes anything for this line. */
  predicate Applies(l: Line, params: Option<Params>) {
    l.isPanel && params.Some? && l.panel.width > 0.0 && l.panel.height > 0.0 && l.panel.qty > 0.0
  }

  /** The fields the compute writes from a quote: the unit price, the
      material and labour costs, the signs per sheet, and the waste
      percentage only when the bought sheet area is positive. */
  function WriteQuote(l: Line, q: Quote): (r: Line)
    ensures r == l.(priceUnit := r.priceUnit, costMaterials := r.costMaterials,
                    costLabor := r.costLabor, wastePct := r.wastePct,
                    signsPerSheet := r.signsPerSheet)
    ensures r.signsPerSheet == q.layout.perSheet && r.priceUnit == q.unitPrice
    ensures r.costMaterials == q.materials && r.costLabor == q.labor
    ensures q.totalArea <= 0.0 ==> r.wastePct == l.wastePct
    ensures q.totalArea > 0.0 ==> r.wastePct * q.totalArea == (q.totalArea - q.usedArea) * 100.0
  {
    var waste := if q.totalArea > 0.0 then WastePercent(q.usedArea, q.totalArea) else l.wastePct;
    l.(priceUnit := q.unitPrice, costMaterials := q.materials, costLabor := q.labor,
       wastePct := waste, signsPerSheet := q.layout.perSheet)
  }

  /** Writing the same quote twice is writing it once, and the write keeps
      the panel inputs, so whether the compute applies is unchanged. */
  lemma WriteQuoteIdempotent(l: Line, q: Quote, params: Option<Params>)
    ensures WriteQuote(WriteQuote(l, q), q) == WriteQuote(l, q)
    ensures Applies(WriteQuote(l, q), params) <==> Applies(l, params)
  {
  }

  /** `_compute_panel_price`: a non-panel line, a missing parameters record
      or a non-positive width, height or quantity is left as it is; a
      parameters record with zero molds per sheet divides by zero; and
      otherwise the line gets the quote's figures, so that the unit price
      times the quantity is the marked-up line cost. */
  function ComputePanelPrice(l: Line, params: Option<Params>): (r: Result<Line>)
    ensures !Applies(l, params) ==> r == Ok(l)
    ensures r.Err? <==> Applies(l, params) && params.value.moldsPerSheet == 0
    ensures r.Ok? && Applies(l, params) ==>
      r.value == WriteQuote(l, ComputeQuote(l.panel, params.value))
  {
    if !Applies(l, params) then Ok(l)
    else if params.value.moldsPerSheet == 0 then Err(DivisionByZero)
    else
      var q := ComputeQuote(l.panel, params.value);
      Ok(WriteQuote(l, q))
  }

  /** Once the compute applies, the unit price it writes times the
      quantity is the marked-up line cost. */
  lemma {:induction false} PanelPriceTimesQty(l: Line, params: Option<Params>)
    requires Applies(l, params) && ComputePanelPrice(l, params).Ok?
    ensures Spread(ComputePanelPrice(l, params).value.priceUnit, l.panel.qty,
                          ComputeQuote(l.panel, params.value).finalPrice)
  {
    var i, p := l.panel, params.value;
    var q := PriceLayout(i, p, ComputeLayout(i, p));
    assert q == ComputeQuote(i, p);
    var u := ComputePanelPrice(l, params).value.priceUnit;
    assert u == q.unitPrice;
  }

  /** The compute only writes fields it does not read, so running it again
      on its own result changes nothing. */
  lemma PanelPriceIdempotent(l: Line, params: Option<Params>)
    requires ComputePanelPrice(l, params).Ok?
    ensures ComputePanelPrice(ComputePanelPrice(l, params).value, params) == ComputePanelPrice(l, params)
  {
  }

  /** The molds leave less than one mold of surplus signs, and never fewer
      signs than ordered. */
  lemma {:induction false} StockBelowOneMold(i: Panel, p: Params)
    requires i.width > 0.0 && i.height > 0.0 && i.qty > 0.0 && p.moldsPerSheet != 0
    ensures var b := ComputeLayout(i, p);
      && b.perMold >= 1 && b.molds >= 1
      && i.qty <= (b.molds * b.perMold) as real
      && (b.molds * b.perMold) as real - i.qty < b.perMold as real
  {
    var b := ComputeLayout(i, p);
    PanelFit.CoverSurplus(b.molds, b.perMold, i.qty);
  }

  /** With at least one mold per master sheet, the sheets bought hold
      every mold the order needs. */
  lemma {:induction false} SheetsHoldMolds(i: Panel, p: Params)
    requires i.width > 0.0 && i.height > 0.0 && i.qty > 0.0 && p.moldsPerSheet >= 1
    ensures var b := ComputeLayout(i, p);
      b.molds <= b.sheets * p.moldsPerSheet
  {
    var b := ComputeLayout(i, p);
    NestedCover(b.molds, b.sheets, b.perMold, p.moldsPerSheet, i.qty);
  }

  /** `k` molds of `n` and `s` sheets of `m` molds of `n` both covering
      `q`: the sheets hold at least `k` molds. */
  lemma {:induction false} NestedCover(k: int, s: int, n: int, m: int, q: real)
    requires n >= 1 && m >= 1
    requires PanelFit.Covers(k, n, q) && PanelFit.Covers(s, n * m, q)
    ensures k <= s * m
  {
    var below, held := (k - 1) * n, (s * m) * n;
    assert (k - 1) as real * n as real == below as real;
    assert s as real * (n * m) as real == held as real by {
      assert s * (n * m) == held;
    }
    assert below < held;
    ScaleBack(k - 1, s * m, n);
  }

  /** A strict inequality between multiples of the same positive `n`
      carries over to the factors. */
  lemma {:induction false} ScaleBack(a: int, b: int, n: int)
    requires n >= 1 && a * n < b * n
    ensures a < b
  {
    assert b * n - a * n == (b - a) * n;
  }
}
