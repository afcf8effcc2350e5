/** The Studio-field panel pricing engine on sale order lines (the
    `_compute_panel_pricing` compute at the repository root): press and
    sheet layout, material usage and waste for the Pionite face, the
    substrate and the window lens, the eight material costs, best- and
    worst-case labour and the marked-up unit price. */
module SaleOrderLines {
  import opened Wrappers
  import opened Arith
  import PanelFit

  /** Sheet sizes, in inches. */
  const PioniteWidth: real := 49.0
  const PioniteHeight: real := 97.0
  const SubstrateWidth: real := 48.0
  const SubstrateHeight: real := 96.0
  const WindowWidth: real := 24.0
  const WindowHeight: real := 48.0

  /** Sheet prices. */
  const PioniteSheetCost: real := 211.30
  const Abs18SheetCost: real := 80.0
  const Abs316SheetCost: real := 130.0
  const Acrylic18SheetCost: real := 110.0
  const WindowSheetCost: real := 75.0

  const MoldsPerSheet: int := 17

  /** Consumables per sign and per mold, labour per mold, overhead and
      markup. */
  const InkPerSign: real := 0.33
  const PaintPerSign: real := 0.60
  const HotstampPerSign: real := 0.02
  const TapePerMold: real := 0.25
  const McLubePerMold: real := 0.50
  const LaborPerMoldBest: real := 40.0
  const LaborPerMoldWorst: real := 100.0
  const OverheadRate: real := 0.15
  const Markup: real := 2.40

  /** The inputs the compute reads.  Unset Studio fields are 0 or the
      empty selection; `variant` and `thickness` hold selection keys. */
  datatype Input = Input(
    isPanel: bool, width: real, height: real, qty: real,
    windowed: bool, windowHeight: real, variant: string, thickness: string)

  // ---------------------------------------------------------------------
  // Whole units covering a quantity
  // ---------------------------------------------------------------------

  /** `int((q + n - 1.0) // n)`, the source's ceiling idiom. */
  function CeilAsWritten(q: real, n: int): int
    requires n >= 1
  {
    FloorDiv(q + n as real - 1.0, n as real)
  }

  /** For a fractional quantity the idiom can fall short: 1.5 signs at
      one sign per mold gives one mold, which makes only one sign. */
  lemma CeilAsWrittenFallsShort()
    ensures CeilAsWritten(1.5, 1) == 1
    ensures (CeilAsWritten(1.5, 1) as real) * 1.0 < 1.5
  {
    assert (1.5 + 1.0 - 1.0) / 1.0 == 1.5;
  }

  /** For whole quantities the idiom is the true ceiling, so the
      correction changes nothing there. */
  lemma {:induction false} CeilAsWrittenWhole(q: int, n: int)
    requires n >= 1
    ensures CeilAsWritten(q as real, n) == CeilDiv(q as real, n as real)
  {
    var r := CeilAsWritten(q as real, n);
    var c := CeilDiv(q as real, n as real);
    var x := q as real + n as real - 1.0;
    DivOrder(r as real, x, n as real);
    DivOrder(r as real + 1.0, x, n as real);
    assert r as real * n as real <= x < (r as real + 1.0) * n as real;
    assert (r * n) as real == r as real * n as real;
    assert ((r + 1) * n) as real == (r as real + 1.0) * n as real;
    assert r * n <= q + n - 1 < (r + 1) * n;
    assert ((c - 1) * n) as real == (c - 1) as real * n as real;
    assert (c * n) as real == c as real * n as real;
    assert (c - 1) * n < q <= c * n;
    assert (r - 1) * n < q <= r * n;
    CeilUnique(r, c, q, n);
  }

  /** Two whole numbers that both bracket `q` between consecutive
      multiples of `n` are equal. */
  lemma CeilUnique(a: int, b: int, q: int, n: int)
    requires n >= 1
    requires (a - 1) * n < q <= a * n
    requires (b - 1) * n < q <= b * n
    ensures a == b
  {
  }

  /** The idiom is never more than the true ceiling and at most one
      short of it. */
  lemma {:induction false} CeilAsWrittenNear(q: real, n: int)
    requires n >= 1
    ensures PanelFit.Cover(q, n) - 1 <= CeilAsWritten(q, n) <= PanelFit.Cover(q, n)
  {
    var r := CeilAsWritten(q, n);
    var c := PanelFit.Cover(q, n);
    var x := q + n as real - 1.0;
    DivOrder(r as real, x, n as real);
    DivOrder(r as real + 1.0, x, n as real);
    assert r as real * n as real <= x < (r as real + 1.0) * n as real;
    assert (c - 1) as real * n as real < q <= c as real * n as real;
    IdiomBracket(r, c, n, q);
  }

  /** The bracketing behind `CeilAsWrittenNear`, stated on whole products. */
  lemma {:induction false} IdiomBracket(r: int, c: int, n: int, q: real)
    requires n >= 1
    requires r as real * n as real <= q + n as real - 1.0 < (r as real + 1.0) * n as real
    requires (c - 1) as real * n as real < q <= c as real * n as real
    ensures c - 1 <= r <= c
  {
    assert (r * n) as real == r as real * n as real;
    assert ((r + 1) * n) as real == (r as real + 1.0) * n as real;
    assert ((c - 1) * n) as real == (c - 1) as real * n as real;
    assert (c * n) as real == c as real * n as real;
    if r > c {
      MulMono(c + 1, r, n);
      assert false;
    }
    if r < c - 1 {
      MulMono(r + 1, c - 1, n);
      assert false;
    }
  }

  lemma MulMono(a: int, b: int, n: int)
    requires n >= 1 && a <= b
    ensures a * n <= b * n
  {
  }

  // ---------------------------------------------------------------------
  // Geometry and layout
  // ---------------------------------------------------------------------

  /** The window height the compute uses: 0 unless the sign is windowed. */
  function EffectiveWindowHeight(i: Input): (h: real)
    ensures !i.windowed ==> h == 0.0
    ensures i.windowed ==> h == i.windowHeight
  {
    if i.windowed then i.windowHeight else 0.0
  }

  /** The sign has a window lens: it is windowed with a positive window
      height. */
  predicate HasWindow(i: Input) {
    i.windowed && i.windowHeight > 0.0
  }

  /** Window lens area per sign: full width by the window height, when
      there is a window. */
  function WindowAreaPerSign(i: Input): (a: real)
    ensures !HasWindow(i) ==> a == 0.0
    ensures HasWindow(i) ==> a == i.width * i.windowHeight
    ensures i.width > 0.0 ==> (a > 0.0 <==> HasWindow(i))
  {
    var wh := EffectiveWindowHeight(i);
    PositiveProduct(i.width, i.windowHeight);
    if i.windowed && wh > 0.0 then i.width * wh else 0.0
  }

  /** Pionite face area per sign: the sign less its window, never
      negative. */
  function PioniteAreaPerSign(i: Input): (a: real)
    ensures a >= 0.0
    ensures a >= i.width * i.height - WindowAreaPerSign(i)
    ensures a == 0.0 || a == i.width * i.height - WindowAreaPerSign(i)
  {
    Max(i.width * i.height - WindowAreaPerSign(i), 0.0)
  }

  /** The batch layout of one order line. */
  datatype Layout = Layout(
    perMold: int, molds: int, perSheet: int, sheets: int,
    windowPerSheet: int, windowSheets: int)

  /** Signs per mold in the better orientation, the molds covering the
      quantity (at least one), the Pionite and substrate sheets covering
      it at 17 molds a sheet, and the window sheets covering it at the
      best lens layout on a 24 by 48 sheet. */
  function ComputeLayout(i: Input): (l: Layout)
    requires i.width > 0.0 && i.height > 0.0 && i.qty > 0.0
    ensures l.perMold == PanelFit.SignsPerMold(i.width, i.height, PanelFit.PressWidth, PanelFit.PressHeight)
    ensures l.perMold >= 1 && l.molds >= 1
    ensures PanelFit.Covers(l.molds, l.perMold, i.qty)
    ensures l.perSheet == l.perMold * MoldsPerSheet && l.sheets >= 1
    ensures PanelFit.Covers(l.sheets, l.perSheet, i.qty)
    ensures HasWindow(i) ==>
      && l.windowPerSheet == PanelFit.SignsPerMold(i.width, i.windowHeight, WindowWidth, WindowHeight)
      && l.windowSheets >= 1
      && PanelFit.Covers(l.windowSheets, l.windowPerSheet, i.qty)
    ensures !HasWindow(i) ==> l.windowPerSheet == 0 && l.windowSheets == 0
  {
    var n := PanelFit.SignsPerMold(i.width, i.height, PanelFit.PressWidth, PanelFit.PressHeight);
    var perSheet := n * MoldsPerSheet;
    var molds := PanelFit.Cover(i.qty, n);
    var sheets := PanelFit.Cover(i.qty, perSheet);
    if WindowAreaPerSign(i) > 0.0 && EffectiveWindowHeight(i) > 0.0 then
      var w := PanelFit.SignsPerMold(i.width, i.windowHeight, WindowWidth, WindowHeight);
      Layout(n, molds, perSheet, sheets, w, PanelFit.Cover(i.qty, w))
    else
      Layout(n, molds, perSheet, sheets, 0, 0)
  }

  /** The layout as the code computes it: the molds by the ceiling idiom
      raised to at least one, and the Pionite, substrate and window sheets
      by the same idiom with no such floor. */
  function ComputeLayoutAsWritten(i: Input): (l: Layout)
    requires i.width > 0.0 && i.height > 0.0 && i.qty > 0.0
    ensures var c := ComputeLayout(i);
      && l.perMold == c.perMold && l.perSheet == c.perSheet && l.windowPerSheet == c.windowPerSheet
      && c.molds - 1 <= l.molds <= c.molds
      && c.sheets - 1 <= l.sheets <= c.sheets
      && c.windowSheets - 1 <= l.windowSheets <= c.windowSheets
  {
    var n := PanelFit.SignsPerMold(i.width, i.height, PanelFit.PressWidth, PanelFit.PressHeight);
    var perSheet := n * MoldsPerSheet;
    var molds := MaxInt(CeilAsWritten(i.qty, n), 1);
    var sheets := CeilAsWritten(i.qty, perSheet);
    CeilAsWrittenNear(i.qty, n);
    CeilAsWrittenNear(i.qty, perSheet);
    if WindowAreaPerSign(i) > 0.0 && EffectiveWindowHeight(i) > 0.0 then
      var w := PanelFit.SignsPerMold(i.width, i.windowHeight, WindowWidth, WindowHeight);
      CeilAsWrittenNear(i.qty, w);
      Layout(n, molds, perSheet, sheets, w, CeilAsWritten(i.qty, w))
    else
      Layout(n, molds, perSheet, sheets, 0, 0)
  }

  /** For a whole number of signs the code's layout is the corrected one. */
  lemma {:induction false} LayoutAsWrittenWhole(i: Input, q: int)
    requires i.width > 0.0 && i.height > 0.0 && i.qty > 0.0 && i.qty == q as real
    ensures ComputeLayoutAsWritten(i) == ComputeLayout(i)
  {
    var n := PanelFit.SignsPerMold(i.width, i.height, PanelFit.PressWidth, PanelFit.PressHeight);
    CeilAsWrittenWhole(q, n);
    CeilAsWrittenWhole(q, n * MoldsPerSheet);
    if HasWindow(i) {
      CeilAsWrittenWhole(q, PanelFit.SignsPerMold(i.width, i.windowHeight, WindowWidth, WindowHeight));
    }
  }

  /** A sign too large to share a mold, ordered 17.5 at a time: the code
      buys one sheet, which holds 17 signs, where two are needed; ordered
      half a sign at a time it buys no sheet at all. */
  lemma SheetsAsWrittenFallShort()
    ensures var i := Input(true, 20.0, 30.0, 17.5, false, 0.0, "abs", "one_eighth");
      ComputeLayoutAsWritten(i).sheets == 1 && ComputeLayout(i).sheets == 2
    ensures var i := Input(true, 20.0, 30.0, 0.5, false, 0.0, "abs", "one_eighth");
      ComputeLayoutAsWritten(i).sheets == 0 && ComputeLayout(i).sheets == 1
  {
    OneSignPerMold();
    assert (17.5 + 17.0 - 1.0) / 17.0 == 33.5 / 17.0;
    assert (0.5 + 17.0 - 1.0) / 17.0 == 16.5 / 17.0;
  }

  /** A 20 by 30 sign does not fit the 13 by 19 press either way. */
  lemma OneSignPerMold()
    ensures PanelFit.SignsPerMold(20.0, 30.0, PanelFit.PressWidth, PanelFit.PressHeight) == 1
  {
    assert FloorDiv(13.0, 20.0) == 0 && FloorDiv(19.0, 30.0) == 0;
    assert FloorDiv(13.0, 30.0) == 0 && FloorDiv(19.0, 20.0) == 0;
  }

  // ---------------------------------------------------------------------
  // Waste
  // ---------------------------------------------------------------------

  /** `max(0, min(x, 1))`. */
  function Clamp01(x: real): (r: real)
    ensures 0.0 <= r <= 1.0
    ensures 0.0 <= x <= 1.0 ==> r == x
  {
    if x < 0.0 then 0.0 else if x > 1.0 then 1.0 else x
  }

  /** The unused share of the sheet area bought, clamped to [0, 1]; 0
      when no sheet area was bought. */
  function WasteFraction(used: real, total: real): (w: real)
    ensures 0.0 <= w <= 1.0
    ensures total <= 0.0 ==> w == 0.0
    ensures total > 0.0 && 0.0 <= used <= total ==> w == 1.0 - used / total
  {
    if total > 0.0 then
      if 0.0 <= used <= total then
        UnitFraction(used, total);
        Clamp01(1.0 - used / total)
      else Clamp01(1.0 - used / total)
    else Clamp01(0.0)
  }

  /** One material's usage (square inches) and waste fraction. */
  datatype Usage = Usage(used: real, waste: real)

  // ---------------------------------------------------------------------
  // Costs
  // ---------------------------------------------------------------------

  /** The substrate sheet price: ABS 3/16" at 130, other ABS at 80, and
      anything else at the acrylic 1/8" price.  An unset variant counts
      as ABS and an unset thickness as 1/8". */
  function SubstrateSheetCost(variant: string, thickness: string): (c: real)
    ensures (variant == "abs" || variant == "") && thickness == "three_sixteenth" ==> c == Abs316SheetCost
    ensures (variant == "abs" || variant == "") && thickness != "three_sixteenth" ==> c == Abs18SheetCost
    ensures variant != "abs" && variant != "" ==> c == Acrylic18SheetCost
  {
    var v := if variant == "" then "abs" else variant;
    var t := if thickness == "" then "one_eighth" else thickness;
    if v == "abs" then
      if t == "three_sixteenth" then Abs316SheetCost else Abs18SheetCost
    else Acrylic18SheetCost
  }

  /** Every figure the compute writes. */
  datatype Pricing = Pricing(
    layout: Layout, pionite: Usage, substrate: Usage, window: Usage,
    pioniteCost: real, substrateCost: real, windowCost: real,
    materials: real, laborBest: real, laborWorst: real,
    totalBest: real, totalWorst: real,
    costPerSignBest: real, costPerSignWorst: real,
    overheadPercent: real, markup: real, sellPrice: real, marginWorst: real)

  /** The materials bill: Pionite, substrate and window sheets, and ink,
      paint and hot-stamp per sign, tape and McLube per mold. */
  function Materials(i: Input, l: Layout): (m: real)
  {
    l.sheets as real * PioniteSheetCost
      + l.sheets as real * SubstrateSheetCost(i.variant, i.thickness)
      + (if l.windowSheets > 0 then l.windowSheets as real * WindowSheetCost else 0.0)
      + InkPerSign * i.qty + PaintPerSign * i.qty + HotstampPerSign * i.qty
      + TapePerMold * l.molds as real + McLubePerMold * l.molds as real
  }

  /** The Pionite face area of the whole line. */
  function PioniteUsed(i: Input): real {
    i.qty * PioniteAreaPerSign(i)
  }

  /** The substrate area of the whole line. */
  function SubstrateUsed(i: Input): real {
    i.qty * (i.width * i.height)
  }

  /** Material usage and waste of the three sheet goods. */
  function ComputeUsage(i: Input, l: Layout): (u: (Usage, Usage, Usage))
    ensures u.0.used == PioniteUsed(i) == i.qty * PioniteAreaPerSign(i)
    ensures u.1.used == SubstrateUsed(i) == i.qty * (i.width * i.height)
    ensures u.0.waste == WasteFraction(u.0.used, l.sheets as real * (PioniteWidth * PioniteHeight))
    ensures u.1.waste == WasteFraction(u.1.used, l.sheets as real * (SubstrateWidth * SubstrateHeight))
    ensures WindowAreaPerSign(i) > 0.0 && l.windowSheets > 0 ==>
      u.2 == Usage(i.qty * WindowAreaPerSign(i),
                   WasteFraction(i.qty * WindowAreaPerSign(i), l.windowSheets as real * (WindowWidth * WindowHeight)))
    ensures !(WindowAreaPerSign(i) > 0.0 && l.windowSheets > 0) ==> u.2 == Usage(0.0, 0.0)
    ensures 0.0 <= u.0.waste <= 1.0 && 0.0 <= u.1.waste <= 1.0 && 0.0 <= u.2.waste <= 1.0
  {
    var usedP := PioniteUsed(i);
    var usedS := SubstrateUsed(i);
    var p := Usage(usedP, WasteFraction(usedP, l.sheets as real * (PioniteWidth * PioniteHeight)));
    var s := Usage(usedS, WasteFraction(usedS, l.sheets as real * (SubstrateWidth * SubstrateHeight)));
    var win := WindowAreaPerSign(i);
    var w := if win > 0.0 && l.windowSheets > 0 then
      Usage(i.qty * win, WasteFraction(i.qty * win, l.windowSheets as real * (WindowWidth * WindowHeight)))
    else Usage(0.0, 0.0);
    (p, s, w)
  }

  /** The worst-case profit margin of a sell price over the per-sign cost
      with overhead, as a percentage; 0 without a positive price. */
  function MarginPercent(sell: real, costWithOverhead: real, qty: real): (m: real)
    requires qty > 0.0
    ensures sell <= 0.0 ==> m == 0.0
    ensures sell > 0.0 ==> m * sell == (sell - Share(costWithOverhead, qty)) * 100.0
  {
    if sell > 0.0 then (sell - Share(costWithOverhead, qty)) / sell * 100.0 else 0.0
  }

  /** The cost and price figures for a layout: sheet costs, the eight
      material costs, best and worst labour, their totals and per-sign
      shares, and the sell price, which is the worst-case total with 15%
      overhead times the 2.4 markup, for the whole line. */
  function PriceLayout(i: Input, l: Layout, u: (Usage, Usage, Usage)): (p: Pricing)
    requires i.qty > 0.0
    ensures p.layout == l && (p.pionite, p.substrate, p.window) == u
    ensures p.pioniteCost == l.sheets as real * PioniteSheetCost
    ensures p.substrateCost == l.sheets as real * SubstrateSheetCost(i.variant, i.thickness)
    ensures l.windowSheets <= 0 ==> p.windowCost == 0.0
    ensures p.materials == Materials(i, l)
    ensures p.laborBest == LaborPerMoldBest * l.molds as real
    ensures p.laborWorst == LaborPerMoldWorst * l.molds as real
    ensures p.totalBest - p.laborBest == p.materials == p.totalWorst - p.laborWorst
    ensures Spread(p.costPerSignBest, i.qty, p.totalBest)
    ensures Spread(p.costPerSignWorst, i.qty, p.totalWorst)
    ensures p.overheadPercent == 15.0 && p.markup == Markup
    ensures p.sellPrice == 2.76 * p.totalWorst
    ensures p.marginWorst == MarginPercent(p.sellPrice, 1.15 * p.totalWorst, i.qty)
  {
    var materials := Materials(i, l);
    var best := LaborPerMoldBest * l.molds as real;
    var worst := LaborPerMoldWorst * l.molds as real;
    var totalBest := materials + best;
    var totalWorst := materials + worst;
    var withOverhead := totalWorst + totalWorst * OverheadRate;
    var sell := withOverhead * Markup;
    Pricing(l, u.0, u.1, u.2,
            l.sheets as real * PioniteSheetCost,
            l.sheets as real * SubstrateSheetCost(i.variant, i.thickness),
            if l.windowSheets > 0 then l.windowSheets as real * WindowSheetCost else 0.0,
            materials, best, worst, totalBest, totalWorst,
            Share(totalBest, i.qty), Share(totalWorst, i.qty),
            OverheadRate * 100.0, Markup, sell, MarginPercent(sell, withOverhead, i.qty))
  }

  /** A panel product with a positive width, height and quantity. */
  predicate Priced(i: Input) {
    i.isPanel && i.width > 0.0 && i.height > 0.0 && i.qty > 0.0
  }

  /** `_compute_panel_pricing`: nothing is written for a non-panel
      product or when width, height or quantity is not positive;
      otherwise the layout, usage and prices above. */
  function ComputePricing(i: Input): (r: Option<Pricing>)
    ensures r.Some? <==> Priced(i)
    ensures r.Some? ==>
      && i.qty > 0.0
      && r.value.layout == ComputeLayout(i)
      && (r.value.pionite, r.value.substrate, r.value.window) == ComputeUsage(i, r.value.layout)
      && r.value == PriceLayout(i, r.value.layout, ComputeUsage(i, r.value.layout))
  {
    if !i.isPanel || i.width <= 0.0 || i.height <= 0.0 || i.qty <= 0.0 then None
    else
      var l := ComputeLayout(i);
      Some(PriceLayout(i, l, ComputeUsage(i, l)))
  }

  /** The compute as the code runs it: the same figures, priced on the
      code's own layout. */
  function ComputePricingAsWritten(i: Input): (r: Option<Pricing>)
    ensures r.Some? <==> Priced(i)
    ensures r.Some? ==>
      && i.qty > 0.0
      && r.value.layout == ComputeLayoutAsWritten(i)
      && r.value == PriceLayout(i, r.value.layout, ComputeUsage(i, r.value.layout))
  {
    if !i.isPanel || i.width <= 0.0 || i.height <= 0.0 || i.qty <= 0.0 then None
    else
      var l := ComputeLayoutAsWritten(i);
      Some(PriceLayout(i, l, ComputeUsage(i, l)))
  }

  /** On a whole number of signs the code prices exactly as corrected. */
  lemma {:induction false} PricingAsWrittenWhole(i: Input, q: int)
    requires i.qty == q as real
    ensures ComputePricingAsWritten(i) == ComputePricing(i)
  {
    if Priced(i) {
      LayoutAsWrittenWhole(i, q);
    }
  }

  /** The stored waste percentages all lie in [0, 100]. */
  lemma WastePercentBounds(i: Input)
    requires Priced(i)
    ensures var p := ComputePricing(i).value;
      && 0.0 <= p.pionite.waste * 100.0 <= 100.0
      && 0.0 <= p.substrate.waste * 100.0 <= 100.0
      && 0.0 <= p.window.waste * 100.0 <= 100.0
  {
  }

  /** Pionite and substrate are bought by the same sheet count, and the
      Pionite face never needs more area than the substrate. */
  lemma {:induction false} PioniteWithinSubstrate(i: Input, l: Layout)
    requires i.width > 0.0 && i.height > 0.0 && i.qty > 0.0
    ensures ComputeUsage(i, l).0.used <= ComputeUsage(i, l).1.used
  {
    PioniteUsedWithin(i);
  }

  lemma {:induction false} PioniteUsedWithin(i: Input)
    requires i.width > 0.0 && i.height > 0.0 && i.qty > 0.0
    ensures PioniteUsed(i) <= SubstrateUsed(i)
  {
    PioniteAreaWithin(i);
    ScaleLeft(i.qty, PioniteAreaPerSign(i), i.width * i.height);
  }

  /** The Pionite face of one sign is no larger than the sign. */
  lemma {:induction false} PioniteAreaWithin(i: Input)
    requires i.width > 0.0 && i.height > 0.0
    ensures PioniteAreaPerSign(i) <= i.width * i.height
  {
    PositiveProduct(i.width, i.height);
    assert WindowAreaPerSign(i) >= 0.0;
  }

  lemma {:induction false} ScaleLeft(q: real, a: real, s: real)
    requires q > 0.0 && a <= s
    ensures q * a <= q * s
  {
    MulLeft(a, s, q);
    assert q * a == a * q && q * s == s * q;
  }

  /** The best case never costs more than the worst case. */
  lemma BestWithinWorst(i: Input)
    requires Priced(i)
    ensures ComputePricing(i).value.totalBest <= ComputePricing(i).value.totalWorst
  {
  }

  /** The written unit price is the marked-up cost of the whole line,
      not of one sign: it does not shrink as the quantity is spread. */
  lemma {:induction false} PriceIsForWholeLine(i: Input)
    requires Priced(i)
    ensures ComputePricing(i).value.sellPrice
         == Markup * (1.0 + OverheadRate) * ComputePricing(i).value.totalWorst
  {
  }
}
