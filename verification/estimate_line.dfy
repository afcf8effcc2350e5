/** The panel-sign cost engine of an estimate line
    (`ps.estimate.line`, the second class of that name in the estimating
    add-on): batch layout on the press, sheet usage and waste, unit costs
    from the product catalog, the size-based sell price rounded to $5,
    extended amounts and margin. */
module EstimateLines {
  import opened Wrappers
  import opened Arith
  import opened Numerals
  import PanelFit

  /** A Pionite sheet is 49 by 97 inches and carries 17 molds. */
  const SheetWidth: real := 49.0
  const SheetHeight: real := 97.0
  const MoldsPerSheet: int := 17

  /** The stored fields of one estimate line that the engine reads or
      writes.  Counts that Odoo stores as floats but that only ever hold
      whole numbers are integers here. */
  datatype Line = Line(
    width: real, height: real, quantity: int, dynamic: bool,
    signsPerMold: int, molds: int, produced: int, stock: int,
    sheets: real, wastePercent: real,
    materialUnitCost: real, laborUnitCost: real,
    overheadUnitCost: real, totalUnitCost: real,
    installHours: real, installRate: real,
    unitPrice: real,
    materialExtended: real, laborExtended: real,
    installExtended: real, lineTotal: real,
    margin: real, breakeven: real)

  /** `_compute_batch_size`.  Without both dimensions only the per-mold
      count is reset to 1; otherwise the batch fields hold the best
      orientation's count, the fewest molds covering the quantity, the
      signs they produce and the surplus. */
  function ComputeBatchSize(l: Line): (r: Line)
    ensures l.width == 0.0 || l.height == 0.0 ==> r == l.(signsPerMold := 1)
    ensures l.width != 0.0 && l.height != 0.0 ==>
      && r == l.(signsPerMold := r.signsPerMold, molds := r.molds,
                 produced := r.produced, stock := r.stock)
      && r.signsPerMold == PanelFit.SignsPerMold(l.width, l.height, PanelFit.PressWidth, PanelFit.PressHeight)
      && r.produced == r.molds * r.signsPerMold >= l.quantity
      && (r.molds - 1) * r.signsPerMold < l.quantity
      && r.stock == r.produced - l.quantity
      && 0 <= r.stock < r.signsPerMold
  {
    if l.width == 0.0 || l.height == 0.0 then l.(signsPerMold := 1)
    else
      var n := PanelFit.SignsPerMold(l.width, l.height, PanelFit.PressWidth, PanelFit.PressHeight);
      var b := PanelFit.PlanBatch(l.quantity, n);
      l.(signsPerMold := n, molds := b.molds, produced := b.produced, stock := b.stock)
  }

  /** The sheet area, in square inches, that `molds` molds consume. */
  function SheetAreaFor(molds: int): real {
    molds as real / MoldsPerSheet as real * (SheetWidth * SheetHeight)
  }

  /** `_compute_material_usage`.  No molds means no sheets and no waste;
      otherwise the sheets are the molds' fraction of a sheet, and with
      both dimensions set and a positive sheet area the waste is the share
      of that area the ordered signs do not cover. */
  function ComputeMaterialUsage(l: Line): (r: Line)
    ensures r == l.(sheets := r.sheets, wastePercent := r.wastePercent)
    ensures l.molds == 0 ==> r.sheets == 0.0 && r.wastePercent == 0.0
    ensures l.molds != 0 ==> r.sheets * MoldsPerSheet as real == l.molds as real
    ensures l.molds <= 0 || l.width == 0.0 || l.height == 0.0 ==> r.wastePercent == 0.0
    ensures l.molds > 0 && l.width != 0.0 && l.height != 0.0 ==>
      var signArea := l.quantity as real * (l.width * l.height);
      && (r.wastePercent >= 0.0 <==> signArea <= SheetAreaFor(l.molds))
      && (r.wastePercent <= 100.0 <==> signArea >= 0.0)
      && r.wastePercent * SheetAreaFor(l.molds) == (SheetAreaFor(l.molds) - signArea) * 100.0
  {
    if l.molds == 0 then l.(sheets := 0.0, wastePercent := 0.0)
    else
      var sheets := l.molds as real / MoldsPerSheet as real;
      var waste :=
        if l.width != 0.0 && l.height != 0.0 && sheets != 0.0 then
          var total := sheets * (SheetWidth * SheetHeight);
          var used := l.quantity as real * (l.width * l.height);
          if total > 0.0 then WasteShare(total, used) else 0.0
        else 0.0;
      l.(sheets := sheets, wastePercent := waste)
  }

  /** `(total - used) / total * 100` for a positive total. */
  function WasteShare(total: real, used: real): (w: real)
    requires total > 0.0
    ensures w * total == (total - used) * 100.0
    ensures w >= 0.0 <==> used <= total
    ensures w <= 100.0 <==> used >= 0.0
  {
    var q := (total - used) / total;
    var w := q * 100.0;
    assert q * total == total - used;
    DivOrder(0.0, total - used, total);
    DivOrder(1.0, total - used, total);
    assert w <= 100.0 <==> q <= 1.0;
    assert q <= 1.0 <==> total - used <= total by {
      assert q == 1.0 <==> total - used == total;
    }
    w
  }

  /** Catalog prices of the materials; a missing product falls back to
      the built-in default. */
  datatype Catalog = Catalog(
    pionite: Option<real>, abs: Option<real>, ink: Option<real>,
    paint: Option<real>, tape: Option<real>, mcLube: Option<real>)

  /** Batch material cost: both sheet layers for the sheets used, ink
      and paint for every sign produced, tape and mold lube per mold. */
  function TotalMaterial(l: Line, c: Catalog): real {
    var signs := OrInt(OrInt(l.produced, l.quantity), 1);
    l.sheets * c.pionite.GetOr(211.30) + l.sheets * c.abs.GetOr(80.0)
    + signs as real * c.ink.GetOr(0.33) + signs as real * c.paint.GetOr(0.60)
    + l.molds as real * c.tape.GetOr(0.25) + l.molds as real * c.mcLube.GetOr(0.50)
  }

  /** Batch labour cost: mold time (default 50 minutes) at the shop rate
      (default $85/h) for every mold. */
  function TotalLabor(l: Line, moldMinutes: real, shopRate: real): real {
    l.molds as real * (Or(moldMinutes, 50.0) / 60.0 * Or(shopRate, 85.0))
  }

  /** The units that absorb the batch cost: the signs produced, else the
      quantity, else one. */
  function Divisor(l: Line): (d: int)
    ensures d != 0
  {
    if l.produced != 0 then l.produced else OrInt(l.quantity, 1)
  }

  /** `_compute_costs`.  A line without dynamic costing is untouched.
      Otherwise, for a non-zero quantity, unit material and labour costs
      spread the batch costs over `Divisor(l)` units; overhead is the
      company percentage of their sum and the total is the three
      together. */
  function ComputeCosts(l: Line, c: Catalog, moldMinutes: real, shopRate: real, overheadPct: real): (r: Line)
    ensures !l.dynamic ==> r == l
    ensures l.dynamic ==>
      && r == l.(materialUnitCost := r.materialUnitCost, laborUnitCost := r.laborUnitCost,
                 overheadUnitCost := r.overheadUnitCost, totalUnitCost := r.totalUnitCost)
      && (l.quantity != 0 ==>
            && r.materialUnitCost * Divisor(l) as real == TotalMaterial(l, c)
            && r.laborUnitCost * Divisor(l) as real == TotalLabor(l, moldMinutes, shopRate))
      && (l.quantity == 0 ==>
            r.materialUnitCost == l.materialUnitCost && r.laborUnitCost == l.laborUnitCost)
      && r.overheadUnitCost * 100.0 == (r.materialUnitCost + r.laborUnitCost) * overheadPct
      && r.totalUnitCost == r.materialUnitCost + r.laborUnitCost + r.overheadUnitCost
  {
    if !l.dynamic then l
    else
      var d := Divisor(l) as real;
      var mat := if l.quantity != 0 then TotalMaterial(l, c) / d else l.materialUnitCost;
      var lab := if l.quantity != 0 then TotalLabor(l, moldMinutes, shopRate) / d else l.laborUnitCost;
      var over := (mat + lab) * (overheadPct / 100.0);
      l.(materialUnitCost := mat, laborUnitCost := lab,
         overheadUnitCost := over, totalUnitCost := mat + lab + over)
  }

  /** `_get_size_price`: the reference price by area, $55 at 6 by 6
      inches, linear below that, growing at 22% of the relative excess
      above, and never under $35. */
  function SizePrice(sqin: real): (p: real)
    ensures p >= 35.0
    ensures sqin == 36.0 ==> p == 55.0
  {
    var raw :=
      if sqin <= 36.0 then 55.0 * (sqin / 36.0)
      else 55.0 * (1.0 + (sqin / 36.0 - 1.0) * 0.22);
    Max(raw, 35.0)
  }

  /** The size price never falls as the sign grows, as its documentation
      promises. */
  lemma SizePriceMonotone(a: real, b: real)
    requires a <= b
    ensures SizePrice(a) <= SizePrice(b)
  {
  }

  /** The two calibration points of the size price: $55 at 6 by 6 and
      $65 at 8 by 8 once rounded to $5. */
  lemma SizePriceReference()
    ensures SizePrice(36.0) == 55.0
    ensures RoundTo5(SizePrice(64.0)) == 65.0
  {
    var raw := 55.0 * (1.0 + (64.0 / 36.0 - 1.0) * 0.22);
    assert 64.0 < raw < 65.0;
    assert SizePrice(64.0) == raw;
    var q := raw / 5.0;
    assert 12.8 < q < 13.0;
    assert q.Floor == 12;
  }

  /** The square inches the sell price is based on; a missing dimension
      counts as 6 inches. */
  function PricedArea(l: Line): real {
    Or(l.width, 6.0) * Or(l.height, 6.0)
  }

  /** `_compute_sell_price`.  Only a dynamically costed line with a
      non-zero total unit cost gets a price: the larger of 115% of cost
      and the size price, rounded to $5.  Every other line is priced 0. */
  function ComputeSellPrice(l: Line): (r: Line)
    ensures r == l.(unitPrice := r.unitPrice)
    ensures !(l.dynamic && l.totalUnitCost != 0.0) ==> r.unitPrice == 0.0
    ensures l.dynamic && l.totalUnitCost != 0.0 ==>
      var target := Max(l.totalUnitCost * 1.15, SizePrice(PricedArea(l)));
      && MultipleOf5(r.unitPrice)
      && -2.5 <= r.unitPrice - target <= 2.5
      && r.unitPrice >= 35.0
      && r.unitPrice >= l.totalUnitCost * 1.15 - 2.5
  {
    if l.dynamic && l.totalUnitCost != 0.0 then
      var raw := Max(l.totalUnitCost * 1.15, SizePrice(PricedArea(l)));
      var price := RoundTo5(raw);
      MultipleOf5Above(price);
      l.(unitPrice := price)
    else l.(unitPrice := 0.0)
  }

  /** `_compute_extended`: quantities times unit amounts, and the install
      amount only when install hours are set. */
  function ComputeExtended(l: Line): (r: Line)
    ensures r == l.(materialExtended := r.materialExtended, laborExtended := r.laborExtended,
                    installExtended := r.installExtended, lineTotal := r.lineTotal)
    ensures r.lineTotal == l.quantity as real * l.unitPrice
    ensures r.materialExtended == l.quantity as real * l.materialUnitCost
    ensures r.laborExtended == l.quantity as real * l.laborUnitCost
    ensures l.installHours == 0.0 ==> r.installExtended == 0.0
    ensures l.installHours != 0.0 ==> r.installExtended == l.installHours * l.installRate
  {
    l.(materialExtended := l.quantity as real * l.materialUnitCost,
       laborExtended := l.quantity as real * l.laborUnitCost,
       installExtended := if l.installHours != 0.0 then l.installHours * l.installRate else 0.0,
       lineTotal := l.quantity as real * l.unitPrice)
  }

  /** The line's price less its material and labour is the quantity times
      the per-unit difference. */
  lemma ExtendedGrossProfit(l: Line)
    ensures var r := ComputeExtended(l);
      r.lineTotal - r.materialExtended - r.laborExtended
      == l.quantity as real * (l.unitPrice - l.materialUnitCost - l.laborUnitCost)
  {
  }

  /** `_compute_margin`: the break-even price is the total unit cost, and
      the margin is the percentage of the price left after cost (0 for an
      unpriced line). */
  function ComputeMargin(l: Line): (r: Line)
    ensures r == l.(breakeven := r.breakeven, margin := r.margin)
    ensures r.breakeven == l.totalUnitCost
    ensures l.unitPrice == 0.0 ==> r.margin == 0.0
    ensures l.unitPrice != 0.0 ==> r.margin * l.unitPrice == (l.unitPrice - l.totalUnitCost) * 100.0
  {
    l.(breakeven := l.totalUnitCost, margin := Percent(l.unitPrice - l.totalUnitCost, l.unitPrice))
  }

  /** For a positive price the margin is non-negative exactly when the
      price covers the break-even price, and below 100% exactly when the
      cost is positive. */
  lemma MarginBreakEven(l: Line)
    requires l.unitPrice > 0.0
    ensures var r := ComputeMargin(l);
      && (r.margin >= 0.0 <==> l.unitPrice >= r.breakeven)
      && (r.margin < 100.0 <==> r.breakeven > 0.0)
  {
    var r := ComputeMargin(l);
    assert r.margin == (l.unitPrice - l.totalUnitCost) / l.unitPrice * 100.0;
    DivOrder(0.0, l.unitPrice - l.totalUnitCost, l.unitPrice);
    DivOrder(1.0, l.unitPrice - l.totalUnitCost, l.unitPrice);
  }

  /** The whole engine in dependency order: batch, sheets, costs, price,
      extended amounts, margin. */
  function Recompute(l: Line, c: Catalog, moldMinutes: real, shopRate: real, overheadPct: real): Line {
    ComputeMargin(ComputeExtended(ComputeSellPrice(
      ComputeCosts(ComputeMaterialUsage(ComputeBatchSize(l)), c, moldMinutes, shopRate, overheadPct))))
  }

  /** A fully recomputed, dynamically costed line with both dimensions
      keeps the batch bounds, and once it has a cost its price is a
      multiple of $5 of at least $35; without a cost it is unpriced. */
  lemma RecomputedLine(l: Line, c: Catalog, moldMinutes: real, shopRate: real, overheadPct: real)
    requires l.width != 0.0 && l.height != 0.0 && l.dynamic
    ensures var r := Recompute(l, c, moldMinutes, shopRate, overheadPct);
      && r.signsPerMold >= 1
      && 0 <= r.stock < r.signsPerMold
      && r.produced >= l.quantity
      && (r.totalUnitCost != 0.0 ==> MultipleOf5(r.unitPrice) && r.unitPrice >= 35.0)
      && (r.totalUnitCost == 0.0 ==> r.unitPrice == 0.0 && r.margin == 0.0)
  {
    var b := ComputeBatchSize(l);
    var m := ComputeMaterialUsage(b);
    var k := ComputeCosts(m, c, moldMinutes, shopRate, overheadPct);
    var p := ComputeSellPrice(k);
    var e := ComputeExtended(p);
    var r := ComputeMargin(e);
    assert r == Recompute(l, c, moldMinutes, shopRate, overheadPct);
    assert 0 <= b.stock < b.signsPerMold && b.produced >= l.quantity;
    assert m.signsPerMold == b.signsPerMold && m.stock == b.stock && m.produced == b.produced;
    assert k.signsPerMold == m.signsPerMold && k.stock == m.stock && k.produced == m.produced;
    assert p.totalUnitCost == k.totalUnitCost && p.dynamic;
    assert e.unitPrice == p.unitPrice && e.totalUnitCost == p.totalUnitCost;
    assert r.unitPrice == e.unitPrice;
  }
}
