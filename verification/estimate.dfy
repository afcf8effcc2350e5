/** The estimate header (`ps.estimate`): shop labour from the lines' molds,
    travel, installation and equipment charges, and the customer-facing
    totals with the rough profit figure. */
module Estimates {
  import opened Arith
  import opened Sums
  import EstimateLines

  datatype Estimate = Estimate(
    lines: seq<EstimateLines.Line>,
    moldMinutes: real, shopRate: real,
    travelMiles: real, travelRate: real, travelTrips: int,
    installHours: real, installRate: real,
    needsEquipment: bool, equipmentDays: real, equipmentDailyRate: real,
    equipmentDelivery: real,
    totalMolds: int, shopLaborTotal: real, travelTotal: real,
    installTotal: real, equipmentTotal: real,
    signageTotal: real, subtotal: real, total: real,
    profitAmount: real, profitMarginPct: real)

  /** The share of the signage price the source books as profit. */
  const ProfitShare: real := 0.40

  function LineMolds(l: EstimateLines.Line): int {
    l.molds
  }

  function LineTotal(l: EstimateLines.Line): real {
    l.lineTotal
  }

  /** `_compute_shop_labor`: the molds of all lines, and their shop time
      charged at the shop rate. */
  function ComputeShopLabor(e: Estimate): (r: Estimate)
    ensures r == e.(totalMolds := r.totalMolds, shopLaborTotal := r.shopLaborTotal)
    ensures r.totalMolds == SumInt(e.lines, LineMolds)
    ensures r.shopLaborTotal == r.totalMolds as real * (e.moldMinutes / 60.0 * e.shopRate)
  {
    var molds := SumInt(e.lines, LineMolds);
    var hours := molds as real * e.moldMinutes / 60.0;
    e.(totalMolds := molds, shopLaborTotal := hours * e.shopRate)
  }

  /** Adding a line adds its molds to the estimate's mold count. */
  lemma ShopMoldsAppend(e: Estimate, l: EstimateLines.Line)
    ensures ComputeShopLabor(e.(lines := e.lines + [l])).totalMolds
         == ComputeShopLabor(e).totalMolds + l.molds
  {
    SumIntAppend(e.lines, [l], LineMolds);
    assert SumInt([l], LineMolds) == l.molds;
  }

  /** `_compute_travel`: a round trip per visit. */
  function ComputeTravel(e: Estimate): (r: Estimate)
    ensures r == e.(travelTotal := r.travelTotal)
    ensures r.travelTotal == TravelCost(e.travelMiles, e.travelRate, e.travelTrips)
  {
    e.(travelTotal := TravelCost(e.travelMiles, e.travelRate, e.travelTrips))
  }

  /** `miles * rate * 2 * trips`. */
  function TravelCost(miles: real, rate: real, trips: int): (c: real)
    ensures trips == 0 ==> c == 0.0
    ensures trips == 1 ==> c == 2.0 * (miles * rate)
  {
    miles * rate * 2.0 * trips as real
  }

  /** Travel is charged per trip: the cost of `a + b` trips is the cost
      of `a` trips plus the cost of `b`. */
  lemma {:induction false} TravelPerTrip(miles: real, rate: real, a: int, b: int)
    ensures TravelCost(miles, rate, a + b) == TravelCost(miles, rate, a) + TravelCost(miles, rate, b)
  {
    var k := miles * rate * 2.0;
    assert (a + b) as real == a as real + b as real;
    assert k * (a as real + b as real) == k * a as real + k * b as real;
  }

  /** `_compute_install`: crew hours at the combined crew rate. */
  function ComputeInstall(e: Estimate): (r: Estimate)
    ensures r == e.(installTotal := r.installTotal)
    ensures e.installHours == 0.0 || e.installRate == 0.0 ==> r.installTotal == 0.0
    ensures r.installTotal == e.installHours * e.installRate
  {
    e.(installTotal := e.installHours * e.installRate)
  }

  /** `_compute_equipment`: rental days at the daily rate plus delivery,
      or nothing when no equipment is needed. */
  function ComputeEquipment(e: Estimate): (r: Estimate)
    ensures r == e.(equipmentTotal := r.equipmentTotal)
    ensures !e.needsEquipment ==> r.equipmentTotal == 0.0
    ensures e.needsEquipment ==> r.equipmentTotal - e.equipmentDelivery == e.equipmentDays * e.equipmentDailyRate
  {
    if e.needsEquipment then
      e.(equipmentTotal := e.equipmentDays * e.equipmentDailyRate + e.equipmentDelivery)
    else e.(equipmentTotal := 0.0)
  }

  /** `_compute_totals`: the signage total is the lines' totals; the
      subtotal adds installation, travel and equipment (not shop labour);
      the total equals the subtotal; the profit is 40% of signage, and
      the margin is its percentage of the total (0 for a zero total). */
  function ComputeTotals(e: Estimate): (r: Estimate)
    ensures r == e.(signageTotal := r.signageTotal, subtotal := r.subtotal, total := r.total,
                    profitAmount := r.profitAmount, profitMarginPct := r.profitMarginPct)
    ensures r.signageTotal == Sum(e.lines, LineTotal)
    ensures r.subtotal - r.signageTotal == e.installTotal + e.travelTotal + e.equipmentTotal
    ensures r.total == r.subtotal
    ensures r.profitAmount == ProfitShare * r.signageTotal
    ensures r.total == 0.0 ==> r.profitMarginPct == 0.0
    ensures r.total != 0.0 ==> r.profitMarginPct * r.total == r.profitAmount * 100.0
  {
    var signage := Sum(e.lines, LineTotal);
    var subtotal := signage + e.installTotal + e.travelTotal + e.equipmentTotal;
    var profit := signage * ProfitShare;
    e.(signageTotal := signage, subtotal := subtotal, total := subtotal,
       profitAmount := profit, profitMarginPct := Percent(profit, subtotal))
  }

  /** Every stored compute of the estimate, in dependency order. */
  function Recompute(e: Estimate): (r: Estimate)
    ensures r.lines == e.lines
  {
    ComputeTotals(ComputeEquipment(ComputeInstall(ComputeTravel(ComputeShopLabor(e)))))
  }

  /** Shop labour is tracked but never billed: changing the mold time or
      the shop rate leaves the estimate total unchanged. */
  lemma TotalIgnoresShopLabor(e: Estimate, minutes: real, rate: real)
    ensures Recompute(e.(moldMinutes := minutes, shopRate := rate)).total == Recompute(e).total
  {
  }

  /** An estimate of signs only (no installation, travel or equipment)
      with a non-zero signage total has a 40% margin. */
  lemma {:induction false} SignageOnlyMargin(e: Estimate)
    requires e.installHours * e.installRate == 0.0
    requires TravelCost(e.travelMiles, e.travelRate, e.travelTrips) == 0.0
    requires !e.needsEquipment
    requires Sum(e.lines, LineTotal) != 0.0
    ensures Recompute(e).profitMarginPct == 40.0
  {
    var r := Recompute(e);
    assert r.total == r.signageTotal;
    assert r.profitMarginPct * r.total == ProfitShare * r.total * 100.0;
    assert (r.profitMarginPct - 40.0) * r.total == 0.0;
  }

  /** Adding a line adds exactly its line total to the estimate total. */
  lemma TotalAppendLine(e: Estimate, l: EstimateLines.Line)
    ensures Recompute(e.(lines := e.lines + [l])).total == Recompute(e).total + l.lineTotal
  {
    SumAppend(e.lines, [l], LineTotal);
    assert Sum([l], LineTotal) == l.lineTotal;
  }
}
