/** The signage add-on's opportunity economics: sign counts, the labour
    actually logged on the project the opportunity became, and the bid,
    cost and profit built from them. */
module LeadProfit {
  import opened Wrappers
  import opened Sums
  import Arith
  import Hours

  /** The shop labour billing rate, dollars per hour. */
  const ShopBillingRate: real := 75.0

  /** The installer billing rate used when none is set. */
  const DefaultInstallRate: real := 40.0

  /** What the economics read from one sign type of the opportunity. */
  datatype SignLine = SignLine(quantity: int, extendedPrice: real, extendedCost: real)

  /** A timesheet line: its project, hours and the employee's hourly cost
      (employee 0 when none is set). */
  datatype SheetLine = SheetLine(project: int, hours: real, employee: int, hourlyCost: real)

  datatype Lead = Lead(
    id: int, signs: seq<SignLine>, shopHours: real, installHours: real,
    installerRate: real, travelCost: real, equipmentCost: real)

  datatype Profitability = Profitability(
    shopBilled: real, installBilled: real, bid: real,
    materialCost: real, laborCost: real, cost: real, profit: real, marginPercent: real)

  function Quantity(s: SignLine): int { s.quantity }
  function Price(s: SignLine): real { s.extendedPrice }
  function Cost(s: SignLine): real { s.extendedCost }
  function SheetHours(t: SheetLine): real { t.hours }

  /** `_compute_sign_counts`: how many sign types, and how many signs. */
  function SignCounts(l: Lead): (r: (nat, int))
    ensures r.0 == |l.signs|
    ensures r.1 == SumInt(l.signs, Quantity)
  {
    (|l.signs|, SumInt(l.signs, Quantity))
  }

  /** Adding a sign type adds one to the count and its quantity to the
      total. */
  lemma {:induction false} SignCountsAppend(l: Lead, s: SignLine)
    ensures SignCounts(l.(signs := l.signs + [s])) == (SignCounts(l).0 + 1, SignCounts(l).1 + s.quantity)
  {
    SumIntAppend(l.signs, [s], Quantity);
    assert SumInt([s], Quantity) == s.quantity;
  }

  /** The cost a timesheet line contributes: its hours at the employee's
      hourly cost, or nothing without an employee or a cost. */
  function LineCost(t: SheetLine): (c: real)
    ensures t.employee == 0 || t.hourlyCost == 0.0 ==> c == 0.0
    ensures t.employee != 0 && t.hourlyCost != 0.0 ==> c == t.hours * t.hourlyCost
  {
    if t.employee != 0 && t.hourlyCost != 0.0 then t.hours * t.hourlyCost else 0.0
  }

  predicate OnProject(t: SheetLine, project: int) { t.project == project }

  /** `_compute_timesheet_totals`: hours and cost of the timesheet lines
      on the opportunity's project; both 0 when projects carry no
      opportunity link or the opportunity has no project. */
  function TimesheetTotals(lead: int, hasLink: bool, prs: seq<Hours.Project>, ts: seq<SheetLine>): (r: (real, real))
    ensures !hasLink || Hours.LinkedProject(prs, lead).None? ==> r == (0.0, 0.0)
    ensures hasLink && Hours.LinkedProject(prs, lead).Some? ==>
      var project := prs[Hours.LinkedProject(prs, lead).value].id;
      r == (Sum(Filter(ts, (t: SheetLine) => OnProject(t, project)), SheetHours),
            Sum(Filter(ts, (t: SheetLine) => OnProject(t, project)), LineCost))
  {
    if !hasLink then (0.0, 0.0)
    else match Hours.LinkedProject(prs, lead)
      case None => (0.0, 0.0)
      case Some(k) =>
        var mine := Filter(ts, (t: SheetLine) => OnProject(t, prs[k].id));
        (Sum(mine, SheetHours), Sum(mine, LineCost))
  }

  /** Timesheet cost is never negative while hours and hourly costs are
      not, and lines without an employee or a cost add nothing to it. */
  lemma {:induction false} TimesheetCostNonNegative(lead: int, hasLink: bool, prs: seq<Hours.Project>, ts: seq<SheetLine>)
    requires forall j :: 0 <= j < |ts| ==> ts[j].hours >= 0.0 && ts[j].hourlyCost >= 0.0
    ensures TimesheetTotals(lead, hasLink, prs, ts).1 >= 0.0
    ensures TimesheetTotals(lead, hasLink, prs, ts).0 >= 0.0
  {
    if hasLink && Hours.LinkedProject(prs, lead).Some? {
      var project := prs[Hours.LinkedProject(prs, lead).value].id;
      var mine := Filter(ts, (t: SheetLine) => OnProject(t, project));
      forall j | 0 <= j < |mine| ensures LineCost(mine[j]) >= 0.0 && mine[j].hours >= 0.0 {
        assert mine[j] in ts;
      }
      SumNonNegative(mine, LineCost);
      SumNonNegative(mine, SheetHours);
    }
  }

  /** A line without an employee adds its hours but none of its cost. */
  lemma {:induction false} UnstaffedLineCostsNothing(lead: int, prs: seq<Hours.Project>, ts: seq<SheetLine>, t: SheetLine)
    requires t.employee == 0
    requires Hours.LinkedProject(prs, lead).Some?
    requires t.project == prs[Hours.LinkedProject(prs, lead).value].id
    ensures TimesheetTotals(lead, true, prs, ts + [t]).1 == TimesheetTotals(lead, true, prs, ts).1
    ensures TimesheetTotals(lead, true, prs, ts + [t]).0 == TimesheetTotals(lead, true, prs, ts).0 + t.hours
  {
    var project := prs[Hours.LinkedProject(prs, lead).value].id;
    var f := (x: SheetLine) => OnProject(x, project);
    FilterAppend(ts, [t], f);
    assert Filter([t], f) == [t];
    SumAppend(Filter(ts, f), [t], LineCost);
    SumAppend(Filter(ts, f), [t], SheetHours);
    assert Sum([t], LineCost) == 0.0;
    assert Sum([t], SheetHours) == t.hours;
  }

  /** `_compute_project_profitability`: the bid bills the signs, shop
      hours at the shop rate and install hours at the installer's rate
      (the default when unset), plus travel and equipment; the cost is the
      signs' cost, the logged labour cost, travel and equipment. */
  function Profit(l: Lead, timesheetCost: real): (r: Profitability)
    ensures r.shopBilled == l.shopHours * ShopBillingRate
    ensures r.installBilled == l.installHours * Arith.Or(l.installerRate, DefaultInstallRate)
    ensures r.bid == Sum(l.signs, Price) + r.shopBilled + r.installBilled + l.travelCost + l.equipmentCost
    ensures r.materialCost == Sum(l.signs, Cost) && r.laborCost == timesheetCost
    ensures r.cost == Sum(l.signs, Cost) + timesheetCost + l.travelCost + l.equipmentCost
    ensures r.profit == r.bid - r.cost
    ensures r.marginPercent == Arith.Percent(r.profit, r.bid)
  {
    var signsPrice := Sum(l.signs, Price);
    var signsCost := Sum(l.signs, Cost);
    var shop := l.shopHours * ShopBillingRate;
    var install := l.installHours * Arith.Or(l.installerRate, DefaultInstallRate);
    var bid := signsPrice + shop + install + l.travelCost + l.equipmentCost;
    var cost := signsCost + timesheetCost + l.travelCost + l.equipmentCost;
    Profitability(shop, install, bid, signsCost, timesheetCost, cost, bid - cost, Arith.Percent(bid - cost, bid))
  }

  /** Travel and equipment pass through: they raise bid and cost alike and
      leave the profit alone. */
  lemma PassThroughCancels(l: Lead, timesheetCost: real, travel: real, equipment: real)
    ensures Profit(l.(travelCost := travel, equipmentCost := equipment), timesheetCost).profit
         == Profit(l, timesheetCost).profit
    ensures Profit(l, timesheetCost).profit
         == Sum(l.signs, Price) - Sum(l.signs, Cost) + l.shopHours * ShopBillingRate
            + l.installHours * Arith.Or(l.installerRate, DefaultInstallRate) - timesheetCost
  {
  }

  /** An opportunity with nothing to bid shows no margin; an unset
      installer rate bills like the default one. */
  lemma ProfitEdgeCases(l: Lead, timesheetCost: real)
    ensures Profit(l, timesheetCost).bid == 0.0 ==> Profit(l, timesheetCost).marginPercent == 0.0
    ensures Profit(l.(installerRate := 0.0), timesheetCost) == Profit(l.(installerRate := DefaultInstallRate), timesheetCost)
  {
  }
}
