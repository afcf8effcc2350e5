/** Schedules of values (`ps.sov`): the billable line items of a project,
    filled from the opportunity's sign types, and each line's progress as
    billed through pay applications. */
module Schedules {
  import opened Sums
  import PayApplications

  datatype SovLine = SovLine(
    id: int, sequence: int, description: string, signType: int,
    scheduledValue: real, isChangeOrder: bool,
    billedToDate: real, remaining: real)

  /** A schedule; `project` is 0 when unset. */
  datatype Sov = Sov(project: int, projectName: string, lines: seq<SovLine>,
                     totalValue: real, name: string)

  /** The sign type fields the populate action reads; `categoryName` is ""
      for a sign type without a category. */
  datatype SignTypeRow = SignTypeRow(id: int, name: string, categoryName: string,
                                     extendedPrice: real)

  /** `_compute_name`: "SOV - Project", or "New SOV" without a project. */
  function ComputeName(s: Sov): (r: string)
    ensures s.project != 0 ==> r == "SOV - " + s.projectName
    ensures s.project == 0 ==> r == "New SOV"
  {
    if s.project != 0 then "SOV - " + s.projectName else "New SOV"
  }

  /** The two name forms never collide. */
  lemma NamedSchedulesAreNotNew(s: Sov)
    requires s.project != 0
    ensures ComputeName(s) != "New SOV"
  {
    assert ComputeName(s)[0] == 'S';
  }

  function Scheduled(l: SovLine): real { l.scheduledValue }

  /** `_compute_total`: the scheduled values of all lines. */
  function ComputeTotal(s: Sov): (r: Sov)
    ensures r == s.(totalValue := Sum(s.lines, Scheduled))
  {
    s.(totalValue := Sum(s.lines, Scheduled))
  }

  /** The lines populate creates for `types`, numbered from the `k`-th:
      sequence 10, 20, 30, …, one per sign type, each scheduled at the sign
      type's extended price; new record ids are handed out from `nextId`. */
  function NewLines(types: seq<SignTypeRow>, k: nat, nextId: int): (r: seq<SovLine>)
    ensures |r| == |types|
    ensures forall j :: 0 <= j < |r| ==>
      && r[j].id == nextId + j
      && r[j].sequence == 10 * (k + j + 1)
      && r[j].signType == types[j].id
      && r[j].scheduledValue == types[j].extendedPrice
      && r[j].description == types[j].name + " - " + types[j].categoryName
      && !r[j].isChangeOrder
    decreases |types|
  {
    if |types| == 0 then []
    else
      var t := types[0];
      [SovLine(nextId, 10 * (k + 1), t.name + " - " + t.categoryName, t.id,
               t.extendedPrice, false, 0.0, 0.0)]
        + NewLines(types[1..], k + 1, nextId + 1)
  }

  function Price(t: SignTypeRow): real { t.extendedPrice }

  /** The new lines are worth exactly the sign types' extended prices. */
  lemma {:induction false} NewLinesValue(types: seq<SignTypeRow>, k: nat, nextId: int)
    ensures Sum(NewLines(types, k, nextId), Scheduled) == Sum(types, Price)
    decreases |types|
  {
    if |types| > 0 {
      NewLinesValue(types[1..], k + 1, nextId + 1);
      var r := NewLines(types, k, nextId);
      assert r[1..] == NewLines(types[1..], k + 1, nextId + 1);
    }
  }

  /** `action_populate_from_sign_types`: with an opportunity on the
      project, one line per sign type is appended; without one, nothing
      is created. */
  function Populate(s: Sov, opportunity: int, types: seq<SignTypeRow>, nextId: int): (r: Sov)
    ensures opportunity == 0 ==> r == s
    ensures opportunity != 0 ==> r == s.(lines := s.lines + NewLines(types, 0, nextId))
  {
    if opportunity != 0 then s.(lines := s.lines + NewLines(types, 0, nextId)) else s
  }

  /** After populating, the schedule's total value grows by the sign
      types' extended prices; populating again adds them again, since the
      action does not look for lines it created before. */
  lemma PopulateAddsValue(s: Sov, opportunity: int, types: seq<SignTypeRow>, nextId: int)
    requires opportunity != 0
    ensures ComputeTotal(Populate(s, opportunity, types, nextId)).totalValue
         == ComputeTotal(s).totalValue + Sum(types, Price)
  {
    SumAppend(s.lines, NewLines(types, 0, nextId), Scheduled);
    NewLinesValue(types, 0, nextId);
  }

  function Completed(l: PayApplications.PayLine): real { l.completedToDate }

  /** `_compute_billed` over the pay application lines `payLines` the
      search sees: billed to date sums the completed-to-date of the lines
      that reference this schedule line, and the remainder is what is
      left of its scheduled value. */
  function ComputeBilled(l: SovLine, payLines: seq<PayApplications.PayLine>): (r: SovLine)
    ensures r == l.(billedToDate := r.billedToDate, remaining := r.remaining)
    ensures r.billedToDate == Sum(Filter(payLines, (p: PayApplications.PayLine) => p.sovLine == l.id), Completed)
    ensures r.remaining + r.billedToDate == l.scheduledValue
  {
    var billed := Sum(Filter(payLines, (p: PayApplications.PayLine) => p.sovLine == l.id), Completed);
    l.(billedToDate := billed, remaining := l.scheduledValue - billed)
  }

  /** A pay application line for another schedule line leaves the billing
      unchanged; one for this line adds its completed-to-date. */
  lemma {:induction false} BilledByReference(l: SovLine, payLines: seq<PayApplications.PayLine>,
                                             p: PayApplications.PayLine)
    ensures p.sovLine != l.id ==> ComputeBilled(l, payLines + [p]) == ComputeBilled(l, payLines)
    ensures p.sovLine == l.id ==>
      ComputeBilled(l, payLines + [p]).billedToDate == ComputeBilled(l, payLines).billedToDate + p.completedToDate
  {
    FilterAppend(payLines, [p], (q: PayApplications.PayLine) => q.sovLine == l.id);
    var f := Filter(payLines, (q: PayApplications.PayLine) => q.sovLine == l.id);
    if p.sovLine == l.id {
      assert Filter([p], (q: PayApplications.PayLine) => q.sovLine == l.id) == [p];
      SumAppend(f, [p], Completed);
      assert Sum([p], Completed) == p.completedToDate;
    } else {
      assert Filter([p], (q: PayApplications.PayLine) => q.sovLine == l.id) == [];
      assert f + [] == f;
    }
  }
}
