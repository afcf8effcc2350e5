/** Progress billing (`ps.pay.application`), laid out like the AIA G702
    application and its G703 continuation sheet: each line carries its
    scheduled value, work completed before and during the period and
    materials stored; the application totals them, holds back retainage
    and nets out the payments already certified. */
module PayApplications {
  import opened Numerals
  import opened Sums
  import Arith

  datatype State = Draft | Submitted | Approved | Invoiced | Paid

  /** One G703 row.  `sovLine` is the schedule-of-values line it bills,
      0 when unset. */
  datatype PayLine = PayLine(
    id: int, sovLine: int, isChangeOrder: bool,
    scheduledValue: real, previousCompleted: real,
    thisPeriodWork: real, thisPeriodMaterials: real,
    completedToDate: real, percentComplete: real, balanceToFinish: real)

  /** A pay application.  `project` is 0 when unset; dates are day
      numbers, 0 when unset; `invoice` is 0 until one is linked. */
  datatype PayApp = PayApp(
    number: int, project: int, projectName: string,
    lines: seq<PayLine>, retainagePercent: real,
    originalContract: real, changeOrders: real, revisedContract: real,
    workCompleted: real, materialsStored: real, thisPeriodTotal: real,
    totalCompletedStored: real, percentComplete: real,
    retainageAmount: real, previousApplications: real,
    currentPaymentDue: real, state: State,
    submittedDate: int, approvedDate: int, invoice: int, name: string)

  // ---------------------------------------------------------------------
  // Lines
  // ---------------------------------------------------------------------

  /** `_compute_completed`: completed to date (G703 column G) is the
      previous work plus this period's work and stored materials; the
      balance to finish (column I) is what remains of the scheduled
      value; the percentage (column G / C) is 0 for a zero scheduled
      value. */
  function ComputeCompleted(l: PayLine): (r: PayLine)
    ensures r == l.(completedToDate := r.completedToDate, percentComplete := r.percentComplete,
                    balanceToFinish := r.balanceToFinish)
    ensures r.completedToDate == l.previousCompleted + l.thisPeriodWork + l.thisPeriodMaterials
    ensures r.balanceToFinish + r.completedToDate == l.scheduledValue
    ensures l.scheduledValue == 0.0 ==> r.percentComplete == 0.0
    ensures l.scheduledValue != 0.0 ==> r.percentComplete * l.scheduledValue == r.completedToDate * 100.0
  {
    var done := l.previousCompleted + l.thisPeriodWork + l.thisPeriodMaterials;
    var pct := if l.scheduledValue != 0.0 then done / l.scheduledValue * 100.0 else 0.0;
    l.(completedToDate := done, percentComplete := pct, balanceToFinish := l.scheduledValue - done)
  }

  /** A line with a non-zero scheduled value is fully billed (100%)
      exactly when nothing is left to finish. */
  lemma {:induction false} FinishedIffNoBalance(l: PayLine)
    requires l.scheduledValue != 0.0
    ensures var r := ComputeCompleted(l);
      r.percentComplete == 100.0 <==> r.balanceToFinish == 0.0
  {
    var r := ComputeCompleted(l);
    assert r.percentComplete * l.scheduledValue == r.completedToDate * 100.0;
    if r.percentComplete == 100.0 {
      assert r.completedToDate * 100.0 == l.scheduledValue * 100.0;
    }
  }

  function Scheduled(l: PayLine): real { l.scheduledValue }
  function Work(l: PayLine): real { l.thisPeriodWork }
  function Materials(l: PayLine): real { l.thisPeriodMaterials }
  function Previous(l: PayLine): real { l.previousCompleted }
  function Completed(l: PayLine): real { l.completedToDate }
  function Balance(l: PayLine): real { l.balanceToFinish }
  function PeriodAmount(l: PayLine): real { l.thisPeriodWork + l.thisPeriodMaterials }
  predicate IsChangeOrder(l: PayLine) { l.isChangeOrder }
  predicate IsOriginal(l: PayLine) { !l.isChangeOrder }

  // ---------------------------------------------------------------------
  // Application
  // ---------------------------------------------------------------------

  /** `_compute_name`: "Project - App #n" when both the project and a
      non-zero number are set, otherwise "Application #n" (0 for an unset
      number). */
  function ComputeName(pa: PayApp): (r: string)
    ensures pa.project != 0 && pa.number != 0 ==> r == pa.projectName + " - App #" + IntText(pa.number)
    ensures !(pa.project != 0 && pa.number != 0) ==> r == "Application #" + IntText(pa.number)
  {
    if pa.project != 0 && pa.number != 0 then pa.projectName + " - App #" + IntText(pa.number)
    else "Application #" + IntText(pa.number)
  }

  /** Two numbered applications of one project never share a name. */
  lemma {:induction false} NamesDistinguishNumbers(a: PayApp, b: PayApp)
    requires a.project != 0 && a.number != 0 && b.project != 0 && b.number != 0
    requires a.projectName == b.projectName
    requires ComputeName(a) == ComputeName(b)
    ensures a.number == b.number
  {
    var p := a.projectName + " - App #";
    assert ComputeName(a) == p + IntText(a.number);
    assert ComputeName(b) == p + IntText(b.number);
    assert IntText(a.number) == ComputeName(a)[|p|..];
    assert IntText(b.number) == ComputeName(b)[|p|..];
    IntTextInjective(a.number, b.number);
  }

  /** `total * (percent / 100)`. */
  function RetainageOf(total: real, percent: real): (r: real)
    ensures r * 100.0 == total * percent
  {
    total * (percent / 100.0)
  }

  /** `_compute_totals`, on the G702 summary:
      line 1 (original sum) is the scheduled value of the original lines,
      line 2 (net change orders) that of the change-order lines, and line
      3 their sum; this period's total is the work plus the stored
      materials; line 4 (completed and stored) sums the lines' column G;
      the percentage is 0 for a zero contract sum; line 5 (retainage) is
      the retainage percentage of line 4; and the current payment due
      (line 8) is line 4 less retainage less the previous certificates. */
  function ComputeTotals(pa: PayApp): (r: PayApp)
    ensures r == pa.(originalContract := r.originalContract, changeOrders := r.changeOrders,
                     revisedContract := r.revisedContract, workCompleted := r.workCompleted,
                     materialsStored := r.materialsStored, thisPeriodTotal := r.thisPeriodTotal,
                     totalCompletedStored := r.totalCompletedStored,
                     percentComplete := r.percentComplete, retainageAmount := r.retainageAmount,
                     currentPaymentDue := r.currentPaymentDue)
    ensures r.originalContract == Sum(Filter(pa.lines, IsOriginal), Scheduled)
    ensures r.changeOrders == Sum(Filter(pa.lines, IsChangeOrder), Scheduled)
    ensures r.revisedContract == r.originalContract + r.changeOrders
    ensures r.workCompleted == Sum(pa.lines, Work) && r.materialsStored == Sum(pa.lines, Materials)
    ensures r.thisPeriodTotal == r.workCompleted + r.materialsStored
    ensures r.totalCompletedStored == Sum(pa.lines, Completed)
    ensures r.percentComplete == Arith.Percent(r.totalCompletedStored, r.revisedContract)
    ensures r.retainageAmount == RetainageOf(r.totalCompletedStored, pa.retainagePercent)
    ensures r.currentPaymentDue == r.totalCompletedStored - r.retainageAmount - pa.previousApplications
  {
    var original := Sum(Filter(pa.lines, IsOriginal), Scheduled);
    var cos := Sum(Filter(pa.lines, IsChangeOrder), Scheduled);
    var revised := original + cos;
    var work := Sum(pa.lines, Work);
    var stored := Sum(pa.lines, Materials);
    var total := Sum(pa.lines, Completed);
    var pct := Arith.Percent(total, revised);
    var retainage := RetainageOf(total, pa.retainagePercent);
    pa.(originalContract := original, changeOrders := cos, revisedContract := revised,
        workCompleted := work, materialsStored := stored, thisPeriodTotal := work + stored,
        totalCompletedStored := total, percentComplete := pct, retainageAmount := retainage,
        currentPaymentDue := total - retainage - pa.previousApplications)
  }

  /** Splitting original and change-order lines loses nothing: the
      contract sum to date is the scheduled value of all lines. */
  lemma RevisedIsAllScheduled(pa: PayApp)
    ensures ComputeTotals(pa).revisedContract == Sum(pa.lines, Scheduled)
  {
    SumSplit(pa.lines, Scheduled, IsChangeOrder, IsOriginal);
  }

  /** Every line's column G computed: the application's completed and
      stored total is the earlier work plus this period's total, and the
      balance to finish over all lines is the contract sum to date less
      that total. */
  lemma {:induction false} TotalsAgreeWithLines(pa: PayApp)
    requires forall i :: 0 <= i < |pa.lines| ==> pa.lines[i] == ComputeCompleted(pa.lines[i])
    ensures var r := ComputeTotals(pa);
      && r.totalCompletedStored == Sum(pa.lines, Previous) + r.thisPeriodTotal
      && Sum(pa.lines, Balance) == r.revisedContract - r.totalCompletedStored
  {
    var s := pa.lines;
    assert forall i :: 0 <= i < |s| ==> Completed(s[i]) == Previous(s[i]) + PeriodAmount(s[i]);
    SumAdd(s, Previous, PeriodAmount, Completed);
    assert forall i :: 0 <= i < |s| ==> PeriodAmount(s[i]) == Work(s[i]) + Materials(s[i]);
    SumAdd(s, Work, Materials, PeriodAmount);
    assert forall i :: 0 <= i < |s| ==> Balance(s[i]) == Scheduled(s[i]) - Completed(s[i]);
    SumSub(s, Scheduled, Completed, Balance);
    RevisedIsAllScheduled(pa);
  }

  /** The applications that count as previous certificates for `pa`:
      same project, a smaller number, and approved, invoiced or paid. */
  predicate Certified(a: PayApp) {
    a.state == Approved || a.state == Invoiced || a.state == Paid
  }

  predicate PreviousOf(pa: PayApp, a: PayApp) {
    a.project == pa.project && a.number < pa.number && Certified(a)
  }

  function Due(a: PayApp): real { a.currentPaymentDue }

  /** `_compute_previous_applications` over the applications `all` the
      search sees: the payment due of every earlier certified application
      of the same project. */
  function ComputePrevious(pa: PayApp, all: seq<PayApp>): (r: PayApp)
    ensures r == pa.(previousApplications := r.previousApplications)
    ensures r.previousApplications == Sum(Filter(all, a => PreviousOf(pa, a)), Due)
  {
    pa.(previousApplications := Sum(Filter(all, a => PreviousOf(pa, a)), Due))
  }

  /** An application never counts itself, nor a later, uncertified or
      other-project one: adding such records to the search leaves the
      previous-certificate total unchanged. */
  lemma {:induction false} PreviousIgnoresOthers(pa: PayApp, all: seq<PayApp>, extra: PayApp)
    requires extra.project != pa.project || extra.number >= pa.number || !Certified(extra)
    ensures ComputePrevious(pa, all + [extra]).previousApplications
         == ComputePrevious(pa, all).previousApplications
  {
    FilterAppend(all, [extra], a => PreviousOf(pa, a));
    assert Filter([extra], a => PreviousOf(pa, a)) == [];
    assert Filter(all, a => PreviousOf(pa, a)) + [] == Filter(all, a => PreviousOf(pa, a));
  }

  /** An earlier certified application of the project adds exactly its
      payment due. */
  lemma {:induction false} PreviousAddsCertified(pa: PayApp, all: seq<PayApp>, extra: PayApp)
    requires PreviousOf(pa, extra)
    ensures ComputePrevious(pa, all + [extra]).previousApplications
         == ComputePrevious(pa, all).previousApplications + extra.currentPaymentDue
  {
    FilterAppend(all, [extra], a => PreviousOf(pa, a));
    assert Filter([extra], a => PreviousOf(pa, a)) == [extra];
    SumAppend(Filter(all, a => PreviousOf(pa, a)), [extra], Due);
    assert Sum([extra], Due) == extra.currentPaymentDue;
  }

  // ---------------------------------------------------------------------
  // Actions
  // ---------------------------------------------------------------------

  /** `action_submit`: submitted, dated today, from any state. */
  function Submit(pa: PayApp, today: int): (r: PayApp)
    ensures r.state == Submitted && r.submittedDate == today
    ensures r == pa.(state := r.state, submittedDate := r.submittedDate)
  {
    pa.(state := Submitted, submittedDate := today)
  }

  /** `action_approve`: approved, dated today, from any state. */
  function Approve(pa: PayApp, today: int): (r: PayApp)
    ensures r.state == Approved && r.approvedDate == today
    ensures r == pa.(state := r.state, approvedDate := r.approvedDate)
  {
    pa.(state := Approved, approvedDate := today)
  }

  /** Submitting and approving are idempotent and keep the figures; an
      approved application counts toward every later application of its
      project, while a submitted one is not yet certified and counts
      toward none. */
  lemma SubmitApproveFacts(pa: PayApp, later: PayApp, today: int)
    requires later.project == pa.project && pa.number < later.number
    ensures Submit(Submit(pa, today), today) == Submit(pa, today)
    ensures Approve(Approve(pa, today), today) == Approve(pa, today)
    ensures Approve(pa, today).currentPaymentDue == pa.currentPaymentDue
    ensures Submit(pa, today).lines == pa.lines && Approve(pa, today).lines == pa.lines
    ensures PreviousOf(later, Approve(pa, today))
    ensures !PreviousOf(later, Submit(pa, today))
  {
  }

  /** The customer invoice the application bills: one line, quantity 1,
      for the current payment due, to the project's general contractor. */
  datatype Invoice = Invoice(id: int, partner: int, date: int, lineName: string,
                             quantity: int, priceUnit: real)

  /** `action_create_invoice`: creates the invoice (its id is the
      parameter `invoiceId`) and links it, marking the application
      invoiced. */
  function CreateInvoice(pa: PayApp, gcPartner: int, invoiceId: int, today: int): (r: (PayApp, Invoice))
    ensures r.0 == pa.(state := Invoiced, invoice := invoiceId)
    ensures r.1.id == invoiceId && r.1.partner == gcPartner && r.1.date == today
    ensures r.1.quantity == 1 && r.1.priceUnit == pa.currentPaymentDue
    ensures r.1.lineName == "Pay Application #" + IntText(pa.number) + ": " + pa.projectName
  {
    (pa.(state := Invoiced, invoice := invoiceId),
     Invoice(invoiceId, gcPartner, today,
             "Pay Application #" + IntText(pa.number) + ": " + pa.projectName, 1, pa.currentPaymentDue))
  }

  /** Invoicing certifies the application: after it, the application
      counts toward every later application of its project. */
  lemma InvoicedCountsForLater(pa: PayApp, later: PayApp, gc: int, id: int, today: int)
    requires later.project == pa.project && pa.number < later.number
    ensures PreviousOf(later, CreateInvoice(pa, gc, id, today).0)
  {
  }
}
