/** The estimating add-on's side of an opportunity: its estimates, the
    action that opens them, and the estimate created automatically when
    the opportunity enters the Estimating stage. */
module EstimatingLeads {
  import opened Wrappers
  import opened Sums

  /** The estimate's `state` selection; only "lost" matters here, as a
      lost estimate is not live. */
  datatype EstimateState = EstDraft | EstReview | EstApproved | EstSubmitted | EstWon | EstLost

  /** An estimate header: its opportunity and general contractor (0 when
      unset). */
  datatype EstimateRow = EstimateRow(id: int, opportunity: int, gcPartner: int, state: EstimateState)

  datatype Lead = Lead(id: int, stage: int, gcPartner: int)

  predicate Of(e: EstimateRow, lead: int) { e.opportunity == lead }

  /** `_compute_estimate_count`. */
  function EstimateCount(es: seq<EstimateRow>, lead: int): (n: nat)
    ensures n == |Filter(es, (e: EstimateRow) => Of(e, lead))|
    ensures n <= |es|
  {
    Count(es, (e: EstimateRow) => Of(e, lead))
  }

  /** The window `action_view_estimates` opens: the opportunity's
      estimates, new ones defaulting to it, and the form of the estimate
      itself when there is exactly one. */
  datatype Action = Action(domainOpportunity: int, defaultOpportunity: int, formOf: Option<int>)

  function ViewEstimates(es: seq<EstimateRow>, lead: int): (a: Action)
    ensures a.domainOpportunity == lead && a.defaultOpportunity == lead
    ensures a.formOf.Some? <==> EstimateCount(es, lead) == 1
    ensures a.formOf.Some? ==> exists j :: 0 <= j < |es| && Of(es[j], lead) && es[j].id == a.formOf.value
  {
    var mine := Filter(es, (e: EstimateRow) => Of(e, lead));
    if |mine| == 1 then
      assert mine[0] in mine;
      Action(lead, lead, Some(mine[0].id))
    else Action(lead, lead, None)
  }

  predicate Live(e: EstimateRow, lead: int) { e.opportunity == lead && e.state != EstLost }

  /** The first estimate of the opportunity that is not lost. */
  function LiveEstimate(es: seq<EstimateRow>, lead: int): (k: Option<nat>)
    ensures k.Some? ==> k.value < |es| && Live(es[k.value], lead)
    ensures k.None? <==> forall j :: 0 <= j < |es| ==> !Live(es[j], lead)
  {
    Sums.FindFirst(es, (e: EstimateRow) => Live(e, lead))
  }

  /** `_create_auto_estimate` for one opportunity: nothing when it already
      has an estimate that is not lost, else a new draft estimate for it
      carrying its general contractor. */
  function AutoEstimate(l: Lead, es: seq<EstimateRow>, newId: int): (r: seq<EstimateRow>)
    ensures LiveEstimate(es, l.id).Some? ==> r == es
    ensures LiveEstimate(es, l.id).None? ==> r == es + [EstimateRow(newId, l.id, l.gcPartner, EstDraft)]
  {
    if LiveEstimate(es, l.id).Some? then es
    else es + [EstimateRow(newId, l.id, l.gcPartner, EstDraft)]
  }

  /** `write` with a new stage (None when the stage is not written): the
      stage is stored, and an estimate is created only when the new stage
      is the Estimating stage (None when that stage does not exist). */
  function WriteStage(l: Lead, es: seq<EstimateRow>, stage: Option<int>, estimating: Option<int>, newId: int): (r: (Lead, seq<EstimateRow>))
    ensures r.0 == (if stage.Some? then l.(stage := stage.value) else l)
    ensures !(stage.Some? && estimating.Some? && stage.value == estimating.value) ==> r.1 == es
    ensures stage.Some? && estimating.Some? && stage.value == estimating.value ==>
      r.1 == AutoEstimate(l, es, newId)
  {
    match stage
    case None => (l, es)
    case Some(s) =>
      var l1 := l.(stage := s);
      if estimating.Some? && s == estimating.value then (l1, AutoEstimate(l1, es, newId)) else (l1, es)
  }

  /** Moving an opportunity to Estimating leaves it with exactly one new
      estimate at most, and with a live estimate afterwards. */
  lemma {:induction false} EstimatingLeavesLiveEstimate(l: Lead, es: seq<EstimateRow>, s: int, newId: int)
    ensures var (l1, es1) := WriteStage(l, es, Some(s), Some(s), newId);
      && LiveEstimate(es1, l.id).Some?
      && |es| <= |es1| <= |es| + 1
  {
    var es1 := WriteStage(l, es, Some(s), Some(s), newId).1;
    if LiveEstimate(es, l.id).None? {
      assert Live(es1[|es|], l.id);
    }
  }

  /** Entering Estimating a second time creates no second estimate. */
  lemma {:induction false} EstimatingTwice(l: Lead, es: seq<EstimateRow>, s: int, id1: int, id2: int)
    ensures var (l1, es1) := WriteStage(l, es, Some(s), Some(s), id1);
      WriteStage(l1, es1, Some(s), Some(s), id2) == (l1, es1)
  {
    EstimatingLeavesLiveEstimate(l, es, s, id1);
  }

  /** Adding an estimate to the opportunity raises its count by one. */
  lemma {:induction false} EstimateCountAppend(es: seq<EstimateRow>, e: EstimateRow)
    ensures EstimateCount(es + [e], e.opportunity) == EstimateCount(es, e.opportunity) + 1
  {
    var p := (x: EstimateRow) => Of(x, e.opportunity);
    FilterAppend(es, [e], p);
    assert Filter([e], p) == [e];
  }

  /** An opportunity without estimates that gets its automatic one opens
      that estimate's form. */
  lemma {:induction false} AutoEstimateThenView(l: Lead, es: seq<EstimateRow>, newId: int)
    requires forall j :: 0 <= j < |es| ==> !Of(es[j], l.id)
    ensures ViewEstimates(AutoEstimate(l, es, newId), l.id).formOf == Some(newId)
  {
    var e := EstimateRow(newId, l.id, l.gcPartner, EstDraft);
    var P := (x: EstimateRow) => Of(x, l.id);
    assert LiveEstimate(es, l.id).None?;
    FilterAppend(es, [e], P);
    FilterMultiset(es, P);
    assert multiset(Filter(es, P)) == multiset{} by {
      forall x ensures multiset(Filter(es, P))[x] == 0 {
        if P(x) {
          assert x !in es;
        }
      }
    }
    assert Filter([e], P) == [e];
    assert Filter(es + [e], P) == [e];
  }
}
