/** The time totals the time clock adds to projects and opportunities:
    closed punches on the project, plus the bidding time punched on the
    opportunity it came from, and the same total seen from the
    opportunity's side. */
module Hours {
  import opened Wrappers
  import opened Sums
  import opened TimePunches

  /** A project: its id and the opportunity it was created from (0 when
      none). */
  datatype Project = Project(id: int, opportunity: int)

  /** `_compute_total_hours`'s three outputs. */
  datatype ProjectTotals = ProjectTotals(totalHours: real, display: string, punchCount: nat)

  /** `_compute_bidding_hours`'s four outputs. */
  datatype LeadTotals = LeadTotals(biddingHours: real, biddingDisplay: string,
                                   totalHours: real, totalDisplay: string)

  function Duration(p: Punch): real { p.durationHours }

  predicate ClosedOnProject(p: Punch, project: int) {
    p.project == project && p.state == Closed
  }

  predicate ClosedOnOpportunity(p: Punch, opportunity: int) {
    p.opportunity == opportunity && p.state == Closed
  }

  /** The stored hours of the closed punches on a project. */
  function ClosedProjectHours(ps: seq<Punch>, project: int): real {
    Sum(Filter(ps, (p: Punch) => ClosedOnProject(p, project)), Duration)
  }

  /** The stored hours of the closed punches on an opportunity. */
  function ClosedOpportunityHours(ps: seq<Punch>, opportunity: int): real {
    Sum(Filter(ps, (p: Punch) => ClosedOnOpportunity(p, opportunity)), Duration)
  }

  /** `_compute_total_hours`: the closed punches on the project, plus
      those on its opportunity when it has one, shown as "Xh Ym"; the
      punch count counts every punch on the project, open or closed. */
  function ProjectHours(pr: Project, ps: seq<Punch>): (r: ProjectTotals)
    ensures pr.opportunity == 0 ==> r.totalHours == ClosedProjectHours(ps, pr.id)
    ensures pr.opportunity != 0 ==>
      r.totalHours == ClosedProjectHours(ps, pr.id) + ClosedOpportunityHours(ps, pr.opportunity)
    ensures r.display == HoursText(r.totalHours)
    ensures r.punchCount == Count(ps, (p: Punch) => p.project == pr.id)
  {
    var opp := if pr.opportunity != 0 then ClosedOpportunityHours(ps, pr.opportunity) else 0.0;
    var total := ClosedProjectHours(ps, pr.id) + opp;
    ProjectTotals(total, HoursText(total), Count(ps, (p: Punch) => p.project == pr.id))
  }

  /** `_compute_linked_project_id`: the first project created from the
      opportunity, if any. */
  function LinkedProject(prs: seq<Project>, lead: int): (k: Option<nat>)
    ensures k.Some? ==> k.value < |prs| && prs[k.value].opportunity == lead
    ensures k.Some? ==> forall j :: 0 <= j < k.value ==> prs[j].opportunity != lead
    ensures k.None? <==> forall j :: 0 <= j < |prs| ==> prs[j].opportunity != lead
  {
    Sums.FindFirst(prs, (p: Project) => p.opportunity == lead)
  }

  /** `_compute_bidding_hours` for the opportunity `lead`: bidding time is
      the closed punches on the opportunity; the total adds the closed
      punches on its linked project when there is one. */
  function LeadHours(lead: int, prs: seq<Project>, ps: seq<Punch>): (r: LeadTotals)
    ensures r.biddingHours == ClosedOpportunityHours(ps, lead)
    ensures r.biddingDisplay == HoursText(r.biddingHours)
    ensures LinkedProject(prs, lead).None? ==> r.totalHours == r.biddingHours
    ensures LinkedProject(prs, lead).Some? ==>
      r.totalHours == r.biddingHours + ClosedProjectHours(ps, prs[LinkedProject(prs, lead).value].id)
    ensures r.totalDisplay == HoursText(r.totalHours)
  {
    var bidding := ClosedOpportunityHours(ps, lead);
    var project := match LinkedProject(prs, lead)
      case None => 0.0
      case Some(k) => ClosedProjectHours(ps, prs[k].id);
    var total := bidding + project;
    LeadTotals(bidding, HoursText(bidding), total, HoursText(total))
  }

  /** An opportunity and the project it is linked to show the same total
      time. */
  lemma LeadAndProjectAgree(lead: int, prs: seq<Project>, ps: seq<Punch>)
    requires lead != 0 && LinkedProject(prs, lead).Some?
    ensures LeadHours(lead, prs, ps).totalHours
         == ProjectHours(prs[LinkedProject(prs, lead).value], ps).totalHours
  {
  }

  /** The totals never go negative while every stored duration is
      non-negative. */
  lemma {:induction false} ProjectHoursNonNegative(pr: Project, ps: seq<Punch>)
    requires forall j :: 0 <= j < |ps| ==> ps[j].durationHours >= 0.0
    ensures ProjectHours(pr, ps).totalHours >= 0.0
  {
    var f := Filter(ps, (p: Punch) => ClosedOnProject(p, pr.id));
    var g := Filter(ps, (p: Punch) => ClosedOnOpportunity(p, pr.opportunity));
    SumNonNegative(f, Duration);
    SumNonNegative(g, Duration);
  }

  /** An open punch adds nothing to a project's hours, however long it
      has run. */
  lemma {:induction false} OpenPunchNotCounted(pr: Project, ps: seq<Punch>, p: Punch)
    requires p.state == Active
    ensures ProjectHours(pr, ps + [p]).totalHours == ProjectHours(pr, ps).totalHours
  {
    var q1 := (x: Punch) => ClosedOnProject(x, pr.id);
    var q2 := (x: Punch) => ClosedOnOpportunity(x, pr.opportunity);
    FilterAppend(ps, [p], q1);
    FilterAppend(ps, [p], q2);
    assert Filter([p], q1) == [];
    assert Filter([p], q2) == [];
    assert Filter(ps, q1) + [] == Filter(ps, q1);
    assert Filter(ps, q2) + [] == Filter(ps, q2);
  }

  /** Clocking out a punch on the project adds its duration to the
      project's hours. */
  lemma {:induction false} ClockOutAddsProjectHours(ps: seq<Punch>, i: int, q: Punch, project: int)
    requires 0 <= i < |ps| && ps[i].state == Active && q.state == Closed && q.project == project
    ensures ClosedProjectHours(ps[i := q], project) == ClosedProjectHours(ps, project) + q.durationHours
  {
    var f := (x: Punch) => ClosedOnProject(x, project);
    var pre, post := ps[..i], ps[i + 1..];
    assert ps == pre + [ps[i]] + post;
    assert ps[i := q] == pre + [q] + post;
    FilterAppend(pre + [ps[i]], post, f);
    FilterAppend(pre, [ps[i]], f);
    FilterAppend(pre + [q], post, f);
    FilterAppend(pre, [q], f);
    assert Filter([ps[i]], f) == [];
    assert Filter([q], f) == [q];
    SumAppend(Filter(pre, f) + [q], Filter(post, f), Duration);
    SumAppend(Filter(pre, f), [q], Duration);
    SumAppend(Filter(pre, f) + [], Filter(post, f), Duration);
    assert Filter(pre, f) + [] == Filter(pre, f);
    assert Sum([q], Duration) == q.durationHours;
  }
}
