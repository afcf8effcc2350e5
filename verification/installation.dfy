/** Field installations: their duration and progress counts, the state
    actions, and the pay application a completed installation triggers. */
module Installations {
  import opened Wrappers
  import Projects
  import SignInstances
  import OdooEnv

  datatype State = Scheduled | Confirmed | InProgress | Completed | Partial | Canceled

  /** An installation.  `project` is 0 when unset; the scheduled date is a
      day number; the actual start and end are times in seconds. */
  datatype Installation = Installation(
    id: int, name: string, project: int, scheduledDate: int, instances: set<int>,
    state: State, actualStart: Option<int>, actualEnd: Option<int>)

  /** `_compute_actual_duration`: hours between the actual start and end,
      0 unless both are set. */
  function ActualDuration(i: Installation): (h: real)
    ensures i.actualStart.None? || i.actualEnd.None? ==> h == 0.0
    ensures i.actualStart.Some? && i.actualEnd.Some? ==>
      h * 3600.0 == (i.actualEnd.value - i.actualStart.value) as real
  {
    if i.actualStart.Some? && i.actualEnd.Some? then
      (i.actualEnd.value - i.actualStart.value) as real / 3600.0
    else 0.0
  }

  /** `_compute_instance_count` and `_compute_installed_count`: installed
      never exceeds the instances listed. */
  function Counts(i: Installation, store: SignInstances.Store): (r: (nat, nat))
    ensures r.0 == |i.instances| && r.1 <= r.0
  {
    (|i.instances|, SignInstances.InstalledCount(store, i.instances))
  }

  /** `action_confirm`. */
  function Confirm(i: Installation): (r: Installation)
    ensures r.state == Confirmed && r == i.(state := Confirmed)
  {
    i.(state := Confirmed)
  }

  /** Confirming is a state change only: confirming twice is confirming
      once, and the duration and progress counts stay as they were. */
  lemma ConfirmIdempotent(i: Installation, store: SignInstances.Store)
    ensures Confirm(Confirm(i)) == Confirm(i)
    ensures ActualDuration(Confirm(i)) == ActualDuration(i)
    ensures Counts(Confirm(i), store) == Counts(i, store)
  {
  }

  /** `action_start`: in progress, started now. */
  function Start(i: Installation, now: int): (r: Installation)
    ensures r.state == InProgress && r.actualStart == Some(now)
    ensures r == i.(state := r.state, actualStart := r.actualStart)
  {
    i.(state := InProgress, actualStart := Some(now))
  }

  /** Starting again restarts the clock, and an installation started and
      then completed lasts from the start to the completion. */
  lemma {:induction false} StartThenComplete(s: Site, hasBilling: bool, t0: int, t1: int, now: int, today: int)
    ensures Start(Start(s.installation, t0), t1) == Start(s.installation, t1)
    ensures var r := Complete(s.(installation := Start(s.installation, t0)), hasBilling, now, today);
      && r.installation.state == Completed
      && ActualDuration(r.installation) * 3600.0 == (now - t0) as real
  {
    var r := Complete(s.(installation := Start(s.installation, t0)), hasBilling, now, today);
    assert r.installation.actualStart == Some(t0) && r.installation.actualEnd == Some(now);
  }

  /** A pay application as far as numbering needs it: the project, the
      number, and the period (day numbers); new ones are drafts. */
  datatype PayAppRow = PayAppRow(project: int, number: int, periodStart: int, periodEnd: int)

  /** The highest application number of a project, when it has any. */
  function Highest(apps: seq<PayAppRow>, project: int): (r: Option<int>)
    ensures r.None? <==> forall k :: 0 <= k < |apps| ==> apps[k].project != project
    ensures r.Some? ==> forall k :: 0 <= k < |apps| && apps[k].project == project ==> apps[k].number <= r.value
    decreases |apps|
  {
    if |apps| == 0 then None
    else
      var rest := Highest(apps[1..], project);
      if apps[0].project != project then rest
      else if rest.None? || rest.value < apps[0].number then Some(apps[0].number)
      else rest
  }

  /** The highest number is the number of one of the project's
      applications. */
  lemma {:induction false} HighestAttained(apps: seq<PayAppRow>, project: int)
    requires Highest(apps, project).Some?
    ensures exists k :: 0 <= k < |apps| && apps[k].project == project && apps[k].number == Highest(apps, project).value
    decreases |apps|
  {
    var rest := Highest(apps[1..], project);
    if rest.Some? && Highest(apps, project) == rest {
      HighestAttained(apps[1..], project);
      var k :| 0 <= k < |apps[1..]| && apps[1..][k].project == project && apps[1..][k].number == rest.value;
      assert apps[k + 1] == apps[1..][k];
    } else {
      assert apps[0].project == project && apps[0].number == Highest(apps, project).value;
    }
  }

  /** The number of the next application: one past the project's highest,
      or 1 for its first. */
  function NextNumber(apps: seq<PayAppRow>, project: int): (n: int)
    ensures forall k :: 0 <= k < |apps| && apps[k].project == project ==> apps[k].number < n
    ensures (forall k :: 0 <= k < |apps| ==> apps[k].project != project) ==> n == 1
  {
    match Highest(apps, project)
    case None => 1
    case Some(h) => h + 1
  }

  /** `_create_pay_application`: a draft numbered after the project's
      others, for today; nothing when billing is not installed. */
  function CreatePayApp(i: Installation, apps: seq<PayAppRow>, hasBilling: bool, today: int): (r: seq<PayAppRow>)
    ensures !hasBilling ==> r == apps
    ensures hasBilling ==> r == apps + [PayAppRow(i.project, NextNumber(apps, i.project), today, today)]
  {
    if hasBilling then apps + [PayAppRow(i.project, NextNumber(apps, i.project), today, today)] else apps
  }

  /** `_create_pay_application` as written: the billing model is looked
      up with `env.get`, whose result is never true, so the method
      returns before creating anything. */
  function CreatePayAppAsWritten(i: Installation, apps: seq<PayAppRow>, hasBilling: bool, today: int): (r: seq<PayAppRow>)
    ensures r == apps
  {
    if !OdooEnv.Truthy(OdooEnv.EnvGet(hasBilling)) then apps
    else CreatePayApp(i, apps, hasBilling, today)
  }

  /** Application numbers stay unique within a project however many
      installations complete. */
  lemma {:induction false} PayAppNumbersUnique(i: Installation, apps: seq<PayAppRow>, today: int)
    requires forall a, b :: 0 <= a < b < |apps| && apps[a].project == apps[b].project ==> apps[a].number != apps[b].number
    ensures var r := CreatePayApp(i, apps, true, today);
      forall a, b :: 0 <= a < b < |r| && r[a].project == r[b].project ==> r[a].number != r[b].number
  {
    var r := CreatePayApp(i, apps, true, today);
    forall a, b | 0 <= a < b < |r| && r[a].project == r[b].project ensures r[a].number != r[b].number {
      if b == |apps| {
        assert r[a] == apps[a];
      }
    }
  }

  /** The first application of a project is number 1, the next number 2. */
  lemma FirstApplications(i: Installation, today: int)
    ensures CreatePayApp(i, [], true, today)[0].number == 1
    ensures CreatePayApp(i, CreatePayApp(i, [], true, today), true, today)[1].number == 2
  {
    var one := CreatePayApp(i, [], true, today);
    assert Highest(one, i.project) == Some(1);
  }

  /** Every project with the id gets the stage. */
  function SetStage(prs: seq<Projects.Project>, id: int, stage: Projects.Stage): (r: seq<Projects.Project>)
    ensures |r| == |prs|
    ensures forall k :: 0 <= k < |prs| ==> r[k] == (if prs[k].id == id then prs[k].(stage := stage) else prs[k])
  {
    seq(|prs|, k requires 0 <= k < |prs| => if prs[k].id == id then prs[k].(stage := stage) else prs[k])
  }

  /** Writing a stage twice is writing it once, a stage written for an id
      no project has changes nothing, and every project with the id then
      has the stage. */
  lemma {:induction false} SetStageFacts(prs: seq<Projects.Project>, id: int, stage: Projects.Stage)
    ensures SetStage(SetStage(prs, id, stage), id, stage) == SetStage(prs, id, stage)
    ensures (forall k :: 0 <= k < |prs| ==> prs[k].id != id) ==> SetStage(prs, id, stage) == prs
    ensures forall k :: 0 <= k < |prs| && prs[k].id == id ==> SetStage(prs, id, stage)[k].stage == stage
  {
    var once := SetStage(prs, id, stage);
    var twice := SetStage(once, id, stage);
    assert |twice| == |once|;
    forall k | 0 <= k < |once| ensures twice[k] == once[k] {
    }
    if forall k :: 0 <= k < |prs| ==> prs[k].id != id {
      forall k | 0 <= k < |prs| ensures once[k] == prs[k] {
      }
    }
  }

  /** What completing an installation touches. */
  datatype Site = Site(installation: Installation, instances: SignInstances.Store,
                       projects: seq<Projects.Project>, payApps: seq<PayAppRow>)

  /** `action_complete`: complete, ended now; every listed instance
      installed today; the project moved to punch list (when there is
      one); and a pay application created. */
  function Complete(s: Site, hasBilling: bool, now: int, today: int): (r: Site)
    ensures r.installation == s.installation.(state := Completed, actualEnd := Some(now))
    ensures r.instances == SignInstances.WriteAll(s.instances, s.installation.instances,
                                                  (x: SignInstances.Instance) => SignInstances.MarkInstalled(x, today))
    ensures s.installation.project == 0 ==> r.projects == s.projects
    ensures s.installation.project != 0 ==>
      r.projects == SetStage(s.projects, s.installation.project, Projects.Punchlist)
    ensures r.payApps == CreatePayApp(s.installation, s.payApps, hasBilling, today)
  {
    var i := s.installation.(state := Completed, actualEnd := Some(now));
    var store := SignInstances.WriteAll(s.instances, i.instances,
                                        (x: SignInstances.Instance) => SignInstances.MarkInstalled(x, today));
    var prs := if i.project != 0 then SetStage(s.projects, i.project, Projects.Punchlist) else s.projects;
    Site(i, store, prs, CreatePayApp(i, s.payApps, hasBilling, today))
  }

  /** `action_complete` as written: everything the corrected completion
      does except the pay application, which is never created. */
  function CompleteAsWritten(s: Site, hasBilling: bool, now: int, today: int): (r: Site)
    ensures r == Complete(s, hasBilling, now, today).(payApps := s.payApps)
  {
    var c := Complete(s, hasBilling, now, today);
    c.(payApps := CreatePayAppAsWritten(c.installation, s.payApps, hasBilling, today))
  }

  /** With billing installed, the corrected completion adds the project's
      next application while the code as written adds none. */
  lemma {:induction false} CompleteAsWrittenBillsNothing(s: Site, now: int, today: int)
    ensures |CompleteAsWritten(s, true, now, today).payApps| == |s.payApps|
    ensures var c := Complete(s, true, now, today);
      && |c.payApps| == |s.payApps| + 1
      && c.payApps[|s.payApps|].number == NextNumber(s.payApps, s.installation.project)
  {
    var c := Complete(s, true, now, today);
    assert c.payApps == CreatePayApp(c.installation, s.payApps, true, today);
  }

  /** After completion every listed instance on record is installed, so
      the installed count reaches the instance count, and the duration is
      the time since the start. */
  lemma {:induction false} CompleteInstallsAll(s: Site, hasBilling: bool, now: int, today: int)
    requires s.installation.instances <= s.instances.Keys
    requires s.installation.actualStart.Some?
    ensures var r := Complete(s, hasBilling, now, today);
      && Counts(r.installation, r.instances).1 == Counts(r.installation, r.instances).0
      && ActualDuration(r.installation) * 3600.0 == (now - s.installation.actualStart.value) as real
  {
    SignInstances.MarkAllInstalled(s.instances, s.installation.instances, today);
  }
}
