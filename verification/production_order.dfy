/** Production orders: the shop's stage actions, completion, and
    shipping, which hands the signs over to a field installation. */
module ProductionOrders {
  import opened Wrappers
  import Projects
  import SignInstances
  import Installations
  import Sums
  import OdooEnv

  datatype State = PoDraft | PoScheduled | Design | Fabrication | Assembly | Qc | PoComplete | Shipped

  /** A production order.  `project` is 0 when unset; the actual start and
      end are times in seconds. */
  datatype Order = Order(
    id: int, name: string, project: int, projectName: string, instances: set<int>,
    state: State, actualStart: Option<int>, actualEnd: Option<int>)

  /** The shop stage buttons. */
  datatype StageAction = Schedule | StartDesign | StartFabrication | StartAssembly | StartQc

  /** The state each button moves an order to. */
  function Target(a: StageAction): State {
    match a
    case Schedule => PoScheduled
    case StartDesign => Design
    case StartFabrication => Fabrication
    case StartAssembly => Assembly
    case StartQc => Qc
  }

  /** `action_schedule` … `action_start_qc`: each sets its state whatever
      the current one is; starting design also records the start time. */
  function Press(o: Order, a: StageAction, now: int): (r: Order)
    ensures r.state == Target(a)
    ensures a == StartDesign ==> r.actualStart == Some(now)
    ensures a != StartDesign ==> r.actualStart == o.actualStart
    ensures r == o.(state := r.state, actualStart := r.actualStart)
  {
    if a == StartDesign then o.(state := Design, actualStart := Some(now))
    else o.(state := Target(a))
  }

  /** No state is checked: from any order, every button reaches its
      target, even going backwards; pressing twice is pressing once. */
  lemma PressUnconditional(o: Order, a: StageAction, b: StageAction, now: int, later: int)
    ensures Press(Press(o, a, now), b, later).state == Target(b)
    ensures Press(o.(state := PoComplete), Schedule, now).state == PoScheduled
    ensures a != StartDesign ==> Press(Press(o, a, now), a, later) == Press(o, a, now)
  {
  }

  /** `action_complete`: complete, ended now, and every instance of the
      order in production. */
  function Complete(o: Order, store: SignInstances.Store, now: int): (r: (Order, SignInstances.Store))
    ensures r.0 == o.(state := PoComplete, actualEnd := Some(now))
    ensures r.1.Keys == store.Keys
    ensures forall k :: k in store && k in o.instances ==> r.1[k] == store[k].(state := SignInstances.InstProduction)
    ensures forall k :: k in store && k !in o.instances ==> r.1[k] == store[k]
  {
    (o.(state := PoComplete, actualEnd := Some(now)),
     SignInstances.WriteAll(store, o.instances, (x: SignInstances.Instance) => x.(state := SignInstances.InstProduction)))
  }

  /** Days between shipping and the default installation date. */
  const InstallLeadDays: int := 7

  /** The first installation of the project, if any. */
  function InstallationOf(ins: seq<Installations.Installation>, project: int): (k: Option<nat>)
    ensures k.Some? ==> k.value < |ins| && ins[k.value].project == project
    ensures k.Some? ==> forall j :: 0 <= j < k.value ==> ins[j].project != project
    ensures k.None? <==> forall j :: 0 <= j < |ins| ==> ins[j].project != project
  {
    Sums.FindFirst(ins, (i: Installations.Installation) => i.project == project)
  }

  /** `_create_installation`: the project's existing installation, or a
      new one named "INST-{project}" scheduled a week from today with the
      order's instances; nothing when field service is not installed. */
  function CreateInstallation(o: Order, ins: seq<Installations.Installation>, hasFieldService: bool,
                              today: int, newId: int): (r: (Option<int>, seq<Installations.Installation>))
    ensures !hasFieldService ==> r == (None, ins)
    ensures hasFieldService && InstallationOf(ins, o.project).Some? ==>
      r == (Some(ins[InstallationOf(ins, o.project).value].id), ins)
    ensures hasFieldService && InstallationOf(ins, o.project).None? ==>
      r == (Some(newId), ins + [Installations.Installation(newId, "INST-" + o.projectName, o.project,
                                                           today + InstallLeadDays, o.instances,
                                                           Installations.Scheduled, None, None)])
  {
    if !hasFieldService then (None, ins)
    else match InstallationOf(ins, o.project)
      case Some(k) => (Some(ins[k].id), ins)
      case None =>
        (Some(newId), ins + [Installations.Installation(newId, "INST-" + o.projectName, o.project,
                                                        today + InstallLeadDays, o.instances,
                                                        Installations.Scheduled, None, None)])
  }

  /** `_create_installation` as written: the installation model is
      looked up with `env.get`, whose result is never true, so the method
      returns `False` before searching or creating. */
  function CreateInstallationAsWritten(o: Order, ins: seq<Installations.Installation>, hasFieldService: bool,
                                       today: int, newId: int): (r: (Option<int>, seq<Installations.Installation>))
    ensures r == (None, ins)
  {
    if !OdooEnv.Truthy(OdooEnv.EnvGet(hasFieldService)) then (None, ins)
    else CreateInstallation(o, ins, hasFieldService, today, newId)
  }

  /** What shipping touches. */
  datatype Floor = Floor(order: Order, projects: seq<Projects.Project>, installations: seq<Installations.Installation>)

  /** `action_ship` for one order: shipped, the project moved to shipping
      (when there is one), and an installation ensured. */
  function Ship(f: Floor, hasFieldService: bool, today: int, newId: int): (r: Floor)
    ensures r.order == f.order.(state := Shipped)
    ensures f.order.project == 0 ==> r.projects == f.projects
    ensures f.order.project != 0 ==> r.projects == Installations.SetStage(f.projects, f.order.project, Projects.Shipping)
    ensures r.installations == CreateInstallation(f.order, f.installations, hasFieldService, today, newId).1
  {
    var o := f.order.(state := Shipped);
    var prs := if o.project != 0 then Installations.SetStage(f.projects, o.project, Projects.Shipping) else f.projects;
    Floor(o, prs, CreateInstallation(o, f.installations, hasFieldService, today, newId).1)
  }

  /** `action_ship` as written: the order is shipped and the project
      moved on, but no installation is ever created. */
  function ShipAsWritten(f: Floor, hasFieldService: bool, today: int, newId: int): (r: Floor)
    ensures r == Ship(f, hasFieldService, today, newId).(installations := f.installations)
  {
    var s := Ship(f, hasFieldService, today, newId);
    s.(installations := CreateInstallationAsWritten(s.order, f.installations, hasFieldService, today, newId).1)
  }

  /** Shipping an order whose project has no installation: the corrected
      action schedules one, the code as written leaves the project
      without any. */
  lemma {:induction false} ShipAsWrittenInstallsNothing(f: Floor, today: int, newId: int)
    requires InstallationOf(f.installations, f.order.project).None?
    ensures InstallationOf(ShipAsWritten(f, true, today, newId).installations, f.order.project).None?
    ensures InstallationOf(Ship(f, true, today, newId).installations, f.order.project).Some?
  {
    var r := Ship(f, true, today, newId);
    assert r.installations[|f.installations|].project == f.order.project;
  }

  /** After shipping the project has exactly the installations it had,
      or one new one when it had none: shipping a second order of the
      same project adds nothing. */
  lemma {:induction false} ShipEnsuresOneInstallation(f: Floor, today: int, newId: int, o2: Order, later: int, id2: int)
    requires o2.project == f.order.project
    ensures var r := Ship(f, true, today, newId);
      && InstallationOf(r.installations, f.order.project).Some?
      && |r.installations| <= |f.installations| + 1
      && Ship(Floor(o2, r.projects, r.installations), true, later, id2).installations == r.installations
  {
    var r := Ship(f, true, today, newId);
    if InstallationOf(f.installations, f.order.project).None? {
      assert r.installations[|f.installations|].project == f.order.project;
    }
  }

  /** A new installation is scheduled a week out, carrying every sign of
      the order, waiting to be confirmed. */
  lemma NewInstallationFields(f: Floor, today: int, newId: int)
    requires InstallationOf(f.installations, f.order.project).None?
    ensures var r := Ship(f, true, today, newId);
      var n := r.installations[|r.installations| - 1];
      && |r.installations| == |f.installations| + 1
      && n.scheduledDate == today + 7 && n.instances == f.order.instances
      && n.state == Installations.Scheduled && n.project == f.order.project
      && n.name == "INST-" + f.order.projectName
  {
  }
}
