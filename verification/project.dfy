/** Projects as the sign contract add-on extends them (`project.project`):
    finding a project by the name of one of its tasks, the sign counts it
    reads from its opportunity, and turning a won opportunity into a
    project without ever creating a second one. */
module Projects {
  import opened Wrappers
  import opened Sums
  import Text
  import TimePunches
  import Hours

  // ---------------------------------------------------------------------
  // Name search
  // ---------------------------------------------------------------------

  /** Keeps the first occurrence of every id not in `seen`, in order. */
  function DedupFrom(s: seq<int>, seen: set<int>): seq<int>
    decreases |s|
  {
    if |s| == 0 then []
    else if s[0] in seen then DedupFrom(s[1..], seen)
    else [s[0]] + DedupFrom(s[1..], seen + {s[0]})
  }

  /** The result holds exactly the ids of `s` not in `seen`, each once. */
  lemma {:induction false} DedupFromSpec(s: seq<int>, seen: set<int>)
    ensures var r := DedupFrom(s, seen);
      && (forall x :: x in r <==> x in s && x !in seen)
      && (forall i, j :: 0 <= i < j < |r| ==> r[i] != r[j])
    decreases |s|
  {
    if |s| > 0 {
      var rest := s[1..];
      assert forall x :: x in s <==> x == s[0] || x in rest;
      if s[0] in seen {
        DedupFromSpec(rest, seen);
      } else {
        DedupFromSpec(rest, seen + {s[0]});
        var t := DedupFrom(rest, seen + {s[0]});
        assert DedupFrom(s, seen) == [s[0]] + t;
        assert s[0] !in t;
      }
    }
  }

  /** `list(dict.fromkeys(s))`: duplicates removed, first occurrences
      kept in order. */
  function Dedup(s: seq<int>): seq<int> {
    DedupFrom(s, {})
  }

  /** The values `s` holds. */
  function Members(s: seq<int>): (m: set<int>)
    ensures forall x :: x in m <==> x in s
    decreases |s|
  {
    if |s| == 0 then {} else {s[0]} + Members(s[1..])
  }

  /** Deduplicating a concatenation deduplicates the first part, then
      keeps what the second adds. */
  lemma {:induction false} DedupFromAppend(a: seq<int>, b: seq<int>, seen: set<int>)
    ensures DedupFrom(a + b, seen) == DedupFrom(a, seen) + DedupFrom(b, seen + Members(a))
    decreases |a|
  {
    if |a| == 0 {
      assert a + b == b;
      assert seen + Members(a) == seen;
    } else {
      var rest := a[1..];
      assert (a + b)[1..] == rest + b;
      var later := seen + Members(a);
      if a[0] in seen {
        DedupFromAppend(rest, b, seen);
        calc {
          DedupFrom(a + b, seen);
          DedupFrom(rest + b, seen);
          DedupFrom(rest, seen) + DedupFrom(b, seen + Members(rest));
          { assert seen + Members(rest) == later; }
          DedupFrom(a, seen) + DedupFrom(b, later);
        }
      } else {
        var seen' := seen + {a[0]};
        DedupFromAppend(rest, b, seen');
        calc {
          DedupFrom(a + b, seen);
          [a[0]] + DedupFrom(rest + b, seen');
          [a[0]] + (DedupFrom(rest, seen') + DedupFrom(b, seen' + Members(rest)));
          { assert seen' + Members(rest) == later; }
          [a[0]] + (DedupFrom(rest, seen') + DedupFrom(b, later));
          ([a[0]] + DedupFrom(rest, seen')) + DedupFrom(b, later);
          DedupFrom(a, seen) + DedupFrom(b, later);
        }
      }
    }
  }

  /** A sequence without duplicates is its own deduplication. */
  lemma {:induction false} DedupFromDistinct(s: seq<int>, seen: set<int>)
    requires forall i, j :: 0 <= i < j < |s| ==> s[i] != s[j]
    requires forall x :: x in s ==> x !in seen
    ensures DedupFrom(s, seen) == s
    decreases |s|
  {
    if |s| > 0 {
      DedupFromDistinct(s[1..], seen + {s[0]});
    }
  }

  /** Whether the search also looks at task names. */
  predicate SearchesTasks(name: string, op: string) {
    name != "" && op in {"ilike", "like", "="}
  }

  function Limit(ids: seq<int>, limit: nat): (r: seq<int>)
    ensures limit == 0 ==> r == ids
    ensures limit != 0 ==> r == ids[..if |ids| < limit then |ids| else limit]
  {
    if limit != 0 && limit < |ids| then ids[..limit] else ids
  }

  /** `_name_search`: `standard` is what the ordinary search returns and
      `taskProjects` the projects of the tasks the task search finds, in
      order.  For a non-empty name with `ilike`, `like` or `=`, the task
      projects are appended and duplicates removed, first occurrences
      first; a non-zero `limit` then truncates. */
  function NameSearch(standard: seq<int>, name: string, op: string, limit: nat, taskProjects: seq<int>): (r: seq<int>)
    ensures limit != 0 ==> |r| <= limit
    ensures !SearchesTasks(name, op) || |taskProjects| == 0 ==> r == Limit(standard, limit)
    ensures SearchesTasks(name, op) && |taskProjects| > 0 ==> r == Limit(Dedup(standard + taskProjects), limit)
  {
    if SearchesTasks(name, op) && |taskProjects| > 0 then Limit(Dedup(standard + taskProjects), limit)
    else Limit(standard, limit)
  }

  /** Searching by task name keeps the ordinary results first, in their
      order, and adds each further project once; nothing is lost unless
      the limit cuts it off. */
  lemma NameSearchExtends(standard: seq<int>, name: string, op: string, taskProjects: seq<int>)
    requires SearchesTasks(name, op)
    requires forall i, j :: 0 <= i < j < |standard| ==> standard[i] != standard[j]
    ensures var r := NameSearch(standard, name, op, 0, taskProjects);
      && standard <= r
      && (forall x :: x in r <==> x in standard || x in taskProjects)
      && (forall i, j :: 0 <= i < j < |r| ==> r[i] != r[j])
  {
    if |taskProjects| > 0 {
      DedupFromAppend(standard, taskProjects, {});
      DedupFromDistinct(standard, {});
      DedupFromSpec(standard + taskProjects, {});
    }
  }

  // ---------------------------------------------------------------------
  // Projects from opportunities
  // ---------------------------------------------------------------------

  /** The stages a project moves through. */
  datatype Stage = ContractStage | Submittals | ApprovedStage | Production | Shipping
                 | Installation | Punchlist | Closeout | CompleteStage

  /** The opportunity fields copied onto its project. */
  datatype Details = Details(
    name: string, alias: string, gc: int, owner: int, architect: int,
    address: string, city: string, state: int, zip: string, projectType: string)

  /** A project; `opportunity` is 0 when it has none. */
  datatype Project = Project(
    id: int, opportunity: int, details: Details, awardDate: Option<int>,
    stage: Stage, allowTimesheets: bool)

  /** An opportunity and the sign types on it, by quantity. */
  datatype Opportunity = Opportunity(id: int, details: Details, signQuantities: seq<int>)

  /** `_compute_sign_counts`: the opportunity's sign types and their total
      quantity; both 0 for a project without an opportunity. */
  function SignCounts(p: Project, opp: Opportunity): (r: (nat, int))
    requires p.opportunity != 0 ==> opp.id == p.opportunity
    ensures p.opportunity == 0 ==> r == (0, 0)
    ensures p.opportunity != 0 ==> r.0 == |opp.signQuantities|
    ensures p.opportunity != 0 ==> r.1 == SumInt(opp.signQuantities, (q: int) => q)
  {
    if p.opportunity != 0 then (|opp.signQuantities|, SumInt(opp.signQuantities, (q: int) => q)) else (0, 0)
  }

  /** A task as far as the "General" task check needs it. */
  datatype TaskRow = TaskRow(id: int, name: string, project: int)

  const GeneralTaskName: string := "General - Project Time"

  /** `('name', 'ilike', 'General')`. */
  predicate IsGeneral(t: TaskRow, project: int) {
    t.project == project && Text.Contains(Text.Lower(t.name), "general")
  }

  /** The opportunity link of each project, as the time clock sees it. */
  function Links(ps: seq<Project>): (ls: seq<Hours.Project>)
    ensures |ls| == |ps|
    ensures forall j :: 0 <= j < |ps| ==> ls[j].id == ps[j].id && ls[j].opportunity == ps[j].opportunity
  {
    seq(|ps|, j requires 0 <= j < |ps| => Hours.Project(ps[j].id, ps[j].opportunity))
  }

  /** The first project created from the opportunity, if any: the same
      lookup as the time clock's linked project. */
  function ProjectOf(ps: seq<Project>, opp: int): (k: Option<nat>)
    ensures k.Some? ==> k.value < |ps| && ps[k.value].opportunity == opp
    ensures k.Some? ==> forall j :: 0 <= j < k.value ==> ps[j].opportunity != opp
    ensures k.None? <==> forall j :: 0 <= j < |ps| ==> ps[j].opportunity != opp
  {
    Hours.LinkedProject(Links(ps), opp)
  }

  /** Moves a punch logged on the opportunity onto the project. */
  function MovePunch(p: TimePunches.Punch, opp: int, project: int): (q: TimePunches.Punch)
    ensures p.opportunity == opp ==> q == p.(project := project, opportunity := 0)
    ensures p.opportunity != opp ==> q == p
  {
    if p.opportunity == opp then p.(project := project, opportunity := 0) else p
  }

  function MovePunches(ps: seq<TimePunches.Punch>, opp: int, project: int): (r: seq<TimePunches.Punch>)
    ensures |r| == |ps|
    ensures forall k :: 0 <= k < |r| ==> r[k] == MovePunch(ps[k], opp, project)
  {
    seq(|ps|, k requires 0 <= k < |ps| => MovePunch(ps[k], opp, project))
  }

  /** The records `create_from_opportunity` works on. */
  datatype World = World(projects: seq<Project>, tasks: seq<TaskRow>, punches: seq<TimePunches.Punch>)

  /** `create_from_opportunity`: the opportunity's existing project is
      updated with its details, or else a new project made; a "General"
      task is added unless one already matches; and every punch logged on
      the opportunity moves to the project.  Returns the project's id. */
  function CreateFromOpportunity(w: World, opp: Opportunity, today: int, newProject: int, newTask: int): (r: (World, int))
    requires opp.id != 0
    ensures ProjectOf(w.projects, opp.id).Some? ==>
      var k := ProjectOf(w.projects, opp.id).value;
      r.1 == w.projects[k].id && |r.0.projects| == |w.projects| && r.0.projects == w.projects[k := r.0.projects[k]]
    ensures ProjectOf(w.projects, opp.id).None? ==>
      r.1 == newProject && |r.0.projects| == |w.projects| + 1 && r.0.projects[..|w.projects|] == w.projects
    ensures (exists j :: 0 <= j < |w.tasks| && IsGeneral(w.tasks[j], r.1)) ==> r.0.tasks == w.tasks
    ensures (forall j :: 0 <= j < |w.tasks| ==> !IsGeneral(w.tasks[j], r.1)) ==>
      r.0.tasks == w.tasks + [TaskRow(newTask, GeneralTaskName, r.1)]
    ensures r.0.punches == MovePunches(w.punches, opp.id, r.1)
  {
    var vals := Project(0, opp.id, opp.details, Some(today), ContractStage, true);
    var (projects, pid) := match ProjectOf(w.projects, opp.id)
      case Some(k) => (w.projects[k := vals.(id := w.projects[k].id)], w.projects[k].id)
      case None => (w.projects + [vals.(id := newProject)], newProject);
    assert ProjectOf(w.projects, opp.id).None? ==> projects[..|w.projects|] == w.projects;
    var hasGeneral := exists j :: 0 <= j < |w.tasks| && IsGeneral(w.tasks[j], pid);
    var tasks := if hasGeneral then w.tasks else w.tasks + [TaskRow(newTask, GeneralTaskName, pid)];
    (World(projects, tasks, MovePunches(w.punches, opp.id, pid)), pid)
  }

  /** The task this action names "General - Project Time" matches the
      "General" check itself. */
  lemma GeneralTaskIsGeneral(id: int, project: int)
    ensures IsGeneral(TaskRow(id, GeneralTaskName, project), project)
  {
    var l := Text.Lower(GeneralTaskName);
    assert l[..7] == "general";
    assert Text.StartsWith(l, "general");
  }

  /** After the action the project carries the opportunity and its
      details, and no punch is left on the opportunity. */
  lemma CreateLinksProject(w: World, opp: Opportunity, today: int, newProject: int, newTask: int)
    requires opp.id != 0
    ensures var (w1, pid) := CreateFromOpportunity(w, opp, today, newProject, newTask);
      && ProjectOf(w1.projects, opp.id).Some?
      && w1.projects[ProjectOf(w1.projects, opp.id).value].id == pid
      && w1.projects[ProjectOf(w1.projects, opp.id).value].details == opp.details
      && forall k :: 0 <= k < |w1.punches| ==> w1.punches[k].opportunity != opp.id
  {
    var (w1, pid) := CreateFromOpportunity(w, opp, today, newProject, newTask);
    match ProjectOf(w.projects, opp.id) {
      case Some(k) =>
        assert w1.projects[k].opportunity == opp.id;
        assert forall j :: 0 <= j < k ==> w1.projects[j] == w.projects[j];
        assert ProjectOf(w1.projects, opp.id) == Some(k) by {
          FirstMatchStable(w1.projects, opp.id, k);
        }
      case None =>
        var n := |w.projects|;
        assert forall j :: 0 <= j < n ==> w1.projects[j].opportunity != opp.id;
        assert w1.projects[n].opportunity == opp.id;
        FirstMatchStable(w1.projects, opp.id, n);
    }
  }

  /** A project on the opportunity at `k`, with none before it, is the
      one found. */
  lemma {:induction false} FirstMatchStable(b: seq<Project>, opp: int, k: nat)
    requires k < |b| && b[k].opportunity == opp
    requires forall j :: 0 <= j < k ==> b[j].opportunity != opp
    ensures ProjectOf(b, opp) == Some(k)
    decreases k
  {
    if k > 0 {
      assert forall j :: 0 <= j < k - 1 ==> b[1..][j] == b[j + 1];
      FirstMatchStable(b[1..], opp, k - 1);
    }
  }

  /** Converting the same opportunity again creates no second project and
      no second "General" task, and returns the same project. */
  lemma CreateTwiceAddsNothing(w: World, opp: Opportunity, today: int, later: int,
                               p1: int, t1: int, p2: int, t2: int)
    requires opp.id != 0
    ensures var (w1, pid) := CreateFromOpportunity(w, opp, today, p1, t1);
      var (w2, pid2) := CreateFromOpportunity(w1, opp, later, p2, t2);
      && pid2 == pid
      && |w2.projects| == |w1.projects|
      && w2.tasks == w1.tasks
  {
    var (w1, pid) := CreateFromOpportunity(w, opp, today, p1, t1);
    CreateLinksProject(w, opp, today, p1, t1);
    if forall j :: 0 <= j < |w.tasks| ==> !IsGeneral(w.tasks[j], pid) {
      GeneralTaskIsGeneral(t1, pid);
      assert IsGeneral(w1.tasks[|w.tasks|], pid);
    }
  }

  /** Moving the opportunity's punches onto its project keeps the
      project's total time: what was counted as bidding time is now
      counted as project time, as long as no closed punch was already on
      both. */
  lemma {:induction false} MoveKeepsProjectHours(ps: seq<TimePunches.Punch>, opp: int, project: int)
    requires opp != 0
    requires forall k :: 0 <= k < |ps| ==>
      !(ps[k].state == TimePunches.Closed && ps[k].project == project && ps[k].opportunity == opp)
    ensures Hours.ProjectHours(Hours.Project(project, opp), MovePunches(ps, opp, project)).totalHours
         == Hours.ProjectHours(Hours.Project(project, opp), ps).totalHours
  {
    var moved := MovePunches(ps, opp, project);
    var onP := (x: TimePunches.Punch) => Hours.ClosedOnProject(x, project);
    var onO := (x: TimePunches.Punch) => Hours.ClosedOnOpportunity(x, opp);
    var g1 := (x: TimePunches.Punch) => if onP(x) then x.durationHours else 0.0;
    var g2 := (x: TimePunches.Punch) => if onO(x) then x.durationHours else 0.0;
    var gm := (x: TimePunches.Punch) => g1(MovePunch(x, opp, project));
    SumFilter(moved, onP, Hours.Duration, g1);
    SumFilter(moved, onO, Hours.Duration, g2);
    SumFilter(ps, onP, Hours.Duration, g1);
    SumFilter(ps, onO, Hours.Duration, g2);
    SumPointwise(moved, ps, g1, gm);
    SumAdd(ps, g1, g2, gm);
    SumZero(moved, g2);
  }
}
