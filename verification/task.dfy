/** Project tasks as the time clock extends them (`project.task`): who is
    assigned, the work state from assignment to verification, the task's
    barcode, and the employee's work queue. */
module Tasks {
  import opened Wrappers
  import opened Numerals
  import Text
  import opened Sums
  import opened TimePunches
  import Kiosk

  // The error messages the operations raise.
  const NoEmployee := "No employee record linked to your user account."
  const NotAssigned := "You are not assigned to this task."
  const NotComplete := "Can only verify completed tasks."

  datatype WorkState = NotStarted | Assigned | InProgress | Complete | Verified

  /** A task; `project`, `assignedBy` and `verifiedBy` are 0 when unset,
      and the dates are `None` when unset. */
  datatype Task = Task(
    id: int, name: string, project: int, workers: set<int>, priority: int,
    assignedBy: int, assignedDate: Option<int>, workState: WorkState,
    isVerified: bool, verifiedBy: int, verifiedDate: Option<int>)

  // ---------------------------------------------------------------------
  // Assignment
  // ---------------------------------------------------------------------

  /** `action_assign_to_user`: the user joins the assigned workers, the
      assigning user and time are recorded, and a task not yet started
      becomes assigned; any other state is kept. */
  function AssignToUser(t: Task, u: int, actor: int, now: int): (r: Task)
    ensures r.workers == t.workers + {u}
    ensures r.workState == (if t.workState == NotStarted then Assigned else t.workState)
    ensures r == t.(workers := r.workers, assignedBy := actor, assignedDate := Some(now), workState := r.workState)
  {
    t.(workers := t.workers + {u}, assignedBy := actor, assignedDate := Some(now),
       workState := if t.workState == NotStarted then Assigned else t.workState)
  }

  /** `action_unassign_user`: the user leaves the assigned workers; an
      assigned task nobody is left on goes back to not started. */
  function UnassignUser(t: Task, u: int): (r: Task)
    ensures r.workers == t.workers - {u}
    ensures r.workState == (if r.workers == {} && t.workState == Assigned then NotStarted else t.workState)
    ensures r == t.(workers := r.workers, workState := r.workState)
  {
    var a := t.workers - {u};
    t.(workers := a, workState := if a == {} && t.workState == Assigned then NotStarted else t.workState)
  }

  /** Assigning a single worker to an unassigned task and taking them off
      again restores the workers and the state. */
  lemma AssignUnassign(t: Task, u: int, actor: int, now: int)
    requires t.workers == {} && t.workState == NotStarted
    ensures var r := UnassignUser(AssignToUser(t, u, actor, now), u);
      r.workers == t.workers && r.workState == t.workState
  {
    assert {u} - {u} == {};
  }

  /** Unassigning never moves a task that was started, completed or
      verified. */
  lemma UnassignKeepsProgress(t: Task, u: int)
    requires t.workState in {InProgress, Complete, Verified}
    ensures UnassignUser(t, u).workState == t.workState
  {
  }

  // ---------------------------------------------------------------------
  // Starting, completing and verifying work
  // ---------------------------------------------------------------------

  /** Whether the user may work on the task: anybody while nobody is
      assigned, else only the assigned workers. */
  predicate MayWork(t: Task, user: int) {
    t.workers == {} || user in t.workers
  }

  /** The state `action_start_work` leaves: not started and assigned
      become in progress; any other state is kept. */
  function Started(w: WorkState): (r: WorkState)
    ensures w in {NotStarted, Assigned} ==> r == InProgress
    ensures w !in {NotStarted, Assigned} ==> r == w
  {
    if w == NotStarted || w == Assigned then InProgress else w
  }

  /** `action_start_work` for the current user and their employee record
      (0 when none): errors without an employee or for a user not among
      the assigned workers; otherwise the employee's open punch is closed,
      a punch opened on this task, and the work state advanced. */
  function StartWork(s: Store, t: Task, user: int, employee: int, now: int, names: int -> string,
                     punchId: int, sheetId: int): (r: Result<(Store, Task)>)
    ensures employee == 0 ==> r.Err?
    ensures !MayWork(t, user) ==> r.Err?
    ensures r.Ok? ==>
      && Ok(r.value.0) == Kiosk.Switch(s, employee,
           Kiosk.NewPunch(punchId, employee, user, t.project, t.id, "Started: " + t.name, now),
           now, names, sheetId)
      && r.value.1 == t.(workState := Started(t.workState))
  {
    if employee == 0 then Err(NoEmployee)
    else if !MayWork(t, user) then Err(NotAssigned)
    else
      var s1 :- Kiosk.Switch(s, employee,
                  Kiosk.NewPunch(punchId, employee, user, t.project, t.id, "Started: " + t.name, now),
                  now, names, sheetId);
      Ok((s1, t.(workState := Started(t.workState))))
  }

  /** After starting work the employee's one open punch is on this task. */
  lemma StartWorkOpensTaskPunch(s: Store, t: Task, user: int, employee: int, now: int, names: int -> string,
                                punchId: int, sheetId: int)
    requires OneActiveEach(s.punches)
    requires StartWork(s, t, user, employee, now, names, punchId, sheetId).Ok?
    ensures var ps := StartWork(s, t, user, employee, now, names, punchId, sheetId).value.0.punches;
      && OneActiveEach(ps)
      && ActivePunch(ps, employee).Some?
      && ps[ActivePunch(ps, employee).value].task == t.id
  {
    Kiosk.SwitchKeepsOneActive(s, employee,
      Kiosk.NewPunch(punchId, employee, user, t.project, t.id, "Started: " + t.name, now), now, names, sheetId);
  }

  predicate OpenOnTask(p: Punch, task: int, employee: int) {
    p.task == task && IsActiveFor(p, employee)
  }

  /** The search in `action_mark_complete`: the first open punch of the
      employee on the task. */
  function OpenOnTaskIndex(ps: seq<Punch>, task: int, employee: int): (k: Option<nat>)
    ensures k.Some? ==> k.value < |ps| && OpenOnTask(ps[k.value], task, employee)
    ensures k.None? <==> forall j :: 0 <= j < |ps| ==> !OpenOnTask(ps[j], task, employee)
  {
    Sums.FindFirst(ps, (p: Punch) => OpenOnTask(p, task, employee))
  }

  /** `action_mark_complete`: with an employee, their open punch on this
      task (if any) is clocked out; the task becomes complete from any
      state. */
  function MarkComplete(s: Store, t: Task, employee: int, now: int, names: int -> string, sheetId: int): (r: Result<(Store, Task)>)
    ensures r.Ok? ==> r.value.1 == t.(workState := Complete)
    ensures employee == 0 ==> r == Ok((s, t.(workState := Complete)))
    ensures employee != 0 && OpenOnTaskIndex(s.punches, t.id, employee).None? ==> r == Ok((s, t.(workState := Complete)))
    ensures employee != 0 && OpenOnTaskIndex(s.punches, t.id, employee).Some? ==>
      var i := OpenOnTaskIndex(s.punches, t.id, employee).value;
      && (r.Ok? <==> ClockOutAt(s, i, now, names(t.project), sheetId).Ok?)
      && (r.Ok? ==> r.value.0 == ClockOutAt(s, i, now, names(t.project), sheetId).value)
  {
    if employee == 0 then Ok((s, t.(workState := Complete)))
    else
      match OpenOnTaskIndex(s.punches, t.id, employee)
      case None => Ok((s, t.(workState := Complete)))
      case Some(i) =>
        var s1 :- ClockOutAt(s, i, now, names(t.project), sheetId);
        Ok((s1, t.(workState := Complete)))
  }

  /** Once a task is marked complete, the employee who marked it holds no
      open punch on it. */
  lemma {:induction false} CompleteLeavesNoOpenPunch(s: Store, t: Task, employee: int, now: int, names: int -> string, sheetId: int)
    requires OneActiveEach(s.punches) && employee != 0
    requires MarkComplete(s, t, employee, now, names, sheetId).Ok?
    ensures OpenOnTaskIndex(MarkComplete(s, t, employee, now, names, sheetId).value.0.punches, t.id, employee).None?
  {
    match OpenOnTaskIndex(s.punches, t.id, employee) {
      case None =>
      case Some(i) =>
        var ps := MarkComplete(s, t, employee, now, names, sheetId).value.0.punches;
        ClockOutAtCount(s, i, now, names(t.project), sheetId, employee);
        Kiosk.ActiveCountPositive(s.punches, i, employee);
        ActiveCountNone(ps, employee);
    }
  }

  /** `action_verify`: only a complete task can be verified; verifying
      records who and when. */
  function Verify(t: Task, user: int, now: int): (r: Result<Task>)
    ensures t.workState != Complete <==> r.Err?
    ensures r.Ok? ==> r.value.workState == Verified && r.value.isVerified
    ensures r.Ok? ==> r.value == t.(workState := Verified, isVerified := true, verifiedBy := user, verifiedDate := Some(now))
  {
    if t.workState != Complete then Err(NotComplete)
    else Ok(t.(workState := Verified, isVerified := true, verifiedBy := user, verifiedDate := Some(now)))
  }

  /** A task can be verified once only. */
  lemma VerifyOnce(t: Task, user: int, now: int, user2: int, later: int)
    requires Verify(t, user, now).Ok?
    ensures Verify(Verify(t, user, now).value, user2, later).Err?
  {
  }

  // ---------------------------------------------------------------------
  // Barcodes
  // ---------------------------------------------------------------------

  /** What every task barcode starts with. */
  const BarcodePrefix := "TASK-"

  /** `_compute_task_barcode`: "TASK-project-id" for a saved task with a
      project, else none. */
  function Barcode(t: Task): (b: Option<string>)
    ensures b.Some? <==> t.id != 0 && t.project != 0
    ensures b.Some? ==> b.value == BarcodePrefix + IntText(t.project) + "-" + IntText(t.id)
  {
    if t.id != 0 && t.project != 0 then Some(BarcodePrefix + IntText(t.project) + "-" + IntText(t.id)) else None
  }

  /** In digits followed by a dash, the first dash is the one after the
      digits. */
  lemma {:induction false} DashAfterDigits(a: string, b: string)
    requires AllDigits(a)
    ensures Text.IndexOf(a + "-" + b, '-') == |a|
  {
    var x := a + "-" + b;
    assert x[|a|] == '-';
    assert forall j :: 0 <= j < |a| ==> x[j] == a[j] && IsDigit(a[j]);
  }

  /** Two saved tasks with the same barcode have the same id and project:
      the digits of the project end at the first dash after "TASK-". */
  lemma {:induction false} BarcodeInjective(t: Task, u: Task)
    requires t.id > 0 && t.project > 0 && u.id > 0 && u.project > 0
    requires Barcode(t) == Barcode(u)
    ensures t.id == u.id && t.project == u.project
  {
    var a, b, c, d := IntText(t.project), IntText(t.id), IntText(u.project), IntText(u.id);
    CodeSplit(a, b, c, d);
    IntTextInjective(t.project, u.project);
    IntTextInjective(t.id, u.id);
  }

  /** A barcode whose project part is digits splits back into its two
      parts. */
  lemma {:induction false} CodeSplit(a: string, b: string, c: string, d: string)
    requires AllDigits(a) && AllDigits(c)
    requires BarcodePrefix + a + "-" + b == BarcodePrefix + c + "-" + d
    ensures a == c && b == d
  {
    var x, y := a + "-" + b, c + "-" + d;
    assert BarcodePrefix + a + "-" + b == BarcodePrefix + x;
    assert BarcodePrefix + c + "-" + d == BarcodePrefix + y;
    PrefixCancel(BarcodePrefix, x, y);
    DashSplit(a, b, c, d);
  }

  lemma {:induction false} PrefixCancel(p: string, x: string, y: string)
    requires p + x == p + y
    ensures x == y
  {
    assert (p + x)[|p|..] == x;
    assert (p + y)[|p|..] == y;
  }

  /** Two digit runs each followed by a dash and a tail split the same
      way when the whole strings agree. */
  lemma {:induction false} DashSplit(a: string, b: string, c: string, d: string)
    requires AllDigits(a) && AllDigits(c)
    requires a + "-" + b == c + "-" + d
    ensures a == c && b == d
  {
    var s := a + "-" + b;
    DashAfterDigits(a, b);
    DashAfterDigits(c, d);
    assert s[..|a|] == a;
    assert s[..|c|] == c;
    assert s[|a| + 1..] == b;
    assert s[|c| + 1..] == d;
  }

  /** The reply of `scan_task_barcode`. */
  datatype ScanReply = NotFound(message: string) | Switched(task: int, taskName: string)

  /** Whether the task's barcode is `code`. */
  predicate Carries(t: Task, code: string) {
    Barcode(t) == Some(code)
  }

  /** The first task carrying the barcode. */
  function FindBarcode(ts: seq<Task>, code: string): (k: Option<nat>)
    ensures k.Some? ==> k.value < |ts| && Carries(ts[k.value], code)
    ensures k.Some? ==> forall j :: 0 <= j < k.value ==> !Carries(ts[j], code)
    ensures k.None? <==> forall j :: 0 <= j < |ts| ==> !Carries(ts[j], code)
  {
    FindFirst(ts, (t: Task) => Carries(t, code))
  }

  /** `scan_task_barcode`: an unknown barcode answers "task not found"
      and changes nothing; a known one starts work on its task. */
  function ScanBarcode(s: Store, ts: seq<Task>, code: string, user: int, employee: int, now: int,
                       names: int -> string, punchId: int, sheetId: int): (r: Result<(Store, seq<Task>, ScanReply)>)
    ensures FindBarcode(ts, code).None? ==>
      r == Ok((s, ts, NotFound("No task found with barcode: " + code)))
    ensures FindBarcode(ts, code).Some? ==>
      var k := FindBarcode(ts, code).value;
      var w := StartWork(s, ts[k], user, employee, now, names, punchId, sheetId);
      && (r.Ok? <==> w.Ok?)
      && (r.Ok? ==> r.value == (w.value.0, ts[k := w.value.1], Switched(ts[k].id, ts[k].name)))
  {
    match FindBarcode(ts, code)
    case None => Ok((s, ts, NotFound("No task found with barcode: " + code)))
    case Some(k) =>
      var w :- StartWork(s, ts[k], user, employee, now, names, punchId, sheetId);
      Ok((w.0, ts[k := w.1], Switched(ts[k].id, ts[k].name)))
  }

  /** Scanning a saved task's own barcode switches to that task, when no
      two tasks share an id. */
  lemma ScanFindsOwnTask(ts: seq<Task>, k: int)
    requires 0 <= k < |ts| && ts[k].id > 0 && ts[k].project > 0
    requires forall j :: 0 <= j < |ts| ==> ts[j].id > 0 && ts[j].project > 0
    requires forall i, j :: 0 <= i < j < |ts| ==> ts[i].id != ts[j].id
    ensures FindBarcode(ts, Barcode(ts[k]).value) == Some(k)
  {
    var f := FindBarcode(ts, Barcode(ts[k]).value);
    if f.value != k {
      BarcodeInjective(ts[f.value], ts[k]);
    }
  }

  // ---------------------------------------------------------------------
  // Actual hours and the work queue
  // ---------------------------------------------------------------------

  function Hours(e: Timesheet): real { e.unitAmount }

  /** `_compute_actual_hours`: the hours booked on the task's timesheets. */
  function ActualHours(t: Task, sheets: seq<Timesheet>): real {
    Sum(Filter(sheets, (e: Timesheet) => e.task == t.id), Hours)
  }

  /** Clocking out a punch on the task adds its hours to the task's actual
      hours; a punch on another task leaves them alone. */
  lemma {:induction false} ClockOutAddsHours(t: Task, s: Store, i: nat, now: int, name: string, sheetId: int)
    requires i < |s.punches| && ClockOutAt(s, i, now, name, sheetId).Ok?
    ensures var s1 := ClockOutAt(s, i, now, name, sheetId).value;
      ActualHours(t, s1.timesheets)
        == ActualHours(t, s.timesheets)
           + (if s.punches[i].task == t.id then s1.punches[i].durationHours else 0.0)
  {
    var s1 := ClockOutAt(s, i, now, name, sheetId).value;
    var e := ClockOut(s.punches[i], now, name, sheetId).value.1.value;
    var p := (x: Timesheet) => x.task == t.id;
    FilterAppend(s.timesheets, [e], p);
    SumAppend(Filter(s.timesheets, p), Filter([e], p), Hours);
    if e.task == t.id {
      assert Filter([e], p) == [e];
    } else {
      assert Filter([e], p) == [];
    }
  }

  /** Whether a task belongs in the user's queue. */
  predicate Queued(t: Task, user: int) {
    user in t.workers && t.workState in {Assigned, InProgress}
  }

  /** The queue order `priority_sequence, id`. */
  predicate Before(a: Task, b: Task) {
    a.priority < b.priority || (a.priority == b.priority && a.id <= b.id)
  }

  predicate SortedTasks(s: seq<Task>) {
    forall i, j :: 0 <= i < j < |s| ==> Before(s[i], s[j])
  }

  /** Inserts a task before the first one it does not come after. */
  function Insert(t: Task, s: seq<Task>): (r: seq<Task>)
    ensures |r| == |s| + 1
    decreases |s|
  {
    if |s| == 0 then [t]
    else if Before(t, s[0]) then [t] + s
    else [s[0]] + Insert(t, s[1..])
  }

  lemma {:induction false} InsertPermutes(t: Task, s: seq<Task>)
    ensures multiset(Insert(t, s)) == multiset(s) + multiset{t}
    decreases |s|
  {
    if |s| > 0 && !Before(t, s[0]) {
      InsertPermutes(t, s[1..]);
      assert s == [s[0]] + s[1..];
    }
  }

  lemma {:induction false} InsertSorted(t: Task, s: seq<Task>)
    requires SortedTasks(s)
    ensures SortedTasks(Insert(t, s))
    decreases |s|
  {
    if |s| > 0 && !Before(t, s[0]) {
      var rest := Insert(t, s[1..]);
      InsertSorted(t, s[1..]);
      InsertPermutes(t, s[1..]);
      HeadBeforeAll(s, t, rest);
      SortedCons(s[0], rest);
    }
  }

  /** The head of a sorted sequence comes before every task of a
      rearrangement of its tail plus one task it comes before. */
  lemma {:induction false} HeadBeforeAll(s: seq<Task>, t: Task, rest: seq<Task>)
    requires |s| > 0 && SortedTasks(s) && Before(s[0], t)
    requires multiset(rest) == multiset(s[1..]) + multiset{t}
    ensures forall k :: 0 <= k < |rest| ==> Before(s[0], rest[k])
  {
    forall k | 0 <= k < |rest| ensures Before(s[0], rest[k]) {
      assert rest[k] in multiset(rest);
      if rest[k] != t {
        assert rest[k] in s[1..];
        var m :| 0 <= m < |s| - 1 && s[1..][m] == rest[k];
        assert s[m + 1] == rest[k];
      }
    }
  }

  /** A task that comes before every task of a sorted sequence can go in
      front of it. */
  lemma {:induction false} SortedCons(x: Task, rest: seq<Task>)
    requires SortedTasks(rest)
    requires forall k :: 0 <= k < |rest| ==> Before(x, rest[k])
    ensures SortedTasks([x] + rest)
  {
    var r := [x] + rest;
    forall i, j | 0 <= i < j < |r| ensures Before(r[i], r[j]) {
      assert r[j] == rest[j - 1];
      if i > 0 {
        assert r[i] == rest[i - 1];
      }
    }
  }

  /** The tasks in queue order. */
  function SortTasks(s: seq<Task>): (r: seq<Task>)
    ensures |r| == |s|
    decreases |s|
  {
    if |s| == 0 then [] else Insert(s[0], SortTasks(s[1..]))
  }

  /** Sorting yields the same tasks in (priority, id) order. */
  lemma {:induction false} SortTasksSorts(s: seq<Task>)
    ensures SortedTasks(SortTasks(s))
    ensures multiset(SortTasks(s)) == multiset(s)
    decreases |s|
  {
    SortTasksOrdered(s);
    SortTasksPermutes(s);
  }

  lemma {:induction false} SortTasksOrdered(s: seq<Task>)
    ensures SortedTasks(SortTasks(s))
    decreases |s|
  {
    if |s| > 0 {
      SortTasksOrdered(s[1..]);
      InsertSorted(s[0], SortTasks(s[1..]));
    }
  }

  lemma {:induction false} SortTasksPermutes(s: seq<Task>)
    ensures multiset(SortTasks(s)) == multiset(s)
    decreases |s|
  {
    if |s| > 0 {
      var rest := SortTasks(s[1..]);
      calc {
        multiset(SortTasks(s));
        multiset(Insert(s[0], rest));
        { InsertPermutes(s[0], rest); }
        multiset(rest) + multiset{s[0]};
        { SortTasksPermutes(s[1..]); }
        multiset(s[1..]) + multiset{s[0]};
        { assert s == [s[0]] + s[1..]; }
        multiset(s);
      }
    }
  }

  /** One entry of the work queue: the task, its state and priority, and
      whether the employee is clocked in on it right now. */
  datatype QueueItem = QueueItem(id: int, name: string, workState: WorkState, isActive: bool, priority: int)

  /** The task of the employee's open punch, if it has one. */
  function ActiveTask(ps: seq<Punch>, employee: int): (a: Option<int>)
    ensures a.Some? <==> ActivePunch(ps, employee).Some? && ps[ActivePunch(ps, employee).value].task != 0
  {
    match ActivePunch(ps, employee)
    case None => None
    case Some(i) => if ps[i].task != 0 then Some(ps[i].task) else None
  }

  function Items(s: seq<Task>, active: Option<int>): (r: seq<QueueItem>)
    ensures |r| == |s|
    ensures forall k :: 0 <= k < |r| ==>
      r[k] == QueueItem(s[k].id, s[k].name, s[k].workState, active == Some(s[k].id), s[k].priority)
  {
    if |s| == 0 then []
    else [QueueItem(s[0].id, s[0].name, s[0].workState, active == Some(s[0].id), s[0].priority)]
         + Items(s[1..], active)
  }

  /** `get_my_work_queue`: empty without an employee; otherwise the
      user's queued tasks in priority order, each marked active exactly
      when it is the task of the employee's open punch. */
  function WorkQueue(ts: seq<Task>, ps: seq<Punch>, user: int, employee: int): (r: seq<QueueItem>)
    ensures employee == 0 ==> r == []
    ensures employee != 0 ==> r == Items(SortTasks(Filter(ts, (t: Task) => Queued(t, user))), ActiveTask(ps, employee))
  {
    if employee == 0 then []
    else Items(SortTasks(Filter(ts, (t: Task) => Queued(t, user))), ActiveTask(ps, employee))
  }

  /** The queue has one entry per queued task the search returns, in
      (priority, id) order, and marks active only the task the employee is
      clocked in on. */
  lemma {:induction false} WorkQueueOrder(ts: seq<Task>, ps: seq<Punch>, user: int, employee: int)
    requires employee != 0
    ensures var r := WorkQueue(ts, ps, user, employee);
      && |r| == Count(ts, (t: Task) => Queued(t, user))
      && (forall i, j :: 0 <= i < j < |r| ==>
            r[i].priority < r[j].priority || (r[i].priority == r[j].priority && r[i].id <= r[j].id))
      && (forall k :: 0 <= k < |r| ==> (r[k].isActive <==> ActiveTask(ps, employee) == Some(r[k].id)))
  {
    SortTasksSorts(Filter(ts, (t: Task) => Queued(t, user)));
  }

  /** Every task assigned to the user and assigned or in progress is in
      the queue. */
  lemma {:induction false} WorkQueueHasAll(ts: seq<Task>, ps: seq<Punch>, user: int, employee: int, t: Task)
    requires employee != 0 && t in ts && Queued(t, user)
    ensures exists k :: 0 <= k < |WorkQueue(ts, ps, user, employee)| && WorkQueue(ts, ps, user, employee)[k].id == t.id
  {
    var q := Filter(ts, (t: Task) => Queued(t, user));
    var s := SortTasks(q);
    assert t in q;
    SortTasksPermutes(q);
    assert t in multiset(s);
    var k :| 0 <= k < |s| && s[k] == t;
    var r := WorkQueue(ts, ps, user, employee);
    assert r == Items(s, ActiveTask(ps, employee));
    assert r[k].id == t.id;
  }

  /** Every queue entry is a task assigned to the user and assigned or in
      progress. */
  lemma {:induction false} WorkQueueOnlyQueued(ts: seq<Task>, ps: seq<Punch>, user: int, employee: int, k: int)
    requires employee != 0 && 0 <= k < |WorkQueue(ts, ps, user, employee)|
    ensures exists t :: t in ts && Queued(t, user) && WorkQueue(ts, ps, user, employee)[k].id == t.id
  {
    var q := Filter(ts, (t: Task) => Queued(t, user));
    var s := SortTasks(q);
    SortTasksPermutes(q);
    assert s[k] in multiset(s);
    assert s[k] in multiset(q);
    assert s[k] in q;
    assert WorkQueue(ts, ps, user, employee)[k].id == s[k].id;
  }
}
