/** The time clock kiosk (`ps.time.clock.kiosk`): the screen employees
    clock in, switch project, take a break and clock out on.  Every action
    that opens a punch first closes the employee's open one, so nobody is
    ever clocked in twice. */
module Kiosk {
  import opened Wrappers
  import opened TimePunches

  // The error messages the operations raise.
  const NoEmployee := "No Employee record found for your user account. Please ask your administrator to create an Employee record for you."
  const NoProject := "Please select a project to clock into."
  const NotClockedIn := "You are not currently clocked in."
  const NoBreakProject := "Break project not found. Please contact your administrator."
  const EmployeeRequired := "employee_id is required"
  const NoOpenPunch := "You are not on a break."
  const NotOnBreak := "You're not currently on break."

  /** What the kiosk form holds: the employee (0 when the user has no
      employee record), and the project, task (0 when unset) and notes
      chosen for clocking in. */
  datatype Form = Form(employee: int, project: int, task: int, notes: string)

  /** `_compute_status`. */
  datatype Status = Status(isClockedIn: bool, activePunch: Option<nat>,
                           currentProject: int, currentDuration: string)

  /** The employee `get_active_punch` looks up: the given one, or the
      current user's own when none is given. */
  function Lookup(employee: int, userEmployee: int): int {
    if employee != 0 then employee else userEmployee
  }

  function ComputeStatus(ps: seq<Punch>, f: Form, userEmployee: int, now: int): (st: Status)
    ensures st.activePunch == ActivePunch(ps, Lookup(f.employee, userEmployee))
    ensures st.isClockedIn <==> st.activePunch.Some?
    ensures st.activePunch.None? ==> st.currentProject == 0 && st.currentDuration == "0h 0m"
    ensures st.activePunch.Some? ==>
      && st.currentProject == ps[st.activePunch.value].project
      && st.currentDuration == DurationDisplay(ps[st.activePunch.value], now)
  {
    match ActivePunch(ps, Lookup(f.employee, userEmployee))
    case None => Status(false, None, 0, "0h 0m")
    case Some(i) => Status(true, Some(i), ps[i].project, DurationDisplay(ps[i], now))
  }

  /** A new open punch as `create` fills it in: clocked in now, with a
      stored duration of zero. */
  function NewPunch(id: int, employee: int, user: int, project: int, task: int, notes: string, now: int): (p: Punch)
    ensures IsActiveFor(p, employee) && p.project == project && p.task == task
    ensures p.punchIn == Some(now) && p.punchOut.None? && p.durationHours == 0.0
  {
    Punch(id, employee, user, project, task, 0, Some(now), None, Active, notes, 0.0, 0, "", 0)
  }

  /** Closes the employee's open punch, if any, then opens `p`; the step
      shared by the kiosk's clock-in and break and by starting a task. */
  function Switch(s: Store, employee: int, p: Punch, now: int, names: int -> string, sheetId: int): (r: Result<Store>)
    ensures r.Ok? ==> |r.value.punches| == |s.punches| + 1 && r.value.punches[|s.punches|] == p
    ensures ActivePunch(s.punches, employee).None? ==> r == Ok(Store(s.punches + [p], s.timesheets))
    ensures ActivePunch(s.punches, employee).Some? ==>
      var i := ActivePunch(s.punches, employee).value;
      && (r.Ok? <==> s.punches[i].punchIn.Some?)
      && (r.Ok? ==> r.value.punches[..|s.punches|] == s.punches[i := r.value.punches[i]]
                    && r.value.punches[i].state == Closed
                    && r.value.punches[i].punchOut == Some(now))
  {
    match ActivePunch(s.punches, employee)
    case None => Ok(Store(s.punches + [p], s.timesheets))
    case Some(i) =>
      var s1 :- ClockOutAt(s, i, now, names(s.punches[i].project), sheetId);
      assert s1.punches[..|s.punches|] == s1.punches;
      Ok(Store(s1.punches + [p], s1.timesheets))
  }

  /** After the switch, the employee's open punch is the new one, and no
      other employee's punches changed state: the one-open-punch rule
      is kept. */
  lemma {:induction false} SwitchKeepsOneActive(s: Store, employee: int, p: Punch, now: int, names: int -> string, sheetId: int)
    requires OneActiveEach(s.punches)
    requires IsActiveFor(p, employee)
    requires Switch(s, employee, p, now, names, sheetId).Ok?
    ensures var ps := Switch(s, employee, p, now, names, sheetId).value.punches;
      && OneActiveEach(ps)
      && ActivePunch(ps, employee) == Some(|s.punches|)
  {
    var r := Switch(s, employee, p, now, names, sheetId).value;
    var mid: seq<Punch>;
    match ActivePunch(s.punches, employee) {
      case None =>
        mid := s.punches;
        ActiveCountNone(s.punches, employee);
      case Some(i) =>
        var c := TimePunches.ClockOut(s.punches[i], now, names(s.punches[i].project), sheetId).value;
        mid := s.punches[i := c.0];
        forall e ensures ActiveCount(mid, e) == ActiveCount(s.punches, e) - (if IsActiveFor(s.punches[i], e) then 1 else 0) {
          CloseCount(s.punches, i, c.0, e);
        }
        ActiveCountPositive(s.punches, i, employee);
    }
    assert r.punches == mid + [p];
    forall e ensures ActiveCount(r.punches, e) <= 1 {
      AppendCount(mid, p, e);
    }
    ActiveCountNone(mid, employee);
    ActivePunchAppend(mid, p, employee);
  }

  /** An open punch counts for its employee. */
  lemma {:induction false} ActiveCountPositive(ps: seq<Punch>, i: int, e: int)
    requires 0 <= i < |ps| && IsActiveFor(ps[i], e)
    ensures ActiveCount(ps, e) >= 1
    decreases |ps|
  {
    if i > 0 {
      ActiveCountPositive(ps[1..], i - 1, e);
    }
  }

  /** With no open punch before it, an appended open punch is the one found. */
  lemma {:induction false} ActivePunchAppend(ps: seq<Punch>, p: Punch, e: int)
    requires ActivePunch(ps, e).None? && IsActiveFor(p, e)
    ensures ActivePunch(ps + [p], e) == Some(|ps|)
  {
    var k := ActivePunch(ps + [p], e);
    assert (ps + [p])[|ps|] == p;
    assert forall j :: 0 <= j < |ps| ==> (ps + [p])[j] == ps[j];
  }

  /** `action_clock_in`: errors without an employee or a project; clocked
      in on the chosen project already, nothing happens; otherwise the
      open punch, if any, is clocked out and a new one opened on the
      chosen project and task. */
  function ClockIn(s: Store, f: Form, user: int, now: int, names: int -> string, punchId: int, sheetId: int): (r: Result<Store>)
    ensures f.employee == 0 || f.project == 0 ==> r.Err?
    ensures (f.employee != 0 && f.project != 0 && ActivePunch(s.punches, f.employee).Some?
             && s.punches[ActivePunch(s.punches, f.employee).value].project == f.project) ==> r == Ok(s)
    ensures r.Ok? && r.value != s ==>
      r == Switch(s, f.employee, NewPunch(punchId, f.employee, user, f.project, f.task, f.notes, now), now, names, sheetId)
  {
    if f.employee == 0 then
      Err(NoEmployee)
    else if f.project == 0 then Err(NoProject)
    else
      var st := ActivePunch(s.punches, f.employee);
      if st.Some? && s.punches[st.value].project == f.project then Ok(s)
      else Switch(s, f.employee, NewPunch(punchId, f.employee, user, f.project, f.task, f.notes, now), now, names, sheetId)
  }

  /** After a clock-in the kiosk shows the employee clocked in on the
      chosen project, and still nobody holds two open punches. */
  lemma ClockInShowsProject(s: Store, f: Form, userEmployee: int, user: int, now: int, names: int -> string, punchId: int, sheetId: int)
    requires OneActiveEach(s.punches)
    requires ClockIn(s, f, user, now, names, punchId, sheetId).Ok?
    ensures var ps := ClockIn(s, f, user, now, names, punchId, sheetId).value.punches;
      && OneActiveEach(ps)
      && ComputeStatus(ps, f, userEmployee, now).isClockedIn
      && ComputeStatus(ps, f, userEmployee, now).currentProject == f.project
  {
    var r := ClockIn(s, f, user, now, names, punchId, sheetId).value;
    assert f.employee != 0 && f.project != 0;
    assert Lookup(f.employee, userEmployee) == f.employee;
    var k: nat;
    if r == s {
      k := ActivePunch(s.punches, f.employee).value;
      assert r.punches[k].project == f.project;
    } else {
      var p := NewPunch(punchId, f.employee, user, f.project, f.task, f.notes, now);
      assert Switch(s, f.employee, p, now, names, sheetId) == Ok(r);
      SwitchKeepsOneActive(s, f.employee, p, now, names, sheetId);
      k := |s.punches|;
      assert r.punches[k] == p;
    }
    assert ActivePunch(r.punches, f.employee) == Some(k);
    var st := ComputeStatus(r.punches, f, userEmployee, now);
    assert st.activePunch == Some(k);
  }

  /** `action_clock_out`: errors when not clocked in, else clocks out the
      open punch. */
  function ClockOut(s: Store, f: Form, userEmployee: int, now: int, names: int -> string, sheetId: int): (r: Result<Store>)
    ensures ActivePunch(s.punches, Lookup(f.employee, userEmployee)).None? ==> r.Err?
    ensures ActivePunch(s.punches, Lookup(f.employee, userEmployee)).Some? ==>
      var i := ActivePunch(s.punches, Lookup(f.employee, userEmployee)).value;
      r == ClockOutAt(s, i, now, names(s.punches[i].project), sheetId)
  {
    match ActivePunch(s.punches, Lookup(f.employee, userEmployee))
    case None => Err(NotClockedIn)
    case Some(i) => ClockOutAt(s, i, now, names(s.punches[i].project), sheetId)
  }

  /** After clocking out, the kiosk shows the employee clocked out. */
  lemma ClockOutShowsOut(s: Store, f: Form, userEmployee: int, now: int, names: int -> string, sheetId: int)
    requires OneActiveEach(s.punches)
    requires ClockOut(s, f, userEmployee, now, names, sheetId).Ok?
    ensures var ps := ClockOut(s, f, userEmployee, now, names, sheetId).value.punches;
      && OneActiveEach(ps)
      && !ComputeStatus(ps, f, userEmployee, now).isClockedIn
      && ComputeStatus(ps, f, userEmployee, now).currentDuration == "0h 0m"
  {
    var e := Lookup(f.employee, userEmployee);
    var i := ActivePunch(s.punches, e).value;
    var ps := ClockOut(s, f, userEmployee, now, names, sheetId).value.punches;
    forall e' ensures ActiveCount(ps, e') <= 1 {
      ClockOutAtCount(s, i, now, names(s.punches[i].project), sheetId, e');
    }
    ClockOutAtCount(s, i, now, names(s.punches[i].project), sheetId, e);
    ActiveCountPositive(s.punches, i, e);
    ActiveCountNone(ps, e);
  }

  /** `action_take_break`: errors when no Break project exists (`brk` is
      0); otherwise the open punch, if any, is clocked out and a punch on
      the Break project opened with the note "Break".  Creating a punch
      without an employee fails on the required field. */
  function TakeBreak(s: Store, f: Form, brk: int, user: int, now: int, names: int -> string, punchId: int, sheetId: int): (r: Result<Store>)
    ensures brk == 0 || f.employee == 0 ==> r.Err?
    ensures brk != 0 && f.employee != 0 ==>
      r == Switch(s, f.employee, NewPunch(punchId, f.employee, user, brk, 0, "Break", now), now, names, sheetId)
  {
    if brk == 0 then Err(NoBreakProject)
    else if f.employee == 0 then Err(EmployeeRequired)
    else Switch(s, f.employee, NewPunch(punchId, f.employee, user, brk, 0, "Break", now), now, names, sheetId)
  }

  /** On a break the kiosk shows the employee clocked in on the Break
      project. */
  lemma BreakShowsBreak(s: Store, f: Form, brk: int, userEmployee: int, user: int, now: int, names: int -> string, punchId: int, sheetId: int)
    requires OneActiveEach(s.punches)
    requires TakeBreak(s, f, brk, user, now, names, punchId, sheetId).Ok?
    ensures var ps := TakeBreak(s, f, brk, user, now, names, punchId, sheetId).value.punches;
      && OneActiveEach(ps)
      && ComputeStatus(ps, f, userEmployee, now).currentProject == brk
  {
    SwitchKeepsOneActive(s, f.employee, NewPunch(punchId, f.employee, user, brk, 0, "Break", now), now, names, sheetId);
  }

  /** `action_end_break`: errors unless clocked in on a project named
      "Break"; otherwise clocks out. */
  function EndBreak(s: Store, f: Form, userEmployee: int, now: int, names: int -> string, sheetId: int): (r: Result<Store>)
    ensures ActivePunch(s.punches, Lookup(f.employee, userEmployee)).None? ==> r.Err?
    ensures ActivePunch(s.punches, Lookup(f.employee, userEmployee)).Some? ==>
      var i := ActivePunch(s.punches, Lookup(f.employee, userEmployee)).value;
      && (names(s.punches[i].project) != "Break" ==> r.Err?)
      && (names(s.punches[i].project) == "Break" ==> r == ClockOut(s, f, userEmployee, now, names, sheetId))
  {
    match ActivePunch(s.punches, Lookup(f.employee, userEmployee))
    case None => Err(NoOpenPunch)
    case Some(i) =>
      if names(s.punches[i].project) != "Break" then Err(NotOnBreak)
      else ClockOut(s, f, userEmployee, now, names, sheetId)
  }

  /** After a break ends the kiosk shows the employee clocked out, and
      ending the break again fails. */
  lemma EndBreakOnce(s: Store, f: Form, userEmployee: int, now: int, later: int, names: int -> string, sheetId: int, id2: int)
    requires OneActiveEach(s.punches)
    requires EndBreak(s, f, userEmployee, now, names, sheetId).Ok?
    ensures var t := EndBreak(s, f, userEmployee, now, names, sheetId).value;
      && OneActiveEach(t.punches)
      && !ComputeStatus(t.punches, f, userEmployee, later).isClockedIn
      && EndBreak(t, f, userEmployee, later, names, id2).Err?
  {
    ClockOutShowsOut(s, f, userEmployee, now, names, sheetId);
  }
}
