/** Time punches (`ps.time.punch`): an employee's clock-in on a project
    (and optionally a task), open while active and closed by a clock-out,
    which books the worked time as a timesheet entry.  Times are whole
    seconds; the current time is the parameter `now`. */
module TimePunches {
  import opened Wrappers
  import opened Numerals
  import opened Sums

  // The error messages the operations raise.
  const NoPunchIn := "punch_in is not set"
  const AlreadyOut := "Already clocked out!"
  const AdminOnly := "Only administrators can adjust time punches."

  datatype PunchState = Active | Closed

  /** A punch.  `task`, `opportunity`, `adjustedBy` and `timesheet` are 0
      when unset; `notes` and `adjustmentReason` are "" when unset. */
  datatype Punch = Punch(
    id: int, employee: int, user: int, project: int, task: int, opportunity: int,
    punchIn: Option<int>, punchOut: Option<int>, state: PunchState,
    notes: string, durationHours: real,
    adjustedBy: int, adjustmentReason: string, timesheet: int)

  /** A timesheet line (`account.analytic.line`) booked from a punch. */
  datatype Timesheet = Timesheet(
    id: int, name: string, project: int, task: int, employee: int,
    unitAmount: real, date: int)

  const SecondsPerHour: int := 3600
  const SecondsPerDay: int := 86400

  // ---------------------------------------------------------------------
  // Durations
  // ---------------------------------------------------------------------

  /** `_compute_duration_hours`: from clock-in to clock-out, or to now
      while still open, in hours; 0 without a clock-in. */
  function DurationHours(p: Punch, now: int): (h: real)
    ensures p.punchIn.None? ==> h == 0.0
    ensures p.punchIn.Some? ==>
      h * 3600.0 == (p.punchOut.GetOr(now) - p.punchIn.value) as real
  {
    if p.punchIn.Some? then
      (p.punchOut.GetOr(now) - p.punchIn.value) as real / SecondsPerHour as real
    else 0.0
  }

  /** Whole hours and leftover whole minutes of a duration, as the source
      takes them with `int()`: truncated toward zero. */
  function HoursMinutes(total: real): (hm: (int, int))
    ensures hm.0 == Trunc(total)
    ensures hm.1 == Trunc((total - hm.0 as real) * 60.0)
  {
    var h := Trunc(total);
    (h, Trunc((total - h as real) * 60.0))
  }

  /** `f"{hours}h {minutes}m"`, the duration format shared by punches,
      projects and opportunities. */
  function HoursText(total: real): string
  {
    var hm := HoursMinutes(total);
    IntText(hm.0) + "h " + IntText(hm.1) + "m"
  }

  /** For a non-negative duration the minutes lie in [0, 60), and the
      hours and minutes together are the duration's whole minutes. */
  lemma {:induction false} HoursMinutesBounds(total: real)
    requires total >= 0.0
    ensures var hm := HoursMinutes(total);
      && hm.0 >= 0 && 0 <= hm.1 < 60
      && (hm.0 * 60 + hm.1) as real <= total * 60.0 < (hm.0 * 60 + hm.1 + 1) as real
  {
    var hm := HoursMinutes(total);
    var f := total - hm.0 as real;
    assert 0.0 <= f < 1.0;
    assert 0.0 <= f * 60.0 < 60.0;
    assert hm.1 as real <= f * 60.0 < hm.1 as real + 1.0;
  }

  /** A whole number of minutes reads back exactly. */
  lemma {:induction false} HoursMinutesWhole(h: nat, m: nat)
    requires m < 60
    ensures HoursMinutes(h as real + m as real / 60.0) == (h, m)
  {
    var f := m as real / 60.0;
    var total := h as real + f;
    assert f * 60.0 == m as real;
    assert 0.0 <= f < 1.0;
    assert Trunc(total) == h;
    assert total - h as real == f;
    assert Trunc(m as real) == m;
  }

  /** `_compute_duration_display`: "0h 0m" without a clock-in. */
  function DurationDisplay(p: Punch, now: int): (s: string)
    ensures p.punchIn.None? ==> s == "0h 0m"
    ensures p.punchIn.Some? ==> s == HoursText(DurationHours(p, now))
  {
    if p.punchIn.Some? then HoursText(DurationHours(p, now)) else "0h 0m"
  }

  /** A punch that has run for a whole number of hours and minutes shows
      them as "{h}h {m}m". */
  lemma {:induction false} DisplayWhole(p: Punch, now: int, h: nat, m: nat)
    requires m < 60 && p.punchIn.Some?
    requires DurationHours(p, now) == h as real + m as real / 60.0
    ensures DurationDisplay(p, now) == IntText(h) + "h " + IntText(m) + "m"
  {
    HoursMinutesWhole(h, m);
  }

  lemma ZeroDisplay()
    ensures HoursText(0.0) == "0h 0m"
  {
    assert Trunc(0.0) == 0;
    assert IntText(0) == "0";
  }

  // ---------------------------------------------------------------------
  // Clocking out
  // ---------------------------------------------------------------------

  /** `_create_timesheet_entry`: only for a punch with a clock-out; the
      entry books the punch's duration on its project, task and employee,
      named by the notes or "Time punch: Project", dated on the clock-in
      day, and is linked back to the punch.  A clock-out without a
      clock-in fails, as `punch_in.date()` does. */
  function CreateTimesheet(p: Punch, projectName: string, sheetId: int): (r: Result<(Punch, Option<Timesheet>)>)
    ensures p.punchOut.None? ==> r == Ok((p, None))
    ensures p.punchOut.Some? && p.punchIn.None? ==> r.Err?
    ensures p.punchOut.Some? && p.punchIn.Some? ==> r.Ok? && r.value.1.Some?
    ensures r.Ok? && r.value.1.Some? ==>
      && r.value.0 == p.(timesheet := sheetId)
      && r.value.1.value.id == sheetId
      && r.value.1.value.unitAmount == p.durationHours
      && (r.value.1.value.project, r.value.1.value.task, r.value.1.value.employee)
         == (p.project, p.task, p.employee)
      && r.value.1.value.name == (if p.notes != "" then p.notes else "Time punch: " + projectName)
      && r.value.1.value.date * SecondsPerDay <= p.punchIn.value < (r.value.1.value.date + 1) * SecondsPerDay
  {
    if p.punchOut.None? then Ok((p, None))
    else if p.punchIn.None? then Err(NoPunchIn)
    else
      var name := if p.notes != "" then p.notes else "Time punch: " + projectName;
      var day := p.punchIn.value / SecondsPerDay;
      Ok((p.(timesheet := sheetId),
          Some(Timesheet(sheetId, name, p.project, p.task, p.employee, p.durationHours, day))))
  }

  /** The entry books exactly the punch's span when the stored duration is
      current; running the creation again books the hours a second time
      and relinks the punch to the new entry, as nothing checks for an
      existing one. */
  lemma {:induction false} TimesheetBooksSpan(p: Punch, now: int, name: string, id1: int, id2: int)
    requires p.punchIn.Some? && p.punchOut.Some?
    requires p.durationHours == DurationHours(p, now)
    ensures var r := CreateTimesheet(p, name, id1);
      && r.Ok? && r.value.1.Some?
      && r.value.1.value.unitAmount * 3600.0 == (p.punchOut.value - p.punchIn.value) as real
      && var again := CreateTimesheet(r.value.0, name, id2);
         && again.Ok? && again.value.1.Some? && again.value.0.timesheet == id2
         && again.value.1.value == r.value.1.value.(id := id2)
  {
    var r := CreateTimesheet(p, name, id1);
    assert r.value.0 == p.(timesheet := id1);
  }

  /** `action_clock_out`: a closed punch cannot be clocked out again;
      otherwise the punch gets `now` as its clock-out, is closed, its
      stored duration is recomputed, and a timesheet entry is booked. */
  function ClockOut(p: Punch, now: int, projectName: string, sheetId: int): (r: Result<(Punch, Option<Timesheet>)>)
    ensures p.state == Closed ==> r.Err?
    ensures p.state == Active && p.punchIn.Some? ==> r.Ok?
    ensures r.Ok? ==>
      && p.punchIn.Some? && r.value.0.state == Closed && r.value.0.punchOut == Some(now)
      && r.value.0.durationHours * 3600.0 == (now - p.punchIn.value) as real
      && r.value.1.Some? && r.value.1.value.unitAmount == r.value.0.durationHours
      && r.value.0 == p.(punchOut := Some(now), state := Closed,
                         durationHours := r.value.0.durationHours, timesheet := sheetId)
  {
    if p.state == Closed then Err(AlreadyOut)
    else
      var q := p.(punchOut := Some(now), state := Closed);
      CreateTimesheet(q.(durationHours := DurationHours(q, now)), projectName, sheetId)
  }

  /** Clocking out twice fails the second time. */
  lemma ClockOutOnce(p: Punch, now: int, later: int, name: string, id1: int, id2: int)
    requires ClockOut(p, now, name, id1).Ok?
    ensures ClockOut(ClockOut(p, now, name, id1).value.0, later, name, id2).Err?
  {
  }

  // ---------------------------------------------------------------------
  // The punch store
  // ---------------------------------------------------------------------

  predicate IsActiveFor(p: Punch, employee: int) {
    p.employee == employee && p.state == Active
  }

  /** `get_active_punch`: the first active punch of the employee in the
      search order, if any. */
  function ActivePunch(ps: seq<Punch>, employee: int): (k: Option<nat>)
    ensures k.Some? ==> k.value < |ps| && IsActiveFor(ps[k.value], employee)
    ensures k.Some? ==> forall j :: 0 <= j < k.value ==> !IsActiveFor(ps[j], employee)
    ensures k.None? <==> forall j :: 0 <= j < |ps| ==> !IsActiveFor(ps[j], employee)
  {
    Sums.FindFirst(ps, (p: Punch) => IsActiveFor(p, employee))
  }

  /** The number of active punches an employee has. */
  function ActiveCount(ps: seq<Punch>, employee: int): nat {
    Count(ps, p => IsActiveFor(p, employee))
  }

  /** The invariant the clock-in rules keep: no employee has more than
      one open punch. */
  ghost predicate OneActiveEach(ps: seq<Punch>) {
    forall e :: ActiveCount(ps, e) <= 1
  }

  /** An employee has no open punch counted exactly when none is found. */
  lemma {:induction false} ActiveCountNone(ps: seq<Punch>, employee: int)
    ensures ActiveCount(ps, employee) == 0 <==> ActivePunch(ps, employee).None?
    decreases |ps|
  {
    if |ps| > 0 {
      ActiveCountNone(ps[1..], employee);
    }
  }

  /** Replacing one punch by a closed one removes it from its employee's
      active count and changes no other employee's count. */
  lemma {:induction false} CloseCount(ps: seq<Punch>, i: int, q: Punch, e: int)
    requires 0 <= i < |ps| && q.employee == ps[i].employee && q.state == Closed
    ensures ActiveCount(ps[i := q], e)
         == ActiveCount(ps, e) - (if IsActiveFor(ps[i], e) then 1 else 0)
    decreases |ps|
  {
    if i > 0 {
      assert ps[i := q][1..] == ps[1..][i - 1 := q];
      CloseCount(ps[1..], i - 1, q, e);
    } else {
      assert ps[i := q][1..] == ps[1..];
    }
  }

  /** Appending a punch adds one to its employee's count if it is active. */
  lemma {:induction false} AppendCount(ps: seq<Punch>, p: Punch, e: int)
    ensures ActiveCount(ps + [p], e) == ActiveCount(ps, e) + (if IsActiveFor(p, e) then 1 else 0)
    decreases |ps|
  {
    if |ps| > 0 {
      assert (ps + [p])[1..] == ps[1..] + [p];
      AppendCount(ps[1..], p, e);
    } else {
      assert Count([p], x => IsActiveFor(x, e)) == (if IsActiveFor(p, e) then 1 else 0);
    }
  }

  /** Punches and booked timesheets. */
  datatype Store = Store(punches: seq<Punch>, timesheets: seq<Timesheet>)

  /** Clock out the `i`-th punch inside the store, booking its timesheet. */
  function ClockOutAt(s: Store, i: nat, now: int, projectName: string, sheetId: int): (r: Result<Store>)
    requires i < |s.punches|
    ensures r.Ok? <==> ClockOut(s.punches[i], now, projectName, sheetId).Ok?
    ensures r.Ok? ==>
      var c := ClockOut(s.punches[i], now, projectName, sheetId).value;
      r.value == Store(s.punches[i := c.0], s.timesheets + [c.1.value])
  {
    var c :- ClockOut(s.punches[i], now, projectName, sheetId);
    Ok(Store(s.punches[i := c.0], s.timesheets + [c.1.value]))
  }

  /** Closing an open punch lowers its employee's open count by one and
      leaves everybody else's unchanged. */
  lemma ClockOutAtCount(s: Store, i: nat, now: int, name: string, sheetId: int, e: int)
    requires i < |s.punches| && ClockOutAt(s, i, now, name, sheetId).Ok?
    ensures ActiveCount(ClockOutAt(s, i, now, name, sheetId).value.punches, e)
         == ActiveCount(s.punches, e) - (if s.punches[i].employee == e then 1 else 0)
  {
    var c := ClockOut(s.punches[i], now, name, sheetId).value;
    CloseCount(s.punches, i, c.0, e);
  }

  // ---------------------------------------------------------------------
  // Administrator adjustment
  // ---------------------------------------------------------------------

  /** What an adjustment leaves behind: the punch, the entry booked
      afresh (if any), and the id of the entry it unlinked (0 when none). */
  datatype Adjustment = Adjustment(punch: Punch, entry: Option<Timesheet>, unlinked: int)

  /** `action_admin_adjust`: only an administrator may adjust.  The
      adjuster and the reason ("Manual adjustment" when none is given)
      are always recorded; a given clock-in replaces the old one; a given
      clock-out replaces the old one and closes the punch.  When the punch
      had a timesheet entry and a clock-out is given, that entry is
      unlinked and a new one books the adjusted span and is linked to the
      punch; creating it fails, as `punch_in.date()` does, when the punch
      has no clock-in at all.  The stored duration follows the new
      times. */
  function AdminAdjust(p: Punch, isAdmin: bool, user: int, newIn: Option<int>, newOut: Option<int>,
                       reason: string, now: int, projectName: string, sheetId: int): (r: Result<Adjustment>)
    ensures r.Err? <==>
      !isAdmin || (p.timesheet != 0 && newOut.Some? && newIn.None? && p.punchIn.None?)
    ensures r.Ok? ==>
      var q := r.value.punch;
      && q.adjustedBy == user
      && q.adjustmentReason == (if reason == "" then "Manual adjustment" else reason)
      && q.punchIn == (if newIn.Some? then newIn else p.punchIn)
      && q.punchOut == (if newOut.Some? then newOut else p.punchOut)
      && (newOut.Some? ==> q.state == Closed)
      && (newOut.None? ==> q.state == p.state)
      && q.durationHours == DurationHours(q, now)
      && (r.value.entry.Some? <==> p.timesheet != 0 && newOut.Some?)
      && (r.value.entry.Some? ==>
            && r.value.unlinked == p.timesheet
            && q.timesheet == sheetId
            && r.value.entry.value.id == sheetId
            && r.value.entry.value.unitAmount == DurationHours(q, now)
            && (r.value.entry.value.project, r.value.entry.value.task, r.value.entry.value.employee)
               == (q.project, q.task, q.employee))
      && (r.value.entry.None? ==> r.value.unlinked == 0 && q.timesheet == p.timesheet)
  {
    if !isAdmin then Err(AdminOnly)
    else
      var q0 := p.(adjustedBy := user,
                   adjustmentReason := if reason == "" then "Manual adjustment" else reason,
                   punchIn := if newIn.Some? then newIn else p.punchIn,
                   punchOut := if newOut.Some? then newOut else p.punchOut,
                   state := if newOut.Some? then Closed else p.state);
      var q := q0.(durationHours := DurationHours(q0, now));
      if p.timesheet != 0 && newOut.Some? then
        var c :- CreateTimesheet(q, projectName, sheetId);
        assert c.0.durationHours == DurationHours(c.0, now);
        Ok(Adjustment(c.0, c.1, p.timesheet))
      else Ok(Adjustment(q, None, 0))
  }

  /** An adjustment that closes a punch with an entry books exactly the
      adjusted span: the new entry's hours times 3600 are the seconds from
      the new clock-in to the new clock-out, and the old entry is the one
      unlinked. */
  lemma AdminAdjustBooksSpan(p: Punch, user: int, newIn: int, newOut: int, reason: string,
                             now: int, projectName: string, sheetId: int)
    requires p.timesheet != 0
    ensures var r := AdminAdjust(p, true, user, Some(newIn), Some(newOut), reason, now, projectName, sheetId);
      && r.Ok? && r.value.entry.Some? && r.value.unlinked == p.timesheet
      && r.value.entry.value.unitAmount * 3600.0 == (newOut - newIn) as real
      && r.value.punch.state == Closed && r.value.punch.timesheet == sheetId
  {
  }
}
