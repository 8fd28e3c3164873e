/** What each writer of the diary decides and what it then writes: accepted
    exactly when a bay and the employee are free over the whole span, with the
    row that was asked for, and otherwise nothing changed. */
module Decisions {
  import opened Wrappers
  import opened Intervals
  import opened Scheduling
  import opened Capacity
  import SchedulingRuns

  // ------------------------------------------------------- what is free when

  /** No live appointment of the employee meets the span. */
  ghost predicate Clear(rows: seq<Appointment>, employee: EmployeeId, start: int, end: int, except: Option<nat>) {
    forall i :: 0 <= i < |rows| && except != Some(i) && rows[i].employee == employee && rows[i].status != CANCELLED
      ==> rows[i].end <= start || end <= rows[i].start
  }

  /** More bays are left than any walk-in window meeting the span withholds. */
  ghost predicate LeavesWalkIns(windows: seq<Window>, start: int, end: int, left: int) {
    forall i :: 0 <= i < |windows| && windows[i].start < end && start < windows[i].end ==> windows[i].reserved < left
  }

  /** With `used` bays reserved there is one for this booking. */
  ghost predicate OneLeft(g: Garage, start: int, end: int, walkIns: bool, used: int) {
    && used < SlotCapacity(g)
    && (walkIns ==> LeavesWalkIns((g.windowsOn)((g.calendar.dayOf)(start)), start, end, SlotCapacity(g) - used))
  }

  /** There is one at each instant of the span, by all reservations there are. */
  ghost predicate BayFree(
    g: Garage, db: Database, start: int, end: int, exAppointment: Option<nat>, exRequest: Option<nat>, walkIns: bool)
  {
    && OneLeft(g, start, end, walkIns, 0)
    && forall t :: start <= t < end ==> OneLeft(g, start, end, walkIns, Others(g, db, t, exAppointment, exRequest))
  }

  ghost predicate Free(
    g: Garage, db: Database, employee: EmployeeId, start: int, end: int,
    exAppointment: Option<nat>, exRequest: Option<nat>, walkIns: bool)
  {
    && Clear(db.appointments, employee, start, end, exAppointment)
    && BayFree(g, db, start, end, exAppointment, exRequest, walkIns)
  }

  lemma ClearExactlyWhen(rows: seq<Appointment>, employee: EmployeeId, start: int, end: int, except: Option<nat>)
    ensures HasConflict(rows, employee, start, end, except) <==> !Clear(rows, employee, start, end, except)
  {
    if !HasConflict(rows, employee, start, end, except) {
      forall i | 0 <= i < |rows| && except != Some(i) ensures !Busy(rows[i], employee, start, end) {
      }
    }
  }

  lemma {:induction false} LeavesWalkInsExactlyWhen(windows: seq<Window>, start: int, end: int, left: int)
    ensures ReservedAt(windows, start, end) < left <==> 0 < left && LeavesWalkIns(windows, start, end, left)
  {
    if windows != [] {
      LeavesWalkInsExactlyWhen(windows[1..], start, end, left);
      assert windows == [windows[0]] + windows[1..];
    }
  }

  lemma OneLeftExactlyWhen(g: Garage, start: int, minutes: nat, walkIns: bool, used: int)
    ensures OneLeft(g, start, start + minutes * MINUTE, walkIns, used) <==> used < CapacityFor(g, start, minutes, walkIns)
  {
    LeavesWalkInsExactlyWhen(
      (g.windowsOn)((g.calendar.dayOf)(start)), start, start + minutes * MINUTE, SlotCapacity(g) - used);
  }

  ghost predicate OneDay(g: Garage, start: int, end: int) {
    start < end ==> (g.calendar.dayOf)(start) == (g.calendar.dayOf)(end - 1)
  }

  lemma LoadedExactly(
    g: Garage, db: Database, start: int, end: int, t: int, exAppointment: Option<nat>, exRequest: Option<nat>)
    requires ValidCalendar(g.calendar) && RequestsTimed(g, db.requests) && start <= t < end
    requires (end - start) % MINUTE == 0 && OneDay(g, start, end)
    ensures Cover(DayUsage(g, db, (g.calendar.dayOf)(start), exAppointment, exRequest), t)
      == Others(g, db, t, exAppointment, exRequest)
  {
    SpanInDay(g, start, end, t);
    DayUsageCounts(g, db, (g.calendar.dayOf)(start), t, exAppointment, exRequest);
  }

  /** The check's answer is the truth for spans of whole minutes in one local day:
      it lets a booking in exactly when a bay is free at every instant of it,
      and walk-ins keep theirs. */
  lemma CheckTellsTheTruth(
    g: Garage, db: Database, start: int, minutes: nat, exAppointment: Option<nat>, exRequest: Option<nat>, walkIns: bool)
    requires ValidCalendar(g.calendar) && RequestsTimed(g, db.requests) && OneDay(g, start, start + minutes * MINUTE)
    ensures HasCapacity(g, db, start, minutes, exAppointment, exRequest, walkIns)
      <==> BayFree(g, db, start, start + minutes * MINUTE, exAppointment, exRequest, walkIns)
  {
    var end := start + minutes * MINUTE;
    var loaded := DayUsage(g, db, (g.calendar.dayOf)(start), exAppointment, exRequest);
    OneLeftExactlyWhen(g, start, minutes, walkIns, 0);
    forall t | start <= t < end
      ensures Cover(loaded, t) < CapacityFor(g, start, minutes, walkIns)
        <==> OneLeft(g, start, end, walkIns, Others(g, db, t, exAppointment, exRequest))
    {
      LoadedExactly(g, db, start, end, t, exAppointment, exRequest);
      OneLeftExactlyWhen(g, start, minutes, walkIns, Others(g, db, t, exAppointment, exRequest));
    }
  }

  lemma BayFreeExactlyWhen(
    g: Garage, db: Database, start: int, end: int, exAppointment: Option<nat>, exRequest: Option<nat>, walkIns: bool)
    requires ValidCalendar(g.calendar) && RequestsTimed(g, db.requests) && start < end && SpanTimed(g, start, end)
    ensures BayFree(g, db, start, end, exAppointment, exRequest, walkIns)
      <==> HasCapacity(g, db, start, WholeMinutes(start, end), exAppointment, exRequest, walkIns)
  {
    var minutes := WholeMinutes(start, end);
    assert start + minutes * MINUTE == end;
    CheckTellsTheTruth(g, db, start, minutes, exAppointment, exRequest, walkIns);
  }

  /** The two checks of a locked writer, together. */
  lemma FreeExactlyWhen(
    g: Garage, db: Database, employee: EmployeeId, start: int, end: int,
    exAppointment: Option<nat>, exRequest: Option<nat>, walkIns: bool)
    requires ValidCalendar(g.calendar) && RequestsTimed(g, db.requests) && start < end && SpanTimed(g, start, end)
    ensures var clash := HasConflict(db.appointments, employee, start, end, exAppointment);
      var bay := HasCapacity(g, db, start, WholeMinutes(start, end), exAppointment, exRequest, walkIns);
      Free(g, db, employee, start, end, exAppointment, exRequest, walkIns) <==> bay && !clash
  {
    ClearExactlyWhen(db.appointments, employee, start, end, exAppointment);
    BayFreeExactlyWhen(g, db, start, end, exAppointment, exRequest, walkIns);
  }

  /** A business takes as many at one time as its setting says, or as it has
      employees when there is none, and at least one. */
  lemma BaysAreSettingOrStaff(g: Garage, start: int, minutes: nat, n: nat)
    requires ValidCalendar(g.calendar) && minutes > 0 && OneDay(g, start, start + minutes * MINUTE)
    ensures var full := Database(FullHouse(g, start, start + minutes * MINUTE, n), []);
      HasCapacity(g, full, start, minutes, None, None, false)
      <==> n < Max(1, if g.capacityPerSlot.Some? then g.capacityPerSlot.value else |g.employees|)
  {
    var end := start + minutes * MINUTE;
    var full := Database(FullHouse(g, start, end, n), []);
    forall t ensures Reserved(g, full, t) == if start <= t < end then n else 0 {
      FullHouseReserves(g, start, end, n, t);
    }
    CheckTellsTheTruth(g, full, start, minutes, None, None, false);
    assert Others(g, full, start, None, None) == n;
  }

  // --------------------------------------------------------------- a new row

  ghost predicate EndsAt(g: Garage, n: NewAppointment, end: int) {
    if n.end.Some? then end == n.end.value
    else
      && n.typeId in g.types && g.types[n.typeId].minutes.Some?
      && end == n.start + (g.types[n.typeId].minutes.value + DurationDelta(n.resolved)) * MINUTE
  }

  predicate MayNameIt(g: Garage, n: NewAppointment) {
    && n.employee in g.employees && g.employees[n.employee]
    && n.typeId in g.types && g.types[n.typeId].active
    && n.otherwiseValid && (n.status.Some? ==> Known(g, n.status.value))
  }

  /** One of the business's own statuses or, if it has none, of the usual ones. */
  predicate Known(g: Garage, status: string) {
    if |g.statuses| > 0 then status in g.statuses
    else status in ["REQUESTED", "BOOKED", "IN_PROGRESS", "ACTION_NEEDED", "COMPLETED", "CANCELLED", "NO_SHOW"]
  }

  /** An outcome, by the business's own word or the usual one. */
  predicate Ended(g: Garage, status: string) {
    || (status in g.statuses && g.statuses[status])
    || (status !in g.statuses && status in ["COMPLETED", "CANCELLED", "NO_SHOW"])
  }

  /** An outcome stands, but a cancelled booking may be brought back. */
  predicate MayBecome(g: Garage, now: string, next: string) {
    || now == next
    || (now != CANCELLED && !Ended(g, now))
    || (now == CANCELLED && !Ended(g, next))
  }

  /** Staff may put a cancelled row where no bay is free, but not over a clash. */
  ghost predicate MayPost(g: Garage, db: Database, n: NewAppointment, end: int) {
    && MayNameIt(g, n) && n.start < end
    && Clear(db.appointments, n.employee, n.start, end, None)
    && (n.status == Some(CANCELLED) || BayFree(g, db, n.start, end, None, None, false))
  }

  ghost predicate Posted(g: Garage, before: Database, after: Database, n: NewAppointment, end: int) {
    after
    == if MayPost(g, before, n, end) then before.(appointments := before.appointments + [PostedRow(n, end)]) else before
  }

  function PostedRow(n: NewAppointment, end: int): Appointment {
    Appointment(
      n.employee, n.typeId, n.start, end, if n.status.GetOr("") == "" then BOOKED else n.status.value, n.resolved)
  }

  /** The checks of a new row, once its end is known. */
  lemma PostChecks(g: Garage, db: Database, n: NewAppointment, end: int)
    requires EndsAt(g, n, end)
    ensures var bay := HasCapacity(g, db, n.start, WholeMinutes(n.start, end), None, None, false);
      var clash := HasConflict(db.appointments, n.employee, n.start, end, None);
      PostReply(g, db, n) == Done
      <==> MayNameIt(g, n) && n.start < end && !clash && (n.status == Some(CANCELLED) || bay)
  {
  }

  lemma PostAnswer(g: Garage, db: Database, n: NewAppointment, end: int)
    requires ValidCalendar(g.calendar) && RequestsTimed(g, db.requests)
    requires EndsAt(g, n, end) && (n.start < end ==> SpanTimed(g, n.start, end))
    ensures PostReply(g, db, n) == Done <==> MayPost(g, db, n, end)
  {
    PostChecks(g, db, n, end);
    if n.start < end {
      ClearExactlyWhen(db.appointments, n.employee, n.start, end, None);
      BayFreeExactlyWhen(g, db, n.start, end, None, None, false);
    }
  }

  lemma PostRow(g: Garage, db: Database, n: NewAppointment, end: int, may: bool)
    requires EndsAt(g, n, end) && (PostReply(g, db, n) == Done <==> may)
    ensures Post(g, db, n).db == if may then db.(appointments := db.appointments + [PostedRow(n, end)]) else db
  {
  }

  lemma StepPost(g: Garage, w: World, n: NewAppointment)
    ensures Step(g, w, DoPost(n)).db == Post(g, w.db, n).db
  {
  }

  /** A new appointment is added exactly when it may be, as it was sent. */
  lemma PostDecides(g: Garage, w: World, n: NewAppointment, end: int)
    requires ValidCalendar(g.calendar) && RequestsTimed(g, w.db.requests)
    requires EndsAt(g, n, end) && (n.start < end ==> SpanTimed(g, n.start, end))
    ensures Posted(g, w.db, Step(g, w, DoPost(n)).db, n, end)
  {
    StepPost(g, w, n);
    PostAnswer(g, w.db, n, end);
    PostRow(g, w.db, n, end, MayPost(g, w.db, n, end));
  }

  // ------------------------------------------------------------- a staff edit

  /** What is sent lands on the row and what is not sent stays; the end follows
      the add-ons' length unless it is sent; another service drops add-ons. */
  ghost predicate EditLands(a: Appointment, e: Edit, b: Appointment) {
    && b.employee == (if e.employee.Some? then e.employee.value else a.employee)
    && b.typeId == (if e.typeId.Some? then e.typeId.value else a.typeId)
    && b.start == (if e.start.Some? then e.start.value else a.start)
    && b.end == (if e.end.Some? then e.end.value
                 else a.end + (DurationDelta(b.addOns) - DurationDelta(a.addOns)) * MINUTE)
    && b.status == (if e.status.Some? then e.status.value else a.status)
    && (e.resolved.None? && b.typeId == a.typeId ==> b.addOns == a.addOns)
    && (b.typeId != a.typeId ==> b.addOns == e.resolved.GetOr([]))
    && (e.resolved.Some? && b.typeId == a.typeId ==> Reselected(a.addOns, e.resolved.value, b.addOns))
  }

  /** The selection that was sent, where an add-on the booking had before keeps
      the length it was booked with. */
  ghost predicate Reselected(before: seq<AddOn>, sent: seq<AddOn>, after: seq<AddOn>) {
    && |after| == |sent|
    && forall i :: 0 <= i < |sent| ==>
         && after[i].id == sent[i].id && after[i].quantity == sent[i].quantity
         && var had := sent[i].id.Some? && sent[i].id.value in ByAddOn(before);
         after[i].minutes == if had then ByAddOn(before)[sent[i].id.value].minutes else sent[i].minutes
  }

  lemma {:induction false} KeptUnderItsId(rows: seq<AddOn>, id: nat)
    requires id in ByAddOn(rows)
    ensures ByAddOn(rows)[id].id == Some(id)
  {
    if rows[|rows| - 1].id != Some(id) {
      KeptUnderItsId(rows[..|rows| - 1], id);
    }
  }

  lemma EditedLands(a: Appointment, e: Edit)
    ensures EditLands(a, e, Edited(a, e))
  {
    var b, kept := Edited(a, e), ByAddOn(a.addOns);
    forall id | id in kept ensures kept[id].id == Some(id) {
      KeptUnderItsId(a.addOns, id);
    }
    if NewType(a, e).Some? {
      assert b.addOns == e.resolved.GetOr([]);
    }
  }

  /** The slot is checked again whenever the booking may stand in a new place:
      moved, given to somebody else, longer or shorter, or brought back. */
  ghost predicate MayEdit(g: Garage, db: Database, id: nat, e: Edit, b: Appointment)
    requires id < |db.appointments|
  {
    var a := db.appointments[id];
    && (e.employee.Some? ==> e.employee.value in g.employees && g.employees[e.employee.value])
    && (b.typeId != a.typeId ==> b.typeId in g.types && g.types[b.typeId].active)
    && e.otherwiseValid
    && (e.status.Some? ==> Known(g, e.status.value) && MayBecome(g, a.status, e.status.value))
    && b.start < b.end
    && (b.status != CANCELLED
        && (e.employee.Some? || e.start.Some? || e.end.Some? || b.end != a.end || a.status == CANCELLED)
        ==> Free(g, db, b.employee, b.start, b.end, Some(id), None, false))
  }

  ghost predicate Patched(g: Garage, before: Database, after: Database, id: nat, e: Edit, b: Appointment)
    requires id < |before.appointments|
  {
    && EditLands(before.appointments[id], e, b)
    && after == if MayEdit(g, before, id, e, b) then before.(appointments := before.appointments[id := b]) else before
  }

  lemma StatusExactlyWhen(g: Garage, now: string, next: string)
    ensures StatusAllowed(g, next) <==> Known(g, next)
    ensures TransitionAllowed(g, now, next) <==> MayBecome(g, now, next)
  {
  }

  /** The checks of an edit, once its slot is looked at. */
  lemma PatchChecks(g: Garage, db: Database, id: nat, e: Edit, b: Appointment, free: bool, ok: bool)
    requires id < |db.appointments| && b == Edited(db.appointments[id], e)
    requires b.start < b.end ==>
      var clash := HasConflict(db.appointments, b.employee, b.start, b.end, Some(id));
      free == (!clash && HasCapacity(g, db, b.start, WholeMinutes(b.start, b.end), Some(id), None, false))
    requires e.status.Some? ==>
      ok == (StatusAllowed(g, e.status.value) && TransitionAllowed(g, db.appointments[id].status, e.status.value))
    ensures PatchReply(g, db, id, e) == Done <==>
      && (e.employee.Some? ==> EmployeeAssignable(g, e.employee.value))
      && (b.typeId != db.appointments[id].typeId ==> TypeBookable(g, b.typeId))
      && e.otherwiseValid && (e.status.Some? ==> ok) && b.start < b.end
      && (SchedulingChanged(db.appointments[id], e) && Live(b) ==> free)
  {
  }

  lemma PatchAnswer(g: Garage, db: Database, id: nat, e: Edit, b: Appointment)
    requires ValidCalendar(g.calendar) && RequestsTimed(g, db.requests) && id < |db.appointments|
    requires b == Edited(db.appointments[id], e) && (b.start < b.end ==> SpanTimed(g, b.start, b.end))
    ensures PatchReply(g, db, id, e) == Done <==> MayEdit(g, db, id, e, b)
  {
    var free := Free(g, db, b.employee, b.start, b.end, Some(id), None, false);
    var ok := e.status.Some? && Known(g, e.status.value) && MayBecome(g, db.appointments[id].status, e.status.value);
    if b.start < b.end {
      FreeExactlyWhen(g, db, b.employee, b.start, b.end, Some(id), None, false);
    }
    if e.status.Some? {
      StatusExactlyWhen(g, db.appointments[id].status, e.status.value);
    }
    PatchChecks(g, db, id, e, b, free, ok);
  }

  lemma PatchRow(g: Garage, db: Database, id: nat, e: Edit, may: bool)
    requires id < |db.appointments| && (PatchReply(g, db, id, e) == Done <==> may)
    ensures var b := Edited(db.appointments[id], e);
      Patch(g, db, id, e).db == if may then db.(appointments := db.appointments[id := b]) else db
  {
  }

  lemma StepPatch(g: Garage, w: World, id: nat, e: Edit)
    ensures Step(g, w, DoPatch(id, e)).db == Patch(g, w.db, id, e).db
  {
  }

  /** An edit is made exactly when it may be, and it is the edit that was sent. */
  lemma PatchDecides(g: Garage, w: World, id: nat, e: Edit) returns (b: Appointment)
    requires ValidCalendar(g.calendar) && RequestsTimed(g, w.db.requests) && id < |w.db.appointments|
    requires forall b :: EditLands(w.db.appointments[id], e, b) && b.start < b.end ==> SpanTimed(g, b.start, b.end)
    ensures Patched(g, w.db, Step(g, w, DoPatch(id, e)).db, id, e, b)
  {
    b := Edited(w.db.appointments[id], e);
    EditedLands(w.db.appointments[id], e);
    StepPatch(g, w, id, e);
    PatchAnswer(g, w.db, id, e, b);
    PatchRow(g, w.db, id, e, MayEdit(g, w.db, id, e, b));
  }

  /** Staff's delete cancels the booking and keeps its row, unless it had another
      outcome. */
  lemma DeleteDecides(g: Garage, w: World, id: nat)
    requires id < |w.db.appointments|
    ensures var a, after := w.db.appointments[id], Step(g, w, DoDelete(id)).db;
      after == if MayBecome(g, a.status, CANCELLED)
        then w.db.(appointments := w.db.appointments[id := a.(status := CANCELLED)]) else w.db
  {
  }

  // -------------------------------------------------------------- an approval

  /** The appointment staff asked for, or as the request has it where they did
      not say: the request's own length and add-ons belong to its service. */
  ghost predicate BookedAs(g: Garage, r: Request, d: Approval, a: Appointment) {
    var sameService := r.typeId == Some(a.typeId);
    && d.employee == Some(a.employee)
    && (if d.typeId.Some? then d.typeId == Some(a.typeId) else sameService)
    && (if d.start.Some? then d.start == Some(a.start)
        else r.time.Some? && a.start == (g.calendar.slotAt)(r.day, r.time.value))
    && (if d.end.Some? then d.end == Some(a.end)
        else if r.minutes.Some? && (sameService || r.addOns == []) then a.end == a.start + r.minutes.value * MINUTE
        else a.typeId in g.types && g.types[a.typeId].minutes.Some?
             && a.end == a.start + g.types[a.typeId].minutes.value * MINUTE)
    && a.addOns == (if sameService then r.addOns else [])
    && a.status == BOOKED
  }

  ghost predicate MayApprove(g: Garage, db: Database, id: nat, r: Request, d: Approval, now: int, a: Appointment) {
    && r.status == Pending && !IsStale(g, r, now)
    && BookedAs(g, r, d, a)
    && a.employee in g.employees && g.employees[a.employee]
    && a.typeId in g.types && g.types[a.typeId].active
    && a.start < a.end
    && Free(g, db, a.employee, a.start, a.end, None, Some(id), true)
    && !d.vehicleClash
  }

  /** An approval answered with "done" books what was asked for, as the last
      appointment, and closes its request; no other row changes. */
  lemma ApprovalBooksAsAsked(g: Garage, db: Database, id: nat, r: Request, d: Approval, now: int)
    requires id < |db.requests| && ApproveSeen(g, db, id, r, d, now).reply == Done
    ensures var after, n := ApproveSeen(g, db, id, r, d, now).db, |db.appointments|;
      && |after.appointments| == n + 1 && after.appointments[..n] == db.appointments
      && BookedAs(g, r, d, after.appointments[n])
      && |after.requests| == |db.requests|
      && (forall i :: 0 <= i < |db.requests| && i != id ==> after.requests[i] == db.requests[i])
      && after.requests[id].status == Approved && after.requests[id].appointment == Some(n)
      && (r.typeId == db.requests[id].typeId ==> after.requests[id].typeId == Some(after.appointments[n].typeId))
  {
  }

  lemma ApprovedMay(g: Garage, db: Database, id: nat, r: Request, d: Approval, now: int)
    requires id < |db.requests| && ValidCalendar(g.calendar) && RequestsTimed(g, db.requests)
    requires forall a :: BookedAs(g, r, d, a) && a.start < a.end ==> SpanTimed(g, a.start, a.end)
    requires ApproveReply(g, db, id, r, d, now) == Done
    ensures exists a :: MayApprove(g, db, id, r, d, now, a)
  {
    var a := ApproveSeen(g, db, id, r, d, now).db.appointments[|db.appointments|];
    ApprovalBooksAsAsked(g, db, id, r, d, now);
    FreeExactlyWhen(g, db, a.employee, a.start, a.end, None, Some(id), true);
    assert MayApprove(g, db, id, r, d, now, a);
  }

  /** The answer of an approval, once its appointment is known and checked. */
  lemma ApprovalAnswer(
    g: Garage, db: Database, id: nat, r: Request, d: Approval, now: int, start: int, end: int, clash: bool, bay: bool)
    requires id < |db.requests| && ApprovedType(r, d).Some? && TypeBookable(g, ApprovedType(r, d).value)
    requires d.employee.Some? && EmployeeAssignable(g, d.employee.value)
    requires ApprovedStart(g, r, d) == Some(start) && ApprovedEnd(g, r, d) == Some(end)
    requires clash == HasConflict(db.appointments, d.employee.value, start, end, None)
    requires bay == HasCapacity(g, db, start, WholeMinutes(start, end), None, Some(id), true)
    ensures ApproveReply(g, db, id, r, d, now) == Done
      <==> r.status == Pending && !IsStale(g, r, now) && start < end && !clash && bay && !d.vehicleClash
  {
  }

  lemma MayIsApproved(g: Garage, db: Database, id: nat, r: Request, d: Approval, now: int, a: Appointment)
    requires id < |db.requests| && ValidCalendar(g.calendar) && RequestsTimed(g, db.requests)
    requires MayApprove(g, db, id, r, d, now, a) && SpanTimed(g, a.start, a.end)
    ensures ApproveReply(g, db, id, r, d, now) == Done
  {
    FreeExactlyWhen(g, db, a.employee, a.start, a.end, None, Some(id), true);
    BookedAsApproved(g, r, d, a);
    ApprovalAnswer(g, db, id, r, d, now, a.start, a.end, false, true);
  }

  lemma BookedAsApproved(g: Garage, r: Request, d: Approval, a: Appointment)
    requires BookedAs(g, r, d, a) && a.typeId in g.types
    ensures ApprovedType(r, d) == Some(a.typeId)
    ensures ApprovedStart(g, r, d) == Some(a.start) && ApprovedEnd(g, r, d) == Some(a.end)
  {
  }

  /** It is answered so exactly when there is such an appointment and it may be
      booked; otherwise at most the request expires. */
  lemma ApprovalDecides(g: Garage, db: Database, id: nat, r: Request, d: Approval, now: int)
    requires id < |db.requests| && ValidCalendar(g.calendar) && RequestsTimed(g, db.requests)
    requires forall a :: BookedAs(g, r, d, a) && a.start < a.end ==> SpanTimed(g, a.start, a.end)
    ensures ApproveReply(g, db, id, r, d, now) == Done <==> exists a :: MayApprove(g, db, id, r, d, now, a)
    ensures var o, expires := ApproveSeen(g, db, id, r, d, now), r.status == Pending && IsStale(g, r, now);
      o.reply != Done ==> o.db == if expires then WithStatus(db, id, Expired) else db
  {
    if ApproveReply(g, db, id, r, d, now) == Done {
      ApprovedMay(g, db, id, r, d, now);
    } else if a :| MayApprove(g, db, id, r, d, now, a) {
      MayIsApproved(g, db, id, r, d, now, a);
    }
  }

  lemma StepApprove(g: Garage, w: World, id: nat, d: Approval, now: int)
    requires id < |w.db.requests|
    ensures Step(g, w, DoApprove(id, d, now)).db == ApproveSeen(g, w.db, id, w.db.requests[id], d, now).db
  {
  }

  /** Staff's approval of the committed request: it is approved, with the booking
      asked for as the last appointment, exactly when such a booking may be made. */
  lemma StaffApprovalDecides(g: Garage, w: World, id: nat, d: Approval, now: int)
    requires id < |w.db.requests| && w.db.requests[id].status != Approved
    requires ValidCalendar(g.calendar) && RequestsTimed(g, w.db.requests)
    requires forall a :: BookedAs(g, w.db.requests[id], d, a) && a.start < a.end ==> SpanTimed(g, a.start, a.end)
    ensures var r, after, n := w.db.requests[id], Step(g, w, DoApprove(id, d, now)).db, |w.db.appointments|;
      if exists a :: MayApprove(g, w.db, id, r, d, now, a)
      then SchedulingRuns.IsApproved(after, id) && |after.appointments| == n + 1 && BookedAs(g, r, d, after.appointments[n])
      else !SchedulingRuns.IsApproved(after, id) && after.appointments == w.db.appointments
  {
    var r := w.db.requests[id];
    StepApprove(g, w, id, d, now);
    ApprovalDecides(g, w.db, id, r, d, now);
    if ApproveReply(g, w.db, id, r, d, now) == Done {
      ApprovalBooksAsAsked(g, w.db, id, r, d, now);
    }
  }

  /** Staff's refusal closes a waiting request, as expired once its slot passed. */
  lemma RejectDecides(g: Garage, w: World, id: nat, now: int)
    requires id < |w.db.requests|
    ensures var r := w.db.requests[id];
      Step(g, w, DoReject(id, now)).db == if r.status != Pending then w.db
        else WithStatus(w.db, id, if IsStale(g, r, now) then Expired else Rejected)
  {
  }

  // ------------------------------------------------------ auto-accept and sweep

  /** What `minutes` the request takes: its own, or else its service's. */
  predicate Lasts(g: Garage, r: Request, minutes: nat) {
    if r.minutes.Some? then r.minutes.value == minutes
    else r.typeId.Some? && r.typeId.value in g.types && g.types[r.typeId.value].minutes == Some(minutes)
  }

  /** A candidate is approved for its first free employee, exactly unless its slot
      has passed, its vehicle is somebody else's, or it has no length. */
  ghost predicate AutoAccepted(
    g: Garage, before: Database, after: Database, id: nat, e: EmployeeId, minutes: nat, clash: bool, now: int)
    requires id < |before.requests| && before.requests[id].time.Some? && before.requests[id].typeId.Some?
  {
    var r := before.requests[id];
    var start := (g.calendar.slotAt)(r.day, r.time.value);
    var booking := Appointment(e, r.typeId.value, start, start + minutes * MINUTE, BOOKED, r.addOns);
    if !IsStale(g, r, now) && !clash && minutes != 0
    then SchedulingRuns.IsApproved(after, id) && after.appointments == before.appointments + [booking]
    else !SchedulingRuns.IsApproved(after, id) && after.appointments == before.appointments
  }

  lemma SameCheck(g: Garage, db: Database, start: int, minutes: nat, whole: nat, exRequest: Option<nat>)
    requires HasCapacity(g, db, start, minutes, None, exRequest, true) && whole == minutes
    ensures HasCapacity(g, db, start, whole, None, exRequest, true)
  {
  }

  lemma AllMinutesAreWhole(start: int, minutes: nat)
    ensures WholeMinutes(start, start + minutes * MINUTE) == minutes
  {
  }

  lemma CandidateLasts(g: Garage, db: Database, id: nat, e: EmployeeId, minutes: nat)
    requires AutoCandidate(g, db, id, e) && Lasts(g, db.requests[id], minutes) && minutes != 0
    ensures AutoMinutes(g, db.requests[id]) == Some(minutes)
  {
  }

  lemma CandidateFacts(g: Garage, db: Database, id: nat, e: EmployeeId, minutes: nat)
    requires AutoCandidate(g, db, id, e) && Lasts(g, db.requests[id], minutes) && minutes != 0
    ensures var r := db.requests[id]; var start := (g.calendar.slotAt)(r.day, r.time.value);
      FirstFree(g, db.appointments, e, start, start + minutes * MINUTE)
    ensures var r := db.requests[id]; var start := (g.calendar.slotAt)(r.day, r.time.value);
      HasCapacity(g, db, start, minutes, None, Some(id), true)
  {
    CandidateLasts(g, db, id, e, minutes);
  }

  lemma PlainTimes(g: Garage, r: Request, e: EmployeeId, minutes: nat, clash: bool)
    requires r.time.Some? && r.typeId.Some? && TypeBookable(g, r.typeId.value) && Lasts(g, r, minutes)
    ensures var d, start := AutoApproval(e, clash), (g.calendar.slotAt)(r.day, r.time.value);
      && ApprovedType(r, d) == r.typeId
      && ApprovedStart(g, r, d) == Some(start) && ApprovedEnd(g, r, d) == Some(start + minutes * MINUTE)
  {
  }

  lemma PlainOutcome(g: Garage, db: Database, id: nat, e: EmployeeId, minutes: nat, clash: bool, now: int)
    requires id < |db.requests| && db.requests[id].status == Pending && Lasts(g, db.requests[id], minutes)
    requires db.requests[id].time.Some? && db.requests[id].typeId.Some?
    requires var r := db.requests[id];
      ApproveReply(g, db, id, r, AutoApproval(e, clash), now) == Done <==> !IsStale(g, r, now) && !clash && minutes != 0
    ensures var o := ApproveSeen(g, db, id, db.requests[id], AutoApproval(e, clash), now);
      AutoAccepted(g, db, o.db, id, e, minutes, clash, now)
  {
    var r, d := db.requests[id], AutoApproval(e, clash);
    if ApproveReply(g, db, id, r, d, now) == Done {
      ApprovalBooksAsAsked(g, db, id, r, d, now);
    }
  }

  lemma StepRead(g: Garage, w: World, id: nat, e: EmployeeId)
    requires id < |w.db.requests| && AutoCandidate(g, w.db, id, e)
    ensures Step(g, w, AutoRead(id, e)) == w.(picks := w.picks + [Some(Pick(id, w.db.requests[id], e))])
  {
  }

  lemma StepPick(g: Garage, w: World, k: nat, clash: bool, now: int)
    requires PickReady(w, k)
    ensures Step(g, w, AutoCommit(k, clash, now)).db == PickOutcome(g, w, k, clash, now).db
  {
  }

  lemma CandidateIsPending(g: Garage, db: Database, id: nat, e: EmployeeId)
    requires AutoCandidate(g, db, id, e)
    ensures id < |db.requests| && EmployeeAssignable(g, e)
    ensures var r := db.requests[id]; r.status == Pending && r.time.Some? && r.typeId.Some? && TypeBookable(g, r.typeId.value)
  {
  }

  /** The answers of the two checks for a candidate. */
  lemma CandidatePasses(g: Garage, db: Database, id: nat, e: EmployeeId, minutes: nat, start: int, end: int)
    returns (clash: bool, bay: bool)
    requires AutoCandidate(g, db, id, e) && Lasts(g, db.requests[id], minutes) && minutes != 0
    requires start == (g.calendar.slotAt)(db.requests[id].day, db.requests[id].time.value)
    requires end == start + minutes * MINUTE
    ensures clash == HasConflict(db.appointments, e, start, end, None) && !clash
    ensures bay == HasCapacity(g, db, start, WholeMinutes(start, end), None, Some(id), true) && bay
  {
    CandidateFacts(g, db, id, e, minutes);
    AllMinutesAreWhole(start, minutes);
    SameCheck(g, db, start, minutes, WholeMinutes(start, end), Some(id));
    clash, bay := false, true;
  }

  lemma CandidateIsAnswered(g: Garage, db: Database, id: nat, e: EmployeeId, minutes: nat, vehicle: bool, now: int)
    requires AutoCandidate(g, db, id, e) && Lasts(g, db.requests[id], minutes) && minutes != 0
    ensures var r := db.requests[id];
      ApproveReply(g, db, id, r, AutoApproval(e, vehicle), now) == Done <==> !IsStale(g, r, now) && !vehicle
  {
    CandidateIsPending(g, db, id, e);
    var r := db.requests[id];
    var start := (g.calendar.slotAt)(r.day, r.time.value);
    var end := start + minutes * MINUTE;
    PlainTimes(g, r, e, minutes, vehicle);
    var clash, bay := CandidatePasses(g, db, id, e, minutes, start, end);
    ApprovalAnswer(g, db, id, r, AutoApproval(e, vehicle), now, start, end, clash, bay);
  }

  lemma NoLengthIsRefused(g: Garage, db: Database, id: nat, r: Request, e: EmployeeId, clash: bool, now: int)
    requires id < |db.requests| && r.time.Some? && r.typeId.Some? && TypeBookable(g, r.typeId.value) && Lasts(g, r, 0)
    ensures ApproveReply(g, db, id, r, AutoApproval(e, clash), now) != Done
  {
    PlainTimes(g, r, e, 0, clash);
  }

  /** Picked and committed with nothing in between. */
  lemma AutoAcceptDecides(g: Garage, w: World, id: nat, e: EmployeeId, minutes: nat, clash: bool, now: int)
    requires AutoCandidate(g, w.db, id, e) && Lasts(g, w.db.requests[id], minutes)
    ensures var read := Step(g, w, AutoRead(id, e));
      AutoAccepted(g, w.db, Step(g, read, AutoCommit(|w.picks|, clash, now)).db, id, e, minutes, clash, now)
  {
    CandidateIsPending(g, w.db, id, e);
    if minutes != 0 {
      CandidateIsAnswered(g, w.db, id, e, minutes, clash, now);
    } else {
      NoLengthIsRefused(g, w.db, id, w.db.requests[id], e, clash, now);
    }
    PlainOutcome(g, w.db, id, e, minutes, clash, now);
    StepRead(g, w, id, e);
    StepPick(g, w.(picks := w.picks + [Some(Pick(id, w.db.requests[id], e))]), |w.picks|, clash, now);
  }

  /** A sweep that reads and writes with nothing in between closes exactly the
      waiting requests whose slot has passed. */
  lemma SweepDecides(g: Garage, w: World, now: int, i: nat)
    requires i < |w.db.requests|
    ensures var r, done := w.db.requests[i], Step(g, Step(g, w, SweepRead(now)), SweepCommit(|w.sweeps|)).db;
      && done.appointments == w.db.appointments && |done.requests| == |w.db.requests|
      && done.requests[i] == if r.status == Pending && IsStale(g, r, now) then r.(status := Expired) else r
  {
  }

  /** In UTC a request's slot has passed exactly when its instant has, or, when it
      names no time, its whole day. */
  lemma StaleMeansPassed(g: Garage, r: Request, now: int)
    requires g.calendar == Utc() && (r.time.Some? ==> 0 <= r.time.value <= END_OF_DAY)
    ensures IsStale(g, r, now)
      <==> (g.calendar.slotAt)(r.day, if r.time.Some? then r.time.value else END_OF_DAY) < now
  {
  }

  // ----------------------------------------------------- a move, a cancellation

  /** A conversation may still change this appointment. */
  predicate StillAhead(a: Appointment) {
    a.status != CANCELLED && a.status != COMPLETED && a.status != NO_SHOW
  }

  /** Without the business offering the slot, or once the booking is cancelled or
      over, or over another booking of its employee, a move changes nothing. */
  lemma RefusedMoveChangesNothing(g: Garage, w: World, k: nat, day: int, time: int, offered: bool)
    requires MoveReady(w, k) ==>
      var m, start := w.moves[k].value, (g.calendar.slotAt)(day, time);
      || !offered || !StillAhead(m.seen)
      || !Clear(w.db.appointments, m.seen.employee, start, start + (m.seen.end - m.seen.start), Some(m.id))
    ensures Step(g, w, MoveCommit(k, day, time, offered)).db == w.db
  {
    if MoveReady(w, k) {
      var m, start := w.moves[k].value, (g.calendar.slotAt)(day, time);
      ClearExactlyWhen(w.db.appointments, m.seen.employee, start, start + (m.seen.end - m.seen.start), Some(m.id));
    }
  }

  /** The slot is offered and free, and the row then starts there and keeps the
      length it was read with; otherwise nothing changes. */
  ghost predicate Moved(g: Garage, before: Database, o: Outcome, m: Move, start: int, offered: bool)
    requires m.id < |before.appointments|
  {
    var end := start + (m.seen.end - m.seen.start);
    var may := offered && StillAhead(m.seen) && Free(g, before, m.seen.employee, start, end, Some(m.id), None, true);
    var row := before.appointments[m.id].(start := start, end := end);
    && (o.reply == Done <==> may)
    && o.db == if may && start != m.seen.start then before.(appointments := before.appointments[m.id := row]) else before
  }

  lemma SeenMoveAnswer(g: Garage, db: Database, m: Move, start: int, day: int, time: int, offered: bool)
    requires m.id < |db.appointments| && ValidCalendar(g.calendar) && RequestsTimed(g, db.requests)
    requires start == (g.calendar.slotAt)(day, time)
    requires m.seen.start < m.seen.end && SpanTimed(g, start, start + (m.seen.end - m.seen.start))
    ensures var end := start + (m.seen.end - m.seen.start);
      RescheduleReply(g, db, m.id, m.seen, day, time, offered) == Done
      <==> offered && StillAhead(m.seen) && Free(g, db, m.seen.employee, start, end, Some(m.id), None, true)
  {
    FreeExactlyWhen(g, db, m.seen.employee, start, start + (m.seen.end - m.seen.start), Some(m.id), None, true);
  }

  lemma SeenMoveRow(g: Garage, db: Database, m: Move, start: int, day: int, time: int, offered: bool, may: bool)
    requires m.id < |db.appointments| && start == (g.calendar.slotAt)(day, time)
    requires RescheduleReply(g, db, m.id, m.seen, day, time, offered) == Done <==> may
    ensures var row := db.appointments[m.id].(start := start, end := start + (m.seen.end - m.seen.start));
      Reschedule(g, db, m.id, m.seen, day, time, offered).db
      == if may && start != m.seen.start then db.(appointments := db.appointments[m.id := row]) else db
  {
    assert db.appointments[m.id := db.appointments[m.id]] == db.appointments;
  }

  lemma StepMove(g: Garage, w: World, k: nat, day: int, time: int, offered: bool)
    requires MoveReady(w, k)
    ensures Step(g, w, MoveCommit(k, day, time, offered)).db == MoveOutcome(g, w, k, day, time, offered).db
  {
  }

  /** A move is made exactly when the business offers the slot and it is free. */
  lemma MoveDecides(g: Garage, w: World, k: nat, day: int, time: int, offered: bool)
    requires MoveReady(w, k) && ValidCalendar(g.calendar) && RequestsTimed(g, w.db.requests)
    requires var seen, start := w.moves[k].value.seen, (g.calendar.slotAt)(day, time);
      seen.start < seen.end && SpanTimed(g, start, start + (seen.end - seen.start))
    ensures var o := Outcome(Step(g, w, MoveCommit(k, day, time, offered)).db, MoveOutcome(g, w, k, day, time, offered).reply);
      Moved(g, w.db, o, w.moves[k].value, (g.calendar.slotAt)(day, time), offered)
  {
    StepMove(g, w, k, day, time, offered);
    var m, start := w.moves[k].value, (g.calendar.slotAt)(day, time);
    var end := start + (m.seen.end - m.seen.start);
    SeenMoveAnswer(g, w.db, m, start, day, time, offered);
    SeenMoveRow(g, w.db, m, start, day, time, offered,
      offered && StillAhead(m.seen) && Free(g, w.db, m.seen.employee, start, end, Some(m.id), None, true));
  }

  /** A conversation's cancel, read and committed with nothing in between. */
  lemma CancelDecides(g: Garage, w: World, id: nat)
    requires id < |w.db.appointments|
    ensures var read := Step(g, w, CancelRead(id));
      && (|read.cancels| > |w.cancels| <==> StillAhead(w.db.appointments[id]))
      && (StillAhead(w.db.appointments[id]) ==>
            Step(g, read, CancelCommit(|w.cancels|)).db.appointments
            == w.db.appointments[id := w.db.appointments[id].(status := CANCELLED)])
  {
  }

  // ------------------------------------------------------------ a new request

  /** The request holds the slot it was checked for, in the state it waits in. */
  ghost predicate Holds(g: Garage, s: Submission, r: Request) {
    && r.status == (if s.terms then AwaitingTerms else if s.deposit then AwaitingPayment else Pending)
    && r.typeId == s.typeId && r.day == s.day && r.time == s.time && r.addOns == s.addOns && r.appointment.None?
    && RequestMinutes(g, r) == SubmittedMinutes(g, s)
    && (s.typeId.Some? && s.typeId.value in g.types && g.types[s.typeId.value].minutes.Some? ==> r.minutes.Some?)
  }

  ghost predicate MaySubmit(g: Garage, db: Database, s: Submission) {
    && s.otherwiseValid && (s.addOns == [] || (s.typeId.Some? && SubmittedMinutes(g, s) >= 1))
    && (s.time.Some? ==>
          var start := (g.calendar.slotAt)(s.day, s.time.value);
          s.offered && BayFree(g, db, start, start + SubmittedMinutes(g, s) * MINUTE, None, None, true))
  }

  /** A slot the business does not offer is not requested. */
  lemma RefusedSubmissionChangesNothing(g: Garage, w: World, s: Submission)
    requires s.time.Some? && !s.offered
    ensures Step(g, w, DoSubmit(s)).db == w.db
  {
  }

  /** A request is taken exactly when its slot is offered and a bay is free over
      all of it beside those kept for walk-ins; it then holds that slot. */
  lemma SubmitDecides(g: Garage, w: World, s: Submission)
    requires ValidCalendar(g.calendar) && RequestsTimed(g, w.db.requests)
    requires s.time.Some? ==>
      var start := (g.calendar.slotAt)(s.day, s.time.value); OneDay(g, start, start + SubmittedMinutes(g, s) * MINUTE)
    ensures var after, n := Step(g, w, DoSubmit(s)).db, |w.db.requests|;
      && after.appointments == w.db.appointments
      && (MaySubmit(g, w.db, s) ==>
            |after.requests| == n + 1 && after.requests[..n] == w.db.requests && Holds(g, s, after.requests[n]))
      && (!MaySubmit(g, w.db, s) ==> after.requests == w.db.requests)
  {
    if Submittable(g, s) && s.time.Some? {
      CheckTellsTheTruth(
        g, w.db, (g.calendar.slotAt)(s.day, s.time.value), SubmittedMinutes(g, s), None, None, true);
    }
  }
}
