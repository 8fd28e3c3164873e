/** Appointments and booking requests of one business: the tables, the checks
    every writer makes, and what each committed transaction does to the tables.
    Rows are never deleted, so a row's id is its position in its table. */
module Scheduling {
  import opened Wrappers
  import opened Intervals

  type EmployeeId = nat
  type TypeId = nat

  /** Instants are microseconds; a time of day is microseconds since midnight. */
  const MINUTE: int := 60_000_000
  const END_OF_DAY: int := 24 * 60 * MINUTE - 1

  const CANCELLED := "CANCELLED"
  const COMPLETED := "COMPLETED"
  const NO_SHOW := "NO_SHOW"
  const BOOKED := "BOOKED"
  const DEFAULT_STATUSES: set<string> :=
    {"REQUESTED", BOOKED, "IN_PROGRESS", "ACTION_NEEDED", COMPLETED, CANCELLED, NO_SHOW}

  // ------------------------------------------------------------------- data

  /** The business's timezone: the local day and time of day of an instant, and
      the instant of a local day and time of day. */
  datatype Calendar = Calendar(dayOf: int -> int, timeOf: int -> int, slotAt: (int, int) -> int)

  /** Bays withheld from public booking for walk-ins. */
  datatype Window = Window(start: int, end: int, reserved: nat)

  datatype ServiceType = ServiceType(active: bool, minutes: Option<nat>)

  datatype Garage = Garage(
    calendar: Calendar,
    types: map<TypeId, ServiceType>,
    employees: map<EmployeeId, bool>,
    statuses: map<string, bool>,
    capacityPerSlot: Option<int>,
    defaultMinutes: nat,
    windowsOn: int -> seq<Window>,
    autoAccept: bool)

  /** An add-on applied to a booking; `None` once its catalogue row is gone. */
  datatype AddOn = AddOn(id: Option<nat>, quantity: int, minutes: int)

  datatype Appointment = Appointment(
    employee: EmployeeId, typeId: TypeId, start: int, end: int, status: string, addOns: seq<AddOn>)

  datatype RequestStatus =
    AwaitingTerms | AwaitingPayment | Pending | Approved | Rejected | Expired

  datatype Request = Request(
    status: RequestStatus, typeId: Option<TypeId>, day: int, time: Option<int>, minutes: Option<nat>,
    addOns: seq<AddOn>, appointment: Option<nat>)

  datatype Database = Database(appointments: seq<Appointment>, requests: seq<Request>)

  datatype Reply = Done | NotFound | Conflicting | Unprocessable

  datatype Outcome = Outcome(db: Database, reply: Reply)

  // ----------------------------------------------------------------- checks

  predicate Live(a: Appointment) {
    a.status != CANCELLED
  }

  predicate Busy(a: Appointment, employee: EmployeeId, start: int, end: int) {
    a.employee == employee && Live(a) && a.start < end && a.end > start
  }

  predicate HasConflict(rows: seq<Appointment>, employee: EmployeeId, start: int, end: int, exclude: Option<nat>) {
    exists i :: 0 <= i < |rows| && exclude != Some(i) && Busy(rows[i], employee, start, end)
  }

  predicate StatusAllowed(g: Garage, status: string) {
    if g.statuses == map[] then status in DEFAULT_STATUSES else status in g.statuses
  }

  predicate IsTerminal(g: Garage, status: string) {
    if status in g.statuses then g.statuses[status] else status in {COMPLETED, CANCELLED, NO_SHOW}
  }

  predicate TransitionAllowed(g: Garage, current: string, requested: string) {
    || requested == current
    || (if current == CANCELLED then !IsTerminal(g, requested) else !IsTerminal(g, current))
  }

  predicate EmployeeAssignable(g: Garage, e: EmployeeId) {
    e in g.employees && g.employees[e]
  }

  predicate TypeBookable(g: Garage, t: TypeId) {
    t in g.types && g.types[t].active
  }

  function SlotCapacity(g: Garage): (c: int)
    ensures c >= 1
  {
    Max(1, g.capacityPerSlot.GetOr(|g.employees|))
  }

  /** The largest reservation of the walk-in windows touching the span. */
  function ReservedAt(windows: seq<Window>, start: int, end: int): (n: nat) {
    if windows == [] then 0
    else
      var rest := ReservedAt(windows[1..], start, end);
      if windows[0].start < end && windows[0].end > start && windows[0].reserved > rest
      then windows[0].reserved else rest
  }

  predicate Reserving(r: Request) {
    (r.status == Pending || r.status == AwaitingPayment || r.status == AwaitingTerms) && r.time.Some?
  }

  function TypeMinutes(g: Garage, typeId: Option<TypeId>): nat {
    if typeId.Some? && typeId.value in g.types then g.types[typeId.value].minutes.GetOr(g.defaultMinutes)
    else g.defaultMinutes
  }

  function RequestMinutes(g: Garage, r: Request): nat {
    r.minutes.GetOr(TypeMinutes(g, r.typeId))
  }

  function RequestInterval(g: Garage, r: Request): (i: Interval)
    requires r.time.Some?
    ensures i.start <= i.end
  {
    var start := (g.calendar.slotAt)(r.day, r.time.value);
    Interval(start, start + RequestMinutes(g, r) * MINUTE)
  }

  /** What a row adds to the check of a local day: the check loads the rows that
      could touch the day. */
  function OnDay(g: Garage, a: Appointment, day: int): Interval {
    if Live(a) && a.start <= (g.calendar.slotAt)(day, END_OF_DAY) && a.end >= (g.calendar.slotAt)(day, 0)
    then Interval(a.start, a.end) else NOTHING
  }

  function AskedOnDay(g: Garage, r: Request, day: int): Interval {
    if Reserving(r) && r.day == day then RequestInterval(g, r) else NOTHING
  }

  function DayAppointments(g: Garage, rows: seq<Appointment>, day: int, exclude: Option<nat>): (s: seq<Interval>)
    ensures |s| == |rows|
    ensures forall i :: 0 <= i < |s| ==> s[i] == if exclude == Some(i) then NOTHING else OnDay(g, rows[i], day)
  {
    if rows == [] then []
    else
      var n := |rows| - 1;
      DayAppointments(g, rows[..n], day, exclude) + [if exclude == Some(n) then NOTHING else OnDay(g, rows[n], day)]
  }

  function DayRequests(g: Garage, rows: seq<Request>, day: int, exclude: Option<nat>): (s: seq<Interval>)
    ensures |s| == |rows|
    ensures forall i :: 0 <= i < |s| ==> s[i] == if exclude == Some(i) then NOTHING else AskedOnDay(g, rows[i], day)
  {
    if rows == [] then []
    else
      var n := |rows| - 1;
      DayRequests(g, rows[..n], day, exclude) + [if exclude == Some(n) then NOTHING else AskedOnDay(g, rows[n], day)]
  }

  function DayUsage(g: Garage, db: Database, day: int, exAppointment: Option<nat>, exRequest: Option<nat>): seq<Interval> {
    DayAppointments(g, db.appointments, day, exAppointment) + DayRequests(g, db.requests, day, exRequest)
  }

  function CapacityFor(g: Garage, start: int, minutes: nat, walkIns: bool): int {
    SlotCapacity(g) - if walkIns
                      then ReservedAt((g.windowsOn)((g.calendar.dayOf)(start)), start, start + minutes * MINUTE)
                      else 0
  }

  /** `used < capacity` for a candidate slot, as every writer asks it. */
  ghost predicate HasCapacity(
    g: Garage, db: Database, start: int, minutes: nat, exAppointment: Option<nat>, exRequest: Option<nat>, walkIns: bool)
  {
    Fits(DayUsage(g, db, (g.calendar.dayOf)(start), exAppointment, exRequest),
         start, start + minutes * MINUTE, CapacityFor(g, start, minutes, walkIns))
  }

  /** `int(total_seconds // 60)`: a part minute is dropped. */
  function WholeMinutes(start: int, end: int): nat {
    Max(0, end - start) / MINUTE
  }

  predicate IsStale(g: Garage, r: Request, now: int) {
    || r.day < (g.calendar.dayOf)(now)
    || (r.day == (g.calendar.dayOf)(now) && r.time.Some? && r.time.value < (g.calendar.timeOf)(now))
  }

  // ---------------------------------------------------------------- add-ons

  function DurationDelta(rows: seq<AddOn>): int {
    if rows == [] then 0 else DurationDelta(rows[..|rows| - 1]) + rows[|rows| - 1].minutes * rows[|rows| - 1].quantity
  }

  /** Add-ons already on the booking, by catalogue id; the last one wins. */
  function ByAddOn(rows: seq<AddOn>): map<nat, AddOn> {
    if rows == [] then map[]
    else
      var last := rows[|rows| - 1];
      var m := ByAddOn(rows[..|rows| - 1]);
      if last.id.Some? then m[last.id.value := last] else m
  }

  function KeepSnapshot(kept: map<nat, AddOn>, row: AddOn): AddOn {
    if row.id.Some? && row.id.value in kept
    then AddOn(kept[row.id.value].id, row.quantity, kept[row.id.value].minutes)
    else row
  }

  /** What an edited booking ends up with: kept add-ons keep their duration. */
  function PlanAddOns(existing: seq<AddOn>, typeChanged: bool, resolved: seq<AddOn>): seq<AddOn> {
    var kept := ByAddOn(if typeChanged then [] else existing);
    seq(|resolved|, i requires 0 <= i < |resolved| => KeepSnapshot(kept, resolved[i]))
  }

  // ----------------------------------------------------------- transactions

  /** `resolved` is the add-on selection after the catalogue accepted it;
      `otherwiseValid` says the customer, vehicle and discount checks passed. */
  datatype NewAppointment = NewAppointment(
    employee: EmployeeId, typeId: TypeId, start: int, end: Option<int>, status: Option<string>,
    resolved: seq<AddOn>, otherwiseValid: bool)

  function EndFor(g: Garage, n: NewAppointment): Option<int>
    requires n.typeId in g.types
  {
    if n.end.Some? then n.end
    else match g.types[n.typeId].minutes
      case Some(m) => Some(n.start + (m + DurationDelta(n.resolved)) * MINUTE)
      case None => None
  }

  function NewStatus(n: NewAppointment): string {
    if n.status.Some? && n.status.value != "" then n.status.value else BOOKED
  }

  /** Why a new appointment is refused, or `Done`. */
  ghost function PostReply(g: Garage, db: Database, n: NewAppointment): Reply {
    if !EmployeeAssignable(g, n.employee) || !TypeBookable(g, n.typeId) || !n.otherwiseValid then Unprocessable
    else match EndFor(g, n)
      case None => Unprocessable
      case Some(end) =>
        if n.start >= end then Unprocessable
        else if n.status.Some? && !StatusAllowed(g, n.status.value) then Unprocessable
        else if HasConflict(db.appointments, n.employee, n.start, end, None) then Conflicting
        else if n.status != Some(CANCELLED)
                && !HasCapacity(g, db, n.start, WholeMinutes(n.start, end), None, None, false) then Conflicting
        else Done
  }

  ghost function Post(g: Garage, db: Database, n: NewAppointment): Outcome {
    var reply := PostReply(g, db, n);
    if reply != Done then Outcome(db, reply)
    else
      var row := Appointment(n.employee, n.typeId, n.start, EndFor(g, n).value, NewStatus(n), n.resolved);
      Outcome(db.(appointments := db.appointments + [row]), Done)
  }

  /** Only the keys sent are `Some`. */
  datatype Edit = Edit(
    employee: Option<EmployeeId>, typeId: Option<TypeId>, start: Option<int>, end: Option<int>,
    status: Option<string>, resolved: Option<seq<AddOn>>, otherwiseValid: bool)

  /** Re-sending the current service is not a change of service. */
  function NewType(a: Appointment, e: Edit): Option<TypeId> {
    if e.typeId == Some(a.typeId) then None else e.typeId
  }

  function PlannedAddOns(a: Appointment, e: Edit): Option<seq<AddOn>> {
    if e.resolved.Some? || NewType(a, e).Some?
    then Some(PlanAddOns(a.addOns, NewType(a, e).Some?, e.resolved.GetOr([])))
    else None
  }

  /** The change of duration the new add-ons bring, when no end was sent. */
  function EndShift(a: Appointment, e: Edit): int {
    if e.end.None? && PlannedAddOns(a, e).Some?
    then DurationDelta(PlannedAddOns(a, e).value) - DurationDelta(a.addOns)
    else 0
  }

  function Edited(a: Appointment, e: Edit): Appointment {
    Appointment(
      e.employee.GetOr(a.employee), NewType(a, e).GetOr(a.typeId),
      e.start.GetOr(a.start), e.end.GetOr(a.end + EndShift(a, e) * MINUTE),
      e.status.GetOr(a.status), PlannedAddOns(a, e).GetOr(a.addOns))
  }

  predicate SchedulingChanged(a: Appointment, e: Edit) {
    || e.employee.Some? || e.start.Some? || e.end.Some? || EndShift(a, e) != 0
    || (!Live(a) && Live(Edited(a, e)))
  }

  ghost function PatchReply(g: Garage, db: Database, id: nat, e: Edit): Reply {
    if id >= |db.appointments| then NotFound
    else
      var a := db.appointments[id];
      var b := Edited(a, e);
      if e.employee.Some? && !EmployeeAssignable(g, e.employee.value) then Unprocessable
      else if NewType(a, e).Some? && !TypeBookable(g, NewType(a, e).value) then Unprocessable
      else if !e.otherwiseValid then Unprocessable
      else if e.status.Some? && !StatusAllowed(g, e.status.value) then Unprocessable
      else if e.status.Some? && !TransitionAllowed(g, a.status, e.status.value) then Conflicting
      else if b.start >= b.end then Unprocessable
      else if SchedulingChanged(a, e) && Live(b)
              && (HasConflict(db.appointments, b.employee, b.start, b.end, Some(id))
                  || !HasCapacity(g, db, b.start, WholeMinutes(b.start, b.end), Some(id), None, false))
      then Conflicting
      else Done
  }

  ghost function Patch(g: Garage, db: Database, id: nat, e: Edit): Outcome {
    var reply := PatchReply(g, db, id, e);
    if reply != Done then Outcome(db, reply)
    else Outcome(db.(appointments := db.appointments[id := Edited(db.appointments[id], e)]), Done)
  }

  function Delete(g: Garage, db: Database, id: nat): Outcome {
    if id >= |db.appointments| then Outcome(db, NotFound)
    else if !TransitionAllowed(g, db.appointments[id].status, CANCELLED) then Outcome(db, Conflicting)
    else Outcome(db.(appointments := db.appointments[id := db.appointments[id].(status := CANCELLED)]), Done)
  }

  /** The staff form of an approval; `vehicleClash` is the registration already
      belonging to somebody else. */
  datatype Approval = Approval(
    typeId: Option<TypeId>, employee: Option<EmployeeId>, start: Option<int>, end: Option<int>, vehicleClash: bool)

  function ApprovedType(r: Request, d: Approval): Option<TypeId> {
    if d.typeId.Some? then d.typeId else r.typeId
  }

  predicate KeepsAddOns(r: Request, d: Approval) {
    ApprovedType(r, d) == r.typeId
  }

  function ApprovedStart(g: Garage, r: Request, d: Approval): Option<int> {
    if d.start.Some? then d.start
    else if r.time.Some? then Some((g.calendar.slotAt)(r.day, r.time.value))
    else None
  }

  /** The requested duration is dropped together with the request's add-ons. */
  function ApprovedMinutes(g: Garage, r: Request, d: Approval): Option<nat>
    requires ApprovedType(r, d).Some? && ApprovedType(r, d).value in g.types
  {
    if r.minutes.Some? && (KeepsAddOns(r, d) || r.addOns == []) then r.minutes
    else g.types[ApprovedType(r, d).value].minutes
  }

  function ApprovedEnd(g: Garage, r: Request, d: Approval): Option<int>
    requires ApprovedType(r, d).Some? && ApprovedType(r, d).value in g.types
    requires ApprovedStart(g, r, d).Some?
  {
    if d.end.Some? then d.end
    else match ApprovedMinutes(g, r, d)
      case Some(m) => Some(ApprovedStart(g, r, d).value + m * MINUTE)
      case None => None
  }

  /** What the session knows of the request is `r`: the committed row, or a copy
      read before the lock, which the locked query does not refresh. */
  ghost function ApproveReply(g: Garage, db: Database, id: nat, r: Request, d: Approval, now: int): Reply
    requires id < |db.requests|
  {
    if r.status != Pending || IsStale(g, r, now) then Conflicting
    else if ApprovedType(r, d).None? || !TypeBookable(g, ApprovedType(r, d).value) then Unprocessable
    else if d.employee.None? || !EmployeeAssignable(g, d.employee.value) then Unprocessable
    else if ApprovedStart(g, r, d).None? || ApprovedEnd(g, r, d).None? then Unprocessable
    else
      var start, end := ApprovedStart(g, r, d).value, ApprovedEnd(g, r, d).value;
      if start >= end then Unprocessable
      else if HasConflict(db.appointments, d.employee.value, start, end, None) then Conflicting
      else if !HasCapacity(g, db, start, WholeMinutes(start, end), None, Some(id), true) then Conflicting
      else if d.vehicleClash then Conflicting
      else Done
  }

  /** Only columns that differ from the copy are written to the row. */
  function ApprovedRow(row: Request, r: Request, d: Approval, booked: nat): Request {
    row.(status := Approved, appointment := Some(booked),
         typeId := if KeepsAddOns(r, d) then row.typeId else ApprovedType(r, d))
  }

  ghost function ApproveSeen(g: Garage, db: Database, id: nat, r: Request, d: Approval, now: int): Outcome
    requires id < |db.requests|
  {
    var reply := ApproveReply(g, db, id, r, d, now);
    if reply == Done then
      var booking := Appointment(
        d.employee.value, ApprovedType(r, d).value, ApprovedStart(g, r, d).value, ApprovedEnd(g, r, d).value,
        BOOKED, if KeepsAddOns(r, d) then r.addOns else []);
      Outcome(
        Database(
          db.appointments + [booking],
          db.requests[id := ApprovedRow(db.requests[id], r, d, |db.appointments|)]),
        Done)
    else if r.status == Pending && IsStale(g, r, now) then
      // committed before the 409 is raised
      Outcome(db.(requests := db.requests[id := db.requests[id].(status := Expired)]), reply)
    else Outcome(db, reply)
  }

  /** Staff approve in a session that has not read the request before. */
  ghost function Approve(g: Garage, db: Database, id: nat, d: Approval, now: int): Outcome {
    if id < |db.requests| then ApproveSeen(g, db, id, db.requests[id], d, now) else Outcome(db, NotFound)
  }

  function Reject(g: Garage, db: Database, id: nat, now: int): Outcome {
    if id >= |db.requests| then Outcome(db, NotFound)
    else
      var r := db.requests[id];
      if r.status != Pending then Outcome(db, Conflicting)
      else if IsStale(g, r, now) then Outcome(db.(requests := db.requests[id := r.(status := Expired)]), Conflicting)
      else Outcome(db.(requests := db.requests[id := r.(status := Rejected)]), Done)
  }

  /** What the unlocked first read of the expiry sweep collects. */
  function StaleIds(g: Garage, db: Database, now: int): set<nat> {
    set i: nat | i < |db.requests| && db.requests[i].status == Pending && IsStale(g, db.requests[i], now)
  }

  /** The guarded UPDATE: only rows that are still pending change. */
  function ExpireRow(ids: set<nat>, i: nat, r: Request): Request {
    if i in ids && r.status == Pending then r.(status := Expired) else r
  }

  function ExpireRows(rows: seq<Request>, ids: set<nat>): seq<Request> {
    seq(|rows|, i requires 0 <= i < |rows| => ExpireRow(ids, i, rows[i]))
  }

  /** A conversation may only touch a booking that is still to happen. */
  predicate ChatCancellable(a: Appointment) {
    a.status != CANCELLED && a.status != COMPLETED && a.status != NO_SHOW
  }

  /** The same employee, service and length at another local slot. */
  function MovedTo(g: Garage, a: Appointment, day: int, time: int): Appointment {
    var start := (g.calendar.slotAt)(day, time);
    a.(start := start, end := start + (a.end - a.start))
  }

  /** `seen` is the appointment as the conversation read it before the lock;
      `offered` is validate_slot's answer before its capacity check. */
  ghost function RescheduleReply(
    g: Garage, db: Database, id: nat, seen: Appointment, day: int, time: int, offered: bool): Reply
  {
    if id >= |db.appointments| then NotFound
    else
      var b := MovedTo(g, seen, day, time);
      if !ChatCancellable(b) || !offered then Conflicting
      else if !HasCapacity(g, db, b.start, WholeMinutes(b.start, b.end), Some(id), None, true) then Conflicting
      else if HasConflict(db.appointments, b.employee, b.start, b.end, Some(id)) then Conflicting
      else Done
  }

  /** Only start and end are written, and only where they differ from the copy. */
  function MovedRow(row: Appointment, seen: Appointment, moved: Appointment): Appointment {
    if moved.start == seen.start then row else row.(start := moved.start, end := moved.end)
  }

  ghost function Reschedule(
    g: Garage, db: Database, id: nat, seen: Appointment, day: int, time: int, offered: bool): Outcome
  {
    var reply := RescheduleReply(g, db, id, seen, day, time, offered);
    if reply != Done then Outcome(db, reply)
    else
      var row := MovedRow(db.appointments[id], seen, MovedTo(g, seen, day, time));
      Outcome(db.(appointments := db.appointments[id := row]), Done)
  }

  /** A request from the web form, a conversation or a call. Only the form sends
      add-ons; `otherwiseValid` says its type, questions and discount passed. */
  datatype Submission = Submission(
    typeId: Option<TypeId>, day: int, time: Option<int>, addOns: seq<AddOn>, terms: bool, deposit: bool, offered: bool,
    otherwiseValid: bool)

  /** The length the slot is checked for, add-ons included. */
  function SubmittedMinutes(g: Garage, s: Submission): int {
    if s.addOns == [] then TypeMinutes(g, s.typeId) else TypeMinutes(g, s.typeId) + DurationDelta(s.addOns)
  }

  predicate Submittable(g: Garage, s: Submission) {
    s.otherwiseValid && (s.addOns == [] || (s.typeId.Some? && SubmittedMinutes(g, s) >= 1))
  }

  function SubmittedRow(g: Garage, s: Submission): Request
    requires Submittable(g, s)
  {
    Request(
      if s.terms then AwaitingTerms else if s.deposit then AwaitingPayment else Pending,
      s.typeId, s.day, s.time,
      if s.addOns != [] then Some(SubmittedMinutes(g, s))
      else if s.typeId.Some? && s.typeId.value in g.types then g.types[s.typeId.value].minutes else None,
      s.addOns, None)
  }

  ghost function Submit(g: Garage, db: Database, s: Submission): Outcome {
    if !Submittable(g, s) then Outcome(db, Unprocessable)
    else if s.time.Some? && (!s.offered
        || !HasCapacity(g, db, (g.calendar.slotAt)(s.day, s.time.value), SubmittedMinutes(g, s), None, None, true))
    then Outcome(db, Conflicting)
    else Outcome(db.(requests := db.requests + [SubmittedRow(g, s)]), Done)
  }

  // --------------------------------------------------------- the work queue

  /** Rows as they were when a session read them; the session goes by these
      copies until it commits. */
  datatype Pick = Pick(id: nat, seen: Request, employee: EmployeeId)

  datatype Move = Move(id: nat, seen: Appointment)

  datatype Hold = Hold(id: nat, seen: RequestStatus)

  /** What workers hold between an unlocked read and the write it led to; `None`
      once that write was made. */
  datatype World = World(
    db: Database, sweeps: seq<set<nat>>, cancels: seq<nat>,
    picks: seq<Option<Pick>>, moves: seq<Option<Move>>, holds: seq<Option<Hold>>)

  function Idle(db: Database): World {
    World(db, [], [], [], [], [])
  }

  /** The read half of auto-accept: the first active employee, by id, with no
      clash at the requested time. */
  predicate FirstFree(g: Garage, rows: seq<Appointment>, e: EmployeeId, start: int, end: int) {
    && EmployeeAssignable(g, e)
    && !HasConflict(rows, e, start, end, None)
    && forall f :: f in g.employees && f < e && g.employees[f] ==> HasConflict(rows, f, start, end, None)
  }

  function AutoMinutes(g: Garage, r: Request): Option<nat> {
    if r.minutes.Some? && r.minutes.value != 0 then r.minutes
    else if r.typeId.Some? && r.typeId.value in g.types then g.types[r.typeId.value].minutes
    else None
  }

  ghost predicate AutoCandidate(g: Garage, db: Database, id: nat, e: EmployeeId) {
    && g.autoAccept
    && id < |db.requests|
    && var r := db.requests[id];
    && r.status == Pending && r.time.Some?
    && r.typeId.Some? && TypeBookable(g, r.typeId.value)
    && AutoMinutes(g, r).Some?
    && var start := (g.calendar.slotAt)(r.day, r.time.value);
    && HasCapacity(g, db, start, AutoMinutes(g, r).value, None, Some(id), true)
    && FirstFree(g, db.appointments, e, start, start + AutoMinutes(g, r).value * MINUTE)
  }

  datatype Action =
    | DoPost(n: NewAppointment)
    | DoPatch(id: nat, e: Edit)
    | DoDelete(id: nat)
    | DoApprove(id: nat, d: Approval, now: int)
    | AutoRead(id: nat, pick: EmployeeId)
    | AutoCommit(k: nat, vehicleClash: bool, now: int)
    | DoReject(id: nat, now: int)
    | SweepRead(now: int)
    | SweepCommit(k: nat)
    | CancelRead(id: nat)
    | CancelCommit(k: nat)
    | MoveRead(id: nat)
    | MoveCommit(k: nat, day: int, time: int, offered: bool)
    | DoSubmit(s: Submission)
    | HoldRead(id: nat)
    | HoldCommit(k: nat, to: RequestStatus)
    | Reopen(id: nat)

  /** Terms accepted, deposit paid, or the hold timed out. `Reopen` is a paid
      deposit putting its request back to PENDING: a recovered checkout does so
      whatever became of the request, a late payment while the slot passes. */
  predicate HoldMoves(before: RequestStatus, after: RequestStatus) {
    || (before == AwaitingTerms && after in {AwaitingPayment, Pending, Expired})
    || (before == AwaitingPayment && after in {Pending, Expired})
  }

  function AutoApproval(e: EmployeeId, vehicleClash: bool): Approval {
    Approval(None, Some(e), None, None, vehicleClash)
  }

  predicate PickReady(w: World, k: nat) {
    k < |w.picks| && w.picks[k].Some? && w.picks[k].value.id < |w.db.requests|
  }

  predicate MoveReady(w: World, k: nat) {
    k < |w.moves| && w.moves[k].Some? && w.moves[k].value.id < |w.db.appointments|
  }

  predicate HoldReady(w: World, k: nat, to: RequestStatus) {
    && k < |w.holds| && w.holds[k].Some? && w.holds[k].value.id < |w.db.requests|
    && HoldMoves(w.holds[k].value.seen, to)
  }

  ghost function PickOutcome(g: Garage, w: World, k: nat, clash: bool, now: int): Outcome
    requires PickReady(w, k)
  {
    var p := w.picks[k].value;
    ApproveSeen(g, w.db, p.id, p.seen, AutoApproval(p.employee, clash), now)
  }

  ghost function MoveOutcome(g: Garage, w: World, k: nat, day: int, time: int, offered: bool): Outcome
    requires MoveReady(w, k)
  {
    var m := w.moves[k].value;
    Reschedule(g, w.db, m.id, m.seen, day, time, offered)
  }

  function WithStatus(db: Database, id: nat, status: RequestStatus): Database
    requires id < |db.requests|
  {
    db.(requests := db.requests[id := db.requests[id].(status := status)])
  }

  ghost function Step(g: Garage, w: World, a: Action): World {
    match a
    case DoPost(n) => w.(db := Post(g, w.db, n).db)
    case DoPatch(id, e) => w.(db := Patch(g, w.db, id, e).db)
    case DoDelete(id) => w.(db := Delete(g, w.db, id).db)
    case DoApprove(id, d, now) => w.(db := Approve(g, w.db, id, d, now).db)
    case AutoRead(id, pick) =>
      if AutoCandidate(g, w.db, id, pick) then w.(picks := w.picks + [Some(Pick(id, w.db.requests[id], pick))]) else w
    case AutoCommit(k, clash, now) =>
      if PickReady(w, k) then w.(db := PickOutcome(g, w, k, clash, now).db, picks := w.picks[k := None]) else w
    case DoReject(id, now) => w.(db := Reject(g, w.db, id, now).db)
    case SweepRead(now) => w.(sweeps := w.sweeps + [StaleIds(g, w.db, now)])
    case SweepCommit(k) =>
      if k < |w.sweeps| then w.(db := w.db.(requests := ExpireRows(w.db.requests, w.sweeps[k]))) else w
    case CancelRead(id) =>
      if id < |w.db.appointments| && ChatCancellable(w.db.appointments[id]) then w.(cancels := w.cancels + [id]) else w
    case CancelCommit(k) =>
      if k < |w.cancels| && w.cancels[k] < |w.db.appointments| then
        var id := w.cancels[k];
        w.(db := w.db.(appointments := w.db.appointments[id := w.db.appointments[id].(status := CANCELLED)]))
      else w
    case MoveRead(id) =>
      if id < |w.db.appointments| then w.(moves := w.moves + [Some(Move(id, w.db.appointments[id]))]) else w
    case MoveCommit(k, day, time, offered) =>
      if MoveReady(w, k) then w.(db := MoveOutcome(g, w, k, day, time, offered).db, moves := w.moves[k := None]) else w
    case DoSubmit(s) => w.(db := Submit(g, w.db, s).db)
    case HoldRead(id) =>
      if id < |w.db.requests| then w.(holds := w.holds + [Some(Hold(id, w.db.requests[id].status))]) else w
    case HoldCommit(k, to) =>
      if HoldReady(w, k, to) then w.(db := WithStatus(w.db, w.holds[k].value.id, to), holds := w.holds[k := None]) else w
    case Reopen(id) => if id < |w.db.requests| then w.(db := WithStatus(w.db, id, Pending)) else w
  }

  /** Settings may change between transactions; these are the ones this one sees. */
  datatype Event = Event(garage: Garage, action: Action)

  ghost function Run(w: World, es: seq<Event>): World {
    if es == [] then w
    else Step(es[|es| - 1].garage, Run(w, es[..|es| - 1]), es[|es| - 1].action)
  }

  lemma RunNext(w: World, es: seq<Event>, k: nat)
    requires k < |es|
    ensures Run(w, es[..k + 1]) == Step(es[k].garage, Run(w, es[..k]), es[k].action)
  {
    assert es[..k + 1][..k] == es[..k];
  }
}
