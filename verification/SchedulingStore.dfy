/** The transactions as they run: each reads and updates the tables in place,
    and leaves exactly the tables its specification in Scheduling describes. */
module SchedulingStore {
  import opened Wrappers
  import opened Intervals
  import S = Scheduling
  import SchedulingRuns

  /** The active employees in id order, as the assignment query returns them. */
  ghost predicate IsRoster(g: S.Garage, ids: seq<S.EmployeeId>) {
    && (forall i, j :: 0 <= i < j < |ids| ==> ids[i] < ids[j])
    && (forall e :: e in ids <==> S.EmployeeAssignable(g, e))
  }

  /** How many rows the guarded UPDATE changes. */
  function Changed(rows: seq<S.Request>, ids: set<nat>): nat {
    if rows == [] then 0
    else
      var i := |rows| - 1;
      Changed(rows[..i], ids) + if i in ids && rows[i].status == S.Pending then 1 else 0
  }

  lemma DayUsageProper(g: S.Garage, db: S.Database, day: int, exAppointment: Option<nat>, exRequest: Option<nat>)
    requires SchedulingRuns.Forward(db.appointments)
    ensures Proper(S.DayUsage(g, db, day, exAppointment, exRequest))
  {
    var a, b := S.DayAppointments(g, db.appointments, day, exAppointment), S.DayRequests(g, db.requests, day, exRequest);
    assert Proper(a) && Proper(b);
  }

  class Store {
    var garage: S.Garage
    var appointments: seq<S.Appointment>
    var requests: seq<S.Request>

    ghost predicate Valid()
      reads this
    {
      SchedulingRuns.DiaryOk(appointments)
    }

    ghost function Db(): S.Database
      reads this
    {
      S.Database(appointments, requests)
    }

    constructor (g: S.Garage)
      ensures Valid() && garage == g && Db() == S.Database([], [])
    {
      garage := g;
      appointments, requests := [], [];
    }

    /** Everything the candidate's local day holds, one interval a row. */
    method LoadDayUsage(day: int, exAppointment: Option<nat>, exRequest: Option<nat>) returns (intervals: seq<Interval>)
      requires Valid()
      ensures intervals == S.DayUsage(garage, Db(), day, exAppointment, exRequest)
      ensures Proper(intervals)
    {
      DayUsageProper(garage, Db(), day, exAppointment, exRequest);
      var booked := S.DayAppointments(garage, appointments, day, exAppointment);
      intervals := booked;
      var pending := S.DayRequests(garage, requests, day, exRequest);
      for i := 0 to |pending|
        invariant intervals == booked + pending[..i]
      {
        intervals := intervals + [pending[i]];
      }
    }

    /** Peak use of a candidate slot by everything else, and what it may use. */
    method SlotCapacityUsage(
      start: int, minutes: nat, exAppointment: Option<nat>, exRequest: Option<nat>, walkIns: bool)
      returns (used: int, capacity: int)
      requires Valid()
      ensures used < capacity <==> S.HasCapacity(garage, Db(), start, minutes, exAppointment, exRequest, walkIns)
      ensures IsPeak(S.DayUsage(garage, Db(), (garage.calendar.dayOf)(start), exAppointment, exRequest),
                     start, start + minutes * S.MINUTE, used)
    {
      capacity := S.CapacityFor(garage, start, minutes, walkIns);
      var intervals := LoadDayUsage((garage.calendar.dayOf)(start), exAppointment, exRequest);
      used := PeakOverlap(intervals, start, start + minutes * S.MINUTE);
      PeakDecidesFit(intervals, start, start + minutes * S.MINUTE, used, capacity);
    }

    method CheckConflict(employee: S.EmployeeId, start: int, end: int, exclude: Option<nat>) returns (clash: bool)
      ensures clash == S.HasConflict(appointments, employee, start, end, exclude)
    {
      clash := false;
      for i := 0 to |appointments|
        invariant clash <==> exists j :: 0 <= j < i && exclude != Some(j) && S.Busy(appointments[j], employee, start, end)
      {
        if exclude != Some(i) && S.Busy(appointments[i], employee, start, end) {
          clash := true;
        }
      }
    }

    /** The two checks every locked writer makes before it takes a slot. */
    method SlotIsFree(
      employee: S.EmployeeId, start: int, end: int, exAppointment: Option<nat>, exRequest: Option<nat>, walkIns: bool)
      returns (free: bool)
      requires Valid()
      ensures free <==>
        && !S.HasConflict(appointments, employee, start, end, exAppointment)
        && S.HasCapacity(garage, Db(), start, S.WholeMinutes(start, end), exAppointment, exRequest, walkIns)
    {
      var clash := CheckConflict(employee, start, end, exAppointment);
      var used, capacity := SlotCapacityUsage(start, S.WholeMinutes(start, end), exAppointment, exRequest, walkIns);
      free := !clash && used < capacity;
    }

    method Post(n: S.NewAppointment) returns (reply: S.Reply)
      requires Valid()
      modifies this`appointments
      ensures Valid()
      ensures S.Outcome(Db(), reply) == S.Post(garage, old(Db()), n)
    {
      SchedulingRuns.PostKeepsDiary(garage, Db(), n);
      if !S.EmployeeAssignable(garage, n.employee) || !S.TypeBookable(garage, n.typeId) || !n.otherwiseValid {
        return S.Unprocessable;
      }
      var end := S.EndFor(garage, n);
      if end.None? || n.start >= end.value {
        return S.Unprocessable;
      }
      if n.status.Some? && !S.StatusAllowed(garage, n.status.value) {
        return S.Unprocessable;
      }
      var clash := CheckConflict(n.employee, n.start, end.value, None);
      if clash {
        return S.Conflicting;
      }
      if n.status != Some(S.CANCELLED) {
        var used, capacity := SlotCapacityUsage(n.start, S.WholeMinutes(n.start, end.value), None, None, false);
        if used >= capacity {
          return S.Conflicting;
        }
      }
      var row := S.Appointment(n.employee, n.typeId, n.start, end.value, S.NewStatus(n), n.resolved);
      appointments := appointments + [row];
      reply := S.Done;
    }

    method PlanAddOns(existing: seq<S.AddOn>, typeChanged: bool, resolved: seq<S.AddOn>) returns (planned: seq<S.AddOn>)
      ensures planned == S.PlanAddOns(existing, typeChanged, resolved)
    {
      var rows := if typeChanged then [] else existing;
      var byAddOn: map<nat, S.AddOn> := map[];
      for i := 0 to |rows|
        invariant byAddOn == S.ByAddOn(rows[..i])
      {
        assert rows[..i + 1][..i] == rows[..i];
        if rows[i].id.Some? {
          byAddOn := byAddOn[rows[i].id.value := rows[i]];
        }
      }
      assert rows[..|rows|] == rows;
      planned := [];
      for i := 0 to |resolved|
        invariant planned == S.PlanAddOns(existing, typeChanged, resolved)[..i]
      {
        planned := planned + [S.KeepSnapshot(byAddOn, resolved[i])];
      }
    }

    method Patch(id: nat, e: S.Edit) returns (reply: S.Reply)
      requires Valid()
      modifies this`appointments
      ensures Valid()
      ensures S.Outcome(Db(), reply) == S.Patch(garage, old(Db()), id, e)
    {
      SchedulingRuns.PatchKeepsDiary(garage, Db(), id, e);
      if id >= |appointments| {
        return S.NotFound;
      }
      var appointment := appointments[id];
      if e.employee.Some? && !S.EmployeeAssignable(garage, e.employee.value) {
        return S.Unprocessable;
      }
      var newType := if e.typeId == Some(appointment.typeId) then None else e.typeId;
      if newType.Some? && !S.TypeBookable(garage, newType.value) {
        return S.Unprocessable;
      }
      if !e.otherwiseValid {
        return S.Unprocessable;
      }
      if e.status.Some? {
        if !S.StatusAllowed(garage, e.status.value) {
          return S.Unprocessable;
        }
        if !S.TransitionAllowed(garage, appointment.status, e.status.value) {
          return S.Conflicting;
        }
      }
      var row, rescheduled := EditRow(appointment, e);
      if row.start >= row.end {
        return S.Unprocessable;
      }
      if rescheduled && S.Live(row) {
        var free := SlotIsFree(row.employee, row.start, row.end, Some(id), None, false);
        if !free {
          return S.Conflicting;
        }
      }
      appointments := appointments[id := row];
      reply := S.Done;
    }

    /** The row as the edit leaves it, and whether its slot must be checked. */
    method EditRow(appointment: S.Appointment, e: S.Edit) returns (row: S.Appointment, rescheduled: bool)
      ensures row == S.Edited(appointment, e)
      ensures rescheduled == S.SchedulingChanged(appointment, e)
    {
      row := appointment;
      var newType := if e.typeId == Some(appointment.typeId) then None else e.typeId;
      var endSent := e.end.Some?;
      row := row.(start := e.start.GetOr(row.start), end := e.end.GetOr(row.end));
      if e.resolved.Some? || newType.Some? {
        var planned := PlanAddOns(appointment.addOns, newType.Some?, e.resolved.GetOr([]));
        if !endSent {
          var shift := S.DurationDelta(planned) - S.DurationDelta(appointment.addOns);
          if shift != 0 {
            row := row.(end := row.end + shift * S.MINUTE);
            endSent := true;
          }
        }
        row := row.(addOns := planned);
      }
      row := row.(employee := e.employee.GetOr(row.employee), status := e.status.GetOr(row.status));
      row := row.(typeId := newType.GetOr(row.typeId));
      rescheduled := e.employee.Some? || e.start.Some? || endSent || (!S.Live(appointment) && S.Live(row));
    }

    method Delete(id: nat) returns (reply: S.Reply)
      requires Valid()
      modifies this`appointments
      ensures Valid()
      ensures S.Outcome(Db(), reply) == S.Delete(garage, old(Db()), id)
    {
      SchedulingRuns.CancelKeepsDiary(appointments, id);
      if id >= |appointments| {
        return S.NotFound;
      }
      if !S.TransitionAllowed(garage, appointments[id].status, S.CANCELLED) {
        return S.Conflicting;
      }
      appointments := appointments[id := appointments[id].(status := S.CANCELLED)];
      reply := S.Done;
    }

    /** `held` is the copy of the request this session has read before, if any:
        the locked query then gives back that object as it was. */
    method Approve(id: nat, held: Option<S.Request>, d: S.Approval, now: int) returns (reply: S.Reply)
      requires Valid()
      modifies this`appointments, this`requests
      ensures Valid()
      ensures S.Outcome(Db(), reply)
        == if id >= |old(requests)| then S.Outcome(old(Db()), S.NotFound)
           else S.ApproveSeen(garage, old(Db()), id, held.GetOr(old(requests)[id]), d, now)
    {
      if id >= |requests| {
        return S.NotFound;
      }
      var request := held.GetOr(requests[id]);
      SchedulingRuns.ApproveKeepsDiary(garage, Db(), id, request, d, now);
      if request.status == S.Pending && S.IsStale(garage, request, now) {
        requests := requests[id := requests[id].(status := S.Expired)];
        return S.Conflicting;
      }
      if request.status != S.Pending {
        return S.Conflicting;
      }
      var typeId := S.ApprovedType(request, d);
      if typeId.None? || !S.TypeBookable(garage, typeId.value) {
        return S.Unprocessable;
      }
      if d.employee.None? || !S.EmployeeAssignable(garage, d.employee.value) {
        return S.Unprocessable;
      }
      var start := S.ApprovedStart(garage, request, d);
      if start.None? {
        return S.Unprocessable;
      }
      var end := S.ApprovedEnd(garage, request, d);
      if end.None? || start.value >= end.value {
        return S.Unprocessable;
      }
      var free := SlotIsFree(d.employee.value, start.value, end.value, None, Some(id), true);
      if !free || d.vehicleClash {
        return S.Conflicting;
      }
      var booked := |appointments|;
      var addOns := if S.KeepsAddOns(request, d) then request.addOns else [];
      appointments := appointments
        + [S.Appointment(d.employee.value, typeId.value, start.value, end.value, S.BOOKED, addOns)];
      var row := requests[id].(status := S.Approved);
      if typeId != request.typeId {
        row := row.(typeId := typeId);
      }
      row := row.(appointment := Some(booked));
      requests := requests[id := row];
      reply := S.Done;
    }

    /** The read half of auto-accept: nothing is written. */
    method ChooseEmployee(id: nat, candidates: seq<S.EmployeeId>) returns (pick: Option<S.EmployeeId>)
      requires Valid() && IsRoster(garage, candidates)
      ensures pick.Some? ==> S.AutoCandidate(garage, Db(), id, pick.value)
      ensures pick.None? ==> forall e :: !S.AutoCandidate(garage, Db(), id, e)
    {
      if !garage.autoAccept || id >= |requests| {
        return None;
      }
      var request := requests[id];
      if request.status != S.Pending || request.time.None?
         || request.typeId.None? || !S.TypeBookable(garage, request.typeId.value)
      {
        return None;
      }
      var minutes := S.AutoMinutes(garage, request);
      if minutes.None? {
        return None;
      }
      var start := (garage.calendar.slotAt)(request.day, request.time.value);
      var end := start + minutes.value * S.MINUTE;
      var used, capacity := SlotCapacityUsage(start, minutes.value, None, Some(id), true);
      if used >= capacity {
        return None;
      }
      pick := FirstFreeOf(candidates, start, end);
    }

    method FirstFreeOf(candidates: seq<S.EmployeeId>, start: int, end: int) returns (pick: Option<S.EmployeeId>)
      requires IsRoster(garage, candidates)
      ensures pick.Some? ==> S.FirstFree(garage, appointments, pick.value, start, end)
      ensures pick.None? ==> forall e :: S.EmployeeAssignable(garage, e) ==> S.HasConflict(appointments, e, start, end, None)
    {
      for i := 0 to |candidates|
        invariant forall j :: 0 <= j < i ==> S.HasConflict(appointments, candidates[j], start, end, None)
      {
        var clash := CheckConflict(candidates[i], start, end, None);
        if !clash {
          assert candidates[i] in candidates;
          forall f | S.EmployeeAssignable(garage, f) && f < candidates[i]
            ensures S.HasConflict(appointments, f, start, end, None)
          {
            assert f in candidates;
          }
          return Some(candidates[i]);
        }
      }
      forall e | S.EmployeeAssignable(garage, e) ensures S.HasConflict(appointments, e, start, end, None) {
        assert e in candidates;
      }
      return None;
    }

    method Reject(id: nat, now: int) returns (reply: S.Reply)
      modifies this`requests
      ensures S.Outcome(Db(), reply) == S.Reject(garage, old(Db()), id, now)
    {
      if id >= |requests| {
        return S.NotFound;
      }
      var request := requests[id];
      if request.status == S.Pending && S.IsStale(garage, request, now) {
        request := request.(status := S.Expired);
        requests := requests[id := request];
      }
      if request.status != S.Pending {
        return S.Conflicting;
      }
      requests := requests[id := request.(status := S.Rejected)];
      reply := S.Done;
    }

    /** The sweep's first read. */
    method ReadStale(now: int) returns (ids: set<nat>)
      ensures ids == S.StaleIds(garage, Db(), now)
    {
      ids := {};
      for i := 0 to |requests|
        invariant ids == set j: nat | j < i && requests[j].status == S.Pending && S.IsStale(garage, requests[j], now)
      {
        if requests[i].status == S.Pending && S.IsStale(garage, requests[i], now) {
          ids := ids + {i};
        }
      }
    }

    /** The sweep's guarded write, some time later. */
    method CommitExpiry(ids: set<nat>) returns (expired: nat)
      modifies this`requests
      ensures Db() == old(Db()).(requests := S.ExpireRows(old(requests), ids))
      ensures expired == Changed(old(requests), ids)
    {
      expired := 0;
      var rows := requests;
      for i := 0 to |rows|
        invariant |rows| == |requests|
        invariant forall j :: 0 <= j < |rows| ==> rows[j] == if j < i then S.ExpireRow(ids, j, requests[j]) else requests[j]
        invariant expired == Changed(requests[..i], ids)
      {
        assert requests[..i + 1][..i] == requests[..i];
        if i in ids && rows[i].status == S.Pending {
          rows := rows[i := rows[i].(status := S.Expired)];
          expired := expired + 1;
        }
      }
      assert requests[..|requests|] == requests;
      requests := rows;
    }

    /** The chat's cancel, whose status check may be long out of date. */
    method CommitCancel(id: nat)
      requires Valid() && id < |appointments|
      modifies this`appointments
      ensures Valid()
      ensures appointments == old(appointments)[id := old(appointments)[id].(status := S.CANCELLED)]
    {
      SchedulingRuns.CancelKeepsDiary(appointments, id);
      appointments := appointments[id := appointments[id].(status := S.CANCELLED)];
    }

    /** `held` is the appointment as the conversation read it before the lock. */
    method Reschedule(id: nat, held: S.Appointment, day: int, time: int, offered: bool) returns (reply: S.Reply)
      requires Valid() && held.start < held.end
      modifies this`appointments
      ensures Valid() <==> !SchedulingRuns.Tramples(garage, old(Db()), id, held, day, time, offered)
      ensures S.Outcome(Db(), reply) == S.Reschedule(garage, old(Db()), id, held, day, time, offered)
    {
      SchedulingRuns.RescheduleKeepsDiaryExactlyWhen(garage, Db(), id, held, day, time, offered);
      if id >= |appointments| {
        return S.NotFound;
      }
      if !S.ChatCancellable(held) || !offered {
        return S.Conflicting;
      }
      var moved := S.MovedTo(garage, held, day, time);
      var free := SlotIsFree(moved.employee, moved.start, moved.end, Some(id), None, true);
      if !free {
        return S.Conflicting;
      }
      var row := appointments[id];
      if moved.start != held.start {
        row := row.(start := moved.start, end := moved.end);
      }
      appointments := appointments[id := row];
      reply := S.Done;
    }

    method Submit(s: S.Submission) returns (reply: S.Reply)
      requires Valid()
      modifies this`requests
      ensures Valid()
      ensures S.Outcome(Db(), reply) == S.Submit(garage, old(Db()), s)
    {
      if !s.otherwiseValid {
        return S.Unprocessable;
      }
      var minutes: int := S.TypeMinutes(garage, s.typeId);
      if s.addOns != [] {
        minutes := minutes + S.DurationDelta(s.addOns);
        if s.typeId.None? || minutes < 1 {
          return S.Unprocessable;
        }
      }
      if s.time.Some? {
        if !s.offered {
          return S.Conflicting;
        }
        var used, capacity := SlotCapacityUsage(
          (garage.calendar.slotAt)(s.day, s.time.value), minutes, None, None, true);
        if used >= capacity {
          return S.Conflicting;
        }
      }
      requests := requests + [S.SubmittedRow(garage, s)];
      reply := S.Done;
    }
  }
}
