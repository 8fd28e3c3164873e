/** The garage-wide capacity contract: at no instant are more bays reserved, by
    live appointments and reserving requests together, than there are. */
module Capacity {
  import opened Wrappers
  import opened Intervals
  import opened Scheduling

  /** Local days are unbroken runs of instants, from 00:00 to the last
      microsecond before midnight. */
  ghost predicate ValidCalendar(c: Calendar) {
    forall t, d :: (c.slotAt)(d, 0) <= t <= (c.slotAt)(d, END_OF_DAY) <==> (c.dayOf)(t) == d
  }

  /** What a row reserves, if it does. */
  function AppointmentSpan(a: Appointment): Interval {
    if Live(a) then Interval(a.start, a.end) else NOTHING
  }

  function RequestSpan(g: Garage, r: Request): Interval {
    if Reserving(r) then RequestInterval(g, r) else NOTHING
  }

  function AppointmentSpans(rows: seq<Appointment>): seq<Interval> {
    seq(|rows|, i requires 0 <= i < |rows| => AppointmentSpan(rows[i]))
  }

  function RequestSpans(g: Garage, rows: seq<Request>): seq<Interval> {
    seq(|rows|, i requires 0 <= i < |rows| => RequestSpan(g, rows[i]))
  }

  /** How many reservations are in progress at `t`. */
  function Reserved(g: Garage, db: Database, t: int): nat {
    Cover(AppointmentSpans(db.appointments), t) + Cover(RequestSpans(g, db.requests), t)
  }

  ghost predicate Within(g: Garage, db: Database, bound: int) {
    forall t :: Reserved(g, db, t) <= bound
  }

  ghost predicate WithinCapacity(g: Garage, db: Database) {
    Within(g, db, SlotCapacity(g))
  }

  /** A reserving request stays inside its own local day. */
  ghost predicate RequestTimed(g: Garage, r: Request) {
    Reserving(r) ==> forall t :: Covers(RequestInterval(g, r), t) ==> (g.calendar.dayOf)(t) == r.day
  }

  ghost predicate RequestsTimed(g: Garage, rows: seq<Request>) {
    forall i :: 0 <= i < |rows| ==> RequestTimed(g, rows[i])
  }

  /** A span the capacity check sees whole: one local day, whole minutes. */
  predicate SpanTimed(g: Garage, start: int, end: int) {
    (g.calendar.dayOf)(start) == (g.calendar.dayOf)(end - 1) && (end - start) % MINUTE == 0
  }

  ghost predicate WellTimed(g: Garage, db: Database) {
    && RequestsTimed(g, db.requests)
    && forall i :: 0 <= i < |db.appointments| && Live(db.appointments[i]) ==>
         SpanTimed(g, db.appointments[i].start, db.appointments[i].end)
  }

  // -------------------------------------------------- one check, one instant

  lemma SpanInDay(g: Garage, start: int, end: int, t: int)
    requires ValidCalendar(g.calendar) && SpanTimed(g, start, end) && start <= t < end
    ensures (g.calendar.dayOf)(t) == (g.calendar.dayOf)(start)
  {
    var d := (g.calendar.dayOf)(start);
    assert (g.calendar.slotAt)(d, 0) <= start && end - 1 <= (g.calendar.slotAt)(d, END_OF_DAY);
  }

  /** One, if the span left out is in progress at `t`. */
  function Without(spans: seq<Interval>, exclude: Option<nat>, t: int): nat {
    if exclude.Some? && exclude.value < |spans| && Covers(spans[exclude.value], t) then 1 else 0
  }

  /** What the check counts at an instant of the candidate's own day. */
  function Others(g: Garage, db: Database, t: int, exAppointment: Option<nat>, exRequest: Option<nat>): int {
    Reserved(g, db, t)
    - Without(AppointmentSpans(db.appointments), exAppointment, t) - Without(RequestSpans(g, db.requests), exRequest, t)
  }

  /** `loaded` has some of the spans in progress at `t`, all but the one left out
      if `full`. */
  ghost predicate Loads(all: seq<Interval>, loaded: seq<Interval>, exclude: Option<nat>, t: int, full: bool) {
    && |loaded| == |all|
    && (forall i :: 0 <= i < |all| ==> (Covers(loaded[i], t) ==> exclude != Some(i) && Covers(all[i], t)))
    && (full ==> forall i :: 0 <= i < |all| ==> (exclude != Some(i) && Covers(all[i], t) ==> Covers(loaded[i], t)))
  }

  lemma LoadedCounts(all: seq<Interval>, loaded: seq<Interval>, exclude: Option<nat>, t: int, full: bool)
    requires Loads(all, loaded, exclude, t, full)
    ensures Cover(loaded, t) <= Cover(all, t) - Without(all, exclude, t)
    ensures full ==> Cover(loaded, t) == Cover(all, t) - Without(all, exclude, t)
  {
    if exclude.Some? && exclude.value < |all| {
      var others := all[exclude.value := NOTHING];
      CoverUpdate(all, exclude.value, NOTHING, t);
      CoverAgrees(loaded, others, t);
      if full {
        CoverAgrees(others, loaded, t);
      }
    } else {
      CoverAgrees(loaded, all, t);
      if full {
        CoverAgrees(all, loaded, t);
      }
    }
  }

  lemma DayAppointmentsLoad(g: Garage, rows: seq<Appointment>, day: int, t: int, exclude: Option<nat>)
    ensures var full := ValidCalendar(g.calendar) && day == (g.calendar.dayOf)(t);
      Loads(AppointmentSpans(rows), DayAppointments(g, rows, day, exclude), exclude, t, full)
  {
    if ValidCalendar(g.calendar) && day == (g.calendar.dayOf)(t) {
      assert (g.calendar.slotAt)(day, 0) <= t <= (g.calendar.slotAt)(day, END_OF_DAY);
    }
  }

  lemma DayRequestsLoad(g: Garage, rows: seq<Request>, day: int, t: int, exclude: Option<nat>)
    ensures var full := RequestsTimed(g, rows) && day == (g.calendar.dayOf)(t);
      Loads(RequestSpans(g, rows), DayRequests(g, rows, day, exclude), exclude, t, full)
  {
    if RequestsTimed(g, rows) && day == (g.calendar.dayOf)(t) {
      forall i | 0 <= i < |rows| ensures Covers(RequestSpan(g, rows[i]), t) ==> Covers(AskedOnDay(g, rows[i], day), t) {
        assert RequestTimed(g, rows[i]);
      }
    }
  }

  /** What the check counts is never more than there is, and at an instant of its
      day it is all there is. */
  lemma DayUsageCounts(g: Garage, db: Database, day: int, t: int, exAppointment: Option<nat>, exRequest: Option<nat>)
    ensures var counted := Cover(DayUsage(g, db, day, exAppointment, exRequest), t);
      && counted <= Others(g, db, t, exAppointment, exRequest)
      && (ValidCalendar(g.calendar) && RequestsTimed(g, db.requests) && day == (g.calendar.dayOf)(t) ==>
            counted == Others(g, db, t, exAppointment, exRequest))
  {
    var booked, asked := DayAppointments(g, db.appointments, day, exAppointment), DayRequests(g, db.requests, day, exRequest);
    DayAppointmentsLoad(g, db.appointments, day, t, exAppointment);
    DayRequestsLoad(g, db.requests, day, t, exRequest);
    LoadedCounts(AppointmentSpans(db.appointments), booked, exAppointment, t,
      ValidCalendar(g.calendar) && day == (g.calendar.dayOf)(t));
    LoadedCounts(RequestSpans(g, db.requests), asked, exRequest, t,
      RequestsTimed(g, db.requests) && day == (g.calendar.dayOf)(t));
    CoverConcat(booked, asked, t);
  }

  /** An accepted check leaves room for one more at every instant of the span. */
  lemma AcceptedLeavesRoom(
    g: Garage, db: Database, start: int, end: int, exAppointment: Option<nat>, exRequest: Option<nat>, walkIns: bool, t: int)
    requires ValidCalendar(g.calendar) && RequestsTimed(g, db.requests)
    requires SpanTimed(g, start, end) && start <= t < end
    requires HasCapacity(g, db, start, WholeMinutes(start, end), exAppointment, exRequest, walkIns)
    ensures Others(g, db, t, exAppointment, exRequest) < SlotCapacity(g)
  {
    SpanInDay(g, start, end, t);
    DayUsageCounts(g, db, (g.calendar.dayOf)(start), t, exAppointment, exRequest);
    assert WholeMinutes(start, end) * MINUTE == end - start;
  }

  // ------------------------------------------------------------ transactions

  lemma AppointmentAppended(g: Garage, db: Database, a: Appointment, t: int)
    ensures Reserved(g, db.(appointments := db.appointments + [a]), t)
         == Reserved(g, db, t) + if Live(a) && a.start <= t < a.end then 1 else 0
  {
    var span := AppointmentSpan(a);
    assert AppointmentSpans(db.appointments + [a]) == AppointmentSpans(db.appointments) + [span];
    CoverAppend(AppointmentSpans(db.appointments), span, t);
  }

  lemma AppointmentReplaced(g: Garage, db: Database, id: nat, a: Appointment, t: int)
    requires id < |db.appointments|
    ensures Reserved(g, db.(appointments := db.appointments[id := a]), t)
         == Others(g, db, t, Some(id), None) + if Live(a) && a.start <= t < a.end then 1 else 0
  {
    var span := AppointmentSpan(a);
    assert AppointmentSpans(db.appointments[id := a]) == AppointmentSpans(db.appointments)[id := span];
    CoverUpdate(AppointmentSpans(db.appointments), id, span, t);
  }

  lemma RequestReplaced(g: Garage, db: Database, id: nat, r: Request, t: int)
    requires id < |db.requests|
    ensures Reserved(g, db.(requests := db.requests[id := r]), t)
         == Others(g, db, t, None, Some(id)) + if Reserving(r) && Covers(RequestInterval(g, r), t) then 1 else 0
  {
    var span := RequestSpan(g, r);
    assert RequestSpans(g, db.requests[id := r]) == RequestSpans(g, db.requests)[id := span];
    CoverUpdate(RequestSpans(g, db.requests), id, span, t);
  }

  lemma RequestAppended(g: Garage, db: Database, r: Request, t: int)
    ensures Reserved(g, db.(requests := db.requests + [r]), t)
         == Reserved(g, db, t) + if Reserving(r) && Covers(RequestInterval(g, r), t) then 1 else 0
  {
    var span := RequestSpan(g, r);
    assert RequestSpans(g, db.requests + [r]) == RequestSpans(g, db.requests) + [span];
    CoverAppend(RequestSpans(g, db.requests), span, t);
  }

  lemma PostWithin(g: Garage, db: Database, n: NewAppointment, bound: int)
    requires ValidCalendar(g.calendar) && SlotCapacity(g) <= bound && Within(g, db, bound) && WellTimed(g, db)
    requires WellTimed(g, Post(g, db, n).db)
    ensures Within(g, Post(g, db, n).db, bound)
  {
    var o := Post(g, db, n);
    if o.reply == Done {
      var a := o.db.appointments[|db.appointments|];
      forall t ensures Reserved(g, o.db, t) <= bound {
        AppointmentAppended(g, db, a, t);
        if Live(a) && a.start <= t < a.end {
          AcceptedLeavesRoom(g, db, a.start, a.end, None, None, false, t);
        }
      }
    }
  }

  lemma PatchWithin(g: Garage, db: Database, id: nat, e: Edit, bound: int)
    requires ValidCalendar(g.calendar) && SlotCapacity(g) <= bound && Within(g, db, bound) && WellTimed(g, db)
    requires WellTimed(g, Patch(g, db, id, e).db)
    ensures Within(g, Patch(g, db, id, e).db, bound)
  {
    var o := Patch(g, db, id, e);
    if o.reply == Done {
      var a, b := db.appointments[id], o.db.appointments[id];
      assert b == Edited(a, e);
      forall t ensures Reserved(g, o.db, t) <= bound {
        AppointmentReplaced(g, db, id, b, t);
        if Live(b) && b.start <= t < b.end && SchedulingChanged(a, e) {
          AcceptedLeavesRoom(g, db, b.start, b.end, Some(id), None, false, t);
        }
      }
    }
  }

  lemma CancelWithin(g: Garage, db: Database, id: nat, bound: int)
    requires Within(g, db, bound) && id < |db.appointments|
    ensures Within(g, db.(appointments := db.appointments[id := db.appointments[id].(status := CANCELLED)]), bound)
  {
    var a := db.appointments[id].(status := CANCELLED);
    var after := db.(appointments := db.appointments[id := a]);
    forall t ensures Reserved(g, after, t) <= bound {
      AppointmentReplaced(g, db, id, a, t);
    }
  }

  lemma RescheduleWithin(
    g: Garage, db: Database, id: nat, seen: Appointment, day: int, time: int, offered: bool, bound: int)
    requires ValidCalendar(g.calendar) && SlotCapacity(g) <= bound && Within(g, db, bound) && WellTimed(g, db)
    requires WellTimed(g, Reschedule(g, db, id, seen, day, time, offered).db)
    ensures Within(g, Reschedule(g, db, id, seen, day, time, offered).db, bound)
  {
    var o := Reschedule(g, db, id, seen, day, time, offered);
    if o.reply == Done && MovedTo(g, seen, day, time).start != seen.start {
      var b := o.db.appointments[id];
      forall t ensures Reserved(g, o.db, t) <= bound {
        AppointmentReplaced(g, db, id, b, t);
        if Live(b) && b.start <= t < b.end {
          AcceptedLeavesRoom(g, db, b.start, b.end, Some(id), None, true, t);
        }
      }
    } else {
      assert o.reply == Done ==> db.appointments[id := db.appointments[id]] == db.appointments;
    }
  }

  /** A request row whose reservation does not grow keeps the contract. */
  lemma ReleaseWithin(g: Garage, db: Database, id: nat, r: Request, bound: int)
    requires Within(g, db, bound) && id < |db.requests|
    requires Reserving(r) ==> Reserving(db.requests[id]) && RequestInterval(g, r) == RequestInterval(g, db.requests[id])
    ensures Within(g, db.(requests := db.requests[id := r]), bound)
  {
    var after := db.(requests := db.requests[id := r]);
    forall t ensures Reserved(g, after, t) <= bound {
      RequestReplaced(g, db, id, r, t);
    }
  }

  /** Approval swaps the request's own reservation for one appointment: at every
      instant the total changes by exactly the difference of the two spans. */
  lemma ApprovalSwapsReservation(g: Garage, db: Database, id: nat, r: Request, d: Approval, now: int, t: int)
    requires id < |db.requests| && ApproveReply(g, db, id, r, d, now) == Done
    ensures var o := ApproveSeen(g, db, id, r, d, now);
      && |o.db.appointments| == |db.appointments| + 1
      && var a := o.db.appointments[|db.appointments|];
      && Live(a) && o.db.appointments == db.appointments + [a]
      && !Reserving(o.db.requests[id])
      && Reserved(g, o.db, t) == Others(g, db, t, None, Some(id)) + (if a.start <= t < a.end then 1 else 0)
      && (r == db.requests[id] && d.start.None? && d.end.None? && r.minutes.Some? && d.typeId.None? ==>
            Interval(a.start, a.end) == RequestInterval(g, r) && Reserved(g, o.db, t) == Reserved(g, db, t))
  {
    var o := ApproveSeen(g, db, id, r, d, now);
    var a := o.db.appointments[|db.appointments|];
    var released := db.(requests := o.db.requests);
    RequestReplaced(g, db, id, o.db.requests[id], t);
    AppointmentAppended(g, released, a, t);
    assert o.db == released.(appointments := released.appointments + [a]);
  }

  lemma ApproveWithin(g: Garage, db: Database, id: nat, r: Request, d: Approval, now: int, bound: int)
    requires ValidCalendar(g.calendar) && SlotCapacity(g) <= bound && Within(g, db, bound) && WellTimed(g, db)
    requires id < |db.requests| && WellTimed(g, ApproveSeen(g, db, id, r, d, now).db)
    ensures Within(g, ApproveSeen(g, db, id, r, d, now).db, bound)
  {
    var o := ApproveSeen(g, db, id, r, d, now);
    if o.reply == Done {
      var a := o.db.appointments[|db.appointments|];
      forall t ensures Reserved(g, o.db, t) <= bound {
        ApprovalSwapsReservation(g, db, id, r, d, now, t);
        if a.start <= t < a.end {
          AcceptedLeavesRoom(g, db, a.start, a.end, None, Some(id), true, t);
        }
      }
    } else if o.db != db {
      ReleaseWithin(g, db, id, db.requests[id].(status := Expired), bound);
    }
  }

  lemma SubmitWithin(g: Garage, db: Database, s: Submission, bound: int)
    requires ValidCalendar(g.calendar) && SlotCapacity(g) <= bound && Within(g, db, bound) && WellTimed(g, db)
    requires WellTimed(g, Submit(g, db, s).db)
    ensures Within(g, Submit(g, db, s).db, bound)
  {
    var o := Submit(g, db, s);
    if o.reply == Done {
      var r := SubmittedRow(g, s);
      forall t ensures Reserved(g, o.db, t) <= bound {
        RequestAppended(g, db, r, t);
        if Reserving(r) && Covers(RequestInterval(g, r), t) {
          SubmittedSpan(g, db, s);
          AcceptedLeavesRoom(g, db, RequestInterval(g, r).start, RequestInterval(g, r).end, None, None, true, t);
        }
      }
    }
  }

  lemma SubmittedSpan(g: Garage, db: Database, s: Submission)
    requires Submit(g, db, s).reply == Done && WellTimed(g, Submit(g, db, s).db)
    requires s.time.Some?
    ensures var i := RequestInterval(g, SubmittedRow(g, s));
      && WholeMinutes(i.start, i.end) == SubmittedMinutes(g, s)
      && i.start == (g.calendar.slotAt)(s.day, s.time.value)
      && (i.start < i.end ==> SpanTimed(g, i.start, i.end))
  {
    var r := SubmittedRow(g, s);
    var i := RequestInterval(g, r);
    assert Submit(g, db, s).db.requests[|db.requests|] == r;
    assert RequestTimed(g, r);
    assert RequestMinutes(g, r) == SubmittedMinutes(g, s);
    if i.start < i.end {
      assert Covers(i, i.start) && Covers(i, i.end - 1);
    }
  }

  lemma {:induction false} SweepWithin(g: Garage, db: Database, ids: set<nat>, n: nat, bound: int)
    requires Within(g, db, bound) && n <= |db.requests|
    ensures Within(g, db.(requests := ExpireRows(db.requests, ids)[..n] + db.requests[n..]), bound)
  {
    if n == 0 {
      assert ExpireRows(db.requests, ids)[..0] + db.requests[0..] == db.requests;
    } else {
      SweepWithin(g, db, ids, n - 1, bound);
      var mid := db.(requests := ExpireRows(db.requests, ids)[..n - 1] + db.requests[n - 1..]);
      ReleaseWithin(g, mid, n - 1, ExpireRow(ids, n - 1, db.requests[n - 1]), bound);
      assert mid.requests[n - 1 := ExpireRow(ids, n - 1, db.requests[n - 1])]
          == ExpireRows(db.requests, ids)[..n] + db.requests[n..];
    }
  }

  lemma SweepAllWithin(g: Garage, db: Database, ids: set<nat>, bound: int)
    requires Within(g, db, bound)
    ensures Within(g, db.(requests := ExpireRows(db.requests, ids)), bound)
  {
    SweepWithin(g, db, ids, |db.requests|, bound);
    assert ExpireRows(db.requests, ids)[..|db.requests|] + db.requests[|db.requests|..] == ExpireRows(db.requests, ids);
  }

  lemma RejectWithin(g: Garage, db: Database, id: nat, now: int, bound: int)
    requires Within(g, db, bound)
    ensures Within(g, Reject(g, db, id, now).db, bound)
  {
    if id < |db.requests| {
      ReleaseWithin(g, db, id, db.requests[id].(status := Expired), bound);
      ReleaseWithin(g, db, id, db.requests[id].(status := Rejected), bound);
    }
  }

  /** The commit makes a closed request reserve its slot again, unchecked. */
  predicate Revives(w: World, a: Action) {
    match a
    case HoldCommit(k, to) =>
      && HoldReady(w, k, to) && to != Expired
      && var r := w.db.requests[w.holds[k].value.id]; r.time.Some? && !Reserving(r)
    case Reopen(id) => id < |w.db.requests| && w.db.requests[id].time.Some? && !Reserving(w.db.requests[id])
    case _ => false
  }

  lemma StatusWithin(g: Garage, db: Database, id: nat, status: RequestStatus, bound: int)
    requires Within(g, db, bound) && id < |db.requests|
    requires status == Expired || db.requests[id].time.None? || Reserving(db.requests[id])
    ensures Within(g, WithStatus(db, id, status), bound)
  {
    ReleaseWithin(g, db, id, db.requests[id].(status := status), bound);
  }

  lemma StepWithin(g: Garage, w: World, a: Action, bound: int)
    requires ValidCalendar(g.calendar) && SlotCapacity(g) <= bound && Within(g, w.db, bound) && WellTimed(g, w.db)
    requires WellTimed(g, Step(g, w, a).db) && !Revives(w, a)
    ensures Within(g, Step(g, w, a).db, bound)
  {
    match a {
      case DoPost(n) => PostWithin(g, w.db, n, bound);
      case DoPatch(id, e) => PatchWithin(g, w.db, id, e, bound);
      case DoDelete(id) =>
        if id < |w.db.appointments| {
          CancelWithin(g, w.db, id, bound);
        }
      case CancelCommit(k) =>
        if k < |w.cancels| && w.cancels[k] < |w.db.appointments| {
          CancelWithin(g, w.db, w.cancels[k], bound);
        }
      case MoveCommit(k, day, time, offered) =>
        if MoveReady(w, k) {
          RescheduleWithin(g, w.db, w.moves[k].value.id, w.moves[k].value.seen, day, time, offered, bound);
        }
      case DoApprove(id, d, now) =>
        if id < |w.db.requests| {
          ApproveWithin(g, w.db, id, w.db.requests[id], d, now, bound);
        }
      case AutoCommit(k, clash, now) =>
        if PickReady(w, k) {
          var p := w.picks[k].value;
          ApproveWithin(g, w.db, p.id, p.seen, AutoApproval(p.employee, clash), now, bound);
        }
      case DoReject(id, now) => RejectWithin(g, w.db, id, now, bound);
      case SweepCommit(k) =>
        if k < |w.sweeps| {
          SweepAllWithin(g, w.db, w.sweeps[k], bound);
        }
      case DoSubmit(s) => SubmitWithin(g, w.db, s, bound);
      case HoldCommit(k, to) =>
        if HoldReady(w, k, to) {
          StatusWithin(g, w.db, w.holds[k].value.id, to, bound);
        }
      case Reopen(id) =>
        if id < |w.db.requests| {
          StatusWithin(g, w.db, id, Pending, bound);
        }
      case _ =>
    }
  }

  /** The request such a commit makes reserve again. */
  function Revived(w: World, a: Action): nat
    requires Revives(w, a)
  {
    if a.HoldCommit? then w.holds[a.k].value.id else a.id
  }

  /** It does so where, at some instant of its slot, all bays are reserved. */
  ghost predicate Overfills(g: Garage, w: World, a: Action, bays: int) {
    && Revives(w, a)
    && exists t :: Covers(RequestInterval(g, w.db.requests[Revived(w, a)]), t) && Reserved(g, w.db, t) >= bays
  }

  /** A revived request reserves exactly its own slot, once. */
  lemma RevivalReserves(g: Garage, db: Database, id: nat, status: RequestStatus, t: int)
    requires id < |db.requests| && db.requests[id].time.Some? && !Reserving(db.requests[id])
    requires status == Pending || status == AwaitingPayment || status == AwaitingTerms
    ensures Reserved(g, WithStatus(db, id, status), t)
      == Reserved(g, db, t) + if Covers(RequestInterval(g, db.requests[id]), t) then 1 else 0
  {
    var r := db.requests[id].(status := status);
    RequestReplaced(g, db, id, r, t);
    assert RequestInterval(g, r) == RequestInterval(g, db.requests[id]);
  }

  lemma RevivalWithinExactlyWhen(g: Garage, db: Database, id: nat, status: RequestStatus, bays: int)
    requires Within(g, db, bays)
    requires id < |db.requests| && db.requests[id].time.Some? && !Reserving(db.requests[id])
    requires status == Pending || status == AwaitingPayment || status == AwaitingTerms
    ensures Within(g, WithStatus(db, id, status), bays)
      <==> !exists t :: Covers(RequestInterval(g, db.requests[id]), t) && Reserved(g, db, t) >= bays
  {
    var slot, after := RequestInterval(g, db.requests[id]), WithStatus(db, id, status);
    if t :| Covers(slot, t) && Reserved(g, db, t) >= bays {
      RevivalReserves(g, db, id, status, t);
      assert Reserved(g, after, t) > bays;
    } else {
      forall t ensures Reserved(g, after, t) <= bays {
        RevivalReserves(g, db, id, status, t);
      }
    }
  }

  lemma StepWithinExactlyWhen(g: Garage, w: World, a: Action, bays: int)
    requires ValidCalendar(g.calendar) && SlotCapacity(g) <= bays && Within(g, w.db, bays) && WellTimed(g, w.db)
    requires WellTimed(g, Step(g, w, a).db)
    ensures Within(g, Step(g, w, a).db, bays) <==> !Overfills(g, w, a, bays)
  {
    if Revives(w, a) {
      RevivalWithinExactlyWhen(g, w.db, Revived(w, a), if a.HoldCommit? then a.to else Pending, bays);
    } else {
      StepWithin(g, w, a, bays);
    }
  }

  // ---------------------------------------------------------------- whole runs

  /** The settings in force before the k-th transaction of a run begun under `g`. */
  function SettingsAt(g: Garage, es: seq<Event>, k: nat): Garage
    requires k <= |es|
  {
    if k == 0 then g else es[k - 1].garage
  }

  /** A change of settings moves no reservation there is: the timezone stays, and
      so does the length of each reserving request. */
  ghost predicate SpansUnmoved(g: Garage, h: Garage, rows: seq<Request>) {
    && g.calendar == h.calendar
    && (forall i :: 0 <= i < |rows| && Reserving(rows[i]) ==> RequestMinutes(g, rows[i]) == RequestMinutes(h, rows[i]))
  }

  lemma SameReservations(g: Garage, h: Garage, db: Database, t: int)
    requires SpansUnmoved(g, h, db.requests)
    ensures Reserved(g, db, t) == Reserved(h, db, t)
  {
    assert RequestSpans(g, db.requests) == RequestSpans(h, db.requests);
  }

  lemma SettingsChange(g: Garage, h: Garage, db: Database, bound: int)
    requires SpansUnmoved(g, h, db.requests) && Within(g, db, bound) && WellTimed(g, db)
    ensures Within(h, db, bound) && WellTimed(h, db)
  {
    forall t ensures Reserved(h, db, t) <= bound {
      SameReservations(g, h, db, t);
    }
    forall i | 0 <= i < |db.requests| ensures RequestTimed(h, db.requests[i]) {
      assert RequestTimed(g, db.requests[i]);
      assert Reserving(db.requests[i]) ==> RequestInterval(h, db.requests[i]) == RequestInterval(g, db.requests[i]);
    }
  }

  /** The most bays the business has had so far in the run. */
  function MostBays(g: Garage, es: seq<Event>): int {
    if es == [] then SlotCapacity(g) else Max(MostBays(g, es[..|es| - 1]), SlotCapacity(es[|es| - 1].garage))
  }

  /** Before the k-th transaction each booking stays inside one local day and
      lasts whole minutes, and its settings move no reservation. */
  ghost predicate SteadyAt(g: Garage, w: World, es: seq<Event>, k: nat)
    requires k <= |es|
  {
    var before := Run(w, es[..k]);
    && WellTimed(SettingsAt(g, es, k), before.db)
    && (k < |es| ==> SpansUnmoved(SettingsAt(g, es, k), es[k].garage, before.db.requests))
  }

  ghost predicate SteadyRun(g: Garage, w: World, es: seq<Event>) {
    forall k :: 0 <= k <= |es| ==> SteadyAt(g, w, es, k)
  }

  lemma {:induction false} CalendarStays(g: Garage, w: World, es: seq<Event>, k: nat)
    requires SteadyRun(g, w, es) && k <= |es|
    ensures SettingsAt(g, es, k).calendar == g.calendar
  {
    if k > 0 {
      CalendarStays(g, w, es, k - 1);
      assert SteadyAt(g, w, es, k - 1);
    }
  }

  lemma MostBaysNext(g: Garage, es: seq<Event>, k: nat)
    requires k < |es|
    ensures MostBays(g, es[..k + 1]) == Max(MostBays(g, es[..k]), SlotCapacity(es[k].garage))
  {
    assert es[..k + 1][..k] == es[..k];
  }

  /** No instant has more bays reserved than the most there have been. */
  ghost predicate WithinAt(g: Garage, w: World, es: seq<Event>, k: nat)
    requires k <= |es|
  {
    Within(SettingsAt(g, es, k), Run(w, es[..k]).db, MostBays(g, es[..k]))
  }

  ghost predicate OverfillsAt(g: Garage, w: World, es: seq<Event>, k: nat)
    requires k < |es|
  {
    Overfills(es[k].garage, Run(w, es[..k]), es[k].action, MostBays(g, es[..k + 1]))
  }

  /** A change of settings and then one transaction under the new ones. */
  lemma ChangeThenStep(g: Garage, h: Garage, w: World, a: Action, before: int, bays: int)
    requires ValidCalendar(g.calendar) && SpansUnmoved(g, h, w.db.requests)
    requires Within(g, w.db, before) && WellTimed(g, w.db) && WellTimed(h, Step(h, w, a).db)
    requires before <= bays && SlotCapacity(h) <= bays
    ensures Within(h, Step(h, w, a).db, bays) <==> !Overfills(h, w, a, bays)
  {
    SettingsChange(g, h, w.db, before);
    StepWithinExactlyWhen(h, w, a, bays);
  }

  /** Both ends of the k-th transaction are well timed under its settings. */
  lemma SteadyNext(g: Garage, w: World, es: seq<Event>, k: nat)
    requires SteadyRun(g, w, es) && k < |es|
    ensures SpansUnmoved(SettingsAt(g, es, k), es[k].garage, Run(w, es[..k]).db.requests)
    ensures WellTimed(SettingsAt(g, es, k), Run(w, es[..k]).db) && WellTimed(es[k].garage, Run(w, es[..k + 1]).db)
  {
    assert SteadyAt(g, w, es, k) && SteadyAt(g, w, es, k + 1);
  }

  lemma NextWithinExactlyWhen(g: Garage, w: World, es: seq<Event>, k: nat)
    requires ValidCalendar(g.calendar) && SteadyRun(g, w, es) && k < |es| && WithinAt(g, w, es, k)
    ensures WithinAt(g, w, es, k + 1) <==> !OverfillsAt(g, w, es, k)
  {
    var before, most := Run(w, es[..k]), MostBays(g, es[..k + 1]);
    SteadyNext(g, w, es, k);
    CalendarStays(g, w, es, k);
    MostBaysNext(g, es, k);
    RunNext(w, es, k);
    ChangeThenStep(SettingsAt(g, es, k), es[k].garage, before, es[k].action, MostBays(g, es[..k]), most);
  }

  lemma WithinAtFirst(g: Garage, w: World, es: seq<Event>)
    requires WithinCapacity(g, w.db)
    ensures WithinAt(g, w, es, 0)
  {
    assert es[..0] == [];
  }

  lemma FirstOverfull(g: Garage, w: World, es: seq<Event>, n: nat) returns (k: nat)
    requires n <= |es| && WithinAt(g, w, es, 0) && !WithinAt(g, w, es, n)
    ensures k < n && WithinAt(g, w, es, k) && !WithinAt(g, w, es, k + 1)
  {
    if WithinAt(g, w, es, n - 1) {
      k := n - 1;
    } else {
      k := FirstOverfull(g, w, es, n - 1);
    }
  }

  /** Over any run, whatever else the settings do and however often capacity
      goes up and down, at no instant are more bays reserved than the most the
      business has had, exactly unless a closed request is made to wait again
      where no bay is left. */
  lemma NeverOverTheMostBaysExactlyWhen(g: Garage, w: World, es: seq<Event>)
    requires ValidCalendar(g.calendar) && WithinCapacity(g, w.db) && SteadyRun(g, w, es)
    ensures (forall k :: 0 <= k <= |es| ==> WithinAt(g, w, es, k))
      <==> (forall k :: 0 <= k < |es| ==> !OverfillsAt(g, w, es, k))
  {
    if n :| 0 <= n <= |es| && !WithinAt(g, w, es, n) {
      WithinAtFirst(g, w, es);
      var k := FirstOverfull(g, w, es, n);
      NextWithinExactlyWhen(g, w, es, k);
      assert OverfillsAt(g, w, es, k);
    } else {
      forall k | 0 <= k < |es| ensures !OverfillsAt(g, w, es, k) {
        NextWithinExactlyWhen(g, w, es, k);
      }
    }
  }

  /** Capacity is never lowered in the run. */
  ghost predicate NeverLowered(g: Garage, es: seq<Event>) {
    forall k :: 0 <= k < |es| ==> NotLoweredAt(g, es, k)
  }

  predicate NotLoweredAt(g: Garage, es: seq<Event>, k: nat)
    requires k < |es|
  {
    SlotCapacity(SettingsAt(g, es, k)) <= SlotCapacity(es[k].garage)
  }

  lemma {:induction false} MostIsLast(g: Garage, es: seq<Event>, k: nat)
    requires NeverLowered(g, es) && k <= |es|
    ensures MostBays(g, es[..k]) == SlotCapacity(SettingsAt(g, es, k))
  {
    if k > 0 {
      MostIsLast(g, es, k - 1);
      MostBaysNext(g, es, k - 1);
      assert NotLoweredAt(g, es, k - 1);
    }
  }

  ghost predicate WithinCapacityAt(g: Garage, w: World, es: seq<Event>, k: nat)
    requires k <= |es|
  {
    WithinCapacity(SettingsAt(g, es, k), Run(w, es[..k]).db)
  }

  /** The event makes a closed request wait again in a slot that is full. */
  ghost predicate FillsFullSlotAt(w: World, es: seq<Event>, k: nat)
    requires k < |es|
  {
    Overfills(es[k].garage, Run(w, es[..k]), es[k].action, SlotCapacity(es[k].garage))
  }

  /** So while capacity is never lowered it is never exceeded, exactly unless
      that happens in a full slot. */
  lemma NeverOverCapacityExactlyWhen(g: Garage, w: World, es: seq<Event>)
    requires ValidCalendar(g.calendar) && WithinCapacity(g, w.db) && SteadyRun(g, w, es) && NeverLowered(g, es)
    ensures (forall k :: 0 <= k <= |es| ==> WithinCapacityAt(g, w, es, k))
      <==> (forall k :: 0 <= k < |es| ==> !FillsFullSlotAt(w, es, k))
  {
    NeverOverTheMostBaysExactlyWhen(g, w, es);
    forall k | 0 <= k <= |es| ensures WithinCapacityAt(g, w, es, k) <==> WithinAt(g, w, es, k) {
      MostIsLast(g, es, k);
    }
    forall k | 0 <= k < |es| ensures FillsFullSlotAt(w, es, k) <==> OverfillsAt(g, w, es, k) {
      MostIsLast(g, es, k + 1);
    }
  }

  // ------------------------------------------------- exactly when it is sound

  /** What the check may rely on in the tables. */
  ghost predicate TablesOk(g: Garage, db: Database) {
    WithinCapacity(g, db) && RequestsTimed(g, db.requests)
  }

  ghost predicate CheckIsSound(g: Garage, start: int, end: int) {
    forall db :: TablesOk(g, db) && HasCapacity(g, db, start, WholeMinutes(start, end), None, None, false) ==>
      forall t :: start <= t < end ==> Reserved(g, db, t) < SlotCapacity(g)
  }

  /** As many appointments as there are bays, all over the same span. */
  function FullHouse(g: Garage, start: int, end: int, n: nat): seq<Appointment> {
    seq(n, i => Appointment(if i >= 0 then i else 0, 0, start, end, BOOKED, []))
  }

  lemma {:induction false} FullHouseReserves(g: Garage, start: int, end: int, n: nat, t: int)
    ensures Cover(AppointmentSpans(FullHouse(g, start, end, n)), t) == if start <= t < end then n else 0
  {
    if n > 0 {
      assert AppointmentSpans(FullHouse(g, start, end, n))[..n - 1] == AppointmentSpans(FullHouse(g, start, end, n - 1));
      FullHouseReserves(g, start, end, n - 1, t);
    }
  }

  lemma {:induction false} CoverOutside(ivs: seq<Interval>, t: int)
    requires forall i :: 0 <= i < |ivs| ==> !Covers(ivs[i], t)
    ensures Cover(ivs, t) == 0
  {
    if ivs != [] {
      CoverOutside(ivs[..|ivs| - 1], t);
    }
  }

  /** A full house hidden in `[from, end)` from a check that looks at less. */
  lemma HiddenFullHouse(g: Garage, start: int, from: int, end: int)
    requires start <= from < end
    requires start + WholeMinutes(start, end) * MINUTE <= from
      || from > (g.calendar.slotAt)((g.calendar.dayOf)(start), END_OF_DAY)
    ensures !CheckIsSound(g, start, end)
  {
    var n := SlotCapacity(g);
    var db := Database(FullHouse(g, from, end, n), []);
    forall t ensures Reserved(g, db, t) <= n {
      FullHouseReserves(g, from, end, n, t);
    }
    var minutes := WholeMinutes(start, end);
    var day := (g.calendar.dayOf)(start);
    forall t | start <= t < start + minutes * MINUTE
      ensures Cover(DayUsage(g, db, day, None, None), t) < n
    {
      CoverOutside(DayUsage(g, db, day, None, None), t);
    }
    assert HasCapacity(g, db, start, minutes, None, None, false);
    FullHouseReserves(g, from, end, n, from);
    assert Reserved(g, db, from) == n;
  }

  /** The capacity check protects a span exactly when the span lies inside one
      local day and lasts whole minutes: it loads a single day's reservations,
      and drops the last part minute. */
  lemma CheckSoundExactlyWhen(g: Garage, start: int, end: int)
    requires ValidCalendar(g.calendar) && start < end
    ensures CheckIsSound(g, start, end) <==> SpanTimed(g, start, end)
  {
    var day := (g.calendar.dayOf)(start);
    var midnight := (g.calendar.slotAt)(day, END_OF_DAY) + 1;
    if SpanTimed(g, start, end) {
      forall db | TablesOk(g, db) && HasCapacity(g, db, start, WholeMinutes(start, end), None, None, false)
        ensures forall t :: start <= t < end ==> Reserved(g, db, t) < SlotCapacity(g)
      {
        forall t | start <= t < end ensures Reserved(g, db, t) < SlotCapacity(g) {
          AcceptedLeavesRoom(g, db, start, end, None, None, false, t);
        }
      }
    } else if (end - start) % MINUTE != 0 {
      HiddenFullHouse(g, start, start + WholeMinutes(start, end) * MINUTE, end);
    } else {
      assert (g.calendar.slotAt)(day, 0) <= start <= (g.calendar.slotAt)(day, END_OF_DAY);
      HiddenFullHouse(g, start, midnight, end);
    }
  }

  /** UTC, where a local day is a fixed 24 hours. */
  function Utc(): Calendar {
    var dayLength := END_OF_DAY + 1;
    Calendar(t => t / (END_OF_DAY + 1), t => t % (END_OF_DAY + 1), (d, x) => d * (END_OF_DAY + 1) + x)
  }

  /** The failing family is real: with one bay, a staff booking from 23:30 to
      00:30 is accepted over an appointment at 00:00. */
  lemma LateNightOverbooking(g: Garage, n: NewAppointment)
    requires g.calendar == Utc() && SlotCapacity(g) == 1
    requires EmployeeAssignable(g, 1) && TypeBookable(g, 0)
    requires n == NewAppointment(1, 0, 1410 * MINUTE, Some(1470 * MINUTE), None, [], true)
    ensures var db := Database([Appointment(0, 0, 1440 * MINUTE, 1500 * MINUTE, BOOKED, [])], []);
      && WithinCapacity(g, db)
      && Post(g, db, n).reply == Done
      && Reserved(g, Post(g, db, n).db, 1440 * MINUTE) == 2
  {
    var row := Appointment(0, 0, 1440 * MINUTE, 1500 * MINUTE, BOOKED, []);
    var db := Database([row], []);
    assert db.appointments == FullHouse(g, 1440 * MINUTE, 1500 * MINUTE, 1);
    forall t ensures Reserved(g, db, t) <= 1 {
      FullHouseReserves(g, 1440 * MINUTE, 1500 * MINUTE, 1, t);
    }
    assert WholeMinutes(n.start, n.end.value) == 60;
    assert (g.calendar.dayOf)(n.start) == 0;
    forall t | n.start <= t < n.start + 60 * MINUTE ensures Cover(DayUsage(g, db, 0, None, None), t) < 1 {
      CoverOutside(DayUsage(g, db, 0, None, None), t);
    }
    FullHouseReserves(g, 1440 * MINUTE, 1500 * MINUTE, 1, 1440 * MINUTE);
    AppointmentAppended(g, db, Appointment(1, 0, n.start, n.end.value, BOOKED, []), 1440 * MINUTE);
  }
}
