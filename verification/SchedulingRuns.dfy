/** What runs keep and exactly when: no employee is double-booked, and a
    request's life goes one way, ending in at most one appointment. */
module SchedulingRuns {
  import opened Wrappers
  import opened Intervals
  import opened Scheduling

  // --------------------------------------------------------- double-booking

  ghost predicate NoDoubleBooking(rows: seq<Appointment>) {
    forall i, j :: 0 <= i < |rows| && 0 <= j < |rows| && i != j && Live(rows[i]) && Live(rows[j])
      && rows[i].employee == rows[j].employee
      ==> rows[i].end <= rows[j].start || rows[j].end <= rows[i].start
  }

  ghost predicate Forward(rows: seq<Appointment>) {
    forall i :: 0 <= i < |rows| ==> rows[i].start < rows[i].end
  }

  ghost predicate DiaryOk(rows: seq<Appointment>) {
    NoDoubleBooking(rows) && Forward(rows)
  }

  /** A row may replace another when it is dead, unmoved, or was checked. */
  lemma ReplaceKeepsDiary(rows: seq<Appointment>, i: nat, a: Appointment)
    requires DiaryOk(rows) && i < |rows| && a.start < a.end
    requires Live(a) ==>
      || !HasConflict(rows, a.employee, a.start, a.end, Some(i))
      || (Live(rows[i]) && a.employee == rows[i].employee && a.start == rows[i].start && a.end == rows[i].end)
    ensures DiaryOk(rows[i := a])
  {
    if Live(a) && !HasConflict(rows, a.employee, a.start, a.end, Some(i)) {
      assert forall j :: 0 <= j < |rows| && j != i ==> !Busy(rows[j], a.employee, a.start, a.end);
    }
  }

  lemma AppendKeepsDiary(rows: seq<Appointment>, a: Appointment)
    requires DiaryOk(rows) && a.start < a.end
    requires Live(a) ==> !HasConflict(rows, a.employee, a.start, a.end, None)
    ensures DiaryOk(rows + [a])
  {
    if Live(a) {
      assert forall j :: 0 <= j < |rows| ==> !Busy(rows[j], a.employee, a.start, a.end);
    }
  }

  lemma PatchKeepsDiary(g: Garage, db: Database, id: nat, e: Edit)
    requires DiaryOk(db.appointments)
    ensures DiaryOk(Patch(g, db, id, e).db.appointments)
  {
    if PatchReply(g, db, id, e) == Done {
      ReplaceKeepsDiary(db.appointments, id, Edited(db.appointments[id], e));
    }
  }

  lemma ApproveKeepsDiary(g: Garage, db: Database, id: nat, r: Request, d: Approval, now: int)
    requires DiaryOk(db.appointments) && id < |db.requests|
    ensures DiaryOk(ApproveSeen(g, db, id, r, d, now).db.appointments)
  {
    if ApproveReply(g, db, id, r, d, now) == Done {
      var o := ApproveSeen(g, db, id, r, d, now);
      AppendKeepsDiary(db.appointments, o.db.appointments[|db.appointments|]);
    }
  }

  lemma PostKeepsDiary(g: Garage, db: Database, n: NewAppointment)
    requires DiaryOk(db.appointments)
    ensures DiaryOk(Post(g, db, n).db.appointments)
  {
    if PostReply(g, db, n) == Done {
      AppendKeepsDiary(db.appointments, Post(g, db, n).db.appointments[|db.appointments|]);
    }
  }

  /** The conversation moves a live appointment that by now belongs to somebody
      who is busy at the new time; only the earlier owner's diary was checked. */
  ghost predicate Tramples(g: Garage, db: Database, id: nat, seen: Appointment, day: int, time: int, offered: bool) {
    && RescheduleReply(g, db, id, seen, day, time, offered) == Done
    && var row, to := db.appointments[id], MovedTo(g, seen, day, time);
    && Live(row) && to.start != seen.start
    && HasConflict(db.appointments, row.employee, to.start, to.end, Some(id))
  }

  lemma ConflictBreaksDiary(rows: seq<Appointment>, id: nat, a: Appointment)
    requires id < |rows| && Live(a) && HasConflict(rows, a.employee, a.start, a.end, Some(id))
    ensures !DiaryOk(rows[id := a])
  {
    var i :| 0 <= i < |rows| && Some(id) != Some(i) && Busy(rows[i], a.employee, a.start, a.end);
    var after := rows[id := a];
    assert after[id] == a && after[i] == rows[i];
    assert Live(after[id]) && Live(after[i]) && after[id].employee == after[i].employee;
  }

  lemma RescheduleKeepsDiaryExactlyWhen(
    g: Garage, db: Database, id: nat, seen: Appointment, day: int, time: int, offered: bool)
    requires DiaryOk(db.appointments) && seen.start < seen.end
    ensures DiaryOk(Reschedule(g, db, id, seen, day, time, offered).db.appointments)
      <==> !Tramples(g, db, id, seen, day, time, offered)
  {
    if RescheduleReply(g, db, id, seen, day, time, offered) == Done {
      var row, to := db.appointments[id], MovedTo(g, seen, day, time);
      if Tramples(g, db, id, seen, day, time, offered) {
        ConflictBreaksDiary(db.appointments, id, MovedRow(row, seen, to));
      } else {
        ReplaceKeepsDiary(db.appointments, id, MovedRow(row, seen, to));
      }
    }
  }

  /** It takes a change of employee after the conversation read the appointment. */
  lemma TramplingNeedsNewEmployee(
    g: Garage, db: Database, id: nat, seen: Appointment, day: int, time: int, offered: bool)
    requires Tramples(g, db, id, seen, day, time, offered)
    ensures db.appointments[id].employee != seen.employee
  {
  }

  /** A move that was answered with "done" leaves the appointment live at the new
      time with the length it had, exactly when nobody cancelled it, changed its
      length or, for a move to the time it was read at, moved it meanwhile. */
  lemma MoveLandsExactlyWhen(g: Garage, db: Database, id: nat, seen: Appointment, day: int, time: int, offered: bool)
    requires RescheduleReply(g, db, id, seen, day, time, offered) == Done
    ensures var row, after := db.appointments[id], Reschedule(g, db, id, seen, day, time, offered).db.appointments[id];
      var sameTime := (g.calendar.slotAt)(day, time) == seen.start;
      var unmoved := if sameTime then row.start == seen.start else row.end - row.start == seen.end - seen.start;
      Live(after) && after == MovedTo(g, row, day, time) <==> Live(row) && unmoved
  {
  }

  lemma CancelKeepsDiary(rows: seq<Appointment>, id: nat)
    requires DiaryOk(rows)
    ensures id < |rows| ==> DiaryOk(rows[id := rows[id].(status := CANCELLED)])
  {
    if id < |rows| {
      ReplaceKeepsDiary(rows, id, rows[id].(status := CANCELLED));
    }
  }

  ghost predicate MovesForwardInTime(w: World) {
    forall k :: 0 <= k < |w.moves| && w.moves[k].Some? ==> w.moves[k].value.seen.start < w.moves[k].value.seen.end
  }

  ghost predicate DiaryWorld(w: World) {
    DiaryOk(w.db.appointments) && MovesForwardInTime(w)
  }

  /** This commit tramples on somebody's diary. */
  ghost predicate TakesOver(g: Garage, w: World, a: Action) {
    && a.MoveCommit? && MoveReady(w, a.k)
    && var m := w.moves[a.k].value;
    Tramples(g, w.db, m.id, m.seen, a.day, a.time, a.offered)
  }

  lemma StepKeepsMoves(g: Garage, w: World, a: Action)
    requires DiaryWorld(w)
    ensures MovesForwardInTime(Step(g, w, a))
  {
  }

  lemma StepKeepsDiaryExactlyWhen(g: Garage, w: World, a: Action)
    requires DiaryWorld(w)
    ensures DiaryOk(Step(g, w, a).db.appointments) <==> !TakesOver(g, w, a)
  {
    match a {
      case DoPost(n) => PostKeepsDiary(g, w.db, n);
      case DoPatch(id, e) => PatchKeepsDiary(g, w.db, id, e);
      case DoDelete(id) => CancelKeepsDiary(w.db.appointments, id);
      case DoApprove(id, d, now) =>
        if id < |w.db.requests| {
          ApproveKeepsDiary(g, w.db, id, w.db.requests[id], d, now);
        }
      case AutoCommit(k, clash, now) =>
        if PickReady(w, k) {
          var p := w.picks[k].value;
          ApproveKeepsDiary(g, w.db, p.id, p.seen, AutoApproval(p.employee, clash), now);
        }
      case CancelCommit(k) =>
        if k < |w.cancels| {
          CancelKeepsDiary(w.db.appointments, w.cancels[k]);
        }
      case MoveCommit(k, day, time, offered) =>
        if MoveReady(w, k) {
          RescheduleKeepsDiaryExactlyWhen(g, w.db, w.moves[k].value.id, w.moves[k].value.seen, day, time, offered);
        }
      case _ =>
    }
  }

  ghost predicate TakesOverAt(w: World, es: seq<Event>, k: nat)
    requires k < |es|
  {
    TakesOver(es[k].garage, Run(w, es[..k]), es[k].action)
  }

  ghost predicate DiaryOkAt(w: World, es: seq<Event>, k: nat)
    requires k <= |es|
  {
    DiaryOk(Run(w, es[..k]).db.appointments)
  }

  ghost predicate DiaryWorldAt(w: World, es: seq<Event>, k: nat)
    requires k <= |es|
  {
    DiaryOkAt(w, es, k) && MovesForwardInTime(Run(w, es[..k]))
  }

  lemma NextKeepsDiaryExactlyWhen(w: World, es: seq<Event>, k: nat)
    requires k < |es| && DiaryWorldAt(w, es, k)
    ensures MovesForwardInTime(Run(w, es[..k + 1]))
    ensures DiaryOkAt(w, es, k + 1) <==> !TakesOverAt(w, es, k)
  {
    var g, before, a := es[k].garage, Run(w, es[..k]), es[k].action;
    StepKeepsMoves(g, before, a);
    StepKeepsDiaryExactlyWhen(g, before, a);
    RunNext(w, es, k);
  }

  lemma {:induction false} DiaryAt(w: World, es: seq<Event>, k: nat)
    requires DiaryWorld(w) && k <= |es|
    requires forall j :: 0 <= j < k ==> !TakesOverAt(w, es, j)
    ensures DiaryWorldAt(w, es, k)
  {
    if k > 0 {
      DiaryAt(w, es, k - 1);
      NextKeepsDiaryExactlyWhen(w, es, k - 1);
    }
  }

  /** The first event with a property. */
  lemma FirstTakeOver(w: World, es: seq<Event>, n: nat) returns (k: nat)
    requires n < |es| && TakesOverAt(w, es, n)
    ensures k <= n && TakesOverAt(w, es, k) && forall j :: 0 <= j < k ==> !TakesOverAt(w, es, j)
  {
    if j: nat :| j < n && TakesOverAt(w, es, j) {
      k := FirstTakeOver(w, es, j);
    } else {
      k := n;
    }
  }

  /** Safety over whole runs: whatever the writers do, in whatever order, with
      whatever settings, nobody is ever double-booked, exactly unless a
      conversation's move lands on the diary of an employee who got the
      appointment after the conversation had read it. */
  lemma NobodyIsDoubleBookedExactlyWhen(w: World, es: seq<Event>)
    requires DiaryWorld(w)
    ensures (forall k :: 0 <= k <= |es| ==> DiaryOkAt(w, es, k))
      <==> (forall k :: 0 <= k < |es| ==> !TakesOverAt(w, es, k))
  {
    if n :| 0 <= n < |es| && TakesOverAt(w, es, n) {
      var k := FirstTakeOver(w, es, n);
      DiaryAt(w, es, k);
      NextKeepsDiaryExactlyWhen(w, es, k);
      assert !DiaryOkAt(w, es, k + 1);
    } else {
      forall k | 0 <= k <= |es| ensures DiaryOkAt(w, es, k) {
        DiaryAt(w, es, k);
      }
    }
  }

  /** The k-th event does not move an appointment that changed hands since the
      conversation read it. */
  ghost predicate SameEmployeeAt(w: World, es: seq<Event>, k: nat)
    requires k < |es|
  {
    var before, a := Run(w, es[..k]), es[k].action;
    var moving := a.MoveCommit? && MoveReady(before, a.k);
    moving ==> before.db.appointments[before.moves[a.k].value.id].employee == before.moves[a.k].value.seen.employee
  }

  /** So nobody is double-booked while no appointment changes hands under a
      conversation that is moving it. */
  lemma NobodyIsDoubleBooked(w: World, es: seq<Event>)
    requires DiaryWorld(w) && forall k :: 0 <= k < |es| ==> SameEmployeeAt(w, es, k)
    ensures DiaryOk(Run(w, es).db.appointments)
  {
    forall k | 0 <= k < |es| ensures !TakesOverAt(w, es, k) {
      assert SameEmployeeAt(w, es, k);
    }
    DiaryAt(w, es, |es|);
    assert es[..|es|] == es;
  }

  // ------------------------------------------------------- request lifecycle

  predicate Closed(s: RequestStatus) {
    s == Approved || s == Rejected || s == Expired
  }

  function Rank(s: RequestStatus): nat {
    match s
    case AwaitingTerms => 0
    case AwaitingPayment => 1
    case Pending => 2
    case _ => 3
  }

  /** One request may only move forward; once closed its outcome is fixed. */
  predicate MovesForward(a: Request, b: Request) {
    && Rank(a.status) <= Rank(b.status)
    && (Closed(a.status) ==> b == a)
  }

  ghost predicate LinksInTable(db: Database) {
    forall i :: 0 <= i < |db.requests| && db.requests[i].appointment.Some? ==>
      db.requests[i].appointment.value < |db.appointments|
  }

  /** The commit puts a status on request `r` that it took from an outdated copy,
      or from nothing, although `r` has already got as far or further:
      auto-accept on a request closed since it was picked, a hold settled twice
      over, a paid deposit reopening a closed request. */
  ghost predicate Overwrites(g: Garage, w: World, a: Action, r: nat) {
    && r < |w.db.requests|
    && var row := w.db.requests[r];
    match a
    case AutoCommit(k, clash, now) =>
      && PickReady(w, k) && w.picks[k].value.id == r && Closed(row.status)
      && var p := w.picks[k].value;
      (PickOutcome(g, w, k, clash, now).reply == Done
       || (p.seen.status == Pending && IsStale(g, p.seen, now) && row.status != Expired))
    case HoldCommit(k, to) =>
      HoldReady(w, k, to) && w.holds[k].value.id == r && to != row.status && Rank(to) <= Rank(row.status)
    case Reopen(id) => id == r && Closed(row.status)
    case _ => false
  }

  /** The table goes forward with a row. */
  ghost predicate RowStep(a: seq<Request>, b: seq<Request>, r: nat) {
    r < |a| <= |b| && MovesForward(a[r], b[r])
  }

  lemma ApproveKeepsRow(g: Garage, db: Database, id: nat, seen: Request, d: Approval, now: int, r: nat)
    requires LinksInTable(db) && id < |db.requests| && r < |db.requests|
    ensures var o, row := ApproveSeen(g, db, id, seen, d, now), db.requests[r];
      var expires := seen.status == Pending && IsStale(g, seen, now) && row.status != Expired;
      && LinksInTable(o.db)
      && (RowStep(db.requests, o.db.requests, r) <==> !(id == r && Closed(row.status) && (o.reply == Done || expires)))
  {
  }

  lemma StatusKeepsRow(db: Database, id: nat, status: RequestStatus, r: nat)
    requires LinksInTable(db) && id < |db.requests| && r < |db.requests|
    ensures var after := WithStatus(db, id, status);
      && LinksInTable(after)
      && (RowStep(db.requests, after.requests, r) <==>
            id == r ==> status == db.requests[r].status || Rank(status) > Rank(db.requests[r].status))
  {
  }

  predicate MovesOneRequest(a: Action) {
    a.DoApprove? || a.AutoCommit? || a.HoldCommit? || a.Reopen?
  }

  lemma OthersKeepRow(g: Garage, w: World, a: Action, r: nat)
    requires LinksInTable(w.db) && r < |w.db.requests| && !MovesOneRequest(a)
    ensures LinksInTable(Step(g, w, a).db) && RowStep(w.db.requests, Step(g, w, a).db.requests, r)
  {
  }

  /** Each step moves each request forward, exactly unless it overwrites it. */
  lemma StepKeepsRowExactlyWhen(g: Garage, w: World, a: Action, r: nat)
    requires LinksInTable(w.db) && r < |w.db.requests|
    ensures LinksInTable(Step(g, w, a).db)
    ensures RowStep(w.db.requests, Step(g, w, a).db.requests, r) <==> !Overwrites(g, w, a, r)
  {
    match a {
      case DoApprove(id, d, now) =>
        if id < |w.db.requests| {
          ApproveKeepsRow(g, w.db, id, w.db.requests[id], d, now, r);
        }
      case AutoCommit(k, clash, now) =>
        if PickReady(w, k) {
          var p := w.picks[k].value;
          ApproveKeepsRow(g, w.db, p.id, p.seen, AutoApproval(p.employee, clash), now, r);
        }
      case HoldCommit(k, to) =>
        if HoldReady(w, k, to) {
          StatusKeepsRow(w.db, w.holds[k].value.id, to, r);
        }
      case Reopen(id) =>
        if id < |w.db.requests| {
          StatusKeepsRow(w.db, id, Pending, r);
        }
      case _ => OthersKeepRow(g, w, a, r);
    }
  }

  lemma StepKeepsTable(g: Garage, w: World, a: Action)
    requires LinksInTable(w.db)
    ensures LinksInTable(Step(g, w, a).db) && |w.db.requests| <= |Step(g, w, a).db.requests|
  {
    if w.db.requests != [] {
      StepKeepsRowExactlyWhen(g, w, a, 0);
    }
  }

  ghost predicate TableOkAt(w: World, es: seq<Event>, k: nat)
    requires k <= |es|
  {
    LinksInTable(Run(w, es[..k]).db)
  }

  ghost function RequestsAt(w: World, es: seq<Event>, k: nat): seq<Request>
    requires k <= |es|
  {
    Run(w, es[..k]).db.requests
  }

  lemma NextKeepsTable(w: World, es: seq<Event>, k: nat)
    requires k < |es| && TableOkAt(w, es, k)
    ensures TableOkAt(w, es, k + 1) && |RequestsAt(w, es, k)| <= |RequestsAt(w, es, k + 1)|
  {
    StepKeepsTable(es[k].garage, Run(w, es[..k]), es[k].action);
    RunNext(w, es, k);
  }

  lemma {:induction false} TableAt(w: World, es: seq<Event>, k: nat)
    requires LinksInTable(w.db) && k <= |es|
    ensures TableOkAt(w, es, k)
  {
    if k > 0 {
      TableAt(w, es, k - 1);
      NextKeepsTable(w, es, k - 1);
    }
  }

  ghost predicate OverwritesAt(w: World, es: seq<Event>, k: nat, r: nat)
    requires k < |es|
  {
    Overwrites(es[k].garage, Run(w, es[..k]), es[k].action, r)
  }

  /** No event of the run overwrites request `r`. */
  ghost predicate Undisturbed(w: World, es: seq<Event>, r: nat) {
    forall k :: 0 <= k < |es| ==> !OverwritesAt(w, es, k, r)
  }

  ghost predicate RowForwardAt(w: World, es: seq<Event>, k: nat, r: nat)
    requires k < |es|
  {
    r < |RequestsAt(w, es, k)| ==> RowStep(RequestsAt(w, es, k), RequestsAt(w, es, k + 1), r)
  }

  lemma NextKeepsRowExactlyWhen(w: World, es: seq<Event>, k: nat, r: nat)
    requires k < |es| && TableOkAt(w, es, k)
    ensures RowForwardAt(w, es, k, r) <==> !OverwritesAt(w, es, k, r)
  {
    if r < |RequestsAt(w, es, k)| {
      StepKeepsRowExactlyWhen(es[k].garage, Run(w, es[..k]), es[k].action, r);
      RunNext(w, es, k);
    }
  }

  /** Over any run a request's status only moves forward and its outcome is
      final, exactly when no event of the run overwrites it. */
  lemma RequestGoesOneWayExactlyWhen(w: World, es: seq<Event>, r: nat)
    requires LinksInTable(w.db)
    ensures (forall k :: 0 <= k < |es| ==> RowForwardAt(w, es, k, r)) <==> Undisturbed(w, es, r)
  {
    forall k | 0 <= k < |es| ensures RowForwardAt(w, es, k, r) <==> !OverwritesAt(w, es, k, r) {
      TableAt(w, es, k);
      NextKeepsRowExactlyWhen(w, es, k, r);
    }
  }

  /** From any moment of the run to any later one. */
  lemma {:induction false} RequestMovesForward(w: World, es: seq<Event>, i: nat, j: nat, r: nat)
    requires LinksInTable(w.db) && Undisturbed(w, es, r)
    requires i <= j <= |es| && r < |RequestsAt(w, es, i)|
    ensures RowStep(RequestsAt(w, es, i), RequestsAt(w, es, j), r)
    decreases j
  {
    if i < j {
      RequestMovesForward(w, es, i, j - 1, r);
      RequestGoesOneWayExactlyWhen(w, es, r);
      assert RowForwardAt(w, es, j - 1, r);
    }
  }

  /** A request nothing overwrites leaves PENDING at most once; once approved,
      rejected or expired no interleaving changes it. */
  lemma RequestsCloseOnce(w: World, es: seq<Event>, i: nat, j: nat, r: nat)
    requires LinksInTable(w.db) && Undisturbed(w, es, r)
    requires i <= j <= |es| && r < |RequestsAt(w, es, i)|
    ensures r < |RequestsAt(w, es, j)|
    ensures var before, after := RequestsAt(w, es, i)[r], RequestsAt(w, es, j)[r];
      && (Closed(before.status) ==> after == before)
      && (before.status == Pending && after.status != Pending ==> Closed(after.status))
  {
    RequestMovesForward(w, es, i, j, r);
  }

  // ------------------------------------------------------------------- links

  /** APPROVED is exactly having an appointment, and no appointment has two. */
  ghost predicate LinksOk(db: Database) {
    && (forall i :: 0 <= i < |db.requests| ==>
          (db.requests[i].status == Approved <==> db.requests[i].appointment.Some?))
    && LinksInTable(db)
    && (forall i, j :: 0 <= i < |db.requests| && 0 <= j < |db.requests| && i != j
          && db.requests[i].appointment.Some?
          ==> db.requests[i].appointment != db.requests[j].appointment)
  }

  /** One request row changes without touching its link. */
  lemma RowKeepsLinks(db: Database, id: nat, r: Request)
    requires LinksOk(db) && id < |db.requests|
    requires r.appointment == db.requests[id].appointment
    requires r.status == Approved <==> db.requests[id].status == Approved
    ensures LinksOk(db.(requests := db.requests[id := r]))
  {
  }

  /** The approval finds its copy out of date: the row expires, whatever it is. */
  predicate ExpiresSeen(g: Garage, seen: Request, now: int) {
    seen.status == Pending && IsStale(g, seen, now)
  }

  lemma BookedKeepsLinks(db: Database, id: nat, r: Request, booking: Appointment)
    requires LinksOk(db) && id < |db.requests|
    requires r.status == Approved && r.appointment == Some(|db.appointments|)
    ensures LinksOk(Database(db.appointments + [booking], db.requests[id := r]))
  {
  }

  lemma StatusKeepsLinksExactlyWhen(db: Database, id: nat, status: RequestStatus)
    requires LinksOk(db) && id < |db.requests| && status != Approved
    ensures LinksOk(WithStatus(db, id, status)) <==> db.requests[id].status != Approved
  {
    var after := WithStatus(db, id, status);
    if db.requests[id].status == Approved {
      assert after.requests[id].appointment.Some? && after.requests[id].status == status;
    } else {
      RowKeepsLinks(db, id, after.requests[id]);
    }
  }

  lemma ApproveKeepsLinksExactlyWhen(g: Garage, db: Database, id: nat, seen: Request, d: Approval, now: int)
    requires LinksOk(db) && id < |db.requests|
    ensures LinksOk(ApproveSeen(g, db, id, seen, d, now).db)
      <==> !(db.requests[id].status == Approved && ExpiresSeen(g, seen, now))
  {
    var o := ApproveSeen(g, db, id, seen, d, now);
    if o.reply == Done {
      BookedKeepsLinks(db, id, o.db.requests[id], o.db.appointments[|db.appointments|]);
    } else if ExpiresSeen(g, seen, now) {
      StatusKeepsLinksExactlyWhen(db, id, Expired);
    }
  }

  lemma AppointmentsKeepLinks(db: Database, rows: seq<Appointment>)
    requires LinksOk(db) && |db.appointments| <= |rows|
    ensures LinksOk(db.(appointments := rows))
  {
  }

  lemma SubmitKeepsLinks(g: Garage, db: Database, s: Submission)
    requires LinksOk(db)
    ensures LinksOk(Submit(g, db, s).db)
  {
  }

  lemma SweepKeepsLinks(db: Database, ids: set<nat>)
    requires LinksOk(db)
    ensures LinksOk(db.(requests := ExpireRows(db.requests, ids)))
  {
  }

  lemma RejectKeepsLinks(g: Garage, db: Database, id: nat, now: int)
    requires LinksOk(db)
    ensures LinksOk(Reject(g, db, id, now).db)
  {
    if id < |db.requests| && db.requests[id].status == Pending {
      RowKeepsLinks(db, id, db.requests[id].(status := Expired));
      RowKeepsLinks(db, id, db.requests[id].(status := Rejected));
    }
  }

  /** The request a commit is about. */
  function Target(w: World, a: Action): nat {
    match a
    case DoApprove(id, _, _) => id
    case AutoCommit(k, _, _) => if PickReady(w, k) then w.picks[k].value.id else 0
    case HoldCommit(k, to) => if HoldReady(w, k, to) then w.holds[k].value.id else 0
    case Reopen(id) => id
    case _ => 0
  }

  predicate IsApproved(db: Database, r: nat) {
    r < |db.requests| && db.requests[r].status == Approved
  }

  /** The commit takes an APPROVED request off APPROVED and leaves its link:
      auto-accept whose copy is out of date, a hold settled by an outdated
      session, a paid deposit. */
  predicate Unlinks(g: Garage, w: World, a: Action) {
    && IsApproved(w.db, Target(w, a))
    && match a
       case AutoCommit(k, _, now) => PickReady(w, k) && ExpiresSeen(g, w.picks[k].value.seen, now)
       case HoldCommit(k, to) => HoldReady(w, k, to)
       case Reopen(_) => true
       case _ => false
  }

  lemma OthersKeepLinks(g: Garage, w: World, a: Action)
    requires LinksOk(w.db) && !MovesOneRequest(a)
    ensures LinksOk(Step(g, w, a).db)
  {
    var rows := Step(g, w, a).db.appointments;
    match a {
      case DoPost(n) => AppointmentsKeepLinks(w.db, rows);
      case DoPatch(_, _) => AppointmentsKeepLinks(w.db, rows);
      case DoDelete(_) => AppointmentsKeepLinks(w.db, rows);
      case CancelCommit(_) => AppointmentsKeepLinks(w.db, rows);
      case MoveCommit(_, _, _, _) => AppointmentsKeepLinks(w.db, rows);
      case DoReject(r, now) => RejectKeepsLinks(g, w.db, r, now);
      case SweepCommit(k) =>
        if k < |w.sweeps| {
          SweepKeepsLinks(w.db, w.sweeps[k]);
        }
      case DoSubmit(s) => SubmitKeepsLinks(g, w.db, s);
      case _ =>
    }
  }

  lemma StepKeepsLinksExactlyWhen(g: Garage, w: World, a: Action)
    requires LinksOk(w.db)
    ensures LinksOk(Step(g, w, a).db) <==> !Unlinks(g, w, a)
  {
    match a {
      case DoApprove(id, d, now) =>
        if id < |w.db.requests| {
          ApproveKeepsLinksExactlyWhen(g, w.db, id, w.db.requests[id], d, now);
        }
      case AutoCommit(k, clash, now) =>
        if PickReady(w, k) {
          var p := w.picks[k].value;
          ApproveKeepsLinksExactlyWhen(g, w.db, p.id, p.seen, AutoApproval(p.employee, clash), now);
        }
      case HoldCommit(k, to) =>
        if HoldReady(w, k, to) {
          StatusKeepsLinksExactlyWhen(w.db, w.holds[k].value.id, to);
        }
      case Reopen(id) =>
        if id < |w.db.requests| {
          StatusKeepsLinksExactlyWhen(w.db, id, Pending);
        }
      case _ => OthersKeepLinks(g, w, a);
    }
  }

  ghost predicate LinksOkAt(w: World, es: seq<Event>, k: nat)
    requires k <= |es|
  {
    LinksOk(Run(w, es[..k]).db)
  }

  ghost predicate UnlinksAt(w: World, es: seq<Event>, k: nat)
    requires k < |es|
  {
    Unlinks(es[k].garage, Run(w, es[..k]), es[k].action)
  }

  lemma NextLinksExactlyWhen(w: World, es: seq<Event>, k: nat)
    requires k < |es| && LinksOkAt(w, es, k)
    ensures LinksOkAt(w, es, k + 1) <==> !UnlinksAt(w, es, k)
  {
    StepKeepsLinksExactlyWhen(es[k].garage, Run(w, es[..k]), es[k].action);
    RunNext(w, es, k);
  }

  lemma {:induction false} LinksUntil(w: World, es: seq<Event>, k: nat)
    requires LinksOk(w.db) && k <= |es| && forall j :: 0 <= j < k ==> !UnlinksAt(w, es, j)
    ensures LinksOkAt(w, es, k)
  {
    if k > 0 {
      LinksUntil(w, es, k - 1);
      NextLinksExactlyWhen(w, es, k - 1);
    }
  }

  lemma FirstUnlink(w: World, es: seq<Event>, n: nat) returns (k: nat)
    requires n < |es| && UnlinksAt(w, es, n)
    ensures k <= n && UnlinksAt(w, es, k) && forall j :: 0 <= j < k ==> !UnlinksAt(w, es, j)
  {
    if j: nat :| j < n && UnlinksAt(w, es, j) {
      k := FirstUnlink(w, es, j);
    } else {
      k := n;
    }
  }

  /** In every state of a run APPROVED is exactly having an appointment of one's
      own, exactly unless an event takes a request off APPROVED. */
  lemma RunKeepsLinksExactlyWhen(w: World, es: seq<Event>)
    requires LinksOk(w.db)
    ensures (forall k :: 0 <= k <= |es| ==> LinksOkAt(w, es, k)) <==> (forall k :: 0 <= k < |es| ==> !UnlinksAt(w, es, k))
  {
    if n :| 0 <= n < |es| && UnlinksAt(w, es, n) {
      var k := FirstUnlink(w, es, n);
      LinksUntil(w, es, k);
      NextLinksExactlyWhen(w, es, k);
      assert !LinksOkAt(w, es, k + 1);
    } else {
      forall k | 0 <= k <= |es| ensures LinksOkAt(w, es, k) {
        LinksUntil(w, es, k);
      }
    }
  }

  // ---------------------------------------------------------------- bookings

  /** The step appended one appointment and linked it to `r`. */
  predicate Books(before: Database, after: Database, r: nat) {
    && r < |after.requests|
    && after.requests[r].appointment == Some(|before.appointments|)
    && |after.appointments| == |before.appointments| + 1
  }

  /** What a step does to the links: nothing, or one booking. */
  ghost predicate LinksUnmoved(a: Database, b: Database) {
    forall r :: 0 <= r < |b.requests| ==>
      b.requests[r].appointment == if r < |a.requests| then a.requests[r].appointment else None
  }

  lemma ApproveBooks(g: Garage, db: Database, id: nat, seen: Request, d: Approval, now: int, r: nat)
    requires LinksInTable(db) && id < |db.requests|
    ensures var o := ApproveSeen(g, db, id, seen, d, now);
      Books(db, o.db, r) <==> o.reply == Done && r == id
    ensures var o := ApproveSeen(g, db, id, seen, d, now);
      IsApproved(o.db, r) && !IsApproved(db, r) <==> o.reply == Done && r == id && !IsApproved(db, r)
  {
  }

  lemma StepLinks(g: Garage, w: World, a: Action)
    ensures LinksUnmoved(w.db, Step(g, w, a).db) || a.DoApprove? || a.AutoCommit?
  {
  }

  /** Auto-accept books a request that was approved since it was picked. */
  ghost predicate Rebooks(g: Garage, w: World, a: Action, r: nat) {
    && a.AutoCommit? && PickReady(w, a.k) && w.picks[a.k].value.id == r && IsApproved(w.db, r)
    && PickOutcome(g, w, a.k, a.vehicleClash, a.now).reply == Done
  }

  lemma NothingElseApproves(g: Garage, w: World, a: Action, r: nat)
    requires LinksInTable(w.db) && !a.DoApprove? && !a.AutoCommit?
    ensures !Books(w.db, Step(g, w, a).db, r)
    ensures IsApproved(Step(g, w, a).db, r) ==> IsApproved(w.db, r)
  {
    StepLinks(g, w, a);
  }

  /** Becoming APPROVED and being booked, as the new last appointment, are the
      same step, exactly unless the request is booked a second time. */
  lemma ApprovalBooksExactlyWhen(g: Garage, w: World, a: Action, r: nat)
    requires LinksInTable(w.db)
    ensures var after := Step(g, w, a).db;
      (IsApproved(after, r) && !IsApproved(w.db, r) <==> Books(w.db, after, r)) <==> !Rebooks(g, w, a, r)
  {
    match a {
      case DoApprove(id, d, now) =>
        if id < |w.db.requests| {
          ApproveBooks(g, w.db, id, w.db.requests[id], d, now, r);
        }
      case AutoCommit(k, clash, now) =>
        if PickReady(w, k) {
          var p := w.picks[k].value;
          ApproveBooks(g, w.db, p.id, p.seen, AutoApproval(p.employee, clash), now, r);
        }
      case _ => NothingElseApproves(g, w, a, r);
    }
  }

  /** How many events of the run booked an appointment for request `r`. */
  ghost function Bookings(w: World, es: seq<Event>, r: nat): nat {
    if es == [] then 0
    else
      var before, after := Run(w, es[..|es| - 1]).db, Run(w, es).db;
      Bookings(w, es[..|es| - 1], r) + if Books(before, after, r) then 1 else 0
  }

  lemma OthersKeepApproval(g: Garage, w: World, a: Action, r: nat)
    requires IsApproved(w.db, r) && !MovesOneRequest(a)
    ensures IsApproved(Step(g, w, a).db, r)
  {
  }

  /** An approved request stays approved exactly unless the step unlinks it. */
  lemma StaysApprovedExactlyWhen(g: Garage, w: World, a: Action, r: nat)
    requires IsApproved(w.db, r)
    ensures IsApproved(Step(g, w, a).db, r) <==> !(Unlinks(g, w, a) && Target(w, a) == r)
  {
    match a {
      case DoApprove(_, _, _) =>
      case AutoCommit(_, _, _) =>
      case HoldCommit(_, _) =>
      case Reopen(_) =>
      case _ => OthersKeepApproval(g, w, a, r);
    }
  }

  /** Booked once if APPROVED by now, and not at all otherwise. */
  ghost predicate BookedOnceAt(w: World, es: seq<Event>, r: nat, k: nat)
    requires k <= |es|
  {
    Bookings(w, es[..k], r) == if IsApproved(Run(w, es[..k]).db, r) then 1 else 0
  }

  /** The event books an approved request again, or takes it off APPROVED. */
  ghost predicate MisbooksAt(w: World, es: seq<Event>, r: nat, k: nat)
    requires k < |es|
  {
    var before, e := Run(w, es[..k]), es[k];
    || Rebooks(e.garage, before, e.action, r)
    || (Unlinks(e.garage, before, e.action) && Target(before, e.action) == r)
  }

  lemma BookingsNext(w: World, es: seq<Event>, r: nat, k: nat)
    requires k < |es|
    ensures Bookings(w, es[..k + 1], r)
      == Bookings(w, es[..k], r) + if Books(Run(w, es[..k]).db, Run(w, es[..k + 1]).db, r) then 1 else 0
  {
    assert es[..k + 1][..k] == es[..k];
  }

  lemma NextBookedExactlyWhen(w: World, es: seq<Event>, r: nat, k: nat)
    requires k < |es| && TableOkAt(w, es, k) && BookedOnceAt(w, es, r, k)
    ensures BookedOnceAt(w, es, r, k + 1) <==> !MisbooksAt(w, es, r, k)
  {
    var before, e := Run(w, es[..k]), es[k];
    ApprovalBooksExactlyWhen(e.garage, before, e.action, r);
    if IsApproved(before.db, r) {
      StaysApprovedExactlyWhen(e.garage, before, e.action, r);
    }
    RunNext(w, es, k);
    BookingsNext(w, es, r, k);
  }

  lemma {:induction false} BookedUntil(w: World, es: seq<Event>, r: nat, k: nat)
    requires LinksInTable(w.db) && !IsApproved(w.db, r) && k <= |es|
    requires forall j :: 0 <= j < k ==> !MisbooksAt(w, es, r, j)
    ensures BookedOnceAt(w, es, r, k)
  {
    if k > 0 {
      BookedUntil(w, es, r, k - 1);
      TableAt(w, es, k - 1);
      NextBookedExactlyWhen(w, es, r, k - 1);
    }
  }

  lemma FirstMisbooking(w: World, es: seq<Event>, r: nat, n: nat) returns (k: nat)
    requires n < |es| && MisbooksAt(w, es, r, n)
    ensures k <= n && MisbooksAt(w, es, r, k) && forall j :: 0 <= j < k ==> !MisbooksAt(w, es, r, j)
  {
    if j: nat :| j < n && MisbooksAt(w, es, r, j) {
      k := FirstMisbooking(w, es, r, j);
    } else {
      k := n;
    }
  }

  /** Exactly-once: in every state of a run a request not approved at its start
      has been booked once if it is APPROVED and never otherwise, exactly unless
      an event books it when approved already, or takes it off APPROVED. */
  lemma BookedExactlyOnceExactlyWhen(w: World, es: seq<Event>, r: nat)
    requires LinksInTable(w.db) && !IsApproved(w.db, r)
    ensures (forall k :: 0 <= k <= |es| ==> BookedOnceAt(w, es, r, k))
      <==> (forall k :: 0 <= k < |es| ==> !MisbooksAt(w, es, r, k))
  {
    if n :| 0 <= n < |es| && MisbooksAt(w, es, r, n) {
      var k := FirstMisbooking(w, es, r, n);
      BookedUntil(w, es, r, k);
      TableAt(w, es, k);
      NextBookedExactlyWhen(w, es, r, k);
      assert !BookedOnceAt(w, es, r, k + 1);
    } else {
      forall k | 0 <= k <= |es| ensures BookedOnceAt(w, es, r, k) {
        BookedUntil(w, es, r, k);
      }
    }
  }

  lemma {:induction false} RunSplits(w: World, a: seq<Event>, b: seq<Event>)
    ensures Run(w, a + b) == Run(Run(w, a), b)
  {
    if b == [] {
      assert a + b == a;
    } else {
      assert (a + b)[..|a + b| - 1] == a + b[..|b| - 1];
      RunSplits(w, a, b[..|b| - 1]);
    }
  }

  ghost function SweepsAt(w: World, es: seq<Event>, k: nat): seq<set<nat>>
    requires k <= |es|
  {
    Run(w, es[..k]).sweeps
  }

  lemma NextKeepsSweeps(w: World, es: seq<Event>, k: nat)
    requires k < |es|
    ensures SweepsAt(w, es, k) <= SweepsAt(w, es, k + 1)
    ensures es[k].action.SweepRead? ==>
      SweepsAt(w, es, k + 1) == SweepsAt(w, es, k) + [StaleIds(es[k].garage, Run(w, es[..k]).db, es[k].action.now)]
  {
    RunNext(w, es, k);
  }

  lemma {:induction false} SweepsStay(w: World, es: seq<Event>, i: nat, j: nat)
    requires i <= j <= |es|
    ensures SweepsAt(w, es, i) <= SweepsAt(w, es, j)
    decreases j
  {
    if i < j {
      SweepsStay(w, es, i, j - 1);
      NextKeepsSweeps(w, es, j - 1);
    }
  }

  ghost predicate ApprovedAt(w: World, es: seq<Event>, k: nat, r: nat)
    requires k <= |es|
  {
    r < |RequestsAt(w, es, k)| && RequestsAt(w, es, k)[r].status == Approved
  }

  /** Event i is a sweep that reads `r` as stale; by event j `r` is approved, and
      event m is the sweep's write. In any run that does not overwrite `r` the
      write names `r`, and `r` stays as it was approved to the end. */
  lemma LateSweepKeepsApproval(w: World, es: seq<Event>, i: nat, j: nat, m: nat, r: nat)
    requires LinksInTable(w.db) && Undisturbed(w, es, r)
    requires i < j <= m < |es| && es[i].action.SweepRead? && es[m].action == SweepCommit(|SweepsAt(w, es, i)|)
    requires r in StaleIds(es[i].garage, Run(w, es[..i]).db, es[i].action.now) && ApprovedAt(w, es, j, r)
    ensures |SweepsAt(w, es, i)| < |SweepsAt(w, es, m)| && r in SweepsAt(w, es, m)[|SweepsAt(w, es, i)|]
    ensures ApprovedAt(w, es, |es|, r) && RequestsAt(w, es, |es|)[r] == RequestsAt(w, es, j)[r]
  {
    NextKeepsSweeps(w, es, i);
    SweepsStay(w, es, i + 1, m);
    RequestMovesForward(w, es, j, |es|, r);
  }

  // ---------------------------------------------------- appointment outcomes

  predicate WritesOneStatus(a: Action) {
    a.DoPatch? || a.DoDelete? || a.CancelCommit? || a.MoveCommit?
  }

  lemma OthersKeepOutcome(g: Garage, w: World, a: Action, i: nat)
    requires i < |w.db.appointments| && !WritesOneStatus(a)
    ensures i < |Step(g, w, a).db.appointments|
    ensures Step(g, w, a).db.appointments[i] == w.db.appointments[i]
  {
  }

  /** A completed or no-show outcome changes only through a chat cancel whose
      status check is out of date: the writers under the lock keep it. */
  lemma OnlyStaleCancelRewritesOutcome(g: Garage, w: World, a: Action, i: nat)
    requires i < |w.db.appointments|
    requires IsTerminal(g, w.db.appointments[i].status) && Live(w.db.appointments[i])
    ensures i < |Step(g, w, a).db.appointments|
    ensures Step(g, w, a).db.appointments[i].status != w.db.appointments[i].status
      <==> a.CancelCommit? && a.k < |w.cancels| && w.cancels[a.k] == i
  {
    match a {
      case DoPatch(id, e) =>
        if PatchReply(g, w.db, id, e) == Done && id == i {
          assert e.status.Some? ==> TransitionAllowed(g, w.db.appointments[i].status, e.status.value);
        }
      case DoDelete(_) =>
      case CancelCommit(_) =>
      case MoveCommit(_, _, _, _) =>
      case _ => OthersKeepOutcome(g, w, a, i);
    }
  }

  // ---------------------------------------------------------------- add-ons

  /** A booking's add-ons as its page shows them: each from the catalogue, once. */
  ghost predicate FromCatalogue(rows: seq<AddOn>) {
    && (forall i :: 0 <= i < |rows| ==> rows[i].id.Some?)
    && (forall i, j :: 0 <= i < j < |rows| ==> rows[i].id != rows[j].id)
  }

  lemma {:induction false} KeptByAddOn(rows: seq<AddOn>, i: nat)
    requires FromCatalogue(rows) && i < |rows|
    ensures rows[i].id.value in ByAddOn(rows) && ByAddOn(rows)[rows[i].id.value] == rows[i]
  {
    if i < |rows| - 1 {
      KeptByAddOn(rows[..|rows| - 1], i);
    }
  }

  /** Sending a booking's own add-ons back, whatever the catalogue says of them
      by now, changes neither them nor when the appointment ends. */
  lemma ResendingAddOnsMovesNothing(a: Appointment, e: Edit)
    requires FromCatalogue(a.addOns) && e.resolved.Some? && NewType(a, e).None?
    requires |e.resolved.value| == |a.addOns|
    requires forall i :: 0 <= i < |a.addOns| ==>
      e.resolved.value[i].id == a.addOns[i].id && e.resolved.value[i].quantity == a.addOns[i].quantity
    ensures PlannedAddOns(a, e) == Some(a.addOns) && EndShift(a, e) == 0
  {
    forall i | 0 <= i < |a.addOns| ensures KeepSnapshot(ByAddOn(a.addOns), e.resolved.value[i]) == a.addOns[i] {
      KeptByAddOn(a.addOns, i);
    }
    assert PlanAddOns(a.addOns, false, e.resolved.value) == a.addOns;
  }
}
