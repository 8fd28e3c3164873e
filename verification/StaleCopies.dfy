/** Runs in which a session goes by a row it read before the lock. The locked
    query returns the same object unrefreshed, so its checks pass on the copy. */
module StaleCopies {
  import opened Wrappers
  import opened Intervals
  import opened Scheduling
  import opened SchedulingRuns
  import opened Capacity

  // ---------------------------------------------------------------- a business

  /** Two employees, one hour-long service, plenty of bays and no walk-ins. */
  ghost predicate Roomy(g: Garage) {
    && g.autoAccept && SlotCapacity(g) >= 4 && (forall day :: (g.windowsOn)(day) == [])
    && g.types == map[0 := ServiceType(true, Some(60))]
    && g.employees == map[1 := true, 2 := true]
  }

  lemma {:induction false} CoverAtMost(ivs: seq<Interval>, t: int)
    ensures Cover(ivs, t) <= |ivs|
  {
    if ivs != [] {
      CoverAtMost(ivs[..|ivs| - 1], t);
    }
  }

  lemma PlentyOfBays(
    g: Garage, db: Database, start: int, minutes: nat, exAppointment: Option<nat>, exRequest: Option<nat>, walkIns: bool)
    requires Roomy(g) && |db.appointments| + |db.requests| < 4
    ensures HasCapacity(g, db, start, minutes, exAppointment, exRequest, walkIns)
  {
    var loaded := DayUsage(g, db, (g.calendar.dayOf)(start), exAppointment, exRequest);
    forall t | start <= t < start + minutes * MINUTE ensures Cover(loaded, t) < CapacityFor(g, start, minutes, walkIns) {
      CoverAtMost(loaded, t);
    }
  }

  lemma RunOfTwo(w: World, a: Event, b: Event)
    ensures Run(w, [a, b]) == Step(b.garage, Step(a.garage, w, a.action), b.action)
  {
    assert [a, b][..1] == [a] && [a][..0] == [];
    assert Run(w, [a][..0]) == w;
    assert Run(w, [a]) == Step(a.garage, w, a.action);
  }

  lemma RunOfThree(w: World, a: Event, b: Event, c: Event)
    ensures Run(w, [a, b, c]) == Step(c.garage, Run(w, [a, b]), c.action)
  {
    assert [a, b, c][..2] == [a, b];
  }

  // ------------------------------------------------------------- auto-accept

  function Asked(status: RequestStatus, day: int, time: int): Request {
    Request(status, Some(0), day, Some(time), Some(60), [], None)
  }

  function Booking(g: Garage, employee: EmployeeId, day: int, time: int): Appointment {
    var start := (g.calendar.slotAt)(day, time);
    Appointment(employee, 0, start, start + 60 * MINUTE, BOOKED, [])
  }

  function Picked(db: Database, r: Request): World {
    Idle(db).(picks := [Some(Pick(0, r, 1))])
  }

  lemma EmployeeOneIsPicked(g: Garage, day: int, time: int)
    requires Roomy(g)
    ensures var db := Database([], [Asked(Pending, day, time)]);
      Step(g, Idle(db), AutoRead(0, 1)) == Picked(db, Asked(Pending, day, time))
  {
    var db := Database([], [Asked(Pending, day, time)]);
    PlentyOfBays(g, db, (g.calendar.slotAt)(day, time), 60, None, Some(0), true);
    assert AutoCandidate(g, db, 0, 1);
  }

  predicate Free(g: Garage, rows: seq<Appointment>, employee: EmployeeId, day: int, time: int) {
    var slot := Booking(g, employee, day, time);
    employee in {1, 2} && !HasConflict(rows, employee, slot.start, slot.end, None)
  }

  lemma CopySlot(g: Garage, employee: EmployeeId, day: int, time: int)
    requires Roomy(g)
    ensures var r, d, start := Asked(Pending, day, time), AutoApproval(employee, false), (g.calendar.slotAt)(day, time);
      && ApprovedType(r, d) == Some(0) && TypeBookable(g, 0)
      && ApprovedStart(g, r, d) == Some(start) && ApprovedEnd(g, r, d) == Some(start + 60 * MINUTE)
      && WholeMinutes(start, start + 60 * MINUTE) == 60
  {
  }

  lemma CopyIsApproved(
    g: Garage, rows: seq<Appointment>, row: Request, employee: EmployeeId, day: int, time: int, now: int)
    requires Roomy(g) && !IsStale(g, Asked(Pending, day, time), now) && |rows| < 3 && Free(g, rows, employee, day, time)
    ensures ApproveReply(g, Database(rows, [row]), 0, Asked(Pending, day, time), AutoApproval(employee, false), now) == Done
  {
    var db, r, d := Database(rows, [row]), Asked(Pending, day, time), AutoApproval(employee, false);
    CopySlot(g, employee, day, time);
    PlentyOfBays(g, db, (g.calendar.slotAt)(day, time), 60, None, Some(0), true);
  }

  /** A free employee: the approval goes by the copy whatever the row says. */
  lemma ApprovalPasses(
    g: Garage, rows: seq<Appointment>, row: Request, employee: EmployeeId, day: int, time: int, now: int)
    requires Roomy(g) && !IsStale(g, Asked(Pending, day, time), now) && |rows| < 3 && Free(g, rows, employee, day, time)
    ensures ApproveSeen(g, Database(rows, [row]), 0, Asked(Pending, day, time), AutoApproval(employee, false), now).db
      == Database(rows + [Booking(g, employee, day, time)], [row.(status := Approved, appointment := Some(|rows|))])
  {
    CopyIsApproved(g, rows, row, employee, day, time, now);
  }

  lemma PickCommits(g: Garage, rows: seq<Appointment>, row: Request, day: int, time: int, now: int)
    requires Roomy(g) && !IsStale(g, Asked(Pending, day, time), now) && |rows| < 3 && Free(g, rows, 1, day, time)
    ensures Step(g, Picked(Database(rows, [row]), Asked(Pending, day, time)), AutoCommit(0, false, now)).db
      == Database(rows + [Booking(g, 1, day, time)], [row.(status := Approved, appointment := Some(|rows|))])
  {
    ApprovalPasses(g, rows, row, 1, day, time, now);
    var w := Picked(Database(rows, [row]), Asked(Pending, day, time));
    CommitIsApproval(g, w, now);
  }

  lemma CommitIsApproval(g: Garage, w: World, now: int)
    requires |w.picks| == 1 && w.picks[0].Some? && w.picks[0].value.id == 0 && |w.db.requests| > 0
    ensures var p := w.picks[0].value;
      Step(g, w, AutoCommit(0, false, now)).db == ApproveSeen(g, w.db, 0, p.seen, AutoApproval(p.employee, false), now).db
  {
    assert PickReady(w, 0);
  }

  lemma StaffReject(g: Garage, w: World, day: int, time: int, now: int)
    requires w.db == Database([], [Asked(Pending, day, time)]) && !IsStale(g, Asked(Pending, day, time), now)
    ensures Step(g, w, DoReject(0, now)) == w.(db := Database([], [Asked(Rejected, day, time)]))
  {
  }

  lemma StaffApprove(g: Garage, w: World, employee: EmployeeId, day: int, time: int, now: int)
    requires Roomy(g) && !IsStale(g, Asked(Pending, day, time), now) && employee in {1, 2}
    requires w.db == Database([], [Asked(Pending, day, time)])
    ensures Step(g, w, DoApprove(0, AutoApproval(employee, false), now)) == w.(db :=
      Database([Booking(g, employee, day, time)], [Asked(Approved, day, time).(appointment := Some(0))]))
  {
    ApprovalPasses(g, [], Asked(Pending, day, time), employee, day, time, now);
  }

  /** Auto-accept picks employee 1 for the request, staff reject it, and the
      approval, which still sees PENDING, books it all the same. */
  lemma RejectedIsBooked(g: Garage, day: int, time: int, now: int)
    requires Roomy(g) && !IsStale(g, Asked(Pending, day, time), now)
    ensures var w := Idle(Database([], [Asked(Pending, day, time)]));
      var pick, reject, commit := Event(g, AutoRead(0, 1)), Event(g, DoReject(0, now)), Event(g, AutoCommit(0, false, now));
      && Run(w, [pick, reject]).db == Database([], [Asked(Rejected, day, time)])
      && Run(w, [pick, reject, commit]).db
           == Database([Booking(g, 1, day, time)], [Asked(Approved, day, time).(appointment := Some(0))])
  {
    var w := Idle(Database([], [Asked(Pending, day, time)]));
    var pick, reject, commit := Event(g, AutoRead(0, 1)), Event(g, DoReject(0, now)), Event(g, AutoCommit(0, false, now));
    RunOfTwo(w, pick, reject);
    RunOfThree(w, pick, reject, commit);
    EmployeeOneIsPicked(g, day, time);
    StaffReject(g, Picked(w.db, w.db.requests[0]), day, time, now);
    PickCommits(g, [], Asked(Rejected, day, time), day, time, now);
  }

  lemma BookingsOfThree(w: World, a: Event, b: Event, c: Event, r: nat)
    requires !Books(w.db, Step(a.garage, w, a.action).db, r)
    requires Books(Step(a.garage, w, a.action).db, Run(w, [a, b]).db, r) && Books(Run(w, [a, b]).db, Run(w, [a, b, c]).db, r)
    ensures Bookings(w, [a, b, c], r) == 2
  {
    assert [a, b, c][..2] == [a, b] && [a, b][..1] == [a] && [a][..0] == [];
    assert Run(w, [a][..0]) == w && Bookings(w, [a][..0], r) == 0;
    assert Bookings(w, [a], r) == 0;
    assert Bookings(w, [a, b], r) == 1;
  }

  /** The same pick, while staff approve the request with employee 2: one
      request, two live appointments, and it is linked to the second. */
  lemma RequestIsBookedTwice(g: Garage, day: int, time: int, now: int)
    requires Roomy(g) && !IsStale(g, Asked(Pending, day, time), now)
    ensures var w := Idle(Database([], [Asked(Pending, day, time)]));
      var approve := Event(g, DoApprove(0, AutoApproval(2, false), now));
      var es := [Event(g, AutoRead(0, 1)), approve, Event(g, AutoCommit(0, false, now))];
      && Run(w, es).db == Database(
           [Booking(g, 2, day, time), Booking(g, 1, day, time)], [Asked(Approved, day, time).(appointment := Some(1))])
      && Bookings(w, es, 0) == 2
  {
    var r := Asked(Pending, day, time);
    var w := Idle(Database([], [r]));
    var pick, approve := Event(g, AutoRead(0, 1)), Event(g, DoApprove(0, AutoApproval(2, false), now));
    var commit := Event(g, AutoCommit(0, false, now));
    RunOfTwo(w, pick, approve);
    RunOfThree(w, pick, approve, commit);
    EmployeeOneIsPicked(g, day, time);
    StaffApprove(g, Picked(w.db, r), 2, day, time, now);
    PickCommits(g, [Booking(g, 2, day, time)], Asked(Approved, day, time).(appointment := Some(0)), day, time, now);
    BookingsOfThree(w, pick, approve, commit, 0);
  }

  // -------------------------------------------------------------- reschedule

  /** A conversation has read appointment 0 as `mine`. */
  function Reading(rows: seq<Appointment>, mine: Appointment): World {
    Idle(Database(rows, [])).(moves := [Some(Move(0, mine))])
  }

  function Give(): Action {
    DoPatch(0, Edit(Some(2), None, None, None, None, None, true))
  }

  lemma GivingPasses(g: Garage, mine: Appointment, taken: Appointment)
    requires Roomy(g) && Live(mine) && mine.start < mine.end <= taken.start && taken.employee == 2 && Live(taken)
    ensures Patch(g, Database([mine, taken], []), 0, Give().e).db == Database([mine.(employee := 2), taken], [])
  {
    var db := Database([mine, taken], []);
    PlentyOfBays(g, db, mine.start, WholeMinutes(mine.start, mine.end), Some(0), None, false);
    assert Edited(mine, Give().e) == mine.(employee := 2);
    assert PatchReply(g, db, 0, Give().e) == Done;
  }

  lemma GivenToTwo(g: Garage, mine: Appointment, taken: Appointment)
    requires Roomy(g) && Live(mine) && mine.start < mine.end <= taken.start && taken.employee == 2 && Live(taken)
    ensures Step(g, Reading([mine, taken], mine), Give()) == Reading([mine.(employee := 2), taken], mine)
  {
    GivingPasses(g, mine, taken);
  }

  lemma MovePasses(g: Garage, mine: Appointment, taken: Appointment, day: int, time: int)
    requires Roomy(g) && mine.employee == 1 && mine.status == BOOKED && mine.end == mine.start + 60 * MINUTE
    requires mine.end <= (g.calendar.slotAt)(day, time) && taken == Booking(g, 2, day, time)
    ensures RescheduleReply(g, Database([mine.(employee := 2), taken], []), 0, mine, day, time, true) == Done
  {
    var start := (g.calendar.slotAt)(day, time);
    PlentyOfBays(g, Database([mine.(employee := 2), taken], []), start, WholeMinutes(start, start + 60 * MINUTE), Some(0), None, true);
  }

  lemma MovedOnto(g: Garage, mine: Appointment, taken: Appointment, day: int, time: int)
    requires Roomy(g) && mine == Appointment(1, 0, mine.start, mine.start + 60 * MINUTE, BOOKED, [])
    requires mine.end <= (g.calendar.slotAt)(day, time) && taken == Booking(g, 2, day, time)
    ensures Step(g, Reading([mine.(employee := 2), taken], mine), MoveCommit(0, day, time, true)).db
      == Database([taken, taken], [])
  {
    MovePasses(g, mine, taken, day, time);
    assert MoveReady(Reading([mine.(employee := 2), taken], mine), 0);
    assert MovedRow(mine.(employee := 2), mine, MovedTo(g, mine, day, time)) == taken;
  }

  lemma ReadThenGiven(g: Garage, mine: Appointment, taken: Appointment)
    requires Roomy(g) && Live(mine) && mine.start < mine.end <= taken.start && taken.employee == 2 && Live(taken)
    ensures Run(Idle(Database([mine, taken], [])), [Event(g, MoveRead(0)), Event(g, Give())])
      == Reading([mine.(employee := 2), taken], mine)
  {
    GivenToTwo(g, mine, taken);
    MoveIsRead(g, mine, taken);
    RunOfTwo(Idle(Database([mine, taken], [])), Event(g, MoveRead(0)), Event(g, Give()));
  }

  lemma MoveIsRead(g: Garage, mine: Appointment, taken: Appointment)
    ensures Step(g, Idle(Database([mine, taken], [])), MoveRead(0)) == Reading([mine, taken], mine)
  {
  }

  /** A conversation reads employee 1's appointment, staff give it to employee
      2, and the conversation moves it to a time employee 2 is busy at. */
  lemma MoveDoubleBooks(g: Garage, day: int, time: int, start: int)
    requires Roomy(g) && start + 60 * MINUTE <= (g.calendar.slotAt)(day, time)
    ensures var mine, taken := Appointment(1, 0, start, start + 60 * MINUTE, BOOKED, []), Booking(g, 2, day, time);
      var w := Idle(Database([mine, taken], []));
      var es := [Event(g, MoveRead(0)), Event(g, Give()), Event(g, MoveCommit(0, day, time, true))];
      && DiaryWorld(w) && Run(w, es).db.appointments == [taken, taken] && !DiaryOk(Run(w, es).db.appointments)
  {
    var mine, taken := Appointment(1, 0, start, start + 60 * MINUTE, BOOKED, []), Booking(g, 2, day, time);
    var w := Idle(Database([mine, taken], []));
    RunOfThree(w, Event(g, MoveRead(0)), Event(g, Give()), Event(g, MoveCommit(0, day, time, true)));
    ReadThenGiven(g, mine, taken);
    MovedOnto(g, mine, taken, day, time);
    TwiceIsDouble(taken);
  }

  lemma TwiceIsDouble(a: Appointment)
    requires Live(a) && a.start < a.end
    ensures !DiaryOk([a, a])
  {
    var rows := [a, a];
    assert rows[0] == rows[1] == a;
  }

  // ------------------------------------------------------------------- holds

  /** Two sessions read a request waiting for its terms to be accepted. */
  function ReadTwice(db: Database): World {
    Idle(db).(holds := [Some(Hold(0, AwaitingTerms)), Some(Hold(0, AwaitingTerms))])
  }

  lemma BothRead(g: Garage, day: int, time: int)
    ensures var w := Idle(Database([], [Asked(AwaitingTerms, day, time)]));
      Run(w, [Event(g, HoldRead(0)), Event(g, HoldRead(0))]) == ReadTwice(w.db)
  {
    var w := Idle(Database([], [Asked(AwaitingTerms, day, time)]));
    RunOfTwo(w, Event(g, HoldRead(0)), Event(g, HoldRead(0)));
    var hold := Hold(0, AwaitingTerms);
    assert [Some(hold)] + [Some(hold)] == [Some(hold), Some(hold)];
  }

  lemma HoldSettles(g: Garage, w: World, k: nat, to: RequestStatus, row: Request)
    requires k < |w.holds| && w.holds[k] == Some(Hold(0, AwaitingTerms)) && HoldMoves(AwaitingTerms, to)
    requires 0 < |w.db.requests| && w.db.requests[0] == row
    ensures Step(g, w, HoldCommit(k, to))
      == w.(db := w.db.(requests := w.db.requests[0 := row.(status := to)]), holds := w.holds[k := None])
  {
    assert HoldReady(w, k, to);
  }

  /** The terms are accepted by a double tap, and staff approve in between: the
      second acceptance puts the approved request back to PENDING. */
  lemma DoubleTapReopens(g: Garage, day: int, time: int, now: int)
    requires Roomy(g) && !IsStale(g, Asked(Pending, day, time), now)
    ensures var w := Idle(Database([], [Asked(AwaitingTerms, day, time)]));
      var both := [Event(g, HoldRead(0)), Event(g, HoldRead(0))];
      var approve := Event(g, DoApprove(0, AutoApproval(1, false), now));
      var rest := [Event(g, HoldCommit(0, Pending)), approve, Event(g, HoldCommit(1, Pending))];
      Run(w, both + rest).db
        == Database([Booking(g, 1, day, time)], [Asked(Pending, day, time).(appointment := Some(0))])
  {
    var w := Idle(Database([], [Asked(AwaitingTerms, day, time)]));
    var both := [Event(g, HoldRead(0)), Event(g, HoldRead(0))];
    var accept, again := Event(g, HoldCommit(0, Pending)), Event(g, HoldCommit(1, Pending));
    var approve := Event(g, DoApprove(0, AutoApproval(1, false), now));
    BothRead(g, day, time);
    RunSplits(w, both, [accept, approve, again]);
    var read := ReadTwice(w.db);
    RunOfTwo(read, accept, approve);
    RunOfThree(read, accept, approve, again);
    HoldSettles(g, read, 0, Pending, Asked(AwaitingTerms, day, time));
    var accepted := Step(g, read, HoldCommit(0, Pending));
    StaffApprove(g, accepted, 1, day, time, now);
    HoldSettles(g, Run(read, [accept, approve]), 1, Pending, Asked(Approved, day, time).(appointment := Some(0)));
  }

  /** Only the first reading still stands. */
  function FirstStands(rows: seq<Request>): World {
    Idle(Database([], rows)).(holds := [Some(Hold(0, AwaitingTerms)), None])
  }

  ghost predicate OneBay(g: Garage, day: int, time: int) {
    && SlotCapacity(g) == 1 && (forall d :: (g.windowsOn)(d) == [])
    && g.types == map[0 := ServiceType(true, Some(60))]
    && (g.calendar.dayOf)((g.calendar.slotAt)(day, time)) == day
  }

  function Take(day: int, time: int): Action {
    DoSubmit(Submission(Some(0), day, Some(time), [], false, false, true, true))
  }

  lemma BayIsFree(g: Garage, day: int, time: int)
    requires OneBay(g, day, time)
    ensures HasCapacity(g, Database([], [Asked(Expired, day, time)]), (g.calendar.slotAt)(day, time), 60, None, None, true)
  {
    var loaded := DayUsage(g, Database([], [Asked(Expired, day, time)]), day, None, None);
    forall t ensures Cover(loaded, t) == 0 {
      CoverOutside(loaded, t);
    }
  }

  lemma LapsedBayIsTaken(g: Garage, day: int, time: int)
    requires OneBay(g, day, time)
    ensures Step(g, FirstStands([Asked(Expired, day, time)]), Take(day, time))
      == FirstStands([Asked(Expired, day, time), Asked(Pending, day, time)])
  {
    BayIsFree(g, day, time);
  }

  lemma HoldLapses(g: Garage, day: int, time: int)
    ensures Step(g, ReadTwice(Database([], [Asked(AwaitingTerms, day, time)])), HoldCommit(1, Expired))
      == FirstStands([Asked(Expired, day, time)])
  {
    HoldSettles(g, ReadTwice(Database([], [Asked(AwaitingTerms, day, time)])), 1, Expired, Asked(AwaitingTerms, day, time));
  }

  lemma LapsedAndTaken(g: Garage, day: int, time: int)
    requires OneBay(g, day, time)
    ensures Run(ReadTwice(Database([], [Asked(AwaitingTerms, day, time)])), [Event(g, HoldCommit(1, Expired)), Event(g, Take(day, time))])
      == FirstStands([Asked(Expired, day, time), Asked(Pending, day, time)])
  {
    HoldLapses(g, day, time);
    LapsedBayIsTaken(g, day, time);
    RunOfTwo(ReadTwice(Database([], [Asked(AwaitingTerms, day, time)])), Event(g, HoldCommit(1, Expired)), Event(g, Take(day, time)));
  }

  lemma LapsedIsAccepted(g: Garage, day: int, time: int)
    ensures Step(g, FirstStands([Asked(Expired, day, time), Asked(Pending, day, time)]), HoldCommit(0, Pending)).db
      == Database([], [Asked(Pending, day, time), Asked(Pending, day, time)])
  {
    HoldSettles(
      g, FirstStands([Asked(Expired, day, time), Asked(Pending, day, time)]), 0, Pending, Asked(Expired, day, time));
  }

  lemma TwoReserve(g: Garage, day: int, time: int)
    ensures Reserved(g, Database([], [Asked(Pending, day, time), Asked(Pending, day, time)]), (g.calendar.slotAt)(day, time)) == 2
  {
    var start := (g.calendar.slotAt)(day, time);
    var spans := RequestSpans(g, [Asked(Pending, day, time), Asked(Pending, day, time)]);
    assert spans == [spans[0]] + [spans[0]] && Covers(spans[0], start);
    CoverAppend([spans[0]], spans[0], start);
    CoverAppend([], spans[0], start);
    assert [] + [spans[0]] == [spans[0]];
    assert AppointmentSpans([]) == [];
  }

  /** One bay: a hold lapses, its bay is booked by somebody else, and the terms
      of the lapsed hold are accepted after all. */
  lemma LateAcceptanceOverbooks(g: Garage, day: int, time: int)
    requires OneBay(g, day, time)
    ensures var w := Idle(Database([], [Asked(AwaitingTerms, day, time)]));
      var both := [Event(g, HoldRead(0)), Event(g, HoldRead(0))];
      var es := both + [Event(g, HoldCommit(1, Expired)), Event(g, Take(day, time)), Event(g, HoldCommit(0, Pending))];
      Reserved(g, Run(w, es).db, (g.calendar.slotAt)(day, time)) == 2
  {
    var w := Idle(Database([], [Asked(AwaitingTerms, day, time)]));
    var lapse, take, accept := Event(g, HoldCommit(1, Expired)), Event(g, Take(day, time)), Event(g, HoldCommit(0, Pending));
    RunSplits(w, [Event(g, HoldRead(0)), Event(g, HoldRead(0))], [lapse, take, accept]);
    BothRead(g, day, time);
    LapsedAndTaken(g, day, time);
    LapsedIsAccepted(g, day, time);
    RunOfThree(ReadTwice(w.db), lapse, take, accept);
    TwoReserve(g, day, time);
  }
}
