/** The booking race at the tables: what the loser's slot check sees is the
    winner's reservation, and the winner is the loser's own booking. */
module LostRace {
  import opened Wrappers
  import opened Intervals
  import opened Scheduling
  import opened Capacity
  import R = BookingRace

  /** A submission for a time, of some length, whose slot starts on its own day. */
  predicate Timed(g: Garage, s: Submission) {
    && s.time.Some? && SubmittedMinutes(g, s) > 0
    && (g.calendar.dayOf)(SlotStart(g, s)) == s.day
  }

  function SlotStart(g: Garage, s: Submission): int
    requires s.time.Some?
  {
    (g.calendar.slotAt)(s.day, s.time.value)
  }

  /** At every instant of the slot `n` bays are free. */
  ghost predicate BaysFree(g: Garage, db: Database, s: Submission, n: int)
    requires Timed(g, s)
  {
    var start, minutes := SlotStart(g, s), SubmittedMinutes(g, s);
    Fits(DayUsage(g, db, s.day, None, None), start, start + minutes * MINUTE, CapacityFor(g, start, minutes, true) - (n - 1))
  }

  lemma DoneTakesOneBay(g: Garage, db: Database, s: Submission)
    requires Timed(g, s) && Submittable(g, s) && s.offered
    ensures Submit(g, db, s).reply == Done <==> BaysFree(g, db, s, 1)
  {
  }

  lemma StoredAmongTheDays(g: Garage, db: Database, s: Submission)
    requires Timed(g, s) && Submit(g, db, s).reply == Done
    ensures DayRequests(g, Submit(g, db, s).db.requests, s.day, None)
         == DayRequests(g, db.requests, s.day, None) + [RequestInterval(g, SubmittedRow(g, s))]
  {
  }

  /** A request just stored counts once against its own slot. */
  lemma OwnRequestCounts(g: Garage, db: Database, s: Submission, t: int)
    requires Timed(g, s) && Submit(g, db, s).reply == Done
    requires SlotStart(g, s) <= t < SlotStart(g, s) + SubmittedMinutes(g, s) * MINUTE
    ensures Cover(DayUsage(g, Submit(g, db, s).db, s.day, None, None), t)
         == Cover(DayUsage(g, db, s.day, None, None), t) + 1
  {
    var booked, before := DayAppointments(g, db.appointments, s.day, None), DayRequests(g, db.requests, s.day, None);
    var span := RequestInterval(g, SubmittedRow(g, s));
    StoredAmongTheDays(g, db, s);
    CoverAppend(before, span, t);
    CoverConcat(booked, before, t);
    CoverConcat(booked, before + [span], t);
  }

  lemma OneMoreEverywhere(a: seq<Interval>, b: seq<Interval>, start: int, end: int, capacity: int)
    requires start < end && forall t :: start <= t < end ==> Cover(b, t) == Cover(a, t) + 1
    ensures Fits(b, start, end, capacity) <==> Fits(a, start, end, capacity - 1)
  {
    assert Cover(b, start) == Cover(a, start) + 1;
  }

  /** The same submission is accepted a second time exactly when two bays were
      free before the first. */
  lemma AcceptedAgainExactlyWhen(g: Garage, db: Database, s: Submission)
    requires Timed(g, s) && Submit(g, db, s).reply == Done
    ensures Submit(g, Submit(g, db, s).db, s).reply == Done <==> BaysFree(g, db, s, 2)
  {
    var start, end := SlotStart(g, s), SlotStart(g, s) + SubmittedMinutes(g, s) * MINUTE;
    var stored := Submit(g, db, s).db;
    var before, after := DayUsage(g, db, s.day, None, None), DayUsage(g, stored, s.day, None, None);
    forall t | start <= t < end ensures Cover(after, t) == Cover(before, t) + 1 {
      OwnRequestCounts(g, db, s, t);
    }
    OneMoreEverywhere(before, after, start, end, CapacityFor(g, start, SubmittedMinutes(g, s), true));
    DoneTakesOneBay(g, stored, s);
  }

  /** The check the loser makes once the winner's transaction has committed. */
  ghost function LosersCheck(g: Garage, db: Database, s: Submission): R.Event {
    R.DoCheck(Submit(g, Submit(g, db, s).db, s).reply == Done)
  }

  /** The loser of a race for one booking answers with the winner's request
      exactly when two bays were free and the booking is no upfront deposit. */
  lemma LoserRecoversExactlyWhen(g: Garage, db: Database, s: Submission, race: R.State, i: nat, e: R.Event)
    requires Timed(g, s) && Submit(g, db, s).reply == Done
    requires R.Inv(race) && R.Taken(race, i) && race.workers[i].pc == R.Locked && e.DoCommit?
    ensures var t := R.Step(R.Step(race, i, LosersCheck(g, db, s)), i, e);
      && t.rows == race.rows
      && (t.workers[i].pc.Answered? <==> BaysFree(g, db, s, 2) && !race.workers[i].upfront)
  {
    AcceptedAgainExactlyWhen(g, db, s);
    R.LoserRecoversExactlyWhen(race, i, LosersCheck(g, db, s).free, e);
  }

  /** Both deliveries of one booking look it up before either commits; the first
      takes the last bay, and the second is told the slot is gone although the
      booking that holds it is its own. */
  lemma LastBayTurnsTheRetryAway(g: Garage, db: Database, s: Submission, w: R.Worker)
    requires Timed(g, s) && Submit(g, db, s).reply == Done && !BaysFree(g, db, s, 2)
    requires w.pc == R.Start && w.call.Some?
    ensures var t := R.Step(R.Step(R.Step(R.BothLookedUp(w), 1, R.DoLock), 1, LosersCheck(g, db, s)), 1, R.DoCommit(false, false));
      t.rows == [R.Row(w.tool, w.call)] && t.workers[0].pc == R.Answered(0, true) && t.workers[1].pc == R.Refused
  {
    AcceptedAgainExactlyWhen(g, db, s);
    R.LoserMayBeTurnedAway(w, false);
  }

  /** A business with a single bay and an empty diary is enough. */
  lemma SingleBayIsEnough(g: Garage, s: Submission)
    requires Timed(g, s) && Submittable(g, s) && s.offered
    requires CapacityFor(g, SlotStart(g, s), SubmittedMinutes(g, s), true) == 1
    ensures Submit(g, Database([], []), s).reply == Done && !BaysFree(g, Database([], []), s, 2)
  {
    var db := Database([], []);
    assert DayUsage(g, db, s.day, None, None) == [];
    DoneTakesOneBay(g, db, s);
  }
}
