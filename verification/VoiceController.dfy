/** The control loop of one AI phone call: connect, pump events, reconnect. The
    tool gate and the replay cache are fields that outlive every connection. */
module VoiceController {
  import opened Wrappers
  import R = BookingRace
  import opened VoiceCall
  import opened VoiceCallRuns
  import CallAnswers

  /** `Elsewhere` is not an event of this call: rows other workers committed. */
  datatype Event = FunctionCall(d: Delivery) | ResponseDone | OtherEvent | Elsewhere(rows: seq<R.Row>)

  datatype Connection = Connection(opens: bool, greetingFails: bool, events: seq<Event>, abnormalClose: bool)

  datatype Farewell = CallerGone | BackToMenu | Referred(uri: string) | HungUp

  datatype Outcome = Lost | Ended(how: Farewell)

  datatype Finish = Finished(how: Farewell) | Crashed | StillTrying

  const MAX_RECONNECT_ATTEMPTS := 2

  // ---------------------------------------------------------- specification

  /** The exception that ends a connection in the middle of an event. */
  predicate Breaks(c: Call, d: Delivery) {
    Raises(c, d) || d.lost
  }

  function Goodbye(c: Call): Farewell {
    if c.ivrBridged then BackToMenu
    else if c.transfer.GetOr("") != "" then Referred(c.transfer.value)
    else HungUp
  }

  function Pump(c: Call, events: seq<Event>, abnormalClose: bool): (Call, Outcome)
    decreases |events|
  {
    if events == [] then (c, if abnormalClose then Lost else Ended(CallerGone))
    else
      match events[0]
      case FunctionCall(d) =>
        if Breaks(c, d) then (Handle(c, d), Lost) else Pump(Handle(c, d), events[1..], abnormalClose)
      case ResponseDone =>
        if c.endAfterResponse then (c, Ended(Goodbye(c))) else Pump(c, events[1..], abnormalClose)
      case OtherEvent => Pump(c, events[1..], abnormalClose)
      case Elsewhere(rows) => Pump(Happen(c, RowsAdded(rows)), events[1..], abnormalClose)
  }

  /** The call between two attempts, and how the last attempt came out. */
  datatype Line = Line(call: Call, greeted: bool, last: Outcome)

  function Attempt(greets: bool, l: Line, k: Connection): Line {
    if !k.opens || (greets && !l.greeted && k.greetingFails) then l.(last := Lost)
    else
      var (c, outcome) := Pump(l.call, k.events, k.abnormalClose);
      Line(c, l.greeted || greets, outcome)
  }

  function Attempts(greets: bool, l: Line, ks: seq<Connection>): Line {
    if ks == [] then l else Attempt(greets, Attempts(greets, l, ks[..|ks| - 1]), ks[|ks| - 1])
  }

  // -------------------------------------------- a run is a sequence of events

  lemma {:induction false} HappenAllConcat(c: Call, a: seq<Happening>, b: seq<Happening>)
    ensures HappenAll(c, a + b) == HappenAll(HappenAll(c, a), b)
  {
    if b == [] {
      assert a + b == a;
    } else {
      assert (a + b)[..|a + b| - 1] == a + b[..|b| - 1];
      HappenAllConcat(c, a, b[..|b| - 1]);
    }
  }

  lemma HappenOne(c: Call, h: Happening, more: seq<Happening>)
    ensures HappenAll(Happen(c, h), more) == HappenAll(c, [h] + more)
  {
    HappenAllConcat(c, [h], more);
    assert [h][..0] == [];
  }

  lemma {:induction false} PumpHeard(c: Call, events: seq<Event>, abnormalClose: bool) returns (hs: seq<Happening>)
    ensures Pump(c, events, abnormalClose).0 == HappenAll(c, hs)
    decreases |events|
  {
    hs := [];
    if events != [] {
      match events[0] {
        case FunctionCall(d) =>
          if !Breaks(c, d) {
            hs := PumpHeard(Handle(c, d), events[1..], abnormalClose);
          }
          HappenOne(c, Delivered(d), hs);
          hs := [Delivered(d)] + hs;
        case ResponseDone =>
          if !c.endAfterResponse {
            hs := PumpHeard(c, events[1..], abnormalClose);
          }
        case OtherEvent =>
          hs := PumpHeard(c, events[1..], abnormalClose);
        case Elsewhere(rows) =>
          hs := PumpHeard(Happen(c, RowsAdded(rows)), events[1..], abnormalClose);
          HappenOne(c, RowsAdded(rows), hs);
          hs := [RowsAdded(rows)] + hs;
      }
    }
  }

  lemma {:induction false} AttemptsHeard(greets: bool, l: Line, ks: seq<Connection>) returns (hs: seq<Happening>)
    ensures Attempts(greets, l, ks).call == HappenAll(l.call, hs)
  {
    hs := [];
    if ks != [] {
      var k := ks[|ks| - 1];
      var before := Attempts(greets, l, ks[..|ks| - 1]);
      hs := AttemptsHeard(greets, l, ks[..|ks| - 1]);
      var more := [];
      if Attempt(greets, before, k).call != before.call {
        more := PumpHeard(before.call, k.events, k.abnormalClose);
      }
      HappenAllConcat(l.call, hs, more);
      hs := hs + more;
    }
  }

  // ---------------------------------------------------------- main theorems

  function NewLine(callId: string, ivrBridged: bool, rows: seq<R.Row>): Line {
    Line(Fresh(callId, ivrBridged, rows), false, Lost)
  }

  /** Over any connects, losses, reconnects and redeliveries: an event id runs
      at most once, each of its answers is the same, every effect was earned
      earlier in this call, and the call books at most once. */
  lemma ReconnectsAreSafe(greets: bool, callId: string, ivrBridged: bool, rows: seq<R.Row>, ks: seq<Connection>, id: string)
    requires callId != "" && id != ""
    ensures var log := Attempts(greets, NewLine(callId, ivrBridged, rows), ks).call.log;
      && Runs(log, id) <= 1
      && Bookings(log) <= 1
      && (forall k :: 0 <= k < |log| ==> Justified(log, k) && AsOffered(log[k]))
      && (forall j, k :: 0 <= j < |log| && 0 <= k < |log| && log[j].Sent? && log[k].Sent? && log[j].id == log[k].id == id
            ==> log[j].output == log[k].output)
  {
    var hs := AttemptsHeard(greets, NewLine(callId, ivrBridged, rows), ks);
    ExecutedOnceAnsweredAlike(callId, ivrBridged, rows, hs, id);
    EffectsAreEarned(callId, ivrBridged, rows, hs);
  }

  /** A call-ending tool has told the caller so. */
  ghost predicate SaidGoodbye(c: Call) {
    exists k :: 0 <= k < |c.log| && c.log[k].Sent? && EndsCall(c.log[k].tool) && c.log[k].output.ok
  }

  lemma DispatchKeepsPrefix(c: Call, d: Delivery)
    ensures c.log <= Answer(c, d).0.log && Answer(c, d).0.endAfterResponse == c.endAfterResponse
    ensures Answer(c, d).0.ivrBridged == c.ivrBridged
  {
    if !(d.id != "" && d.id in c.completed) {
      AnswerUnfolds(c, d);
      var b := DispatchAdds(Named(c, d), d);
    }
  }

  lemma HandleSaysGoodbye(c: Call, d: Delivery)
    requires c.endAfterResponse ==> SaidGoodbye(c)
    ensures Handle(c, d).endAfterResponse ==> SaidGoodbye(Handle(c, d))
  {
    if !Raises(c, d) && Handle(c, d).endAfterResponse {
      DispatchKeepsPrefix(c, d);
      var (c', out) := Answer(c, d);
      var log' := Handle(c, d).log;
      if c.endAfterResponse {
        var k :| 0 <= k < |c.log| && c.log[k].Sent? && EndsCall(c.log[k].tool) && c.log[k].output.ok;
        assert log'[k] == c.log[k];
      } else {
        assert log'[|c'.log|] == Sent(d.id, d.tool, out);
      }
    }
  }

  lemma {:induction false} CallSaysGoodbye(c: Call, hs: seq<Happening>)
    requires c.endAfterResponse ==> SaidGoodbye(c)
    ensures HappenAll(c, hs).endAfterResponse ==> SaidGoodbye(HappenAll(c, hs))
  {
    if hs != [] {
      var before := HappenAll(c, hs[..|hs| - 1]);
      CallSaysGoodbye(c, hs[..|hs| - 1]);
      match hs[|hs| - 1] {
        case Delivered(d) => HandleSaysGoodbye(before, d);
        case RowsAdded(rows) =>
          assert HappenAll(c, hs).log == before.log;
      }
    }
  }

  lemma {:induction false} PumpEndsAfterGoodbye(c: Call, events: seq<Event>, abnormalClose: bool)
    ensures var (c', outcome) := Pump(c, events, abnormalClose);
      outcome.Ended? && outcome.how != CallerGone ==> c'.endAfterResponse
    decreases |events|
  {
    if events != [] {
      match events[0] {
        case FunctionCall(d) => PumpEndsAfterGoodbye(Handle(c, d), events[1..], abnormalClose);
        case ResponseDone => PumpEndsAfterGoodbye(c, events[1..], abnormalClose);
        case OtherEvent => PumpEndsAfterGoodbye(c, events[1..], abnormalClose);
        case Elsewhere(rows) => PumpEndsAfterGoodbye(Happen(c, RowsAdded(rows)), events[1..], abnormalClose);
      }
    }
  }

  /** The backend never ends a call of its own accord: only once an ending tool
      succeeded and its answer was delivered, on this connection or an earlier one. */
  lemma EndsOnlyWhenTold(greets: bool, callId: string, ivrBridged: bool, rows: seq<R.Row>, ks: seq<Connection>)
    requires ks != []
    ensures var l := Attempts(greets, NewLine(callId, ivrBridged, rows), ks);
      l.last.Ended? && l.last.how != CallerGone ==> SaidGoodbye(l.call)
  {
    var start := NewLine(callId, ivrBridged, rows);
    var hs := AttemptsHeard(greets, start, ks);
    CallSaysGoodbye(start.call, hs);
    var k := ks[|ks| - 1];
    PumpEndsAfterGoodbye(Attempts(greets, start, ks[..|ks| - 1]).call, k.events, k.abnormalClose);
  }

  /** A transfer or goodbye that was answered ends the call with the next finished
      response: back to the menu it came through, on to where it was referred,
      now or earlier, or hung up. */
  lemma GoodbyeIsKept(c: Call, d: Delivery, more: seq<Event>, abnormalClose: bool)
    requires d.tool == Handoff || d.tool == EndCall
    requires (d.id == "" || d.id !in c.completed) && (Gate(c, d).Pass? || Gate(c, d).Transfer?)
    requires !d.world.raises && !d.lost
    ensures var to := if d.tool == Handoff && d.world.transfer.GetOr("") != "" then d.world.transfer else c.transfer;
      var how := if c.ivrBridged then BackToMenu else if to.GetOr("") != "" then Referred(to.value) else HungUp;
      Pump(c, [FunctionCall(d), ResponseDone] + more, abnormalClose) == (Handle(c, d), Ended(how))
  {
    var events := [FunctionCall(d), ResponseDone] + more;
    assert events[1..] == [ResponseDone] + more;
    if Gate(c, d).Pass? {
      CallAnswers.OtherIsAnswered(c, d);
    } else {
      CallAnswers.TurnedAway(c, d);
    }
    assert Pump(Handle(c, d), [ResponseDone] + more, abnormalClose).1.Ended?;
  }

  /** Before that a finished response ends nothing. */
  lemma NotToldNotEnded(c: Call, more: seq<Event>, abnormalClose: bool)
    requires !c.endAfterResponse
    ensures Pump(c, [ResponseDone] + more, abnormalClose) == Pump(c, more, abnormalClose)
  {
    assert ([ResponseDone] + more)[1..] == more;
  }

  // ------------------------------------------------------- giving up

  /** The loop's counter: back to zero on every connection that opens, then one
      more for the loss that followed. */
  function Failures(ks: seq<Connection>): nat {
    if ks == [] then 0 else (if ks[|ks| - 1].opens then 0 else Failures(ks[..|ks| - 1])) + 1
  }

  /** The last two attempts did not even connect, and they were not the first two. */
  predicate TwoFailedReconnects(ks: seq<Connection>) {
    |ks| >= 3 && !ks[|ks| - 1].opens && !ks[|ks| - 2].opens
  }

  /** The counter passes its limit exactly on two failed reconnects in a row. */
  lemma OverLimitExactlyWhen(ks: seq<Connection>)
    ensures Failures(ks) > MAX_RECONNECT_ATTEMPTS <==> TwoFailedReconnects(ks)
  {
    if |ks| >= 2 {
      var front := ks[..|ks| - 1];
      assert front[|front| - 1] == ks[|ks| - 2];
      assert Failures(ks) == (if ks[|ks| - 1].opens then 0 else Failures(front)) + 1;
      assert Failures(front) == (if ks[|ks| - 2].opens then 0 else Failures(front[..|front| - 1])) + 1;
    }
  }

  /** After these attempts the loop makes another. */
  predicate WentOn(greets: bool, l: Line, ks: seq<Connection>) {
    Attempts(greets, l, ks).last == Lost && !TwoFailedReconnects(ks)
  }

  // -------------------------------------------------------------- the loop

  class Controller {
    const callId: string
    const ivrBridged: bool
    var offered: set<Slot>
    var lookedUp: set<string>
    var completed: map<string, Output>
    var endAfterResponse: bool
    var transfer: Option<string>
    var greeted: bool
    var rows: seq<R.Row>
    ghost var log: seq<Entry>

    ghost function Call(): Call
      reads this
    {
      VoiceCall.Call(callId, ivrBridged, offered, lookedUp, completed, endAfterResponse, transfer, rows, log)
    }

    constructor (callId: string, ivrBridged: bool, rows: seq<R.Row>)
      ensures Call() == Fresh(callId, ivrBridged, rows) && !greeted
    {
      this.callId := callId;
      this.ivrBridged := ivrBridged;
      this.rows := rows;
      offered, lookedUp, completed := {}, {}, map[];
      endAfterResponse, transfer, greeted := false, None, false;
      log := [];
    }

    /** Each offered time becomes part of the call's proof, one at a time. */
    method RecordAvailability(a: Arguments, times: seq<string>)
      modifies this`offered, this`log
      ensures offered == old(offered) + SlotSet(OfferedSlots(a, times))
      ensures log == old(log) + Logged(OfferedSlots(a, times))
    {
      ghost var slots := OfferedSlots(a, times);
      for i := 0 to |times|
        invariant offered == old(offered) + SlotSet(slots[..i])
        invariant log == old(log) + Logged(slots)[..i]
      {
        var slot := Slot(a.typeId, a.date, times[i]);
        assert slots[..i + 1] == slots[..i] + [slot];
        SlotSetGrows(slots[..i], slot);
        offered := offered + {slot};
        log := log + [Offered(slot)];
      }
      assert slots[..|times|] == slots && Logged(slots)[..|times|] == Logged(slots);
    }

    method RecordAppointments(ids: seq<string>)
      modifies this`lookedUp, this`log
      ensures lookedUp == old(lookedUp) + (set i | 0 <= i < |ids| :: ids[i])
      ensures log == old(log) + LoggedIds(ids)
    {
      for n := 0 to |ids|
        invariant lookedUp == old(lookedUp) + (set i | 0 <= i < n :: ids[i])
        invariant log == old(log) + LoggedIds(ids)[..n]
      {
        lookedUp := lookedUp + {ids[n]};
        log := log + [Listed(ids[n])];
      }
      assert LoggedIds(ids)[..|ids|] == LoggedIds(ids);
    }

    method CreateBooking(d: Delivery, a: Arguments) returns (out: Output)
      modifies this`rows, this`log
      ensures (Call(), out) == CreateBookingHandler(old(Call()), d, a)
    {
      if !d.world.accepts || TimeOf(a).None? {
        return REFUSED;
      }
      var toolKey, callKey := Stamped(d.id, a.toolId), Stamped(callId, a.callId);
      var existing := R.Lookup(rows, toolKey, callKey);
      if existing.Some? {
        return ACCEPTED.(row := existing);
      }
      if !d.world.slotFree {
        return REFUSED;
      }
      var row := |rows|;
      rows := rows + [R.Row(toolKey, callKey)];
      log := log + [Booked(SlotOf(a).value, TimeOf(a).value, row)];
      out := if d.world.raisesLate then REFUSED else ACCEPTED.(row := Some(row));
    }

    method RunHandler(d: Delivery, a: Arguments) returns (out: Output)
      modifies this`offered, this`lookedUp, this`rows, this`log
      ensures (Call(), out) == Handler(old(Call()), d, a)
    {
      if d.world.raises {
        return REFUSED;
      }
      out := ACCEPTED;
      match d.tool {
        case GetSlots =>
          if !d.world.accepts {
            return REFUSED;
          }
          RecordAvailability(a, d.world.free);
          out := ACCEPTED.(times := d.world.free);
        case GetAppointments =>
          RecordAppointments(d.world.appointments);
          out := ACCEPTED.(appointments := d.world.appointments);
        case CreateBooking => out := CreateBooking(d, a);
        case CancelAppointment =>
          if !d.world.accepts {
            return REFUSED;
          }
          log := log + [Changed(a.appointmentId, a.confirmed, None)];
        case RescheduleAppointment =>
          if !d.world.accepts || TimeOf(a).None? {
            return REFUSED;
          }
          log := log + [Changed(a.appointmentId, a.confirmed, Some((a.date, TimeOf(a).value)))];
        case Handoff => out := ACCEPTED.(transfer := d.world.transfer);
        case _ =>
      }
    }

    /** The checks before the handler, in order; nothing is written. */
    method Check(d: Delivery) returns (v: Verdict)
      ensures v == Gate(Call(), d)
    {
      if d.tool == UnknownTool || d.arguments.Malformed? {
        return Refuse;
      }
      if d.arguments.TooDeep? {
        return Raise;
      }
      var a := d.arguments.value;
      if d.tool == Handoff && ivrBridged {
        return Transfer;
      }
      if Changes(d.tool) {
        if !a.confirmed || a.appointmentId !in lookedUp {
          return Refuse;
        }
        if d.tool == RescheduleAppointment {
          var proof := IncludesTime(offered, a);
          return if proof.Blown? then Raise else if proof.Proven? then Pass else Refuse;
        }
      }
      if d.tool == VoiceCall.CreateBooking {
        if d.lookupFails {
          return Raise;
        }
        var retry := R.Lookup(rows, Key(d.id), Key(callId));
        var proof := IncludesSlot(offered, a);
        if proof.Blown? {
          return Raise;
        }
        if proof.Unproven? && retry.None? {
          return Refuse;
        }
      }
      v := Pass;
    }

    /** `raised` is an exception out of the checks. */
    method DispatchTool(d: Delivery) returns (raised: bool, out: Output)
      modifies this`offered, this`lookedUp, this`rows, this`log
      ensures raised == Gate(old(Call()), d).Raise?
      ensures if raised then Call() == old(Call()) else (Call(), out) == Dispatch(Named(old(Call()), d), d)
    {
      raised, out := false, REFUSED;
      var v := Check(d);
      if v.Raise? {
        raised := true;
        return;
      }
      log := log + [Ran(d.id)];
      if v.Pass? {
        out := RunHandler(d, d.arguments.value);
      } else if v.Transfer? {
        out := ACCEPTED;
      }
    }

    /** `raised` is an exception leaving the handler, which ends the connection. */
    method HandleFunctionCall(d: Delivery) returns (raised: bool)
      modifies this`offered, this`lookedUp, this`rows, this`log, this`completed, this`transfer, this`endAfterResponse
      ensures Call() == Handle(old(Call()), d)
      ensures raised == Breaks(old(Call()), d)
    {
      var out: Output;
      if d.id != "" && d.id in completed {
        out := completed[d.id];
      } else {
        var unanswered: bool;
        unanswered, out := DispatchTool(d);
        if unanswered {
          return true;
        }
        if d.id != "" {
          completed := completed[d.id := out];
        }
      }
      if out.transfer.GetOr("") != "" {
        transfer := out.transfer;
      }
      if d.lost {
        return true;
      }
      log := log + [Sent(d.id, d.tool, out)];
      if EndsCall(d.tool) && out.ok {
        endAfterResponse := true;
      }
      raised := false;
    }

    method PumpEvents(events: seq<Event>, abnormalClose: bool) returns (outcome: Outcome)
      modifies this`offered, this`lookedUp, this`rows, this`log, this`completed, this`transfer, this`endAfterResponse
      ensures (Call(), outcome) == Pump(old(Call()), events, abnormalClose)
    {
      for i := 0 to |events|
        invariant Pump(Call(), events[i..], abnormalClose) == Pump(old(Call()), events, abnormalClose)
      {
        assert events[i..][0] == events[i] && events[i..][1..] == events[i + 1..];
        match events[i] {
          case FunctionCall(d) =>
            var raised := HandleFunctionCall(d);
            if raised {
              return Lost;
            }
          case ResponseDone =>
            if endAfterResponse {
              return Ended(if ivrBridged then BackToMenu
                           else if transfer.GetOr("") != "" then Referred(transfer.value)
                           else HungUp);
            }
          case OtherEvent =>
          case Elsewhere(more) => rows := rows + more;
        }
      }
      assert events[|events|..] == [];
      outcome := if abnormalClose then Lost else Ended(CallerGone);
    }

    /** Runs the attempts until one ends normally or reconnecting has failed
        twice in a row. A connection that opened and then broke never counts
        against the next: only consecutive failures to connect give up. */
    method Run(greets: bool, ks: seq<Connection>) returns (tried: nat, finish: Finish)
      modifies this
      ensures tried <= |ks|
      ensures var l := Attempts(greets, Line(old(Call()), old(greeted), Lost), ks[..tried]);
        && Call() == l.call && greeted == l.greeted
        && finish == (if l.last.Ended? then Finished(l.last.how)
                      else if TwoFailedReconnects(ks[..tried]) then Crashed
                      else StillTrying)
      ensures finish == StillTrying ==> tried == |ks|
      ensures forall n :: 0 <= n < tried ==> WentOn(greets, Line(old(Call()), old(greeted), Lost), ks[..n])
    {
      ghost var start := Line(Call(), greeted, Lost);
      var failures := 0;
      tried, finish := 0, StillTrying;
      assert ks[..0] == [];
      while tried < |ks|
        invariant tried <= |ks|
        invariant Attempts(greets, start, ks[..tried]) == Line(Call(), greeted, Lost)
        invariant failures == Failures(ks[..tried]) <= MAX_RECONNECT_ATTEMPTS
        invariant forall n :: 0 <= n <= tried ==> WentOn(greets, start, ks[..n])
      {
        var k := ks[tried];
        tried := tried + 1;
        assert ks[..tried][..|ks[..tried]| - 1] == ks[..tried - 1] && ks[..tried][|ks[..tried]| - 1] == k;
        OverLimitExactlyWhen(ks[..tried]);
        var outcome := Lost;
        if k.opens {
          failures := 0;
          if !(greets && !greeted && k.greetingFails) {
            greeted := greeted || greets;
            outcome := PumpEvents(k.events, k.abnormalClose);
          }
        }
        if outcome.Ended? {
          return tried, Finished(outcome.how);
        }
        failures := failures + 1;
        if failures > MAX_RECONNECT_ATTEMPTS {
          return tried, Crashed;
        }
      }
    }
  }

  lemma SlotSetGrows(slots: seq<Slot>, slot: Slot)
    ensures SlotSet(slots + [slot]) == SlotSet(slots) + {slot}
  {
    var more := slots + [slot];
    assert more[|slots|] == slot;
    forall s | s in SlotSet(slots) ensures s in SlotSet(more) {
      var i :| 0 <= i < |slots| && slots[i] == s;
      assert more[i] == s;
    }
  }
}
