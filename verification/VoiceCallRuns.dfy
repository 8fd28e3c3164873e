/** What holds over a whole phone call, however often the connection drops and
    however often OpenAI delivers the same function call again. */
module VoiceCallRuns {
  import opened Wrappers
  import R = BookingRace
  import opened VoiceCall

  // -------------------------------------------------------- growing the log

  lemma {:induction false} CountsConcat(a: seq<Entry>, b: seq<Entry>, id: string)
    ensures Runs(a + b, id) == Runs(a, id) + Runs(b, id)
    ensures Bookings(a + b) == Bookings(a) + Bookings(b)
  {
    if b == [] {
      assert a + b == a;
    } else {
      assert (a + b)[..|a + b| - 1] == a + b[..|b| - 1];
      CountsConcat(a, b[..|b| - 1], id);
    }
  }

  lemma {:induction false} NoneCounted(b: seq<Entry>, id: string)
    ensures (forall k :: 0 <= k < |b| ==> b[k] != Ran(id)) ==> Runs(b, id) == 0
    ensures (forall k :: 0 <= k < |b| ==> !b[k].Booked?) ==> Bookings(b) == 0
  {
    if b != [] {
      NoneCounted(b[..|b| - 1], id);
    }
  }

  /** `c'` is `c` with the entries `b` added to its history. */
  ghost predicate Grows(c: Call, c': Call, b: seq<Entry>) {
    && c'.log == c.log + b
    && c'.callId == c.callId
    && c.rows <= c'.rows
  }

  lemma StillBefore(a: seq<Entry>, b: seq<Entry>, k: int, n: int, e: Entry)
    requires Before(a, k, e) && k <= n
    ensures Before(a + b, n, e)
  {
    var j :| 0 <= j < k && j < |a| && a[j] == e;
    assert (a + b)[j] == e;
  }

  lemma StillJustified(a: seq<Entry>, b: seq<Entry>, k: int)
    requires 0 <= k < |a| && Justified(a, k)
    ensures Justified(a + b, k)
  {
    assert (a + b)[k] == a[k];
    match a[k] {
      case Booked(slot, _, _) => StillBefore(a, b, k, k, Offered(slot));
      case Changed(appointment, _, newTime) =>
        StillBefore(a, b, k, k, Listed(appointment));
        if newTime.Some? {
          var j :| 0 <= j < k && j < |a| && a[j].Offered? && a[j].slot.date == newTime.value.0
            && a[j].slot.time == FormatTime(newTime.value.1);
          assert (a + b)[j] == a[j];
        }
      case _ =>
    }
  }

  /** The gate's promises survive new entries that are themselves justified. */
  lemma GateGrows(c: Call, c': Call, b: seq<Entry>)
    requires GateOk(c) && Grows(c, c', b)
    requires forall s :: s in c'.offered ==> s in c.offered || Offered(s) in b
    requires forall a :: a in c'.lookedUp ==> a in c.lookedUp || Listed(a) in b
    requires forall k :: |c.log| <= k < |c'.log| ==> Justified(c'.log, k)
    ensures GateOk(c')
  {
    forall s | s in c'.offered ensures Before(c'.log, |c'.log|, Offered(s)) {
      if s in c.offered {
        StillBefore(c.log, b, |c.log|, |c'.log|, Offered(s));
      } else {
        var j :| 0 <= j < |b| && b[j] == Offered(s);
        assert c'.log[|c.log| + j] == Offered(s);
      }
    }
    forall a | a in c'.lookedUp ensures Before(c'.log, |c'.log|, Listed(a)) {
      if a in c.lookedUp {
        StillBefore(c.log, b, |c.log|, |c'.log|, Listed(a));
      } else {
        var j :| 0 <= j < |b| && b[j] == Listed(a);
        assert c'.log[|c.log| + j] == Listed(a);
      }
    }
    forall k | 0 <= k < |c'.log| ensures Justified(c'.log, k) {
      if k < |c.log| {
        StillJustified(c.log, b, k);
      }
    }
  }

  // --------------------------------------------------------------- handlers

  /** An effect a handler may log: an offer, a listing, or something earned. */
  ghost predicate Earned(c: Call, e: Entry) {
    match e
    case Offered(_) => true
    case Listed(_) => true
    case Booked(slot, at, _) => ValidTime(at) && slot.time == FormatTime(at) && slot in c.offered
    case Changed(appointment, confirmed, newTime) =>
      && confirmed && appointment in c.lookedUp
      && (newTime.Some? ==>
            ValidTime(newTime.value.1)
            && exists s :: s in c.offered && s.date == newTime.value.0 && s.time == FormatTime(newTime.value.1))
    case _ => false
  }

  lemma EarnedIsJustified(c: Call, b: seq<Entry>, k: int)
    requires GateOk(c) && 0 <= k < |b| && Earned(c, b[k])
    ensures Justified(c.log + b, |c.log| + k)
  {
    var n := |c.log| + k;
    assert (c.log + b)[n] == b[k];
    match b[k] {
      case Booked(slot, _, _) => StillBefore(c.log, b, |c.log|, n, Offered(slot));
      case Changed(appointment, _, newTime) =>
        StillBefore(c.log, b, |c.log|, n, Listed(appointment));
        if newTime.Some? {
          var s :| s in c.offered && s.date == newTime.value.0 && s.time == FormatTime(newTime.value.1);
          StillBefore(c.log, b, |c.log|, n, Offered(s));
          var j :| 0 <= j < n && j < |c.log + b| && (c.log + b)[j] == Offered(s);
        }
      case _ =>
    }
  }

  /** One row more, and it carries this call's id. */
  ghost predicate AddsOwnRow(c: Call, rows: seq<R.Row>) {
    |rows| == |c.rows| + 1 && c.rows <= rows && (c.callId != "" ==> rows[|c.rows|].call == Key(c.callId))
  }

  /** Looking for fewer ids finds no more. */
  lemma {:induction false} FewerIdsFindLess(rows: seq<R.Row>, tool: Option<string>, call: Option<string>)
    requires R.FindBy(rows, tool, call).None?
    ensures R.FindBy(rows, tool, None).None? && R.FindBy(rows, None, call).None? && R.FindBy(rows, None, None).None?
  {
    if rows != [] {
      FewerIdsFindLess(rows[..|rows| - 1], tool, call);
    }
  }

  /** What a dispatch may add to the history: only earned effects, at most one
      of them a booking, and a booking only when neither id had a request. */
  ghost predicate Adds(c: Call, d: Delivery, c': Call, b: seq<Entry>) {
    && Grows(c, c', b)
    && (forall k :: 0 <= k < |b| ==> Earned(c, b[k]))
    && (forall s :: s in c'.offered ==> s in c.offered || Offered(s) in b)
    && (forall a :: a in c'.lookedUp ==> a in c.lookedUp || Listed(a) in b)
    && c'.completed == c.completed
    && (if b != [] && b[0].Booked?
        then |b| == 1 && !IsRetry(c, d.id) && AddsOwnRow(c, c'.rows)
        else c'.rows == c.rows && forall k :: 0 <= k < |b| ==> !b[k].Booked?)
  }

  lemma OffersAdd(c: Call, d: Delivery, a: Arguments) returns (b: seq<Entry>)
    requires d.tool == GetSlots && !d.world.raises && d.world.accepts
    ensures Adds(c, d, Handler(c, d, a).0, b)
  {
    var slots := OfferedSlots(a, d.world.free);
    b := Logged(slots);
    forall s | s in SlotSet(slots) ensures Offered(s) in b {
      var i :| 0 <= i < |slots| && slots[i] == s;
      assert b[i] == Offered(s);
    }
  }

  lemma ListingAdds(c: Call, d: Delivery, a: Arguments) returns (b: seq<Entry>)
    requires d.tool == GetAppointments && !d.world.raises
    ensures Adds(c, d, Handler(c, d, a).0, b)
  {
    b := LoggedIds(d.world.appointments);
    forall x | x in Handler(c, d, a).0.lookedUp && x !in c.lookedUp ensures Listed(x) in b {
      var i :| 0 <= i < |d.world.appointments| && d.world.appointments[i] == x;
      assert b[i] == Listed(x);
    }
  }

  lemma NothingStampedNoRetry(c: Call, id: string, a: Arguments)
    requires R.Lookup(c.rows, Stamped(id, a.toolId), Stamped(c.callId, a.callId)).None?
    ensures !IsRetry(c, id)
  {
    FewerIdsFindLess(c.rows, Stamped(id, a.toolId), None);
    FewerIdsFindLess(c.rows, None, Stamped(c.callId, a.callId));
  }

  lemma BookingAdds(c: Call, d: Delivery) returns (b: seq<Entry>)
    requires d.tool == CreateBooking && Gate(c, d).Pass?
    ensures Adds(c, d, CreateBookingHandler(c, d, d.arguments.value).0, b)
  {
    var a := d.arguments.value;
    b := if |CreateBookingHandler(c, d, a).0.log| == |c.log| then [] else [Booked(SlotOf(a).value, TimeOf(a).value, |c.rows|)];
    if b != [] {
      NothingStampedNoRetry(c, d.id, a);
    }
  }

  lemma ChangeAdds(c: Call, d: Delivery) returns (b: seq<Entry>)
    requires Changes(d.tool) && Gate(c, d).Pass?
    ensures Adds(c, d, Handler(c, d, d.arguments.value).0, b)
  {
    var a := d.arguments.value;
    if |Handler(c, d, a).0.log| == |c.log| {
      b := [];
    } else if d.tool == CancelAppointment {
      b := [Changed(a.appointmentId, a.confirmed, None)];
    } else {
      var newTime := (a.date, TimeOf(a).value);
      b := [Changed(a.appointmentId, a.confirmed, Some(newTime))];
      var s :| s in c.offered && s.date == a.date && s.time == FormatTime(TimeOf(a).value);
      assert Earned(c, b[0]);
    }
  }

  lemma DispatchAdds(c: Call, d: Delivery) returns (b: seq<Entry>)
    ensures Adds(c, d, Dispatch(c, d).0, b)
  {
    if !Gate(c, d).Pass? || d.world.raises || (d.tool == GetSlots && !d.world.accepts) {
      b := [];
    } else {
      match d.tool {
        case GetSlots => b := OffersAdd(c, d, d.arguments.value);
        case GetAppointments => b := ListingAdds(c, d, d.arguments.value);
        case CreateBooking => b := BookingAdds(c, d);
        case CancelAppointment => b := ChangeAdds(c, d);
        case RescheduleAppointment => b := ChangeAdds(c, d);
        case _ => b := [];
      }
    }
  }

  // ------------------------------------------------------------------ steps

  lemma LookupCoversCall(rows: seq<R.Row>, tool: Option<string>, call: Option<string>)
    ensures R.FindBy(rows, None, call).Some? ==> R.Lookup(rows, tool, call).Some?
  {
  }

  lemma {:induction false} FindSurvives(rows: seq<R.Row>, more: seq<R.Row>, call: Option<string>)
    requires R.FindBy(rows, None, call).Some?
    ensures R.FindBy(rows + more, None, call).Some?
  {
    if more == [] {
      assert rows + more == rows;
    } else {
      assert (rows + more)[..|rows + more| - 1] == rows + more[..|more| - 1];
      FindSurvives(rows, more[..|more| - 1], call);
    }
  }

  /** The first thing a dispatch does to the history is name its event. */
  function Named(c: Call, d: Delivery): Call {
    c.(log := c.log + [Ran(d.id)])
  }

  lemma NamedGate(c: Call, d: Delivery)
    requires GateOk(c)
    ensures GateOk(Named(c, d))
  {
    GateGrows(c, Named(c, d), [Ran(d.id)]);
  }

  lemma AddingKeepsGate(c: Call, d: Delivery, c': Call, b: seq<Entry>)
    requires GateOk(c) && Adds(c, d, c', b)
    ensures GateOk(c')
  {
    forall k | |c.log| <= k < |c'.log| ensures Justified(c'.log, k) {
      EarnedIsJustified(c, b, k - |c.log|);
    }
    GateGrows(c, c', b);
  }

  lemma DispatchKeepsGate(c: Call, d: Delivery)
    requires GateOk(c)
    ensures GateOk(Dispatch(c, d).0)
  {
    var b := DispatchAdds(c, d);
    AddingKeepsGate(c, d, Dispatch(c, d).0, b);
  }

  lemma OwnRowKeepsOnce(c: Call, c': Call, e: Entry)
    requires OnceOk(c) && Bookings(c.log) == 0 && e.Booked?
    requires Grows(c, c', [e]) && AddsOwnRow(c, c'.rows)
    ensures OnceOk(c')
  {
    assert c'.log[..|c.log|] == c.log;
    assert c'.rows[..|c'.rows| - 1] == c.rows;
  }

  lemma AddingKeepsOnce(c: Call, d: Delivery, c': Call, b: seq<Entry>)
    requires OnceOk(c) && Adds(c, d, c', b)
    ensures OnceOk(c')
  {
    LookupCoversCall(c.rows, Key(d.id), Key(c.callId));
    if b != [] && b[0].Booked? {
      assert b == [b[0]];
      OwnRowKeepsOnce(c, c', b[0]);
    } else {
      CountsConcat(c.log, b, "");
      NoneCounted(b, "");
    }
  }

  lemma DispatchKeepsOnce(c: Call, d: Delivery)
    requires OnceOk(c)
    ensures OnceOk(Dispatch(c, d).0)
  {
    var b := DispatchAdds(c, d);
    AddingKeepsOnce(c, d, Dispatch(c, d).0, b);
  }

  lemma DispatchKeepsCounts(c: Call, d: Delivery, id: string)
    ensures Runs(Dispatch(c, d).0.log, id) == Runs(c.log, id)
    ensures forall k :: 0 <= k < |Dispatch(c, d).0.log| && Dispatch(c, d).0.log[k].Sent? ==>
      k < |c.log| && Dispatch(c, d).0.log[k] == c.log[k]
  {
    var b := DispatchAdds(c, d);
    CountsConcat(c.log, b, id);
    forall k | 0 <= k < |b| ensures b[k] != Ran(id) && !b[k].Sent? {
      assert Earned(c, b[k]);
    }
    NoneCounted(b, id);
  }

  lemma NamedCounts(c: Call, d: Delivery, id: string)
    ensures Runs(Named(c, d).log, id) == Runs(c.log, id) + if id == d.id then 1 else 0
    ensures Bookings(Named(c, d).log) == Bookings(c.log)
  {
    assert Named(c, d).log[..|c.log|] == c.log;
  }

  /** What an uncached answer is: the event named, dispatched and cached. */
  lemma AnswerUnfolds(c: Call, d: Delivery)
    requires !(d.id != "" && d.id in c.completed)
    ensures var (c', out) := Dispatch(Named(c, d), d);
      Answer(c, d) == (c'.(completed := if d.id != "" then c'.completed[d.id := out] else c'.completed), out)
  {
  }

  lemma AnswerKeepsReplay(c: Call, d: Delivery)
    requires ReplayOk(c) && !(d.id != "" && d.id in c.completed)
    ensures ReplayOk(Answer(c, d).0)
  {
    var n := Named(c, d);
    var c' := Answer(c, d).0;
    AnswerUnfolds(c, d);
    var b := DispatchAdds(n, d);
    DispatchKeepsCounts(n, d, "");
    forall id | id != "" ensures Runs(c'.log, id) == if id in c'.completed then 1 else 0 {
      NamedCounts(c, d, id);
      DispatchKeepsCounts(n, d, id);
    }
  }

  lemma AnswerKeepsGateAndOnce(c: Call, d: Delivery)
    requires GateOk(c) && OnceOk(c) && !(d.id != "" && d.id in c.completed)
    ensures GateOk(Answer(c, d).0) && OnceOk(Answer(c, d).0)
  {
    var n := Named(c, d);
    AnswerUnfolds(c, d);
    NamedGate(c, d);
    NamedCounts(c, d, "");
    DispatchKeepsGate(n, d);
    DispatchKeepsOnce(n, d);
    GateSameLog(Dispatch(n, d).0, Answer(c, d).0);
  }

  lemma AnswerKeepsInv(c: Call, d: Delivery)
    requires Inv(c)
    ensures Inv(Answer(c, d).0)
    ensures d.id != "" ==> d.id in Answer(c, d).0.completed && Answer(c, d).0.completed[d.id] == Answer(c, d).1
  {
    if !(d.id != "" && d.id in c.completed) {
      AnswerKeepsReplay(c, d);
      AnswerKeepsGateAndOnce(c, d);
    }
  }

  lemma GateSameLog(c: Call, c': Call)
    requires GateOk(c) && c'.log == c.log && c'.offered == c.offered && c'.lookedUp == c.lookedUp
    ensures GateOk(c')
  {
  }

  lemma SentKeepsInv(c: Call, id: string, tool: Tool, out: Output)
    requires Inv(c) && (id != "" ==> id in c.completed && c.completed[id] == out)
    ensures Inv(c.(log := c.log + [Sent(id, tool, out)]))
  {
    var c' := c.(log := c.log + [Sent(id, tool, out)]);
    GateGrows(c, c', [Sent(id, tool, out)]);
    assert c'.log[..|c.log|] == c.log;
  }

  lemma HandleKeepsInv(c: Call, d: Delivery)
    requires Inv(c)
    ensures Inv(Handle(c, d))
  {
    if !Raises(c, d) {
      AnswerKeepsInv(c, d);
      var (c', out) := Answer(c, d);
      SentKeepsInv(c', d.id, d.tool, out);
      GateSameLog(if d.lost then c' else c'.(log := c'.log + [Sent(d.id, d.tool, out)]), Handle(c, d));
    }
  }

  lemma HappenKeepsInv(c: Call, h: Happening)
    requires Inv(c)
    ensures Inv(Happen(c, h))
  {
    match h {
      case Delivered(d) => HandleKeepsInv(c, d);
      case RowsAdded(rows) =>
        GateSameLog(c, Happen(c, h));
        if Bookings(c.log) == 1 {
          FindSurvives(c.rows, rows, Some(c.callId));
        }
    }
  }

  lemma FreshInv(callId: string, ivrBridged: bool, rows: seq<R.Row>)
    requires callId != ""
    ensures Inv(Fresh(callId, ivrBridged, rows))
  {
  }

  lemma {:induction false} CallKeepsInv(c: Call, hs: seq<Happening>)
    requires Inv(c)
    ensures Inv(HappenAll(c, hs))
  {
    if hs != [] {
      CallKeepsInv(c, hs[..|hs| - 1]);
      HappenKeepsInv(HappenAll(c, hs[..|hs| - 1]), hs[|hs| - 1]);
    }
  }

  // ---------------------------------------------------------- main theorems

  /** Each function-call id is executed at most once in a call, and every
      delivery of it is answered with the same output. */
  lemma ExecutedOnceAnsweredAlike(
    callId: string, ivrBridged: bool, rows: seq<R.Row>, hs: seq<Happening>, id: string)
    requires callId != "" && id != ""
    ensures var log := HappenAll(Fresh(callId, ivrBridged, rows), hs).log;
      && Runs(log, id) <= 1
      && forall j, k :: 0 <= j < |log| && 0 <= k < |log| && log[j].Sent? && log[k].Sent?
           && log[j].id == id && log[k].id == id
           ==> log[j].output == log[k].output && Runs(log, id) == 1
  {
    FreshInv(callId, ivrBridged, rows);
    CallKeepsInv(Fresh(callId, ivrBridged, rows), hs);
  }

  /** No other time is written the same way. */
  ghost predicate OnlyReading(at: TimeOfDay) {
    ValidTime(at) && forall t :: ValidTime(t) && FormatTime(t) == FormatTime(at) ==> t == at
  }

  lemma ReadsOneWay(at: TimeOfDay)
    requires ValidTime(at)
    ensures OnlyReading(at)
  {
    forall t | ValidTime(t) && FormatTime(t) == FormatTime(at) ensures t == at {
      FormatTimeInjective(t, at);
    }
  }

  /** The only time whose HH:MM was put to the caller is the one acted on. */
  ghost predicate AsOffered(e: Entry) {
    match e
    case Booked(slot, at, _) => OnlyReading(at) && slot.time == FormatTime(at)
    case Changed(_, _, newTime) =>
      newTime.Some? ==> OnlyReading(newTime.value.1)
    case _ => true
  }

  lemma JustifiedAsOffered(log: seq<Entry>, k: nat)
    requires k < |log| && Justified(log, k)
    ensures AsOffered(log[k])
  {
    match log[k] {
      case Booked(_, at, _) => ReadsOneWay(at);
      case Changed(_, _, newTime) =>
        if newTime.Some? {
          ReadsOneWay(newTime.value.1);
        }
      case _ =>
    }
  }

  /** Whatever the model asks for, a booking is only made for a slot that live
      availability returned earlier in this call, at the one time that slot's
      text can mean; an appointment is only changed after it was listed and
      confirmed (and moved only to an offered time), and one call makes at most
      one booking. */
  lemma EffectsAreEarned(callId: string, ivrBridged: bool, rows: seq<R.Row>, hs: seq<Happening>)
    requires callId != ""
    ensures var log := HappenAll(Fresh(callId, ivrBridged, rows), hs).log;
      && (forall k :: 0 <= k < |log| ==> Justified(log, k) && AsOffered(log[k]))
      && Bookings(log) <= 1
  {
    FreshInv(callId, ivrBridged, rows);
    CallKeepsInv(Fresh(callId, ivrBridged, rows), hs);
    var log := HappenAll(Fresh(callId, ivrBridged, rows), hs).log;
    forall k | 0 <= k < |log| ensures AsOffered(log[k]) {
      JustifiedAsOffered(log, k);
    }
  }

  // ------------------------------------------------------------- exceptions

  /** What a caller of the dispatcher can see beforehand: text nested too deep,
      or a booking or an otherwise allowed move whose time is too big, or a
      booking whose lookup fails. */
  predicate CannotBeAnswered(c: Call, d: Delivery) {
    && d.tool != UnknownTool
    && (d.arguments.TooDeep?
        || (d.arguments.Parsed? && d.tool == CreateBooking && (d.lookupFails || d.arguments.value.time.TooBig?))
        || (d.arguments.Parsed? && d.tool == RescheduleAppointment && d.arguments.value.time.TooBig?
            && d.arguments.value.confirmed && d.arguments.value.appointmentId in c.lookedUp))
  }

  /** The dispatcher, which promises an answer to everything, raises exactly on
      these events unless their answer is cached; it then leaves no trace, so
      the same event delivered again raises again. */
  lemma RaisesExactlyWhen(c: Call, d: Delivery)
    ensures Raises(c, d) <==> CannotBeAnswered(c, d) && !(d.id != "" && d.id in c.completed)
    ensures Raises(c, d) ==> Handle(c, d) == c
  {
  }

  function Booking(id: string, time: Clock): Delivery {
    Delivery(id, CreateBooking, Parsed(Arguments("service", "2026-11-03", time, "", false, "", "")),
             World([], [], true, true, false, false, None), false, false)
  }

  /** "99999999999999999999:00" is such a time: the event is never answered,
      however often it is delivered, where an unreadable time is refused once. */
  lemma {:induction false} HugeTimeIsNeverAnswered(c: Call, n: nat)
    requires "call_1" !in c.completed
    ensures HappenAll(c, seq(n, i => Delivered(Booking("call_1", TooBig)))) == c
    ensures Raises(c, Booking("call_1", TooBig)) && !Raises(c, Booking("call_1", Unreadable))
  {
    if n > 0 {
      HugeTimeIsNeverAnswered(c, n - 1);
      assert seq(n, i => Delivered(Booking("call_1", TooBig)))[..n - 1]
          == seq(n - 1, i => Delivered(Booking("call_1", TooBig)));
    }
  }

  // ----------------------------------------------------------------- retries

  lemma RetryDispatchNeverBooks(c: Call, d: Delivery)
    requires IsRetry(c, d.id)
    ensures var c' := Dispatch(c, d).0; c'.rows == c.rows && Bookings(c'.log) == Bookings(c.log)
  {
    var b := DispatchAdds(c, d);
    CountsConcat(c.log, b, "");
    NoneCounted(b, "");
  }

  lemma RetryAnswerNeverBooks(c: Call, d: Delivery)
    requires IsRetry(c, d.id)
    ensures var c' := Answer(c, d).0; c'.rows == c.rows && Bookings(c'.log) == Bookings(c.log)
  {
    if !(d.id != "" && d.id in c.completed) {
      AnswerUnfolds(c, d);
      NamedCounts(c, d, "");
      RetryDispatchNeverBooks(Named(c, d), d);
    }
  }

  lemma SentBooksNothing(log: seq<Entry>, id: string, tool: Tool, out: Output)
    ensures Bookings(log + [Sent(id, tool, out)]) == Bookings(log)
  {
    assert (log + [Sent(id, tool, out)])[..|log|] == log;
  }

  /** An idempotent retry is let past the slot proof but never books. */
  lemma RetryNeverBooks(c: Call, d: Delivery)
    requires d.tool == CreateBooking && IsRetry(c, d.id)
    ensures Handle(c, d).rows == c.rows && Bookings(Handle(c, d).log) == Bookings(c.log)
  {
    if !Raises(c, d) {
      RetryAnswerNeverBooks(c, d);
      SentBooksNothing(Answer(c, d).0.log, d.id, d.tool, Answer(c, d).1);
    }
  }
}
