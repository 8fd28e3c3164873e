/** What the caller is told is what happened: each answer of a phone call's tools
    against the rows, offers and changes it leaves. */
module CallAnswers {
  import opened Wrappers
  import R = BookingRace
  import opened VoiceCall
  import VoiceCallRuns

  // ------------------------------------------------------------ one function call

  /** No cached answer, and the checks before the handler let it through. */
  predicate LetThrough(c: Call, d: Delivery) {
    (d.id == "" || d.id !in c.completed) && Gate(c, d).Pass?
  }

  /** The event was run now: named in the history, with its effects, the answer
      kept under its id and, unless the line broke, sent. */
  ghost predicate RanWith(c: Call, d: Delivery, effects: seq<Entry>, out: Output) {
    var after := Handle(c, d);
    && after.log == c.log + [Ran(d.id)] + effects + (if d.lost then [] else [Sent(d.id, d.tool, out)])
    && after.completed == (if d.id == "" then c.completed else c.completed[d.id := out])
    && after.transfer == (if out.transfer.GetOr("") == "" then c.transfer else out.transfer)
    && after.endAfterResponse == (c.endAfterResponse || (!d.lost && out.ok && (d.tool == Handoff || d.tool == EndCall)))
    && after.callId == c.callId && after.ivrBridged == c.ivrBridged
  }

  /** Nothing is booked, offered or listed. */
  ghost predicate OnlySaid(c: Call, d: Delivery) {
    var after := Handle(c, d);
    after.rows == c.rows && after.offered == c.offered && after.lookedUp == c.lookedUp
  }

  lemma HandlerRuns(c: Call, d: Delivery, effects: seq<Entry>, out: Output)
    requires LetThrough(c, d)
    requires var n := VoiceCallRuns.Named(c, d); var (h, o) := Handler(n, d, d.arguments.value);
      o == out && h == n.(log := n.log + effects, rows := h.rows, offered := h.offered, lookedUp := h.lookedUp)
    ensures RanWith(c, d, effects, out)
    ensures var h, after := Handler(VoiceCallRuns.Named(c, d), d, d.arguments.value).0, Handle(c, d);
      after.rows == h.rows && after.offered == h.offered && after.lookedUp == h.lookedUp
  {
    var n := VoiceCallRuns.Named(c, d);
    assert Gate(n, d) == Gate(c, d);
    VoiceCallRuns.AnswerUnfolds(c, d);
    assert n.log + effects == c.log + [Ran(d.id)] + effects;
  }

  /** The request a booking makes carries both ids, the event's own and the call's;
      where the event or call has none, what the model wrote stands for it. */
  function RowOf(c: Call, d: Delivery, a: Arguments): R.Row {
    var tool, call := if d.id != "" then d.id else a.toolId, if c.callId != "" then c.callId else a.callId;
    R.Row(if tool == "" then None else Some(tool), if call == "" then None else Some(call))
  }

  /** The request is one with either id. */
  predicate HasIdOf(row: R.Row, mine: R.Row) {
    (mine.tool.Some? && row.tool == mine.tool) || (mine.call.Some? && row.call == mine.call)
  }

  lemma {:induction false} FoundHasId(rows: seq<R.Row>, tool: Option<string>, call: Option<string>)
    ensures R.FindBy(rows, tool, call).Some? <==> exists i :: 0 <= i < |rows| && HasIdOf(rows[i], R.Row(tool, call))
    ensures R.FindBy(rows, tool, call).Some? ==>
      var r := R.FindBy(rows, tool, call).value; r < |rows| && HasIdOf(rows[r], R.Row(tool, call))
  {
    if rows != [] {
      var n := |rows| - 1;
      FoundHasId(rows[..n], tool, call);
      if HasIdOf(rows[n], R.Row(tool, call)) {
        assert R.FindBy(rows, tool, call) == Some(n);
      } else if i :| 0 <= i < |rows| && HasIdOf(rows[i], R.Row(tool, call)) {
        assert rows[..n][i] == rows[i];
      }
    }
  }

  /** A request is found exactly when there is one with either id. */
  lemma LookedUpHasId(rows: seq<R.Row>, mine: R.Row)
    ensures R.Lookup(rows, mine.tool, mine.call).Some? <==> exists i :: 0 <= i < |rows| && HasIdOf(rows[i], mine)
    ensures R.Lookup(rows, mine.tool, mine.call).Some? ==>
      var r := R.Lookup(rows, mine.tool, mine.call).value; r < |rows| && HasIdOf(rows[r], mine)
  {
    FoundHasId(rows, mine.tool, None);
    FoundHasId(rows, None, mine.call);
    if i :| 0 <= i < |rows| && HasIdOf(rows[i], mine) {
      assert HasIdOf(rows[i], R.Row(mine.tool, None)) || HasIdOf(rows[i], R.Row(None, mine.call));
    }
  }

  /** A time the caller named that is one of those offered for a day. */
  predicate WasOffered(c: Call, a: Arguments, service: Option<string>) {
    && a.time.Read? && ValidTime(a.time.t)
    && exists s :: s in c.offered && s.date == a.date && s.time == FormatTime(a.time.t)
         && (service.Some? ==> s.typeId == service.value)
  }

  /** The checks before the handler, told by what the caller can point to: a change
      needs a confirmed, listed appointment and an offered time if it moves; a
      booking needs its slot offered for its service, unless there is a request
      of its own already. */
  lemma LetThroughExactlyWhen(c: Call, d: Delivery)
    ensures Gate(c, d).Pass? <==>
      && d.tool != UnknownTool && d.arguments.Parsed? && !(d.tool == Handoff && c.ivrBridged)
      && var a := d.arguments.value;
      && (d.tool == CancelAppointment || d.tool == RescheduleAppointment ==> a.confirmed && a.appointmentId in c.lookedUp)
      && (d.tool == RescheduleAppointment ==> WasOffered(c, a, None))
      && (d.tool == CreateBooking ==>
            && !d.lookupFails && !a.time.TooBig?
            && (WasOffered(c, a, Some(a.typeId)) || exists i :: 0 <= i < |c.rows| && HasIdOf(c.rows[i], OwnIds(c, d))))
  {
    LookedUpHasId(c.rows, OwnIds(c, d));
    if d.arguments.Parsed? && d.arguments.value.time.Read? && ValidTime(d.arguments.value.time.t) {
      var a := d.arguments.value;
      forall s | s in c.offered && s.date == a.date && s.time == FormatTime(a.time.t) && s.typeId == a.typeId
        ensures s == SlotOf(a).value
      {
      }
    }
  }

  function OwnIds(c: Call, d: Delivery): R.Row {
    R.Row(if d.id == "" then None else Some(d.id), if c.callId == "" then None else Some(c.callId))
  }

  /** A booking let through is told the request there is with either id; without
      one it makes exactly one, with both, when the slot is still free; and it is
      refused, with nothing made, when its handler fails or cannot take it. */
  lemma BookingIsAnswered(c: Call, d: Delivery)
    requires LetThrough(c, d) && d.tool == CreateBooking
    ensures var a, after := d.arguments.value, Handle(c, d); var mine := RowOf(c, d, a);
      var taken := exists i :: 0 <= i < |c.rows| && HasIdOf(c.rows[i], mine);
      && after.offered == c.offered && after.lookedUp == c.lookedUp
      && (if d.world.raises || !d.world.accepts || TimeOf(a).None? then after.rows == c.rows && RanWith(c, d, [], REFUSED)
          else if taken then after.rows == c.rows && exists r :: TellsOf(c, d, mine, r)
          else if !d.world.slotFree then after.rows == c.rows && RanWith(c, d, [], REFUSED)
          else
            var told := if d.world.raisesLate then REFUSED else ACCEPTED.(row := Some(|c.rows|));
            && after.rows == c.rows + [mine]
            && RanWith(c, d, [Booked(SlotOf(a).value, TimeOf(a).value, |c.rows|)], told))
  {
    var a := d.arguments.value;
    var mine := RowOf(c, d, a);
    var n := VoiceCallRuns.Named(c, d);
    LookedUpHasId(c.rows, mine);
    assert Stamped(d.id, a.toolId) == mine.tool && Stamped(c.callId, a.callId) == mine.call;
    var (h, out) := Handler(n, d, a);
    if h.rows == c.rows {
      HandlerRuns(c, d, [], out);
      if out.row.Some? {
        assert TellsOf(c, d, mine, out.row.value);
      }
    } else {
      HandlerRuns(c, d, [Booked(SlotOf(a).value, TimeOf(a).value, |c.rows|)], out);
    }
  }

  ghost predicate TellsOf(c: Call, d: Delivery, mine: R.Row, r: nat) {
    r < |c.rows| && HasIdOf(c.rows[r], mine) && RanWith(c, d, [], ACCEPTED.(row := Some(r)))
  }

  /** A change let through is answered "done" exactly when it was made, once, to
      the appointment and for the time it names. */
  lemma ChangeIsAnswered(c: Call, d: Delivery)
    requires LetThrough(c, d) && (d.tool == CancelAppointment || d.tool == RescheduleAppointment)
    ensures var a := d.arguments.value; var moves := d.tool == RescheduleAppointment;
      var done := !d.world.raises && d.world.accepts && (moves ==> TimeOf(a).Some?);
      var newTime := if moves && TimeOf(a).Some? then Some((a.date, TimeOf(a).value)) else None;
      && OnlySaid(c, d)
      && if done then RanWith(c, d, [Changed(a.appointmentId, true, newTime)], ACCEPTED) else RanWith(c, d, [], REFUSED)
  {
    var a, n := d.arguments.value, VoiceCallRuns.Named(c, d);
    var (h, out) := Handler(n, d, a);
    HandlerRuns(c, d, if out.ok then [h.log[|n.log|]] else [], out);
  }

  /** The times the caller hears are the ones that may be booked from now on. */
  lemma OfferIsRecorded(c: Call, d: Delivery)
    requires LetThrough(c, d) && d.tool == GetSlots
    ensures var a, after, times := d.arguments.value, Handle(c, d), d.world.free;
      && after.rows == c.rows && after.lookedUp == c.lookedUp
      && if d.world.raises || !d.world.accepts then after.offered == c.offered && RanWith(c, d, [], REFUSED)
         else
           && RanWith(c, d, seq(|times|, i requires 0 <= i < |times| => Offered(Slot(a.typeId, a.date, times[i]))),
                      Output(true, times, [], None, None))
           && forall s :: s in after.offered
                <==> s in c.offered || (s.typeId == a.typeId && s.date == a.date && s.time in times)
  {
    var a, n, times := d.arguments.value, VoiceCallRuns.Named(c, d), d.world.free;
    if d.world.raises || !d.world.accepts {
      HandlerRuns(c, d, [], REFUSED);
    } else {
      var slots := OfferedSlots(a, times);
      HandlerRuns(c, d, Logged(slots), ACCEPTED.(times := times));
      assert Logged(slots) == seq(|times|, i requires 0 <= i < |times| => Offered(Slot(a.typeId, a.date, times[i])));
      forall s ensures s in SlotSet(slots) <==> s.typeId == a.typeId && s.date == a.date && s.time in times {
        if s.typeId == a.typeId && s.date == a.date && s.time in times {
          var i :| 0 <= i < |times| && times[i] == s.time;
          assert slots[i] == s;
        }
      }
    }
  }

  /** The appointments the caller hears are the ones that may be changed. */
  lemma ListingIsRecorded(c: Call, d: Delivery)
    requires LetThrough(c, d) && d.tool == GetAppointments
    ensures var after, ids := Handle(c, d), d.world.appointments;
      && after.rows == c.rows && after.offered == c.offered
      && if d.world.raises then after.lookedUp == c.lookedUp && RanWith(c, d, [], REFUSED)
         else
           && RanWith(c, d, seq(|ids|, i requires 0 <= i < |ids| => Listed(ids[i])), Output(true, [], ids, None, None))
           && forall x :: x in after.lookedUp <==> x in c.lookedUp || x in ids
  {
    var ids := d.world.appointments;
    if d.world.raises {
      HandlerRuns(c, d, [], REFUSED);
    } else {
      HandlerRuns(c, d, LoggedIds(ids), ACCEPTED.(appointments := ids));
      assert LoggedIds(ids) == seq(|ids|, i requires 0 <= i < |ids| => Listed(ids[i]));
    }
  }

  /** A transfer names where the caller goes; ending the call and asking about the
      business are simply answered. */
  lemma OtherIsAnswered(c: Call, d: Delivery)
    requires LetThrough(c, d) && (d.tool == Handoff || d.tool == EndCall || d.tool == Info)
    ensures var transfer := if d.tool == Handoff then d.world.transfer else None;
      OnlySaid(c, d) && RanWith(c, d, [], if d.world.raises then REFUSED else Output(true, [], [], None, transfer))
  {
    HandlerRuns(c, d, [], Handler(VoiceCallRuns.Named(c, d), d, d.arguments.value).1);
  }

  /** What the checks turn away is refused and run no further; on a call that came
      through the menu a handoff goes back to it. */
  lemma TurnedAway(c: Call, d: Delivery)
    requires (d.id == "" || d.id !in c.completed) && (Gate(c, d).Refuse? || Gate(c, d).Transfer?)
    ensures OnlySaid(c, d) && RanWith(c, d, [], if d.tool == Handoff && c.ivrBridged && d.arguments.Parsed? then ACCEPTED else REFUSED)
  {
    var n := VoiceCallRuns.Named(c, d);
    assert Gate(n, d) == Gate(c, d);
    VoiceCallRuns.AnswerUnfolds(c, d);
  }

  /** A cached answer is sent again and nothing else is done. */
  lemma ReplayOnlyAnswers(c: Call, d: Delivery)
    requires d.id != "" && d.id in c.completed
    ensures var after, out := Handle(c, d), c.completed[d.id];
      && OnlySaid(c, d) && after.completed == c.completed
      && after.log == c.log + if d.lost then [] else [Sent(d.id, d.tool, out)]
  {
    assert c.log + [] == c.log;
  }

  // ------------------------------------------------------------------ whole calls

  /** Request `r` is what the event was about: it carries this call's id, or the id
      of a booking event delivered under `id`. */
  ghost predicate Carries(rows: seq<R.Row>, callId: string, hs: seq<Happening>, id: string, r: nat) {
    && r < |rows|
    && ((callId != "" && rows[r].call == Some(callId)) || exists n :: 0 <= n < |hs| && IsBookingOf(hs[n], id, callId, rows[r]))
  }

  predicate IsBookingOf(h: Happening, id: string, callId: string, row: R.Row) {
    && h.Delivered? && h.d.tool == CreateBooking && h.d.id == id && h.d.arguments.Parsed?
    && HasIdOf(row, RowOf(Fresh(callId, false, []), h.d, h.d.arguments.value))
  }

  /** Every answer kept or sent that names a request names one of these. */
  ghost predicate NamesRows(c: Call, hs: seq<Happening>) {
    && (forall id :: id in c.completed && c.completed[id].row.Some? ==>
          Carries(c.rows, c.callId, hs, id, c.completed[id].row.value))
    && (forall k :: 0 <= k < |c.log| && c.log[k].Sent? && c.log[k].output.row.Some? ==>
          Carries(c.rows, c.callId, hs, c.log[k].id, c.log[k].output.row.value))
  }

  lemma StillCarries(rows: seq<R.Row>, more: seq<R.Row>, callId: string, hs: seq<Happening>, h: Happening, id: string, r: nat)
    requires Carries(rows, callId, hs, id, r) && rows <= more
    ensures Carries(more, callId, hs + [h], id, r)
  {
    if n :| 0 <= n < |hs| && IsBookingOf(hs[n], id, callId, rows[r]) {
      assert (hs + [h])[n] == hs[n];
    }
  }

  /** A handler that names a request names one with its own ids. */
  lemma HandlerNamesOwn(c: Call, d: Delivery, a: Arguments)
    requires c.callId != "" && Handler(c, d, a).1.row.Some?
    ensures var (h, out) := Handler(c, d, a); var r := out.row.value;
      d.tool == CreateBooking && r < |h.rows| && HasIdOf(h.rows[r], RowOf(c, d, a))
  {
    var mine := RowOf(c, d, a);
    LookedUpHasId(c.rows, mine);
    assert Stamped(d.id, a.toolId) == mine.tool && Stamped(c.callId, a.callId) == mine.call;
  }

  /** What an event leaves: the rows it found and maybe more, its answer kept and
      sent, and no answer to anything else. */
  ghost predicate LeavesAnswer(c: Call, d: Delivery, after: Call, out: Output) {
    && c.rows <= after.rows && after.callId == c.callId
    && (forall id :: id in after.completed ==>
          (id in c.completed && after.completed[id] == c.completed[id]) || (id == d.id && after.completed[id] == out))
    && (forall k :: 0 <= k < |after.log| && after.log[k].Sent? ==>
          (k < |c.log| && after.log[k] == c.log[k]) || after.log[k] == Sent(d.id, d.tool, out))
  }

  lemma AnswerLeaves(c: Call, d: Delivery)
    requires !Raises(c, d)
    ensures LeavesAnswer(c, d, Handle(c, d), Answer(c, d).1)
  {
    if !(d.id != "" && d.id in c.completed) {
      var n := VoiceCallRuns.Named(c, d);
      VoiceCallRuns.AnswerUnfolds(c, d);
      VoiceCallRuns.DispatchKeepsCounts(n, d, "");
      var b := VoiceCallRuns.DispatchAdds(n, d);
    }
  }

  lemma AnswerNamesOwn(c: Call, d: Delivery)
    requires c.callId != "" && !Raises(c, d) && !(d.id != "" && d.id in c.completed) && Answer(c, d).1.row.Some?
    ensures var r := Answer(c, d).1.row.value;
      && d.tool == CreateBooking && d.arguments.Parsed?
      && r < |Handle(c, d).rows| && HasIdOf(Handle(c, d).rows[r], RowOf(c, d, d.arguments.value))
  {
    var n := VoiceCallRuns.Named(c, d);
    VoiceCallRuns.AnswerUnfolds(c, d);
    HandlerNamesOwn(n, d, d.arguments.value);
  }

  lemma AnswerCarries(c: Call, d: Delivery, hs: seq<Happening>)
    requires c.callId != "" && NamesRows(c, hs) && !Raises(c, d) && Answer(c, d).1.row.Some?
    ensures Carries(Handle(c, d).rows, c.callId, hs + [Delivered(d)], d.id, Answer(c, d).1.row.value)
  {
    var after, r := Handle(c, d), Answer(c, d).1.row.value;
    AnswerLeaves(c, d);
    if d.id != "" && d.id in c.completed {
      StillCarries(c.rows, after.rows, c.callId, hs, Delivered(d), d.id, r);
    } else {
      AnswerNamesOwn(c, d);
      assert (hs + [Delivered(d)])[|hs|] == Delivered(d);
      assert IsBookingOf((hs + [Delivered(d)])[|hs|], d.id, c.callId, after.rows[r]);
    }
  }

  lemma LeftNamesRows(c: Call, d: Delivery, after: Call, out: Output, hs: seq<Happening>)
    requires NamesRows(c, hs) && LeavesAnswer(c, d, after, out)
    requires out.row.Some? ==> Carries(after.rows, c.callId, hs + [Delivered(d)], d.id, out.row.value)
    ensures NamesRows(after, hs + [Delivered(d)])
  {
    forall id, r | Carries(c.rows, c.callId, hs, id, r) ensures Carries(after.rows, c.callId, hs + [Delivered(d)], id, r) {
      StillCarries(c.rows, after.rows, c.callId, hs, Delivered(d), id, r);
    }
  }

  lemma OthersNameRows(c: Call, after: Call, hs: seq<Happening>, h: Happening)
    requires NamesRows(c, hs) && c.rows <= after.rows && after == c.(rows := after.rows)
    ensures NamesRows(after, hs + [h])
  {
    forall id, r | Carries(c.rows, c.callId, hs, id, r) ensures Carries(after.rows, c.callId, hs + [h], id, r) {
      StillCarries(c.rows, after.rows, c.callId, hs, h, id, r);
    }
  }

  lemma HappenNamesRows(c: Call, hs: seq<Happening>, h: Happening)
    requires c.callId != "" && NamesRows(c, hs)
    ensures NamesRows(Happen(c, h), hs + [h]) && Happen(c, h).callId == c.callId
  {
    match h {
      case RowsAdded(_) => OthersNameRows(c, Happen(c, h), hs, h);
      case Delivered(d) =>
        if Raises(c, d) {
          OthersNameRows(c, c, hs, h);
        } else {
          AnswerLeaves(c, d);
          if Answer(c, d).1.row.Some? {
            AnswerCarries(c, d, hs);
          }
          LeftNamesRows(c, d, Handle(c, d), Answer(c, d).1, hs);
        }
    }
  }

  /** Over any call, whoever else books meanwhile and whatever is delivered again:
      a caller who is told of a request is told of one that exists and carries
      this call's id or the id of a booking event sent for that answer. */
  lemma {:induction false} ToldOfARealRequest(callId: string, ivrBridged: bool, rows: seq<R.Row>, hs: seq<Happening>)
    requires callId != ""
    ensures NamesRows(HappenAll(Fresh(callId, ivrBridged, rows), hs), hs)
    ensures HappenAll(Fresh(callId, ivrBridged, rows), hs).callId == callId
  {
    if hs != [] {
      var n := |hs| - 1;
      ToldOfARealRequest(callId, ivrBridged, rows, hs[..n]);
      HappenNamesRows(HappenAll(Fresh(callId, ivrBridged, rows), hs[..n]), hs[..n], hs[n]);
      assert hs[..n] + [hs[n]] == hs;
    }
  }
}
