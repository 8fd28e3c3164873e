/** One AI phone call: the tool gate, the replay cache, and what a delivered
    function call does. The log is the call's history; nothing reads it. */
module VoiceCall {
  import opened Wrappers
  import R = BookingRace

  // ------------------------------------------------------------------- times

  datatype TimeOfDay = TimeOfDay(hour: nat, minute: nat)

  predicate ValidTime(t: TimeOfDay) {
    t.hour < 24 && t.minute < 60
  }

  function Digit(n: nat): char
    requires n < 10
  {
    ['0', '1', '2', '3', '4', '5', '6', '7', '8', '9'][n]
  }

  /** `strftime("%H:%M")` */
  function FormatTime(t: TimeOfDay): string
    requires ValidTime(t)
  {
    [Digit(t.hour / 10), Digit(t.hour % 10), ':', Digit(t.minute / 10), Digit(t.minute % 10)]
  }

  lemma DigitInjective(a: nat, b: nat)
    requires a < 10 && b < 10 && Digit(a) == Digit(b)
    ensures a == b
  {
  }

  /** Two times the gate cannot tell apart are the same time. */
  lemma FormatTimeInjective(a: TimeOfDay, b: TimeOfDay)
    requires ValidTime(a) && ValidTime(b) && FormatTime(a) == FormatTime(b)
    ensures a == b
  {
    assert FormatTime(a)[0] == FormatTime(b)[0] && FormatTime(a)[1] == FormatTime(b)[1];
    assert FormatTime(a)[3] == FormatTime(b)[3] && FormatTime(a)[4] == FormatTime(b)[4];
    DigitInjective(a.hour / 10, b.hour / 10);
    DigitInjective(a.hour % 10, b.hour % 10);
    DigitInjective(a.minute / 10, b.minute / 10);
    DigitInjective(a.minute % 10, b.minute % 10);
  }

  // -------------------------------------------------------------------- data

  /** (appointment_type_id, date, HH:MM), as strings off the wire. */
  datatype Slot = Slot(typeId: string, date: string, time: string)

  datatype Tool =
    | GetSlots | CreateBooking | GetAppointments | CancelAppointment | RescheduleAppointment
    | Handoff | EndCall | Info | UnknownTool

  /** What the time parser makes of the model's text: `TooBig` is digits that
      fit no machine integer, where it raises instead of answering "unreadable". */
  datatype Clock = Read(t: TimeOfDay) | Unreadable | TooBig

  /** `toolId` and `callId` are ids the model may write itself. */
  datatype Arguments = Arguments(
    typeId: string, date: string, time: Clock, appointmentId: string, confirmed: bool, toolId: string, callId: string)

  /** The JSON text of an event; `TooDeep` is nested past the reader's limit. */
  datatype Payload = Parsed(value: Arguments) | Malformed | TooDeep

  /** What the handler would meet if it ran now; `raisesLate` is the text
      message failing after the booking was committed. */
  datatype World = World(
    free: seq<string>, appointments: seq<string>, accepts: bool, slotFree: bool, raises: bool, raisesLate: bool,
    transfer: Option<string>)

  /** A function-call event. `""` is an event without an id; `lost` is the
      connection failing before the answer is out, `lookupFails` the idempotency
      query itself raising. */
  datatype Delivery = Delivery(
    id: string, tool: Tool, arguments: Payload, world: World, lookupFails: bool, lost: bool)

  datatype Output = Output(ok: bool, times: seq<string>, appointments: seq<string>, row: Option<nat>, transfer: Option<string>)

  const REFUSED := Output(false, [], [], None, None)
  const ACCEPTED := Output(true, [], [], None, None)

  datatype Entry =
    | Ran(id: string)
    | Offered(slot: Slot)
    | Listed(appointment: string)
    | Booked(slot: Slot, at: TimeOfDay, row: nat)
    | Changed(appointment: string, confirmed: bool, newTime: Option<(string, TimeOfDay)>)
    | Sent(id: string, tool: Tool, output: Output)

  /** `rows` is the booking-request table; `callId` this call's own id. */
  datatype Call = Call(
    callId: string, ivrBridged: bool,
    offered: set<Slot>, lookedUp: set<string>,
    completed: map<string, Output>,
    endAfterResponse: bool, transfer: Option<string>,
    rows: seq<R.Row>, log: seq<Entry>)

  function Fresh(callId: string, ivrBridged: bool, rows: seq<R.Row>): Call {
    Call(callId, ivrBridged, {}, {}, map[], false, None, rows, [])
  }

  function Key(id: string): Option<string> {
    if id == "" then None else Some(id)
  }

  /** The envelope's id replaces the model's own, if the envelope has one. */
  function Stamped(envelope: string, own: string): Option<string> {
    Key(if envelope != "" then envelope else own)
  }

  // -------------------------------------------------------------------- gate

  function TimeOf(a: Arguments): (t: Option<TimeOfDay>)
    ensures t.Some? ==> ValidTime(t.value)
  {
    if a.time.Read? && ValidTime(a.time.t) then Some(a.time.t) else None
  }

  function SlotOf(a: Arguments): Option<Slot> {
    match TimeOf(a)
    case Some(t) => Some(Slot(a.typeId, a.date, FormatTime(t)))
    case None => None
  }

  /** What a proof of a slot comes to: the time parser may raise inside it. */
  datatype Proof = Proven | Unproven | Blown

  function IncludesSlot(offered: set<Slot>, a: Arguments): Proof {
    if a.time.TooBig? then Blown
    else if SlotOf(a).Some? && SlotOf(a).value in offered then Proven
    else Unproven
  }

  function IncludesTime(offered: set<Slot>, a: Arguments): Proof {
    if a.time.TooBig? then Blown
    else if SlotOf(a).Some? && exists s :: s in offered && s.date == a.date && s.time == SlotOf(a).value.time then Proven
    else Unproven
  }

  /** A request already carries this event's id or this call's. */
  predicate IsRetry(c: Call, id: string) {
    R.Lookup(c.rows, Key(id), Key(c.callId)).Some?
  }

  predicate Changes(t: Tool) {
    t == CancelAppointment || t == RescheduleAppointment
  }

  datatype Verdict = Pass | Refuse | Transfer | Raise

  function Ruling(p: Proof, excused: bool): Verdict {
    match p
    case Blown => Raise
    case Proven => Pass
    case Unproven => if excused then Pass else Refuse
  }

  /** The dispatcher's checks in the order it makes them, up to the handler:
      everything here runs outside its exception guard. */
  function Gate(c: Call, d: Delivery): Verdict {
    if d.tool == UnknownTool then Refuse
    else
      match d.arguments
      case TooDeep => Raise
      case Malformed => Refuse
      case Parsed(a) =>
        if d.tool == Handoff && c.ivrBridged then Transfer
        else if Changes(d.tool) && (!a.confirmed || a.appointmentId !in c.lookedUp) then Refuse
        else if d.tool == RescheduleAppointment then Ruling(IncludesTime(c.offered, a), false)
        else if d.tool == CreateBooking then
          if d.lookupFails then Raise else Ruling(IncludesSlot(c.offered, a), IsRetry(c, d.id))
        else Pass
  }

  // ---------------------------------------------------------------- handlers

  function OfferedSlots(a: Arguments, times: seq<string>): seq<Slot> {
    seq(|times|, i requires 0 <= i < |times| => Slot(a.typeId, a.date, times[i]))
  }

  function SlotSet(slots: seq<Slot>): set<Slot> {
    set i | 0 <= i < |slots| :: slots[i]
  }

  function Logged(slots: seq<Slot>): seq<Entry> {
    seq(|slots|, i requires 0 <= i < |slots| => Offered(slots[i]))
  }

  function LoggedIds(ids: seq<string>): seq<Entry> {
    seq(|ids|, i requires 0 <= i < |ids| => Listed(ids[i]))
  }

  /** create_booking: an existing request with either id is the answer; a new
      one is only made when there is none and the slot is still free. */
  function CreateBookingHandler(c: Call, d: Delivery, a: Arguments): (Call, Output) {
    if !d.world.accepts || TimeOf(a).None? then (c, REFUSED)
    else match R.Lookup(c.rows, Stamped(d.id, a.toolId), Stamped(c.callId, a.callId))
      case Some(r) => (c, ACCEPTED.(row := Some(r)))
      case None =>
        if !d.world.slotFree then (c, REFUSED)
        else
          (c.(rows := c.rows + [R.Row(Stamped(d.id, a.toolId), Stamped(c.callId, a.callId))],
              log := c.log + [Booked(SlotOf(a).value, TimeOf(a).value, |c.rows|)]),
           if d.world.raisesLate then REFUSED else ACCEPTED.(row := Some(|c.rows|)))
  }

  function Handler(c: Call, d: Delivery, a: Arguments): (Call, Output) {
    if d.world.raises then (c, REFUSED)
    else match d.tool
      case GetSlots =>
        if !d.world.accepts then (c, REFUSED)
        else
          var slots := OfferedSlots(a, d.world.free);
          (c.(offered := c.offered + SlotSet(slots), log := c.log + Logged(slots)), ACCEPTED.(times := d.world.free))
      case GetAppointments =>
        (c.(lookedUp := c.lookedUp + (set i | 0 <= i < |d.world.appointments| :: d.world.appointments[i]),
            log := c.log + LoggedIds(d.world.appointments)),
         ACCEPTED.(appointments := d.world.appointments))
      case CreateBooking => CreateBookingHandler(c, d, a)
      case CancelAppointment =>
        if !d.world.accepts then (c, REFUSED)
        else (c.(log := c.log + [Changed(a.appointmentId, a.confirmed, None)]), ACCEPTED)
      case RescheduleAppointment =>
        if !d.world.accepts || TimeOf(a).None? then (c, REFUSED)
        else (c.(log := c.log + [Changed(a.appointmentId, a.confirmed, Some((a.date, TimeOf(a).value)))]), ACCEPTED)
      case Handoff => (c, ACCEPTED.(transfer := d.world.transfer))
      case _ => (c, ACCEPTED)
  }

  /** For an event that raises there is no answer; see `Handle`. */
  function Dispatch(c: Call, d: Delivery): (Call, Output) {
    match Gate(c, d)
    case Pass => Handler(c, d, d.arguments.value)
    case Transfer => (c, ACCEPTED)
    case _ => (c, REFUSED)
  }

  predicate EndsCall(t: Tool) {
    t == Handoff || t == EndCall
  }

  /** A cached answer is replayed; anything else is dispatched and cached. */
  function Answer(c: Call, d: Delivery): (Call, Output) {
    if d.id != "" && d.id in c.completed then (c, c.completed[d.id])
    else
      var (c', out) := Dispatch(c.(log := c.log + [Ran(d.id)]), d);
      (if d.id != "" then c'.(completed := c'.completed[d.id := out]) else c', out)
  }

  /** An exception leaves the dispatcher; a cached answer never gets that far. */
  predicate Raises(c: Call, d: Delivery) {
    !(d.id != "" && d.id in c.completed) && Gate(c, d).Raise?
  }

  /** An exception leaves the call as it was, with nothing cached. */
  function Handle(c: Call, d: Delivery): Call {
    if Raises(c, d) then c
    else
      var (c', out) := Answer(c, d);
      var t := if out.transfer.GetOr("") != "" then out.transfer else c'.transfer;
      if d.lost then c'.(transfer := t)
      else c'.(transfer := t,
               log := c'.log + [Sent(d.id, d.tool, out)],
               endAfterResponse := c'.endAfterResponse || (EndsCall(d.tool) && out.ok))
  }

  /** Rows other workers committed meanwhile. */
  datatype Happening = Delivered(d: Delivery) | RowsAdded(rows: seq<R.Row>)

  function Happen(c: Call, h: Happening): Call {
    match h
    case Delivered(d) => Handle(c, d)
    case RowsAdded(rows) => c.(rows := c.rows + rows)
  }

  function HappenAll(c: Call, hs: seq<Happening>): Call {
    if hs == [] then c else Happen(HappenAll(c, hs[..|hs| - 1]), hs[|hs| - 1])
  }

  // -------------------------------------------------------------- invariants

  function Runs(log: seq<Entry>, id: string): nat {
    if log == [] then 0 else Runs(log[..|log| - 1], id) + if log[|log| - 1] == Ran(id) then 1 else 0
  }

  function Bookings(log: seq<Entry>): nat {
    if log == [] then 0 else Bookings(log[..|log| - 1]) + if log[|log| - 1].Booked? then 1 else 0
  }

  /** Each cached answer had its one run, and every answer sent for an id is
      the cached one. */
  ghost predicate ReplayOk(c: Call) {
    && (forall id :: id != "" ==> Runs(c.log, id) == if id in c.completed then 1 else 0)
    && (forall k :: 0 <= k < |c.log| && c.log[k].Sent? && c.log[k].id != "" ==>
          c.log[k].id in c.completed && c.log[k].output == c.completed[c.log[k].id])
  }

  ghost predicate Before(log: seq<Entry>, k: int, e: Entry) {
    exists j :: 0 <= j < k && j < |log| && log[j] == e
  }

  ghost predicate OfferedBefore(log: seq<Entry>, k: int, date: string, time: string) {
    exists j :: 0 <= j < k && j < |log| && log[j].Offered? && log[j].slot.date == date && log[j].slot.time == time
  }

  /** Every effect in the log was earned earlier in the same log. */
  ghost predicate Justified(log: seq<Entry>, k: int)
    requires 0 <= k < |log|
  {
    match log[k]
    case Booked(slot, at, _) => ValidTime(at) && slot.time == FormatTime(at) && Before(log, k, Offered(slot))
    case Changed(appointment, confirmed, newTime) =>
      && confirmed && Before(log, k, Listed(appointment))
      && (newTime.Some? ==>
            ValidTime(newTime.value.1)
            && OfferedBefore(log, k, newTime.value.0, FormatTime(newTime.value.1)))
    case _ => true
  }

  ghost predicate GateOk(c: Call) {
    && (forall s :: s in c.offered ==> Before(c.log, |c.log|, Offered(s)))
    && (forall a :: a in c.lookedUp ==> Before(c.log, |c.log|, Listed(a)))
    && (forall k :: 0 <= k < |c.log| ==> Justified(c.log, k))
  }

  /** Once this call has a request of its own it can make no other. */
  ghost predicate OnceOk(c: Call) {
    && c.callId != ""
    && Bookings(c.log) <= 1
    && (Bookings(c.log) == 1 ==> R.FindBy(c.rows, None, Some(c.callId)).Some?)
  }

  ghost predicate Inv(c: Call) {
    ReplayOk(c) && GateOk(c) && OnceOk(c)
  }
}
