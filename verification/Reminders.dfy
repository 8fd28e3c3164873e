/** The reminder worker: for every upcoming appointment and enabled lead time it
    sends what is due and not yet sent for the appointment's current start.
    Instants are in seconds; ids are positions. */
module Reminders {
  import opened Wrappers

  // -------------------------------------------------------------------- data

  datatype Channel = Email | Sms | WhatsApp | Unknown

  datatype Status = Sent | Skipped | Failed

  datatype Customer = Customer(hasEmail: bool, hasPhone: bool)

  datatype Timing = Timing(hours: nat, enabled: bool)

  /** `usable` are the channels configured for the business. */
  datatype Settings = Settings(enabled: bool, timings: seq<Timing>, channels: seq<Channel>, usable: set<Channel>)

  datatype Appointment = Appointment(
    garage: nat, start: int, booked: bool, imported: bool, customer: Option<Customer>)

  /** `madeAt` and `startThen` are the moment it was made and the start the
      appointment had then. */
  datatype Reminder = Reminder(
    appointment: nat, hours: nat, due: int, channel: Option<Channel>, status: Status, madeAt: int, startThen: int)

  /** A worker run: what it read when it started, the appointments and timings it
      has still to look at, and its rows, not yet committed. */
  datatype Going = Going(
    appointments: seq<Appointment>, settings: map<nat, Settings>, now: int, os: Delivery,
    todo: seq<(nat, Timing)>, rows: seq<Reminder>)

  datatype World = World(
    appointments: seq<Appointment>, settings: map<nat, Settings>, reminders: seq<Reminder>,
    runs: seq<Option<Going>>)

  const DEFAULTS := Settings(false, [], [], {})

  // ------------------------------------------------------------------ choosing

  predicate Reaches(c: Channel, customer: Customer, usable: set<Channel>) {
    && c in usable && c != Unknown
    && (if c == Email then customer.hasEmail else customer.hasPhone)
  }

  ghost predicate FirstWorking(channels: seq<Channel>, i: nat, customer: Customer, usable: set<Channel>) {
    && i < |channels| && Reaches(channels[i], customer, usable)
    && (forall j :: 0 <= j < i ==> !Reaches(channels[j], customer, usable))
  }

  /** The owner's first choice that works for this business and customer. */
  function PickChannel(channels: seq<Channel>, customer: Customer, usable: set<Channel>): (r: Option<Channel>)
    ensures r.Some? ==> exists i: nat :: FirstWorking(channels, i, customer, usable) && channels[i] == r.value
    ensures r.None? ==> forall c :: c in channels ==> !Reaches(c, customer, usable)
  {
    if channels == [] then None
    else
      var n := |channels| - 1;
      var before := PickChannel(channels[..n], customer, usable);
      if before.Some? then
        ghost var i: nat :| FirstWorking(channels[..n], i, customer, usable) && channels[..n][i] == before.value;
        assert FirstWorking(channels, i, customer, usable);
        before
      else if Reaches(channels[n], customer, usable) then
        assert forall j :: 0 <= j < n ==> channels[j] in channels[..n];
        assert FirstWorking(channels, n, customer, usable);
        Some(channels[n])
      else
        None
  }

  function DueAt(a: Appointment, hours: nat): int {
    a.start - 3600 * hours
  }

  predicate Done(r: Reminder) {
    r.status == Sent || r.status == Skipped
  }

  predicate Names(r: Reminder, i: nat, hours: nat, due: int) {
    r.appointment == i && r.hours == hours && r.due == due
  }

  predicate AlreadySent(rs: seq<Reminder>, i: nat, hours: nat, due: int) {
    exists k :: 0 <= k < |rs| && Names(rs[k], i, hours, due) && Done(rs[k])
  }

  // ------------------------------------------------------------------ the worker

  /** What the provider will answer for the reminder with this id. */
  type Delivery = map<nat, Status>

  function Outcome(channel: Option<Channel>, os: Delivery, id: nat): Status {
    if channel.None? then Skipped else if id in os then os[id] else Sent
  }

  predicate Upcoming(a: Appointment, now: int, only: Option<nat>) {
    && a.booked && a.start > now && !a.imported
    && (only.None? || only.value == a.garage)
  }

  function SettingsOf(settings: map<nat, Settings>, garage: nat): Settings {
    if garage in settings then settings[garage] else DEFAULTS
  }

  /** The worker gets as far as this appointment's timings. */
  predicate Considered(settings: map<nat, Settings>, a: Appointment, now: int, only: Option<nat>) {
    Upcoming(a, now, only) && SettingsOf(settings, a.garage).enabled && a.customer.Some?
  }

  function RemindOnce(rs: seq<Reminder>, st: Settings, a: Appointment, i: nat, t: Timing, now: int, os: Delivery)
    : seq<Reminder>
    requires a.customer.Some?
  {
    var due := DueAt(a, t.hours);
    if !t.enabled || due > now || AlreadySent(rs, i, t.hours, due) then rs
    else
      var channel := PickChannel(st.channels, a.customer.value, st.usable);
      rs + [Reminder(i, t.hours, due, channel, Outcome(channel, os, |rs|), now, a.start)]
  }

  function RemindAll(
    rs: seq<Reminder>, st: Settings, a: Appointment, i: nat, ts: seq<Timing>, now: int, os: Delivery): seq<Reminder>
    requires a.customer.Some?
  {
    if ts == [] then rs
    else RemindOnce(RemindAll(rs, st, a, i, ts[..|ts| - 1], now, os), st, a, i, ts[|ts| - 1], now, os)
  }

  function RemindFor(
    rs: seq<Reminder>, settings: map<nat, Settings>, a: Appointment, i: nat, now: int, only: Option<nat>, os: Delivery)
    : seq<Reminder>
  {
    if !Considered(settings, a, now, only) then rs
    else
      var st := SettingsOf(settings, a.garage);
      RemindAll(rs, st, a, i, st.timings, now, os)
  }

  function Worker(
    rs: seq<Reminder>, settings: map<nat, Settings>, appointments: seq<Appointment>, now: int, only: Option<nat>,
    os: Delivery): seq<Reminder>
  {
    if appointments == [] then rs
    else
      var n := |appointments| - 1;
      RemindFor(Worker(rs, settings, appointments[..n], now, only, os), settings, appointments[n], n, now, only, os)
  }

  // --------------------------------------------------------------------- runs

  datatype Event =
    | Added(a: Appointment)
    | Changed(i: nat, a: Appointment)
    | Configured(garage: nat, st: Settings)
    | Started(now: int, only: Option<nat>, os: Delivery)
    | Looked(k: nat)
    | Committed(k: nat)

  function Items(i: nat, ts: seq<Timing>): seq<(nat, Timing)> {
    seq(|ts|, n requires 0 <= n < |ts| => (i, ts[n]))
  }

  /** What a run has to look at, in order. */
  function WorkList(settings: map<nat, Settings>, appointments: seq<Appointment>, now: int, only: Option<nat>)
    : seq<(nat, Timing)>
  {
    if appointments == [] then []
    else
      var n := |appointments| - 1;
      var a := appointments[n];
      WorkList(settings, appointments[..n], now, only)
      + if Considered(settings, a, now, only) then Items(n, SettingsOf(settings, a.garage).timings) else []
  }

  /** One timing of one appointment, against all the run can see: the committed
      reminders and its own. */
  function Look(rs: seq<Reminder>, g: Going, item: (nat, Timing)): (r: seq<Reminder>)
    ensures rs <= r && |r| <= |rs| + 1
  {
    if item.0 >= |g.appointments| || g.appointments[item.0].customer.None? then rs
    else
      var a := g.appointments[item.0];
      RemindOnce(rs, SettingsOf(g.settings, a.garage), a, item.0, item.1, g.now, g.os)
  }

  predicate IsGoing(w: World, k: nat) {
    k < |w.runs| && w.runs[k].Some?
  }

  predicate LookReady(w: World, k: nat) {
    IsGoing(w, k) && w.runs[k].value.todo != []
  }

  predicate RunReady(w: World, k: nat) {
    IsGoing(w, k) && w.runs[k].value.todo == []
  }

  function AfterLook(rs: seq<Reminder>, g: Going): Going
    requires g.todo != []
  {
    g.(todo := g.todo[1..], rows := Look(rs + g.rows, g, g.todo[0])[|rs|..])
  }

  function LookOn(w: World, k: nat): World {
    if LookReady(w, k) then w.(runs := w.runs[k := Some(AfterLook(w.reminders, w.runs[k].value))]) else w
  }

  function Step(w: World, e: Event): World {
    match e
    case Added(a) => w.(appointments := w.appointments + [a])
    case Changed(i, a) => if i < |w.appointments| then w.(appointments := w.appointments[i := a]) else w
    case Configured(garage, st) => w.(settings := w.settings[garage := st])
    case Started(now, only, os) =>
      var todo := WorkList(w.settings, w.appointments, now, only);
      w.(runs := w.runs + [Some(Going(w.appointments, w.settings, now, os, todo, []))])
    case Looked(k) => LookOn(w, k)
    case Committed(k) =>
      if RunReady(w, k) then w.(reminders := w.reminders + w.runs[k].value.rows, runs := w.runs[k := None]) else w
  }

  function Run(w: World, es: seq<Event>): World {
    if es == [] then w else Step(Run(w, es[..|es| - 1]), es[|es| - 1])
  }

  // -------------------------------------------------------------- invariants

  ghost predicate OncePerDue(rs: seq<Reminder>) {
    forall j, k :: 0 <= j < k < |rs| && Done(rs[j]) && Done(rs[k])
      ==> !Names(rs[k], rs[j].appointment, rs[j].hours, rs[j].due)
  }

  /** Made when it was due and before the start it speaks of. */
  predicate Timely(r: Reminder) {
    r.due == r.startThen - 3600 * r.hours && r.due <= r.madeAt < r.startThen
  }

  ghost predicate Good(rs: seq<Reminder>) {
    OncePerDue(rs) && forall k :: 0 <= k < |rs| ==> Timely(rs[k])
  }

  lemma OnceKeepsGood(rs: seq<Reminder>, st: Settings, a: Appointment, i: nat, t: Timing, now: int, os: Delivery)
    requires a.customer.Some? && now < a.start && Good(rs)
    ensures Good(RemindOnce(rs, st, a, i, t, now, os)) && rs <= RemindOnce(rs, st, a, i, t, now, os)
  {
  }

  lemma {:induction false} AllKeepsGood(
    rs: seq<Reminder>, st: Settings, a: Appointment, i: nat, ts: seq<Timing>, now: int, os: Delivery)
    requires a.customer.Some? && now < a.start && Good(rs)
    ensures Good(RemindAll(rs, st, a, i, ts, now, os)) && rs <= RemindAll(rs, st, a, i, ts, now, os)
  {
    if ts != [] {
      AllKeepsGood(rs, st, a, i, ts[..|ts| - 1], now, os);
      OnceKeepsGood(RemindAll(rs, st, a, i, ts[..|ts| - 1], now, os), st, a, i, ts[|ts| - 1], now, os);
    }
  }

  lemma {:induction false} WorkerKeepsGood(
    rs: seq<Reminder>, settings: map<nat, Settings>, appointments: seq<Appointment>, now: int, only: Option<nat>,
    os: Delivery)
    requires Good(rs)
    ensures var rs' := Worker(rs, settings, appointments, now, only, os); Good(rs') && rs <= rs'
  {
    if appointments != [] {
      var n := |appointments| - 1;
      var a := appointments[n];
      WorkerKeepsGood(rs, settings, appointments[..n], now, only, os);
      if Considered(settings, a, now, only) {
        var st := SettingsOf(settings, a.garage);
        AllKeepsGood(Worker(rs, settings, appointments[..n], now, only, os), st, a, n, st.timings, now, os);
      }
    }
  }

  predicate SameDone(a: Reminder, b: Reminder) {
    Done(a) && Done(b) && Names(a, b.appointment, b.hours, b.due)
  }

  /** The run reminds, or writes off, what is by now reminded or written off. */
  ghost predicate Doubles(w: World, e: Event) {
    && e.Committed? && RunReady(w, e.k)
    && exists i, j :: 0 <= i < |w.runs[e.k].value.rows| && 0 <= j < |w.reminders|
         && SameDone(w.runs[e.k].value.rows[i], w.reminders[j])
  }

  /** Everything still to look at is an appointment ahead, with its customer. */
  ghost predicate TodoOk(g: Going) {
    forall item :: item in g.todo ==>
      item.0 < |g.appointments| && g.appointments[item.0].customer.Some? && g.now < g.appointments[item.0].start
  }

  ghost predicate RunsOk(w: World) {
    forall k :: 0 <= k < |w.runs| && w.runs[k].Some? ==> Good(w.runs[k].value.rows) && TodoOk(w.runs[k].value)
  }

  lemma {:induction false} WorkListOk(
    settings: map<nat, Settings>, appointments: seq<Appointment>, now: int, only: Option<nat>, item: (nat, Timing))
    requires item in WorkList(settings, appointments, now, only)
    ensures item.0 < |appointments| && appointments[item.0].customer.Some? && now < appointments[item.0].start
  {
    var n := |appointments| - 1;
    if item in WorkList(settings, appointments[..n], now, only) {
      WorkListOk(settings, appointments[..n], now, only, item);
    }
  }

  /** What a look adds: nothing, or a reminder that was due and not done yet. */
  lemma LookAdds(rs: seq<Reminder>, g: Going)
    requires g.todo != [] && TodoOk(g) && Good(g.rows)
    ensures var g' := AfterLook(rs, g);
      && Good(g'.rows) && g.rows <= g'.rows && |g'.rows| <= |g.rows| + 1
      && (|g'.rows| > |g.rows| ==>
            var r := g'.rows[|g.rows|]; !AlreadySent(rs, r.appointment, r.hours, r.due))
  {
    var g' := AfterLook(rs, g);
    assert g.todo[0] in g.todo;
    var all := Look(rs + g.rows, g, g.todo[0]);
    if |all| > |rs + g.rows| {
      var r := all[|rs + g.rows|];
      assert g'.rows == g.rows + [r];
      forall k | 0 <= k < |rs| ensures !(Names(rs[k], r.appointment, r.hours, r.due) && Done(rs[k])) {
        assert (rs + g.rows)[k] == rs[k];
      }
      forall k | 0 <= k < |g.rows| ensures !(Names(g.rows[k], r.appointment, r.hours, r.due) && Done(g.rows[k])) {
        assert (rs + g.rows)[|rs| + k] == g.rows[k];
      }
    } else {
      assert g'.rows == g.rows;
    }
  }

  lemma StepKeepsRuns(w: World, e: Event)
    requires RunsOk(w)
    ensures RunsOk(Step(w, e))
  {
    match e {
      case Started(now, only, os) =>
        forall item | item in WorkList(w.settings, w.appointments, now, only)
          ensures item.0 < |w.appointments| && w.appointments[item.0].customer.Some? && now < w.appointments[item.0].start
        {
          WorkListOk(w.settings, w.appointments, now, only, item);
        }
      case Looked(k) =>
        if LookReady(w, k) {
          LookAdds(w.reminders, w.runs[k].value);
          TodoShrinks(w.runs[k].value);
        }
      case _ =>
    }
  }

  lemma TodoShrinks(g: Going)
    requires g.todo != [] && TodoOk(g)
    ensures TodoOk(g.(todo := g.todo[1..]))
  {
    forall item | item in g.todo[1..] ensures item in g.todo {
    }
  }

  lemma CommitKeepsGoodExactlyWhen(w: World, k: nat)
    requires Good(w.reminders) && RunsOk(w) && RunReady(w, k)
    ensures Good(w.reminders + w.runs[k].value.rows) <==> !Doubles(w, Committed(k))
  {
    var rs, more := w.reminders, w.runs[k].value.rows;
    if Doubles(w, Committed(k)) {
      var i, j :| 0 <= i < |more| && 0 <= j < |rs| && SameDone(more[i], rs[j]);
      assert (rs + more)[j] == rs[j] && (rs + more)[|rs| + i] == more[i];
    } else {
      forall j, i | 0 <= j < i < |rs + more| && Done((rs + more)[j]) && Done((rs + more)[i])
        ensures !Names((rs + more)[i], (rs + more)[j].appointment, (rs + more)[j].hours, (rs + more)[j].due)
      {
        if j < |rs| <= i {
          assert !SameDone(more[i - |rs|], rs[j]);
        }
      }
    }
  }

  ghost predicate GoodAt(w: World, es: seq<Event>, k: nat)
    requires k <= |es|
  {
    Good(Run(w, es[..k]).reminders)
  }

  ghost predicate DoublesAt(w: World, es: seq<Event>, k: nat)
    requires k < |es|
  {
    Doubles(Run(w, es[..k]), es[k])
  }

  lemma RunNext(w: World, es: seq<Event>, k: nat)
    requires k < |es|
    ensures Run(w, es[..k + 1]) == Step(Run(w, es[..k]), es[k])
  {
    assert es[..k + 1][..k] == es[..k];
  }

  lemma NextGoodExactlyWhen(w: World, es: seq<Event>, k: nat)
    requires k < |es| && GoodAt(w, es, k) && RunsOk(Run(w, es[..k]))
    ensures GoodAt(w, es, k + 1) <==> !DoublesAt(w, es, k)
    ensures RunsOk(Run(w, es[..k + 1]))
  {
    var before, e := Run(w, es[..k]), es[k];
    RunNext(w, es, k);
    StepKeepsRuns(before, e);
    if e.Committed? && RunReady(before, e.k) {
      CommitKeepsGoodExactlyWhen(before, e.k);
    }
  }

  lemma {:induction false} GoodUntil(w: World, es: seq<Event>, k: nat)
    requires Good(w.reminders) && RunsOk(w) && k <= |es| && forall j :: 0 <= j < k ==> !DoublesAt(w, es, j)
    ensures GoodAt(w, es, k) && RunsOk(Run(w, es[..k]))
  {
    if k > 0 {
      GoodUntil(w, es, k - 1);
      NextGoodExactlyWhen(w, es, k - 1);
    }
  }

  lemma FirstDouble(w: World, es: seq<Event>, n: nat) returns (k: nat)
    requires n < |es| && DoublesAt(w, es, n)
    ensures k <= n && DoublesAt(w, es, k) && forall j :: 0 <= j < k ==> !DoublesAt(w, es, j)
  {
    if j: nat :| j < n && DoublesAt(w, es, j) {
      k := FirstDouble(w, es, j);
    } else {
      k := n;
    }
  }

  // ---------------------------------------------------------- main theorems

  /** Over any reschedules, setting changes and worker runs, a due reminder is
      sent or written off at most once, and every reminder was made at a moment
      when it was due and the start it announced was still ahead, exactly unless
      a run commits what is reminded already. */
  lemma RemindedOnceAndInTimeExactlyWhen(w: World, es: seq<Event>)
    requires Good(w.reminders) && RunsOk(w)
    ensures (forall k :: 0 <= k <= |es| ==> GoodAt(w, es, k)) <==> (forall k :: 0 <= k < |es| ==> !DoublesAt(w, es, k))
  {
    if n :| 0 <= n < |es| && DoublesAt(w, es, n) {
      var k := FirstDouble(w, es, n);
      GoodUntil(w, es, k);
      NextGoodExactlyWhen(w, es, k);
      assert !GoodAt(w, es, k + 1);
    } else {
      forall k | 0 <= k <= |es| ensures GoodAt(w, es, k) {
        GoodUntil(w, es, k);
      }
    }
  }

  // ------------------------------------------------------- what it takes

  function RemindersAt(w: World, es: seq<Event>, k: nat): seq<Reminder>
    requires k <= |es|
  {
    Run(w, es[..k]).reminders
  }

  /** The rows of the k-th run before event n; none when it is not going. */
  function RowsAt(w: World, es: seq<Event>, n: nat, k: nat): seq<Reminder>
    requires n <= |es|
  {
    if IsGoing(Run(w, es[..n]), k) then Run(w, es[..n]).runs[k].value.rows else []
  }

  lemma {:induction false} RunsOkAt(w: World, es: seq<Event>, n: nat)
    requires RunsOk(w) && n <= |es|
    ensures RunsOk(Run(w, es[..n]))
  {
    if n > 0 {
      RunsOkAt(w, es, n - 1);
      StepKeepsRuns(Run(w, es[..n - 1]), es[n - 1]);
      RunNext(w, es, n - 1);
    }
  }

  /** An event adds rows to a run only by a look, and rows to the table only by a
      commit. */
  lemma NextRows(w: World, es: seq<Event>, n: nat, k: nat)
    requires n < |es| && RunsOk(Run(w, es[..n]))
    ensures RemindersAt(w, es, n) <= RemindersAt(w, es, n + 1)
    ensures es[n].Committed? && RunReady(Run(w, es[..n]), es[n].k) ==>
      RemindersAt(w, es, n + 1) == RemindersAt(w, es, n) + RowsAt(w, es, n, es[n].k)
    ensures !(es[n].Committed? && RunReady(Run(w, es[..n]), es[n].k)) ==> RemindersAt(w, es, n + 1) == RemindersAt(w, es, n)
    ensures var before, after := RowsAt(w, es, n, k), RowsAt(w, es, n + 1, k);
      || after == [] || after == before
      || (es[n] == Looked(k) && before <= after && |after| == |before| + 1
          && !AlreadySent(RemindersAt(w, es, n), after[|before|].appointment, after[|before|].hours, after[|before|].due))
  {
    var before := Run(w, es[..n]);
    RunNext(w, es, n);
    if es[n] == Looked(k) && LookReady(before, k) {
      LookAdds(before.reminders, before.runs[k].value);
    }
  }

  /** A run's row came from one of its looks, when it was not done in the table. */
  lemma {:induction false} RowWasLookedFor(w: World, es: seq<Event>, n: nat, k: nat, x: nat) returns (l: nat)
    requires w.runs == [] && n <= |es| && x < |RowsAt(w, es, n, k)|
    ensures l < n && es[l] == Looked(k)
    ensures var r := RowsAt(w, es, n, k)[x]; !AlreadySent(RemindersAt(w, es, l), r.appointment, r.hours, r.due)
    decreases n
  {
    RunsOkAt(w, es, n - 1);
    NextRows(w, es, n - 1, k);
    if x < |RowsAt(w, es, n - 1, k)| {
      l := RowWasLookedFor(w, es, n - 1, k, x);
    } else {
      l := n - 1;
    }
  }

  /** A row of the table came from a commit. */
  lemma {:induction false} RowWasCommitted(w: World, es: seq<Event>, l: nat, n: nat, j: nat) returns (m: nat)
    requires RunsOk(w) && l <= n <= |es| && |RemindersAt(w, es, l)| <= j < |RemindersAt(w, es, n)|
    ensures l <= m < n && es[m].Committed? && RunReady(Run(w, es[..m]), es[m].k)
    ensures RemindersAt(w, es, n)[j] in RowsAt(w, es, m, es[m].k)
    decreases n
  {
    RunsOkAt(w, es, n - 1);
    NextRows(w, es, n - 1, 0);
    if j < |RemindersAt(w, es, n - 1)| {
      m := RowWasCommitted(w, es, l, n - 1, j);
    } else {
      m := n - 1;
    }
  }

  lemma {:induction false} TableGrows(w: World, es: seq<Event>, l: nat, n: nat)
    requires RunsOk(w) && l <= n <= |es|
    ensures RemindersAt(w, es, l) <= RemindersAt(w, es, n)
    decreases n
  {
    if l < n {
      TableGrows(w, es, l, n - 1);
      RunsOkAt(w, es, n - 1);
      NextRows(w, es, n - 1, 0);
    }
  }

  /** A run only doubles a reminder that another run committed after this one had
      looked for it and before it commits. */
  lemma DoublingNeedsOverlap(w: World, es: seq<Event>, n: nat) returns (l: nat, m: nat, x: nat, y: nat)
    requires w.runs == [] && n < |es| && DoublesAt(w, es, n)
    ensures l < m < n && es[l] == Looked(es[n].k)
    ensures es[m].Committed? && RunReady(Run(w, es[..m]), es[m].k)
    ensures x < |RowsAt(w, es, n, es[n].k)| && y < |RowsAt(w, es, m, es[m].k)|
    ensures SameDone(RowsAt(w, es, n, es[n].k)[x], RowsAt(w, es, m, es[m].k)[y])
    ensures var r := RowsAt(w, es, n, es[n].k)[x]; !AlreadySent(RemindersAt(w, es, l), r.appointment, r.hours, r.due)
  {
    var mine, table := RowsAt(w, es, n, es[n].k), RemindersAt(w, es, n);
    var i, j :| 0 <= i < |mine| && 0 <= j < |table| && SameDone(mine[i], table[j]);
    x := i;
    l := RowWasLookedFor(w, es, n, es[n].k, x);
    TableGrows(w, es, l, n);
    m := RowWasCommitted(w, es, l, n, j);
    y :| 0 <= y < |RowsAt(w, es, m, es[m].k)| && RowsAt(w, es, m, es[m].k)[y] == table[j];
  }

  // -------------------------------------------------- a run nothing interrupts

  function LookAll(rs: seq<Reminder>, g: Going, todo: seq<(nat, Timing)>): seq<Reminder> {
    if todo == [] then rs else Look(LookAll(rs, g, todo[..|todo| - 1]), g, todo[|todo| - 1])
  }

  lemma {:induction false} LookAllConcat(rs: seq<Reminder>, g: Going, a: seq<(nat, Timing)>, b: seq<(nat, Timing)>)
    ensures LookAll(rs, g, a + b) == LookAll(LookAll(rs, g, a), g, b)
  {
    if b == [] {
      assert a + b == a;
    } else {
      assert (a + b)[..|a + b| - 1] == a + b[..|b| - 1];
      LookAllConcat(rs, g, a, b[..|b| - 1]);
    }
  }

  lemma {:induction false} ItemsAreTimings(rs: seq<Reminder>, g: Going, i: nat, ts: seq<Timing>)
    requires i < |g.appointments| && g.appointments[i].customer.Some?
    ensures var a := g.appointments[i];
      LookAll(rs, g, Items(i, ts)) == RemindAll(rs, SettingsOf(g.settings, a.garage), a, i, ts, g.now, g.os)
  {
    if ts != [] {
      assert Items(i, ts)[..|ts| - 1] == Items(i, ts[..|ts| - 1]);
      ItemsAreTimings(rs, g, i, ts[..|ts| - 1]);
    }
  }

  /** Going down the work list is the worker's double loop. */
  lemma {:induction false} WorkListIsWorker(
    rs: seq<Reminder>, g: Going, appointments: seq<Appointment>, only: Option<nat>)
    requires appointments <= g.appointments
    ensures LookAll(rs, g, WorkList(g.settings, appointments, g.now, only))
      == Worker(rs, g.settings, appointments, g.now, only, g.os)
  {
    if appointments != [] {
      var n := |appointments| - 1;
      var front := WorkList(g.settings, appointments[..n], g.now, only);
      WorkListIsWorker(rs, g, appointments[..n], only);
      if Considered(g.settings, appointments[n], g.now, only) {
        var ts := SettingsOf(g.settings, appointments[n].garage).timings;
        LookAllConcat(rs, g, front, Items(n, ts));
        ItemsAreTimings(LookAll(rs, g, front), g, n, ts);
      } else {
        assert front + [] == front;
      }
    }
  }

  /** The world after n looks of the k-th run. */
  function AfterLooks(w: World, k: nat, n: nat): World {
    if n == 0 then w else LookOn(AfterLooks(w, k, n - 1), k)
  }

  lemma {:induction false} LookAllGrows(rs: seq<Reminder>, g: Going, todo: seq<(nat, Timing)>)
    ensures rs <= LookAll(rs, g, todo)
  {
    if todo != [] {
      LookAllGrows(rs, g, todo[..|todo| - 1]);
    }
  }

  /** A fresh run after its first n looks at an unchanging table. */
  function AfterN(rs: seq<Reminder>, g: Going, n: nat): Going
    requires n <= |g.todo|
  {
    LookAllGrows(rs, g, g.todo[..n]);
    g.(todo := g.todo[n..], rows := LookAll(rs, g, g.todo[..n])[|rs|..])
  }

  lemma OneLookMore(rs: seq<Reminder>, g: Going, n: nat)
    requires n < |g.todo|
    ensures AfterLook(rs, AfterN(rs, g, n)) == AfterN(rs, g, n + 1)
  {
    var g' := AfterN(rs, g, n);
    LookAllGrows(rs, g, g.todo[..n]);
    assert g'.todo[0] == g.todo[n] && g'.todo[1..] == g.todo[n + 1..];
    assert rs + g'.rows == LookAll(rs, g, g.todo[..n]);
    assert g.todo[..n + 1][..n] == g.todo[..n];
    assert Look(rs + g'.rows, g', g.todo[n]) == Look(rs + g'.rows, g, g.todo[n]);
  }

  lemma NoLookYet(rs: seq<Reminder>, g: Going)
    requires g.rows == []
    ensures AfterN(rs, g, 0) == g
  {
    assert g.todo[..0] == [] && g.todo[0..] == g.todo && rs[|rs|..] == [];
  }

  lemma LookedOnce(w: World, k: nat, g: Going)
    requires k < |w.runs| && g.todo != []
    ensures LookOn(w.(runs := w.runs[k := Some(g)]), k) == w.(runs := w.runs[k := Some(AfterLook(w.reminders, g))])
  {
    assert LookReady(w.(runs := w.runs[k := Some(g)]), k);
    assert w.runs[k := Some(g)][k := Some(AfterLook(w.reminders, g))] == w.runs[k := Some(AfterLook(w.reminders, g))];
  }

  function WithRun(w: World, k: nat, g: Going): World
    requires k < |w.runs|
  {
    w.(runs := w.runs[k := Some(g)])
  }

  lemma OneMoreLook(w: World, k: nat, g: Going, n: nat)
    requires k < |w.runs| && n < |g.todo|
    ensures LookOn(WithRun(w, k, AfterN(w.reminders, g, n)), k) == WithRun(w, k, AfterN(w.reminders, g, n + 1))
  {
    LookedOnce(w, k, AfterN(w.reminders, g, n));
    OneLookMore(w.reminders, g, n);
  }

  lemma NextLook(w: World, k: nat, n: nat, before: World)
    requires n > 0 && AfterLooks(w, k, n - 1) == before
    ensures AfterLooks(w, k, n) == LookOn(before, k)
  {
  }

  lemma {:induction false} LooksGoDown(w: World, k: nat, g: Going, n: nat)
    requires k < |w.runs| && n <= |g.todo| && g.rows == []
    ensures AfterLooks(WithRun(w, k, g), k, n) == WithRun(w, k, AfterN(w.reminders, g, n))
  {
    if n == 0 {
      NoLookYet(w.reminders, g);
    } else {
      LooksGoDown(w, k, g, n - 1);
      OneMoreLook(w, k, g, n - 1);
      NextLook(WithRun(w, k, g), k, n, WithRun(w, k, AfterN(w.reminders, g, n - 1)));
    }
  }

  /** A run that looks and commits with no other commit in between is the
      worker's loop. */
  lemma UndisturbedRun(w: World, now: int, only: Option<nat>, os: Delivery)
    ensures var k := |w.runs|; var todo := WorkList(w.settings, w.appointments, now, only);
      var looked := AfterLooks(Step(w, Started(now, only, os)), k, |todo|);
      Step(looked, Committed(k)).reminders == Worker(w.reminders, w.settings, w.appointments, now, only, os)
  {
    var k, todo := |w.runs|, WorkList(w.settings, w.appointments, now, only);
    var started := Step(w, Started(now, only, os));
    var g := started.runs[k].value;
    LooksGoDown(started, k, g, |todo|);
    assert WithRun(started, k, g) == started;
    LookAllGrows(w.reminders, g, todo);
    assert todo[..|todo|] == todo;
    assert RunReady(AfterLooks(started, k, |todo|), k);
    WorkListIsWorker(w.reminders, g, w.appointments, only);
  }

  lemma SameRowsDouble(w: World, i: nat)
    requires RunReady(w, 0) && RunReady(w, 1) && w.runs[0].value.rows == w.runs[1].value.rows
    requires i < |w.runs[0].value.rows| && Done(w.runs[0].value.rows[i])
    ensures Doubles(Step(w, Committed(0)), Committed(1))
  {
    var rows, first := w.runs[0].value.rows, Step(w, Committed(0));
    assert RunReady(first, 1) && first.runs[1].value.rows == rows;
    assert SameDone(rows[i], first.reminders[|w.reminders| + i]);
  }

  /** Two runs start, both look at everything, and both commit: whatever the
      first has reminded of, the second reminds of again. */
  lemma OverlappingRunsRemindTwice(w: World, now: int, only: Option<nat>, os: Delivery, i: nat)
    requires w.runs == []
    requires var rs := Worker(w.reminders, w.settings, w.appointments, now, only, os);
      |w.reminders| <= i < |rs| && Done(rs[i])
    ensures var n := |WorkList(w.settings, w.appointments, now, only)|;
      var started := Step(Step(w, Started(now, only, os)), Started(now, only, os));
      Doubles(Step(AfterLooks(AfterLooks(started, 0, n), 1, n), Committed(0)), Committed(1))
  {
    var todo := WorkList(w.settings, w.appointments, now, only);
    var g := Going(w.appointments, w.settings, now, os, todo, []);
    var started := Step(Step(w, Started(now, only, os)), Started(now, only, os));
    assert started == w.(runs := [Some(g), Some(g)]) && WithRun(started, 0, g) == started;
    LooksGoDown(started, 0, g, |todo|);
    var done := AfterN(w.reminders, g, |todo|);
    var half := w.(runs := [Some(done), Some(g)]);
    assert AfterLooks(started, 0, |todo|) == half && WithRun(half, 1, g) == half;
    LooksGoDown(half, 1, g, |todo|);
    var both := AfterLooks(half, 1, |todo|);
    assert both == w.(runs := [Some(done), Some(done)]);
    assert todo[..|todo|] == todo;
    LookAllGrows(w.reminders, g, todo);
    WorkListIsWorker(w.reminders, g, w.appointments, only);
    SameRowsDouble(both, i - |w.reminders|);
  }

  /** The key was tried: a reminder row with it exists. */
  ghost predicate Tried(rs: seq<Reminder>, i: nat, hours: nat, due: int) {
    exists k :: 0 <= k < |rs| && Names(rs[k], i, hours, due)
  }

  lemma TriedStays(rs: seq<Reminder>, rs': seq<Reminder>, i: nat, hours: nat, due: int)
    requires rs <= rs' && Tried(rs, i, hours, due)
    ensures Tried(rs', i, hours, due)
  {
    var k :| 0 <= k < |rs| && Names(rs[k], i, hours, due);
    assert Names(rs'[k], i, hours, due);
  }

  lemma OnceTries(rs: seq<Reminder>, st: Settings, a: Appointment, i: nat, t: Timing, now: int, os: Delivery)
    requires a.customer.Some? && t.enabled && DueAt(a, t.hours) <= now
    ensures Tried(RemindOnce(rs, st, a, i, t, now, os), i, t.hours, DueAt(a, t.hours))
  {
    var rs' := RemindOnce(rs, st, a, i, t, now, os);
    if |rs'| > |rs| {
      assert Names(rs'[|rs|], i, t.hours, DueAt(a, t.hours));
    }
  }

  lemma OnceGrows(rs: seq<Reminder>, st: Settings, a: Appointment, i: nat, t: Timing, now: int, os: Delivery)
    requires a.customer.Some?
    ensures rs <= RemindOnce(rs, st, a, i, t, now, os)
  {
  }

  lemma {:induction false} AllTries(
    rs: seq<Reminder>, st: Settings, a: Appointment, i: nat, ts: seq<Timing>, now: int, os: Delivery, n: nat)
    requires a.customer.Some? && n < |ts| && ts[n].enabled && DueAt(a, ts[n].hours) <= now
    ensures Tried(RemindAll(rs, st, a, i, ts, now, os), i, ts[n].hours, DueAt(a, ts[n].hours))
  {
    var before := RemindAll(rs, st, a, i, ts[..|ts| - 1], now, os);
    if n == |ts| - 1 {
      OnceTries(before, st, a, i, ts[n], now, os);
    } else {
      AllTries(rs, st, a, i, ts[..|ts| - 1], now, os, n);
      OnceGrows(before, st, a, i, ts[|ts| - 1], now, os);
      TriedStays(before, RemindAll(rs, st, a, i, ts, now, os), i, ts[n].hours, DueAt(a, ts[n].hours));
    }
  }

  lemma {:induction false} AllGrows(
    rs: seq<Reminder>, st: Settings, a: Appointment, i: nat, ts: seq<Timing>, now: int, os: Delivery)
    requires a.customer.Some?
    ensures rs <= RemindAll(rs, st, a, i, ts, now, os)
  {
    if ts != [] {
      AllGrows(rs, st, a, i, ts[..|ts| - 1], now, os);
    }
  }

  lemma ForGrows(
    rs: seq<Reminder>, settings: map<nat, Settings>, a: Appointment, i: nat, now: int, only: Option<nat>, os: Delivery)
    ensures rs <= RemindFor(rs, settings, a, i, now, only, os)
  {
    if Considered(settings, a, now, only) {
      AllGrows(rs, SettingsOf(settings, a.garage), a, i, SettingsOf(settings, a.garage).timings, now, os);
    }
  }

  /** The worker owes a reminder for this appointment and lead time: a booking of
      the business's own, still ahead, with a customer, and the lead time on and
      reached. */
  ghost predicate Owed(
    settings: map<nat, Settings>, appointments: seq<Appointment>, now: int, only: Option<nat>, i: nat, hours: nat)
  {
    && i < |appointments|
    && var a := appointments[i];
    && a.booked && !a.imported && a.start - 3600 * hours <= now < a.start && a.customer.Some?
    && (only.None? || only == Some(a.garage))
    && a.garage in settings && settings[a.garage].enabled && Timing(hours, true) in settings[a.garage].timings
  }

  /** Nothing that is owed is passed over. */
  lemma {:induction false} EveryDueReminderIsTried(
    rs: seq<Reminder>, settings: map<nat, Settings>, appointments: seq<Appointment>, now: int, only: Option<nat>,
    os: Delivery, i: nat, hours: nat)
    requires Owed(settings, appointments, now, only, i, hours)
    ensures Tried(Worker(rs, settings, appointments, now, only, os), i, hours, DueAt(appointments[i], hours))
  {
    var n := |appointments| - 1;
    var before := Worker(rs, settings, appointments[..n], now, only, os);
    if i == n {
      var st := SettingsOf(settings, appointments[i].garage);
      var k :| 0 <= k < |st.timings| && st.timings[k] == Timing(hours, true);
      AllTries(before, st, appointments[i], i, st.timings, now, os, k);
    } else {
      EveryDueReminderIsTried(rs, settings, appointments[..n], now, only, os, i, hours);
      ForGrows(before, settings, appointments[n], n, now, only, os);
      TriedStays(before, Worker(rs, settings, appointments, now, only, os), i, hours, DueAt(appointments[i], hours));
    }
  }

  /** A reminder the worker adds was owed, and had not been sent or written off. */
  ghost predicate Fresh(
    rs: seq<Reminder>, settings: map<nat, Settings>, appointments: seq<Appointment>, now: int, only: Option<nat>,
    r: Reminder)
  {
    && Owed(settings, appointments, now, only, r.appointment, r.hours)
    && r.due == DueAt(appointments[r.appointment], r.hours)
    && !AlreadySent(rs, r.appointment, r.hours, r.due)
  }

  lemma SentStays(rs: seq<Reminder>, rs': seq<Reminder>, i: nat, hours: nat, due: int)
    requires rs <= rs' && AlreadySent(rs, i, hours, due)
    ensures AlreadySent(rs', i, hours, due)
  {
    var k :| 0 <= k < |rs| && Names(rs[k], i, hours, due) && Done(rs[k]);
    assert Names(rs'[k], i, hours, due) && Done(rs'[k]);
  }

  /** What `RemindAll` adds names one of the timings and was not done before. */
  lemma {:induction false} AllAdds(
    rs: seq<Reminder>, st: Settings, a: Appointment, i: nat, ts: seq<Timing>, now: int, os: Delivery, k: nat)
    requires a.customer.Some? && |rs| <= k < |RemindAll(rs, st, a, i, ts, now, os)|
    ensures var r := RemindAll(rs, st, a, i, ts, now, os)[k];
      && r.appointment == i && Timing(r.hours, true) in ts && r.due == DueAt(a, r.hours) <= now
      && !AlreadySent(rs, i, r.hours, r.due)
  {
    AllGrows(rs, st, a, i, ts, now, os);
    var front := ts[..|ts| - 1];
    var before := RemindAll(rs, st, a, i, front, now, os);
    AllGrows(rs, st, a, i, front, now, os);
    if k < |before| {
      AllAdds(rs, st, a, i, front, now, os, k);
    } else {
      var t := ts[|ts| - 1];
      if AlreadySent(rs, i, t.hours, DueAt(a, t.hours)) {
        SentStays(rs, before, i, t.hours, DueAt(a, t.hours));
      }
      assert Timing(t.hours, true) == t;
    }
  }

  lemma {:induction false} WorkerGrows(
    rs: seq<Reminder>, settings: map<nat, Settings>, appointments: seq<Appointment>, now: int, only: Option<nat>,
    os: Delivery)
    ensures rs <= Worker(rs, settings, appointments, now, only, os)
  {
    if appointments != [] {
      var n := |appointments| - 1;
      WorkerGrows(rs, settings, appointments[..n], now, only, os);
      ForGrows(Worker(rs, settings, appointments[..n], now, only, os), settings, appointments[n], n, now, only, os);
    }
  }

  lemma {:induction false} WorkerAddsFresh(
    rs: seq<Reminder>, settings: map<nat, Settings>, appointments: seq<Appointment>, now: int, only: Option<nat>,
    os: Delivery, k: nat)
    requires |rs| <= k < |Worker(rs, settings, appointments, now, only, os)|
    ensures Fresh(rs, settings, appointments, now, only, Worker(rs, settings, appointments, now, only, os)[k])
  {
    var n := |appointments| - 1;
    var before := Worker(rs, settings, appointments[..n], now, only, os);
    WorkerGrows(rs, settings, appointments[..n], now, only, os);
    if k < |before| {
      WorkerAddsFresh(rs, settings, appointments[..n], now, only, os, k);
      ForGrows(before, settings, appointments[n], n, now, only, os);
    } else {
      var st := SettingsOf(settings, appointments[n].garage);
      AllAdds(before, st, appointments[n], n, st.timings, now, os, k);
      var r := Worker(rs, settings, appointments, now, only, os)[k];
      if AlreadySent(rs, n, r.hours, r.due) {
        SentStays(rs, before, n, r.hours, r.due);
      }
    }
  }

  /** How a reminder goes out: by the owner's first channel that reaches the
      customer, or written off when none does, with the provider's answer. */
  ghost predicate SentAsSet(st: Settings, a: Appointment, r: Reminder, id: nat, now: int, os: Delivery)
    requires a.customer.Some?
  {
    && (if exists c :: c in st.channels && Reaches(c, a.customer.value, st.usable)
        then exists i: nat :: FirstWorking(st.channels, i, a.customer.value, st.usable) && r.channel == Some(st.channels[i])
        else r.channel.None?)
    && r.status == (if r.channel.None? then Skipped else if id in os then os[id] else Sent)
    && r.madeAt == now && r.startThen == a.start
  }

  lemma OnceSends(rs: seq<Reminder>, st: Settings, a: Appointment, i: nat, t: Timing, now: int, os: Delivery)
    requires a.customer.Some? && |RemindOnce(rs, st, a, i, t, now, os)| > |rs|
    ensures SentAsSet(st, a, RemindOnce(rs, st, a, i, t, now, os)[|rs|], |rs|, now, os)
  {
    var c := PickChannel(st.channels, a.customer.value, st.usable);
    if c.Some? {
      var j: nat :| FirstWorking(st.channels, j, a.customer.value, st.usable) && st.channels[j] == c.value;
      assert st.channels[j] in st.channels;
    }
  }

  lemma {:induction false} AllSend(
    rs: seq<Reminder>, st: Settings, a: Appointment, i: nat, ts: seq<Timing>, now: int, os: Delivery, k: nat)
    requires a.customer.Some? && |rs| <= k < |RemindAll(rs, st, a, i, ts, now, os)|
    ensures var r := RemindAll(rs, st, a, i, ts, now, os)[k]; r.appointment == i && SentAsSet(st, a, r, k, now, os)
  {
    var before := RemindAll(rs, st, a, i, ts[..|ts| - 1], now, os);
    if k < |before| {
      AllSend(rs, st, a, i, ts[..|ts| - 1], now, os, k);
    } else {
      OnceSends(before, st, a, i, ts[|ts| - 1], now, os);
    }
  }

  /** Every reminder a worker makes goes out as its business has set it. */
  lemma {:induction false} WorkerSendsAsSet(
    rs: seq<Reminder>, settings: map<nat, Settings>, appointments: seq<Appointment>, now: int, only: Option<nat>,
    os: Delivery, k: nat)
    requires |rs| <= k < |Worker(rs, settings, appointments, now, only, os)|
    ensures var r := Worker(rs, settings, appointments, now, only, os)[k];
      && r.appointment < |appointments|
      && var a := appointments[r.appointment];
      a.customer.Some? && a.garage in settings && SentAsSet(settings[a.garage], a, r, k, now, os)
  {
    var n := |appointments| - 1;
    var before := Worker(rs, settings, appointments[..n], now, only, os);
    if k < |before| {
      WorkerSendsAsSet(rs, settings, appointments[..n], now, only, os, k);
      ForGrows(before, settings, appointments[n], n, now, only, os);
    } else {
      var st := SettingsOf(settings, appointments[n].garage);
      AllSend(before, st, appointments[n], n, st.timings, now, os, k);
    }
  }

  /** The same for each look of a run that others interrupt. */
  lemma LookSendsAsSet(rs: seq<Reminder>, g: Going)
    requires g.todo != [] && |AfterLook(rs, g).rows| > |g.rows|
    ensures var r := AfterLook(rs, g).rows[|g.rows|];
      && r.appointment == g.todo[0].0 < |g.appointments|
      && var a := g.appointments[r.appointment];
      && a.customer.Some?
      && SentAsSet(SettingsOf(g.settings, a.garage), a, r, |rs| + |g.rows|, g.now, g.os)
  {
    var item := g.todo[0];
    var a := g.appointments[item.0];
    var all := Look(rs + g.rows, g, item);
    assert AfterLook(rs, g).rows[|g.rows|] == all[|rs + g.rows|];
    OnceSends(rs + g.rows, SettingsOf(g.settings, a.garage), a, item.0, item.1, g.now, g.os);
  }

  /** Running the worker again at once only tries again what has just failed:
      each new reminder repeats one whose every attempt so far failed, and when
      nothing failed nothing is made. */
  lemma RerunOnlyRetriesFailures(
    rs: seq<Reminder>, settings: map<nat, Settings>, appointments: seq<Appointment>, now: int, only: Option<nat>,
    os: Delivery, os': Delivery, k: nat)
    requires var once := Worker(rs, settings, appointments, now, only, os);
      |once| <= k < |Worker(once, settings, appointments, now, only, os')|
    ensures var once := Worker(rs, settings, appointments, now, only, os);
      var r := Worker(once, settings, appointments, now, only, os')[k];
      && Tried(once, r.appointment, r.hours, r.due)
      && forall j :: 0 <= j < |once| && Names(once[j], r.appointment, r.hours, r.due) ==> once[j].status == Failed
  {
    var once := Worker(rs, settings, appointments, now, only, os);
    var r := Worker(once, settings, appointments, now, only, os')[k];
    WorkerAddsFresh(once, settings, appointments, now, only, os', k);
    EveryDueReminderIsTried(rs, settings, appointments, now, only, os, r.appointment, r.hours);
  }

  // ---------------------------------------------------------------- the worker

  class ReminderWorker {
    var appointments: seq<Appointment>
    var settings: map<nat, Settings>
    var reminders: seq<Reminder>

    constructor (appointments: seq<Appointment>, settings: map<nat, Settings>)
      ensures this.appointments == appointments && this.settings == settings && reminders == []
    {
      this.appointments, this.settings, this.reminders := appointments, settings, [];
    }

    method RecordAndSend(i: nat, hours: nat, due: int, channel: Option<Channel>, now: int, os: Delivery)
      requires i < |appointments|
      modifies this`reminders
      ensures reminders == old(reminders)
        + [Reminder(i, hours, due, channel, Outcome(channel, os, |old(reminders)|), now, appointments[i].start)]
    {
      var status := if channel.None? then Skipped else if |reminders| in os then os[|reminders|] else Sent;
      reminders := reminders + [Reminder(i, hours, due, channel, status, now, appointments[i].start)];
    }

    method SendFor(i: nat, st: Settings, now: int, os: Delivery)
      requires i < |appointments| && appointments[i].customer.Some?
      modifies this`reminders
      ensures reminders == RemindAll(old(reminders), st, appointments[i], i, st.timings, now, os)
    {
      var a := appointments[i];
      for k := 0 to |st.timings|
        invariant reminders == RemindAll(old(reminders), st, a, i, st.timings[..k], now, os)
      {
        assert st.timings[..k + 1][..k] == st.timings[..k];
        var t := st.timings[k];
        if t.enabled {
          var due := DueAt(a, t.hours);
          if due <= now && !AlreadySent(reminders, i, t.hours, due) {
            var channel := PickChannel(st.channels, a.customer.value, st.usable);
            RecordAndSend(i, t.hours, due, channel, now, os);
          }
        }
      }
      assert st.timings[..|st.timings|] == st.timings;
    }

    method SendDue(now: int, only: Option<nat>, os: Delivery)
      modifies this`reminders
      ensures reminders == Worker(old(reminders), settings, appointments, now, only, os)
    {
      for i := 0 to |appointments|
        invariant reminders == Worker(old(reminders), settings, appointments[..i], now, only, os)
      {
        assert appointments[..i + 1][..i] == appointments[..i];
        var a := appointments[i];
        if Upcoming(a, now, only) {
          var st := SettingsOf(settings, a.garage);
          if st.enabled && a.customer.Some? {
            SendFor(i, st, now, os);
          }
        }
      }
      assert appointments[..|appointments|] == appointments;
    }
  }
}
