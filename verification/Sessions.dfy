/** Conversation sessions: which session a message belongs to, what one turn
    does to it, staff takeover and resume, and the expiry sweep. Rows are in
    creation order; a key is one customer's line to one business. Messages on
    one line are handled one at a time; staff and the sweep act at any moment. */
module Sessions {
  import opened Wrappers

  datatype Channel = Voice | WhatsApp

  datatype Status = Active | Completed | Expired | Handoff

  datatype Key = Key(garage: nat, channel: Channel, phone: string)

  /** `slots` and `unresolved` together are the session's context. */
  datatype Session = Session(
    key: Key, customer: Option<nat>, status: Status, intent: Option<string>, step: Option<string>,
    slots: map<string, Option<string>>, unresolved: nat, reason: Option<string>,
    lastMessage: string, lastActivity: int)

  function TimeoutMinutes(channel: Channel): int {
    if channel == Voice then 30 else 12 * 60
  }

  predicate Live(s: Session) {
    s.status == Active || s.status == Handoff
  }

  /** Instants are in seconds. */
  predicate IsStale(s: Session, now: int) {
    var idleTooLong := now - s.lastActivity > 60 * TimeoutMinutes(s.key.channel);
    if s.status == Handoff then s.key.channel == Voice && idleTooLong else idleTooLong
  }

  /** The newest session of a key, whatever its status. */
  function Newest(t: seq<Session>, key: Key): (r: Option<nat>)
    ensures r.Some? ==> r.value < |t| && t[r.value].key == key
  {
    if t == [] then None
    else if t[|t| - 1].key == key then Some(|t| - 1)
    else Newest(t[..|t| - 1], key)
  }

  /** The newest one still active or with a human. */
  function NewestLive(t: seq<Session>, key: Key): (r: Option<nat>)
    ensures r.Some? ==> r.value < |t| && t[r.value].key == key && Live(t[r.value])
  {
    if t == [] then None
    else if t[|t| - 1].key == key && Live(t[|t| - 1]) then Some(|t| - 1)
    else NewestLive(t[..|t| - 1], key)
  }

  function NewSession(key: Key, customer: Option<nat>, now: int): Session {
    Session(key, customer, Active, None, None, map[], 0, None, "", now)
  }

  function Link(s: Session, customer: Option<nat>): Session {
    if customer.Some? && s.customer.None? then s.(customer := customer) else s
  }

  /** The table after, and the session the message belongs to. */
  function GetOrCreate(t: seq<Session>, key: Key, customer: Option<nat>, now: int): (r: (seq<Session>, nat))
    ensures r.1 < |r.0| && r.0[r.1].key == key && Live(r.0[r.1])
  {
    match NewestLive(t, key)
    case None => (t + [NewSession(key, customer, now)], |t|)
    case Some(i) =>
      if !IsStale(t[i], now) then (t[i := Link(t[i], customer)], i)
      else (t[i := t[i].(status := Expired)] + [NewSession(key, customer, now)], |t|)
  }

  // --------------------------------------------------------------- one turn

  datatype StepResult = StepResult(
    reply: string, step: Option<string>, updates: map<string, Option<string>>,
    complete: bool, needsHuman: bool, reason: Option<string>, reset: bool)

  const RESET_FLOW := "RESET_FLOW"
  const ABANDON_FLOW := "ABANDON_FLOW"
  const GO_BACK := "GO_BACK"
  const UNKNOWN := "UNKNOWN"
  const AWAITING_RESUME := "AWAITING_RESUME"
  const RESUME_STEP := "resume_step"
  const RESUME_INTENT := "resume_intent"

  /** What the resolver made of the text, and what each handler would return:
      the step handler if the step has one, `started` if the intent has one;
      `faqs` are the questions recognised and `body` their joint answer. */
  datatype Turn = Turn(
    guess: string, interrupts: bool, nav: StepResult, faqs: seq<string>, body: string,
    handler: Option<StepResult>, started: Option<StepResult>)

  /** `count` is the unresolved counter to store, if the turn stores one. */
  datatype Routed = Routed(intent: string, result: StepResult, count: Option<nat>)

  predicate IsNav(guess: string) {
    guess == RESET_FLOW || guess == ABANDON_FLOW || guess == GO_BACK
  }

  function Unresolved(s: Session, maxTurns: nat): (StepResult, Option<nat>) {
    if s.unresolved + 1 >= maxTurns
    then (StepResult("handing over", None, map[], false, true, Some("Repeated failed intent detection."), false), None)
    else (StepResult("please rephrase", None, map[], false, false, None, false), Some(s.unresolved + 1))
  }

  function Start(s: Session, turn: Turn, maxTurns: nat): Routed {
    match turn.started
    case Some(r) => Routed(turn.guess, r, None)
    case None => var (r, count) := Unresolved(s, maxTurns); Routed(turn.guess, r, count)
  }

  function Slot(s: Session, name: string): Option<string> {
    if name in s.slots then s.slots[name] else None
  }

  /** A question in the middle of a flow: answered, with the flow put on hold. */
  function Aside(s: Session, turn: Turn): Routed
    requires turn.faqs != []
  {
    var held := s.step == Some(AWAITING_RESUME);
    var pausedStep := if held then Slot(s, RESUME_STEP) else s.step;
    var pausedIntent := if held then Slot(s, RESUME_INTENT) else s.intent;
    Routed(s.intent.GetOr(turn.faqs[0]),
           StepResult(turn.body, Some(AWAITING_RESUME), map[RESUME_STEP := pausedStep, RESUME_INTENT := pausedIntent],
                      false, false, None, false),
           None)
  }

  function Dispatch(s: Session, turn: Turn, maxTurns: nat): Routed {
    if s.step.Some? && IsNav(turn.guess) then
      Routed(if turn.guess == GO_BACK then s.intent.GetOr(GO_BACK) else turn.guess, turn.nav, None)
    else if s.step.Some? && turn.interrupts then Start(s, turn, maxTurns)
    else if s.step.Some? && turn.faqs != [] && turn.body != "" then Aside(s, turn)
    else if s.step.Some? && turn.handler.Some? then
      Routed(s.intent.GetOr(UNKNOWN), turn.handler.value, None)
    else if |turn.faqs| >= 2 && turn.body != "" then
      Routed(turn.faqs[0], StepResult(turn.body, None, map[], true, false, None, false), None)
    else Start(s, turn, maxTurns)
  }

  function ClearContext(s: Session, now: int): Session {
    s.(slots := map[], unresolved := 0, step := None, lastActivity := now)
  }

  function HandOff(s: Session, reason: string, now: int): Session {
    s.(status := Handoff, reason := Some(reason), lastActivity := now)
  }

  function Complete(s: Session): Session {
    s.(status := Completed, step := None)
  }

  function SetStep(s: Session, r: Routed, now: int): Session {
    s.(step := r.result.step, slots := s.slots + r.result.updates, unresolved := r.count.GetOr(s.unresolved),
       lastActivity := now)
  }

  function Settle(s: Session, r: Routed, now: int): Session {
    if r.result.needsHuman then HandOff(s, r.result.reason.GetOr("Automation could not continue safely."), now)
    else if r.result.complete then Complete(s)
    else SetStep(s, r, now)
  }

  function Finalize(s: Session, r: Routed, now: int): Session {
    var named := s.(intent := Some(r.intent));
    Settle(if r.result.reset then ClearContext(named, now) else named, r, now)
  }

  function MarkProcessed(s: Session, id: string): Session {
    if id != "" then s.(lastMessage := id) else s
  }

  // ---------------------------------------------------------------- messages

  datatype Message = Message(key: Key, id: string, customer: Option<nat>, now: int, turn: Turn)

  /** The communication log, by session; `Puzzled` and `Cleared` mark the turns
      that count as unresolved and those that wipe the context. */
  datatype Entry = Inbound(session: nat) | Reply(session: nat) | Puzzled(session: nat) | Cleared(session: nat)

  /** A message being handled: its session was looked up, or its turn is running
      on a copy of the row. */
  datatype Phase = Arrived(m: Message, found: Option<(nat, Session)>) | Running(m: Message, i: nat, seen: Session)

  /** A takeover or resume that was let through on a copy of the row. */
  datatype Click = Click(i: nat, seen: Session, resume: bool, who: string, now: int)

  /** `sweeps` are the stale ids of sweeps that have read and may yet write,
      `clicks` the staff actions that have; `turns` is the message of each line. */
  datatype World = World(
    maxTurns: nat, sessions: seq<Session>, sweeps: seq<seq<nat>>, log: seq<Entry>,
    turns: map<Key, Phase>, clicks: seq<Option<Click>>)

  function NoSessions(maxTurns: nat): World {
    World(maxTurns, [], [], [], map[], [])
  }

  predicate AlreadyProcessed(s: Session, id: string) {
    id != "" && s.lastMessage == id
  }

  function Marks(i: nat, r: Routed): seq<Entry> {
    (if r.result.reset then [Cleared(i)] else []) + (if r.count.Some? then [Puzzled(i)] else [])
  }

  function Replies(i: nat, r: Routed): seq<Entry> {
    if r.result.reply != "" then [Reply(i)] else []
  }

  /** A duplicate changes nothing; a session with a human is only touched. */
  function RowAfter(s: Session, m: Message, maxTurns: nat): Session {
    if AlreadyProcessed(s, m.id) then s
    else if s.status == Handoff then MarkProcessed(s.(lastActivity := m.now), m.id)
    else MarkProcessed(Finalize(s, Dispatch(s, m.turn, maxTurns), m.now), m.id)
  }

  function Entries(i: nat, s: Session, m: Message, maxTurns: nat): seq<Entry> {
    if AlreadyProcessed(s, m.id) then []
    else if s.status == Handoff then [Inbound(i)]
    else var r := Dispatch(s, m.turn, maxTurns); [Inbound(i)] + Marks(i, r) + Replies(i, r)
  }

  function HandleMessage(w: World, m: Message): World {
    var (t, i) := GetOrCreate(w.sessions, m.key, m.customer, m.now);
    w.(sessions := t[i := RowAfter(t[i], m, w.maxTurns)], log := w.log + Entries(i, t[i], m, w.maxTurns))
  }

  // ------------------------------------------------------------------- staff

  /** Staff act on the newest session of the number, if its status allows. */
  function TakeOver(w: World, key: Key, who: string, now: int): World {
    match Newest(w.sessions, key)
    case Some(i) =>
      if Live(w.sessions[i]) then w.(sessions := w.sessions[i := HandOff(w.sessions[i], who, now)]) else w
    case None => w
  }

  function ResumeSession(s: Session, now: int): Session {
    s.(status := Active, reason := None, intent := None, step := None, slots := map[], unresolved := 0,
       lastActivity := now)
  }

  function Resume(w: World, key: Key, now: int): World {
    match Newest(w.sessions, key)
    case Some(i) =>
      if w.sessions[i].status == Handoff
      then w.(sessions := w.sessions[i := ResumeSession(w.sessions[i], now)], log := w.log + [Cleared(i)])
      else w
    case None => w
  }

  // ------------------------------------------------------------------- sweep

  predicate Sweepable(s: Session) {
    s.status == Active || (s.status == Handoff && s.key.channel == Voice)
  }

  function StaleIds(t: seq<Session>, now: int): (ids: seq<nat>)
    ensures forall i :: i in ids <==> 0 <= i < |t| && Sweepable(t[i]) && IsStale(t[i], now)
  {
    if t == [] then []
    else StaleIds(t[..|t| - 1], now)
         + if Sweepable(t[|t| - 1]) && IsStale(t[|t| - 1], now) then [|t| - 1] else []
  }

  /** The sweep's one UPDATE: it names rows by id and no longer looks at their status. */
  function ExpireIds(t: seq<Session>, ids: seq<nat>): (r: seq<Session>)
  {
    seq(|t|, i requires 0 <= i < |t| => if i in ids then t[i].(status := Expired) else t[i])
  }

  function Sweep(t: seq<Session>, now: int): seq<Session> {
    ExpireIds(t, StaleIds(t, now))
  }

  // ------------------------------------------------------- reading and writing

  /** A column is written only if it differs from the copy. */
  function Column<T(==)>(seen: T, made: T, row: T): T {
    if made == seen then row else made
  }

  /** The row once a session that knew it as `seen` has made it `made`; slots and
      counter are one column. */
  function WriteOver(seen: Session, made: Session, row: Session): Session {
    var context := Column((seen.slots, seen.unresolved), (made.slots, made.unresolved), (row.slots, row.unresolved));
    Session(
      row.key, Column(seen.customer, made.customer, row.customer), Column(seen.status, made.status, row.status),
      Column(seen.intent, made.intent, row.intent), Column(seen.step, made.step, row.step),
      context.0, context.1, Column(seen.reason, made.reason, row.reason),
      Column(seen.lastMessage, made.lastMessage, row.lastMessage),
      Column(seen.lastActivity, made.lastActivity, row.lastActivity))
  }

  function Found(t: seq<Session>, key: Key): Option<(nat, Session)> {
    match NewestLive(t, key)
    case Some(i) => Some((i, t[i]))
    case None => None
  }

  /** The session is reused, or expired and replaced, as the lookup found it. */
  function Attach(t: seq<Session>, m: Message, found: Option<(nat, Session)>): (r: (seq<Session>, nat))
    requires found.Some? ==> found.value.0 < |t|
    ensures r.1 < |r.0|
  {
    match found
    case None => (t + [NewSession(m.key, m.customer, m.now)], |t|)
    case Some((i, seen)) =>
      if !IsStale(seen, m.now) then
        (if m.customer.Some? && seen.customer.None? then t[i := t[i].(customer := m.customer)] else t, i)
      else (t[i := t[i].(status := Expired)] + [NewSession(m.key, m.customer, m.now)], |t|)
  }

  predicate HasArrived(w: World, key: Key) {
    && key in w.turns && w.turns[key].Arrived?
    && (w.turns[key].found.Some? ==> w.turns[key].found.value.0 < |w.sessions|)
  }

  predicate IsRunning(w: World, key: Key) {
    key in w.turns && w.turns[key].Running? && w.turns[key].i < |w.sessions|
  }

  /** The session is settled, the message logged, and the status tested: a human
      has the conversation, or the turn starts. */
  function Begin(w: World, key: Key): World
    requires HasArrived(w, key)
  {
    var m := w.turns[key].m;
    var (t, i) := Attach(w.sessions, m, w.turns[key].found);
    var w' := w.(sessions := t, turns := w.turns - {key});
    if AlreadyProcessed(t[i], m.id) then w'
    else if t[i].status == Handoff then
      w'.(sessions := t[i := MarkProcessed(t[i].(lastActivity := m.now), m.id)], log := w.log + [Inbound(i)])
    else w'.(log := w.log + [Inbound(i)], turns := w.turns[key := Running(m, i, t[i])])
  }

  /** A reset is committed first, which reads the row again. */
  function TurnResult(seen: Session, row: Session, r: Routed, now: int): Session {
    var named := seen.(intent := Some(r.intent));
    if r.result.reset then Settle(WriteOver(seen, ClearContext(named, now), row), r, now)
    else WriteOver(seen, Settle(named, r, now), row)
  }

  /** The turn's result is written and answered; the status is not looked at. */
  function End(w: World, key: Key): World
    requires IsRunning(w, key)
  {
    var p := w.turns[key];
    var r := Dispatch(p.seen, p.m.turn, w.maxTurns);
    w.(sessions := w.sessions[p.i := MarkProcessed(TurnResult(p.seen, w.sessions[p.i], r, p.m.now), p.m.id)],
       log := w.log + Marks(p.i, r) + Replies(p.i, r), turns := w.turns - {key})
  }

  /** Staff act on the newest session of the line, if its status allows. */
  function ReadClick(w: World, key: Key, resume: bool, who: string, now: int): World {
    match Newest(w.sessions, key)
    case Some(i) =>
      var s := w.sessions[i];
      if (if resume then s.status == Handoff else Live(s))
      then w.(clicks := w.clicks + [Some(Click(i, s, resume, who, now))]) else w
    case None => w
  }

  predicate ClickReady(w: World, k: nat) {
    k < |w.clicks| && w.clicks[k].Some? && w.clicks[k].value.i < |w.sessions|
  }

  function Clicked(c: Click): Session {
    if c.resume then ResumeSession(c.seen, c.now) else HandOff(c.seen, c.who, c.now)
  }

  function WriteClick(w: World, k: nat): World
    requires ClickReady(w, k)
  {
    var c := w.clicks[k].value;
    w.(sessions := w.sessions[c.i := WriteOver(c.seen, Clicked(c), w.sessions[c.i])],
       log := if c.resume then w.log + [Cleared(c.i)] else w.log,
       clicks := w.clicks[k := None])
  }

  // --------------------------------------------------------------------- runs

  datatype Event =
    | MessageRead(m: Message)
    | TurnBegun(key: Key)
    | TurnEnded(key: Key)
    | StaffRead(key: Key, resume: bool, who: string, now: int)
    | StaffWritten(k: nat)
    | SweepRead(now: int)
    | SweepWritten(k: nat)

  function Step(w: World, e: Event): World {
    match e
    case MessageRead(m) =>
      if m.key in w.turns then w else w.(turns := w.turns[m.key := Arrived(m, Found(w.sessions, m.key))])
    case TurnBegun(key) => if HasArrived(w, key) then Begin(w, key) else w
    case TurnEnded(key) => if IsRunning(w, key) then End(w, key) else w
    case StaffRead(key, resume, who, now) => ReadClick(w, key, resume, who, now)
    case StaffWritten(k) => if ClickReady(w, k) then WriteClick(w, k) else w
    case SweepRead(now) => w.(sweeps := w.sweeps + [StaleIds(w.sessions, now)])
    case SweepWritten(k) =>
      if k < |w.sweeps| then w.(sessions := ExpireIds(w.sessions, w.sweeps[k])) else w
  }

  function Run(w: World, es: seq<Event>): World {
    if es == [] then w else Step(Run(w, es[..|es| - 1]), es[|es| - 1])
  }

  // ---------------------------------------------------------------- the table

  class SessionTable {
    const maxTurns: nat
    var sessions: seq<Session>
    var log: seq<Entry>

    /** The state seen by the model; sweeps in flight are the sweepers' own. */
    ghost function State(sweeps: seq<seq<nat>>): World
      reads this
    {
      World(maxTurns, sessions, sweeps, log, map[], [])
    }

    constructor (maxTurns: nat)
      ensures State([]) == NoSessions(maxTurns)
    {
      this.maxTurns := maxTurns;
      sessions, log := [], [];
    }

    method FindNewest(key: Key) returns (r: Option<nat>)
      ensures r == Newest(sessions, key)
    {
      var n := |sessions|;
      assert sessions[..n] == sessions;
      while n > 0
        invariant n <= |sessions|
        invariant Newest(sessions, key) == Newest(sessions[..n], key)
      {
        assert sessions[..n][..n - 1] == sessions[..n - 1];
        n := n - 1;
        if sessions[n].key == key {
          return Some(n);
        }
      }
      r := None;
    }

    method FindNewestLive(key: Key) returns (r: Option<nat>)
      ensures r == NewestLive(sessions, key)
    {
      var n := |sessions|;
      assert sessions[..n] == sessions;
      while n > 0
        invariant n <= |sessions|
        invariant NewestLive(sessions, key) == NewestLive(sessions[..n], key)
      {
        assert sessions[..n][..n - 1] == sessions[..n - 1];
        n := n - 1;
        if sessions[n].key == key && Live(sessions[n]) {
          return Some(n);
        }
      }
      r := None;
    }

    method SessionFor(key: Key, customer: Option<nat>, now: int) returns (i: nat)
      modifies this`sessions
      ensures (sessions, i) == GetOrCreate(old(sessions), key, customer, now)
    {
      var existing := FindNewestLive(key);
      if existing.Some? {
        i := existing.value;
        if !IsStale(sessions[i], now) {
          ghost var before := sessions;
          if customer.Some? && sessions[i].customer.None? {
            sessions := sessions[i := sessions[i].(customer := customer)];
          }
          assert before[i := before[i]] == before;
          return;
        }
        sessions := sessions[i := sessions[i].(status := Expired)];
      }
      i := |sessions|;
      sessions := sessions + [NewSession(key, customer, now)];
    }

    method FinalizeRow(i: nat, r: Routed, now: int)
      requires i < |sessions|
      modifies this`sessions
      ensures sessions == old(sessions)[i := Finalize(old(sessions)[i], r, now)]
    {
      var s := sessions[i].(intent := Some(r.intent));
      if r.result.reset {
        s := ClearContext(s, now);
      }
      if r.result.needsHuman {
        s := HandOff(s, r.result.reason.GetOr("Automation could not continue safely."), now);
      } else if r.result.complete {
        s := Complete(s);
      } else {
        s := SetStep(s, r, now);
      }
      sessions := sessions[i := s];
    }

    /** `replied` is whether the bot answered. */
    method Handle(m: Message) returns (replied: bool)
      modifies this
      ensures State([]) == HandleMessage(old(State([])), m)
      ensures replied <==> |log| > |old(log)| && log[|log| - 1].Reply?
    {
      replied := false;
      var i := SessionFor(m.key, m.customer, m.now);
      ghost var s := sessions[i];
      if AlreadyProcessed(sessions[i], m.id) {
        assert sessions[i := s] == sessions;
        return;
      }
      log := log + [Inbound(i)];
      if sessions[i].status == Handoff {
        sessions := sessions[i := MarkProcessed(sessions[i].(lastActivity := m.now), m.id)];
        return;
      }
      var r := Dispatch(sessions[i], m.turn, maxTurns);
      FinalizeRow(i, r, m.now);
      log := log + Marks(i, r);
      if r.result.reply != "" {
        log := log + [Reply(i)];
        replied := true;
      }
      sessions := sessions[i := MarkProcessed(sessions[i], m.id)];
      assert Entries(i, s, m, maxTurns) == [Inbound(i)] + Marks(i, r) + Replies(i, r);
    }

    method StaffTakeOver(key: Key, who: string, now: int) returns (found: bool)
      modifies this`sessions
      ensures State([]) == TakeOver(old(State([])), key, who, now)
      ensures found == (Newest(old(sessions), key).Some? && Live(old(sessions)[Newest(old(sessions), key).value]))
    {
      var i := FindNewest(key);
      found := i.Some? && Live(sessions[i.value]);
      if found {
        sessions := sessions[i.value := HandOff(sessions[i.value], who, now)];
      }
    }

    method StaffResume(key: Key, now: int) returns (found: bool)
      modifies this
      ensures State([]) == Resume(old(State([])), key, now)
    {
      var i := FindNewest(key);
      found := i.Some? && sessions[i.value].status == Handoff;
      if found {
        sessions := sessions[i.value := ResumeSession(sessions[i.value], now)];
        log := log + [Cleared(i.value)];
      }
    }

    method ReadStale(now: int) returns (ids: seq<nat>)
      ensures ids == StaleIds(sessions, now)
    {
      ids := [];
      for i := 0 to |sessions|
        invariant ids == StaleIds(sessions[..i], now)
      {
        assert sessions[..i + 1][..i] == sessions[..i];
        if Sweepable(sessions[i]) && IsStale(sessions[i], now) {
          ids := ids + [i];
        }
      }
      assert sessions[..|sessions|] == sessions;
    }

    method ExpireStale(now: int) returns (count: nat)
      modifies this`sessions
      ensures sessions == Sweep(old(sessions), now) && count == |StaleIds(old(sessions), now)|
    {
      var ids := ReadStale(now);
      if ids != [] {
        sessions := ExpireIds(sessions, ids);
      }
      count := |ids|;
    }
  }
}
