/** What holds of conversation sessions over any run of messages, staff actions
    and sweeps, each in its own steps, and exactly when: one live session a key,
    handoffs that last, redelivery. */
module SessionRuns {
  import opened Wrappers
  import opened Sessions

  // ------------------------------------------------------- one live session

  /** Only the newest session of a key can be live. */
  ghost predicate OneLive(t: seq<Session>) {
    forall i, j :: 0 <= i < j < |t| && t[i].key == t[j].key ==> !Live(t[i])
  }

  lemma {:induction false} NewestIsLast(t: seq<Session>, key: Key)
    ensures match Newest(t, key)
      case Some(i) => forall j :: i < j < |t| ==> t[j].key != key
      case None => forall j :: 0 <= j < |t| ==> t[j].key != key
  {
    if t != [] {
      NewestIsLast(t[..|t| - 1], key);
    }
  }

  lemma {:induction false} NewestLiveIsLast(t: seq<Session>, key: Key)
    ensures match NewestLive(t, key)
      case Some(i) => forall j :: i < j < |t| ==> !(t[j].key == key && Live(t[j]))
      case None => forall j :: 0 <= j < |t| ==> !(t[j].key == key && Live(t[j]))
  {
    if t != [] {
      NewestLiveIsLast(t[..|t| - 1], key);
    }
  }

  /** A live session is where the next message goes and where staff land. */
  lemma LiveIsNewest(t: seq<Session>, i: nat)
    requires OneLive(t) && i < |t| && Live(t[i])
    ensures NewestLive(t, t[i].key) == Some(i) && Newest(t, t[i].key) == Some(i)
  {
    NewestIsLast(t, t[i].key);
    NewestLiveIsLast(t, t[i].key);
  }

  /** The last session of its key may take any status. */
  lemma LastMayChange(t: seq<Session>, i: nat, s: Session)
    requires OneLive(t) && i < |t| && s.key == t[i].key
    requires Live(t[i]) || Newest(t, t[i].key) == Some(i)
    ensures OneLive(t[i := s])
  {
    NewestIsLast(t, t[i].key);
  }

  lemma GetOrCreateKeepsOneLive(t: seq<Session>, key: Key, customer: Option<nat>, now: int)
    requires OneLive(t)
    ensures OneLive(GetOrCreate(t, key, customer, now).0)
  {
    NewestLiveIsLast(t, key);
    match NewestLive(t, key) {
      case Some(i) => LiveIsNewest(t, i);
      case None =>
    }
  }

  lemma FinalizeKeeps(s: Session, r: Routed, now: int)
    ensures var s' := Finalize(s, r, now); s'.key == s.key && s'.customer == s.customer
  {
  }

  lemma RowKeeps(s: Session, m: Message, maxTurns: nat)
    ensures var s' := RowAfter(s, m, maxTurns);
      && s'.key == s.key && s'.customer == s.customer
      && (m.id != "" ==> s'.lastMessage == m.id)
  {
    FinalizeKeeps(s, Dispatch(s, m.turn, maxTurns), m.now);
  }

  lemma MessageKeepsOneLive(w: World, m: Message)
    requires OneLive(w.sessions)
    ensures OneLive(HandleMessage(w, m).sessions)
  {
    GetOrCreateKeepsOneLive(w.sessions, m.key, m.customer, m.now);
    var (t, i) := GetOrCreate(w.sessions, m.key, m.customer, m.now);
    RowKeeps(t[i], m, w.maxTurns);
    LastMayChange(t, i, RowAfter(t[i], m, w.maxTurns));
  }

  // ------------------------------------------- a message alone on the tables

  lemma WriteOverItself(s: Session, made: Session)
    requires made.key == s.key
    ensures WriteOver(s, made, s) == made
  {
  }

  lemma ResultOnItself(s: Session, r: Routed, now: int)
    ensures TurnResult(s, s, r, now) == Finalize(s, r, now)
  {
    var named := s.(intent := Some(r.intent));
    WriteOverItself(s, ClearContext(named, now));
    WriteOverItself(s, Settle(named, r, now));
  }

  lemma AttachIsGetOrCreate(t: seq<Session>, m: Message)
    ensures Attach(t, m, Found(t, m.key)) == GetOrCreate(t, m.key, m.customer, m.now)
  {
    var found := Found(t, m.key);
    if found.Some? {
      assert t[found.value.0 := t[found.value.0]] == t;
    }
  }

  /** With nothing in between, the steps of a message are one handled message. */
  lemma UndisturbedTurn(w: World, m: Message)
    requires m.key !in w.turns
    ensures Step(Step(Step(w, MessageRead(m)), TurnBegun(m.key)), TurnEnded(m.key)) == HandleMessage(w, m)
  {
    var arrived := Step(w, MessageRead(m));
    assert arrived.turns - {m.key} == w.turns && HasArrived(arrived, m.key);
    AttachIsGetOrCreate(w.sessions, m);
    var (t, i) := GetOrCreate(w.sessions, m.key, m.customer, m.now);
    assert t[i := t[i]] == t;
    var begun := Step(arrived, TurnBegun(m.key));
    if !AlreadyProcessed(t[i], m.id) && t[i].status != Handoff {
      assert begun.turns - {m.key} == w.turns && IsRunning(begun, m.key);
      ResultOnItself(t[i], Dispatch(t[i], m.turn, w.maxTurns), m.now);
      var r := Dispatch(t[i], m.turn, w.maxTurns);
      assert w.log + [Inbound(i)] + Marks(i, r) + Replies(i, r) == w.log + ([Inbound(i)] + Marks(i, r) + Replies(i, r));
    } else {
      assert w.log + [] == w.log;
    }
  }

  /** So are the two steps of a staff action. */
  lemma UndisturbedClick(w: World, key: Key, resume: bool, who: string, now: int)
    ensures var read := Step(w, StaffRead(key, resume, who, now));
      var written := Step(read, StaffWritten(|w.clicks|));
      written.(clicks := w.clicks) == if resume then Resume(w, key, now) else TakeOver(w, key, who, now)
  {
    var read := Step(w, StaffRead(key, resume, who, now));
    if |read.clicks| > |w.clicks| {
      var i := Newest(w.sessions, key).value;
      WriteOverItself(w.sessions[i], ResumeSession(w.sessions[i], now));
      WriteOverItself(w.sessions[i], HandOff(w.sessions[i], who, now));
    }
  }

  // ---------------------------------------------------- one live, over runs

  /** What a message in progress knows of its line is still the newest there. */
  ghost predicate PhaseOk(t: seq<Session>, key: Key, p: Phase) {
    && p.m.key == key
    && match p
       case Arrived(_, found) => found.Some? ==> Newest(t, key) == Some(found.value.0) && found.value.1.key == key
       case Running(_, i, seen) => Newest(t, key) == Some(i) && seen.key == key
  }

  ghost predicate ClickOk(t: seq<Session>, c: Click) {
    c.i < |t| && c.seen.key == t[c.i].key
  }

  ghost predicate TurnsOk(w: World) {
    forall key :: key in w.turns ==> PhaseOk(w.sessions, key, w.turns[key])
  }

  ghost predicate ClicksOk(w: World) {
    forall k :: 0 <= k < |w.clicks| && w.clicks[k].Some? ==> ClickOk(w.sessions, w.clicks[k].value)
  }

  ghost predicate Sound(w: World) {
    OneLive(w.sessions) && TurnsOk(w) && ClicksOk(w)
  }

  /** Rows keep their keys, and only `key` may get another row. */
  ghost predicate SameLines(a: seq<Session>, b: seq<Session>, key: Key) {
    && |a| <= |b|
    && (forall i :: 0 <= i < |a| ==> b[i].key == a[i].key)
    && (forall i :: |a| <= i < |b| ==> b[i].key == key)
  }

  lemma NewestIs(t: seq<Session>, key: Key, i: nat)
    requires i < |t| && t[i].key == key && forall j :: i < j < |t| ==> t[j].key != key
    ensures Newest(t, key) == Some(i)
  {
    NewestIsLast(t, key);
  }

  lemma NewestStays(a: seq<Session>, b: seq<Session>, key: Key, other: Key)
    requires SameLines(a, b, key) && (other != key || |a| == |b|) && Newest(a, other).Some?
    ensures Newest(b, other) == Newest(a, other)
  {
    NewestIsLast(a, other);
    NewestIs(b, other, Newest(a, other).value);
  }

  lemma OthersStayOk(w: World, b: seq<Session>, key: Key, other: Key)
    requires TurnsOk(w) && SameLines(w.sessions, b, key) && (other != key || |w.sessions| == |b|) && other in w.turns
    ensures PhaseOk(b, other, w.turns[other])
  {
    assert PhaseOk(w.sessions, other, w.turns[other]);
    if Newest(w.sessions, other).Some? {
      NewestStays(w.sessions, b, key, other);
    }
  }

  lemma ClicksStayOk(w: World, b: seq<Session>, key: Key)
    requires ClicksOk(w) && SameLines(w.sessions, b, key)
    ensures forall k :: 0 <= k < |w.clicks| && w.clicks[k].Some? ==> ClickOk(b, w.clicks[k].value)
  {
  }

  /** The step makes a second session of a line live: a message that found none
      opens one although one has been brought back since, or a staff action is
      written on a session that is no longer the newest. */
  predicate Splits(w: World, e: Event) {
    match e
    case TurnBegun(key) => HasArrived(w, key) && w.turns[key].found.None? && NewestLive(w.sessions, key).Some?
    case StaffWritten(k) =>
      && ClickReady(w, k)
      && var c := w.clicks[k].value;
      Clicked(c).status != c.seen.status && Newest(w.sessions, w.sessions[c.i].key) != Some(c.i)
    case _ => false
  }

  lemma ResultKeepsKey(seen: Session, row: Session, r: Routed, now: int)
    ensures TurnResult(seen, row, r, now).key == row.key
  {
  }

  lemma AttachShape(t: seq<Session>, m: Message, found: Option<(nat, Session)>)
    requires found.Some? ==> found.value.0 < |t| && t[found.value.0].key == m.key
    ensures var (t', j) := Attach(t, m, found);
      && |t| <= |t'| && t'[j].key == m.key
      && (forall n :: 0 <= n < |t| ==> t'[n].key == t[n].key)
      && (forall n :: |t| <= n < |t'| ==> t'[n].key == m.key)
      && (if |t'| > |t| then j == |t| == |t'| - 1 else found.Some? && j == found.value.0)
      && (forall n :: 0 <= n < |t| && n != j && (found.Some? ==> n != found.value.0) ==> t'[n] == t[n])
  {
  }

  lemma AttachKeepsLines(t: seq<Session>, m: Message, found: Option<(nat, Session)>)
    requires found.Some? ==> Newest(t, m.key) == Some(found.value.0)
    ensures var (t', i) := Attach(t, m, found);
      SameLines(t, t', m.key) && t'[i].key == m.key && Newest(t', m.key) == Some(i)
  {
    var (t', i) := Attach(t, m, found);
    AttachShape(t, m, found);
    if |t'| > |t| {
      NewestIs(t', m.key, i);
    } else {
      NewestStays(t, t', m.key, m.key);
    }
  }

  lemma BeginKeepsLines(w: World, key: Key)
    requires TurnsOk(w) && HasArrived(w, key)
    ensures SameLines(w.sessions, Begin(w, key).sessions, key)
    ensures key in Begin(w, key).turns ==> PhaseOk(Begin(w, key).sessions, key, Begin(w, key).turns[key])
  {
    var p := w.turns[key];
    assert PhaseOk(w.sessions, key, p);
    AttachKeepsLines(w.sessions, p.m, p.found);
  }

  lemma StepKeepsLines(w: World, e: Event) returns (key: Key)
    requires TurnsOk(w)
    ensures SameLines(w.sessions, Step(w, e).sessions, key)
    ensures |Step(w, e).sessions| > |w.sessions| ==> e == TurnBegun(key)
  {
    key := if e.TurnBegun? then e.key else Key(0, Voice, "");
    if e.TurnBegun? && HasArrived(w, e.key) {
      BeginKeepsLines(w, e.key);
    }
    if e.TurnEnded? && IsRunning(w, e.key) {
      ResultKeepsKey(
        w.turns[e.key].seen, w.sessions[w.turns[e.key].i],
        Dispatch(w.turns[e.key].seen, w.turns[e.key].m.turn, w.maxTurns), w.turns[e.key].m.now);
    }
  }

  lemma StepKeepsTurns(w: World, e: Event)
    requires Sound(w)
    ensures TurnsOk(Step(w, e))
  {
    var w' := Step(w, e);
    var line := StepKeepsLines(w, e);
    forall key | key in w'.turns ensures PhaseOk(w'.sessions, key, w'.turns[key]) {
      if key in w.turns && w'.turns[key] == w.turns[key] && (key != line || |w'.sessions| == |w.sessions|) {
        OthersStayOk(w, w'.sessions, line, key);
      } else if e.TurnBegun? {
        BeginKeepsLines(w, key);
      } else {
        assert e.MessageRead? && e.m.key == key;
        if NewestLive(w.sessions, key).Some? {
          LiveIsNewest(w.sessions, NewestLive(w.sessions, key).value);
        }
      }
    }
  }

  lemma StepKeepsClicks(w: World, e: Event)
    requires Sound(w)
    ensures ClicksOk(Step(w, e))
  {
    var line := StepKeepsLines(w, e);
    ClicksStayOk(w, Step(w, e).sessions, line);
  }

  lemma BeginKeepsOneLive(w: World, key: Key)
    requires Sound(w) && HasArrived(w, key)
    ensures OneLive(Begin(w, key).sessions)
      <==> !(w.turns[key].found.None? && NewestLive(w.sessions, key).Some?)
  {
    var p := w.turns[key];
    assert PhaseOk(w.sessions, key, p);
    var t, i := Attach(w.sessions, p.m, p.found).0, Attach(w.sessions, p.m, p.found).1;
    var after := Begin(w, key).sessions;
    NewestLiveIsLast(w.sessions, key);
    if p.found.None? && NewestLive(w.sessions, key).Some? {
      var j := NewestLive(w.sessions, key).value;
      assert after[j] == w.sessions[j] && Live(after[j]) && after[j].key == after[i].key;
    } else {
      AttachKeepsOneLive(w.sessions, p.m, p.found);
      assert forall n :: 0 <= n < |t| ==> after[n].key == t[n].key && after[n].status == t[n].status;
    }
  }

  lemma AttachKeepsOneLive(t: seq<Session>, m: Message, found: Option<(nat, Session)>)
    requires OneLive(t)
    requires match found
      case None => NewestLive(t, m.key).None?
      case Some(f) => Newest(t, m.key) == Some(f.0)
    ensures OneLive(Attach(t, m, found).0)
  {
    NewestIsLast(t, m.key);
    NewestLiveIsLast(t, m.key);
    if found.Some? {
      forall j | 0 <= j < |t| && t[j].key == m.key && j != found.value.0 ensures !Live(t[j]) {
        assert j < found.value.0 && t[found.value.0].key == m.key;
      }
    }
  }

  lemma ClickKeepsOneLive(w: World, k: nat)
    requires Sound(w) && ClickReady(w, k)
    ensures OneLive(WriteClick(w, k).sessions) <==> !Splits(w, StaffWritten(k))
  {
    var c := w.clicks[k].value;
    var after := WriteClick(w, k).sessions;
    assert ClickOk(w.sessions, c);
    NewestIsLast(w.sessions, w.sessions[c.i].key);
    if Clicked(c).status == c.seen.status {
      assert forall n :: 0 <= n < |after| ==> after[n].key == w.sessions[n].key && after[n].status == w.sessions[n].status;
    } else if Newest(w.sessions, w.sessions[c.i].key) == Some(c.i) {
      LastMayChange(w.sessions, c.i, after[c.i]);
    } else {
      var j := Newest(w.sessions, w.sessions[c.i].key).value;
      assert c.i < j && after[j] == w.sessions[j] && Live(after[c.i]);
    }
  }

  lemma EndKeepsOneLive(w: World, key: Key)
    requires Sound(w) && IsRunning(w, key)
    ensures OneLive(End(w, key).sessions)
  {
    var p := w.turns[key];
    assert PhaseOk(w.sessions, key, p);
    var r := Dispatch(p.seen, p.m.turn, w.maxTurns);
    ResultKeepsKey(p.seen, w.sessions[p.i], r, p.m.now);
    LastMayChange(w.sessions, p.i, MarkProcessed(TurnResult(p.seen, w.sessions[p.i], r, p.m.now), p.m.id));
  }

  lemma StepKeepsOneLiveExactlyWhen(w: World, e: Event)
    requires Sound(w)
    ensures OneLive(Step(w, e).sessions) <==> !Splits(w, e)
  {
    match e {
      case TurnBegun(key) =>
        if HasArrived(w, key) {
          BeginKeepsOneLive(w, key);
        }
      case TurnEnded(key) =>
        if IsRunning(w, key) {
          EndKeepsOneLive(w, key);
        }
      case StaffWritten(k) =>
        if ClickReady(w, k) {
          ClickKeepsOneLive(w, k);
        }
      case _ =>
    }
  }

  lemma RunNext(w: World, es: seq<Event>, k: nat)
    requires k < |es|
    ensures Run(w, es[..k + 1]) == Step(Run(w, es[..k]), es[k])
  {
    assert es[..k + 1][..k] == es[..k];
  }

  predicate SplitsAt(w: World, es: seq<Event>, k: nat)
    requires k < |es|
  {
    Splits(Run(w, es[..k]), es[k])
  }

  ghost predicate OneLiveAt(w: World, es: seq<Event>, k: nat)
    requires k <= |es|
  {
    OneLive(Run(w, es[..k]).sessions)
  }

  ghost predicate SoundAt(w: World, es: seq<Event>, k: nat)
    requires k <= |es|
  {
    Sound(Run(w, es[..k]))
  }

  lemma NextKeepsOneLiveExactlyWhen(w: World, es: seq<Event>, k: nat)
    requires k < |es| && SoundAt(w, es, k)
    ensures OneLiveAt(w, es, k + 1) <==> !SplitsAt(w, es, k)
    ensures OneLiveAt(w, es, k + 1) ==> SoundAt(w, es, k + 1)
  {
    var before := Run(w, es[..k]);
    StepKeepsOneLiveExactlyWhen(before, es[k]);
    StepKeepsTurns(before, es[k]);
    StepKeepsClicks(before, es[k]);
    RunNext(w, es, k);
  }

  lemma {:induction false} SoundUntil(w: World, es: seq<Event>, k: nat)
    requires Sound(w) && k <= |es|
    requires forall j :: 0 <= j < k ==> !SplitsAt(w, es, j)
    ensures SoundAt(w, es, k)
  {
    if k > 0 {
      SoundUntil(w, es, k - 1);
      NextKeepsOneLiveExactlyWhen(w, es, k - 1);
    }
  }

  lemma FirstSplit(w: World, es: seq<Event>, n: nat) returns (k: nat)
    requires n < |es| && SplitsAt(w, es, n)
    ensures k <= n && SplitsAt(w, es, k) && forall j :: 0 <= j < k ==> !SplitsAt(w, es, j)
  {
    if j: nat :| j < n && SplitsAt(w, es, j) {
      k := FirstSplit(w, es, j);
    } else {
      k := n;
    }
  }

  /** In every reachable state each key has at most one live session, and it is
      the key's newest, exactly unless a step splits a line in two. */
  lemma AtMostOneLiveExactlyWhen(w: World, es: seq<Event>)
    requires Sound(w)
    ensures (forall k :: 0 <= k <= |es| ==> OneLiveAt(w, es, k)) <==> (forall k :: 0 <= k < |es| ==> !SplitsAt(w, es, k))
  {
    if n :| 0 <= n < |es| && SplitsAt(w, es, n) {
      var k := FirstSplit(w, es, n);
      SoundUntil(w, es, k);
      NextKeepsOneLiveExactlyWhen(w, es, k);
      assert !OneLiveAt(w, es, k + 1);
    } else {
      forall k | 0 <= k <= |es| ensures OneLiveAt(w, es, k) {
        SoundUntil(w, es, k);
      }
    }
  }

  /** So, until a line is split, staff look at the session the bot would use. */
  lemma StaffLandOnTheLiveSession(maxTurns: nat, es: seq<Event>, key: Key)
    requires forall k :: 0 <= k < |es| ==> !SplitsAt(NoSessions(maxTurns), es, k)
    ensures var t := Run(NoSessions(maxTurns), es).sessions;
      NewestLive(t, key).Some? ==> Newest(t, key) == NewestLive(t, key)
  {
    SoundUntil(NoSessions(maxTurns), es, |es|);
    assert es[..|es|] == es;
    var t := Run(NoSessions(maxTurns), es).sessions;
    if NewestLive(t, key).Some? {
      LiveIsNewest(t, NewestLive(t, key).value);
    }
  }

  // ----------------------------------------------------------- handoff lasts

  /** Nobody with a stale reading of session i has read since `n` sweeps. */
  ghost predicate Unread(w: World, i: nat, n: nat) {
    forall k :: n <= k < |w.sweeps| ==> i !in w.sweeps[k]
  }

  ghost predicate Silent(log: seq<Entry>, n: nat, t: seq<Session>, key: Key) {
    forall k :: n <= k < |log| && log[k].Reply? && log[k].session < |t|
      ==> t[log[k].session].key != key
  }

  ghost predicate LogInTable(w: World) {
    forall k :: 0 <= k < |w.log| ==> w.log[k].session < |w.sessions|
  }

  /** A WhatsApp conversation is with a human: session i, the newest of its line,
      is handed off, and since entry `n` of the log the bot has not answered. */
  ghost predicate Theirs(w: World, i: nat, key: Key, n: nat) {
    && i < |w.sessions| && w.sessions[i].status == Handoff && Newest(w.sessions, key) == Some(i)
    && Silent(w.log, n, w.sessions, key)
  }

  /** What this phase of a message, already under way, will do to the takeover:
      open another session, complete this one, or answer. */
  predicate Dangerous(p: Phase, maxTurns: nat) {
    match p
    case Arrived(m, found) => found.None? || IsStale(found.value.1, m.now)
    case Running(m, _, seen) =>
      var r := Dispatch(seen, m.turn, maxTurns).result;
      || r.reply != ""
      || (r.complete && !r.needsHuman && (r.reset || seen.status != Completed))
  }

  /** An event that carries out what was under way before the takeover: a sweep
      that had read the session, or the message of the line. */
  predicate Disturbs(w0: World, e: Event, i: nat, key: Key) {
    match e
    case SweepWritten(k) => k < |w0.sweeps| && i in w0.sweeps[k]
    case TurnBegun(line) => line == key && key in w0.turns && w0.turns[key].Arrived? && Dangerous(w0.turns[key], w0.maxTurns)
    case TurnEnded(line) => line == key && key in w0.turns && w0.turns[key].Running? && Dangerous(w0.turns[key], w0.maxTurns)
    case _ => false
  }

  /** A message looked up since the takeover, or one whose turn will not matter. */
  predicate Harmless(p: Phase, maxTurns: nat, i: nat) {
    !Dangerous(p, maxTurns) && (if p.Arrived? then p.found.value.0 == i else p.i == i)
  }

  /** The message of the line is as it was, or harmless. */
  ghost predicate LineOk(w0: World, w: World, i: nat, key: Key) {
    if key in w0.turns && Dangerous(w0.turns[key], w0.maxTurns)
    then key in w.turns && w.turns[key] == w0.turns[key]
    else key in w.turns ==> Harmless(w.turns[key], w0.maxTurns, i)
  }

  /** Every message in progress is about a row of its own line. */
  ghost predicate LinesKeyed(w: World) {
    forall key :: key in w.turns ==> LineKeyed(w.sessions, key, w.turns[key])
  }

  ghost predicate LineKeyed(t: seq<Session>, key: Key, p: Phase) {
    && p.m.key == key
    && match p
       case Arrived(_, found) => found.Some? ==> found.value.0 < |t| && t[found.value.0].key == key
       case Running(_, i, seen) => i < |t| && t[i].key == key && seen.key == key
  }

  /** Nobody is about to hand session i back. */
  ghost predicate NoResume(w: World, i: nat) {
    forall k :: 0 <= k < |w.clicks| && w.clicks[k].Some? && w.clicks[k].value.i == i ==> !w.clicks[k].value.resume
  }

  /** Session i, watched since the world was `w0`. */
  ghost predicate Watched(w0: World, w: World, i: nat, key: Key) {
    && Theirs(w, i, key, |w0.log|) && key.channel == WhatsApp && w.maxTurns == w0.maxTurns
    && w0.sweeps <= w.sweeps && Unread(w, i, |w0.sweeps|)
    && |w0.log| <= |w.log| && LogInTable(w)
    && LinesKeyed(w) && ClicksOk(w) && NoResume(w, i)
    && LineOk(w0, w, i, key)
  }

  predicate HandsBack(e: Event, key: Key) {
    e.StaffRead? && e.resume && e.key == key
  }

  lemma LogStaysSilent(
    log: seq<Entry>, more: seq<Entry>, n: nat, t: seq<Session>, t': seq<Session>, key: Key, j: nat)
    requires Silent(log, n, t, key) && n <= |log| && |t| <= |t'| && j < |t'|
    requires forall k :: 0 <= k < |log| ==> log[k].session < |t|
    requires forall k :: 0 <= k < |t| ==> t'[k].key == t[k].key
    requires forall e :: e in more ==> e.session == j
    requires t'[j].key == key ==> forall e :: e in more ==> !e.Reply?
    ensures Silent(log + more, n, t', key)
    ensures forall k :: 0 <= k < |log + more| ==> (log + more)[k].session < |t'|
  {
    forall k | 0 <= k < |log + more|
      ensures (log + more)[k].session < |t'|
      ensures n <= k && (log + more)[k].Reply? ==> t'[(log + more)[k].session].key != key
    {
      if k >= |log| {
        assert (log + more)[k] in more;
      }
    }
  }

  /** Rows of `key` get no new one: what is newest there stays newest. */
  lemma NewestStill(a: seq<Session>, b: seq<Session>, key: Key, i: nat)
    requires Newest(a, key) == Some(i) && |a| <= |b|
    requires forall n :: 0 <= n < |a| ==> b[n].key == a[n].key
    requires forall n :: |a| <= n < |b| ==> b[n].key != key
    ensures Newest(b, key) == Some(i)
  {
    NewestIsLast(a, key);
    NewestIs(b, key, i);
  }

  lemma NewestLiveIsNewest(t: seq<Session>, key: Key, i: nat)
    requires Newest(t, key) == Some(i) && Live(t[i])
    ensures NewestLive(t, key) == Some(i)
  {
    NewestIsLast(t, key);
    NewestLiveIsLast(t, key);
  }

  /** What beginning a turn does to the table, the log and the other lines. */
  lemma BeginShape(w: World, key: Key)
    requires HasArrived(w, key) && LinesKeyed(w)
    ensures var w' := Begin(w, key); var p := w.turns[key]; var j := Attach(w.sessions, p.m, p.found).1;
      && |w.sessions| <= |w'.sessions| && j < |w'.sessions| && w'.sessions[j].key == key
      && (forall n :: 0 <= n < |w.sessions| ==> w'.sessions[n].key == w.sessions[n].key)
      && (forall n :: |w.sessions| <= n < |w'.sessions| ==> w'.sessions[n].key == key)
      && (forall n :: 0 <= n < |w.sessions| && w.sessions[n].key != key ==> w'.sessions[n] == w.sessions[n])
      && (w'.log == w.log || w'.log == w.log + [Inbound(j)])
      && w'.sweeps == w.sweeps && w'.clicks == w.clicks && w'.maxTurns == w.maxTurns
      && w'.turns - {key} == w.turns - {key}
      && (key in w'.turns ==> w'.turns[key] == Running(p.m, j, w'.sessions[j]))
  {
    var p := w.turns[key];
    assert LineKeyed(w.sessions, key, p);
    AttachShape(w.sessions, p.m, p.found);
  }

  lemma EndShape(w: World, key: Key)
    requires IsRunning(w, key)
    ensures var w', p := End(w, key), w.turns[key]; var r := Dispatch(p.seen, p.m.turn, w.maxTurns);
      && |w'.sessions| == |w.sessions|
      && (forall n :: 0 <= n < |w.sessions| ==> w'.sessions[n].key == w.sessions[n].key)
      && (forall n :: 0 <= n < |w.sessions| && n != p.i ==> w'.sessions[n] == w.sessions[n])
      && w'.log == w.log + (Marks(p.i, r) + Replies(p.i, r))
      && w'.sweeps == w.sweeps && w'.clicks == w.clicks && w'.maxTurns == w.maxTurns
      && w'.turns == w.turns - {key}
  {
    var p := w.turns[key];
    var r := Dispatch(p.seen, p.m.turn, w.maxTurns);
    ResultKeepsKey(p.seen, w.sessions[p.i], r, p.m.now);
    assert w.log + Marks(p.i, r) + Replies(p.i, r) == w.log + (Marks(p.i, r) + Replies(p.i, r));
  }

  lemma OtherLinesKeyed(w: World, w': World, key: Key)
    requires LinesKeyed(w) && |w.sessions| <= |w'.sessions| && w'.turns - {key} == w.turns - {key}
    requires forall n :: 0 <= n < |w.sessions| ==> w'.sessions[n].key == w.sessions[n].key
    requires key in w'.turns ==> LineKeyed(w'.sessions, key, w'.turns[key])
    ensures LinesKeyed(w')
  {
    forall other | other in w'.turns ensures LineKeyed(w'.sessions, other, w'.turns[other]) {
      if other != key {
        assert other in w'.turns - {key} && other in w.turns && w'.turns[other] == (w'.turns - {key})[other];
        assert LineKeyed(w.sessions, other, w.turns[other]);
      }
    }
  }

  lemma ClicksStay(w: World, w': World)
    requires ClicksOk(w) && w'.clicks == w.clicks && |w.sessions| <= |w'.sessions|
    requires forall n :: 0 <= n < |w.sessions| ==> w'.sessions[n].key == w.sessions[n].key
    ensures ClicksOk(w')
  {
  }

  // ---- another line's message

  lemma OtherBeginStaysWatched(w0: World, w: World, i: nat, key: Key, line: Key)
    requires Watched(w0, w, i, key) && line != key && HasArrived(w, line)
    ensures Watched(w0, Begin(w, line), i, key)
  {
    var w' := Begin(w, line);
    var p := w.turns[line];
    var j := Attach(w.sessions, p.m, p.found).1;
    BeginShape(w, line);
    NewestStill(w.sessions, w'.sessions, key, i);
    OtherLinesKeyed(w, w', line);
    ClicksStay(w, w');
    LogStaysSilent(w.log, [Inbound(j)], |w0.log|, w.sessions, w'.sessions, key, j);
    LogStaysSilent(w.log, [], |w0.log|, w.sessions, w'.sessions, key, j);
    assert w.log + [] == w.log;
    LineUntouched(w0, w, w', i, key, line);
  }

  lemma LineUntouched(w0: World, w: World, w': World, i: nat, key: Key, line: Key)
    requires LineOk(w0, w, i, key) && line != key && w'.turns - {line} == w.turns - {line}
    ensures LineOk(w0, w', i, key)
  {
    assert key in w.turns <==> key in w.turns - {line};
    assert key in w'.turns <==> key in w'.turns - {line};
    if key in w.turns {
      assert w.turns[key] == (w.turns - {line})[key] && w'.turns[key] == (w'.turns - {line})[key];
    }
  }

  lemma MarksAreSilent(i: nat, r: Routed)
    ensures forall e :: e in Marks(i, r) + Replies(i, r) ==> e.session == i
    ensures r.result.reply == "" ==> forall e :: e in Marks(i, r) + Replies(i, r) ==> !e.Reply?
    ensures r.result.reply != "" ==> Reply(i) in Marks(i, r) + Replies(i, r)
  {
    if r.result.reply != "" {
      assert (Marks(i, r) + Replies(i, r))[|Marks(i, r)|] == Reply(i);
    }
  }

  lemma OtherEndStaysWatched(w0: World, w: World, i: nat, key: Key, line: Key)
    requires Watched(w0, w, i, key) && line != key && IsRunning(w, line)
    ensures Watched(w0, End(w, line), i, key)
  {
    var w', p := End(w, line), w.turns[line];
    var r := Dispatch(p.seen, p.m.turn, w.maxTurns);
    assert LineKeyed(w.sessions, line, p);
    EndShape(w, line);
    NewestStill(w.sessions, w'.sessions, key, i);
    OtherLinesKeyed(w, w', line);
    ClicksStay(w, w');
    MarksAreSilent(p.i, r);
    LogStaysSilent(w.log, Marks(p.i, r) + Replies(p.i, r), |w0.log|, w.sessions, w'.sessions, key, p.i);
    LineUntouched(w0, w, w', i, key, line);
  }

  // ---- the line's own message, when harmless

  /** A message found the session with a human: it is logged and left alone. */
  lemma OwnBeginStaysWatched(w0: World, w: World, i: nat, key: Key)
    requires Watched(w0, w, i, key) && HasArrived(w, key) && Harmless(w.turns[key], w0.maxTurns, i)
    requires !(key in w0.turns && Dangerous(w0.turns[key], w0.maxTurns))
    ensures Watched(w0, Begin(w, key), i, key)
  {
    var w' := Begin(w, key);
    var p := w.turns[key];
    assert LineKeyed(w.sessions, key, p) && Attach(w.sessions, p.m, p.found).1 == i;
    BeginShape(w, key);
    assert |w'.sessions| == |w.sessions| && w'.sessions[i].status == Handoff && key !in w'.turns;
    NewestStill(w.sessions, w'.sessions, key, i);
    OtherLinesKeyed(w, w', key);
    ClicksStay(w, w');
    LogStaysSilent(w.log, [Inbound(i)], |w0.log|, w.sessions, w'.sessions, key, i);
    LogStaysSilent(w.log, [], |w0.log|, w.sessions, w'.sessions, key, i);
    assert w.log + [] == w.log;
  }

  /** What the end of a turn leaves of a status it does not know of. */
  lemma ResultOnHandoff(seen: Session, row: Session, r: Routed, now: int)
    requires row.status == Handoff
    ensures TurnResult(seen, row, r, now).status
      == if r.result.complete && !r.result.needsHuman && (r.result.reset || seen.status != Completed) then Completed else Handoff
  {
  }

  lemma OwnEndStaysWatched(w0: World, w: World, i: nat, key: Key)
    requires Watched(w0, w, i, key) && IsRunning(w, key) && Harmless(w.turns[key], w0.maxTurns, i)
    requires !(key in w0.turns && Dangerous(w0.turns[key], w0.maxTurns))
    ensures Watched(w0, End(w, key), i, key)
  {
    var w', p := End(w, key), w.turns[key];
    var r := Dispatch(p.seen, p.m.turn, w.maxTurns);
    EndShape(w, key);
    ResultOnHandoff(p.seen, w.sessions[i], r, p.m.now);
    NewestStill(w.sessions, w'.sessions, key, i);
    OtherLinesKeyed(w, w', key);
    ClicksStay(w, w');
    MarksAreSilent(i, r);
    LogStaysSilent(w.log, Marks(i, r) + Replies(i, r), |w0.log|, w.sessions, w'.sessions, key, i);
  }

  // ---- lookups, staff and sweeps

  lemma LookupStaysWatched(w0: World, w: World, i: nat, key: Key, m: Message)
    requires Watched(w0, w, i, key)
    ensures Watched(w0, Step(w, MessageRead(m)), i, key)
  {
    var w' := Step(w, MessageRead(m));
    if m.key !in w.turns {
      NewestLiveIsNewest(w.sessions, key, i);
      assert w'.turns - {m.key} == w.turns - {m.key};
      assert LineKeyed(w'.sessions, m.key, w'.turns[m.key]);
      OtherLinesKeyed(w, w', m.key);
      if m.key != key {
        LineUntouched(w0, w, w', i, key, m.key);
      }
    }
  }

  lemma StaffReadStaysWatched(w0: World, w: World, i: nat, key: Key, e: Event)
    requires Watched(w0, w, i, key) && e.StaffRead? && !HandsBack(e, key)
    ensures Watched(w0, Step(w, e), i, key)
  {
    NewestIsLast(w.sessions, e.key);
  }

  lemma ClickLeavesHandoff(w: World, i: nat, k: nat)
    requires ClickReady(w, k) && i < |w.sessions| && w.sessions[i].status == Handoff && NoResume(w, i)
    ensures WriteClick(w, k).sessions[i].status == Handoff && NoResume(WriteClick(w, k), i)
  {
  }

  lemma ClickStaysWatched(w0: World, w: World, i: nat, key: Key, k: nat)
    requires Watched(w0, w, i, key) && ClickReady(w, k)
    ensures Watched(w0, WriteClick(w, k), i, key)
  {
    var w', c := WriteClick(w, k), w.clicks[k].value;
    assert ClickOk(w.sessions, c);
    ClickLeavesHandoff(w, i, k);
    NewestStill(w.sessions, w'.sessions, key, i);
    OtherLinesKeyed(w, w', key);
    LogStaysSilent(w.log, [Cleared(c.i)], |w0.log|, w.sessions, w'.sessions, key, c.i);
    LogStaysSilent(w.log, [], |w0.log|, w.sessions, w'.sessions, key, c.i);
    assert w.log + [] == w.log;
  }

  lemma SweepReadStaysWatched(w0: World, w: World, i: nat, key: Key, now: int)
    requires Watched(w0, w, i, key)
    ensures Watched(w0, w.(sweeps := w.sweeps + [StaleIds(w.sessions, now)]), i, key)
  {
    var w' := w.(sweeps := w.sweeps + [StaleIds(w.sessions, now)]);
    OtherLinesKeyed(w, w', key);
    ClicksStay(w, w');
  }

  lemma SweepWrittenStaysWatched(w0: World, w: World, i: nat, key: Key, ids: seq<nat>)
    requires Watched(w0, w, i, key) && i !in ids
    ensures Watched(w0, w.(sessions := ExpireIds(w.sessions, ids)), i, key)
  {
    var w' := w.(sessions := ExpireIds(w.sessions, ids));
    NewestStill(w.sessions, w'.sessions, key, i);
    OtherLinesKeyed(w, w', key);
    ClicksStay(w, w');
  }

  lemma StepStaysWatched(w0: World, w: World, i: nat, key: Key, e: Event)
    requires Watched(w0, w, i, key) && !HandsBack(e, key) && !Disturbs(w0, e, i, key)
    ensures Watched(w0, Step(w, e), i, key)
  {
    match e {
      case MessageRead(m) => LookupStaysWatched(w0, w, i, key, m);
      case TurnBegun(line) =>
        if HasArrived(w, line) {
          if line == key {
            OwnBeginStaysWatched(w0, w, i, key);
          } else {
            OtherBeginStaysWatched(w0, w, i, key, line);
          }
        }
      case TurnEnded(line) =>
        if IsRunning(w, line) {
          if line == key {
            OwnEndStaysWatched(w0, w, i, key);
          } else {
            OtherEndStaysWatched(w0, w, i, key, line);
          }
        }
      case StaffRead(_, _, _, _) => StaffReadStaysWatched(w0, w, i, key, e);
      case StaffWritten(k) =>
        if ClickReady(w, k) {
          ClickStaysWatched(w0, w, i, key, k);
        }
      case SweepRead(now) => SweepReadStaysWatched(w0, w, i, key, now);
      case SweepWritten(k) =>
        if k < |w.sweeps| {
          SweepWrittenStaysWatched(w0, w, i, key, w.sweeps[k]);
        }
    }
  }

  // ------------------------------------------------------ and when it does not

  lemma BegunAnew(w0: World, w: World, i: nat, key: Key)
    requires Watched(w0, w, i, key) && HasArrived(w, key) && Dangerous(w.turns[key], w.maxTurns)
    ensures !Theirs(Begin(w, key), i, key, |w0.log|)
  {
    var p := w.turns[key];
    assert LineKeyed(w.sessions, key, p);
    BeginShape(w, key);
    NewestIsLast(Begin(w, key).sessions, key);
    assert Attach(w.sessions, p.m, p.found).1 == |w.sessions|;
  }

  lemma EndedOrAnswered(w0: World, w: World, i: nat, key: Key)
    requires Watched(w0, w, i, key) && IsRunning(w, key) && w.turns[key].i == i && Dangerous(w.turns[key], w.maxTurns)
    ensures !Theirs(End(w, key), i, key, |w0.log|)
  {
    var w', p := End(w, key), w.turns[key];
    var r := Dispatch(p.seen, p.m.turn, w.maxTurns);
    assert LineKeyed(w.sessions, key, p);
    EndShape(w, key);
    ResultOnHandoff(p.seen, w.sessions[i], r, p.m.now);
    if r.result.reply != "" {
      MarksAreSilent(i, r);
      var more := Marks(i, r) + Replies(i, r);
      var n :| 0 <= n < |more| && more[n] == Reply(i);
      assert w'.log[|w.log| + n] == Reply(i);
    }
  }

  /** Messages in progress when the watch began were about session i. */
  ghost predicate LineAt(w0: World, i: nat, key: Key) {
    key in w0.turns && w0.turns[key].Running? ==> w0.turns[key].i == i
  }

  lemma DisturbedIsLost(w0: World, w: World, i: nat, key: Key, e: Event)
    requires Watched(w0, w, i, key) && LineAt(w0, i, key) && Disturbs(w0, e, i, key)
    ensures !Theirs(Step(w, e), i, key, |w0.log|)
  {
    match e {
      case TurnBegun(_) =>
        assert LineKeyed(w.sessions, key, w.turns[key]);
        BegunAnew(w0, w, i, key);
      case TurnEnded(_) =>
        assert LineKeyed(w.sessions, key, w.turns[key]);
        EndedOrAnswered(w0, w, i, key);
      case SweepWritten(_) =>
    }
  }

  ghost predicate WatchedAt(w: World, es: seq<Event>, i: nat, key: Key, k: nat)
    requires k <= |es|
  {
    Watched(w, Run(w, es[..k]), i, key)
  }

  ghost predicate TheirsAt(w: World, es: seq<Event>, i: nat, key: Key, k: nat)
    requires k <= |es|
  {
    Theirs(Run(w, es[..k]), i, key, |w.log|)
  }

  lemma {:induction false} WatchedUntil(w: World, es: seq<Event>, i: nat, key: Key, k: nat)
    requires Watched(w, w, i, key) && k <= |es|
    requires forall n :: 0 <= n < k ==> !HandsBack(es[n], key) && !Disturbs(w, es[n], i, key)
    ensures WatchedAt(w, es, i, key, k)
  {
    if k > 0 {
      WatchedUntil(w, es, i, key, k - 1);
      StepStaysWatched(w, Run(w, es[..k - 1]), i, key, es[k - 1]);
      RunNext(w, es, k - 1);
    }
  }

  lemma FirstDisturbance(w: World, es: seq<Event>, i: nat, key: Key, n: nat) returns (k: nat)
    requires n < |es| && Disturbs(w, es[n], i, key)
    ensures k <= n && Disturbs(w, es[k], i, key) && forall j :: 0 <= j < k ==> !Disturbs(w, es[j], i, key)
  {
    if j: nat :| j < n && Disturbs(w, es[j], i, key) {
      k := FirstDisturbance(w, es, i, key, j);
    } else {
      k := n;
    }
  }

  /** A WhatsApp conversation that nobody hands back stays with the human, and
      unanswered by the bot, over any messages, staff actions and sweeps, exactly
      when nothing that was under way before it was taken over is carried out
      afterwards: no sweep that had read it, and no message of the line that
      had not yet seen the takeover and would open another session, complete
      this one, or answer. */
  lemma HandoffLastsExactlyWhen(w: World, es: seq<Event>, i: nat, key: Key)
    requires Sound(w) && LogInTable(w) && i < |w.sessions| && w.sessions[i].status == Handoff
    requires w.sessions[i].key == key && key.channel == WhatsApp && NoResume(w, i)
    requires forall k :: 0 <= k < |es| ==> !HandsBack(es[k], key)
    ensures (forall k :: 0 <= k <= |es| ==> TheirsAt(w, es, i, key, k))
      <==> (forall k :: 0 <= k < |es| ==> !Disturbs(w, es[k], i, key))
  {
    WatchBegins(w, i, key);
    if n :| 0 <= n < |es| && Disturbs(w, es[n], i, key) {
      var k := FirstDisturbance(w, es, i, key, n);
      WatchedUntil(w, es, i, key, k);
      DisturbedIsLost(w, Run(w, es[..k]), i, key, es[k]);
      RunNext(w, es, k);
      assert !TheirsAt(w, es, i, key, k + 1);
    } else {
      forall k | 0 <= k <= |es| ensures TheirsAt(w, es, i, key, k) {
        WatchedUntil(w, es, i, key, k);
        assert WatchedAt(w, es, i, key, k);
      }
    }
  }

  lemma WatchBegins(w: World, i: nat, key: Key)
    requires Sound(w) && LogInTable(w) && i < |w.sessions| && w.sessions[i].status == Handoff
    requires w.sessions[i].key == key && key.channel == WhatsApp && NoResume(w, i)
    ensures Watched(w, w, i, key) && LineAt(w, i, key)
  {
    LiveIsNewest(w.sessions, i);
    forall line | line in w.turns ensures LineKeyed(w.sessions, line, w.turns[line]) {
      assert PhaseOk(w.sessions, line, w.turns[line]);
      NewestIsLast(w.sessions, line);
    }
    if key in w.turns {
      assert PhaseOk(w.sessions, key, w.turns[key]);
    }
  }

  // ------------------------------------------------------- the races are real

  lemma RunAppend(w: World, es: seq<Event>, e: Event)
    ensures Run(w, es + [e]) == Step(Run(w, es), e)
  {
    assert (es + [e])[..|es + [e]| - 1] == es;
  }

  lemma RunOfFour(w: World, a: Event, b: Event, c: Event, d: Event)
    ensures Run(w, [a, b, c, d]) == Step(Step(Step(Step(w, a), b), c), d)
  {
    RunAppend(w, [], a);
    RunAppend(w, [a], b);
    RunAppend(w, [a, b], c);
    RunAppend(w, [a, b, c], d);
    assert [] + [a] == [a] && [a] + [b] == [a, b] && [a, b] + [c] == [a, b, c] && [a, b, c] + [d] == [a, b, c, d];
  }

  const LINE: Key := Key(0, WhatsApp, "p")

  function OneSession(): World {
    NoSessions(3).(sessions := [NewSession(LINE, None, 0)])
  }

  lemma OnlySession(t: seq<Session>)
    requires |t| == 1 && t[0].key == LINE
    ensures Newest(t, LINE) == Some(0) && NewestLive(t, LINE) == if Live(t[0]) then Some(0) else None
  {
    assert t[..0] == [];
    NewestLiveIsLast(t, LINE);
  }

  lemma StaffTakeTheLine(w: World, now: int)
    requires |w.sessions| == 1 && w.sessions[0].key == LINE && w.sessions[0].status == Active && w.clicks == []
    ensures var seen := w.sessions[0];
      Step(Step(w, StaffRead(LINE, false, "staff", now)), StaffWritten(0))
        == w.(sessions := [HandOff(seen, "staff", now)], clicks := [None])
  {
    OnlySession(w.sessions);
    var seen := w.sessions[0];
    var read := Step(w, StaffRead(LINE, false, "staff", now));
    assert read.clicks == [Some(Click(0, seen, false, "staff", now))] && ClickReady(read, 0);
    WriteOverItself(seen, HandOff(seen, "staff", now));
  }

  lemma SweepReadsIt()
    ensures Step(OneSession(), SweepRead(1_000_000)) == OneSession().(sweeps := [[0]])
  {
    assert OneSession().sessions[..0] == [];
    assert StaleIds(OneSession().sessions, 1_000_000) == [] + [0] == [0];
  }

  lemma RunOfThree(w: World, a: Event, b: Event, c: Event)
    ensures Run(w, [a, b, c]) == Step(Step(Step(w, a), b), c)
  {
    RunAppend(w, [], a);
    RunAppend(w, [a], b);
    RunAppend(w, [a, b], c);
    assert [] + [a] == [a] && [a] + [b] == [a, b] && [a, b] + [c] == [a, b, c];
  }

  lemma ReadThenTaken()
    ensures Run(OneSession(), [SweepRead(1_000_000), StaffRead(LINE, false, "staff", 1_000_000), StaffWritten(0)])
      == OneSession().(sweeps := [[0]], sessions := [HandOff(NewSession(LINE, None, 0), "staff", 1_000_000)], clicks := [None])
  {
    SweepReadsIt();
    StaffTakeTheLine(OneSession().(sweeps := [[0]]), 1_000_000);
    RunOfThree(OneSession(), SweepRead(1_000_000), StaffRead(LINE, false, "staff", 1_000_000), StaffWritten(0));
  }

  /** A sweep reads an idle session, staff take it over, and the sweep's write
      takes it away from them. */
  lemma LateSweepDropsTakeover()
    ensures var taken := [SweepRead(1_000_000), StaffRead(LINE, false, "staff", 1_000_000), StaffWritten(0)];
      && Theirs(Run(OneSession(), taken), 0, LINE, 0)
      && Run(OneSession(), taken + [SweepWritten(0)]).sessions[0].status == Expired
  {
    var taken := [SweepRead(1_000_000), StaffRead(LINE, false, "staff", 1_000_000), StaffWritten(0)];
    ReadThenTaken();
    RunAppend(OneSession(), taken, SweepWritten(0));
    OnlySession(Run(OneSession(), taken).sessions);
  }

  /** Two questions at once, answered together. */
  function TwoQuestions(): Message {
    var unused := StepResult("", None, map[], false, false, None, false);
    var turn := Turn("BUSINESS_HOURS_QUERY", false, unused, ["BUSINESS_HOURS_QUERY", "BUSINESS_LOCATION_QUERY"],
                     "We open at nine. We are in Leeds.", None, None);
    Message(LINE, "SM1", None, 0, turn)
  }

  lemma QuestionIsRunning()
    ensures var w := Step(Step(OneSession(), MessageRead(TwoQuestions())), TurnBegun(LINE));
      w == OneSession().(log := [Inbound(0)], turns := map[LINE := Running(TwoQuestions(), 0, NewSession(LINE, None, 0))])
  {
    OnlySession(OneSession().sessions);
    var arrived := Step(OneSession(), MessageRead(TwoQuestions()));
    assert HasArrived(arrived, LINE);
  }

  /** Staff take the conversation over while a turn is being worked out: the
      turn answers all the same, and completes the session under them. */
  lemma TurnEndsTakeover()
    ensures var asked := [MessageRead(TwoQuestions()), TurnBegun(LINE)];
      var taken := asked + [StaffRead(LINE, false, "staff", 0), StaffWritten(0)];
      && Theirs(Run(OneSession(), taken), 0, LINE, 0)
      && var w := Run(OneSession(), taken + [TurnEnded(LINE)]);
      w.sessions[0].status == Completed && w.log == [Inbound(0), Reply(0)]
  {
    var a, b, c, d := MessageRead(TwoQuestions()), TurnBegun(LINE), StaffRead(LINE, false, "staff", 0), StaffWritten(0);
    RunOfFour(OneSession(), a, b, c, d);
    assert [a, b] + [c, d] == [a, b, c, d];
    RunAppend(OneSession(), [a, b, c, d], TurnEnded(LINE));
    QuestionIsRunning();
    var running := Step(Step(OneSession(), a), b);
    StaffTakeTheLine(running, 0);
    var taken := Run(OneSession(), [a, b, c, d]);
    OnlySession(taken.sessions);
    assert IsRunning(taken, LINE);
    ResultOnHandoff(
      NewSession(LINE, None, 0), taken.sessions[0], Dispatch(NewSession(LINE, None, 0), TwoQuestions().turn, 3), 0);
  }

  /** Staff open an idle conversation, a message expires it and opens the next
      one, and the takeover brings the old one back: two are live, and the bot
      goes on answering on the newer. */
  lemma LateTakeoverLeavesTwoLive()
    ensures var m := TwoQuestions().(now := 1_000_000);
      var w := Run(OneSession(), [StaffRead(LINE, false, "staff", 0), MessageRead(m), TurnBegun(LINE), StaffWritten(0)]);
      && |w.sessions| == 2 && w.sessions[0].key == w.sessions[1].key == LINE
      && w.sessions[0].status == Handoff && w.sessions[1].status == Active
      && !OneLive(w.sessions)
  {
    var m := TwoQuestions().(now := 1_000_000);
    var idle := NewSession(LINE, None, 0);
    OnlySession(OneSession().sessions);
    RunOfFour(OneSession(), StaffRead(LINE, false, "staff", 0), MessageRead(m), TurnBegun(LINE), StaffWritten(0));
    var read := Step(OneSession(), StaffRead(LINE, false, "staff", 0));
    assert read == OneSession().(clicks := [Some(Click(0, idle, false, "staff", 0))]);
    var arrived := Step(read, MessageRead(m));
    assert HasArrived(arrived, LINE) && IsStale(idle, m.now);
    var begun := Step(arrived, TurnBegun(LINE));
    assert begun.sessions == [idle.(status := Expired), NewSession(LINE, None, m.now)];
    assert ClickReady(begun, 0);
    var after := Step(begun, StaffWritten(0)).sessions;
    assert Live(after[0]) && Live(after[1]);
  }

  // ----------------------------------------------------- one idea of "stale"

  function ExpireIfStale(s: Session, now: int): Session {
    if Live(s) && IsStale(s, now) then s.(status := Expired) else s
  }

  /** The prefiltered sweep expires exactly the live sessions that are stale. */
  lemma SweepIsStaleness(t: seq<Session>, now: int)
    ensures IsSwept(t, Sweep(t, now), now)
  {
  }

  lemma NewestLiveIs(t: seq<Session>, key: Key, r: Option<nat>)
    requires r.Some? ==> r.value < |t| && t[r.value].key == key && Live(t[r.value])
    requires forall j :: 0 <= j < |t| && t[j].key == key && Live(t[j]) ==> r == Some(j)
    ensures NewestLive(t, key) == r
  {
    NewestLiveIsLast(t, key);
  }

  lemma SweepAppend(t: seq<Session>, s: Session, now: int)
    requires ExpireIfStale(s, now) == s
    ensures Sweep(t + [s], now) == Sweep(t, now) + [s]
  {
    SweepIsStaleness(t, now);
    SweepIsStaleness(t + [s], now);
  }

  lemma SweepUpdate(t: seq<Session>, i: nat, s: Session, now: int)
    requires i < |t| && ExpireIfStale(s, now) == s
    ensures Sweep(t[i := s], now) == Sweep(t, now)[i := s]
  {
    SweepIsStaleness(t, now);
    SweepIsStaleness(t[i := s], now);
  }

  ghost predicate Commutes(t: seq<Session>, key: Key, customer: Option<nat>, now: int) {
    var (afterSweep, i) := GetOrCreate(Sweep(t, now), key, customer, now);
    var (direct, j) := GetOrCreate(t, key, customer, now);
    i == j && afterSweep == Sweep(direct, now)
  }

  /** `swept` is `t` with its stale live sessions expired. */
  ghost predicate IsSwept(t: seq<Session>, swept: seq<Session>, now: int) {
    |swept| == |t| && forall i :: 0 <= i < |t| ==> swept[i] == ExpireIfStale(t[i], now)
  }

  lemma SweptHasNoLive(t: seq<Session>, swept: seq<Session>, key: Key, now: int)
    requires IsSwept(t, swept, now)
    requires forall i :: 0 <= i < |t| && t[i].key == key && Live(t[i]) ==> IsStale(t[i], now)
    ensures NewestLive(swept, key).None?
  {
    NewestLiveIs(swept, key, None);
  }

  lemma SweptKeepsCurrent(t: seq<Session>, swept: seq<Session>, n: nat, now: int)
    requires IsSwept(t, swept, now) && OneLive(t) && n < |t| && Live(t[n]) && !IsStale(t[n], now)
    ensures swept[n] == t[n] && NewestLive(swept, t[n].key) == Some(n)
  {
    forall j | 0 <= j < |t| && t[j].key == t[n].key && Live(t[j]) ensures j == n {
      assert !(j < n) && !(n < j);
    }
    NewestLiveIs(swept, t[n].key, Some(n));
  }

  lemma NoneCommutes(t: seq<Session>, key: Key, customer: Option<nat>, now: int)
    requires NewestLive(t, key).None?
    ensures Commutes(t, key, customer, now)
  {
    NewestLiveIsLast(t, key);
    SweepIsStaleness(t, now);
    SweptHasNoLive(t, Sweep(t, now), key, now);
    SweepAppend(t, NewSession(key, customer, now), now);
  }

  lemma CurrentCommutes(t: seq<Session>, n: nat, customer: Option<nat>, now: int)
    requires OneLive(t) && n < |t| && Live(t[n]) && !IsStale(t[n], now)
    ensures Commutes(t, t[n].key, customer, now)
  {
    LiveIsNewest(t, n);
    SweepIsStaleness(t, now);
    SweptKeepsCurrent(t, Sweep(t, now), n, now);
    SweepUpdate(t, n, Link(t[n], customer), now);
  }

  lemma SweepOfExpired(t: seq<Session>, n: nat, now: int)
    requires n < |t| && Live(t[n]) && IsStale(t[n], now)
    ensures Sweep(t[n := t[n].(status := Expired)], now) == Sweep(t, now)
  {
    SweepIsStaleness(t, now);
    SweepIsStaleness(t[n := t[n].(status := Expired)], now);
  }

  lemma AllLiveStale(t: seq<Session>, n: nat, now: int)
    requires OneLive(t) && n < |t| && Live(t[n]) && IsStale(t[n], now)
    ensures forall i :: 0 <= i < |t| && t[i].key == t[n].key && Live(t[i]) ==> IsStale(t[i], now)
  {
    forall j | 0 <= j < |t| && t[j].key == t[n].key && Live(t[j]) ensures IsStale(t[j], now) {
      assert !(j < n) && !(n < j);
    }
  }

  lemma StaleCommutes(t: seq<Session>, n: nat, customer: Option<nat>, now: int)
    requires OneLive(t) && n < |t| && Live(t[n]) && IsStale(t[n], now)
    ensures Commutes(t, t[n].key, customer, now)
  {
    LiveIsNewest(t, n);
    AllLiveStale(t, n, now);
    SweepIsStaleness(t, now);
    SweptHasNoLive(t, Sweep(t, now), t[n].key, now);
    SweepOfExpired(t, n, now);
    SweepAppend(t[n := t[n].(status := Expired)], NewSession(t[n].key, customer, now), now);
  }

  /** Sweeping just before a message or just after it is the same thing: the
      sweep expires what the message itself would have. */
  lemma SweepAgreesWithTheNextMessage(t: seq<Session>, key: Key, customer: Option<nat>, now: int)
    requires OneLive(t)
    ensures Commutes(t, key, customer, now)
  {
    match NewestLive(t, key) {
      case None => NoneCommutes(t, key, customer, now);
      case Some(n) =>
        if IsStale(t[n], now) {
          StaleCommutes(t, n, customer, now);
        } else {
          CurrentCommutes(t, n, customer, now);
        }
    }
  }

  // --------------------------------------------------------------- redelivery

  lemma GetOrCreateLinks(t: seq<Session>, key: Key, customer: Option<nat>, now: int)
    ensures var (t', i) := GetOrCreate(t, key, customer, now); customer.Some? ==> t'[i].customer.Some?
  {
  }

  lemma HandledSession(w: World, m: Message)
    requires OneLive(w.sessions)
    ensures var (t, i) := GetOrCreate(w.sessions, m.key, m.customer, m.now);
      var t' := HandleMessage(w, m).sessions;
      && |t'| == |t| && t'[i].key == m.key && OneLive(t')
      && Newest(t', m.key) == Some(i)
      && (m.id != "" ==> t'[i].lastMessage == m.id)
      && (m.customer.Some? ==> t'[i].customer.Some?)
  {
    var (t, i) := GetOrCreate(w.sessions, m.key, m.customer, m.now);
    var t' := HandleMessage(w, m).sessions;
    GetOrCreateKeepsOneLive(w.sessions, m.key, m.customer, m.now);
    MessageKeepsOneLive(w, m);
    LiveIsNewest(t, i);
    NewestIsLast(t, m.key);
    RowKeeps(t[i], m, w.maxTurns);
    GetOrCreateLinks(w.sessions, m.key, m.customer, m.now);
    NewestIsLast(t', m.key);
  }

  /** Ignored, or written to the log. */
  lemma IgnoredOrLogged(w: World, m: Message)
    ensures var (t, i) := GetOrCreate(w.sessions, m.key, m.customer, m.now);
      if AlreadyProcessed(t[i], m.id) then HandleMessage(w, m) == w.(sessions := t)
      else |HandleMessage(w, m).log| > |w.log|
  {
    var (t, i) := GetOrCreate(w.sessions, m.key, m.customer, m.now);
    assert t[i := t[i]] == t;
  }

  /** A message delivered again does nothing exactly when it has an id and the
      session it drove is still live and not stale: after a turn that ended the
      session, the same message starts a new one. */
  lemma RedeliveryIgnoredExactlyWhen(w: World, m: Message, again: Message)
    requires OneLive(w.sessions)
    requires again.key == m.key && again.id == m.id && again.customer == m.customer
    ensures var i := GetOrCreate(w.sessions, m.key, m.customer, m.now).1;
      var w' := HandleMessage(w, m);
      && i < |w'.sessions|
      && (HandleMessage(w', again) == w'
          <==> m.id != "" && Live(w'.sessions[i]) && !IsStale(w'.sessions[i], again.now))
  {
    var i := GetOrCreate(w.sessions, m.key, m.customer, m.now).1;
    var w' := HandleMessage(w, m);
    HandledSession(w, m);
    IgnoredOrLogged(w', again);
    NewestIsLast(w'.sessions, m.key);
    NewestLiveIsLast(w'.sessions, m.key);
    if Live(w'.sessions[i]) {
      LiveIsNewest(w'.sessions, i);
      assert w'.sessions[i := w'.sessions[i]] == w'.sessions;
    }
  }

  /** Two questions asked at once are answered and complete the session, so the
      same message delivered again is answered again, in another session. */
  lemma RedeliveryStartsASession() returns (w: World, m: Message)
    ensures w.sessions == [] && m.id != "" && |m.turn.faqs| == 2
    ensures var once := HandleMessage(w, m); var twice := HandleMessage(once, m);
      && |once.sessions| == 1 && once.sessions[0].status == Completed && once.log == [Inbound(0), Reply(0)]
      && |twice.sessions| == 2 && twice.log == once.log + [Inbound(1), Reply(1)]
  {
    w := NoSessions(3);
    m := TwoQuestions();
    var once := HandleMessage(w, m);
    assert once.sessions[..0] == [] && NewestLive(once.sessions, m.key) == None;
  }

  // ---------------------------------------------------------- unresolved turns

  /** Unresolved turns of a session since its context was last wiped. */
  function PuzzledSince(log: seq<Entry>, i: nat): nat {
    if log == [] then 0
    else
      var before := PuzzledSince(log[..|log| - 1], i);
      if log[|log| - 1] == Puzzled(i) then before + 1
      else if log[|log| - 1] == Cleared(i) then 0
      else before
  }

  lemma PuzzledAppend(log: seq<Entry>, e: Entry, i: nat)
    ensures PuzzledSince(log + [e], i)
      == if e == Puzzled(i) then PuzzledSince(log, i) + 1 else if e == Cleared(i) then 0 else PuzzledSince(log, i)
  {
    assert (log + [e])[..|log|] == log;
  }

  lemma PuzzledMarks(log: seq<Entry>, i: nat, r: Routed, n: nat)
    ensures PuzzledSince(log + Marks(i, r), n)
      == if n != i then PuzzledSince(log, n)
         else (if r.result.reset then 0 else PuzzledSince(log, n)) + (if r.count.Some? then 1 else 0)
  {
    var cleared := if r.result.reset then log + [Cleared(i)] else log;
    PuzzledAppend(log, Cleared(i), n);
    PuzzledAppend(cleared, Puzzled(i), n);
    assert log + Marks(i, r) == if r.count.Some? then cleared + [Puzzled(i)] else cleared;
  }

  lemma PuzzledReplies(log: seq<Entry>, i: nat, r: Routed, n: nat)
    ensures PuzzledSince(log + Replies(i, r), n) == PuzzledSince(log, n)
  {
    PuzzledAppend(log, Reply(i), n);
    assert log + [] == log;
  }

  /** The unresolved turns of a session once this message is handled. */
  function PuzzledAfter(before: nat, s: Session, m: Message, maxTurns: nat): nat {
    if AlreadyProcessed(s, m.id) || s.status == Handoff then before
    else
      var r := Dispatch(s, m.turn, maxTurns);
      (if r.result.reset then 0 else before) + (if r.count.Some? then 1 else 0)
  }

  lemma EntriesCount(log: seq<Entry>, i: nat, s: Session, m: Message, maxTurns: nat, n: nat)
    ensures PuzzledSince(log + Entries(i, s, m, maxTurns), n)
      == if n == i then PuzzledAfter(PuzzledSince(log, n), s, m, maxTurns) else PuzzledSince(log, n)
  {
    var r := Dispatch(s, m.turn, maxTurns);
    var inbound := log + [Inbound(i)];
    PuzzledAppend(log, Inbound(i), n);
    PuzzledMarks(inbound, i, r, n);
    PuzzledReplies(inbound + Marks(i, r), i, r, n);
    assert inbound + Marks(i, r) + Replies(i, r) == log + ([Inbound(i)] + Marks(i, r) + Replies(i, r));
    assert log + [] == log;
  }

  /** The stored counter is the number of unresolved turns since the last wipe. */
  ghost predicate Counted(w: World) {
    && (forall i: nat :: i < |w.sessions|
          ==> w.sessions[i].unresolved == PuzzledSince(w.log, i) < w.maxTurns)
    && (forall i: nat :: |w.sessions| <= i ==> PuzzledSince(w.log, i) == 0)
  }

  lemma FinalizeCounts(s: Session, turn: Turn, maxTurns: nat, now: int)
    requires s.unresolved < maxTurns
    ensures var r := Dispatch(s, turn, maxTurns); var s' := Finalize(s, r, now);
      && s'.unresolved == (if r.result.reset then 0 else s.unresolved) + (if r.count.Some? then 1 else 0)
      && s'.unresolved < maxTurns
  {
  }

  lemma RowCounts(s: Session, m: Message, maxTurns: nat)
    requires s.unresolved < maxTurns
    ensures RowAfter(s, m, maxTurns).unresolved == PuzzledAfter(s.unresolved, s, m, maxTurns) < maxTurns
  {
    FinalizeCounts(s, m.turn, maxTurns, m.now);
  }

  lemma MessageKeepsCount(w: World, m: Message)
    requires Counted(w) && w.maxTurns > 0
    ensures Counted(HandleMessage(w, m))
  {
    var (t, i) := GetOrCreate(w.sessions, m.key, m.customer, m.now);
    assert forall n: nat :: n < |t| ==> t[n].unresolved == PuzzledSince(w.log, n) < w.maxTurns;
    RowCounts(t[i], m, w.maxTurns);
    forall n: nat
      ensures PuzzledSince(HandleMessage(w, m).log, n)
        == if n == i then PuzzledAfter(PuzzledSince(w.log, n), t[i], m, w.maxTurns) else PuzzledSince(w.log, n)
    {
      EntriesCount(w.log, i, t[i], m, w.maxTurns, n);
    }
  }

  // ---- turns that run on a copy

  predicate NoContext(s: Session) {
    s.slots == map[] && s.unresolved == 0
  }

  /** The end of the turn writes a context it made from its copy. */
  predicate WritesContext(p: Phase, maxTurns: nat)
    requires p.Running?
  {
    var r := Dispatch(p.seen, p.m.turn, maxTurns);
    && !r.result.reset && !r.result.needsHuman && !r.result.complete
    && (p.seen.slots + r.result.updates, r.count.GetOr(p.seen.unresolved)) != (p.seen.slots, p.seen.unresolved)
  }

  /** The write leaves a counter that is off: a turn's context, made when the
      counter was another; or a wipe that is not written, because the copy it was
      decided on had nothing to wipe while the row by now has. */
  predicate Miscounts(w: World, e: Event) {
    match e
    case TurnEnded(key) =>
      && IsRunning(w, key)
      && var p, row := w.turns[key], w.sessions[w.turns[key].i];
      || (WritesContext(p, w.maxTurns) && p.seen.unresolved != row.unresolved)
      || (Dispatch(p.seen, p.m.turn, w.maxTurns).result.reset && NoContext(p.seen) && row.unresolved != 0)
    case StaffWritten(k) =>
      && ClickReady(w, k)
      && var c := w.clicks[k].value;
      c.resume && NoContext(c.seen) && w.sessions[c.i].unresolved != 0
    case _ => false
  }

  lemma OnlyUnresolvedCounts(s: Session, turn: Turn, maxTurns: nat)
    ensures var r := Dispatch(s, turn, maxTurns);
      var plain := !r.result.reset && !r.result.needsHuman && !r.result.complete;
      r.count.Some? ==> r.count.value == s.unresolved + 1 < maxTurns && plain
  {
  }

  /** The counter a turn leaves: its own where it writes a context, else the row's. */
  lemma ResultCounts(seen: Session, row: Session, r: Routed, now: int)
    requires r.count.Some? ==> !r.result.reset && !r.result.needsHuman && !r.result.complete
    ensures var made := (seen.slots + r.result.updates, r.count.GetOr(seen.unresolved));
      var writes := !r.result.needsHuman && !r.result.complete && made != (seen.slots, seen.unresolved);
      TurnResult(seen, row, r, now).unresolved
        == if r.result.reset then (if NoContext(seen) then row.unresolved else 0)
           else if writes then made.1 else row.unresolved
  {
  }

  lemma MarksCount(log: seq<Entry>, i: nat, r: Routed, n: nat)
    ensures PuzzledSince(log + Marks(i, r) + Replies(i, r), n)
      == if n != i then PuzzledSince(log, n)
         else (if r.result.reset then 0 else PuzzledSince(log, n)) + (if r.count.Some? then 1 else 0)
  {
    PuzzledMarks(log, i, r, n);
    PuzzledReplies(log + Marks(i, r), i, r, n);
  }

  /** One row and its log entries changed; the others count as before. */
  lemma OneRowCounts(w: World, w': World, i: nat)
    requires Counted(w) && i < |w.sessions| == |w'.sessions| && w'.maxTurns == w.maxTurns
    requires forall n :: 0 <= n < |w.sessions| && n != i ==> w'.sessions[n] == w.sessions[n]
    requires forall n: nat :: n != i ==> PuzzledSince(w'.log, n) == PuzzledSince(w.log, n)
    ensures Counted(w') <==> w'.sessions[i].unresolved == PuzzledSince(w'.log, i) < w'.maxTurns
  {
  }

  lemma EndCountsExactlyWhen(w: World, key: Key)
    requires Counted(w) && w.maxTurns > 0 && IsRunning(w, key)
    ensures Counted(End(w, key)) <==> !Miscounts(w, TurnEnded(key))
  {
    var p, w' := w.turns[key], End(w, key);
    var r := Dispatch(p.seen, p.m.turn, w.maxTurns);
    OnlyUnresolvedCounts(p.seen, p.m.turn, w.maxTurns);
    ResultCounts(p.seen, w.sessions[p.i], r, p.m.now);
    forall n: nat
      ensures PuzzledSince(w'.log, n)
        == if n != p.i then PuzzledSince(w.log, n)
           else (if r.result.reset then 0 else PuzzledSince(w.log, n)) + (if r.count.Some? then 1 else 0)
    {
      MarksCount(w.log, p.i, r, n);
    }
    OneRowCounts(w, w', p.i);
  }

  lemma AttachKeepsCount(w: World, m: Message, found: Option<(nat, Session)>)
    requires Counted(w) && w.maxTurns > 0 && (found.Some? ==> found.value.0 < |w.sessions|)
    ensures Counted(w.(sessions := Attach(w.sessions, m, found).0))
  {
    var t := Attach(w.sessions, m, found).0;
    assert forall n: nat :: n < |t| ==> t[n].unresolved == PuzzledSince(w.log, n) < w.maxTurns;
  }

  lemma InboundKeepsCount(w: World, j: nat)
    requires Counted(w)
    ensures Counted(w.(log := w.log + [Inbound(j)]))
  {
    forall n: nat ensures PuzzledSince(w.log + [Inbound(j)], n) == PuzzledSince(w.log, n) {
      PuzzledAppend(w.log, Inbound(j), n);
    }
  }

  lemma BeginKeepsCount(w: World, key: Key)
    requires Counted(w) && w.maxTurns > 0 && HasArrived(w, key)
    ensures Counted(Begin(w, key))
  {
    var p := w.turns[key];
    var (t, j) := Attach(w.sessions, p.m, p.found);
    AttachKeepsCount(w, p.m, p.found);
    InboundKeepsCount(w.(sessions := t), j);
  }

  lemma ClickCountsExactlyWhen(w: World, k: nat)
    requires Counted(w) && w.maxTurns > 0 && ClickReady(w, k)
    ensures Counted(WriteClick(w, k)) <==> !Miscounts(w, StaffWritten(k))
  {
    var c, w' := w.clicks[k].value, WriteClick(w, k);
    forall n: nat
      ensures PuzzledSince(w.log + [Cleared(c.i)], n) == if n == c.i then 0 else PuzzledSince(w.log, n)
    {
      PuzzledAppend(w.log, Cleared(c.i), n);
    }
    OneRowCounts(w, w', c.i);
  }

  lemma StepCountsExactlyWhen(w: World, e: Event)
    requires Counted(w) && w.maxTurns > 0
    ensures Counted(Step(w, e)) <==> !Miscounts(w, e)
  {
    match e {
      case TurnBegun(key) =>
        if HasArrived(w, key) {
          BeginKeepsCount(w, key);
        }
      case TurnEnded(key) =>
        if IsRunning(w, key) {
          EndCountsExactlyWhen(w, key);
        }
      case StaffWritten(k) =>
        if ClickReady(w, k) {
          ClickCountsExactlyWhen(w, k);
        }
      case _ =>
    }
  }

  ghost predicate MiscountsAt(w: World, es: seq<Event>, k: nat)
    requires k < |es|
  {
    Miscounts(Run(w, es[..k]), es[k])
  }

  ghost predicate CountedAt(w: World, es: seq<Event>, k: nat)
    requires k <= |es|
  {
    Counted(Run(w, es[..k]))
  }

  lemma StepKeepsLimit(w: World, e: Event)
    ensures Step(w, e).maxTurns == w.maxTurns
  {
  }

  lemma {:induction false} LimitStays(w: World, es: seq<Event>, k: nat)
    requires k <= |es|
    ensures Run(w, es[..k]).maxTurns == w.maxTurns
  {
    if k > 0 {
      LimitStays(w, es, k - 1);
      StepKeepsLimit(Run(w, es[..k - 1]), es[k - 1]);
      RunNext(w, es, k - 1);
    }
  }

  lemma NextCountsExactlyWhen(w: World, es: seq<Event>, k: nat)
    requires w.maxTurns > 0 && k < |es| && CountedAt(w, es, k)
    ensures CountedAt(w, es, k + 1) <==> !MiscountsAt(w, es, k)
  {
    LimitStays(w, es, k);
    StepCountsExactlyWhen(Run(w, es[..k]), es[k]);
    RunNext(w, es, k);
  }

  lemma {:induction false} CountUntil(w: World, es: seq<Event>, k: nat)
    requires Counted(w) && w.maxTurns > 0 && k <= |es| && forall j :: 0 <= j < k ==> !MiscountsAt(w, es, j)
    ensures CountedAt(w, es, k)
  {
    if k > 0 {
      CountUntil(w, es, k - 1);
      NextCountsExactlyWhen(w, es, k - 1);
    }
  }

  lemma FirstMiscount(w: World, es: seq<Event>, n: nat) returns (k: nat)
    requires n < |es| && MiscountsAt(w, es, n)
    ensures k <= n && MiscountsAt(w, es, k) && forall j :: 0 <= j < k ==> !MiscountsAt(w, es, j)
  {
    if j: nat :| j < n && MiscountsAt(w, es, j) {
      k := FirstMiscount(w, es, j);
    } else {
      k := n;
    }
  }

  /** In every state of a run each session's stored counter is the number of its
      unresolved turns since its context was last wiped, exactly unless a hand-back
      and a turn cross. */
  lemma CountIsKeptExactlyWhen(w: World, es: seq<Event>)
    requires Counted(w) && w.maxTurns > 0
    ensures (forall k :: 0 <= k <= |es| ==> CountedAt(w, es, k)) <==> (forall k :: 0 <= k < |es| ==> !MiscountsAt(w, es, k))
  {
    if n :| 0 <= n < |es| && MiscountsAt(w, es, n) {
      var k := FirstMiscount(w, es, n);
      CountUntil(w, es, k);
      NextCountsExactlyWhen(w, es, k);
      assert !CountedAt(w, es, k + 1);
    } else {
      forall k | 0 <= k <= |es| ensures CountedAt(w, es, k) {
        CountUntil(w, es, k);
      }
    }
  }

  /** No command, question, step or intent of the flow takes this message. */
  predicate NothingAnswers(s: Session, turn: Turn) {
    var asks := turn.body != "" && |turn.faqs| >= if s.step.Some? then 1 else 2;
    && turn.started.None?
    && (if s.step.Some? then !IsNav(turn.guess) && (turn.interrupts || (!asks && turn.handler.None?)) else !asks)
  }

  /** A turn nothing could answer hands over exactly when it makes the number
      of such turns since the last wipe reach the limit. The count is of all of
      them: understood turns in between do not reset it. */
  lemma HandsOverOnTheLastPuzzle(maxTurns: nat, es: seq<Event>, i: nat, turn: Turn)
    requires maxTurns > 0 && i < |Run(NoSessions(maxTurns), es).sessions|
    requires forall k :: 0 <= k < |es| ==> !MiscountsAt(NoSessions(maxTurns), es, k)
    requires NothingAnswers(Run(NoSessions(maxTurns), es).sessions[i], turn)
    ensures var w := Run(NoSessions(maxTurns), es);
      Dispatch(w.sessions[i], turn, maxTurns).result.needsHuman <==> PuzzledSince(w.log, i) == maxTurns - 1
  {
    CountUntil(NoSessions(maxTurns), es, |es|);
    LimitStays(NoSessions(maxTurns), es, |es|);
    assert es[..|es|] == es;
  }

  /** It would: a wiped session gets its old count back, and one more. */
  lemma RunningTurnBringsCountBack(w: World, key: Key, k: nat)
    requires w.maxTurns > 2 && IsRunning(w, key) && ClickReady(w, k)
    requires var p, c := w.turns[key], w.clicks[k].value;
      && c.i == p.i && c.resume && c.seen == w.sessions[p.i].(status := Handoff) && c.seen.unresolved == 1
      && p.seen.unresolved == 1 && NothingAnswers(p.seen, p.m.turn)
    ensures var i := w.turns[key].i; var wiped := Step(w, StaffWritten(k)); var w' := Step(wiped, TurnEnded(key));
      Miscounts(wiped, TurnEnded(key)) && w'.sessions[i].unresolved == 2 && PuzzledSince(w'.log, i) == 1
  {
    var p := w.turns[key];
    var wiped := Step(w, StaffWritten(k));
    assert IsRunning(wiped, key) && wiped.turns[key] == p;
    PuzzledAppend(w.log, Cleared(p.i), p.i);
    MarksCount(wiped.log, p.i, Dispatch(p.seen, p.m.turn, w.maxTurns), p.i);
  }

  /** Puzzled, understood, puzzled: with a limit of two the third turn hands
      over, though no two unresolved turns came in a row. */
  lemma UnderstoodTurnDoesNotReset(s: Session, now: int) returns (puzzling: Turn, clear: Turn)
    requires s.status == Active && s.step.None? && s.unresolved == 0
    ensures NothingAnswers(s, puzzling) && clear.started.Some?
    ensures var s' := Turns(s, [puzzling, clear], 2, now);
      s'.status == Active && NothingAnswers(s', puzzling) && Dispatch(s', puzzling, 2).result.needsHuman
  {
    var fine := StepResult("we open at nine", None, map[], false, false, None, false);
    puzzling := Turn(UNKNOWN, false, fine, [], "", None, None);
    clear := Turn("BUSINESS_HOURS_QUERY", false, fine, [], "", None, Some(fine));
    var first, both := [puzzling], [puzzling, clear];
    assert first[..0] == [] && both[..1] == first;
    assert Turns(s, first[..0], 2, now) == s;
    assert Turns(s, first, 2, now) == Finalize(s, Dispatch(s, puzzling, 2), now);
    assert Turns(s, first, 2, now).unresolved == 1;
  }

  // ------------------------------------------------------------------- asides

  /** The flow a session is in, on hold or not. */
  function FlowOf(s: Session): (Option<string>, Option<string>) {
    if s.step == Some(AWAITING_RESUME) then (Slot(s, RESUME_STEP), Slot(s, RESUME_INTENT)) else (s.step, s.intent)
  }

  /** In the middle of a flow this is a question, not an answer. */
  predicate AsksAside(turn: Turn) {
    !IsNav(turn.guess) && !turn.interrupts && turn.faqs != [] && turn.body != ""
  }

  function Turns(s: Session, turns: seq<Turn>, maxTurns: nat, now: int): Session {
    if turns == [] then s
    else
      var before := Turns(s, turns[..|turns| - 1], maxTurns, now);
      Finalize(before, Dispatch(before, turns[|turns| - 1], maxTurns), now)
  }

  lemma AsideHolds(s: Session, turn: Turn, maxTurns: nat, now: int, name: string)
    requires s.step.Some? && AsksAside(turn)
    ensures var s' := Finalize(s, Dispatch(s, turn, maxTurns), now);
      && FlowOf(s') == FlowOf(s) && s'.step.Some? && s'.status == s.status && s'.unresolved == s.unresolved
      && (name != RESUME_STEP && name != RESUME_INTENT ==> Slot(s', name) == Slot(s, name))
  {
    var r := Dispatch(s, turn, maxTurns);
    var s' := Finalize(s, r, now);
    assert r == Aside(s, turn);
    assert s'.step == Some(AWAITING_RESUME);
    assert RESUME_STEP[7] != RESUME_INTENT[7];
    assert s'.slots[RESUME_STEP] == FlowOf(s).0 && s'.slots[RESUME_INTENT] == FlowOf(s).1;
  }

  /** However many questions a customer asks in the middle of a booking, the
      flow to go back to is the one that was interrupted first, and every other
      answer given so far is kept. */
  lemma {:induction false} AsidesHoldTheFlow(s: Session, turns: seq<Turn>, maxTurns: nat, now: int, name: string)
    requires s.step.Some?
    requires forall turn :: turn in turns ==> AsksAside(turn)
    ensures var s' := Turns(s, turns, maxTurns, now);
      && FlowOf(s') == FlowOf(s) && s'.step.Some? && s'.status == s.status && s'.unresolved == s.unresolved
      && (name != RESUME_STEP && name != RESUME_INTENT ==> Slot(s', name) == Slot(s, name))
  {
    if turns != [] {
      AsidesHoldTheFlow(s, turns[..|turns| - 1], maxTurns, now, name);
      AsideHolds(Turns(s, turns[..|turns| - 1], maxTurns, now), turns[|turns| - 1], maxTurns, now, name);
    }
  }
}
