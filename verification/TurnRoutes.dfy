/** What one message does, route by route: which session it belongs to, who
    answers it, and the row and log it leaves. */
module TurnRoutes {
  import opened Wrappers
  import opened Sessions

  const DEFAULT_REASON := "Automation could not continue safely."

  /** The message belongs to row `i` of `t`: the newest live session of its line,
      or a blank one begun because there is none or it has gone stale. */
  ghost predicate Belongs(w: World, m: Message, t: seq<Session>, i: nat) {
    var blank := Session(m.key, m.customer, Active, None, None, map[], 0, None, "", m.now);
    match NewestLive(w.sessions, m.key)
    case None => t == w.sessions + [blank] && i == |w.sessions|
    case Some(j) =>
      var s := w.sessions[j];
      if IsStale(s, m.now) then t == w.sessions[j := s.(status := Expired)] + [blank] && i == |w.sessions|
      else i == j && t == w.sessions[j := s.(customer := if s.customer.Some? then s.customer else m.customer)]
  }

  /** The bot is to answer: the session is the bot's and the message is new. */
  ghost predicate ToAnswer(w: World, m: Message, t: seq<Session>, i: nat) {
    Belongs(w, m, t, i) && i < |t| && t[i].status == Active && (m.id == "" || t[i].lastMessage != m.id)
  }

  /** The row after an answer: handed over, finished, or at the next step with the
      new slots set; nothing else of the context changes unless it is wiped. */
  ghost predicate Answered(s: Session, m: Message, intent: string, h: StepResult, puzzled: bool, b: Session) {
    var goesOn := !h.needsHuman && !h.complete;
    && b.key == s.key && b.customer == s.customer && b.intent == Some(intent)
    && b.status == (if h.needsHuman then Handoff else if h.complete then Completed else Active)
    && b.step == (if goesOn then h.step else if !h.needsHuman || h.reset then None else s.step)
    && b.reason == (if h.needsHuman then Some(h.reason.GetOr(DEFAULT_REASON)) else s.reason)
    && b.unresolved == (if puzzled then s.unresolved + 1 else if h.reset then 0 else s.unresolved)
    && b.lastMessage == (if m.id == "" then s.lastMessage else m.id)
    && b.lastActivity == (if h.complete && !h.needsHuman && !h.reset then s.lastActivity else m.now)
    && (goesOn ==> forall name :: name in h.updates ==> name in b.slots && b.slots[name] == h.updates[name])
    && (forall name :: !(goesOn && name in h.updates) ==> Kept(s, h.reset, name, b))
  }

  /** The slot stays as it was, or is gone with the rest of the context. */
  predicate Kept(s: Session, reset: bool, name: string, b: Session) {
    if reset || name !in s.slots then name !in b.slots else name in b.slots && b.slots[name] == s.slots[name]
  }

  /** No other row changes, the message is logged, then a wiped context, a puzzled
      turn, and a reply exactly when there is something to say. */
  ghost predicate Answers(
    w: World, m: Message, t: seq<Session>, i: nat, intent: string, h: StepResult, puzzled: bool)
    requires i < |t|
  {
    var after := HandleMessage(w, m);
    && |after.sessions| == |t| && (forall j :: 0 <= j < |t| && j != i ==> after.sessions[j] == t[j])
    && Answered(t[i], m, intent, h, puzzled, after.sessions[i])
    && after.log == w.log + [Inbound(i)] + (if h.reset then [Cleared(i)] else [])
                    + (if puzzled then [Puzzled(i)] else []) + if h.reply == "" then [] else [Reply(i)]
  }

  lemma BelongsIsFound(w: World, m: Message, t: seq<Session>, i: nat)
    requires Belongs(w, m, t, i)
    ensures GetOrCreate(w.sessions, m.key, m.customer, m.now) == (t, i)
  {
  }

  lemma FinalizedIsAnswered(s: Session, m: Message, r: Routed)
    requires s.status == Active && r.count == (if r.count.Some? then Some(s.unresolved + 1) else None)
    requires r.count.Some? ==> !r.result.needsHuman && !r.result.complete && !r.result.reset
    ensures Answered(s, m, r.intent, r.result, r.count.Some?, MarkProcessed(Finalize(s, r, m.now), m.id))
  {
  }

  lemma RoutedAnswers(w: World, m: Message, t: seq<Session>, i: nat, r: Routed)
    requires ToAnswer(w, m, t, i) && Dispatch(t[i], m.turn, w.maxTurns) == r
    requires r.count == (if r.count.Some? then Some(t[i].unresolved + 1) else None)
    requires r.count.Some? ==> !r.result.needsHuman && !r.result.complete && !r.result.reset
    ensures Answers(w, m, t, i, r.intent, r.result, r.count.Some?)
  {
    BelongsIsFound(w, m, t, i);
    FinalizedIsAnswered(t[i], m, r);
    assert Entries(i, t[i], m, w.maxTurns) == [Inbound(i)] + Marks(i, r) + Replies(i, r);
  }

  // ---------------------------------------------------------------- the routes

  predicate IsCommand(turn: Turn) {
    turn.guess == RESET_FLOW || turn.guess == ABANDON_FLOW || turn.guess == GO_BACK
  }

  predicate IsQuestion(turn: Turn) {
    turn.faqs != [] && turn.body != ""
  }

  /** In the middle of a flow a command steers it; only going back keeps the
      flow's intent. */
  lemma CommandRoute(w: World, m: Message, t: seq<Session>, i: nat)
    requires ToAnswer(w, m, t, i) && t[i].step.Some? && IsCommand(m.turn)
    ensures var intent := if m.turn.guess == GO_BACK && t[i].intent.Some? then t[i].intent.value else m.turn.guess;
      Answers(w, m, t, i, intent, m.turn.nav, false)
  {
    RoutedAnswers(w, m, t, i, Dispatch(t[i], m.turn, w.maxTurns));
  }

  /** A request that may interrupt starts its own flow. */
  lemma InterruptRoute(w: World, m: Message, t: seq<Session>, i: nat)
    requires ToAnswer(w, m, t, i) && t[i].step.Some? && !IsCommand(m.turn) && m.turn.interrupts
    ensures StartsIntent(w, m, t, i)
  {
    StartedAnswers(w, m, t, i);
  }

  /** A question in the middle of a flow is answered with the flow put on hold: its
      step and intent are kept to come back to, also through further questions. */
  lemma AsideRoute(w: World, m: Message, t: seq<Session>, i: nat)
    requires ToAnswer(w, m, t, i) && t[i].step.Some? && !IsCommand(m.turn) && !m.turn.interrupts && IsQuestion(m.turn)
    ensures var s, held := t[i], t[i].step == Some(AWAITING_RESUME);
      var step := if held then Slot(s, RESUME_STEP) else s.step;
      var intent := if held then Slot(s, RESUME_INTENT) else s.intent;
      var pause := map[RESUME_STEP := step, RESUME_INTENT := intent];
      Answers(w, m, t, i, if s.intent.Some? then s.intent.value else m.turn.faqs[0],
              StepResult(m.turn.body, Some(AWAITING_RESUME), pause, false, false, None, false), false)
  {
    RoutedAnswers(w, m, t, i, Dispatch(t[i], m.turn, w.maxTurns));
  }

  /** Anything else in the middle of a flow is for the handler of its step, and the
      flow keeps its intent. */
  lemma HandlerRoute(w: World, m: Message, t: seq<Session>, i: nat)
    requires ToAnswer(w, m, t, i) && t[i].step.Some? && !IsCommand(m.turn) && !m.turn.interrupts && !IsQuestion(m.turn)
    requires m.turn.handler.Some?
    ensures Answers(w, m, t, i, if t[i].intent.Some? then t[i].intent.value else UNKNOWN, m.turn.handler.value, false)
  {
    RoutedAnswers(w, m, t, i, Dispatch(t[i], m.turn, w.maxTurns));
  }

  /** Several questions at once, outside any flow, are answered in one go. */
  lemma QuestionsRoute(w: World, m: Message, t: seq<Session>, i: nat)
    requires ToAnswer(w, m, t, i) && t[i].step.None? && |m.turn.faqs| >= 2 && m.turn.body != ""
    ensures Answers(w, m, t, i, m.turn.faqs[0], StepResult(m.turn.body, None, map[], true, false, None, false), false)
  {
    RoutedAnswers(w, m, t, i, Dispatch(t[i], m.turn, w.maxTurns));
  }

  /** Anything else outside a flow, or at a step nobody handles, starts the flow it
      seems to ask for. */
  lemma StartRoute(w: World, m: Message, t: seq<Session>, i: nat)
    requires ToAnswer(w, m, t, i)
    requires if t[i].step.Some? then !IsCommand(m.turn) && !m.turn.interrupts && !IsQuestion(m.turn) && m.turn.handler.None?
             else |m.turn.faqs| < 2 || m.turn.body == ""
    ensures StartsIntent(w, m, t, i)
  {
    StartedAnswers(w, m, t, i);
  }

  /** The intent's own flow answers; without one the turn is puzzled. */
  ghost predicate StartsIntent(w: World, m: Message, t: seq<Session>, i: nat)
    requires i < |t|
  {
    if m.turn.started.Some? then Answers(w, m, t, i, m.turn.guess, m.turn.started.value, false)
    else exists reply :: Puzzles(w, m, t, i, reply)
  }

  /** The bot asks again, until the last puzzled turn it is allowed, when it hands
      over. */
  ghost predicate Puzzles(w: World, m: Message, t: seq<Session>, i: nat, reply: string)
    requires i < |t|
  {
    var last := t[i].unresolved + 1 >= w.maxTurns;
    var reason := if last then Some("Repeated failed intent detection.") else None;
    reply != "" && Answers(w, m, t, i, m.turn.guess, StepResult(reply, None, map[], false, last, reason, false), !last)
  }

  lemma StartedAnswers(w: World, m: Message, t: seq<Session>, i: nat)
    requires ToAnswer(w, m, t, i) && Dispatch(t[i], m.turn, w.maxTurns) == Start(t[i], m.turn, w.maxTurns)
    ensures StartsIntent(w, m, t, i)
  {
    var r := Dispatch(t[i], m.turn, w.maxTurns);
    RoutedAnswers(w, m, t, i, r);
    if m.turn.started.None? {
      assert Puzzles(w, m, t, i, r.result.reply);
    }
  }

  // ------------------------------------------------------- where nobody answers

  /** A session with a human is only marked as active, and the message logged; one
      that has seen the message ignores it. */
  lemma HumanOrDuplicate(w: World, m: Message, t: seq<Session>, i: nat)
    requires Belongs(w, m, t, i) && i < |t|
    requires t[i].status == Handoff || (m.id != "" && t[i].lastMessage == m.id)
    ensures var after, s := HandleMessage(w, m), t[i];
      if m.id != "" && s.lastMessage == m.id then after.sessions == t && after.log == w.log
      else
        && after.sessions == t[i := s.(lastActivity := m.now, lastMessage := if m.id == "" then s.lastMessage else m.id)]
        && after.log == w.log + [Inbound(i)]
  {
    BelongsIsFound(w, m, t, i);
    assert t[i := t[i]] == t;
  }

  /** Every message belongs somewhere, so one of these cases is its own. */
  lemma EveryMessageBelongs(w: World, m: Message) returns (t: seq<Session>, i: nat)
    ensures Belongs(w, m, t, i) && i < |t|
    ensures ToAnswer(w, m, t, i) || t[i].status == Handoff || (m.id != "" && t[i].lastMessage == m.id)
  {
    var r := GetOrCreate(w.sessions, m.key, m.customer, m.now);
    t, i := r.0, r.1;
  }

  // ------------------------------------------------------------------- staff

  /** Row `i` is the line's newest. */
  ghost predicate IsNewest(t: seq<Session>, key: Key, i: nat) {
    i < |t| && t[i].key == key && forall j :: i < j < |t| ==> t[j].key != key
  }

  lemma {:induction false} NewestIs(t: seq<Session>, key: Key)
    ensures match Newest(t, key)
      case Some(i) => IsNewest(t, key, i)
      case None => forall j :: 0 <= j < |t| ==> t[j].key != key
  {
    if t != [] && t[|t| - 1].key != key {
      NewestIs(t[..|t| - 1], key);
    }
  }

  /** Staff take over the line's newest session while it is live: it is with a
      human from then on, for their reason, and keeps all it knows. */
  lemma TakeOverDecides(w: World, key: Key, who: string, now: int, i: nat)
    requires IsNewest(w.sessions, key, i)
    ensures var s := w.sessions[i];
      TakeOver(w, key, who, now) == if s.status != Active && s.status != Handoff then w
        else w.(sessions := w.sessions[i := s.(status := Handoff, reason := Some(who), lastActivity := now)])
  {
    NewestIs(w.sessions, key);
  }

  /** Staff hand it back only from a human: the bot then starts with a clean slate,
      knowing the customer but nothing of the flow. */
  lemma ResumeDecides(w: World, key: Key, now: int, i: nat)
    requires IsNewest(w.sessions, key, i)
    ensures var s := w.sessions[i];
      var clean := Session(s.key, s.customer, Active, None, None, map[], 0, None, s.lastMessage, now);
      Resume(w, key, now) == if s.status != Handoff then w
        else w.(sessions := w.sessions[i := clean], log := w.log + [Cleared(i)])
  {
    NewestIs(w.sessions, key);
  }
}
