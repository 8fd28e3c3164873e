/** Several workers answering the same phone call's booking at once: the lookup,
    the garage lock, the slot check and the commit are separate steps, and only
    the database's unique keys stand between two of them and two bookings. */
module BookingRace {
  import opened Wrappers

  /** A request row's idempotency keys; an empty id is no id. */
  datatype Row = Row(tool: Option<string>, call: Option<string>)

  datatype Pc =
    | Start
    | LookedUp
    | Locked
    | Checked
    | Answered(row: nat, created: bool)
    | Refused
    | Failed

  /** `upfront`: the deposit hold is flushed before the commit's own retry
      guard (a deposit service of a business without terms). */
  datatype Worker = Worker(tool: Option<string>, call: Option<string>, upfront: bool, pc: Pc)

  datatype State = State(rows: seq<Row>, workers: seq<Worker>, lock: Option<nat>)

  predicate SameKey(a: Option<string>, b: Option<string>) {
    a.Some? && a == b
  }

  function FindBy(rows: seq<Row>, tool: Option<string>, call: Option<string>): Option<nat> {
    if rows == [] then None
    else
      var n := |rows| - 1;
      if SameKey(tool, rows[n].tool) || SameKey(call, rows[n].call) then Some(n)
      else FindBy(rows[..n], tool, call)
  }

  /** By the function call's id first, then by the phone call's. */
  function Lookup(rows: seq<Row>, tool: Option<string>, call: Option<string>): Option<nat> {
    if FindBy(rows, tool, None).Some? then FindBy(rows, tool, None) else FindBy(rows, None, call)
  }

  /** The unique constraints. */
  predicate Violates(rows: seq<Row>, w: Worker) {
    exists i :: 0 <= i < |rows| && (SameKey(w.tool, rows[i].tool) || SameKey(w.call, rows[i].call))
  }

  datatype Event =
    | DoLookup
    | DoLock
    | DoCheck(free: bool)
    | DoCommit(providerFails: bool, referenceClash: bool)

  function Release(s: State, i: nat): Option<nat> {
    if s.lock == Some(i) then None else s.lock
  }

  /** The commit, and what an IntegrityError turns into. */
  function CommitPc(rows: seq<Row>, w: Worker, e: Event): Pc
    requires e.DoCommit?
  {
    if Violates(rows, w) || e.referenceClash then
      if w.upfront then Failed
      else match Lookup(rows, w.tool, w.call)
        case Some(r) => Answered(r, false)
        case None => Failed
    else if w.upfront && e.providerFails then Failed
    else Answered(|rows|, true)
  }

  function Step(s: State, i: nat, e: Event): (t: State)
    ensures |t.workers| == |s.workers|
  {
    if i >= |s.workers| then s
    else
      var w := s.workers[i];
      match e
      case DoLookup =>
        if w.pc != Start then s
        else
          var found := Lookup(s.rows, w.tool, w.call);
          s.(workers := s.workers[i := w.(pc := if found.Some? then Answered(found.value, false) else LookedUp)])
      case DoLock =>
        if w.pc != LookedUp || s.lock.Some? then s
        else s.(workers := s.workers[i := w.(pc := Locked)], lock := Some(i))
      case DoCheck(free) =>
        if w.pc != Locked then s
        else if free then s.(workers := s.workers[i := w.(pc := Checked)])
        else s.(workers := s.workers[i := w.(pc := Refused)], lock := Release(s, i))
      case DoCommit(_, _) =>
        if w.pc != Checked then s
        else
          var pc := CommitPc(s.rows, w, e);
          State(
            if pc.Answered? && pc.created then s.rows + [Row(w.tool, w.call)] else s.rows,
            s.workers[i := w.(pc := pc)],
            Release(s, i))
  }

  function Run(s: State, es: seq<(nat, Event)>): State {
    if es == [] then s else Step(Run(s, es[..|es| - 1]), es[|es| - 1].0, es[|es| - 1].1)
  }

  // ------------------------------------------------------------- invariants

  ghost predicate UniqueKeys(rows: seq<Row>) {
    forall i, j :: 0 <= i < j < |rows| ==> !SameKey(rows[i].tool, rows[j].tool) && !SameKey(rows[i].call, rows[j].call)
  }

  predicate Matches(r: Row, w: Worker) {
    SameKey(w.tool, r.tool) || SameKey(w.call, r.call)
  }

  /** Every answer names a request carrying one of the worker's own ids, and the
      request a worker created carries both and is its alone. */
  ghost predicate AnswersOk(s: State) {
    && (forall i :: 0 <= i < |s.workers| && s.workers[i].pc.Answered? ==>
          && s.workers[i].pc.row < |s.rows|
          && (s.workers[i].pc.created
              ==> s.rows[s.workers[i].pc.row] == Row(s.workers[i].tool, s.workers[i].call))
          && (!s.workers[i].pc.created ==> Matches(s.rows[s.workers[i].pc.row], s.workers[i])))
    && (forall i, j :: 0 <= i < j < |s.workers| && Creates(s.workers[i]) && Creates(s.workers[j])
          ==> s.workers[i].pc.row != s.workers[j].pc.row)
  }

  predicate Creates(w: Worker) {
    w.pc.Answered? && w.pc.created
  }

  ghost predicate Inv(s: State) {
    UniqueKeys(s.rows) && AnswersOk(s)
  }

  lemma {:induction false} FindByFinds(rows: seq<Row>, tool: Option<string>, call: Option<string>)
    ensures match FindBy(rows, tool, call)
      case Some(n) => n < |rows| && (SameKey(tool, rows[n].tool) || SameKey(call, rows[n].call))
      case None => forall i :: 0 <= i < |rows| ==> !SameKey(tool, rows[i].tool) && !SameKey(call, rows[i].call)
  {
    if rows != [] {
      FindByFinds(rows[..|rows| - 1], tool, call);
    }
  }

  lemma LookupFinds(rows: seq<Row>, w: Worker)
    ensures match Lookup(rows, w.tool, w.call)
      case Some(n) => n < |rows| && Matches(rows[n], w)
      case None => !Violates(rows, w)
  {
    FindByFinds(rows, w.tool, None);
    FindByFinds(rows, None, w.call);
  }

  lemma StepKeepsInv(s: State, i: nat, e: Event)
    requires Inv(s)
    ensures Inv(Step(s, i, e))
    ensures s.rows <= Step(s, i, e).rows
  {
    if i < |s.workers| {
      LookupFinds(s.rows, s.workers[i]);
    }
  }

  /** However many workers race and however their steps interleave, no two
      requests ever share a function-call id or a phone-call id. */
  lemma {:induction false} NeverTwoBookings(s: State, es: seq<(nat, Event)>)
    requires Inv(s)
    ensures Inv(Run(s, es))
    ensures s.rows <= Run(s, es).rows
  {
    if es != [] {
      var n := |es| - 1;
      NeverTwoBookings(s, es[..n]);
      StepKeepsInv(Run(s, es[..n]), es[n].0, es[n].1);
    }
  }

  /** OpenAI's function-call ids belong to one phone call. */
  ghost predicate OneCallPerTool(s: State) {
    && (forall i :: 0 <= i < |s.workers| ==> s.workers[i].call.Some?)
    && (forall i, j :: 0 <= i < |s.workers| && 0 <= j < |s.rows|
          && SameKey(s.workers[i].tool, s.rows[j].tool)
          ==> s.rows[j].call == s.workers[i].call)
  }

  /** Everyone who got an answer on one phone call was given the same request,
      and at most one of them created it. */
  lemma OneBookingPerCall(s: State, es: seq<(nat, Event)>, i: nat, j: nat)
    requires Inv(s) && OneCallPerTool(Run(s, es))
    requires var t := Run(s, es);
      i < |t.workers| && j < |t.workers| && i != j
      && t.workers[i].pc.Answered? && t.workers[j].pc.Answered? && t.workers[i].call == t.workers[j].call
    ensures var t := Run(s, es);
      && t.workers[i].pc.row == t.workers[j].pc.row
      && !(t.workers[i].pc.created && t.workers[j].pc.created)
      && t.workers[i].pc.row < |t.rows|
      && t.rows[t.workers[i].pc.row].call == t.workers[i].call
  {
    NeverTwoBookings(s, es);
    var t := Run(s, es);
    assert SameKey(t.rows[t.workers[i].pc.row].call, t.rows[t.workers[j].pc.row].call);
  }

  // -------------------------------------------- what the loser of a race hears

  /** The row that already carries one of the worker's ids. */
  predicate Taken(s: State, i: nat) {
    i < |s.workers| && Violates(s.rows, s.workers[i])
  }

  /** A worker that lost the race still answers with the winner's request
      exactly when the slot still passes its check and its booking is not an
      upfront deposit; either way it writes nothing. */
  lemma LoserRecoversExactlyWhen(s: State, i: nat, free: bool, e: Event)
    requires Inv(s) && Taken(s, i) && s.workers[i].pc == Locked && e.DoCommit?
    ensures var t := Step(Step(s, i, DoCheck(free)), i, e);
      && t.rows == s.rows
      && (t.workers[i].pc.Answered? <==> free && !s.workers[i].upfront)
      && (t.workers[i].pc.Answered? ==>
            && !t.workers[i].pc.created && t.workers[i].pc.row < |t.rows|
            && Matches(t.rows[t.workers[i].pc.row], s.workers[i]))
  {
    LookupFinds(s.rows, s.workers[i]);
  }

  lemma StepKeepsTaken(s: State, i: nat, j: nat, e: Event)
    requires Inv(s) && Taken(s, i) && !Creates(s.workers[i])
    ensures Taken(Step(s, j, e), i) && !Creates(Step(s, j, e).workers[i])
  {
    var k :| 0 <= k < |s.rows| && Matches(s.rows[k], s.workers[i]);
    StepKeepsInv(s, j, e);
    var t := Step(s, j, e);
    assert t.rows[k] == s.rows[k];
    assert t.workers[i].tool == s.workers[i].tool && t.workers[i].call == s.workers[i].call;
    LookupFinds(s.rows, s.workers[i]);
  }

  /** A worker whose booking exists never creates a second one. */
  lemma {:induction false} TakenStaysTaken(s: State, es: seq<(nat, Event)>, i: nat)
    requires Inv(s) && Taken(s, i) && !Creates(s.workers[i])
    ensures Taken(Run(s, es), i) && !Creates(Run(s, es).workers[i])
  {
    if es != [] {
      var n := |es| - 1;
      TakenStaysTaken(s, es[..n], i);
      NeverTwoBookings(s, es[..n]);
      StepKeepsTaken(Run(s, es[..n]), i, es[n].0, es[n].1);
    }
  }

  /** Both workers look up before either commits; the first books. */
  function BothLookedUp(w: Worker): (s: State)
    ensures |s.workers| == 2
  {
    var s := Step(Step(State([], [w, w], None), 0, DoLookup), 1, DoLookup);
    Step(Step(Step(s, 0, DoLock), 0, DoCheck(true)), 0, DoCommit(false, false))
  }

  /** The race played out: the second of two deliveries of one booking is told
      the slot is gone, or gets an error, although its own booking holds it. */
  lemma LoserMayBeTurnedAway(w: Worker, free: bool)
    requires w.pc == Start && w.call.Some?
    ensures var t := Step(Step(Step(BothLookedUp(w), 1, DoLock), 1, DoCheck(free)), 1, DoCommit(false, false));
      && t.rows == [Row(w.tool, w.call)]
      && t.workers[0].pc == Answered(0, true)
      && t.workers[1].pc == if !free then Refused else if w.upfront then Failed else Answered(0, false)
  {
    var s := BothLookedUp(w);
    assert s.rows == [Row(w.tool, w.call)];
    assert Matches(s.rows[0], w);
    LookupFinds(s.rows, w);
  }
}
