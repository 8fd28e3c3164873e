/** The WhatsApp inbox: threads built in one pass over the message log, newest
    row first, and what archiving, deleting and reading do to them. */
module Threads {
  import opened Wrappers

  // -------------------------------------------------------------------- data

  /** `sender` and `recipient` are the two addresses of the log row. */
  datatype Row = Row(
    at: int, inbound: bool, sender: string, recipient: string, customer: Option<nat>, read: bool)

  datatype State = State(archivedAt: Option<int>, deletedAt: Option<int>)

  datatype Thread = Thread(address: string, phone: string, customer: Option<nat>, last: Row, unread: nat)

  type States = map<string, State>

  const PREFIX := "whatsapp:"

  function Strip(address: string): string {
    if PREFIX <= address then address[|PREFIX|..] else address
  }

  function Address(phone: string): string {
    PREFIX + phone
  }

  function Counterpart(r: Row): string {
    if r.inbound then r.sender else r.recipient
  }

  function DeletedAt(states: States, phone: string): Option<int> {
    if phone in states then states[phone].deletedAt else None
  }

  /** The row belongs to a thread and is newer than that thread's deletion. */
  predicate Shown(states: States, r: Row) {
    && Counterpart(r) != ""
    && var cutoff := DeletedAt(states, Strip(Counterpart(r)));
       !(cutoff.Some? && r.at <= cutoff.value)
  }

  predicate Unread(r: Row) {
    r.inbound && !r.read
  }

  function Tally(r: Row): nat {
    if Unread(r) then 1 else 0
  }

  // -------------------------------------------------------------- the one pass

  function Find(ts: seq<Thread>, address: string): (i: Option<nat>)
    ensures match i
      case Some(i) => i < |ts| && ts[i].address == address && forall j :: 0 <= j < i ==> ts[j].address != address
      case None => forall j :: 0 <= j < |ts| ==> ts[j].address != address
  {
    if ts == [] then None
    else
      var before := Find(ts[..|ts| - 1], address);
      if before.Some? then before
      else if ts[|ts| - 1].address == address then Some(|ts| - 1)
      else None
  }

  function NewThread(r: Row): Thread {
    Thread(Counterpart(r), Strip(Counterpart(r)), r.customer, r, Tally(r))
  }

  function Joined(t: Thread, r: Row): Thread {
    t.(customer := if t.customer.None? then r.customer else t.customer, unread := t.unread + Tally(r))
  }

  function AddRow(ts: seq<Thread>, states: States, r: Row): seq<Thread> {
    if !Shown(states, r) then ts
    else
      match Find(ts, Counterpart(r))
      case None => ts + [NewThread(r)]
      case Some(i) => ts[i := Joined(ts[i], r)]
  }

  /** `rows` newest first. */
  function Build(rows: seq<Row>, states: States): seq<Thread> {
    if rows == [] then [] else AddRow(Build(rows[..|rows| - 1], states), states, rows[|rows| - 1])
  }

  predicate Archived(states: States, t: Thread) {
    && t.phone in states
    && var s := states[t.phone];
       s.archivedAt.Some? && (s.deletedAt.None? || s.archivedAt.value > s.deletedAt.value)
  }

  datatype Filter = Inbox | NeedsAttention | ArchivedOnes

  predicate Passes(f: Filter, states: States, handoff: set<string>, t: Thread) {
    match f
    case ArchivedOnes => Archived(states, t)
    case Inbox => !Archived(states, t)
    case NeedsAttention => !Archived(states, t) && (t.unread > 0 || t.phone in handoff)
  }

  function Keep(ts: seq<Thread>, f: Filter, states: States, handoff: set<string>): seq<Thread> {
    if ts == [] then []
    else
      Keep(ts[..|ts| - 1], f, states, handoff)
      + if Passes(f, states, handoff, ts[|ts| - 1]) then [ts[|ts| - 1]] else []
  }

  function List(rows: seq<Row>, states: States, f: Filter, handoff: set<string>): seq<Thread> {
    Keep(Build(rows, states), f, states, handoff)
  }

  // --------------------------------------------------------- what a thread is

  /** The surviving rows of one address, newest first. */
  function Of(rows: seq<Row>, states: States, address: string): (s: seq<Row>)
    ensures forall r :: r in s <==> r in rows && Shown(states, r) && Counterpart(r) == address
  {
    if rows == [] then []
    else
      var r := rows[|rows| - 1];
      Of(rows[..|rows| - 1], states, address) + if Shown(states, r) && Counterpart(r) == address then [r] else []
  }

  function CountUnread(rows: seq<Row>): nat {
    if rows == [] then 0 else CountUnread(rows[..|rows| - 1]) + Tally(rows[|rows| - 1])
  }

  /** The customer of the newest row that names one. */
  function NamedCustomer(rows: seq<Row>): Option<nat> {
    if rows == [] then None
    else
      var before := NamedCustomer(rows[..|rows| - 1]);
      if before.Some? then before else rows[|rows| - 1].customer
  }

  ghost predicate Summarises(t: Thread, address: string, rows: seq<Row>) {
    && rows != []
    && t == Thread(address, Strip(address), NamedCustomer(rows), rows[0], CountUnread(rows))
  }

  ghost predicate Correct(ts: seq<Thread>, rows: seq<Row>, states: States, address: string) {
    match Find(ts, address)
    case None => Of(rows, states, address) == []
    case Some(i) => Summarises(ts[i], address, Of(rows, states, address))
  }

  ghost predicate OnePerAddress(ts: seq<Thread>) {
    forall i, j :: 0 <= i < j < |ts| ==> ts[i].address != ts[j].address
  }

  lemma SummaryGrows(t: Thread, address: string, rows: seq<Row>, r: Row)
    requires Summarises(t, address, rows)
    ensures Summarises(Joined(t, r), address, rows + [r])
  {
    assert (rows + [r])[..|rows|] == rows;
  }

  lemma SummaryOfOne(r: Row)
    ensures Summarises(NewThread(r), Counterpart(r), [r])
  {
    assert [r][..0] == [];
  }

  lemma FindAppended(ts: seq<Thread>, t: Thread, address: string)
    ensures Find(ts + [t], address)
      == if Find(ts, address).Some? || t.address != address then Find(ts, address) else Some(|ts|)
  {
    assert (ts + [t])[..|ts|] == ts;
  }

  lemma FindUpdated(ts: seq<Thread>, i: nat, t: Thread, address: string)
    requires i < |ts| && t.address == ts[i].address
    ensures Find(ts[i := t], address) == Find(ts, address)
  {
    var after := ts[i := t];
    assert forall j :: 0 <= j < |ts| ==> after[j].address == ts[j].address;
  }

  lemma AddRowFinds(ts: seq<Thread>, states: States, r: Row, address: string)
    requires OnePerAddress(ts)
    ensures OnePerAddress(AddRow(ts, states, r))
    ensures address != Counterpart(r) || !Shown(states, r) ==>
      Find(AddRow(ts, states, r), address) == Find(ts, address)
      && (Find(ts, address).Some? ==> AddRow(ts, states, r)[Find(ts, address).value] == ts[Find(ts, address).value])
    ensures Shown(states, r) ==>
      var i := Find(ts, Counterpart(r));
      Find(AddRow(ts, states, r), Counterpart(r)) == if i.Some? then i else Some(|ts|)
  {
    match Find(ts, Counterpart(r)) {
      case None =>
        FindAppended(ts, NewThread(r), address);
        FindAppended(ts, NewThread(r), Counterpart(r));
      case Some(i) =>
        FindUpdated(ts, i, Joined(ts[i], r), address);
        FindUpdated(ts, i, Joined(ts[i], r), Counterpart(r));
    }
  }

  lemma {:induction false} BuildOnePerAddress(rows: seq<Row>, states: States)
    ensures OnePerAddress(Build(rows, states))
  {
    if rows != [] {
      BuildOnePerAddress(rows[..|rows| - 1], states);
      AddRowFinds(Build(rows[..|rows| - 1], states), states, rows[|rows| - 1], "");
    }
  }

  /** The one pass computes, for every address at once, what collecting its
      surviving rows would: the newest of them, how many are unread, and the
      newest customer named; and it makes a thread exactly when there are any. */
  lemma {:induction false} BuildIsCorrect(rows: seq<Row>, states: States, address: string)
    ensures Correct(Build(rows, states), rows, states, address)
  {
    if rows != [] {
      var front, r := rows[..|rows| - 1], rows[|rows| - 1];
      var before := Build(front, states);
      BuildIsCorrect(front, states, address);
      BuildOnePerAddress(front, states);
      AddRowFinds(before, states, r, address);
      if Shown(states, r) && Counterpart(r) == address {
        match Find(before, address) {
          case None =>
            SummaryOfOne(r);
            assert Of(rows, states, address) == [r];
          case Some(i) =>
            SummaryGrows(before[i], address, Of(front, states, address), r);
        }
      } else {
        assert Of(rows, states, address) == Of(front, states, address);
      }
    }
  }

  // ---------------------------------------------------------- main theorems

  ghost predicate NewestFirst(rows: seq<Row>) {
    forall i, j :: 0 <= i < j < |rows| ==> rows[i].at >= rows[j].at
  }

  lemma {:induction false} OfIsNewestFirst(rows: seq<Row>, states: States, address: string)
    requires NewestFirst(rows)
    ensures NewestFirst(Of(rows, states, address))
  {
    if rows != [] {
      OfIsNewestFirst(rows[..|rows| - 1], states, address);
      var before := Of(rows[..|rows| - 1], states, address);
      forall i | 0 <= i < |before| ensures before[i].at >= rows[|rows| - 1].at {
        assert before[i] in rows[..|rows| - 1];
      }
    }
  }

  /** A thread's last message is the newest row not deleted with the thread. */
  lemma LastIsNewest(rows: seq<Row>, states: States, t: Thread, r: Row)
    requires NewestFirst(rows) && t in Build(rows, states)
    requires r in rows && Shown(states, r) && Counterpart(r) == t.address
    ensures t.last in rows && Shown(states, t.last) && Counterpart(t.last) == t.address && r.at <= t.last.at
  {
    ThreadIsFound(rows, states, t);
    OfIsNewestFirst(rows, states, t.address);
    var s := Of(rows, states, t.address);
    var k :| 0 <= k < |s| && s[k] == r;
    assert s[0] in s;
  }

  lemma FindIsIndex(ts: seq<Thread>, i: nat)
    requires OnePerAddress(ts) && i < |ts|
    ensures Find(ts, ts[i].address) == Some(i)
  {
  }

  lemma ThreadIsFound(rows: seq<Row>, states: States, t: Thread)
    requires t in Build(rows, states)
    ensures Summarises(t, t.address, Of(rows, states, t.address))
  {
    var ts := Build(rows, states);
    BuildOnePerAddress(rows, states);
    var i :| 0 <= i < |ts| && ts[i] == t;
    FindIsIndex(ts, i);
    BuildIsCorrect(rows, states, t.address);
  }

  function TotalUnread(ts: seq<Thread>): nat {
    if ts == [] then 0 else TotalUnread(ts[..|ts| - 1]) + ts[|ts| - 1].unread
  }

  function Survivors(rows: seq<Row>, states: States): seq<Row> {
    if rows == [] then []
    else Survivors(rows[..|rows| - 1], states) + if Shown(states, rows[|rows| - 1]) then [rows[|rows| - 1]] else []
  }

  lemma {:induction false} TotalAfterUpdate(ts: seq<Thread>, i: nat, t: Thread)
    requires i < |ts|
    ensures TotalUnread(ts[i := t]) == TotalUnread(ts) - ts[i].unread + t.unread
  {
    var n := |ts| - 1;
    if i == n {
      assert ts[i := t][..n] == ts[..n];
    } else {
      TotalAfterUpdate(ts[..n], i, t);
      assert ts[i := t][..n] == ts[..n][i := t];
    }
  }

  lemma TotalAfterAdd(ts: seq<Thread>, states: States, r: Row)
    requires Shown(states, r)
    ensures TotalUnread(AddRow(ts, states, r)) == TotalUnread(ts) + Tally(r)
  {
    match Find(ts, Counterpart(r)) {
      case None => assert (ts + [NewThread(r)])[..|ts|] == ts;
      case Some(i) => TotalAfterUpdate(ts, i, Joined(ts[i], r));
    }
  }

  lemma CountOneMore(rows: seq<Row>, r: Row)
    ensures CountUnread(rows + [r]) == CountUnread(rows) + Tally(r)
  {
    assert (rows + [r])[..|rows|] == rows;
  }

  /** No unread message is lost or counted twice: the threads' counts add up to
      the unread inbound rows that survive the deletions. */
  lemma {:induction false} UnreadAddsUp(rows: seq<Row>, states: States)
    ensures TotalUnread(Build(rows, states)) == CountUnread(Survivors(rows, states))
  {
    if rows != [] {
      var front, r := rows[..|rows| - 1], rows[|rows| - 1];
      UnreadAddsUp(front, states);
      if Shown(states, r) {
        TotalAfterAdd(Build(front, states), states, r);
        CountOneMore(Survivors(front, states), r);
      } else {
        assert Survivors(rows, states) == Survivors(front, states);
      }
    }
  }

  lemma {:induction false} KeepIsFilter(ts: seq<Thread>, f: Filter, states: States, handoff: set<string>, t: Thread)
    ensures t in Keep(ts, f, states, handoff) <==> t in ts && Passes(f, states, handoff, t)
  {
    if ts != [] {
      KeepIsFilter(ts[..|ts| - 1], f, states, handoff, t);
      assert ts == ts[..|ts| - 1] + [ts[|ts| - 1]];
    }
  }

  lemma {:induction false} KeepCounts(ts: seq<Thread>, states: States, handoff: set<string>)
    ensures |Keep(ts, Inbox, states, handoff)| + |Keep(ts, ArchivedOnes, states, handoff)| == |ts|
  {
    if ts != [] {
      KeepCounts(ts[..|ts| - 1], states, handoff);
    }
  }

  /** Every thread is in the inbox or archived and never in both, and what needs
      attention is part of the inbox. */
  lemma InboxAndArchivePartition(rows: seq<Row>, states: States, handoff: set<string>, t: Thread)
    ensures |List(rows, states, Inbox, handoff)| + |List(rows, states, ArchivedOnes, handoff)| == |Build(rows, states)|
    ensures t in Build(rows, states)
      <==> (t in List(rows, states, Inbox, handoff)) != (t in List(rows, states, ArchivedOnes, handoff))
    ensures t in List(rows, states, NeedsAttention, handoff) ==> t in List(rows, states, Inbox, handoff)
  {
    KeepCounts(Build(rows, states), states, handoff);
    KeepIsFilter(Build(rows, states), Inbox, states, handoff, t);
    KeepIsFilter(Build(rows, states), ArchivedOnes, states, handoff, t);
    KeepIsFilter(Build(rows, states), NeedsAttention, states, handoff, t);
  }

  // ------------------------------------------------------- the message view

  predicate InView(states: States, phone: string, r: Row) {
    && (r.sender == Address(phone) || r.recipient == Address(phone))
    && var cutoff := DeletedAt(states, phone);
       cutoff.None? || r.at > cutoff.value
  }

  function View(rows: seq<Row>, states: States, phone: string): (s: seq<Row>)
    ensures forall r :: r in s <==> r in rows && InView(states, phone, r)
  {
    if rows == [] then []
    else
      View(rows[..|rows| - 1], states, phone)
      + if InView(states, phone, rows[|rows| - 1]) then [rows[|rows| - 1]] else []
  }

  function Own(r: Row): string {
    if r.inbound then r.recipient else r.sender
  }

  /** Customers' addresses carry the prefix, and the phone is not the
      business's own number. */
  ghost predicate WellFormed(rows: seq<Row>, phone: string) {
    forall r :: r in rows ==> PREFIX <= Counterpart(r) && Own(r) != Address(phone)
  }

  lemma PrefixedAddress(address: string)
    requires PREFIX <= address
    ensures address == Address(Strip(address))
  {
  }

  lemma ViewIsThread(rows: seq<Row>, states: States, phone: string, r: Row)
    requires WellFormed(rows, phone) && r in rows
    ensures InView(states, phone, r) <==> Shown(states, r) && Counterpart(r) == Address(phone)
  {
    assert Strip(Address(phone)) == phone;
  }

  lemma ListedIsReadable(rows: seq<Row>, states: States, phone: string, t: Thread)
    requires WellFormed(rows, phone) && t in Build(rows, states) && t.phone == phone
    ensures View(rows, states, phone) != []
  {
    ThreadIsFound(rows, states, t);
    var r := Of(rows, states, t.address)[0];
    assert r in Of(rows, states, t.address);
    PrefixedAddress(Counterpart(r));
    ViewIsThread(rows, states, phone, r);
    assert r in View(rows, states, phone);
  }

  lemma ReadableIsListed(rows: seq<Row>, states: States, phone: string)
    requires WellFormed(rows, phone) && View(rows, states, phone) != []
    ensures exists t :: t in Build(rows, states) && t.phone == phone
  {
    var address, ts := Address(phone), Build(rows, states);
    var r := View(rows, states, phone)[0];
    assert r in View(rows, states, phone);
    ViewIsThread(rows, states, phone, r);
    assert r in Of(rows, states, address);
    BuildIsCorrect(rows, states, address);
    assert Strip(address) == phone;
    assert ts[Find(ts, address).value] in ts;
  }

  /** A phone is in the list exactly when opening it shows a message. */
  lemma ListedExactlyWhenReadable(rows: seq<Row>, states: States, phone: string)
    requires WellFormed(rows, phone)
    ensures (exists t :: t in Build(rows, states) && t.phone == phone) <==> View(rows, states, phone) != []
  {
    if t :| t in Build(rows, states) && t.phone == phone {
      ListedIsReadable(rows, states, phone, t);
    } else if View(rows, states, phone) != [] {
      ReadableIsListed(rows, states, phone);
    }
  }

  // ------------------------------------------------------------ the controls

  function StateOf(states: States, phone: string): State {
    if phone in states then states[phone] else State(None, None)
  }

  function SetArchived(states: States, phone: string, archived: bool, now: int): States {
    states[phone := StateOf(states, phone).(archivedAt := if archived then Some(now) else None)]
  }

  function SoftDelete(states: States, phone: string, now: int): States {
    states[phone := StateOf(states, phone).(deletedAt := Some(now), archivedAt := None)]
  }

  function MarkRead(rows: seq<Row>, phone: string): (s: seq<Row>)
    ensures |s| == |rows|
    ensures forall i :: 0 <= i < |rows| ==> s[i] == Seen(rows[i], phone)
  {
    if rows == [] then [] else MarkRead(rows[..|rows| - 1], phone) + [Seen(rows[|rows| - 1], phone)]
  }

  function Seen(r: Row, phone: string): Row {
    if r.inbound && r.sender == Address(phone) then r.(read := true) else r
  }

  /** Each list holds exactly its threads: archived is archived since the last
      deletion, and of the rest those need attention that have something unread
      or are with a human. */
  lemma ListedExactlyWhen(rows: seq<Row>, states: States, handoff: set<string>, t: Thread)
    ensures var away := t.phone in states && states[t.phone].archivedAt.Some?
        && (states[t.phone].deletedAt.None? || states[t.phone].deletedAt.value < states[t.phone].archivedAt.value);
      && (t in List(rows, states, ArchivedOnes, handoff) <==> t in Build(rows, states) && away)
      && (t in List(rows, states, Inbox, handoff) <==> t in Build(rows, states) && !away)
      && (t in List(rows, states, NeedsAttention, handoff) <==>
            t in Build(rows, states) && !away && (t.unread > 0 || t.phone in handoff))
  {
    KeepIsFilter(Build(rows, states), Inbox, states, handoff, t);
    KeepIsFilter(Build(rows, states), ArchivedOnes, states, handoff, t);
    KeepIsFilter(Build(rows, states), NeedsAttention, states, handoff, t);
  }

  lemma {:induction false} BuildUnderStates(rows: seq<Row>, a: States, b: States)
    requires forall phone :: DeletedAt(a, phone) == DeletedAt(b, phone)
    ensures Build(rows, a) == Build(rows, b)
  {
    if rows != [] {
      BuildUnderStates(rows[..|rows| - 1], a, b);
    }
  }

  /** Archiving puts one number's thread away and taking it back shows it again,
      with all its messages; every other thread stays in its lists. */
  lemma ArchivingMovesOneThread(
    rows: seq<Row>, states: States, phone: string, archived: bool, now: int, f: Filter, handoff: set<string>, t: Thread)
    requires DeletedAt(states, phone).Some? ==> DeletedAt(states, phone).value < now
    ensures var states' := SetArchived(states, phone, archived, now);
      && Build(rows, states') == Build(rows, states)
      && (t.phone == phone ==>
            (t in List(rows, states', ArchivedOnes, handoff) <==> archived && t in Build(rows, states)))
      && (t.phone != phone ==> (t in List(rows, states', f, handoff) <==> t in List(rows, states, f, handoff)))
  {
    var states' := SetArchived(states, phone, archived, now);
    BuildUnderStates(rows, states', states);
    ListedExactlyWhen(rows, states', handoff, t);
    ListedExactlyWhen(rows, states, handoff, t);
  }

  lemma {:induction false} OfUnderStates(rows: seq<Row>, a: States, b: States, address: string)
    requires forall r :: r in rows && Counterpart(r) == address ==> (Shown(a, r) <==> Shown(b, r))
    ensures Of(rows, a, address) == Of(rows, b, address)
  {
    if rows != [] {
      OfUnderStates(rows[..|rows| - 1], a, b, address);
    }
  }

  lemma {:induction false} OfNewest(newer: seq<Row>, older: seq<Row>, states: States, address: string)
    requires forall r :: r in older && Counterpart(r) == address ==> !Shown(states, r)
    ensures Of(newer + older, states, address) == Of(newer, states, address)
  {
    if older == [] {
      assert newer + older == newer;
    } else {
      assert (newer + older)[..|newer + older| - 1] == newer + older[..|older| - 1];
      OfNewest(newer, older[..|older| - 1], states, address);
    }
  }

  /** Deleting a conversation empties it; messages that arrive later make a
      fresh thread of themselves alone, in the inbox; other threads, archived or
      not, are as before. */
  lemma DeletedThreadStartsFresh(
    newer: seq<Row>, older: seq<Row>, states: States, phone: string, now: int, address: string)
    requires forall r :: r in older ==> r.at <= now
    requires forall r :: r in newer ==> r.at > now
    ensures var states' := SoftDelete(states, phone, now);
      && (Strip(address) == phone ==>
            && Correct(Build(newer + older, states'), newer, states', address)
            && forall t: Thread :: t.phone == phone ==> !Archived(states', t))
      && (Strip(address) != phone ==>
            && Correct(Build(newer + older, states'), newer + older, states, address)
            && forall t: Thread :: t.phone == Strip(address) ==> (Archived(states', t) <==> Archived(states, t)))
  {
    var states' := SoftDelete(states, phone, now);
    BuildIsCorrect(newer + older, states', address);
    if Strip(address) == phone {
      OfNewest(newer, older, states', address);
    } else {
      OfUnderStates(newer + older, states', states, address);
    }
  }

  lemma SeenRow(r: Row, states: States, phone: string)
    ensures var r' := Seen(r, phone);
      && (Shown(states, r') <==> Shown(states, r)) && Counterpart(r') == Counterpart(r)
      && (Counterpart(r) == Address(phone) ==> Tally(r') == 0)
      && (Counterpart(r) != Address(phone) ==> r' == r)
  {
  }

  /** The same rows, read or unread apart. */
  ghost predicate SameButRead(s: seq<Row>, s': seq<Row>, own: bool) {
    && |s| == |s'|
    && (own ==> CountUnread(s') == 0 && NamedCustomer(s') == NamedCustomer(s))
    && (!own ==> s' == s)
  }

  lemma SameButReadGrows(s: seq<Row>, s': seq<Row>, own: bool, r: Row, r': Row)
    requires SameButRead(s, s', own) && r'.customer == r.customer
    requires if own then Tally(r') == 0 else r' == r
    ensures SameButRead(s + [r], s' + [r'], own)
  {
    assert (s + [r])[..|s|] == s && (s' + [r'])[..|s'|] == s';
  }

  lemma {:induction false} ReadLeavesOthers(rows: seq<Row>, states: States, phone: string, address: string)
    ensures SameButRead(Of(rows, states, address), Of(MarkRead(rows, phone), states, address), address == Address(phone))
  {
    if rows != [] {
      var front, r := rows[..|rows| - 1], rows[|rows| - 1];
      ReadLeavesOthers(front, states, phone, address);
      SeenRow(r, states, phone);
      assert MarkRead(rows, phone)[..|rows| - 1] == MarkRead(front, phone);
      var s, s' := Of(front, states, address), Of(MarkRead(front, phone), states, address);
      if Shown(states, r) && Counterpart(r) == address {
        SameButReadGrows(s, s', address == Address(phone), r, Seen(r, phone));
      } else {
        assert Of(rows, states, address) == s && Of(MarkRead(rows, phone), states, address) == s';
      }
    }
  }

  /** Reading a thread leaves nothing unread in it and does not touch another. */
  lemma ReadingClearsOneThread(rows: seq<Row>, states: States, phone: string, address: string)
    ensures var before, after := Build(rows, states), Build(MarkRead(rows, phone), states);
      && (Find(before, address).Some? <==> Find(after, address).Some?)
      && (Find(before, address).Some? ==>
            var t, t' := before[Find(before, address).value], after[Find(after, address).value];
            if address == Address(phone) then t'.unread == 0 && t'.customer == t.customer else t' == t)
  {
    BuildIsCorrect(rows, states, address);
    BuildIsCorrect(MarkRead(rows, phone), states, address);
    ReadLeavesOthers(rows, states, phone, address);
  }

  // ---------------------------------------------------------------- the store

  class Inboxes {
    /** Newest first. */
    var rows: seq<Row>
    var states: States

    constructor (rows: seq<Row>, states: States)
      ensures this.rows == rows && this.states == states
    {
      this.rows, this.states := rows, states;
    }

    method BuildThreads() returns (ts: seq<Thread>)
      ensures ts == Build(rows, states)
    {
      ts := [];
      var position: map<string, nat> := map[];
      for n := 0 to |rows|
        invariant ts == Build(rows[..n], states)
        invariant forall a :: Find(ts, a) == if a in position then Some(position[a]) else None
      {
        assert rows[..n + 1][..n] == rows[..n];
        var r := rows[n];
        var counterpart := Counterpart(r);
        var cutoff := DeletedAt(states, Strip(counterpart));
        if counterpart != "" && !(cutoff.Some? && r.at <= cutoff.value) {
          BuildOnePerAddress(rows[..n], states);
          ghost var before := ts;
          if counterpart in position {
            var i := position[counterpart];
            ts := ts[i := Joined(ts[i], r)];
          } else {
            position := position[counterpart := |ts|];
            ts := ts + [NewThread(r)];
          }
          forall a ensures Find(ts, a) == if a in position then Some(position[a]) else None {
            AddRowFinds(before, states, r, a);
          }
        }
      }
      assert rows[..|rows|] == rows;
    }

    method ListThreads(f: Filter, handoff: set<string>) returns (kept: seq<Thread>)
      ensures kept == List(rows, states, f, handoff)
    {
      var ts := BuildThreads();
      kept := [];
      for n := 0 to |ts|
        invariant kept == Keep(ts[..n], f, states, handoff)
      {
        assert ts[..n + 1][..n] == ts[..n];
        if Passes(f, states, handoff, ts[n]) {
          kept := kept + [ts[n]];
        }
      }
      assert ts[..|ts|] == ts;
    }

    method Archive(phone: string, archived: bool, now: int)
      modifies this`states
      ensures states == SetArchived(old(states), phone, archived, now)
    {
      if phone !in states {
        states := states[phone := State(None, None)];
      }
      states := states[phone := states[phone].(archivedAt := if archived then Some(now) else None)];
    }

    method Delete(phone: string, now: int)
      modifies this`states
      ensures states == SoftDelete(old(states), phone, now)
    {
      if phone !in states {
        states := states[phone := State(None, None)];
      }
      states := states[phone := states[phone].(deletedAt := Some(now), archivedAt := None)];
    }

    method ReadThread(phone: string) returns (updated: nat)
      modifies this`rows
      ensures rows == MarkRead(old(rows), phone)
      ensures updated == CountUnread(old(rows)) - CountUnread(rows)
    {
      updated := 0;
      var read: seq<Row> := [];
      ghost var before := rows;
      for n := 0 to |rows|
        invariant rows == before && read == MarkRead(rows[..n], phone)
        invariant updated == CountUnread(rows[..n]) - CountUnread(read)
      {
        assert rows[..n + 1][..n] == rows[..n];
        var r := rows[n];
        assert (read + [Seen(r, phone)])[..n] == read;
        if r.inbound && r.sender == Address(phone) && !r.read {
          updated := updated + 1;
        }
        read := read + [Seen(r, phone)];
      }
      assert rows[..|rows|] == rows;
      rows := read;
    }
  }
}
