/** Half-open time intervals, how many of them cover an instant, and the sweep
    that finds the busiest instant of a window. */
module Intervals {

  datatype Interval = Interval(start: int, end: int)

  /** A row that does not count is kept in place as the empty interval. */
  const NOTHING := Interval(0, 0)

  predicate Covers(i: Interval, t: int) {
    i.start <= t < i.end
  }

  predicate Overlaps(i: Interval, start: int, end: int) {
    i.start < end && i.end > start
  }

  /** How many of `ivs` are in progress at `t`. */
  function Cover(ivs: seq<Interval>, t: int): nat {
    if ivs == [] then 0
    else Cover(ivs[..|ivs| - 1], t) + if Covers(ivs[|ivs| - 1], t) then 1 else 0
  }

  ghost predicate Proper(ivs: seq<Interval>) {
    forall i :: 0 <= i < |ivs| ==> ivs[i].start <= ivs[i].end
  }

  /** `peak` is the largest coverage reached anywhere in `[start, end)`. */
  ghost predicate IsPeak(ivs: seq<Interval>, start: int, end: int, peak: int) {
    && (forall t :: start <= t < end ==> Cover(ivs, t) <= peak)
    && (peak == 0 || exists t :: start <= t < end && Cover(ivs, t) == peak)
  }

  /** Every instant of the window still has room under `capacity`. */
  ghost predicate Fits(ivs: seq<Interval>, start: int, end: int, capacity: int) {
    0 < capacity && forall t :: start <= t < end ==> Cover(ivs, t) < capacity
  }

  lemma PeakDecidesFit(ivs: seq<Interval>, start: int, end: int, peak: int, capacity: int)
    requires IsPeak(ivs, start, end, peak)
    ensures peak < capacity <==> Fits(ivs, start, end, capacity)
  {
    if peak != 0 {
      var t :| start <= t < end && Cover(ivs, t) == peak;
    }
  }

  // ------------------------------------------------------------------ cover

  lemma {:induction false} CoverUpdate(ivs: seq<Interval>, i: nat, x: Interval, t: int)
    requires i < |ivs|
    ensures Cover(ivs[i := x], t)
         == Cover(ivs, t) - (if Covers(ivs[i], t) then 1 else 0) + (if Covers(x, t) then 1 else 0)
  {
    var n := |ivs| - 1;
    if i == n {
      assert ivs[i := x][..n] == ivs[..n];
    } else {
      assert ivs[i := x][..n] == ivs[..n][i := x];
      CoverUpdate(ivs[..n], i, x, t);
    }
  }

  lemma CoverAppend(ivs: seq<Interval>, x: Interval, t: int)
    ensures Cover(ivs + [x], t) == Cover(ivs, t) + if Covers(x, t) then 1 else 0
  {
    assert (ivs + [x])[..|ivs|] == ivs;
  }

  lemma {:induction false} CoverAgrees(a: seq<Interval>, b: seq<Interval>, t: int)
    requires |a| == |b|
    requires forall i :: 0 <= i < |a| ==> (Covers(a[i], t) ==> Covers(b[i], t))
    ensures Cover(a, t) <= Cover(b, t)
  {
    if a != [] {
      var n := |a| - 1;
      assert forall i :: 0 <= i < n ==> a[..n][i] == a[i] && b[..n][i] == b[i];
      CoverAgrees(a[..n], b[..n], t);
    }
  }

  lemma {:induction false} CoverConcat(a: seq<Interval>, b: seq<Interval>, t: int)
    ensures Cover(a + b, t) == Cover(a, t) + Cover(b, t)
  {
    if b == [] {
      assert a + b == a;
    } else {
      var n := |b| - 1;
      assert (a + b)[..|a + b| - 1] == a + b[..n];
      CoverConcat(a, b[..n], t);
    }
  }

  // ------------------------------------------------------------------ sweep

  /** One end of a clamped interval: +1 where it starts, -1 where it ends. */
  datatype Edge = Edge(at: int, delta: int)

  predicate EdgeLeq(a: Edge, b: Edge) {
    a.at < b.at || (a.at == b.at && a.delta <= b.delta)
  }

  function Max(a: int, b: int): int { if a >= b then a else b }
  function Min(a: int, b: int): int { if a <= b then a else b }

  /** Net change of all edges at or before `t`. */
  function Level(es: seq<Edge>, t: int): int {
    if es == [] then 0
    else (if es[0].at <= t then es[0].delta else 0) + Level(es[1..], t)
  }

  function Total(es: seq<Edge>): int {
    if es == [] then 0 else Total(es[..|es| - 1]) + es[|es| - 1].delta
  }

  ghost predicate Ordered(es: seq<Edge>) {
    forall i, j :: 0 <= i < j < |es| ==> EdgeLeq(es[i], es[j])
  }

  /** Python's tuple sort, as insertion into an ordered list. */
  function Insert(e: Edge, es: seq<Edge>): (r: seq<Edge>) {
    if es == [] || EdgeLeq(e, es[0]) then [e] + es else [es[0]] + Insert(e, es[1..])
  }

  function Sort(es: seq<Edge>): (r: seq<Edge>) {
    if es == [] then [] else Insert(es[0], Sort(es[1..]))
  }

  lemma {:induction false} InsertFacts(e: Edge, es: seq<Edge>, t: int)
    requires Ordered(es)
    ensures Ordered(Insert(e, es))
    ensures Level(Insert(e, es), t) == Level([e], t) + Level(es, t)
    ensures forall x :: x in Insert(e, es) <==> x == e || x in es
  {
    if es == [] || EdgeLeq(e, es[0]) {
      assert ([e] + es)[1..] == es;
    } else {
      InsertFacts(e, es[1..], t);
      var r := Insert(e, es[1..]);
      assert ([es[0]] + r)[1..] == r;
      assert es == [es[0]] + es[1..];
      forall i, j | 0 <= i < j < |[es[0]] + r| ensures EdgeLeq(([es[0]] + r)[i], ([es[0]] + r)[j]) {
        assert r[j - 1] in r;
      }
    }
  }

  lemma {:induction false} SortFacts(es: seq<Edge>, t: int)
    ensures Ordered(Sort(es))
    ensures Level(Sort(es), t) == Level(es, t)
    ensures forall x :: x in Sort(es) <==> x in es
  {
    if es != [] {
      SortFacts(es[1..], t);
      InsertFacts(es[0], Sort(es[1..]), t);
      assert es == [es[0]] + es[1..];
    }
  }

  lemma {:induction false} LevelAppend(a: seq<Edge>, b: seq<Edge>, t: int)
    ensures Level(a + b, t) == Level(a, t) + Level(b, t)
  {
    if a == [] {
      assert a + b == b;
    } else {
      assert (a + b)[1..] == a[1..] + b;
      LevelAppend(a[1..], b, t);
    }
  }

  /** When nothing after position `j` is at or before `t`, and everything
      before it is, the running total there is the level at `t`. */
  lemma {:induction false} TotalIsLevel(es: seq<Edge>, j: nat, t: int)
    requires j <= |es|
    requires forall i :: 0 <= i < j ==> es[i].at <= t
    ensures Total(es[..j]) == Level(es[..j], t)
  {
    if j > 0 {
      assert es[..j][..j - 1] == es[..j - 1];
      assert es[..j] == es[..j - 1] + [es[j - 1]];
      TotalIsLevel(es, j - 1, t);
      LevelAppend(es[..j - 1], [es[j - 1]], t);
    }
  }

  lemma {:induction false} LevelAfter(es: seq<Edge>, t: int)
    requires forall i :: 0 <= i < |es| ==> es[i].at > t || es[i].delta >= 1
    ensures Level(es, t) >= 0
    ensures (forall i :: 0 <= i < |es| ==> es[i].at > t) ==> Level(es, t) == 0
  {
    if es != [] {
      LevelAfter(es[1..], t);
    }
  }

  /** The running total reaches the level of every instant. */
  lemma {:induction false} LevelIsReached(es: seq<Edge>, t: int, j: nat) returns (k: nat)
    requires Ordered(es) && j <= |es|
    requires forall i :: 0 <= i < j ==> es[i].at <= t
    ensures k <= |es| && Total(es[..k]) == Level(es, t)
    decreases |es| - j
  {
    if j < |es| && es[j].at <= t {
      k := LevelIsReached(es, t, j + 1);
    } else {
      k := j;
      TotalIsLevel(es, j, t);
      assert es == es[..j] + es[j..];
      LevelAppend(es[..j], es[j..], t);
      LevelAfter(es[j..], t);
    }
  }

  /** Just after a start edge the running total is at most that instant's level:
      ends at the same instant sort first, so only starts can still follow. */
  lemma {:induction false} StartBelowLevel(es: seq<Edge>, k: nat)
    requires Ordered(es) && k < |es| && es[k].delta == 1
    ensures Total(es[..k + 1]) <= Level(es, es[k].at)
  {
    var t := es[k].at;
    TotalIsLevel(es, k + 1, t);
    assert es == es[..k + 1] + es[k + 1..];
    LevelAppend(es[..k + 1], es[k + 1..], t);
    LevelAfter(es[k + 1..], t);
  }

  function EdgesOf(ivs: seq<Interval>, start: int, end: int): seq<Edge> {
    if ivs == [] then []
    else
      var i := ivs[|ivs| - 1];
      EdgesOf(ivs[..|ivs| - 1], start, end)
      + if Overlaps(i, start, end) then [Edge(Max(i.start, start), 1), Edge(Min(i.end, end), -1)] else []
  }

  lemma {:induction false} EdgesLevel(ivs: seq<Interval>, start: int, end: int, t: int)
    requires Proper(ivs)
    ensures start <= t < end ==> Level(EdgesOf(ivs, start, end), t) == Cover(ivs, t)
    ensures end <= start == t ==> Level(EdgesOf(ivs, start, end), t) == 0
    ensures forall e :: e in EdgesOf(ivs, start, end) ==>
      e.delta == -1 || (e.delta == 1 && start <= e.at && (start < end ==> e.at < end) && (end <= start ==> e.at == start))
  {
    if ivs != [] {
      var n := |ivs| - 1;
      var i := ivs[n];
      EdgesLevel(ivs[..n], start, end, t);
      var last := if Overlaps(i, start, end) then [Edge(Max(i.start, start), 1), Edge(Min(i.end, end), -1)] else [];
      LevelAppend(EdgesOf(ivs[..n], start, end), last, t);
      EdgePairLevel(i, start, end, t);
    }
  }

  lemma EdgePairLevel(i: Interval, start: int, end: int, t: int)
    ensures Level([Edge(Max(i.start, start), 1), Edge(Min(i.end, end), -1)], t)
         == (if Max(i.start, start) <= t then 1 else 0) - (if Min(i.end, end) <= t then 1 else 0)
  {
    var pair := [Edge(Max(i.start, start), 1), Edge(Min(i.end, end), -1)];
    assert pair[1..] == [Edge(Min(i.end, end), -1)];
    assert pair[1..][1..] == [];
    assert Level(pair[1..][1..], t) == 0;
    assert Level(pair[1..], t) == if Min(i.end, end) <= t then -1 else 0;
  }

  method PeakOverlap(ivs: seq<Interval>, start: int, end: int) returns (peak: int)
    requires Proper(ivs)
    ensures IsPeak(ivs, start, end, peak)
  {
    var edges: seq<Edge> := [];
    for n := 0 to |ivs|
      invariant edges == EdgesOf(ivs[..n], start, end)
    {
      assert ivs[..n + 1][..n] == ivs[..n];
      var i := ivs[n];
      if Overlaps(i, start, end) {
        edges := edges + [Edge(Max(i.start, start), 1), Edge(Min(i.end, end), -1)];
      } else {
        edges := edges + [];
      }
    }
    assert ivs[..|ivs|] == ivs;
    EdgesLevel(ivs, start, end, start);
    SortFacts(edges, start);
    peak := HighestTotal(Sort(edges));
    SweepFindsPeak(ivs, start, end, peak);
  }

  /** The largest running total, and the start edge that reaches it. */
  method HighestTotal(edges: seq<Edge>) returns (peak: int)
    requires forall e :: e in edges ==> e.delta == 1 || e.delta == -1
    ensures peak >= 0
    ensures forall k :: 0 <= k <= |edges| ==> Total(edges[..k]) <= peak
    ensures peak == 0 || exists k :: 0 <= k < |edges| && edges[k].delta == 1 && Total(edges[..k + 1]) == peak
  {
    var current := 0;
    peak := 0;
    for n := 0 to |edges|
      invariant current == Total(edges[..n])
      invariant peak >= 0
      invariant forall k :: 0 <= k <= n ==> Total(edges[..k]) <= peak
      invariant peak == 0 || exists k :: 0 <= k < n && edges[k].delta == 1 && Total(edges[..k + 1]) == peak
    {
      assert edges[..n + 1][..n] == edges[..n];
      assert edges[n] in edges;
      current := current + edges[n].delta;
      peak := Max(peak, current);
    }
  }

  lemma SweepFindsPeak(ivs: seq<Interval>, start: int, end: int, peak: int)
    requires Proper(ivs)
    requires var edges := Sort(EdgesOf(ivs, start, end));
      && (forall k :: 0 <= k <= |edges| ==> Total(edges[..k]) <= peak)
      && (peak == 0 || exists k :: 0 <= k < |edges| && edges[k].delta == 1 && Total(edges[..k + 1]) == peak)
    requires peak >= 0
    ensures IsPeak(ivs, start, end, peak)
  {
    var edges := Sort(EdgesOf(ivs, start, end));
    forall t | start <= t < end ensures Cover(ivs, t) <= peak {
      EdgesLevel(ivs, start, end, t);
      SortFacts(EdgesOf(ivs, start, end), t);
      var k := LevelIsReached(edges, t, 0);
    }
    if peak != 0 {
      var k :| 0 <= k < |edges| && edges[k].delta == 1 && Total(edges[..k + 1]) == peak;
      var t := edges[k].at;
      EdgesLevel(ivs, start, end, t);
      SortFacts(EdgesOf(ivs, start, end), t);
      assert edges[k] in edges;
      StartBelowLevel(edges, k);
      assert start <= t < end && Cover(ivs, t) == peak;
    }
  }
}
