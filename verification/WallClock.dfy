/** Wall-clock times of an imported diary as instants. A zone is a list of
    offset changes; wall times are read with the fold rule of PEP 495. Instants,
    wall clocks and offsets are whole seconds; instants and wall clocks count
    from the first second of year 1. */
module WallClock {
  import opened Wrappers

  datatype Change = Change(at: int, offset: int)

  /** `base` is the offset before the first change. */
  datatype Zone = Zone(base: int, changes: seq<Change>)

  /** The offset of the k-th period: the one that begins at change k-1. */
  function Offset(z: Zone, k: nat): int
    requires k <= |z.changes|
  {
    if k == 0 then z.base else z.changes[k - 1].offset
  }

  function Max(a: int, b: int): int {
    if a < b then b else a
  }

  function Min(a: int, b: int): int {
    if a < b then a else b
  }

  /** The wall clocks between which change k makes local time jump. */
  function Late(z: Zone, k: nat): int
    requires k < |z.changes|
  {
    z.changes[k].at + Max(Offset(z, k), Offset(z, k + 1))
  }

  function Early(z: Zone, k: nat): int
    requires k < |z.changes|
  {
    z.changes[k].at + Min(Offset(z, k), Offset(z, k + 1))
  }

  /** One jump is over, on the wall clock, before the next begins. */
  ghost predicate Spaced(z: Zone) {
    forall j, k :: 0 <= j < k < |z.changes| ==> Late(z, j) < Early(z, k)
  }

  // ------------------------------------------------------ reading the zone

  /** How many marks lie at or before `x`, as a search from the right end. */
  function Bisect(marks: seq<int>, x: int): (n: nat)
    ensures n <= |marks|
    ensures n > 0 ==> marks[n - 1] <= x
    ensures forall i :: n <= i < |marks| ==> x < marks[i]
  {
    if marks == [] then 0
    else if marks[|marks| - 1] <= x then |marks|
    else Bisect(marks[..|marks| - 1], x)
  }

  function Starts(z: Zone): seq<int> {
    seq(|z.changes|, k requires 0 <= k < |z.changes| => z.changes[k].at)
  }

  /** A first reading takes each change at its later wall clock, a second
      reading at its earlier one. */
  function Marks(z: Zone, fold: bool): seq<int> {
    seq(|z.changes|, k requires 0 <= k < |z.changes| => if fold then Early(z, k) else Late(z, k))
  }

  /** The offset in force at an instant. */
  function OffsetAt(z: Zone, instant: int): int {
    Offset(z, Bisect(Starts(z), instant))
  }

  function Local(z: Zone, instant: int): int {
    instant + OffsetAt(z, instant)
  }

  function OffsetOf(z: Zone, wall: int, fold: bool): int {
    Offset(z, Bisect(Marks(z, fold), wall))
  }

  datatype Text = NotText | NoTime | NotADate | Naive(wall: int) | Aware(wall: int, offset: int)

  /** `Overflow` is the exception for a time before year 1 or after year 9999. */
  datatype Parsed = Ok(instant: int) | Malformed | Nonexistent | Ambiguous | Overflow

  const DAY := 86_400
  const LAST := 3_652_059 * DAY - 1

  predicate Held(time: int) {
    0 <= time <= LAST
  }

  /** The first reading of a wall clock. */
  function First(z: Zone, wall: int): int {
    wall - OffsetOf(z, wall, false)
  }

  /** The first reading, or its way back to local time, leaves the calendar. */
  predicate Overflows(z: Zone, wall: int) {
    !Held(First(z, wall)) || !Held(Local(z, First(z, wall)))
  }

  function Read(wall: int, z: Zone): Parsed {
    if Local(z, First(z, wall)) != wall then Nonexistent
    else if OffsetOf(z, wall, false) != OffsetOf(z, wall, true) then Ambiguous
    else Ok(First(z, wall))
  }

  function ParseWallClock(value: Text, z: Zone): Parsed {
    match value
    case Aware(wall, offset) =>
      if !Held(wall) then Malformed else if Held(wall - offset) then Ok(wall - offset) else Overflow
    case Naive(wall) =>
      if !Held(wall) then Malformed else if Overflows(z, wall) then Overflow else Read(wall, z)
    case _ => Malformed
  }

  // ------------------------------------------------------ what a zone shows

  /** Period k holds the instant. */
  predicate InPeriod(z: Zone, k: nat, instant: int)
    requires k <= |z.changes|
  {
    && (k > 0 ==> z.changes[k - 1].at <= instant)
    && (k < |z.changes| ==> instant < z.changes[k].at)
  }

  /** Changes, and both wall-clock ends of their jumps, come in order. */
  lemma JumpsOrdered(z: Zone, j: nat, k: nat)
    requires Spaced(z) && j <= k < |z.changes|
    ensures z.changes[j].at <= z.changes[k].at
    ensures Late(z, j) <= Late(z, k) && Early(z, j) <= Early(z, k)
    decreases k - j
  {
    if j < k {
      assert Late(z, j) < Early(z, j + 1);
      JumpsOrdered(z, j + 1, k);
    }
  }

  /** The offset at an instant is that of the one period holding it. */
  lemma PeriodOf(z: Zone, k: nat, instant: int)
    requires Spaced(z) && k <= |z.changes| && InPeriod(z, k, instant)
    ensures OffsetAt(z, instant) == Offset(z, k)
  {
    var n := HasPeriod(z, instant);
    if n < k {
      JumpsOrdered(z, n, k - 1);
    } else if k < n {
      JumpsOrdered(z, k, n - 1);
    }
  }

  lemma HasPeriod(z: Zone, instant: int) returns (k: nat)
    ensures k <= |z.changes| && InPeriod(z, k, instant) && OffsetAt(z, instant) == Offset(z, k)
  {
    k := Bisect(Starts(z), instant);
    assert k > 0 ==> Starts(z)[k - 1] == z.changes[k - 1].at;
    assert k < |z.changes| ==> Starts(z)[k] == z.changes[k].at;
  }

  /** `wall` lies between the jumps before `low` and after `high`: outside any
      jump when they are equal, inside the jump from one to the other if not. */
  ghost predicate Brackets(z: Zone, wall: int, low: nat, high: nat) {
    && low <= high <= low + 1 && high <= |z.changes|
    && (low > 0 ==> Late(z, low - 1) <= wall)
    && (low < high ==> Early(z, low) <= wall < Late(z, low))
    && (high < |z.changes| ==> wall < Early(z, high))
  }

  lemma Bracket(z: Zone, wall: int) returns (low: nat, high: nat)
    requires Spaced(z)
    ensures Brackets(z, wall, low, high)
    ensures OffsetOf(z, wall, false) == Offset(z, low) && OffsetOf(z, wall, true) == Offset(z, high)
  {
    low, high := Bisect(Marks(z, false), wall), Bisect(Marks(z, true), wall);
    assert low > 0 ==> Marks(z, false)[low - 1] == Late(z, low - 1);
    assert low < |z.changes| ==> Marks(z, false)[low] == Late(z, low);
    assert high > 0 ==> Marks(z, true)[high - 1] == Early(z, high - 1);
    assert high < |z.changes| ==> Marks(z, true)[high] == Early(z, high);
    assert low > 0 ==> Marks(z, true)[low - 1] == Early(z, low - 1);
  }

  /** Only the periods next to a wall clock can show it. */
  lemma OnlyNeighbours(z: Zone, wall: int, instant: int, low: nat, high: nat)
    requires Spaced(z) && Brackets(z, wall, low, high) && Local(z, instant) == wall
    ensures exists k :: low <= k <= high && InPeriod(z, k, instant) && instant == wall - Offset(z, k)
  {
    var k := HasPeriod(z, instant);
    if k < low {
      JumpsOrdered(z, k, low - 1);
    } else if k > high {
      JumpsOrdered(z, high, k - 1);
    }
  }

  // ---------------------------------------------------------- main theorems

  ghost predicate Shows(z: Zone, wall: int, instant: int) {
    Local(z, instant) == wall
  }

  ghost predicate NeverShown(z: Zone, wall: int) {
    forall u :: !Shows(z, wall, u)
  }

  ghost predicate ShownTwice(z: Zone, wall: int) {
    exists u, v :: u < v && Shows(z, wall, u) && Shows(z, wall, v)
  }

  ghost predicate ShownOnlyAt(z: Zone, wall: int, instant: int) {
    forall u :: Shows(z, wall, u) <==> u == instant
  }

  lemma BetweenJumps(z: Zone, wall: int, k: nat)
    requires Spaced(z) && Brackets(z, wall, k, k)
    ensures ShownOnlyAt(z, wall, wall - Offset(z, k))
  {
    var first := wall - Offset(z, k);
    assert InPeriod(z, k, first);
    PeriodOf(z, k, first);
    forall u | Shows(z, wall, u) ensures u == first {
      OnlyNeighbours(z, wall, u, k, k);
    }
  }

  /** The clock jumping forward over `wall`. */
  lemma InsideGap(z: Zone, wall: int, k: nat)
    requires Spaced(z) && Brackets(z, wall, k, k + 1)
    requires Offset(z, k) < Offset(z, k + 1)
    ensures NeverShown(z, wall)
  {
    forall u ensures !Shows(z, wall, u) {
      if Shows(z, wall, u) {
        OnlyNeighbours(z, wall, u, k, k + 1);
      }
    }
  }

  /** The clock jumping back over `wall`. */
  lemma InsideFold(z: Zone, wall: int, k: nat)
    requires Spaced(z) && Brackets(z, wall, k, k + 1)
    requires Offset(z, k) > Offset(z, k + 1)
    ensures Shows(z, wall, wall - Offset(z, k)) && Shows(z, wall, wall - Offset(z, k + 1))
  {
    var first, second := wall - Offset(z, k), wall - Offset(z, k + 1);
    assert InPeriod(z, k, first);
    PeriodOf(z, k, first);
    assert InPeriod(z, k + 1, second);
    PeriodOf(z, k + 1, second);
  }

  /** What the parser answers against how often the clock shows the time. */
  ghost predicate Exact(parsed: Parsed, z: Zone, wall: int) {
    match parsed
    case Ok(u) => ShownOnlyAt(z, wall, u)
    case Nonexistent => NeverShown(z, wall)
    case Ambiguous => ShownTwice(z, wall)
    case _ => false
  }

  lemma ExactBetween(z: Zone, wall: int, first: int)
    requires ShownOnlyAt(z, wall, first)
    requires first == wall - OffsetOf(z, wall, false) && OffsetOf(z, wall, true) == OffsetOf(z, wall, false)
    ensures Exact(Read(wall, z), z, wall)
  {
    assert Shows(z, wall, first);
  }

  lemma ExactInGap(z: Zone, wall: int)
    requires NeverShown(z, wall)
    ensures Exact(Read(wall, z), z, wall)
  {
    assert !Shows(z, wall, wall - OffsetOf(z, wall, false));
  }

  lemma ExactInFold(z: Zone, wall: int, first: int, second: int)
    requires first == wall - OffsetOf(z, wall, false) && second == wall - OffsetOf(z, wall, true)
    requires first < second && Shows(z, wall, first) && Shows(z, wall, second)
    ensures Exact(Read(wall, z), z, wall)
  {
  }

  lemma JumpMoves(z: Zone, wall: int, k: nat)
    requires Brackets(z, wall, k, k + 1)
    ensures Offset(z, k) != Offset(z, k + 1)
  {
  }

  lemma ParsesInsideExactly(z: Zone, wall: int, k: nat)
    requires Spaced(z) && Brackets(z, wall, k, k + 1)
    requires OffsetOf(z, wall, false) == Offset(z, k) && OffsetOf(z, wall, true) == Offset(z, k + 1)
    ensures Exact(Read(wall, z), z, wall)
  {
    JumpMoves(z, wall, k);
    if Offset(z, k) < Offset(z, k + 1) {
      InsideGap(z, wall, k);
      ExactInGap(z, wall);
    } else {
      InsideFold(z, wall, k);
      ExactInFold(z, wall, wall - Offset(z, k), wall - Offset(z, k + 1));
    }
  }

  lemma ParsesExactly(z: Zone, wall: int)
    requires Spaced(z)
    ensures Exact(Read(wall, z), z, wall)
  {
    var low, high := Bracket(z, wall);
    if low == high {
      BetweenJumps(z, wall, low);
      ExactBetween(z, wall, wall - Offset(z, low));
    } else {
      ParsesInsideExactly(z, wall, low);
    }
  }

  /** The three ways a wall clock can be shown exclude one another. */
  lemma ExactlyOneAnswer(z: Zone, wall: int, p: Parsed, q: Parsed)
    requires Exact(p, z, wall) && Exact(q, z, wall)
    ensures p == q
  {
    if p.Ok? {
      assert Shows(z, wall, p.instant);
    }
    if q.Ok? {
      assert Shows(z, wall, q.instant);
    }
  }

  /** A naive time is accepted exactly when one and only one instant shows that
      wall clock, and that instant is the result; it is called nonexistent
      exactly when none does, and ambiguous exactly when two do; all this while
      the arithmetic stays inside the calendar. */
  lemma AcceptsExactlyUnambiguous(z: Zone, wall: int, answer: Parsed)
    requires Spaced(z) && Held(wall)
    ensures ParseWallClock(Naive(wall), z) == answer
      <==> if Overflows(z, wall) then answer == Overflow else Exact(answer, z, wall)
  {
    ParsesExactly(z, wall);
    if Exact(answer, z, wall) {
      ExactlyOneAnswer(z, wall, Read(wall, z), answer);
    }
  }

  lemma FirstIsNear(z: Zone, wall: int)
    requires -DAY < z.base < DAY && forall k :: 0 <= k < |z.changes| ==> -DAY < z.changes[k].offset < DAY
    ensures -DAY < First(z, wall) - wall < DAY && -DAY < Local(z, First(z, wall)) - First(z, wall) < DAY
  {
    var k, n := Bisect(Marks(z, false), wall), Bisect(Starts(z), First(z, wall));
    assert -DAY < Offset(z, k) < DAY && -DAY < Offset(z, n) < DAY;
  }

  /** Offsets being less than a day, it does except within two days of the ends. */
  lemma OverflowsOnlyAtTheEnds(z: Zone, wall: int)
    requires -DAY < z.base < DAY && forall k :: 0 <= k < |z.changes| ==> -DAY < z.changes[k].offset < DAY
    requires Held(wall) && Overflows(z, wall)
    ensures wall < 2 * DAY || wall > LAST - 2 * DAY
  {
    FirstIsNear(z, wall);
  }

  /** Whatever instant a diary entry was written down from, importing the wall
      clock gives that instant back unless the clock showed it twice. */
  lemma ImportGivesTheInstantBack(z: Zone, instant: int)
    requires Spaced(z) && Held(instant) && Held(Local(z, instant))
    ensures var wall := Local(z, instant); var parsed := ParseWallClock(Naive(wall), z);
      if ShownTwice(z, wall) then parsed == (if Overflows(z, wall) then Overflow else Ambiguous)
      else parsed == Ok(instant)
  {
    var wall := Local(z, instant);
    assert Shows(z, wall, instant);
    ParsesExactly(z, wall);
    if !ShownTwice(z, wall) {
      forall v | Shows(z, wall, v) ensures v == instant {
        assert !(v < instant) && !(instant < v);
      }
      ExactlyOneAnswer(z, wall, Read(wall, z), Ok(instant));
    }
  }

  /** What the refusal of an ambiguous time asks for always helps: of two
      instants the clock shows alike, each is imported from that wall clock once
      its own offset is written out, and the two offsets are different. */
  lemma ExplicitOffsetResolves(z: Zone, u: int, v: int)
    requires Spaced(z) && u != v && Local(z, u) == Local(z, v)
    requires Held(Local(z, u)) && Held(u) && Held(v)
    ensures var wall := Local(z, u);
      && ParseWallClock(Naive(wall), z) == (if Overflows(z, wall) then Overflow else Ambiguous)
      && ParseWallClock(Aware(wall, OffsetAt(z, u)), z) == Ok(u)
      && ParseWallClock(Aware(wall, OffsetAt(z, v)), z) == Ok(v)
      && OffsetAt(z, u) != OffsetAt(z, v)
  {
    var wall := Local(z, u);
    assert Shows(z, wall, u) && Shows(z, wall, v) && (u < v || v < u);
    AcceptsExactlyUnambiguous(z, wall, Ambiguous);
  }
}
