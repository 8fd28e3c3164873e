/** Dates a customer names: an explicit day and month, a day of the month, a
    weekday. The words themselves arrive as the match groups of the patterns. */
module Dates {
  import opened Wrappers

  // ------------------------------------------------------------- the calendar

  datatype Date = Date(year: int, month: int, day: int)

  const MIN_YEAR := 1
  const MAX_YEAR := 9999

  predicate Leap(year: int) {
    year % 4 == 0 && (year % 100 != 0 || year % 400 == 0)
  }

  function DaysIn(year: int, month: int): int {
    if month == 2 then (if Leap(year) then 29 else 28)
    else if month in {4, 6, 9, 11} then 30
    else 31
  }

  predicate Valid(d: Date) {
    && MIN_YEAR <= d.year <= MAX_YEAR
    && 1 <= d.month <= 12
    && 1 <= d.day <= DaysIn(d.year, d.month)
  }

  /** Calendar order. */
  predicate Before(a: Date, b: Date) {
    || a.year < b.year
    || (a.year == b.year && a.month < b.month)
    || (a.year == b.year && a.month == b.month && a.day < b.day)
  }

  predicate OnOrAfter(a: Date, b: Date) {
    !Before(a, b)
  }

  function DaysBeforeYear(year: int): int
    requires MIN_YEAR <= year
    decreases year
  {
    if year == MIN_YEAR then 0
    else DaysBeforeYear(year - 1) + 365 + if Leap(year - 1) then 1 else 0
  }

  function DaysBeforeMonth(year: int, month: int): int
    requires 1 <= month <= 12
    decreases month
  {
    if month == 1 then 0 else DaysBeforeMonth(year, month - 1) + DaysIn(year, month - 1)
  }

  /** Day 1 is 1 January of year 1, a Monday. */
  function Ordinal(d: Date): int
    requires Valid(d)
  {
    DaysBeforeYear(d.year) + DaysBeforeMonth(d.year, d.month) + d.day
  }

  function Weekday(d: Date): int
    requires Valid(d)
  {
    (Ordinal(d) + 6) % 7
  }

  function NextDay(d: Date): Date {
    if d.day < DaysIn(d.year, d.month) then Date(d.year, d.month, d.day + 1)
    else if d.month < 12 then Date(d.year, d.month + 1, 1)
    else Date(d.year + 1, 1, 1)
  }

  /** `today + timedelta(days=n)`; None past the last representable day. */
  function AddDays(d: Date, n: nat): Option<Date>
    requires Valid(d)
    decreases n
  {
    if n == 0 then Some(d)
    else if Valid(NextDay(d)) then AddDays(NextDay(d), n - 1)
    else None
  }

  lemma LeapSteps(n: int)
    requires n >= 1
    ensures n / 4 - (n - 1) / 4 == if n % 4 == 0 then 1 else 0
    ensures n / 100 - (n - 1) / 100 == if n % 100 == 0 then 1 else 0
    ensures n / 400 - (n - 1) / 400 == if n % 400 == 0 then 1 else 0
    ensures Leap(n) <==> n / 4 - (n - 1) / 4 - (n / 100 - (n - 1) / 100) + (n / 400 - (n - 1) / 400) == 1
    ensures !Leap(n) <==> n / 4 - (n - 1) / 4 - (n / 100 - (n - 1) / 100) + (n / 400 - (n - 1) / 400) == 0
  {
  }

  /** The recursive day count is the closed Gregorian formula. */
  lemma {:induction false} DaysBeforeYearClosed(year: int)
    requires MIN_YEAR <= year
    ensures DaysBeforeYear(year) == 365 * (year - 1) + (year - 1) / 4 - (year - 1) / 100 + (year - 1) / 400
    decreases year
  {
    if year > MIN_YEAR {
      DaysBeforeYearClosed(year - 1);
      LeapSteps(year - 1);
    }
  }

  lemma YearLength(year: int)
    ensures DaysBeforeMonth(year, 12) + 31 == 365 + if Leap(year) then 1 else 0
  {
    assert DaysBeforeMonth(year, 5) == DaysBeforeMonth(year, 2) + DaysIn(year, 2) + 31 + 30;
    assert DaysBeforeMonth(year, 9) == DaysBeforeMonth(year, 5) + 31 + 30 + 31 + 31;
  }

  lemma {:induction false} OrdinalSteps(d: Date)
    requires Valid(d) && Valid(NextDay(d))
    ensures Ordinal(NextDay(d)) == Ordinal(d) + 1
  {
    if d.day == DaysIn(d.year, d.month) && d.month == 12 {
      YearLength(d.year);
    }
  }

  lemma {:induction false} AddDaysCounts(d: Date, n: nat)
    requires Valid(d)
    ensures match AddDays(d, n)
      case Some(e) => Valid(e) && Ordinal(e) == Ordinal(d) + n && OnOrAfter(e, d)
      case None => exists k: nat :: k < n && AddDays(d, k) == Some(Date(MAX_YEAR, 12, 31))
    decreases n
  {
    if n > 0 {
      if Valid(NextDay(d)) {
        OrdinalSteps(d);
        AddDaysCounts(NextDay(d), n - 1);
        if AddDays(NextDay(d), n - 1).None? {
          var k: nat :| k < n - 1 && AddDays(NextDay(d), k) == Some(Date(MAX_YEAR, 12, 31));
          assert AddDays(d, k + 1) == AddDays(NextDay(d), k);
        }
      } else {
        assert AddDays(d, 0) == Some(Date(MAX_YEAR, 12, 31));
      }
    }
  }

  lemma {:induction false} MonthsGrow(year: int, a: int, b: int)
    requires 1 <= a < b <= 12
    ensures DaysBeforeMonth(year, a) + DaysIn(year, a) <= DaysBeforeMonth(year, b)
    decreases b
  {
    if a < b - 1 {
      MonthsGrow(year, a, b - 1);
    }
  }

  lemma {:induction false} YearsGrow(a: int, b: int)
    requires MIN_YEAR <= a < b
    ensures DaysBeforeYear(a) + DaysBeforeMonth(a, 12) + 31 <= DaysBeforeYear(b)
    decreases b
  {
    YearLength(b - 1);
    if a < b - 1 {
      YearsGrow(a, b - 1);
      YearLength(a);
      MonthsGrow(b - 1, 1, 12);
    }
  }

  lemma WithinYear(d: Date)
    requires Valid(d)
    ensures DaysBeforeMonth(d.year, d.month) + d.day <= DaysBeforeMonth(d.year, 12) + 31
    ensures 0 <= DaysBeforeMonth(d.year, d.month)
  {
    if d.month < 12 {
      MonthsGrow(d.year, d.month, 12);
    }
    if 1 < d.month {
      MonthsGrow(d.year, 1, d.month);
    }
  }

  /** Calendar order is the order of day numbers. */
  lemma OrdinalOrder(a: Date, b: Date)
    requires Valid(a) && Valid(b)
    ensures Before(a, b) ==> Ordinal(a) < Ordinal(b)
    ensures Ordinal(a) == Ordinal(b) ==> a == b
  {
    OrdinalGrows(a, b);
    OrdinalGrows(b, a);
  }

  lemma OrdinalGrows(a: Date, b: Date)
    requires Valid(a) && Valid(b)
    ensures Before(a, b) ==> Ordinal(a) < Ordinal(b)
  {
    if a.year < b.year {
      YearsGrow(a.year, b.year);
      WithinYear(a);
      WithinYear(b);
    } else if a.year == b.year && a.month < b.month {
      MonthsGrow(a.year, a.month, b.month);
    }
  }

  // -------------------------------------------------------- explicit dates

  function SafeDate(year: int, month: int, day: int): Option<Date> {
    var d := Date(year, month, day);
    if Valid(d) then Some(d) else None
  }

  function YearFor(month: int, day: int, today: Date): int {
    match SafeDate(today.year, month, day)
    case None => today.year
    case Some(d) => if OnOrAfter(d, today) then today.year else today.year + 1
  }

  function NotPast(d: Option<Date>, today: Date): Option<Date> {
    if d.Some? && OnOrAfter(d.value, today) then d else None
  }

  /** That day of the month `offset` months on, unless it is already gone. */
  function InMonth(day: int, today: Date, offset: nat): Option<Date> {
    var months := today.month + offset - 1;
    NotPast(SafeDate(today.year + months / 12, months % 12 + 1, day), today)
  }

  /** "the 24th": this month, next, or the one after. */
  function DayOfMonth(day: int, today: Date, offset: nat): Option<Date>
    decreases 3 - offset
  {
    if offset >= 3 then None
    else
      match InMonth(day, today, offset)
      case Some(d) => Some(d)
      case None => DayOfMonth(day, today, offset + 1)
  }

  /** A year written with two digits is in this century. */
  datatype Year = Omitted | Full(year: int) | TwoDigits(year: int)

  datatype Named = Named(day: int, month: int, year: Year)

  /** The first match of each pattern in one message. */
  datatype Mention = Mention(
    iso: Option<Date>, dayMonth: Option<Named>, monthDay: Option<Named>, numeric: Option<Named>, ordinal: Option<int>)

  function Resolve(n: Named, today: Date): Option<Date> {
    var year := match n.year
      case Full(y) => y
      case TwoDigits(y) => 2000 + y
      case Omitted => if n.month <= 12 then YearFor(n.month, n.day, today) else today.year;
    NotPast(SafeDate(year, n.month, n.day), today)
  }

  function FirstSome(a: Option<Date>, b: Option<Date>): Option<Date> {
    if a.Some? then a else b
  }

  function ResolveIf(n: Option<Named>, today: Date): Option<Date> {
    if n.Some? then Resolve(n.value, today) else None
  }

  function ParseExplicit(m: Mention, today: Date): Option<Date> {
    if m.iso.Some? then NotPast(SafeDate(m.iso.value.year, m.iso.value.month, m.iso.value.day), today)
    else
      FirstSome(ResolveIf(m.dayMonth, today),
      FirstSome(ResolveIf(m.monthDay, today),
      FirstSome(ResolveIf(m.numeric, today),
                if m.ordinal.Some? then DayOfMonth(m.ordinal.value, today, 0) else None)))
  }

  // --------------------------------------------------------- date phrases

  datatype Phrase = Phrase(
    dayAfterTomorrow: bool, tomorrow: bool, today: bool, mention: Mention, weekday: Option<int>, nextWeek: bool)

  /** `Overflow` is the exception for a day past 31 December 9999. */
  datatype Answer = Found(date: Date) | NoDate | Overflow

  function Shifted(today: Date, n: nat): Answer
    requires Valid(today)
  {
    match AddDays(today, n)
    case Some(d) => Found(d)
    case None => Overflow
  }

  function DaysAhead(target: int, today: Date): nat
    requires Valid(today)
  {
    var ahead := (target - Weekday(today)) % 7;
    if ahead == 0 then 7 else ahead
  }

  function ParsePhrase(p: Phrase, today: Date): Answer
    requires Valid(today)
  {
    if p.dayAfterTomorrow then Shifted(today, 2)
    else if p.tomorrow then Shifted(today, 1)
    else if p.today then Found(today)
    else
      match ParseExplicit(p.mention, today)
      case Some(d) => Found(d)
      case None =>
        if p.weekday.Some? then Shifted(today, DaysAhead(p.weekday.value, today))
        else if p.nextWeek then Shifted(today, 7)
        else NoDate
  }

  // --------------------------------------------- the three-month search

  /** Months counted from year zero, so that "the month after" is plus one. */
  function MonthIndex(d: Date): int {
    12 * d.year + d.month - 1
  }

  ghost predicate Candidate(d: Date, day: int, today: Date) {
    Valid(d) && d.day == day && OnOrAfter(d, today)
  }

  ghost predicate Earliest(d: Date, day: int, today: Date) {
    Candidate(d, day, today) && forall e :: Candidate(e, day, today) ==> OnOrAfter(e, d)
  }

  lemma MonthsInOrder(a: Date, b: Date)
    requires Valid(a) && Valid(b)
    ensures MonthIndex(a) < MonthIndex(b) ==> Before(a, b)
    ensures OnOrAfter(b, a) ==> MonthIndex(a) <= MonthIndex(b)
  {
  }

  /** A month holds one candidate at most, and the search step finds it. */
  lemma InMonthExactly(day: int, today: Date, offset: nat, d: Date)
    requires Valid(today)
    ensures InMonth(day, today, offset) == Some(d)
      <==> Candidate(d, day, today) && MonthIndex(d) == MonthIndex(today) + offset
  {
  }

  /** The search from some month on finds the earliest day in it or later. */
  lemma {:induction false} SearchFinds(day: int, today: Date, offset: nat, d: Date, e: Date)
    requires Valid(today) && offset <= 3 && DayOfMonth(day, today, offset) == Some(d)
    ensures Candidate(d, day, today)
    ensures Candidate(e, day, today) && MonthIndex(e) >= MonthIndex(today) + offset ==> OnOrAfter(e, d)
    decreases 3 - offset
  {
    InMonthExactly(day, today, offset, d);
    InMonthExactly(day, today, offset, e);
    if InMonth(day, today, offset).None? {
      SearchFinds(day, today, offset + 1, d, e);
    } else if Candidate(e, day, today) {
      MonthsInOrder(e, d);
    }
  }

  /** Of two months in a row at least one is long enough for any day. */
  lemma LongMonth(year: int, month: int)
    requires 1 <= month <= 12
    ensures DaysIn(year, month) == 31 || DaysIn(year + month / 12, month % 12 + 1) == 31
  {
  }

  lemma LongMonthNext(day: int, today: Date, e: Date)
    requires Valid(today) && Candidate(e, day, today) && MonthIndex(e) >= MonthIndex(today) + 3
    ensures DayOfMonth(day, today, 1).Some?
  {
    var d1 := Date(today.year + today.month / 12, today.month % 12 + 1, day);
    var d2 := Date(d1.year + d1.month / 12, d1.month % 12 + 1, day);
    LongMonth(d1.year, d1.month);
    assert MonthIndex(d1) == MonthIndex(today) + 1 && MonthIndex(d2) == MonthIndex(today) + 2;
    InMonthExactly(day, today, 1, d1);
    InMonthExactly(day, today, 2, d2);
  }

  lemma SearchComplete(day: int, today: Date, e: Date)
    requires Valid(today) && Candidate(e, day, today)
    ensures DayOfMonth(day, today, 0).Some?
  {
    var k := MonthIndex(e) - MonthIndex(today);
    if k >= 3 {
      LongMonthNext(day, today, e);
    } else {
      MonthsInOrder(today, e);
      InMonthExactly(day, today, k, e);
    }
  }

  /** "the 24th" is the earliest such date on or after today, and is refused
      only when the calendar has none left. */
  lemma DayOfMonthIsEarliest(day: int, today: Date)
    requires Valid(today)
    ensures match DayOfMonth(day, today, 0)
      case Some(d) => Earliest(d, day, today)
      case None => forall e :: !Candidate(e, day, today)
  {
    match DayOfMonth(day, today, 0) {
      case Some(d) =>
        SearchFinds(day, today, 0, d, d);
        forall e | Candidate(e, day, today) ensures OnOrAfter(e, d) {
          MonthsInOrder(today, e);
          SearchFinds(day, today, 0, d, e);
        }
      case None =>
        forall e ensures !Candidate(e, day, today) {
          if Candidate(e, day, today) {
            SearchComplete(day, today, e);
          }
        }
    }
  }

  /** Before the last representable year the search never fails. */
  lemma DayOfMonthAlwaysFound(day: int, today: Date)
    requires Valid(today) && today.year < MAX_YEAR && 1 <= day <= 31
    ensures DayOfMonth(day, today, 0).Some?
  {
    var e := Date(today.year + 1, 12, day);
    assert Candidate(e, day, today);
    SearchComplete(day, today, e);
  }

  // ------------------------------------------------------- an omitted year

  ghost predicate Recurs(d: Date, month: int, day: int, today: Date) {
    Valid(d) && d.month == month && d.day == day && OnOrAfter(d, today)
  }

  /** The first such date, looking as far as the end of next year. */
  ghost predicate FirstWithinNextYear(r: Option<Date>, month: int, day: int, today: Date) {
    match r
    case Some(d) => Recurs(d, month, day, today) && forall e :: Recurs(e, month, day, today) ==> OnOrAfter(e, d)
    case None => forall e :: Recurs(e, month, day, today) ==> e.year > today.year + 1
  }

  /** The year guessed for a day and month is the right one, or there is none
      before the year after next, except for 29 February named in the year
      before a leap year, which is refused. */
  lemma YearGuessExactlyWhen(month: int, day: int, today: Date)
    requires Valid(today)
    ensures FirstWithinNextYear(Resolve(Named(day, month, Omitted), today), month, day, today)
      <==> !(month == 2 && day == 29 && !Leap(today.year) && Leap(today.year + 1) && today.year < MAX_YEAR)
  {
    var r := Resolve(Named(day, month, Omitted), today);
    var now, next := Date(today.year, month, day), Date(today.year + 1, month, day);
    if month == 2 && day == 29 && !Leap(today.year) && Leap(today.year + 1) && today.year < MAX_YEAR {
      assert Recurs(next, month, day, today) && r.None?;
    } else {
      forall e | Recurs(e, month, day, today) && e.year <= today.year + 1
        ensures r.Some? && OnOrAfter(e, r.value)
      {
        assert e == now || e == next;
      }
    }
  }

  /** A text with one date, by day and month in either order, the day with or
      without an ordinal suffix. */
  function OneDate(n: Named, monthFirst: bool, suffixed: bool): Mention {
    Mention(None, if monthFirst then None else Some(n), if monthFirst then Some(n) else None, None,
            if suffixed then Some(n.day) else None)
  }

  /** What is answered is the day and month that were named, and the year. */
  predicate AsNamed(a: Option<Date>, n: Named) {
    a.Some? ==> a.value.day == n.day && a.value.month == n.month && (n.year.Full? ==> a.value.year == n.year.year)
  }

  lemma SearchIsNear(day: int, today: Date, offset: nat)
    requires Valid(today) && offset <= 3 && DayOfMonth(day, today, offset).Some?
    ensures var d := DayOfMonth(day, today, offset).value;
      Candidate(d, day, today) && MonthIndex(today) + offset <= MonthIndex(d) <= MonthIndex(today) + 2
    decreases 3 - offset
  {
    if InMonth(day, today, offset).None? {
      SearchIsNear(day, today, offset + 1);
    }
  }

  /** The search never runs into 29 February of another year: January has a 29th. */
  lemma JanuaryComesFirst(today: Date)
    requires Valid(today) && DayOfMonth(29, today, 0).Some? && DayOfMonth(29, today, 0).value.month == 2
    ensures DayOfMonth(29, today, 0).value.year == today.year
  {
    SearchIsNear(29, today, 0);
  }

  lemma RefusedIsElsewhere(n: Named, today: Date)
    requires Valid(today) && 1 <= n.month <= 12 && !n.year.TwoDigits?
    requires Resolve(n, today).None? && DayOfMonth(n.day, today, 0).Some?
    ensures !AsNamed(DayOfMonth(n.day, today, 0), n)
  {
    SearchIsNear(n.day, today, 0);
    var d := DayOfMonth(n.day, today, 0).value;
    if n.month == 2 && n.day == 29 && d.month == 2 {
      JanuaryComesFirst(today);
    }
  }

  /** A text that names one date is answered with that date or not at all,
      exactly unless the date was refused, the day has an ordinal suffix, and
      the search for "the 29th" then finds a date of another month or year. */
  lemma AnswersAsNamedExactlyWhen(n: Named, monthFirst: bool, suffixed: bool, today: Date)
    requires Valid(today) && 1 <= n.month <= 12 && !n.year.TwoDigits?
    ensures AsNamed(ParseExplicit(OneDate(n, monthFirst, suffixed), today), n)
      <==> !(suffixed && Resolve(n, today).None? && DayOfMonth(n.day, today, 0).Some?)
  {
    if Resolve(n, today).None? && DayOfMonth(n.day, today, 0).Some? {
      RefusedIsElsewhere(n, today);
    }
  }

  /** In June 2027 the next "29 February", eight months away, is refused, and
      "29th February" is read as 29 June. */
  lemma LeapDayIsRefused()
    ensures var n, today := Named(29, 2, Omitted), Date(2027, 6, 1);
      && Recurs(Date(2028, 2, 29), 2, 29, today)
      && ParseExplicit(OneDate(n, false, false), today) == None
      && ParseExplicit(OneDate(n, false, true), today) == Some(Date(2027, 6, 29))
  {
    YearGuessExactlyWhen(2, 29, Date(2027, 6, 1));
  }

  // ---------------------------------------------------------- main theorems

  lemma ShiftedNotPast(today: Date, n: nat)
    requires Valid(today)
    ensures var a := Shifted(today, n); a.Found? ==> Valid(a.date) && OnOrAfter(a.date, today)
  {
    AddDaysCounts(today, n);
  }

  lemma ExplicitNotPast(m: Mention, today: Date)
    requires Valid(today)
    ensures var d := ParseExplicit(m, today); d.Some? ==> Valid(d.value) && OnOrAfter(d.value, today)
  {
    if m.ordinal.Some? {
      DayOfMonthIsEarliest(m.ordinal.value, today);
    }
  }

  /** Nothing a customer writes is read as a day already gone. */
  lemma NeverInThePast(p: Phrase, today: Date)
    requires Valid(today)
    ensures var a := ParsePhrase(p, today); a.Found? ==> Valid(a.date) && OnOrAfter(a.date, today)
  {
    ShiftedNotPast(today, 1);
    ShiftedNotPast(today, 2);
    ShiftedNotPast(today, 7);
    ExplicitNotPast(p.mention, today);
    if p.weekday.Some? {
      ShiftedNotPast(today, DaysAhead(p.weekday.value, today));
    }
  }

  /** In the coming week, today left out and the same day next week included. */
  ghost predicate InNextSevenDays(d: Date, today: Date)
    requires Valid(today)
  {
    Valid(d) && 1 <= Ordinal(d) - Ordinal(today) <= 7
  }

  /** Of the numbers after `a`, up to seven on, one has each remainder. */
  lemma OneOfSeven(a: int, b: int, target: int)
    requires 0 <= target < 7 && 1 <= b - a <= 7
    ensures var ahead := (target - a % 7) % 7;
      b % 7 == target <==> b - a == if ahead == 0 then 7 else ahead
  {
    var q, r := a / 7, a % 7;
    assert b == 7 * q + (r + (b - a));
    assert b % 7 == (r + (b - a)) % 7;
  }

  lemma AheadExactly(today: Date, d: Date, target: int)
    requires Valid(today) && Valid(d) && 0 <= target < 7
    ensures Ordinal(d) == Ordinal(today) + DaysAhead(target, today)
      <==> InNextSevenDays(d, today) && Weekday(d) == target
  {
    var a, b := Ordinal(today) + 6, Ordinal(d) + 6;
    assert 1 <= DaysAhead(target, today) <= 7;
    if 1 <= b - a <= 7 {
      OneOfSeven(a, b, target);
    }
  }

  /** Day numbers are a faithful name for the days the shift can reach. */
  lemma ShiftedExactly(today: Date, n: nat, d: Date)
    requires Valid(today)
    ensures Shifted(today, n) == Found(d) <==> Valid(d) && Ordinal(d) == Ordinal(today) + n
  {
    AddDaysCounts(today, n);
    if Valid(d) && Ordinal(d) == Ordinal(today) + n {
      match AddDays(today, n) {
        case Some(e) => OrdinalOrder(d, e);
        case None =>
          var k: nat :| k < n && AddDays(today, k) == Some(Date(MAX_YEAR, 12, 31));
          AddDaysCounts(today, k);
          LastDay(d);
      }
    }
  }

  lemma LastDay(d: Date)
    requires Valid(d)
    ensures Ordinal(d) <= Ordinal(Date(MAX_YEAR, 12, 31))
  {
    OrdinalOrder(d, Date(MAX_YEAR, 12, 31));
  }

  /** A bare weekday is the one day of the coming week with that name. */
  lemma WeekdayIsTheNextOne(p: Phrase, today: Date, d: Date)
    requires Valid(today) && p.weekday.Some? && 0 <= p.weekday.value < 7
    requires !p.dayAfterTomorrow && !p.tomorrow && !p.today && ParseExplicit(p.mention, today).None?
    ensures ParsePhrase(p, today) == Found(d)
      <==> Valid(d) && InNextSevenDays(d, today) && Weekday(d) == p.weekday.value
  {
    ShiftedExactly(today, DaysAhead(p.weekday.value, today), d);
    if Valid(d) {
      AheadExactly(today, d, p.weekday.value);
    }
  }

  /** "Tomorrow" and its like are that many days on, whatever else the text says; a
      date it names comes next, and "next week" is seven days on when it says
      nothing more. */
  lemma RelativeDaysAreCounted(p: Phrase, today: Date, d: Date)
    requires Valid(today)
    ensures var said := Valid(d) && ParsePhrase(p, today) == Found(d);
      && (p.dayAfterTomorrow ==> (said <==> Valid(d) && Ordinal(d) == Ordinal(today) + 2))
      && (!p.dayAfterTomorrow && p.tomorrow ==> (said <==> Valid(d) && Ordinal(d) == Ordinal(today) + 1))
      && (!p.dayAfterTomorrow && !p.tomorrow && p.today ==> (said <==> d == today))
      && (!p.dayAfterTomorrow && !p.tomorrow && !p.today && ParseExplicit(p.mention, today) == Some(d) ==>
            ParsePhrase(p, today) == Found(d))
      && (p == Phrase(false, false, false, p.mention, None, true) && ParseExplicit(p.mention, today).None? ==>
            (said <==> Valid(d) && Ordinal(d) == Ordinal(today) + 7))
  {
    ShiftedExactly(today, 2, d);
    ShiftedExactly(today, 1, d);
    ShiftedExactly(today, 7, d);
  }

  /** A date with its year is that date or, once it has gone or if there is none
      such, no date at all; two digits are a year of this century. */
  lemma FullDatesAreTaken(day: int, month: int, year: int, today: Date)
    requires Valid(today)
    ensures var d := Date(year, month, day); var r := if Valid(d) && OnOrAfter(d, today) then Some(d) else None;
      && Resolve(Named(day, month, Full(year)), today) == r
      && Resolve(Named(day, month, TwoDigits(year - 2000)), today) == r
      && ParseExplicit(Mention(Some(d), None, None, None, None), today) == r
  {
  }

  // --------------------------------------------------- days with a free slot

  /** `days` are the free days from `start` to before `end`, in order. */
  ghost predicate FreeDays(days: seq<int>, start: int, end: int, free: int -> bool) {
    && (forall i, j :: 0 <= i < j < |days| ==> days[i] < days[j])
    && (forall d :: d in days <==> start <= d < end && free(d))
  }

  /** Alternatives to a full day: the first `limit` free days from the wanted
      day or today on, or all there are in the booking window. Days are day
      numbers; `free` says the day is open and has a slot left. */
  method FindNextAvailableDays(startDay: int, today: int, windowEnd: int, limit: nat, free: int -> bool)
    returns (found: seq<int>)
    ensures var start := if startDay < today then today else startDay;
      exists end :: FreeDays(found, start, end, free)
        && (if |found| < limit then end == Max(start, windowEnd + 1) else |found| == limit && end <= Max(start, windowEnd + 1))
  {
    var start := if startDay < today then today else startDay;
    found := [];
    var cursor := start;
    while cursor <= windowEnd && |found| < limit
      invariant start <= cursor <= Max(start, windowEnd + 1) && |found| <= limit
      invariant FreeDays(found, start, cursor, free)
    {
      if free(cursor) {
        assert forall i :: 0 <= i < |found| ==> found[i] in found;
        found := found + [cursor];
      }
      cursor := cursor + 1;
    }
    assert FreeDays(found, start, cursor, free);
  }

  function Max(a: int, b: int): int {
    if a < b then b else a
  }
}
