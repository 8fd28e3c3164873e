/** Pasting a diary: rows are checked, recognised or created one at a time, and
    the whole paste is then committed or rolled back. Names and emails are the
    folded forms the comparison uses, phones the normalised ones. */
module AppointmentImport {
  import opened Wrappers
  import W = WallClock

  // -------------------------------------------------------------------- data

  datatype Person = Person(first: string, last: string, phone: Option<string>, email: Option<string>)

  datatype Customer = Customer(who: Person, active: bool)

  datatype Service = Service(id: nat, active: bool, minutes: Option<nat>)

  datatype Employee = Employee(id: nat, active: bool)

  /** What an import only reads. */
  datatype Settings = Settings(
    zone: W.Zone, services: map<string, Service>, employees: map<string, Employee>, owner: Option<nat>,
    statuses: set<string>)

  datatype StatusField = Omitted | NotText | Given(status: string)

  /** One pasted row after its text fields are read. `fieldErrors` is a text
      field refused for its form, `otherWarnings` a warning not modelled here. */
  datatype Row = Row(
    service: Option<string>, start: W.Text, end: Option<W.Text>, status: StatusField,
    employeeEmail: Option<string>, person: Option<Person>, fieldErrors: bool, otherWarnings: bool)

  datatype Appointment = Appointment(
    service: nat, start: int, end: int, status: string, employee: nat, customer: nat)

  /** The business's customers and appointments, oldest first. */
  datatype Diary = Diary(customers: seq<Customer>, appointments: seq<Appointment>)

  datatype Outcome = Invalid | Exists(appointment: nat) | Created(customer: nat)

  datatype Item = Item(outcome: Outcome, warned: bool)

  const CANCELLED := "CANCELLED"
  const BOOKED := "BOOKED"

  // ------------------------------------------------------------------ checks

  datatype Ready = Ready(service: nat, start: int, end: int, status: string, employee: nat, person: Person)

  function ServiceOf(st: Settings, row: Row): Option<Service> {
    if row.service.Some? && row.service.value in st.services && st.services[row.service.value].active
    then Some(st.services[row.service.value]) else None
  }

  function Instant(st: Settings, text: W.Text): Option<int> {
    match W.ParseWallClock(text, st.zone)
    case Ok(u) => Some(u)
    case _ => None
  }

  function EndOf(st: Settings, row: Row, start: int, service: Service): Option<int> {
    match row.end
    case Some(text) => Instant(st, text)
    case None => if service.minutes.Some? then Some(start + 60 * service.minutes.value) else None
  }

  function StatusOf(st: Settings, row: Row): Option<string> {
    match row.status
    case Omitted => Some(BOOKED)
    case NotText => None
    case Given(s) => if s in st.statuses then Some(s) else None
  }

  function EmployeeOf(st: Settings, row: Row): Option<nat> {
    match row.employeeEmail
    case None => st.owner
    case Some(email) =>
      if email in st.employees && st.employees[email].active then Some(st.employees[email].id) else None
  }

  /** None when the row has an error. Nothing here looks at the diary. */
  function Check(st: Settings, row: Row): Option<Ready> {
    var service, start := ServiceOf(st, row), Instant(st, row.start);
    if row.fieldErrors || service.None? || start.None? then None
    else
      var end := EndOf(st, row, start.value, service.value);
      var status, employee := StatusOf(st, row), EmployeeOf(st, row);
      if end.None? || end.value <= start.value || status.None? || employee.None? || row.person.None? then None
      else
        Some(Ready(service.value.id, start.value, end.value, status.value, employee.value, row.person.value))
  }

  // ----------------------------------------------------- recognising and linking

  /** Phone if the row has one, else email, else the exact name. */
  predicate SamePerson(p: Person, c: Customer) {
    if p.phone.Some? then c.who.phone == p.phone
    else if p.email.Some? then c.who.email == p.email
    else c.who.first == p.first && c.who.last == p.last
  }

  predicate Matches(d: Diary, a: Appointment, r: Ready) {
    && a.service == r.service && a.start == r.start
    && a.customer < |d.customers| && SamePerson(r.person, d.customers[a.customer])
  }

  function FindDuplicate(d: Diary, r: Ready, from: nat): (i: Option<nat>)
    requires from <= |d.appointments|
    ensures match i
      case Some(i) => from <= i < |d.appointments| && Matches(d, d.appointments[i], r)
      case None => forall j :: from <= j < |d.appointments| ==> !Matches(d, d.appointments[j], r)
    decreases |d.appointments| - from
  {
    if from == |d.appointments| then None
    else if Matches(d, d.appointments[from], r) then Some(from)
    else FindDuplicate(d, r, from + 1)
  }

  function WithPhone(cs: seq<Customer>, phone: string): (i: Option<nat>)
    ensures match i
      case Some(i) => i < |cs| && cs[i].who.phone == Some(phone)
        && forall j :: 0 <= j < i ==> cs[j].who.phone != Some(phone)
      case None => forall j :: 0 <= j < |cs| ==> cs[j].who.phone != Some(phone)
  {
    if cs == [] then None
    else
      var before := WithPhone(cs[..|cs| - 1], phone);
      if before.Some? then before
      else if cs[|cs| - 1].who.phone == Some(phone) then Some(|cs| - 1)
      else None
  }

  function WithEmail(cs: seq<Customer>, email: string): (i: Option<nat>)
    ensures match i
      case Some(i) => i < |cs| && cs[i].who.email == Some(email)
        && forall j :: 0 <= j < i ==> cs[j].who.email != Some(email)
      case None => forall j :: 0 <= j < |cs| ==> cs[j].who.email != Some(email)
  {
    if cs == [] then None
    else
      var before := WithEmail(cs[..|cs| - 1], email);
      if before.Some? then before
      else if cs[|cs| - 1].who.email == Some(email) then Some(|cs| - 1)
      else None
  }

  /** By phone, else by email, never by name; the oldest record wins. */
  function FindCustomer(cs: seq<Customer>, p: Person): (i: Option<nat>)
    ensures i.Some? ==> i.value < |cs|
  {
    var byPhone := if p.phone.Some? then WithPhone(cs, p.phone.value) else None;
    if byPhone.Some? then byPhone
    else if p.email.Some? then WithEmail(cs, p.email.value)
    else None
  }

  predicate Clashes(d: Diary, r: Ready) {
    exists i :: 0 <= i < |d.appointments| && d.appointments[i].employee == r.employee
      && d.appointments[i].status != CANCELLED
      && d.appointments[i].start < r.end && r.start < d.appointments[i].end
  }

  // ----------------------------------------------------------------- one row

  function Linked(cs: seq<Customer>, p: Person): (seq<Customer>, nat) {
    match FindCustomer(cs, p)
    case Some(i) => (cs[i := cs[i].(active := true)], i)
    case None => (cs + [Customer(p, true)], |cs|)
  }

  function Create(d: Diary, r: Ready): (Diary, nat) {
    var (cs, c) := Linked(d.customers, r.person);
    (Diary(cs, d.appointments + [Appointment(r.service, r.start, r.end, r.status, r.employee, c)]), c)
  }

  /** `madeFrom` is where this paste's own appointments begin. */
  function ImportRow(st: Settings, d: Diary, madeFrom: nat, row: Row): (Diary, Item) {
    match Check(st, row)
    case None => (d, Item(Invalid, row.otherWarnings))
    case Some(r) =>
      match FindDuplicate(d, r, 0)
      case Some(i) => (d, Item(Exists(i), row.otherWarnings || i >= madeFrom))
      case None =>
        var (d', c) := Create(d, r);
        (d', Item(Created(c), row.otherWarnings || (r.status != CANCELLED && Clashes(d, r))))
  }

  function ImportFrom(st: Settings, d: Diary, madeFrom: nat, rows: seq<Row>): (r: (Diary, seq<Item>))
    ensures |r.1| == |rows|
  {
    if rows == [] then (d, [])
    else
      var (before, items) := ImportFrom(st, d, madeFrom, rows[..|rows| - 1]);
      var (after, item) := ImportRow(st, before, madeFrom, rows[|rows| - 1]);
      (after, items + [item])
  }

  function Import(st: Settings, d: Diary, rows: seq<Row>): (r: (Diary, seq<Item>))
    ensures |r.1| == |rows|
  {
    ImportFrom(st, d, |d.appointments|, rows)
  }

  // ------------------------------------------------------- commit or roll back

  datatype Report = Report(items: seq<Item>, committed: bool, status: nat)

  predicate HasErrors(items: seq<Item>) {
    exists k :: 0 <= k < |items| && items[k].outcome == Invalid
  }

  predicate HasWarnings(items: seq<Item>) {
    exists k :: 0 <= k < |items| && items[k].warned
  }

  function RunImport(st: Settings, d: Diary, rows: seq<Row>, dryRun: bool, acknowledge: bool): (Diary, Report) {
    var (after, items) := Import(st, d, rows);
    var errors, warnings := HasErrors(items), HasWarnings(items) && !acknowledge;
    var commit := !dryRun && !errors && !warnings;
    (if commit then after else d,
     Report(items, commit, if dryRun then 200 else if errors then 422 else if warnings then 409 else 200))
  }

  // ------------------------------------------------------- growing the diary

  /** `e` has everything `d` has, under the same ids and keys. */
  ghost predicate Grows(d: Diary, e: Diary) {
    && |d.customers| <= |e.customers|
    && (forall i :: 0 <= i < |d.customers| ==> e.customers[i].who == d.customers[i].who)
    && d.appointments <= e.appointments
  }

  lemma StillMatches(d: Diary, e: Diary, i: nat, r: Ready)
    requires Grows(d, e) && i < |d.appointments| && Matches(d, d.appointments[i], r)
    ensures Matches(e, e.appointments[i], r)
  {
  }

  lemma StillFound(d: Diary, e: Diary, r: Ready)
    requires Grows(d, e) && FindDuplicate(d, r, 0).Some?
    ensures FindDuplicate(e, r, 0).Some?
  {
    StillMatches(d, e, FindDuplicate(d, r, 0).value, r);
  }

  lemma RowGrows(st: Settings, d: Diary, madeFrom: nat, row: Row)
    ensures Grows(d, ImportRow(st, d, madeFrom, row).0)
  {
  }

  lemma {:induction false} ImportGrows(st: Settings, d: Diary, madeFrom: nat, rows: seq<Row>)
    ensures Grows(d, ImportFrom(st, d, madeFrom, rows).0)
  {
    if rows != [] {
      ImportGrows(st, d, madeFrom, rows[..|rows| - 1]);
      RowGrows(st, ImportFrom(st, d, madeFrom, rows[..|rows| - 1]).0, madeFrom, rows[|rows| - 1]);
    }
  }

  // --------------------------------------------------- recognising a row again

  /** The row names a phone but would be linked, by email, to a customer who has
      another phone on file, or none. */
  predicate Mislinked(d: Diary, p: Person) {
    var c := FindCustomer(d.customers, p);
    p.phone.Some? && c.Some? && d.customers[c.value].who.phone != p.phone
  }

  /** The customer a created appointment gets is recognised as the row's own,
      except across such a link. */
  lemma LinkedIsSamePerson(d: Diary, r: Ready)
    ensures var (d', c) := Create(d, r);
      c < |d'.customers| && (SamePerson(r.person, d'.customers[c]) <==> !Mislinked(d, r.person))
  {
  }

  /** Pasting a row again right after it was created finds it exactly when the
      row was not linked by email to a customer without that phone. */
  lemma RowRecognisedExactlyWhen(d: Diary, r: Ready)
    requires FindDuplicate(d, r, 0).None?
    ensures FindDuplicate(Create(d, r).0, r, 0).Some? <==> !Mislinked(d, r.person)
  {
    var (d', c) := Create(d, r);
    LinkedIsSamePerson(d, r);
    var n := |d.appointments|;
    assert d'.appointments[n].customer == c;
    forall j | 0 <= j < n ensures Matches(d', d'.appointments[j], r) <==> OldMatch(d, d', j, r) {
    }
    if Mislinked(d, r.person) {
      forall j | 0 <= j < |d'.appointments| ensures !Matches(d', d'.appointments[j], r) {
        if j < n {
          assert !Matches(d, d.appointments[j], r);
          NewCustomersMatchNothing(d, r, j);
        }
      }
    } else {
      assert Matches(d', d'.appointments[n], r);
    }
  }

  predicate OldMatch(d: Diary, d': Diary, j: nat, r: Ready)
    requires j < |d.appointments| && |d.appointments| <= |d'.appointments|
  {
    Matches(d', d.appointments[j], r)
  }

  lemma NewCustomersMatchNothing(d: Diary, r: Ready, j: nat)
    requires j < |d.appointments| && Mislinked(d, r.person) && !Matches(d, d.appointments[j], r)
    ensures !Matches(Create(d, r).0, d.appointments[j], r)
  {
  }

  predicate Found(st: Settings, d: Diary, row: Row)
    requires Check(st, row).Some?
  {
    FindDuplicate(d, Check(st, row).value, 0).Some?
  }

  /** The diary when the k-th row's turn comes. */
  function Before(st: Settings, d: Diary, madeFrom: nat, rows: seq<Row>, k: nat): Diary
    requires k <= |rows|
  {
    ImportFrom(st, d, madeFrom, rows[..k]).0
  }

  lemma {:induction false} DiaryGrowsAfter(st: Settings, d: Diary, madeFrom: nat, rows: seq<Row>, k: nat)
    requires k <= |rows|
    ensures Grows(Before(st, d, madeFrom, rows, k), ImportFrom(st, d, madeFrom, rows).0)
  {
    if k == |rows| {
      assert rows[..k] == rows;
    } else {
      var n := |rows| - 1;
      DiaryGrowsAfter(st, d, madeFrom, rows[..n], k);
      assert rows[..n][..k] == rows[..k];
      RowGrows(st, ImportFrom(st, d, madeFrom, rows[..n]).0, madeFrom, rows[n]);
    }
  }

  /** The k-th row is valid and, not being found, makes an appointment. */
  predicate Creates(st: Settings, d: Diary, madeFrom: nat, rows: seq<Row>, k: nat)
    requires k < |rows|
  {
    Check(st, rows[k]).Some? && !Found(st, Before(st, d, madeFrom, rows, k), rows[k])
  }

  /** The phone on file of the customer the k-th row's appointment is for. */
  function BookedPhone(st: Settings, d: Diary, madeFrom: nat, rows: seq<Row>, k: nat): Option<string>
    requires k < |rows| && Creates(st, d, madeFrom, rows, k)
  {
    var (after, c) := Create(Before(st, d, madeFrom, rows, k), Check(st, rows[k]).value);
    after.customers[c].who.phone
  }

  /** A later row makes an appointment of the same service and start for a
      customer who does have row k's phone. */
  ghost predicate Rescued(st: Settings, d: Diary, madeFrom: nat, rows: seq<Row>, k: nat)
    requires k < |rows| && Check(st, rows[k]).Some?
  {
    exists j :: k < j < |rows| && Rescues(st, d, madeFrom, rows, j, Check(st, rows[k]).value)
  }

  predicate Rescues(st: Settings, d: Diary, madeFrom: nat, rows: seq<Row>, j: nat, r: Ready)
    requires j < |rows|
  {
    && Creates(st, d, madeFrom, rows, j)
    && Check(st, rows[j]).value.service == r.service && Check(st, rows[j]).value.start == r.start
    && BookedPhone(st, d, madeFrom, rows, j) == r.person.phone
  }

  /** Row k was there already, or was not linked across phones, or was rescued. */
  ghost predicate Recognisable(st: Settings, d: Diary, madeFrom: nat, rows: seq<Row>, k: nat)
    requires k < |rows| && Check(st, rows[k]).Some?
  {
    || !Creates(st, d, madeFrom, rows, k)
    || !Mislinked(Before(st, d, madeFrom, rows, k), Check(st, rows[k]).value.person)
    || Rescued(st, d, madeFrom, rows, k)
  }

  lemma BeforeNext(st: Settings, d: Diary, madeFrom: nat, rows: seq<Row>, k: nat)
    requires k < |rows|
    ensures Before(st, d, madeFrom, rows, k + 1)
         == ImportRow(st, Before(st, d, madeFrom, rows, k), madeFrom, rows[k]).0
  {
    assert rows[..k + 1][..k] == rows[..k];
  }

  lemma RescuerIsFound(st: Settings, d: Diary, madeFrom: nat, rows: seq<Row>, j: nat, r: Ready)
    requires j < |rows| && Rescues(st, d, madeFrom, rows, j, r) && r.person.phone.Some?
    ensures FindDuplicate(ImportFrom(st, d, madeFrom, rows).0, r, 0).Some?
  {
    var before := Before(st, d, madeFrom, rows, j);
    var (after, c) := Create(before, Check(st, rows[j]).value);
    BeforeNext(st, d, madeFrom, rows, j);
    assert Matches(after, after.appointments[|before.appointments|], r);
    DiaryGrowsAfter(st, d, madeFrom, rows, j + 1);
    StillFound(after, ImportFrom(st, d, madeFrom, rows).0, r);
  }

  lemma RecognisableIsFound(st: Settings, d: Diary, madeFrom: nat, rows: seq<Row>, k: nat)
    requires k < |rows| && Check(st, rows[k]).Some? && Recognisable(st, d, madeFrom, rows, k)
    ensures Found(st, ImportFrom(st, d, madeFrom, rows).0, rows[k])
  {
    var r, before := Check(st, rows[k]).value, Before(st, d, madeFrom, rows, k);
    if !Creates(st, d, madeFrom, rows, k) {
      DiaryGrowsAfter(st, d, madeFrom, rows, k);
      StillFound(before, ImportFrom(st, d, madeFrom, rows).0, r);
    } else if !Mislinked(before, r.person) {
      RowRecognisedExactlyWhen(before, r);
      BeforeNext(st, d, madeFrom, rows, k);
      DiaryGrowsAfter(st, d, madeFrom, rows, k + 1);
      StillFound(Create(before, r).0, ImportFrom(st, d, madeFrom, rows).0, r);
    } else {
      var j :| k < j < |rows| && Rescues(st, d, madeFrom, rows, j, r);
      RescuerIsFound(st, d, madeFrom, rows, j, r);
    }
  }

  /** Every appointment is for a customer on file. */
  ghost predicate Anchored(d: Diary) {
    forall i :: 0 <= i < |d.appointments| ==> d.appointments[i].customer < |d.customers|
  }

  lemma {:induction false} ImportAnchored(st: Settings, d: Diary, madeFrom: nat, rows: seq<Row>)
    requires Anchored(d)
    ensures Anchored(ImportFrom(st, d, madeFrom, rows).0)
  {
    if rows != [] {
      ImportAnchored(st, d, madeFrom, rows[..|rows| - 1]);
    }
  }

  /** An appointment the paste made was made by one of its rows. */
  lemma {:induction false} MadeByRow(st: Settings, d: Diary, madeFrom: nat, rows: seq<Row>, i: nat) returns (j: nat)
    requires |d.appointments| <= i < |ImportFrom(st, d, madeFrom, rows).0.appointments|
    ensures j < |rows| && Creates(st, d, madeFrom, rows, j) && i == |Before(st, d, madeFrom, rows, j).appointments|
    decreases |rows|
  {
    var n := |rows| - 1;
    var front := rows[..n];
    if i < |ImportFrom(st, d, madeFrom, front).0.appointments| {
      j := MadeByRow(st, d, madeFrom, front, i);
      assert front[..j] == rows[..j];
    } else {
      j := n;
    }
  }

  lemma MadeForCustomer(st: Settings, d: Diary, madeFrom: nat, rows: seq<Row>, j: nat)
    requires j < |rows| && Creates(st, d, madeFrom, rows, j)
    ensures var final, i := ImportFrom(st, d, madeFrom, rows).0, |Before(st, d, madeFrom, rows, j).appointments|;
      var ready := Check(st, rows[j]).value;
      && i < |final.appointments|
      && final.appointments[i].service == ready.service && final.appointments[i].start == ready.start
      && final.appointments[i].customer < |final.customers|
      && final.customers[final.appointments[i].customer].who.phone == BookedPhone(st, d, madeFrom, rows, j)
  {
    BeforeNext(st, d, madeFrom, rows, j);
    DiaryGrowsAfter(st, d, madeFrom, rows, j + 1);
  }

  /** What a match in a grown diary can be: an old match, or a new appointment. */
  lemma MatchIsOldOrNew(d: Diary, e: Diary, i: nat, r: Ready)
    requires Anchored(d) && Grows(d, e) && i < |d.appointments| && Matches(e, e.appointments[i], r)
    ensures Matches(d, d.appointments[i], r)
  {
  }

  lemma FoundIsRecognisable(st: Settings, d: Diary, madeFrom: nat, rows: seq<Row>, k: nat)
    requires Anchored(d) && k < |rows| && Check(st, rows[k]).Some?
    requires Found(st, ImportFrom(st, d, madeFrom, rows).0, rows[k])
    ensures Recognisable(st, d, madeFrom, rows, k)
  {
    var r, before := Check(st, rows[k]).value, Before(st, d, madeFrom, rows, k);
    var final := ImportFrom(st, d, madeFrom, rows).0;
    if Creates(st, d, madeFrom, rows, k) && Mislinked(before, r.person) {
      var i := FindDuplicate(final, r, 0).value;
      BeforeNext(st, d, madeFrom, rows, k);
      DiaryGrowsAfter(st, d, madeFrom, rows, k + 1);
      ImportAnchored(st, d, madeFrom, rows[..k + 1]);
      RowRecognisedExactlyWhen(before, r);
      if i < |before.appointments| + 1 {
        MatchIsOldOrNew(Create(before, r).0, final, i, r);
      }
      ImportGrows(st, d, madeFrom, rows[..k]);
      var j := MadeByRow(st, d, madeFrom, rows, i);
      MadeForCustomer(st, d, madeFrom, rows, j);
      if j <= k {
        EarlierIsShorter(st, d, madeFrom, rows, j, k);
      }
      assert Rescues(st, d, madeFrom, rows, j, r);
    }
  }

  lemma EarlierIsShorter(st: Settings, d: Diary, madeFrom: nat, rows: seq<Row>, j: nat, k: nat)
    requires j <= k <= |rows|
    ensures |Before(st, d, madeFrom, rows, j).appointments| <= |Before(st, d, madeFrom, rows, k).appointments|
  {
    DiaryGrowsAfter(st, d, madeFrom, rows[..k], j);
    assert rows[..k][..j] == rows[..j];
  }

  /** Importing rows that are all recognised changes nothing and says so. */
  lemma {:induction false} RecognisedRowsDoNothing(st: Settings, d: Diary, madeFrom: nat, rows: seq<Row>)
    requires forall row :: row in rows ==> Check(st, row).Some? && Found(st, d, row)
    ensures ImportFrom(st, d, madeFrom, rows).0 == d
    ensures forall item :: item in ImportFrom(st, d, madeFrom, rows).1 ==> item.outcome.Exists?
  {
    if rows != [] {
      RecognisedRowsDoNothing(st, d, madeFrom, rows[..|rows| - 1]);
      assert Check(st, rows[|rows| - 1]).Some?;
    }
  }

  ghost predicate MakesSomething(st: Settings, d: Diary, madeFrom: nat, rows: seq<Row>) {
    var (after, items) := ImportFrom(st, d, madeFrom, rows);
    && |after.appointments| > |d.appointments|
    && exists n :: 0 <= n < |items| && items[n].outcome.Created?
  }

  lemma UnknownRowIsCreated(st: Settings, d: Diary, madeFrom: nat, row: Row)
    requires Check(st, row).Some? && !Found(st, d, row)
    ensures var (after, item) := ImportRow(st, d, madeFrom, row);
      |after.appointments| == |d.appointments| + 1 && item.outcome.Created?
  {
  }

  lemma LastMakesSomething(st: Settings, d: Diary, madeFrom: nat, rows: seq<Row>)
    requires rows != [] && ImportFrom(st, d, madeFrom, rows[..|rows| - 1]).0 == d
    requires Check(st, rows[|rows| - 1]).Some? && !Found(st, d, rows[|rows| - 1])
    ensures MakesSomething(st, d, madeFrom, rows)
  {
    UnknownRowIsCreated(st, d, madeFrom, rows[|rows| - 1]);
    assert ImportFrom(st, d, madeFrom, rows).1[|rows| - 1].outcome.Created?;
  }

  lemma StillMakesSomething(st: Settings, d: Diary, madeFrom: nat, rows: seq<Row>)
    requires rows != [] && MakesSomething(st, d, madeFrom, rows[..|rows| - 1])
    ensures MakesSomething(st, d, madeFrom, rows)
  {
    var (before, items) := ImportFrom(st, d, madeFrom, rows[..|rows| - 1]);
    RowGrows(st, before, madeFrom, rows[|rows| - 1]);
    var n :| 0 <= n < |items| && items[n].outcome.Created?;
    assert ImportFrom(st, d, madeFrom, rows).1[n] == items[n];
  }

  ghost predicate AllValid(st: Settings, rows: seq<Row>) {
    forall row :: row in rows ==> Check(st, row).Some?
  }

  /** A paste with a row that is not recognised makes something. */
  lemma {:induction false} UnknownRowMakesSomething(st: Settings, d: Diary, madeFrom: nat, rows: seq<Row>, k: nat)
    requires AllValid(st, rows)
    requires k < |rows| && !Found(st, d, rows[k])
    ensures MakesSomething(st, d, madeFrom, rows)
    decreases |rows|
  {
    var front := rows[..|rows| - 1];
    if m :| 0 <= m < |front| && !Found(st, d, front[m]) {
      UnknownRowMakesSomething(st, d, madeFrom, front, m);
      StillMakesSomething(st, d, madeFrom, rows);
    } else {
      RecognisedRowsDoNothing(st, d, madeFrom, front);
      LastMakesSomething(st, d, madeFrom, rows);
    }
  }

  lemma ItemsOfFront(st: Settings, d: Diary, madeFrom: nat, rows: seq<Row>)
    requires rows != []
    ensures ImportFrom(st, d, madeFrom, rows).1 == ImportFrom(st, d, madeFrom, rows[..|rows| - 1]).1
      + [ImportRow(st, ImportFrom(st, d, madeFrom, rows[..|rows| - 1]).0, madeFrom, rows[|rows| - 1]).1]
  {
  }

  lemma FrontHasNoErrors(front: seq<Item>, last: Item)
    requires !HasErrors(front + [last])
    ensures !HasErrors(front) && last.outcome != Invalid
  {
    assert (front + [last])[|front|] == last;
    forall k | 0 <= k < |front| ensures front[k].outcome != Invalid {
      assert (front + [last])[k] == front[k];
    }
  }

  lemma RowValidWhenNotInvalid(st: Settings, d: Diary, madeFrom: nat, row: Row)
    requires ImportRow(st, d, madeFrom, row).1.outcome != Invalid
    ensures Check(st, row).Some?
  {
  }

  lemma AllValidAndOne(st: Settings, rows: seq<Row>)
    requires rows != [] && AllValid(st, rows[..|rows| - 1]) && Check(st, rows[|rows| - 1]).Some?
    ensures AllValid(st, rows)
  {
    assert rows == rows[..|rows| - 1] + [rows[|rows| - 1]];
  }

  lemma {:induction false} NoErrorsAllValid(st: Settings, d: Diary, madeFrom: nat, rows: seq<Row>)
    requires !HasErrors(ImportFrom(st, d, madeFrom, rows).1)
    ensures AllValid(st, rows)
  {
    if rows != [] {
      var front, last := rows[..|rows| - 1], rows[|rows| - 1];
      var (before, items) := ImportFrom(st, d, madeFrom, front);
      ItemsOfFront(st, d, madeFrom, rows);
      FrontHasNoErrors(items, ImportRow(st, before, madeFrom, last).1);
      NoErrorsAllValid(st, d, madeFrom, front);
      RowValidWhenNotInvalid(st, before, madeFrom, last);
      AllValidAndOne(st, rows);
    }
  }

  // ---------------------------------------------------------- main theorems

  /** Each row was there before, or was not linked by email across phones, or was
      rescued by a later row. */
  ghost predicate AllRecognisable(st: Settings, d: Diary, rows: seq<Row>)
    requires AllValid(st, rows)
  {
    forall k :: 0 <= k < |rows| ==> Recognisable(st, d, |d.appointments|, rows, k)
  }

  ghost predicate AllExist(items: seq<Item>) {
    forall item :: item in items ==> item.outcome.Exists?
  }

  lemma RecognisablePasteIsNoOp(st: Settings, d: Diary, rows: seq<Row>)
    requires AllValid(st, rows) && AllRecognisable(st, d, rows)
    ensures var d' := Import(st, d, rows).0;
      Import(st, d', rows).0 == d' && AllExist(Import(st, d', rows).1)
  {
    var d' := Import(st, d, rows).0;
    forall k | 0 <= k < |rows| ensures Found(st, d', rows[k]) {
      RecognisableIsFound(st, d, |d.appointments|, rows, k);
    }
    RecognisedRowsDoNothing(st, d', |d'.appointments|, rows);
  }

  lemma UnrecognisablePasteMakesMore(st: Settings, d: Diary, rows: seq<Row>)
    requires Anchored(d) && AllValid(st, rows) && !AllRecognisable(st, d, rows)
    ensures var d' := Import(st, d, rows).0;
      Import(st, d', rows).0 != d' && !AllExist(Import(st, d', rows).1)
  {
    var d' := Import(st, d, rows).0;
    var k :| 0 <= k < |rows| && !Recognisable(st, d, |d.appointments|, rows, k);
    if Found(st, d', rows[k]) {
      FoundIsRecognisable(st, d, |d.appointments|, rows, k);
      assert false;
    }
    UnknownRowMakesSomething(st, d', |d'.appointments|, rows, k);
    var items := Import(st, d', rows).1;
    var n :| 0 <= n < |items| && items[n].outcome.Created?;
    assert items[n] in items;
  }

  /** A committed diary imported again makes nothing, every row being reported
      as already there, exactly when all its rows can be recognised. */
  lemma ReimportIsNoOpExactlyWhen(st: Settings, d: Diary, rows: seq<Row>, acknowledge: bool)
    requires Anchored(d) && RunImport(st, d, rows, false, acknowledge).1.committed
    ensures AllValid(st, rows)
    ensures var d' := RunImport(st, d, rows, false, acknowledge).0; var (d'', items) := Import(st, d', rows);
      && (d'' == d' <==> AllRecognisable(st, d, rows))
      && (AllExist(items) <==> AllRecognisable(st, d, rows))
  {
    NoErrorsAllValid(st, d, |d.appointments|, rows);
    if AllRecognisable(st, d, rows) {
      RecognisablePasteIsNoOp(st, d, rows);
    } else {
      UnrecognisablePasteMakesMore(st, d, rows);
    }
  }

  lemma ImportOne(st: Settings, d: Diary, madeFrom: nat, row: Row)
    ensures var (d', item) := ImportRow(st, d, madeFrom, row);
      ImportFrom(st, d, madeFrom, [row]) == (d', [item])
  {
    var rows := [row];
    assert rows[..|rows| - 1] == [];
    assert ImportFrom(st, d, madeFrom, rows[..|rows| - 1]) == (d, []);
    assert [] + [ImportRow(st, d, madeFrom, row).1] == [ImportRow(st, d, madeFrom, row).1];
  }

  /** The exception is real: one such row, imported twice, is booked twice. */
  lemma MislinkedRowIsBookedTwice(st: Settings, d: Diary, row: Row)
    requires Check(st, row).Some? && FindDuplicate(d, Check(st, row).value, 0).None?
    requires Mislinked(d, Check(st, row).value.person)
    ensures var d' := Import(st, d, [row]).0; var d'' := Import(st, d', [row]).0;
      |d'.appointments| == |d.appointments| + 1 && |d''.appointments| == |d'.appointments| + 1
  {
    RowRecognisedExactlyWhen(d, Check(st, row).value);
    ImportOne(st, d, |d.appointments|, row);
    var d' := Import(st, d, [row]).0;
    ImportOne(st, d', |d'.appointments|, row);
  }

  /** Whoever is the same person as `p` is the same person as `q`. */
  predicate SameKey(p: Person, q: Person) {
    if p.phone.Some? then q.phone == p.phone
    else q.phone.None? && q.email == p.email && (p.email.None? ==> q.first == p.first && q.last == p.last)
  }

  /** Two rows the search cannot tell apart. */
  predicate SameBooking(a: Ready, b: Ready) {
    a.service == b.service && a.start == b.start && SameKey(a.person, b.person)
  }

  lemma SameBookingSameSearch(d: Diary, a: Ready, b: Ready)
    requires SameBooking(a, b) && FindDuplicate(d, a, 0).Some?
    ensures FindDuplicate(d, b, 0).Some?
  {
    assert Matches(d, d.appointments[FindDuplicate(d, a, 0).value], b);
  }

  /** Within one paste a later row for a booking that can be recognised is caught
      as well, whatever the other rows are. */
  lemma LaterDuplicateIsCaught(st: Settings, d: Diary, rows: seq<Row>, later: Row, k: nat)
    requires k < |rows| && Check(st, rows[k]).Some? && Check(st, later).Some?
    requires SameBooking(Check(st, rows[k]).value, Check(st, later).value)
    requires Recognisable(st, d, |d.appointments|, rows, k)
    ensures var (d', items) := Import(st, d, rows + [later]);
      items[|rows|].outcome.Exists? && d' == Import(st, d, rows).0
  {
    RecognisableIsFound(st, d, |d.appointments|, rows, k);
    SameBookingSameSearch(Import(st, d, rows).0, Check(st, rows[k]).value, Check(st, later).value);
    assert (rows + [later])[..|rows|] == rows;
  }

  /** A row makes a customer exactly when nobody has its phone or its email, so
      an import never adds a second record for a phone or email it knows. */
  lemma NewCustomerExactlyWhen(d: Diary, r: Ready)
    ensures |Create(d, r).0.customers| > |d.customers|
      <==> forall c :: c in d.customers
             ==> !(r.person.phone.Some? && c.who.phone == r.person.phone)
                 && !(r.person.email.Some? && c.who.email == r.person.email)
  {
    if FindCustomer(d.customers, r.person).Some? {
      assert d.customers[FindCustomer(d.customers, r.person).value] in d.customers;
    }
  }

  /** What a row says: its active service, its times as the clock on the wall, and
      what stands for a column left out. */
  ghost predicate ReadAs(st: Settings, row: Row, r: Ready) {
    && !row.fieldErrors && row.person == Some(r.person) && r.start < r.end
    && row.service.Some? && row.service.value in st.services
    && var service := st.services[row.service.value];
    && service.active && r.service == service.id
    && W.ParseWallClock(row.start, st.zone) == W.Ok(r.start)
    && (if row.end.Some? then W.ParseWallClock(row.end.value, st.zone) == W.Ok(r.end)
        else service.minutes.Some? && r.end == r.start + 60 * service.minutes.value)
    && (if row.status.Omitted? then r.status == BOOKED else row.status == Given(r.status) && r.status in st.statuses)
    && (if row.employeeEmail.None? then st.owner == Some(r.employee)
        else
          && row.employeeEmail.value in st.employees
          && st.employees[row.employeeEmail.value] == Employee(r.employee, true))
  }

  lemma ReadExactlyWhen(st: Settings, row: Row)
    ensures forall r :: ReadAs(st, row, r) <==> Check(st, row) == Some(r)
  {
  }

  /** The booking is in the diary: the same service and start, for the customer
      with the row's phone, or else email, or else name. */
  ghost predicate InDiary(d: Diary, i: nat, r: Ready) {
    && i < |d.appointments| && d.appointments[i].service == r.service && d.appointments[i].start == r.start
    && d.appointments[i].customer < |d.customers|
    && var who := d.customers[d.appointments[i].customer].who;
    if r.person.phone.Some? then who.phone == r.person.phone
    else if r.person.email.Some? then who.email == r.person.email
    else who.first == r.person.first && who.last == r.person.last
  }

  /** The row's own appointment is the last, and nothing else changed but the
      customer it is for, who is active now. */
  ghost predicate Added(d: Diary, r: Ready, c: nat, d': Diary) {
    && d'.appointments == d.appointments + [Appointment(r.service, r.start, r.end, r.status, r.employee, c)]
    && c < |d'.customers| && d'.customers[c].active && |d.customers| <= |d'.customers|
    && forall i :: 0 <= i < |d.customers| ==>
         d'.customers[i] == if i == c then d.customers[i].(active := true) else d.customers[i]
  }

  /** The employee is taken, unless the row is a cancelled one. */
  ghost predicate Overlaps(d: Diary, r: Ready) {
    && r.status != CANCELLED
    && exists i :: 0 <= i < |d.appointments|
         && d.appointments[i].employee == r.employee && d.appointments[i].status != CANCELLED
         && d.appointments[i].start < r.end && r.start < d.appointments[i].end
  }

  ghost predicate AddedAsRead(st: Settings, d: Diary, row: Row, r: Ready, item: Item, d': Diary) {
    && ReadAs(st, row, r) && (forall i :: !InDiary(d, i, r))
    && item.outcome.Created? && Added(d, r, item.outcome.customer, d')
    && item.warned == (row.otherWarnings || Overlaps(d, r))
  }

  /** Each row ends in one of three ways: refused when it does not read, left alone
      when its booking is there, and otherwise added as it reads, with a warning
      when the employee is taken. */
  lemma RowIsImportedAsWritten(st: Settings, d: Diary, madeFrom: nat, row: Row)
    ensures var (d', item) := ImportRow(st, d, madeFrom, row);
      && (item.outcome.Invalid? ==> d' == d && item.warned == row.otherWarnings && forall r :: !ReadAs(st, row, r))
      && (item.outcome.Exists? ==> d' == d && exists r :: ReadAs(st, row, r) && InDiary(d, item.outcome.appointment, r))
      && (item.outcome.Created? ==> exists r :: AddedAsRead(st, d, row, r, item, d'))
  {
    ReadExactlyWhen(st, row);
    if Check(st, row).Some? {
      var r := Check(st, row).value;
      assert ReadAs(st, row, r);
      forall i: nat ensures InDiary(d, i, r) <==> i < |d.appointments| && Matches(d, d.appointments[i], r) {
      }
      if FindDuplicate(d, r, 0).None? {
        assert AddedAsRead(st, d, row, r, ImportRow(st, d, madeFrom, row).1, Create(d, r).0);
      }
    }
  }

  /** A paste is kept whole or not at all: a bad row refuses it, and a warning asks
      to be acknowledged first. */
  lemma PasteIsAllOrNothing(st: Settings, d: Diary, rows: seq<Row>, acknowledge: bool)
    ensures var (after, report) := RunImport(st, d, rows, false, acknowledge); var (all, items) := Import(st, d, rows);
      && report.items == items
      && if exists k :: 0 <= k < |items| && items[k].outcome.Invalid? then report.status == 422 && after == d
         else if !acknowledge && exists k :: 0 <= k < |items| && items[k].warned then report.status == 409 && after == d
         else report.status == 200 && after == all
  {
  }

  /** A preview writes nothing, and reports row for row what the commit would. */
  lemma PreviewTellsTheTruth(st: Settings, d: Diary, rows: seq<Row>, a: bool, b: bool)
    ensures var (previewed, preview) := RunImport(st, d, rows, true, a);
      var (after, report) := RunImport(st, d, rows, false, b);
      && previewed == d && preview.items == report.items && preview.status == 200
      && (report.status == 200 <==> report.committed)
      && (!report.committed ==> after == d)
      && (report.committed <==> !HasErrors(preview.items) && (HasWarnings(preview.items) ==> b))
  {
  }

  // ---------------------------------------------------------------- the import

  /** The directory finds whom a search of the whole table would. */
  ghost predicate PhoneIndex(cs: seq<Customer>, byPhone: map<string, nat>) {
    forall p :: WithPhone(cs, p) == if p in byPhone then Some(byPhone[p]) else None
  }

  ghost predicate EmailIndex(cs: seq<Customer>, byEmail: map<string, nat>) {
    forall e :: WithEmail(cs, e) == if e in byEmail then Some(byEmail[e]) else None
  }

  function OrNew(known: Option<nat>, matches: bool, i: nat): Option<nat> {
    if known.Some? || !matches then known else Some(i)
  }

  lemma WithAppended(cs: seq<Customer>, c: Customer)
    ensures forall p :: WithPhone(cs + [c], p) == OrNew(WithPhone(cs, p), c.who.phone == Some(p), |cs|)
    ensures forall e :: WithEmail(cs + [c], e) == OrNew(WithEmail(cs, e), c.who.email == Some(e), |cs|)
  {
    assert (cs + [c])[..|cs|] == cs;
  }

  lemma SamePhones(a: seq<Customer>, b: seq<Customer>, p: string)
    requires |a| == |b| && forall i :: 0 <= i < |a| ==> a[i].who == b[i].who
    ensures WithPhone(a, p) == WithPhone(b, p)
  {
  }

  lemma SameEmails(a: seq<Customer>, b: seq<Customer>, e: string)
    requires |a| == |b| && forall i :: 0 <= i < |a| ==> a[i].who == b[i].who
    ensures WithEmail(a, e) == WithEmail(b, e)
  {
  }

  /** One import's directory and the tables it writes. */
  class Importer {
    const settings: Settings
    var customers: seq<Customer>
    var appointments: seq<Appointment>
    var byPhone: map<string, nat>
    var byEmail: map<string, nat>

    ghost function Current(): Diary
      reads this
    {
      Diary(customers, appointments)
    }

    ghost predicate Valid()
      reads this
    {
      PhoneIndex(customers, byPhone) && EmailIndex(customers, byEmail)
    }

    constructor (settings: Settings, customers: seq<Customer>, appointments: seq<Appointment>)
      ensures Valid() && Current() == Diary(customers, appointments) && this.settings == settings
    {
      this.settings := settings;
      this.appointments := appointments;
      this.customers := [];
      byPhone, byEmail := map[], map[];
      new;
      for i := 0 to |customers|
        invariant Valid() && this.customers == customers[..i]
        invariant this.appointments == appointments && this.settings == settings
      {
        Remember(customers[i]);
        assert customers[..i + 1] == customers[..i] + [customers[i]];
      }
      assert customers[..|customers|] == customers;
    }

    /** Adds a customer; an earlier record keeps its phone and email. */
    method Remember(c: Customer)
      requires Valid()
      modifies this`customers, this`byPhone, this`byEmail
      ensures Valid() && customers == old(customers) + [c]
    {
      var i := |customers|;
      WithAppended(customers, c);
      customers := customers + [c];
      if c.who.phone.Some? && c.who.phone.value !in byPhone {
        byPhone := byPhone[c.who.phone.value := i];
      }
      if c.who.email.Some? && c.who.email.value !in byEmail {
        byEmail := byEmail[c.who.email.value := i];
      }
    }

    method LookUpCustomer(p: Person) returns (i: Option<nat>)
      requires Valid()
      ensures i == FindCustomer(customers, p)
    {
      if p.phone.Some? && p.phone.value in byPhone {
        return Some(byPhone[p.phone.value]);
      }
      if p.email.Some? && p.email.value in byEmail {
        return Some(byEmail[p.email.value]);
      }
      i := None;
    }

    method LookUpDuplicate(r: Ready) returns (i: Option<nat>)
      ensures i == FindDuplicate(Current(), r, 0)
    {
      for n := 0 to |appointments|
        invariant FindDuplicate(Current(), r, 0) == FindDuplicate(Current(), r, n)
      {
        if Matches(Diary(customers, appointments), appointments[n], r) {
          return Some(n);
        }
      }
      i := None;
    }

    method CreateRow(r: Ready) returns (c: nat)
      requires Valid()
      modifies this`customers, this`appointments, this`byPhone, this`byEmail
      ensures Valid() && (Current(), c) == Create(old(Current()), r)
    {
      var found := LookUpCustomer(r.person);
      if found.None? {
        c := |customers|;
        Remember(Customer(r.person, true));
      } else {
        c := found.value;
        ghost var before := customers;
        customers := customers[c := customers[c].(active := true)];
        forall p ensures WithPhone(customers, p) == WithPhone(before, p) {
          SamePhones(customers, before, p);
        }
        forall e ensures WithEmail(customers, e) == WithEmail(before, e) {
          SameEmails(customers, before, e);
        }
      }
      appointments := appointments + [Appointment(r.service, r.start, r.end, r.status, r.employee, c)];
    }

    method TakeRow(row: Row, madeFrom: nat) returns (item: Item)
      requires Valid()
      modifies this`customers, this`appointments, this`byPhone, this`byEmail
      ensures Valid() && (Current(), item) == ImportRow(settings, old(Current()), madeFrom, row)
    {
      var ready := Check(settings, row);
      if ready.None? {
        return Item(Invalid, row.otherWarnings);
      }
      var duplicate := LookUpDuplicate(ready.value);
      if duplicate.Some? {
        return Item(Exists(duplicate.value), row.otherWarnings || duplicate.value >= madeFrom);
      }
      var warned := row.otherWarnings
        || (ready.value.status != CANCELLED && Clashes(Diary(customers, appointments), ready.value));
      var c := CreateRow(ready.value);
      item := Item(Created(c), warned);
    }

    method TakeRows(rows: seq<Row>) returns (items: seq<Item>)
      requires Valid()
      modifies this`customers, this`appointments, this`byPhone, this`byEmail
      ensures Valid() && (Current(), items) == Import(settings, old(Current()), rows)
    {
      var madeFrom := |appointments|;
      items := [];
      for k := 0 to |rows|
        invariant Valid()
        invariant (Current(), items) == ImportFrom(settings, old(Current()), madeFrom, rows[..k])
      {
        assert rows[..k + 1][..k] == rows[..k];
        var item := TakeRow(rows[k], madeFrom);
        items := items + [item];
      }
      assert rows[..|rows|] == rows;
    }

    /** Runs the import, then keeps it or puts everything back. */
    method Paste(rows: seq<Row>, dryRun: bool, acknowledge: bool) returns (report: Report)
      requires Valid()
      modifies this
      ensures Valid()
      ensures (Current(), report) == RunImport(settings, old(Current()), rows, dryRun, acknowledge)
    {
      var customers0, appointments0, byPhone0, byEmail0 := customers, appointments, byPhone, byEmail;
      var items := TakeRows(rows);
      var errors, warnings := HasErrors(items), HasWarnings(items) && !acknowledge;
      var commit := !dryRun && !errors && !warnings;
      if !commit {
        customers, appointments, byPhone, byEmail := customers0, appointments0, byPhone0, byEmail0;
      }
      report := Report(items, commit, if dryRun then 200 else if errors then 422 else if warnings then 409 else 200);
    }
  }
}
