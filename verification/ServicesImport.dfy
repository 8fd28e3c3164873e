/** Pasting a list of services: names already known are left alone, new ones are
    added after what is there, in the order they were written. A name here is
    its trimmed and case-folded form. */
module ServicesImport {
  import opened Wrappers

  // -------------------------------------------------------------------- data

  datatype Group = Group(name: string, order: int)

  datatype Service = Service(name: string, group: Option<nat>, order: int, details: string)

  datatype Catalogue = Catalogue(groups: seq<Group>, services: seq<Service>)

  datatype Spec = Spec(name: string, group: Option<string>, details: string)

  /** `Bad` rows have a field error of their own. */
  datatype Row = Bad | Good(spec: Spec)

  datatype Item = Invalid | Exists(service: nat) | Repeats(row: nat) | Creates

  // ------------------------------------------------------------- finding names

  function NamedService(ss: seq<Service>, name: string): (r: Option<nat>)
    ensures match r
      case Some(i) => i < |ss| && ss[i].name == name
      case None => forall j :: 0 <= j < |ss| ==> ss[j].name != name
  {
    if ss == [] then None
    else if ss[|ss| - 1].name == name then Some(|ss| - 1)
    else NamedService(ss[..|ss| - 1], name)
  }

  function NamedGroup(gs: seq<Group>, name: string): (r: Option<nat>)
    ensures match r
      case Some(i) => i < |gs| && gs[i].name == name
      case None => forall j :: 0 <= j < |gs| ==> gs[j].name != name
  {
    if gs == [] then None
    else if gs[|gs| - 1].name == name then Some(|gs| - 1)
    else NamedGroup(gs[..|gs| - 1], name)
  }

  function FirstRow(rows: seq<Row>, items: seq<Item>, name: string): (r: Option<nat>)
    requires |rows| == |items|
    ensures match r
      case Some(i) => i < |rows| && items[i].Creates? && rows[i].Good? && rows[i].spec.name == name
      case None => forall j :: 0 <= j < |rows| && items[j].Creates? && rows[j].Good? ==> rows[j].spec.name != name
  {
    if rows == [] then None
    else
      var n := |rows| - 1;
      if items[n].Creates? && rows[n].Good? && rows[n].spec.name == name then Some(n)
      else FirstRow(rows[..n], items[..n], name)
  }

  // ------------------------------------------------------------------ planning

  function Judge(c: Catalogue, rows: seq<Row>, items: seq<Item>, row: Row): Item
    requires |rows| == |items|
  {
    if row.Bad? then Invalid
    else
      match NamedService(c.services, row.spec.name)
      case Some(i) => Exists(i)
      case None =>
        match FirstRow(rows, items, row.spec.name)
        case Some(i) => Repeats(i)
        case None => Creates
  }

  function Items(c: Catalogue, rows: seq<Row>): (items: seq<Item>)
    ensures |items| == |rows|
  {
    if rows == [] then []
    else
      var before := Items(c, rows[..|rows| - 1]);
      before + [Judge(c, rows[..|rows| - 1], before, rows[|rows| - 1])]
  }

  /** The specs to create, in payload order. */
  function ToCreate(rows: seq<Row>, items: seq<Item>): seq<Spec>
    requires |rows| == |items|
  {
    if rows == [] then []
    else
      var n := |rows| - 1;
      ToCreate(rows[..n], items[..n]) + if items[n].Creates? && rows[n].Good? then [rows[n].spec] else []
  }

  // ------------------------------------------------------------------ creating

  /** The highest order in use, if any. */
  function TopGroup(gs: seq<Group>): (r: Option<int>)
    ensures match r
      case Some(top) => forall i :: 0 <= i < |gs| ==> gs[i].order <= top
      case None => gs == []
  {
    if gs == [] then None
    else
      var g := gs[|gs| - 1];
      match TopGroup(gs[..|gs| - 1])
      case Some(top) => Some(if top < g.order then g.order else top)
      case None => Some(g.order)
  }

  function Top(ss: seq<Service>, group: Option<nat>): (r: Option<int>)
    ensures match r
      case Some(top) => forall i :: 0 <= i < |ss| && ss[i].group == group ==> ss[i].order <= top
      case None => forall i :: 0 <= i < |ss| ==> ss[i].group != group
  {
    if ss == [] then None
    else
      var s := ss[|ss| - 1];
      var before := Top(ss[..|ss| - 1], group);
      if s.group != group then before
      else if before.Some? && s.order <= before.value then before
      else Some(s.order)
  }

  function After(top: Option<int>, start: int): int {
    if top.Some? then top.value + 1 else start
  }

  function AddGroup(gs: seq<Group>, name: Option<string>): seq<Group> {
    if name.None? || NamedGroup(gs, name.value).Some? then gs
    else gs + [Group(name.value, After(TopGroup(gs), 0))]
  }

  function AddGroups(gs: seq<Group>, specs: seq<Spec>): seq<Group> {
    if specs == [] then gs else AddGroup(AddGroups(gs, specs[..|specs| - 1]), specs[|specs| - 1].group)
  }

  function GroupOf(gs: seq<Group>, spec: Spec): Option<nat> {
    if spec.group.Some? then NamedGroup(gs, spec.group.value) else None
  }

  function AddService(gs: seq<Group>, ss: seq<Service>, spec: Spec): seq<Service> {
    var group := GroupOf(gs, spec);
    ss + [Service(spec.name, group, After(Top(ss, group), 0), spec.details)]
  }

  function AddServices(gs: seq<Group>, ss: seq<Service>, specs: seq<Spec>): seq<Service> {
    if specs == [] then ss
    else AddService(gs, AddServices(gs, ss, specs[..|specs| - 1]), specs[|specs| - 1])
  }

  function Import(c: Catalogue, rows: seq<Row>): (Catalogue, seq<Item>) {
    var items := Items(c, rows);
    var specs := ToCreate(rows, items);
    var groups := AddGroups(c.groups, specs);
    (Catalogue(groups, AddServices(groups, c.services, specs)), items)
  }

  predicate HasErrors(items: seq<Item>) {
    exists i :: 0 <= i < |items| && (items[i].Invalid? || items[i].Repeats?)
  }

  // ------------------------------------------------------------------- names

  ghost predicate UniqueServices(ss: seq<Service>) {
    forall i, j :: 0 <= i < j < |ss| ==> ss[i].name != ss[j].name
  }

  ghost predicate UniqueGroups(gs: seq<Group>) {
    forall i, j :: 0 <= i < j < |gs| ==> gs[i].name != gs[j].name
  }

  ghost predicate AllNew(ss: seq<Service>, specs: seq<Spec>) {
    && (forall i, j :: 0 <= i < j < |specs| ==> specs[i].name != specs[j].name)
    && (forall i, j :: 0 <= i < |ss| && 0 <= j < |specs| ==> ss[i].name != specs[j].name)
  }

  ghost predicate Plans(specs: seq<Spec>, name: string) {
    exists k :: 0 <= k < |specs| && specs[k].name == name
  }

  lemma PlansOneMore(specs: seq<Spec>, spec: Spec, name: string)
    ensures Plans(specs + [spec], name) <==> Plans(specs, name) || spec.name == name
  {
    var more := specs + [spec];
    assert more[|specs|] == spec;
    if k :| 0 <= k < |specs| && specs[k].name == name {
      assert more[k].name == name;
    }
  }

  lemma {:induction false} PlannedFrom(rows: seq<Row>, items: seq<Item>, name: string)
    requires |rows| == |items|
    ensures Plans(ToCreate(rows, items), name) <==> FirstRow(rows, items, name).Some?
  {
    if rows != [] {
      var n := |rows| - 1;
      PlannedFrom(rows[..n], items[..n], name);
      if items[n].Creates? && rows[n].Good? {
        PlansOneMore(ToCreate(rows[..n], items[..n]), rows[n].spec, name);
      } else {
        assert ToCreate(rows, items) == ToCreate(rows[..n], items[..n]);
      }
    }
  }

  lemma {:induction false} PlanIsNew(c: Catalogue, rows: seq<Row>)
    ensures AllNew(c.services, ToCreate(rows, Items(c, rows)))
  {
    if rows != [] {
      var n := |rows| - 1;
      var items := Items(c, rows[..n]);
      PlanIsNew(c, rows[..n]);
      assert Items(c, rows)[..n] == items;
      if Items(c, rows)[n].Creates? {
        var before := ToCreate(rows[..n], items);
        PlannedFrom(rows[..n], items, rows[n].spec.name);
        assert ToCreate(rows, Items(c, rows)) == before + [rows[n].spec];
        forall k | 0 <= k < |before| ensures before[k].name != rows[n].spec.name {
          assert !Plans(before, rows[n].spec.name);
        }
      }
    }
  }

  /** What creating the specs adds: one service each, in order. */
  lemma {:induction false} ServicesAdded(gs: seq<Group>, ss: seq<Service>, specs: seq<Spec>)
    ensures var ss' := AddServices(gs, ss, specs);
      ss <= ss' && |ss'| == |ss| + |specs| && forall k :: 0 <= k < |specs| ==> Made(gs, ss'[|ss| + k], specs[k])
  {
    if specs != [] {
      ServicesAdded(gs, ss, specs[..|specs| - 1]);
    }
  }

  ghost predicate Made(gs: seq<Group>, s: Service, spec: Spec) {
    s.name == spec.name && s.group == GroupOf(gs, spec) && s.details == spec.details
  }

  lemma ServicesStayUnique(gs: seq<Group>, ss: seq<Service>, specs: seq<Spec>)
    requires UniqueServices(ss) && AllNew(ss, specs)
    ensures UniqueServices(AddServices(gs, ss, specs))
  {
    var ss' := AddServices(gs, ss, specs);
    ServicesAdded(gs, ss, specs);
    forall i, j | 0 <= i < j < |ss'| ensures ss'[i].name != ss'[j].name {
      if |ss| <= j {
        assert Made(gs, ss'[|ss| + (j - |ss|)], specs[j - |ss|]);
        if |ss| <= i {
          assert Made(gs, ss'[|ss| + (i - |ss|)], specs[i - |ss|]);
        }
      }
    }
  }

  lemma GroupAdded(gs: seq<Group>, name: Option<string>)
    requires UniqueGroups(gs)
    ensures UniqueGroups(AddGroup(gs, name)) && gs <= AddGroup(gs, name)
    ensures name.Some? ==> NamedGroup(AddGroup(gs, name), name.value).Some?
  {
  }

  lemma StillNamed(gs: seq<Group>, gs': seq<Group>, name: string)
    requires gs <= gs' && NamedGroup(gs, name).Some?
    ensures NamedGroup(gs', name).Some?
  {
    assert gs'[NamedGroup(gs, name).value].name == name;
  }

  ghost predicate HasGroup(gs: seq<Group>, spec: Spec) {
    spec.group.Some? ==> NamedGroup(gs, spec.group.value).Some?
  }

  lemma {:induction false} GroupsStayUnique(gs: seq<Group>, specs: seq<Spec>)
    requires UniqueGroups(gs)
    ensures UniqueGroups(AddGroups(gs, specs)) && gs <= AddGroups(gs, specs)
    ensures forall spec :: spec in specs ==> HasGroup(AddGroups(gs, specs), spec)
  {
    if specs != [] {
      var front, last := specs[..|specs| - 1], specs[|specs| - 1];
      GroupsStayUnique(gs, front);
      GroupAdded(AddGroups(gs, front), last.group);
      forall spec | spec in specs ensures HasGroup(AddGroups(gs, specs), spec) {
        if spec in front && spec.group.Some? {
          assert HasGroup(AddGroups(gs, front), spec);
          StillNamed(AddGroups(gs, front), AddGroups(gs, specs), spec.group.value);
        }
      }
    }
  }

  // ------------------------------------------------------------------- order

  /** From `n` on, each service comes after every earlier one of its group. */
  ghost predicate InOrder(ss: seq<Service>, n: nat) {
    forall i, j :: 0 <= i < j < |ss| && n <= j && ss[i].group == ss[j].group ==> ss[i].order < ss[j].order
  }

  lemma {:induction false} ServicesInOrder(gs: seq<Group>, ss: seq<Service>, specs: seq<Spec>)
    ensures InOrder(AddServices(gs, ss, specs), |ss|) && |AddServices(gs, ss, specs)| == |ss| + |specs|
  {
    if specs != [] {
      ServicesInOrder(gs, ss, specs[..|specs| - 1]);
    }
  }

  ghost predicate GroupsInOrder(gs: seq<Group>, n: nat) {
    forall i, j :: 0 <= i < j < |gs| && n <= j ==> gs[i].order < gs[j].order
  }

  lemma {:induction false} NewGroupsInOrder(gs: seq<Group>, specs: seq<Spec>)
    ensures GroupsInOrder(AddGroups(gs, specs), |gs|) && |gs| <= |AddGroups(gs, specs)|
  {
    if specs != [] {
      NewGroupsInOrder(gs, specs[..|specs| - 1]);
    }
  }

  // ---------------------------------------------------------- main theorems

  /** An import keeps service and group names unique, changes no row that was
      there, and puts every new service last in the group it names, the new ones
      of a group in payload order; new groups likewise come last. */
  lemma ImportAppendsInOrder(c: Catalogue, rows: seq<Row>)
    requires UniqueServices(c.services) && UniqueGroups(c.groups)
    ensures var (c', items) := Import(c, rows); var specs := ToCreate(rows, items);
      && UniqueServices(c'.services) && UniqueGroups(c'.groups)
      && c.services <= c'.services && c.groups <= c'.groups
      && InOrder(c'.services, |c.services|) && GroupsInOrder(c'.groups, |c.groups|)
      && |c'.services| == |c.services| + |specs|
      && forall k :: 0 <= k < |specs| ==> Carries(c', c'.services[|c.services| + k], specs[k])
  {
    var specs := ToCreate(rows, Items(c, rows));
    var groups := AddGroups(c.groups, specs);
    PlanIsNew(c, rows);
    GroupsStayUnique(c.groups, specs);
    ServicesAdded(groups, c.services, specs);
    ServicesStayUnique(groups, c.services, specs);
    ServicesInOrder(groups, c.services, specs);
    NewGroupsInOrder(c.groups, specs);
    var ss' := AddServices(groups, c.services, specs);
    forall k | 0 <= k < |specs|
      ensures Carries(Catalogue(groups, ss'), ss'[|c.services| + k], specs[k])
    {
      assert HasGroup(groups, specs[k]) && Made(groups, ss'[|c.services| + k], specs[k]);
    }
  }

  /** The service is the one the spec asked for, in the group it named. */
  ghost predicate Carries(c: Catalogue, s: Service, spec: Spec) {
    && s.name == spec.name && s.details == spec.details
    && (if spec.group.Some?
        then s.group.Some? && s.group.value < |c.groups| && c.groups[s.group.value].name == spec.group.value
        else s.group.None?)
  }

  lemma {:induction false} ItemsKnown(c: Catalogue, c': Catalogue, rows: seq<Row>)
    requires !HasErrors(Items(c, rows)) && c.services <= c'.services
    requires forall spec :: spec in ToCreate(rows, Items(c, rows)) ==> NamedService(c'.services, spec.name).Some?
    ensures forall i :: 0 <= i < |rows| ==> rows[i].Good? && NamedService(c'.services, rows[i].spec.name).Some?
  {
    if rows != [] {
      var n := |rows| - 1;
      var front, before := rows[..n], Items(c, rows[..n]);
      var items := Items(c, rows);
      assert items[..n] == before;
      forall i | 0 <= i < n ensures !before[i].Invalid? && !before[i].Repeats? {
        assert before[i] == items[i];
      }
      var specs := ToCreate(rows, items);
      forall spec | spec in ToCreate(front, before) ensures NamedService(c'.services, spec.name).Some? {
        assert spec in specs;
      }
      ItemsKnown(c, c', front);
      assert !items[n].Invalid? && !items[n].Repeats?;
      if items[n].Exists? {
        assert c'.services[items[n].service].name == rows[n].spec.name;
      } else {
        assert specs[|specs| - 1] == rows[n].spec;
      }
    }
  }

  lemma {:induction false} KnownRowsDoNothing(c: Catalogue, rows: seq<Row>)
    requires forall i :: 0 <= i < |rows| ==> rows[i].Good? && NamedService(c.services, rows[i].spec.name).Some?
    ensures forall item :: item in Items(c, rows) ==> item.Exists?
    ensures ToCreate(rows, Items(c, rows)) == []
  {
    if rows != [] {
      var n := |rows| - 1;
      KnownRowsDoNothing(c, rows[..n]);
      assert Items(c, rows)[..n] == Items(c, rows[..n]);
    }
  }

  /** A payload that could be committed, run again, creates nothing. */
  lemma RerunIsNoOp(c: Catalogue, rows: seq<Row>)
    requires !HasErrors(Import(c, rows).1)
    ensures var c' := Import(c, rows).0; var (c'', items) := Import(c', rows);
      c'' == c' && forall item :: item in items ==> item.Exists?
  {
    var c' := Import(c, rows).0;
    var specs := ToCreate(rows, Items(c, rows));
    ServicesAdded(c'.groups, c.services, specs);
    forall spec | spec in specs ensures NamedService(c'.services, spec.name).Some? {
      var k :| 0 <= k < |specs| && specs[k] == spec;
      assert Made(c'.groups, c'.services[|c.services| + k], spec);
    }
    ItemsKnown(c, c', rows);
    KnownRowsDoNothing(c', rows);
  }

  /** A row repeating a name is refused exactly when that name is new and an
      earlier row already creates it. */
  lemma RepeatRefusedExactlyWhen(c: Catalogue, rows: seq<Row>, row: Row)
    requires row.Good?
    ensures var items := Items(c, rows);
      Items(c, rows + [row])[|rows|].Repeats? <==>
        NamedService(c.services, row.spec.name).None? && Plans(ToCreate(rows, items), row.spec.name)
  {
    assert (rows + [row])[..|rows|] == rows;
    PlannedFrom(rows, Items(c, rows), row.spec.name);
  }

  // ---------------------------------------------------------------- the store

  class ServiceStore {
    var groups: seq<Group>
    var services: seq<Service>

    ghost function Current(): Catalogue
      reads this
    {
      Catalogue(groups, services)
    }

    constructor (groups: seq<Group>, services: seq<Service>)
      ensures Current() == Catalogue(groups, services)
    {
      this.groups, this.services := groups, services;
    }

    method Plan(rows: seq<Row>) returns (items: seq<Item>, specs: seq<Spec>)
      ensures items == Items(Current(), rows) && specs == ToCreate(rows, items)
    {
      var seen: map<string, nat> := map[];
      items, specs := [], [];
      for n := 0 to |rows|
        invariant items == Items(Current(), rows[..n]) && specs == ToCreate(rows[..n], items)
        invariant forall name :: FirstRow(rows[..n], items, name) == if name in seen then Some(seen[name]) else None
      {
        var row := rows[n];
        assert rows[..n + 1][..n] == rows[..n];
        ghost var before := items;
        if row.Bad? {
          items := items + [Invalid];
        } else {
          var known := NamedService(services, row.spec.name);
          if known.Some? {
            items := items + [Exists(known.value)];
          } else if row.spec.name in seen {
            items := items + [Repeats(seen[row.spec.name])];
          } else {
            items, specs := items + [Creates], specs + [row.spec];
            seen := seen[row.spec.name := n];
          }
        }
        assert items[..n] == before;
      }
      assert rows[..|rows|] == rows;
    }

    method EnsureGroups(specs: seq<Spec>)
      modifies this`groups
      ensures groups == AddGroups(old(groups), specs)
    {
      var nextOrder := After(TopGroup(groups), 0);
      for k := 0 to |specs|
        invariant groups == AddGroups(old(groups), specs[..k])
        invariant nextOrder == After(TopGroup(groups), 0)
      {
        assert specs[..k + 1][..k] == specs[..k];
        var name := specs[k].group;
        if name.Some? && NamedGroup(groups, name.value).None? {
          ghost var before := groups;
          groups := groups + [Group(name.value, nextOrder)];
          assert groups[..|before|] == before;
          nextOrder := nextOrder + 1;
        }
      }
      assert specs[..|specs|] == specs;
    }

    /** Keeps a running next position per group instead of asking again. */
    method CreateServices(specs: seq<Spec>)
      modifies this`services
      ensures services == AddServices(groups, old(services), specs)
    {
      var nextOrder := NextOrders(services);
      for k := 0 to |specs|
        invariant services == AddServices(groups, old(services), specs[..k])
        invariant Tracks(nextOrder, services)
      {
        assert specs[..k + 1][..k] == specs[..k];
        var group := GroupOf(groups, specs[k]);
        var order := if group in nextOrder then nextOrder[group] else 0;
        var s := Service(specs[k].name, group, order, specs[k].details);
        TrackNext(nextOrder, services, s);
        nextOrder := nextOrder[group := order + 1];
        services := services + [s];
      }
      assert specs[..|specs|] == specs;
    }

    method NextOrders(ss: seq<Service>) returns (m: map<Option<nat>, int>)
      ensures Tracks(m, ss)
    {
      m := map[];
      for i := 0 to |ss|
        invariant Tracks(m, ss[..i])
      {
        assert ss[..i + 1][..i] == ss[..i];
        var s := ss[i];
        if s.group !in m || m[s.group] <= s.order {
          m := m[s.group := s.order + 1];
        }
      }
      assert ss[..|ss|] == ss;
    }

    /** Runs the import; the rows are kept only if `commit` and no row is wrong. */
    method Paste(rows: seq<Row>, commit: bool) returns (items: seq<Item>)
      modifies this
      ensures items == Import(old(Current()), rows).1
      ensures Current() == if commit && !HasErrors(items) then Import(old(Current()), rows).0 else old(Current())
    {
      var specs: seq<Spec>;
      items, specs := Plan(rows);
      var groups0, services0 := groups, services;
      if specs != [] {
        EnsureGroups(specs);
        CreateServices(specs);
      }
      if !commit || HasErrors(items) {
        groups, services := groups0, services0;
      }
    }
  }

  ghost predicate Tracks(m: map<Option<nat>, int>, ss: seq<Service>) {
    forall g :: Top(ss, g) == if g in m then Some(m[g] - 1) else None
  }

  /** One more service moves its own group's next position, and no other. */
  lemma TrackNext(m: map<Option<nat>, int>, ss: seq<Service>, s: Service)
    requires Tracks(m, ss) && s.order == After(Top(ss, s.group), 0)
    ensures Tracks(m[s.group := s.order + 1], ss + [s])
  {
    assert (ss + [s])[..|ss|] == ss;
  }
}
