/** The one-screen switch for vehicle details: fields bound to registration, make
    and model in the default booking workflow, and the sections they sit in. */
module VehicleDetails {
  import opened Wrappers

  // -------------------------------------------------------------------- data

  datatype Key = Registration | Make | Model

  datatype Field = Field(section: nat, binds: Option<Key>, required: bool, order: int, caption: string)

  /** A section with a service belongs to that service's own workflow. */
  datatype Section = Section(service: Option<nat>, order: int, active: bool, title: string)

  /** Rows by id; `next` is above every id in use. */
  datatype Workflow = Workflow(sections: map<nat, Section>, fields: map<nat, Field>, next: nat)

  datatype Ask = Ask(enabled: bool, required: bool)

  datatype Want = Want(enabled: Option<bool>, required: Option<bool>)

  const NOT_ASKED := Ask(false, false)
  const KEYS := [Registration, Make, Model]

  function Caption(key: Key): string {
    match key
    case Registration => "Registration number"
    case Make => "Make"
    case Model => "Model"
  }

  function Position(key: Key): nat {
    match key
    case Registration => 0
    case Make => 1
    case Model => 2
  }

  predicate InDefault(w: Workflow, section: nat) {
    section in w.sections && w.sections[section].service.None?
  }

  /** The field asks for `key` in the default workflow. */
  predicate Bound(w: Workflow, id: nat, key: Key) {
    id in w.fields && w.fields[id].binds == Some(key) && InDefault(w, w.fields[id].section)
  }

  ghost predicate Valid(w: Workflow) {
    && (forall key, i, j :: Bound(w, i, key) && Bound(w, j, key) ==> i == j)
    && (forall id :: id in w.fields ==> id < w.next && w.fields[id].section in w.sections)
    && (forall id :: id in w.sections ==> id < w.next)
  }

  ghost function Existing(w: Workflow, key: Key): (r: Option<nat>)
    ensures r.Some? ==> Bound(w, r.value, key)
    ensures r.None? ==> forall id :: !Bound(w, id, key)
  {
    if id: nat :| Bound(w, id, key) then Some(id) else None
  }

  ghost function Asked(w: Workflow, key: Key): Ask {
    match Existing(w, key)
    case Some(id) => Ask(w.sections[w.fields[id].section].active, w.fields[id].required)
    case None => NOT_ASKED
  }

  // ------------------------------------------------------------------- update

  /** Details left out stay; what is not asked is not required. */
  function Merge(current: Ask, want: Want): Ask {
    var enabled := want.enabled.GetOr(current.enabled);
    Ask(enabled, enabled && want.required.GetOr(current.required))
  }

  type Choice = Key -> Ask

  ghost function Desired(w: Workflow, wanted: Key -> Want): Choice {
    key => Merge(Asked(w, key), wanted(key))
  }

  predicate Coherent(desired: Choice) {
    desired(Make).enabled || desired(Model).enabled ==> desired(Registration).enabled
  }

  predicate AnyEnabled(desired: Choice) {
    desired(Registration).enabled || desired(Make).enabled || desired(Model).enabled
  }

  /** The section of the first vehicle field there is. */
  ghost function Home(w: Workflow): Option<nat> {
    if Existing(w, Registration).Some? then Some(w.fields[Existing(w, Registration).value].section)
    else if Existing(w, Make).Some? then Some(w.fields[Existing(w, Make).value].section)
    else if Existing(w, Model).Some? then Some(w.fields[Existing(w, Model).value].section)
    else None
  }

  function Shifted(sections: map<nat, Section>): map<nat, Section> {
    map id | id in sections ::
      if sections[id].service.None? then sections[id].(order := sections[id].order + 1) else sections[id]
  }

  /** A new first section of the default workflow. */
  function WithSection(w: Workflow): Workflow {
    w.(sections := Shifted(w.sections)[w.next := Section(None, 0, true, "Vehicle details")], next := w.next + 1)
  }

  /** One detail: add its field to `home`, adjust it, or delete it. */
  ghost function Apply(w: Workflow, key: Key, ask: Ask, home: nat): Workflow {
    match Existing(w, key)
    case None =>
      if !ask.enabled then w
      else
        w.(fields := w.fields[w.next := Field(home, Some(key), ask.required, Position(key), Caption(key))], next := w.next + 1)
    case Some(id) =>
      if !ask.enabled then w.(fields := w.fields - {id})
      else
        var section := w.fields[id].section;
        w.(sections := w.sections[section := w.sections[section].(active := true)],
           fields := w.fields[id := w.fields[id].(required := ask.required)])
  }

  /** The sections that lose a field. */
  ghost function Touched(w: Workflow, desired: Choice): set<nat> {
    set key: Key | !desired(key).enabled && Existing(w, key).Some? :: w.fields[Existing(w, key).value].section
  }

  predicate Holds(w: Workflow, section: nat) {
    exists id :: id in w.fields && w.fields[id].section == section
  }

  function Prune(w: Workflow, touched: set<nat>): Workflow {
    w.(sections := map id | id in w.sections && (id !in touched || Holds(w, id)) :: w.sections[id])
  }

  ghost function Start(w: Workflow, desired: Choice): Workflow {
    if AnyEnabled(desired) && Home(w).None? then WithSection(w) else w
  }

  ghost function ApplyAll(w: Workflow, desired: Choice, home: nat): Workflow {
    var w1 := Apply(w, Registration, desired(Registration), home);
    var w2 := Apply(w1, Make, desired(Make), home);
    Apply(w2, Model, desired(Model), home)
  }

  ghost function Change(w: Workflow, desired: Choice): Workflow {
    Prune(ApplyAll(Start(w, desired), desired, Home(w).GetOr(w.next)), Touched(w, desired))
  }

  /** None is the refusal to ask for a make or model without a registration. */
  ghost function Update(w: Workflow, wanted: Key -> Want): Option<Workflow> {
    if Coherent(Desired(w, wanted)) then Some(Change(w, Desired(w, wanted))) else None
  }

  // -------------------------------------------------------- one detail at a time

  lemma ExistingIs(w: Workflow, key: Key, id: nat)
    requires Valid(w) && Bound(w, id, key)
    ensures Existing(w, key) == Some(id)
  {
  }

  ghost function SectionFor(w: Workflow, key: Key): Option<nat> {
    match Existing(w, key)
    case Some(id) => Some(w.fields[id].section)
    case None => None
  }

  ghost predicate Unbound(w: Workflow, id: nat) {
    forall key :: !Bound(w, id, key)
  }

  lemma AppliedBound(w: Workflow, key: Key, ask: Ask, home: nat, id: nat, other: Key)
    requires Valid(w) && (ask.enabled ==> InDefault(w, home))
    ensures Bound(Apply(w, key, ask, home), id, other) <==>
      if other != key then Bound(w, id, other)
      else ask.enabled && (Bound(w, id, key) || (Existing(w, key).None? && id == w.next))
  {
    if Existing(w, key).Some? {
      assert Bound(w, id, key) ==> id == Existing(w, key).value;
    }
  }

  lemma AppliedValid(w: Workflow, key: Key, ask: Ask, home: nat)
    requires Valid(w) && (ask.enabled ==> InDefault(w, home))
    ensures Valid(Apply(w, key, ask, home))
  {
    var w' := Apply(w, key, ask, home);
    forall k, i, j | Bound(w', i, k) && Bound(w', j, k) ensures i == j {
      AppliedBound(w, key, ask, home, i, k);
      AppliedBound(w, key, ask, home, j, k);
    }
  }

  /** The detail keeps its row; only whether it is required may change. */
  ghost predicate SameField(w: Workflow, w': Workflow, key: Key, ask: Ask)
    requires Existing(w, key).Some?
  {
    && Existing(w', key) == Existing(w, key)
    && w'.fields[Existing(w', key).value] == w.fields[Existing(w, key).value].(required := ask.required)
  }

  /** The detail itself is asked as told, in its own section or in `home`. */
  lemma AppliedAsks(w: Workflow, key: Key, ask: Ask, home: nat)
    requires Valid(w) && (ask.enabled ==> InDefault(w, home))
    ensures var w' := Apply(w, key, ask, home);
      if ask.enabled then
        && Existing(w', key).Some? && w'.fields[Existing(w', key).value].required == ask.required
        && SectionFor(w', key) == Some(SectionFor(w, key).GetOr(home))
      else Existing(w', key).None?
  {
    var w' := Apply(w, key, ask, home);
    AppliedValid(w, key, ask, home);
    if ask.enabled {
      var id := Existing(w, key).GetOr(w.next);
      AppliedBound(w, key, ask, home, id, key);
      ExistingIs(w', key, id);
    } else if Existing(w', key).Some? {
      AppliedBound(w, key, ask, home, Existing(w', key).value, key);
    }
  }

  lemma AppliedKeepsRow(w: Workflow, key: Key, ask: Ask, home: nat)
    requires Valid(w) && ask.enabled && Existing(w, key).Some?
    ensures SameField(w, Apply(w, key, ask, home), key, ask)
  {
    var id := Existing(w, key).value;
    var w' := Apply(w, key, ask, home);
    assert InDefault(w', w'.fields[id].section);
    assert forall i, k :: Bound(w', i, k) <==> Bound(w, i, k);
    ExistingIs(w', key, id);
  }

  /** Details do not see each other's turn. */
  lemma AppliedElsewhere(w: Workflow, key: Key, ask: Ask, home: nat, other: Key)
    requires Valid(w) && (ask.enabled ==> InDefault(w, home)) && other != key
    ensures var w' := Apply(w, key, ask, home);
      && Existing(w', other) == Existing(w, other) && SectionFor(w', other) == SectionFor(w, other)
      && (Existing(w, other).Some? ==> w'.fields[Existing(w, other).value] == w.fields[Existing(w, other).value])
  {
    var w' := Apply(w, key, ask, home);
    AppliedValid(w, key, ask, home);
    if Existing(w, other).Some? {
      AppliedBound(w, key, ask, home, Existing(w, other).value, other);
      ExistingIs(w', other, Existing(w, other).value);
    } else if Existing(w', other).Some? {
      AppliedBound(w, key, ask, home, Existing(w', other).value, other);
    }
  }

  /** Sections keep their rows; the detail's own is switched on if it is asked. */
  lemma AppliedSections(w: Workflow, key: Key, ask: Ask, home: nat, id: nat)
    ensures var w' := Apply(w, key, ask, home);
      && (id in w'.sections <==> id in w.sections)
      && (id in w.sections ==>
            && w'.sections[id] == w.sections[id].(active := w'.sections[id].active)
            && (w'.sections[id].active <==> w.sections[id].active || (ask.enabled && SectionFor(w, key) == Some(id))))
  {
  }

  lemma AppliedKeepsUnbound(w: Workflow, key: Key, ask: Ask, home: nat, id: nat)
    requires Valid(w) && (ask.enabled ==> InDefault(w, home)) && id in w.fields && Unbound(w, id)
    ensures var w' := Apply(w, key, ask, home); id in w'.fields && w'.fields[id] == w.fields[id] && Unbound(w', id)
  {
    forall other ensures !Bound(Apply(w, key, ask, home), id, other) {
      AppliedBound(w, key, ask, home, id, other);
    }
  }

  // ------------------------------------------------------------ all of them

  ghost predicate Ready(w: Workflow, desired: Choice, home: nat) {
    Valid(w) && (AnyEnabled(desired) ==> InDefault(w, home))
  }

  /** The three turns, each of which may be taken. */
  lemma Turns(w: Workflow, desired: Choice, home: nat) returns (w1: Workflow, w2: Workflow)
    requires Ready(w, desired, home)
    ensures w1 == Apply(w, Registration, desired(Registration), home) && Ready(w1, desired, home)
    ensures w2 == Apply(w1, Make, desired(Make), home) && Ready(w2, desired, home)
    ensures ApplyAll(w, desired, home) == Apply(w2, Model, desired(Model), home)
    ensures Ready(ApplyAll(w, desired, home), desired, home)
  {
    w1 := Apply(w, Registration, desired(Registration), home);
    AppliedValid(w, Registration, desired(Registration), home);
    AppliedSections(w, Registration, desired(Registration), home, home);
    w2 := Apply(w1, Make, desired(Make), home);
    AppliedValid(w1, Make, desired(Make), home);
    AppliedSections(w1, Make, desired(Make), home, home);
    AppliedValid(w2, Model, desired(Model), home);
    AppliedSections(w2, Model, desired(Model), home, home);
  }

  /** The existing field of a key, in any of the states between the turns,
      until the key's own turn. */
  lemma UntilItsTurn(w: Workflow, desired: Choice, home: nat, w1: Workflow, w2: Workflow)
    requires Ready(w, desired, home)
    requires w1 == Apply(w, Registration, desired(Registration), home) && Ready(w1, desired, home)
    requires w2 == Apply(w1, Make, desired(Make), home)
    ensures Existing(w1, Make) == Existing(w, Make) && SectionFor(w1, Make) == SectionFor(w, Make)
    ensures Existing(w2, Model) == Existing(w, Model) && SectionFor(w2, Model) == SectionFor(w, Model)
  {
    AppliedElsewhere(w, Registration, desired(Registration), home, Make);
    AppliedElsewhere(w, Registration, desired(Registration), home, Model);
    AppliedElsewhere(w1, Make, desired(Make), home, Model);
  }

  lemma AllAsk(w: Workflow, desired: Choice, home: nat, key: Key)
    requires Ready(w, desired, home)
    ensures var w' := ApplyAll(w, desired, home);
      if desired(key).enabled then
        && Existing(w', key).Some? && w'.fields[Existing(w', key).value].required == desired(key).required
        && SectionFor(w', key) == Some(SectionFor(w, key).GetOr(home))
      else Existing(w', key).None?
  {
    var w1, w2 := Turns(w, desired, home);
    UntilItsTurn(w, desired, home, w1, w2);
    match key {
      case Registration =>
        AppliedAsks(w, Registration, desired(Registration), home);
        AppliedElsewhere(w1, Make, desired(Make), home, Registration);
        AppliedElsewhere(w2, Model, desired(Model), home, Registration);
      case Make =>
        AppliedAsks(w1, Make, desired(Make), home);
        AppliedElsewhere(w2, Model, desired(Model), home, Make);
      case Model =>
        AppliedAsks(w2, Model, desired(Model), home);
    }
  }

  lemma AllKeepRow(w: Workflow, desired: Choice, home: nat, key: Key)
    requires Ready(w, desired, home) && desired(key).enabled && Existing(w, key).Some?
    ensures SameField(w, ApplyAll(w, desired, home), key, desired(key))
  {
    var w1, w2 := Turns(w, desired, home);
    match key {
      case Registration =>
        AppliedKeepsRow(w, Registration, desired(Registration), home);
        AppliedElsewhere(w1, Make, desired(Make), home, Registration);
        AppliedElsewhere(w2, Model, desired(Model), home, Registration);
      case Make =>
        AppliedElsewhere(w, Registration, desired(Registration), home, Make);
        AppliedKeepsRow(w1, Make, desired(Make), home);
        AppliedElsewhere(w2, Model, desired(Model), home, Make);
      case Model =>
        AppliedElsewhere(w, Registration, desired(Registration), home, Model);
        AppliedElsewhere(w1, Make, desired(Make), home, Model);
        AppliedKeepsRow(w2, Model, desired(Model), home);
    }
  }

  /** Some detail that is asked for has its field in this section. */
  ghost predicate Switched(w: Workflow, desired: Choice, id: nat) {
    exists key :: desired(key).enabled && SectionFor(w, key) == Some(id)
  }

  lemma SwitchedCases(w: Workflow, desired: Choice, id: nat)
    ensures Switched(w, desired, id) <==>
      || (desired(Registration).enabled && SectionFor(w, Registration) == Some(id))
      || (desired(Make).enabled && SectionFor(w, Make) == Some(id))
      || (desired(Model).enabled && SectionFor(w, Model) == Some(id))
  {
    if key: Key :| desired(key).enabled && SectionFor(w, key) == Some(id) {
      match key case Registration => case Make => case Model =>
    }
  }

  lemma AllSections(w: Workflow, desired: Choice, home: nat, id: nat)
    requires Ready(w, desired, home)
    ensures var w' := ApplyAll(w, desired, home);
      && (id in w'.sections <==> id in w.sections)
      && (id in w.sections ==>
            && w'.sections[id] == w.sections[id].(active := w'.sections[id].active)
            && (w'.sections[id].active <==> w.sections[id].active || Switched(w, desired, id)))
  {
    var w1, w2 := Turns(w, desired, home);
    UntilItsTurn(w, desired, home, w1, w2);
    AppliedSections(w, Registration, desired(Registration), home, id);
    AppliedSections(w1, Make, desired(Make), home, id);
    AppliedSections(w2, Model, desired(Model), home, id);
    SwitchedCases(w, desired, id);
  }

  lemma AllKeepUnbound(w: Workflow, desired: Choice, home: nat, id: nat)
    requires Ready(w, desired, home) && id in w.fields && Unbound(w, id)
    ensures var w' := ApplyAll(w, desired, home); id in w'.fields && w'.fields[id] == w.fields[id]
  {
    var w1, w2 := Turns(w, desired, home);
    AppliedKeepsUnbound(w, Registration, desired(Registration), home, id);
    AppliedKeepsUnbound(w1, Make, desired(Make), home, id);
    AppliedKeepsUnbound(w2, Model, desired(Model), home, id);
  }

  // ------------------------------------------------- before and after the turns

  lemma NoHome(w: Workflow, key: Key)
    requires Home(w).None?
    ensures Existing(w, key).None?
  {
    match key case Registration => case Make => case Model =>
  }

  lemma WithSectionKeeps(w: Workflow)
    requires Valid(w) && Home(w).None?
    ensures var s := WithSection(w);
      Valid(s) && InDefault(s, w.next) && forall key, id :: !Bound(s, id, key) && !Bound(w, id, key)
  {
    var s := WithSection(w);
    forall key, id ensures !Bound(w, id, key) && !Bound(s, id, key) {
      NoHome(w, key);
    }
  }

  lemma SameBoundSameExisting(w: Workflow, s: Workflow, key: Key)
    requires Valid(w) && Valid(s) && s.fields == w.fields
    requires forall id :: Bound(s, id, key) <==> Bound(w, id, key)
    ensures Existing(s, key) == Existing(w, key) && SectionFor(s, key) == SectionFor(w, key)
  {
    if Existing(w, key).Some? {
      ExistingIs(s, key, Existing(w, key).value);
    } else {
      assert forall id :: !Bound(s, id, key);
    }
  }

  /** Where new fields go exists, and making it moves no vehicle field. */
  lemma Started(w: Workflow, desired: Choice)
    requires Valid(w)
    ensures var s := Start(w, desired); var home := Home(w).GetOr(w.next);
      && Ready(s, desired, home) && s.fields == w.fields
      && (forall key, id :: Bound(s, id, key) <==> Bound(w, id, key))
      && (Home(w).None? && AnyEnabled(desired) ==> s.sections[home].active)
  {
    if Home(w).None? && AnyEnabled(desired) {
      WithSectionKeeps(w);
    }
  }

  lemma StartedFor(w: Workflow, desired: Choice, key: Key)
    requires Valid(w)
    ensures var s := Start(w, desired); Existing(s, key) == Existing(w, key) && SectionFor(s, key) == SectionFor(w, key)
  {
    Started(w, desired);
    SameBoundSameExisting(w, Start(w, desired), key);
  }

  lemma StartedSections(w: Workflow, desired: Choice, id: nat)
    requires Valid(w) && id in w.sections
    ensures var s := Start(w, desired);
      && id in s.sections
      && s.sections[id] == w.sections[id].(order := s.sections[id].order)
      && (Switched(s, desired, id) <==> Switched(w, desired, id))
  {
    SwitchedCases(w, desired, id);
    SwitchedCases(Start(w, desired), desired, id);
    StartedFor(w, desired, Registration);
    StartedFor(w, desired, Make);
    StartedFor(w, desired, Model);
  }

  /** Removing empty sections takes no field away. */
  lemma PruneKeeps(w: Workflow, touched: set<nat>, key: Key)
    requires Valid(w)
    ensures var p := Prune(w, touched);
      && Valid(p) && p.fields == w.fields && Existing(p, key) == Existing(w, key) && Asked(p, key) == Asked(w, key)
  {
    var p := Prune(w, touched);
    forall id | id in w.fields ensures w.fields[id].section in p.sections {
      assert Holds(w, w.fields[id].section);
    }
    forall k, id ensures Bound(p, id, k) <==> Bound(w, id, k) {
    }
    SameBoundSameExisting(w, p, key);
  }

  // ---------------------------------------------------------- main theorems

  /** A new field would go to a section that is switched off and that nothing
      asked for switches on. */
  ghost predicate HomeIsOff(w: Workflow, desired: Choice) {
    Home(w).Some? && !w.sections[Home(w).value].active && !Switched(w, desired, Home(w).value)
  }

  ghost predicate Hidden(w: Workflow, desired: Choice) {
    HomeIsOff(w, desired) && exists key :: desired(key).enabled && Existing(w, key).None?
  }

  lemma EnabledSomewhere(desired: Choice, key: Key)
    requires desired(key).enabled
    ensures AnyEnabled(desired)
  {
    match key case Registration => case Make => case Model =>
  }

  lemma SectionIsOn(w: Workflow, desired: Choice, key: Key)
    requires Valid(w) && desired(key).enabled
    ensures var s, home := Start(w, desired), Home(w).GetOr(w.next); var all := ApplyAll(s, desired, home);
      var section := SectionFor(w, key).GetOr(home);
      && section in all.sections
      && (all.sections[section].active <==> Existing(w, key).Some? || !HomeIsOff(w, desired))
  {
    var s, home := Start(w, desired), Home(w).GetOr(w.next);
    EnabledSomewhere(desired, key);
    Started(w, desired);
    StartedFor(w, desired, key);
    var section := SectionFor(w, key).GetOr(home);
    AllSections(s, desired, home, section);
    if section in w.sections {
      StartedSections(w, desired, section);
    }
    if Existing(w, key).Some? {
      assert Switched(w, desired, section);
    }
  }

  lemma AskedAfter(w: Workflow, desired: Choice, key: Key)
    requires Valid(w)
    ensures var now := Asked(Change(w, desired), key);
      now == if !desired(key).enabled then NOT_ASKED
             else Ask(Existing(w, key).Some? || !HomeIsOff(w, desired), desired(key).required)
  {
    var s, home := Start(w, desired), Home(w).GetOr(w.next);
    Started(w, desired);
    var w1, w2 := Turns(s, desired, home);
    PruneKeeps(ApplyAll(s, desired, home), Touched(w, desired), key);
    AllAsk(s, desired, home, key);
    StartedFor(w, desired, key);
    if desired(key).enabled {
      SectionIsOn(w, desired, key);
    }
  }

  /** The booking flow ends up asking exactly what was wanted, unless a new
      field is hidden in a section that is switched off. */
  lemma AsksWhatWasWantedExactlyWhen(w: Workflow, desired: Choice)
    requires Valid(w) && forall key :: !desired(key).enabled ==> !desired(key).required
    ensures (forall key :: Asked(Change(w, desired), key) == desired(key)) <==> !Hidden(w, desired)
  {
    forall key
      ensures Asked(Change(w, desired), key) == desired(key)
        <==> !(desired(key).enabled && Existing(w, key).None? && HomeIsOff(w, desired))
    {
      AskedAfter(w, desired, key);
    }
  }

  lemma DesiredRequiresAsking(w: Workflow, wanted: Key -> Want, key: Key)
    ensures Desired(w, wanted)(key) == Merge(Asked(w, key), wanted(key))
    ensures !Desired(w, wanted)(key).enabled ==> !Desired(w, wanted)(key).required
  {
    assert Desired(w, wanted)(key) == Merge(Asked(w, key), wanted(key));
  }

  lemma WantedIsAsked(w: Workflow, wanted: Key -> Want, key: Key)
    requires Valid(w) && Update(w, wanted).Some? && !Hidden(w, Desired(w, wanted))
    ensures Asked(Update(w, wanted).value, key) == Merge(Asked(w, key), wanted(key))
  {
    forall k ensures !Desired(w, wanted)(k).enabled ==> !Desired(w, wanted)(k).required {
      DesiredRequiresAsking(w, wanted, k);
    }
    AsksWhatWasWantedExactlyWhen(w, Desired(w, wanted));
    assert Asked(Change(w, Desired(w, wanted)), key) == Desired(w, wanted)(key);
  }

  ghost predicate RegistrationFirst(w: Workflow) {
    Asked(w, Make).enabled || Asked(w, Model).enabled ==> Asked(w, Registration).enabled
  }

  /** After an accepted change make or model are only asked alongside the
      registration, exactly unless a new registration is hidden in a section
      that is switched off while an older detail elsewhere is still asked. */
  lemma MakeAndModelNeedRegistrationExactlyWhen(w: Workflow, wanted: Key -> Want)
    requires Valid(w) && Update(w, wanted).Some?
    ensures var desired := Desired(w, wanted);
      RegistrationFirst(Update(w, wanted).value) <==>
        !(Existing(w, Registration).None? && HomeIsOff(w, desired)
          && exists key :: desired(key).enabled && Existing(w, key).Some?)
  {
    var desired := Desired(w, wanted);
    AskedAfter(w, desired, Registration);
    AskedAfter(w, desired, Make);
    AskedAfter(w, desired, Model);
    if key: Key :| desired(key).enabled && Existing(w, key).Some? {
      match key case Registration => case Make => case Model =>
    }
  }

  /** A detail left out keeps its field, and is asked as before, exactly when it
      had none or its section is switched on: one in a section that is switched
      off reads as not asked, and its field is deleted. */
  lemma LeftOutIsKeptExactlyWhen(w: Workflow, wanted: Key -> Want, key: Key)
    requires Valid(w) && Update(w, wanted).Some? && wanted(key) == Want(None, None)
    ensures var w' := Update(w, wanted).value;
      && (Existing(w', key) == Existing(w, key) <==> Existing(w, key).None? || Asked(w, key).enabled)
      && (Asked(w, key).enabled ==>
            && Asked(w', key) == Asked(w, key)
            && w'.fields[Existing(w', key).value] == w.fields[Existing(w, key).value])
  {
    var desired := Desired(w, wanted);
    DesiredRequiresAsking(w, wanted, key);
    AskedAfter(w, desired, key);
    ExistsAfter(w, desired, key);
    if desired(key).enabled {
      KeptAfter(w, desired, key);
    }
  }

  lemma KeptAfter(w: Workflow, desired: Choice, key: Key)
    requires Valid(w) && desired(key).enabled && Existing(w, key).Some?
    ensures SameField(w, Change(w, desired), key, desired(key))
  {
    var s, home := Start(w, desired), Home(w).GetOr(w.next);
    Started(w, desired);
    StartedFor(w, desired, key);
    var w1, w2 := Turns(s, desired, home);
    PruneKeeps(ApplyAll(s, desired, home), Touched(w, desired), key);
    AllKeepRow(s, desired, home, key);
  }

  /** A field that is not a vehicle detail of the default workflow stays as it is. */
  lemma UnrelatedFieldsStay(w: Workflow, desired: Choice, id: nat)
    requires Valid(w) && id in w.fields && Unbound(w, id)
    ensures var w' := Change(w, desired); Valid(w') && id in w'.fields && w'.fields[id] == w.fields[id]
  {
    var s, home := Start(w, desired), Home(w).GetOr(w.next);
    Started(w, desired);
    var w1, w2 := Turns(s, desired, home);
    AllKeepUnbound(s, desired, home, id);
    PruneKeeps(ApplyAll(s, desired, home), Touched(w, desired), Registration);
  }

  lemma SectionForIsDefault(w: Workflow, key: Key)
    ensures SectionFor(w, key).Some? ==> InDefault(w, SectionFor(w, key).value)
  {
  }

  /** A service's own section stays as it is, and no section that had a field is
      left without one. */
  lemma SectionsStayFilled(w: Workflow, desired: Choice, id: nat)
    requires Valid(w) && id in w.sections
    ensures var w' := Change(w, desired);
      && (w.sections[id].service.Some? ==> id in w'.sections && w'.sections[id] == w.sections[id])
      && (Holds(w, id) && id in w'.sections ==> Holds(w', id))
  {
    var s, home := Start(w, desired), Home(w).GetOr(w.next);
    Started(w, desired);
    StartedSections(w, desired, id);
    AllSections(s, desired, home, id);
    var w1, w2 := Turns(s, desired, home);
    var all := ApplyAll(s, desired, home);
    PruneKeeps(all, Touched(w, desired), Registration);
    if w.sections[id].service.Some? {
      forall key ensures SectionFor(w, key) != Some(id) {
        SectionForIsDefault(w, key);
      }
      NotTouched(w, desired, id);
    }
    if Holds(w, id) && id !in Touched(w, desired) {
      HolderStays(w, desired, id);
    }
  }

  lemma NotTouched(w: Workflow, desired: Choice, id: nat)
    requires forall key :: SectionFor(w, key) != Some(id)
    ensures id !in Touched(w, desired) && !Switched(w, desired, id)
  {
    forall key | Existing(w, key).Some? ensures w.fields[Existing(w, key).value].section != id {
      assert SectionFor(w, key) != Some(id);
    }
  }

  /** A section that loses no field keeps the ones it had. */
  lemma HolderStays(w: Workflow, desired: Choice, id: nat)
    requires Valid(w) && Holds(w, id) && id !in Touched(w, desired)
    ensures Holds(ApplyAll(Start(w, desired), desired, Home(w).GetOr(w.next)), id)
  {
    var s, home := Start(w, desired), Home(w).GetOr(w.next);
    Started(w, desired);
    var f :| f in w.fields && w.fields[f].section == id;
    if Unbound(s, f) {
      AllKeepUnbound(s, desired, home, f);
    } else {
      var key: Key :| Bound(s, f, key);
      ExistingIs(w, key, f);
      StartedFor(w, desired, key);
      AllAsk(s, desired, home, key);
    }
  }

  lemma ExistsAfter(w: Workflow, desired: Choice, key: Key)
    requires Valid(w)
    ensures Valid(Change(w, desired)) && (Existing(Change(w, desired), key).Some? <==> desired(key).enabled)
  {
    var s, home := Start(w, desired), Home(w).GetOr(w.next);
    Started(w, desired);
    var w1, w2 := Turns(s, desired, home);
    PruneKeeps(ApplyAll(s, desired, home), Touched(w, desired), key);
    AllAsk(s, desired, home, key);
  }

  lemma ApplyNothing(w: Workflow, key: Key, ask: Ask, home: nat)
    requires Asked(w, key) == ask && (Existing(w, key).Some? <==> ask.enabled)
    ensures Apply(w, key, ask, home) == w
  {
    if ask.enabled {
      var id := Existing(w, key).value;
      var section := w.fields[id].section;
      assert w.sections[section].(active := true) == w.sections[section];
      assert w.fields[id].(required := ask.required) == w.fields[id];
      assert w.sections[section := w.sections[section]] == w.sections;
      assert w.fields[id := w.fields[id]] == w.fields;
    }
  }

  /** A workflow that already asks what is wanted is left exactly as it is. */
  lemma NothingToChange(w: Workflow, desired: Choice)
    requires forall key :: Asked(w, key) == desired(key) && (Existing(w, key).Some? <==> desired(key).enabled)
    ensures Change(w, desired) == w
  {
    var home := Home(w).GetOr(w.next);
    assert AnyEnabled(desired) ==> Home(w).Some?;
    ApplyNothing(w, Registration, desired(Registration), home);
    ApplyNothing(w, Make, desired(Make), home);
    ApplyNothing(w, Model, desired(Model), home);
    assert Touched(w, desired) == {};
    assert Prune(w, {}).sections == w.sections;
  }

  lemma SavingTwiceIsSavingOnce(w: Workflow, wanted: Key -> Want)
    requires Valid(w) && Update(w, wanted).Some? && !Hidden(w, Desired(w, wanted))
    ensures var w' := Update(w, wanted).value; Update(w', wanted) == Some(w')
  {
    var w' := Update(w, wanted).value;
    var first, second := Desired(w, wanted), Desired(w', wanted);
    forall key
      ensures Asked(w', key) == second(key) == first(key) && (Existing(w', key).Some? <==> second(key).enabled)
    {
      WantedIsAsked(w, wanted, key);
      DesiredRequiresAsking(w, wanted, key);
      DesiredRequiresAsking(w', wanted, key);
      ExistsAfter(w, first, key);
    }
    NothingToChange(w', second);
  }

  /** Whatever the first save hid, the same wish is still the same wish, and it
      has its fields. */
  lemma WishUnchanged(w: Workflow, w': Workflow, wanted: Key -> Want, key: Key)
    requires Valid(w) && w' == Change(w, Desired(w, wanted))
    ensures Desired(w', wanted)(key) == Desired(w, wanted)(key)
    ensures Existing(w', key).Some? <==> Desired(w', wanted)(key).enabled
  {
    AskedAfter(w, Desired(w, wanted), key);
    ExistsAfter(w, Desired(w, wanted), key);
    DesiredRequiresAsking(w, wanted, key);
    DesiredRequiresAsking(w', wanted, key);
  }

  lemma FieldsAreNotHidden(w: Workflow, desired: Choice)
    requires forall key :: desired(key).enabled ==> Existing(w, key).Some?
    ensures !Hidden(w, desired)
  {
  }

  /** Even where a first save hides a field, saving the same choice once more
      always makes the flow ask exactly what was wanted. */
  lemma SecondSaveAlwaysAsks(w: Workflow, w': Workflow, wanted: Key -> Want, key: Key)
    requires Valid(w) && Update(w, wanted) == Some(w')
    ensures Update(w', wanted).Some? && Asked(Update(w', wanted).value, key) == Desired(w, wanted)(key)
  {
    ExistsAfter(w, Desired(w, wanted), key);
    WishUnchanged(w, w', wanted, Registration);
    WishUnchanged(w, w', wanted, Make);
    WishUnchanged(w, w', wanted, Model);
    forall k ensures Desired(w', wanted)(k).enabled ==> Existing(w', k).Some? {
      WishUnchanged(w, w', wanted, k);
    }
    FieldsAreNotHidden(w', Desired(w', wanted));
    WantedIsAsked(w', wanted, key);
    WishUnchanged(w, w', wanted, key);
    DesiredRequiresAsking(w', wanted, key);
  }

  /** Saving the same choice twice changes nothing the second time, exactly
      unless the first save hid a field: then the second one shows it. */
  lemma SavingTwiceIsSavingOnceExactlyWhen(w: Workflow, wanted: Key -> Want)
    requires Valid(w) && Update(w, wanted).Some?
    ensures var w' := Update(w, wanted).value; Update(w', wanted) == Some(w') <==> !Hidden(w, Desired(w, wanted))
  {
    var w' := Update(w, wanted).value;
    if Hidden(w, Desired(w, wanted)) {
      var key: Key :| Desired(w, wanted)(key).enabled && Existing(w, key).None?;
      AskedAfter(w, Desired(w, wanted), key);
      SecondSaveAlwaysAsks(w, w', wanted, key);
    } else {
      SavingTwiceIsSavingOnce(w, wanted);
    }
  }

  /** The registration and the model are turned on; the make is left out. */
  function AllButMake(): Key -> Want {
    key => if key == Make then Want(None, None) else Want(Some(true), None)
  }

  /** Make and model each in a section of its own, both switched off. */
  function BothOff(): Workflow {
    Workflow(map[0 := Section(None, 0, false, "a"), 1 := Section(None, 1, false, "b")],
             map[2 := Field(0, Some(Make), false, 0, "Make"), 3 := Field(1, Some(Model), false, 0, "Model")], 4)
  }

  lemma BothOffIs()
    ensures Valid(BothOff()) && Existing(BothOff(), Registration).None?
    ensures Existing(BothOff(), Make) == Some(2) && Existing(BothOff(), Model) == Some(3)
    ensures forall key :: Asked(BothOff(), key) == NOT_ASKED
  {
    var w := BothOff();
    assert Bound(w, 2, Make) && Bound(w, 3, Model);
    forall key ensures Asked(w, key) == NOT_ASKED {
      match key case Registration => case Make => case Model =>
    }
  }

  /** One save shows all of it: the make's field is deleted, the registration is
      hidden, the model is asked without it, and saving again changes things. */
  lemma OneSaveBreaksThePromises() returns (w: Workflow, w': Workflow)
    ensures Valid(w) && RegistrationFirst(w) && Update(w, AllButMake()) == Some(w')
    ensures Existing(w, Make).Some? && Existing(w', Make).None?
    ensures Asked(w', Model).enabled && !Asked(w', Registration).enabled
    ensures Update(w', AllButMake()) != Some(w')
  {
    w := BothOff();
    BothOffIs();
    var desired := Desired(w, AllButMake());
    DesiredRequiresAsking(w, AllButMake(), Registration);
    DesiredRequiresAsking(w, AllButMake(), Make);
    DesiredRequiresAsking(w, AllButMake(), Model);
    SwitchedCases(w, desired, 0);
    assert HomeIsOff(w, desired) && Hidden(w, desired);
    w' := Update(w, AllButMake()).value;
    ExistsAfter(w, desired, Make);
    AskedAfter(w, desired, Registration);
    AskedAfter(w, desired, Model);
    SavingTwiceIsSavingOnceExactlyWhen(w, AllButMake());
  }

  // ------------------------------------------------------- what a booking asks

  datatype Requirement = NotAsked | Optional | Required

  /** A service with active sections of its own uses those instead. */
  predicate HasOverride(w: Workflow, service: Option<nat>) {
    service.Some? && exists id :: id in w.sections && w.sections[id].active && w.sections[id].service == service
  }

  predicate Resolved(w: Workflow, service: Option<nat>, id: nat) {
    && id in w.fields && w.fields[id].section in w.sections
    && var s := w.sections[w.fields[id].section];
       s.active && s.service == if HasOverride(w, service) then service else None
  }

  ghost function RequirementFor(w: Workflow, service: Option<nat>, key: Key): Requirement {
    if exists id :: Resolved(w, service, id) && w.fields[id].binds == Some(key) && w.fields[id].required then Required
    else if exists id :: Resolved(w, service, id) && w.fields[id].binds == Some(key) then Optional
    else NotAsked
  }

  function AsRequirement(a: Ask): Requirement {
    if !a.enabled then NotAsked else if a.required then Required else Optional
  }

  /** What the phone agent is told to ask for is what the switch shows, for every
      service that uses the default workflow. */
  lemma AgentAsksWhatTheSwitchShows(w: Workflow, service: Option<nat>, key: Key)
    requires Valid(w) && !HasOverride(w, service)
    ensures RequirementFor(w, service, key) == AsRequirement(Asked(w, key))
  {
    forall id | Resolved(w, service, id) && w.fields[id].binds == Some(key) ensures Existing(w, key) == Some(id) {
      ExistingIs(w, key, id);
    }
    if Existing(w, key).Some? && Asked(w, key).enabled {
      assert Resolved(w, service, Existing(w, key).value);
    }
  }

  /** The agent's loop over the resolved fields: required wins over optional. */
  method RequirementsFor(fields: seq<Field>) returns (out: map<Key, Requirement>)
    ensures out.Keys == {Registration, Make, Model}
    ensures forall key :: key in out ==>
      && (out[key] == Required <==> exists f :: f in fields && f.binds == Some(key) && f.required)
      && (out[key] == NotAsked <==> forall f :: f in fields ==> f.binds != Some(key))
  {
    out := map[Registration := NotAsked, Make := NotAsked, Model := NotAsked];
    for i := 0 to |fields|
      invariant out.Keys == {Registration, Make, Model}
      invariant forall key :: key in out ==>
        && (out[key] == Required <==> exists f :: f in fields[..i] && f.binds == Some(key) && f.required)
        && (out[key] == NotAsked <==> forall f :: f in fields[..i] ==> f.binds != Some(key))
    {
      var f := fields[i];
      assert fields[..i + 1] == fields[..i] + [f];
      assert forall g :: g in fields[..i + 1] <==> g in fields[..i] || g == f;
      if f.binds.Some? {
        var key := f.binds.value;
        assert key in {Registration, Make, Model} by {
          match key case Registration => case Make => case Model =>
        }
        if out[key] != Required {
          out := out[key := if f.required then Required else Optional];
        }
      }
    }
    assert fields[..|fields|] == fields;
  }

  // ---------------------------------------------------------------- the screen

  class Switch {
    var sections: map<nat, Section>
    var fields: map<nat, Field>
    var next: nat

    function Current(): Workflow
      reads this
    {
      Workflow(sections, fields, next)
    }

    constructor ()
      ensures Current() == Workflow(map[], map[], 0) && Valid(Current())
    {
      sections, fields, next := map[], map[], 0;
    }

    method Find(key: Key) returns (r: Option<nat>)
      requires Valid(Current())
      ensures r == Existing(Current(), key)
    {
      if id :| id in fields && Bound(Current(), id, key) {
        ExistingIs(Current(), key, id);
        return Some(id);
      }
      r := None;
    }

    method CurrentlyAsked(key: Key) returns (a: Ask)
      requires Valid(Current())
      ensures a == Asked(Current(), key)
    {
      var id := Find(key);
      a := if id.Some? then Ask(sections[fields[id.value].section].active, fields[id.value].required) else NOT_ASKED;
    }

    /** The section for new fields, made if there is no vehicle field yet. */
    method VehicleSection() returns (home: nat)
      requires Valid(Current())
      modifies this`sections, this`next
      ensures home == Home(old(Current())).GetOr(old(next))
      ensures Current() == if Home(old(Current())).None? then WithSection(old(Current())) else old(Current())
    {
      for i := 0 to |KEYS|
        invariant Current() == old(Current())
        invariant forall j :: 0 <= j < i ==> Existing(Current(), KEYS[j]).None?
      {
        var id := Find(KEYS[i]);
        if id.Some? {
          assert i > 0 ==> KEYS[0] == Registration;
          assert i > 1 ==> KEYS[1] == Make;
          return fields[id.value].section;
        }
      }
      assert KEYS[0] == Registration && KEYS[1] == Make && KEYS[2] == Model;
      home := next;
      sections := Shifted(sections)[home := Section(None, 0, true, "Vehicle details")];
      next := next + 1;
    }

    /** `touched` is the section a deleted field was in. */
    method SaveOne(key: Key, ask: Ask, home: nat) returns (touched: set<nat>)
      requires Valid(Current())
      modifies this
      ensures Current() == Apply(old(Current()), key, ask, home)
      ensures touched == if !ask.enabled && SectionFor(old(Current()), key).Some?
                         then {SectionFor(old(Current()), key).value} else {}
    {
      touched := {};
      var id := Find(key);
      if ask.enabled {
        if id.None? {
          fields := fields[next := Field(home, Some(key), ask.required, Position(key), Caption(key))];
          next := next + 1;
        } else {
          var section := fields[id.value].section;
          sections := sections[section := sections[section].(active := true)];
          fields := fields[id.value := fields[id.value].(required := ask.required)];
        }
      } else if id.Some? {
        touched := {fields[id.value].section};
        fields := fields - {id.value};
      }
    }

    /** An emptied section would be a dead page in the customer's booking. */
    method DropEmptied(touched: set<nat>)
      modifies this`sections
      ensures Current() == Prune(old(Current()), touched)
    {
      sections := map id | id in sections && (id !in touched || Holds(Current(), id)) :: sections[id];
    }

    /** Applies all three, then deletes the sections that were emptied. */
    method SaveAll(registration: Ask, make: Ask, model: Ask, ghost desired: Choice)
      requires Valid(Current())
      requires desired(Registration) == registration && desired(Make) == make && desired(Model) == model
      modifies this
      ensures Current() == Change(old(Current()), desired)
    {
      ghost var before := Current();
      Started(before, desired);
      var home := next;
      if registration.enabled || make.enabled || model.enabled {
        home := VehicleSection();
      }
      TurnsWithTouched(before, desired, home);
      var t1 := SaveOne(Registration, registration, home);
      var t2 := SaveOne(Make, make, home);
      var t3 := SaveOne(Model, model, home);
      DropEmptied(t1 + t2 + t3);
    }

    method Save(wanted: Key -> Want) returns (accepted: bool)
      requires Valid(Current())
      modifies this
      ensures accepted == Update(old(Current()), wanted).Some?
      ensures Current() == Update(old(Current()), wanted).GetOr(old(Current()))
      ensures Valid(Current())
    {
      ghost var before := Current();
      var registration := CurrentlyAsked(Registration);
      var make := CurrentlyAsked(Make);
      var model := CurrentlyAsked(Model);
      registration := Merge(registration, wanted(Registration));
      make := Merge(make, wanted(Make));
      model := Merge(model, wanted(Model));
      DesiredAre(before, wanted);
      if !registration.enabled && (make.enabled || model.enabled) {
        return false;
      }
      SaveAll(registration, make, model, Desired(before, wanted));
      ExistsAfter(before, Desired(before, wanted), Registration);
      accepted := true;
    }
  }

  lemma DesiredAre(w: Workflow, wanted: Key -> Want)
    ensures Desired(w, wanted)(Registration) == Merge(Asked(w, Registration), wanted(Registration))
    ensures Desired(w, wanted)(Make) == Merge(Asked(w, Make), wanted(Make))
    ensures Desired(w, wanted)(Model) == Merge(Asked(w, Model), wanted(Model))
  {
  }

  ghost function Loses(w: Workflow, desired: Choice, key: Key): set<nat> {
    if !desired(key).enabled && SectionFor(w, key).Some? then {SectionFor(w, key).value} else {}
  }

  lemma TouchedIsLost(w: Workflow, desired: Choice)
    ensures Touched(w, desired)
      == Loses(w, desired, Registration) + Loses(w, desired, Make) + Loses(w, desired, Model)
  {
    var all := Loses(w, desired, Registration) + Loses(w, desired, Make) + Loses(w, desired, Model);
    forall id | id in Touched(w, desired) ensures id in all {
      var key: Key :| !desired(key).enabled && Existing(w, key).Some? && w.fields[Existing(w, key).value].section == id;
      match key case Registration => case Make => case Model =>
    }
  }

  lemma HomeOnlyWhenAsked(w: Workflow, desired: Choice, home: nat)
    requires AnyEnabled(desired) ==> home == Home(w).GetOr(w.next)
    ensures ApplyAll(Start(w, desired), desired, home)
      == ApplyAll(Start(w, desired), desired, Home(w).GetOr(w.next))
  {
  }

  /** Turn by turn, the sections that lose a field are those that were going to. */
  lemma TurnsWithTouched(w: Workflow, desired: Choice, home: nat)
    requires Valid(w) && (AnyEnabled(desired) ==> home == Home(w).GetOr(w.next))
    ensures var s := Start(w, desired);
      var s1 := Apply(s, Registration, desired(Registration), home);
      var s2 := Apply(s1, Make, desired(Make), home);
      && Valid(s) && Valid(s1) && Valid(s2)
      && Touched(w, desired) == Loses(s, desired, Registration) + Loses(s1, desired, Make) + Loses(s2, desired, Model)
      && ApplyAll(s, desired, home) == ApplyAll(s, desired, Home(w).GetOr(w.next))
  {
    Started(w, desired);
    var s := Start(w, desired);
    var s1, s2 := Turns(s, desired, home);
    UntilItsTurn(s, desired, home, s1, s2);
    StartedFor(w, desired, Registration);
    StartedFor(w, desired, Make);
    StartedFor(w, desired, Model);
    TouchedIsLost(w, desired);
    HomeOnlyWhenAsked(w, desired, home);
  }
}
