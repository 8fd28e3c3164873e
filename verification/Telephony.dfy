/** Where a caller who needs a person is sent: what a saved configuration may
    hold, the chain of numbers a call dials, and the rows of its attempts. */
module Telephony {
  import opened Wrappers

  // -------------------------------------------------------------------- data

  datatype Kind = SipUri | PstnNumber

  datatype Source = OptionNumber | Primary | Secondary | MenuFallback | MenuOption | Escalation | Fallback

  datatype Destination = Destination(kind: Kind, value: string, source: Source)

  datatype Mode = SipByoc | PstnForward | NewNumber

  /** One business's communication settings. An empty string is no number. */
  datatype Business = Business(
    mode: Option<Mode>, ingress: string, publicNumber: string,
    primary: Option<(Kind, string)>, secondary: Option<(Kind, string)>,
    escalation: string, fallback: string)

  /** The phone menu's own numbers; `transfer` is its first option that transfers
      to a number. */
  datatype Menu = Menu(fallback: string, transfer: string)

  /** Number and SIP address rules live elsewhere: what they accept and make of
      it, and the folding of case. */
  datatype Rules = Rules(
    phone: string -> Option<string>, number: string -> Option<string>, sip: string -> Option<string>,
    lower: string -> string)

  const MAX_HUMAN_DESTINATIONS := 3

  // ------------------------------------------------------------ the chain

  function RoutedBy(b: Business): set<string> {
    (if b.ingress != "" then {b.ingress} else {}) + (if b.publicNumber != "" then {b.publicNumber} else {})
  }

  /** Every number that reaches CoMaz. */
  function Routed(bs: seq<Business>): (r: set<string>)
    ensures forall n :: n in r <==> exists i :: 0 <= i < |bs| && n in RoutedBy(bs[i])
  {
    set i, n | 0 <= i < |bs| && n in RoutedBy(bs[i]) :: n
  }

  function If(condition: bool, d: Destination): seq<Destination> {
    if condition then [d] else []
  }

  function OwnNumbers(b: Business): seq<Destination> {
    if b.primary.None? then []
    else
      [Destination(b.primary.value.0, b.primary.value.1, Primary)]
      + if b.secondary.Some? then [Destination(b.secondary.value.0, b.secondary.value.1, Secondary)] else []
  }

  function MenuNumbers(menu: Option<Menu>): seq<Destination> {
    if menu.None? then []
    else
      If(menu.value.fallback != "", Destination(PstnNumber, menu.value.fallback, MenuFallback))
      + If(menu.value.transfer != "", Destination(PstnNumber, menu.value.transfer, MenuOption))
  }

  /** The numbers of before there was a primary. */
  function OldNumbers(b: Business): seq<Destination> {
    if b.primary.Some? then []
    else
      If(b.escalation != "", Destination(PstnNumber, b.escalation, Escalation))
      + If(b.fallback != "", Destination(PstnNumber, b.fallback, Fallback))
  }

  function Candidates(b: Business, menu: Option<Menu>, option: string): seq<Destination> {
    If(option != "", Destination(PstnNumber, option, OptionNumber))
    + OwnNumbers(b) + MenuNumbers(menu) + OldNumbers(b)
  }

  predicate Dialable(rules: Rules, routed: set<string>, d: Destination) {
    match d.kind
    case SipUri => rules.sip(d.value).Some?
    case PstnNumber => rules.number(d.value).Some? && rules.number(d.value).value !in routed
  }

  function KeyOf(rules: Rules, d: Destination): (Kind, string) {
    (d.kind, rules.lower(d.value))
  }

  predicate Repeats(rules: Rules, ds: seq<Destination>, i: nat)
    requires i < |ds|
  {
    exists j :: 0 <= j < i && KeyOf(rules, ds[j]) == KeyOf(rules, ds[i])
  }

  /** Of the first `n` candidates, each key's first entry where it can be
      dialled: a repeat of an entry that cannot be dialled is dropped as well. */
  function Reachable(rules: Rules, routed: set<string>, ds: seq<Destination>, n: nat): seq<Destination>
    requires n <= |ds|
  {
    if n == 0 then []
    else
      Reachable(rules, routed, ds, n - 1)
      + if !Repeats(rules, ds, n - 1) && Dialable(rules, routed, ds[n - 1]) then [ds[n - 1]] else []
  }

  function Take<T>(s: seq<T>, n: nat): seq<T> {
    if |s| <= n then s else s[..n]
  }

  /** The first three of them. */
  function Chain(rules: Rules, bs: seq<Business>, g: nat, menu: Option<Menu>, option: string): seq<Destination>
    requires g < |bs|
  {
    var cs := Candidates(bs[g], menu, option);
    Take(Reachable(rules, Routed(bs), cs, |cs|), MAX_HUMAN_DESTINATIONS)
  }

  // ------------------------------------------------------------ configuration

  datatype Sid = NoSid | BadSid | GoodSid

  datatype Timeout = Unset | NotANumber | Seconds(n: int)

  /** A destination as typed: `kind` is None for an unknown one. */
  datatype Typed = Blank | Typed(kind: Option<Kind>, raw: string)

  datatype Data = Data(
    mode: Option<Mode>, publicNumber: string, domain: Sid, trunk: Sid, primary: Typed, secondary: Typed,
    timeout: Timeout)

  datatype Config = Config(
    mode: Mode, publicNumber: string, primary: Option<(Kind, string)>, secondary: Option<(Kind, string)>)

  /** `field` is the one the refusal names. */
  datatype Validated = Accepted(config: Config) | Refused(field: string)

  datatype Checked = Absent | Valid(kind: Kind, value: string) | Wrong(field: string)

  function CheckDestination(rules: Rules, bs: seq<Business>, own: set<string>, t: Typed, prefix: string): Checked {
    match t
    case Blank => Absent
    case Typed(kind, raw) =>
      if kind.None? then Wrong(prefix + "_type")
      else if kind.value == SipUri then
        (match rules.sip(raw) case Some(v) => Valid(SipUri, v) case None => Wrong(prefix))
      else
        match rules.number(raw)
        case None => Wrong(prefix)
        case Some(n) => if n in Routed(bs) || n in own then Wrong(prefix) else Valid(PstnNumber, n)
  }

  /** The public number as it will be stored; "" when none is given, None when
      it is not a number. */
  function PublicOf(rules: Rules, raw: string): Option<string> {
    if raw == "" then Some("") else rules.phone(raw)
  }

  predicate OwnedByAnother(bs: seq<Business>, g: nat, n: string) {
    exists i :: 0 <= i < |bs| && i != g && (bs[i].publicNumber == n || bs[i].ingress == n)
  }

  /** What the mode itself demands; None when it is satisfied. */
  function ModeError(b: Business, mode: Mode, publicNumber: string, data: Data): Option<string> {
    match mode
    case SipByoc =>
      if publicNumber == "" then Some("public_business_number")
      else if data.domain == NoSid then Some("byoc_sip_domain_sid")
      else None
    case PstnForward =>
      if data.domain == GoodSid then Some("byoc_sip_domain_sid")
      else if data.trunk == GoodSid then Some("byoc_trunk_sid")
      else if b.ingress == "" then Some("telephony_mode")
      else if publicNumber == "" || publicNumber == b.ingress then Some("public_business_number")
      else None
    case NewNumber =>
      if data.domain == GoodSid then Some("byoc_sip_domain_sid")
      else if data.trunk == GoodSid then Some("byoc_trunk_sid")
      else if publicNumber != "" && publicNumber != b.ingress then Some("public_business_number")
      else None
  }

  function TimeoutError(t: Timeout): bool {
    t.NotANumber? || (t.Seconds? && !(10 <= t.n <= 60))
  }

  function CheckDestinations(rules: Rules, bs: seq<Business>, own: set<string>, mode: Mode, publicNumber: string, data: Data)
    : Validated
  {
    var primary := CheckDestination(rules, bs, own, data.primary, "human_primary_destination");
    var secondary := CheckDestination(rules, bs, own, data.secondary, "human_secondary_destination");
    if primary.Wrong? then Refused(primary.field)
    else if secondary.Wrong? then Refused(secondary.field)
    else if secondary.Valid? && primary.Absent? then Refused("human_primary_destination")
    else if secondary.Valid? && secondary.kind == primary.kind && rules.lower(secondary.value) == rules.lower(primary.value)
    then Refused("human_secondary_destination")
    else if mode != NewNumber && primary.Absent? then Refused("human_primary_destination")
    else if TimeoutError(data.timeout) then Refused("human_transfer_timeout_seconds")
    else
      Accepted(Config(mode, publicNumber,
        if primary.Valid? then Some((primary.kind, primary.value)) else None,
        if secondary.Valid? then Some((secondary.kind, secondary.value)) else None))
  }

  function Validate(rules: Rules, bs: seq<Business>, g: nat, data: Data): Validated
    requires g < |bs|
  {
    var publicNumber := PublicOf(rules, data.publicNumber);
    if data.mode.None? then Refused("telephony_mode")
    else if publicNumber.None? then Refused("public_business_number")
    else if data.domain == BadSid then Refused("byoc_sip_domain_sid")
    else if data.trunk == BadSid then Refused("byoc_trunk_sid")
    else
      var wrong := ModeError(bs[g], data.mode.value, publicNumber.value, data);
      if wrong.Some? then Refused(wrong.value)
      else if publicNumber.value != "" && OwnedByAnother(bs, g, publicNumber.value) then Refused("public_business_number")
      else
        var own := RoutedBy(bs[g].(publicNumber := publicNumber.value));
        CheckDestinations(rules, bs, own, data.mode.value, publicNumber.value, data)
  }

  function Save(bs: seq<Business>, g: nat, c: Config): seq<Business>
    requires g < |bs|
  {
    bs[g := bs[g].(mode := Some(c.mode), publicNumber := c.publicNumber, primary := c.primary, secondary := c.secondary)]
  }

  // ---------------------------------------------------------- main theorems

  /** Normalising twice is normalising once. */
  ghost predicate Idempotent(rules: Rules) {
    && (forall raw :: rules.number(raw).Some? ==> rules.number(rules.number(raw).value) == rules.number(raw))
    && (forall raw :: rules.sip(raw).Some? ==> rules.sip(rules.sip(raw).value) == rules.sip(raw))
  }

  lemma {:induction false} ReachableIsDialable(
    rules: Rules, routed: set<string>, ds: seq<Destination>, n: nat, d: Destination)
    requires n <= |ds| && d in Reachable(rules, routed, ds, n)
    ensures d in ds && Dialable(rules, routed, d)
  {
    if d in Reachable(rules, routed, ds, n - 1) {
      ReachableIsDialable(rules, routed, ds, n - 1, d);
    }
  }

  /** Whatever is stored, no call dials a number that rings CoMaz again, nor
      more than three people, nor anyone not configured for this business, nor
      the same one twice. */
  lemma NeverDialsItself(rules: Rules, bs: seq<Business>, g: nat, menu: Option<Menu>, option: string, d: Destination)
    requires g < |bs| && d in Chain(rules, bs, g, menu, option)
    ensures d.kind == PstnNumber ==> rules.number(d.value).Some? && rules.number(d.value).value !in Routed(bs)
    ensures d in Candidates(bs[g], menu, option) && |Chain(rules, bs, g, menu, option)| <= MAX_HUMAN_DESTINATIONS
    ensures DifferentKeys(rules, Chain(rules, bs, g, menu, option))
  {
    var cs := Candidates(bs[g], menu, option);
    ReachableIsDialable(rules, Routed(bs), cs, |cs|, d);
    ReachableDiffer(rules, Routed(bs), cs, |cs|);
  }

  ghost predicate DifferentKeys(rules: Rules, ds: seq<Destination>) {
    forall i, j :: 0 <= i < j < |ds| ==> KeyOf(rules, ds[i]) != KeyOf(rules, ds[j])
  }

  ghost predicate KeyAmong(rules: Rules, ds: seq<Destination>, n: nat, key: (Kind, string)) {
    exists j :: 0 <= j < n && j < |ds| && KeyOf(rules, ds[j]) == key
  }

  lemma {:induction false} ReachableDiffer(rules: Rules, routed: set<string>, ds: seq<Destination>, n: nat)
    requires n <= |ds|
    ensures DifferentKeys(rules, Reachable(rules, routed, ds, n))
    ensures forall d :: d in Reachable(rules, routed, ds, n) ==> KeyAmong(rules, ds, n, KeyOf(rules, d))
  {
    if n > 0 {
      ReachableDiffer(rules, routed, ds, n - 1);
      var before := Reachable(rules, routed, ds, n - 1);
      forall d | d in before ensures KeyAmong(rules, ds, n, KeyOf(rules, d)) {
        assert KeyAmong(rules, ds, n - 1, KeyOf(rules, d));
      }
      if !Repeats(rules, ds, n - 1) {
        forall i | 0 <= i < |before| ensures KeyOf(rules, before[i]) != KeyOf(rules, ds[n - 1]) {
          assert KeyAmong(rules, ds, n - 1, KeyOf(rules, before[i]));
        }
      }
    }
  }

  /** A validated destination is still dialable once it is saved. */
  lemma SavedIsDialable(rules: Rules, bs: seq<Business>, g: nat, c: Config, own: set<string>, t: Typed, prefix: string)
    requires Idempotent(rules) && g < |bs|
    requires own == RoutedBy(bs[g].(publicNumber := c.publicNumber))
    requires CheckDestination(rules, bs, own, t, prefix).Valid?
    ensures var v := CheckDestination(rules, bs, own, t, prefix);
      forall source :: Dialable(rules, Routed(Save(bs, g, c)), Destination(v.kind, v.value, source))
  {
    var after := Save(bs, g, c);
    forall n | n in Routed(after) ensures n in Routed(bs) || n in own {
      var i :| 0 <= i < |after| && n in RoutedBy(after[i]);
      assert i != g ==> n in RoutedBy(bs[i]);
    }
  }

  lemma Accepts(rules: Rules, bs: seq<Business>, g: nat, data: Data) returns (own: set<string>)
    requires g < |bs| && Validate(rules, bs, g, data).Accepted?
    ensures var c := Validate(rules, bs, g, data).config;
      var primary := CheckDestination(rules, bs, own, data.primary, "human_primary_destination");
      var secondary := CheckDestination(rules, bs, own, data.secondary, "human_secondary_destination");
      && own == RoutedBy(bs[g].(publicNumber := c.publicNumber))
      && c.primary == (if primary.Valid? then Some((primary.kind, primary.value)) else None)
      && c.secondary == (if secondary.Valid? then Some((secondary.kind, secondary.value)) else None)
      && (c.secondary.Some? ==> c.primary.Some?)
      && (c.secondary.Some? ==>
            secondary.kind != primary.kind || rules.lower(secondary.value) != rules.lower(primary.value))
      && (data.mode.Some? && c.mode == data.mode.value) && (c.mode != NewNumber ==> c.primary.Some?)
  {
    own := RoutedBy(bs[g].(publicNumber := PublicOf(rules, data.publicNumber).value));
  }

  /** Looking further down the list only adds at the end. */
  lemma {:induction false} ChainIsPrefix(rules: Rules, routed: set<string>, ds: seq<Destination>, n: nat, m: nat)
    requires n <= m <= |ds|
    ensures Reachable(rules, routed, ds, n) <= Reachable(rules, routed, ds, m)
    decreases m
  {
    if n < m {
      ChainIsPrefix(rules, routed, ds, n, m - 1);
    }
  }

  lemma ReachedFirst(rules: Rules, routed: set<string>, ds: seq<Destination>)
    requires ds != [] && Dialable(rules, routed, ds[0])
    ensures [ds[0]] <= Reachable(rules, routed, ds, |ds|)
  {
    assert !Repeats(rules, ds, 0);
    assert Reachable(rules, routed, ds, 0) == [];
    assert Reachable(rules, routed, ds, 1) == [ds[0]];
    ChainIsPrefix(rules, routed, ds, 1, |ds|);
  }

  lemma ReachedSecond(rules: Rules, routed: set<string>, ds: seq<Destination>)
    requires |ds| >= 2 && Dialable(rules, routed, ds[0]) && Dialable(rules, routed, ds[1])
    requires KeyOf(rules, ds[0]) != KeyOf(rules, ds[1])
    ensures [ds[0], ds[1]] <= Reachable(rules, routed, ds, |ds|)
  {
    assert !Repeats(rules, ds, 0) && !Repeats(rules, ds, 1);
    assert Reachable(rules, routed, ds, 0) == [];
    assert Reachable(rules, routed, ds, 1) == [ds[0]];
    assert Reachable(rules, routed, ds, 2) == [ds[0], ds[1]];
    ChainIsPrefix(rules, routed, ds, 2, |ds|);
  }

  lemma PrimaryLeads(rules: Rules, bs: seq<Business>, g: nat, menu: Option<Menu>, first: Destination)
    requires g < |bs| && bs[g].primary == Some((first.kind, first.value)) && first.source == Primary
    requires Dialable(rules, Routed(bs), first)
    ensures var chain := Chain(rules, bs, g, menu, ""); |chain| >= 1 && chain[0] == first
  {
    var cs := Candidates(bs[g], menu, "");
    assert cs[0] == first;
    ReachedFirst(rules, Routed(bs), cs);
    assert Reachable(rules, Routed(bs), cs, |cs|)[0] == [first][0];
  }

  lemma SecondaryFollows(
    rules: Rules, bs: seq<Business>, g: nat, menu: Option<Menu>, first: Destination, second: Destination)
    requires g < |bs| && bs[g].primary == Some((first.kind, first.value)) && first.source == Primary
    requires bs[g].secondary == Some((second.kind, second.value)) && second.source == Secondary
    requires Dialable(rules, Routed(bs), first) && Dialable(rules, Routed(bs), second)
    requires KeyOf(rules, first) != KeyOf(rules, second)
    ensures var chain := Chain(rules, bs, g, menu, ""); |chain| >= 2 && chain[1] == second
  {
    var cs := Candidates(bs[g], menu, "");
    assert cs[0] == first && cs[1] == second;
    ReachedSecond(rules, Routed(bs), cs);
    assert Reachable(rules, Routed(bs), cs, |cs|)[1] == [first, second][1];
  }

  ghost predicate Leads(chain: seq<Destination>, c: Config) {
    && (c.primary.Some? ==>
          |chain| >= 1 && chain[0] == Destination(c.primary.value.0, c.primary.value.1, Primary))
    && (c.secondary.Some? ==>
          |chain| >= 2 && chain[1] == Destination(c.secondary.value.0, c.secondary.value.1, Secondary))
  }

  /** Right after an accepted configuration is saved, a caller who presses no
      option reaches its primary destination first, and its secondary second; an
      existing-number configuration always has a primary. */
  lemma SavedPrimaryIsReached(rules: Rules, bs: seq<Business>, g: nat, data: Data, menu: Option<Menu>)
    requires Idempotent(rules) && g < |bs| && Validate(rules, bs, g, data).Accepted?
    ensures var c := Validate(rules, bs, g, data).config;
      && Leads(Chain(rules, Save(bs, g, c), g, menu, ""), c)
      && (c.mode != NewNumber ==> c.primary.Some?) && (c.secondary.Some? ==> c.primary.Some?)
  {
    var c := Validate(rules, bs, g, data).config;
    var own := Accepts(rules, bs, g, data);
    var after := Save(bs, g, c);
    if c.primary.Some? {
      var first := Destination(c.primary.value.0, c.primary.value.1, Primary);
      SavedIsDialable(rules, bs, g, c, own, data.primary, "human_primary_destination");
      PrimaryLeads(rules, after, g, menu, first);
      if c.secondary.Some? {
        var second := Destination(c.secondary.value.0, c.secondary.value.1, Secondary);
        SavedIsDialable(rules, bs, g, c, own, data.secondary, "human_secondary_destination");
        SecondaryFollows(rules, after, g, menu, first, second);
      }
    }
  }

  // ------------------------------------------------- who is tried, in what order

  function Rank(s: Source): nat {
    match s
    case OptionNumber => 0
    case Primary => 1
    case Secondary => 2
    case MenuFallback => 3
    case MenuOption => 4
    case Escalation => 5
    case Fallback => 6
  }

  ghost predicate RankedWithin(ds: seq<Destination>, low: nat, high: nat) {
    InRankOrder(ds) && forall d :: d in ds ==> low <= Rank(d.source) <= high
  }

  lemma RankedConcat(a: seq<Destination>, b: seq<Destination>, low: nat, mid: nat, high: nat)
    requires RankedWithin(a, low, mid) && RankedWithin(b, mid + 1, high) && low <= mid < high
    ensures RankedWithin(a + b, low, high)
  {
    forall i, j | 0 <= i < j < |a + b| ensures Rank((a + b)[i].source) < Rank((a + b)[j].source) {
      assert (a + b)[i] in if i < |a| then a else b;
      assert (a + b)[j] in if j < |a| then a else b;
    }
  }

  ghost predicate InRankOrder(ds: seq<Destination>) {
    forall i, j :: 0 <= i < j < |ds| ==> Rank(ds[i].source) < Rank(ds[j].source)
  }

  /** Two numbers, each there or not. */
  lemma TwoNumbers(p: bool, x: Destination, q: bool, y: Destination, d: Destination, low: nat)
    requires Rank(x.source) == low && Rank(y.source) == low + 1
    ensures RankedWithin(If(p, x) + If(q, y), low, low + 1)
    ensures d in If(p, x) + If(q, y) <==> (p && d == x) || (q && d == y)
  {
    var both := If(p, x) + If(q, y);
    assert |both| <= 2 && (p ==> both[0] == x) && (q ==> both[|both| - 1] == y);
  }

  lemma OwnNumberExactlyWhen(b: Business, d: Destination)
    ensures RankedWithin(OwnNumbers(b), 1, 2)
    ensures d in OwnNumbers(b) <==>
      || (d.source == Primary && b.primary == Some((d.kind, d.value)))
      || (d.source == Secondary && b.primary.Some? && b.secondary == Some((d.kind, d.value)))
  {
    if b.primary.Some? {
      var x := Destination(b.primary.value.0, b.primary.value.1, Primary);
      var second := b.secondary.GetOr((PstnNumber, ""));
      var y := Destination(second.0, second.1, Secondary);
      TwoNumbers(true, x, b.secondary.Some?, y, d, 1);
      assert OwnNumbers(b) == If(true, x) + If(b.secondary.Some?, y);
    }
  }

  lemma MenuNumberExactlyWhen(menu: Option<Menu>, d: Destination)
    ensures RankedWithin(MenuNumbers(menu), 3, 4)
    ensures d in MenuNumbers(menu) <==>
      && menu.Some? && d.kind == PstnNumber && d.value != ""
      && ((d.source == MenuFallback && d.value == menu.value.fallback)
          || (d.source == MenuOption && d.value == menu.value.transfer))
  {
    if menu.Some? {
      var m := menu.value;
      TwoNumbers(m.fallback != "", Destination(PstnNumber, m.fallback, MenuFallback),
                 m.transfer != "", Destination(PstnNumber, m.transfer, MenuOption), d, 3);
    }
  }

  lemma OldNumberExactlyWhen(b: Business, d: Destination)
    ensures RankedWithin(OldNumbers(b), 5, 6)
    ensures d in OldNumbers(b) <==>
      && b.primary.None? && d.kind == PstnNumber && d.value != ""
      && ((d.source == Escalation && d.value == b.escalation) || (d.source == Fallback && d.value == b.fallback))
  {
    if b.primary.None? {
      TwoNumbers(b.escalation != "", Destination(PstnNumber, b.escalation, Escalation),
                 b.fallback != "", Destination(PstnNumber, b.fallback, Fallback), d, 5);
    }
  }

  /** A business's numbers: the pressed option's, its own, its menu's, and only
      without a primary the old escalation and fallback; tried in this order. */
  lemma CandidateExactlyWhen(b: Business, menu: Option<Menu>, option: string, d: Destination)
    ensures InRankOrder(Candidates(b, menu, option))
    ensures d in Candidates(b, menu, option) <==>
      match d.source
      case OptionNumber => option != "" && d.kind == PstnNumber && d.value == option
      case Primary => b.primary == Some((d.kind, d.value))
      case Secondary => b.primary.Some? && b.secondary == Some((d.kind, d.value))
      case MenuFallback => menu.Some? && d.kind == PstnNumber && d.value == menu.value.fallback != ""
      case MenuOption => menu.Some? && d.kind == PstnNumber && d.value == menu.value.transfer != ""
      case Escalation => b.primary.None? && d.kind == PstnNumber && d.value == b.escalation != ""
      case Fallback => b.primary.None? && d.kind == PstnNumber && d.value == b.fallback != ""
  {
    var pressed := If(option != "", Destination(PstnNumber, option, OptionNumber));
    OwnNumberExactlyWhen(b, d);
    MenuNumberExactlyWhen(menu, d);
    OldNumberExactlyWhen(b, d);
    InOneOfFour(pressed, OwnNumbers(b), MenuNumbers(menu), OldNumbers(b), d);
  }

  lemma InOneOfFour(
    a: seq<Destination>, b: seq<Destination>, c: seq<Destination>, e: seq<Destination>, d: Destination)
    requires RankedWithin(a, 0, 0) && RankedWithin(b, 1, 2) && RankedWithin(c, 3, 4) && RankedWithin(e, 5, 6)
    ensures d in a + b + c + e <==> d in a || d in b || d in c || d in e
    ensures InRankOrder(a + b + c + e)
  {
    RankedConcat(a, b, 0, 0, 2);
    RankedConcat(a + b, c, 0, 2, 4);
    RankedConcat(a + b + c, e, 0, 4, 6);
  }

  /** A candidate is reached exactly when it can be dialled and no earlier one is
      the same number; those reached keep their order. */
  lemma {:induction false} ReachableExactlyWhen(
    rules: Rules, routed: set<string>, ds: seq<Destination>, n: nat, i: nat)
    requires n <= |ds| && i < n && InRankOrder(ds)
    ensures InRankOrder(Reachable(rules, routed, ds, n))
    ensures ds[i] in Reachable(rules, routed, ds, n) <==>
      Dialable(rules, routed, ds[i]) && forall j :: 0 <= j < i ==> KeyOf(rules, ds[j]) != KeyOf(rules, ds[i])
  {
    var before := Reachable(rules, routed, ds, n - 1);
    forall d | d in before ensures Rank(d.source) < Rank(ds[n - 1].source) {
      FromBefore(rules, routed, ds, n - 1, d);
    }
    if n > 1 {
      ReachableExactlyWhen(rules, routed, ds, n - 1, if i < n - 1 then i else 0);
    }
  }

  lemma {:induction false} FromBefore(rules: Rules, routed: set<string>, ds: seq<Destination>, n: nat, d: Destination)
    requires n <= |ds| && d in Reachable(rules, routed, ds, n)
    ensures d in ds[..n]
  {
    if d in Reachable(rules, routed, ds, n - 1) {
      FromBefore(rules, routed, ds, n - 1, d);
      assert d in ds[..n - 1] && ds[..n] == ds[..n - 1] + [ds[n - 1]];
    }
  }

  /** Nobody who can be dialled is passed over: a candidate of its own number is in
      the chain, or three before it are. */
  lemma NobodyIsPassedOver(rules: Rules, bs: seq<Business>, g: nat, menu: Option<Menu>, option: string, i: nat)
    requires g < |bs| && i < |Candidates(bs[g], menu, option)|
    requires var cs := Candidates(bs[g], menu, option);
      Dialable(rules, Routed(bs), cs[i]) && forall j :: 0 <= j < i ==> KeyOf(rules, cs[j]) != KeyOf(rules, cs[i])
    ensures var d, chain := Candidates(bs[g], menu, option)[i], Chain(rules, bs, g, menu, option);
      && InRankOrder(chain)
      && (d in chain || (|chain| == MAX_HUMAN_DESTINATIONS && forall e :: e in chain ==> Rank(e.source) < Rank(d.source)))
  {
    var cs := Candidates(bs[g], menu, option);
    CandidateExactlyWhen(bs[g], menu, option, cs[i]);
    ReachableExactlyWhen(rules, Routed(bs), cs, |cs|, i);
    var all, chain := Reachable(rules, Routed(bs), cs, |cs|), Chain(rules, bs, g, menu, option);
    var k :| 0 <= k < |all| && all[k] == cs[i];
    if k < |chain| {
      assert chain[k] == cs[i];
    }
  }

  // -------------------------------------------------------- what may be saved

  /** A call to this number would come back to CoMaz. */
  ghost predicate ComesBack(bs: seq<Business>, n: string) {
    n != "" && exists i :: 0 <= i < |bs| && (bs[i].ingress == n || bs[i].publicNumber == n)
  }

  /** The destination as it is stored for what was typed. */
  ghost predicate StoredAs(rules: Rules, bs: seq<Business>, publicNumber: string, t: Typed, d: Option<(Kind, string)>) {
    match t
    case Blank => d.None?
    case Typed(kind, raw) =>
      && kind.Some? && d.Some? && d.value.0 == kind.value
      && var v := d.value.1;
      if kind.value == SipUri then rules.sip(raw) == Some(v)
      else rules.number(raw) == Some(v) && !ComesBack(bs, v) && (v != publicNumber || v == "")
  }

  /** What each mode needs of the public number and the carrier's ids. */
  ghost predicate ModeAllows(b: Business, data: Data, c: Config) {
    && data.mode == Some(c.mode) && data.domain != BadSid && data.trunk != BadSid
    && (c.mode == SipByoc ==> c.publicNumber != "" && data.domain == GoodSid)
    && (c.mode != SipByoc ==> data.domain == NoSid && data.trunk == NoSid)
    && (c.mode == PstnForward ==> b.ingress != "" && c.publicNumber != "" && c.publicNumber != b.ingress)
    && (c.mode == NewNumber ==> c.publicNumber == "" || c.publicNumber == b.ingress)
  }

  ghost predicate MaySave(rules: Rules, bs: seq<Business>, g: nat, data: Data, c: Config)
    requires g < |bs|
  {
    && ModeAllows(bs[g], data, c)
    && (if data.publicNumber == "" then c.publicNumber == "" else rules.phone(data.publicNumber) == Some(c.publicNumber))
    && (c.publicNumber != "" ==> forall i :: 0 <= i < |bs| && i != g ==>
          bs[i].publicNumber != c.publicNumber && bs[i].ingress != c.publicNumber)
    && StoredAs(rules, bs, c.publicNumber, data.primary, c.primary)
    && StoredAs(rules, bs, c.publicNumber, data.secondary, c.secondary)
    && (c.primary.None? ==> c.mode == NewNumber && c.secondary.None?)
    && (c.primary.Some? && c.secondary.Some? ==>
          c.primary.value.0 != c.secondary.value.0 || rules.lower(c.primary.value.1) != rules.lower(c.secondary.value.1))
    && (data.timeout == Unset || (data.timeout.Seconds? && 10 <= data.timeout.n <= 60))
  }

  lemma RoutedComesBack(bs: seq<Business>, g: nat, publicNumber: string, n: string)
    requires g < |bs|
    ensures n in Routed(bs) || n in RoutedBy(bs[g].(publicNumber := publicNumber))
      <==> ComesBack(bs, n) || (n != "" && n == publicNumber)
  {
    if i :| 0 <= i < |bs| && n != "" && (bs[i].ingress == n || bs[i].publicNumber == n) {
      assert n in RoutedBy(bs[i]);
    }
  }

  lemma StoredExactlyWhen(
    rules: Rules, bs: seq<Business>, g: nat, publicNumber: string, t: Typed, prefix: string, d: Option<(Kind, string)>)
    requires g < |bs|
    ensures var checked := CheckDestination(rules, bs, RoutedBy(bs[g].(publicNumber := publicNumber)), t, prefix);
      StoredAs(rules, bs, publicNumber, t, d)
      <==> !checked.Wrong? && d == if checked.Valid? then Some((checked.kind, checked.value)) else None
  {
    if t.Typed? && t.kind == Some(PstnNumber) && rules.number(t.raw).Some? {
      RoutedComesBack(bs, g, publicNumber, rules.number(t.raw).value);
    }
  }

  /** A configuration is accepted, as it is stored, exactly when it may be saved. */
  lemma AcceptedExactlyWhen(rules: Rules, bs: seq<Business>, g: nat, data: Data, c: Config)
    requires g < |bs|
    ensures Validate(rules, bs, g, data) == Accepted(c) <==> MaySave(rules, bs, g, data, c)
  {
    StoredExactlyWhen(rules, bs, g, c.publicNumber, data.primary, "human_primary_destination", c.primary);
    StoredExactlyWhen(rules, bs, g, c.publicNumber, data.secondary, "human_secondary_destination", c.secondary);
  }

  // ------------------------------------------------------- transfer attempts

  datatype Attempt = Attempt(
    garage: nat, call: string, index: nat, caller: string, destination: string, status: string, at: int)

  const DIALLING := "dialling"
  const ENDED := "ended"
  const LOOP_WINDOW := 600

  function Record(rows: seq<Attempt>, a: Attempt): seq<Attempt> {
    if a.call != ""
       && exists i :: 0 <= i < |rows| && rows[i].garage == a.garage && rows[i].call == a.call && rows[i].index == a.index
    then rows
    else rows + [a.(status := DIALLING)]
  }

  predicate StillDialling(r: Attempt, garage: nat) {
    r.garage == garage && r.status == DIALLING
  }

  /** A report finds a row by its call id; a call without one is stored without
      one, where no report finds it. */
  predicate Rings(r: Attempt, garage: nat, call: string, index: Option<nat>) {
    call != "" && StillDialling(r, garage) && r.call == call && (index.None? || r.index == index.value)
  }

  /** The newest row of this call still ringing, of that index if one is given. */
  function Ringing(rows: seq<Attempt>, garage: nat, call: string, index: Option<nat>): (r: Option<nat>)
    ensures match r
      case Some(i) => i < |rows| && Rings(rows[i], garage, call, index)
        && forall j :: i < j < |rows| ==> !Rings(rows[j], garage, call, index)
      case None => forall j :: 0 <= j < |rows| ==> !Rings(rows[j], garage, call, index)
  {
    if rows == [] then None
    else if Rings(rows[|rows| - 1], garage, call, index) then Some(|rows| - 1)
    else Ringing(rows[..|rows| - 1], garage, call, index)
  }

  function Finish(rows: seq<Attempt>, garage: nat, call: string, index: Option<nat>, status: string): seq<Attempt> {
    match Ringing(rows, garage, call, index)
    case None => rows
    case Some(i) => rows[i := rows[i].(status := if status == "" then "unknown" else status)]
  }

  function Close(rows: seq<Attempt>, call: string): (r: seq<Attempt>)
    ensures |r| == |rows|
  {
    seq(|rows|, i requires 0 <= i < |rows| =>
      if call != "" && rows[i].call == call && rows[i].status == DIALLING then rows[i].(status := ENDED) else rows[i])
  }

  predicate LoopSuspected(rows: seq<Attempt>, garage: nat, caller: string, now: int) {
    caller != "" && exists r :: r in rows && Suspects(r, garage, caller, now)
  }

  predicate Suspects(r: Attempt, garage: nat, caller: string, now: int) {
    && StillDialling(r, garage) && r.at >= now - LOOP_WINDOW
    && (caller == r.caller || caller == r.destination)
  }

  /** A webhook reads first and writes later, with neither lock nor unique key:
      what it will insert, or the rows whose status it will set. */
  datatype Pending = Insert(a: Attempt) | Mark(ids: set<nat>, status: string)

  datatype World = World(rows: seq<Attempt>, pending: seq<Option<Pending>>)

  datatype Event =
    | Recorded(a: Attempt)
    | Reported(garage: nat, call: string, index: Option<nat>, status: string)
    | Closed(call: string)
    | Written(k: nat)

  predicate RingsFor(r: Attempt, call: string) {
    call != "" && r.call == call && r.status == DIALLING
  }

  function Reading(rows: seq<Attempt>, e: Event): Option<Pending>
    requires !e.Written?
  {
    match e
    case Recorded(a) => if |Record(rows, a)| > |rows| then Some(Insert(a)) else None
    case Reported(garage, call, index, status) =>
      (match Ringing(rows, garage, call, index)
       case None => None
       case Some(i) => Some(Mark({i}, if status == "" then "unknown" else status)))
    case Closed(call) =>
      var ringing := set i: nat | i < |rows| && RingsFor(rows[i], call);
      Some(Mark(ringing, ENDED))
  }

  function Write(rows: seq<Attempt>, p: Pending): (r: seq<Attempt>)
    ensures |rows| <= |r|
  {
    match p
    case Insert(a) => rows + [a.(status := DIALLING)]
    case Mark(ids, status) =>
      seq(|rows|, i requires 0 <= i < |rows| => if i in ids then rows[i].(status := status) else rows[i])
  }

  predicate WriteReady(w: World, k: nat) {
    k < |w.pending| && w.pending[k].Some?
  }

  function Step(w: World, e: Event): World {
    match e
    case Written(k) =>
      if WriteReady(w, k) then World(Write(w.rows, w.pending[k].value), w.pending[k := None]) else w
    case _ => w.(pending := w.pending + [Reading(w.rows, e)])
  }

  function Run(w: World, es: seq<Event>): World {
    if es == [] then w else Step(Run(w, es[..|es| - 1]), es[|es| - 1])
  }

  /** The rows after a webhook nothing interrupts. */
  function Handled(rows: seq<Attempt>, e: Event): seq<Attempt>
    requires !e.Written?
  {
    match e
    case Recorded(a) => Record(rows, a)
    case Reported(garage, call, index, status) => Finish(rows, garage, call, index, status)
    case Closed(call) => Close(rows, call)
  }

  lemma UndisturbedWebhook(w: World, e: Event)
    requires !e.Written?
    ensures Step(Step(w, e), Written(|w.pending|)).rows == Handled(w.rows, e)
  {
    var p := Reading(w.rows, e);
    if p.Some? {
      assert WriteReady(Step(w, e), |w.pending|);
      assert Write(w.rows, p.value) == Handled(w.rows, e);
    }
  }

  predicate SameAttempt(a: Attempt, b: Attempt) {
    a.garage == b.garage && a.call == b.call && a.index == b.index
  }

  ghost predicate OneRowEach(rows: seq<Attempt>) {
    forall i, j :: 0 <= i < j < |rows| && rows[i].call != "" ==> !SameAttempt(rows[i], rows[j])
  }

  /** Rows are only added and only their status changes, and once a row has
      stopped ringing its status is final. */
  ghost predicate Extends(a: seq<Attempt>, b: seq<Attempt>) {
    && |a| <= |b|
    && (forall i :: 0 <= i < |a| ==>
          b[i] == a[i].(status := b[i].status) && (a[i].status == DIALLING || b[i].status == a[i].status))
  }

  /** Written meanwhile by another delivery: the same attempt, or another final
      status of a row this one takes to be ringing. */
  ghost predicate Collides(rows: seq<Attempt>, p: Pending) {
    match p
    case Insert(a) => a.call != "" && exists i :: 0 <= i < |rows| && SameAttempt(rows[i], a)
    case Mark(ids, status) =>
      exists i: nat :: i in ids && i < |rows| && rows[i].status != DIALLING && rows[i].status != status
  }

  ghost predicate Races(w: World, e: Event) {
    e.Written? && WriteReady(w, e.k) && Collides(w.rows, w.pending[e.k].value)
  }

  lemma WriteKeepsExactlyWhen(rows: seq<Attempt>, p: Pending)
    requires OneRowEach(rows)
    ensures OneRowEach(Write(rows, p)) && Extends(rows, Write(rows, p)) <==> !Collides(rows, p)
  {
    var after := Write(rows, p);
    match p {
      case Insert(a) =>
        if Collides(rows, p) {
          var i :| 0 <= i < |rows| && SameAttempt(rows[i], a);
          assert SameAttempt(after[i], after[|rows|]);
        }
      case Mark(ids, status) =>
        if i: nat :| i in ids && i < |rows| && rows[i].status != DIALLING && rows[i].status != status {
          assert after[i].status == status;
        }
    }
  }

  ghost predicate OnceAt(w: World, es: seq<Event>, k: nat)
    requires k < |es|
  {
    var before, after := Run(w, es[..k]).rows, Run(w, es[..k + 1]).rows;
    OneRowEach(after) && Extends(before, after)
  }

  ghost predicate RacesAt(w: World, es: seq<Event>, k: nat)
    requires k < |es|
  {
    Races(Run(w, es[..k]), es[k])
  }

  lemma NextOnceExactlyWhen(w: World, es: seq<Event>, k: nat)
    requires k < |es| && OneRowEach(Run(w, es[..k]).rows)
    ensures OnceAt(w, es, k) <==> !RacesAt(w, es, k)
  {
    var before, e := Run(w, es[..k]), es[k];
    assert es[..k + 1][..k] == es[..k] && Run(w, es[..k + 1]) == Step(before, e);
    if e.Written? && WriteReady(before, e.k) {
      WriteKeepsExactlyWhen(before.rows, before.pending[e.k].value);
    }
  }

  lemma {:induction false} OnceUntil(w: World, es: seq<Event>, k: nat)
    requires OneRowEach(w.rows) && k <= |es| && forall j :: 0 <= j < k ==> !RacesAt(w, es, j)
    ensures OneRowEach(Run(w, es[..k]).rows)
  {
    if k > 0 {
      OnceUntil(w, es, k - 1);
      NextOnceExactlyWhen(w, es, k - 1);
    }
  }

  lemma FirstRace(w: World, es: seq<Event>, n: nat) returns (k: nat)
    requires n < |es| && RacesAt(w, es, n)
    ensures k <= n && RacesAt(w, es, k) && forall j :: 0 <= j < k ==> !RacesAt(w, es, j)
  {
    if j: nat :| j < n && RacesAt(w, es, j) {
      k := FirstRace(w, es, j);
    } else {
      k := n;
    }
  }

  /** Over any webhooks, delivered again or not, an attempt of a call has one
      row and a finished attempt is final, exactly unless two of them collide
      between reading and writing. */
  lemma AttemptsAreRecordedOnceExactlyWhen(w: World, es: seq<Event>)
    requires OneRowEach(w.rows)
    ensures (forall k :: 0 <= k < |es| ==> OnceAt(w, es, k)) <==> (forall k :: 0 <= k < |es| ==> !RacesAt(w, es, k))
  {
    if n :| 0 <= n < |es| && RacesAt(w, es, n) {
      var k := FirstRace(w, es, n);
      OnceUntil(w, es, k);
      NextOnceExactlyWhen(w, es, k);
    } else {
      forall k | 0 <= k < |es| ensures OnceAt(w, es, k) {
        OnceUntil(w, es, k);
        NextOnceExactlyWhen(w, es, k);
      }
    }
  }

  // ---- what a collision takes

  function RowsAt(w: World, es: seq<Event>, k: nat): seq<Attempt>
    requires k <= |es|
  {
    Run(w, es[..k]).rows
  }

  lemma RunNext(w: World, es: seq<Event>, k: nat)
    requires k < |es|
    ensures Run(w, es[..k + 1]) == Step(Run(w, es[..k]), es[k])
  {
    assert es[..k + 1][..k] == es[..k];
  }

  /** What event k writes, if it writes. */
  function WritingAt(w: World, es: seq<Event>, k: nat): Option<Pending>
    requires k < |es|
  {
    var before := Run(w, es[..k]);
    if es[k].Written? && WriteReady(before, es[k].k) then before.pending[es[k].k] else None
  }

  lemma NextRowsAre(w: World, es: seq<Event>, k: nat)
    requires k < |es|
    ensures RowsAt(w, es, k + 1)
      == match WritingAt(w, es, k) case Some(p) => Write(RowsAt(w, es, k), p) case None => RowsAt(w, es, k)
  {
    RunNext(w, es, k);
  }

  predicate IsAttemptAt(w: World, es: seq<Event>, n: nat, x: nat, a: Attempt)
    requires n <= |es|
  {
    x < |RowsAt(w, es, n)| && SameAttempt(RowsAt(w, es, n)[x], a)
  }

  predicate InsertsAt(w: World, es: seq<Event>, m: nat, a: Attempt)
    requires m < |es|
  {
    WritingAt(w, es, m).Some? && WritingAt(w, es, m).value.Insert? && SameAttempt(WritingAt(w, es, m).value.a, a)
  }

  /** Rows stay where they are and keep whose attempt they are; a new one was
      inserted. */
  lemma NextAttempts(w: World, es: seq<Event>, k: nat, x: nat, a: Attempt)
    requires k < |es|
    ensures IsAttemptAt(w, es, k, x, a) ==> IsAttemptAt(w, es, k + 1, x, a)
    ensures IsAttemptAt(w, es, k + 1, x, a) ==> IsAttemptAt(w, es, k, x, a) || InsertsAt(w, es, k, a)
  {
    NextRowsAre(w, es, k);
  }

  /** A row that was not there at event i was inserted since. */
  lemma {:induction false} RowWasInserted(w: World, es: seq<Event>, i: nat, n: nat, x: nat, a: Attempt) returns (m: nat)
    requires i <= n <= |es| && IsAttemptAt(w, es, n, x, a) && !IsAttemptAt(w, es, i, x, a)
    ensures i <= m < n && InsertsAt(w, es, m, a)
    decreases n
  {
    NextAttempts(w, es, n - 1, x, a);
    if IsAttemptAt(w, es, n - 1, x, a) {
      m := RowWasInserted(w, es, i, n - 1, x, a);
    } else {
      m := n - 1;
    }
  }

  /** The row's status; none while there is no such row. */
  function StatusAt(w: World, es: seq<Event>, n: nat, x: nat): Option<string>
    requires n <= |es|
  {
    if x < |RowsAt(w, es, n)| then Some(RowsAt(w, es, n)[x].status) else None
  }

  predicate MarksAt(w: World, es: seq<Event>, m: nat, x: nat, status: string)
    requires m < |es|
  {
    && WritingAt(w, es, m).Some? && WritingAt(w, es, m).value.Mark?
    && x in WritingAt(w, es, m).value.ids && WritingAt(w, es, m).value.status == status
  }

  lemma NextStatus(w: World, es: seq<Event>, k: nat, x: nat)
    requires k < |es| && StatusAt(w, es, k, x).Some?
    ensures StatusAt(w, es, k + 1, x).Some?
    ensures StatusAt(w, es, k + 1, x) == StatusAt(w, es, k, x) || MarksAt(w, es, k, x, StatusAt(w, es, k + 1, x).value)
  {
    NextRowsAre(w, es, k);
  }

  lemma {:induction false} StatusStays(w: World, es: seq<Event>, i: nat, n: nat, x: nat)
    requires i <= n <= |es| && StatusAt(w, es, i, x).Some?
    ensures StatusAt(w, es, n, x).Some?
    decreases n
  {
    if i < n {
      StatusStays(w, es, i, n - 1, x);
      NextStatus(w, es, n - 1, x);
    }
  }

  /** A status that is not what it was at event i was set since. */
  lemma {:induction false} StatusWasSet(w: World, es: seq<Event>, i: nat, n: nat, x: nat, status: string) returns (m: nat)
    requires i <= n <= |es| && StatusAt(w, es, i, x).Some? && StatusAt(w, es, i, x) != Some(status)
    requires StatusAt(w, es, n, x) == Some(status)
    ensures i <= m < n && MarksAt(w, es, m, x, status)
    decreases n
  {
    StatusStays(w, es, i, n - 1, x);
    NextStatus(w, es, n - 1, x);
    if StatusAt(w, es, n - 1, x) == Some(status) {
      m := StatusWasSet(w, es, i, n - 1, x, status);
    } else {
      m := n - 1;
    }
  }

  /** Two writes about the same attempt, or the same row. */
  ghost predicate Conflict(p: Pending, q: Pending) {
    match p
    case Insert(a) => q.Insert? && SameAttempt(q.a, a)
    case Mark(ids, status) => q.Mark? && q.status != status && exists i: nat :: i in ids && i in q.ids
  }

  /** What a webhook reads: nothing of this attempt, or rows that are ringing. */
  lemma ReadingFindsItOpen(rows: seq<Attempt>, e: Event)
    requires !e.Written? && Reading(rows, e).Some?
    ensures match Reading(rows, e).value
      case Insert(a) => a.call != "" ==> forall i :: 0 <= i < |rows| ==> !SameAttempt(rows[i], a)
      case Mark(ids, _) => forall i: nat :: i in ids ==> i < |rows| && rows[i].status == DIALLING
  {
  }

  lemma InsertNeedsRace(w: World, es: seq<Event>, i: nat, n: nat, a: Attempt, x: nat) returns (m: nat)
    requires i <= n < |es| && IsAttemptAt(w, es, n, x, a)
    requires forall y :: 0 <= y < |RowsAt(w, es, i)| ==> !SameAttempt(RowsAt(w, es, i)[y], a)
    ensures i <= m < n && WritingAt(w, es, m).Some? && Conflict(Insert(a), WritingAt(w, es, m).value)
  {
    m := RowWasInserted(w, es, i, n, x, a);
  }

  lemma MarkNeedsRace(w: World, es: seq<Event>, i: nat, n: nat, ids: set<nat>, status: string, x: nat) returns (m: nat)
    requires i <= n < |es| && x in ids && StatusAt(w, es, i, x) == Some(DIALLING)
    requires StatusAt(w, es, n, x).Some? && StatusAt(w, es, n, x).value != DIALLING && StatusAt(w, es, n, x).value != status
    ensures i <= m < n && WritingAt(w, es, m).Some? && Conflict(Mark(ids, status), WritingAt(w, es, m).value)
  {
    m := StatusWasSet(w, es, i, n, x, StatusAt(w, es, n, x).value);
  }

  function PendingAt(w: World, es: seq<Event>, n: nat): seq<Option<Pending>>
    requires n <= |es|
  {
    Run(w, es[..n]).pending
  }

  /** Prepared writes only go away, and a reading prepares the next. */
  ghost predicate PreparesNext(a: seq<Option<Pending>>, b: seq<Option<Pending>>, rows: seq<Attempt>, e: Event) {
    && |a| <= |b| && (forall k :: 0 <= k < |a| ==> b[k] == a[k] || b[k].None?)
    && (!e.Written? ==> |b| == |a| + 1 && b[|a|] == Reading(rows, e))
  }

  lemma StepPrepares(w: World, e: Event)
    ensures PreparesNext(w.pending, Step(w, e).pending, w.rows, e)
  {
  }

  lemma NextPrepares(w: World, es: seq<Event>, n: nat)
    requires n < |es|
    ensures PreparesNext(PendingAt(w, es, n), PendingAt(w, es, n + 1), RowsAt(w, es, n), es[n])
  {
    StepPrepares(Run(w, es[..n]), es[n]);
    RunNext(w, es, n);
  }

  /** What event i prepared, as long as it has not been written. */
  lemma {:induction false} PreparedStays(w: World, es: seq<Event>, i: nat, n: nat)
    requires i < n <= |es| && !es[i].Written?
    ensures |PendingAt(w, es, i)| < |PendingAt(w, es, n)|
    ensures var p := PendingAt(w, es, n)[|PendingAt(w, es, i)|]; p == Reading(RowsAt(w, es, i), es[i]) || p.None?
    decreases n
  {
    NextPrepares(w, es, n - 1);
    if i < n - 1 {
      PreparedStays(w, es, i, n - 1);
    }
  }

  /** So what is written is what was read for. */
  lemma WritesWhatItRead(w: World, es: seq<Event>, i: nat, n: nat)
    requires i < n < |es| && !es[i].Written? && es[n] == Written(|PendingAt(w, es, i)|) && WritingAt(w, es, n).Some?
    ensures WritingAt(w, es, n) == Reading(RowsAt(w, es, i), es[i])
  {
    PreparedStays(w, es, i, n);
  }

  lemma RacingWrites(w: World, es: seq<Event>, n: nat)
    requires n < |es| && RacesAt(w, es, n)
    ensures WritingAt(w, es, n).Some? && Collides(RowsAt(w, es, n), WritingAt(w, es, n).value)
  {
  }

  /** What is open at event i and collides at event n was met in between. */
  lemma MetByAnother(w: World, es: seq<Event>, i: nat, n: nat, p: Pending) returns (m: nat)
    requires i < n < |es| && Collides(RowsAt(w, es, n), p)
    requires match p
      case Insert(a) => a.call != "" ==> forall x :: 0 <= x < |RowsAt(w, es, i)| ==> !SameAttempt(RowsAt(w, es, i)[x], a)
      case Mark(ids, _) => forall x: nat :: x in ids ==> x < |RowsAt(w, es, i)| && RowsAt(w, es, i)[x].status == DIALLING
    ensures i <= m < n && WritingAt(w, es, m).Some? && Conflict(p, WritingAt(w, es, m).value)
  {
    match p {
      case Insert(a) =>
        var x: nat :| x < |RowsAt(w, es, n)| && SameAttempt(RowsAt(w, es, n)[x], a);
        m := InsertNeedsRace(w, es, i, n, a, x);
      case Mark(ids, status) =>
        var x: nat :| x in ids && x < |RowsAt(w, es, n)|
          && RowsAt(w, es, n)[x].status != DIALLING && RowsAt(w, es, n)[x].status != status;
        m := MarkNeedsRace(w, es, i, n, ids, status, x);
    }
  }

  /** Event i of the run reads, and event n is its write. A collision takes another
      webhook that writes in between, about the same attempt or row. */
  lemma CollisionNeedsRace(w: World, es: seq<Event>, i: nat, n: nat) returns (m: nat)
    requires i < n < |es| && !es[i].Written? && es[n] == Written(|PendingAt(w, es, i)|) && RacesAt(w, es, n)
    ensures WritingAt(w, es, n).Some? && WritingAt(w, es, n) == Reading(RowsAt(w, es, i), es[i])
    ensures i < m < n && WritingAt(w, es, m).Some?
    ensures Conflict(WritingAt(w, es, n).value, WritingAt(w, es, m).value)
  {
    RacingWrites(w, es, n);
    WritesWhatItRead(w, es, i, n);
    ReadingFindsItOpen(RowsAt(w, es, i), es[i]);
    m := MetByAnother(w, es, i, n, WritingAt(w, es, n).value);
  }

  /** An attempt is recorded, ringing, unless it has a row of its own. */
  lemma RecordedExactlyWhen(rows: seq<Attempt>, a: Attempt)
    ensures var known := a.call != "" && exists i :: 0 <= i < |rows| && SameAttempt(rows[i], a);
      Handled(rows, Recorded(a)) == if known then rows else rows + [a.(status := "dialling")]
  {
    if i :| 0 <= i < |rows| && SameAttempt(rows[i], a) {
      assert rows[i].garage == a.garage && rows[i].call == a.call && rows[i].index == a.index;
    }
  }

  /** A report ends the newest attempt of its call still ringing, with the status
      it brings; every other row is as before. */
  lemma ReportEndsTheNewest(rows: seq<Attempt>, garage: nat, call: string, index: Option<nat>, status: string, i: nat)
    requires i < |rows|
    ensures var after := Handled(rows, Reported(garage, call, index, status));
      var newest := Rings(rows[i], garage, call, index) && forall j :: i < j < |rows| ==> !Rings(rows[j], garage, call, index);
      && |after| == |rows|
      && after[i] == rows[i].(status := if !newest then rows[i].status else if status == "" then "unknown" else status)
  {
  }

  /** One webhook delivered twice at once: the attempt gets two rows. */
  lemma SimultaneousDeliveriesRecordTwice(a: Attempt)
    requires a.call != ""
    ensures var both := Step(Step(World([], []), Recorded(a)), Recorded(a));
      var after := Step(Step(both, Written(0)), Written(1)).rows;
      after == [a.(status := DIALLING), a.(status := DIALLING)] && !OneRowEach(after)
  {
    var both := Step(Step(World([], []), Recorded(a)), Recorded(a));
    assert both.pending == [Some(Insert(a)), Some(Insert(a))];
    var after := Step(Step(both, Written(0)), Written(1)).rows;
    assert SameAttempt(after[0], after[1]);
  }

  ghost predicate TwoRing(rows: seq<Attempt>, garage: nat, call: string, index: Option<nat>) {
    exists i, j :: 0 <= i < j < |rows| && Rings(rows[i], garage, call, index) && Rings(rows[j], garage, call, index)
  }

  /** The same report again changes nothing exactly when it did not leave
      another matching attempt ringing: without an index, a repeat moves on to
      the attempt before. */
  lemma RepeatedReportHarmlessExactlyWhen(rows: seq<Attempt>, garage: nat, call: string, index: Option<nat>, status: string)
    ensures var once := Finish(rows, garage, call, index, status);
      Finish(once, garage, call, index, status) == once <==> status == DIALLING || !TwoRing(rows, garage, call, index)
  {
    var once := Finish(rows, garage, call, index, status);
    var first, second := Ringing(rows, garage, call, index), Ringing(once, garage, call, index);
    if status == DIALLING {
      assert once == rows;
    } else {
      forall i | 0 <= i < |rows|
        ensures Rings(once[i], garage, call, index) <==> Rings(rows[i], garage, call, index) && first != Some(i)
      {
      }
      if second.Some? {
        assert Rings(rows[second.value], garage, call, index) && second.value < first.value;
        assert Finish(once, garage, call, index, status)[second.value].status != DIALLING;
      }
    }
  }

  /** Two attempts of a call ring; "busy", reported twice without an index, ends
      them both. */
  lemma RepeatEndsTheNextAttempt()
    ensures var a := Attempt(0, "CA1", 0, "caller", "first", DIALLING, 0);
      var b := Attempt(0, "CA1", 1, "caller", "second", DIALLING, 10);
      Finish(Finish([a, b], 0, "CA1", None, "busy"), 0, "CA1", None, "busy") == [a.(status := "busy"), b.(status := "busy")]
  {
    var a := Attempt(0, "CA1", 0, "caller", "first", DIALLING, 0);
    var b := Attempt(0, "CA1", 1, "caller", "second", DIALLING, 10);
    var once := Finish([a, b], 0, "CA1", None, "busy");
    assert once == [a, b.(status := "busy")];
    assert Ringing(once, 0, "CA1", None) == Some(0);
  }

  /** With its index, as every current webhook gives it, a repeat is harmless. */
  lemma IndexedReportIsIdempotent(rows: seq<Attempt>, garage: nat, call: string, index: nat, status: string)
    requires OneRowEach(rows)
    ensures var once := Finish(rows, garage, call, Some(index), status);
      Finish(once, garage, call, Some(index), status) == once
  {
    RepeatedReportHarmlessExactlyWhen(rows, garage, call, Some(index), status);
    forall i, j | 0 <= i < j < |rows| && Rings(rows[i], garage, call, Some(index))
      ensures !Rings(rows[j], garage, call, Some(index))
    {
      assert !SameAttempt(rows[i], rows[j]);
    }
  }

  /** Once a call has ended, nothing it was ringing makes a new call suspect. */
  lemma ClosedCallsDoNotLoop(rows: seq<Attempt>, garage: nat, call: string, caller: string, now: int)
    requires call != ""
    ensures LoopSuspected(Close(rows, call), garage, caller, now)
      <==> caller != "" && exists r :: r in rows && r.call != call && Suspects(r, garage, caller, now)
  {
    var after := Close(rows, call);
    forall r | r in rows && r.call != call ensures r in after {
      var i :| 0 <= i < |rows| && rows[i] == r;
      assert after[i] == r;
    }
  }

  // ------------------------------------------------------------ the directory

  class Switchboard {
    const rules: Rules
    var businesses: seq<Business>

    constructor (rules: Rules, businesses: seq<Business>)
      ensures this.rules == rules && this.businesses == businesses
    {
      this.rules, this.businesses := rules, businesses;
    }

    method Configure(g: nat, data: Data) returns (v: Validated)
      requires g < |businesses|
      modifies this`businesses
      ensures v == Validate(rules, old(businesses), g, data)
      ensures businesses == if v.Accepted? then Save(old(businesses), g, v.config) else old(businesses)
    {
      v := Validate(rules, businesses, g, data);
      if v.Accepted? {
        var c := v.config;
        businesses := businesses[g := businesses[g].(
          mode := Some(c.mode), publicNumber := c.publicNumber, primary := c.primary, secondary := c.secondary)];
      }
    }

    method HumanDestinations(g: nat, menu: Option<Menu>, option: string) returns (chain: seq<Destination>)
      requires g < |businesses|
      ensures chain == Chain(rules, businesses, g, menu, option)
    {
      chain := Walk(Routed(businesses), Candidates(businesses[g], menu, option));
    }

    /** Goes down the candidates once, remembering what it has seen, and stops at
        the third it can dial. */
    method Walk(routed: set<string>, cs: seq<Destination>) returns (chain: seq<Destination>)
      ensures chain == Take(Reachable(rules, routed, cs, |cs|), MAX_HUMAN_DESTINATIONS)
    {
      var seen: set<(Kind, string)> := {};
      chain := [];
      for n := 0 to |cs|
        invariant seen == SeenKeys(rules, cs, n)
        invariant chain == Reachable(rules, routed, cs, n) && |chain| < MAX_HUMAN_DESTINATIONS
      {
        var key := KeyOf(rules, cs[n]);
        SeenIsRepeat(rules, cs, n, n);
        if key !in seen {
          seen := seen + {key};
          if Dialable(rules, routed, cs[n]) {
            chain := chain + [cs[n]];
            if |chain| >= MAX_HUMAN_DESTINATIONS {
              FullChainIsFinal(rules, routed, cs, n + 1);
              return;
            }
          }
        } else {
          assert seen + {key} == seen;
        }
      }
    }
  }

  lemma FullChainIsFinal(rules: Rules, routed: set<string>, ds: seq<Destination>, n: nat)
    requires n <= |ds| && |Reachable(rules, routed, ds, n)| == MAX_HUMAN_DESTINATIONS
    ensures Reachable(rules, routed, ds, n) == Take(Reachable(rules, routed, ds, |ds|), MAX_HUMAN_DESTINATIONS)
  {
    ChainIsPrefix(rules, routed, ds, n, |ds|);
  }

  function SeenKeys(rules: Rules, ds: seq<Destination>, n: nat): set<(Kind, string)>
    requires n <= |ds|
  {
    if n == 0 then {} else SeenKeys(rules, ds, n - 1) + {KeyOf(rules, ds[n - 1])}
  }

  /** A key has been seen exactly when an entry so far has it. */
  lemma {:induction false} SeenIsRepeat(rules: Rules, ds: seq<Destination>, n: nat, i: nat)
    requires n <= i < |ds|
    ensures KeyOf(rules, ds[i]) in SeenKeys(rules, ds, n)
      <==> exists j :: 0 <= j < n && KeyOf(rules, ds[j]) == KeyOf(rules, ds[i])
  {
    if n > 0 {
      SeenIsRepeat(rules, ds, n - 1, i);
    }
  }
}
