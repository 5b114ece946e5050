/** Which provider rule tables settle every record: a condition on the table alone. */
module ProviderTables {
  import opened Wrappers
  import opened Json
  import opened ModelFields
  import opened ProviderClosure
  import opened ProviderIdempotence
  import opened ProviderKept
  import opened ProviderRestored

  /** A record of this provider that closes; unless `foreign`, no entry cites another domain's rule. */
  ghost predicate Admissible(table: Table, providerId: string, foreign: bool, r: Provider) {
    Closes(r) && ProviderId(r) == providerId && (foreign || OwnDomains(table, r.provenance))
  }

  /** Two rules give the fields they share the same values. */
  ghost predicate Agree(engine: Engine, a: Rule, b: Rule) {
    forall p :: p in a.values && p in b.values ==> Canonical(engine.encode, a.values[p]) == Canonical(engine.encode, b.values[p])
  }

  /** Discarding a domain `e` that cites `b` empties a field that `a` owns, where the stored value is spelled as
      in `b`; the first rule for `e` then has to assign that field again. */
  ghost predicate GivesBack(engine: Engine, table: Table, providerId: string, a: Rule, b: Rule, e: Domain) {
    forall p :: p in a.values && p in b.values && b.values[p] == Canonical(engine.encode, a.values[p]) != Arr([]) ==>
      && Closer(engine, providerId, table.providerRules, e).Some?
      && p in Closer(engine, providerId, table.providerRules, e).value.values
  }

  /** Rule `a` is not disturbed when domain `e` is discarded or closed. */
  ghost predicate Undisturbed(engine: Engine, table: Table, providerId: string, foreign: bool, a: Rule, e: Domain) {
    && (Closer(engine, providerId, table.providerRules, e).Some? ==>
          Agree(engine, a, Closer(engine, providerId, table.providerRules, e).value))
    && forall j :: 0 <= j < |table.providerRules| && (foreign || table.providerRules[j].domain == Some(e)) ==>
         GivesBack(engine, table, providerId, a, table.providerRules[j], e)
  }

  predicate Matching(engine: Engine, a: Rule, providerId: string, e: Domain) {
    RuleMatches(engine, a, providerId, "") && a.domain != Some(e) && !e.OtherDomain?
  }

  /** No rule that matches the provider is disturbed by another domain. */
  ghost predicate Harmonious(engine: Engine, table: Table, providerId: string, foreign: bool) {
    forall i, e: Domain :: 0 <= i < |table.providerRules| && Matching(engine, table.providerRules[i], providerId, e) ==>
      Undisturbed(engine, table, providerId, foreign, table.providerRules[i], e)
  }

  // ---------- what discarding leaves ----------

  /** Domain `e` was discarded, and the rule it cites spells the value of field `p` as `v`. */
  ghost predicate EmptiedBy(table: Table, r: Provider, y: Provider, e: Domain, p: Path, v: Json) {
    && e in r.provenance && e !in y.provenance
    && EntryRule(table, r.provenance[e]).Some?
    && p in EntryRule(table, r.provenance[e]).value.values && EntryRule(table, r.provenance[e]).value.values[p] == v
  }

  ghost predicate HeldOrEmptied(table: Table, r: Provider, y: Provider, p: Path, v: Json) {
    Get(y.fields, p) == v || (v != Arr([]) && exists e :: EmptiedBy(table, r, y, e, p, v))
  }

  lemma {:induction false} FieldHeldOrEmptied(engine: Engine, table: Table, r: Provider, order: seq<Domain>, p: Path, v: Json)
    requires ProviderTable(table) && Get(r.fields, p) == v
    ensures HeldOrEmptied(table, r, DropStale(engine, table, r, order), p, v)
    decreases order
  {
    if order != [] {
      var next := DropOne(engine, table, r, order[0]);
      var y := DropStale(engine, table, next, order[1..]);
      DropStaleShrinks(engine, table, next, order[1..]);
      if Get(next.fields, p) == v {
        FieldHeldOrEmptied(engine, table, next, order[1..], p, v);
        if Get(y.fields, p) != v {
          var e :| EmptiedBy(table, next, y, e, p, v);
          assert EmptiedBy(table, r, y, e, p, v);
        }
      } else {
        assert EmptiedBy(table, r, y, order[0], p, v);
      }
    }
  }

  /** A surviving domain: its rule still applies, and its fields hold its values or were emptied since. */
  ghost predicate Survivor(engine: Engine, table: Table, r: Provider, y: Provider, d: Domain, rule: Rule) {
    && d in y.provenance && StillApplies(engine, table, y.provenance[d], "provider", ProviderId(r), "") && EntryRule(table, y.provenance[d]) == Some(rule)
    && rule.domain == Some(d) && Level(y, d) == Declared(rule)
    && forall p :: p in rule.values ==> HeldOrEmptied(table, r, y, p, Canonical(engine.encode, rule.values[p]))
  }

  lemma {:induction false} SurvivorFacts(engine: Engine, table: Table, r: Provider, order: seq<Domain>, d: Domain) returns (rule: Rule)
    requires ProviderTable(table) && d in order && d in DropStale(engine, table, r, order).provenance
    ensures Survivor(engine, table, r, DropStale(engine, table, r, order), d, rule)
    decreases order
  {
    var next := DropOne(engine, table, r, order[0]);
    var y := DropStale(engine, table, next, order[1..]);
    DropStaleShrinks(engine, table, r, order);
    DropStaleShrinks(engine, table, next, order[1..]);
    if order[0] == d {
      assert next == r && Keeps(engine, table, r, d, r.provenance[d]);
      rule := EntryRule(table, r.provenance[d]).value;
      forall p | p in rule.values
        ensures HeldOrEmptied(table, r, y, p, Canonical(engine.encode, rule.values[p]))
      {
        FieldHeldOrEmptied(engine, table, r, order[1..], p, Canonical(engine.encode, rule.values[p]));
      }
    } else {
      if order[0] in r.provenance { DiscardKeepsId(table, r, order[0]); }
      rule := SurvivorFacts(engine, table, next, order[1..], d);
      forall p | p in rule.values
        ensures HeldOrEmptied(table, r, y, p, Canonical(engine.encode, rule.values[p]))
      {
        HeldFromNext(engine, table, r, order[0], y, p, Canonical(engine.encode, rule.values[p]));
      }
    }
  }

  lemma HeldFromNext(engine: Engine, table: Table, r: Provider, first: Domain, y: Provider, p: Path, v: Json)
    requires HeldOrEmptied(table, DropOne(engine, table, r, first), y, p, v)
    ensures HeldOrEmptied(table, r, y, p, v)
  {
    if Get(y.fields, p) != v {
      var e :| EmptiedBy(table, DropOne(engine, table, r, first), y, e, p, v);
      assert EmptiedBy(table, r, y, e, p, v);
    }
  }

  // ---------- what closing does ----------

  /** A domain that can be closed has met none of the rules so far: the first one left is the first of all. */
  ghost predicate Unmet(engine: Engine, providerId: string, all: seq<Rule>, rest: seq<Rule>, r: Provider) {
    forall g: Domain :: !g.OtherDomain? && g !in r.provenance && Level(r, g) in {Str("missing"), Str("partial")} ==>
      Closer(engine, providerId, rest, g) == Closer(engine, providerId, all, g)
  }

  lemma UnmetNext(engine: Engine, providerId: string, all: seq<Rule>, rest: seq<Rule>, r: Provider)
    requires rest != [] && Unmet(engine, providerId, all, rest, r)
    ensures Unmet(engine, providerId, all, rest[1..], ApplyOne(engine, providerId, r, rest[0]))
    ensures Fires(engine, providerId, r, rest[0]) ==> Closer(engine, providerId, all, rest[0].domain.value) == Some(rest[0])
  {
  }

  /** Field `p` is about to be assigned: domain `e` is open and the first rule left for it assigns it. */
  ghost predicate Coming(engine: Engine, providerId: string, rest: seq<Rule>, r: Provider, e: Domain, p: Path) {
    && !e.OtherDomain? && e !in r.provenance && Level(r, e) == Str("missing")
    && Closer(engine, providerId, rest, e).Some? && p in Closer(engine, providerId, rest, e).value.values
  }

  /** The rules that close the other domains give the fields of `a` its values. */
  ghost predicate Unharmed(engine: Engine, providerId: string, all: seq<Rule>, a: Rule, d: Domain) {
    forall g: Domain :: g != d && !g.OtherDomain? && Closer(engine, providerId, all, g).Some? ==>
      Agree(engine, a, Closer(engine, providerId, all, g).value)
  }

  lemma {:induction false} HeldToTheEnd(engine: Engine, providerId: string, all: seq<Rule>, rest: seq<Rule>, r: Provider, a: Rule, d: Domain, p: Path, e: Domain)
    requires Unmet(engine, providerId, all, rest, r) && Unharmed(engine, providerId, all, a, d) && d in r.provenance && p in a.values
    requires Get(r.fields, p) == Canonical(engine.encode, a.values[p]) || Coming(engine, providerId, rest, r, e, p)
    ensures Get(ApplyRules(engine, providerId, r, rest).fields, p) == Canonical(engine.encode, a.values[p])
    decreases rest
  {
    if rest != [] {
      UnmetNext(engine, providerId, all, rest, r);
      var next := ApplyOne(engine, providerId, r, rest[0]);
      assert Fires(engine, providerId, r, rest[0]) ==> Agree(engine, a, rest[0]);
      HeldToTheEnd(engine, providerId, all, rest[1..], next, a, d, p, e);
    }
  }

  lemma {:induction false} LevelStays(engine: Engine, providerId: string, r: Provider, rules: seq<Rule>, d: Domain)
    requires d in r.provenance
    ensures Level(ApplyRules(engine, providerId, r, rules), d) == Level(r, d)
    decreases rules
  {
    if rules != [] {
      LevelStays(engine, providerId, ApplyOne(engine, providerId, r, rules[0]), rules[1..], d);
    }
  }

  /** A domain that is closed in the pass ends as its rule assigns it. */
  lemma {:induction false} FiredMatches(engine: Engine, table: Table, providerId: string, foreign: bool, r: Provider, rest: seq<Rule>, d: Domain)
    requires ProviderTable(table) && Harmonious(engine, table, providerId, foreign) && AcceptsEmptyId(engine, table, providerId)
    requires Unmet(engine, providerId, table.providerRules, rest, r) && forall i :: 0 <= i < |rest| ==> rest[i] in table.providerRules
    requires d !in r.provenance && d in ApplyRules(engine, providerId, r, rest).provenance
    ensures var z := ApplyRules(engine, providerId, r, rest);
            EntryRule(table, z.provenance[d]).Some? && DomainMatches(engine, z, d, EntryRule(table, z.provenance[d]).value)
    decreases rest
  {
    var all := table.providerRules;
    var next := ApplyOne(engine, providerId, r, rest[0]);
    UnmetNext(engine, providerId, all, rest, r);
    if d in next.provenance {
      var a := rest[0];
      AppliedKeeps(engine, providerId, next, rest[1..], d);
      LevelStays(engine, providerId, next, rest[1..], d);
      ProviderRuleIsFound(table, a);
      RuleIsUnharmed(engine, table, providerId, foreign, a, d);
      forall p | p in a.values
        ensures Get(ApplyRules(engine, providerId, next, rest[1..]).fields, p) == Canonical(engine.encode, a.values[p])
      {
        HeldToTheEnd(engine, providerId, all, rest[1..], next, a, d, p, d);
      }
    } else {
      FiredMatches(engine, table, providerId, foreign, next, rest[1..], d);
    }
  }

  lemma RuleIsUnharmed(engine: Engine, table: Table, providerId: string, foreign: bool, a: Rule, d: Domain)
    requires Harmonious(engine, table, providerId, foreign) && a in table.providerRules && RuleMatches(engine, a, providerId, "") && a.domain == Some(d)
    ensures Unharmed(engine, providerId, table.providerRules, a, d)
  {
    var i :| 0 <= i < |table.providerRules| && table.providerRules[i] == a;
    forall g: Domain | g != d && !g.OtherDomain? && Closer(engine, providerId, table.providerRules, g).Some?
      ensures Agree(engine, a, Closer(engine, providerId, table.providerRules, g).value)
    {
      assert Undisturbed(engine, table, providerId, foreign, table.providerRules[i], g);
    }
  }

  /** A field emptied under a surviving domain is about to be given back. */
  lemma EmptiedIsComing(engine: Engine, table: Table, providerId: string, foreign: bool, r: Provider, order: seq<Domain>, a: Rule, d: Domain, e: Domain, p: Path)
    requires ProviderTable(table) && Harmonious(engine, table, providerId, foreign) && Admissible(table, providerId, foreign, r)
    requires a in table.providerRules && RuleMatches(engine, a, providerId, "") && a.domain == Some(d) && p in a.values
    requires d in DropStale(engine, table, r, order).provenance && Canonical(engine.encode, a.values[p]) != Arr([])
    requires EmptiedBy(table, r, DropStale(engine, table, r, order), e, p, Canonical(engine.encode, a.values[p]))
    ensures Coming(engine, providerId, table.providerRules, DropStale(engine, table, r, order), e, p)
  {
    DropStaleShrinks(engine, table, r, order);
    var b := EntryRule(table, r.provenance[e]).value;
    RuleOrigin(table, r.provenance[e]);
    ProviderPayload(table, a);
    var i :| 0 <= i < |table.providerRules| && table.providerRules[i] == a;
    var j :| 0 <= j < |table.providerRules| && table.providerRules[j] == b;
    assert Undisturbed(engine, table, providerId, foreign, table.providerRules[i], e);
    assert GivesBack(engine, table, providerId, a, table.providerRules[j], e);
  }

  lemma SurvivorMatches(engine: Engine, table: Table, providerId: string, foreign: bool, r: Provider, order: seq<Domain>, d: Domain)
    requires ProviderTable(table) && Harmonious(engine, table, providerId, foreign) && Admissible(table, providerId, foreign, r)
    requires AcceptsEmptyId(engine, table, providerId)
    requires d in order && d in DropStale(engine, table, r, order).provenance
    ensures var once := Closed(engine, table, r, order); d in once.provenance && Keeps(engine, table, once, d, once.provenance[d])
  {
    var y := DropStale(engine, table, r, order);
    var all := table.providerRules;
    var a := SurvivorFacts(engine, table, r, order, d);
    RuleOrigin(table, y.provenance[d]);
    AppliedKeeps(engine, providerId, y, all, d);
    LevelStays(engine, providerId, y, all, d);
    ClosedKeepsId(engine, table, r, order);
    RuleIsUnharmed(engine, table, providerId, foreign, a, d);
    forall p | p in a.values
      ensures Get(ApplyRules(engine, providerId, y, all).fields, p) == Canonical(engine.encode, a.values[p])
    {
      assert HeldOrEmptied(table, r, y, p, Canonical(engine.encode, a.values[p]));
      if Get(y.fields, p) == Canonical(engine.encode, a.values[p]) {
        HeldToTheEnd(engine, providerId, all, all, y, a, d, p, d);
      } else {
        var e :| EmptiedBy(table, r, y, e, p, Canonical(engine.encode, a.values[p]));
        EmptiedIsComing(engine, table, providerId, foreign, r, order, a, d, e, p);
        HeldToTheEnd(engine, providerId, all, all, y, a, d, p, e);
      }
    }
  }

  /** A harmonious table leaves every recorded domain as its rule assigns it. */
  lemma HarmoniousIsKept(engine: Engine, table: Table, providerId: string, foreign: bool, r: Provider, order: seq<Domain>)
    requires ProviderTable(table) && Harmonious(engine, table, providerId, foreign) && Admissible(table, providerId, foreign, r)
    requires AcceptsEmptyId(engine, table, providerId) && IsOrderOf(order, r.provenance.Keys)
    ensures AllKept(engine, table, Closed(engine, table, r, order))
  {
    var y := DropStale(engine, table, r, order);
    var once := Closed(engine, table, r, order);
    DropStaleShrinks(engine, table, r, order);
    forall d | d in once.provenance
      ensures Keeps(engine, table, once, d, once.provenance[d])
    {
      if d in y.provenance {
        assert d in order;
        SurvivorMatches(engine, table, providerId, foreign, r, order, d);
      } else {
        FiredIsKept(engine, table, providerId, foreign, r, order, d);
      }
    }
  }

  lemma FiredIsKept(engine: Engine, table: Table, providerId: string, foreign: bool, r: Provider, order: seq<Domain>, d: Domain)
    requires ProviderTable(table) && Harmonious(engine, table, providerId, foreign) && Admissible(table, providerId, foreign, r)
    requires AcceptsEmptyId(engine, table, providerId)
    requires d !in DropStale(engine, table, r, order).provenance && d in Closed(engine, table, r, order).provenance
    ensures Keeps(engine, table, Closed(engine, table, r, order), d, Closed(engine, table, r, order).provenance[d])
  {
    var y := DropStale(engine, table, r, order);
    FiredMatches(engine, table, providerId, foreign, y, table.providerRules, d);
    AppliedCites(engine, providerId, y, table.providerRules, d);
    ClosedKeepsId(engine, table, r, order);
    CitedStillApplies(engine, table, providerId, d, Closed(engine, table, r, order).provenance[d]);
  }

  // ---------- a table that is not harmonious ----------

  /** The fields of a provider that rule `a` assigned. */
  function Holding(engine: Engine, providerId: string, a: Rule): map<Path, Json> {
    (map p | p in a.values :: Canonical(engine.encode, a.values[p]))[Named("provider_id") := Str(providerId)]
  }

  lemma {:induction false} OnlyCloserAssigns(engine: Engine, providerId: string, rules: seq<Rule>, e: Domain, p: Path, cell: Option<Json>)
    ensures CellAfter(engine, providerId, rules, {e}, p, cell) ==
      match Closer(engine, providerId, rules, e)
      case Some(b) => if p in b.values then Some(Canonical(engine.encode, b.values[p])) else cell
      case None => cell
  {
    if rules != [] {
      if Reopens(engine, providerId, {e}, rules[0]) {
        NothingOpenAssigns(engine, providerId, rules[1..], p, if p in rules[0].values then Some(Canonical(engine.encode, rules[0].values[p])) else cell);
        assert {e} - {rules[0].domain.value} == {};
      } else {
        OnlyCloserAssigns(engine, providerId, rules[1..], e, p, cell);
      }
    }
  }

  lemma {:induction false} NothingOpenAssigns(engine: Engine, providerId: string, rules: seq<Rule>, p: Path, cell: Option<Json>)
    ensures CellAfter(engine, providerId, rules, {}, p, cell) == cell
  {
    if rules != [] { NothingOpenAssigns(engine, providerId, rules[1..], p, cell); }
  }

  /** With one closed and one open domain, only the first rule for the open one is applied. */
  lemma OneIsClosed(engine: Engine, table: Table, providerId: string, y: Provider, d: Domain, e: Domain, p: Path)
    requires ProviderTable(table) && d != e && !e.OtherDomain?
    requires y.provenance.Keys == {d} && y.completeness.Keys == {d, e} && Level(y, e) == Str("missing")
    ensures var z := ApplyRules(engine, providerId, y, table.providerRules);
            && d in z.provenance && z.provenance[d] == y.provenance[d]
            && Get(z.fields, p) == match Closer(engine, providerId, table.providerRules, e)
                                   case Some(b) => (if p in b.values then Canonical(engine.encode, b.values[p]) else Get(y.fields, p))
                                   case None => Get(y.fields, p)
  {
    assert OpenAre(engine, providerId, y, table.providerRules, {e});
    AppliedKeeps(engine, providerId, y, table.providerRules, d);
    ReplayedCell(engine, providerId, y, table.providerRules, {e}, p);
    OnlyCloserAssigns(engine, providerId, table.providerRules, e, p, CellOf(y.fields, p));
    var z := ApplyRules(engine, providerId, y, table.providerRules);
    assert Get(z.fields, p) == ValueOf(CellOf(z.fields, p)) && Get(y.fields, p) == ValueOf(CellOf(y.fields, p));
  }

  lemma HoldingFacts(engine: Engine, table: Table, providerId: string, a: Rule)
    requires ProviderTable(table) && a in table.providerRules
    ensures forall p :: p in a.values ==> Get(Holding(engine, providerId, a), p) == Canonical(engine.encode, a.values[p])
    ensures Text(Get(Holding(engine, providerId, a), Named("provider_id"))) == providerId
    ensures RuleFor(table, Str(a.key)) == Some(a) && WellFormedEntry(NewEntry(a)) && EntryRule(table, NewEntry(a)) == Some(a)
    ensures a.domain.Some? && !a.domain.value.OtherDomain?
  {
    ProviderPayload(table, a);
    ProviderRuleIsFound(table, a);
  }

  /** A domain closed by `a`, and another one open. */
  function OpenBeside(engine: Engine, providerId: string, a: Rule, d: Domain, e: Domain): Provider {
    Provider(Holding(engine, providerId, a), map[d := Declared(a), e := Str("missing")], map[d := NewEntry(a)], [])
  }

  lemma OpenIsAdmissible(engine: Engine, table: Table, providerId: string, foreign: bool, a: Rule, d: Domain, e: Domain)
    requires ProviderTable(table) && a in table.providerRules && a.domain == Some(d) && d != e
    ensures var r := OpenBeside(engine, providerId, a, d, e); Admissible(table, providerId, foreign, r) && IsOrderOf([d], r.provenance.Keys)
  {
    HoldingFacts(engine, table, providerId, a);
  }

  lemma Overwritten(engine: Engine, table: Table, providerId: string, a: Rule, d: Domain, e: Domain, p: Path)
    requires ProviderTable(table) && a in table.providerRules && RuleMatches(engine, a, providerId, "")
    requires a.domain == Some(d) && d != e && !e.OtherDomain?
    requires Closer(engine, providerId, table.providerRules, e).Some? && p in a.values
    requires var b := Closer(engine, providerId, table.providerRules, e).value;
             p in b.values && Canonical(engine.encode, a.values[p]) != Canonical(engine.encode, b.values[p])
    ensures var r := OpenBeside(engine, providerId, a, d, e);
            !AllKept(engine, table, Closed(engine, table, r, [d]))
  {
    var r := OpenBeside(engine, providerId, a, d, e);
    HoldingFacts(engine, table, providerId, a);
    assert Keeps(engine, table, r, d, r.provenance[d]);
    assert [d][1..] == [];
    assert DropStale(engine, table, r, [d]) == DropStale(engine, table, r, []) == r;
    OneIsClosed(engine, table, providerId, r, d, e, p);
    var once := Closed(engine, table, r, [d]);
    assert Get(once.fields, p) != Canonical(engine.encode, a.values[p]);
    assert !Keeps(engine, table, once, d, once.provenance[d]);
  }

  function Another(v: Json): Json {
    if v == Str("missing") then Str("partial") else Str("missing")
  }

  /** A domain closed by `a`, and another one that cites `b` at a level that `b` does not declare. */
  function StaleBeside(engine: Engine, providerId: string, a: Rule, b: Rule, d: Domain, e: Domain): Provider {
    Provider(Holding(engine, providerId, a), map[d := Declared(a), e := Another(Declared(b))], map[d := NewEntry(a), e := NewEntry(b)], [])
  }

  lemma StaleIsAdmissible(engine: Engine, table: Table, providerId: string, foreign: bool, a: Rule, b: Rule, d: Domain, e: Domain)
    requires ProviderTable(table) && a in table.providerRules && b in table.providerRules
    requires a.domain == Some(d) && d != e && !e.OtherDomain? && (foreign || b.domain == Some(e))
    ensures var r := StaleBeside(engine, providerId, a, b, d, e);
            Admissible(table, providerId, foreign, r) && IsOrderOf([d, e], r.provenance.Keys)
  {
    var r := StaleBeside(engine, providerId, a, b, d, e);
    HoldingFacts(engine, table, providerId, a);
    HoldingFacts(engine, table, providerId, b);
    TwoEntries(table, r.provenance, a, b, d, e);
    assert r.provenance.Keys == {d, e};
  }

  lemma TwoEntries(table: Table, provenance: map<Domain, Json>, a: Rule, b: Rule, d: Domain, e: Domain)
    requires provenance == map[d := NewEntry(a), e := NewEntry(b)] && d != e && !d.OtherDomain? && !e.OtherDomain?
    requires EntryRule(table, NewEntry(a)) == Some(a) && EntryRule(table, NewEntry(b)) == Some(b) && a.domain == Some(d)
    requires WellFormedEntry(NewEntry(a)) && WellFormedEntry(NewEntry(b))
    ensures forall g :: g in provenance ==> WellFormedEntry(provenance[g]) && !g.OtherDomain?
    ensures b.domain == Some(e) ==> OwnDomains(table, provenance)
  {
  }

  lemma StaleIsDropped(engine: Engine, table: Table, providerId: string, a: Rule, b: Rule, d: Domain, e: Domain, p: Path)
    requires ProviderTable(table) && a in table.providerRules && b in table.providerRules && RuleMatches(engine, a, providerId, "")
    requires a.domain == Some(d) && d != e && p in a.values && p in b.values
    requires b.values[p] == Canonical(engine.encode, a.values[p])
    ensures var r := StaleBeside(engine, providerId, a, b, d, e);
            var y := DropStale(engine, table, r, [d, e]);
            && y == Discard(table, r, e, NewEntry(b)) && Get(y.fields, p) == Arr([]) && y.provenance == map[d := NewEntry(a)]
  {
    var r := StaleBeside(engine, providerId, a, b, d, e);
    HoldingFacts(engine, table, providerId, a);
    HoldingFacts(engine, table, providerId, b);
    DropTwo(engine, table, r, d, e);
    assert Keeps(engine, table, r, d, r.provenance[d]);
    assert !Keeps(engine, table, r, e, r.provenance[e]);
    assert Discard(table, r, e, NewEntry(b)).provenance == map[d := NewEntry(a)];
  }

  lemma EmptiedForGood(engine: Engine, table: Table, providerId: string, a: Rule, b: Rule, d: Domain, e: Domain, p: Path)
    requires ProviderTable(table) && a in table.providerRules && b in table.providerRules && RuleMatches(engine, a, providerId, "")
    requires a.domain == Some(d) && d != e && !e.OtherDomain? && p in a.values && p in b.values
    requires b.values[p] == Canonical(engine.encode, a.values[p]) != Arr([])
    requires Closer(engine, providerId, table.providerRules, e).Some? ==> p !in Closer(engine, providerId, table.providerRules, e).value.values
    ensures var r := StaleBeside(engine, providerId, a, b, d, e);
            !AllKept(engine, table, Closed(engine, table, r, [d, e]))
  {
    var r := StaleBeside(engine, providerId, a, b, d, e);
    HoldingFacts(engine, table, providerId, a);
    StaleIsDropped(engine, table, providerId, a, b, d, e, p);
    OneIsClosed(engine, table, providerId, DropStale(engine, table, r, [d, e]), d, e, p);
    var once := Closed(engine, table, r, [d, e]);
    assert Get(once.fields, p) == Arr([]);
    assert !Keeps(engine, table, once, d, once.provenance[d]);
  }

  /** Every admissible record is settled by one pass, whatever the order. */
  ghost predicate SettlesAll(engine: Engine, table: Table, providerId: string, foreign: bool) {
    forall r, order :: Admissible(table, providerId, foreign, r) && IsOrderOf(order, r.provenance.Keys) ==>
      Settled(engine, table, Closed(engine, table, r, order))
  }

  lemma DisturbedUnsettles(engine: Engine, table: Table, providerId: string, foreign: bool, a: Rule, d: Domain, e: Domain)
    requires ProviderTable(table) && AcceptsEmptyId(engine, table, providerId)
    requires a in table.providerRules && RuleMatches(engine, a, providerId, "") && a.domain == Some(d) && d != e && !e.OtherDomain?
    requires !Undisturbed(engine, table, providerId, foreign, a, e)
    ensures !SettlesAll(engine, table, providerId, foreign)
  {
    var first := Closer(engine, providerId, table.providerRules, e);
    if first.Some? && !Agree(engine, a, first.value) {
      var p :| p in a.values && p in first.value.values && Canonical(engine.encode, a.values[p]) != Canonical(engine.encode, first.value.values[p]);
      Overwritten(engine, table, providerId, a, d, e, p);
      OpenIsAdmissible(engine, table, providerId, foreign, a, d, e);
      FixpointIff(engine, table, OpenBeside(engine, providerId, a, d, e), [d]);
    } else {
      var j :| 0 <= j < |table.providerRules| && (foreign || table.providerRules[j].domain == Some(e))
               && !GivesBack(engine, table, providerId, a, table.providerRules[j], e);
      var b := table.providerRules[j];
      var p :| p in a.values && p in b.values && b.values[p] == Canonical(engine.encode, a.values[p]) != Arr([])
               && !(first.Some? && p in first.value.values);
      EmptiedForGood(engine, table, providerId, a, b, d, e, p);
      StaleIsAdmissible(engine, table, providerId, foreign, a, b, d, e);
      FixpointIff(engine, table, StaleBeside(engine, providerId, a, b, d, e), [d, e]);
    }
  }

  /** A table settles every record of a provider with one pass if and only if no two of its rules are at odds. */
  lemma TableSettlesIff(engine: Engine, table: Table, providerId: string, foreign: bool)
    requires ProviderTable(table) && AcceptsEmptyId(engine, table, providerId)
    ensures SettlesAll(engine, table, providerId, foreign) <==> Harmonious(engine, table, providerId, foreign)
  {
    if Harmonious(engine, table, providerId, foreign) {
      forall r, order | Admissible(table, providerId, foreign, r) && IsOrderOf(order, r.provenance.Keys)
        ensures Settled(engine, table, Closed(engine, table, r, order))
      {
        HarmoniousIsKept(engine, table, providerId, foreign, r, order);
        FixpointIff(engine, table, r, order);
      }
    } else {
      var i, e: Domain :| 0 <= i < |table.providerRules| && Matching(engine, table.providerRules[i], providerId, e)
        && !Undisturbed(engine, table, providerId, foreign, table.providerRules[i], e);
      DisturbedUnsettles(engine, table, providerId, foreign, table.providerRules[i], table.providerRules[i].domain.value, e);
    }
  }

  // ---------- tables without shared fields ----------

  lemma DisjointIsHarmonious(engine: Engine, table: Table, providerId: string)
    requires ProviderTable(table) && DisjointDomains(table)
    ensures Harmonious(engine, table, providerId, false)
  {
    forall i, e: Domain | 0 <= i < |table.providerRules| && Matching(engine, table.providerRules[i], providerId, e)
      ensures Undisturbed(engine, table, providerId, false, table.providerRules[i], e)
    {
      var a := table.providerRules[i];
      CloserFacts(engine, providerId, table.providerRules, e);
      var first := Closer(engine, providerId, table.providerRules, e);
      if first.Some? { DifferentDomainsDiffer(table, a, first.value); }
      forall j | 0 <= j < |table.providerRules| && table.providerRules[j].domain == Some(e)
        ensures GivesBack(engine, table, providerId, a, table.providerRules[j], e)
      {
        DifferentDomainsDiffer(table, a, table.providerRules[j]);
      }
    }
  }

  lemma {:induction false} CloserFacts(engine: Engine, providerId: string, rules: seq<Rule>, e: Domain)
    ensures Closer(engine, providerId, rules, e).Some? ==>
              Closer(engine, providerId, rules, e).value in rules && Closer(engine, providerId, rules, e).value.domain == Some(e)
  {
    if rules != [] { CloserFacts(engine, providerId, rules[1..], e); }
  }

  /** A rule whose model pattern rejects the empty id is discarded and applied again by every pass: without
      shared fields the record is settled although the domain is never kept. */
  lemma RejectedRuleSettles(engine: Engine, table: Table, r: Provider, order: seq<Domain>, d: Domain)
    requires ProviderTable(table) && DisjointDomains(table) && OwnDomains(table, r.provenance) && Closes(r)
    requires IsOrderOf(order, r.provenance.Keys)
    requires var once := Closed(engine, table, r, order);
             && d in once.provenance && EntryRule(table, once.provenance[d]).Some?
             && !RuleMatches(engine, EntryRule(table, once.provenance[d]).value, ProviderId(r), "")
    ensures var once := Closed(engine, table, r, order); Settled(engine, table, once) && !AllKept(engine, table, once)
  {
    var once := Closed(engine, table, r, order);
    ClosedKeepsId(engine, table, r, order);
    assert !Keeps(engine, table, once, d, once.provenance[d]);
    forall again | IsOrderOf(again, once.provenance.Keys)
      ensures Closed(engine, table, once, again) == once
    {
      ProviderFixpoint(engine, table, r, order, again);
    }
  }
}
