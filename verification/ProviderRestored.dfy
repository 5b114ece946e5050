/** Exactly when one particular second pass changes nothing: what it discards, it must close again as it was. */
module ProviderRestored {
  import opened Wrappers
  import opened Json
  import opened ModelFields
  import opened ProviderClosure
  import opened ProviderIdempotence
  import opened ProviderKept

  /** The rule concerns this provider and closes one of the open domains. */
  predicate Reopens(engine: Engine, providerId: string, open: set<Domain>, rule: Rule) {
    && rule.providerPattern.Some? && engine.search(rule.providerPattern.value, providerId)
    && rule.domain.Some? && rule.domain.value in open
  }

  /** The first rule for a domain: the only one that can close it once its level is missing. */
  function Closer(engine: Engine, providerId: string, rules: seq<Rule>, d: Domain): Option<Rule> {
    if rules == [] then None
    else if Reopens(engine, providerId, {d}, rules[0]) then Some(rules[0])
    else Closer(engine, providerId, rules[1..], d)
  }

  /** What a field holds after each open domain was closed by its first rule, in table order. */
  function CellAfter(engine: Engine, providerId: string, rules: seq<Rule>, open: set<Domain>, p: Path, cell: Option<Json>): Option<Json> {
    if rules == [] then cell
    else if Reopens(engine, providerId, open, rules[0]) then
      CellAfter(engine, providerId, rules[1..], open - {rules[0].domain.value}, p,
                if p in rules[0].values then Some(Canonical(engine.encode, rules[0].values[p])) else cell)
    else CellAfter(engine, providerId, rules[1..], open, p, cell)
  }

  /** The open domains can be closed, and no rule can close another one. */
  ghost predicate OpenAre(engine: Engine, providerId: string, r: Provider, rules: seq<Rule>, open: set<Domain>) {
    && (forall d :: d in open ==> !d.OtherDomain? && d !in r.provenance && Level(r, d) == Str("missing"))
    && (forall i :: 0 <= i < |rules| && rules[i].domain.Some? && rules[i].domain.value !in open ==> !Fires(engine, providerId, r, rules[i]))
  }

  lemma OpenFires(engine: Engine, providerId: string, r: Provider, rules: seq<Rule>, open: set<Domain>)
    requires OpenAre(engine, providerId, r, rules, open) && rules != []
    ensures Fires(engine, providerId, r, rules[0]) <==> Reopens(engine, providerId, open, rules[0])
  {
  }

  lemma OpenNext(engine: Engine, providerId: string, r: Provider, rules: seq<Rule>, open: set<Domain>)
    requires OpenAre(engine, providerId, r, rules, open) && rules != []
    ensures OpenAre(engine, providerId, ApplyOne(engine, providerId, r, rules[0]), rules[1..],
              if Reopens(engine, providerId, open, rules[0]) then open - {rules[0].domain.value} else open)
  {
    OpenFires(engine, providerId, r, rules, open);
    assert forall i :: 0 <= i < |rules[1..]| ==> rules[1..][i] == rules[i + 1];
  }

  lemma {:induction false} ReplayedCell(engine: Engine, providerId: string, r: Provider, rules: seq<Rule>, open: set<Domain>, p: Path)
    requires OpenAre(engine, providerId, r, rules, open)
    ensures CellOf(ApplyRules(engine, providerId, r, rules).fields, p) == CellAfter(engine, providerId, rules, open, p, CellOf(r.fields, p))
    decreases rules
  {
    if rules != [] {
      OpenFires(engine, providerId, r, rules, open);
      OpenNext(engine, providerId, r, rules, open);
      var next := ApplyOne(engine, providerId, r, rules[0]);
      ReplayedCell(engine, providerId, next, rules[1..],
        if Reopens(engine, providerId, open, rules[0]) then open - {rules[0].domain.value} else open, p);
    }
  }

  lemma {:induction false} ReplayedClosed(engine: Engine, providerId: string, r: Provider, rules: seq<Rule>, open: set<Domain>, d: Domain)
    requires OpenAre(engine, providerId, r, rules, open) && d !in open
    ensures var z := ApplyRules(engine, providerId, r, rules);
            DomainCell(z.provenance, d) == DomainCell(r.provenance, d) && DomainCell(z.completeness, d) == DomainCell(r.completeness, d)
    decreases rules
  {
    if rules != [] {
      OpenFires(engine, providerId, r, rules, open);
      OpenNext(engine, providerId, r, rules, open);
      ReplayedClosed(engine, providerId, ApplyOne(engine, providerId, r, rules[0]), rules[1..],
        if Reopens(engine, providerId, open, rules[0]) then open - {rules[0].domain.value} else open, d);
    }
  }

  lemma {:induction false} ReplayedOpen(engine: Engine, providerId: string, r: Provider, rules: seq<Rule>, open: set<Domain>, d: Domain)
    requires OpenAre(engine, providerId, r, rules, open) && d in open
    ensures var z := ApplyRules(engine, providerId, r, rules);
            match Closer(engine, providerId, rules, d)
            case Some(rule) => DomainCell(z.provenance, d) == Some(NewEntry(rule)) && DomainCell(z.completeness, d) == Some(Declared(rule))
            case None => d !in z.provenance
    decreases rules
  {
    if rules != [] {
      OpenFires(engine, providerId, r, rules, open);
      OpenNext(engine, providerId, r, rules, open);
      var next := ApplyOne(engine, providerId, r, rules[0]);
      if Reopens(engine, providerId, {d}, rules[0]) {
        ReplayedClosed(engine, providerId, next, rules[1..], open - {d}, d);
      } else {
        ReplayedOpen(engine, providerId, next, rules[1..],
          if Reopens(engine, providerId, open, rules[0]) then open - {rules[0].domain.value} else open, d);
      }
    }
  }

  /** Every domain the pass discards is closed again by the rule its entry cites, at the level it had, and
      the last such rule to assign a field gives it the value it had. */
  ghost predicate Restores(engine: Engine, table: Table, r: Provider, again: seq<Domain>) {
    var y := DropStale(engine, table, r, again);
    var gone := r.provenance.Keys - y.provenance.Keys;
    && (forall d :: d in gone ==> ClosedAsBefore(r, d, Closer(engine, ProviderId(r), table.providerRules, d)))
    && (forall p :: CellAfter(engine, ProviderId(r), table.providerRules, gone, p, CellOf(y.fields, p)) == CellOf(r.fields, p))
  }

  ghost predicate ClosedAsBefore(r: Provider, d: Domain, rule: Option<Rule>)
    requires d in r.provenance
  {
    rule.Some? && r.provenance[d] == NewEntry(rule.value) && DomainCell(r.completeness, d) == Some(Declared(rule.value))
  }

  lemma DroppedAreOpen(engine: Engine, table: Table, r: Provider, again: seq<Domain>)
    requires ProviderTable(table) && Closes(r) && Idle(engine, ProviderId(r), r, table.providerRules)
    ensures var y := DropStale(engine, table, r, again);
            OpenAre(engine, ProviderId(r), y, table.providerRules, r.provenance.Keys - y.provenance.Keys)
  {
    DropStaleShrinks(engine, table, r, again);
    var y := DropStale(engine, table, r, again);
    forall i | 0 <= i < |table.providerRules| && table.providerRules[i].domain.Some? && table.providerRules[i].domain.value !in r.provenance.Keys - y.provenance.Keys
      ensures !Fires(engine, ProviderId(r), y, table.providerRules[i])
    {
      assert !Fires(engine, ProviderId(r), r, table.providerRules[i]);
    }
  }

  lemma DropKeepsLevels(engine: Engine, table: Table, r: Provider, again: seq<Domain>, d: Domain)
    requires ProviderTable(table)
    requires d !in r.provenance || d in DropStale(engine, table, r, again).provenance
    ensures var y := DropStale(engine, table, r, again);
            DomainCell(y.provenance, d) == DomainCell(r.provenance, d) && DomainCell(y.completeness, d) == DomainCell(r.completeness, d)
    decreases again
  {
    DropStaleShrinks(engine, table, r, again);
    if again != [] {
      var next := DropOne(engine, table, r, again[0]);
      DropStaleShrinks(engine, table, next, again[1..]);
      DropKeepsLevels(engine, table, next, again[1..], d);
    }
  }

  lemma SameByCells(a: map<Domain, Json>, b: map<Domain, Json>)
    requires forall d :: DomainCell(a, d) == DomainCell(b, d)
    ensures a == b
  {
    forall d
      ensures d in a <==> d in b
      ensures d in a ==> a[d] == b[d]
    {
      assert DomainCell(a, d) == DomainCell(b, d);
    }
  }

  /** The replay, domain by domain. */
  lemma ReplayedDomain(engine: Engine, table: Table, r: Provider, again: seq<Domain>, d: Domain)
    requires ProviderTable(table) && Closes(r) && Idle(engine, ProviderId(r), r, table.providerRules)
    ensures var y := DropStale(engine, table, r, again);
            var z := ApplyRules(engine, ProviderId(r), y, table.providerRules);
            var same := DomainCell(z.provenance, d) == DomainCell(r.provenance, d) && DomainCell(z.completeness, d) == DomainCell(r.completeness, d);
            if d in r.provenance.Keys - y.provenance.Keys then same <==> ClosedAsBefore(r, d, Closer(engine, ProviderId(r), table.providerRules, d))
            else same
  {
    var y := DropStale(engine, table, r, again);
    var gone := r.provenance.Keys - y.provenance.Keys;
    DroppedAreOpen(engine, table, r, again);
    if d in gone {
      ReplayedOpen(engine, ProviderId(r), y, table.providerRules, gone, d);
    } else {
      DropStaleShrinks(engine, table, r, again);
      ReplayedClosed(engine, ProviderId(r), y, table.providerRules, gone, d);
      DropKeepsLevels(engine, table, r, again, d);
    }
  }

  lemma RestoresMeansSame(engine: Engine, table: Table, r: Provider, again: seq<Domain>)
    requires ProviderTable(table) && Closes(r) && Idle(engine, ProviderId(r), r, table.providerRules)
    ensures var z := ApplyRules(engine, ProviderId(r), DropStale(engine, table, r, again), table.providerRules);
            Restores(engine, table, r, again) <==> z.fields == r.fields && z.completeness == r.completeness && z.provenance == r.provenance
  {
    var y := DropStale(engine, table, r, again);
    var z := ApplyRules(engine, ProviderId(r), y, table.providerRules);
    var gone := r.provenance.Keys - y.provenance.Keys;
    DroppedAreOpen(engine, table, r, again);
    forall p
      ensures CellOf(z.fields, p) == CellAfter(engine, ProviderId(r), table.providerRules, gone, p, CellOf(y.fields, p))
    {
      ReplayedCell(engine, ProviderId(r), y, table.providerRules, gone, p);
    }
    forall d
      ensures DomainCell(z.provenance, d) == DomainCell(r.provenance, d) && DomainCell(z.completeness, d) == DomainCell(r.completeness, d)
              <==> (d in gone ==> ClosedAsBefore(r, d, Closer(engine, ProviderId(r), table.providerRules, d)))
    {
      ReplayedDomain(engine, table, r, again, d);
    }
    if Restores(engine, table, r, again) {
      MapsByCells(z.fields, r.fields);
      SameByCells(z.provenance, r.provenance);
      SameByCells(z.completeness, r.completeness);
    }
  }

  lemma SameScenarios(z: Provider, x: Provider)
    requires z.fields == x.fields && z.completeness == x.completeness
    ensures Scenarios(z) == Scenarios(x)
  {
  }

  /** One second pass over the result of a pass, in one order, changes nothing if and only if it restores
      what it discards: for any table and any entries, model patterns on provider rules included. */
  lemma FixpointInOrderIff(engine: Engine, table: Table, r: Provider, order: seq<Domain>, again: seq<Domain>)
    requires ProviderTable(table) && Closes(r)
    ensures var once := Closed(engine, table, r, order);
            Closed(engine, table, once, again) == once <==> Restores(engine, table, once, again)
  {
    var a := DropStale(engine, table, r, order);
    var once := Closed(engine, table, r, order);
    ClosedCloses(engine, table, r, order);
    ClosedKeepsId(engine, table, r, order);
    AppliedIsIdle(engine, ProviderId(r), a, table.providerRules);
    assert Idle(engine, ProviderId(once), once, table.providerRules);
    RestoresMeansSame(engine, table, once, again);
    var x := ApplyRules(engine, ProviderId(r), a, table.providerRules);
    var z := ApplyRules(engine, ProviderId(once), DropStale(engine, table, once, again), table.providerRules);
    if z.fields == x.fields && z.completeness == x.completeness && z.provenance == x.provenance {
      SameScenarios(z, x);
    }
  }

  // ---------- restored by accident ----------

  function TwinRule(key: string, pattern: string, d: Domain, f: string, v: Json, g: string, u: Json): Rule {
    Rule(key, "provider", None, Some(pattern), Some(d), None, map[Named(f) := v, Named(g) := u])
  }

  function OpenTwins(providerId: string): Provider {
    Provider(map[Named("provider_id") := Str(providerId)], map[Authentication := Str("missing"), Discovery := Str("missing")], map[], [])
  }

  lemma TwinsFire(engine: Engine, providerId: string, r: Provider, a: Rule, b: Rule, pattern: string)
    requires r.provenance == map[] && Level(r, Authentication) == Level(r, Discovery) == Str("missing")
    requires a.providerPattern == b.providerPattern == Some(pattern) && engine.search(pattern, providerId)
    requires a.domain == Some(Authentication) && b.domain == Some(Discovery)
    ensures ApplyRules(engine, providerId, r, [a, b]) == Assign(engine, Assign(engine, r, a), b)
  {
    TwoRules(engine, providerId, r, a, b);
    assert Fires(engine, providerId, r, a);
    assert Fires(engine, providerId, Assign(engine, r, a), b);
  }

  lemma TwinFields(engine: Engine, r: Provider, a: Rule, b: Rule)
    requires a.domain.Some? && b.domain.Some? && a.values.Keys == b.values.Keys
    ensures var x := Assign(engine, Assign(engine, r, a), b);
            && x.fields.Keys == r.fields.Keys + b.values.Keys
            && (forall p :: p in b.values ==> x.fields[p] == Canonical(engine.encode, b.values[p]))
            && (forall p :: p in r.fields && p !in b.values ==> x.fields[p] == r.fields[p])
  {
  }

  lemma TwinDomains(engine: Engine, r: Provider, a: Rule, b: Rule)
    requires a.domain == Some(Authentication) && b.domain == Some(Discovery) && r.provenance == map[]
    requires r.completeness.Keys == {Authentication, Discovery}
    ensures var x := Assign(engine, Assign(engine, r, a), b);
            && x.completeness == map[Authentication := Declared(a), Discovery := Declared(b)]
            && x.provenance == map[Authentication := NewEntry(a), Discovery := NewEntry(b)]
  {
    TwoUpdates(r.completeness, Authentication, Declared(a), Discovery, Declared(b));
    TwoUpdates(r.provenance, Authentication, NewEntry(a), Discovery, NewEntry(b));
  }

  /** Twins overwrite each other's fields: what they held before does not matter. */
  lemma TwinsOverwrite(engine: Engine, r: Provider, y: Provider, a: Rule, b: Rule)
    requires a.domain.Some? && b.domain.Some? && a.values.Keys == b.values.Keys
    requires y.fields.Keys == r.fields.Keys + b.values.Keys && forall x :: x in r.fields && x !in b.values ==> y.fields[x] == r.fields[x]
    ensures Assign(engine, Assign(engine, y, a), b).fields == Assign(engine, Assign(engine, r, a), b).fields
  {
    TwinFields(engine, r, a, b);
    TwinFields(engine, y, a, b);
  }

  lemma DiscardFrames(table: Table, r: Provider, d: Domain, rule: Rule)
    requires EntryRule(table, NewEntry(rule)) == Some(rule) && rule.values.Keys <= r.fields.Keys
    ensures var y := Discard(table, r, d, NewEntry(rule));
            && y.fields.Keys == r.fields.Keys && y.provenance == r.provenance - {d} && y.completeness == r.completeness[d := Str("missing")]
            && (forall x :: x in r.fields && x !in rule.values ==> y.fields[x] == r.fields[x])
            && (forall x :: x in rule.values && r.fields[x] == rule.values[x] ==> y.fields[x] == Arr([]))
  {
  }

  /** The first twin is discarded, and takes the value of a field they share with it. */
  lemma FirstTwinDropped(engine: Engine, table: Table, once: Provider, a: Rule, p: Path, q: Path)
    requires ProviderTable(table) && a in table.providerRules && a.values.Keys == {p, q} <= once.fields.Keys
    requires Authentication in once.provenance && once.provenance[Authentication] == NewEntry(a)
    requires once.fields[p] != Canonical(engine.encode, a.values[p]) && once.fields[q] == a.values[q]
    ensures var next := DropOne(engine, table, once, Authentication);
            && next == Discard(table, once, Authentication, NewEntry(a)) && next.fields.Keys == once.fields.Keys && next.fields[q] == Arr([])
            && forall x :: x in once.fields && x !in a.values ==> next.fields[x] == once.fields[x]
  {
    ProviderRuleIsFound(table, a);
    assert p in a.values;
    assert !Keeps(engine, table, once, Authentication, NewEntry(a));
    DiscardFrames(table, once, Authentication, a);
  }

  lemma SecondTwinDropped(engine: Engine, table: Table, next: Provider, b: Rule, p: Path, q: Path)
    requires ProviderTable(table) && b in table.providerRules && b.values.Keys == {p, q} <= next.fields.Keys
    requires Discovery in next.provenance && next.provenance[Discovery] == NewEntry(b)
    requires next.fields[q] == Arr([]) != Canonical(engine.encode, b.values[q])
    ensures var y := DropOne(engine, table, next, Discovery);
            && y == Discard(table, next, Discovery, NewEntry(b)) && y.fields.Keys == next.fields.Keys
            && forall x :: x in next.fields && x !in b.values ==> y.fields[x] == next.fields[x]
  {
    ProviderRuleIsFound(table, b);
    assert q in b.values;
    assert !Keeps(engine, table, next, Discovery, NewEntry(b));
    DiscardFrames(table, next, Discovery, b);
  }

  /** So both are discarded. */
  lemma TwinsDropped(engine: Engine, table: Table, once: Provider, a: Rule, b: Rule, p: Path, q: Path)
    requires ProviderTable(table) && table.providerRules == [a, b]
    requires a.values.Keys == b.values.Keys == {p, q} <= once.fields.Keys
    requires once.provenance == map[Authentication := NewEntry(a), Discovery := NewEntry(b)]
    requires once.fields[p] != Canonical(engine.encode, a.values[p]) && once.fields[q] == a.values[q]
    requires Canonical(engine.encode, b.values[q]) != Arr([]) && once.completeness.Keys == {Authentication, Discovery}
    ensures var y := DropStale(engine, table, once, [Authentication, Discovery]);
            && y.provenance == map[] && y.completeness.Keys == {Authentication, Discovery} && Level(y, Authentication) == Level(y, Discovery) == Str("missing")
            && y.fields.Keys == once.fields.Keys && forall x :: x in once.fields && x !in b.values ==> y.fields[x] == once.fields[x]
  {
    DropTwo(engine, table, once, Authentication, Discovery);
    FirstTwinDropped(engine, table, once, a, p, q);
    SecondTwinDropped(engine, table, DropOne(engine, table, once, Authentication), b, p, q);
  }

  lemma TwinsOnce(engine: Engine, table: Table, r: Provider, a: Rule, b: Rule, pattern: string, providerId: string, p: Path, q: Path)
    requires ProviderTable(table) && AcceptsEmptyId(engine, table, providerId) && table.providerRules == [a, b] && p != q
    requires a.domain == Some(Authentication) && b.domain == Some(Discovery) && a.values.Keys == b.values.Keys == {p, q}
    requires a.providerPattern == b.providerPattern == Some(pattern) && engine.search(pattern, providerId)
    requires r == OpenTwins(providerId) && a.values[q] == b.values[q] == Canonical(engine.encode, b.values[q]) != Arr([])
    requires Canonical(engine.encode, a.values[p]) != Canonical(engine.encode, b.values[p])
    ensures var once := Closed(engine, table, r, []);
            Closed(engine, table, once, [Authentication, Discovery]) == once && !Settled(engine, table, once)
  {
    var x := TwinsClosed(engine, r, a, b, pattern, providerId);
    ClosedKeepsId(engine, table, r, []);
    assert p in b.values && q in b.values;
    TwinsRestored(engine, table, r, x, a, b, pattern, providerId, p, q);
    TwinIsUnkept(engine, table, x.(usableFor := Scenarios(x)), a, p);
    FixpointIff(engine, table, r, []);
  }

  lemma TwinsRestored(engine: Engine, table: Table, r: Provider, x: Provider, a: Rule, b: Rule, pattern: string, providerId: string, p: Path, q: Path)
    requires ProviderTable(table) && table.providerRules == [a, b]
    requires a.domain == Some(Authentication) && b.domain == Some(Discovery) && a.values.Keys == b.values.Keys == {p, q}
    requires a.providerPattern == b.providerPattern == Some(pattern) && engine.search(pattern, providerId)
    requires r.provenance == map[] && r.completeness.Keys == {Authentication, Discovery}
    requires Level(r, Authentication) == Level(r, Discovery) == Str("missing")
    requires x == ApplyRules(engine, providerId, r, [a, b]) && ProviderId(x) == providerId
    requires x.fields.Keys == r.fields.Keys + b.values.Keys && forall k :: k in r.fields && k !in b.values ==> x.fields[k] == r.fields[k]
    requires x.completeness.Keys == {Authentication, Discovery}
    requires x.provenance == map[Authentication := NewEntry(a), Discovery := NewEntry(b)]
    requires x.fields[p] != Canonical(engine.encode, a.values[p]) && x.fields[q] == a.values[q]
    requires Canonical(engine.encode, b.values[q]) != Arr([])
    ensures var once := x.(usableFor := Scenarios(x)); Closed(engine, table, once, [Authentication, Discovery]) == once
  {
    var once := x.(usableFor := Scenarios(x));
    TwinsDropped(engine, table, once, a, b, p, q);
    var y := DropStale(engine, table, once, [Authentication, Discovery]);
    TwinsAgain(engine, r, y, a, b, pattern, providerId);
    ClosedToSame(engine, table, once, x, [Authentication, Discovery]);
  }

  lemma ClosedToSame(engine: Engine, table: Table, once: Provider, x: Provider, again: seq<Domain>)
    requires once == x.(usableFor := Scenarios(x))
    requires var z := ApplyRules(engine, ProviderId(once), DropStale(engine, table, once, again), table.providerRules);
             z.fields == x.fields && z.completeness == x.completeness && z.provenance == x.provenance
    ensures Closed(engine, table, once, again) == once
  {
    SameScenarios(ApplyRules(engine, ProviderId(once), DropStale(engine, table, once, again), table.providerRules), x);
  }

  lemma TwinsClosed(engine: Engine, r: Provider, a: Rule, b: Rule, pattern: string, providerId: string) returns (x: Provider)
    requires a.domain == Some(Authentication) && b.domain == Some(Discovery) && a.values.Keys == b.values.Keys
    requires a.providerPattern == b.providerPattern == Some(pattern) && engine.search(pattern, providerId)
    requires r.provenance == map[] && r.completeness == map[Authentication := Str("missing"), Discovery := Str("missing")]
    ensures x == ApplyRules(engine, providerId, r, [a, b])
    ensures x.fields.Keys == r.fields.Keys + b.values.Keys
    ensures forall p :: p in b.values ==> x.fields[p] == Canonical(engine.encode, b.values[p])
    ensures forall p :: p in r.fields && p !in b.values ==> x.fields[p] == r.fields[p]
    ensures x.completeness.Keys == {Authentication, Discovery}
    ensures x.provenance == map[Authentication := NewEntry(a), Discovery := NewEntry(b)]
  {
    TwinsFire(engine, providerId, r, a, b, pattern);
    TwinFields(engine, r, a, b);
    TwinDomains(engine, r, a, b);
    x := Assign(engine, Assign(engine, r, a), b);
  }

  lemma TwinIsUnkept(engine: Engine, table: Table, once: Provider, a: Rule, p: Path)
    requires ProviderTable(table) && a in table.providerRules && p in a.values
    requires Authentication in once.provenance && once.provenance[Authentication] == NewEntry(a)
    requires Get(once.fields, p) != Canonical(engine.encode, a.values[p])
    ensures !AllKept(engine, table, once)
  {
    ProviderRuleIsFound(table, a);
    assert !Keeps(engine, table, once, Authentication, once.provenance[Authentication]);
  }

  /** Both twins closed again from what the discarding left give the same record as before. */
  lemma TwinsAgain(engine: Engine, r: Provider, y: Provider, a: Rule, b: Rule, pattern: string, providerId: string)
    requires a.domain == Some(Authentication) && b.domain == Some(Discovery) && a.values.Keys == b.values.Keys
    requires a.providerPattern == b.providerPattern == Some(pattern) && engine.search(pattern, providerId)
    requires r.provenance == y.provenance == map[]
    requires Level(r, Authentication) == Level(r, Discovery) == Str("missing") == Level(y, Authentication) == Level(y, Discovery)
    requires r.completeness.Keys == y.completeness.Keys == {Authentication, Discovery}
    requires y.fields.Keys == r.fields.Keys + b.values.Keys && forall x :: x in r.fields && x !in b.values ==> y.fields[x] == r.fields[x]
    ensures var x, z := ApplyRules(engine, providerId, r, [a, b]), ApplyRules(engine, providerId, y, [a, b]);
            z.fields == x.fields && z.completeness == x.completeness && z.provenance == x.provenance
  {
    TwinsFire(engine, providerId, r, a, b, pattern);
    TwinsFire(engine, providerId, y, a, b, pattern);
    TwinsOverwrite(engine, r, y, a, b);
    TwinDomains(engine, r, a, b);
    TwinDomains(engine, y, a, b);
  }

  /** Two domains in conflict over one field can still be restored by a pass in one order, if the first to be
      discarded also empties a field they agree on: one order is not enough to tell. */
  lemma RestoredByAccident(engine: Engine, pattern: string, providerId: string, f: string, v: Json, w: Json, g: string, u: Json)
    requires engine.search(pattern, providerId) && f != "provider_id" && g != "provider_id" && f != g
    requires Canonical(engine.encode, v) != Canonical(engine.encode, w) && Canonical(engine.encode, u) == u && u != Arr([])
    ensures var a, b := TwinRule("a", pattern, Authentication, f, v, g, u), TwinRule("b", pattern, Discovery, f, w, g, u);
            var table, r := Table([], [a, b]), OpenTwins(providerId);
            var once := Closed(engine, table, r, []);
            && ProviderTable(table) && AcceptsEmptyId(engine, table, providerId)
            && Closed(engine, table, once, [Authentication, Discovery]) == once && !Settled(engine, table, once)
  {
    var a, b := TwinRule("a", pattern, Authentication, f, v, g, u), TwinRule("b", pattern, Discovery, f, w, g, u);
    var table, r := Table([], [a, b]), OpenTwins(providerId);
    TwinTable(engine, table, a, b, providerId);
    TwinsOnce(engine, table, r, a, b, pattern, providerId, Named(f), Named(g));
  }

  lemma TwinTable(engine: Engine, table: Table, a: Rule, b: Rule, providerId: string)
    requires table == Table([], [a, b]) && a.key == "a" && b.key == "b" && a.kind == b.kind == "provider"
    requires a.domain == Some(Authentication) && b.domain == Some(Discovery) && a.modelPattern == b.modelPattern == None
    requires forall p :: p in a.values.Keys + b.values.Keys ==> p.Named? && p != Named("provider_id")
    ensures ProviderTable(table) && AcceptsEmptyId(engine, table, providerId)
  {
    assert AllRules(table)[0] == a && AllRules(table)[1] == b && |AllRules(table)| == 2;
  }
}
