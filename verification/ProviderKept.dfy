/** When a second closure pass over a provider record changes nothing, whatever rules and entries share. */
module ProviderKept {
  import opened Wrappers
  import opened Json
  import opened ModelFields
  import opened ProviderClosure
  import opened ProviderIdempotence

  /** The next pass re-checks a provider rule with the empty model id: no rule that concerns this provider has
      a model pattern that rejects it. */
  ghost predicate AcceptsEmptyId(engine: Engine, table: Table, providerId: string) {
    forall i :: 0 <= i < |table.providerRules| && Concerns(engine, table.providerRules[i], providerId) ==>
      RuleMatches(engine, table.providerRules[i], providerId, "")
  }

  predicate Concerns(engine: Engine, rule: Rule, providerId: string) {
    rule.providerPattern.Some? && engine.search(rule.providerPattern.value, providerId)
  }

  /** The next pass finds every recorded domain as its rule left it. */
  ghost predicate AllKept(engine: Engine, table: Table, r: Provider) {
    forall d :: d in r.provenance ==> Keeps(engine, table, r, d, r.provenance[d])
  }

  /** A pass over `r` changes nothing, in whatever order its recorded domains are visited. */
  ghost predicate Settled(engine: Engine, table: Table, r: Provider) {
    forall again :: IsOrderOf(again, r.provenance.Keys) ==> Closed(engine, table, r, again) == r
  }

  /** Some order of a set of domains. */
  ghost function SomeOrder(keys: set<Domain>): (order: seq<Domain>)
    ensures IsOrderOf(order, keys)
    decreases |keys|
  {
    if keys == {} then []
    else
      var d :| d in keys;
      SomeOrder(keys - {d}) + [d]
  }

  // ---------- what a pass leaves ----------

  lemma {:induction false} DropStaleShrinks(engine: Engine, table: Table, r: Provider, order: seq<Domain>)
    requires ProviderTable(table)
    ensures var y := DropStale(engine, table, r, order);
            && ProviderId(y) == ProviderId(r)
            && (forall d :: d in y.provenance ==> d in r.provenance && y.provenance[d] == r.provenance[d])
            && (forall d :: d in r.provenance && d !in order ==> d in y.provenance)
            && (forall d :: d in r.provenance && d !in y.provenance ==> Level(y, d) == Str("missing"))
            && (forall d :: d !in r.provenance || d in y.provenance ==> Level(y, d) == Level(r, d))
    decreases order
  {
    if order != [] {
      var next := DropOne(engine, table, r, order[0]);
      if order[0] in r.provenance { DiscardKeepsId(table, r, order[0]); }
      DropStaleShrinks(engine, table, next, order[1..]);
      assert forall d :: d in order[1..] ==> d in order;
      assert order[0] in order;
    }
  }

  lemma ApplyOneKeepsId(engine: Engine, table: Table, providerId: string, r: Provider, rule: Rule)
    requires ProviderTable(table) && rule in table.providerRules
    ensures ProviderId(ApplyOne(engine, providerId, r, rule)) == ProviderId(r)
  {
    ProviderPayload(table, rule);
  }

  lemma {:induction false} AppliedKeepsId(engine: Engine, table: Table, providerId: string, r: Provider, rules: seq<Rule>)
    requires ProviderTable(table) && forall i :: 0 <= i < |rules| ==> rules[i] in table.providerRules
    ensures ProviderId(ApplyRules(engine, providerId, r, rules)) == ProviderId(r)
    decreases rules
  {
    if rules != [] {
      ApplyOneKeepsId(engine, table, providerId, r, rules[0]);
      AppliedKeepsId(engine, table, providerId, ApplyOne(engine, providerId, r, rules[0]), rules[1..]);
    }
  }

  lemma {:induction false} AppliedKeeps(engine: Engine, providerId: string, r: Provider, rules: seq<Rule>, d: Domain)
    requires d in r.provenance
    ensures var y := ApplyRules(engine, providerId, r, rules); d in y.provenance && y.provenance[d] == r.provenance[d]
    decreases rules
  {
    if rules != [] {
      AppliedKeeps(engine, providerId, ApplyOne(engine, providerId, r, rules[0]), rules[1..], d);
    }
  }

  /** Entry `entry` was written for domain `d` by one of the rules, whose pattern matches the provider. */
  ghost predicate Cites(engine: Engine, rules: seq<Rule>, providerId: string, d: Domain, entry: Json) {
    exists i :: 0 <= i < |rules| && entry == NewEntry(rules[i]) && rules[i].domain == Some(d)
      && rules[i].providerPattern.Some? && engine.search(rules[i].providerPattern.value, providerId)
  }

  lemma {:induction false} AppliedCites(engine: Engine, providerId: string, r: Provider, rules: seq<Rule>, d: Domain)
    requires d !in r.provenance && d in ApplyRules(engine, providerId, r, rules).provenance
    ensures Cites(engine, rules, providerId, d, ApplyRules(engine, providerId, r, rules).provenance[d])
    decreases rules
  {
    if rules != [] {
      var next := ApplyOne(engine, providerId, r, rules[0]);
      var entry := ApplyRules(engine, providerId, next, rules[1..]).provenance[d];
      if d in next.provenance {
        AppliedKeeps(engine, providerId, next, rules[1..], d);
        assert entry == NewEntry(rules[0]);
      } else {
        AppliedCites(engine, providerId, next, rules[1..], d);
        var i :| 0 <= i < |rules[1..]| && entry == NewEntry(rules[1..][i]) && rules[1..][i].domain == Some(d)
                 && rules[1..][i].providerPattern.Some? && engine.search(rules[1..][i].providerPattern.value, providerId);
        assert rules[i + 1] == rules[1..][i];
      }
    }
  }

  lemma ClosedEntry(engine: Engine, table: Table, r: Provider, order: seq<Domain>, d: Domain)
    requires ProviderTable(table) && d in Closed(engine, table, r, order).provenance
    ensures var entry := Closed(engine, table, r, order).provenance[d];
            (d in r.provenance && entry == r.provenance[d]) || Cites(engine, table.providerRules, ProviderId(r), d, entry)
  {
    var a := DropStale(engine, table, r, order);
    DropStaleShrinks(engine, table, r, order);
    if d in a.provenance {
      AppliedKeeps(engine, ProviderId(r), a, table.providerRules, d);
    } else {
      AppliedCites(engine, ProviderId(r), a, table.providerRules, d);
    }
  }

  lemma CitedIsWellFormed(engine: Engine, table: Table, providerId: string, d: Domain, entry: Json)
    requires ProviderTable(table) && Cites(engine, table.providerRules, providerId, d, entry)
    ensures WellFormedEntry(entry) && !d.OtherDomain?
  {
    var i :| 0 <= i < |table.providerRules| && entry == NewEntry(table.providerRules[i]) && table.providerRules[i].domain == Some(d);
    ProviderRuleIsFound(table, table.providerRules[i]);
  }

  lemma CitedStillApplies(engine: Engine, table: Table, providerId: string, d: Domain, entry: Json)
    requires ProviderTable(table) && AcceptsEmptyId(engine, table, providerId) && Cites(engine, table.providerRules, providerId, d, entry)
    ensures StillApplies(engine, table, entry, "provider", providerId, "")
  {
    var i :| 0 <= i < |table.providerRules| && entry == NewEntry(table.providerRules[i])
             && table.providerRules[i].providerPattern.Some? && engine.search(table.providerRules[i].providerPattern.value, providerId);
    ProviderRuleIsFound(table, table.providerRules[i]);
  }

  lemma ClosedKeepsId(engine: Engine, table: Table, r: Provider, order: seq<Domain>)
    requires ProviderTable(table)
    ensures ProviderId(Closed(engine, table, r, order)) == ProviderId(r)
  {
    DropStaleShrinks(engine, table, r, order);
    AppliedKeepsId(engine, table, ProviderId(r), DropStale(engine, table, r, order), table.providerRules);
  }

  /** The result of a successful pass is well formed, about the same provider. */
  lemma ClosedCloses(engine: Engine, table: Table, r: Provider, order: seq<Domain>)
    requires ProviderTable(table) && Closes(r)
    ensures Closes(Closed(engine, table, r, order))
  {
    var once := Closed(engine, table, r, order);
    forall d | d in once.provenance
      ensures WellFormedEntry(once.provenance[d]) && !d.OtherDomain?
    {
      ClosedEntry(engine, table, r, order, d);
      if !(d in r.provenance && once.provenance[d] == r.provenance[d]) {
        CitedIsWellFormed(engine, table, ProviderId(r), d, once.provenance[d]);
      }
    }
  }

  // ---------- a pass after a pass fires nothing ----------

  ghost predicate Idle(engine: Engine, providerId: string, r: Provider, rules: seq<Rule>) {
    forall i :: 0 <= i < |rules| ==> !Fires(engine, providerId, r, rules[i])
  }

  lemma {:induction false} IdleChangesNothing(engine: Engine, providerId: string, r: Provider, rules: seq<Rule>)
    requires Idle(engine, providerId, r, rules)
    ensures ApplyRules(engine, providerId, r, rules) == r
    decreases rules
  {
    if rules != [] {
      IdleChangesNothing(engine, providerId, r, rules[1..]);
    }
  }

  /** A domain that never closes keeps its level. */
  lemma {:induction false} UnclosedKeepsLevel(engine: Engine, providerId: string, r: Provider, rules: seq<Rule>, d: Domain)
    requires d !in ApplyRules(engine, providerId, r, rules).provenance
    ensures d !in r.provenance && Level(ApplyRules(engine, providerId, r, rules), d) == Level(r, d)
    decreases rules
  {
    if d in r.provenance { AppliedKeeps(engine, providerId, r, rules, d); }
    if rules != [] {
      UnclosedKeepsLevel(engine, providerId, ApplyOne(engine, providerId, r, rules[0]), rules[1..], d);
    }
  }

  /** No rule fires on the result of applying a list that contains it. */
  lemma {:induction false} AppliedIsIdle(engine: Engine, providerId: string, r: Provider, rules: seq<Rule>)
    ensures Idle(engine, providerId, ApplyRules(engine, providerId, r, rules), rules)
    decreases rules
  {
    if rules != [] {
      var next := ApplyOne(engine, providerId, r, rules[0]);
      var x := ApplyRules(engine, providerId, next, rules[1..]);
      AppliedIsIdle(engine, providerId, next, rules[1..]);
      if Fires(engine, providerId, x, rules[0]) {
        UnclosedKeepsLevel(engine, providerId, next, rules[1..], rules[0].domain.value);
      }
      assert !Fires(engine, providerId, x, rules[0]);
      forall i | 0 <= i < |rules|
        ensures !Fires(engine, providerId, x, rules[i])
      {
        if i > 0 { assert rules[1..][i - 1] == rules[i]; }
      }
    }
  }

  lemma DropTwo(engine: Engine, table: Table, r: Provider, d: Domain, e: Domain)
    ensures DropStale(engine, table, r, [d, e]) == DropOne(engine, table, DropOne(engine, table, r, d), e)
  {
    var next := DropOne(engine, table, r, d);
    assert [d, e][1..] == [e];
    assert DropStale(engine, table, next, [e]) == DropStale(engine, table, DropOne(engine, table, next, e), []);
  }

  lemma {:induction false} KeptChangesNothing(engine: Engine, table: Table, r: Provider, order: seq<Domain>, rest: seq<Domain>)
    requires forall d :: d in order && d in r.provenance ==> Keeps(engine, table, r, d, r.provenance[d])
    ensures DropStale(engine, table, r, order + rest) == DropStale(engine, table, r, rest)
    decreases order
  {
    if order == [] {
      assert order + rest == rest;
    } else {
      assert order[0] in order && (order + rest)[1..] == order[1..] + rest;
      assert forall d :: d in order[1..] ==> d in order;
      KeptChangesNothing(engine, table, r, order[1..], rest);
    }
  }

  /** If every domain is kept, the next pass changes nothing, in any order. */
  lemma KeptIsSettled(engine: Engine, table: Table, r: Provider, order: seq<Domain>, again: seq<Domain>)
    requires ProviderTable(table)
    requires var once := Closed(engine, table, r, order); AllKept(engine, table, once) && ProviderId(once) == ProviderId(r)
    ensures var once := Closed(engine, table, r, order); Closed(engine, table, once, again) == once
  {
    var once := Closed(engine, table, r, order);
    NothingDropped(engine, table, once, again);
    AppliedIsIdle(engine, ProviderId(r), DropStale(engine, table, r, order), table.providerRules);
    IdleReads(engine, ProviderId(r), ApplyRules(engine, ProviderId(r), DropStale(engine, table, r, order), table.providerRules), once, table.providerRules);
    IdleChangesNothing(engine, ProviderId(r), once, table.providerRules);
  }

  lemma NothingDropped(engine: Engine, table: Table, r: Provider, order: seq<Domain>)
    requires AllKept(engine, table, r)
    ensures DropStale(engine, table, r, order) == r
  {
    KeptChangesNothing(engine, table, r, order, []);
    assert order + [] == order;
  }

  lemma IdleReads(engine: Engine, providerId: string, x: Provider, once: Provider, rules: seq<Rule>)
    requires Idle(engine, providerId, x, rules) && once.provenance == x.provenance && once.completeness == x.completeness
    ensures Idle(engine, providerId, once, rules)
  {
    forall i | 0 <= i < |rules|
      ensures !Fires(engine, providerId, once, rules[i])
    {
      assert !Fires(engine, providerId, x, rules[i]);
    }
  }

  // ---------- a pass that changes nothing discards nothing ----------

  lemma {:induction false} NothingNewIsIdle(engine: Engine, providerId: string, r: Provider, rules: seq<Rule>)
    requires forall d :: d in ApplyRules(engine, providerId, r, rules).provenance ==> d in r.provenance
    ensures ApplyRules(engine, providerId, r, rules) == r
    decreases rules
  {
    if rules != [] {
      var next := ApplyOne(engine, providerId, r, rules[0]);
      if Fires(engine, providerId, r, rules[0]) {
        AppliedKeeps(engine, providerId, next, rules[1..], rules[0].domain.value);
      }
      assert next == r;
      NothingNewIsIdle(engine, providerId, next, rules[1..]);
    }
  }

  /** Domain `e` was closed by `rule` and nothing was assigned after it. */
  ghost predicate ClosedLast(engine: Engine, providerId: string, before: Provider, after: Provider, rule: Rule, e: Domain) {
    && e !in before.provenance && e in after.provenance && after.provenance[e] == NewEntry(rule)
    && rule.domain == Some(e) && DomainMatches(engine, after, e, rule)
    && rule.providerPattern.Some? && engine.search(rule.providerPattern.value, providerId)
  }

  /** The last rule to fire leaves its domain exactly as it assigns it. */
  lemma {:induction false} LastToFire(engine: Engine, providerId: string, r: Provider, rules: seq<Rule>, d: Domain) returns (i: nat, e: Domain)
    requires d !in r.provenance && d in ApplyRules(engine, providerId, r, rules).provenance
    ensures i < |rules| && ClosedLast(engine, providerId, r, ApplyRules(engine, providerId, r, rules), rules[i], e)
    decreases rules
  {
    var next := ApplyOne(engine, providerId, r, rules[0]);
    var z := ApplyRules(engine, providerId, next, rules[1..]);
    if added :| added in z.provenance && added !in next.provenance {
      var j;
      j, e := LastToFire(engine, providerId, next, rules[1..], added);
      i := j + 1;
      assert rules[i] == rules[1..][j];
    } else {
      NothingNewIsIdle(engine, providerId, next, rules[1..]);
      i, e := 0, d;
    }
  }

  lemma ClosedLastIsKept(engine: Engine, table: Table, before: Provider, r: Provider, rule: Rule, e: Domain)
    requires ProviderTable(table) && AcceptsEmptyId(engine, table, ProviderId(r)) && rule in table.providerRules
    requires ClosedLast(engine, ProviderId(r), before, r, rule, e)
    ensures Keeps(engine, table, r, e, r.provenance[e])
  {
    ProviderRuleIsFound(table, rule);
    var i :| 0 <= i < |table.providerRules| && table.providerRules[i] == rule;
  }

  lemma KeepsReadsValues(engine: Engine, table: Table, r: Provider, s: Provider, d: Domain)
    requires d in r.provenance && r.fields == s.fields && r.completeness == s.completeness && r.provenance == s.provenance
    ensures Keeps(engine, table, r, d, r.provenance[d]) <==> Keeps(engine, table, s, d, s.provenance[d])
  {
  }

  lemma JoinedOrders(a: seq<Domain>, b: seq<Domain>, left: set<Domain>, right: set<Domain>)
    requires IsOrderOf(a, left) && IsOrderOf(b, right) && left !! right
    ensures IsOrderOf(a + b, left + right)
  {
    forall i, j | 0 <= i < j < |a + b|
      ensures (a + b)[i] != (a + b)[j]
    {
      if i < |a| <= j { assert a[i] in a && b[j - |a|] in b; }
    }
  }

  /** Kept domains first: if some domain is not kept, a pass in this order changes the record. */
  ghost function KeptFirst(engine: Engine, table: Table, r: Provider): (order: seq<Domain>)
    ensures IsOrderOf(order, r.provenance.Keys)
  {
    var kept := set d | d in r.provenance && Keeps(engine, table, r, d, r.provenance[d]);
    var rest := r.provenance.Keys - kept;
    JoinedOrders(SomeOrder(kept), SomeOrder(rest), kept, rest);
    assert kept + rest == r.provenance.Keys;
    SomeOrder(kept) + SomeOrder(rest)
  }

  /** Discarding unkept domains discards at least the first, and no other domain. */
  lemma UnkeptAreDropped(engine: Engine, table: Table, r: Provider, rest: seq<Domain>)
    requires ProviderTable(table) && rest != [] && rest[0] in r.provenance
    requires !Keeps(engine, table, r, rest[0], r.provenance[rest[0]])
    ensures var y := DropStale(engine, table, r, rest);
            && rest[0] !in y.provenance && ProviderId(y) == ProviderId(r)
            && forall d :: d in r.provenance && d !in y.provenance ==> d in rest
  {
    DropStaleShrinks(engine, table, DropOne(engine, table, r, rest[0]), rest[1..]);
    DropStaleShrinks(engine, table, r, rest);
  }

  /** A discarded domain comes back only if one of those discarded with it was kept all along. */
  lemma RestoredWithKept(engine: Engine, table: Table, r: Provider, y: Provider, d: Domain) returns (e: Domain)
    requires ProviderTable(table) && AcceptsEmptyId(engine, table, ProviderId(r))
    requires d in r.provenance && d !in y.provenance && ProviderId(y) == ProviderId(r)
    requires var z := ApplyRules(engine, ProviderId(r), y, table.providerRules);
             z.fields == r.fields && z.completeness == r.completeness && z.provenance == r.provenance
    ensures e in r.provenance && e !in y.provenance && Keeps(engine, table, r, e, r.provenance[e])
  {
    var z := ApplyRules(engine, ProviderId(r), y, table.providerRules);
    var i;
    i, e := LastToFire(engine, ProviderId(r), y, table.providerRules, d);
    ClosedLastIsKept(engine, table, y, z, table.providerRules[i], e);
    KeepsReadsValues(engine, table, z, r, e);
  }

  lemma UnkeptIsUnsettled(engine: Engine, table: Table, once: Provider, d: Domain)
    requires ProviderTable(table) && AcceptsEmptyId(engine, table, ProviderId(once))
    requires d in once.provenance && !Keeps(engine, table, once, d, once.provenance[d])
    ensures Closed(engine, table, once, KeptFirst(engine, table, once)) != once
  {
    var kept := set e | e in once.provenance && Keeps(engine, table, once, e, once.provenance[e]);
    var rest := SomeOrder(once.provenance.Keys - kept);
    KeptChangesNothing(engine, table, once, SomeOrder(kept), rest);
    assert d in rest && rest[0] in rest;
    UnkeptAreDropped(engine, table, once, rest);
    if Closed(engine, table, once, KeptFirst(engine, table, once)) == once {
      var e := RestoredWithKept(engine, table, once, DropStale(engine, table, once, rest), rest[0]);
    }
  }

  /** After a successful pass the next ones change nothing, in every order in which the recorded domains can
      be visited, if and only if every recorded domain still is what its rule assigns. */
  lemma FixpointIff(engine: Engine, table: Table, r: Provider, order: seq<Domain>)
    requires ProviderTable(table) && AcceptsEmptyId(engine, table, ProviderId(r))
    ensures var once := Closed(engine, table, r, order);
            Settled(engine, table, once) <==> AllKept(engine, table, once)
  {
    var once := Closed(engine, table, r, order);
    ClosedKeepsId(engine, table, r, order);
    if AllKept(engine, table, once) {
      forall again | IsOrderOf(again, once.provenance.Keys)
        ensures Closed(engine, table, once, again) == once
      {
        KeptIsSettled(engine, table, r, order, again);
      }
    }
    forall d | d in once.provenance && !Keeps(engine, table, once, d, once.provenance[d])
      ensures !Settled(engine, table, once)
    {
      UnkeptIsUnsettled(engine, table, once, d);
    }
  }

  // ---------- what unsettles a record ----------

  /** Two recorded domains whose rules give one field different values never settle, in any table. */
  lemma ConflictIsUnsettled(engine: Engine, table: Table, r: Provider, order: seq<Domain>, d: Domain, e: Domain, p: Path)
    requires ProviderTable(table) && AcceptsEmptyId(engine, table, ProviderId(r))
    requires var once := Closed(engine, table, r, order);
             && d in once.provenance && e in once.provenance
             && EntryRule(table, once.provenance[d]).Some? && p in EntryRule(table, once.provenance[d]).value.values
             && EntryRule(table, once.provenance[e]).Some? && p in EntryRule(table, once.provenance[e]).value.values
             && Canonical(engine.encode, EntryRule(table, once.provenance[d]).value.values[p])
                != Canonical(engine.encode, EntryRule(table, once.provenance[e]).value.values[p])
    ensures !Settled(engine, table, Closed(engine, table, r, order))
  {
    FixpointIff(engine, table, r, order);
  }

  /** With no domain kept every second pass changes the record, whatever its order. */
  lemma NoneKeptNeverSettles(engine: Engine, table: Table, once: Provider, again: seq<Domain>)
    requires ProviderTable(table) && AcceptsEmptyId(engine, table, ProviderId(once)) && IsOrderOf(again, once.provenance.Keys) && again != []
    requires forall d :: d in once.provenance ==> !Keeps(engine, table, once, d, once.provenance[d])
    ensures Closed(engine, table, once, again) != once
  {
    assert again[0] in again;
    UnkeptAreDropped(engine, table, once, again);
    if Closed(engine, table, once, again) == once {
      var e := RestoredWithKept(engine, table, once, DropStale(engine, table, once, again), again[0]);
    }
  }

  function ForeignRule(pattern: string, name: string, v: Json): Rule {
    Rule("b", "provider", None, Some(pattern), Some(Discovery), None, map[Named(name) := v])
  }

  /** Two domains cite the one discovery rule, as they can after a rule has moved to another domain. */
  function ForeignRecord(providerId: string, name: string, v: Json, entry: Json): Provider {
    Provider(map[Named("provider_id") := Str(providerId), Named(name) := v],
             map[Discovery := Str("complete"), Endpoint := Str("complete")], map[Discovery := entry, Endpoint := entry], [])
  }

  lemma ForeignFirstPass(engine: Engine, table: Table, rule: Rule, pattern: string, providerId: string, name: string, v: Json)
    requires engine.search(pattern, providerId) && name != "provider_id" && Canonical(engine.encode, v) == v
    requires rule == ForeignRule(pattern, name, v) && table == Table([], [rule]) && ProviderTable(table)
    ensures var r := ForeignRecord(providerId, name, v, NewEntry(rule));
            var once := Closed(engine, table, r, [Discovery, Endpoint]);
            && Get(once.fields, Named(name)) == Arr([])
            && ProviderId(once) == providerId && once.provenance == map[Discovery := NewEntry(rule)]
  {
    var r := ForeignRecord(providerId, name, v, NewEntry(rule));
    ForeignDrops(engine, table, rule, pattern, providerId, name, v);
    DropTwo(engine, table, r, Discovery, Endpoint);
    var next := Discard(table, r, Endpoint, NewEntry(rule));
    ForeignDiscarded(table, rule, pattern, providerId, name, v);
    assert Idle(engine, providerId, next, table.providerRules);
    IdleChangesNothing(engine, providerId, next, table.providerRules);
  }

  lemma ForeignDrops(engine: Engine, table: Table, rule: Rule, pattern: string, providerId: string, name: string, v: Json)
    requires engine.search(pattern, providerId) && name != "provider_id" && Canonical(engine.encode, v) == v
    requires rule == ForeignRule(pattern, name, v) && table == Table([], [rule]) && ProviderTable(table)
    ensures var r := ForeignRecord(providerId, name, v, NewEntry(rule));
            DropOne(engine, table, r, Discovery) == r && DropOne(engine, table, r, Endpoint) == Discard(table, r, Endpoint, NewEntry(rule))
  {
    var r := ForeignRecord(providerId, name, v, NewEntry(rule));
    ProviderRuleIsFound(table, rule);
    assert Keeps(engine, table, r, Discovery, NewEntry(rule));
    assert !Keeps(engine, table, r, Endpoint, NewEntry(rule));
  }

  lemma ForeignDiscarded(table: Table, rule: Rule, pattern: string, providerId: string, name: string, v: Json)
    requires name != "provider_id" && rule == ForeignRule(pattern, name, v) && table == Table([], [rule]) && ProviderTable(table)
    ensures var next := Discard(table, ForeignRecord(providerId, name, v, NewEntry(rule)), Endpoint, NewEntry(rule));
            && next.provenance == map[Discovery := NewEntry(rule)] && Level(next, Discovery) == Str("complete")
            && Get(next.fields, Named(name)) == Arr([]) && ProviderId(next) == providerId
  {
    ProviderRuleIsFound(table, rule);
  }

  lemma ForeignTable(engine: Engine, pattern: string, name: string, v: Json, providerId: string)
    requires name != "provider_id"
    ensures var rule := ForeignRule(pattern, name, v);
            var table, r := Table([], [rule]), ForeignRecord(providerId, name, v, NewEntry(rule));
            && ProviderTable(table) && AcceptsEmptyId(engine, table, providerId) && DisjointDomains(table)
            && RuleFor(table, Str("b")) == Some(rule) && Closes(r) && !OwnDomains(table, r.provenance)
  {
    var rule := ForeignRule(pattern, name, v);
    var table, r := Table([], [rule]), ForeignRecord(providerId, name, v, NewEntry(rule));
    assert AllRules(table) == [rule];
    assert rule == table.providerRules[0];
    assert ValidTable(table);
    ProviderRuleIsFound(table, rule);
    assert EntryRule(table, r.provenance[Endpoint]) == Some(rule);
  }

  lemma EmptiedIsNotKept(engine: Engine, table: Table, once: Provider, rule: Rule, d: Domain, p: Path)
    requires RuleFor(table, Str(rule.key)) == Some(rule) && once.provenance == map[d := NewEntry(rule)]
    requires p in rule.values && Get(once.fields, p) != Canonical(engine.encode, rule.values[p])
    ensures forall e :: e in once.provenance ==> !Keeps(engine, table, once, e, once.provenance[e])
  {
  }

  /** A domain that cites another domain's rule unsettles a table of that one rule: discarding it empties a
      field of the domain that keeps the rule, and the next pass closes that one again. */
  lemma ForeignCitationUnsettles(engine: Engine, pattern: string, providerId: string, name: string, v: Json, again: seq<Domain>)
    requires engine.search(pattern, providerId) && name != "provider_id"
    requires Canonical(engine.encode, v) == v && v != Arr([]) && IsOrderOf(again, {Discovery})
    ensures var rule := ForeignRule(pattern, name, v);
            var table, r := Table([], [rule]), ForeignRecord(providerId, name, v, NewEntry(rule));
            var once := Closed(engine, table, r, [Discovery, Endpoint]);
            && ProviderTable(table) && AcceptsEmptyId(engine, table, providerId) && DisjointDomains(table) && Closes(r) && !OwnDomains(table, r.provenance)
            && once.provenance.Keys == {Discovery} && Closed(engine, table, once, again) != once
  {
    var rule := ForeignRule(pattern, name, v);
    var table, r := Table([], [rule]), ForeignRecord(providerId, name, v, NewEntry(rule));
    ForeignTable(engine, pattern, name, v, providerId);
    ForeignFirstPass(engine, table, rule, pattern, providerId, name, v);
    var once := Closed(engine, table, r, [Discovery, Endpoint]);
    EmptiedIsNotKept(engine, table, once, rule, Discovery, Named(name));
    assert once.provenance.Keys == {Discovery};
    assert Discovery in again;
    NoneKeptNeverSettles(engine, table, once, again);
  }
}
