/** A condition on the input alone under which a second closure pass over a provider record changes nothing:
    rules of different domains assign different fields, and no entry cites another domain's rule. What holds
    without it is in `ProviderKept` and `ProviderRestored`. */
module ProviderIdempotence {
  import opened Wrappers
  import opened Json
  import opened ModelFields
  import opened ProviderClosure

  /** What `check_rule_table` accepts: provider rules assign provider fields and name a closable domain. */
  ghost predicate ProviderTable(table: Table) {
    && ValidTable(table)
    && (forall i, p :: 0 <= i < |table.modelRules| && p in table.modelRules[i].values ==> p.Fact?)
    && (forall i, p :: 0 <= i < |table.providerRules| && p in table.providerRules[i].values ==> p.Named? && p != Named("provider_id"))
    && (forall i :: 0 <= i < |table.providerRules| ==> table.providerRules[i].domain.Some? && !table.providerRules[i].domain.value.OtherDomain?)
  }

  ghost predicate DisjointDomains(table: Table) {
    forall i, j | 0 <= i < |table.providerRules| && 0 <= j < |table.providerRules| ::
      table.providerRules[i].domain != table.providerRules[j].domain ==>
        table.providerRules[i].values.Keys !! table.providerRules[j].values.Keys
  }

  /** No recorded domain cites a provider rule of another domain. */
  ghost predicate OwnDomains(table: Table, provenance: map<Domain, Json>) {
    forall d :: d in provenance && EntryRule(table, provenance[d]).Some? && EntryRule(table, provenance[d]).value.kind == "provider" ==>
      EntryRule(table, provenance[d]).value.domain == Some(d)
  }

  /** Domain `d` is closed by a provider rule and holds exactly what that rule assigns. */
  ghost predicate Owned(engine: Engine, table: Table, r: Provider, d: Domain) {
    && d in r.provenance
    && WellFormedEntry(r.provenance[d])
    && EntryRule(table, r.provenance[d]).Some?
    && EntryRule(table, r.provenance[d]).value in table.providerRules
    && DomainMatches(engine, r, d, EntryRule(table, r.provenance[d]).value)
  }

  function DomainCell(m: map<Domain, Json>, d: Domain): Option<Json> {
    if d in m then Some(m[d]) else None
  }

  lemma RuleOrigin(table: Table, entry: Json)
    requires ProviderTable(table) && EntryRule(table, entry).Some?
    ensures var rule := EntryRule(table, entry).value;
            || (rule in table.modelRules && rule.kind == "model" && forall p :: p in rule.values ==> p.Fact?)
            || (rule in table.providerRules && rule.kind == "provider" && Named("provider_id") !in rule.values)
  {
    LookupFinds(AllRules(table), Member(entry, "rule_key").s);
    var rule := EntryRule(table, entry).value;
    var i :| 0 <= i < |AllRules(table)| && AllRules(table)[i] == rule;
    if i < |table.modelRules| {
      assert rule == table.modelRules[i];
    } else {
      assert rule == table.providerRules[i - |table.modelRules|];
      ProviderPayload(table, rule);
    }
  }

  lemma DifferentDomainsDiffer(table: Table, a: Rule, b: Rule)
    requires DisjointDomains(table) && a in table.providerRules && b in table.providerRules && a.domain != b.domain
    ensures a.values.Keys !! b.values.Keys
  {
    var i :| 0 <= i < |table.providerRules| && table.providerRules[i] == a;
    var j :| 0 <= j < |table.providerRules| && table.providerRules[j] == b;
  }

  // ---------- discarding ----------

  /** The rule cited by one domain never assigns a field of another closed domain. */
  lemma CitedRuleIsForeign(engine: Engine, table: Table, r: Provider, e: Domain, d: Domain)
    requires ProviderTable(table) && DisjointDomains(table) && OwnDomains(table, r.provenance) && e != d
    requires e in r.provenance && EntryRule(table, r.provenance[e]).Some? && Owned(engine, table, r, d)
    ensures EntryRule(table, r.provenance[e]).value.values.Keys !! EntryRule(table, r.provenance[d]).value.values.Keys
  {
    RuleOrigin(table, r.provenance[e]);
    var gone := EntryRule(table, r.provenance[e]).value;
    var rule := EntryRule(table, r.provenance[d]).value;
    ProviderPayload(table, rule);
    if gone.kind == "provider" {
      DifferentDomainsDiffer(table, gone, rule);
    }
  }

  lemma DiscardKeepsOwned(engine: Engine, table: Table, r: Provider, e: Domain, d: Domain)
    requires ProviderTable(table) && DisjointDomains(table) && OwnDomains(table, r.provenance) && e != d
    requires e in r.provenance && Owned(engine, table, r, d)
    ensures Owned(engine, table, Discard(table, r, e, r.provenance[e]), d)
  {
    if EntryRule(table, r.provenance[e]).Some? {
      CitedRuleIsForeign(engine, table, r, e, d);
    }
  }

  lemma DiscardKeepsId(table: Table, r: Provider, e: Domain)
    requires ProviderTable(table) && e in r.provenance
    ensures ProviderId(Discard(table, r, e, r.provenance[e])) == ProviderId(r)
  {
    if EntryRule(table, r.provenance[e]).Some? {
      RuleOrigin(table, r.provenance[e]);
    }
  }

  lemma DropOneFrames(engine: Engine, table: Table, r: Provider, e: Domain, d: Domain)
    requires ProviderTable(table) && DisjointDomains(table) && OwnDomains(table, r.provenance) && e != d
    ensures var y := DropOne(engine, table, r, e);
            && ProviderId(y) == ProviderId(r)
            && OwnDomains(table, y.provenance)
            && DomainCell(y.provenance, d) == DomainCell(r.provenance, d)
            && (Owned(engine, table, r, d) ==> Owned(engine, table, y, d))
  {
    if e in r.provenance {
      DiscardKeepsId(table, r, e);
      if Owned(engine, table, r, d) { DiscardKeepsOwned(engine, table, r, e, d); }
    }
  }

  lemma ProviderPayload(table: Table, rule: Rule)
    requires ProviderTable(table) && rule in table.providerRules
    ensures forall p :: p in rule.values ==> p.Named? && p != Named("provider_id")
    ensures rule.domain.Some? && !rule.domain.value.OtherDomain?
  {
    var i :| 0 <= i < |table.providerRules| && table.providerRules[i] == rule;
  }

  lemma KeptIsOwned(engine: Engine, table: Table, r: Provider, d: Domain)
    requires ProviderTable(table) && Closes(r)
    requires d in DropOne(engine, table, r, d).provenance
    ensures Owned(engine, table, DropOne(engine, table, r, d), d)
    ensures Keeps(engine, table, r, d, r.provenance[d])
    ensures DropOne(engine, table, r, d) == r
  {
    RuleOrigin(table, r.provenance[d]);
  }

  lemma {:induction false} DropStaleFacts(engine: Engine, table: Table, r: Provider, order: seq<Domain>)
    requires ProviderTable(table) && DisjointDomains(table) && OwnDomains(table, r.provenance) && Closes(r)
    requires forall i, j :: 0 <= i < j < |order| ==> order[i] != order[j]
    ensures var y := DropStale(engine, table, r, order);
            && ProviderId(y) == ProviderId(r)
            && OwnDomains(table, y.provenance)
            && Closes(y)
            && (forall d :: d in y.provenance ==> d in r.provenance && y.provenance[d] == r.provenance[d])
            && (forall d :: d in y.provenance && d in order ==>
                  Owned(engine, table, y, d) && StillApplies(engine, table, y.provenance[d], "provider", ProviderId(r), ""))
            && (forall d :: d !in order ==> DomainCell(y.provenance, d) == DomainCell(r.provenance, d))
            && (forall d :: d !in order && Owned(engine, table, r, d) ==> Owned(engine, table, y, d))
    decreases order
  {
    if order != [] {
      var e, rest := order[0], order[1..];
      var next := DropOne(engine, table, r, e);
      forall d | d != e
        ensures ProviderId(next) == ProviderId(r) && OwnDomains(table, next.provenance)
        ensures DomainCell(next.provenance, d) == DomainCell(r.provenance, d)
        ensures Owned(engine, table, r, d) ==> Owned(engine, table, next, d)
      {
        DropOneFrames(engine, table, r, e, d);
      }
      DropOneFrames(engine, table, r, e, if e == Identity then Endpoint else Identity);
      assert forall d :: d in next.provenance ==> d in r.provenance && next.provenance[d] == r.provenance[d];
      DropStaleFacts(engine, table, next, rest);
      assert e !in rest;
      assert forall d :: d in order <==> d == e || d in rest;
      var y := DropStale(engine, table, next, rest);
      assert DomainCell(y.provenance, e) == DomainCell(next.provenance, e);
      if e in next.provenance { KeptIsOwned(engine, table, r, e); }
      forall d | d !in order
        ensures DomainCell(y.provenance, d) == DomainCell(r.provenance, d)
      {
        assert DomainCell(next.provenance, d) == DomainCell(r.provenance, d);
      }
    }
  }

  // ---------- applying ----------

  lemma AssignKeepsOwned(engine: Engine, table: Table, r: Provider, rule: Rule, d: Domain)
    requires ProviderTable(table) && DisjointDomains(table) && rule in table.providerRules && rule.domain.Some?
    requires Owned(engine, table, r, d) && rule.domain.value !in r.provenance
    ensures Owned(engine, table, Assign(engine, r, rule), d)
  {
    DifferentDomainsDiffer(table, rule, EntryRule(table, r.provenance[d]).value);
  }

  lemma AssignOwns(engine: Engine, table: Table, r: Provider, rule: Rule)
    requires ProviderTable(table) && rule in table.providerRules && rule.domain.Some?
    ensures Owned(engine, table, Assign(engine, r, rule), rule.domain.value)
    ensures ProviderId(Assign(engine, r, rule)) == ProviderId(r)
  {
    ProviderRuleIsFound(table, rule);
    ProviderPayload(table, rule);
  }

  lemma ApplyOneFrames(engine: Engine, table: Table, providerId: string, r: Provider, rule: Rule, d: Domain)
    requires ProviderTable(table) && DisjointDomains(table) && rule in table.providerRules
    ensures var y := ApplyOne(engine, providerId, r, rule);
            && ProviderId(y) == ProviderId(r)
            && (d in r.provenance ==> d in y.provenance && y.provenance[d] == r.provenance[d])
            && (Owned(engine, table, r, d) ==> Owned(engine, table, y, d))
            && (d !in r.provenance && d in y.provenance ==> Owned(engine, table, y, d) && y.provenance[d] == NewEntry(rule))
            && (d !in y.provenance ==> DomainCell(y.completeness, d) == DomainCell(r.completeness, d))
            && r.fields.Keys <= y.fields.Keys && r.completeness.Keys <= y.completeness.Keys
  {
    if Fires(engine, providerId, r, rule) {
      AssignOwns(engine, table, r, rule);
      if Owned(engine, table, r, d) { AssignKeepsOwned(engine, table, r, rule, d); }
    }
  }

  lemma {:induction false} ApplyRulesFacts(engine: Engine, table: Table, providerId: string, r: Provider, rules: seq<Rule>)
    requires ProviderTable(table) && DisjointDomains(table)
    requires forall i :: 0 <= i < |rules| ==> rules[i] in table.providerRules
    ensures var y := ApplyRules(engine, providerId, r, rules);
            && ProviderId(y) == ProviderId(r)
            && (forall d :: d in r.provenance ==> d in y.provenance && y.provenance[d] == r.provenance[d])
            && (forall d :: Owned(engine, table, r, d) ==> Owned(engine, table, y, d))
            && (forall d :: d !in r.provenance && d in y.provenance ==> Owned(engine, table, y, d))
            && (forall d :: d !in y.provenance ==> DomainCell(y.completeness, d) == DomainCell(r.completeness, d))
            && r.fields.Keys <= y.fields.Keys && r.completeness.Keys <= y.completeness.Keys
    decreases rules
  {
    if rules != [] {
      var next := ApplyOne(engine, providerId, r, rules[0]);
      ApplyRulesFacts(engine, table, providerId, next, rules[1..]);
      var y := ApplyRules(engine, providerId, next, rules[1..]);
      forall d
        ensures ProviderId(y) == ProviderId(r)
        ensures d in r.provenance ==> d in y.provenance && y.provenance[d] == r.provenance[d]
        ensures Owned(engine, table, r, d) ==> Owned(engine, table, y, d)
        ensures d !in r.provenance && d in y.provenance ==> Owned(engine, table, y, d)
        ensures d !in y.provenance ==> DomainCell(y.completeness, d) == DomainCell(r.completeness, d)
        ensures r.fields.Keys <= y.fields.Keys && r.completeness.Keys <= y.completeness.Keys
      {
        ApplyOneFrames(engine, table, providerId, r, rules[0], d);
      }
    }
  }

  // ---------- the second pass replays the first ----------

  ghost predicate InPayload(table: Table, r: Provider, d: Domain, p: Path) {
    d in r.provenance && EntryRule(table, r.provenance[d]).Some? && p in EntryRule(table, r.provenance[d]).value.values
  }

  /** `z` is `x` with the domains in `pending` discarded and not yet applied again. */
  ghost predicate Pending(table: Table, x: Provider, z: Provider, pending: set<Domain>) {
    && pending <= x.provenance.Keys
    && z.provenance == x.provenance - pending
    && (forall d :: if d in pending then Level(z, d) == Str("missing") else DomainCell(z.completeness, d) == DomainCell(x.completeness, d))
    && (forall p :: (forall d :: d in pending ==> !InPayload(table, x, d, p)) ==> CellOf(z.fields, p) == CellOf(x.fields, p))
  }

  lemma DropOnePends(engine: Engine, table: Table, x: Provider, z: Provider, pending: set<Domain>, e: Domain)
    requires Pending(table, x, z, pending)
    ensures var y := DropOne(engine, table, z, e);
            Pending(table, x, y, if e in z.provenance && e !in y.provenance then pending + {e} else pending)
  {
    var y := DropOne(engine, table, z, e);
    if e in z.provenance && e !in y.provenance {
      var more := pending + {e};
      assert x.provenance[e] == z.provenance[e];
      forall p | forall d :: d in more ==> !InPayload(table, x, d, p)
        ensures CellOf(y.fields, p) == CellOf(x.fields, p)
      {
        assert !InPayload(table, x, e, p);
      }
    }
  }

  lemma {:induction false} DropStalePends(engine: Engine, table: Table, x: Provider, z: Provider, pending: set<Domain>, order: seq<Domain>)
    returns (all: set<Domain>)
    requires Pending(table, x, z, pending)
    ensures Pending(table, x, DropStale(engine, table, z, order), all)
    decreases order
  {
    all := pending;
    if order != [] {
      DropOnePends(engine, table, x, z, pending, order[0]);
      var y := DropOne(engine, table, z, order[0]);
      all := DropStalePends(engine, table, x, y,
        if order[0] in z.provenance && order[0] !in y.provenance then pending + {order[0]} else pending, order[1..]);
    }
  }

  lemma FiredStays(engine: Engine, table: Table, providerId: string, a: Provider, rule: Rule, rest: seq<Rule>)
    requires ProviderTable(table) && DisjointDomains(table) && rule in table.providerRules && rule.domain.Some?
    requires forall i :: 0 <= i < |rest| ==> rest[i] in table.providerRules
    ensures var x := ApplyRules(engine, providerId, Assign(engine, a, rule), rest);
            var d := rule.domain.value;
            && d in x.provenance && x.provenance[d] == NewEntry(rule)
            && Owned(engine, table, x, d)
            && rule.values.Keys <= x.fields.Keys && d in x.completeness
  {
    AssignOwns(engine, table, a, rule);
    ApplyRulesFacts(engine, table, providerId, Assign(engine, a, rule), rest);
  }

  /** A rule that closed a discarded domain in the first pass closes it again. */
  lemma ReplayFired(engine: Engine, table: Table, providerId: string, x: Provider, a: Provider, z: Provider, gone: set<Domain>, rule: Rule, rest: seq<Rule>)
    requires ProviderTable(table) && DisjointDomains(table) && rule in table.providerRules
    requires forall i :: 0 <= i < |rest| ==> rest[i] in table.providerRules
    requires Fires(engine, providerId, a, rule)
    requires x == ApplyRules(engine, providerId, Assign(engine, a, rule), rest)
    requires gone <= x.provenance.Keys
    requires Pending(table, x, z, gone - a.provenance.Keys)
    ensures Pending(table, x, ApplyOne(engine, providerId, z, rule), gone - ApplyOne(engine, providerId, a, rule).provenance.Keys)
  {
    assert ApplyOne(engine, providerId, a, rule).provenance.Keys == a.provenance.Keys + {rule.domain.value};
    var d := rule.domain.value;
    FiredStays(engine, table, providerId, a, rule, rest);
    ProviderRuleIsFound(table, rule);
    if d in gone {
      assert d in gone - a.provenance.Keys;
      assert Level(z, d) == Str("missing");
      ReplayFires(engine, table, x, z, gone - a.provenance.Keys, rule);
      assert gone - (a.provenance.Keys + {d}) == (gone - a.provenance.Keys) - {d};
    } else {
      assert gone - (a.provenance.Keys + {d}) == gone - a.provenance.Keys;
      assert d in z.provenance;
    }
  }

  /** A rule that did nothing in the first pass does nothing in the second. */
  lemma ReplayIdle(engine: Engine, table: Table, providerId: string, x: Provider, a: Provider, z: Provider, gone: set<Domain>, rule: Rule, rest: seq<Rule>)
    requires ProviderTable(table) && DisjointDomains(table) && rule in table.providerRules
    requires forall i :: 0 <= i < |rest| ==> rest[i] in table.providerRules
    requires !Fires(engine, providerId, a, rule)
    requires x == ApplyRules(engine, providerId, a, rest)
    requires Pending(table, x, z, gone - a.provenance.Keys)
    ensures Pending(table, x, ApplyOne(engine, providerId, z, rule), gone - ApplyOne(engine, providerId, a, rule).provenance.Keys)
  {
    ProviderPayload(table, rule);
    var d := rule.domain.value;
    ApplyRulesFacts(engine, table, providerId, a, rest);
    if d !in x.provenance {
      assert DomainCell(z.completeness, d) == DomainCell(x.completeness, d) == DomainCell(a.completeness, d);
    }
    if d !in a.provenance && Level(a, d) !in {Str("missing"), Str("partial")} {
      StaysOut(engine, table, providerId, a, rest, d);
    }
    assert !Fires(engine, providerId, z, rule);
  }

  /** One rule, in the first pass (`a`, ending in `x`) and in the second (`z`). */
  lemma ReplayOne(engine: Engine, table: Table, providerId: string, x: Provider, a: Provider, z: Provider, gone: set<Domain>, rule: Rule, rest: seq<Rule>)
    requires ProviderTable(table) && DisjointDomains(table) && rule in table.providerRules
    requires forall i :: 0 <= i < |rest| ==> rest[i] in table.providerRules
    requires x == ApplyRules(engine, providerId, ApplyOne(engine, providerId, a, rule), rest)
    requires gone <= x.provenance.Keys
    requires Pending(table, x, z, gone - a.provenance.Keys)
    ensures Pending(table, x, ApplyOne(engine, providerId, z, rule), gone - ApplyOne(engine, providerId, a, rule).provenance.Keys)
  {
    if Fires(engine, providerId, a, rule) {
      ReplayFired(engine, table, providerId, x, a, z, gone, rule, rest);
    } else {
      ReplayIdle(engine, table, providerId, x, a, z, gone, rule, rest);
    }
  }

  /** A domain that is neither open nor recorded is never closed. */
  lemma {:induction false} StaysOut(engine: Engine, table: Table, providerId: string, a: Provider, rules: seq<Rule>, d: Domain)
    requires d !in a.provenance && Level(a, d) !in {Str("missing"), Str("partial")}
    ensures d !in ApplyRules(engine, providerId, a, rules).provenance
    decreases rules
  {
    if rules != [] {
      StaysOut(engine, table, providerId, ApplyOne(engine, providerId, a, rules[0]), rules[1..], d);
    }
  }

  lemma ReplayFires(engine: Engine, table: Table, x: Provider, z: Provider, pending: set<Domain>, rule: Rule)
    requires ProviderTable(table) && rule in table.providerRules && rule.domain.Some?
    requires var d := rule.domain.value; d in pending && d in x.provenance && x.provenance[d] == NewEntry(rule) && Owned(engine, table, x, d)
    requires EntryRule(table, NewEntry(rule)) == Some(rule)
    requires rule.values.Keys <= x.fields.Keys && rule.domain.value in x.completeness
    requires Pending(table, x, z, pending)
    ensures Pending(table, x, Assign(engine, z, rule), pending - {rule.domain.value})
  {
    var d := rule.domain.value;
    var y := Assign(engine, z, rule);
    var left := pending - {d};
    assert y.provenance == x.provenance - left;
    forall p | forall e :: e in left ==> !InPayload(table, x, e, p)
      ensures CellOf(y.fields, p) == CellOf(x.fields, p)
    {
      ReplayedField(engine, table, x, z, pending, rule, p);
    }
    forall e
      ensures if e in left then Level(y, e) == Str("missing") else DomainCell(y.completeness, e) == DomainCell(x.completeness, e)
    {
      if e == d { assert Level(x, d) == Declared(rule); }
    }
  }

  lemma ReplayedField(engine: Engine, table: Table, x: Provider, z: Provider, pending: set<Domain>, rule: Rule, p: Path)
    requires rule.domain.Some?
    requires var d := rule.domain.value; d in pending && d in x.provenance && x.provenance[d] == NewEntry(rule) && Owned(engine, table, x, d)
    requires EntryRule(table, NewEntry(rule)) == Some(rule) && rule.values.Keys <= x.fields.Keys
    requires Pending(table, x, z, pending) && forall e :: e in pending - {rule.domain.value} ==> !InPayload(table, x, e, p)
    ensures CellOf(Assign(engine, z, rule).fields, p) == CellOf(x.fields, p)
  {
    if p in rule.values {
      assert Get(x.fields, p) == Canonical(engine.encode, rule.values[p]);
    } else {
      assert forall e :: e in pending ==> !InPayload(table, x, e, p);
    }
  }

  lemma {:induction false} Replay(engine: Engine, table: Table, providerId: string, x: Provider, a: Provider, z: Provider, gone: set<Domain>, rules: seq<Rule>)
    requires ProviderTable(table) && DisjointDomains(table)
    requires forall i :: 0 <= i < |rules| ==> rules[i] in table.providerRules
    requires x == ApplyRules(engine, providerId, a, rules)
    requires gone <= x.provenance.Keys
    requires Pending(table, x, z, gone - a.provenance.Keys)
    ensures Pending(table, x, ApplyRules(engine, providerId, z, rules), {})
    decreases rules
  {
    if rules == [] {
      assert gone - a.provenance.Keys == {};
    } else {
      ReplayOne(engine, table, providerId, x, a, z, gone, rules[0], rules[1..]);
      Replay(engine, table, providerId, x, ApplyOne(engine, providerId, a, rules[0]), ApplyOne(engine, providerId, z, rules[0]), gone, rules[1..]);
    }
  }

  // ---------- the theorem ----------

  /** What the first pass kept, the second keeps: only domains closed in the first pass can be discarded. */
  lemma {:induction false} KeptAgain(engine: Engine, table: Table, r: Provider, order: seq<Domain>, d: Domain)
    requires ProviderTable(table) && DisjointDomains(table) && OwnDomains(table, r.provenance) && Closes(r)
    requires forall i, j :: 0 <= i < j < |order| ==> order[i] != order[j]
    requires Owned(engine, table, r, d)
    requires StillApplies(engine, table, r.provenance[d], "provider", ProviderId(r), "")
    ensures d in DropStale(engine, table, r, order).provenance
    decreases order
  {
    if order != [] {
      var next := DropOne(engine, table, r, order[0]);
      if order[0] == d {
        assert Keeps(engine, table, r, d, r.provenance[d]);
        assert next == r;
      } else {
        DropOneFrames(engine, table, r, order[0], d);
        assert DomainCell(next.provenance, d) == DomainCell(r.provenance, d);
      }
      assert forall e :: e in next.provenance ==> e in r.provenance && next.provenance[e] == r.provenance[e];
      KeptAgain(engine, table, next, order[1..], d);
    }
  }

  lemma ClosedOwns(engine: Engine, table: Table, r: Provider, order: seq<Domain>)
    requires ProviderTable(table) && DisjointDomains(table) && OwnDomains(table, r.provenance) && Closes(r)
    requires IsOrderOf(order, r.provenance.Keys)
    ensures var once := Closed(engine, table, r, order);
            && ProviderId(once) == ProviderId(r)
            && Closes(once)
            && OwnDomains(table, once.provenance)
            && (forall d :: d in once.provenance ==> Owned(engine, table, once, d))
  {
    var a := DropStale(engine, table, r, order);
    DropStaleFacts(engine, table, r, order);
    ApplyRulesFacts(engine, table, ProviderId(r), a, table.providerRules);
    var x := ApplyRules(engine, ProviderId(r), a, table.providerRules);
    var once := Closed(engine, table, r, order);
    forall d | d in once.provenance
      ensures Owned(engine, table, once, d) && !d.OtherDomain?
    {
      if d in a.provenance { assert d in order; }
      assert Owned(engine, table, x, d);
      ProviderPayload(table, EntryRule(table, x.provenance[d]).value);
    }
  }

  /** Only domains closed during the first pass can be discarded by the second. */
  lemma SecondDrop(engine: Engine, table: Table, r: Provider, order: seq<Domain>, again: seq<Domain>) returns (gone: set<Domain>)
    requires ProviderTable(table) && DisjointDomains(table) && OwnDomains(table, r.provenance) && Closes(r)
    requires IsOrderOf(order, r.provenance.Keys)
    requires IsOrderOf(again, Closed(engine, table, r, order).provenance.Keys)
    ensures var a := DropStale(engine, table, r, order);
            var x := ApplyRules(engine, ProviderId(r), a, table.providerRules);
            && gone - a.provenance.Keys == gone
            && Pending(table, x, DropStale(engine, table, Closed(engine, table, r, order), again), gone)
  {
    var a := DropStale(engine, table, r, order);
    var x := ApplyRules(engine, ProviderId(r), a, table.providerRules);
    var once := Closed(engine, table, r, order);
    assert x.provenance - {} == x.provenance;
    gone := DropStalePends(engine, table, x, once, {}, again);
    forall d | d in a.provenance
      ensures d !in gone
    {
      KeptStays(engine, table, r, order, again, d);
    }
  }

  lemma KeptKeepsApplying(engine: Engine, table: Table, r: Provider, order: seq<Domain>, d: Domain)
    requires ProviderTable(table) && DisjointDomains(table) && OwnDomains(table, r.provenance) && Closes(r)
    requires IsOrderOf(order, r.provenance.Keys) && d in DropStale(engine, table, r, order).provenance
    ensures var once := Closed(engine, table, r, order);
            d in once.provenance && StillApplies(engine, table, once.provenance[d], "provider", ProviderId(r), "")
  {
    var a := DropStale(engine, table, r, order);
    DropStaleFacts(engine, table, r, order);
    assert d in order;
    ApplyRulesFacts(engine, table, ProviderId(r), a, table.providerRules);
  }

  lemma KeptStays(engine: Engine, table: Table, r: Provider, order: seq<Domain>, again: seq<Domain>, d: Domain)
    requires ProviderTable(table) && DisjointDomains(table) && OwnDomains(table, r.provenance) && Closes(r)
    requires IsOrderOf(order, r.provenance.Keys)
    requires IsOrderOf(again, Closed(engine, table, r, order).provenance.Keys)
    requires d in DropStale(engine, table, r, order).provenance
    ensures d in DropStale(engine, table, Closed(engine, table, r, order), again).provenance
  {
    ClosedOwns(engine, table, r, order);
    KeptKeepsApplying(engine, table, r, order, d);
    KeptAgain(engine, table, Closed(engine, table, r, order), again, d);
  }

  /** Closing twice is closing once then, in whatever order the recorded domains are visited. */
  lemma ProviderFixpoint(engine: Engine, table: Table, r: Provider, order: seq<Domain>, again: seq<Domain>)
    requires ProviderTable(table) && DisjointDomains(table) && OwnDomains(table, r.provenance) && Closes(r)
    requires IsOrderOf(order, r.provenance.Keys)
    requires IsOrderOf(again, Closed(engine, table, r, order).provenance.Keys)
    ensures var once := Closed(engine, table, r, order);
            Closes(once) && Closed(engine, table, once, again) == once
  {
    var providerId := ProviderId(r);
    var a := DropStale(engine, table, r, order);
    var x := ApplyRules(engine, providerId, a, table.providerRules);
    var y := DropStale(engine, table, Closed(engine, table, r, order), again);
    ClosedOwns(engine, table, r, order);
    var gone := SecondDrop(engine, table, r, order, again);
    Replay(engine, table, providerId, x, a, y, gone, table.providerRules);
    var z := ApplyRules(engine, providerId, y, table.providerRules);
    PendingNothing(table, x, z);
    assert Scenarios(z) == Scenarios(x);
  }

  lemma PendingNothing(table: Table, x: Provider, z: Provider)
    requires Pending(table, x, z, {})
    ensures z.fields == x.fields && z.completeness == x.completeness && z.provenance == x.provenance
  {
    MapsByCells(z.fields, x.fields);
    forall d
      ensures d in z.completeness <==> d in x.completeness
      ensures d in z.completeness ==> z.completeness[d] == x.completeness[d]
    {
      assert DomainCell(z.completeness, d) == DomainCell(x.completeness, d);
    }
  }

  // ---------- a shared field ----------

  function SharingRule(key: string, pattern: string, d: Domain, name: string, value: Json): Rule {
    Rule(key, "provider", None, Some(pattern), Some(d), None, map[Named(name) := value])
  }

  function SharingTable(pattern: string, name: string, v: Json, w: Json): Table {
    Table([], [SharingRule("a", pattern, Endpoint, name, v), SharingRule("b", pattern, Discovery, name, w)])
  }

  function OpenProvider(providerId: string): Provider {
    Provider(map[Named("provider_id") := Str(providerId)], map[Discovery := Str("missing"), Endpoint := Str("missing")], map[], [])
  }

  lemma SharingTableIsValid(pattern: string, name: string, v: Json, w: Json)
    requires name != "provider_id"
    ensures ProviderTable(SharingTable(pattern, name, v, w))
  {
  }

  lemma SharedFirstPass(engine: Engine, pattern: string, providerId: string, name: string, v: Json, w: Json)
    requires engine.search(pattern, providerId) && name != "provider_id"
    ensures var table := SharingTable(pattern, name, v, w);
            var once := Closed(engine, table, OpenProvider(providerId), []);
            && once.fields == map[Named("provider_id") := Str(providerId), Named(name) := Canonical(engine.encode, w)]
            && once.completeness == map[Discovery := Str("complete"), Endpoint := Str("complete")]
            && once.provenance == map[Endpoint := NewEntry(table.providerRules[0]), Discovery := NewEntry(table.providerRules[1])]
  {
    var table := SharingTable(pattern, name, v, w);
    var r := OpenProvider(providerId);
    var a, b := table.providerRules[0], table.providerRules[1];
    TwoRules(engine, providerId, r, a, b);
    assert Fires(engine, providerId, r, a);
    assert Fires(engine, providerId, Assign(engine, r, a), b);
    SharedAssign(engine, r, a, b, name, v, w);
  }

  lemma SharedAssign(engine: Engine, r: Provider, a: Rule, b: Rule, name: string, v: Json, w: Json)
    requires a.domain == Some(Endpoint) && b.domain == Some(Discovery) && a.completeness == b.completeness == None
    requires a.values == map[Named(name) := v] && b.values == map[Named(name) := w]
    requires r.provenance == map[] && r.completeness.Keys == {Discovery, Endpoint} && r.fields.Keys == {Named("provider_id")}
    ensures var x := Assign(engine, Assign(engine, r, a), b);
            && x.fields == r.fields[Named(name) := Canonical(engine.encode, w)]
            && x.completeness == map[Discovery := Str("complete"), Endpoint := Str("complete")]
            && x.provenance == map[Endpoint := NewEntry(a), Discovery := NewEntry(b)]
  {
    SharedFields(engine, r, a, b, name, v, w);
    TwoUpdates(r.completeness, Endpoint, Str("complete"), Discovery, Str("complete"));
    TwoUpdates(r.provenance, Endpoint, NewEntry(a), Discovery, NewEntry(b));
  }

  lemma SharedFields(engine: Engine, r: Provider, a: Rule, b: Rule, name: string, v: Json, w: Json)
    requires a.domain.Some? && b.domain.Some?
    requires a.values == map[Named(name) := v] && b.values == map[Named(name) := w]
    ensures Assign(engine, Assign(engine, r, a), b).fields == r.fields[Named(name) := Canonical(engine.encode, w)]
  {
    SingleAssign(engine, r, a, Named(name), v);
    SingleAssign(engine, Assign(engine, r, a), b, Named(name), w);
  }

  lemma SingleAssign(engine: Engine, r: Provider, rule: Rule, p: Path, v: Json)
    requires rule.domain.Some? && rule.values == map[p := v]
    ensures Assign(engine, r, rule).fields == r.fields[p := Canonical(engine.encode, v)]
  {
    var after := Assign(engine, r, rule).fields;
    assert rule.values.Keys == {p};
    assert after.Keys == r.fields.Keys + {p};
    assert after[p] == Canonical(engine.encode, v);
  }

  lemma TwoUpdates(m: map<Domain, Json>, d: Domain, x: Json, e: Domain, y: Json)
    requires d != e && m.Keys <= {d, e}
    ensures m[d := x][e := y] == map[d := x, e := y]
  {
  }

  lemma SharedSecondPass(engine: Engine, pattern: string, providerId: string, name: string, v: Json, w: Json, once: Provider, again: seq<Domain>)
    requires engine.search(pattern, providerId) && name != "provider_id"
    requires Canonical(engine.encode, v) != Canonical(engine.encode, w)
    requires IsOrderOf(again, {Discovery, Endpoint})
    requires var table := SharingTable(pattern, name, v, w);
            && once.fields == map[Named("provider_id") := Str(providerId), Named(name) := Canonical(engine.encode, w)]
            && once.completeness == map[Discovery := Str("complete"), Endpoint := Str("complete")]
            && once.provenance == map[Endpoint := NewEntry(table.providerRules[0]), Discovery := NewEntry(table.providerRules[1])]
    ensures Get(Closed(engine, SharingTable(pattern, name, v, w), once, again).fields, Named(name)) == Canonical(engine.encode, v)
  {
    var table := SharingTable(pattern, name, v, w);
    var a, b := table.providerRules[0], table.providerRules[1];
    SharingTableIsValid(pattern, name, v, w);
    ProviderRuleIsFound(table, a);
    ProviderRuleIsFound(table, b);
    SharedDrop(engine, table, a, b, name, v, w, once);
    var open := Discard(table, once, Endpoint, once.provenance[Endpoint]);
    TwoDomains(engine, table, once, again);
    SharedReapply(engine, providerId, open, a, b, name, v);
  }

  lemma SharedReapply(engine: Engine, providerId: string, open: Provider, a: Rule, b: Rule, name: string, v: Json)
    requires Fires(engine, providerId, open, a) && a.domain == Some(Endpoint) && a.values == map[Named(name) := v]
    requires b.domain == Some(Discovery) && Discovery in open.provenance
    ensures Get(ApplyRules(engine, providerId, open, [a, b]).fields, Named(name)) == Canonical(engine.encode, v)
  {
    TwoRules(engine, providerId, open, a, b);
    assert Discovery in Assign(engine, open, a).provenance;
  }

  lemma FirstIsOverwritten(engine: Engine, table: Table, a: Rule, name: string, v: Json, w: Json, once: Provider)
    requires Canonical(engine.encode, v) != Canonical(engine.encode, w)
    requires RuleFor(table, Str("a")) == Some(a) && a.key == "a" && a.values == map[Named(name) := v]
    requires Get(once.fields, Named(name)) == Canonical(engine.encode, w) && Endpoint in once.provenance && once.provenance[Endpoint] == NewEntry(a)
    ensures var open := Discard(table, once, Endpoint, once.provenance[Endpoint]);
            open.fields == once.fields && DropOne(engine, table, once, Endpoint) == open
  {
    CanonicalIdempotent(engine.encode, w);
    assert a.values[Named(name)] == v && Get(once.fields, Named(name)) != Canonical(engine.encode, v);
    assert !Keeps(engine, table, once, Endpoint, once.provenance[Endpoint]);
    assert Discard(table, once, Endpoint, once.provenance[Endpoint]).fields == once.fields;
  }

  lemma SecondIsKept(engine: Engine, table: Table, b: Rule, name: string, w: Json, r: Provider)
    requires RuleFor(table, Str("b")) == Some(b) && b.key == "b" && b.values == map[Named(name) := w] && b.kind == "provider"
    requires b.domain == Some(Discovery) && b.completeness == None && RuleMatches(engine, b, ProviderId(r), "")
    requires Get(r.fields, Named(name)) == Canonical(engine.encode, w) && Level(r, Discovery) == Str("complete")
    requires Discovery in r.provenance && r.provenance[Discovery] == NewEntry(b)
    ensures DropOne(engine, table, r, Discovery) == r
  {
    assert Keeps(engine, table, r, Discovery, r.provenance[Discovery]);
  }

  /** Only the overwritten domain is discarded, whatever the order; its field keeps the other rule's value. */
  lemma SharedDrop(engine: Engine, table: Table, a: Rule, b: Rule, name: string, v: Json, w: Json, once: Provider)
    requires Canonical(engine.encode, v) != Canonical(engine.encode, w)
    requires RuleFor(table, Str("a")) == Some(a) && RuleFor(table, Str("b")) == Some(b) && a.key == "a" && b.key == "b"
    requires a.values == map[Named(name) := v] && b.values == map[Named(name) := w] && b.kind == "provider"
    requires b.domain == Some(Discovery) && b.completeness == None
    requires RuleMatches(engine, b, ProviderId(once), "") && name != "provider_id"
    requires Get(once.fields, Named(name)) == Canonical(engine.encode, w) && Level(once, Discovery) == Str("complete")
    requires once.provenance == map[Endpoint := NewEntry(a), Discovery := NewEntry(b)]
    ensures var open := Discard(table, once, Endpoint, once.provenance[Endpoint]);
            && open.fields == once.fields
            && DropOne(engine, table, once, Endpoint) == open && DropOne(engine, table, once, Discovery) == once
            && DropOne(engine, table, open, Discovery) == open
  {
    FirstIsOverwritten(engine, table, a, name, v, w, once);
    SecondIsKept(engine, table, b, name, w, once);
    SecondIsKept(engine, table, b, name, w, Discard(table, once, Endpoint, once.provenance[Endpoint]));
  }

  /** A table of one endpoint and one discovery rule that give their only field different values never settles:
      for every provider id both match, the second pass reopens the first domain and overwrites the field. */
  lemma SharedFieldNeverSettles(engine: Engine, pattern: string, providerId: string, name: string, v: Json, w: Json, again: seq<Domain>)
    requires engine.search(pattern, providerId) && name != "provider_id"
    requires Canonical(engine.encode, v) != Canonical(engine.encode, w)
    requires IsOrderOf(again, {Discovery, Endpoint})
    ensures var table, r := SharingTable(pattern, name, v, w), OpenProvider(providerId);
            ProviderTable(table) && OwnDomains(table, r.provenance) && Closes(r)
            && Closed(engine, table, Closed(engine, table, r, []), again) != Closed(engine, table, r, [])
  {
    SharingTableIsValid(pattern, name, v, w);
    SharedFirstPass(engine, pattern, providerId, name, v, w);
    SharedSecondPass(engine, pattern, providerId, name, v, w, Closed(engine, SharingTable(pattern, name, v, w), OpenProvider(providerId), []), again);
  }

  lemma TwoRules(engine: Engine, providerId: string, r: Provider, a: Rule, b: Rule)
    ensures ApplyRules(engine, providerId, r, [a, b]) == ApplyOne(engine, providerId, ApplyOne(engine, providerId, r, a), b)
  {
    var next := ApplyOne(engine, providerId, r, a);
    assert [a, b][1..] == [b];
    assert ApplyRules(engine, providerId, next, [b]) == ApplyRules(engine, providerId, ApplyOne(engine, providerId, next, b), []);
  }

  lemma {:induction false} DistinctWithin(order: seq<Domain>, all: set<Domain>)
    requires forall i, j :: 0 <= i < j < |order| ==> order[i] != order[j]
    requires forall k :: 0 <= k < |order| ==> order[k] in all
    ensures |order| <= |all|
  {
    if order != [] {
      DistinctWithin(order[1..], all - {order[0]});
    }
  }

  lemma TwoDomains(engine: Engine, table: Table, r: Provider, order: seq<Domain>)
    requires IsOrderOf(order, {Discovery, Endpoint})
    ensures || DropStale(engine, table, r, order) == DropOne(engine, table, DropOne(engine, table, r, Discovery), Endpoint)
            || DropStale(engine, table, r, order) == DropOne(engine, table, DropOne(engine, table, r, Endpoint), Discovery)
  {
    assert Discovery in order && Endpoint in order;
    forall k | 0 <= k < |order|
      ensures order[k] in {Discovery, Endpoint}
    {
      assert order[k] in order;
    }
    DistinctWithin(order, {Discovery, Endpoint});
    assert |order| == 2;
    assert order == [order[0], order[1]];
    var next := DropOne(engine, table, r, order[0]);
    assert order[1..] == [order[1]];
    assert DropStale(engine, table, next, [order[1]]) == DropStale(engine, table, DropOne(engine, table, next, order[1]), []);
  }
}
