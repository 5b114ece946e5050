/** `close_provider_record`: discarding stale domains, applying provider rules, and why a second pass
    changes nothing. */
module ProviderClosure {
  import opened Wrappers
  import opened Json
  import opened ModelFields

  datatype Provider = Provider(
    fields: map<Path, Json>,
    completeness: map<Domain, Json>,
    provenance: map<Domain, Json>,
    usableFor: seq<string>)

  function Level(r: Provider, d: Domain): Json {
    if d in r.completeness then r.completeness[d] else Null
  }

  function Declared(rule: Rule): Json {
    if rule.completeness.Some? then rule.completeness.value else Str("complete")
  }

  function ProviderId(r: Provider): string {
    Text(Get(r.fields, Named("provider_id")))
  }

  /** `domain_matches`: the level and every assigned field are what the rule gives. */
  ghost predicate DomainMatches(engine: Engine, r: Provider, d: Domain, rule: Rule) {
    && rule.domain == Some(d)
    && Level(r, d) == Declared(rule)
    && forall p :: p in rule.values ==> Get(r.fields, p) == Canonical(engine.encode, rule.values[p])
  }

  ghost predicate Keeps(engine: Engine, table: Table, r: Provider, d: Domain, entry: Json) {
    && StillApplies(engine, table, entry, "provider", ProviderId(r), "")
    && DomainMatches(engine, r, d, EntryRule(table, entry).value)
  }

  /** A stale domain: fields still holding the raw assignment are emptied, the level becomes missing. */
  function Discard(table: Table, r: Provider, d: Domain, entry: Json): Provider {
    var rule := EntryRule(table, entry);
    Provider(
      if rule.None? then r.fields
      else r.fields + map p | p in rule.value.values && Get(r.fields, p) == rule.value.values[p] :: Arr([]),
      r.completeness[d := Str("missing")],
      r.provenance - {d},
      r.usableFor)
  }

  ghost function DropOne(engine: Engine, table: Table, r: Provider, d: Domain): Provider {
    if d in r.provenance && !Keeps(engine, table, r, d, r.provenance[d]) then Discard(table, r, d, r.provenance[d]) else r
  }

  ghost function DropStale(engine: Engine, table: Table, r: Provider, order: seq<Domain>): Provider
    decreases order
  {
    if order == [] then r else DropStale(engine, table, DropOne(engine, table, r, order[0]), order[1..])
  }

  predicate Fires(engine: Engine, providerId: string, r: Provider, rule: Rule) {
    && rule.providerPattern.Some? && engine.search(rule.providerPattern.value, providerId)
    && rule.domain.Some? && !rule.domain.value.OtherDomain?
    && rule.domain.value !in r.provenance
    && Level(r, rule.domain.value) in {Str("missing"), Str("partial")}
  }

  function Assign(engine: Engine, r: Provider, rule: Rule): Provider
    requires rule.domain.Some?
  {
    Provider(
      r.fields + map p | p in rule.values :: Canonical(engine.encode, rule.values[p]),
      r.completeness[rule.domain.value := Declared(rule)],
      r.provenance[rule.domain.value := NewEntry(rule)],
      r.usableFor)
  }

  function ApplyOne(engine: Engine, providerId: string, r: Provider, rule: Rule): Provider {
    if Fires(engine, providerId, r, rule) then Assign(engine, r, rule) else r
  }

  function ApplyRules(engine: Engine, providerId: string, r: Provider, rules: seq<Rule>): Provider
    decreases rules
  {
    if rules == [] then r else ApplyRules(engine, providerId, ApplyOne(engine, providerId, r, rules[0]), rules[1..])
  }

  /** The scenarios of `derive_provider_scenarios` before they are sorted. */
  function ScenarioList(r: Provider): seq<string> {
    ["provider-directory"]
    + (if Level(r, Endpoint) == Str("complete") then ["custom-api-endpoint-prefill"]
       else if Truthy(Get(r.fields, Named("unsupported_api_styles"))) || Truthy(Get(r.fields, Named("unsupported_transport_locators")))
       then ["adapter-planning"] else [])
    + (if Level(r, Authentication) != Str("missing") then ["credential-setup-hint"] else [])
    + (if Level(r, Discovery) != Str("missing") then ["model-discovery-setup"] else [])
  }

  function Scenarios(r: Provider): seq<string> {
    SortUnique(ScenarioList(r), x => x)
  }

  ghost function Closed(engine: Engine, table: Table, r: Provider, order: seq<Domain>): Provider {
    var applied := ApplyRules(engine, ProviderId(r), DropStale(engine, table, r, order), table.providerRules);
    applied.(usableFor := Scenarios(applied))
  }

  /** No error is reported: provenance is well formed and about closable domains. */
  predicate Closes(r: Provider) {
    forall d :: d in r.provenance ==> WellFormedEntry(r.provenance[d]) && !d.OtherDomain?
  }

  /** The entry of `d` causes no error. */
  predicate Reportable(r: Provider, d: Domain) {
    d in r.provenance ==> WellFormedEntry(r.provenance[d]) && !d.OtherDomain?
  }

  lemma DropStaleEnd(engine: Engine, table: Table, r: Provider, order: seq<Domain>)
    ensures DropStale(engine, table, r, order[|order|..]) == r
  {
  }

  lemma AllReportable(r: Provider, order: seq<Domain>)
    requires IsOrderOf(order, r.provenance.Keys)
    requires forall j :: 0 <= j < |order| ==> Reportable(r, order[j])
    ensures Closes(r)
  {
    forall d | d in r.provenance
      ensures Reportable(r, d)
    {
      assert d in order;
    }
  }

  lemma DropStaleStep(engine: Engine, table: Table, r: Provider, order: seq<Domain>, i: nat)
    requires i < |order|
    ensures DropStale(engine, table, r, order[i..]) == DropStale(engine, table, DropOne(engine, table, r, order[i]), order[i + 1..])
  {
    assert order[i..][1..] == order[i + 1..];
  }

  ghost predicate IsOrderOf(order: seq<Domain>, keys: set<Domain>) {
    && (forall i, j :: 0 <= i < j < |order| ==> order[i] != order[j])
    && (forall d :: d in keys <==> d in order)
  }

  class ProviderRecord {
    var fields: map<Path, Json>
    var completeness: map<Domain, Json>
    var provenance: map<Domain, Json>
    var usableFor: seq<string>

    ghost function Value(): Provider
      reads this
    {
      Provider(fields, completeness, provenance, usableFor)
    }

    constructor (r: Provider)
      ensures Value() == r
    {
      fields, completeness, provenance, usableFor := r.fields, r.completeness, r.provenance, r.usableFor;
    }

    /** The whole pass, visiting the recorded domains in the given order. */
    method Close(engine: Engine, table: Table, order: seq<Domain>) returns (ok: bool)
      requires IsOrderOf(order, provenance.Keys)
      modifies this
      ensures ok == Closes(old(Value()))
      ensures ok ==> Value() == Closed(engine, table, old(Value()), order)
    {
      var providerId := Text(Get(fields, Named("provider_id")));
      ok := DropStaleDomains(engine, table, order);
      ApplyProviderRules(engine, providerId, table.providerRules);
      usableFor := Scenarios(Provider(fields, completeness, provenance, usableFor));
    }

    method DropStaleDomains(engine: Engine, table: Table, order: seq<Domain>) returns (ok: bool)
      requires IsOrderOf(order, provenance.Keys)
      modifies this
      ensures ok == Closes(old(Value()))
      ensures ok ==> Value() == DropStale(engine, table, old(Value()), order)
    {
      ghost var r := Value();
      ok := true;
      for i := 0 to |order|
        invariant forall j :: i <= j < |order| ==> order[j] in provenance && provenance[order[j]] == r.provenance[order[j]]
        invariant ok ==> forall j :: 0 <= j < i ==> Reportable(r, order[j])
        invariant !ok ==> !Closes(r)
        invariant ok ==> DropStale(engine, table, r, order) == DropStale(engine, table, Value(), order[i..])
      {
        if !WellFormedEntry(provenance[order[i]]) || order[i].OtherDomain? {
          ok := false;
        } else {
          DropStaleStep(engine, table, Value(), order, i);
          DropDomain(engine, table, order[i]);
        }
      }
      DropStaleEnd(engine, table, Value(), order);
      if ok { AllReportable(r, order); }
    }

    method DropDomain(engine: Engine, table: Table, d: Domain)
      requires d in provenance
      modifies this
      ensures Value() == DropOne(engine, table, old(Value()), d)
      ensures forall e :: e != d && e in old(provenance) ==> e in provenance && provenance[e] == old(provenance)[e]
    {
      var entry := provenance[d];
      var rule := EntryRule(table, entry);
      var keep := StillApplies(engine, table, entry, "provider", Text(Get(fields, Named("provider_id"))), "");
      if keep { keep := CheckDomain(engine, d, rule.value); }
      if !keep {
        if rule.Some? {
          fields := fields + map p | p in rule.value.values && Get(fields, p) == rule.value.values[p] :: Arr([]);
        }
        completeness := completeness[d := Str("missing")];
        provenance := provenance - {d};
      }
    }

    method ApplyProviderRules(engine: Engine, providerId: string, rules: seq<Rule>)
      modifies this
      ensures Value() == ApplyRules(engine, providerId, old(Value()), rules)
    {
      ghost var r := Value();
      for i := 0 to |rules|
        invariant ApplyRules(engine, providerId, r, rules) == ApplyRules(engine, providerId, Value(), rules[i..])
      {
        assert rules[i..][1..] == rules[i + 1..];
        ApplyRule(engine, providerId, rules[i]);
      }
    }

    method ApplyRule(engine: Engine, providerId: string, rule: Rule)
      modifies this
      ensures Value() == ApplyOne(engine, providerId, old(Value()), rule)
    {
      if Fires(engine, providerId, Provider(fields, completeness, provenance, usableFor), rule) {
        fields := fields + map p | p in rule.values :: Canonical(engine.encode, rule.values[p]);
        completeness := completeness[rule.domain.value := Declared(rule)];
        provenance := provenance[rule.domain.value := NewEntry(rule)];
      }
    }

    method CheckDomain(engine: Engine, d: Domain, rule: Rule) returns (ok: bool)
      ensures ok == DomainMatches(engine, Value(), d, rule)
    {
      ok := rule.domain == Some(d)
            && (if d in completeness then completeness[d] else Null) == Declared(rule)
            && forall p :: p in rule.values ==> Get(fields, p) == Canonical(engine.encode, rule.values[p]);
    }
  }
}
