/** `check_closure_provenance` for provider records, and what a closure hands to it. */
module ProviderValidator {
  import opened Wrappers
  import opened Json
  import opened ModelFields
  import opened ProviderClosure
  import opened ProviderIdempotence
  import opened ProviderKept

  datatype Defect =
    | NonClosable | MalformedEntry | UnknownRule | WrongKind | DoesNotMatch | AnotherDomain | DifferentLevel | DifferentValue(path: Path)

  datatype Finding = Finding(domain: Domain, defect: Defect)

  /** The recorded rule matches the provider, closes this domain, and gave exactly the stored values. */
  ghost predicate DomainTraceable(engine: Engine, table: Table, r: Provider, d: Domain, entry: Json) {
    && !d.OtherDomain?
    && entry.Obj? && entry.fields.Keys == {"basis", "rule_key"}
    && entry.fields["basis"] == Str("inferred")
    && exists rule ::
      && RuleFor(table, entry.fields["rule_key"]) == Some(rule)
      && rule.kind == "provider"
      && RuleMatches(engine, rule, ProviderId(r), "")
      && rule.domain == Some(d)
      && Level(r, d) == Declared(rule)
      && forall p :: p in rule.values ==> Get(r.fields, p) == Canonical(engine.encode, rule.values[p])
  }

  ghost predicate Traceable(engine: Engine, table: Table, r: Provider) {
    forall d :: d in r.provenance ==> DomainTraceable(engine, table, r, d, r.provenance[d])
  }

  /** Findings are about exactly the untraceable domains. */
  method CheckClosureProvenance(engine: Engine, table: Table, r: Provider) returns (findings: set<Finding>)
    ensures findings == {} <==> Traceable(engine, table, r)
    ensures forall d :: (exists q :: q in findings && q.domain == d)
              <==> d in r.provenance && !DomainTraceable(engine, table, r, d, r.provenance[d])
  {
    findings := {};
    var pending := r.provenance.Keys;
    while pending != {}
      invariant pending <= r.provenance.Keys
      invariant forall q :: q in findings ==>
        q.domain in r.provenance && q.domain !in pending && !DomainTraceable(engine, table, r, q.domain, r.provenance[q.domain])
      invariant forall d :: d in r.provenance && d !in pending && !DomainTraceable(engine, table, r, d, r.provenance[d]) ==>
        exists q :: q in findings && q.domain == d
    {
      var d :| d in pending;
      var found := CheckDomain(engine, table, r, d, r.provenance[d]);
      ghost var before := findings;
      findings := findings + found;
      pending := pending - {d};
      forall e | e in r.provenance && e !in pending && !DomainTraceable(engine, table, r, e, r.provenance[e])
        ensures exists q :: q in findings && q.domain == e
      {
        if e == d {
          var q :| q in found;
          assert q in findings;
        } else {
          var q :| q in before && q.domain == e;
          assert q in findings;
        }
      }
    }
    forall d | d in r.provenance && !DomainTraceable(engine, table, r, d, r.provenance[d])
      ensures findings != {}
    {
      var q :| q in findings && q.domain == d;
    }
    if findings != {} {
      var q :| q in findings;
    }
  }

  method CheckDomain(engine: Engine, table: Table, r: Provider, d: Domain, entry: Json) returns (findings: set<Finding>)
    ensures findings == {} <==> DomainTraceable(engine, table, r, d, entry)
    ensures forall q :: q in findings ==> q.domain == d
  {
    if d.OtherDomain? { return {Finding(d, NonClosable)}; }
    if !TwoKeys(entry) || Member(entry, "basis") != Str("inferred") { return {Finding(d, MalformedEntry)}; }
    var found := RuleFor(table, entry.fields["rule_key"]);
    if found.None? { return {Finding(d, UnknownRule)}; }
    var rule := found.value;
    if rule.kind != "provider" { return {Finding(d, WrongKind)}; }
    if !RuleMatches(engine, rule, ProviderId(r), "") { return {Finding(d, DoesNotMatch)}; }
    if rule.domain != Some(d) { return {Finding(d, AnotherDomain)}; }
    findings := CheckValues(engine, r, d, rule);
    if Level(r, d) != Declared(rule) { findings := findings + {Finding(d, DifferentLevel)}; }
  }

  /** One finding for each assigned field that holds something else. */
  method CheckValues(engine: Engine, r: Provider, d: Domain, rule: Rule) returns (findings: set<Finding>)
    ensures forall q :: q in findings <==>
      q.domain == d && q.defect.DifferentValue? && q.defect.path in rule.values
      && Get(r.fields, q.defect.path) != Canonical(engine.encode, rule.values[q.defect.path])
    ensures findings == {} <==> forall p :: p in rule.values ==> Get(r.fields, p) == Canonical(engine.encode, rule.values[p])
  {
    findings := set p | p in rule.values && Get(r.fields, p) != Canonical(engine.encode, rule.values[p]) :: Finding(d, DifferentValue(p));
    forall p | p in rule.values && Get(r.fields, p) != Canonical(engine.encode, rule.values[p])
      ensures findings != {}
    {
      assert Finding(d, DifferentValue(p)) in findings;
    }
  }

  // ---------- what a closure hands to the validator ----------

  predicate TwoKeys(entry: Json) {
    entry.Obj? && entry.fields.Keys == {"basis", "rule_key"}
  }

  /** The validator's separate check and the closure's own test of a stale domain agree, save for extra keys. */
  lemma DomainTraceableIff(engine: Engine, table: Table, r: Provider, d: Domain, entry: Json)
    ensures DomainTraceable(engine, table, r, d, entry) <==> !d.OtherDomain? && TwoKeys(entry) && Keeps(engine, table, r, d, entry)
  {
    if TwoKeys(entry) && Keeps(engine, table, r, d, entry) {
      assert RuleFor(table, entry.fields["rule_key"]) == Some(EntryRule(table, entry).value);
    }
    if DomainTraceable(engine, table, r, d, entry) {
      var rule :| RuleFor(table, entry.fields["rule_key"]) == Some(rule) && rule.kind == "provider" && rule.domain == Some(d);
      assert EntryRule(table, entry) == Some(rule);
    }
  }

  /** The entries of the input that survive the discarding carry no keys but the two the closure writes. */
  ghost predicate KeptEntriesExact(engine: Engine, table: Table, r: Provider, order: seq<Domain>) {
    forall d :: d in DropStale(engine, table, r, order).provenance ==> TwoKeys(DropStale(engine, table, r, order).provenance[d])
  }

  lemma ClosedEntriesExact(engine: Engine, table: Table, r: Provider, order: seq<Domain>)
    ensures KeptEntriesExact(engine, table, r, order) <==>
              forall d :: d in Closed(engine, table, r, order).provenance ==> TwoKeys(Closed(engine, table, r, order).provenance[d])
  {
    var a := DropStale(engine, table, r, order);
    var once := Closed(engine, table, r, order);
    forall d | d in a.provenance
      ensures d in once.provenance && once.provenance[d] == a.provenance[d]
    {
      AppliedKeeps(engine, ProviderId(r), a, table.providerRules, d);
    }
    forall d | d in once.provenance && d !in a.provenance
      ensures TwoKeys(once.provenance[d])
    {
      AppliedCites(engine, ProviderId(r), a, table.providerRules, d);
    }
  }

  /** After a closure only two things can still be reported: a surviving entry with extra keys, and a domain
      that no longer is what its rule assigns. */
  lemma ClosedIsTraceableIff(engine: Engine, table: Table, r: Provider, order: seq<Domain>)
    requires ProviderTable(table) && Closes(r)
    ensures var once := Closed(engine, table, r, order);
            Traceable(engine, table, once) <==> KeptEntriesExact(engine, table, r, order) && AllKept(engine, table, once)
  {
    var once := Closed(engine, table, r, order);
    ClosedCloses(engine, table, r, order);
    ClosedEntriesExact(engine, table, r, order);
    forall d | d in once.provenance
      ensures DomainTraceable(engine, table, once, d, once.provenance[d]) <==>
                TwoKeys(once.provenance[d]) && Keeps(engine, table, once, d, once.provenance[d])
    {
      DomainTraceableIff(engine, table, once, d, once.provenance[d]);
    }
  }

  /** So the validator passes a closed provider exactly when closing it again, in any order, changes nothing. */
  lemma TraceableIffSettled(engine: Engine, table: Table, r: Provider, order: seq<Domain>)
    requires ProviderTable(table) && AcceptsEmptyId(engine, table, ProviderId(r)) && Closes(r) && KeptEntriesExact(engine, table, r, order)
    ensures var once := Closed(engine, table, r, order);
            Traceable(engine, table, once) <==> Settled(engine, table, once)
  {
    ClosedIsTraceableIff(engine, table, r, order);
    FixpointIff(engine, table, r, order);
  }
}
