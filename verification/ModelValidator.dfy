/** `check_closure_provenance` for model records: separate code that re-checks what a closure recorded. */
module ModelValidator {
  import opened Wrappers
  import opened Json
  import opened ModelFields
  import opened ModelClosure
  import opened ModelIdempotence

  datatype Defect =
    | NonClosable | MalformedEntry | UnknownRule | WrongKind | DoesNotMatch | DoesNotAssign | DifferentValue

  datatype Finding = Finding(path: Path, defect: Defect)

  /** Every recorded inference names a model rule that matches the record and assigns the stored value. */
  ghost predicate EntryTraceable(engine: Engine, table: Table, fields: map<Path, Json>, p: Path, entry: Json) {
    && p.Fact?
    && entry.Obj? && entry.fields.Keys == {"basis", "rule_key"}
    && entry.fields["basis"] == Str("inferred")
    && exists rule ::
      && RuleFor(table, entry.fields["rule_key"]) == Some(rule)
      && rule.kind == "model"
      && RuleMatches(engine, rule, ProviderId(fields), NormalizedId(engine, fields))
      && p in rule.values
      && if p == Fact(RenderingHints) && rule.values[p] == NotApplicableForm
         then Get(fields, RenderingState) == Str("not-applicable") && !AnyHintList(Get(fields, p))
         else Get(fields, p) == Canonical(engine.encode, rule.values[p])
  }

  ghost predicate Traceable(engine: Engine, table: Table, r: Record) {
    forall p :: p in r.provenance ==> EntryTraceable(engine, table, r.fields, p, r.provenance[p])
  }

  /** One finding for each untraceable entry, none for the others. */
  method CheckClosureProvenance(engine: Engine, table: Table, r: Record) returns (findings: seq<Finding>)
    ensures findings == [] <==> Traceable(engine, table, r)
    ensures forall p :: (exists i :: 0 <= i < |findings| && findings[i].path == p)
              <==> p in r.provenance && !EntryTraceable(engine, table, r.fields, p, r.provenance[p])
    ensures forall i, j :: 0 <= i < j < |findings| ==> findings[i].path != findings[j].path
  {
    findings := [];
    var pending := r.provenance.Keys;
    while pending != {}
      invariant pending <= r.provenance.Keys
      invariant forall i :: 0 <= i < |findings| ==>
        findings[i].path in r.provenance && findings[i].path !in pending
        && !EntryTraceable(engine, table, r.fields, findings[i].path, r.provenance[findings[i].path])
      invariant forall p :: p in r.provenance && p !in pending && !EntryTraceable(engine, table, r.fields, p, r.provenance[p]) ==>
        exists i :: 0 <= i < |findings| && findings[i].path == p
      invariant forall i, j :: 0 <= i < j < |findings| ==> findings[i].path != findings[j].path
    {
      var p :| p in pending;
      var defect := CheckEntry(engine, table, r.fields, p, r.provenance[p]);
      if defect.Some? {
        ghost var before := findings;
        findings := findings + [Finding(p, defect.value)];
        assert findings[|before|].path == p;
        assert forall i :: 0 <= i < |before| ==> findings[i] == before[i];
      }
      pending := pending - {p};
    }
    if findings != [] { assert findings[0].path in r.provenance; }
  }

  method CheckEntry(engine: Engine, table: Table, fields: map<Path, Json>, p: Path, entry: Json) returns (defect: Option<Defect>)
    ensures defect.None? <==> EntryTraceable(engine, table, fields, p, entry)
  {
    if !p.Fact? { return Some(NonClosable); }
    if !entry.Obj? || entry.fields.Keys != {"basis", "rule_key"} || Member(entry, "basis") != Str("inferred") {
      return Some(MalformedEntry);
    }
    var found := RuleFor(table, entry.fields["rule_key"]);
    if found.None? { return Some(UnknownRule); }
    var rule := found.value;
    if rule.kind != "model" { return Some(WrongKind); }
    if !RuleMatches(engine, rule, ProviderId(fields), NormalizedId(engine, fields)) { return Some(DoesNotMatch); }
    if p !in rule.values { return Some(DoesNotAssign); }
    var expected := rule.values[p];
    if p == Fact(RenderingHints) && expected == NotApplicableForm {
      if Get(fields, RenderingState) != Str("not-applicable") || AnyHintList(Get(fields, p)) { return Some(DifferentValue); }
    } else if Get(fields, p) != Canonical(engine.encode, expected) {
      return Some(DifferentValue);
    }
    return None;
  }

  // ---------- what a closure hands to the validator ----------

  ghost predicate ExactEntry(entry: Json) {
    entry.Obj? && entry.fields.Keys == {"basis", "rule_key"}
  }

  /** The rule behind the closed rendering hints does not smuggle a `state` past the wipe. */
  ghost predicate HintsTraceable(engine: Engine, table: Table, r: Record) {
    match FieldOutcome(engine, table, r, RenderingHints)
    case Kept =>
      || ForcesNotApplicable(table, r.provenance[Fact(RenderingHints)])
      || !HasState(Get(CanonicalFields(engine, r.fields), Fact(RenderingHints)))
    case Inferred(rule) =>
      var raw := Get(rule.values, Fact(RenderingHints));
      raw == NotApplicableForm || !HasState(raw)
    case _ => true
  }

  ghost predicate KeptEntriesExact(engine: Engine, table: Table, r: Record) {
    forall f :: FieldOutcome(engine, table, r, f).Kept? ==> ExactEntry(r.provenance[Fact(f)])
  }

  lemma EntryTraceableIff(engine: Engine, table: Table, fields: map<Path, Json>, f: ModelField, entry: Json)
    ensures EntryTraceable(engine, table, fields, Fact(f), entry) <==>
              ExactEntry(entry) && Survives(engine, table, fields, f, entry)
  {
    if EntryTraceable(engine, table, fields, Fact(f), entry) {
      var rule :| RuleFor(table, entry.fields["rule_key"]) == Some(rule);
      assert EntryRule(table, entry) == Some(rule);
    }
    if ExactEntry(entry) && Survives(engine, table, fields, f, entry) {
      assert RuleFor(table, entry.fields["rule_key"]) == Some(EntryRule(table, entry).value);
    }
  }

  /** Inferred and retained values are exactly what their rules assign, save for wiped hints. */
  lemma ClosedEntrySurvives(engine: Engine, table: Table, r: Record, once: Record, f: ModelField)
    requires ValidTable(table) && Closes(engine, table, r) && once == Closed(engine, table, r)
    requires Fact(f) in once.provenance
    ensures Survives(engine, table, once.fields, f, once.provenance[Fact(f)]) <==>
              (f == RenderingHints ==> HintsTraceable(engine, table, r))
  {
    ClosedCellAt(engine, table, r, Fact(f));
    ClosedIsCanonical(engine, table, r);
    if f != RenderingHints {
      RecordedSurvives(engine, table, r, once, f);
    } else {
      ClosedCellAt(engine, table, r, RenderingState);
      HintsSurvive(engine, table, r, once);
    }
  }

  lemma ClosedEntryExact(engine: Engine, table: Table, r: Record, once: Record, f: ModelField)
    requires Closes(engine, table, r) && once == Closed(engine, table, r)
    requires Fact(f) in once.provenance
    ensures ExactEntry(once.provenance[Fact(f)]) <==>
              (FieldOutcome(engine, table, r, f).Kept? ==> ExactEntry(r.provenance[Fact(f)]))
  {
    ClosedCellAt(engine, table, r, Fact(f));
  }

  lemma HintsSurvive(engine: Engine, table: Table, r: Record, once: Record)
    requires ValidTable(table) && Closes(engine, table, r) && HintsView(engine, table, r, once)
    requires Fact(RenderingHints) in once.provenance
    ensures Survives(engine, table, once.fields, RenderingHints, once.provenance[Fact(RenderingHints)]) <==>
              HintsTraceable(engine, table, r)
  {
    var base := CanonicalFields(engine, r.fields);
    match FieldOutcome(engine, table, r, RenderingHints)
    case Kept =>
      if HintsTraceable(engine, table, r) {
        EmptyHintsFacts(engine);
        assert Survives(engine, table, base, RenderingHints, r.provenance[Fact(RenderingHints)]);
      } else {
        HintsKeptLost(engine, table, r, once);
      }
    case Inferred(rule) => HintsSurviveInferred(engine, table, r, once, rule);
    case _ =>
  }

  lemma HintsSurviveInferred(engine: Engine, table: Table, r: Record, once: Record, rule: Rule)
    requires ValidTable(table) && Closes(engine, table, r) && HintsView(engine, table, r, once)
    requires FieldOutcome(engine, table, r, RenderingHints) == Inferred(rule) && Fact(RenderingHints) in once.provenance
    ensures Survives(engine, table, once.fields, RenderingHints, once.provenance[Fact(RenderingHints)]) <==>
              HintsTraceable(engine, table, r)
  {
    var base := CanonicalFields(engine, r.fields);
    FirstRuleFits(engine, table.modelRules, RenderingHints, ProviderId(base), NormalizedId(engine, base));
    NewEntryFacts(table, rule);
    EmptyHintsFacts(engine);
    CanonicalKeepsState(engine, rule.values[Fact(RenderingHints)]);
  }

  lemma ClosedFieldTraceable(engine: Engine, table: Table, r: Record, once: Record, f: ModelField)
    requires ValidTable(table) && Closes(engine, table, r) && once == Closed(engine, table, r)
    ensures Fact(f) in once.provenance <==> FieldOutcome(engine, table, r, f).Kept? || FieldOutcome(engine, table, r, f).Inferred?
    ensures Fact(f) in once.provenance ==>
              (EntryTraceable(engine, table, once.fields, Fact(f), once.provenance[Fact(f)]) <==>
                 (f == RenderingHints ==> HintsTraceable(engine, table, r))
                 && (FieldOutcome(engine, table, r, f).Kept? ==> ExactEntry(r.provenance[Fact(f)])))
  {
    ClosedCellAt(engine, table, r, Fact(f));
    if Fact(f) in once.provenance {
      ClosedEntrySurvives(engine, table, r, once, f);
      ClosedEntryExact(engine, table, r, once, f);
      EntryTraceableIff(engine, table, once.fields, f, once.provenance[Fact(f)]);
    }
  }

  /** A closed record passes the separate validator exactly when its retained entries carry no extra
      keys and its rendering hints were not inferred through an irregular `state`. */
  lemma ClosedIsTraceableIff(engine: Engine, table: Table, r: Record)
    requires ValidTable(table) && Closes(engine, table, r)
    ensures Traceable(engine, table, Closed(engine, table, r)) <==>
              KeptEntriesExact(engine, table, r) && HintsTraceable(engine, table, r)
  {
    if Traceable(engine, table, Closed(engine, table, r)) {
      TraceableMeans(engine, table, r, Closed(engine, table, r));
    }
    if KeptEntriesExact(engine, table, r) && HintsTraceable(engine, table, r) {
      ExactMeansTraceable(engine, table, r, Closed(engine, table, r));
    }
  }

  lemma TraceableMeans(engine: Engine, table: Table, r: Record, once: Record)
    requires ValidTable(table) && Closes(engine, table, r) && once == Closed(engine, table, r) && Traceable(engine, table, once)
    ensures KeptEntriesExact(engine, table, r) && HintsTraceable(engine, table, r)
  {
    forall f | FieldOutcome(engine, table, r, f).Kept?
      ensures ExactEntry(r.provenance[Fact(f)])
    {
      ClosedFieldTraceable(engine, table, r, once, f);
    }
    ClosedFieldTraceable(engine, table, r, once, RenderingHints);
  }

  lemma ExactMeansTraceable(engine: Engine, table: Table, r: Record, once: Record)
    requires ValidTable(table) && Closes(engine, table, r) && once == Closed(engine, table, r)
    requires KeptEntriesExact(engine, table, r) && HintsTraceable(engine, table, r)
    ensures Traceable(engine, table, once)
  {
    OnlyFactsRecorded(engine, table, r);
    forall p | p in once.provenance
      ensures EntryTraceable(engine, table, once.fields, p, once.provenance[p])
    {
      ClosedFieldTraceable(engine, table, r, once, p.f);
    }
  }

  lemma OnlyFactsRecorded(engine: Engine, table: Table, r: Record)
    ensures forall p :: p in Closed(engine, table, r).provenance ==> p.Fact?
  {
  }

  /** With the repository's own rule form and two-key entries, every closed record passes. */
  lemma TidyIsTraceable(engine: Engine, table: Table, r: Record)
    requires ValidTable(table) && TidyHints(table) && Closes(engine, table, r) && KeptEntriesExact(engine, table, r)
    ensures Traceable(engine, table, Closed(engine, table, r))
  {
    ClosedIsTraceableIff(engine, table, r);
    var base := CanonicalFields(engine, r.fields);
    match FieldOutcome(engine, table, r, RenderingHints)
    case Inferred(rule) =>
      FirstRuleFits(engine, table.modelRules, RenderingHints, ProviderId(base), NormalizedId(engine, base));
      TidyRule(table, rule);
    case Kept =>
      var entry := r.provenance[Fact(RenderingHints)];
      LookupFinds(AllRules(table), Member(entry, "rule_key").s);
      TidyRule(table, EntryRule(table, entry).value);
      CanonicalKeepsState(engine, EntryRule(table, entry).value.values[Fact(RenderingHints)]);
    case _ =>
  }
}
