/** When a second closure pass over a model record changes nothing. */
module ModelIdempotence {
  import opened Wrappers
  import opened Json
  import opened ModelFields
  import opened ModelClosure

  /** The second pass succeeds and reproduces the first. */
  ghost predicate Fixpoint(engine: Engine, table: Table, r: Record) {
    var once := Closed(engine, table, r);
    Closes(engine, table, once) && Closed(engine, table, once) == once
  }

  /** The guard `"state" in record["reasoning_rendering_hints"]` wipes the hints. That is harmless unless
      the wiped value was observed, or was inferred by a rule whose assignment is not exactly
      `{"state": "not-applicable"}` and which the next pass cannot put back. */
  ghost predicate HintsSettle(engine: Engine, table: Table, r: Record) {
    var f := RenderingHints;
    var base := CanonicalFields(engine, r.fields);
    var hints := Get(base, Fact(f));
    var noOldState := RenderingState !in r.fields;
    match FieldOutcome(engine, table, r, f)
    case Observed => !HasState(hints)
    case Kept =>
      || !HasState(hints)
      || ForcesNotApplicable(table, r.provenance[Fact(f)])
      || (&& RecordedFirst(engine, table, r, r.provenance[Fact(f)])
          && (StateNotApplicable(hints) || noOldState))
    case Inferred(rule) =>
      var form := Canonical(engine.encode, Get(rule.values, Fact(f)));
      !HasState(form) || StateNotApplicable(form) || Fact(f) in r.provenance || noOldState
    case Open => true
  }

  ghost predicate ForcesNotApplicable(table: Table, entry: Json) {
    EntryRule(table, entry).Some? && Get(EntryRule(table, entry).value.values, Fact(RenderingHints)) == NotApplicableForm
  }

  ghost predicate RecordedFirst(engine: Engine, table: Table, r: Record, entry: Json) {
    var base := CanonicalFields(engine, r.fields);
    var first := FirstRule(engine, table.modelRules, RenderingHints, ProviderId(base), NormalizedId(engine, base));
    first.Some? && entry == NewEntry(first.value)
  }

  // ---------- the closed record seen by the next pass ----------

  lemma EmptyHintsFacts(engine: Engine)
    ensures Canonical(engine.encode, EmptyHints) == EmptyHints
    ensures Canonical(engine.encode, NotApplicableForm) == NotApplicableForm
    ensures !HasState(EmptyHints) && !AnyHintList(EmptyHints) && Indeterminate(RenderingHints, EmptyHints)
    ensures HasState(NotApplicableForm) && StateNotApplicable(NotApplicableForm)
  {
    assert SortUnique([], Text) == [];
    assert Canonical(engine.encode, Arr([])) == Arr([]);
    assert Canonical(engine.encode, EmptyHints) == EmptyHints;
  }

  lemma CanonicalKeepsState(engine: Engine, v: Json)
    ensures HasState(Canonical(engine.encode, v)) == HasState(v)
  {
  }

  lemma ClosedCellIsCanonical(engine: Engine, table: Table, r: Record, f: ModelField)
    ensures match ClosedCell(engine, table, r, f)
            case Some(v) => Canonical(engine.encode, v) == v
            case None => true
  {
    match FieldOutcome(engine, table, r, f)
    case Inferred(rule) => CanonicalIdempotent(engine.encode, Get(rule.values, Fact(f)));
    case _ => CanonicalIdempotent(engine.encode, Get(r.fields, Fact(f)));
  }

  lemma FinalCellIsCanonical(engine: Engine, table: Table, r: Record, f: ModelField)
    ensures match FinalCell(engine, table, r, Fact(f))
            case Some(v) => Canonical(engine.encode, v) == v
            case None => true
  {
    ClosedCellIsCanonical(engine, table, r, f);
    EmptyHintsFacts(engine);
  }

  lemma ClosedCells(engine: Engine, table: Table, r: Record)
    ensures forall p :: CellOf(Closed(engine, table, r).fields, p) == FinalCell(engine, table, r, p)
    ensures forall f :: CellOf(Closed(engine, table, r).provenance, Fact(f)) == ClosedEntry(engine, table, r, f)
    ensures forall p :: p in Closed(engine, table, r).provenance ==> p.Fact?
  {
    forall p
      ensures CellOf(Closed(engine, table, r).fields, p) == FinalCell(engine, table, r, p)
      ensures p.Fact? ==> CellOf(Closed(engine, table, r).provenance, p) == ClosedEntry(engine, table, r, p.f)
    {
      if p.Fact? { ClosableIsComplete(p.f); }
    }
  }

  lemma ClosedFactIsCanonical(engine: Engine, table: Table, r: Record, f: ModelField)
    requires Fact(f) in Closed(engine, table, r).fields
    ensures Canonical(engine.encode, Closed(engine, table, r).fields[Fact(f)]) == Closed(engine, table, r).fields[Fact(f)]
  {
    ClosedCells(engine, table, r);
    FinalCellIsCanonical(engine, table, r, f);
    assert CellOf(Closed(engine, table, r).fields, Fact(f)) == FinalCell(engine, table, r, Fact(f));
  }

  lemma CanonicalFieldsFixed(engine: Engine, fields: map<Path, Json>)
    requires forall f :: Fact(f) in fields ==> Canonical(engine.encode, fields[Fact(f)]) == fields[Fact(f)]
    ensures CanonicalFields(engine, fields) == fields
  {
    forall p | p in fields
      ensures CanonicalFields(engine, fields)[p] == fields[p]
    {
      if p.Fact? { assert Fact(p.f) in fields; }
    }
  }

  lemma ClosedKeepsIds(engine: Engine, table: Table, r: Record)
    ensures ProviderId(Closed(engine, table, r).fields) == ProviderId(CanonicalFields(engine, r.fields))
    ensures NormalizedId(engine, Closed(engine, table, r).fields) == NormalizedId(engine, CanonicalFields(engine, r.fields))
  {
    ClosedCells(engine, table, r);
    var fields := Closed(engine, table, r).fields;
    assert CellOf(fields, Named("provider_id")) == CellOf(r.fields, Named("provider_id"));
    assert CellOf(fields, Named("upstream_model_id")) == CellOf(r.fields, Named("upstream_model_id"));
  }

  /** A closed record is already canonical, and is matched against rules as the original was. */
  lemma ClosedIsCanonical(engine: Engine, table: Table, r: Record)
    ensures CanonicalFields(engine, Closed(engine, table, r).fields) == Closed(engine, table, r).fields
    ensures ProviderId(Closed(engine, table, r).fields) == ProviderId(CanonicalFields(engine, r.fields))
    ensures NormalizedId(engine, Closed(engine, table, r).fields) == NormalizedId(engine, CanonicalFields(engine, r.fields))
  {
    ClosedKeepsIds(engine, table, r);
    forall f | Fact(f) in Closed(engine, table, r).fields
      ensures Canonical(engine.encode, Closed(engine, table, r).fields[Fact(f)]) == Closed(engine, table, r).fields[Fact(f)]
    {
      ClosedFactIsCanonical(engine, table, r, f);
    }
    CanonicalFieldsFixed(engine, Closed(engine, table, r).fields);
  }

  lemma NewEntryFacts(table: Table, rule: Rule)
    requires ValidTable(table) && rule in table.modelRules
    ensures WellFormedEntry(NewEntry(rule)) && EntryRule(table, NewEntry(rule)) == Some(rule) && rule.kind == "model"
  {
    ModelRuleIsFound(table, rule);
  }

  // ---------- one field ----------

  /** The parts of a closed record that the next pass reads for one field. */
  ghost predicate FieldView(engine: Engine, table: Table, r: Record, once: Record, f: ModelField) {
    var base := CanonicalFields(engine, r.fields);
    && CanonicalFields(engine, once.fields) == once.fields
    && ProviderId(once.fields) == ProviderId(base)
    && NormalizedId(engine, once.fields) == NormalizedId(engine, base)
    && CellOf(once.fields, Fact(f)) == ClosedCell(engine, table, r, f)
    && CellOf(once.provenance, Fact(f)) == ClosedEntry(engine, table, r, f)
  }

  /** A recorded inference other than the rendering hints holds exactly what its rule assigns. */
  lemma RecordedSurvives(engine: Engine, table: Table, r: Record, once: Record, f: ModelField)
    requires ValidTable(table) && Closes(engine, table, r) && f != RenderingHints
    requires FieldView(engine, table, r, once, f) && Fact(f) in once.provenance
    ensures Survives(engine, table, once.fields, f, once.provenance[Fact(f)])
  {
    var base := CanonicalFields(engine, r.fields);
    match FieldOutcome(engine, table, r, f)
    case Inferred(rule) =>
      FirstRuleFits(engine, table.modelRules, f, ProviderId(base), NormalizedId(engine, base));
      NewEntryFacts(table, rule);
    case Kept =>
      assert Get(once.fields, Fact(f)) == Get(base, Fact(f));
    case _ =>
  }

  /** Every field but the rendering hints is left alone by the next pass. */
  lemma FieldSettles(engine: Engine, table: Table, r: Record, f: ModelField)
    requires ValidTable(table) && Closes(engine, table, r) && f != RenderingHints
    ensures var once := Closed(engine, table, r);
            && !FieldOutcome(engine, table, once, f).Inferred?
            && !FieldOutcome(engine, table, once, f).Open?
            && ClosedCell(engine, table, once, f) == CellOf(once.fields, Fact(f))
            && ClosedEntry(engine, table, once, f) == CellOf(once.provenance, Fact(f))
  {
    ClosedCellAt(engine, table, r, Fact(f));
    ClosedIsCanonical(engine, table, r);
    ViewedFieldSettles(engine, table, r, Closed(engine, table, r), f);
  }

  lemma ViewedFieldSettles(engine: Engine, table: Table, r: Record, once: Record, f: ModelField)
    requires ValidTable(table) && Closes(engine, table, r) && f != RenderingHints && FieldView(engine, table, r, once, f)
    ensures !FieldOutcome(engine, table, once, f).Inferred? && !FieldOutcome(engine, table, once, f).Open?
    ensures ClosedCell(engine, table, once, f) == CellOf(once.fields, Fact(f))
    ensures ClosedEntry(engine, table, once, f) == CellOf(once.provenance, Fact(f))
  {
    if Fact(f) in once.provenance {
      RecordedSurvives(engine, table, r, once, f);
    } else {
      assert Get(once.fields, Fact(f)) == Get(CanonicalFields(engine, r.fields), Fact(f));
    }
  }

  // ---------- the rendering hints ----------

  /** The next pass would leave the hints, their state and their provenance alone. */
  ghost predicate HintsStay(engine: Engine, table: Table, once: Record) {
    && !FieldOutcome(engine, table, once, RenderingHints).Open?
    && ClosedEntry(engine, table, once, RenderingHints) == CellOf(once.provenance, Fact(RenderingHints))
    && FinalCell(engine, table, once, Fact(RenderingHints)) == CellOf(once.fields, Fact(RenderingHints))
    && FinalCell(engine, table, once, RenderingState) == CellOf(once.fields, RenderingState)
  }

  /** The record after one pass, as far as the rendering hints are concerned. */
  ghost predicate HintsView(engine: Engine, table: Table, r: Record, once: Record) {
    var base := CanonicalFields(engine, r.fields);
    && CanonicalFields(engine, once.fields) == once.fields
    && ProviderId(once.fields) == ProviderId(base)
    && NormalizedId(engine, once.fields) == NormalizedId(engine, base)
    && CellOf(once.fields, Fact(RenderingHints)) == FinalCell(engine, table, r, Fact(RenderingHints))
    && CellOf(once.fields, RenderingState) == FinalCell(engine, table, r, RenderingState)
    && CellOf(once.provenance, Fact(RenderingHints)) == ClosedEntry(engine, table, r, RenderingHints)
  }

  lemma HintsObservedStay(engine: Engine, table: Table, r: Record, once: Record)
    requires Closes(engine, table, r) && HintsView(engine, table, r, once)
    requires FieldOutcome(engine, table, r, RenderingHints).Observed?
    requires !HasState(Get(CanonicalFields(engine, r.fields), Fact(RenderingHints)))
    ensures HintsStay(engine, table, once)
  {
    assert Get(once.fields, Fact(RenderingHints)) == Get(CanonicalFields(engine, r.fields), Fact(RenderingHints));
  }

  lemma HintsObserved(engine: Engine, table: Table, r: Record, once: Record)
    requires Closes(engine, table, r) && HintsView(engine, table, r, once)
    requires FieldOutcome(engine, table, r, RenderingHints).Observed?
    ensures HintsStay(engine, table, once) <==> HintsSettle(engine, table, r)
  {
    if !HasState(Get(CanonicalFields(engine, r.fields), Fact(RenderingHints))) {
      HintsObservedStay(engine, table, r, once);
    } else {
      EmptyHintsFacts(engine);
      assert Get(once.fields, Fact(RenderingHints)) == EmptyHints;
    }
  }

  /** An inferred value that survives the wipe is retained by the next pass. */
  lemma HintsInferredKept(engine: Engine, table: Table, r: Record, once: Record, rule: Rule)
    requires ValidTable(table) && HintsView(engine, table, r, once)
    requires FieldOutcome(engine, table, r, RenderingHints) == Inferred(rule) && rule in table.modelRules
    requires var base := CanonicalFields(engine, r.fields); RuleMatches(engine, rule, ProviderId(base), NormalizedId(engine, base))
    requires Fact(RenderingHints) in rule.values
    requires var raw := rule.values[Fact(RenderingHints)]; raw == NotApplicableForm || !HasState(raw)
    ensures HintsStay(engine, table, once)
  {
    EmptyHintsFacts(engine);
    NewEntryFacts(table, rule);
    CanonicalKeepsState(engine, rule.values[Fact(RenderingHints)]);
    assert Survives(engine, table, once.fields, RenderingHints, NewEntry(rule));
  }

  /** An inferred value that the wipe invalidated is inferred again, by the same rule. */
  lemma HintsInferredAgain(engine: Engine, table: Table, r: Record, once: Record, rule: Rule)
    requires ValidTable(table) && HintsView(engine, table, r, once)
    requires FieldOutcome(engine, table, r, RenderingHints) == Inferred(rule) && rule in table.modelRules
    requires Fact(RenderingHints) in rule.values
    requires var raw := rule.values[Fact(RenderingHints)]; raw != NotApplicableForm && HasState(raw)
    ensures FieldOutcome(engine, table, once, RenderingHints) == Inferred(rule)
  {
    EmptyHintsFacts(engine);
    NewEntryFacts(table, rule);
    CanonicalKeepsState(engine, rule.values[Fact(RenderingHints)]);
    assert Get(once.fields, Fact(RenderingHints)) == EmptyHints;
    assert !Survives(engine, table, once.fields, RenderingHints, NewEntry(rule));
  }

  lemma HintsInferred(engine: Engine, table: Table, r: Record, once: Record, rule: Rule)
    requires ValidTable(table) && Closes(engine, table, r) && HintsView(engine, table, r, once)
    requires FieldOutcome(engine, table, r, RenderingHints) == Inferred(rule)
    ensures HintsStay(engine, table, once) <==> HintsSettle(engine, table, r)
  {
    var base := CanonicalFields(engine, r.fields);
    FirstRuleFits(engine, table.modelRules, RenderingHints, ProviderId(base), NormalizedId(engine, base));
    var raw := rule.values[Fact(RenderingHints)];
    CanonicalKeepsState(engine, raw);
    EmptyHintsFacts(engine);
    if raw == NotApplicableForm || !HasState(raw) {
      HintsInferredKept(engine, table, r, once, rule);
    } else {
      HintsInferredAgain(engine, table, r, once, rule);
    }
  }

  /** A retained value without a state key, or one forced to the not-applicable form, is retained again. */
  lemma HintsKeptSurvive(engine: Engine, table: Table, r: Record, once: Record)
    requires Closes(engine, table, r) && HintsView(engine, table, r, once)
    requires FieldOutcome(engine, table, r, RenderingHints).Kept?
    requires !HasState(Get(CanonicalFields(engine, r.fields), Fact(RenderingHints)))
             || ForcesNotApplicable(table, r.provenance[Fact(RenderingHints)])
    ensures Survives(engine, table, once.fields, RenderingHints, r.provenance[Fact(RenderingHints)])
  {
    EmptyHintsFacts(engine);
    assert Survives(engine, table, CanonicalFields(engine, r.fields), RenderingHints, r.provenance[Fact(RenderingHints)]);
  }

  lemma HintsKeptAgain(engine: Engine, table: Table, r: Record, once: Record)
    requires Closes(engine, table, r) && HintsView(engine, table, r, once)
    requires FieldOutcome(engine, table, r, RenderingHints).Kept?
    requires !HasState(Get(CanonicalFields(engine, r.fields), Fact(RenderingHints)))
             || ForcesNotApplicable(table, r.provenance[Fact(RenderingHints)])
    ensures HintsStay(engine, table, once)
  {
    HintsKeptSurvive(engine, table, r, once);
    EmptyHintsFacts(engine);
  }

  lemma HintsKeptLost(engine: Engine, table: Table, r: Record, once: Record)
    requires ValidTable(table) && Closes(engine, table, r) && HintsView(engine, table, r, once)
    requires FieldOutcome(engine, table, r, RenderingHints).Kept?
    requires HasState(Get(CanonicalFields(engine, r.fields), Fact(RenderingHints)))
    requires !ForcesNotApplicable(table, r.provenance[Fact(RenderingHints)])
    ensures !Survives(engine, table, once.fields, RenderingHints, r.provenance[Fact(RenderingHints)])
    ensures Get(once.fields, Fact(RenderingHints)) == EmptyHints
  {
    EmptyHintsFacts(engine);
  }

  lemma HintsKept(engine: Engine, table: Table, r: Record, once: Record)
    requires ValidTable(table) && Closes(engine, table, r) && HintsView(engine, table, r, once)
    requires FieldOutcome(engine, table, r, RenderingHints).Kept?
    ensures HintsStay(engine, table, once) <==> HintsSettle(engine, table, r)
  {
    var f := RenderingHints;
    var base := CanonicalFields(engine, r.fields);
    var entry := r.provenance[Fact(f)];
    if !HasState(Get(base, Fact(f))) || ForcesNotApplicable(table, entry) {
      HintsKeptAgain(engine, table, r, once);
    } else {
      HintsKeptLost(engine, table, r, once);
      HintsReclosed(engine, table, r, once);
    }
  }

  /** A retained value that the wipe invalidated is re-closed by the first matching rule. */
  lemma HintsReclosed(engine: Engine, table: Table, r: Record, once: Record)
    requires ValidTable(table) && Closes(engine, table, r) && HintsView(engine, table, r, once)
    requires FieldOutcome(engine, table, r, RenderingHints).Kept?
    requires var hints := Get(CanonicalFields(engine, r.fields), Fact(RenderingHints));
             HasState(hints) && !ForcesNotApplicable(table, r.provenance[Fact(RenderingHints)])
    requires !Survives(engine, table, once.fields, RenderingHints, r.provenance[Fact(RenderingHints)])
    ensures HintsStay(engine, table, once) <==> HintsSettle(engine, table, r)
  {
    var base := CanonicalFields(engine, r.fields);
    match FirstRule(engine, table.modelRules, RenderingHints, ProviderId(base), NormalizedId(engine, base))
    case None =>
    case Some(first) => HintsReclosedBy(engine, table, r, once, first);
  }

  lemma HintsReclosedBy(engine: Engine, table: Table, r: Record, once: Record, first: Rule)
    requires ValidTable(table) && Closes(engine, table, r) && HintsView(engine, table, r, once)
    requires FieldOutcome(engine, table, r, RenderingHints).Kept?
    requires var base := CanonicalFields(engine, r.fields);
             && HasState(Get(base, Fact(RenderingHints)))
             && FirstRule(engine, table.modelRules, RenderingHints, ProviderId(base), NormalizedId(engine, base)) == Some(first)
    requires !ForcesNotApplicable(table, r.provenance[Fact(RenderingHints)])
    requires !Survives(engine, table, once.fields, RenderingHints, r.provenance[Fact(RenderingHints)])
    ensures HintsStay(engine, table, once) <==> HintsSettle(engine, table, r)
  {
    var base := CanonicalFields(engine, r.fields);
    FirstRuleFits(engine, table.modelRules, RenderingHints, ProviderId(base), NormalizedId(engine, base));
    HintsOpenAgain(engine, table, r, once, first);
    if r.provenance[Fact(RenderingHints)] == NewEntry(first) {
      HintsReclosedSame(engine, table, r, once, first);
    } else {
      assert ClosedEntry(engine, table, once, RenderingHints) == Some(NewEntry(first));
    }
  }

  lemma HintsReclosedSame(engine: Engine, table: Table, r: Record, once: Record, first: Rule)
    requires ValidTable(table) && Closes(engine, table, r) && HintsView(engine, table, r, once)
    requires FieldOutcome(engine, table, r, RenderingHints).Kept? && FieldOutcome(engine, table, once, RenderingHints) == Inferred(first)
    requires first in table.modelRules && Fact(RenderingHints) in first.values && r.provenance[Fact(RenderingHints)] == NewEntry(first)
    requires var base := CanonicalFields(engine, r.fields);
             && HasState(Get(base, Fact(RenderingHints)))
             && FirstRule(engine, table.modelRules, RenderingHints, ProviderId(base), NormalizedId(engine, base)) == Some(first)
    requires !ForcesNotApplicable(table, r.provenance[Fact(RenderingHints)])
    ensures HintsStay(engine, table, once) <==> HintsSettle(engine, table, r)
  {
    EmptyHintsFacts(engine);
    NewEntryFacts(table, first);
  }

  lemma HintsOpenAgain(engine: Engine, table: Table, r: Record, once: Record, first: Rule)
    requires Closes(engine, table, r) && HintsView(engine, table, r, once)
    requires FieldOutcome(engine, table, r, RenderingHints).Kept? && Fact(RenderingHints) in first.values
    requires var base := CanonicalFields(engine, r.fields);
             FirstRule(engine, table.modelRules, RenderingHints, ProviderId(base), NormalizedId(engine, base)) == Some(first)
    requires !Survives(engine, table, once.fields, RenderingHints, r.provenance[Fact(RenderingHints)])
    ensures FieldOutcome(engine, table, once, RenderingHints) == Inferred(first)
  {
  }

  lemma HintsNextPass(engine: Engine, table: Table, r: Record)
    requires ValidTable(table) && Closes(engine, table, r)
    ensures HintsStay(engine, table, Closed(engine, table, r)) <==> HintsSettle(engine, table, r)
  {
    var once := Closed(engine, table, r);
    ClosedCells(engine, table, r);
    ClosedIsCanonical(engine, table, r);
    assert CellOf(once.fields, Fact(RenderingHints)) == FinalCell(engine, table, r, Fact(RenderingHints));
    assert CellOf(once.provenance, Fact(RenderingHints)) == ClosedEntry(engine, table, r, RenderingHints);
    match FieldOutcome(engine, table, r, RenderingHints)
    case Observed => HintsObserved(engine, table, r, once);
    case Kept => HintsKept(engine, table, r, once);
    case Inferred(rule) => HintsInferred(engine, table, r, once, rule);
    case Open => assert false;
  }

  // ---------- the theorem ----------

  /** A successful pass is a fixed point exactly when the rendering hints settle. */
  lemma FixpointIff(engine: Engine, table: Table, r: Record)
    requires ValidTable(table) && Closes(engine, table, r)
    ensures Fixpoint(engine, table, r) <==> HintsSettle(engine, table, r)
  {
    var once := Closed(engine, table, r);
    ClosedCells(engine, table, r);
    HintsNextPass(engine, table, r);
    if HintsSettle(engine, table, r) {
      SettledIsFixpoint(engine, table, r);
    }
    if Fixpoint(engine, table, r) {
      ClosedCells(engine, table, once);
      assert HintsStay(engine, table, once);
    }
  }

  lemma FieldStays(engine: Engine, table: Table, r: Record, f: ModelField)
    requires ValidTable(table) && Closes(engine, table, r)
    requires HintsStay(engine, table, Closed(engine, table, r))
    ensures var once := Closed(engine, table, r);
            && !FieldOutcome(engine, table, once, f).Open?
            && ClosedEntry(engine, table, once, f) == CellOf(once.provenance, Fact(f))
            && FinalCell(engine, table, once, Fact(f)) == CellOf(once.fields, Fact(f))
  {
    if f != RenderingHints { FieldSettles(engine, table, r, f); }
  }

  lemma SettledIsFixpoint(engine: Engine, table: Table, r: Record)
    requires ValidTable(table) && Closes(engine, table, r)
    requires HintsStay(engine, table, Closed(engine, table, r))
    ensures Fixpoint(engine, table, r)
  {
    var once := Closed(engine, table, r);
    ClosesAgain(engine, table, r);
    forall p
      ensures CellOf(Closed(engine, table, once).fields, p) == CellOf(once.fields, p)
      ensures CellOf(Closed(engine, table, once).provenance, p) == CellOf(once.provenance, p)
    {
      PathStays(engine, table, r, p);
    }
    MapsByCells(Closed(engine, table, once).fields, once.fields);
    MapsByCells(Closed(engine, table, once).provenance, once.provenance);
  }

  lemma ClosesAgain(engine: Engine, table: Table, r: Record)
    requires ValidTable(table) && Closes(engine, table, r)
    requires HintsStay(engine, table, Closed(engine, table, r))
    ensures Closes(engine, table, Closed(engine, table, r))
  {
    ClosedEntriesWellFormed(engine, table, r);
    forall f
      ensures !FieldOutcome(engine, table, Closed(engine, table, r), f).Open?
    {
      FieldStays(engine, table, r, f);
    }
  }

  lemma ClosedCellAt(engine: Engine, table: Table, r: Record, p: Path)
    ensures CellOf(Closed(engine, table, r).fields, p) == FinalCell(engine, table, r, p)
    ensures CellOf(Closed(engine, table, r).provenance, p) == if p.Fact? then ClosedEntry(engine, table, r, p.f) else None
  {
    ClosedCells(engine, table, r);
    if p.Fact? { assert CellOf(Closed(engine, table, r).provenance, Fact(p.f)) == ClosedEntry(engine, table, r, p.f); }
  }

  lemma NamedStays(engine: Engine, table: Table, r: Record, once: Record, name: string)
    requires HintsStay(engine, table, once)
    requires CellOf(once.fields, Named(name)) == FinalCell(engine, table, r, Named(name))
    requires CellOf(once.fields, CostHints) == CellOf(r.fields, CostHints)
    ensures FinalCell(engine, table, once, Named(name)) == CellOf(once.fields, Named(name))
  {
    assert Get(once.fields, CostHints) == Get(r.fields, CostHints);
  }

  lemma PathStays(engine: Engine, table: Table, r: Record, p: Path)
    requires ValidTable(table) && Closes(engine, table, r)
    requires HintsStay(engine, table, Closed(engine, table, r))
    ensures var once := Closed(engine, table, r);
            && CellOf(Closed(engine, table, once).fields, p) == CellOf(once.fields, p)
            && CellOf(Closed(engine, table, once).provenance, p) == CellOf(once.provenance, p)
  {
    var once := Closed(engine, table, r);
    ClosedCellAt(engine, table, once, p);
    if p.Fact? {
      FieldStays(engine, table, r, p.f);
    } else {
      ClosedCellAt(engine, table, r, p);
      ClosedCellAt(engine, table, r, CostHints);
      NamedStays(engine, table, r, once, p.name);
    }
  }

  lemma ClosedEntriesWellFormed(engine: Engine, table: Table, r: Record)
    requires ValidTable(table) && Closes(engine, table, r)
    ensures forall p :: p in Closed(engine, table, r).provenance ==>
              p.Fact? && WellFormedEntry(Closed(engine, table, r).provenance[p])
  {
    ClosedCells(engine, table, r);
    var once := Closed(engine, table, r);
    forall p | p in once.provenance
      ensures WellFormedEntry(once.provenance[p])
    {
      assert CellOf(once.provenance, Fact(p.f)) == ClosedEntry(engine, table, r, p.f);
      match FieldOutcome(engine, table, r, p.f)
      case Inferred(rule) =>
        var base := CanonicalFields(engine, r.fields);
        FirstRuleFits(engine, table.modelRules, p.f, ProviderId(base), NormalizedId(engine, base));
        NewEntryFacts(table, rule);
      case _ =>
    }
  }

  // ---------- consequences ----------

  /** No rule gives the rendering hints a `state` key in any other form than exactly not-applicable. */
  ghost predicate TidyHints(table: Table) {
    forall i :: 0 <= i < |AllRules(table)| && Fact(RenderingHints) in AllRules(table)[i].values ==>
      var raw := AllRules(table)[i].values[Fact(RenderingHints)];
      raw == NotApplicableForm || !HasState(raw)
  }

  lemma TidyRule(table: Table, rule: Rule)
    requires TidyHints(table) && rule in AllRules(table) && Fact(RenderingHints) in rule.values
    ensures rule.values[Fact(RenderingHints)] == NotApplicableForm || !HasState(rule.values[Fact(RenderingHints)])
  {
    var i :| 0 <= i < |AllRules(table)| && AllRules(table)[i] == rule;
  }

  /** With such a table, as the repository's own is, only an observed `state` key can unsettle a record. */
  lemma TidyFixpointIff(engine: Engine, table: Table, r: Record)
    requires ValidTable(table) && TidyHints(table) && Closes(engine, table, r)
    ensures Fixpoint(engine, table, r) <==>
              !(FieldOutcome(engine, table, r, RenderingHints).Observed?
                && HasState(Get(CanonicalFields(engine, r.fields), Fact(RenderingHints))))
  {
    FixpointIff(engine, table, r);
    EmptyHintsFacts(engine);
    var base := CanonicalFields(engine, r.fields);
    match FieldOutcome(engine, table, r, RenderingHints)
    case Inferred(rule) =>
      FirstRuleFits(engine, table.modelRules, RenderingHints, ProviderId(base), NormalizedId(engine, base));
      TidyRule(table, rule);
      CanonicalKeepsState(engine, rule.values[Fact(RenderingHints)]);
    case Kept =>
      var entry := r.provenance[Fact(RenderingHints)];
      var rule := EntryRule(table, entry).value;
      LookupFinds(AllRules(table), Member(entry, "rule_key").s);
      TidyRule(table, rule);
      CanonicalKeepsState(engine, rule.values[Fact(RenderingHints)]);
    case _ =>
  }

  /** Idempotence as the tool promises it is false of this record: every fact is observed, so the pass
      succeeds with no rule at all, yet it wipes the observed `state`, and the next pass finds no rule. */
  function ObservedValue(f: ModelField): Json {
    match f
    case ContextTokens => Obj(map["state" := Str("known"), "value" := Integer(8192)])
    case MaxOutputTokens => Obj(map["state" := Str("known"), "value" := Integer(4096)])
    case InputModalities => Arr([Str("text")])
    case Lifecycle => Str("active")
    case RenderingHints => NotApplicableForm
    case ExecutionFit => Obj(map["state" := Str("unsupported")])
    case _ => Str("supported")
  }

  const ObservedNotApplicable: Record :=
    Record(map p | p in Touched() && p.Fact? :: ObservedValue(p.f), map[])

  lemma ObservedValueIsDeterminate(engine: Engine, f: ModelField)
    ensures Canonical(engine.encode, ObservedValue(f)) == ObservedValue(f) && !Indeterminate(f, ObservedValue(f))
  {
    assert SortUnique([Str("text")], Text) == [Str("text")] by { SortUniqueFixed([Str("text")], Text); }
    match f
    case ContextTokens => assert Member(ObservedValue(f), "state") == Str("known");
    case MaxOutputTokens => assert Member(ObservedValue(f), "state") == Str("known");
    case _ =>
  }

  lemma ObservedNotApplicableOutcome(engine: Engine, table: Table, f: ModelField)
    ensures FieldOutcome(engine, table, ObservedNotApplicable, f).Observed?
    ensures Get(CanonicalFields(engine, ObservedNotApplicable.fields), Fact(f)) == ObservedValue(f)
  {
    var fields := ObservedNotApplicable.fields;
    ClosableIsComplete(f);
    ObservedValueIsDeterminate(engine, f);
    assert Fact(f) in fields && fields[Fact(f)] == ObservedValue(f);
  }

  lemma IdempotenceFails(engine: Engine)
    ensures var table := Table([], []);
            ValidTable(table) && Closes(engine, table, ObservedNotApplicable) && !Fixpoint(engine, table, ObservedNotApplicable)
  {
    var table := Table([], []);
    forall f
      ensures FieldOutcome(engine, table, ObservedNotApplicable, f).Observed?
    {
      ObservedNotApplicableOutcome(engine, table, f);
    }
    ObservedNotApplicableOutcome(engine, table, RenderingHints);
    EmptyHintsFacts(engine);
    TidyFixpointIff(engine, table, ObservedNotApplicable);
  }
}
