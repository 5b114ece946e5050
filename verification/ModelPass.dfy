/** The in-place loops of `close_model_record`, proved to reach the declarative outcome. */
module ModelPass {
  import opened Wrappers
  import opened Json
  import opened ModelFields
  import opened ModelClosure

  /** One field through the closing loop: left alone, or filled by the first rule that closes it. */
  ghost predicate FieldClosed(engine: Engine, rules: seq<Rule>, f: ModelField, providerId: string, normalizedId: string,
                              before: Option<Json>, recorded: Option<Json>, after: Option<Json>, entry: Option<Json>) {
    if recorded.Some? || !Indeterminate(f, ValueOf(before)) then after == before && entry == recorded
    else
      match FirstRule(engine, rules, f, providerId, normalizedId)
      case None => after == before && entry == recorded
      case Some(rule) =>
        && Fact(f) in rule.values
        && after == Some(Canonical(engine.encode, rule.values[Fact(f)]))
        && entry == Some(NewEntry(rule))
  }

  ghost predicate FieldOpen(engine: Engine, rules: seq<Rule>, f: ModelField, providerId: string, normalizedId: string,
                            before: Option<Json>, recorded: Option<Json>) {
    recorded.None? && Indeterminate(f, ValueOf(before)) && FirstRule(engine, rules, f, providerId, normalizedId).None?
  }

  ghost predicate StaleEntry(engine: Engine, table: Table, fields: map<Path, Json>, p: Path, entry: Json) {
    p.Fact? && WellFormedEntry(entry) && !Survives(engine, table, fields, p.f, entry)
  }

  ghost function DroppedCell(fields: map<Path, Json>, gone: set<Path>, p: Path): Option<Json> {
    if p.Fact? && p in gone then ResetCell(p.f)
    else if p == RenderingState && Fact(RenderingHints) in gone then None
    else CellOf(fields, p)
  }

  ghost predicate DropDone(engine: Engine, table: Table, base: Record, dropped: Record) {
    var stale := set p | p in base.provenance && StaleEntry(engine, table, base.fields, p, base.provenance[p]);
    && (forall p :: CellOf(dropped.fields, p) == DroppedCell(base.fields, stale, p))
    && dropped.provenance == base.provenance - stale
  }

  ghost predicate EntryProblemsFound(provenance: map<Path, Json>, problems: set<Problem>) {
    forall q :: q in problems <==> exists p :: p in provenance && q in EntryProblems(p, provenance[p])
  }

  ghost predicate CloseDone(engine: Engine, rules: seq<Rule>, dropped: Record, closed: Record) {
    var providerId, normalizedId := ProviderId(dropped.fields), NormalizedId(engine, dropped.fields);
    && (forall p: Path :: !p.Fact? ==> CellOf(closed.fields, p) == CellOf(dropped.fields, p))
    && (forall p: Path :: !p.Fact? ==> CellOf(closed.provenance, p) == CellOf(dropped.provenance, p))
    && (forall f :: FieldClosed(engine, rules, f, providerId, normalizedId, CellOf(dropped.fields, Fact(f)), CellOf(dropped.provenance, Fact(f)),
                                CellOf(closed.fields, Fact(f)), CellOf(closed.provenance, Fact(f))))
  }

  ghost predicate OpenProblemsFound(engine: Engine, rules: seq<Rule>, dropped: Record, problems: set<Problem>) {
    forall q :: q in problems <==>
      match q
      case NoRuleCloses(f) => OpenField(engine, rules, dropped, f)
      case MalformedProvenance(p) => p in dropped.provenance && p.Fact? && !WellFormedEntry(dropped.provenance[p])
      case NonClosableProvenance(_) => false
  }

  ghost predicate OpenField(engine: Engine, rules: seq<Rule>, dropped: Record, f: ModelField) {
    FieldOpen(engine, rules, f, ProviderId(dropped.fields), NormalizedId(engine, dropped.fields),
              CellOf(dropped.fields, Fact(f)), CellOf(dropped.provenance, Fact(f)))
  }

  ghost predicate SettleDone(closed: map<Path, Json>, final: map<Path, Json>) {
    forall p :: CellOf(final, p) == SettledCell(closed, p)
  }

  class ModelRecord {
    var fields: map<Path, Json>
    var provenance: map<Path, Json>

    ghost function Value(): Record
      reads this
    {
      Record(fields, provenance)
    }

    constructor (r: Record)
      ensures Value() == r
    {
      fields, provenance := r.fields, r.provenance;
    }

    /** The whole pass. A failed pass is discarded by its caller, so then only its problems matter. */
    method Close(engine: Engine, table: Table) returns (problems: set<Problem>)
      modifies this
      ensures forall q :: q in problems <==> IsProblem(engine, table, old(Value()), q)
      ensures problems == {} ==> Value() == Closed(engine, table, old(Value()))
    {
      ghost var r := Value();
      Canonicalize(engine);
      var malformed := DropStale(engine, table);
      ghost var dropped := Value();
      var open := CloseOpen(engine, table.modelRules);
      ghost var closed := Value();
      Settle();
      problems := malformed + open;
      PassIsDeclarative(engine, table, r, dropped, closed, fields, malformed, open);
    }

    method Canonicalize(engine: Engine)
      modifies this`fields
      ensures fields == CanonicalFields(engine, old(fields))
    {
      for i := 0 to |Closable|
        invariant fields.Keys == old(fields).Keys
        invariant forall p :: p in fields ==>
          (fields[p] == if p.Fact? && FieldIndex(p.f) < i then Canonical(engine.encode, old(fields)[p]) else old(fields)[p])
      {
        ClosableOrder(i);
        var p := Fact(Closable[i]);
        if Get(fields, p) != Null {
          fields := fields[p := Canonical(engine.encode, fields[p])];
        }
      }
    }

    method DropStale(engine: Engine, table: Table) returns (problems: set<Problem>)
      modifies this
      ensures DropDone(engine, table, old(Value()), Value())
      ensures EntryProblemsFound(old(provenance), problems)
    {
      problems := {};
      var recorded := provenance;
      ghost var base := fields;
      ghost var stale := set p | p in provenance && StaleEntry(engine, table, fields, p, provenance[p]);
      var pending := provenance.Keys;
      while pending != {}
        invariant pending <= recorded.Keys
        invariant forall p :: CellOf(fields, p) == DroppedCell(base, stale - pending, p)
        invariant provenance == recorded - (stale - pending)
        invariant forall q :: q in problems <==> exists p :: p in recorded && p !in pending && q in EntryProblems(p, recorded[p])
      {
        var p :| p in pending;
        StaleFrame(engine, table, base, fields, stale - pending, p, recorded[p]);
        ghost var before := fields;
        var found := DropIfStale(engine, table, p, recorded[p]);
        DropStep(base, before, fields, stale, pending, p);
        problems := problems + found;
        pending := pending - {p};
      }
    }

    /** One entry of the first loop: report it, keep it, or discard the inferred value. */
    method DropIfStale(engine: Engine, table: Table, p: Path, entry: Json) returns (problems: set<Problem>)
      modifies this
      ensures var stale := StaleEntry(engine, table, old(fields), p, entry);
              && (forall q :: CellOf(fields, q) == DroppedCell(old(fields), if stale then {p} else {}, q))
              && provenance == old(provenance) - if stale then {p} else {}
      ensures problems == EntryProblems(p, entry)
    {
      problems := {};
      if !WellFormedEntry(entry) {
        problems := {MalformedProvenance(p)};
      } else if !p.Fact? {
        problems := {NonClosableProvenance(p)};
      } else if !Survives(engine, table, fields, p.f, entry) {
        provenance := provenance - {p};
        ResetField(p.f);
      }
    }

    method ResetField(f: ModelField)
      modifies this`fields
      ensures forall p :: CellOf(fields, p) == DroppedCell(old(fields), {Fact(f)}, p)
    {
      if ResetCell(f).Some? {
        fields := fields[Fact(f) := ResetCell(f).value];
      } else {
        fields := fields - {Fact(f)};
      }
      if f == RenderingHints {
        fields := fields - {RenderingState};
      }
    }

    method FindRule(engine: Engine, rules: seq<Rule>, f: ModelField, providerId: string, normalizedId: string)
      returns (applied: Option<Rule>)
      ensures applied == FirstRule(engine, rules, f, providerId, normalizedId)
    {
      applied := None;
      var i := 0;
      while i < |rules|
        invariant i <= |rules|
        invariant FirstRule(engine, rules, f, providerId, normalizedId) == FirstRule(engine, rules[i..], f, providerId, normalizedId)
      {
        if Fact(f) in rules[i].values && RuleMatches(engine, rules[i], providerId, normalizedId) {
          return Some(rules[i]);
        }
        assert rules[i..][1..] == rules[i + 1..];
        i := i + 1;
      }
    }

    method CloseOpen(engine: Engine, rules: seq<Rule>) returns (problems: set<Problem>)
      modifies this
      ensures CloseDone(engine, rules, old(Value()), Value())
      ensures OpenProblemsFound(engine, rules, old(Value()), problems)
    {
      problems := {};
      ghost var base, recorded := fields, provenance;
      var providerId := ProviderId(fields);
      var normalizedId := NormalizedId(engine, fields);
      for i := 0 to |Closable|
        invariant forall p: Path :: !(p.Fact? && FieldIndex(p.f) < i) ==> CellOf(fields, p) == CellOf(base, p)
        invariant forall p: Path :: !(p.Fact? && FieldIndex(p.f) < i) ==> CellOf(provenance, p) == CellOf(recorded, p)
        invariant forall f :: FieldIndex(f) < i ==>
          FieldClosed(engine, rules, f, providerId, normalizedId, CellOf(base, Fact(f)), CellOf(recorded, Fact(f)),
                      CellOf(fields, Fact(f)), CellOf(provenance, Fact(f)))
        invariant forall q :: q in problems <==>
          match q
          case NoRuleCloses(f) => FieldIndex(f) < i && FieldOpen(engine, rules, f, providerId, normalizedId, CellOf(base, Fact(f)), CellOf(recorded, Fact(f)))
          case MalformedProvenance(p) => p in recorded && p.Fact? && FieldIndex(p.f) < i && !WellFormedEntry(recorded[p])
          case NonClosableProvenance(_) => false
      {
        ClosableOrder(i);
        var f := Closable[i];
        assert CellOf(fields, Fact(f)) == CellOf(base, Fact(f)) && CellOf(provenance, Fact(f)) == CellOf(recorded, Fact(f));
        var found := CloseField(engine, rules, f, providerId, normalizedId);
        problems := problems + found;
        forall g | FieldIndex(g) == i
          ensures g == f
        {
        }
      }
      forall f: ModelField
        ensures f in Closable
      {
        ClosableIsComplete(f);
      }
    }

    method CloseField(engine: Engine, rules: seq<Rule>, f: ModelField, providerId: string, normalizedId: string)
      returns (problems: set<Problem>)
      modifies this
      ensures forall p :: p != Fact(f) ==> CellOf(fields, p) == CellOf(old(fields), p)
      ensures forall p :: p != Fact(f) ==> CellOf(provenance, p) == CellOf(old(provenance), p)
      ensures FieldClosed(engine, rules, f, providerId, normalizedId, CellOf(old(fields), Fact(f)), CellOf(old(provenance), Fact(f)),
                          CellOf(fields, Fact(f)), CellOf(provenance, Fact(f)))
      ensures problems ==
        (if FieldOpen(engine, rules, f, providerId, normalizedId, CellOf(old(fields), Fact(f)), CellOf(old(provenance), Fact(f)))
         then {NoRuleCloses(f)} else {})
        + (if Fact(f) in old(provenance) && !WellFormedEntry(old(provenance)[Fact(f)]) then {MalformedProvenance(Fact(f))} else {})
    {
      var p := Fact(f);
      problems := {};
      if p in provenance {
        if !WellFormedEntry(provenance[p]) {
          problems := {MalformedProvenance(p)};
        }
      } else if Indeterminate(f, Get(fields, p)) {
        var applied := FindRule(engine, rules, f, providerId, normalizedId);
        FirstRuleFits(engine, rules, f, providerId, normalizedId);
        if applied.None? {
          problems := {NoRuleCloses(f)};
        } else {
          fields := fields[p := Canonical(engine.encode, applied.value.values[p])];
          provenance := provenance[p := NewEntry(applied.value)];
        }
      }
    }

    method Settle()
      modifies this`fields
      ensures SettleDone(old(fields), fields) && provenance == old(provenance)
    {
      var hints := Get(fields, Fact(RenderingHints));
      if HasState(hints) {
        if StateNotApplicable(hints) {
          fields := fields[RenderingState := Str("not-applicable")];
        }
        fields := fields[Fact(RenderingHints) := EmptyHints];
      }
      fields := fields[CostHintState := Str(if UsableCost(Get(fields, CostHints)) then "recorded" else "not-recorded")];
    }
  }

  ghost function SettledCell(fields: map<Path, Json>, p: Path): Option<Json> {
    var hints := CellOf(fields, Fact(RenderingHints));
    if p == Fact(RenderingHints) then SettledHints(hints)
    else if p == RenderingState then SettledState(hints, CellOf(fields, RenderingState))
    else if p == CostHintState then Some(Str(if UsableCost(Get(fields, CostHints)) then "recorded" else "not-recorded"))
    else CellOf(fields, p)
  }

  // ---------- framing ----------

  /** Discarding other entries does not change the check of `p`. */
  lemma StaleFrame(engine: Engine, table: Table, base: map<Path, Json>, fields: map<Path, Json>, gone: set<Path>, p: Path, entry: Json)
    requires forall q :: CellOf(fields, q) == DroppedCell(base, gone, q)
    requires p !in gone
    ensures StaleEntry(engine, table, base, p, entry) == StaleEntry(engine, table, fields, p, entry)
  {
    if p.Fact? {
      assert CellOf(fields, p) == DroppedCell(base, gone, p);
      assert CellOf(fields, Named("provider_id")) == DroppedCell(base, gone, Named("provider_id"));
      assert CellOf(fields, Named("upstream_model_id")) == DroppedCell(base, gone, Named("upstream_model_id"));
      assert CellOf(fields, RenderingState) == DroppedCell(base, gone, RenderingState);
      assert ProviderId(base) == ProviderId(fields) && NormalizedId(engine, base) == NormalizedId(engine, fields);
      assert Get(base, p) == Get(fields, p);
    }
  }

  lemma DropStep(base: map<Path, Json>, before: map<Path, Json>, after: map<Path, Json>, stale: set<Path>, pending: set<Path>, p: Path)
    requires p in pending
    requires forall q :: CellOf(before, q) == DroppedCell(base, stale - pending, q)
    requires forall q :: CellOf(after, q) == DroppedCell(before, if p in stale then {p} else {}, q)
    ensures stale - (pending - {p}) == (stale - pending) + if p in stale then {p} else {}
    ensures forall q :: CellOf(after, q) == DroppedCell(base, stale - (pending - {p}), q)
  {
  }

  // ---------- the loops compose to the declared outcome ----------

  lemma DropIsLocal(engine: Engine, table: Table, base: Record, dropped: Record, f: ModelField)
    requires DropDone(engine, table, base, dropped)
    ensures var entry := CellOf(base.provenance, Fact(f));
            if entry.Some? && StaleEntry(engine, table, base.fields, Fact(f), entry.value)
            then CellOf(dropped.fields, Fact(f)) == ResetCell(f) && CellOf(dropped.provenance, Fact(f)) == None
            else CellOf(dropped.fields, Fact(f)) == CellOf(base.fields, Fact(f)) && CellOf(dropped.provenance, Fact(f)) == entry
    ensures ProviderId(dropped.fields) == ProviderId(base.fields)
    ensures NormalizedId(engine, dropped.fields) == NormalizedId(engine, base.fields)
  {
    assert CellOf(dropped.fields, Named("provider_id")) == CellOf(base.fields, Named("provider_id"));
    assert CellOf(dropped.fields, Named("upstream_model_id")) == CellOf(base.fields, Named("upstream_model_id"));
  }

  lemma FieldComposes(engine: Engine, table: Table, r: Record, f: ModelField, dropped: Option<Json>, recorded: Option<Json>,
                      after: Option<Json>, entry: Option<Json>)
    requires var base := CanonicalFields(engine, r.fields);
             var was := CellOf(r.provenance, Fact(f));
             && (if was.Some? && StaleEntry(engine, table, base, Fact(f), was.value)
                 then dropped == ResetCell(f) && recorded == None else dropped == CellOf(base, Fact(f)) && recorded == was)
             && FieldClosed(engine, table.modelRules, f, ProviderId(base), NormalizedId(engine, base), dropped, recorded, after, entry)
    ensures var base := CanonicalFields(engine, r.fields);
            FieldOpen(engine, table.modelRules, f, ProviderId(base), NormalizedId(engine, base), dropped, recorded)
            == FieldOutcome(engine, table, r, f).Open?
    ensures !FieldOutcome(engine, table, r, f).Open? ==>
              after == ClosedCell(engine, table, r, f) && entry == ClosedEntry(engine, table, r, f)
  {
    var base := CanonicalFields(engine, r.fields);
    FirstRuleFits(engine, table.modelRules, f, ProviderId(base), NormalizedId(engine, base));
    assert Get(base, Fact(f)) == ValueOf(CellOf(base, Fact(f)));
  }

  lemma FieldCloses(engine: Engine, table: Table, r: Record, dropped: Record, closed: Record, f: ModelField)
    requires DropDone(engine, table, Record(CanonicalFields(engine, r.fields), r.provenance), dropped)
    requires CloseDone(engine, table.modelRules, dropped, closed)
    ensures OpenField(engine, table.modelRules, dropped, f) == FieldOutcome(engine, table, r, f).Open?
    ensures !FieldOutcome(engine, table, r, f).Open? ==>
              && CellOf(closed.fields, Fact(f)) == ClosedCell(engine, table, r, f)
              && CellOf(closed.provenance, Fact(f)) == ClosedEntry(engine, table, r, f)
  {
    DropIsLocal(engine, table, Record(CanonicalFields(engine, r.fields), r.provenance), dropped, f);
    FieldComposes(engine, table, r, f, CellOf(dropped.fields, Fact(f)), CellOf(dropped.provenance, Fact(f)),
                  CellOf(closed.fields, Fact(f)), CellOf(closed.provenance, Fact(f)));
  }

  lemma ProblemsAgree(engine: Engine, table: Table, r: Record, dropped: Record, closed: Record, malformed: set<Problem>, open: set<Problem>)
    requires DropDone(engine, table, Record(CanonicalFields(engine, r.fields), r.provenance), dropped)
    requires CloseDone(engine, table.modelRules, dropped, closed)
    requires EntryProblemsFound(r.provenance, malformed)
    requires OpenProblemsFound(engine, table.modelRules, dropped, open)
    ensures forall q :: q in malformed + open <==> IsProblem(engine, table, r, q)
  {
    forall q
      ensures q in malformed + open <==> IsProblem(engine, table, r, q)
    {
      match q
      case NoRuleCloses(f) => FieldCloses(engine, table, r, dropped, closed, f);
      case MalformedProvenance(p) =>
        if q in open {
          assert p in r.provenance && q in EntryProblems(p, r.provenance[p]);
        }
      case NonClosableProvenance(_) =>
    }
  }

  lemma FinalFields(engine: Engine, table: Table, r: Record, closed: map<Path, Json>, final: map<Path, Json>)
    requires SettleDone(closed, final)
    requires forall f :: CellOf(closed, Fact(f)) == ClosedCell(engine, table, r, f)
    requires forall p: Path :: !p.Fact? ==>
      CellOf(closed, p) == if p == RenderingState && Discarded(engine, table, r, RenderingHints) then None else CellOf(r.fields, p)
    ensures forall p :: CellOf(final, p) == FinalCell(engine, table, r, p)
  {
    assert CellOf(closed, CostHints) == CellOf(r.fields, CostHints);
    assert CellOf(closed, RenderingState) == if Discarded(engine, table, r, RenderingHints) then None else CellOf(r.fields, RenderingState);
    assert CellOf(closed, Fact(RenderingHints)) == ClosedCell(engine, table, r, RenderingHints);
    forall p
      ensures CellOf(final, p) == FinalCell(engine, table, r, p)
    {
      assert CellOf(final, p) == SettledCell(closed, p);
    }
  }

  /** Only the touched keys can appear that were not there before. */
  lemma CellsAreFields(engine: Engine, table: Table, r: Record, final: map<Path, Json>)
    requires forall p :: CellOf(final, p) == FinalCell(engine, table, r, p)
    ensures final == Closed(engine, table, r).fields
  {
    var expected := Closed(engine, table, r).fields;
    forall p
      ensures CellOf(final, p) == CellOf(expected, p)
    {
      if p.Fact? { ClosableIsComplete(p.f); }
      assert CellOf(final, p) == FinalCell(engine, table, r, p);
    }
    MapsByCells(final, expected);
  }

  lemma EntriesAreProvenance(engine: Engine, table: Table, r: Record, provenance: map<Path, Json>)
    requires forall f :: CellOf(provenance, Fact(f)) == ClosedEntry(engine, table, r, f)
    requires forall p: Path :: !p.Fact? ==> CellOf(provenance, p) == None
    ensures provenance == Closed(engine, table, r).provenance
  {
    var expected := Closed(engine, table, r).provenance;
    forall p
      ensures CellOf(provenance, p) == CellOf(expected, p)
    {
      if p.Fact? {
        ClosableIsComplete(p.f);
        assert CellOf(provenance, Fact(p.f)) == ClosedEntry(engine, table, r, p.f);
      }
    }
    MapsByCells(provenance, expected);
  }

  lemma DroppedStateIsDiscarded(engine: Engine, table: Table, r: Record, dropped: Record)
    requires DropDone(engine, table, Record(CanonicalFields(engine, r.fields), r.provenance), dropped)
    requires forall p :: p in r.provenance ==> p.Fact?
    ensures forall p: Path :: !p.Fact? ==>
      CellOf(dropped.fields, p) == if p == RenderingState && Discarded(engine, table, r, RenderingHints) then None else CellOf(r.fields, p)
    ensures forall p: Path :: !p.Fact? ==> CellOf(dropped.provenance, p) == None
  {
  }

  lemma PassIsDeclarative(engine: Engine, table: Table, r: Record, dropped: Record, closed: Record, final: map<Path, Json>,
                          malformed: set<Problem>, open: set<Problem>)
    requires DropDone(engine, table, Record(CanonicalFields(engine, r.fields), r.provenance), dropped)
    requires CloseDone(engine, table.modelRules, dropped, closed)
    requires SettleDone(closed.fields, final)
    requires EntryProblemsFound(r.provenance, malformed)
    requires OpenProblemsFound(engine, table.modelRules, dropped, open)
    ensures forall q :: q in malformed + open <==> IsProblem(engine, table, r, q)
    ensures malformed + open == {} ==> Record(final, closed.provenance) == Closed(engine, table, r)
  {
    ProblemsAgree(engine, table, r, dropped, closed, malformed, open);
    if malformed + open == {} {
      NoProblemMeans(engine, table, r);
      DroppedStateIsDiscarded(engine, table, r, dropped);
      forall f
        ensures CellOf(closed.fields, Fact(f)) == ClosedCell(engine, table, r, f)
        ensures CellOf(closed.provenance, Fact(f)) == ClosedEntry(engine, table, r, f)
      {
        FieldCloses(engine, table, r, dropped, closed, f);
      }
      FinalFields(engine, table, r, closed.fields, final);
      CellsAreFields(engine, table, r, final);
      EntriesAreProvenance(engine, table, r, closed.provenance);
    }
  }
}
