/** `close_model_record`: what one pass does to one model record, field by field, and the
    in-place loops that do it. */
module ModelClosure {
  import opened Wrappers
  import opened Json
  import opened ModelFields

  const RenderingState := Named("reasoning_rendering_state")
  const CostHintState := Named("cost_hint_state")
  const CostHints := Named("cost_hints")

  /** A record: its fields, and the `field_provenance` object (empty stands for absent). */
  datatype Record = Record(fields: map<Path, Json>, provenance: map<Path, Json>)

  datatype Problem =
    | MalformedProvenance(path: Path)
    | NonClosableProvenance(path: Path)
    | NoRuleCloses(field: ModelField)

  // ---------- field tests ----------

  const EmptyHints: Json := Obj(map[
    "reasoning_effort_maps" := Arr([]),
    "supported_reasoning_efforts" := Arr([]),
    "thinking_level_maps" := Arr([])])

  const NotApplicableForm: Json := Obj(map["state" := Str("not-applicable")])

  predicate AnyHintList(v: Json) {
    || Truthy(Member(v, "reasoning_effort_maps"))
    || Truthy(Member(v, "supported_reasoning_efforts"))
    || Truthy(Member(v, "thinking_level_maps"))
  }

  predicate HasState(v: Json) {
    v.Obj? && "state" in v.fields
  }

  predicate StateNotApplicable(v: Json) {
    Member(v, "state") == Str("not-applicable")
  }

  predicate Indeterminate(f: ModelField, v: Json) {
    match f
    case InputModalities => !Truthy(v)
    case ContextTokens => IndeterminateTokens(v)
    case MaxOutputTokens => IndeterminateTokens(v)
    case Lifecycle => v == Null || v == Str("unknown")
    case RenderingHints => !v.Obj? || (!StateNotApplicable(v) && !AnyHintList(v))
    case ExecutionFit => !v.Obj? || !Truthy(Member(v, "state"))
    case _ => v !in {Str("supported"), Str("unsupported"), Str("conditional"), Str("not-applicable")}
  }

  predicate IndeterminateTokens(v: Json) {
    || !v.Obj?
    || Member(v, "state") == Str("unknown")
    || (Member(v, "state") == Str("conflict") && !Truthy(Member(v, "candidates")))
  }

  /** `reset_model_field`; `execution_fit` is removed. */
  function ResetCell(f: ModelField): (cell: Option<Json>)
    ensures Indeterminate(f, ValueOf(cell))
  {
    match f
    case InputModalities => Some(Arr([]))
    case ContextTokens => Some(Obj(map["state" := Str("unknown"), "value" := Null]))
    case MaxOutputTokens => Some(Obj(map["state" := Str("unknown"), "value" := Null]))
    case RenderingHints => Some(EmptyHints)
    case ExecutionFit => None
    case _ => Some(Str("unknown"))
  }

  predicate UsableCost(v: Json) {
    match v
    case Integer(n) => n >= 0
    case Float(m, _) => m >= 0
    case Arr(items) => exists i :: 0 <= i < |items| && UsableCost(items[i])
    case Obj(fields) => exists k :: k in fields && UsableCost(fields[k])
    case _ => false
  }

  // ---------- the declarative outcome of a pass ----------

  function ProviderId(fields: map<Path, Json>): string {
    Text(Get(fields, Named("provider_id")))
  }

  function NormalizedId(engine: Engine, fields: map<Path, Json>): string {
    engine.normalize(Text(Get(fields, Named("upstream_model_id"))))
  }

  /** Every stored fact in canonical form; nothing else changes. */
  function CanonicalFields(engine: Engine, fields: map<Path, Json>): map<Path, Json> {
    map p | p in fields :: if p.Fact? then Canonical(engine.encode, fields[p]) else fields[p]
  }

  /** `assignment_matches`: the stored value is exactly what the rule assigns. */
  predicate AssignmentMatches(engine: Engine, f: ModelField, value: Json, state: Json, rule: Rule) {
    && Fact(f) in rule.values
    && if f == RenderingHints && rule.values[Fact(f)] == NotApplicableForm
       then state == Str("not-applicable") && !AnyHintList(value)
       else value == Canonical(engine.encode, rule.values[Fact(f)])
  }

  /** The recorded inference survives: its rule still applies and the value did not drift. */
  predicate Survives(engine: Engine, table: Table, fields: map<Path, Json>, f: ModelField, entry: Json) {
    && StillApplies(engine, table, entry, "model", ProviderId(fields), NormalizedId(engine, fields))
    && AssignmentMatches(engine, f, Get(fields, Fact(f)), Get(fields, RenderingState), EntryRule(table, entry).value)
  }

  function FirstRule(engine: Engine, rules: seq<Rule>, f: ModelField, providerId: string, normalizedId: string): Option<Rule> {
    if rules == [] then None
    else if Fact(f) in rules[0].values && RuleMatches(engine, rules[0], providerId, normalizedId) then Some(rules[0])
    else FirstRule(engine, rules[1..], f, providerId, normalizedId)
  }

  /** What one pass decides about one field of a record whose facts are canonical. */
  datatype Outcome = Observed | Kept | Inferred(rule: Rule) | Open

  function OutcomeOf(engine: Engine, table: Table, fields: map<Path, Json>, f: ModelField, entry: Option<Json>): Outcome {
    if entry.Some? && (!WellFormedEntry(entry.value) || Survives(engine, table, fields, f, entry.value)) then Kept
    else if entry.None? && !Indeterminate(f, Get(fields, Fact(f))) then Observed
    else
      match FirstRule(engine, table.modelRules, f, ProviderId(fields), NormalizedId(engine, fields))
      case Some(rule) => if Fact(f) in rule.values then Inferred(rule) else Open
      case None => Open
  }

  function FieldOutcome(engine: Engine, table: Table, r: Record, f: ModelField): Outcome {
    OutcomeOf(engine, table, CanonicalFields(engine, r.fields), f, CellOf(r.provenance, Fact(f)))
  }

  /** The stored value after the closing loop, before the rendering hints are settled. */
  function ClosedCell(engine: Engine, table: Table, r: Record, f: ModelField): Option<Json> {
    match FieldOutcome(engine, table, r, f)
    case Inferred(rule) =>
      if Fact(f) in rule.values then Some(Canonical(engine.encode, rule.values[Fact(f)])) else None
    case _ => CellOf(CanonicalFields(engine, r.fields), Fact(f))
  }

  function ClosedEntry(engine: Engine, table: Table, r: Record, f: ModelField): Option<Json> {
    match FieldOutcome(engine, table, r, f)
    case Inferred(rule) => Some(NewEntry(rule))
    case Kept => CellOf(r.provenance, Fact(f))
    case _ => None
  }

  /** The recorded inference for `f` was discarded by the pass. */
  predicate Discarded(engine: Engine, table: Table, r: Record, f: ModelField) {
    Fact(f) in r.provenance && !FieldOutcome(engine, table, r, f).Kept?
  }

  /** A `state` key in the rendering hints is folded into `reasoning_rendering_state`. */
  function SettledHints(cell: Option<Json>): Option<Json> {
    if cell.Some? && HasState(cell.value) then Some(EmptyHints) else cell
  }

  function SettledState(hints: Option<Json>, state: Option<Json>): Option<Json> {
    if hints.Some? && StateNotApplicable(hints.value) then Some(Str("not-applicable")) else state
  }

  function FinalCell(engine: Engine, table: Table, r: Record, p: Path): Option<Json> {
    if p == Fact(RenderingHints) then SettledHints(ClosedCell(engine, table, r, RenderingHints))
    else if p.Fact? then ClosedCell(engine, table, r, p.f)
    else if p == RenderingState then
      SettledState(ClosedCell(engine, table, r, RenderingHints),
                   if Discarded(engine, table, r, RenderingHints) then None else CellOf(r.fields, RenderingState))
    else if p == CostHintState then
      Some(Str(if UsableCost(Get(r.fields, CostHints)) then "recorded" else "not-recorded"))
    else CellOf(r.fields, p)
  }

  function Touched(): set<Path> {
    (set f | f in Closable :: Fact(f)) + {RenderingState, CostHintState}
  }

  function Closed(engine: Engine, table: Table, r: Record): Record {
    Record(
      map p | p in r.fields.Keys + Touched() && FinalCell(engine, table, r, p).Some? :: FinalCell(engine, table, r, p).value,
      map p | p in Touched() && p.Fact? && ClosedEntry(engine, table, r, p.f).Some? :: ClosedEntry(engine, table, r, p.f).value)
  }

  function EntryProblems(p: Path, entry: Json): set<Problem> {
    if !WellFormedEntry(entry) then {MalformedProvenance(p)}
    else if !p.Fact? then {NonClosableProvenance(p)}
    else {}
  }

  ghost predicate IsProblem(engine: Engine, table: Table, r: Record, q: Problem) {
    || (q.NoRuleCloses? && FieldOutcome(engine, table, r, q.field).Open?)
    || (exists p :: p in r.provenance && q in EntryProblems(p, r.provenance[p]))
  }

  /** The pass succeeds: nothing is reported. */
  ghost predicate Closes(engine: Engine, table: Table, r: Record) {
    && (forall p :: p in r.provenance ==> p.Fact? && WellFormedEntry(r.provenance[p]))
    && (forall f :: !FieldOutcome(engine, table, r, f).Open?)
  }

  lemma NoProblemMeans(engine: Engine, table: Table, r: Record)
    ensures Closes(engine, table, r) <==> forall q :: !IsProblem(engine, table, r, q)
  {
    if forall q :: !IsProblem(engine, table, r, q) {
      forall p | p in r.provenance
        ensures p.Fact? && WellFormedEntry(r.provenance[p])
      {
        assert !IsProblem(engine, table, r, MalformedProvenance(p));
        assert !IsProblem(engine, table, r, NonClosableProvenance(p));
      }
      forall f
        ensures !FieldOutcome(engine, table, r, f).Open?
      {
        assert !IsProblem(engine, table, r, NoRuleCloses(f));
      }
    }
  }

  lemma {:induction false} FirstRuleFits(engine: Engine, rules: seq<Rule>, f: ModelField, providerId: string, normalizedId: string)
    ensures match FirstRule(engine, rules, f, providerId, normalizedId)
            case Some(rule) => rule in rules && Fact(f) in rule.values && RuleMatches(engine, rule, providerId, normalizedId)
            case None => true
  {
    if rules != [] && !(Fact(f) in rules[0].values && RuleMatches(engine, rules[0], providerId, normalizedId)) {
      FirstRuleFits(engine, rules[1..], f, providerId, normalizedId);
    }
  }
}
