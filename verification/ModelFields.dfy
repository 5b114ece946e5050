/** Vocabulary of tools/model-metadata/close_model_metadata.py: rules, records and closable fields. */
module ModelFields {
  import opened Wrappers
  import opened Json

  /** The parts of the tool that are not modelled further: JSON text, regular expressions and
      the lexical reduction of an upstream id. Every statement holds for any choice of them. */
  datatype Engine = Engine(encode: Json -> string, search: (string, string) -> bool, normalize: string -> string)

  /** Closable model facts; the first four are entries of `capability_hints`. */
  datatype ModelField =
    | Reasoning | Streaming | Tool | Vision
    | ContextTokens | MaxOutputTokens | InputModalities | Lifecycle | RenderingHints | ExecutionFit

  /** `CLOSABLE_MODEL_FIELDS`, in its order. */
  const Closable: seq<ModelField> := [
    Reasoning, Streaming, Tool, Vision, ContextTokens, MaxOutputTokens,
    InputModalities, Lifecycle, RenderingHints, ExecutionFit]

  /** `PROVIDER_DOMAINS`, and any other name a catalog may carry. */
  datatype Domain = Authentication | Discovery | Endpoint | Identity | OtherDomain(name: string)

  /** A field path as it is spelled in a record, a provenance object or a rule assignment. */
  datatype Path = Fact(f: ModelField) | Named(name: string)

  /** `domain` and `completeness` are the two assignment keys that name no record field. */
  datatype Rule = Rule(
    key: string,
    kind: string,
    modelPattern: Option<string>,
    providerPattern: Option<string>,
    domain: Option<Domain>,
    completeness: Option<Json>,
    values: map<Path, Json>)

  datatype Table = Table(modelRules: seq<Rule>, providerRules: seq<Rule>)

  function Get(fields: map<Path, Json>, p: Path): Json {
    if p in fields then fields[p] else Null
  }

  function CellOf(fields: map<Path, Json>, p: Path): Option<Json> {
    if p in fields then Some(fields[p]) else None
  }

  function ValueOf(cell: Option<Json>): Json {
    if cell.Some? then cell.value else Null
  }

  lemma MapsByCells(a: map<Path, Json>, b: map<Path, Json>)
    requires forall p :: CellOf(a, p) == CellOf(b, p)
    ensures a == b
  {
    forall p
      ensures p in a <==> p in b
    {
      assert CellOf(a, p) == CellOf(b, p);
    }
    forall p | p in a
      ensures a[p] == b[p]
    {
      assert CellOf(a, p) == CellOf(b, p);
    }
  }

  function FieldIndex(f: ModelField): (i: nat)
    ensures i < |Closable| && Closable[i] == f
  {
    match f
    case Reasoning => 0 case Streaming => 1 case Tool => 2 case Vision => 3
    case ContextTokens => 4 case MaxOutputTokens => 5 case InputModalities => 6
    case Lifecycle => 7 case RenderingHints => 8 case ExecutionFit => 9
  }

  lemma ClosableOrder(i: nat)
    requires i < |Closable|
    ensures FieldIndex(Closable[i]) == i
  {
  }

  lemma ClosableIsComplete(f: ModelField)
    ensures f in Closable
  {
    assert Closable[FieldIndex(f)] == f;
  }

  // ---------- rules ----------

  /** `rules_by_key`: a later rule replaces an earlier one with the same key. */
  function Lookup(rules: seq<Rule>, key: string): Option<Rule> {
    if rules == [] then None
    else if rules[|rules| - 1].key == key then Some(rules[|rules| - 1])
    else Lookup(rules[..|rules| - 1], key)
  }

  function AllRules(table: Table): seq<Rule> {
    table.modelRules + table.providerRules
  }

  function RuleFor(table: Table, key: Json): Option<Rule> {
    if key.Str? then Lookup(AllRules(table), key.s) else None
  }

  predicate RuleMatches(engine: Engine, rule: Rule, providerId: string, normalizedId: string) {
    && (rule.modelPattern.Some? ==> engine.search(rule.modelPattern.value, normalizedId))
    && (rule.providerPattern.Some? ==> engine.search(rule.providerPattern.value, providerId))
  }

  /** What `check_rule_table` accepts about keys and kinds: nonempty, unique, filed under their kind. */
  ghost predicate ValidTable(table: Table) {
    var rules := AllRules(table);
    && (forall i, j :: 0 <= i < j < |rules| ==> rules[i].key != rules[j].key)
    && (forall i :: 0 <= i < |rules| ==> rules[i].key != "")
    && (forall i :: 0 <= i < |table.modelRules| ==> table.modelRules[i].kind == "model")
    && (forall i :: 0 <= i < |table.providerRules| ==> table.providerRules[i].kind == "provider")
  }

  lemma {:induction false} LookupFinds(rules: seq<Rule>, key: string)
    ensures match Lookup(rules, key)
            case Some(rule) => rule in rules && rule.key == key
            case None => forall i :: 0 <= i < |rules| ==> rules[i].key != key
  {
    if rules != [] && rules[|rules| - 1].key != key {
      LookupFinds(rules[..|rules| - 1], key);
    }
  }

  lemma LookupUnique(rules: seq<Rule>, i: nat)
    requires i < |rules|
    requires forall i, j :: 0 <= i < j < |rules| ==> rules[i].key != rules[j].key
    ensures Lookup(rules, rules[i].key) == Some(rules[i])
  {
    LookupFinds(rules, rules[i].key);
    var found := Lookup(rules, rules[i].key).value;
    var j :| 0 <= j < |rules| && rules[j] == found;
    assert i == j;
  }

  lemma ModelRuleIsFound(table: Table, rule: Rule)
    requires ValidTable(table) && rule in table.modelRules
    ensures RuleFor(table, Str(rule.key)) == Some(rule) && rule.kind == "model" && rule.key != ""
  {
    var i :| 0 <= i < |table.modelRules| && table.modelRules[i] == rule;
    assert AllRules(table)[i] == rule;
    LookupUnique(AllRules(table), i);
  }

  lemma ProviderRuleIsFound(table: Table, rule: Rule)
    requires ValidTable(table) && rule in table.providerRules
    ensures RuleFor(table, Str(rule.key)) == Some(rule) && rule.kind == "provider" && rule.key != ""
  {
    var i :| 0 <= i < |table.providerRules| && table.providerRules[i] == rule;
    assert AllRules(table)[|table.modelRules| + i] == rule;
    LookupUnique(AllRules(table), |table.modelRules| + i);
  }

  // ---------- provenance entries ----------

  function NewEntry(rule: Rule): Json {
    Obj(map["basis" := Str("inferred"), "rule_key" := Str(rule.key)])
  }

  predicate InferredBasis(entry: Json) {
    entry.Obj? && Member(entry, "basis") == Str("inferred")
  }

  predicate WellFormedEntry(entry: Json) {
    InferredBasis(entry) && Truthy(Member(entry, "rule_key"))
  }

  function EntryRule(table: Table, entry: Json): Option<Rule> {
    RuleFor(table, Member(entry, "rule_key"))
  }

  predicate StillApplies(engine: Engine, table: Table, entry: Json, kind: string, providerId: string, normalizedId: string) {
    && InferredBasis(entry)
    && EntryRule(table, entry).Some?
    && EntryRule(table, entry).value.kind == kind
    && RuleMatches(engine, EntryRule(table, entry).value, providerId, normalizedId)
  }
}
