/** `close`: the whole catalog, and when a second run over its own output changes nothing. */
module MetadataCatalog {
  import opened Wrappers
  import opened Json
  import opened ModelFields
  import M = ModelClosure
  import I = ModelIdempotence
  import FM = ModelFirstMatch
  import P = ProviderClosure
  import F = ProviderIdempotence
  import K = ProviderKept
  import R = ProviderRestored
  import T = ProviderTables

  // ---------- keyed lists ----------

  datatype Keyed<T> = Keyed(key: string, value: T)

  /** No later element belongs before an earlier one. */
  ghost predicate IsSorted<T>(s: seq<Keyed<T>>) {
    forall i, j :: 0 <= i < j < |s| ==> !Before(s[j].key, s[i].key)
  }

  function Insert<T>(s: seq<Keyed<T>>, e: Keyed<T>): seq<Keyed<T>> {
    if s == [] || !Before(e.key, s[|s| - 1].key) then s + [e] else Insert(s[..|s| - 1], e) + [s[|s| - 1]]
  }

  /** Python's stable `sort(key=...)`. */
  function Sort<T>(s: seq<Keyed<T>>): seq<Keyed<T>> {
    if s == [] then [] else Insert(Sort(s[..|s| - 1]), s[|s| - 1])
  }

  /** The last element with a key: what a dict built from the list holds. */
  function LastWith<T>(s: seq<Keyed<T>>, key: string): Option<Keyed<T>> {
    if s == [] then None else if s[|s| - 1].key == key then Some(s[|s| - 1]) else LastWith(s[..|s| - 1], key)
  }

  lemma {:induction false} InsertFacts<T>(s: seq<Keyed<T>>, e: Keyed<T>)
    ensures multiset(Insert(s, e)) == multiset(s) + multiset{e}
    ensures |Insert(s, e)| == |s| + 1
    ensures IsSorted(s) ==> IsSorted(Insert(s, e))
  {
    if s != [] && Before(e.key, s[|s| - 1].key) {
      var rest, last := s[..|s| - 1], s[|s| - 1];
      assert s == rest + [last];
      InsertFacts(rest, e);
      if IsSorted(s) {
        forall i | 0 <= i < |s|
          ensures !Before(last.key, Insert(rest, e)[i].key)
        {
          BeforeAsymmetric(e.key, last.key);
          BeforeIrreflexive(last.key);
          assert Insert(rest, e)[i] in multiset(Insert(rest, e));
          if Insert(rest, e)[i] != e { assert Insert(rest, e)[i] in rest; }
        }
      }
    } else if s != [] && IsSorted(s) {
      forall i | 0 <= i < |s|
        ensures !Before(e.key, s[i].key)
      {
        BeforeIrreflexive(s[i].key);
        if i < |s| - 1 { NotBeforeTransitive(s[i].key, s[|s| - 1].key, e.key); }
      }
    }
  }

  lemma NotBeforeTransitive(a: string, b: string, c: string)
    requires !Before(b, a) && !Before(c, b)
    ensures !Before(c, a)
  {
    if Before(c, a) {
      BeforeTotal(b, c);
      if Before(b, c) { BeforeTransitive(b, c, a); }
    }
  }

  lemma {:induction false} SortFacts<T>(s: seq<Keyed<T>>)
    ensures IsSorted(Sort(s)) && multiset(Sort(s)) == multiset(s)
  {
    if s != [] {
      assert s == s[..|s| - 1] + [s[|s| - 1]];
      SortFacts(s[..|s| - 1]);
      InsertFacts(Sort(s[..|s| - 1]), s[|s| - 1]);
    }
  }

  lemma {:induction false} SortedIsFixed<T>(s: seq<Keyed<T>>)
    requires IsSorted(s)
    ensures Sort(s) == s
  {
    if s != [] {
      assert s == s[..|s| - 1] + [s[|s| - 1]];
      SortedIsFixed(s[..|s| - 1]);
    }
  }

  lemma {:induction false} InsertKeepsLast<T>(s: seq<Keyed<T>>, e: Keyed<T>, key: string)
    ensures LastWith(Insert(s, e), key) == if e.key == key then Some(e) else LastWith(s, key)
  {
    var all := Insert(s, e);
    if s == [] || !Before(e.key, s[|s| - 1].key) {
      assert all[..|all| - 1] == s;
    } else {
      var rest, last := s[..|s| - 1], s[|s| - 1];
      assert all[..|all| - 1] == Insert(rest, e);
      BeforeIrreflexive(e.key);
      InsertKeepsLast(rest, e, key);
    }
  }

  lemma {:induction false} SortKeepsLast<T>(s: seq<Keyed<T>>, key: string)
    ensures LastWith(Sort(s), key) == LastWith(s, key)
  {
    if s != [] {
      SortKeepsLast(s[..|s| - 1], key);
      InsertKeepsLast(Sort(s[..|s| - 1]), s[|s| - 1], key);
    }
  }

  lemma {:induction false} LastWithFinds<T>(s: seq<Keyed<T>>, key: string)
    ensures match LastWith(s, key)
            case Some(e) => e in s && e.key == key
            case None => forall e :: e in s ==> e.key != key
  {
    if s != [] {
      assert s == s[..|s| - 1] + [s[|s| - 1]];
      LastWithFinds(s[..|s| - 1], key);
    }
  }

  // ---------- evidence sources ----------

  /** `None` where an addition conflicts with the catalog. */
  function AddSources(sources: seq<Keyed<Json>>, additions: seq<Keyed<Json>>): Option<seq<Keyed<Json>>>
    decreases additions
  {
    if additions == [] then Some(sources)
    else
      match LastWith(sources, additions[0].key)
      case Some(existing) => if existing == additions[0] then AddSources(sources, additions[1..]) else None
      case None => AddSources(sources + [additions[0]], additions[1..])
  }

  lemma LastAfterAppend<T>(s: seq<Keyed<T>>, e: Keyed<T>, key: string)
    ensures LastWith(s + [e], key) == if e.key == key then Some(e) else LastWith(s, key)
  {
    assert (s + [e])[..|s|] == s;
  }

  /** After the additions every one of them is what the catalog holds under its key. */
  lemma {:induction false} AddedSourcesHeld(sources: seq<Keyed<Json>>, additions: seq<Keyed<Json>>)
    requires AddSources(sources, additions).Some?
    ensures forall k :: 0 <= k < |additions| ==> LastWith(AddSources(sources, additions).value, additions[k].key) == Some(additions[k])
    ensures forall key :: LastWith(sources, key).Some? ==> LastWith(AddSources(sources, additions).value, key) == LastWith(sources, key)
    decreases additions
  {
    if additions != [] {
      var next := if LastWith(sources, additions[0].key).Some? then sources else sources + [additions[0]];
      AddedSourcesHeld(next, additions[1..]);
      forall key
        ensures LastWith(sources, key).Some? ==> LastWith(next, key) == LastWith(sources, key)
        ensures LastWith(next, additions[0].key) == Some(additions[0])
      {
        LastAfterAppend(sources, additions[0], key);
        LastAfterAppend(sources, additions[0], additions[0].key);
        LastWithFinds(sources, key);
      }
      var all := AddSources(sources, additions).value;
      forall k | 0 <= k < |additions|
        ensures LastWith(all, additions[k].key) == Some(additions[k])
      {
        if k > 0 { assert additions[1..][k - 1] == additions[k]; }
      }
    }
  }

  lemma {:induction false} HeldSourcesStay(sources: seq<Keyed<Json>>, additions: seq<Keyed<Json>>)
    requires forall k :: 0 <= k < |additions| ==> LastWith(sources, additions[k].key) == Some(additions[k])
    ensures AddSources(sources, additions) == Some(sources)
    decreases additions
  {
    if additions != [] {
      HeldSourcesStay(sources, additions[1..]);
    }
  }

  // ---------- added records ----------

  /** A model record: its closed part, and the two members that are always derived again. */
  datatype Model = Model(record: M.Record, completeness: Completeness, usableFor: seq<string>)

  datatype Level = Complete | Partial | Missing | NotApplicable

  datatype Completeness = Completeness(capabilities: Level, cost: Level, lifecycle: Level, limits: Level, modalities: Level, rendering: Level)

  /** A reviewed addition: the model under its key, for the provider it names. */
  datatype Addition = Addition(key: string, provider: string, model: Model)

  function WithProvider(m: Model, providerId: Json): Model {
    m.(record := m.record.(fields := m.record.fields[Named("provider_id") := providerId]))
  }

  predicate HasKey(models: seq<Keyed<Model>>, key: string) {
    exists k :: 0 <= k < |models| && models[k].key == key
  }

  /** `None` where an addition names a provider the catalog does not have. */
  function AddRecords(models: seq<Keyed<Model>>, providers: seq<Keyed<P.Provider>>, additions: seq<Addition>): Option<seq<Keyed<Model>>>
    decreases additions
  {
    if additions == [] then Some(models)
    else
      var a := additions[0];
      match LastWith(providers, a.provider)
      case None => None
      case Some(provider) =>
        if HasKey(models, a.key) then AddRecords(models, providers, additions[1..])
        else AddRecords(models + [Keyed(a.key, WithProvider(a.model, Get(provider.value.fields, Named("provider_id"))))], providers, additions[1..])
  }

  lemma {:induction false} AddedRecordsPresent(models: seq<Keyed<Model>>, providers: seq<Keyed<P.Provider>>, additions: seq<Addition>)
    requires AddRecords(models, providers, additions).Some?
    ensures forall k :: 0 <= k < |additions| ==> HasKey(AddRecords(models, providers, additions).value, additions[k].key)
    ensures forall k :: 0 <= k < |additions| ==> LastWith(providers, additions[k].provider).Some?
    ensures models <= AddRecords(models, providers, additions).value
    decreases additions
  {
    if additions != [] {
      var a := additions[0];
      var provider := LastWith(providers, a.provider).value;
      var added := Keyed(a.key, WithProvider(a.model, Get(provider.value.fields, Named("provider_id"))));
      var next := if HasKey(models, a.key) then models else models + [added];
      assert HasKey(next, a.key) by { if !HasKey(models, a.key) { assert next[|models|].key == a.key; } }
      AddedRecordsPresent(next, providers, additions[1..]);
      var all := AddRecords(models, providers, additions).value;
      PrefixHasKey(next, all, a.key);
      forall k | 0 <= k < |additions|
        ensures HasKey(all, additions[k].key) && LastWith(providers, additions[k].provider).Some?
      {
        if k > 0 { assert additions[1..][k - 1] == additions[k]; }
      }
    }
  }

  lemma PrefixHasKey(a: seq<Keyed<Model>>, b: seq<Keyed<Model>>, key: string)
    requires a <= b && HasKey(a, key)
    ensures HasKey(b, key)
  {
    var k :| 0 <= k < |a| && a[k].key == key;
    assert b[k] == a[k];
  }

  lemma {:induction false} PresentRecordsStay(models: seq<Keyed<Model>>, providers: seq<Keyed<P.Provider>>, additions: seq<Addition>)
    requires forall k :: 0 <= k < |additions| ==> HasKey(models, additions[k].key) && LastWith(providers, additions[k].provider).Some?
    ensures AddRecords(models, providers, additions) == Some(models)
    decreases additions
  {
    if additions != [] {
      PresentRecordsStay(models, providers, additions[1..]);
    }
  }

  // ---------- derived members ----------

  function Capability(fields: map<Path, Json>, f: ModelField): Json {
    Get(fields, Fact(f))
  }

  const Capabilities: seq<ModelField> := [Reasoning, Streaming, Tool, Vision]

  function Present(fields: map<Path, Json>): seq<Json> {
    (if Fact(Reasoning) in fields then [fields[Fact(Reasoning)]] else [])
    + (if Fact(Streaming) in fields then [fields[Fact(Streaming)]] else [])
    + (if Fact(Tool) in fields then [fields[Fact(Tool)]] else [])
    + (if Fact(Vision) in fields then [fields[Fact(Vision)]] else [])
  }

  function LimitState(fields: map<Path, Json>, f: ModelField): Json {
    Member(Get(fields, Fact(f)), "state")
  }

  predicate IsList(v: Json) {
    v.Arr? && v.items != []
  }

  predicate HasRendering(v: Json) {
    v.Obj? && exists k :: k in v.fields && IsList(v.fields[k])
  }

  /** `derive_model_completeness`; `identity` is always complete. */
  function DeriveCompleteness(fields: map<Path, Json>): Completeness {
    var known := Present(fields);
    var context, output := LimitState(fields, ContextTokens), LimitState(fields, MaxOutputTokens);
    var reasoning := Capability(fields, Reasoning);
    var settled := {Str("known"), Str("not-applicable")};
    Completeness(
      if forall v :: v in known ==> v == Str("unknown") then Missing
      else if Str("unknown") !in known && Str("conditional") !in known then Complete else Partial,
      if M.UsableCost(Get(fields, M.CostHints)) then Partial else Missing,
      if Get(fields, Fact(Lifecycle)) in {Null, Str("unknown")} then Missing else Complete,
      if context == Str("unknown") && output == Str("unknown") then Missing
      else if context in settled && output in settled then Complete else Partial,
      if Truthy(Get(fields, Fact(InputModalities))) then Complete else Missing,
      if HasRendering(Get(fields, Fact(RenderingHints))) then Complete
      else if Get(fields, M.RenderingState) == Str("not-applicable") then NotApplicable
      else if reasoning in {Str("supported"), Str("conditional")} then Partial
      else Missing)
  }

  predicate Prefills(v: Json) {
    v in {Str("supported"), Str("unsupported"), Str("conditional")}
  }

  /** The scenarios of `derive_model_scenarios` before they are sorted. */
  function ScenarioList(fields: map<Path, Json>, c: Completeness): seq<string> {
    ["custom-api-model-prefill", "model-directory"]
    + (if LimitState(fields, ContextTokens) == Str("known") then ["context-limit-prefill"] else [])
    + (if LimitState(fields, MaxOutputTokens) == Str("known") then ["output-limit-prefill"] else [])
    + (if c.limits.Complete? then ["request-limit-prefill"] else [])
    + (if Prefills(Capability(fields, Reasoning)) then ["reasoning-capability-prefill"] else [])
    + (if Prefills(Capability(fields, Vision)) then ["vision-capability-prefill"] else [])
    + (if c.rendering.Complete? then ["reasoning-rendering-hint"] else [])
    + (if !c.lifecycle.Missing? then ["lifecycle-warning"] else [])
    + (if !c.cost.Missing? then ["cost-hint-display"] else [])
  }

  function DeriveScenarios(fields: map<Path, Json>, c: Completeness): seq<string> {
    SortUnique(ScenarioList(fields, c), x => x)
  }

  /** Determinate facts raise the levels derived from them. */
  lemma DeterminateFactsRaiseLevels(fields: map<Path, Json>)
    ensures var c := DeriveCompleteness(fields);
            && (!M.Indeterminate(Lifecycle, Get(fields, Fact(Lifecycle))) ==> c.lifecycle.Complete?)
            && (!M.Indeterminate(InputModalities, Get(fields, Fact(InputModalities))) ==> c.modalities.Complete?)
            && (!M.Indeterminate(ContextTokens, Get(fields, Fact(ContextTokens))) ==> !c.limits.Missing?)
            && (!M.Indeterminate(MaxOutputTokens, Get(fields, Fact(MaxOutputTokens))) ==> !c.limits.Missing?)
  {
  }

  /** What a successful pass that inferred nothing about a fact leaves the derived levels at. */
  lemma ObservedFactsRaiseLevels(engine: Engine, table: Table, r: M.Record, once: M.Record)
    requires M.Closes(engine, table, r) && once == M.Closed(engine, table, r)
    ensures var c := DeriveCompleteness(once.fields);
            && (Fact(Lifecycle) !in once.provenance ==> c.lifecycle.Complete?)
            && (Fact(InputModalities) !in once.provenance ==> c.modalities.Complete?)
            && (Fact(ContextTokens) !in once.provenance || Fact(MaxOutputTokens) !in once.provenance ==> !c.limits.Missing?)
  {
    DeterminateFactsRaiseLevels(once.fields);
    ObservedIsDeterminate(engine, table, r, Lifecycle);
    ObservedIsDeterminate(engine, table, r, InputModalities);
    ObservedIsDeterminate(engine, table, r, ContextTokens);
    ObservedIsDeterminate(engine, table, r, MaxOutputTokens);
  }

  lemma ObservedIsDeterminate(engine: Engine, table: Table, r: M.Record, f: ModelField)
    requires M.Closes(engine, table, r) && f != RenderingHints
    ensures var once := M.Closed(engine, table, r);
            Fact(f) !in once.provenance ==> !M.Indeterminate(f, Get(once.fields, Fact(f)))
  {
    FM.LeftOpenAt(engine, table, r, f);
  }

  /** When all four capabilities were observed, their level is complete unless one is conditional. */
  lemma CapabilitiesAreSettled(engine: Engine, table: Table, r: M.Record)
    requires M.Closes(engine, table, r)
    requires forall f :: f in Capabilities ==> Fact(f) !in M.Closed(engine, table, r).provenance
    ensures var fields := M.Closed(engine, table, r).fields;
            var level := DeriveCompleteness(fields).capabilities;
            !level.Missing? && (level.Complete? <==> forall f :: f in Capabilities ==> Capability(fields, f) != Str("conditional"))
  {
    var fields := M.Closed(engine, table, r).fields;
    assert Reasoning in Capabilities && Streaming in Capabilities && Tool in Capabilities && Vision in Capabilities;
    ObservedIsDeterminate(engine, table, r, Reasoning);
    ObservedIsDeterminate(engine, table, r, Streaming);
    ObservedIsDeterminate(engine, table, r, Tool);
    ObservedIsDeterminate(engine, table, r, Vision);
    SettledCapabilities(fields);
  }

  lemma SettledCapabilities(fields: map<Path, Json>)
    requires !M.Indeterminate(Reasoning, Capability(fields, Reasoning)) && !M.Indeterminate(Streaming, Capability(fields, Streaming))
    requires !M.Indeterminate(Tool, Capability(fields, Tool)) && !M.Indeterminate(Vision, Capability(fields, Vision))
    ensures var level := DeriveCompleteness(fields).capabilities;
            !level.Missing? && (level.Complete? <==> forall f :: f in Capabilities ==> Capability(fields, f) != Str("conditional"))
  {
    var known := Present(fields);
    assert known == [fields[Fact(Reasoning)], fields[Fact(Streaming)], fields[Fact(Tool)], fields[Fact(Vision)]];
    assert known[0] != Str("unknown") && known[0] in known;
    forall v | v in known
      ensures v != Str("unknown")
    {
    }
    assert Reasoning in Capabilities && Streaming in Capabilities && Tool in Capabilities && Vision in Capabilities;
    assert known[1] in known && known[2] in known && known[3] in known;
  }

  // ---------- the records ----------

  function CloseModel(engine: Engine, table: Table, m: Model): Model {
    var record := M.Closed(engine, table, m.record);
    var completeness := DeriveCompleteness(record.fields);
    Model(record, completeness, DeriveScenarios(record.fields, completeness))
  }

  function MapValues<T>(s: seq<Keyed<T>>, f: T -> T): (mapped: seq<Keyed<T>>)
    ensures |mapped| == |s|
    ensures forall k :: 0 <= k < |s| ==> mapped[k] == Keyed(s[k].key, f(s[k].value))
  {
    seq(|s|, k requires 0 <= k < |s| => Keyed(s[k].key, f(s[k].value)))
  }

  function CloseEach(engine: Engine, table: Table): Model -> Model {
    m => CloseModel(engine, table, m)
  }

  function CloseModels(engine: Engine, table: Table, models: seq<Keyed<Model>>): seq<Keyed<Model>> {
    MapValues(models, CloseEach(engine, table))
  }

  /** The order in which a record's recorded domains are visited: that of its JSON text. */
  type Order = P.Provider -> seq<Domain>

  ghost predicate Visits(order: Order, r: P.Provider) {
    P.IsOrderOf(order(r), r.provenance.Keys)
  }

  ghost function CloseInOrder(engine: Engine, table: Table, order: Order): P.Provider -> P.Provider {
    r => P.Closed(engine, table, r, order(r))
  }

  ghost function CloseProviders(engine: Engine, table: Table, order: Order, providers: seq<Keyed<P.Provider>>): seq<Keyed<P.Provider>> {
    MapValues(providers, CloseInOrder(engine, table, order))
  }

  ghost predicate ModelsClose(engine: Engine, table: Table, models: seq<Keyed<Model>>) {
    forall k :: 0 <= k < |models| ==> M.Closes(engine, table, models[k].value.record)
  }

  predicate ProvidersClose(providers: seq<Keyed<P.Provider>>) {
    forall k :: 0 <= k < |providers| ==> P.Closes(providers[k].value)
  }

  ghost predicate AllClose(engine: Engine, table: Table, models: seq<Keyed<Model>>, providers: seq<Keyed<P.Provider>>) {
    ModelsClose(engine, table, models) && ProvidersClose(providers)
  }

  // ---------- vocabularies ----------

  function AddEncodings(rules: seq<Json>, additions: seq<Json>): seq<Json>
    decreases additions
  {
    if additions == [] then rules
    else AddEncodings(if additions[0] in rules then rules else rules + [additions[0]], additions[1..])
  }

  lemma {:induction false} AddedEncodingsPresent(rules: seq<Json>, additions: seq<Json>)
    ensures forall x :: x in rules || x in additions ==> x in AddEncodings(rules, additions)
    decreases additions
  {
    if additions != [] {
      var next := if additions[0] in rules then rules else rules + [additions[0]];
      AddedEncodingsPresent(next, additions[1..]);
      assert additions == [additions[0]] + additions[1..];
    }
  }

  lemma {:induction false} PresentEncodingsStay(rules: seq<Json>, additions: seq<Json>)
    requires forall x :: x in additions ==> x in rules
    ensures AddEncodings(rules, additions) == rules
    decreases additions
  {
    if additions != [] {
      assert forall x :: x in additions[1..] ==> x in additions;
      PresentEncodingsStay(rules, additions[1..]);
    }
  }

  predicate SortedUnique(values: seq<string>) {
    values != [] && forall k :: 0 < k < |values| ==> Before(values[k - 1], values[k])
  }

  // ---------- the catalog ----------

  datatype Catalog = Catalog(
    sources: seq<Keyed<Json>>,
    models: seq<Keyed<Model>>,
    providers: seq<Keyed<P.Provider>>,
    inferenceRules: seq<Json>,
    vocabularies: map<string, seq<string>>,
    completenessStates: Option<seq<string>>,
    encodingRules: seq<Json>)

  /** The reviewed rules document; `published` is its sorted rule list as the catalog repeats it. */
  datatype Document = Document(
    table: Table,
    sources: seq<Keyed<Json>>,
    records: seq<Addition>,
    published: seq<Json>,
    vocabularies: map<string, seq<string>>,
    encodings: seq<Json>)

  const StatesKey := "metadata_completeness_state"

  function States(doc: Document, before: Option<seq<string>>): Option<seq<string>> {
    if StatesKey in doc.vocabularies && doc.vocabularies[StatesKey] != [] then Some(doc.vocabularies[StatesKey]) else before
  }

  /** `None` where any error is reported. */
  ghost function Close(engine: Engine, doc: Document, order: Order, c: Catalog): Option<Catalog> {
    var sources, models := AddSources(c.sources, doc.sources), AddRecords(c.models, c.providers, doc.records);
    if sources.None? || models.None? || !AllClose(engine, doc.table, models.value, c.providers)
       || !(forall v :: v in doc.vocabularies ==> SortedUnique(doc.vocabularies[v])) then None
    else Some(Catalog(
      Sort(sources.value),
      Sort(CloseModels(engine, doc.table, models.value)),
      Sort(CloseProviders(engine, doc.table, order, c.providers)),
      doc.published,
      c.vocabularies + doc.vocabularies,
      States(doc, c.completenessStates),
      AddEncodings(c.encodingRules, doc.encodings)))
  }

  // ---------- a second run ----------

  /** What a pass over a provider record discards, it closes again as it was. */
  ghost predicate AllRestored(engine: Engine, table: Table, again: Order, providers: seq<Keyed<P.Provider>>) {
    forall k :: 0 <= k < |providers| ==> R.Restores(engine, table, providers[k].value, again(providers[k].value))
  }

  /** No rule that concerns one of the providers has a model pattern that rejects the empty id. */
  ghost predicate AllAccept(engine: Engine, table: Table, providers: seq<Keyed<P.Provider>>) {
    forall k :: 0 <= k < |providers| ==> K.AcceptsEmptyId(engine, table, P.ProviderId(providers[k].value))
  }

  /** The provider rules are in harmony, provider by provider. */
  ghost predicate AllHarmonious(engine: Engine, table: Table, order: Order, providers: seq<Keyed<P.Provider>>, foreign: bool) {
    forall k :: 0 <= k < |providers| ==>
      var r := providers[k].value;
      && T.Harmonious(engine, table, P.ProviderId(r), foreign) && T.Admissible(table, P.ProviderId(r), foreign, r)
      && K.AcceptsEmptyId(engine, table, P.ProviderId(r)) && Visits(order, r)
  }

  /** Every recorded domain of every provider still is what its rule assigns. */
  ghost predicate ProvidersKept(engine: Engine, table: Table, providers: seq<Keyed<P.Provider>>) {
    forall k :: 0 <= k < |providers| ==> K.AllKept(engine, table, providers[k].value)
  }

  ghost predicate AllSettle(engine: Engine, table: Table, models: seq<Keyed<Model>>) {
    forall k :: 0 <= k < |models| ==> I.HintsSettle(engine, table, models[k].value.record)
  }

  ghost predicate Stays(engine: Engine, table: Table, m: Model) {
    M.Closes(engine, table, m.record) && CloseModel(engine, table, m) == m
  }

  lemma ModelStaysIff(engine: Engine, table: Table, m: Model)
    requires ValidTable(table) && M.Closes(engine, table, m.record)
    ensures Stays(engine, table, CloseModel(engine, table, m)) <==> I.HintsSettle(engine, table, m.record)
  {
    I.FixpointIff(engine, table, m.record);
  }

  lemma SortMember<T>(s: seq<Keyed<T>>, e: Keyed<T>)
    ensures e in Sort(s) <==> e in s
  {
    SortFacts(s);
    assert e in Sort(s) <==> e in multiset(Sort(s));
    assert e in s <==> e in multiset(s);
  }

  ghost predicate Every<T>(s: seq<Keyed<T>>, p: T -> bool) {
    forall k :: 0 <= k < |s| ==> p(s[k].value)
  }

  /** What holds of every mapped value holds of the sorted list, and the other way round. */
  lemma EverySorted<T>(s: seq<Keyed<T>>, f: T -> T, p: T -> bool, q: T -> bool)
    requires forall k :: 0 <= k < |s| ==> (p(f(s[k].value)) <==> q(s[k].value))
    ensures Every(Sort(MapValues(s, f)), p) <==> Every(s, q)
  {
    var mapped := MapValues(s, f);
    var sorted := Sort(mapped);
    if Every(s, q) {
      forall j | 0 <= j < |sorted|
        ensures p(sorted[j].value)
      {
        SortMember(mapped, sorted[j]);
        var k :| 0 <= k < |mapped| && mapped[k] == sorted[j];
      }
    }
    if Every(sorted, p) {
      forall k | 0 <= k < |s|
        ensures q(s[k].value)
      {
        SortMember(mapped, mapped[k]);
        var j :| 0 <= j < |sorted| && sorted[j] == mapped[k];
      }
    }
  }

  /** A sorted list stays sorted under `f`, and stays the same exactly when every value does. */
  lemma SortedMapStays<T>(s: seq<Keyed<T>>, f: T -> T, same: T -> bool)
    requires IsSorted(s) && forall x :: same(x) <==> f(x) == x
    ensures Sort(MapValues(s, f)) == MapValues(s, f)
    ensures MapValues(s, f) == s <==> Every(s, same)
  {
    SortedIsFixed(MapValues(s, f));
    if MapValues(s, f) == s {
      forall k | 0 <= k < |s|
        ensures same(s[k].value)
      {
        assert MapValues(s, f)[k] == s[k];
      }
    }
  }

  lemma ModelsStayIff(engine: Engine, table: Table, models: seq<Keyed<Model>>, f: Model -> Model, stays: Model -> bool, settles: Model -> bool)
    requires ValidTable(table) && ModelsClose(engine, table, models)
    requires forall m :: f(m) == CloseModel(engine, table, m)
    requires forall m :: stays(m) <==> Stays(engine, table, m)
    requires forall m :: settles(m) <==> I.HintsSettle(engine, table, m.record)
    ensures Every(Sort(MapValues(models, f)), stays) <==> Every(models, settles)
  {
    forall k | 0 <= k < |models|
      ensures stays(f(models[k].value)) <==> settles(models[k].value)
    {
      ModelStaysIff(engine, table, models[k].value);
    }
    EverySorted(models, f, stays, settles);
  }

  /** A sorted list is kept by a run exactly when every element closes to itself. */
  lemma StaysMeansKept<T>(s: seq<Keyed<T>>, f: T -> T, closes: T -> bool, stays: T -> bool)
    requires IsSorted(s) && forall x :: stays(x) <==> closes(x) && f(x) == x
    ensures Every(s, stays) <==> Every(s, closes) && Sort(MapValues(s, f)) == s
  {
    SortedMapStays(s, f, x => f(x) == x);
  }

  /** A closed, sorted provider is some closed provider. */
  lemma ClosedProvider(engine: Engine, table: Table, order: Order, providers: seq<Keyed<P.Provider>>, e: Keyed<P.Provider>) returns (k: nat)
    requires e in Sort(CloseProviders(engine, table, order, providers))
    ensures k < |providers| && e.value == P.Closed(engine, table, providers[k].value, order(providers[k].value))
  {
    var closed := CloseProviders(engine, table, order, providers);
    SortMember(closed, e);
    var i :| 0 <= i < |closed| && closed[i] == e;
    k := i;
  }

  lemma ClosedProvidersClose(engine: Engine, table: Table, order: Order, providers: seq<Keyed<P.Provider>>)
    requires F.ProviderTable(table) && ProvidersClose(providers)
    ensures ProvidersClose(Sort(CloseProviders(engine, table, order, providers)))
  {
    var once := Sort(CloseProviders(engine, table, order, providers));
    forall j | 0 <= j < |once|
      ensures P.Closes(once[j].value)
    {
      var k := ClosedProvider(engine, table, order, providers, once[j]);
      K.ClosedCloses(engine, table, providers[k].value, order(providers[k].value));
    }
  }

  lemma ProvidersSame(engine: Engine, table: Table, again: Order, once: seq<Keyed<P.Provider>>)
    requires IsSorted(once)
    ensures Sort(CloseProviders(engine, table, again, once)) == once <==>
              forall k :: 0 <= k < |once| ==> P.Closed(engine, table, once[k].value, again(once[k].value)) == once[k].value
  {
    var f := CloseInOrder(engine, table, again);
    SortedMapStays(once, f, r => f(r) == r);
  }

  /** The providers of a second run: it succeeds on them, and keeps them exactly when each pass restores
      what it discards. */
  lemma ProvidersStay(engine: Engine, table: Table, order: Order, again: Order, providers: seq<Keyed<P.Provider>>)
    requires F.ProviderTable(table) && ProvidersClose(providers)
    ensures var once := Sort(CloseProviders(engine, table, order, providers));
            ProvidersClose(once) && (Sort(CloseProviders(engine, table, again, once)) == once <==> AllRestored(engine, table, again, once))
  {
    var once := Sort(CloseProviders(engine, table, order, providers));
    SortFacts(CloseProviders(engine, table, order, providers));
    ProvidersSame(engine, table, again, once);
    ClosedProvidersClose(engine, table, order, providers);
    forall j | 0 <= j < |once|
      ensures P.Closed(engine, table, once[j].value, again(once[j].value)) == once[j].value
              <==> R.Restores(engine, table, once[j].value, again(once[j].value))
    {
      var k := ClosedProvider(engine, table, order, providers, once[j]);
      R.FixpointInOrderIff(engine, table, providers[k].value, order(providers[k].value), again(once[j].value));
    }
  }

  ghost function KeptFirst(engine: Engine, table: Table): (again: Order)
    ensures forall r :: Visits(again, r)
  {
    (r: P.Provider) => K.KeptFirst(engine, table, r)
  }

  /** Kept providers stay the same in every order, and an unkept one is changed by one of them. */
  lemma KeptProvidersStay(engine: Engine, table: Table, order: Order, again: Order, providers: seq<Keyed<P.Provider>>)
    requires F.ProviderTable(table) && AllAccept(engine, table, providers) && forall r :: Visits(again, r)
    ensures var once := Sort(CloseProviders(engine, table, order, providers));
            && (ProvidersKept(engine, table, once) ==> Sort(CloseProviders(engine, table, again, once)) == once)
            && (Sort(CloseProviders(engine, table, KeptFirst(engine, table), once)) == once ==> ProvidersKept(engine, table, once))
  {
    var once := Sort(CloseProviders(engine, table, order, providers));
    var first := KeptFirst(engine, table);
    SortFacts(CloseProviders(engine, table, order, providers));
    ProvidersSame(engine, table, again, once);
    ProvidersSame(engine, table, first, once);
    forall j | 0 <= j < |once|
      ensures K.AllKept(engine, table, once[j].value) ==> P.Closed(engine, table, once[j].value, again(once[j].value)) == once[j].value
      ensures P.Closed(engine, table, once[j].value, first(once[j].value)) == once[j].value ==> K.AllKept(engine, table, once[j].value)
    {
      var k := ClosedProvider(engine, table, order, providers, once[j]);
      assert Visits(again, once[j].value);
      K.FixpointIff(engine, table, providers[k].value, order(providers[k].value));
      K.ClosedKeepsId(engine, table, providers[k].value, order(providers[k].value));
      if !K.AllKept(engine, table, once[j].value) { UnkeptChanges(engine, table, once[j].value); }
    }
  }

  lemma UnkeptChanges(engine: Engine, table: Table, r: P.Provider)
    requires F.ProviderTable(table) && K.AcceptsEmptyId(engine, table, P.ProviderId(r))
    requires !K.AllKept(engine, table, r)
    ensures P.Closed(engine, table, r, KeptFirst(engine, table)(r)) != r
  {
    var d :| d in r.provenance && !P.Keeps(engine, table, r, d, r.provenance[d]);
    K.UnkeptIsUnsettled(engine, table, r, d);
  }

  lemma {:induction false} MapKeepsKeys<T>(s: seq<Keyed<T>>, f: T -> T, key: string)
    ensures LastWith(MapValues(s, f), key).Some? <==> LastWith(s, key).Some?
  {
    if s != [] {
      MapKeepsKeys(s[..|s| - 1], f, key);
      assert MapValues(s, f)[..|s| - 1] == MapValues(s[..|s| - 1], f);
    }
  }

  lemma ProviderKeysStay(engine: Engine, table: Table, order: Order, providers: seq<Keyed<P.Provider>>, key: string)
    ensures LastWith(Sort(CloseProviders(engine, table, order, providers)), key).Some? <==> LastWith(providers, key).Some?
  {
    SortKeepsLast(CloseProviders(engine, table, order, providers), key);
    MapKeepsKeys(providers, CloseInOrder(engine, table, order), key);
  }

  lemma ModelKeysStay(engine: Engine, table: Table, models: seq<Keyed<Model>>, key: string)
    requires HasKey(models, key)
    ensures HasKey(Sort(CloseModels(engine, table, models)), key)
  {
    var closed := CloseModels(engine, table, models);
    var k :| 0 <= k < |models| && models[k].key == key;
    SortMember(closed, closed[k]);
    var j :| 0 <= j < |Sort(closed)| && Sort(closed)[j] == closed[k];
  }

  /** A second run adds nothing and closes the sorted records of the first. */
  lemma SecondRunAdds(engine: Engine, doc: Document, order: Order, c: Catalog)
    requires Close(engine, doc, order, c).Some?
    ensures var once := Close(engine, doc, order, c).value;
            && AddSources(once.sources, doc.sources) == Some(once.sources) && IsSorted(once.sources)
            && AddRecords(once.models, once.providers, doc.records) == Some(once.models)
            && AddEncodings(once.encodingRules, doc.encodings) == once.encodingRules
            && once.vocabularies + doc.vocabularies == once.vocabularies
            && States(doc, once.completenessStates) == once.completenessStates
  {
    SourcesStay(c.sources, doc.sources);
    RecordsStay(engine, doc, order, c);
    EncodingsStay(c.encodingRules, doc.encodings);
    VocabulariesStay(c.vocabularies, doc.vocabularies);
  }

  lemma EncodingsStay(rules: seq<Json>, additions: seq<Json>)
    ensures AddEncodings(AddEncodings(rules, additions), additions) == AddEncodings(rules, additions)
  {
    AddedEncodingsPresent(rules, additions);
    PresentEncodingsStay(AddEncodings(rules, additions), additions);
  }

  lemma VocabulariesStay(before: map<string, seq<string>>, additions: map<string, seq<string>>)
    ensures before + additions + additions == before + additions
  {
  }

  lemma SourcesStay(sources: seq<Keyed<Json>>, additions: seq<Keyed<Json>>)
    requires AddSources(sources, additions).Some?
    ensures var once := Sort(AddSources(sources, additions).value); AddSources(once, additions) == Some(once) && IsSorted(once)
  {
    var all := AddSources(sources, additions).value;
    AddedSourcesHeld(sources, additions);
    SortFacts(all);
    forall k | 0 <= k < |additions|
      ensures LastWith(Sort(all), additions[k].key) == Some(additions[k])
    {
      SortKeepsLast(all, additions[k].key);
    }
    HeldSourcesStay(Sort(all), additions);
  }

  lemma RecordsStay(engine: Engine, doc: Document, order: Order, c: Catalog)
    requires AddRecords(c.models, c.providers, doc.records).Some?
    ensures var models := Sort(CloseModels(engine, doc.table, AddRecords(c.models, c.providers, doc.records).value));
            AddRecords(models, Sort(CloseProviders(engine, doc.table, order, c.providers)), doc.records) == Some(models)
  {
    var added := AddRecords(c.models, c.providers, doc.records).value;
    AddedRecordsPresent(c.models, c.providers, doc.records);
    forall k | 0 <= k < |doc.records|
      ensures HasKey(Sort(CloseModels(engine, doc.table, added)), doc.records[k].key)
      ensures LastWith(Sort(CloseProviders(engine, doc.table, order, c.providers)), doc.records[k].provider).Some?
    {
      ModelKeysStay(engine, doc.table, added, doc.records[k].key);
      ProviderKeysStay(engine, doc.table, order, c.providers, doc.records[k].provider);
    }
    PresentRecordsStay(Sort(CloseModels(engine, doc.table, added)), Sort(CloseProviders(engine, doc.table, order, c.providers)), doc.records);
  }

  ghost function ClosesEach(engine: Engine, table: Table): Model -> bool {
    (m: Model) => M.Closes(engine, table, m.record)
  }

  ghost function StaysEach(engine: Engine, table: Table): Model -> bool {
    (m: Model) => Stays(engine, table, m)
  }

  ghost function SettlesEach(engine: Engine, table: Table): Model -> bool {
    (m: Model) => I.HintsSettle(engine, table, m.record)
  }

  /** The models of a second run: it succeeds on them and keeps them exactly when each one settles. */
  lemma SecondRunModels(engine: Engine, table: Table, models: seq<Keyed<Model>>, once: seq<Keyed<Model>>)
    requires ValidTable(table) && ModelsClose(engine, table, models)
    requires once == Sort(CloseModels(engine, table, models))
    ensures Every(once, ClosesEach(engine, table)) && Sort(CloseModels(engine, table, once)) == once <==> Every(models, SettlesEach(engine, table))
  {
    ModelsStayIff(engine, table, models, CloseEach(engine, table), StaysEach(engine, table), SettlesEach(engine, table));
    SortFacts(CloseModels(engine, table, models));
    StaysMeansKept(once, CloseEach(engine, table), ClosesEach(engine, table), StaysEach(engine, table));
  }

  lemma EveryModel(engine: Engine, table: Table, models: seq<Keyed<Model>>)
    ensures Every(models, ClosesEach(engine, table)) <==> ModelsClose(engine, table, models)
    ensures Every(models, SettlesEach(engine, table)) <==> AllSettle(engine, table, models)
  {
  }

  lemma ModelsKept(engine: Engine, table: Table, models: seq<Keyed<Model>>)
    requires ValidTable(table) && ModelsClose(engine, table, models)
    ensures var once := Sort(CloseModels(engine, table, models));
            ModelsClose(engine, table, once) && Sort(CloseModels(engine, table, once)) == once <==> AllSettle(engine, table, models)
  {
    var once := Sort(CloseModels(engine, table, models));
    SecondRunModels(engine, table, models, once);
    EveryModel(engine, table, models);
    EveryModel(engine, table, once);
  }

  lemma CloseAgain(engine: Engine, doc: Document, again: Order, once: Catalog)
    requires AddSources(once.sources, doc.sources) == Some(once.sources) && IsSorted(once.sources)
    requires AddRecords(once.models, once.providers, doc.records) == Some(once.models)
    requires once.inferenceRules == doc.published && AddEncodings(once.encodingRules, doc.encodings) == once.encodingRules
    requires once.vocabularies + doc.vocabularies == once.vocabularies && States(doc, once.completenessStates) == once.completenessStates
    requires ProvidersClose(once.providers) && forall v :: v in doc.vocabularies ==> SortedUnique(doc.vocabularies[v])
    ensures Close(engine, doc, again, once) == Some(once) <==>
              && ModelsClose(engine, doc.table, once.models) && Sort(CloseModels(engine, doc.table, once.models)) == once.models
              && Sort(CloseProviders(engine, doc.table, again, once.providers)) == once.providers
  {
    SortedIsFixed(once.sources);
  }

  /** A second run reduces to the models and the providers of the first. */
  lemma SecondRun(engine: Engine, doc: Document, order: Order, again: Order, c: Catalog)
    requires F.ProviderTable(doc.table) && Close(engine, doc, order, c).Some?
    ensures var once := Close(engine, doc, order, c).value;
            Close(engine, doc, again, once) == Some(once) <==>
              && AllSettle(engine, doc.table, AddRecords(c.models, c.providers, doc.records).value)
              && Sort(CloseProviders(engine, doc.table, again, once.providers)) == once.providers
  {
    SecondRunAdds(engine, doc, order, c);
    ClosedProvidersClose(engine, doc.table, order, c.providers);
    ModelsKept(engine, doc.table, AddRecords(c.models, c.providers, doc.records).value);
    CloseAgain(engine, doc, again, Close(engine, doc, order, c).value);
  }

  /** Closing the result of a successful run, with each provider's domains visited in any given order, succeeds
      and changes nothing exactly when the rendering hints of every model record settle and every provider
      pass restores what it discards. */
  lemma CatalogFixpointIff(engine: Engine, doc: Document, order: Order, again: Order, c: Catalog)
    requires F.ProviderTable(doc.table) && Close(engine, doc, order, c).Some?
    ensures var once := Close(engine, doc, order, c).value;
            Close(engine, doc, again, once) == Some(once) <==>
              && AllSettle(engine, doc.table, AddRecords(c.models, c.providers, doc.records).value)
              && AllRestored(engine, doc.table, again, once.providers)
  {
    SecondRun(engine, doc, order, again, c);
    ProvidersStay(engine, doc.table, order, again, c.providers);
  }

  /** It does so in every order exactly when, besides the hints, every recorded provider domain still is what
      its rule assigns. */
  lemma CatalogAlwaysFixpointIff(engine: Engine, doc: Document, order: Order, c: Catalog)
    requires F.ProviderTable(doc.table) && AllAccept(engine, doc.table, c.providers) && Close(engine, doc, order, c).Some?
    ensures var once := Close(engine, doc, order, c).value;
            (forall again: Order | forall r :: Visits(again, r) :: Close(engine, doc, again, once) == Some(once)) <==>
              && AllSettle(engine, doc.table, AddRecords(c.models, c.providers, doc.records).value)
              && ProvidersKept(engine, doc.table, once.providers)
  {
    var once := Close(engine, doc, order, c).value;
    forall again: Order | forall r :: Visits(again, r)
      ensures AllSettle(engine, doc.table, AddRecords(c.models, c.providers, doc.records).value) && ProvidersKept(engine, doc.table, once.providers)
              ==> Close(engine, doc, again, once) == Some(once)
    {
      SecondRun(engine, doc, order, again, c);
      KeptProvidersStay(engine, doc.table, order, again, c.providers);
    }
    var first := KeptFirst(engine, doc.table);
    SecondRun(engine, doc, order, first, c);
    KeptProvidersStay(engine, doc.table, order, first, c.providers);
  }

  lemma HarmoniousProvidersKept(engine: Engine, table: Table, order: Order, providers: seq<Keyed<P.Provider>>, foreign: bool)
    requires F.ProviderTable(table) && AllHarmonious(engine, table, order, providers, foreign)
    ensures ProvidersKept(engine, table, Sort(CloseProviders(engine, table, order, providers)))
  {
    var once := Sort(CloseProviders(engine, table, order, providers));
    forall j | 0 <= j < |once|
      ensures K.AllKept(engine, table, once[j].value)
    {
      var k := ClosedProvider(engine, table, order, providers, once[j]);
      var r := providers[k].value;
      T.HarmoniousIsKept(engine, table, P.ProviderId(r), foreign, r, order(r));
    }
  }

  /** With provider rules in harmony the rendering hints alone decide whether a catalog is a fixed point. */
  lemma HarmoniousFixpointIff(engine: Engine, doc: Document, order: Order, again: Order, c: Catalog, foreign: bool)
    requires F.ProviderTable(doc.table) && AllHarmonious(engine, doc.table, order, c.providers, foreign)
    requires Close(engine, doc, order, c).Some? && forall r :: Visits(again, r)
    ensures var once := Close(engine, doc, order, c).value;
            Close(engine, doc, again, once) == Some(once) <==> AllSettle(engine, doc.table, AddRecords(c.models, c.providers, doc.records).value)
  {
    SecondRun(engine, doc, order, again, c);
    HarmoniousProvidersKept(engine, doc.table, order, c.providers, foreign);
    KeptProvidersStay(engine, doc.table, order, again, c.providers);
  }
}
