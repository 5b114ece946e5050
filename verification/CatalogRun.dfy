/** The loops of `close`, record by record, over one catalog updated in place. */
module CatalogRun {
  import opened Wrappers
  import opened Json
  import opened ModelFields
  import opened MetadataCatalog
  import M = ModelClosure
  import ModelPass
  import P = ProviderClosure

  method MergeSources(sources: seq<Keyed<Json>>, additions: seq<Keyed<Json>>) returns (merged: Option<seq<Keyed<Json>>>)
    ensures merged == AddSources(sources, additions)
  {
    var all := sources;
    for i := 0 to |additions|
      invariant AddSources(all, additions[i..]) == AddSources(sources, additions)
    {
      assert additions[i..][1..] == additions[i + 1..];
      match LastWith(all, additions[i].key) {
        case Some(existing) => if existing != additions[i] { return None; }
        case None => all := all + [additions[i]];
      }
    }
    merged := Some(all);
  }

  method MergeRecords(models: seq<Keyed<Model>>, providers: seq<Keyed<P.Provider>>, additions: seq<Addition>) returns (merged: Option<seq<Keyed<Model>>>)
    ensures merged == AddRecords(models, providers, additions)
  {
    var all := models;
    for i := 0 to |additions|
      invariant AddRecords(all, providers, additions[i..]) == AddRecords(models, providers, additions)
    {
      assert additions[i..][1..] == additions[i + 1..];
      var a := additions[i];
      match LastWith(providers, a.provider) {
        case None => return None;
        case Some(provider) =>
          if !HasKey(all, a.key) {
            all := all + [Keyed(a.key, WithProvider(a.model, Get(provider.value.fields, Named("provider_id"))))];
          }
      }
    }
    merged := Some(all);
  }

  method MergeEncodings(rules: seq<Json>, additions: seq<Json>) returns (merged: seq<Json>)
    ensures merged == AddEncodings(rules, additions)
  {
    merged := rules;
    for i := 0 to |additions|
      invariant AddEncodings(merged, additions[i..]) == AddEncodings(rules, additions)
    {
      assert additions[i..][1..] == additions[i + 1..];
      if additions[i] !in merged {
        merged := merged + [additions[i]];
      }
    }
  }

  method CloseOneModel(engine: Engine, table: Table, m: Model) returns (ok: bool, closed: Model)
    ensures ok <==> M.Closes(engine, table, m.record)
    ensures ok ==> closed == CloseModel(engine, table, m)
  {
    var record := new ModelPass.ModelRecord(m.record);
    var problems := record.Close(engine, table);
    M.NoProblemMeans(engine, table, m.record);
    ok := problems == {};
    assert !ok ==> exists q :: q in problems;
    var completeness := DeriveCompleteness(record.fields);
    closed := Model(M.Record(record.fields, record.provenance), completeness, DeriveScenarios(record.fields, completeness));
  }

  /** `f` of every value of a list, unless one of them fails `p`. */
  ghost function SoFar<T>(s: seq<Keyed<T>>, p: T -> bool, f: T -> T): Option<seq<Keyed<T>>> {
    if s == [] then Some([])
    else
      var before, last := SoFar(s[..|s| - 1], p, f), s[|s| - 1];
      if before.None? || !p(last.value) then None else Some(before.value + [Keyed(last.key, f(last.value))])
  }

  lemma {:induction false} SoFarIs<T>(s: seq<Keyed<T>>, p: T -> bool, f: T -> T)
    ensures SoFar(s, p, f).Some? <==> forall k :: 0 <= k < |s| ==> p(s[k].value)
    ensures SoFar(s, p, f).Some? ==> |SoFar(s, p, f).value| == |s| && forall k :: 0 <= k < |s| ==> SoFar(s, p, f).value[k] == Keyed(s[k].key, f(s[k].value))
  {
    if s != [] {
      SoFarIs(s[..|s| - 1], p, f);
    }
  }

  lemma SoFarNext<T>(s: seq<Keyed<T>>, n: nat, p: T -> bool, f: T -> T)
    requires n < |s|
    ensures SoFar(s[..n + 1], p, f) ==
      if SoFar(s[..n], p, f).None? || !p(s[n].value) then None else Some(SoFar(s[..n], p, f).value + [Keyed(s[n].key, f(s[n].value))])
  {
    assert s[..n + 1][..n] == s[..n];
  }

  method CloseAllModels(engine: Engine, table: Table, models: seq<Keyed<Model>>) returns (ok: bool, closed: seq<Keyed<Model>>)
    ensures ok <==> ModelsClose(engine, table, models)
    ensures ok ==> closed == CloseModels(engine, table, models)
  {
    ghost var p: Model -> bool, f: Model -> Model;
    ok, closed, p, f := ModelLoop(engine, table, models);
    SoFarIs(models, p, f);
  }

  method ModelLoop(engine: Engine, table: Table, models: seq<Keyed<Model>>)
    returns (ok: bool, closed: seq<Keyed<Model>>, ghost p: Model -> bool, ghost f: Model -> Model)
    ensures forall m :: p(m) == M.Closes(engine, table, m.record)
    ensures forall m :: f(m) == CloseModel(engine, table, m)
    ensures ok <==> SoFar(models, p, f).Some?
    ensures ok ==> Some(closed) == SoFar(models, p, f)
  {
    p, f := (m: Model) => M.Closes(engine, table, m.record), (m: Model) => CloseModel(engine, table, m);
    ok, closed := true, [];
    for n := 0 to |models|
      invariant ok <==> SoFar(models[..n], p, f).Some?
      invariant ok ==> Some(closed) == SoFar(models[..n], p, f)
    {
      SoFarNext(models, n, p, f);
      var one, value := CloseOneModel(engine, table, models[n].value);
      ok, closed := ok && one, closed + [Keyed(models[n].key, value)];
    }
    assert models[..|models|] == models;
  }

  method CloseOneProvider(engine: Engine, table: Table, order: Order, r: P.Provider) returns (ok: bool, closed: P.Provider)
    requires Visits(order, r)
    ensures ok <==> P.Closes(r)
    ensures ok ==> closed == P.Closed(engine, table, r, order(r))
  {
    var record := new P.ProviderRecord(r);
    ok := record.Close(engine, table, order(r));
    closed := P.Provider(record.fields, record.completeness, record.provenance, record.usableFor);
  }

  method CloseAllProviders(engine: Engine, table: Table, order: Order, providers: seq<Keyed<P.Provider>>) returns (ok: bool, closed: seq<Keyed<P.Provider>>)
    requires forall k :: 0 <= k < |providers| ==> Visits(order, providers[k].value)
    ensures ok <==> ProvidersClose(providers)
    ensures ok ==> closed == CloseProviders(engine, table, order, providers)
  {
    ghost var p := (r: P.Provider) => P.Closes(r);
    ghost var f := (r: P.Provider) => P.Closed(engine, table, r, order(r));
    ok, closed := true, [];
    for n := 0 to |providers|
      invariant ok <==> SoFar(providers[..n], p, f).Some?
      invariant ok ==> Some(closed) == SoFar(providers[..n], p, f)
    {
      SoFarNext(providers, n, p, f);
      var one, value := CloseOneProvider(engine, table, order, providers[n].value);
      ok, closed := ok && one, closed + [Keyed(providers[n].key, value)];
    }
    assert providers[..|providers|] == providers;
    SoFarIs(providers, p, f);
  }

  class Working {
    var catalog: Catalog

    constructor (c: Catalog)
      ensures catalog == c
    {
      catalog := c;
    }

    /** `close` on the working copy; on failure the copy is dropped by the caller. */
    method Run(engine: Engine, doc: Document, order: Order) returns (ok: bool)
      requires forall k :: 0 <= k < |catalog.providers| ==> Visits(order, catalog.providers[k].value)
      modifies this
      ensures ok <==> Close(engine, doc, order, old(catalog)).Some?
      ensures ok ==> catalog == Close(engine, doc, order, old(catalog)).value
    {
      var sources := MergeSources(catalog.sources, doc.sources);
      var added := MergeRecords(catalog.models, catalog.providers, doc.records);
      var encodings := MergeEncodings(catalog.encodingRules, doc.encodings);
      if sources.None? || added.None? {
        return false;
      }
      var modelsOk, models := CloseAllModels(engine, doc.table, added.value);
      var providersOk, providers := CloseAllProviders(engine, doc.table, order, catalog.providers);
      ok := modelsOk && providersOk && forall v :: v in doc.vocabularies ==> SortedUnique(doc.vocabularies[v]);
      if ok {
        catalog := Catalog(
          Sort(sources.value), Sort(models), Sort(providers), doc.published,
          catalog.vocabularies + doc.vocabularies, States(doc, catalog.completenessStates), encodings);
      }
    }
  }
}
