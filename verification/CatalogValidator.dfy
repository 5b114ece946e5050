/** What `close` returns, seen by the separate validator. */
module CatalogValidator {
  import opened Wrappers
  import opened Json
  import opened ModelFields
  import opened MetadataCatalog
  import M = ModelClosure
  import I = ModelIdempotence
  import V = ModelValidator
  import P = ProviderClosure
  import F = ProviderIdempotence
  import K = ProviderKept
  import T = ProviderTables
  import W = ProviderValidator

  ghost predicate ModelsTraceable(engine: Engine, table: Table, models: seq<Keyed<Model>>) {
    forall k :: 0 <= k < |models| ==> V.Traceable(engine, table, models[k].value.record)
  }

  ghost predicate ProvidersTraceable(engine: Engine, table: Table, providers: seq<Keyed<P.Provider>>) {
    forall k :: 0 <= k < |providers| ==> W.Traceable(engine, table, providers[k].value)
  }

  /** Every recorded inference of a catalog is traceable to a matching rule. */
  ghost predicate Traceable(engine: Engine, table: Table, c: Catalog) {
    ModelsTraceable(engine, table, c.models) && ProvidersTraceable(engine, table, c.providers)
  }

  /** The entries a model record keeps are exact, and its hints were not inferred through an irregular state. */
  ghost predicate ModelExact(engine: Engine, table: Table, m: Model) {
    V.KeptEntriesExact(engine, table, m.record) && V.HintsTraceable(engine, table, m.record)
  }

  /** The entries a provider record keeps are exact, and closing leaves every recorded domain as its rule assigns it. */
  ghost predicate ProviderExact(engine: Engine, table: Table, order: Order, r: P.Provider) {
    W.KeptEntriesExact(engine, table, r, order(r)) && K.AllKept(engine, table, P.Closed(engine, table, r, order(r)))
  }

  ghost predicate ModelsExact(engine: Engine, table: Table, models: seq<Keyed<Model>>) {
    forall k :: 0 <= k < |models| ==> ModelExact(engine, table, models[k].value)
  }

  ghost predicate ProvidersExact(engine: Engine, table: Table, order: Order, providers: seq<Keyed<P.Provider>>) {
    forall k :: 0 <= k < |providers| ==> ProviderExact(engine, table, order, providers[k].value)
  }

  lemma ModelsTraceableIff(engine: Engine, table: Table, models: seq<Keyed<Model>>)
    requires ValidTable(table) && ModelsClose(engine, table, models)
    ensures ModelsTraceable(engine, table, Sort(CloseModels(engine, table, models))) <==> ModelsExact(engine, table, models)
  {
    var p, q := (m: Model) => V.Traceable(engine, table, m.record), (m: Model) => ModelExact(engine, table, m);
    forall k | 0 <= k < |models|
      ensures p(CloseEach(engine, table)(models[k].value)) <==> q(models[k].value)
    {
      V.ClosedIsTraceableIff(engine, table, models[k].value.record);
    }
    EverySorted(models, CloseEach(engine, table), p, q);
  }

  lemma ProvidersTraceableIff(engine: Engine, table: Table, order: Order, providers: seq<Keyed<P.Provider>>)
    requires F.ProviderTable(table) && ProvidersClose(providers)
    ensures ProvidersTraceable(engine, table, Sort(CloseProviders(engine, table, order, providers))) <==> ProvidersExact(engine, table, order, providers)
  {
    var p, q := (r: P.Provider) => W.Traceable(engine, table, r), (r: P.Provider) => ProviderExact(engine, table, order, r);
    forall k | 0 <= k < |providers|
      ensures p(CloseInOrder(engine, table, order)(providers[k].value)) <==> q(providers[k].value)
    {
      W.ClosedIsTraceableIff(engine, table, providers[k].value, order(providers[k].value));
    }
    EverySorted(providers, CloseInOrder(engine, table, order), p, q);
  }

  /** A catalog that `close` returns passes the validator's provenance check exactly when every record closes exactly. */
  lemma ClosedCatalogIsTraceableIff(engine: Engine, doc: Document, order: Order, c: Catalog)
    requires F.ProviderTable(doc.table) && Close(engine, doc, order, c).Some?
    ensures Traceable(engine, doc.table, Close(engine, doc, order, c).value) <==>
              && ModelsExact(engine, doc.table, AddRecords(c.models, c.providers, doc.records).value)
              && ProvidersExact(engine, doc.table, order, c.providers)
  {
    assert AllClose(engine, doc.table, AddRecords(c.models, c.providers, doc.records).value, c.providers);
    ModelsTraceableIff(engine, doc.table, AddRecords(c.models, c.providers, doc.records).value);
    ProvidersTraceableIff(engine, doc.table, order, c.providers);
  }

  /** Entries carry no keys but the two the closure writes. */
  ghost predicate TwoKeyed(engine: Engine, table: Table, models: seq<Keyed<Model>>, providers: seq<Keyed<P.Provider>>) {
    && (forall k :: 0 <= k < |models| ==> V.KeptEntriesExact(engine, table, models[k].value.record))
    && (forall k, d :: 0 <= k < |providers| && d in providers[k].value.provenance ==> W.TwoKeys(providers[k].value.provenance[d]))
  }

  /** In particular every catalog does whose table has rendering rules of the repository's form and provider
      rules in harmony, and whose entries have two keys. */
  lemma HarmoniousCatalogIsTraceable(engine: Engine, doc: Document, order: Order, c: Catalog, foreign: bool)
    requires F.ProviderTable(doc.table) && I.TidyHints(doc.table) && AllHarmonious(engine, doc.table, order, c.providers, foreign)
    requires Close(engine, doc, order, c).Some? && TwoKeyed(engine, doc.table, AddRecords(c.models, c.providers, doc.records).value, c.providers)
    ensures Traceable(engine, doc.table, Close(engine, doc, order, c).value)
  {
    var added := AddRecords(c.models, c.providers, doc.records).value;
    forall k | 0 <= k < |added|
      ensures ModelExact(engine, doc.table, added[k].value)
    {
      V.TidyIsTraceable(engine, doc.table, added[k].value.record);
      V.ClosedIsTraceableIff(engine, doc.table, added[k].value.record);
    }
    forall k | 0 <= k < |c.providers|
      ensures ProviderExact(engine, doc.table, order, c.providers[k].value)
    {
      var r := c.providers[k].value;
      K.DropStaleShrinks(engine, doc.table, r, order(r));
      T.HarmoniousIsKept(engine, doc.table, P.ProviderId(r), foreign, r, order(r));
    }
    ClosedCatalogIsTraceableIff(engine, doc, order, c);
  }
}
