/** From workspace metadata to the verdict: what a complete DAG run says about every declared test target. */
module DagComplete {
  import opened Wrappers
  import C = DagCatalog
  import V = DagVerdict
  import S = DagScheduler

  /** `PRODUCT_TARGETS`. */
  const ProductTargets: set<string> := {
    "publication_process", "control_shell", "pre_gateway_compute_routing", "p0_gateway_protocol", "p0_gateway_request_authority",
    "p0_gateway_runtime", "p0_gateway_privacy", "p0_gateway_context_hold", "p0_gateway_commit_boundary", "p0_gateway_replay",
    "p0_gateway_observation", "smoke_cli"}

  /** What an executable prints for `--list`: its exit code, the test names and the count lines. */
  datatype Output = Output(exit: int, names: seq<string>, counts: seq<(nat, nat)>)

  /** One target for each row of the catalog, with the cases that the row's executable lists. */
  ghost predicate Catalogued(rows: seq<C.Row>, lists: string -> Output, targets: seq<V.Target>) {
    && |targets| == |rows|
    && forall k :: 0 <= k < |rows| ==>
         var out := lists(rows[k].executable);
         C.Listing(out.exit, out.names, out.counts) == Some(targets[k].cases) && targets[k].product == (rows[k].key.name in ProductTargets)
  }

  /** Target `k` of the run is the declared target `d`: compiled from its source to the executable that ran,
      with exactly the distinct cases it lists, each of them started and counted, none failed. */
  ghost predicate Ran(d: C.Declared, events: seq<C.Event>, row: C.Row, lists: string -> Output, t: V.Target, e: V.Execution) {
    && row.key == d.key
    && (exists i :: 0 <= i < |events| && events[i] == C.TestArtifact(d.key, row.executable, true, d.source))
    && t.cases == lists(row.executable).names && |V.Set(t.cases)| == |t.cases|
    && V.Executed(t, e) && V.WithoutFailure(e)
  }

  lemma {:induction false} DistinctNames(names: seq<string>)
    requires forall i, j :: 0 <= i < j < |names| ==> names[i] != names[j]
    ensures |V.Set(names)| == |names|
  {
    if names != [] {
      var rest, last := names[..|names| - 1], names[|names| - 1];
      DistinctNames(rest);
      assert names == rest + [last];
      assert V.Set(names) == V.Set(rest) + {last};
    }
  }

  lemma DeclaredHasRow(declared: seq<C.Declared>, expected: map<C.Key, string>, events: seq<C.Event>, rows: seq<C.Row>, i: nat) returns (k: nat)
    requires C.IsExpected(declared, expected) && C.CompleteBuild(expected, events) && C.RowsOf(events, rows)
    requires i < |declared| && declared[i].tested
    ensures k < |rows| && rows[k].key == declared[i].key
    ensures exists j :: 0 <= j < |events| && events[j] == C.TestArtifact(declared[i].key, rows[k].executable, true, declared[i].source)
    ensures forall other :: 0 <= other < |rows| && rows[other].key == declared[i].key ==> other == k
  {
    var key := declared[i].key;
    assert C.Compiled(events, key);
    var j :| 0 <= j < |events| && events[j].TestArtifact? && events[j].key == key;
    k :| 0 <= k < |rows| && rows[k].key == key;
    assert events[j] == C.TestArtifact(key, rows[k].executable, true, declared[i].source);
  }

  /** Whatever the interleaving of the lanes, a complete verdict over the catalog of a complete build means
      that every declared test target ran, as exactly one target of the run. */
  lemma DeclaredTargetsRan(declared: seq<C.Declared>, expected: map<C.Key, string>, events: seq<C.Event>, rows: seq<C.Row>, lists: string -> Output,
      w: S.World, targets: seq<V.Target>, executions: seq<V.Execution>, independent: seq<nat>, dependent: seq<nat>,
      results: seq<V.Result>, doc: V.Lane, i: nat) returns (k: nat)
    requires C.IsExpected(declared, expected) && C.CompleteBuild(expected, events) && C.RowsOf(events, rows)
    requires Catalogued(rows, lists, targets)
    requires V.RanIn(w, targets, executions, independent, dependent, results) && V.AllComplete(targets, results, doc)
    requires i < |declared| && declared[i].tested
    ensures k < |targets| && Ran(declared[i], events, rows[k], lists, targets[k], executions[k])
    ensures forall other :: 0 <= other < |rows| && rows[other].key == declared[i].key ==> other == k
  {
    k := DeclaredHasRow(declared, expected, events, rows, i);
    V.CompleteRunIsSound(w, targets, executions, independent, dependent, results, doc, k);
    DistinctNames(targets[k].cases);
  }

  /** And nothing else ran: every target of the run is a declared one. */
  lemma OnlyDeclaredTargetsRan(declared: seq<C.Declared>, expected: map<C.Key, string>, events: seq<C.Event>, rows: seq<C.Row>, k: nat) returns (i: nat)
    requires C.IsExpected(declared, expected) && C.CompleteBuild(expected, events) && C.RowsOf(events, rows) && k < |rows|
    ensures i < |declared| && declared[i].tested && declared[i].key == rows[k].key
  {
    var key := rows[k].key;
    assert C.Compiled(events, key);
    var j :| 0 <= j < |events| && events[j].TestArtifact? && events[j].key == key;
    assert key in expected;
    i :| 0 <= i < |declared| && declared[i].tested && declared[i].key == key;
  }
}
