/** `dag_catalog` and `dag_list`: which compiled executables and test cases a DAG run accepts. */
module DagCatalog {
  import opened Wrappers

  datatype Key = Key(package: string, name: string, kinds: seq<string>)

  /** One JSON line of Cargo's compile log. `inside`: the executable is a file directly in `target/debug/deps`. */
  datatype Event =
    | Malformed
    | BuildFinished(success: bool)
    | TestArtifact(key: Key, executable: string, inside: bool, source: string)
    | OtherEvent

  datatype Declared = Declared(key: Key, tested: bool, source: string)

  datatype Row = Row(key: Key, executable: string)

  // ---------- what is declared ----------

  predicate TestsOnce(declared: seq<Declared>) {
    forall i, j :: 0 <= i < j < |declared| && declared[i].tested && declared[j].tested ==> declared[i].key != declared[j].key
  }

  ghost predicate IsExpected(declared: seq<Declared>, expected: map<Key, string>) {
    && (forall i :: 0 <= i < |declared| && declared[i].tested ==> declared[i].key in expected && expected[declared[i].key] == declared[i].source)
    && (forall key :: key in expected ==> exists i :: 0 <= i < |declared| && declared[i].tested && declared[i].key == key)
  }

  method DeclaredTargets(declared: seq<Declared>) returns (expected: Option<map<Key, string>>)
    ensures expected.Some? <==> TestsOnce(declared) && exists i :: 0 <= i < |declared| && declared[i].tested
    ensures expected.Some? ==> IsExpected(declared, expected.value)
  {
    var m: map<Key, string> := map[];
    for n := 0 to |declared|
      invariant TestsOnce(declared[..n]) && IsExpected(declared[..n], m)
    {
      var d := declared[n];
      if d.tested {
        if d.key in m {
          var i :| 0 <= i < n && declared[..n][i].tested && declared[..n][i].key == d.key;
          assert declared[i].key == declared[n].key;
          return None;
        }
        m := m[d.key := d.source];
        assert declared[..n + 1][n] == d;
      }
      assert declared[..n + 1] == declared[..n] + [d];
    }
    assert declared[..|declared|] == declared;
    expected := if m == map[] then None else Some(m);
    if m != map[] {
      var key :| key in m;
    }
  }

  // ---------- what is compiled ----------

  function Builds(events: seq<Event>): nat {
    if events == [] then 0 else Builds(events[..|events| - 1]) + if events[|events| - 1].BuildFinished? then 1 else 0
  }

  /** No event by itself, or together with an earlier one for the same target, is refused. */
  ghost predicate Acceptable(expected: map<Key, string>, events: seq<Event>) {
    && (forall i :: 0 <= i < |events| ==>
          && !events[i].Malformed? && (events[i].BuildFinished? ==> events[i].success)
          && (events[i].TestArtifact? ==> events[i].key in expected && events[i].inside && events[i].source == expected[events[i].key]))
    && (forall i, j :: 0 <= i < j < |events| && events[i].TestArtifact? && events[j].TestArtifact? && events[i].key == events[j].key ==>
          events[i].executable == events[j].executable)
  }

  ghost predicate Compiled(events: seq<Event>, key: Key) {
    exists i :: 0 <= i < |events| && events[i].TestArtifact? && events[i].key == key
  }

  predicate IsSmoke(key: Key) {
    key.name == "smoke_cli"
  }

  function Smokes(keys: set<Key>): set<Key> {
    set key | key in keys && IsSmoke(key)
  }

  /** Every declared test target was compiled to one executable, and nothing else was. */
  ghost predicate CompleteBuild(expected: map<Key, string>, events: seq<Event>) {
    && Acceptable(expected, events) && Builds(events) == 1
    && (forall key :: key in expected ==> Compiled(events, key))
    && |Smokes(expected.Keys)| == 1
  }

  /** One row for each compiled target, naming its one executable. */
  ghost predicate RowsOf(events: seq<Event>, rows: seq<Row>) {
    && (forall i, j :: 0 <= i < j < |rows| ==> rows[i].key != rows[j].key)
    && (forall key :: Compiled(events, key) <==> exists k :: 0 <= k < |rows| && rows[k].key == key)
    && (forall i, k :: 0 <= i < |events| && events[i].TestArtifact? && 0 <= k < |rows| && rows[k].key == events[i].key ==>
          rows[k].executable == events[i].executable)
  }

  /** The checks on one event after the `earlier` ones. */
  ghost predicate Fits(expected: map<Key, string>, earlier: seq<Event>, e: Event) {
    && !e.Malformed? && (e.BuildFinished? ==> e.success)
    && (e.TestArtifact? ==>
          && e.key in expected && e.inside && e.source == expected[e.key]
          && forall i :: 0 <= i < |earlier| && earlier[i].TestArtifact? && earlier[i].key == e.key ==> earlier[i].executable == e.executable)
  }

  lemma AcceptableNext(expected: map<Key, string>, earlier: seq<Event>, e: Event)
    ensures Acceptable(expected, earlier + [e]) <==> Acceptable(expected, earlier) && Fits(expected, earlier, e)
  {
    var all := earlier + [e];
    assert forall i :: 0 <= i < |earlier| ==> all[i] == earlier[i];
    assert all[|earlier|] == e;
    if Acceptable(expected, all) {
      assert Fits(expected, earlier, e);
    }
  }

  lemma AcceptablePrefix(expected: map<Key, string>, events: seq<Event>, n: nat)
    requires n <= |events| && Acceptable(expected, events)
    ensures Acceptable(expected, events[..n])
  {
  }

  lemma CompiledNext(earlier: seq<Event>, e: Event, key: Key)
    ensures Compiled(earlier + [e], key) <==> Compiled(earlier, key) || (e.TestArtifact? && e.key == key)
  {
    var all := earlier + [e];
    assert forall i :: 0 <= i < |earlier| ==> all[i] == earlier[i];
    assert all[|earlier|] == e;
  }

  ghost predicate FoundIn(events: seq<Event>, found: map<Key, string>) {
    && (forall key :: key in found <==> Compiled(events, key))
    && (forall i :: 0 <= i < |events| && events[i].TestArtifact? ==> events[i].key in found && found[events[i].key] == events[i].executable)
  }

  ghost predicate Listed(rows: seq<Row>, found: map<Key, string>) {
    && (forall i, j :: 0 <= i < j < |rows| ==> rows[i].key != rows[j].key)
    && (forall k :: 0 <= k < |rows| ==> rows[k].key in found && rows[k].executable == found[rows[k].key])
    && (forall key :: key in found ==> exists k :: 0 <= k < |rows| && rows[k].key == key)
  }

  lemma ListedMeansRows(events: seq<Event>, rows: seq<Row>, found: map<Key, string>)
    requires FoundIn(events, found) && Listed(rows, found)
    ensures RowsOf(events, rows)
  {
  }

  lemma FoundNext(expected: map<Key, string>, earlier: seq<Event>, e: Event, found: map<Key, string>)
    requires FoundIn(earlier, found) && Fits(expected, earlier, e)
    ensures FoundIn(earlier + [e], if e.TestArtifact? then found[e.key := e.executable] else found)
  {
    var all := earlier + [e];
    var next := if e.TestArtifact? then found[e.key := e.executable] else found;
    forall key
      ensures key in next <==> Compiled(all, key)
    {
      CompiledNext(earlier, e, key);
    }
    forall i | 0 <= i < |all| && all[i].TestArtifact?
      ensures all[i].key in next && next[all[i].key] == all[i].executable
    {
      if i < |earlier| { assert all[i] == earlier[i]; }
    }
  }

  lemma ListedNext(rows: seq<Row>, found: map<Key, string>, key: Key, executable: string)
    requires Listed(rows, found) && key !in found
    ensures Listed(rows + [Row(key, executable)], found[key := executable])
  {
    var more, next := rows + [Row(key, executable)], found[key := executable];
    assert more[|rows|].key == key;
    forall k | k in next
      ensures exists i :: 0 <= i < |more| && more[i].key == k
    {
      if k != key {
        var i :| 0 <= i < |rows| && rows[i].key == k;
        assert more[i].key == k;
      }
    }
  }

  /** The loop over the compile log. */
  method Collect(expected: map<Key, string>, events: seq<Event>) returns (ok: bool, builds: nat, found: map<Key, string>, rows: seq<Row>)
    ensures ok <==> Acceptable(expected, events)
    ensures ok ==> builds == Builds(events) && FoundIn(events, found) && Listed(rows, found)
  {
    ok, builds, found, rows := true, 0, map[], [];
    for n := 0 to |events|
      invariant ok && Acceptable(expected, events[..n]) && builds == Builds(events[..n])
      invariant FoundIn(events[..n], found) && Listed(rows, found)
    {
      var e := events[n];
      assert events[..n + 1] == events[..n] + [e] && events[..n + 1][..n] == events[..n];
      AcceptableNext(expected, events[..n], e);
      ok := Check(expected, found, e, events[..n]);
      if !ok {
        if Acceptable(expected, events) { AcceptablePrefix(expected, events, n + 1); }
        return;
      }
      FoundNext(expected, events[..n], e, found);
      if e.BuildFinished? {
        builds := builds + 1;
      } else if e.TestArtifact? && e.key !in found {
        ListedNext(rows, found, e.key, e.executable);
        rows := rows + [Row(e.key, e.executable)];
        found := found[e.key := e.executable];
      } else if e.TestArtifact? {
        assert found[e.key := e.executable] == found;
      }
    }
    assert events[..|events|] == events;
  }

  method Check(expected: map<Key, string>, found: map<Key, string>, e: Event, ghost earlier: seq<Event>) returns (ok: bool)
    requires FoundIn(earlier, found)
    ensures ok <==> Fits(expected, earlier, e)
  {
    match e
    case Malformed => ok := false;
    case BuildFinished(success) => ok := success;
    case OtherEvent => ok := true;
    case TestArtifact(key, executable, inside, source) =>
      ok := key in expected && inside && source == expected[key] && (key in found ==> found[key] == executable);
  }

  method Catalog(expected: map<Key, string>, events: seq<Event>) returns (targets: Option<seq<Row>>)
    ensures targets.Some? <==> CompleteBuild(expected, events)
    ensures targets.Some? ==> RowsOf(events, targets.value)
    ensures targets.Some? ==> forall key :: key in expected <==> exists k :: 0 <= k < |targets.value| && targets.value[k].key == key
  {
    var ok, builds, found, rows := Collect(expected, events);
    if !ok || builds != 1 || found.Keys != expected.Keys {
      if ok && builds == 1 { KeysDiffer(expected, events, found); }
      return None;
    }
    if |Smokes(found.Keys)| != 1 {
      return None;
    }
    ListedMeansRows(events, rows, found);
    targets := Some(rows);
  }

  lemma KeysDiffer(expected: map<Key, string>, events: seq<Event>, found: map<Key, string>)
    requires Acceptable(expected, events) && FoundIn(events, found) && found.Keys != expected.Keys
    ensures exists key :: key in expected && !Compiled(events, key)
  {
    forall key | key in found
      ensures key in expected
    {
      assert Compiled(events, key);
    }
  }

  // ---------- what an executable lists ----------

  /** `names` and `counts` are the matches in `--list` output: test names, and (tests, benchmarks) pairs. */
  function Listing(exit: int, names: seq<string>, counts: seq<(nat, nat)>): (cases: Option<seq<string>>)
    ensures cases.Some? <==>
      exit == 0 && counts == [(|names|, 0)] && forall i, j :: 0 <= i < j < |names| ==> names[i] != names[j]
    ensures cases.Some? ==> cases.value == names
  {
    if exit != 0 || |counts| != 1 || counts[0].0 != |names| || counts[0].1 != 0 then None
    else if exists i, j :: 0 <= i < j < |names| && names[i] == names[j] then None
    else Some(names)
  }
}
