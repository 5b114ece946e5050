/** The verdict of `execute_dag`: what a complete outcome says about every declared target. */
module DagVerdict {
  import opened Wrappers
  import L = ParseLog
  import S = DagScheduler

  /** A catalogued target with the cases it lists. */
  datatype Target = Target(title: string, cases: seq<string>, product: bool)

  /** What one execution leaves behind: its log, the case names it started, its exit code, and whether the
      executables and artifacts were the recorded ones and no compiler was started. */
  datatype Execution = Execution(log: seq<L.Line>, observed: set<string>, exit: int, untampered: bool)

  datatype Result = Result(complete: bool, exit: int, counts: L.Counts)

  datatype Lane = Lane(modules: seq<L.Row>, counts: L.Counts, complete: bool)

  const NoCounts := L.Counts(0, 0, 0)

  function Rows(modules: seq<L.Module>): (rows: seq<L.Row>)
    ensures |rows| == |modules|
    ensures forall k :: 0 <= k < |rows| ==> rows[k] == L.RowOf(modules, k)
  {
    seq(|modules|, k requires 0 <= k < |modules| => L.RowOf(modules, k))
  }

  function CountsOf(row: L.Row): L.Counts {
    if row.m.last.Some? then row.m.last.value.counts else NoCounts
  }

  function Plus(a: L.Counts, b: L.Counts): L.Counts {
    L.Counts(a.passed + b.passed, a.failed + b.failed, a.ignored + b.ignored)
  }

  function SumRows(rows: seq<L.Row>): L.Counts {
    if rows == [] then NoCounts else Plus(CountsOf(rows[0]), SumRows(rows[1..]))
  }

  /** `lane_summary` of a parsed log. */
  function LaneSummary(parsed: L.Log): Lane {
    var rows := Rows(parsed.modules);
    Lane(rows, SumRows(rows),
         rows != [] && parsed.unassigned == []
         && forall k :: 0 <= k < |rows| ==> rows[k].complete && rows[k].m.last.Some? && rows[k].m.last.value.result == "ok")
  }

  function Set(s: seq<string>): set<string> {
    set x | x in s
  }

  function Judge(t: Target, e: Execution, parsed: L.Log): Result {
    var lane := LaneSummary(parsed);
    if e.untampered && |lane.modules| == 1 && lane.modules[0].m.target.title == t.title
       && lane.counts.Total() == |t.cases| && e.observed == Set(t.cases)
    then Result(lane.complete && e.exit == 0, e.exit, lane.counts)
    else Result(false, 1, NoCounts)
  }

  /** `run_one`; anything it raises becomes an incomplete result. */
  function RunOne(t: Target, e: Execution): Result {
    Judge(t, e, L.Parsed(e.log, 0))
  }

  /** What a complete result proves about its target: exit zero, exactly the listed cases started, and one
      unambiguous target in the log whose last summary is `ok` and counts every listed case. */
  ghost predicate ExecutedPer(t: Target, e: Execution, parsed: L.Log) {
    && e.exit == 0 && e.untampered
    && e.observed == Set(t.cases)
    && |parsed.modules| == 1 && parsed.unassigned == []
    && parsed.modules[0].target.title == t.title
    && parsed.modules[0].complete && parsed.modules[0].last.Some?
    && parsed.modules[0].last.value.result == "ok"
    && parsed.modules[0].last.value.counts.Total() == |t.cases|
  }

  ghost predicate Executed(t: Target, e: Execution) {
    ExecutedPer(t, e, L.Parsed(e.log, 0))
  }

  lemma OneRow(modules: seq<L.Module>)
    requires |modules| == 1
    ensures L.RowOf(modules, 0).m == modules[0] && L.RowOf(modules, 0).complete == modules[0].complete
  {
  }

  lemma SumOne(rows: seq<L.Row>)
    requires |rows| == 1
    ensures SumRows(rows) == CountsOf(rows[0])
  {
    var c := CountsOf(rows[0]);
    assert SumRows(rows[1..]) == NoCounts;
    assert Plus(c, NoCounts) == c by { PlusNothing(c); }
  }

  lemma PlusNothing(c: L.Counts)
    ensures Plus(c, NoCounts) == c
  {
    match c case Counts(_, _, _) =>
  }

  predicate PassedLast(m: L.Module) {
    m.last.Some? && m.last.value.result == "ok"
  }

  /** A log of one target, as `lane_summary` reports it. */
  lemma OneTargetLane(parsed: L.Log)
    ensures var lane := LaneSummary(parsed);
            |lane.modules| == |parsed.modules|
            && (|parsed.modules| == 1 ==>
                  && lane.modules[0].m == parsed.modules[0]
                  && lane.counts == (if parsed.modules[0].last.Some? then parsed.modules[0].last.value.counts else NoCounts)
                  && lane.complete == (parsed.unassigned == [] && parsed.modules[0].complete && PassedLast(parsed.modules[0])))
  {
    var rows := Rows(parsed.modules);
    if |rows| == 1 {
      OneRow(parsed.modules);
      SumOne(rows);
    }
  }

  lemma JudgedComplete(t: Target, e: Execution, parsed: L.Log)
    ensures Judge(t, e, parsed).complete <==> ExecutedPer(t, e, parsed)
    ensures Judge(t, e, parsed).complete ==> Judge(t, e, parsed).counts == parsed.modules[0].last.value.counts
  {
    OneTargetLane(parsed);
  }

  lemma CompleteMeansExecuted(t: Target, e: Execution)
    ensures RunOne(t, e).complete <==> Executed(t, e)
    ensures RunOne(t, e).complete ==> RunOne(t, e).counts.Total() == |t.cases|
    ensures RunOne(t, e).complete ==> RunOne(t, e).counts == L.Parsed(e.log, 0).modules[0].last.value.counts
  {
    JudgedComplete(t, e, L.Parsed(e.log, 0));
  }

  // ---------- totals ----------

  function SumResults(results: seq<Result>): L.Counts {
    if results == [] then NoCounts else Plus(results[0].counts, SumResults(results[1..]))
  }

  function SumCases(targets: seq<Target>): nat {
    if targets == [] then 0 else |targets[|targets| - 1].cases| + SumCases(targets[..|targets| - 1])
  }

  /** The final condition, with the doctest lane `doc`. */
  predicate AllComplete(targets: seq<Target>, results: seq<Result>, doc: Lane) {
    && |results| == |targets|
    && (forall k :: 0 <= k < |results| ==> results[k].complete)
    && doc.complete && Plus(SumResults(results), doc.counts).failed == 0
    && SumResults(results).Total() == SumCases(targets)
  }

  /** Result `k` is the execution of target `chosen[k]`, and no target is executed twice. */
  ghost predicate ResultsOf(targets: seq<Target>, executions: seq<Execution>, chosen: seq<nat>, results: seq<Result>) {
    && |executions| == |targets| && |chosen| == |results|
    && (forall k :: 0 <= k < |chosen| ==> chosen[k] < |targets| && results[k] == RunOne(targets[chosen[k]], executions[chosen[k]]))
    && (forall j, k :: 0 <= j < k < |chosen| ==> chosen[j] != chosen[k])
  }

  // ---------- every target exactly once ----------

  ghost predicate Injective(chosen: seq<nat>) {
    forall j, k :: 0 <= j < k < |chosen| ==> chosen[j] != chosen[k]
  }

  ghost predicate Below(chosen: seq<nat>, n: nat) {
    forall k :: 0 <= k < |chosen| ==> chosen[k] < n
  }

  function UpTo(n: nat): (s: set<nat>)
    ensures |s| == n && forall i: nat :: i in s <==> i < n
  {
    if n == 0 then {} else UpTo(n - 1) + {n - 1}
  }

  function Image(chosen: seq<nat>): set<nat> {
    if chosen == [] then {} else Image(chosen[1..]) + {chosen[0]}
  }

  lemma {:induction false} InImage(chosen: seq<nat>, i: nat)
    ensures i in Image(chosen) <==> i in chosen
  {
    if chosen != [] {
      InImage(chosen[1..], i);
      assert chosen == [chosen[0]] + chosen[1..];
    }
  }

  lemma {:induction false} ImageSize(chosen: seq<nat>)
    requires Injective(chosen)
    ensures |Image(chosen)| == |chosen|
  {
    if chosen != [] {
      ImageSize(chosen[1..]);
      InImage(chosen[1..], chosen[0]);
    }
  }

  /** As many distinct choices as there are targets leave none out. */
  lemma AllChosen(chosen: seq<nat>, i: nat)
    requires Injective(chosen) && Below(chosen, |chosen|) && i < |chosen|
    ensures exists k :: 0 <= k < |chosen| && chosen[k] == i
  {
    forall j
      ensures j in Image(chosen) <==> j in chosen
    {
      InImage(chosen, j);
    }
    ImageSize(chosen);
    SubsetOfSameSize(Image(chosen), UpTo(|chosen|));
    assert i in Image(chosen);
  }

  function Without(chosen: seq<nat>, k: nat): seq<nat>
    requires k < |chosen|
  {
    chosen[..k] + chosen[k + 1..]
  }

  function SumChosen(targets: seq<Target>, chosen: seq<nat>): nat
    requires forall k :: 0 <= k < |chosen| ==> chosen[k] < |targets|
  {
    if chosen == [] then 0 else |targets[chosen[0]].cases| + SumChosen(targets, chosen[1..])
  }

  lemma {:induction false} SumWithout(targets: seq<Target>, chosen: seq<nat>, k: nat)
    requires Below(chosen, |targets|) && k < |chosen|
    ensures Below(Without(chosen, k), |targets|)
    ensures SumChosen(targets, chosen) == |targets[chosen[k]].cases| + SumChosen(targets, Without(chosen, k))
  {
    if k == 0 {
      assert Without(chosen, 0) == chosen[1..];
    } else {
      SumWithout(targets, chosen[1..], k - 1);
      assert Without(chosen, k)[1..] == Without(chosen[1..], k - 1);
      assert Without(chosen, k)[0] == chosen[0];
    }
  }

  lemma {:induction false} SumShrinks(targets: seq<Target>, chosen: seq<nat>, n: nat)
    requires n <= |targets| && Below(chosen, n)
    ensures SumChosen(targets[..n], chosen) == SumChosen(targets, chosen)
  {
    if chosen != [] {
      SumShrinks(targets, chosen[1..], n);
    }
  }

  /** Executing every target once, in any order, executes all listed cases. */
  lemma {:induction false} SumOfAll(targets: seq<Target>, chosen: seq<nat>)
    requires |chosen| == |targets| && Injective(chosen) && Below(chosen, |targets|)
    ensures SumChosen(targets, chosen) == SumCases(targets)
    decreases |targets|
  {
    if targets != [] {
      var n := |targets| - 1;
      AllChosen(chosen, n);
      var k: nat :| k < |chosen| && chosen[k] == n;
      var rest := Without(chosen, k);
      SumWithout(targets, chosen, k);
      forall j | 0 <= j < |rest|
        ensures rest[j] < n
      {
        assert rest[j] == chosen[if j < k then j else j + 1];
      }
      assert Injective(rest);
      SumShrinks(targets, rest, n);
      SumOfAll(targets[..n], rest);
    }
  }

  lemma {:induction false} CompleteTotals(targets: seq<Target>, executions: seq<Execution>, chosen: seq<nat>, results: seq<Result>)
    requires ResultsOf(targets, executions, chosen, results)
    requires forall k :: 0 <= k < |results| ==> results[k].complete
    ensures SumResults(results).Total() == SumChosen(targets, chosen)
    decreases results
  {
    if results != [] {
      CompleteMeansExecuted(targets[chosen[0]], executions[chosen[0]]);
      CompleteTotals(targets, executions, chosen[1..], results[1..]);
    }
  }

  /** The comparison with the number of listed tests can never be what makes a verdict fail. */
  lemma TotalClauseIsImplied(targets: seq<Target>, executions: seq<Execution>, chosen: seq<nat>, results: seq<Result>)
    requires ResultsOf(targets, executions, chosen, results)
    requires |results| == |targets| && forall k :: 0 <= k < |results| ==> results[k].complete
    ensures SumResults(results).Total() == SumCases(targets)
  {
    CompleteTotals(targets, executions, chosen, results);
    SumOfAll(targets, chosen);
  }

  lemma {:induction false} NoFailures(results: seq<Result>, k: nat)
    requires SumResults(results).failed == 0 && k < |results|
    ensures results[k].counts.failed == 0
  {
    if k > 0 {
      NoFailures(results[1..], k - 1);
    }
  }

  /** A complete verdict: every target was executed, once, ran exactly its listed cases, and none failed. */
  lemma VerdictIsSound(targets: seq<Target>, executions: seq<Execution>, chosen: seq<nat>, results: seq<Result>, doc: Lane, i: nat)
    requires ResultsOf(targets, executions, chosen, results) && AllComplete(targets, results, doc) && i < |targets|
    ensures exists k :: 0 <= k < |chosen| && chosen[k] == i && forall j :: 0 <= j < |chosen| && chosen[j] == i ==> j == k
    ensures Executed(targets[i], executions[i])
    ensures L.Parsed(executions[i].log, 0).modules[0].last.value.counts.failed == 0
  {
    AllChosen(chosen, i);
    var k: nat :| k < |chosen| && chosen[k] == i;
    CompleteMeansExecuted(targets[i], executions[i]);
    NoFailures(results, k);
  }

  // ---------- with the scheduler's lanes and the catalog ----------

  /** The product targets wait for preparation, the others do not. */
  ghost predicate IsSplit(targets: seq<Target>, independent: seq<nat>, dependent: seq<nat>) {
    && Injective(independent) && Injective(dependent) && Below(independent, |targets|) && Below(dependent, |targets|)
    && (forall j :: 0 <= j < |independent| ==> !targets[independent[j]].product)
    && (forall k :: 0 <= k < |dependent| ==> targets[dependent[k]].product)
  }

  /** The targets behind one lane's results, in the order of collection. */
  ghost function Collected(list: seq<nat>, l: S.Lane): seq<nat>
    requires forall k :: 0 <= k < |l.results| ==> l.results[k].0 < |list|
  {
    seq(|l.results|, k requires 0 <= k < |l.results| => list[l.results[k].0])
  }

  lemma LaneCollects(w: S.World, lane: S.LaneId, list: seq<nat>)
    requires S.Reachable(w) && w.plans.At(lane).total == |list|
    ensures var l := w.lanes.At(lane);
            && (forall k :: 0 <= k < |l.results| ==> l.results[k].0 < |list|)
            && (Injective(list) ==> Injective(Collected(list, l)))
  {
    S.ReachableIsSound(w);
    assert S.Sound(w.plans.At(lane), w.lanes.At(lane));
    var l := w.lanes.At(lane);
    if Injective(list) {
      forall j, k | 0 <= j < k < |l.results|
        ensures Collected(list, l)[j] != Collected(list, l)[k]
      {
        assert l.results[j].0 != l.results[k].0;
      }
    }
  }

  lemma LanesChooseOnce(w: S.World, targets: seq<Target>, independent: seq<nat>, dependent: seq<nat>) returns (chosen: seq<nat>)
    requires S.Reachable(w) && IsSplit(targets, independent, dependent)
    requires w.plans.independent.total == |independent| && w.plans.dependent.total == |dependent|
    ensures Injective(chosen) && Below(chosen, |targets|)
    ensures |chosen| == |w.lanes.independent.results| + |w.lanes.dependent.results|
    ensures forall k :: 0 <= k < |w.lanes.independent.results| ==>
              w.lanes.independent.results[k].0 < |independent| && chosen[k] == independent[w.lanes.independent.results[k].0]
    ensures forall k :: 0 <= k < |w.lanes.dependent.results| ==>
              w.lanes.dependent.results[k].0 < |dependent| && chosen[|w.lanes.independent.results| + k] == dependent[w.lanes.dependent.results[k].0]
  {
    LaneCollects(w, S.Independent, independent);
    LaneCollects(w, S.Dependent, dependent);
    var a, b := Collected(independent, w.lanes.At(S.Independent)), Collected(dependent, w.lanes.At(S.Dependent));
    chosen := a + b;
    forall j, k | 0 <= j < k < |chosen|
      ensures chosen[j] != chosen[k]
    {
      if j < |a| <= k {
        assert chosen[j] == a[j] && chosen[k] == b[k - |a|];
      } else if k < |a| {
        assert a[j] != a[k];
      } else {
        assert b[j - |a|] != b[k - |a|];
      }
    }
  }

  /** The results of the two lanes, in the order of collection, one lane after the other. */
  ghost predicate RanIn(w: S.World, targets: seq<Target>, executions: seq<Execution>, independent: seq<nat>, dependent: seq<nat>, results: seq<Result>) {
    && S.Reachable(w) && IsSplit(targets, independent, dependent) && |executions| == |targets|
    && w.plans.independent.total == |independent| && w.plans.dependent.total == |dependent|
    && |results| == |w.lanes.independent.results| + |w.lanes.dependent.results|
    && (forall k :: 0 <= k < |w.lanes.independent.results| && w.lanes.independent.results[k].0 < |independent| ==>
          var t := independent[w.lanes.independent.results[k].0];
          t < |targets| ==> results[k] == RunOne(targets[t], executions[t]))
    && (forall k :: 0 <= k < |w.lanes.dependent.results| && w.lanes.dependent.results[k].0 < |dependent| ==>
          var t := dependent[w.lanes.dependent.results[k].0];
          t < |targets| ==> results[|w.lanes.independent.results| + k] == RunOne(targets[t], executions[t]))
  }

  ghost predicate WithoutFailure(e: Execution) {
    var parsed := L.Parsed(e.log, 0);
    |parsed.modules| == 1 && parsed.modules[0].last.Some? && parsed.modules[0].last.value.counts.failed == 0
  }

  /** Any interleaving of the two lanes whose verdict is complete executed every catalogued target. */
  lemma CompleteRunIsSound(w: S.World, targets: seq<Target>, executions: seq<Execution>, independent: seq<nat>, dependent: seq<nat>,
      results: seq<Result>, doc: Lane, i: nat)
    requires RanIn(w, targets, executions, independent, dependent, results)
    requires AllComplete(targets, results, doc) && i < |targets|
    ensures Executed(targets[i], executions[i]) && WithoutFailure(executions[i])
  {
    var chosen := LanesChooseOnce(w, targets, independent, dependent);
    var m := |w.lanes.independent.results|;
    forall k | 0 <= k < |chosen|
      ensures results[k] == RunOne(targets[chosen[k]], executions[chosen[k]])
    {
      if k >= m { assert chosen[m + (k - m)] == dependent[w.lanes.dependent.results[k - m].0]; }
    }
    VerdictIsSound(targets, executions, chosen, results, doc, i);
  }
}
