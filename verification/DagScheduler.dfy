/** Two target lanes with a bounded pool each and one shared stop event: every interleaving of their
    stop checks, admissions, completions and collections. */
module DagScheduler {
  import opened Wrappers

  /** What one call of `dag_run_targets` is given. */
  datatype Plan = Plan(total: nat, workers: nat)

  /** One lane. `tickets` counts the calls of `admit` still owed, `submitting` an admission between its stop
      check and its submission, `finished` the verdicts of pool threads, `woken` what `wait` returned. */
  datatype Lane = Lane(
    next: nat,
    tickets: nat,
    submitting: bool,
    active: set<nat>,
    finished: map<nat, bool>,
    woken: set<nat>,
    results: seq<(nat, bool)>)

  datatype LaneId = Independent | Dependent

  /** Without a stop event (`shared` false) nothing ever stops another lane. */
  datatype World = World(plans: Both<Plan>, lanes: Both<Lane>, failFast: bool, shared: bool, stop: bool)

  datatype Both<T> = Both(independent: T, dependent: T) {
    function At(id: LaneId): T {
      if id.Independent? then independent else dependent
    }

    function With(id: LaneId, value: T): Both<T> {
      if id.Independent? then this.(independent := value) else this.(dependent := value)
    }
  }

  datatype Step =
    | CheckStop(lane: LaneId)
    | Submit(lane: LaneId)
    | Complete(lane: LaneId, target: nat, ok: bool)
    | Wake(lane: LaneId, done: set<nat>)
    | Collect(lane: LaneId, target: nat)

  function Fresh(plan: Plan): Lane {
    Lane(0, plan.workers, false, {}, map[], {}, [])
  }

  function Start(first: Plan, second: Plan, failFast: bool, shared: bool): World {
    World(Both(first, second), Both(Fresh(first), Fresh(second)), failFast, shared, false)
  }

  // ---------- one lane ----------

  /** The lane's own thread is past its admissions and looks at completions. */
  predicate Watching(l: Lane) {
    l.tickets == 0 && !l.submitting
  }

  predicate Ended(l: Lane) {
    Watching(l) && l.active == {}
  }

  predicate Enabled(plan: Plan, l: Lane, s: Step) {
    match s
    case CheckStop(_) => l.tickets > 0 && !l.submitting
    case Submit(_) => l.submitting
    case Complete(_, i, _) => i in l.active && i !in l.finished
    case Wake(_, done) => Watching(l) && l.woken == {} && done != {} && done <= l.active && done <= l.finished.Keys
    case Collect(_, i) => Watching(l) && i in l.woken && i in l.finished
  }

  /** One step of a lane that reads the stop event as `stop`. */
  function Moved(plan: Plan, l: Lane, s: Step, failFast: bool, stop: bool): Lane
    requires Enabled(plan, l, s)
  {
    match s
    case CheckStop(_) => l.(tickets := l.tickets - 1, submitting := !stop && l.next < plan.total)
    case Submit(_) => l.(next := l.next + 1, active := l.active + {l.next}, submitting := false)
    case Complete(_, i, ok) => l.(finished := l.finished[i := ok])
    case Wake(_, done) => l.(woken := done)
    case Collect(_, i) =>
      l.(active := l.active - {i}, woken := l.woken - {i}, results := l.results + [(i, l.finished[i])],
         tickets := if l.finished[i] || !failFast then 1 else 0)
  }

  function After(w: World, s: Step): World
    requires Enabled(w.plans.At(s.lane), w.lanes.At(s.lane), s)
  {
    var l := w.lanes.At(s.lane);
    w.(lanes := w.lanes.With(s.lane, Moved(w.plans.At(s.lane), l, s, w.failFast, w.shared && w.stop)),
       stop := w.stop || (s.Collect? && !l.finished[s.target] && w.failFast && w.shared))
  }

  function Run(w: World, steps: seq<Step>): Option<World>
    decreases steps
  {
    if steps == [] then Some(w)
    else if Enabled(w.plans.At(steps[0].lane), w.lanes.At(steps[0].lane), steps[0])
    then Run(After(w, steps[0]), steps[1..])
    else None
  }

  lemma {:induction false} RunSnoc(w: World, steps: seq<Step>, s: Step)
    requires Run(w, steps).Some?
    requires var v := Run(w, steps).value; Enabled(v.plans.At(s.lane), v.lanes.At(s.lane), s)
    ensures Run(w, steps + [s]) == Some(After(Run(w, steps).value, s))
    decreases steps
  {
    if steps == [] {
      assert [s][1..] == [];
    } else {
      assert (steps + [s])[1..] == steps[1..] + [s];
      RunSnoc(After(w, steps[0]), steps[1..], s);
    }
  }

  // ---------- the invariant ----------

  ghost predicate InResults(l: Lane, i: nat) {
    exists k :: 0 <= k < |l.results| && l.results[k].0 == i
  }

  /** Some collected target failed. */
  ghost predicate HasFailure(l: Lane) {
    exists k :: 0 <= k < |l.results| && !l.results[k].1
  }

  function Busy(l: Lane): nat {
    |l.active| + l.tickets + if l.submitting then 1 else 0
  }

  ghost predicate Sound(plan: Plan, l: Lane) {
    && l.next + (if l.submitting then 1 else 0) <= plan.total
    && Busy(l) <= plan.workers
    && l.woken <= l.active && l.woken <= l.finished.Keys
    && (forall i :: i in l.active ==> i < l.next && !InResults(l, i))
    && (forall i: nat :: i < l.next ==> i in l.active || InResults(l, i))
    && (forall k :: 0 <= k < |l.results| ==>
          l.results[k].0 < l.next && l.results[k].0 in l.finished && l.finished[l.results[k].0] == l.results[k].1)
    && (forall j, k :: 0 <= j < k < |l.results| ==> l.results[j].0 != l.results[k].0)
    && |l.results| + |l.active| == l.next
  }

  /** A worker place is unused only for a reason: the list is exhausted, stop was seen, or a target failed. */
  ghost predicate Excused(plan: Plan, l: Lane, failFast: bool, stop: bool) {
    || Busy(l) == plan.workers
    || l.next + (if l.submitting then 1 else 0) == plan.total
    || stop
    || (failFast && HasFailure(l))
  }

  ghost predicate Inv(w: World) {
    && (forall lane: LaneId :: Sound(w.plans.At(lane), w.lanes.At(lane)) && Excused(w.plans.At(lane), w.lanes.At(lane), w.failFast, w.shared && w.stop))
    && (w.stop <==> w.shared && w.failFast && (HasFailure(w.lanes.independent) || HasFailure(w.lanes.dependent)))
  }

  lemma StartKeeps(first: Plan, second: Plan, failFast: bool, shared: bool)
    ensures Inv(Start(first, second, failFast, shared))
  {
  }

  lemma ActiveGrows(l: Lane)
    requires l.next !in l.active
    ensures |l.active + {l.next}| == |l.active| + 1
  {
  }

  lemma CollectSound(plan: Plan, l: Lane, s: Step, failFast: bool, stop: bool)
    requires Sound(plan, l) && Enabled(plan, l, s) && s.Collect?
    ensures var m := Moved(plan, l, s, failFast, stop);
            Sound(plan, m) && (HasFailure(m) <==> HasFailure(l) || !l.finished[s.target])
  {
    var m := Moved(plan, l, s, failFast, stop);
    assert |m.active| == |l.active| - 1;
    assert m.results[|l.results|] == (s.target, l.finished[s.target]);
    forall k | 0 <= k < |l.results|
      ensures m.results[k] == l.results[k]
    {
    }
    forall i: nat
      ensures InResults(m, i) <==> InResults(l, i) || i == s.target
    {
      if InResults(l, i) {
        var k :| 0 <= k < |l.results| && l.results[k].0 == i;
        assert m.results[k].0 == i;
      }
    }
    if HasFailure(l) {
      var k :| 0 <= k < |l.results| && !l.results[k].1;
      assert !m.results[k].1;
    }
  }

  lemma MoveSound(plan: Plan, l: Lane, s: Step, failFast: bool, stop: bool)
    requires Sound(plan, l) && Enabled(plan, l, s)
    ensures var m := Moved(plan, l, s, failFast, stop);
            Sound(plan, m) && (HasFailure(m) <==> HasFailure(l) || (s.Collect? && !l.finished[s.target]))
  {
    if s.Collect? {
      CollectSound(plan, l, s, failFast, stop);
    } else {
      var m := Moved(plan, l, s, failFast, stop);
      assert m.results == l.results;
      forall i: nat
        ensures InResults(m, i) <==> InResults(l, i)
      {
      }
      if s.Submit? {
        assert !InResults(l, l.next);
        ActiveGrows(l);
      }
    }
  }

  lemma MoveExcused(plan: Plan, l: Lane, s: Step, failFast: bool, stop: bool)
    requires Sound(plan, l) && Enabled(plan, l, s) && Excused(plan, l, failFast, stop)
    ensures Excused(plan, Moved(plan, l, s, failFast, stop), failFast, stop)
  {
    MoveSound(plan, l, s, failFast, stop);
    if s.Submit? {
      ActiveGrows(l);
    } else if s.Collect? {
      assert |l.active - {s.target}| == |l.active| - 1;
    }
  }

  lemma StepKeeps(w: World, s: Step)
    requires Inv(w) && Enabled(w.plans.At(s.lane), w.lanes.At(s.lane), s)
    ensures Inv(After(w, s))
  {
    var plan, l := w.plans.At(s.lane), w.lanes.At(s.lane);
    assert Sound(plan, l) && Excused(plan, l, w.failFast, w.shared && w.stop);
    MoveSound(plan, l, s, w.failFast, w.shared && w.stop);
    MoveExcused(plan, l, s, w.failFast, w.shared && w.stop);
    var v := After(w, s);
    forall lane: LaneId
      ensures Sound(v.plans.At(lane), v.lanes.At(lane)) && Excused(v.plans.At(lane), v.lanes.At(lane), v.failFast, v.shared && v.stop)
    {
      assert Sound(w.plans.At(lane), w.lanes.At(lane)) && Excused(w.plans.At(lane), w.lanes.At(lane), w.failFast, w.shared && w.stop);
    }
  }

  lemma {:induction false} RunKeeps(w: World, steps: seq<Step>)
    requires Inv(w) && Run(w, steps).Some?
    ensures Inv(Run(w, steps).value)
    decreases steps
  {
    if steps != [] {
      StepKeeps(w, steps[0]);
      RunKeeps(After(w, steps[0]), steps[1..]);
    }
  }

  ghost predicate Reachable(w: World) {
    exists first, second, failFast, shared, steps :: Run(Start(first, second, failFast, shared), steps) == Some(w)
  }

  lemma ReachableIsSound(w: World)
    requires Reachable(w)
    ensures Inv(w)
  {
    var first, second, failFast, shared, steps :| Run(Start(first, second, failFast, shared), steps) == Some(w);
    StartKeeps(first, second, failFast, shared);
    RunKeeps(Start(first, second, failFast, shared), steps);
  }

  // ---------- what every run satisfies ----------

  lemma PoolIsBounded(w: World, lane: LaneId)
    requires Reachable(w)
    ensures |w.lanes.At(lane).active| <= w.plans.At(lane).workers
  {
    ReachableIsSound(w);
    assert Sound(w.plans.At(lane), w.lanes.At(lane));
  }

  /** The targets admitted so far are a prefix of the list; each one is running or has exactly one result. */
  lemma AdmitsAPrefixOnce(w: World, lane: LaneId, i: nat)
    requires Reachable(w)
    ensures var l := w.lanes.At(lane);
            && l.next <= w.plans.At(lane).total
            && |l.results| + |l.active| == l.next
            && (i < l.next <==> i in l.active || InResults(l, i))
            && !(i in l.active && InResults(l, i))
            && forall j, k :: 0 <= j < k < |l.results| ==> l.results[j].0 != l.results[k].0
  {
    ReachableIsSound(w);
    assert Sound(w.plans.At(lane), w.lanes.At(lane));
  }

  /** A lane that ended without covering its list was stopped, or lost a worker to a failure. */
  lemma EndCoversUnlessStopped(w: World, lane: LaneId)
    requires Reachable(w) && Ended(w.lanes.At(lane)) && w.plans.At(lane).workers > 0
    ensures w.lanes.At(lane).next == w.plans.At(lane).total || w.stop || (w.failFast && HasFailure(w.lanes.At(lane)))
    ensures w.shared && !w.stop ==> |w.lanes.At(lane).results| == w.plans.At(lane).total
    ensures !w.failFast ==> |w.lanes.At(lane).results| == w.plans.At(lane).total
  {
    ReachableIsSound(w);
    assert Sound(w.plans.At(lane), w.lanes.At(lane)) && Excused(w.plans.At(lane), w.lanes.At(lane), w.failFast, w.shared && w.stop);
  }

  /** The stop event is set exactly when a collected target of either lane failed in a fail-fast run. */
  lemma StopMeansFailure(w: World)
    requires Reachable(w)
    ensures w.stop <==> w.shared && w.failFast && (HasFailure(w.lanes.independent) || HasFailure(w.lanes.dependent))
  {
    ReachableIsSound(w);
  }

  /** Once stop is set, a lane admits at most the one target whose stop check came before. */
  lemma {:induction false} NothingAfterStop(w: World, steps: seq<Step>, lane: LaneId)
    requires Inv(w) && w.shared && w.stop && Run(w, steps).Some?
    ensures var v := Run(w, steps).value;
            v.lanes.At(lane).next <= w.lanes.At(lane).next + if w.lanes.At(lane).submitting then 1 else 0
    decreases steps
  {
    if steps != [] {
      StepKeeps(w, steps[0]);
      NothingAfterStop(After(w, steps[0]), steps[1..], lane);
    }
  }

  // ---------- termination ----------

  function LaneWork(plan: Plan, l: Lane): int {
    5 * (plan.total - l.next) + 2 * l.tickets + (if l.submitting then 1 else 0)
    + 5 * |l.active| - |l.active * l.finished.Keys| - |l.woken|
  }

  function Work(w: World): int
  {
    LaneWork(w.plans.independent, w.lanes.independent) + LaneWork(w.plans.dependent, w.lanes.dependent)
  }

  lemma WorkIsNatural(plan: Plan, l: Lane)
    requires Sound(plan, l)
    ensures LaneWork(plan, l) >= 0
  {
    SubsetSize(l.active * l.finished.Keys, l.active);
    SubsetSize(l.woken, l.active);
  }

  lemma SubmitWorks(plan: Plan, l: Lane)
    requires Sound(plan, l) && l.submitting
    ensures LaneWork(plan, Moved(plan, l, Submit(Independent), true, false)) < LaneWork(plan, l)
  {
    var m := Moved(plan, l, Submit(Independent), true, false);
    assert !InResults(l, l.next);
    ActiveGrows(l);
    SubsetSize(l.active * l.finished.Keys, m.active * m.finished.Keys);
  }

  lemma CollectWorks(plan: Plan, l: Lane, i: nat, failFast: bool)
    requires Sound(plan, l) && Enabled(plan, l, Collect(Independent, i))
    ensures LaneWork(plan, Moved(plan, l, Collect(Independent, i), failFast, false)) < LaneWork(plan, l)
  {
    var m := Moved(plan, l, Collect(Independent, i), failFast, false);
    assert |m.active| == |l.active| - 1 && |m.woken| == |l.woken| - 1;
    assert m.active * m.finished.Keys == (l.active * l.finished.Keys) - {i};
    assert |m.active * m.finished.Keys| == |l.active * l.finished.Keys| - 1;
  }

  lemma CompleteWorks(plan: Plan, l: Lane, i: nat, ok: bool)
    requires Enabled(plan, l, Complete(Independent, i, ok))
    ensures LaneWork(plan, l.(finished := l.finished[i := ok])) < LaneWork(plan, l)
  {
    var m := l.(finished := l.finished[i := ok]);
    var before := l.active * l.finished.Keys;
    assert i !in before;
    assert m.active * m.finished.Keys == before + {i};
    assert |before + {i}| == |before| + 1;
  }

  lemma MoveWorks(plan: Plan, l: Lane, s: Step, failFast: bool, stop: bool)
    requires Sound(plan, l) && Enabled(plan, l, s)
    ensures LaneWork(plan, Moved(plan, l, s, failFast, stop)) < LaneWork(plan, l)
  {
    match s
    case CheckStop(_) =>
    case Submit(_) => SubmitWorks(plan, l);
    case Complete(_, i, ok) => CompleteWorks(plan, l, i, ok);
    case Wake(_, done) => assert |done| > 0;
    case Collect(_, i) => CollectWorks(plan, l, i, failFast);
  }

  lemma WorkShrinks(w: World, s: Step)
    requires Inv(w) && Enabled(w.plans.At(s.lane), w.lanes.At(s.lane), s)
    ensures Work(After(w, s)) < Work(w)
  {
    assert Sound(w.plans.At(s.lane), w.lanes.At(s.lane));
    MoveWorks(w.plans.At(s.lane), w.lanes.At(s.lane), s, w.failFast, w.shared && w.stop);
  }

  /** Every run is finite: it has at most as many steps as the work it starts with. */
  lemma {:induction false} RunsAreBounded(w: World, steps: seq<Step>)
    requires Inv(w) && Run(w, steps).Some?
    ensures |steps| <= Work(w)
    decreases steps
  {
    if steps == [] {
      WorkIsNatural(w.plans.At(Independent), w.lanes.At(Independent));
      WorkIsNatural(w.plans.At(Dependent), w.lanes.At(Dependent));
    } else {
      WorkShrinks(w, steps[0]);
      StepKeeps(w, steps[0]);
      RunsAreBounded(After(w, steps[0]), steps[1..]);
    }
  }

  /** And no lane is ever stuck before it ended. */
  lemma SomethingIsEnabled(w: World, lane: LaneId) returns (s: Step)
    requires Reachable(w) && !Ended(w.lanes.At(lane))
    ensures s.lane == lane && Enabled(w.plans.At(lane), w.lanes.At(lane), s)
  {
    ReachableIsSound(w);
    var l := w.lanes.At(lane);
    assert Sound(w.plans.At(lane), l);
    if l.submitting {
      s := Submit(lane);
    } else if l.tickets > 0 {
      s := CheckStop(lane);
    } else if i :| i in l.woken {
      s := Collect(lane, i);
    } else {
      var i :| i in l.active;
      s := if i in l.finished then Wake(lane, {i}) else Complete(lane, i, true);
    }
  }
}
