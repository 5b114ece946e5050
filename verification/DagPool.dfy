/** `dag_run_targets` as one lane runs it: a bounded pool, an active set and a result list, while the other
    lane may raise the shared stop event at any moment and targets complete in any order. Every run of it is a
    run of the two-lane state machine. */
module DagPool {
  import opened Wrappers
  import S = DagScheduler

  datatype Result = Result(target: nat, complete: bool)

  // ---------- runs of the state machine ----------

  ghost predicate Reaches(start: S.World, w: S.World) {
    exists steps :: S.Run(start, steps) == Some(w)
  }

  lemma ReachNext(start: S.World, w: S.World, s: S.Step)
    requires Reaches(start, w) && S.Enabled(w.plans.At(s.lane), w.lanes.At(s.lane), s)
    ensures Reaches(start, S.After(w, s))
  {
    var steps :| S.Run(start, steps) == Some(w);
    S.RunSnoc(start, steps, s);
  }

  /** All the other lane is good for here: a list of one target. */
  const Single := S.Plan(1, 1)

  /** The other lane raises the stop event: its one target fails. */
  lemma OtherFails(start: S.World, w: S.World) returns (v: S.World)
    requires Reaches(start, w) && w.failFast && w.shared && !w.stop
    requires w.plans.dependent == Single && w.lanes.dependent == S.Fresh(Single)
    ensures Reaches(start, v) && v == w.(stop := true, lanes := w.lanes.(dependent := v.lanes.dependent))
  {
    ReachNext(start, w, S.CheckStop(S.Dependent));
    v := S.After(w, S.CheckStop(S.Dependent));
    ReachNext(start, v, S.Submit(S.Dependent));
    v := S.After(v, S.Submit(S.Dependent));
    ReachNext(start, v, S.Complete(S.Dependent, 0, false));
    v := S.After(v, S.Complete(S.Dependent, 0, false));
    ReachNext(start, v, S.Wake(S.Dependent, {0}));
    v := S.After(v, S.Wake(S.Dependent, {0}));
    ReachNext(start, v, S.Collect(S.Dependent, 0));
    v := S.After(v, S.Collect(S.Dependent, 0));
  }

  lemma FinishOne(start: S.World, w: S.World, i: nat, ok: bool) returns (v: S.World)
    requires Reaches(start, w) && i in w.lanes.independent.active && i !in w.lanes.independent.finished
    ensures Reaches(start, v)
    ensures v == w.(lanes := w.lanes.(independent := w.lanes.independent.(finished := w.lanes.independent.finished[i := ok])))
  {
    ReachNext(start, w, S.Complete(S.Independent, i, ok));
    v := S.After(w, S.Complete(S.Independent, i, ok));
  }

  /** The pool threads of these targets finish, one after the other. */
  lemma FinishAll(start: S.World, w: S.World, todo: set<nat>, verdict: nat -> bool) returns (v: S.World)
    requires Reaches(start, w) && todo <= w.lanes.independent.active && todo !! w.lanes.independent.finished.Keys
    ensures Reaches(start, v)
    ensures v == w.(lanes := w.lanes.(independent := w.lanes.independent.(finished := v.lanes.independent.finished)))
    ensures v.lanes.independent.finished == w.lanes.independent.finished + map i | i in todo :: verdict(i)
    decreases |todo|
  {
    v := w;
    if i :| i in todo {
      var next := FinishOne(start, w, i, verdict(i));
      v := FinishAll(start, next, todo - {i}, verdict);
      MapsAddUp(w.lanes.independent.finished, todo, i, verdict);
    } else {
      assert w.lanes.independent.finished + map[] == w.lanes.independent.finished;
    }
  }

  lemma MapsAddUp(m: map<nat, bool>, todo: set<nat>, i: nat, verdict: nat -> bool)
    requires i in todo && todo !! m.Keys
    ensures m[i := verdict(i)] + (map k | k in todo - {i} :: verdict(k)) == m + map k | k in todo :: verdict(k)
  {
  }

  /** The stop check of an admission, as a step of the state machine. */
  lemma StopChecked(start: S.World, w: S.World) returns (v: S.World)
    requires Reaches(start, w) && w.lanes.independent.tickets > 0 && !w.lanes.independent.submitting
    ensures Reaches(start, v)
    ensures var l := w.lanes.independent;
            v == w.(lanes := w.lanes.(independent :=
              l.(tickets := l.tickets - 1, submitting := !(w.shared && w.stop) && l.next < w.plans.independent.total)))
  {
    ReachNext(start, w, S.CheckStop(S.Independent));
    v := S.After(w, S.CheckStop(S.Independent));
  }

  lemma Submitted(start: S.World, w: S.World) returns (v: S.World)
    requires Reaches(start, w) && w.lanes.independent.submitting
    ensures Reaches(start, v)
    ensures var l := w.lanes.independent;
            v == w.(lanes := w.lanes.(independent := l.(next := l.next + 1, active := l.active + {l.next}, submitting := false)))
  {
    ReachNext(start, w, S.Submit(S.Independent));
    v := S.After(w, S.Submit(S.Independent));
  }

  /** Shared by the lanes of a fail-fast run; without fail-fast there is no event (`used` is false). */
  class StopEvent {
    const used: bool
    var raised: bool

    constructor (used: bool)
      ensures !raised && this.used == used
    {
      this.used, raised := used, false;
    }

    /** Whatever the other lane does in the meantime: it can raise the event, never lower it. */
    method OtherLane()
      modifies this
      ensures old(raised) ==> raised
      ensures !used ==> raised == old(raised)
    {
      if * {
        raised := raised || used;
      }
    }
  }

  class TargetPool {
    const total: nat
    const workers: nat
    const failFast: bool
    var next: nat
    var active: set<nat>
    var results: seq<Result>

    constructor (total: nat, workers: nat, failFast: bool)
      ensures this.total == total && this.workers == workers && this.failFast == failFast
      ensures Valid() && next == 0 && results == [] && active == {}
    {
      this.total, this.workers, this.failFast := total, workers, failFast;
      next, active, results := 0, {}, [];
    }

    ghost predicate HasResult(i: nat)
      reads this
    {
      exists k :: 0 <= k < |results| && results[k].target == i
    }

    /** The admitted targets are the first `next`, each running or with exactly one result. */
    ghost predicate Valid()
      reads this
    {
      && next <= total && |active| <= workers && |results| + |active| == next
      && (forall i :: i in active ==> i < next && !HasResult(i))
      && (forall i: nat :: i < next ==> i in active || HasResult(i))
      && (forall k :: 0 <= k < |results| ==> results[k].target < next)
      && (forall j, k :: 0 <= j < k < |results| ==> results[j].target != results[k].target)
    }

    function Pairs(): (pairs: seq<(nat, bool)>)
      reads this
      ensures |pairs| == |results| && forall k :: 0 <= k < |results| ==> pairs[k] == (results[k].target, results[k].complete)
    {
      seq(|results|, k requires 0 <= k < |results| reads this => (results[k].target, results[k].complete))
    }

    ghost function Begin(stop: StopEvent): S.World {
      S.Start(S.Plan(total, workers), Single, failFast, stop.used)
    }

    /** The state machine's independent lane stands where this pool stands: `tickets` admissions are owed, and
        `woken` have finished but are not collected. */
    ghost predicate Mirrors(w: S.World, stop: StopEvent, tickets: nat, woken: set<nat>, verdict: nat -> bool)
      reads this, stop
    {
      var l := w.lanes.independent;
      && w.plans == S.Both(S.Plan(total, workers), Single) && w.failFast == failFast && w.shared == stop.used && w.stop == stop.raised
      && (!w.stop ==> w.lanes.dependent == S.Fresh(Single))
      && l.next == next && l.active == active && l.results == Pairs() && l.tickets == tickets && !l.submitting && l.woken == woken
      && (forall i :: i in l.finished ==> i < next) && (forall i :: i in active ==> (i in l.finished <==> i in woken))
      && (forall i :: i in woken ==> i in active && l.finished[i] == verdict(i))
    }

    /** Every result is the verdict of its target. */
    ghost predicate Judged(verdict: nat -> bool)
      reads this
    {
      forall k :: 0 <= k < |results| ==> results[k].complete == verdict(results[k].target)
    }

    ghost predicate Failed()
      reads this
    {
      exists k :: 0 <= k < |results| && !results[k].complete
    }

    /** A free place that was not filled again is explained. */
    ghost predicate Excused(stop: StopEvent)
      reads this, stop
    {
      |active| == workers || next == total || stop.raised
    }

    method Admit(stop: StopEvent, verdict: nat -> bool, ghost w: S.World, ghost tickets: nat, ghost woken: set<nat>)
      returns (admitted: bool, ghost v: S.World)
      requires Valid() && |active| < workers && stop.used == failFast && (stop.raised ==> stop.used)
      requires tickets > 0 && Mirrors(w, stop, tickets, woken, verdict) && Reaches(Begin(stop), w)
      modifies this`next, this`active, stop
      ensures Mirrors(v, stop, tickets - 1, woken, verdict) && Reaches(Begin(stop), v)
      ensures Valid() && (old(stop.raised) ==> stop.raised) && (stop.raised ==> stop.used)
      ensures old(stop.raised) ==> !admitted
      ensures admitted ==> next == old(next) + 1 && active == old(active) + {old(next)}
      ensures !admitted ==> next == old(next) && active == old(active) && (stop.raised || next == total)
    {
      admitted := false;
      v := StopChecked(Begin(stop), w);
      if !stop.raised {
        v := Interrupted(stop, v);
        if next < total {
          v := Submitted(Begin(stop), v);
          Take();
          admitted := true;
        }
      }
    }

    method Take()
      requires Valid() && next < total && |active| < workers
      modifies this`next, this`active
      ensures Valid() && next == old(next) + 1 && active == old(active) + {old(next)}
    {
      assert next !in active && !HasResult(next);
      active := active + {next};
      next := next + 1;
    }

    /** The other lane acts, and what that is in the state machine. */
    method Interrupted(stop: StopEvent, ghost w: S.World) returns (ghost v: S.World)
      requires Reaches(Begin(stop), w) && stop.used == failFast && (stop.raised ==> stop.used)
      requires w.plans.dependent == Single && w.failFast == failFast && w.shared == stop.used && w.stop == stop.raised
      requires !w.stop ==> w.lanes.dependent == S.Fresh(Single)
      modifies stop
      ensures Reaches(Begin(stop), v) && v == w.(stop := stop.raised, lanes := w.lanes.(dependent := v.lanes.dependent))
      ensures !v.stop ==> v.lanes.dependent == S.Fresh(Single)
      ensures (old(stop.raised) ==> stop.raised) && (stop.raised ==> stop.used)
    {
      v := w;
      stop.OtherLane();
      if stop.raised && !w.stop { v := OtherFails(Begin(stop), w); }
    }

    method Collect(i: nat, verdict: nat -> bool)
      requires Valid() && i in active
      modifies this`active, this`results
      ensures Valid() && active == old(active) - {i} && |active| == |old(active)| - 1
      ensures results == old(results) + [Result(i, verdict(i))] && (Failed() ==> old(Failed()) || !verdict(i)) && (old(Judged(verdict)) ==> Judged(verdict))
    {
      active := active - {i};
      results := results + [Result(i, verdict(i))];
      assert HasResult(i) by { assert results[|results| - 1].target == i; }
      forall j: nat | j < next && j !in active
        ensures HasResult(j)
      {
        if old(HasResult(j)) {
          var k :| 0 <= k < |old(results)| && old(results)[k].target == j;
          assert results[k].target == j;
        }
      }
      forall j | j in active
        ensures !HasResult(j)
      {
        assert !old(HasResult(j));
      }
    }

    method Fill(stop: StopEvent, verdict: nat -> bool, ghost w: S.World) returns (ghost v: S.World)
      requires Valid() && active == {} && stop.used == failFast && (stop.raised ==> stop.used)
      requires Mirrors(w, stop, workers, {}, verdict) && Reaches(Begin(stop), w)
      modifies this`next, this`active, stop
      ensures Mirrors(v, stop, 0, {}, verdict) && Reaches(Begin(stop), v)
      ensures Valid() && Excused(stop) && (old(stop.raised) ==> stop.raised && next == old(next))
      ensures stop.raised ==> stop.used
    {
      v := w;
      var places := 0;
      while places < workers
        invariant places <= workers
        invariant Valid() && |active| <= places
        invariant |active| == places || next == total || stop.raised
        invariant stop.raised ==> stop.used
        invariant old(stop.raised) ==> stop.raised && next == old(next)
        invariant Mirrors(v, stop, workers - places, {}, verdict) && Reaches(Begin(stop), v)
      {
        var admitted;
        admitted, v := Admit(stop, verdict, v, workers - places, {});
        places := places + 1;
      }
    }

    /** The state machine before this pool starts: the other lane may have raised the event already. */
    ghost method Enter(stop: StopEvent, verdict: nat -> bool) returns (w: S.World)
      requires next == 0 && active == {} && results == [] && stop.used == failFast && (stop.raised ==> stop.used)
      ensures Mirrors(w, stop, workers, {}, verdict) && Reaches(Begin(stop), w)
    {
      w := Begin(stop);
      assert S.Run(w, []) == Some(w);
      if stop.raised { w := OtherFails(Begin(stop), w); }
    }

    /** Run every target of the list, or stop early. */
    method RunTargets(stop: StopEvent, verdict: nat -> bool) returns (ghost w: S.World)
      requires Valid() && next == 0 && active == {} && workers > 0
      requires stop.used == failFast && (stop.raised ==> stop.used)
      modifies this, stop
      ensures Valid() && active == {}
      ensures forall k :: 0 <= k < |results| ==> results[k].complete == verdict(results[k].target)
      ensures old(stop.raised) ==> stop.raised && results == []
      ensures next == total || (failFast && stop.raised)
      ensures failFast && (exists i: nat :: i < next && !verdict(i)) ==> stop.raised
      ensures S.Reachable(w) && Mirrors(w, stop, 0, {}, verdict) && S.Ended(w.lanes.independent)
    {
      w := Enter(stop, verdict);
      w := Fill(stop, verdict, w);
      while active != {}
        invariant Valid() && Excused(stop)
        invariant Judged(verdict)
        invariant old(stop.raised) ==> stop.raised && next == 0
        invariant failFast && Failed() ==> stop.raised
        invariant stop.raised ==> stop.used
        invariant Mirrors(w, stop, 0, {}, verdict) && Reaches(Begin(stop), w)
        decreases 2 * (total - next) + |active|
      {
        w := Interrupted(stop, w);
        var done: set<nat> :| done <= active && done != {};
        w := Woken(stop, verdict, w, done);
        w := CollectDone(done, stop, verdict, w);
      }
      forall i: nat | i < next && !verdict(i)
        ensures Failed()
      {
        assert HasResult(i);
        var k :| 0 <= k < |results| && results[k].target == i;
        assert !results[k].complete;
      }
      ghost var steps :| S.Run(Begin(stop), steps) == Some(w);
    }

    /** `wait` returns: these targets have finished. */
    ghost method Woken(stop: StopEvent, verdict: nat -> bool, w: S.World, done: set<nat>) returns (v: S.World)
      requires Valid() && Mirrors(w, stop, 0, {}, verdict) && Reaches(Begin(stop), w) && done <= active && done != {}
      ensures Mirrors(v, stop, 0, done, verdict) && Reaches(Begin(stop), v)
    {
      v := FinishAll(Begin(stop), w, done, verdict);
      ReachNext(Begin(stop), v, S.Wake(S.Independent, done));
      v := S.After(v, S.Wake(S.Independent, done));
    }

    method CollectDone(done: set<nat>, stop: StopEvent, verdict: nat -> bool, ghost w: S.World) returns (ghost v: S.World)
      requires Valid() && Excused(stop) && done <= active
      requires Judged(verdict)
      requires failFast && Failed() ==> stop.raised
      requires stop.used == failFast && (stop.raised ==> stop.used)
      requires Mirrors(w, stop, 0, done, verdict) && Reaches(Begin(stop), w)
      modifies this`next, this`active, this`results, stop
      ensures Mirrors(v, stop, 0, {}, verdict) && Reaches(Begin(stop), v)
      ensures Valid() && Excused(stop)
      ensures Judged(verdict)
      ensures (failFast && Failed() ==> stop.raised) && (stop.raised ==> stop.used)
      ensures old(stop.raised) ==> stop.raised && next == old(next)
      ensures 2 * (total - next) + |active| <= 2 * (total - old(next)) + |old(active)| - |done|
    {
      v := w;
      var todo := done;
      while todo != {}
        invariant Valid() && Excused(stop) && todo <= active && todo <= done
        invariant Judged(verdict)
        invariant (failFast && Failed() ==> stop.raised) && (stop.raised ==> stop.used)
        invariant old(stop.raised) ==> stop.raised && next == old(next)
        invariant 2 * (total - next) + |active| <= 2 * (total - old(next)) + |old(active)| - |done| + |todo|
        invariant Mirrors(v, stop, 0, todo, verdict) && Reaches(Begin(stop), v)
        decreases |todo|
      {
        var i :| i in todo;
        v := CollectOne(i, stop, verdict, v, todo);
        todo := todo - {i};
      }
    }

    method CollectOne(i: nat, stop: StopEvent, verdict: nat -> bool, ghost w: S.World, ghost woken: set<nat>) returns (ghost v: S.World)
      requires Valid() && Excused(stop) && i in active && i in woken
      requires Judged(verdict)
      requires failFast && Failed() ==> stop.raised
      requires stop.used == failFast && (stop.raised ==> stop.used)
      requires Mirrors(w, stop, 0, woken, verdict) && Reaches(Begin(stop), w)
      modifies this`next, this`active, this`results, stop
      ensures Mirrors(v, stop, 0, woken - {i}, verdict) && Reaches(Begin(stop), v)
      ensures Valid() && Excused(stop) && old(active) - {i} <= active
      ensures Judged(verdict)
      ensures (failFast && Failed() ==> stop.raised) && (stop.raised ==> stop.used)
      ensures old(stop.raised) ==> stop.raised && next == old(next)
      ensures 2 * (total - next) + |active| < 2 * (total - old(next)) + |old(active)|
    {
      v := TakeResult(i, stop, verdict, w, woken);
      v := Refill(verdict(i) || !failFast, stop, verdict, v, woken - {i});
    }

    /** The place of a collected target is given to the next one. */
    method Refill(owed: bool, stop: StopEvent, verdict: nat -> bool, ghost w: S.World, ghost woken: set<nat>) returns (ghost v: S.World)
      requires Valid() && |active| < workers && stop.used == failFast && (stop.raised ==> stop.used)
      requires Mirrors(w, stop, if owed then 1 else 0, woken, verdict) && Reaches(Begin(stop), w)
      modifies this`next, this`active, stop
      ensures Mirrors(v, stop, 0, woken, verdict) && Reaches(Begin(stop), v)
      ensures Valid() && (old(stop.raised) ==> stop.raised && next == old(next)) && (stop.raised ==> stop.used)
      ensures old(active) <= active && old(next) <= next && |active| == |old(active)| + next - old(next) <= |old(active)| + 1
      ensures owed ==> next == old(next) + 1 || next == total || stop.raised
    {
      v := w;
      if owed {
        var admitted;
        admitted, v := Admit(stop, verdict, w, 1, woken);
        assert old(next) !in old(active);
      }
    }

    /** One result is recorded, and a failure stops a fail-fast run. */
    method TakeResult(i: nat, stop: StopEvent, verdict: nat -> bool, ghost w: S.World, ghost woken: set<nat>) returns (ghost v: S.World)
      requires Valid() && i in active && i in woken
      requires stop.used == failFast && (stop.raised ==> stop.used)
      requires Mirrors(w, stop, 0, woken, verdict) && Reaches(Begin(stop), w)
      modifies this`active, this`results, stop
      ensures Mirrors(v, stop, if verdict(i) || !failFast then 1 else 0, woken - {i}, verdict) && Reaches(Begin(stop), v)
      ensures Valid() && active == old(active) - {i} && |active| == |old(active)| - 1
      ensures results == old(results) + [Result(i, verdict(i))] && (Failed() ==> old(Failed()) || !verdict(i)) && (old(Judged(verdict)) ==> Judged(verdict))
      ensures stop.raised == (old(stop.raised) || (!verdict(i) && failFast))
    {
      ReachNext(Begin(stop), w, S.Collect(S.Independent, i));
      v := S.After(w, S.Collect(S.Independent, i));
      Collect(i, verdict);
      if !verdict(i) && failFast {
        stop.raised := true;
      }
    }
  }
}
