/** Retained checkouts: reusing and continuing one worktree through any sequence of workers, each of which
    may crash between recording its intent, moving HEAD and starting its command. */
module Continuation {
  import opened Wrappers

  type Sha = nat
  type RunId = nat

  datatype Status = Waiting | Running | Completed | Failed | Blocked

  datatype Kind = Owner | Reuse | Continue(previous: RunId)

  datatype Run = Run(sha: Sha, kind: Kind, status: Status, timedOut: bool, alive: bool)

  /** How far the worker that holds the checkout lease got. `Orphaned`: it died and its command lives on. */
  datatype Phase = Entered | Intended | Placed | Started | Orphaned

  datatype Lease = Lease(run: RunId, phase: Phase)

  /** `stateRun` and `stateSha` are the checkout's state file. `next` and `started` are its history: which
      run continued which, and the revisions commands were started on. */
  datatype World = World(
    head: Sha,
    clean: bool,
    stateRun: RunId,
    stateSha: Sha,
    runs: map<RunId, Run>,
    lease: Option<Lease>,
    next: map<RunId, RunId>,
    started: seq<Sha>)

  /** Git's ancestor relation. */
  ghost predicate Ancestry(before: (Sha, Sha) -> bool) {
    && (forall a :: before(a, a))
    && (forall a, b, c :: before(a, b) && before(b, c) ==> before(a, c))
    && (forall a, b :: before(a, b) && before(b, a) ==> a == b)
  }

  datatype Step =
    | Submit(run: RunId, sha: Sha, kind: Kind)
    | Enter(run: RunId)
    | ContinueCheckout(run: RunId)
    | MoveHead(run: RunId)
    | VerifyReused(run: RunId)
    | Record(run: RunId)
    | Exit(run: RunId, status: Status, timedOut: bool)
    | Crash(run: RunId)
    | CommandEnds
    | Disturb(clean: bool)

  predicate At(w: World, run: RunId, phase: Phase) {
    w.lease == Some(Lease(run, phase)) && run in w.runs && w.runs[run].alive
  }

  /** The conditions of `continue_checkout`. */
  predicate MayContinue(w: World, run: RunId, before: (Sha, Sha) -> bool)
    requires run in w.runs
  {
    && w.runs[run].kind.Continue?
    && w.runs[run].kind.previous in w.runs
    && var previous := w.runs[w.runs[run].kind.previous];
       && (previous.status.Completed? || previous.status.Failed?) && !previous.timedOut && !previous.alive
       && w.stateRun == w.runs[run].kind.previous && w.stateSha == previous.sha
       && w.head == previous.sha && w.clean && before(previous.sha, w.runs[run].sha)
  }

  predicate Enabled(w: World, s: Step, owner: RunId, before: (Sha, Sha) -> bool) {
    match s
    case Submit(run, _, kind) => run !in w.runs && !kind.Owner?
    case Enter(run) => w.lease.None? && run in w.runs && w.runs[run].alive && w.runs[run].status.Waiting?
    case ContinueCheckout(run) => At(w, run, Entered) && MayContinue(w, run, before)
    case MoveHead(run) => At(w, run, Intended)
    case VerifyReused(run) =>
      && At(w, run, Entered) && w.runs[run].kind.Reuse? && owner in w.runs && w.runs[owner].status.Completed?
      && w.runs[owner].sha == w.runs[run].sha && w.head == w.runs[run].sha && w.clean
    case Record(run) => At(w, run, Placed)
    case Exit(run, status, _) =>
      && run in w.runs && w.runs[run].alive && !status.Waiting? && !status.Running?
      && (status.Completed? ==> At(w, run, Started))
    case Crash(run) => run in w.runs && w.runs[run].alive
    case CommandEnds => w.lease.Some? && w.lease.value.phase.Orphaned?
    case Disturb(_) => true
  }

  predicate HoldsLease(w: World, run: RunId) {
    w.lease.Some? && w.lease.value.run == run
  }

  function WithRun(w: World, run: RunId, value: Run): World {
    w.(runs := w.runs[run := value])
  }

  function After(w: World, s: Step, owner: RunId, before: (Sha, Sha) -> bool): World
    requires Enabled(w, s, owner, before)
  {
    match s
    case Submit(run, sha, kind) => WithRun(w, run, Run(sha, kind, Waiting, false, true))
    case Enter(run) => w.(lease := Some(Lease(run, Entered)))
    case ContinueCheckout(run) =>
      w.(stateRun := run, stateSha := w.runs[run].sha, lease := Some(Lease(run, Intended)),
         next := w.next[w.runs[run].kind.previous := run])
    case MoveHead(run) => w.(head := w.runs[run].sha, lease := Some(Lease(run, Placed)))
    case VerifyReused(run) => w.(lease := Some(Lease(run, Placed)))
    case Record(run) =>
      WithRun(w, run, w.runs[run].(status := Running))
        .(stateRun := run, stateSha := w.runs[run].sha, lease := Some(Lease(run, Started)), started := w.started + [w.runs[run].sha])
    case Exit(run, status, timedOut) =>
      WithRun(w, run, w.runs[run].(status := status, timedOut := timedOut, alive := false))
        .(lease := if HoldsLease(w, run) then None else w.lease)
    case Crash(run) =>
      WithRun(w, run, w.runs[run].(alive := false))
        .(lease := if !HoldsLease(w, run) then w.lease
                   else if w.lease.value.phase.Started? then Some(Lease(run, Orphaned)) else None)
    case CommandEnds => w.(lease := None)
    case Disturb(clean) => w.(clean := clean)
  }

  ghost predicate Reaches(w: World, steps: seq<Step>, owner: RunId, before: (Sha, Sha) -> bool, end: World)
    decreases steps
  {
    if steps == [] then w == end
    else Enabled(w, steps[0], owner, before) && Reaches(After(w, steps[0], owner, before), steps[1..], owner, before, end)
  }

  /** The owner run has just recorded its fresh worktree and starts its command. */
  function Fresh(owner: RunId, sha: Sha): World {
    World(sha, true, owner, sha, map[owner := Run(sha, Owner, Running, false, true)], Some(Lease(owner, Started)), map[], [sha])
  }

  ghost predicate Reachable(w: World, owner: RunId, sha: Sha, before: (Sha, Sha) -> bool) {
    exists steps :: Reaches(Fresh(owner, sha), steps, owner, before, w)
  }

  // ---------- the invariant ----------

  ghost predicate LeaseSound(w: World, before: (Sha, Sha) -> bool) {
    w.lease.Some? ==>
      var run, phase := w.lease.value.run, w.lease.value.phase;
      && run in w.runs
      && (!phase.Orphaned? ==> w.runs[run].alive)
      && (phase.Intended? ==> w.stateRun == run && w.stateSha == w.runs[run].sha && before(w.head, w.runs[run].sha))
      && (phase.Placed? ==> w.head == w.runs[run].sha)
      && (phase.Started? || phase.Orphaned? ==> w.head == w.stateSha == w.runs[run].sha && w.stateRun == run)
  }

  ghost predicate Inv(w: World, before: (Sha, Sha) -> bool) {
    && LeaseSound(w, before)
    && w.stateRun in w.runs
    && before(w.head, w.stateSha)
    && (forall p :: p in w.next ==> p in w.runs && !w.runs[p].alive && w.stateRun != p && w.next[p] in w.runs && w.runs[w.next[p]].kind == Continue(p))
    && (forall i :: 0 <= i < |w.started| ==> before(w.started[i], w.head))
    && (forall i, j :: 0 <= i < j < |w.started| ==> before(w.started[i], w.started[j]))
  }

  lemma StepKeeps(w: World, s: Step, owner: RunId, before: (Sha, Sha) -> bool)
    requires Ancestry(before) && Inv(w, before) && Enabled(w, s, owner, before)
    ensures Inv(After(w, s, owner, before), before)
    ensures before(w.head, After(w, s, owner, before).head)
  {
    if s.ContinueCheckout? {
      assert w.runs[s.run].kind.previous !in w.next;
    } else if s.Record? {
      RecordKeeps(w, s.run, owner, before);
    }
  }

  lemma RecordKeeps(w: World, run: RunId, owner: RunId, before: (Sha, Sha) -> bool)
    requires Ancestry(before) && Inv(w, before) && Enabled(w, Record(run), owner, before)
    ensures Inv(After(w, Record(run), owner, before), before)
  {
    var v := After(w, Record(run), owner, before);
    forall i, j | 0 <= i < j < |v.started|
      ensures before(v.started[i], v.started[j])
    {
      assert v.started[i] == w.started[i];
    }
  }

  lemma {:induction false} ReachKeeps(w: World, steps: seq<Step>, owner: RunId, before: (Sha, Sha) -> bool, end: World)
    requires Ancestry(before) && Inv(w, before) && Reaches(w, steps, owner, before, end)
    ensures Inv(end, before) && before(w.head, end.head)
    decreases steps
  {
    if steps != [] {
      StepKeeps(w, steps[0], owner, before);
      ReachKeeps(After(w, steps[0], owner, before), steps[1..], owner, before, end);
    }
  }

  lemma ReachableIsSound(w: World, owner: RunId, sha: Sha, before: (Sha, Sha) -> bool)
    requires Ancestry(before) && Reachable(w, owner, sha, before)
    ensures Inv(w, before)
  {
    var steps :| Reaches(Fresh(owner, sha), steps, owner, before, w);
    ReachKeeps(Fresh(owner, sha), steps, owner, before, w);
  }

  // ---------- what every history satisfies ----------

  /** A run that was continued once can never be continued again. */
  lemma ChainNeverForks(w: World, owner: RunId, sha: Sha, before: (Sha, Sha) -> bool, run: RunId)
    requires Ancestry(before) && Reachable(w, owner, sha, before) && Enabled(w, ContinueCheckout(run), owner, before)
    ensures w.runs[run].kind.previous !in w.next
    ensures w.head == w.stateSha == w.runs[w.stateRun].sha && w.stateRun == w.runs[run].kind.previous
  {
    ReachableIsSound(w, owner, sha, before);
  }

  /** A command only ever runs on the tree its run recorded. */
  lemma CommandsRunOnTheirTree(w: World, owner: RunId, sha: Sha, before: (Sha, Sha) -> bool)
    requires Ancestry(before) && Reachable(w, owner, sha, before)
    requires w.lease.Some? && (w.lease.value.phase.Started? || w.lease.value.phase.Orphaned?)
    ensures w.lease.value.run in w.runs && w.head == w.runs[w.lease.value.run].sha == w.stateSha && w.stateRun == w.lease.value.run
  {
    ReachableIsSound(w, owner, sha, before);
  }

  /** HEAD, and the revisions commands were started on, only move to descendants. */
  lemma StartedRevisionsAscend(w: World, owner: RunId, sha: Sha, before: (Sha, Sha) -> bool, i: nat, j: nat)
    requires Ancestry(before) && Reachable(w, owner, sha, before) && i <= j < |w.started|
    ensures before(w.started[i], w.started[j]) && before(w.started[j], w.head)
  {
    ReachableIsSound(w, owner, sha, before);
  }

  // ---------- the state file ----------

  /** A continuation recorded its intent and HEAD did not follow. */
  predicate Interrupted(w: World) {
    w.head != w.stateSha
  }

  /** The recorded revision ascends with every step, except that recording a reuse takes it back to HEAD
      exactly when a continuation was interrupted before. */
  lemma RecordedAscendsUnlessInterrupted(w: World, owner: RunId, sha: Sha, before: (Sha, Sha) -> bool, s: Step)
    requires Ancestry(before) && Reachable(w, owner, sha, before) && Enabled(w, s, owner, before)
    ensures before(w.stateSha, After(w, s, owner, before).stateSha) <==> !(s.Record? && Interrupted(w))
  {
    ReachableIsSound(w, owner, sha, before);
    if s.Record? {
      assert After(w, s, owner, before).stateSha == w.head;
    }
  }

  lemma {:induction false} ReachesSnoc(w: World, steps: seq<Step>, owner: RunId, before: (Sha, Sha) -> bool, end: World, s: Step)
    requires Reaches(w, steps, owner, before, end) && Enabled(end, s, owner, before)
    ensures Reaches(w, steps + [s], owner, before, After(end, s, owner, before))
    decreases steps
  {
    if steps == [] {
      assert [s][1..] == [];
    } else {
      assert (steps + [s])[1..] == steps[1..] + [s];
      ReachesSnoc(After(w, steps[0], owner, before), steps[1..], owner, before, end, s);
    }
  }

  lemma ReachNext(w: World, owner: RunId, sha: Sha, before: (Sha, Sha) -> bool, s: Step)
    requires Reachable(w, owner, sha, before) && Enabled(w, s, owner, before)
    ensures Reachable(After(w, s, owner, before), owner, sha, before)
  {
    var steps :| Reaches(Fresh(owner, sha), steps, owner, before, w);
    ReachesSnoc(Fresh(owner, sha), steps, owner, before, w, s);
  }

  /** The owner run completed; a continuation to `later` recorded its intent and crashed. */
  lemma ReachInterrupted(owner: RunId, c: RunId, sha: Sha, later: Sha, before: (Sha, Sha) -> bool) returns (w: World)
    requires c != owner && before(sha, later)
    ensures Reachable(w, owner, sha, before) && w.lease.None? && w.head == sha && w.stateSha == later && w.clean
    ensures w.runs.Keys == {owner, c} && w.runs[owner].status.Completed? && w.runs[owner].sha == sha
  {
    w := Fresh(owner, sha);
    assert Reaches(w, [], owner, before, w);
    ReachNext(w, owner, sha, before, Exit(owner, Completed, false));
    w := After(w, Exit(owner, Completed, false), owner, before);
    ReachNext(w, owner, sha, before, Submit(c, later, Continue(owner)));
    w := After(w, Submit(c, later, Continue(owner)), owner, before);
    ReachNext(w, owner, sha, before, Enter(c));
    w := After(w, Enter(c), owner, before);
    ReachNext(w, owner, sha, before, ContinueCheckout(c));
    w := After(w, ContinueCheckout(c), owner, before);
    ReachNext(w, owner, sha, before, Crash(c));
    w := After(w, Crash(c), owner, before);
  }

  /** So the revisions in the state file need not ascend. */
  lemma RecordedCanGoBack(owner: RunId, c: RunId, r: RunId, sha: Sha, later: Sha, before: (Sha, Sha) -> bool) returns (w: World, s: Step)
    requires Ancestry(before) && owner != c && owner != r && c != r && before(sha, later) && sha != later
    ensures Reachable(w, owner, sha, before) && Enabled(w, s, owner, before)
    ensures w.stateSha == later && After(w, s, owner, before).stateSha == sha && !before(later, sha)
  {
    w := ReachInterrupted(owner, c, sha, later, before);
    ReachNext(w, owner, sha, before, Submit(r, sha, Reuse));
    w := After(w, Submit(r, sha, Reuse), owner, before);
    ReachNext(w, owner, sha, before, Enter(r));
    w := After(w, Enter(r), owner, before);
    ReachNext(w, owner, sha, before, VerifyReused(r));
    w := After(w, VerifyReused(r), owner, before);
    s := Record(r);
  }
}
