/** The checkout part of `worker`: one retained worktree, its state file and its run records, updated in
    place and in the order in which a crash can interrupt them. */
module RetainedCheckout {
  import opened Wrappers
  import opened Continuation

  /** Where the worker dies, if it does. */
  datatype Death = Survives | AfterIntent | AfterMove

  datatype Outcome = Refused | Died | Commanded

  class Checkout {
    const owner: RunId
    var head: Sha
    var clean: bool
    var stateRun: RunId
    var stateSha: Sha
    var runs: map<RunId, Run>
    var lease: Option<Lease>
    ghost var next: map<RunId, RunId>
    ghost var started: seq<Sha>

    ghost function Value(): World
      reads this
    {
      World(head, clean, stateRun, stateSha, runs, lease, next, started)
    }

    constructor (owner: RunId, sha: Sha)
      ensures this.owner == owner && Value() == Fresh(owner, sha)
    {
      this.owner, head, clean, stateRun, stateSha := owner, sha, true, owner, sha;
      runs, lease, next, started := map[owner := Run(sha, Owner, Running, false, true)], Some(Lease(owner, Started)), map[], [sha];
    }

    method CheckContinuation(run: RunId, before: (Sha, Sha) -> bool) returns (ok: bool)
      requires run in runs && runs[run].kind.Continue?
      ensures ok <==> MayContinue(Value(), run, before)
    {
      var id := runs[run].kind.previous;
      if id !in runs {
        return false;
      }
      var previous := runs[id];
      if (!previous.status.Completed? && !previous.status.Failed?) || previous.timedOut || previous.alive {
        return false;
      }
      if stateRun != id || stateSha != previous.sha || head != previous.sha || !clean {
        return false;
      }
      ok := before(previous.sha, runs[run].sha);
    }

    method CheckReuse(run: RunId, before: (Sha, Sha) -> bool) returns (ok: bool)
      requires At(Value(), run, Entered) && runs[run].kind.Reuse?
      ensures ok <==> Enabled(Value(), VerifyReused(run), owner, before)
    {
      ok := owner in runs && runs[owner].status.Completed? && runs[owner].sha == runs[run].sha && head == runs[run].sha && clean;
    }

    /** `continue_checkout`: the intent is saved before HEAD moves. */
    method Continue(run: RunId, before: (Sha, Sha) -> bool, death: Death) returns (outcome: Outcome)
      requires At(Value(), run, Entered) && runs[run].kind.Continue?
      modifies this
      ensures outcome.Refused? <==> !Enabled(old(Value()), ContinueCheckout(run), owner, before)
      ensures outcome.Refused? ==> Value() == old(Value())
      ensures outcome.Died? ==> death.AfterIntent? && Value() == After(old(Value()), ContinueCheckout(run), owner, before)
      ensures outcome.Commanded? ==>
        Value() == After(After(old(Value()), ContinueCheckout(run), owner, before), MoveHead(run), owner, before)
    {
      var ok := CheckContinuation(run, before);
      if !ok {
        return Refused;
      }
      stateRun, stateSha := run, runs[run].sha;
      next := next[runs[run].kind.previous := run];
      lease := Some(Lease(run, Intended));
      if death.AfterIntent? {
        return Died;
      }
      head := runs[run].sha;
      lease := Some(Lease(run, Placed));
      outcome := Commanded;
    }

    /** Reuse or continue the worktree under the lease. */
    method Place(run: RunId, before: (Sha, Sha) -> bool, death: Death) returns (outcome: Outcome, ghost steps: seq<Step>)
      requires At(Value(), run, Entered) && !runs[run].kind.Owner?
      modifies this
      ensures Reaches(old(Value()), steps, owner, before, Value())
      ensures outcome.Commanded? ==> At(Value(), run, Placed)
      ensures outcome.Refused? ==> Value() == old(Value())
      ensures outcome.Died? ==> !At(Value(), run, Started)
      ensures runs == old(runs) && started == old(started)
      ensures outcome.Commanded? ==> head == runs[run].sha
    {
      ghost var w := Value();
      steps := [];
      assert Reaches(w, [], owner, before, w);
      if runs[run].kind.Reuse? {
        var ok := CheckReuse(run, before);
        if !ok {
          return Refused, steps;
        }
        ReachesSnoc(w, [], owner, before, w, VerifyReused(run));
        lease := Some(Lease(run, Placed));
        return Commanded, [] + [VerifyReused(run)];
      }
      outcome := Continue(run, before, death);
      if !outcome.Refused? {
        ReachesSnoc(w, [], owner, before, w, ContinueCheckout(run));
        steps := [] + [ContinueCheckout(run)];
        if outcome.Commanded? {
          ReachesSnoc(w, steps, owner, before, After(w, ContinueCheckout(run), owner, before), MoveHead(run));
          steps := steps + [MoveHead(run)];
        }
      }
    }

    /** From the lease to the start of the command, on whatever path the request asks for: a history of
        steps that the concurrent model allows, and a command only on the requested revision. */
    method Prepare(run: RunId, before: (Sha, Sha) -> bool, death: Death) returns (outcome: Outcome, ghost steps: seq<Step>)
      requires Enabled(Value(), Enter(run), owner, before) && !runs[run].kind.Owner?
      modifies this
      ensures Reaches(old(Value()), steps, owner, before, Value())
      ensures outcome.Commanded? ==> At(Value(), run, Started) && head == stateSha == runs[run].sha && started == old(started) + [head]
      ensures outcome.Refused? ==> head == old(head) && stateSha == old(stateSha) && stateRun == old(stateRun)
      ensures !outcome.Commanded? ==> started == old(started)
    {
      ghost var w := Value();
      lease := Some(Lease(run, Entered));
      outcome, steps := Place(run, before, death);
      steps := [Enter(run)] + steps;
      if outcome.Commanded? {
        if death.AfterMove? {
          return Died, steps;
        }
        ReachesSnoc(w, steps, owner, before, Value(), Record(run));
        steps := steps + [Record(run)];
        Start(run);
      }
    }

    method Start(run: RunId)
      requires At(Value(), run, Placed)
      modifies this
      ensures forall before: (Sha, Sha) -> bool :: Value() == After(old(Value()), Record(run), owner, before)
    {
      stateRun, stateSha := run, runs[run].sha;
      runs := runs[run := runs[run].(status := Running)];
      lease := Some(Lease(run, Started));
      started := started + [runs[run].sha];
    }
  }
}
