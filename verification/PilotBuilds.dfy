/** The commands on one build, updating its stored run row in place. Each is given the world it runs in as a
    ghost argument and takes exactly the steps of the state machine that its outcome stands for. */
module PilotBuilds {
  import opened Wrappers
  import opened PilotLeases

  /** `CASE=verdict` arguments with the case split off. */
  datatype Assessment = Assessment(caseName: string, verdict: Verdict)

  predicate Distinct(given: seq<Assessment>) {
    forall i, j :: 0 <= i < j < |given| ==> given[i].caseName != given[j].caseName
  }

  function Values(given: seq<Assessment>): (m: map<string, Verdict>)
    ensures forall c :: c in m <==> exists i :: 0 <= i < |given| && given[i].caseName == c
  {
    if given == [] then map[] else Values(given[..|given| - 1])[given[|given| - 1].caseName := given[|given| - 1].verdict]
  }

  lemma {:induction false} ValuesHoldEach(given: seq<Assessment>, i: nat)
    requires Distinct(given) && i < |given|
    ensures given[i].caseName in Values(given) && Values(given)[given[i].caseName] == given[i].verdict
  {
    if i < |given| - 1 {
      ValuesHoldEach(given[..|given| - 1], i);
    }
  }

  /** Refuses a case that is assessed twice. */
  method Parse(given: seq<Assessment>) returns (values: Option<map<string, Verdict>>)
    ensures values == if Distinct(given) then Some(Values(given)) else None
  {
    var m: map<string, Verdict> := map[];
    var i := 0;
    while i < |given|
      invariant i <= |given|
      invariant Distinct(given[..i]) && m == Values(given[..i])
    {
      if given[i].caseName in m {
        var j :| 0 <= j < i && given[..i][j].caseName == given[i].caseName;
        assert given[j].caseName == given[i].caseName;
        return None;
      }
      assert given[..i + 1][..i] == given[..i];
      m := m[given[i].caseName := given[i].verdict];
      i := i + 1;
    }
    assert given[..i] == given;
    values := Some(m);
  }

  method GreenWereReady(held: Lease, values: map<string, Verdict>) returns (ok: bool)
    ensures ok <==> forall c :: c in values && values[c].Green? ==> c in held.sessions && held.sessions[c].Ready?
  {
    var todo := values.Keys;
    while todo != {}
      invariant todo <= values.Keys
      invariant forall c :: c in values && c !in todo && values[c].Green? ==> c in held.sessions && held.sessions[c].Ready?
      decreases |todo|
    {
      var c :| c in todo;
      if values[c].Green? && (c !in held.sessions || !held.sessions[c].Ready?) {
        return false;
      }
      todo := todo - {c};
    }
    ok := true;
  }

  /** The steps are possible, one after the other, and leave this row stored. */
  ghost predicate Follows(w: World, steps: seq<Step>, row: Row) {
    Run(w, steps).Some? && Run(w, steps).value.row == row
  }

  lemma OneStep(w: World, s: Step)
    requires Enabled(w, s)
    ensures Run(w, [s]) == Some(After(w, s)) && Run(w, []) == Some(w)
  {
    assert [s][1..] == [];
  }

  lemma TwoSteps(w: World, s: Step, t: Step)
    requires Enabled(w, s) && Enabled(After(w, s), t)
    ensures Run(w, [s, t]) == Some(After(After(w, s), t))
  {
    OneStep(After(w, s), t);
    assert [s, t][1..] == [t];
  }

  class Build {
    var row: Row

    /** The commit section of `acquire`: reuse the owner's open lease or add a fresh one, then store the
        row that was loaded before. */
    method Commit(ghost w: World, local: Row, token: string, owner: string, cases: set<string>) returns (lease: Option<string>)
      requires w.row == row && w.key == Checked(local) && w.section.Idle? && Inv(w)
      requires token !in local.leases && cases != {}
      modifies this
      ensures lease.Some? ==> Follows(w, [Step.Commit(lease.value, owner, cases)], row)
      ensures lease.Some? ==> row == Committed(local, lease.value, owner, cases)
      ensures lease.None? ==> row == old(row) && forall l :: !Enabled(w, Step.Commit(l, owner, cases))
    {
      var todo := local.leases.Keys;
      var found: Option<string> := None;
      while todo != {} && found.None?
        invariant todo <= local.leases.Keys
        invariant found.None? ==> forall l :: IsOpen(local, l) && l !in todo ==> local.leases[l].owner != owner
        invariant found.Some? ==> IsOpen(local, found.value) && local.leases[found.value].owner == owner
        decreases |todo|
      {
        var l :| l in todo;
        todo := todo - {l};
        if local.leases[l].owner == owner && local.leases[l].verdicts.None? {
          found := Some(l);
        }
      }
      if found.Some? && local.leases[found.value].cases != cases {
        assert IsOpen(local, found.value);
        return None;
      }
      var next := local;
      if found.None? {
        found := Some(token);
        next := next.(leases := next.leases[token := Lease(owner, cases, map[], None)]);
      }
      row := next.(keep := true, evidenceSaved := false, cleanupReady := false);
      lease := found;
      OneStep(w, Step.Commit(found.value, owner, cases));
    }

    /** `start`: the session is recorded before it is launched, so that a crash leaves it unknown.
        `verified` and `launches` are the outcomes of verifying the build and of launching. */
    method Start(ghost w: World, lease: string, caseName: string, verified: bool, launches: bool) returns (ready: bool)
      requires w.row == row && KeyFree(w) && w.section.Idle? && (verified ==> Reusable(w))
      modifies this
      ensures var admitted := IsOpen(old(row), lease) && caseName in old(row).leases[lease].cases && verified && caseName !in old(row).leases[lease].sessions;
              && (ready <==> admitted && launches)
              && Follows(w, if admitted then [BeginSession(lease, caseName), if launches then SessionReady else Crash] else [], row)
              && row == (if !admitted then old(row) else WithSession(old(row), lease, caseName, if launches then Ready else Starting))
    {
      if lease !in row.leases || row.leases[lease].verdicts.Some? || caseName !in row.leases[lease].cases {
        return false;
      }
      if !verified || caseName in row.leases[lease].sessions {
        return false;
      }
      ghost var before := row;
      var held := row.leases[lease];
      row := WithSession(row, lease, caseName, Starting);
      if launches {
        var begun := row.leases[lease];
        row := row.(leases := row.leases[lease := begun.(sessions := begun.sessions[caseName := Ready])]);
        assert begun.sessions[caseName := Ready] == held.sessions[caseName := Ready];
        assert row.leases == WithSession(before, lease, caseName, Ready).leases;
      }
      ready := launches;
      TwoSteps(w, BeginSession(lease, caseName), if launches then SessionReady else Crash);
    }

    /** The raw `keep`, `release` and `finish` commands. */
    method Keep(ghost w: World, keep: bool) returns (ok: bool)
      requires w.row == row && w.section.Idle?
      modifies this
      ensures var step := if keep then Step.Keep else Release;
              (ok <==> Enabled(w, step)) && Follows(w, if ok then [step] else [], row)
    {
      ok := !row.status.Running?;
      if ok { OneStep(w, if keep then Step.Keep else Release); }
      if ok {
        row := row.(keep := keep);
      }
    }

    method RawFinish(ghost w: World, verdict: Verdict) returns (ok: bool)
      requires w.row == row && w.section.Idle? && !verdict.NotExecuted?
      modifies this
      ensures ok <==> Enabled(w, Step.RawFinish(verdict))
      ensures Follows(w, if ok then [Step.RawFinish(verdict)] else [], row)
    {
      if row.status.Running? || (verdict.Green? && !MayPass(row)) {
        return false;
      }
      row := row.(scenario := ScenarioOf(verdict), evidenceSaved := true);
      ok := true;
      OneStep(w, Step.RawFinish(verdict));
    }

    /** `apply`: the row is loaded again under the lock and compared with the token. `intact` and `snapshot`
        are what verifying the checkout and walking its debug directory find; `deletes` is whether the removal
        comes back without an error. */
    method Apply(ghost w: World, token: Token, intact: bool, snapshot: nat, deletes: bool) returns (removed: bool)
      requires w.row == row && w.section.Idle? && intact == w.intact && snapshot == w.snapshot
      modifies this
      ensures removed <==> Enabled(w, Delete(token)) && deletes
      ensures Follows(w, if Enabled(w, Delete(token)) then [Delete(token), if deletes then SaveRemoved else Crash] else [], row)
    {
      if row.keep || row.removed || row.status.Running? || !row.cleanupReady || !row.evidenceSaved {
        return false;
      }
      if !intact || token != Token(row, snapshot) {
        return false;
      }
      TwoSteps(w, Delete(token), if deletes then SaveRemoved else Crash);
      if deletes {
        row := row.(removed := true);
      }
      removed := deletes;
    }

    /** The first half of `finish`: check the assessments against the lease and record them. */
    method Finish(ghost w: World, lease: string, given: seq<Assessment>, evidenceSaved: bool) returns (ok: bool)
      requires w.row == row && KeyFree(w) && w.section.Idle?
      modifies this
      ensures ok <==> evidenceSaved && Distinct(given) && Enabled(w, Step.Finish(lease, Values(given)))
      ensures Follows(w, if ok then [Step.Finish(lease, Values(given))] else [], row)
      ensures ok ==> row == Closed(old(row), lease, Values(given))
    {
      var values := Parse(given);
      if values.None? || !evidenceSaved || lease !in row.leases || values.value.Keys != row.leases[lease].cases {
        return false;
      }
      ok := Record(lease, values.value);
      if ok { OneStep(w, Step.Finish(lease, values.value)); }
    }

    /** Recorded verdicts are compared, an open lease is closed with the new ones. */
    method Record(lease: string, values: map<string, Verdict>) returns (ok: bool)
      requires lease in row.leases && values.Keys == row.leases[lease].cases
      modifies this
      ensures ok <==> MayFinish(old(row), lease, values)
      ensures row == if ok then Closed(old(row), lease, values) else old(row)
    {
      var held := row.leases[lease];
      if held.verdicts.Some? {
        ok := values == held.verdicts.value;
        assert ok ==> held.(verdicts := Some(values)) == held && row.(leases := row.leases[lease := held]) == row;
      } else {
        ok := GreenWereReady(held, values);
        if ok {
          row := row.(leases := row.leases[lease := held.(verdicts := Some(values))]);
        }
      }
    }

    /** The second half: while a lease is open nothing changes; afterwards the worst verdict decides. */
    method Settle(ghost w: World)
      requires w.row == row && w.section.Settling?
      modifies this
      ensures Follows(w, [Step.Settle], row)
      ensures row == Settled(old(row))
    {
      OneStep(w, Step.Settle);
      var todo := row.leases.Keys;
      var outcomes: set<Verdict> := {};
      while todo != {}
        invariant todo <= row.leases.Keys && row == old(row)
        invariant forall l :: l in row.leases && l !in todo ==> row.leases[l].verdicts.Some?
        invariant forall v :: v in outcomes <==>
          exists l, c :: l in row.leases && l !in todo && c in row.leases[l].verdicts.value && row.leases[l].verdicts.value[c] == v
        decreases |todo|
      {
        var l :| l in todo;
        if row.leases[l].verdicts.None? {
          return;
        }
        outcomes := outcomes + row.leases[l].verdicts.value.Values;
        todo := todo - {l};
      }
      forall v
        ensures v in outcomes <==> Outcome(row, v)
      {
      }
      var scenario :=
        if Red in outcomes then Failed
        else if NotExecuted in outcomes then Unassessed
        else if ExpectedRed in outcomes then ExpectedFailure
        else Passed;
      row := row.(scenario := scenario, evidenceSaved := true, keep := false, cleanupReady := true);
    }
  }
}
