/** One reusable Pilot build: owners acquire, start and finish leases on its run row under the build-key
    lock and the store lock, while raw commands keep, release, finish and delete it under the store lock
    alone. Any process may crash between two saves. */
module PilotLeases {
  import opened Wrappers

  datatype Status = Running | Terminal | Retired

  datatype Verdict = Green | Red | ExpectedRed | NotExecuted

  datatype Session = Starting | Ready

  /** Open until its verdicts are recorded. */
  datatype Lease = Lease(owner: string, cases: set<string>, sessions: map<string, Session>, verdicts: Option<map<string, Verdict>>)

  datatype Scenario = Unassessed | Passed | ExpectedFailure | Failed

  /** The persisted run row of a build that can be reused. */
  datatype Row = Row(
    status: Status,
    keep: bool,
    removed: bool,
    evidenceSaved: bool,
    cleanupReady: bool,
    leases: map<string, Lease>,
    scenario: Scenario,
    exitedZero: bool,
    testsBad: bool)

  /** The owner of the build-key lock during `acquire`, with the row it loaded. */
  datatype KeyHolder = Free | Loaded(local: Row) | Checked(local: Row)

  /** What a crash in the middle of a store-lock section would interrupt. */
  datatype Section = Idle | Launching(lease: string, caseName: string) | Settling | Removing

  /** `intact`: the checkout passes `Store.verify`. `deleted`: `apply` removed it. `snapshot` stands for
      the metadata of `target/debug`. */
  datatype World = World(row: Row, intact: bool, deleted: bool, snapshot: nat, key: KeyHolder, section: Section)

  /** A preview token: the hash of the row and the snapshot, taken to be injective. */
  datatype Token = Token(row: Row, snapshot: nat)

  // ---------- what the commands check ----------

  predicate IsOpen(row: Row, lease: string) {
    lease in row.leases && row.leases[lease].verdicts.None?
  }

  predicate AllClosed(row: Row) {
    forall lease :: lease in row.leases ==> row.leases[lease].verdicts.Some?
  }

  /** `verify_managed_pilot_build` reads the stored row again. */
  predicate Reusable(w: World) {
    && w.intact && w.row.status.Terminal? && w.row.exitedZero && w.row.keep && !w.row.removed
    && (w.row.scenario.Unassessed? || w.row.scenario.Passed?)
  }

  predicate Deletable(row: Row) {
    && !row.keep && !row.removed && (row.status.Terminal? || row.status.Retired?)
    && row.cleanupReady && row.evidenceSaved
  }

  predicate MayFinish(row: Row, lease: string, values: map<string, Verdict>) {
    && lease in row.leases
    && values.Keys == row.leases[lease].cases
    && match row.leases[lease].verdicts
       case Some(recorded) => values == recorded
       case None => forall c :: c in values && values[c].Green? ==> c in row.leases[lease].sessions && row.leases[lease].sessions[c].Ready?
  }

  predicate MayPass(row: Row) {
    row.exitedZero && !row.testsBad
  }

  // ---------- what they write ----------

  function WithLease(row: Row, lease: string, value: Lease): Row {
    row.(leases := row.leases[lease := value])
  }

  /** The lease `acquire` uses: the owner's open one, or a fresh one. */
  predicate Acquires(row: Row, lease: string, owner: string, cases: set<string>) {
    if lease in row.leases then IsOpen(row, lease) && row.leases[lease].owner == owner && row.leases[lease].cases == cases
    else forall l :: l in row.leases && IsOpen(row, l) ==> row.leases[l].owner != owner
  }

  function Committed(row: Row, lease: string, owner: string, cases: set<string>): Row {
    var held := if lease in row.leases then row else WithLease(row, lease, Lease(owner, cases, map[], None));
    held.(keep := true, evidenceSaved := false, cleanupReady := false)
  }

  function WithSession(row: Row, lease: string, c: string, s: Session): Row
    requires lease in row.leases
  {
    var l := row.leases[lease];
    WithLease(row, lease, l.(sessions := l.sessions[c := s]))
  }

  function Closed(row: Row, lease: string, values: map<string, Verdict>): Row
    requires lease in row.leases
  {
    WithLease(row, lease, row.leases[lease].(verdicts := Some(values)))
  }

  ghost predicate Outcome(row: Row, v: Verdict) {
    exists lease, c :: lease in row.leases && row.leases[lease].verdicts.Some? && c in row.leases[lease].verdicts.value && row.leases[lease].verdicts.value[c] == v
  }

  ghost function Overall(row: Row): Scenario {
    if Outcome(row, Red) then Failed
    else if Outcome(row, NotExecuted) then Unassessed
    else if Outcome(row, ExpectedRed) then ExpectedFailure
    else Passed
  }

  ghost function Settled(row: Row): Row {
    if AllClosed(row) then row.(scenario := Overall(row), evidenceSaved := true, keep := false, cleanupReady := true) else row
  }

  // ---------- steps ----------

  datatype Step =
    | Load
    | Check
    | Commit(lease: string, owner: string, cases: set<string>)
    | DropKey
    | BeginSession(lease: string, caseName: string)
    | SessionReady
    | Finish(lease: string, values: map<string, Verdict>)
    | Settle
    | Delete(token: Token)
    | SaveRemoved
    | Crash
    | Keep
    | Release
    | RawFinish(verdict: Verdict)
    | Disturb(intact: bool, snapshot: nat)

  /** The key lock is free: nobody acquires, starts or finishes. */
  predicate KeyFree(w: World) {
    w.key.Free? && !w.section.Launching? && !w.section.Settling?
  }

  predicate Enabled(w: World, s: Step) {
    match s
    case Load => KeyFree(w) && !w.row.removed
    case Check => w.key.Loaded? && w.section.Idle? && Reusable(w)
    case Commit(lease, owner, cases) => w.key.Checked? && w.section.Idle? && cases != {} && Acquires(w.key.local, lease, owner, cases)
    case DropKey => !w.key.Free?
    case BeginSession(lease, c) =>
      && KeyFree(w) && w.section.Idle? && IsOpen(w.row, lease) && c in w.row.leases[lease].cases
      && c !in w.row.leases[lease].sessions && Reusable(w)
    case SessionReady => w.section.Launching?
    case Finish(lease, values) => KeyFree(w) && w.section.Idle? && MayFinish(w.row, lease, values)
    case Settle => w.section.Settling?
    case Delete(token) => w.section.Idle? && w.intact && Deletable(w.row) && token == Token(w.row, w.snapshot)
    case SaveRemoved => w.section.Removing?
    case Crash => !w.section.Idle?
    case Keep => w.section.Idle? && !w.row.status.Running?
    case Release => w.section.Idle? && !w.row.status.Running?
    case RawFinish(verdict) => w.section.Idle? && !w.row.status.Running? && !verdict.NotExecuted? && (verdict.Green? ==> MayPass(w.row))
    case Disturb(intact, _) => intact ==> !w.deleted
  }

  function ScenarioOf(v: Verdict): Scenario {
    match v case Green => Passed case Red => Failed case ExpectedRed => ExpectedFailure case NotExecuted => Unassessed
  }

  ghost function After(w: World, s: Step): World
    requires Enabled(w, s)
  {
    match s
    case Load => w.(key := Loaded(w.row))
    case Check => w.(key := Checked(w.key.local))
    case Commit(lease, owner, cases) => w.(row := Committed(w.key.local, lease, owner, cases), key := Free)
    case DropKey => w.(key := Free)
    case BeginSession(lease, c) => w.(row := WithSession(w.row, lease, c, Starting), section := Launching(lease, c))
    case SessionReady =>
      w.(row := if w.section.lease in w.row.leases then WithSession(w.row, w.section.lease, w.section.caseName, Ready) else w.row, section := Idle)
    case Finish(lease, values) => w.(row := Closed(w.row, lease, values), section := Settling)
    case Settle => w.(row := Settled(w.row), section := Idle)
    case Delete(_) => w.(intact := false, deleted := true, section := Removing)
    case SaveRemoved => w.(row := w.row.(removed := true), section := Idle)
    case Crash => w.(section := Idle)
    case Keep => w.(row := w.row.(keep := true))
    case Release => w.(row := w.row.(keep := false))
    case RawFinish(verdict) => w.(row := w.row.(scenario := ScenarioOf(verdict), evidenceSaved := true))
    case Disturb(intact, snapshot) => w.(intact := intact, snapshot := snapshot)
  }

  ghost function Run(w: World, steps: seq<Step>): Option<World>
    decreases steps
  {
    if steps == [] then Some(w)
    else if Enabled(w, steps[0]) then Run(After(w, steps[0]), steps[1..])
    else None
  }

  /** Right after the build: the acquiring process is about to commit its first lease. */
  predicate Built(w: World) {
    && w.row == Row(Terminal, true, false, w.row.evidenceSaved, false, map[], Unassessed, true, w.row.testsBad)
    && w.intact && !w.deleted && w.key == Checked(w.row) && w.section.Idle?
  }

  ghost predicate Reachable(w: World) {
    exists start, steps :: Built(start) && Run(start, steps) == Some(w)
  }

  // ---------- the invariant ----------

  /** Recorded verdicts assess every declared case once; a green case had a session that reached ready. */
  predicate SoundLease(l: Lease) {
    && l.sessions.Keys <= l.cases
    && (l.verdicts.Some? ==>
          && l.verdicts.value.Keys == l.cases
          && forall c :: c in l.verdicts.value && l.verdicts.value[c].Green? ==> c in l.sessions && l.sessions[c].Ready?)
  }

  ghost predicate SoundLeases(row: Row) {
    && (forall lease :: lease in row.leases ==> SoundLease(row.leases[lease]))
    && (forall a, b :: IsOpen(row, a) && IsOpen(row, b) && row.leases[a].owner == row.leases[b].owner ==> a == b)
  }

  ghost predicate Inv(w: World) {
    && SoundLeases(w.row)
    && (w.row.cleanupReady ==> AllClosed(w.row))
    && (!w.key.Free? ==> w.key.local.leases == w.row.leases && !w.key.local.removed && !w.section.Launching? && !w.section.Settling?)
    && (w.section.Launching? ==>
          IsOpen(w.row, w.section.lease) && w.section.caseName in w.row.leases[w.section.lease].sessions)
    && (w.deleted ==> !w.intact)
    && (w.section.Removing? || w.row.removed ==> w.deleted)
  }

  lemma CommitKeeps(w: World, s: Step)
    requires Inv(w) && Enabled(w, s) && s.Commit?
    ensures Inv(After(w, s))
  {
    var v := After(w, s);
    forall a, b | IsOpen(v.row, a) && IsOpen(v.row, b) && v.row.leases[a].owner == v.row.leases[b].owner
      ensures a == b
    {
      assert a != s.lease ==> IsOpen(w.row, a);
      assert b != s.lease ==> IsOpen(w.row, b);
    }
  }

  lemma SessionKeeps(w: World, s: Step)
    requires Inv(w) && Enabled(w, s) && (s.BeginSession? || s.SessionReady?)
    ensures Inv(After(w, s))
  {
    var v := After(w, s);
    forall a | IsOpen(v.row, a)
      ensures IsOpen(w.row, a) && v.row.leases[a].owner == w.row.leases[a].owner
    {
    }
  }

  lemma FinishKeeps(w: World, s: Step)
    requires Inv(w) && Enabled(w, s) && s.Finish?
    ensures Inv(After(w, s))
  {
    var v := After(w, s);
    forall a | IsOpen(v.row, a)
      ensures IsOpen(w.row, a) && v.row.leases[a] == w.row.leases[a]
    {
    }
  }

  lemma StepKeeps(w: World, s: Step)
    requires Inv(w) && Enabled(w, s)
    ensures Inv(After(w, s))
  {
    match s
    case Commit(_, _, _) => CommitKeeps(w, s);
    case BeginSession(_, _) => SessionKeeps(w, s);
    case SessionReady => SessionKeeps(w, s);
    case Finish(_, _) => FinishKeeps(w, s);
    case _ =>
      assert After(w, s).row.leases == w.row.leases;
      assert forall lease :: IsOpen(After(w, s).row, lease) <==> IsOpen(w.row, lease);
  }

  lemma {:induction false} RunKeeps(w: World, steps: seq<Step>)
    requires Inv(w) && Run(w, steps).Some?
    ensures Inv(Run(w, steps).value)
    decreases steps
  {
    if steps != [] {
      StepKeeps(w, steps[0]);
      RunKeeps(After(w, steps[0]), steps[1..]);
    }
  }

  lemma ReachableIsSound(w: World)
    requires Reachable(w)
    ensures Inv(w)
  {
    var start, steps :| Built(start) && Run(start, steps) == Some(w);
    RunKeeps(start, steps);
  }

  // ---------- safety over all runs ----------

  /** A checkout is deleted only when every owner is done, nobody keeps it, its evidence is saved, the
      run is over, and nothing changed since the preview. */
  lemma DeletionIsSafe(w: World, token: Token)
    requires Reachable(w) && Enabled(w, Delete(token))
    ensures forall lease :: lease in w.row.leases ==> w.row.leases[lease].verdicts.Some? && w.row.leases[lease].verdicts.value.Keys == w.row.leases[lease].cases
    ensures !w.row.keep && w.row.evidenceSaved && !w.row.removed && (w.row.status.Terminal? || w.row.status.Retired?)
    ensures token.row == w.row && token.snapshot == w.snapshot
  {
    ReachableIsSound(w);
    assert AllClosed(w.row);
  }

  /** Recorded verdicts are never rewritten, reopened or lost. */
  lemma {:induction false} VerdictsAreFinal(w: World, steps: seq<Step>, lease: string)
    requires Inv(w) && Run(w, steps).Some?
    requires lease in w.row.leases && w.row.leases[lease].verdicts.Some?
    ensures var v := Run(w, steps).value; lease in v.row.leases && v.row.leases[lease] == w.row.leases[lease]
    decreases steps
  {
    if steps != [] {
      StepKeeps(w, steps[0]);
      VerdictFinalStep(w, steps[0], lease);
      VerdictsAreFinal(After(w, steps[0]), steps[1..], lease);
    }
  }

  lemma VerdictFinalStep(w: World, s: Step, lease: string)
    requires Inv(w) && Enabled(w, s) && lease in w.row.leases && w.row.leases[lease].verdicts.Some?
    ensures lease in After(w, s).row.leases && After(w, s).row.leases[lease] == w.row.leases[lease]
  {
    match s
    case Commit(_, _, _) => assert w.key.local.leases == w.row.leases;
    case Finish(id, values) =>
      if id == lease { assert w.row.leases[lease].(verdicts := Some(values)) == w.row.leases[lease]; }
    case BeginSession(_, _) =>
    case SessionReady =>
    case _ => assert After(w, s).row.leases == w.row.leases;
  }

  /** A case is green only if its session was launched under that lease and reached ready. */
  lemma GreenWasReady(w: World, lease: string, c: string)
    requires Reachable(w) && lease in w.row.leases
    requires w.row.leases[lease].verdicts.Some? && c in w.row.leases[lease].verdicts.value && w.row.leases[lease].verdicts.value[c].Green?
    ensures c in w.row.leases[lease].sessions && w.row.leases[lease].sessions[c].Ready?
  {
    ReachableIsSound(w);
    assert SoundLease(w.row.leases[lease]);
  }

  /** When the last lease closes, the run passes exactly if every verdict of every lease is green, and fails
      exactly if one is red. */
  lemma PassesIffAllGreen(w: World)
    requires Reachable(w) && Enabled(w, Settle) && AllClosed(w.row)
    ensures After(w, Settle).row.scenario.Passed? <==>
      forall lease, c :: lease in w.row.leases && c in w.row.leases[lease].verdicts.value ==> w.row.leases[lease].verdicts.value[c].Green?
    ensures After(w, Settle).row.scenario.Failed? <==>
      exists lease, c :: lease in w.row.leases && c in w.row.leases[lease].verdicts.value && w.row.leases[lease].verdicts.value[c].Red?
    ensures After(w, Settle).row.cleanupReady && !After(w, Settle).row.keep && After(w, Settle).row.evidenceSaved
  {
    if After(w, Settle).row.scenario.Passed? {
      forall lease, c | lease in w.row.leases && c in w.row.leases[lease].verdicts.value
        ensures w.row.leases[lease].verdicts.value[c].Green?
      {
        assert Outcome(w.row, w.row.leases[lease].verdicts.value[c]);
      }
    }
  }

  /** An owner never holds two open leases on one build. */
  lemma OneOpenLeaseEach(w: World, a: string, b: string)
    requires Reachable(w) && IsOpen(w.row, a) && IsOpen(w.row, b) && w.row.leases[a].owner == w.row.leases[b].owner
    ensures a == b
  {
    ReachableIsSound(w);
  }

  // ---------- the gap between checking and committing ----------

  /** No deletion falls between the check of an acquisition and its commit. */
  ghost predicate NoDeleteWhileChecked(w: World, steps: seq<Step>)
    decreases steps
  {
    steps != [] && Enabled(w, steps[0]) ==>
      (steps[0].Delete? ==> !w.key.Checked?) && NoDeleteWhileChecked(After(w, steps[0]), steps[1..])
  }

  /** Everybody who may still use the checkout finds it there. */
  ghost predicate OwnersServed(w: World) {
    w.deleted ==> AllClosed(w.row) && !w.key.Checked?
  }

  lemma {:induction false} OwnersServedIfNotRaced(w: World, steps: seq<Step>)
    requires Inv(w) && OwnersServed(w) && Run(w, steps).Some? && NoDeleteWhileChecked(w, steps)
    ensures OwnersServed(Run(w, steps).value)
    ensures w.row.removed ==> Run(w, steps).value.row.removed
    decreases steps
  {
    if steps != [] {
      StepKeeps(w, steps[0]);
      var v := After(w, steps[0]);
      OwnersServedStep(w, steps[0]);
      OwnersServedIfNotRaced(v, steps[1..]);
    }
  }

  lemma OwnersServedStep(w: World, s: Step)
    requires Inv(w) && OwnersServed(w) && Enabled(w, s) && (s.Delete? ==> !w.key.Checked?)
    ensures OwnersServed(After(w, s))
    ensures w.row.removed ==> After(w, s).row.removed
  {
    var v := After(w, s);
    if v.deleted {
      if s.Delete? {
        assert AllClosed(w.row);
      } else {
        assert w.deleted && !w.key.Checked?;
        forall lease | lease in v.row.leases
          ensures v.row.leases[lease].verdicts.Some?
        {
        }
      }
    }
  }

  /** And a deletion that does fall there is not noticed: the commit then leaves an open lease on a
      checkout that is gone, and a row that says it is not removed. */
  lemma RacedCommitForgetsDeletion(w: World, lease: string, owner: string, cases: set<string>)
    requires Inv(w) && w.deleted && Enabled(w, Commit(lease, owner, cases))
    ensures var v := After(w, Commit(lease, owner, cases));
            v.deleted && IsOpen(v.row, lease) && !v.row.removed && !Reusable(v)
  {
  }

  ghost predicate AlwaysServed(w: World, steps: seq<Step>)
    decreases steps
  {
    OwnersServed(w) && (steps != [] && Enabled(w, steps[0]) ==> AlwaysServed(After(w, steps[0]), steps[1..]))
  }

  /** With acquisitions counted as owners from their check on, exactly the deletions in that gap cut a
      checkout from under an owner. */
  lemma {:induction false} ServedUnlessRaced(w: World, steps: seq<Step>)
    requires Inv(w) && OwnersServed(w)
    ensures AlwaysServed(w, steps) <==> NoDeleteWhileChecked(w, steps)
    decreases steps
  {
    if steps != [] && Enabled(w, steps[0]) {
      var s := steps[0];
      StepKeeps(w, s);
      if s.Delete? && w.key.Checked? {
        assert !OwnersServed(After(w, s));
        assert !AlwaysServed(After(w, s), steps[1..]);
      } else {
        OwnersServedStep(w, s);
        ServedUnlessRaced(After(w, s), steps[1..]);
      }
    }
  }

  /** No lease is open on a checkout that was deleted. */
  ghost predicate LeasesServed(w: World) {
    w.deleted ==> AllClosed(w.row)
  }

  ghost predicate LeasesAlwaysServed(w: World, steps: seq<Step>)
    decreases steps
  {
    LeasesServed(w) && (steps != [] && Enabled(w, steps[0]) ==> LeasesAlwaysServed(After(w, steps[0]), steps[1..]))
  }

  /** No acquisition commits after a deletion. */
  ghost predicate NoCommitAfterDelete(w: World, steps: seq<Step>)
    decreases steps
  {
    steps != [] && Enabled(w, steps[0]) ==>
      (steps[0].Commit? ==> !w.deleted) && NoCommitAfterDelete(After(w, steps[0]), steps[1..])
  }

  lemma LeasesServedStep(w: World, s: Step)
    requires Inv(w) && LeasesServed(w) && Enabled(w, s)
    ensures LeasesServed(After(w, s)) <==> !(s.Commit? && w.deleted)
  {
    if s.Commit? && w.deleted {
      RacedCommitForgetsDeletion(w, s.lease, s.owner, s.cases);
    } else if After(w, s).deleted {
      DeletedStaysClosed(w, s);
    }
  }

  lemma DeletedStaysClosed(w: World, s: Step)
    requires Inv(w) && LeasesServed(w) && Enabled(w, s) && After(w, s).deleted && !(s.Commit? && w.deleted)
    ensures AllClosed(After(w, s).row)
  {
    var v := After(w, s);
    forall lease | lease in v.row.leases
      ensures v.row.leases[lease].verdicts.Some?
    {
      assert AllClosed(w.row);
    }
  }

  /** In every run an open lease finds its checkout in every state, if and only if no acquisition commits
      after a deletion. */
  lemma {:induction false} LeasesServedIff(w: World, steps: seq<Step>)
    requires Inv(w) && LeasesServed(w)
    ensures LeasesAlwaysServed(w, steps) <==> NoCommitAfterDelete(w, steps)
    decreases steps
  {
    if steps != [] && Enabled(w, steps[0]) {
      StepKeeps(w, steps[0]);
      LeasesServedStep(w, steps[0]);
      if LeasesServed(After(w, steps[0])) {
        LeasesServedIff(After(w, steps[0]), steps[1..]);
      } else {
        assert !LeasesAlwaysServed(After(w, steps[0]), steps[1..]);
      }
    }
  }

  /** An acquisition that checked a deleted checkout was overtaken: it can commit only if the deletion fell
      after its check. */
  lemma {:induction false} CommitsOnlyIfRaced(w: World, steps: seq<Step>)
    requires Inv(w) && OwnersServed(w) && NoDeleteWhileChecked(w, steps)
    ensures NoCommitAfterDelete(w, steps)
    decreases steps
  {
    if steps != [] && Enabled(w, steps[0]) {
      StepKeeps(w, steps[0]);
      OwnersServedStep(w, steps[0]);
      CommitsOnlyIfRaced(After(w, steps[0]), steps[1..]);
    }
  }

  // ---------- raw verdicts in the gap ----------

  /** One acquisition holds the key lock throughout. */
  predicate Holds(steps: seq<Step>) {
    forall i :: 0 <= i < |steps| ==> !steps[i].Load? && !steps[i].Commit? && !steps[i].DropKey?
  }

  /** The last raw verdict that the steps record. */
  function LastRaw(steps: seq<Step>): Option<Verdict>
    decreases steps
  {
    if steps == [] then None
    else if LastRaw(steps[1..]).Some? then LastRaw(steps[1..])
    else if steps[0].RawFinish? then Some(steps[0].verdict) else None
  }

  lemma {:induction false} HeldRun(w: World, steps: seq<Step>)
    requires Inv(w) && !w.key.Free? && Holds(steps) && Run(w, steps).Some?
    ensures var v := Run(w, steps).value;
            && !v.key.Free? && v.key.local == w.key.local
            && v.row.scenario == match LastRaw(steps) { case Some(verdict) => ScenarioOf(verdict) case None => w.row.scenario }
    decreases steps
  {
    if steps != [] {
      StepKeeps(w, steps[0]);
      assert !steps[0].Load? && !steps[0].Commit? && !steps[0].DropKey?;
      assert forall i :: 0 <= i < |steps[1..]| ==> steps[1..][i] == steps[i + 1];
      HeldRun(After(w, steps[0]), steps[1..]);
    }
  }

  /** From its loading of the row to its commit an acquisition forgets every raw verdict: one recorded in
      between is lost exactly if it differs from the scenario the row was loaded with. */
  lemma RawVerdictLostIff(w: World, steps: seq<Step>, lease: string, owner: string, cases: set<string>)
    requires Inv(w) && Enabled(w, Load) && Holds(steps) && Run(After(w, Load), steps).Some?
    requires Enabled(Run(After(w, Load), steps).value, Commit(lease, owner, cases))
    ensures var before := Run(After(w, Load), steps).value;
            var after := After(before, Commit(lease, owner, cases));
            && after.row.scenario == w.row.scenario
            && (after.row.scenario != before.row.scenario <==> LastRaw(steps).Some? && ScenarioOf(LastRaw(steps).value) != w.row.scenario)
  {
    StepKeeps(w, Load);
    HeldRun(After(w, Load), steps);
  }

  // ---------- the gap can be hit ----------

  lemma {:induction false} RunSnoc(w: World, steps: seq<Step>, s: Step)
    requires Run(w, steps).Some? && Enabled(Run(w, steps).value, s)
    ensures Run(w, steps + [s]) == Some(After(Run(w, steps).value, s))
    decreases steps
  {
    if steps == [] {
      assert [s][1..] == [];
    } else {
      assert (steps + [s])[1..] == steps[1..] + [s];
      RunSnoc(After(w, steps[0]), steps[1..], s);
    }
  }

  lemma ReachNext(w: World, s: Step)
    requires Reachable(w) && Enabled(w, s)
    ensures Reachable(After(w, s))
  {
    var start, steps :| Built(start) && Run(start, steps) == Some(w);
    RunSnoc(start, steps, s);
  }

  /** The build after its first owner finished without executing the only case. */
  function Released(lease: string, testsBad: bool, snapshot: nat): World {
    var done := Lease("first", {"smoke"}, map[], Some(map["smoke" := NotExecuted]));
    World(Row(Terminal, false, false, true, true, map[lease := done], Unassessed, true, testsBad), true, false, snapshot, Free, Idle)
  }

  lemma ReachReleased(start: World, lease: string)
    requires Built(start)
    ensures Reachable(Released(lease, start.row.testsBad, start.snapshot))
  {
    var values := map["smoke" := NotExecuted];
    assert Run(start, []) == Some(start);
    ReachNext(start, Commit(lease, "first", {"smoke"}));
    var w1 := After(start, Commit(lease, "first", {"smoke"}));
    assert w1.row.leases == map[lease := Lease("first", {"smoke"}, map[], None)];
    ReachNext(w1, Finish(lease, values));
    var w2 := After(w1, Finish(lease, values));
    assert w2.row.leases == map[lease := Lease("first", {"smoke"}, map[], Some(values))];
    ReachNext(w2, Settle);
    NotExecutedStays(w2.row, lease, values);
  }

  lemma NotExecutedStays(row: Row, lease: string, values: map<string, Verdict>)
    requires values == map["smoke" := NotExecuted]
    requires row.leases == map[lease := Lease("first", {"smoke"}, map[], Some(values))]
    ensures Settled(row) == row.(scenario := Unassessed, evidenceSaved := true, keep := false, cleanupReady := true)
  {
    assert !Outcome(row, Red);
    assert row.leases[lease].verdicts.value["smoke"] == NotExecuted;
  }

  lemma ReachChecked(w: World)
    requires Reachable(w) && w.section.Idle? && w.key.Free? && w.intact && !w.row.removed
    requires w.row.status.Terminal? && w.row.exitedZero && w.row.scenario.Unassessed?
    ensures Reachable(w.(row := w.row.(keep := true), key := Checked(w.row.(keep := true))))
  {
    ReachNext(w, Keep);
    var w1 := After(w, Keep);
    ReachNext(w1, Load);
    ReachNext(After(w1, Load), Check);
  }

  lemma ReachRaced(w: World, b: string)
    requires Reachable(w) && w.section.Idle? && w.key == Checked(w.row) && w.intact && !w.row.removed
    requires w.row.status.Terminal? && w.row.cleanupReady && w.row.evidenceSaved && AllClosed(w.row) && b !in w.row.leases
    ensures exists v :: Reachable(v) && v.deleted && IsOpen(v.row, b) && !v.row.removed
  {
    ReachNext(w, Release);
    var w1 := After(w, Release);
    var token := Token(w1.row, w1.snapshot);
    ReachNext(w1, Delete(token));
    var w2 := After(w1, Delete(token));
    ReachNext(w2, SaveRemoved);
    var w3 := After(w2, SaveRemoved);
    ReachNext(w3, Commit(b, "second", {"smoke"}));
    ReachableIsSound(w3);
    RacedCommitForgetsDeletion(w3, b, "second", {"smoke"});
  }

  /** A second owner's acquisition overlaps a raw release, preview and apply, and ends with an open lease
      on a checkout that is gone. */
  lemma DeletionCanRace(start: World, a: string, b: string)
    requires Built(start) && a != b
    ensures exists w :: Reachable(w) && w.deleted && IsOpen(w.row, b) && !w.row.removed
  {
    ReachReleased(start, a);
    var w := Released(a, start.row.testsBad, start.snapshot);
    ReachChecked(w);
    ReachRaced(w.(row := w.row.(keep := true), key := Checked(w.row.(keep := true))), b);
  }

  /** A red verdict recorded while a second owner acquires is overwritten. */
  lemma RawVerdictCanBeLost(start: World, a: string, b: string)
    requires Built(start) && a != b
    ensures exists w :: Reachable(w) && w.row.scenario.Failed? && Enabled(w, Commit(b, "second", {"smoke"}))
              && After(w, Commit(b, "second", {"smoke"})).row.scenario.Unassessed?
  {
    ReachReleased(start, a);
    var w := Released(a, start.row.testsBad, start.snapshot);
    ReachChecked(w);
    var w1 := w.(row := w.row.(keep := true), key := Checked(w.row.(keep := true)));
    ReachNext(w1, RawFinish(Red));
    var w2 := After(w1, RawFinish(Red));
    assert Reachable(w2) && w2.row.scenario.Failed?;
    assert Enabled(w2, Commit(b, "second", {"smoke"}));
  }
}
