/** `replace_components`: a log of applied replacements, undone last in first out when a step fails,
    against an adversary that may fail any step. */
module ReplaceComponents {
  import opened Wrappers

  /** A whole file, link or directory tree. */
  type Content = string

  /** `Backup(i)` is the leaf `previous` in the fresh directory made for component `i`. */
  datatype Path = Named(name: string) | Backup(i: nat)

  type Files = map<Path, Content>

  datatype Component = Component(staged: Option<Path>, destination: Path)

  datatype Applied = Applied(destination: Path, backup: Option<Path>)

  /** Where the adversary strikes a component. `Interrupted` is an exception delivered after the prior
      value was moved away and before that was logged, `LateInterrupt` one after the component is in place. */
  datatype Fault = NoFault | PrepareFails | BackupFails | Interrupted | StageFails | LateInterrupt

  /** Where it strikes an undo; a failed removal may leave anything at the destination, and `LateFailure` is
      an exception after the value was given back. */
  datatype UndoFault = NoUndoFault | RemoveFails(left: Option<Content>) | RestoreFails | LateFailure

  /** `Escaped`: an exception between two undo steps ended the roll-back before it was known to be incomplete. */
  datatype Outcome = Replaced | RolledBack | Incomplete | Escaped

  /** How far one component got: nothing moved, moved but not logged, logged, or replaced. */
  datatype Reach = Untouched | Stray | Logged(a: Applied) | Done(a: Applied)

  function Cell(files: Files, p: Path): Option<Content> {
    if p in files then Some(files[p]) else None
  }

  /** What the last component for `p` puts there; the value `p` had when no component names it. */
  function LastStaged(base: Files, components: seq<Component>, p: Path): Option<Content> {
    if components == [] then Cell(base, p)
    else
      var last := components[|components| - 1];
      if last.destination != p then LastStaged(base, components[..|components| - 1], p)
      else if last.staged.Some? then Cell(base, last.staged.value)
      else None
  }

  predicate IsStaged(components: seq<Component>, p: Path) {
    exists k :: 0 <= k < |components| && components[k].staged == Some(p)
  }

  /** Staged values live in private paths, never at a path being replaced or in a backup. */
  predicate StagedApart(components: seq<Component>) {
    && (forall k :: 0 <= k < |components| ==> components[k].destination.Named? && !IsStaged(components, components[k].destination))
    && (forall k :: 0 <= k < |components| && components[k].staged.Some? ==> components[k].staged.value.Named?)
  }

  // ---------- the effect of one step ----------

  /** What `os.replace` and the log do to the files, up to the point the component reached. */
  ghost predicate Stepped(before: Files, after: Files, i: nat, c: Component, reach: Reach) {
    var d := c.destination;
    && (reach.Untouched? ==> after == before)
    && (forall p: Path | p != d && p != Backup(i) && Some(p) != c.staged :: Cell(after, p) == Cell(before, p))
    && (c.staged.Some? ==> Cell(after, c.staged.value) in {None, Cell(before, c.staged.value)})
    && (reach.Stray? ==> d in before && d !in after && Cell(after, Backup(i)) == Cell(before, d))
    && (reach.Logged? || reach.Done? ==>
          && reach.a == Applied(d, if d in before then Some(Backup(i)) else None)
          && (d in before ==> Cell(after, Backup(i)) == Cell(before, d)))
    && (reach.Done? ==> Cell(after, d) == if c.staged.Some? then Cell(before, c.staged.value) else None)
    && (reach.Done? && c.staged.Some? ==> c.staged.value !in after)
  }

  /** What undoing one log entry does. */
  ghost predicate Undone(before: Files, after: Files, a: Applied, ok: bool) {
    && (forall p: Path | p != a.destination && Some(p) != a.backup :: Cell(after, p) == Cell(before, p))
    && (ok ==> Cell(after, a.destination) == if a.backup.Some? then Cell(before, a.backup.value) else None)
    && (!ok && a.backup.Some? ==> Cell(before, a.backup.value) in {Cell(after, a.backup.value), Cell(after, a.destination)})
  }

  // ---------- what the log guarantees ----------

  predicate LogOf(components: seq<Component>, applied: seq<Applied>) {
    && |applied| <= |components|
    && forall k {:trigger applied[k]} :: 0 <= k < |applied| ==>
         applied[k].destination == components[k].destination && applied[k].backup in {None, Some(Backup(k))}
  }

  /** The first logged replacement of its destination: the one that saved the original value. */
  predicate IsFirst(applied: seq<Applied>, k: nat) {
    k < |applied| && forall m :: 0 <= m < k ==> applied[m].destination != applied[k].destination
  }

  predicate InLog(applied: seq<Applied>, p: Path) {
    exists k :: 0 <= k < |applied| && applied[k].destination == p
  }

  ghost predicate Saved(base: Files, files: Files, a: Applied) {
    && (a.backup.Some? <==> a.destination in base)
    && (a.backup.Some? ==> Cell(files, a.backup.value) == Cell(base, a.destination))
  }

  /** The originals of the first `n` log entries sit in their backups. */
  ghost predicate AllSaved(base: Files, files: Files, applied: seq<Applied>, n: nat) {
    forall k: nat {:trigger IsFirst(applied, k)} | k < n && IsFirst(applied, k) :: Saved(base, files, applied[k])
  }

  /** Log entries from `n` on are undone, and their destinations are as before. */
  ghost predicate Restored(base: Files, files: Files, applied: seq<Applied>, n: nat) {
    forall k: nat {:trigger IsFirst(applied, k)} | n <= k && IsFirst(applied, k) :: Cell(files, applied[k].destination) == Cell(base, applied[k].destination)
  }

  ghost predicate Findable(base: Files, files: Files, p: Path, k: nat) {
    p in base ==> Cell(base, p) in {Cell(files, p), Cell(files, Backup(k))}
  }

  /** Log entries from `n` on were visited; their originals are at the destination or in the backup. */
  ghost predicate Recoverable(base: Files, files: Files, applied: seq<Applied>, n: nat) {
    forall k: nat {:trigger IsFirst(applied, k)} | n <= k && IsFirst(applied, k) :: Findable(base, files, applied[k].destination, k)
  }

  /** `i` is a component whose destination was moved away but never logged. */
  ghost predicate IsStray(components: seq<Component>, stray: Option<nat>, p: Path) {
    stray.Some? && stray.value < |components| && components[stray.value].destination == p
  }

  ghost predicate LeftBehind(base: Files, files: Files, i: nat, p: Path) {
    p in base && p !in files && Cell(files, Backup(i)) == Cell(base, p)
  }

  /** Names outside the log and the staging area are as before; a stray's original is in its backup. */
  ghost predicate OthersKept(base: Files, files: Files, components: seq<Component>, applied: seq<Applied>, stray: Option<nat>) {
    forall p: Path {:trigger Cell(files, p)} | p.Named? && !InLog(applied, p) && !IsStaged(components, p) ::
      if IsStray(components, stray, p) then LeftBehind(base, files, stray.value, p) else Cell(files, p) == Cell(base, p)
  }

  ghost predicate StagedKept(base: Files, files: Files, components: seq<Component>) {
    forall p {:trigger Cell(files, p)} | IsStaged(components, p) :: Cell(files, p) in {None, Cell(base, p)}
  }

  ghost predicate Progress(base: Files, files: Files, components: seq<Component>, applied: seq<Applied>, stray: Option<nat>) {
    && LogOf(components, applied) && AllSaved(base, files, applied, |applied|)
    && StagedKept(base, files, components) && OthersKept(base, files, components, applied, stray)
    && (stray.Some? ==> stray.value == |applied| < |components|)
  }

  ghost predicate AllStaged(base: Files, files: Files, components: seq<Component>, i: nat)
    requires i <= |components|
  {
    forall p: Path {:trigger Cell(files, p)} | p.Named? && !IsStaged(components, p) :: Cell(files, p) == LastStaged(base, components[..i], p)
  }

  // ---------- forward ----------

  lemma LogSaves(base: Files, before: Files, after: Files, components: seq<Component>, applied: seq<Applied>, reach: Reach, k: nat)
    requires StagedApart(components) && Progress(base, before, components, applied, None) && |applied| < |components|
    requires Stepped(before, after, |applied|, components[|applied|], reach) && (reach.Logged? || reach.Done?)
    requires IsFirst(applied + [reach.a], k)
    ensures Saved(base, after, (applied + [reach.a])[k])
  {
    var i := |applied|;
    var more := applied + [reach.a];
    var d := components[i].destination;
    forall m | 0 <= m < k
      ensures applied[m].destination != more[k].destination
    {
      assert more[m] == applied[m];
    }
    if k < i {
      assert IsFirst(applied, k);
      assert Saved(base, before, applied[k]);
    } else {
      assert !InLog(applied, d);
      assert Cell(before, d) == Cell(base, d);
    }
  }

  lemma LogKeepsOthers(base: Files, before: Files, after: Files, components: seq<Component>, applied: seq<Applied>, reach: Reach, p: Path)
    requires StagedApart(components) && Progress(base, before, components, applied, None) && |applied| < |components|
    requires Stepped(before, after, |applied|, components[|applied|], reach) && (reach.Logged? || reach.Done?)
    requires p.Named? && !InLog(applied + [reach.a], p) && !IsStaged(components, p)
    ensures Cell(after, p) == Cell(base, p)
  {
    var i := |applied|;
    var more := applied + [reach.a];
    assert more[i].destination == components[i].destination;
    forall k | 0 <= k < i
      ensures applied[k].destination != p
    {
      assert more[k] == applied[k];
    }
    assert !InLog(applied, p);
    assert Some(p) != components[i].staged;
  }

  lemma LogSavesAll(base: Files, before: Files, after: Files, components: seq<Component>, applied: seq<Applied>, reach: Reach)
    requires StagedApart(components) && Progress(base, before, components, applied, None) && |applied| < |components|
    requires Stepped(before, after, |applied|, components[|applied|], reach) && (reach.Logged? || reach.Done?)
    ensures AllSaved(base, after, applied + [reach.a], |applied| + 1)
  {
    var more := applied + [reach.a];
    forall k: nat | k < |more| && IsFirst(more, k)
      ensures Saved(base, after, more[k])
    {
      LogSaves(base, before, after, components, applied, reach, k);
    }
  }

  lemma LogKeepsAll(base: Files, before: Files, after: Files, components: seq<Component>, applied: seq<Applied>, reach: Reach)
    requires StagedApart(components) && Progress(base, before, components, applied, None) && |applied| < |components|
    requires Stepped(before, after, |applied|, components[|applied|], reach) && (reach.Logged? || reach.Done?)
    ensures OthersKept(base, after, components, applied + [reach.a], None)
  {
    var more := applied + [reach.a];
    forall p: Path | p.Named? && !InLog(more, p) && !IsStaged(components, p)
      ensures Cell(after, p) == Cell(base, p)
    {
      LogKeepsOthers(base, before, after, components, applied, reach, p);
    }
  }

  lemma LogExtends(base: Files, before: Files, after: Files, components: seq<Component>, applied: seq<Applied>, reach: Reach)
    requires StagedApart(components) && Progress(base, before, components, applied, None) && |applied| < |components|
    requires Stepped(before, after, |applied|, components[|applied|], reach) && (reach.Logged? || reach.Done?)
    ensures Progress(base, after, components, applied + [reach.a], None)
  {
    LogSavesAll(base, before, after, components, applied, reach);
    LogKeepsAll(base, before, after, components, applied, reach);
    StagedSurvives(base, before, after, components, |applied|, reach);
  }

  lemma StagedSurvives(base: Files, before: Files, after: Files, components: seq<Component>, i: nat, reach: Reach)
    requires StagedApart(components) && StagedKept(base, before, components) && i < |components|
    requires Stepped(before, after, i, components[i], reach)
    ensures StagedKept(base, after, components)
  {
    forall p | IsStaged(components, p)
      ensures Cell(after, p) in {None, Cell(base, p)}
    {
      var k :| 0 <= k < |components| && components[k].staged == Some(p);
      assert p.Named? && p != components[i].destination;
      assert Cell(before, p) in {None, Cell(base, p)};
    }
  }

  lemma StrayProgress(base: Files, before: Files, after: Files, components: seq<Component>, applied: seq<Applied>)
    requires StagedApart(components) && Progress(base, before, components, applied, None) && |applied| < |components|
    requires Stepped(before, after, |applied|, components[|applied|], Stray)
    ensures Progress(base, after, components, applied, Some(|applied|))
  {
    var i := |applied|;
    StagedSurvives(base, before, after, components, i, Stray);
    forall p: Path | p.Named? && !InLog(applied, p) && !IsStaged(components, p)
      ensures if IsStray(components, Some(i), p) then LeftBehind(base, after, i, p) else Cell(after, p) == Cell(base, p)
    {
      assert Cell(before, p) == Cell(base, p);
      assert Some(p) != components[i].staged;
    }
    assert AllSaved(base, after, applied, |applied|);
  }

  lemma StagedNext(base: Files, before: Files, after: Files, components: seq<Component>, i: nat, reach: Reach)
    requires StagedApart(components) && StagedKept(base, before, components) && i < |components|
    requires AllStaged(base, before, components, i)
    requires Stepped(before, after, i, components[i], reach) && reach.Done?
    requires components[i].staged.Some? ==> components[i].staged.value in before
    ensures AllStaged(base, after, components, i + 1)
  {
    var c := components[i];
    assert components[..i + 1][..i] == components[..i];
    forall p: Path | p.Named? && !IsStaged(components, p)
      ensures Cell(after, p) == LastStaged(base, components[..i + 1], p)
    {
      if p == c.destination {
        if c.staged.Some? {
          assert IsStaged(components, c.staged.value);
          assert Cell(before, c.staged.value) == Cell(base, c.staged.value);
        }
      } else {
        assert Some(p) != c.staged;
        assert Cell(before, p) == LastStaged(base, components[..i], p);
      }
    }
  }

  // ---------- layers ----------

  ghost predicate Layer(base: Files, files: Files, components: seq<Component>, a: Applied, k: nat)
    requires k < |components|
  {
    var prior := LastStaged(base, components[..k], components[k].destination);
    (a.backup.Some? <==> prior.Some?) && (prior.Some? ==> Cell(files, Backup(k)) == prior)
  }

  /** The backup of each of the first `n` log entries holds what was there just before its component. */
  ghost predicate Layered(base: Files, files: Files, components: seq<Component>, applied: seq<Applied>, n: nat)
    requires n <= |applied| <= |components|
  {
    forall k: nat | k < n :: Layer(base, files, components, applied[k], k)
  }

  /** The destination of the struck component, until an undo step visits it. */
  predicate Unsettled(components: seq<Component>, logged: nat, struck: nat, j: nat, p: Path) {
    && struck < |components| && components[struck].destination == p
    && forall m: nat | j <= m < logged && m < |components| :: components[m].destination != p
  }

  /** The destinations look as if only the first `j` components had been replaced. */
  ghost predicate LooksLike(base: Files, files: Files, components: seq<Component>, logged: nat, struck: nat, j: nat)
    requires j <= |components|
  {
    forall p: Path {:trigger Cell(files, p)} | p.Named? && !IsStaged(components, p) && !Unsettled(components, logged, struck, j, p) ::
      Cell(files, p) == LastStaged(base, components[..j], p)
  }

  lemma LayeredNext(base: Files, before: Files, after: Files, components: seq<Component>, applied: seq<Applied>, reach: Reach)
    requires StagedApart(components) && LogOf(components, applied) && |applied| < |components|
    requires AllStaged(base, before, components, |applied|) && Layered(base, before, components, applied, |applied|)
    requires Stepped(before, after, |applied|, components[|applied|], reach)
    ensures Layered(base, after, components, applied, |applied|)
    ensures reach.Logged? || reach.Done? ==> Layered(base, after, components, applied + [reach.a], |applied| + 1)
  {
    var i := |applied|;
    forall k: nat | k < i
      ensures Layer(base, after, components, applied[k], k)
    {
      assert Layer(base, before, components, applied[k], k) && Some(Backup(k)) != components[i].staged;
    }
    assert Cell(before, components[i].destination) == LastStaged(base, components[..i], components[i].destination);
    if reach.Logged? || reach.Done? { assert Layer(base, after, components, reach.a, i); }
  }

  lemma LastStagedNext(base: Files, components: seq<Component>, j: nat, p: Path)
    requires j < |components| && components[j].destination != p
    ensures LastStaged(base, components[..j + 1], p) == LastStaged(base, components[..j], p)
  {
    assert components[..j + 1][..j] == components[..j];
  }

  /** A component that was not put in place disturbs no destination but its own. */
  lemma StruckLooksLike(base: Files, before: Files, after: Files, components: seq<Component>, i: nat, reach: Reach, logged: nat)
    requires StagedApart(components) && i < |components| && AllStaged(base, before, components, i)
    requires Stepped(before, after, i, components[i], reach) && logged == i + if reach.Logged? then 1 else 0
    ensures LooksLike(base, after, components, logged, i, logged)
  {
    forall p: Path | p.Named? && !IsStaged(components, p) && !Unsettled(components, logged, i, logged, p)
      ensures Cell(after, p) == LastStaged(base, components[..logged], p)
    {
      assert p != components[i].destination && Some(p) != components[i].staged;
      assert Cell(before, p) == LastStaged(base, components[..i], p);
      LastStagedNext(base, components, i, p);
    }
  }

  /** Undoing the newest remaining entry takes one layer off. */
  lemma UndoPeels(base: Files, before: Files, after: Files, components: seq<Component>, applied: seq<Applied>, struck: nat, j: nat, ok: bool)
    requires StagedApart(components) && LogOf(components, applied) && j < |applied|
    requires Layered(base, before, components, applied, j + 1) && Undone(before, after, applied[j], ok)
    ensures Layered(base, after, components, applied, j)
    ensures ok && LooksLike(base, before, components, |applied|, struck, j + 1) ==> LooksLike(base, after, components, |applied|, struck, j)
  {
    assert applied[j].backup in {None, Some(Backup(j))} && applied[j].destination == components[j].destination;
    forall k: nat | k < j
      ensures Layer(base, after, components, applied[k], k)
    {
      assert Layer(base, before, components, applied[k], k);
    }
    if ok && LooksLike(base, before, components, |applied|, struck, j + 1) {
      forall p: Path | p.Named? && !IsStaged(components, p) && !Unsettled(components, |applied|, struck, j, p)
        ensures Cell(after, p) == LastStaged(base, components[..j], p)
      {
        assert Layer(base, before, components, applied[j], j);
        if p != components[j].destination {
          assert !Unsettled(components, |applied|, struck, j + 1, p);
          LastStagedNext(base, components, j, p);
          assert Cell(before, p) == LastStaged(base, components[..j + 1], p);
        }
      }
    }
  }

  // ---------- backward ----------

  /** Undoing the newest remaining entry keeps the older backups and what was already given back. */
  lemma UndoKeeps(base: Files, before: Files, after: Files, components: seq<Component>, applied: seq<Applied>, stray: Option<nat>, j: nat, ok: bool)
    requires StagedApart(components) && LogOf(components, applied) && j < |applied| && (stray.Some? ==> stray.value == |applied| < |components|)
    requires AllSaved(base, before, applied, j + 1) && Recoverable(base, before, applied, j + 1)
    requires OthersKept(base, before, components, applied, stray)
    requires Undone(before, after, applied[j], ok)
    ensures AllSaved(base, after, applied, j) && Recoverable(base, after, applied, j)
    ensures OthersKept(base, after, components, applied, stray)
    ensures ok && Restored(base, before, applied, j + 1) ==> Restored(base, after, applied, j)
  {
    var a := applied[j];
    forall k: nat | k < j && IsFirst(applied, k)
      ensures Saved(base, after, applied[k])
    {
      assert Saved(base, before, applied[k]);
    }
    forall k: nat | j <= k && IsFirst(applied, k)
      ensures Findable(base, after, applied[k].destination, k)
      ensures ok && Restored(base, before, applied, j + 1) ==> Cell(after, applied[k].destination) == Cell(base, applied[k].destination)
    {
      if k == j {
        assert Saved(base, before, a);
      } else {
        assert a.destination != applied[k].destination;
        assert Findable(base, before, applied[k].destination, k);
      }
    }
    forall p: Path | p.Named? && !InLog(applied, p) && !IsStaged(components, p)
      ensures if IsStray(components, stray, p) then LeftBehind(base, after, stray.value, p) else Cell(after, p) == Cell(base, p)
    {
      assert p != a.destination;
    }
  }

  lemma {:induction false} FirstOf(applied: seq<Applied>, k: nat) returns (first: nat)
    requires k < |applied|
    ensures first <= k && IsFirst(applied, first) && applied[first].destination == applied[k].destination
    decreases k
  {
    first := k;
    if m: nat :| m < k && applied[m].destination == applied[k].destination {
      first := FirstOf(applied, m);
    }
  }

  /** The stray component is the first that names `p`. */
  ghost predicate FirstNamed(components: seq<Component>, stray: Option<nat>, p: Path) {
    IsStray(components, stray, p) && forall k :: 0 <= k < stray.value ==> components[k].destination != p
  }

  /** After a clean roll-back a path is as before, unless a replacement of it was interrupted before it
      could be logged: then, and only then, its value stays in a directory that nothing deletes. */
  ghost predicate Unharmed(base: Files, files: Files, components: seq<Component>, stray: Option<nat>, p: Path) {
    if FirstNamed(components, stray, p) then LeftBehind(base, files, stray.value, p) else Cell(files, p) == Cell(base, p)
  }

  ghost predicate Retained(base: Files, files: Files, components: seq<Component>, p: Path) {
    Cell(files, p) == Cell(base, p)
    || exists i: nat :: i < |components| && components[i].destination == p && Cell(files, Backup(i)) == Cell(base, p)
  }

  lemma AllVisited(base: Files, files: Files, components: seq<Component>, applied: seq<Applied>, stray: Option<nat>, j: nat, p: Path)
    requires LogOf(components, applied) && (stray.Some? ==> stray.value == |applied| < |components|)
    requires AllSaved(base, files, applied, j) && Recoverable(base, files, applied, j) && OthersKept(base, files, components, applied, stray)
    requires p.Named? && !IsStaged(components, p)
    ensures j == 0 && Restored(base, files, applied, 0) ==> Unharmed(base, files, components, stray, p)
    ensures p in base ==> Retained(base, files, components, p)
  {
    if InLog(applied, p) {
      var k: nat :| k < |applied| && applied[k].destination == p;
      var first := FirstOf(applied, k);
      assert first < j ==> Saved(base, files, applied[first]);
      assert first >= j ==> Findable(base, files, applied[first].destination, first);
      assert components[first].destination == p;
    } else if IsStray(components, stray, p) {
      assert Cell(files, p) == None;
      forall k | 0 <= k < stray.value
        ensures components[k].destination != p
      {
        assert applied[k].destination == components[k].destination;
      }
    }
  }

  // ---------- which component fails ----------

  /** The step does not complete. */
  predicate Strikes(files: Files, c: Component, fault: Fault) {
    || fault.PrepareFails? || fault.LateInterrupt?
    || (c.destination in files && (fault.BackupFails? || fault.Interrupted?))
    || (c.staged.Some? && (fault.StageFails? || c.staged.value !in files))
  }

  /** Something is at the destination of component `i` once the components before it are in place. */
  predicate HasPrevious(base: Files, components: seq<Component>, i: nat)
    requires i < |components|
  {
    LastStaged(base, components[..i], components[i].destination).Some?
  }

  /** Its staged value was given, and no component before it has used it up. */
  predicate HasStaged(base: Files, components: seq<Component>, i: nat)
    requires i < |components| && components[i].staged.Some?
  {
    components[i].staged.value in base && !IsStaged(components[..i], components[i].staged.value)
  }

  /** Component `i` cannot be put in place, told from the files at the start. */
  predicate Struck(base: Files, components: seq<Component>, i: nat, fault: Fault)
    requires i < |components|
  {
    || fault.PrepareFails? || fault.LateInterrupt?
    || (HasPrevious(base, components, i) && (fault.BackupFails? || fault.Interrupted?))
    || (components[i].staged.Some? && (fault.StageFails? || !HasStaged(base, components, i)))
  }

  /** It is logged nevertheless: what was at its destination was moved away first. */
  predicate LogsStruck(base: Files, components: seq<Component>, i: nat, fault: Fault)
    requires i < |components|
  {
    !fault.PrepareFails? && !(HasPrevious(base, components, i) && (fault.BackupFails? || fault.Interrupted?))
  }

  ghost predicate NoneStruck(base: Files, components: seq<Component>, faults: nat -> Fault, n: nat)
    requires n <= |components|
  {
    forall k: nat | k < n :: !Struck(base, components, k, faults(k))
  }

  ghost predicate FirstStruck(base: Files, components: seq<Component>, faults: nat -> Fault, i: nat) {
    i < |components| && NoneStruck(base, components, faults, i) && Struck(base, components, i, faults(i))
  }

  /** The value of the destination of component `i` is moved away and forgotten. */
  ghost predicate Loses(base: Files, components: seq<Component>, faults: nat -> Fault, i: nat) {
    FirstStruck(base, components, faults, i) && faults(i).Interrupted? && HasPrevious(base, components, i)
  }

  /** Exactly the staged values of the first `i` components are used up. */
  ghost predicate UsedUp(base: Files, files: Files, components: seq<Component>, i: nat)
    requires i <= |components|
  {
    forall p {:trigger Cell(files, p)} {:trigger p in files} | IsStaged(components, p) :: p in files <==> p in base && !IsStaged(components[..i], p)
  }

  lemma StruckIff(base: Files, files: Files, components: seq<Component>, i: nat, fault: Fault)
    requires StagedApart(components) && i < |components|
    requires AllStaged(base, files, components, i) && UsedUp(base, files, components, i)
    ensures Strikes(files, components[i], fault) <==> Struck(base, components, i, fault)
    ensures components[i].destination in files <==> HasPrevious(base, components, i)
  {
    var c := components[i];
    assert Cell(files, c.destination) == LastStaged(base, components[..i], c.destination);
    if c.staged.Some? { assert IsStaged(components, c.staged.value); }
  }

  lemma FirstIsOnly(base: Files, components: seq<Component>, faults: nat -> Fault, i: nat)
    requires FirstStruck(base, components, faults, i)
    ensures !NoneStruck(base, components, faults, |components|)
    ensures forall j: nat :: FirstStruck(base, components, faults, j) <==> j == i
  {
  }

  lemma UsedNext(base: Files, before: Files, after: Files, components: seq<Component>, i: nat, a: Applied)
    requires StagedApart(components) && i < |components|
    requires UsedUp(base, before, components, i) && Stepped(before, after, i, components[i], Done(a))
    ensures UsedUp(base, after, components, i + 1)
  {
    forall p | IsStaged(components, p)
      ensures p in after <==> p in base && !IsStaged(components[..i + 1], p)
    {
      var k :| 0 <= k < |components| && components[k].staged == Some(p);
      assert p.Named? && p != components[i].destination;
      if Some(p) == components[i].staged {
        assert components[..i + 1][i].staged == Some(p);
      } else {
        assert Cell(after, p) == Cell(before, p);
        StagedBefore(components, i, p);
      }
    }
  }

  lemma StagedBefore(components: seq<Component>, i: nat, p: Path)
    requires i < |components| && components[i].staged != Some(p)
    ensures IsStaged(components[..i + 1], p) <==> IsStaged(components[..i], p)
  {
    if IsStaged(components[..i + 1], p) {
      var k :| 0 <= k < i + 1 && components[..i + 1][k].staged == Some(p);
      assert components[..i][k].staged == Some(p);
    }
    if IsStaged(components[..i], p) {
      var k :| 0 <= k < i && components[..i][k].staged == Some(p);
      assert components[..i + 1][k].staged == Some(p);
    }
  }

  /** Without an adversary, with every staged value there for one component, nothing is struck. */
  lemma UntroubledIsSpared(base: Files, components: seq<Component>, faults: nat -> Fault)
    requires forall k: nat | k < |components| :: faults(k).NoFault? && (components[k].staged.Some? ==> components[k].staged.value in base)
    requires forall j, k :: 0 <= j < k < |components| && components[j].staged.Some? ==> components[j].staged != components[k].staged
    ensures NoneStruck(base, components, faults, |components|)
  {
  }

  /** Nothing is in the directories of components that were not logged, but for the stray value. */
  ghost predicate NoBackups(files: Files, logged: nat, stray: Option<nat>) {
    forall n: nat :: n >= logged && stray != Some(n) ==> Backup(n) !in files
  }

  /** All that is known before the next component. */
  ghost predicate Ready(base: Files, files: Files, components: seq<Component>, applied: seq<Applied>) {
    && |applied| <= |components| && Progress(base, files, components, applied, None) && Layered(base, files, components, applied, |applied|)
    && AllStaged(base, files, components, |applied|) && UsedUp(base, files, components, |applied|) && NoBackups(files, |applied|, None)
  }

  lemma LoggedNext(base: Files, before: Files, after: Files, components: seq<Component>, applied: seq<Applied>, reach: Reach)
    requires StagedApart(components) && |applied| < |components| && Ready(base, before, components, applied)
    requires Stepped(before, after, |applied|, components[|applied|], reach) && (reach.Logged? || reach.Done?)
    requires forall n: nat :: n != |applied| ==> (Backup(n) in after <==> Backup(n) in before)
    ensures var more := applied + [reach.a];
            Progress(base, after, components, more, None) && Layered(base, after, components, more, |more|) && NoBackups(after, |more|, None)
  {
    LogExtends(base, before, after, components, applied, reach);
    LayeredNext(base, before, after, components, applied, reach);
  }

  lemma DoneNext(base: Files, before: Files, after: Files, components: seq<Component>, i: nat, reach: Reach)
    requires StagedApart(components) && StagedKept(base, before, components) && i < |components| && reach.Done?
    requires AllStaged(base, before, components, i) && UsedUp(base, before, components, i)
    requires Stepped(before, after, i, components[i], reach) && (components[i].staged.Some? ==> components[i].staged.value in before)
    ensures AllStaged(base, after, components, i + 1) && UsedUp(base, after, components, i + 1)
  {
    StagedNext(base, before, after, components, i, reach);
    UsedNext(base, before, after, components, i, reach.a);
  }

  lemma UnloggedNext(base: Files, before: Files, after: Files, components: seq<Component>, applied: seq<Applied>, reach: Reach)
    requires StagedApart(components) && |applied| < |components| && Ready(base, before, components, applied)
    requires Stepped(before, after, |applied|, components[|applied|], reach) && (reach.Untouched? || reach.Stray?)
    requires forall n: nat :: n != |applied| ==> (Backup(n) in after <==> Backup(n) in before)
    requires reach.Untouched? ==> Backup(|applied|) !in after
    ensures var stray := if reach.Stray? then Some(|applied|) else None;
            && Progress(base, after, components, applied, stray) && Layered(base, after, components, applied, |applied|)
            && NoBackups(after, |applied|, stray) && LooksLike(base, after, components, |applied|, |applied|, |applied|)
  {
    LayeredNext(base, before, after, components, applied, reach);
    StruckLooksLike(base, before, after, components, |applied|, reach, |applied|);
    if reach.Stray? { StrayProgress(base, before, after, components, applied); }
  }

  ghost predicate UndoneClean(undoFaults: nat -> UndoFault, from: nat, logged: nat) {
    forall m: nat | from <= m < logged :: undoFaults(m).NoUndoFault?
  }

  /** A logged component names `p`, and its backup was deleted. */
  ghost predicate BackupDeleted(components: seq<Component>, logged: nat, lingers: nat -> bool, p: Path) {
    exists k: nat :: k < logged && k < |components| && components[k].destination == p && !lingers(k)
  }

  lemma DeletedOrRetained(base: Files, before: Files, after: Files, components: seq<Component>, logged: nat, lingers: nat -> bool)
    requires forall p: Path :: p.Named? || p.i >= logged ==> Cell(after, p) == Cell(before, p)
    requires forall k: nat :: k < logged && lingers(k) ==> Cell(after, Backup(k)) == Cell(before, Backup(k))
    ensures forall p: Path | p.Named? && Retained(base, before, components, p) ::
      Retained(base, after, components, p) || BackupDeleted(components, logged, lingers, p)
  {
    forall p: Path | p.Named? && Retained(base, before, components, p)
      ensures Retained(base, after, components, p) || BackupDeleted(components, logged, lingers, p)
    {
      if Cell(before, p) != Cell(base, p) {
        var i: nat :| i < |components| && components[i].destination == p && Cell(before, Backup(i)) == Cell(base, p);
        if i < logged && !lingers(i) {
          assert BackupDeleted(components, logged, lingers, p);
        } else {
          assert Cell(after, Backup(i)) == Cell(base, p);
        }
      }
    }
  }

  /** After an escape with clean undo steps and no lingering backup, exactly the destinations that the components
      not yet undone have changed lose their value. */
  lemma EscapeLosesIff(base: Files, files: Files, components: seq<Component>, logged: nat, struck: nat, left: nat, p: Path)
    requires left <= |components| && LooksLike(base, files, components, logged, struck, left) && struck < |components|
    requires p in base && p.Named? && !IsStaged(components, p) && p != components[struck].destination
    requires forall k: nat :: Backup(k) in files ==> k == struck
    ensures LosesValue(base, files, components, left, p)
  {
    assert Cell(files, p) == LastStaged(base, components[..left], p);
    if i: nat :| i < |components| && components[i].destination == p && Cell(files, Backup(i)) == Cell(base, p) {
      assert false;
    }
  }

  ghost predicate LosesValue(base: Files, files: Files, components: seq<Component>, left: nat, p: Path)
    requires left <= |components|
  {
    !Retained(base, files, components, p) <==> LastStaged(base, components[..left], p) != Cell(base, p)
  }

  class Disk {
    var files: Files

    constructor (content: Files)
      ensures files == content
    {
      files := content;
    }

    /** Replace every component, or put everything back. `faults` and `undoFaults` strike component or
        undo `i`; `escape` is an exception outside the undo steps when that many entries are left to undo;
        `lingers(i)` says that the best-effort deletion of backup `i` fails. */
    method Replace(components: seq<Component>, faults: nat -> Fault, undoFaults: nat -> UndoFault, escape: Option<nat>, lingers: nat -> bool)
      returns (outcome: Outcome, stray: Option<nat>, logged: nat)
      requires StagedApart(components)
      requires forall i: nat :: Backup(i) !in files
      modifies this
      ensures outcome.Replaced? ==> AllStaged(old(files), files, components, |components|)
      ensures outcome.RolledBack? ==> forall p: Path | p.Named? && !IsStaged(components, p) :: Unharmed(old(files), files, components, stray, p)
      ensures outcome.Incomplete? ==> forall p: Path | p in old(files) && !IsStaged(components, p) :: Retained(old(files), files, components, p)
      ensures outcome.Replaced? <==> NoneStruck(old(files), components, faults, |components|)
      ensures forall i: nat :: stray == Some(i) <==> Loses(old(files), components, faults, i)
      ensures outcome.Incomplete? ==> exists j: nat :: j < |components| && !undoFaults(j).NoUndoFault?
      ensures forall i: nat :: FirstStruck(old(files), components, faults, i) ==>
        logged == i + if LogsStruck(old(files), components, i, faults(i)) then 1 else 0
      ensures outcome.Escaped? <==> !outcome.Replaced? && escape.Some? && escape.value <= logged
      ensures outcome.Escaped? && UndoneClean(undoFaults, escape.value, logged) ==>
        forall i: nat :: FirstStruck(old(files), components, faults, i) ==> LooksLike(old(files), files, components, logged, i, escape.value)
      ensures !outcome.Incomplete? ==> forall k: nat :: Backup(k) in files ==> stray == Some(k) || (k < logged && lingers(k))
      ensures outcome.Escaped? ==> forall p: Path | p in old(files) && p.Named? && !IsStaged(components, p) ::
        Retained(old(files), files, components, p) || BackupDeleted(components, logged, lingers, p)
      ensures logged <= |components|
      ensures outcome.Escaped? && UndoneClean(undoFaults, escape.value, logged) && (forall k: nat :: k < logged ==> !lingers(k)) ==>
        forall i: nat, p: Path | FirstStruck(old(files), components, faults, i) && p in old(files) && p.Named? && !IsStaged(components, p)
          && p != components[i].destination :: LosesValue(old(files), files, components, escape.value, p)
    {
      ghost var base := files;
      var applied, failed;
      ghost var struck;
      applied, stray, failed, struck := ApplyAll(components, faults);
      logged := |applied|;
      if failed {
        var clean, escaped := RollBack(components, applied, undoFaults, escape, base, stray, struck);
        outcome := if escaped then Escaped else if clean then RolledBack else Incomplete;
      } else {
        assert components[..|components|] == components;
        outcome := Replaced;
      }
      if !outcome.Incomplete? {
        ghost var before := files;
        CleanUp(|applied|, lingers);
        DeletedOrRetained(base, before, files, components, |applied|, lingers);
        if outcome.Escaped? && UndoneClean(undoFaults, escape.value, logged) && forall k: nat :: k < logged ==> !lingers(k) {
          forall p: Path | p in base && p.Named? && !IsStaged(components, p) && p != components[struck].destination
            ensures LosesValue(base, files, components, escape.value, p)
          {
            EscapeLosesIff(base, files, components, logged, struck, escape.value, p);
          }
        }
      }
    }

    /** The forward loop: apply and log until a step fails. */
    method ApplyAll(components: seq<Component>, faults: nat -> Fault)
      returns (applied: seq<Applied>, stray: Option<nat>, failed: bool, ghost struck: nat)
      requires StagedApart(components)
      requires forall i: nat :: Backup(i) !in files
      modifies this
      ensures Progress(old(files), files, components, applied, stray) && Layered(old(files), files, components, applied, |applied|)
      ensures !failed ==> stray.None? && AllStaged(old(files), files, components, |components|)
      ensures !failed <==> NoneStruck(old(files), components, faults, |components|)
      ensures forall i: nat :: stray == Some(i) <==> Loses(old(files), components, faults, i)
      ensures forall i: nat :: FirstStruck(old(files), components, faults, i) <==> failed && i == struck
      ensures NoBackups(files, |applied|, stray)
      ensures failed ==> LooksLike(old(files), files, components, |applied|, struck, |applied|)
      ensures failed ==> struck < |components| && |applied| == struck + if LogsStruck(old(files), components, struck, faults(struck)) then 1 else 0
    {
      ghost var base := files;
      applied, stray, failed := [], None, false;
      var i := 0;
      while i < |components| && !failed
        invariant i <= |components| && (!failed ==> i == |applied| && stray.None?)
        invariant Progress(base, files, components, applied, stray) && Layered(base, files, components, applied, |applied|)
        invariant NoBackups(files, |applied|, stray)
        invariant !failed ==> AllStaged(base, files, components, i) && UsedUp(base, files, components, i) && NoneStruck(base, components, faults, i)
        invariant failed ==> i > 0 && FirstStruck(base, components, faults, i - 1)
        invariant failed ==> stray == if faults(i - 1).Interrupted? && HasPrevious(base, components, i - 1) then Some(i - 1) else None
        invariant failed ==> LooksLike(base, files, components, |applied|, i - 1, |applied|)
        invariant failed ==> |applied| == i - 1 + if LogsStruck(base, components, i - 1, faults(i - 1)) then 1 else 0
      {
        applied, stray, failed := Advance(components, i, faults(i), base, applied);
        i := i + 1;
      }
      struck := if failed then i - 1 else 0;
      if failed { FirstIsOnly(base, components, faults, i - 1); }
    }

    /** One component, and what its step means for the log. */
    method Advance(components: seq<Component>, i: nat, fault: Fault, ghost base: Files, applied: seq<Applied>)
      returns (log: seq<Applied>, stray: Option<nat>, failed: bool)
      requires StagedApart(components) && i == |applied| < |components|
      requires Ready(base, files, components, applied)
      modifies this
      ensures Progress(base, files, components, log, stray) && Layered(base, files, components, log, |log|)
      ensures NoBackups(files, |log|, stray)
      ensures failed <==> Struck(base, components, i, fault)
      ensures stray == if fault.Interrupted? && HasPrevious(base, components, i) then Some(i) else None
      ensures |log| == i + if LogsStruck(base, components, i, fault) then 1 else 0
      ensures !failed ==> |log| == i + 1 && AllStaged(base, files, components, i + 1) && UsedUp(base, files, components, i + 1)
      ensures failed ==> LooksLike(base, files, components, |log|, i, |log|)
    {
      ghost var before := files;
      StruckIff(base, files, components, i, fault);
      var reach := ReplaceOne(components[i], i, fault);
      log, stray, failed := applied, None, !reach.Done?;
      if reach.Logged? || reach.Done? {
        LoggedNext(base, before, files, components, applied, reach);
        if failed {
          StruckLooksLike(base, before, files, components, i, reach, i + 1);
        } else {
          DoneNext(base, before, files, components, i, reach);
        }
        log := applied + [reach.a];
      } else {
        UnloggedNext(base, before, files, components, applied, reach);
        if reach.Stray? { stray := Some(i); }
      }
    }

    method ReplaceOne(c: Component, i: nat, fault: Fault) returns (reach: Reach)
      requires c.destination.Named? && (c.staged.Some? ==> c.staged.value.Named? && c.staged.value != c.destination)
      requires Backup(i) !in files
      modifies this
      ensures Stepped(old(files), files, i, c, reach)
      ensures forall n: nat :: n != i ==> (Backup(n) in files <==> Backup(n) in old(files))
      ensures reach.Untouched? ==> Backup(i) !in files
      ensures reach.Stray? <==> fault.Interrupted? && c.destination in old(files)
      ensures reach.Done? <==> !Strikes(old(files), c, fault)
      ensures reach.Logged? || reach.Done? <==> !fault.PrepareFails? && !(c.destination in old(files) && (fault.BackupFails? || fault.Interrupted?))
    {
      if fault.PrepareFails? {
        return Untouched;
      }
      var hadPrevious := c.destination in files;
      if hadPrevious {
        if fault.BackupFails? {
          return Untouched;
        }
        files := files[Backup(i) := files[c.destination]] - {c.destination};
        if fault.Interrupted? {
          return Stray;
        }
      }
      var a := Applied(c.destination, if hadPrevious then Some(Backup(i)) else None);
      if c.staged.Some? {
        if fault.StageFails? || c.staged.value !in files {
          return Logged(a);
        }
        files := files[c.destination := files[c.staged.value]] - {c.staged.value};
      }
      reach := if fault.LateInterrupt? then Logged(a) else Done(a);
    }

    /** Undo every entry, newest first, going on after a failure, until an exception escapes. */
    method RollBack(components: seq<Component>, applied: seq<Applied>, undoFaults: nat -> UndoFault, escape: Option<nat>,
        ghost base: Files, ghost stray: Option<nat>, ghost struck: nat)
      returns (clean: bool, escaped: bool)
      requires StagedApart(components) && Progress(base, files, components, applied, stray)
      requires Layered(base, files, components, applied, |applied|) && LooksLike(base, files, components, |applied|, struck, |applied|)
      modifies this
      ensures escaped <==> escape.Some? && escape.value <= |applied|
      ensures NoBackups(old(files), |applied|, stray) ==> NoBackups(files, |applied|, stray)
      ensures clean && !escaped ==> forall p: Path | p.Named? && !IsStaged(components, p) :: Unharmed(base, files, components, stray, p)
      ensures forall p: Path | p.Named? && p in base && !IsStaged(components, p) :: Retained(base, files, components, p)
      ensures !clean ==> exists j: nat :: j < |components| && !undoFaults(j).NoUndoFault?
      ensures escaped && UndoneClean(undoFaults, escape.value, |applied|) ==> LooksLike(base, files, components, |applied|, struck, escape.value)
    {
      escaped := escape.Some? && escape.value <= |applied|;
      var left := if escaped then escape.value else 0;
      clean := UndoDown(components, applied, undoFaults, left, base, stray, struck);
      forall p: Path | p.Named? && !IsStaged(components, p)
        ensures clean && !escaped ==> Unharmed(base, files, components, stray, p)
        ensures p in base ==> Retained(base, files, components, p)
      {
        AllVisited(base, files, components, applied, stray, left, p);
      }
    }

    /** The undo loop, cut off when `stop` entries are left. */
    method UndoDown(components: seq<Component>, applied: seq<Applied>, undoFaults: nat -> UndoFault, stop: nat,
        ghost base: Files, ghost stray: Option<nat>, ghost struck: nat)
      returns (clean: bool)
      requires stop <= |applied| && StagedApart(components) && LogOf(components, applied) && (stray.Some? ==> stray.value == |applied| < |components|)
      requires AllSaved(base, files, applied, |applied|) && OthersKept(base, files, components, applied, stray)
      requires Layered(base, files, components, applied, |applied|) && LooksLike(base, files, components, |applied|, struck, |applied|)
      modifies this
      ensures AllSaved(base, files, applied, stop) && Recoverable(base, files, applied, stop)
      ensures OthersKept(base, files, components, applied, stray)
      ensures NoBackups(old(files), |applied|, stray) ==> NoBackups(files, |applied|, stray)
      ensures clean ==> Restored(base, files, applied, stop) && LooksLike(base, files, components, |applied|, struck, stop)
      ensures UndoneClean(undoFaults, stop, |applied|) ==> clean
    {
      clean := true;
      var left := |applied|;
      while left > stop
        invariant stop <= left <= |applied|
        invariant AllSaved(base, files, applied, left) && Recoverable(base, files, applied, left)
        invariant OthersKept(base, files, components, applied, stray) && Layered(base, files, components, applied, left)
        invariant clean ==> Restored(base, files, applied, left) && LooksLike(base, files, components, |applied|, struck, left)
        invariant UndoneClean(undoFaults, left, |applied|) ==> clean
        invariant NoBackups(old(files), |applied|, stray) ==> NoBackups(files, |applied|, stray)
      {
        left := left - 1;
        var ok := UndoStep(components, applied, left, undoFaults(left), base, stray, struck);
        clean := clean && ok;
      }
    }

    /** One undo step, and what it means for the entries still to undo. */
    method UndoStep(components: seq<Component>, applied: seq<Applied>, j: nat, fault: UndoFault,
        ghost base: Files, ghost stray: Option<nat>, ghost struck: nat)
      returns (ok: bool)
      requires StagedApart(components) && LogOf(components, applied) && j < |applied| && (stray.Some? ==> stray.value == |applied| < |components|)
      requires AllSaved(base, files, applied, j + 1) && Recoverable(base, files, applied, j + 1)
      requires OthersKept(base, files, components, applied, stray) && Layered(base, files, components, applied, j + 1)
      modifies this
      ensures AllSaved(base, files, applied, j) && Recoverable(base, files, applied, j)
      ensures OthersKept(base, files, components, applied, stray) && Layered(base, files, components, applied, j)
      ensures ok && old(Restored(base, files, applied, j + 1)) ==> Restored(base, files, applied, j)
      ensures ok && old(LooksLike(base, files, components, |applied|, struck, j + 1)) ==> LooksLike(base, files, components, |applied|, struck, j)
      ensures NoBackups(old(files), |applied|, stray) ==> NoBackups(files, |applied|, stray)
      ensures !ok ==> !fault.NoUndoFault?
    {
      ghost var before := files;
      ok := UndoOne(applied[j], fault);
      UndoKeeps(base, before, files, components, applied, stray, j, ok);
      UndoPeels(base, before, files, components, applied, struck, j, ok);
      forall n: nat | n >= |applied|
        ensures Cell(files, Backup(n)) == Cell(before, Backup(n))
      {
      }
    }

    method UndoOne(a: Applied, fault: UndoFault) returns (ok: bool)
      requires a.destination.Named? && (a.backup.Some? ==> a.backup.value.Backup?)
      modifies this
      ensures Undone(old(files), files, a, ok)
      ensures !ok ==> !fault.NoUndoFault?
    {
      if a.destination in files {
        files := files - {a.destination};
        if fault.RemoveFails? {
          if fault.left.Some? {
            files := files[a.destination := fault.left.value];
          }
          return false;
        }
      }
      if a.backup.Some? && a.backup.value in files {
        if fault.RestoreFails? {
          return false;
        }
        files := files[a.destination := files[a.backup.value]] - {a.backup.value};
      }
      ok := !fault.LateFailure?;
    }

    /** Best-effort deletion of the logged backups. */
    method CleanUp(n: nat, lingers: nat -> bool)
      modifies this
      ensures forall p: Path :: p.Named? || p.i >= n ==> Cell(files, p) == Cell(old(files), p)
      ensures forall k: nat :: k < n ==> Cell(files, Backup(k)) == if lingers(k) then Cell(old(files), Backup(k)) else None
    {
      var i := n;
      while i > 0
        invariant 0 <= i <= n
        invariant forall p: Path :: p.Named? || p.i >= n || p.i < i ==> Cell(files, p) == Cell(old(files), p)
        invariant forall k: nat :: i <= k < n ==> Cell(files, Backup(k)) == if lingers(k) then Cell(old(files), Backup(k)) else None
      {
        i := i - 1;
        if !lingers(i) {
          files := files - {Backup(i)};
        }
      }
    }
  }

  /** An update whose only replacement is interrupted between its two moves: the roll-back is clean, and the
      component is gone from its place. */
  method InterruptedUpdate(name: string, prior: Content, update: Content) returns (outcome: Outcome, after: Files)
    requires name != "staged"
    ensures outcome.RolledBack? && Named(name) !in after && Cell(after, Backup(0)) == Some(prior)
  {
    var components := [Component(Some(Named("staged")), Named(name))];
    var base := map[Named(name) := prior, Named("staged") := update];
    var disk := new Disk(base);
    var faults: nat -> Fault := _ => Interrupted;
    assert components[..0] == [];
    assert HasPrevious(base, components, 0);
    assert Loses(base, components, faults, 0);
    FirstIsOnly(base, components, faults, 0);
    var stray, logged;
    outcome, stray, logged := disk.Replace(components, faults, _ => NoUndoFault, None, _ => false);
    after := disk.files;
    assert Unharmed(base, after, components, stray, Named(name));
  }

  /** Without an adversary every component is replaced, whatever was there before. */
  method UntroubledUpdate(base: Files, components: seq<Component>) returns (after: Files)
    requires StagedApart(components) && forall i: nat :: Backup(i) !in base
    requires forall k: nat | k < |components| && components[k].staged.Some? :: components[k].staged.value in base
    requires forall j, k :: 0 <= j < k < |components| && components[j].staged.Some? ==> components[j].staged != components[k].staged
    ensures AllStaged(base, after, components, |components|)
  {
    var disk := new Disk(base);
    var faults: nat -> Fault := _ => NoFault;
    UntroubledIsSpared(base, components, faults);
    var outcome, stray, logged := disk.Replace(components, faults, _ => NoUndoFault, None, _ => false);
    after := disk.files;
  }

  /** An update of two components, the second of which fails to prepare, whose roll-back is cut off at once:
      the first one stays updated and its prior value is gone. */
  method EscapedUpdate(name: string, prior: Content, update: Content) returns (outcome: Outcome, after: Files)
    requires name != "staged" && prior != update
    ensures outcome.Escaped? && Cell(after, Named(name)) == Some(update) && Backup(0) !in after && Backup(1) !in after
  {
    var other := if name == "other" then "another" else "other";
    var components := [Component(Some(Named("staged")), Named(name)), Component(None, Named(other))];
    var base := map[Named(name) := prior, Named("staged") := update];
    var disk := new Disk(base);
    var faults: nat -> Fault := k => if k == 1 then PrepareFails else NoFault;
    assert components[..0] == [] && components[..1] == [components[0]];
    assert !Struck(base, components, 0, faults(0));
    assert FirstStruck(base, components, faults, 1);
    var stray, logged;
    outcome, stray, logged := disk.Replace(components, faults, _ => NoUndoFault, Some(1), _ => false);
    after := disk.files;
    assert logged == 1 && LooksLike(base, after, components, 1, 1, 1);
    assert components[..1][..0] == [];
    assert LastStaged(base, components[..1], Named(name)) == Some(update);
  }
}
