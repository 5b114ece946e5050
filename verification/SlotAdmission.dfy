/** Workbench capacity: all-or-nothing try-locks over three shared legacy locks and eight exclusive
    slots, taken one at a time while other workers, legacy workers and command monitors come, go and crash. */
module SlotAdmission {
  import opened Wrappers

  const WORKBENCH_SLOTS := 8
  const LEGACY_SLOTS := 3
  const SHARED_BUILD_JOBS := 8
  const EXCLUSIVE_BUILD_JOBS := WORKBENCH_SLOTS * SHARED_BUILD_JOBS

  datatype Lock = Legacy(i: nat) | Slot(i: nat)

  /** The locks in the order `capacity` tries them. */
  function LockAt(n: nat): Lock {
    if n < LEGACY_SLOTS then Legacy(n) else Slot(n - LEGACY_SLOTS)
  }

  const LAST := LEGACY_SLOTS + WORKBENCH_SLOTS

  function SlotsIn(locks: set<Lock>): set<nat> {
    set j: nat | j < WORKBENCH_SLOTS && Slot(j) in locks
  }

  predicate AllLegacy(locks: set<Lock>) {
    forall i: nat | i < LEGACY_SLOTS :: Legacy(i) in locks
  }

  /** How many slots a caller reserves; `None` where the call is refused with an error. */
  function Wanted(exclusive: bool, slots: Option<int>): (w: Option<nat>)
    ensures exclusive ==> w == Some(WORKBENCH_SLOTS)
    ensures !exclusive && slots.Some? && 1 <= slots.value <= WORKBENCH_SLOTS ==> w.Some? && w.value == slots.value
    ensures !exclusive && slots in {None, Some(0)} ==> w == Some(1)
    ensures w.None? <==> !exclusive && slots.Some? && (slots.value < 0 || slots.value > WORKBENCH_SLOTS)
  {
    if exclusive then Some(WORKBENCH_SLOTS)
    else if slots == None || slots == Some(0) then Some(1)
    else if 1 <= slots.value <= WORKBENCH_SLOTS then Some(slots.value)
    else None
  }

  /** Where one worker stands. `Closing` covers a refused attempt (which then sleeps), a finished
      worker and a crashed one (whose descriptors the kernel closes). */
  datatype Phase = Scanning(next: nat) | Admitted | Closing(retries: bool) | Sleeping | Gone

  /** A worker's own descriptors, those inherited by each live command monitor, and which of the monitors
      runs a compiler. */
  datatype Request = Request(wanted: nat, phase: Phase, fds: set<Lock>, monitors: map<nat, set<Lock>>, compiling: Option<nat>)

  /** `legacy[i]` is the old worker that holds legacy lock `i` exclusively. */
  datatype World = World(requests: map<nat, Request>, legacy: map<nat, nat>)

  /** A lock is held while any descriptor of its open file remains, in the worker or in a monitor. */
  ghost predicate Holds(q: Request, l: Lock) {
    l in q.fds || exists m :: m in q.monitors && l in q.monitors[m]
  }

  ghost predicate HeldIn(w: World, id: nat, l: Lock) {
    id in w.requests && Holds(w.requests[id], l)
  }

  /** What a non-blocking try-lock finds. */
  ghost predicate Available(w: World, l: Lock) {
    match l
    case Legacy(i) => i !in w.legacy
    case Slot(j) => forall id :: !HeldIn(w, id, l)
  }

  datatype Step =
    | Submit(id: nat, exclusive: bool, slots: Option<int>)
    | TryLock(id: nat)
    | CloseOne(id: nat, l: Lock)
    | Sleep(id: nat)
    | Retry(id: nat)
    | StartCommand(id: nat, m: nat, compiles: bool)
    | MonitorExits(id: nat, m: nat)
    | Stop(id: nat)
    | LegacyTakes(i: nat, worker: nat)
    | LegacyDrops(i: nat)

  /** One try-lock of a scan, and the all-or-nothing decision after it. */
  function AfterTry(q: Request, granted: bool): Request
    requires q.phase.Scanning? && q.phase.next < LAST
  {
    var l := LockAt(q.phase.next);
    if granted then
      var fds := q.fds + {l};
      if |SlotsIn(fds)| == q.wanted then q.(fds := fds, phase := Admitted)
      else if q.phase.next + 1 == LAST then q.(fds := fds, phase := Closing(true))
      else q.(fds := fds, phase := Scanning(q.phase.next + 1))
    else if l.Legacy? || q.phase.next + 1 == LAST then q.(phase := Closing(true))
    else q.(phase := Scanning(q.phase.next + 1))
  }

  /** A worker waits for its compiling command before it starts another; test commands run side by side. */
  predicate CanMove(q: Request, s: Step) {
    match s
    case TryLock(_) => q.phase.Scanning? && q.phase.next < LAST
    case CloseOne(_, l) => q.phase.Closing? && l in q.fds
    case Sleep(_) => q.phase.Closing? && q.fds == {}
    case Retry(_) => q.phase.Sleeping?
    case StartCommand(_, m, compiles) => q.phase.Admitted? && m !in q.monitors && (compiles ==> q.compiling.None?)
    case MonitorExits(_, m) => m in q.monitors
    case Stop(_) => !q.phase.Gone?
    case _ => false
  }

  ghost predicate Enabled(w: World, s: Step) {
    match s
    case Submit(id, exclusive, slots) => id !in w.requests && Wanted(exclusive, slots).Some?
    case LegacyTakes(i, worker) => i < LEGACY_SLOTS && i !in w.legacy && forall id :: !HeldIn(w, id, Legacy(i))
    case LegacyDrops(i) => i in w.legacy
    case _ => s.id in w.requests && CanMove(w.requests[s.id], s)
  }

  /** The acting request after a step of its own. */
  ghost function Moved(w: World, q: Request, s: Step): Request
    requires s.TryLock? ==> q.phase.Scanning? && q.phase.next < LAST
  {
    match s
    case TryLock(_) => AfterTry(q, Available(w, LockAt(q.phase.next)))
    case CloseOne(_, l) => q.(fds := q.fds - {l})
    case Sleep(_) => q.(phase := if q.phase == Closing(true) then Sleeping else Gone)
    case Retry(_) => q.(phase := Scanning(0))
    case StartCommand(_, m, compiles) => q.(monitors := q.monitors[m := q.fds], compiling := if compiles then Some(m) else q.compiling)
    case MonitorExits(_, m) => q.(monitors := q.monitors - {m}, compiling := if q.compiling == Some(m) then None else q.compiling)
    case Stop(_) => q.(phase := Closing(false))
    case _ => q
  }

  ghost function After(w: World, s: Step): World
    requires Enabled(w, s)
  {
    match s
    case Submit(id, exclusive, slots) =>
      w.(requests := w.requests[id := Request(Wanted(exclusive, slots).value, Scanning(0), {}, map[], None)])
    case LegacyTakes(i, worker) => w.(legacy := w.legacy[i := worker])
    case LegacyDrops(i) => w.(legacy := w.legacy - {i})
    case _ => w.(requests := w.requests[s.id := Moved(w, w.requests[s.id], s)])
  }

  ghost function Run(w: World, steps: seq<Step>): Option<World>
    decreases steps
  {
    if steps == [] then Some(w)
    else if Enabled(w, steps[0]) then Run(After(w, steps[0]), steps[1..])
    else None
  }

  // ---------- the invariant ----------

  ghost predicate Full(q: Request, locks: set<Lock>) {
    AllLegacy(locks) && |SlotsIn(locks)| == q.wanted
  }

  /** What one request keeps, whatever the others do. */
  ghost predicate Sound(q: Request) {
    && 1 <= q.wanted <= WORKBENCH_SLOTS
    && (forall l :: Holds(q, l) ==> if l.Legacy? then l.i < LEGACY_SLOTS else l.i < WORKBENCH_SLOTS)
    && (forall m :: m in q.monitors ==> Full(q, q.monitors[m]) && q.fds <= q.monitors[m])
    && (forall m, n :: m in q.monitors && n in q.monitors ==> q.monitors[m] == q.monitors[n])
    && (q.phase.Scanning? ==>
          && q.phase.next < LAST && q.monitors == map[] && |SlotsIn(q.fds)| < q.wanted
          && (forall k: nat :: LockAt(k) in q.fds ==> k < q.phase.next)
          && (forall i: nat :: i < LEGACY_SLOTS && i < q.phase.next ==> Legacy(i) in q.fds))
    && (q.phase.Admitted? ==> Full(q, q.fds))
    && (q.phase == Closing(true) || q.phase.Sleeping? ==> q.monitors == map[])
    && (q.phase.Sleeping? || q.phase.Gone? ==> q.fds == {})
    && (q.compiling.Some? ==> q.compiling.value in q.monitors)
  }

  ghost predicate Inv(w: World) {
    && (forall id :: id in w.requests ==> Sound(w.requests[id]))
    && (forall a, b, j :: a != b && HeldIn(w, a, Slot(j)) ==> !HeldIn(w, b, Slot(j)))
    && (forall id, i :: i in w.legacy ==> !HeldIn(w, id, Legacy(i)))
  }

  /** A command of this request may be compiling: its worker is admitted or a monitor is alive. */
  ghost predicate Running(q: Request) {
    q.phase.Admitted? || q.monitors != map[]
  }

  // ---------- preservation ----------

  lemma OneMore(fds: set<Lock>, l: Lock)
    requires l !in fds
    ensures l.Legacy? ==> SlotsIn(fds + {l}) == SlotsIn(fds)
    ensures l.Slot? && l.i < WORKBENCH_SLOTS ==> |SlotsIn(fds + {l})| == |SlotsIn(fds)| + 1
  {
    if l.Slot? && l.i < WORKBENCH_SLOTS {
      assert SlotsIn(fds + {l}) == SlotsIn(fds) + {l.i};
    }
  }

  lemma LockAtIsInjective(k: nat, n: nat)
    requires LockAt(k) == LockAt(n)
    ensures k == n
  {
  }

  lemma TrySound(q: Request, granted: bool)
    requires Sound(q) && q.phase.Scanning?
    ensures Sound(AfterTry(q, granted))
    ensures forall l :: Holds(AfterTry(q, granted), l) ==> Holds(q, l) || (granted && l == LockAt(q.phase.next))
  {
    var n := q.phase.next;
    var l := LockAt(n);
    assert l !in q.fds;
    if granted {
      OneMore(q.fds, l);
      var r := AfterTry(q, true);
      forall k: nat | LockAt(k) in r.fds
        ensures k < n + 1
      {
        if LockAt(k) !in q.fds { LockAtIsInjective(k, n); }
      }
    }
  }

  lemma SameGrant(q: Request, a: set<Lock>, b: set<Lock>)
    requires Full(q, a) && Full(q, b) && a <= b
    requires forall l :: l in b ==> if l.Legacy? then l.i < LEGACY_SLOTS else l.i < WORKBENCH_SLOTS
    ensures a == b
  {
    SubsetOfSameSize(SlotsIn(a), SlotsIn(b));
    forall l | l in b
      ensures l in a
    {
      if l.Slot? { assert l.i in SlotsIn(b); }
    }
  }

  lemma MoveSound(w: World, s: Step)
    requires Inv(w) && Enabled(w, s) && !s.Submit? && !s.LegacyTakes? && !s.LegacyDrops?
    ensures var q := w.requests[s.id];
            var r := Moved(w, q, s);
            && Sound(r)
            && (forall l :: Holds(r, l) ==> Holds(q, l) || (s.TryLock? && l == LockAt(q.phase.next) && Available(w, l)))
  {
    var q := w.requests[s.id];
    if s.TryLock? {
      TrySound(q, Available(w, LockAt(q.phase.next)));
    } else if s.StartCommand? {
      forall n | n in q.monitors
        ensures q.monitors[n] == q.fds
      {
        assert forall l :: l in q.monitors[n] ==> Holds(q, l);
        SameGrant(q, q.fds, q.monitors[n]);
      }
    }
  }

  lemma StepKeeps(w: World, s: Step)
    requires Inv(w) && Enabled(w, s)
    ensures Inv(After(w, s))
  {
    var v := After(w, s);
    if s.Submit? || s.LegacyTakes? || s.LegacyDrops? {
      assert forall id, l :: HeldIn(v, id, l) ==> HeldIn(w, id, l);
    } else {
      MoveSound(w, s);
      var q := w.requests[s.id];
      forall id, l | HeldIn(v, id, l)
        ensures HeldIn(w, id, l) || (id == s.id && Available(w, l))
      {
        if id == s.id { assert Holds(Moved(w, q, s), l); }
      }
      forall a, b, j | a != b && HeldIn(v, a, Slot(j))
        ensures !HeldIn(v, b, Slot(j))
      {
        assert HeldIn(w, a, Slot(j)) || (a == s.id && Available(w, Slot(j)));
      }
    }
  }

  lemma {:induction false} RunKeeps(w: World, steps: seq<Step>)
    requires Inv(w) && Run(w, steps).Some?
    ensures Inv(Run(w, steps).value)
    decreases steps
  {
    if steps != [] {
      StepKeeps(w, steps[0]);
      RunKeeps(After(w, steps[0]), steps[1..]);
    }
  }

  // ---------- what every reachable world satisfies ----------

  ghost predicate Reachable(w: World) {
    exists steps :: Run(World(map[], map[]), steps) == Some(w)
  }

  lemma ReachableIsSound(w: World)
    requires Reachable(w)
    ensures Inv(w)
  {
    var steps :| Run(World(map[], map[]), steps) == Some(w);
    RunKeeps(World(map[], map[]), steps);
  }

  ghost function HeldSlots(q: Request): set<nat> {
    set j: nat | j < WORKBENCH_SLOTS && Holds(q, Slot(j))
  }

  /** An admitted worker, and every monitor left behind by a dead one, holds exactly the slots the
      request asked for and every legacy lock. */
  lemma RunningHoldsWhatItAsked(w: World, id: nat)
    requires Reachable(w) && id in w.requests && Running(w.requests[id])
    ensures |HeldSlots(w.requests[id])| == w.requests[id].wanted
    ensures forall i: nat :: i < LEGACY_SLOTS ==> Holds(w.requests[id], Legacy(i)) && i !in w.legacy
  {
    ReachableIsSound(w);
    var q := w.requests[id];
    var locks := if q.phase.Admitted? then q.fds else var m :| m in q.monitors; q.monitors[m];
    assert Full(q, locks);
    forall j: nat | j < WORKBENCH_SLOTS
      ensures Holds(q, Slot(j)) <==> Slot(j) in locks
    {
      if m :| m in q.monitors && Slot(j) in q.monitors[m] {
        assert Full(q, q.monitors[m]);
        if q.phase.Admitted? {
          assert SlotsIn(q.fds) <= SlotsIn(q.monitors[m]);
          SubsetOfSameSize(SlotsIn(q.fds), SlotsIn(q.monitors[m]));
          assert j in SlotsIn(q.monitors[m]);
        }
      }
    }
    assert HeldSlots(q) == SlotsIn(locks);
    forall i: nat | i < LEGACY_SLOTS
      ensures Holds(q, Legacy(i)) && i !in w.legacy
    {
      assert Legacy(i) in locks;
      assert HeldIn(w, id, Legacy(i));
    }
  }

  lemma SlotsAreExclusive(w: World, a: nat, b: nat, j: nat)
    requires Reachable(w) && HeldIn(w, a, Slot(j)) && HeldIn(w, b, Slot(j))
    ensures a == b
  {
    ReachableIsSound(w);
  }

  lemma LegacyWorkersAreExcluded(w: World, i: nat, id: nat)
    requires Reachable(w) && i in w.legacy
    ensures !HeldIn(w, id, Legacy(i))
    ensures id in w.requests ==> !Running(w.requests[id]) || i >= LEGACY_SLOTS
  {
    ReachableIsSound(w);
    if id in w.requests && Running(w.requests[id]) && i < LEGACY_SLOTS {
      RunningHoldsWhatItAsked(w, id);
    }
  }

  lemma EverySlot(s: set<nat>)
    requires (forall j :: j in s ==> j < WORKBENCH_SLOTS) && |s| == WORKBENCH_SLOTS
    ensures forall j: nat :: j < WORKBENCH_SLOTS ==> j in s
  {
    SubsetOfSameSize(s, {0, 1, 2, 3, 4, 5, 6, 7});
  }

  /** While a request for all slots runs, nobody else holds a slot or runs, and no old worker holds a lock. */
  lemma ExclusiveIsAlone(w: World, id: nat, other: nat)
    requires Reachable(w) && id in w.requests && other in w.requests && other != id
    requires Running(w.requests[id]) && w.requests[id].wanted == WORKBENCH_SLOTS
    ensures HeldSlots(w.requests[other]) == {} && !Running(w.requests[other])
    ensures forall i: nat :: i < LEGACY_SLOTS ==> i !in w.legacy
  {
    RunningHoldsWhatItAsked(w, id);
    EverySlot(HeldSlots(w.requests[id]));
    forall j: nat | j < WORKBENCH_SLOTS
      ensures !Holds(w.requests[other], Slot(j))
    {
      assert j in HeldSlots(w.requests[id]);
      assert HeldIn(w, id, Slot(j));
      if HeldIn(w, other, Slot(j)) { SlotsAreExclusive(w, id, other, j); }
    }
    if Running(w.requests[other]) {
      RunningHoldsWhatItAsked(w, other);
      ReachableIsSound(w);
    }
  }

  /** A refused attempt keeps nothing while it sleeps, nor does a worker that left without a monitor. */
  lemma SleepersHoldNothing(w: World, id: nat, l: Lock)
    requires Reachable(w) && id in w.requests
    requires w.requests[id].phase.Sleeping? || (w.requests[id].phase.Gone? && w.requests[id].monitors == map[])
    ensures !HeldIn(w, id, l)
  {
    ReachableIsSound(w);
  }

  // ---------- compiler jobs ----------

  /** The most jobs a compiling command of this request is given: 64 for all slots, 8 for each slot otherwise. */
  function Jobs(q: Request): nat {
    SHARED_BUILD_JOBS * q.wanted
  }

  ghost predicate CompilingIds(w: World, ids: seq<nat>) {
    && (forall a, b :: 0 <= a < b < |ids| ==> ids[a] != ids[b])
    && (forall k :: 0 <= k < |ids| ==> ids[k] in w.requests && w.requests[ids[k]].compiling.Some?)
  }

  ghost function TotalJobs(w: World, ids: seq<nat>): nat
    requires CompilingIds(w, ids)
  {
    if ids == [] then 0 else Jobs(w.requests[ids[0]]) + TotalJobs(w, ids[1..])
  }

  ghost function SlotsOf(w: World, ids: seq<nat>): set<nat> {
    set j: nat | j < WORKBENCH_SLOTS && exists k :: 0 <= k < |ids| && HeldIn(w, ids[k], Slot(j))
  }

  lemma FirstSlots(w: World, ids: seq<nat>)
    requires Reachable(w) && CompilingIds(w, ids) && ids != []
    ensures SlotsOf(w, ids) == HeldSlots(w.requests[ids[0]]) + SlotsOf(w, ids[1..])
    ensures HeldSlots(w.requests[ids[0]]) !! SlotsOf(w, ids[1..])
  {
    var mine, rest := HeldSlots(w.requests[ids[0]]), SlotsOf(w, ids[1..]);
    forall j: nat | j < WORKBENCH_SLOTS
      ensures j in SlotsOf(w, ids) <==> j in mine || j in rest
    {
      if j in mine { assert HeldIn(w, ids[0], Slot(j)); }
      if j in rest {
        var k :| 0 <= k < |ids[1..]| && HeldIn(w, ids[1..][k], Slot(j));
        assert HeldIn(w, ids[k + 1], Slot(j));
      }
      if k :| 0 <= k < |ids| && HeldIn(w, ids[k], Slot(j)) {
        if k > 0 { assert HeldIn(w, ids[1..][k - 1], Slot(j)); }
      }
    }
    forall j | j in mine && j in rest
      ensures false
    {
      var k :| 0 <= k < |ids[1..]| && HeldIn(w, ids[1..][k], Slot(j));
      SlotsAreExclusive(w, ids[0], ids[k + 1], j);
    }
  }

  lemma {:induction false} JobsAreSlots(w: World, ids: seq<nat>)
    requires Reachable(w) && CompilingIds(w, ids)
    ensures TotalJobs(w, ids) == SHARED_BUILD_JOBS * |SlotsOf(w, ids)|
  {
    if ids != [] {
      JobsAreSlots(w, ids[1..]);
      ReachableIsSound(w);
      assert Sound(w.requests[ids[0]]);
      RunningHoldsWhatItAsked(w, ids[0]);
      FirstSlots(w, ids);
    }
  }

  /** However many requests compile at once, workers that died included, they do so with at most 64 jobs together. */
  lemma JobsAreBounded(w: World, ids: seq<nat>)
    requires Reachable(w) && CompilingIds(w, ids)
    ensures TotalJobs(w, ids) <= EXCLUSIVE_BUILD_JOBS
  {
    JobsAreSlots(w, ids);
    SubsetSize(SlotsOf(w, ids), {0, 1, 2, 3, 4, 5, 6, 7});
  }
}
