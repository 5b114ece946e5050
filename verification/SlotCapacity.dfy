/** `capacity`: the retry loop of one worker, against any sequence of try-lock answers. */
module SlotCapacity {
  import opened Wrappers
  import opened SlotAdmission

  const LegacyHandles: seq<Lock> := [Legacy(0), Legacy(1), Legacy(2)]

  /** The slots among the first `n` that a try-lock grants, in index order. */
  function Granted(grant: Lock -> bool, n: nat): (s: seq<Lock>)
    ensures |s| <= n
    ensures forall j: nat :: Slot(j) in s <==> j < n && grant(Slot(j))
  {
    if n == 0 then []
    else if grant(Slot(n - 1)) then Granted(grant, n - 1) + [Slot(n - 1)]
    else Granted(grant, n - 1)
  }

  lemma {:induction false} GrantedGrows(grant: Lock -> bool, m: nat, n: nat)
    requires m <= n
    ensures Granted(grant, m) <= Granted(grant, n)
    decreases n
  {
    if m < n {
      GrantedGrows(grant, m, n - 1);
    }
  }

  /** An attempt is admitted exactly when no old worker is in the way and enough slots answer. */
  predicate Admits(grant: Lock -> bool, wanted: nat) {
    (forall l :: l in LegacyHandles ==> grant(l)) && |Granted(grant, WORKBENCH_SLOTS)| >= wanted
  }

  function Handles(grant: Lock -> bool, wanted: nat): seq<Lock>
    requires Admits(grant, wanted)
  {
    LegacyHandles + Granted(grant, WORKBENCH_SLOTS)[..wanted]
  }

  /** The first attempt that is admitted, if it comes no later than the deadline check that fails. */
  ghost predicate AdmittedAt(grants: nat -> Lock -> bool, expired: nat -> bool, wanted: nat, n: nat) {
    && Admits(grants(n), wanted)
    && forall k: nat :: k < n ==> !Admits(grants(k), wanted) && !expired(k)
  }

  ghost predicate TimedOutAt(grants: nat -> Lock -> bool, expired: nat -> bool, wanted: nat, n: nat) {
    && expired(n)
    && (forall k: nat :: k <= n ==> !Admits(grants(k), wanted))
    && (forall k: nat :: k < n ==> !expired(k))
  }

  datatype Outcome = InvalidRequest | Granting | CapacityTimeout

  class Capacity {
    var handles: seq<Lock>

    constructor ()
      ensures handles == []
    {
      handles := [];
    }

    /** All or nothing, whatever the other workers do between two try-locks. `grants(n)` answers the
        try-locks of attempt `n`; `expired(n)` is the deadline check after it, true by attempt `limit`. */
    method Acquire(exclusive: bool, slots: Option<int>, grants: nat -> Lock -> bool, expired: nat -> bool, limit: nat)
      returns (outcome: Outcome, attempt: nat)
      requires handles == [] && expired(limit)
      modifies this
      ensures outcome.InvalidRequest? <==> Wanted(exclusive, slots).None?
      ensures outcome.Granting? ==>
        var wanted := Wanted(exclusive, slots).value;
        AdmittedAt(grants, expired, wanted, attempt) && handles == Handles(grants(attempt), wanted)
      ensures outcome.CapacityTimeout? ==> TimedOutAt(grants, expired, Wanted(exclusive, slots).value, attempt)
      ensures !outcome.Granting? ==> handles == []
    {
      var request := Wanted(exclusive, slots);
      attempt := 0;
      if request.None? {
        return InvalidRequest, attempt;
      }
      while handles == []
        invariant handles == [] && attempt <= limit
        invariant forall k: nat :: k < attempt ==> !Admits(grants(k), request.value) && !expired(k)
        decreases limit - attempt
      {
        var admitted := Attempt(request.value, grants(attempt));
        if admitted {
          return Granting, attempt;
        }
        handles := [];
        if expired(attempt) {
          return CapacityTimeout, attempt;
        }
        attempt := attempt + 1;
      }
    }

    /** One round of try-locks; a refusal leaves whatever was taken for the caller to close. */
    method Attempt(wanted: nat, grant: Lock -> bool) returns (admitted: bool)
      requires handles == [] && 1 <= wanted <= WORKBENCH_SLOTS
      modifies this
      ensures admitted == Admits(grant, wanted)
      ensures admitted ==> handles == Handles(grant, wanted)
    {
      var legacy := TryLegacy(grant);
      if !legacy {
        return false;
      }
      var count := 0;
      var index := 0;
      while index < WORKBENCH_SLOTS && count < wanted
        invariant index <= WORKBENCH_SLOTS
        invariant count == |Granted(grant, index)| <= wanted
        invariant handles == LegacyHandles + Granted(grant, index)
      {
        if grant(Slot(index)) {
          handles := handles + [Slot(index)];
          count := count + 1;
        }
        index := index + 1;
      }
      admitted := count == wanted;
      GrantedGrows(grant, index, WORKBENCH_SLOTS);
      if admitted {
        assert Granted(grant, WORKBENCH_SLOTS)[..wanted] == Granted(grant, index);
      }
    }

    method TryLegacy(grant: Lock -> bool) returns (ok: bool)
      requires handles == []
      modifies this
      ensures ok <==> forall l :: l in LegacyHandles ==> grant(l)
      ensures ok ==> handles == LegacyHandles
    {
      var index := 0;
      ok := true;
      while index < LEGACY_SLOTS && ok
        invariant index <= LEGACY_SLOTS
        invariant handles == LegacyHandles[..index]
        invariant ok ==> forall i: nat | i < index :: grant(LegacyHandles[i])
        invariant !ok ==> index > 0 && !grant(LegacyHandles[index - 1])
      {
        assert LegacyHandles[index] == Legacy(index);
        handles := handles + [Legacy(index)];
        ok := grant(Legacy(index));
        index := index + 1;
      }
    }
  }

  // ---------- the same attempt as steps of the concurrent model ----------

  /** The worker's phase and descriptors after scanning on, with these answers and no crash. */
  ghost function Scanned(q: Request, grant: Lock -> bool): Request
    requires q.phase.Scanning? ==> q.phase.next < LAST
    decreases if q.phase.Scanning? then LAST - q.phase.next else 0
  {
    if !q.phase.Scanning? then q else Scanned(AfterTry(q, grant(LockAt(q.phase.next))), grant)
  }

  function Locks(s: seq<Lock>): set<Lock> {
    set l | l in s
  }

  lemma {:induction false} GrantedSize(grant: Lock -> bool, n: nat)
    requires n <= WORKBENCH_SLOTS
    ensures |SlotsIn(Locks(LegacyHandles + Granted(grant, n)))| == |Granted(grant, n)|
  {
    var all := Locks(LegacyHandles + Granted(grant, n));
    if n == 0 {
      assert SlotsIn(all) == {};
    } else {
      GrantedSize(grant, n - 1);
      var before := Locks(LegacyHandles + Granted(grant, n - 1));
      if grant(Slot(n - 1)) {
        assert all == before + {Slot(n - 1)};
        OneMore(before, Slot(n - 1));
      }
    }
  }

  lemma GrantedNext(q: Request, grant: Lock -> bool, j: nat)
    requires j < WORKBENCH_SLOTS && q.fds == Locks(LegacyHandles + Granted(grant, j))
    ensures Locks(LegacyHandles + Granted(grant, j + 1)) == if grant(Slot(j)) then q.fds + {Slot(j)} else q.fds
    ensures |SlotsIn(Locks(LegacyHandles + Granted(grant, j + 1)))| == |Granted(grant, j + 1)|
  {
    GrantedSize(grant, j + 1);
  }

  /** Steps of the concurrent model taken against one set of answers do exactly what the loop does. */
  lemma {:induction false} ScanRefinesAttempt(q: Request, grant: Lock -> bool, n: nat)
    requires LEGACY_SLOTS <= n < LAST && 1 <= q.wanted <= WORKBENCH_SLOTS
    requires q.phase == Scanning(n) && q.fds == Locks(LegacyHandles + Granted(grant, n - LEGACY_SLOTS))
    requires |Granted(grant, n - LEGACY_SLOTS)| < q.wanted
    requires forall l :: l in LegacyHandles ==> grant(l)
    ensures if Admits(grant, q.wanted)
            then Scanned(q, grant) == q.(phase := Admitted, fds := Locks(Handles(grant, q.wanted)))
            else Scanned(q, grant).phase == Closing(true)
    decreases LAST - n
  {
    var j := n - LEGACY_SLOTS;
    var next := AfterTry(q, grant(LockAt(n)));
    GrantedNext(q, grant, j);
    GrantedGrows(grant, j + 1, WORKBENCH_SLOTS);
    if |Granted(grant, j + 1)| == q.wanted {
      assert Granted(grant, WORKBENCH_SLOTS)[..q.wanted] == Granted(grant, j + 1);
    } else if n + 1 < LAST {
      ScanRefinesAttempt(next, grant, n + 1);
    }
  }

  lemma ScanFromStart(q: Request, grant: Lock -> bool)
    requires q.phase == Scanning(0) && q.fds == {} && 1 <= q.wanted <= WORKBENCH_SLOTS
    ensures if Admits(grant, q.wanted)
            then Scanned(q, grant) == q.(phase := Admitted, fds := Locks(Handles(grant, q.wanted)))
            else Scanned(q, grant).phase == Closing(true)
  {
    LegacyScan(q, grant, 0);
  }

  lemma {:induction false} LegacyScan(q: Request, grant: Lock -> bool, n: nat)
    requires n < LEGACY_SLOTS && 1 <= q.wanted <= WORKBENCH_SLOTS
    requires q.phase == Scanning(n) && q.fds == Locks(LegacyHandles[..n])
    requires forall k: nat | k < n :: grant(LegacyHandles[k])
    ensures if Admits(grant, q.wanted)
            then Scanned(q, grant) == q.(phase := Admitted, fds := Locks(Handles(grant, q.wanted)))
            else Scanned(q, grant).phase == Closing(true)
    decreases LEGACY_SLOTS - n
  {
    assert LegacyHandles[n] == Legacy(n);
    if !grant(Legacy(n)) {
      assert Legacy(n) in LegacyHandles;
    } else {
      var next := AfterTry(q, true);
      assert SlotsIn(q.fds + {Legacy(n)}) == {};
      assert Locks(LegacyHandles[..n + 1]) == q.fds + {Legacy(n)};
      if n + 1 < LEGACY_SLOTS {
        LegacyScan(next, grant, n + 1);
      } else {
        assert LegacyHandles[..3] == LegacyHandles + Granted(grant, 0);
        ScanRefinesAttempt(next, grant, 3);
      }
    }
  }
}
