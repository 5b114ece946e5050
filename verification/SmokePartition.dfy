/** The two lanes of the workspace-smoke schedule: an accepted listing is split without loss or overlap. */
module SmokePartition {
  import opened Wrappers
  import opened ParseLog

  const Smoke := "default_two_domain_smoke"

  function Select(names: seq<string>, keep: string -> bool): (s: seq<string>)
    ensures forall x :: x in s <==> x in names && keep(x)
  {
    if names == [] then []
    else
      var rest := Select(names[1..], keep);
      assert names == [names[0]] + names[1..];
      if keep(names[0]) then [names[0]] + rest else rest
  }

  function Sum(counts: seq<(nat, nat)>): nat {
    if counts == [] then 0 else counts[0].0 + Sum(counts[1..])
  }

  /** `listed_tests`: the number of tests, or an error. `counts` are the (tests, benchmarks) lines. */
  function ListedTests(names: seq<string>, counts: seq<(nat, nat)>): (n: Option<nat>)
    ensures n.Some? ==> n.value == |names|
    ensures n.Some? <==>
      && counts != [] && Sum(counts) == |names| && (forall k :: 0 <= k < |counts| ==> counts[k].1 == 0)
      && Select(names, x => Contains(x, Smoke)) == [Smoke]
  {
    if counts == [] || Sum(counts) != |names| || (exists k :: 0 <= k < |counts| && counts[k].1 != 0)
       || Select(names, x => Contains(x, Smoke)) != [Smoke] then None
    else Some(|names|)
  }

  /** The smoke lane runs the tests with that exact name, the remainder lane those it is not part of. */
  function SmokeLane(names: seq<string>): seq<string> {
    Select(names, x => x == Smoke)
  }

  function RemainderLane(names: seq<string>): seq<string> {
    Select(names, x => !Contains(x, Smoke))
  }

  lemma {:induction false} LanesAddUp(names: seq<string>)
    ensures multiset(names) == multiset(Select(names, x => Contains(x, Smoke))) + multiset(RemainderLane(names))
  {
    if names != [] {
      LanesAddUp(names[1..]);
      assert names == [names[0]] + names[1..];
    }
  }

  lemma {:induction false} ExactWithinSubstring(names: seq<string>)
    ensures SmokeLane(names) == Select(Select(names, x => Contains(x, Smoke)), x => x == Smoke)
  {
    if names != [] {
      ExactWithinSubstring(names[1..]);
      if names[0] == Smoke { assert Contains(Smoke, Smoke); }
    }
  }

  /** Every listed test, counted as often as it is listed, runs in exactly one of the lanes. */
  lemma AcceptedListingIsPartitioned(names: seq<string>, counts: seq<(nat, nat)>)
    requires ListedTests(names, counts).Some?
    ensures multiset(names) == multiset(SmokeLane(names)) + multiset(RemainderLane(names))
    ensures SmokeLane(names) == [Smoke] && Smoke !in RemainderLane(names)
    ensures |RemainderLane(names)| == ListedTests(names, counts).value - 1
  {
    LanesAddUp(names);
    ExactWithinSubstring(names);
    assert Select([Smoke], x => x == Smoke) == [Smoke] + Select([], x => x == Smoke);
    assert Contains(Smoke, Smoke);
    assert |multiset(names)| == |names|;
  }

  /** The verdict over the two lanes: each exited with zero and completed, the smoke lane ran one passing
      test, and the totals add up to the listing. */
  predicate Passed(smoke: Counts, remainder: Counts, lanesComplete: bool, expected: nat) {
    lanesComplete && smoke == Counts(1, 0, 0) && smoke.Total() + remainder.Total() == expected
  }

  /** A passing aggregate counts each listed test once: the remainder lane's total is its share. */
  lemma PassedCountsEachOnce(names: seq<string>, counts: seq<(nat, nat)>, smoke: Counts, remainder: Counts)
    requires ListedTests(names, counts).Some? && Passed(smoke, remainder, true, ListedTests(names, counts).value)
    ensures smoke.Total() == |SmokeLane(names)| && remainder.Total() == |RemainderLane(names)|
  {
    AcceptedListingIsPartitioned(names, counts);
  }
}
