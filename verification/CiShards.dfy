/** scripts/ci-shards.py: the hosted shards of a full plan run what the canonical workspace test runs. */
module CiShards {
  import opened Wrappers

  datatype Kind = TestKind | LibKind | ProcMacroKind | BinKind | OtherKind(name: string)

  /** `test`: Cargo runs the target when nothing is selected explicitly. */
  datatype Target = Target(name: string, kinds: set<Kind>, test: bool)

  datatype Package = Package(name: string, member: bool, targets: seq<Target>)

  datatype Entry = Entry(package: string, target: string)

  /** One row of `INTEGRATION_SHARDS`. */
  datatype Shard = Shard(name: string, entries: set<Entry>)

  // ---------- what metadata declares ----------

  predicate InWorkspace(p: Package) {
    p.member && p.name != "hiroute-desktop"
  }

  predicate IsUnit(t: Target) {
    LibKind in t.kinds || ProcMacroKind in t.kinds || BinKind in t.kinds
  }

  ghost predicate Declares(metadata: seq<Package>, package: string, t: Target) {
    exists p :: p in metadata && InWorkspace(p) && p.name == package && t in p.targets
  }

  ghost predicate IsIntegration(metadata: seq<Package>, e: Entry) {
    exists t :: Declares(metadata, e.package, t) && TestKind in t.kinds && t.name == e.target
  }

  predicate NeedsRule(t: Target) {
    TestKind !in t.kinds && t.test && !IsUnit(t)
  }

  ghost predicate Supported(metadata: seq<Package>) {
    forall package, t :: Declares(metadata, package, t) ==> !NeedsRule(t)
  }

  ghost predicate TargetsSoFar(metadata: seq<Package>, targets: set<Entry>, supported: bool) {
    && (forall e :: e in targets <==> IsIntegration(metadata, e))
    && (supported <==> Supported(metadata))
  }

  function OwnEntries(p: Package): set<Entry> {
    set t | t in p.targets && TestKind in t.kinds :: Entry(p.name, t.name)
  }

  lemma OnePackageMore(metadata: seq<Package>, p: Package, targets: set<Entry>, supported: bool)
    requires TargetsSoFar(metadata, targets, supported)
    ensures TargetsSoFar(metadata + [p],
              if InWorkspace(p) then targets + OwnEntries(p) else targets,
              supported && (InWorkspace(p) ==> forall t :: t in p.targets ==> !NeedsRule(t)))
  {
    var all := metadata + [p];
    assert forall q :: q in all <==> q in metadata || q == p;
    forall package, t
      ensures Declares(all, package, t) <==> Declares(metadata, package, t) || (InWorkspace(p) && p.name == package && t in p.targets)
    {
      if q :| q in metadata && InWorkspace(q) && q.name == package && t in q.targets { assert q in all; }
      if InWorkspace(p) && p.name == package && t in p.targets { assert p in all; }
    }
    forall e
      ensures IsIntegration(all, e) <==> IsIntegration(metadata, e) || (InWorkspace(p) && e in OwnEntries(p))
    {
      if InWorkspace(p) && e in OwnEntries(p) {
        var t :| t in p.targets && TestKind in t.kinds && e == Entry(p.name, t.name);
        assert Declares(all, e.package, t);
      }
    }
    if Supported(all) {
      forall package, t | Declares(metadata, package, t)
        ensures !NeedsRule(t)
      {
        assert Declares(all, package, t);
      }
      forall t | InWorkspace(p) && t in p.targets
        ensures !NeedsRule(t)
      {
        assert Declares(all, p.name, t);
      }
    }
  }

  /** `integration_targets`; `None` where it raises. */
  method IntegrationTargets(metadata: seq<Package>) returns (targets: Option<set<Entry>>)
    ensures targets.Some? <==> Supported(metadata)
    ensures targets.Some? ==> forall e :: e in targets.value <==> IsIntegration(metadata, e)
  {
    var found: set<Entry> := {};
    var supported := true;
    for n := 0 to |metadata|
      invariant TargetsSoFar(metadata[..n], found, supported)
    {
      var p := metadata[n];
      OnePackageMore(metadata[..n], p, found, supported);
      assert metadata[..n + 1] == metadata[..n] + [p];
      if InWorkspace(p) {
        var own, ok := PackageTargets(p);
        found, supported := found + own, supported && ok;
      }
    }
    assert metadata[..|metadata|] == metadata;
    targets := if supported then Some(found) else None;
  }

  method PackageTargets(p: Package) returns (own: set<Entry>, ok: bool)
    ensures own == OwnEntries(p)
    ensures ok <==> forall t :: t in p.targets ==> !NeedsRule(t)
  {
    own, ok := {}, true;
    for i := 0 to |p.targets|
      invariant own == set t | t in p.targets[..i] && TestKind in t.kinds :: Entry(p.name, t.name)
      invariant ok <==> forall t :: t in p.targets[..i] ==> !NeedsRule(t)
    {
      var t := p.targets[i];
      assert p.targets[..i + 1] == p.targets[..i] + [t];
      if TestKind in t.kinds {
        own := own + {Entry(p.name, t.name)};
      } else if NeedsRule(t) {
        ok := false;
      }
    }
    assert p.targets[..|p.targets|] == p.targets;
  }

  // ---------- the assignment ----------

  ghost predicate Disjoint(table: seq<Shard>) {
    forall i, j :: 0 <= i < j < |table| ==> table[i].entries !! table[j].entries
  }

  ghost predicate Assigned(table: seq<Shard>, e: Entry) {
    exists i :: 0 <= i < |table| && e in table[i].entries
  }

  /** Targets with one name stay in one shard. */
  ghost predicate Unsplit(table: seq<Shard>) {
    forall i, j, d, e :: 0 <= i < j < |table| && d in table[i].entries && e in table[j].entries ==> d.target != e.target
  }

  /** What `verify_assignments` accepts. */
  ghost predicate Accepted(table: seq<Shard>, metadata: seq<Package>) {
    && Supported(metadata) && Disjoint(table) && Unsplit(table)
    && forall e :: Assigned(table, e) <==> IsIntegration(metadata, e)
  }

  function NamesOf(s: Shard): set<string> {
    set e | e in s.entries :: e.target
  }

  ghost predicate OwnersSoFar(table: seq<Shard>, owned: set<Entry>) {
    Disjoint(table) && forall e :: e in owned <==> Assigned(table, e)
  }

  lemma AssignedNext(table: seq<Shard>, s: Shard, e: Entry)
    ensures Assigned(table + [s], e) <==> Assigned(table, e) || e in s.entries
  {
    var all := table + [s];
    assert forall i :: 0 <= i < |table| ==> all[i] == table[i];
    assert all[|table|] == s;
  }

  lemma OwnersNext(table: seq<Shard>, s: Shard, owned: set<Entry>)
    requires OwnersSoFar(table, owned)
    ensures if owned !! s.entries then OwnersSoFar(table + [s], owned + s.entries) else !Disjoint(table + [s])
  {
    var all := table + [s];
    assert forall i :: 0 <= i < |table| ==> all[i] == table[i];
    forall e
      ensures Assigned(all, e) <==> Assigned(table, e) || e in s.entries
    {
      AssignedNext(table, s, e);
    }
    if e :| e in owned && e in s.entries {
      var i :| 0 <= i < |table| && e in table[i].entries;
      assert e in all[i].entries && e in all[|table|].entries;
    }
  }

  lemma DisjointPrefix(table: seq<Shard>, n: nat)
    requires n <= |table| && Disjoint(table)
    ensures Disjoint(table[..n])
  {
  }

  method Owners(table: seq<Shard>) returns (owned: Option<set<Entry>>)
    ensures owned.Some? <==> Disjoint(table)
    ensures owned.Some? ==> forall e :: e in owned.value <==> Assigned(table, e)
  {
    var seen: set<Entry> := {};
    for n := 0 to |table|
      invariant OwnersSoFar(table[..n], seen)
    {
      OwnersNext(table[..n], table[n], seen);
      assert table[..n + 1] == table[..n] + [table[n]];
      if !(seen !! table[n].entries) {
        if Disjoint(table) { DisjointPrefix(table, n + 1); }
        return None;
      }
      seen := seen + table[n].entries;
    }
    assert table[..|table|] == table;
    owned := Some(seen);
  }

  ghost predicate NamesSoFar(table: seq<Shard>, names: set<string>) {
    Unsplit(table) && forall name :: name in names <==> exists e :: Assigned(table, e) && e.target == name
  }

  lemma NamesGrow(table: seq<Shard>, s: Shard, names: set<string>)
    requires NamesSoFar(table, names)
    ensures forall name :: name in names + NamesOf(s) <==> exists e :: Assigned(table + [s], e) && e.target == name
  {
    forall name
      ensures name in names + NamesOf(s) <==> exists e :: Assigned(table + [s], e) && e.target == name
    {
      if name in NamesOf(s) {
        var e :| e in s.entries && e.target == name;
        AssignedNext(table, s, e);
      } else if name in names {
        var e :| Assigned(table, e) && e.target == name;
        AssignedNext(table, s, e);
      }
      if e :| Assigned(table + [s], e) && e.target == name {
        AssignedNext(table, s, e);
      }
    }
  }

  lemma SameNameSplits(table: seq<Shard>, s: Shard, names: set<string>, name: string)
    requires NamesSoFar(table, names) && name in names && name in NamesOf(s)
    ensures !Unsplit(table + [s])
  {
    var all := table + [s];
    var d :| Assigned(table, d) && d.target == name;
    var e :| e in s.entries && e.target == name;
    var i :| 0 <= i < |table| && d in table[i].entries;
    assert d in all[i].entries && e in all[|table|].entries;
  }

  lemma NamesNext(table: seq<Shard>, s: Shard, names: set<string>)
    requires NamesSoFar(table, names)
    ensures if names !! NamesOf(s) then NamesSoFar(table + [s], names + NamesOf(s)) else !Unsplit(table + [s])
  {
    var all := table + [s];
    if name :| name in names && name in NamesOf(s) {
      SameNameSplits(table, s, names, name);
    } else {
      NamesGrow(table, s, names);
      forall i, j, d, e | 0 <= i < j < |all| && d in all[i].entries && e in all[j].entries
        ensures d.target != e.target
      {
        assert all[i] == table[i];
        if j == |table| {
          assert Assigned(table, d);
          assert d.target in names && e.target in NamesOf(s);
        } else {
          assert all[j] == table[j];
        }
      }
    }
  }

  lemma UnsplitPrefix(table: seq<Shard>, n: nat)
    requires n <= |table| && Unsplit(table)
    ensures Unsplit(table[..n])
  {
  }

  method SplitNames(table: seq<Shard>) returns (ok: bool)
    ensures ok <==> Unsplit(table)
  {
    var names: set<string> := {};
    for n := 0 to |table|
      invariant NamesSoFar(table[..n], names)
    {
      NamesNext(table[..n], table[n], names);
      assert table[..n + 1] == table[..n] + [table[n]];
      if !(names !! NamesOf(table[n])) {
        if Unsplit(table) { UnsplitPrefix(table, n + 1); }
        return false;
      }
      names := names + NamesOf(table[n]);
    }
    assert table[..|table|] == table;
    ok := true;
  }

  method VerifyAssignments(table: seq<Shard>, metadata: seq<Package>) returns (ok: bool)
    ensures ok <==> Accepted(table, metadata)
  {
    var actual := IntegrationTargets(metadata);
    if actual.None? {
      return false;
    }
    var expected := Owners(table);
    if expected.None? {
      return false;
    }
    if actual.value != expected.value {
      ghost var e := DifferentElement(actual.value, expected.value);
      assert Assigned(table, e) <==> !IsIntegration(metadata, e);
      return false;
    }
    ok := SplitNames(table);
  }

  lemma DifferentElement(a: set<Entry>, b: set<Entry>) returns (e: Entry)
    requires a != b
    ensures e in a <==> e !in b
  {
    if x :| x in a && x !in b {
      e := x;
    } else {
      e :| e in b && e !in a;
    }
  }

  // ---------- what a command runs ----------

  /** Target selections of the workspace test command. */
  datatype Filter = Everything | LibBins | Documentation | Named(names: set<string>)

  /** What can be run: a test executable, or a package's documentation tests. */
  datatype Unit = Executable(package: string, target: Target) | DocTests(package: string)

  ghost predicate IsUnitOf(metadata: seq<Package>, u: Unit) {
    match u
    case Executable(p, t) => Declares(metadata, p, t)
    case DocTests(p) => exists q :: q in metadata && InWorkspace(q) && q.name == p
  }

  /** Cargo's rules: without a selection every target with `test` set and the documentation tests; with one,
      every selected target whatever its `test` setting, in every package that has it. */
  predicate Runs(f: Filter, u: Unit) {
    match f
    case Everything => u.DocTests? || u.target.test
    case LibBins => u.Executable? && IsUnit(u.target)
    case Documentation => u.DocTests?
    case Named(names) => u.Executable? && TestKind in u.target.kinds && u.target.name in names
  }

  datatype Command = FullTest(filter: Filter) | Quality(argv: string) | Other(argv: string)

  datatype ShardPlan = ShardPlan(quality: seq<Command>, unit: Filter, gates: Filter, remainder: seq<Command>, integration: seq<Filter>)

  function Filters(table: seq<Shard>): (fs: seq<Filter>)
    ensures |fs| == |table| && forall i :: 0 <= i < |table| ==> fs[i] == Named(NamesOf(table[i]))
  {
    seq(|table|, i requires 0 <= i < |table| => Named(NamesOf(table[i])))
  }

  predicate IsCanonical(c: Command) {
    c == FullTest(Everything)
  }

  function Select(commands: seq<Command>, quality: bool): (s: seq<Command>)
    ensures forall c :: c in s <==> c in commands && !IsCanonical(c) && c.Quality? == quality
    ensures forall c :: multiset(s)[c] == if !IsCanonical(c) && c.Quality? == quality then multiset(commands)[c] else 0
  {
    if commands == [] then []
    else
      assert commands == commands[..|commands| - 1] + [commands[|commands| - 1]];
      var rest, c := Select(commands[..|commands| - 1], quality), commands[|commands| - 1];
      if !IsCanonical(c) && c.Quality? == quality then rest + [c] else rest
  }

  function CanonicalCount(commands: seq<Command>): nat {
    multiset(commands)[FullTest(Everything)]
  }

  /** The shards that are not integration shards. */
  const OwnShards: set<string> := {"quality", "unit", "gates"}

  function ShardNames(table: seq<Shard>): set<string> {
    set i | 0 <= i < |table| :: table[i].name
  }

  /** `full_commands`; `None` where it raises. `declared` are the shards the workflow starts; the table is a
      dictionary without the three other shards. */
  method FullCommands(commands: seq<Command>, table: seq<Shard>, metadata: seq<Package>, declared: set<string>) returns (plan: Option<ShardPlan>)
    requires (forall i, j :: 0 <= i < j < |table| ==> table[i].name != table[j].name) && OwnShards !! ShardNames(table)
    ensures plan.Some? <==>
      && CanonicalCount(commands) == 1 && Accepted(table, metadata) && OwnShards + ShardNames(table) == declared
      && (exists c :: c in commands && c.Quality?) && (exists c :: c in commands && !c.Quality? && !IsCanonical(c))
    ensures plan.Some? ==> plan.value == ShardPlan(Select(commands, true), LibBins, Documentation, Select(commands, false), Filters(table))
  {
    if CanonicalCount(commands) != 1 {
      return None;
    }
    var ok := VerifyAssignments(table, metadata);
    var quality, remainder := Select(commands, true), Select(commands, false);
    if quality != [] { assert quality[0] in commands; }
    if remainder != [] { assert remainder[0] in commands; }
    if !ok || quality == [] || remainder == [] || OwnShards + ShardNames(table) != declared {
      return None;
    }
    plan := Some(ShardPlan(quality, LibBins, Documentation, remainder, Filters(table)));
  }

  // ---------- the plan is preserved ----------

  ghost predicate ShardsRun(table: seq<Shard>, u: Unit) {
    || Runs(LibBins, u) || Runs(Documentation, u)
    || exists i :: 0 <= i < |table| && Runs(Filters(table)[i], u)
  }

  ghost predicate RunsAlone(table: seq<Shard>, i: nat, u: Unit)
    requires i < |table|
  {
    forall j :: 0 <= j < |table| ==> (Runs(Filters(table)[j], u) <==> j == i)
  }

  /** Every integration target is run by exactly one integration shard: the one it is assigned to. */
  lemma IntegrationTargetRunsOnce(table: seq<Shard>, metadata: seq<Package>, package: string, t: Target) returns (i: nat)
    requires Accepted(table, metadata) && Declares(metadata, package, t) && TestKind in t.kinds
    ensures i < |table| && Entry(package, t.name) in table[i].entries && RunsAlone(table, i, Executable(package, t))
  {
    var e := Entry(package, t.name);
    assert IsIntegration(metadata, e);
    i :| 0 <= i < |table| && e in table[i].entries;
    forall j | 0 <= j < |table| && Runs(Filters(table)[j], Executable(package, t))
      ensures j == i
    {
      var d :| d in table[j].entries && d.target == t.name;
    }
    assert RunsAlone(table, i, Executable(package, t));
  }

  /** Nothing the canonical command runs is missing from the shards. */
  lemma ShardsMissNothing(table: seq<Shard>, metadata: seq<Package>, u: Unit)
    requires Accepted(table, metadata) && IsUnitOf(metadata, u) && Runs(Everything, u)
    ensures ShardsRun(table, u)
  {
    if u.Executable? {
      assert !NeedsRule(u.target);
      if TestKind in u.target.kinds {
        var i := IntegrationTargetRunsOnce(table, metadata, u.package, u.target);
        assert Runs(Filters(table)[i], u);
      }
    }
  }

  /** Every selectable target is one Cargo also runs by default. */
  ghost predicate NothingSwitchedOff(metadata: seq<Package>) {
    forall package, t :: Declares(metadata, package, t) && (TestKind in t.kinds || IsUnit(t)) ==> t.test
  }

  /** The shards run exactly what the canonical command runs if and only if no selectable target is
      switched off in its manifest: an explicit selection runs those too. */
  lemma ShardsAreExactIff(table: seq<Shard>, metadata: seq<Package>)
    requires Accepted(table, metadata)
    ensures (forall u :: IsUnitOf(metadata, u) ==> (ShardsRun(table, u) <==> Runs(Everything, u))) <==> NothingSwitchedOff(metadata)
  {
    if NothingSwitchedOff(metadata) {
      forall u | IsUnitOf(metadata, u)
        ensures ShardsRun(table, u) <==> Runs(Everything, u)
      {
        if Runs(Everything, u) { ShardsMissNothing(table, metadata, u); }
      }
    }
    if forall u :: IsUnitOf(metadata, u) ==> (ShardsRun(table, u) <==> Runs(Everything, u)) {
      forall package, t | Declares(metadata, package, t) && (TestKind in t.kinds || IsUnit(t))
        ensures t.test
      {
        var u := Executable(package, t);
        assert IsUnitOf(metadata, u);
        if TestKind in t.kinds {
          var i := IntegrationTargetRunsOnce(table, metadata, package, t);
          assert Runs(Filters(table)[i], u);
        }
        assert ShardsRun(table, u);
      }
    }
  }

  /** Every other command of the plan goes to exactly one shard, as often as the plan has it. */
  lemma OtherCommandsKept(commands: seq<Command>)
    ensures multiset(commands) == multiset(Select(commands, true)) + multiset(Select(commands, false)) + multiset{}[FullTest(Everything) := CanonicalCount(commands)]
    ensures forall c :: c in Select(commands, true) ==> c !in Select(commands, false)
  {
  }
}
