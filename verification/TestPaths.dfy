/** The three losses of `TestSelection` on paths of the repository. */
module TestPaths {
  import opened Wrappers
  import opened TestSelection
  import opened TestPlan

  const ClientPath := "tools/e2e-harness/" + "src/p0/client.rs"
  const LevelPath := DiagnosticsSource + "level.rs"
  const LockPath := "Cargo.lock"

  lemma OtherHead(path: string, names: seq<string>)
    requires path != "" && forall k :: 0 <= k < |names| ==> names[k] != "" && names[k][0] != path[0]
    ensures path !in names && !StartsWithAny(path, names)
  {
    forall k | 0 <= k < |names|
      ensures !StartsWith(path, names[k])
    {
      assert names[k][0] != path[0];
    }
  }

  /** Only three first letters occur in the lists that are tried before the crates. */
  lemma NoTool(path: string)
    requires path != "" && path[0] != '.' && path[0] != 's' && path[0] != 'a'
    ensures path !in SelectionTools && path !in WebsiteTools && !StartsWithAny(path, WebsitePrefixes)
    ensures path !in HostedTools && path !in ValidationTools
  {
    OtherHead(path, SelectionTools);
    OtherHead(path, WebsiteTools);
    OtherHead(path, WebsitePrefixes);
    OtherHead(path, HostedTools);
    OtherHead(path, ValidationTools);
  }

  lemma {:induction false} FirstPartOf(owner: string, rest: string)
    requires '/' !in owner
    ensures FirstPart(owner + "/" + rest) == Some(owner)
  {
    if owner == "" {
      assert (owner + "/" + rest)[0] == '/';
    } else {
      assert (owner + "/" + rest)[0] == owner[0] && (owner + "/" + rest)[1..] == owner[1..] + "/" + rest;
      FirstPartOf(owner[1..], rest);
      assert owner == [owner[0]] + owner[1..];
    }
  }

  lemma OtherLetter(path: string, name: string, i: nat)
    requires i < |path| && i < |name| && path[i] != name[i]
    ensures path != name && !StartsWith(path, name)
  {
  }

  lemma ClientConsumes()
    ensures ConsumerOf(ClientPath) == Some(ClientSource)
  {
    OtherLetter(ClientPath, HarnessTests + "p0_gateway_runtime.rs", 18);
    OtherLetter(ClientPath, HarnessTests + "p0_gateway_runtime/", 18);
    OtherLetter(ClientPath, HarnessTests + "p0_gateway_protocol.rs", 18);
    OtherLetter(ClientPath, HarnessTests + "p0_gateway_protocol/", 18);
    OtherLetter(ClientPath, HarnessTests + "p0_gateway_matrix_coverage.rs", 18);
    OtherLetter(ClientPath, "tools/product-e2e/" + "tests/routing_plans.rs", 6);
    OtherLetter(ClientPath, "tools/product-e2e/src/routing/", 6);
  }

  lemma ClientIsBounded()
    ensures Classify(ClientPath) == Bounded(ClientSource)
  {
    NoTool(ClientPath);
    ClientConsumes();
  }

  lemma OtherStart(path: string, head: string, tail: string)
    requires path != "" && head != "" && head[0] != path[0]
    ensures path != head + tail && !StartsWith(path, head + tail)
  {
    assert (head + tail)[0] == head[0];
  }

  lemma NoConsumer(path: string)
    requires path != "" && path[0] != 't' && path[0] != 'e'
    ensures ConsumerOf(path) == None
  {
    OtherStart(path, HarnessTests, "p0_gateway_runtime.rs");
    OtherStart(path, HarnessTests, "p0_gateway_runtime/");
    OtherStart(path, HarnessTests, "p0_gateway_protocol.rs");
    OtherStart(path, HarnessTests, "p0_gateway_protocol/");
    OtherStart(path, HarnessTests, "p0_gateway_matrix_coverage.rs");
    OtherStart(path, "e2e/matrix/", "p0-gateway-coverage.json");
    OtherStart(path, "e2e/schema/", "p0-gateway-coverage.schema.json");
    OtherStart(path, "tools/product-e2e/", "tests/routing_plans.rs");
    OtherStart(path, "tools/e2e-harness/", "src/p0/client.rs");
    OtherHead(path, RoutingPrefixes);
  }

  lemma LockMakesFull()
    ensures Classify(LockPath) == Dependency
  {
    NoTool(LockPath);
    NoConsumer(LockPath);
    OtherHead(LockPath, DiagnosticContracts);
    assert LockPath[|LockPath| - |"Cargo.lock"|..] == "Cargo.lock";
  }

  /** A file of crate `owner` that is neither a document nor a manifest. */
  predicate CrateFile(owner: string, rest: string) {
    && owner != "" && '/' !in owner && rest != ""
    && !EndsWith("crates/" + owner + "/" + rest, ".md") && !IsManifest("crates/" + owner + "/" + rest)
  }

  lemma NoContract(owner: string, rest: string)
    requires '/' !in owner && owner != "diagnostics"
    ensures !StartsWithAny("crates/" + owner + "/" + rest, DiagnosticContracts)
  {
    var path := "crates/" + owner + "/" + rest;
    FirstPartOf(owner, rest);
    assert path[|"crates/"|..] == owner + "/" + rest;
    forall k | 0 <= k < |DiagnosticContracts|
      ensures !StartsWith(path, DiagnosticContracts[k])
    {
      if DiagnosticContracts[k] <= path {
        DiagnosticsOwner(DiagnosticContracts[k], path);
      }
    }
  }

  lemma DiagnosticsOwner(contract: string, path: string)
    requires "crates/diagnostics/" <= contract <= path
    ensures FirstPart(path[|"crates/"|..]) == Some("diagnostics")
  {
    var rest := path[|"crates/diagnostics/"|..];
    assert path == "crates/diagnostics/" + rest;
    assert path[|"crates/"|..] == "diagnostics" + "/" + rest;
    FirstPartOf("diagnostics", rest);
  }

  lemma CratePath(path: string)
    requires "crates/" <= path && !EndsWith(path, ".md") && !IsManifest(path) && !StartsWithAny(path, DiagnosticContracts)
    ensures Classify(path) == CrateClass(path)
  {
    assert path[0] == "crates/"[0] == 'c';
    NoTool(path);
    NoConsumer(path);
    OtherLetter(path, "apps/desktop/src-tauri/", 0);
    OtherLetter(path, "apps/desktop/", 0);
    OtherLetter(path, "assets/", 0);
  }

  lemma CrateClassOf(path: string, tail: string, owner: string)
    requires path == "crates/" + tail && FirstPart(tail) == Some(owner) && owner != "diagnostics"
    ensures CrateClass(path) == match OwnerGroup(owner) { case Some(g) => Owned(g, false) case None => Shared }
  {
    assert path[|"crates/"|..] == tail;
    if "crates/diagnostics/" <= path { DiagnosticsOwner("crates/diagnostics/", path); }
    NotLevel(path);
  }

  lemma NotLevel(path: string)
    requires !("crates/diagnostics/" <= path)
    ensures path != LevelPath
  {
  }

  /** Such a file belongs to the group of its crate, or asks for everything. */
  lemma CrateFileIsOwned(owner: string, rest: string)
    requires CrateFile(owner, rest) && owner != "diagnostics"
    ensures Classify("crates/" + owner + "/" + rest) == match OwnerGroup(owner) { case Some(g) => Owned(g, false) case None => Shared }
  {
    var path, tail := "crates/" + owner + "/" + rest, owner + "/" + rest;
    assert path == "crates/" + tail;
    NoContract(owner, rest);
    CratePath(path);
    FirstPartOf(owner, rest);
    CrateClassOf(path, tail, owner);
  }

  lemma SourceLosesProductLint(path: string, g: Group)
    requires Classify(path) == Owned(g, false) && !g.DiagnosticsGroup?
    ensures Obliges(ScopeOf(Classes({ClientPath}), false), Linted(ProductE2e))
    ensures !Obliges(ScopeOf(Classes({ClientPath, path}), false), Linted(ProductE2e))
  {
    ClientIsBounded();
    var client: Class := Bounded(ClientSource);
    assert Classes({ClientPath}) == {client};
    assert Classes({ClientPath, path}) == {client, Owned(g, false)};
    ProductLintIsLost(g);
  }

  /** Changing the gateway client source obliges the lint of the product tests; changing any source file of a
      product crate as well does not. */
  lemma PathsLoseProductLint(owner: string, rest: string)
    requires CrateFile(owner, rest) && OwnerGroup(owner).Some? && owner != "diagnostics"
    ensures var path := "crates/" + owner + "/" + rest;
            && Obliges(ScopeOf(Classes({ClientPath}), false), Linted(ProductE2e))
            && !Obliges(ScopeOf(Classes({ClientPath, path}), false), Linted(ProductE2e))
  {
    CrateFileIsOwned(owner, rest);
    SourceLosesProductLint("crates/" + owner + "/" + rest, OwnerGroup(owner).value);
  }

  lemma LevelIsNoContract()
    ensures !StartsWithAny(LevelPath, DiagnosticContracts)
  {
    OtherLetter(LevelPath, DiagnosticContracts[0], 23);
    OtherLetter(LevelPath, DiagnosticContracts[1], 23);
    OtherLetter(LevelPath, DiagnosticContracts[2], 23);
    OtherLetter(LevelPath, DiagnosticContracts[3], 23);
  }

  lemma LevelIsSource()
    ensures "crates/" <= LevelPath && !EndsWith(LevelPath, ".md") && !IsManifest(LevelPath)
  {
    assert LevelPath[|LevelPath| - 1] == 's';
    assert ".md"[2] == 'd' && "Cargo.toml"[9] == 'l' && "Cargo.lock"[9] == 'k';
  }

  lemma LevelIsOwned()
    ensures Classify(LevelPath) == Owned(DiagnosticsGroup, true)
  {
    LevelIsNoContract();
    LevelIsSource();
    CratePath(LevelPath);
    LevelOwner();
  }

  lemma LevelOwner()
    ensures FirstPart(LevelPath[|"crates/"|..]) == Some("diagnostics")
  {
    assert LevelPath[|"crates/"|..] == "diagnostics" + "/" + "src/level.rs";
    FirstPartOf("diagnostics", "src/level.rs");
  }

  ghost predicate LosesGates(less: set<string>, more: set<string>) {
    && Obliges(ScopeOf(Classes(less), false), LevelDefaultTested) && !Obliges(ScopeOf(Classes(more), false), LevelDefaultTested)
    && Obliges(ScopeOf(Classes(less), false), Gate(DesktopPilotTests)) && !Obliges(ScopeOf(Classes(more), false), Gate(DesktopPilotTests))
  }

  /** Changing the diagnostics level obliges its default test and the pilot's own tests; changing any path
      that asks for the full plan as well, save the hosted workflow's, obliges neither. */
  lemma PathsLoseDiagnosticsGates(path: string)
    requires MakesFull(Classify(path)) && !Classify(path).HostedExecution?
    ensures LosesGates({LevelPath}, {LevelPath, path})
  {
    LevelIsOwned();
    var level: Class, wide := Owned(DiagnosticsGroup, true), Classify(path);
    assert Classes({LevelPath}) == {level} && Classes({LevelPath, path}) == {level, wide};
    LevelScopes(wide);
    var a, b := ScopeOf({level}, false), ScopeOf({level, wide}, false);
    SelectionIsMonotoneExceptWhenLost({level}, {level, wide}, false, false, LevelDefaultTested);
    SelectionIsMonotoneExceptWhenLost({level}, {level, wide}, false, false, Gate(DesktopPilotTests));
  }

  lemma LevelScopes(wide: Class)
    requires MakesFull(wide) && !wide.HostedExecution?
    ensures var a := ScopeOf({Owned(DiagnosticsGroup, true)}, false); DiagnosticsGroup in a.groups && a.level && !a.full
    ensures var b := ScopeOf({Owned(DiagnosticsGroup, true), wide}, false); b.full && !b.validation
  {
    var level: Class := Owned(DiagnosticsGroup, true);
    assert level in {level} && DiagnosticsGroup in GroupsOf(level);
    assert wide in {level, wide} && MakesFull(wide);
  }

  /** A change of the lock file, for instance. */
  lemma LockLosesDiagnosticsGates()
    ensures LosesGates({LevelPath}, {LevelPath, LockPath})
  {
    LockMakesFull();
    PathsLoseDiagnosticsGates(LockPath);
  }
}
