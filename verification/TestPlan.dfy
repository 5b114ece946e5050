/** The loops of `select`: from changed paths to a command list. */
module TestPlan {
  import opened Wrappers
  import opened TestSelection

  // ---------- classifying a path ----------

  predicate StartsWith(s: string, prefix: string) {
    prefix <= s
  }

  predicate StartsWithAny(s: string, prefixes: seq<string>) {
    exists k :: 0 <= k < |prefixes| && StartsWith(s, prefixes[k])
  }

  predicate EndsWith(s: string, suffix: string) {
    |suffix| <= |s| && s[|s| - |suffix|..] == suffix
  }

  const SelectionTools: seq<string> := ["scripts/test-plan.py", "scripts/test-test-plan.py", ".agents/skills/hiroute-integrate/SKILL.md"]
  const WebsiteTools: seq<string> := [".github/workflows/website.yml", ".github/workflows/release.yml"]
  const WebsitePrefixes: seq<string> := ["apps/website/", ".github/scripts/"]
  const HostedTools: seq<string> := [".github/workflows/gateway-core.yml", "scripts/ci-run.py", "scripts/ci-shards.py"]
  const ValidationTools: seq<string> := [
    "scripts/validation.py", "scripts/validation-host.py", "scripts/test-validation.py",
    "scripts/validation-report.py", "scripts/test-validation-report.py", "scripts/ci-run.py", "scripts/test-ci-run.py",
    "scripts/ci-shards.py", "scripts/test-ci-shards.py", "scripts/pilot-builds.py", "scripts/test-pilot-builds.py",
    "scripts/desktop-pilot.py", "scripts/test-desktop-pilot.py", "scripts/local-rust.py", "scripts/test-local-rust.py",
    "scripts/remote-rust.py", "scripts/test-remote-rust.py", "scripts/validation-schedule.py", "scripts/test-validation-schedule.py"]
  const DiagnosticsSource := "crates/diagnostics/src/"
  const DiagnosticContracts: seq<string> := [
    DiagnosticsSource + "event/", DiagnosticsSource + "record.rs", DiagnosticsSource + "identity.rs", DiagnosticsSource + "error.rs"]
  const HarnessTests := "tools/e2e-harness/tests/"
  const CoverageFiles: seq<string> := [
    HarnessTests + "p0_gateway_matrix_coverage.rs", "e2e/matrix/" + "p0-gateway-coverage.json", "e2e/schema/" + "p0-gateway-coverage.schema.json"]
  const RoutingPrefixes: seq<string> := [
    "tools/product-e2e/src/routing/", "e2e/product/scenarios/routing/", "e2e/product/fixtures/routing/", "e2e/product/golden/routing/"]

  function ConsumerOf(path: string): Option<Consumer> {
    if path == HarnessTests + "p0_gateway_runtime.rs" || StartsWith(path, HarnessTests + "p0_gateway_runtime/") then Some(RuntimeTests)
    else if path == HarnessTests + "p0_gateway_protocol.rs" || StartsWith(path, HarnessTests + "p0_gateway_protocol/") then Some(ProtocolTests)
    else if path in CoverageFiles then Some(CoverageTests)
    else if path == "tools/product-e2e/" + "tests/routing_plans.rs" || StartsWithAny(path, RoutingPrefixes) then Some(RoutingTests)
    else if path == "tools/e2e-harness/" + "src/p0/client.rs" then Some(ClientSource)
    else None
  }

  /** The text before the first slash, if there is one. */
  function FirstPart(s: string): Option<string> {
    if s == "" then None
    else if s[0] == '/' then Some("")
    else match FirstPart(s[1..]) case Some(rest) => Some([s[0]] + rest) case None => None
  }

  function OwnerGroup(owner: string): Option<Group> {
    if owner == "gateway-core" || owner == "gateway" then Some(GatewayGroup)
    else if owner == "cli" || owner == "client-core" then Some(CliGroup)
    else if owner == "integrations" then Some(IntegrationsGroup)
    else if owner == "local-storage" then Some(StorageGroup)
    else if owner == "observation" then Some(ObservationGroup)
    else if owner == "daemon" then Some(DaemonGroup)
    else if owner == "cpa-bridge" then Some(CpaGroup)
    else if owner == "diagnostics" then Some(DiagnosticsGroup)
    else None
  }

  predicate IsManifest(path: string) {
    EndsWith(path, "Cargo.toml") || EndsWith(path, "Cargo.lock")
  }

  function CrateClass(path: string): Class
    requires StartsWith(path, "crates/")
  {
    match FirstPart(path[|"crates/"|..])
    case None => Shared
    case Some(owner) =>
      match OwnerGroup(owner)
      case Some(g) => Owned(g, path == DiagnosticsSource + "level.rs")
      case None => Shared
  }

  /** The branches in the order they are tried. */
  function Classify(path: string): Class {
    if path in SelectionTools then SelectionTooling
    else if path in WebsiteTools || StartsWithAny(path, WebsitePrefixes) then Website
    else if path in HostedTools then HostedExecution
    else if path in ValidationTools then ValidationTooling
    else if ConsumerOf(path).Some? then Bounded(ConsumerOf(path).value)
    else if StartsWithAny(path, DiagnosticContracts) then DiagnosticContract
    else if StartsWith(path, "apps/desktop/src-tauri/") then NativeEntry(IsManifest(path))
    else if StartsWith(path, "apps/desktop/") then FrontendOnly
    else if StartsWith(path, "assets/") && Contains(path, "/BRAND_ASSETS") then FrontendOnly
    else if EndsWith(path, ".md") && !StartsWith(path, ".agents/") then
      if StartsWith(path, "docs/") || StartsWith(path, "issue-spec/specs/") || path == "README.md" || path == "AGENTS.md" then PlainDocument
      else EmbeddedDocument
    else if IsManifest(path) then Dependency
    else if StartsWith(path, "crates/") then CrateClass(path)
    else Shared
  }

  // ---------- the loops ----------

  ghost function Classes(paths: set<string>): set<Class> {
    set p | p in paths :: Classify(p)
  }

  lemma ScopeNext(classes: set<Class>, full: bool, c: Class)
    ensures With(ScopeOf(classes, full), c) == ScopeOf(classes + {c}, full)
  {
    var s, t := ScopeOf(classes, full), ScopeOf(classes + {c}, full);
    assert c in classes + {c};
    assert forall d :: d in classes ==> d in classes + {c};
    assert t.groups == s.groups + GroupsOf(c);
    assert t.targets == s.targets + TargetsOf(c);
  }

  function Named(paths: seq<string>): set<string> {
    set p | p in paths
  }

  /** The scope of the paths that were visited. */
  ghost predicate Gathered(s: Scope, done: set<string>, full: bool) {
    s == ScopeOf(Classes(done), full)
  }

  lemma GatherStart(full: bool)
    ensures Gathered(Nothing(full), {}, full)
  {
    assert Classes({}) == {};
  }

  lemma GatherNext(s: Scope, done: set<string>, p: string, full: bool)
    requires Gathered(s, done, full)
    ensures Gathered(With(s, Classify(p)), done + {p}, full)
  {
    assert Classes(done + {p}) == Classes(done) + {Classify(p)};
    ScopeNext(Classes(done), full, Classify(p));
  }

  method Visit(s: Scope, ghost done: set<string>, p: string, full: bool) returns (next: Scope)
    requires Gathered(s, done, full)
    ensures Gathered(next, done + {p}, full)
  {
    GatherNext(s, done, p, full);
    next := With(s, Classify(p));
  }

  method Gather(paths: seq<string>, full: bool) returns (s: Scope)
    ensures Gathered(s, Named(paths), full)
  {
    s := Nothing(full);
    GatherStart(full);
    var todo := Named(paths);
    ghost var done: set<string> := {};
    while todo != {}
      invariant done + todo == Named(paths)
      invariant Gathered(s, done, full)
      decreases |todo|
    {
      var p :| p in todo;
      s := Visit(s, done, p, full);
      todo, done := todo - {p}, done + {p};
    }
    assert done == Named(paths);
  }

  method FocusedCommands(s: Scope) returns (commands: seq<Command>)
    requires s.targets != {} && !s.full
    ensures forall c :: c in commands <==> Runs(s, c) && (c.FocusedClippy? || c.FocusedTest?)
  {
    commands := [];
    var context := NeedsRuntimeContext(s);
    var packages := set t | t in Pending(s) :: t.package;
    var lint := packages;
    while lint != {}
      invariant lint <= packages
      invariant forall c :: c in commands <==> c.FocusedClippy? && c.package in packages - lint && c.preserveOrder == (context && c.package.E2e?)
      decreases |lint|
    {
      var p :| p in lint;
      lint := lint - {p};
      commands := commands + [FocusedClippy(p, context && p.E2e?)];
    }
    var todo := Pending(s);
    while todo != {}
      invariant todo <= Pending(s)
      invariant forall c :: c in commands <==>
        || (c.FocusedClippy? && c.package in packages && c.preserveOrder == (context && c.package.E2e?))
        || (c.FocusedTest? && c.focus in Pending(s) - todo && c.preserveOrder == c.focus.target.Runtime? && c.singleThread == SingleThreaded(c.focus.target))
      decreases |todo|
    {
      var t :| t in todo;
      todo := todo - {t};
      commands := commands + [FocusedTest(t, t.target.Runtime?, SingleThreaded(t.target))];
    }
  }

  method ScriptCommands(s: Scope) returns (commands: seq<Command>)
    ensures forall c :: c in commands <==> Runs(s, c) && c.Script?
  {
    commands := [];
    if DiagnosticsGroup in s.groups && !s.full { commands := [Script(DesktopPilotTests)]; }
    if s.selection { commands := commands + [Script(TestPlanTests)]; }
    if s.validation {
      var n := 0;
      ghost var before := commands;
      while n < ValidationScripts
        invariant n <= ValidationScripts
        invariant forall c :: c in commands <==> c in before || (c.Script? && c.name.ValidationTests? && c.name.n < n)
      {
        commands := commands + [Script(ValidationTests(n))];
        n := n + 1;
      }
      commands := commands + [Script(DesktopPilotTests)];
    }
    if s.full || s.any { commands := commands + [Script(ConvergenceTests), Script(ConvergenceCheck)]; }
  }

  method BroadCommands(s: Scope) returns (commands: seq<Command>)
    requires s.full || s.groups != {}
    ensures forall c :: c in commands <==> Runs(s, c) && !c.FocusedClippy? && !c.FocusedTest? && !c.Script? && !c.LevelDefault?
  {
    var selection := if s.full then Workspace else Packages(AllMembers(s.groups));
    commands := [Fmt, Clippy(selection), TestAll(selection)];
    if !s.full && TouchesProduct(s.groups) { commands := commands + [SmokeRun]; }
    if s.full || GatewayGroup in s.groups { commands := commands + [TransportLoopback]; }
    if s.full || GatewayGroup in s.groups { commands := commands + [RoutingScenario]; }
  }

  method Commands(s: Scope) returns (commands: seq<Command>)
    ensures forall c :: c in commands <==> Runs(s, c)
  {
    var broad: seq<Command>, focused: seq<Command>, level: seq<Command> := [], [], [];
    if s.full || s.groups != {} {
      broad := BroadCommands(s);
    } else if s.targets != {} {
      broad := [Fmt];
    }
    if s.targets != {} && !s.full {
      focused := FocusedCommands(s);
    }
    if DiagnosticsGroup in s.groups && !s.full && s.level {
      level := [LevelDefault];
    }
    var scripts := ScriptCommands(s);
    commands := broad + focused + level + scripts;
    forall c
      ensures c in commands <==> Runs(s, c)
    {
      assert c in commands <==> c in broad || c in focused || c in level || c in scripts;
    }
  }

  /** The plan holds exactly the commands that the scope of its paths asks for. */
  method Select(paths: seq<string>, full: bool) returns (s: Scope, commands: seq<Command>)
    ensures s == ScopeOf(Classes(Named(paths)), full)
    ensures forall c :: c in commands <==> Runs(s, c)
  {
    s := Gather(paths, full);
    commands := Commands(s);
  }

  /** Order and repetition of the paths do not matter. */
  lemma OrderDoesNotMatter(a: seq<string>, b: seq<string>, full: bool)
    requires forall p :: p in a <==> p in b
    ensures ScopeOf(Classes(Named(a)), full) == ScopeOf(Classes(Named(b)), full)
  {
    assert Named(a) == Named(b);
  }

  /** A plan for more paths keeps every obligation but those listed by `Lost`. */
  lemma MorePathsKeepObligations(less: seq<string>, more: seq<string>, full: bool, fuller: bool, o: Obligation)
    requires (forall p :: p in less ==> p in more) && (full ==> fuller)
    ensures var a, b := ScopeOf(Classes(Named(less)), full), ScopeOf(Classes(Named(more)), fuller);
            Obliges(a, o) && !Obliges(b, o) <==> Lost(a, b, o)
  {
    assert Classes(Named(less)) <= Classes(Named(more));
    SelectionIsMonotoneExceptWhenLost(Classes(Named(less)), Classes(Named(more)), full, fuller, o);
  }
}
