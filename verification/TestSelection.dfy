/** `select` of scripts/test-plan.py: which checks a set of changed paths obliges, and when adding a path
    loses one. */
module TestSelection {

  datatype Package =
    | GatewayCore | Gateway | E2e | Integrations | CpaBridge | LocalStorage | ReleaseFacts | Daemon | Cli
    | ClientCore | Application | Observation | Diagnostics | ProductE2e | Desktop | OtherPackage(name: string)

  datatype Group = GatewayGroup | CliGroup | IntegrationsGroup | StorageGroup | ObservationGroup | DaemonGroup | CpaGroup | DiagnosticsGroup

  datatype TestTarget = Lib | Runtime | Protocol | Coverage | Oracle | RoutingPlans | SmokeCli | OtherTarget(name: string)

  datatype Focus = Focus(package: Package, target: TestTarget)

  /** `GROUPS`. */
  function Members(g: Group): set<Package> {
    match g
    case GatewayGroup => {GatewayCore, Gateway, E2e, Integrations, CpaBridge, LocalStorage, ReleaseFacts, Daemon, Cli}
    case CliGroup => {Cli, ClientCore, Daemon}
    case IntegrationsGroup => {Integrations, Application, Daemon, Cli, CpaBridge, LocalStorage, ReleaseFacts}
    case StorageGroup => {LocalStorage, Observation, Application, Daemon, ClientCore, Cli}
    case ObservationGroup => {Observation, Daemon, ClientCore, Cli}
    case DaemonGroup => {Daemon, Cli}
    case CpaGroup => {CpaBridge, Daemon, Integrations, Cli}
    case DiagnosticsGroup => {Diagnostics}
  }

  // ---------- what one path means ----------

  datatype Consumer = RuntimeTests | ProtocolTests | CoverageTests | RoutingTests | ClientSource

  /** The branches of the loop over changed paths. */
  datatype Class =
    | SelectionTooling | Website | HostedExecution | ValidationTooling | Bounded(consumer: Consumer)
    | DiagnosticContract | NativeEntry(dependency: bool) | FrontendOnly | PlainDocument | EmbeddedDocument
    | Dependency | Owned(group: Group, level: bool) | Shared

  /** `e2e_consumers`. */
  function Consumers(c: Consumer): set<Focus> {
    match c
    case RuntimeTests => {Focus(E2e, Runtime), Focus(E2e, Protocol), Focus(E2e, Coverage)}
    case ProtocolTests => {Focus(E2e, Protocol), Focus(E2e, Coverage)}
    case CoverageTests => {Focus(E2e, Coverage)}
    case RoutingTests => {Focus(ProductE2e, RoutingPlans)}
    case ClientSource => {Focus(E2e, Lib), Focus(E2e, Protocol), Focus(E2e, Oracle), Focus(E2e, Coverage), Focus(ProductE2e, SmokeCli)}
  }

  predicate MakesFull(c: Class) {
    || c.HostedExecution? || c.DiagnosticContract? || c.EmbeddedDocument? || c.Dependency? || c.Shared?
    || (c.NativeEntry? && c.dependency)
  }

  function GroupsOf(c: Class): set<Group> {
    match c
    case NativeEntry(_) => {CliGroup}
    case Owned(g, _) => {g}
    case _ => {}
  }

  function TargetsOf(c: Class): set<Focus> {
    if c.Bounded? then Consumers(c.consumer) else {}
  }

  /** What the loop has gathered. */
  datatype Scope = Scope(full: bool, frontend: bool, native: bool, selection: bool, validation: bool,
    groups: set<Group>, targets: set<Focus>, level: bool, any: bool)

  function Nothing(full: bool): Scope {
    Scope(full, full, false, false, false, {}, {}, false, false)
  }

  function With(s: Scope, c: Class): Scope {
    Scope(
      s.full || MakesFull(c),
      s.frontend || c.NativeEntry? || c.FrontendOnly?,
      s.native || c.NativeEntry?,
      s.selection || c.SelectionTooling?,
      s.validation || c.HostedExecution? || c.ValidationTooling?,
      s.groups + GroupsOf(c),
      s.targets + TargetsOf(c),
      s.level || (c.Owned? && c.level),
      true)
  }

  /** The scope of a set of paths, whatever the order and however often each is named. */
  ghost function ScopeOf(classes: set<Class>, full: bool): Scope {
    Scope(
      full || exists c :: c in classes && MakesFull(c),
      full || exists c :: c in classes && (c.NativeEntry? || c.FrontendOnly?),
      exists c :: c in classes && c.NativeEntry?,
      SelectionTooling in classes,
      HostedExecution in classes || ValidationTooling in classes,
      set c, g | c in classes && g in GroupsOf(c) :: g,
      set c, t | c in classes && t in TargetsOf(c) :: t,
      exists c :: c in classes && c.Owned? && c.level,
      classes != {})
  }

  // ---------- the commands ----------

  datatype Selection = Workspace | Packages(packages: set<Package>)

  datatype Command =
    | Fmt
    | Clippy(selection: Selection)
    | TestAll(selection: Selection)
    | SmokeRun
    | TransportLoopback
    | RoutingScenario
    | FocusedClippy(package: Package, preserveOrder: bool)
    | FocusedTest(focus: Focus, preserveOrder: bool, singleThread: bool)
    | Script(name: ScriptName)
    | LevelDefault

  datatype ScriptName = TestPlanTests | DesktopPilotTests | ValidationTests(n: nat) | ConvergenceTests | ConvergenceCheck

  /** The validation scripts other than the Desktop pilot's. */
  const ValidationScripts := 8

  function AllMembers(groups: set<Group>): set<Package> {
    set g, p | g in groups && p in Members(g) :: p
  }

  predicate TouchesProduct(groups: set<Group>) {
    exists g :: g in groups && !g.DiagnosticsGroup?
  }

  function Pending(s: Scope): set<Focus> {
    set t | t in s.targets && t.package !in AllMembers(s.groups) && !(t.target.SmokeCli? && TouchesProduct(s.groups))
  }

  predicate SingleThreaded(t: TestTarget) {
    t.Runtime? || t.Protocol? || t.SmokeCli?
  }

  predicate NeedsRuntimeContext(s: Scope) {
    Focus(E2e, Runtime) in Pending(s)
  }

  /** Command `c` is part of the plan. */
  predicate Runs(s: Scope, c: Command) {
    var broad := s.full || s.groups != {};
    var narrow := s.targets != {} && !s.full;
    match c
    case Fmt => broad || narrow
    case Clippy(sel) => broad && sel == if s.full then Workspace else Packages(AllMembers(s.groups))
    case TestAll(sel) => broad && sel == if s.full then Workspace else Packages(AllMembers(s.groups))
    case SmokeRun => !s.full && TouchesProduct(s.groups)
    case TransportLoopback => s.full || GatewayGroup in s.groups
    case RoutingScenario => s.full || GatewayGroup in s.groups
    case FocusedClippy(p, preserve) =>
      narrow && (exists t :: t in Pending(s) && t.package == p) && preserve == (NeedsRuntimeContext(s) && p.E2e?)
    case FocusedTest(t, preserve, single) =>
      narrow && t in Pending(s) && preserve == t.target.Runtime? && single == SingleThreaded(t.target)
    case Script(name) =>
      (match name
       case TestPlanTests => s.selection
       case DesktopPilotTests => (DiagnosticsGroup in s.groups && !s.full) || s.validation
       case ValidationTests(n) => s.validation && n < ValidationScripts
       case _ => s.full || s.any)
    case LevelDefault => DiagnosticsGroup in s.groups && !s.full && s.level
  }

  // ---------- what the commands cover ----------

  datatype Obligation =
    | Formatting
    | Linted(package: Package)
    | Tested(package: Package, target: TestTarget)
    | LoopbackSmoke
    | ScenarioValidated
    | Gate(name: ScriptName)
    | LevelDefaultTested
    | RustJob
    | FrontendJob
    | NativeJob

  predicate Selects(sel: Selection, p: Package) {
    match sel case Workspace => p != Desktop case Packages(ps) => p in ps
  }

  predicate IsRust(c: Command) {
    !c.Script? && !c.LevelDefault?
  }

  predicate Covers(c: Command, o: Obligation) {
    match o
    case Formatting => c.Fmt?
    case Linted(p) => (c.Clippy? && Selects(c.selection, p)) || (c.FocusedClippy? && c.package == p)
    case Tested(p, t) =>
      || (c.TestAll? && Selects(c.selection, p)) || (c.FocusedTest? && c.focus == Focus(p, t))
      || (c.SmokeRun? && p.ProductE2e? && t.SmokeCli?)
    case LoopbackSmoke => c.TransportLoopback?
    case ScenarioValidated => c.RoutingScenario?
    case Gate(name) => c == Script(name)
    case LevelDefaultTested => c.LevelDefault?
    case RustJob => IsRust(c)
    case FrontendJob => false
    case NativeJob => false
  }

  ghost predicate Obliges(s: Scope, o: Obligation) {
    match o
    case FrontendJob => s.frontend || s.full
    case NativeJob => s.native
    case _ => exists c :: Runs(s, c) && Covers(c, o)
  }

  // ---------- each obligation, spelled out ----------

  lemma LintedWhen(s: Scope, p: Package)
    ensures Obliges(s, Linted(p)) <==>
      if s.full then p != Desktop else p in AllMembers(s.groups) || exists t :: t in Pending(s) && t.package == p
  {
    var sel := if s.full then Workspace else Packages(AllMembers(s.groups));
    var wide, focused := Clippy(sel), FocusedClippy(p, NeedsRuntimeContext(s) && p.E2e?);
    assert Runs(s, wide) && Selects(sel, p) ==> Covers(wide, Linted(p));
    assert Runs(s, focused) ==> Covers(focused, Linted(p));
  }

  lemma TestedWhen(s: Scope, p: Package, t: TestTarget)
    ensures Obliges(s, Tested(p, t)) <==>
      if s.full then p != Desktop
      else p in AllMembers(s.groups) || Focus(p, t) in Pending(s) || (TouchesProduct(s.groups) && p.ProductE2e? && t.SmokeCli?)
  {
    var sel := if s.full then Workspace else Packages(AllMembers(s.groups));
    var wide, focused := TestAll(sel), FocusedTest(Focus(p, t), t.Runtime?, SingleThreaded(t));
    assert Runs(s, wide) && Selects(sel, p) ==> Covers(wide, Tested(p, t));
    assert Runs(s, focused) ==> Covers(focused, Tested(p, t));
    assert Runs(s, SmokeRun) && p.ProductE2e? && t.SmokeCli? ==> Covers(SmokeRun, Tested(p, t));
  }

  lemma OthersWhen(s: Scope, o: Obligation)
    requires !o.Linted? && !o.Tested?
    ensures Obliges(s, o) <==>
      match o
      case Formatting => Runs(s, Fmt)
      case LoopbackSmoke => Runs(s, TransportLoopback)
      case ScenarioValidated => Runs(s, RoutingScenario)
      case Gate(name) => Runs(s, Script(name))
      case LevelDefaultTested => Runs(s, LevelDefault)
      case RustJob => Runs(s, Fmt)
      case FrontendJob => s.frontend || s.full
      case NativeJob => s.native
      case _ => false
  {
    if o.Gate? { assert Covers(Script(o.name), o); }
    assert Covers(Fmt, Formatting) && Covers(Fmt, RustJob) && Covers(TransportLoopback, LoopbackSmoke);
    assert Covers(RoutingScenario, ScenarioValidated) && Covers(LevelDefault, LevelDefaultTested);
  }

  // ---------- monotonicity ----------

  /** `b` comes from at least the paths of `a`. */
  ghost predicate Extends(a: Scope, b: Scope) {
    && (a.full ==> b.full) && (a.frontend ==> b.frontend) && (a.native ==> b.native)
    && (a.selection ==> b.selection) && (a.validation ==> b.validation) && (a.level ==> b.level) && (a.any ==> b.any)
    && a.groups <= b.groups && a.targets <= b.targets
  }

  /** Targets are only ever focused in packages that no full run leaves out. */
  ghost predicate Focused(s: Scope) {
    forall t :: t in s.targets ==> (t.package.E2e? && !t.target.SmokeCli?) || (t.package.ProductE2e? && (t.target.RoutingPlans? || t.target.SmokeCli?))
  }

  lemma MoreGroups(a: set<Group>, b: set<Group>)
    requires a <= b
    ensures AllMembers(a) <= AllMembers(b) && (TouchesProduct(a) ==> TouchesProduct(b))
    ensures ProductE2e !in AllMembers(b) && Desktop !in AllMembers(b)
  {
  }

  /** Lint of the product tests, gained through the CLI smoke target, is lost to any product group. */
  predicate SwallowsProductLint(a: Scope, b: Scope) {
    && !b.full && Focus(ProductE2e, SmokeCli) in a.targets && Focus(ProductE2e, RoutingPlans) !in b.targets
    && !TouchesProduct(a.groups) && TouchesProduct(b.groups)
  }

  /** Everything an extension of the path set can lose, and exactly when. */
  predicate Lost(a: Scope, b: Scope, o: Obligation) {
    || (o == Gate(DesktopPilotTests) && DiagnosticsGroup in a.groups && !a.full && b.full && !b.validation)
    || (o == LevelDefaultTested && DiagnosticsGroup in a.groups && a.level && !a.full && b.full)
    || (o == Linted(ProductE2e) && SwallowsProductLint(a, b))
  }

  lemma LintLost(a: Scope, b: Scope, p: Package)
    requires Extends(a, b) && Focused(a) && Focused(b)
    ensures Obliges(a, Linted(p)) && !Obliges(b, Linted(p)) <==> Lost(a, b, Linted(p))
  {
    LintedWhen(a, p);
    LintedWhen(b, p);
    MoreGroups(a.groups, b.groups);
    if Lost(a, b, Linted(p)) {
      assert Focus(ProductE2e, SmokeCli) in Pending(a);
    } else if t :| t in Pending(a) && t.package == p {
      if !b.full && p !in AllMembers(b.groups) {
        if t !in Pending(b) {
          assert t == Focus(ProductE2e, SmokeCli);
          assert Focus(ProductE2e, RoutingPlans) in Pending(b);
        }
      }
    }
  }

  lemma TestKept(a: Scope, b: Scope, p: Package, t: TestTarget)
    requires Extends(a, b) && Focused(a) && Focused(b)
    ensures Obliges(a, Tested(p, t)) ==> Obliges(b, Tested(p, t))
  {
    TestedWhen(a, p, t);
    TestedWhen(b, p, t);
    MoreGroups(a.groups, b.groups);
  }

  /** Adding paths, or asking for the full plan, loses an obligation exactly in the three listed cases. */
  lemma LosesExactly(a: Scope, b: Scope, o: Obligation)
    requires Extends(a, b) && Focused(a) && Focused(b)
    ensures Obliges(a, o) && !Obliges(b, o) <==> Lost(a, b, o)
  {
    if o.Linted? {
      LintLost(a, b, o.package);
    } else if o.Tested? {
      TestKept(a, b, o.package, o.target);
    } else {
      OthersWhen(a, o);
      OthersWhen(b, o);
    }
  }

  lemma ScopesExtend(less: set<Class>, more: set<Class>, full: bool, fuller: bool)
    requires less <= more && (full ==> fuller)
    ensures Extends(ScopeOf(less, full), ScopeOf(more, fuller)) && Focused(ScopeOf(less, full)) && Focused(ScopeOf(more, fuller))
  {
  }

  /** The same for the classes of two path sets. */
  lemma SelectionIsMonotoneExceptWhenLost(less: set<Class>, more: set<Class>, full: bool, fuller: bool, o: Obligation)
    requires less <= more && (full ==> fuller)
    ensures Obliges(ScopeOf(less, full), o) && !Obliges(ScopeOf(more, fuller), o) <==> Lost(ScopeOf(less, full), ScopeOf(more, fuller), o)
  {
    ScopesExtend(less, more, full, fuller);
    LosesExactly(ScopeOf(less, full), ScopeOf(more, fuller), o);
  }

  /** Changing the gateway client's source obliges the lint of the product tests; changing a source file of
      any product package as well does not. */
  lemma ProductLintIsLost(g: Group)
    requires !g.DiagnosticsGroup?
    ensures Obliges(ScopeOf({Bounded(ClientSource)}, false), Linted(ProductE2e))
    ensures !Obliges(ScopeOf({Bounded(ClientSource), Owned(g, false)}, false), Linted(ProductE2e))
  {
    var client: Class, owned := Bounded(ClientSource), Owned(g, false);
    ClientScope({client}, {}, g);
    ClientScope({client, owned}, {g}, g);
    SelectionIsMonotoneExceptWhenLost({client}, {client, owned}, false, false, Linted(ProductE2e));
  }

  lemma ClientScope(classes: set<Class>, groups: set<Group>, g: Group)
    requires classes == {Bounded(ClientSource)} + (set h | h in groups :: Owned(h, false)) && groups <= {g}
    ensures var s := ScopeOf(classes, false); !s.full && s.groups == groups && s.targets == Consumers(ClientSource)
  {
    var s := ScopeOf(classes, false);
    var client: Class := Bounded(ClientSource);
    assert client in classes && TargetsOf(client) == Consumers(ClientSource);
    forall h | h in groups
      ensures h in s.groups
    {
      assert Owned(h, false) in classes && h in GroupsOf(Owned(h, false));
    }
  }
}
