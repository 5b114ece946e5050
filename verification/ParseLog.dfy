/** `parse_log`: attributing Cargo's test output to the targets it ran. */
module ParseLog {
  import opened Wrappers

  datatype Counts = Counts(passed: nat, failed: nat, ignored: nat) {
    function Total(): nat {
      passed + failed + ignored
    }
  }

  datatype CaseState = Ok | Failed | Ignored | Conflicting

  /** The target a line announces: a test executable, or a documentation target without one. */
  datatype Target = Target(title: string, executable: Option<string>, stem: Option<string>)

  datatype Summary = Summary(result: string, counts: Counts)

  /** A line as the regular expressions classify it. */
  datatype Line =
    | Header(target: Target)
    | RunningTests(n: nat)
    | TestResult(summary: Summary)
    | Case(name: string, state: CaseState)
    | Finished
    | Other

  /** One target's record while the log is read. `line` is the number of its header. */
  datatype Module = Module(
    target: Target,
    line: nat,
    cases: map<string, CaseState>,
    summaries: nat,
    last: Option<Summary>,
    complete: bool,
    expected: Option<nat>)

  datatype Unassigned = Unassigned(summary: Summary, line: nat)

  datatype Build = Build(line: nat, nested: bool)

  datatype Log = Log(modules: seq<Module>, builds: seq<Build>, unassigned: seq<Unassigned>)

  // ---------- one line ----------

  function NewModule(t: Target, line: nat): Module {
    Module(t, line, map[], 0, None, false, None)
  }

  function CaseAfter(cases: map<string, CaseState>, name: string, state: CaseState): CaseState {
    if name !in cases || cases[name] == state then state else Conflicting
  }

  function WithLine(m: Module, l: Line): Module {
    match l
    case RunningTests(n) => if m.expected.None? then m.(expected := Some(n)) else m
    case TestResult(s) => m.(summaries := m.summaries + 1, last := Some(s), complete := m.expected == Some(s.counts.Total()))
    case Case(name, state) => m.(cases := m.cases[name := CaseAfter(m.cases, name, state)])
    case _ => m
  }

  function Read(log: Log, l: Line, number: nat): Log {
    match l
    case Header(t) => log.(modules := log.modules + [NewModule(t, number)])
    case _ =>
      var started := log.modules != [];
      Log(if started then log.modules[|log.modules| - 1 := WithLine(log.modules[|log.modules| - 1], l)] else log.modules,
          if l.Finished? then log.builds + [Build(number, started)] else log.builds,
          if l.TestResult? && !started then log.unassigned + [Unassigned(l.summary, number)] else log.unassigned)
  }

  /** The log after all lines, the first of which has number `from + 1`. */
  function Parsed(lines: seq<Line>, from: nat): Log {
    if lines == [] then Log([], [], []) else Read(Parsed(lines[..|lines| - 1], from), lines[|lines| - 1], from + |lines|)
  }

  // ---------- what a target's record says ----------

  predicate NoHeader(body: seq<Line>) {
    forall k :: 0 <= k < |body| ==> !body[k].Header?
  }

  /** `i` is the first `running N tests` line. */
  ghost predicate FirstRunning(body: seq<Line>, i: nat) {
    i < |body| && body[i].RunningTests? && forall k :: 0 <= k < i ==> !body[k].RunningTests?
  }

  ghost predicate LastResult(body: seq<Line>, i: nat) {
    i < |body| && body[i].TestResult? && forall k :: i < k < |body| ==> !body[k].TestResult?
  }

  ghost predicate Seen(body: seq<Line>, name: string, state: CaseState) {
    exists k :: 0 <= k < |body| && body[k] == Case(name, state)
  }

  /** The state a case is recorded with: the one all its lines agree on, or a conflict. */
  ghost predicate CaseRecorded(body: seq<Line>, name: string, cases: map<string, CaseState>) {
    && (name in cases <==> exists s :: Seen(body, name, s))
    && (name in cases && !cases[name].Conflicting? ==> forall s :: Seen(body, name, s) <==> s == cases[name])
    && (name in cases && cases[name].Conflicting? ==> exists s, t :: s != t && Seen(body, name, s) && Seen(body, name, t))
  }

  ghost predicate ExpectedIs(body: seq<Line>, expected: Option<nat>) {
    && (expected.Some? <==> exists i: nat :: FirstRunning(body, i))
    && (forall i: nat :: FirstRunning(body, i) ==> expected == Some(body[i].n))
  }

  ghost predicate LastIs(body: seq<Line>, last: Option<Summary>) {
    && (last.Some? <==> exists i: nat :: LastResult(body, i))
    && (forall i: nat :: LastResult(body, i) ==> last == Some(body[i].summary))
  }

  ghost predicate Agrees(body: seq<Line>, i: nat, j: nat) {
    FirstRunning(body, i) && LastResult(body, j) && i < j && body[j].summary.counts.Total() == body[i].n
  }

  /** The last summary adds up to the first announced number, which came before it. */
  ghost predicate Balanced(body: seq<Line>) {
    exists i: nat, j: nat :: Agrees(body, i, j)
  }

  /** The header is followed by `body` and then by another header or the end of the log. */
  ghost predicate Describes(m: Module, t: Target, line: nat, body: seq<Line>) {
    && m.target == t && m.line == line
    && ExpectedIs(body, m.expected) && LastIs(body, m.last)
    && (m.complete <==> Balanced(body))
  }

  predicate PlainCases(body: seq<Line>) {
    forall k :: 0 <= k < |body| && body[k].Case? ==> !body[k].state.Conflicting?
  }

  lemma SeenNext(body: seq<Line>, l: Line, name: string, s: CaseState)
    ensures Seen(body + [l], name, s) <==> Seen(body, name, s) || l == Case(name, s)
  {
    var all := body + [l];
    if Seen(body, name, s) {
      var k :| 0 <= k < |body| && body[k] == Case(name, s);
      assert all[k] == Case(name, s);
    }
    if l == Case(name, s) { assert all[|body|] == l; }
  }

  lemma CaseNext(body: seq<Line>, l: Line, name: string, cases: map<string, CaseState>, after: map<string, CaseState>)
    requires CaseRecorded(body, name, cases) && (l.Case? ==> !l.state.Conflicting?)
    requires after == if l.Case? then cases[l.name := CaseAfter(cases, l.name, l.state)] else cases
    ensures CaseRecorded(body + [l], name, after)
  {
    forall s
      ensures Seen(body + [l], name, s) <==> Seen(body, name, s) || l == Case(name, s)
    {
      SeenNext(body, l, name, s);
    }
    if l.Case? && l.name == name {
      assert Seen(body + [l], name, l.state);
      if name in cases && !cases[name].Conflicting? {
        assert Seen(body, name, cases[name]);
        assert Seen(body + [l], name, cases[name]);
      }
    }
  }

  ghost predicate HasRunning(body: seq<Line>) {
    exists k :: 0 <= k < |body| && body[k].RunningTests?
  }

  lemma {:induction false} FirstRunningExists(body: seq<Line>, k: nat)
    requires k < |body| && body[k].RunningTests?
    ensures exists i: nat :: FirstRunning(body, i)
    decreases k
  {
    if FirstRunning(body, k) {
    } else {
      var j: nat :| j < k && body[j].RunningTests?;
      FirstRunningExists(body, j);
    }
  }

  lemma RunningNext(body: seq<Line>, l: Line, i: nat)
    ensures FirstRunning(body + [l], i) <==> FirstRunning(body, i) || (i == |body| && l.RunningTests? && !HasRunning(body))
  {
    assert forall k :: 0 <= k < |body| ==> (body + [l])[k] == body[k];
  }

  lemma ResultNext(body: seq<Line>, l: Line, i: nat)
    ensures LastResult(body + [l], i) <==> if l.TestResult? then i == |body| else LastResult(body, i)
  {
    var all := body + [l];
    assert forall k :: 0 <= k < |body| ==> all[k] == body[k];
    if i < |body| && l.TestResult? { assert all[|body|].TestResult?; }
  }

  lemma ExpectedNext(body: seq<Line>, l: Line, expected: Option<nat>)
    requires ExpectedIs(body, expected)
    ensures ExpectedIs(body + [l], if l.RunningTests? && expected.None? then Some(l.n) else expected)
  {
    forall i: nat
      ensures FirstRunning(body + [l], i) <==> FirstRunning(body, i) || (i == |body| && l.RunningTests? && !HasRunning(body))
    {
      RunningNext(body, l, i);
    }
    if HasRunning(body) {
      var k: nat :| k < |body| && body[k].RunningTests?;
      FirstRunningExists(body, k);
      var i: nat :| FirstRunning(body, i);
      assert FirstRunning(body + [l], i);
    } else {
      assert l.RunningTests? ==> FirstRunning(body + [l], |body|);
    }
  }

  lemma LastNext(body: seq<Line>, l: Line, last: Option<Summary>)
    requires LastIs(body, last)
    ensures LastIs(body + [l], if l.TestResult? then Some(l.summary) else last)
  {
    forall i: nat
      ensures LastResult(body + [l], i) <==> if l.TestResult? then i == |body| else LastResult(body, i)
    {
      ResultNext(body, l, i);
    }
    if l.TestResult? {
      assert LastResult(body + [l], |body|);
    } else if last.Some? {
      var i: nat :| LastResult(body, i);
      assert LastResult(body + [l], i);
    }
  }

  lemma AgreesNext(body: seq<Line>, l: Line, i: nat, j: nat)
    ensures Agrees(body + [l], i, j) <==>
      if l.TestResult? then FirstRunning(body, i) && j == |body| && l.summary.counts.Total() == body[i].n else Agrees(body, i, j)
  {
    RunningNext(body, l, i);
    ResultNext(body, l, j);
  }

  lemma BalancedNext(body: seq<Line>, l: Line, expected: Option<nat>)
    requires ExpectedIs(body, expected)
    ensures Balanced(body + [l]) <==> if l.TestResult? then expected == Some(l.summary.counts.Total()) else Balanced(body)
  {
    var all := body + [l];
    forall i: nat, j: nat
      ensures Agrees(all, i, j) <==>
        if l.TestResult? then FirstRunning(body, i) && j == |body| && l.summary.counts.Total() == body[i].n else Agrees(body, i, j)
    {
      AgreesNext(body, l, i, j);
    }
    if l.TestResult? {
      if expected.Some? {
        var i: nat :| FirstRunning(body, i);
        assert Agrees(all, i, |body|) <==> l.summary.counts.Total() == body[i].n;
      }
    } else if Balanced(body) {
      var i: nat, j: nat :| Agrees(body, i, j);
      assert Agrees(all, i, j);
    }
  }

  lemma DescribesNext(m: Module, t: Target, line: nat, body: seq<Line>, l: Line)
    requires Describes(m, t, line, body) && !l.Header?
    ensures Describes(WithLine(m, l), t, line, body + [l])
  {
    ExpectedNext(body, l, m.expected);
    LastNext(body, l, m.last);
    BalancedNext(body, l, m.expected);
  }

  lemma DescribesNew(t: Target, line: nat)
    ensures Describes(NewModule(t, line), t, line, [])
  {
  }

  /** A log that is one header and its lines yields one record, whose expectation is the first `running N`
      and whose counts are the last summary's: child summaries in between are never added. */
  lemma {:induction false} OneTarget(t: Target, body: seq<Line>, from: nat)
    requires NoHeader(body)
    ensures var log := Parsed([Header(t)] + body, from);
            |log.modules| == 1 && log.unassigned == [] && Describes(log.modules[0], t, from + 1, body)
    decreases body
  {
    var lines := [Header(t)] + body;
    if body == [] {
      assert lines[..0] == [];
      assert Parsed(lines, from).modules == [NewModule(t, from + 1)];
      DescribesNew(t, from + 1);
    } else {
      var rest, l := body[..|body| - 1], body[|body| - 1];
      assert lines[..|lines| - 1] == [Header(t)] + rest;
      assert rest + [l] == body;
      OneTarget(t, rest, from);
      DescribesNext(Parsed([Header(t)] + rest, from).modules[0], t, from + 1, rest, l);
    }
  }

  lemma {:induction false} OneTargetCases(t: Target, body: seq<Line>, from: nat, name: string)
    requires NoHeader(body) && PlainCases(body)
    ensures var log := Parsed([Header(t)] + body, from);
            |log.modules| == 1 && CaseRecorded(body, name, log.modules[0].cases)
    decreases body
  {
    var lines := [Header(t)] + body;
    if body == [] {
      assert lines[..0] == [];
      assert Parsed(lines, from).modules == [NewModule(t, from + 1)];
    } else {
      var rest, l := body[..|body| - 1], body[|body| - 1];
      assert lines[..|lines| - 1] == [Header(t)] + rest;
      assert rest + [l] == body;
      OneTargetCases(t, rest, from, name);
      var before := Parsed([Header(t)] + rest, from).modules[0];
      CaseNext(rest, l, name, before.cases, WithLine(before, l).cases);
    }
  }

  // ---------- compositionality ----------

  /** Logs read one after the other: the second contributes nothing to targets of the first. */
  lemma {:induction false} Concatenation(a: seq<Line>, b: seq<Line>, from: nat)
    requires b != [] && b[0].Header?
    ensures var x, y, both := Parsed(a, from), Parsed(b, from + |a|), Parsed(a + b, from);
            both.modules == x.modules + y.modules && both.builds == x.builds + y.builds && both.unassigned == x.unassigned
    ensures Parsed(b, from + |a|).unassigned == [] && Parsed(b, from + |a|).modules != []
    ensures var x, y, both := Parsed(a, from).modules, Parsed(b, from + |a|).modules, Parsed(a + b, from).modules;
            |x| < |both| && both[|x|] == y[0] && forall k :: 0 <= k < |x| ==> both[k] == x[k]
    decreases b
  {
    var rest, l := b[..|b| - 1], b[|b| - 1];
    assert (a + b)[..|a + b| - 1] == a + rest;
    if rest == [] {
      assert a + rest == a;
      assert Parsed(rest, from + |a|) == Log([], [], []);
    } else {
      Concatenation(a, rest, from);
      var x, y := Parsed(a, from), Parsed(rest, from + |a|);
      var last := WithLine(y.modules[|y.modules| - 1], l);
      assert (x.modules + y.modules)[|x.modules| + |y.modules| - 1 := last] == x.modules + y.modules[|y.modules| - 1 := last];
    }
  }

  function Shifted(m: Module, offset: int): Module
    requires m.line + offset >= 0
  {
    m.(line := m.line + offset)
  }

  /** Where a log starts changes line numbers and nothing else. */
  lemma {:induction false} StartOnlyShifts(lines: seq<Line>, from: nat)
    ensures var at, zero := Parsed(lines, from), Parsed(lines, 0);
            && |at.modules| == |zero.modules| && |at.unassigned| == |zero.unassigned| && |at.builds| == |zero.builds|
            && (forall k :: 0 <= k < |at.modules| ==> at.modules[k] == Shifted(zero.modules[k], from))
            && (forall k :: 0 <= k < |at.unassigned| ==> at.unassigned[k].summary == zero.unassigned[k].summary)
            && (forall k :: 0 <= k < |at.builds| ==> at.builds[k].nested == zero.builds[k].nested)
    decreases lines
  {
    if lines != [] {
      StartOnlyShifts(lines[..|lines| - 1], from);
    }
  }

  lemma FollowedBy(head: seq<Line>, after: seq<Line>, k: nat, from: nat)
    requires (after == [] || after[0].Header?) && k < |Parsed(head, from).modules|
    ensures var all := Parsed(head + after, from).modules; k < |all| && all[k] == Parsed(head, from).modules[k]
  {
    if after == [] {
      assert head + after == head;
    } else {
      Concatenation(head, after, from);
    }
  }

  /** The record of a target in a whole log is the record of its own lines. */
  lemma TargetInContext(before: seq<Line>, t: Target, body: seq<Line>, after: seq<Line>)
    requires NoHeader(body) && (after == [] || after[0].Header?)
    ensures Parsed([Header(t)] + body, |before|).modules != []
    ensures var modules, k := Parsed(before + [Header(t)] + body + after, 0).modules, |Parsed(before, 0).modules|;
            k < |modules| && modules[k] == Parsed([Header(t)] + body, |before|).modules[0]
  {
    var own := [Header(t)] + body;
    assert before + [Header(t)] + body == before + own;
    Concatenation(before, own, 0);
    FollowedBy(before + own, after, |Parsed(before, 0).modules|, 0);
  }

  // ---------- the finished report ----------

  /** What the last loop adds to a module. */
  datatype Row = Row(m: Module, complete: bool, repeated: bool, identityUnique: bool, childSummaries: nat, failures: set<string>, attributed: bool)

  predicate SameKey(a: Target, b: Target) {
    a.title == b.title && a.executable == b.executable
  }

  predicate SameIdentity(a: Target, b: Target) {
    a.title == b.title && a.stem == b.stem
  }

  function Failures(cases: map<string, CaseState>): set<string> {
    set name | name in cases && cases[name].Failed?
  }

  function RowOf(modules: seq<Module>, k: nat): Row
    requires k < |modules|
  {
    var m := modules[k];
    var repeated := exists j :: 0 <= j < |modules| && j != k && SameKey(modules[j].target, m.target);
    var unique := !exists j :: 0 <= j < |modules| && j != k && SameIdentity(modules[j].target, m.target);
    var children := if m.summaries > 0 then m.summaries - 1 else 0;
    var failures := Failures(m.cases);
    Row(m, m.complete && !repeated, repeated, unique, children, failures,
        children == 0 && (m.last.Some? ==> |failures| == m.last.value.counts.failed))
  }

  /** A complete row names a target that occurs once, ran what it announced first, and reported it last. */
  lemma CompleteIsUnambiguous(before: seq<Line>, t: Target, body: seq<Line>, after: seq<Line>)
    requires NoHeader(body) && (after == [] || after[0].Header?)
    ensures var modules := Parsed(before + [Header(t)] + body + after, 0).modules;
            var k := |Parsed(before, 0).modules|;
            k < |modules|
            && (RowOf(modules, k).complete <==>
                  && (forall j :: 0 <= j < |modules| && j != k ==> !SameKey(modules[j].target, t))
                  && Balanced(body))
  {
    TargetInContext(before, t, body, after);
    OneTarget(t, body, |before|);
  }

  // ---------- the loop ----------

  class Parser {
    var modules: seq<Module>
    var builds: seq<Build>
    var unassigned: seq<Unassigned>

    ghost function Value(): Log
      reads this
    {
      Log(modules, builds, unassigned)
    }

    constructor ()
      ensures Value() == Log([], [], [])
    {
      modules, builds, unassigned := [], [], [];
    }

    method Parse(lines: seq<Line>) returns (rows: seq<Row>)
      requires Value() == Log([], [], [])
      modifies this
      ensures Value() == Parsed(lines, 0)
      ensures |rows| == |modules| && forall k :: 0 <= k < |rows| ==> rows[k] == RowOf(modules, k)
    {
      for number := 0 to |lines|
        invariant Value() == Parsed(lines[..number], 0)
      {
        assert lines[..number + 1][..number] == lines[..number];
        var l := lines[number];
        if l.Header? {
          modules := modules + [NewModule(l.target, number + 1)];
        } else {
          if l.Finished? { builds := builds + [Build(number + 1, modules != [])]; }
          if modules != [] {
            modules := modules[|modules| - 1 := WithLine(modules[|modules| - 1], l)];
          } else if l.TestResult? {
            unassigned := unassigned + [Unassigned(l.summary, number + 1)];
          }
        }
      }
      assert lines[..|lines|] == lines;
      rows := [];
      for k := 0 to |modules|
        invariant |rows| == k && forall i :: 0 <= i < k ==> rows[i] == RowOf(modules, i)
      {
        rows := rows + [RowOf(modules, k)];
      }
    }
  }
}
