/** `safeDiagnosticCode`: a bounded search for a diagnostic code in an object graph that may be cyclic. */
module ErrorCode {
  import opened Wrappers

  /** `Opaque` is every value that is neither a string nor an object. */
  datatype Value = Text(s: string) | Ref(id: nat) | Opaque

  /** The five properties the search looks at; an absent one is `Opaque`. */
  datatype Fields = Fields(messageKey: Value, code: Value, error: Value, failure: Value, envelope: Value)

  type Graph = nat -> Fields

  /** The two regular expressions: the first match in a string, if any. */
  datatype Patterns = Patterns(upper: string -> Option<string>, dotted: string -> Option<string>)

  const LIMIT := 12
  const MAX_TEXT := 4096

  function Front(f: Fields): seq<Value> {
    [f.messageKey, f.code]
  }

  function Back(f: Fields): seq<Value> {
    [f.error, f.failure, f.envelope]
  }

  predicate IsField(g: Graph, id: nat, v: Value) {
    v in Front(g(id)) || v in Back(g(id))
  }

  /** The code a value carries by itself. */
  function CodeIn(p: Patterns, v: Value): Option<string> {
    match v
    case Text(s) =>
      var value := if |s| <= MAX_TEXT then s else s[..MAX_TEXT];
      (match p.upper(value) case Some(m) => Some(m) case None => p.dotted(value))
    case _ => None
  }

  /** The search, in its order. */
  function Search(g: Graph, p: Patterns, pending: seq<Value>, visited: set<nat>): Option<string>
    requires |visited| <= LIMIT
    decreases 5 * (LIMIT - |visited|) + |pending|
  {
    if pending == [] || |visited| == LIMIT then None
    else
      var current, rest := pending[0], pending[1..];
      if CodeIn(p, current).Some? then CodeIn(p, current)
      else if current.Ref? && current.id !in visited then
        Search(g, p, Front(g(current.id)) + rest + Back(g(current.id)), visited + {current.id})
      else Search(g, p, rest, visited)
  }

  // ---------- reachability ----------

  /** Each value but the first is a property of the object before it. */
  predicate IsPath(g: Graph, path: seq<Value>) {
    |path| == 1
    || (|path| > 1 && path[|path| - 2].Ref? && IsField(g, path[|path| - 2].id, path[|path| - 1]) && IsPath(g, path[..|path| - 1]))
  }

  ghost predicate Reaches(g: Graph, start: Value, v: Value) {
    exists path :: IsPath(g, path) && path[0] == start && path[|path| - 1] == v
  }

  lemma ReachesItself(g: Graph, start: Value)
    ensures Reaches(g, start, start)
  {
    assert IsPath(g, [start]);
  }

  lemma ReachesField(g: Graph, start: Value, id: nat, v: Value)
    requires Reaches(g, start, Ref(id)) && IsField(g, id, v)
    ensures Reaches(g, start, v)
  {
    var path :| IsPath(g, path) && path[0] == start && path[|path| - 1] == Ref(id);
    var more := path + [v];
    assert more[..|more| - 1] == path;
    assert IsPath(g, more);
  }

  ghost predicate AllReached(g: Graph, start: Value, pending: seq<Value>) {
    forall k :: 0 <= k < |pending| ==> Reaches(g, start, pending[k])
  }

  /** A code is always the code of one string in the graph: nothing else of the error leaves. */
  lemma {:induction false} CodeComesFromAString(g: Graph, p: Patterns, start: Value, pending: seq<Value>, visited: set<nat>)
    requires |visited| <= LIMIT && AllReached(g, start, pending)
    ensures var code := Search(g, p, pending, visited);
            code.Some? ==> exists v :: Reaches(g, start, v) && v.Text? && CodeIn(p, v) == code
    decreases 5 * (LIMIT - |visited|) + |pending|
  {
    if pending != [] && |visited| < LIMIT {
      var current, rest := pending[0], pending[1..];
      assert Reaches(g, start, current);
      if CodeIn(p, current).None? {
        if current.Ref? && current.id !in visited {
          Expanded(g, start, current.id, rest);
          CodeComesFromAString(g, p, start, Front(g(current.id)) + rest + Back(g(current.id)), visited + {current.id});
        } else {
          CodeComesFromAString(g, p, start, rest, visited);
        }
      }
    }
  }

  /** In particular, what the whole search returns. */
  lemma FoundCodeIsReachable(g: Graph, p: Patterns, error: Value)
    ensures var code := Search(g, p, [error], {});
            code.Some? ==> exists v :: Reaches(g, error, v) && v.Text? && CodeIn(p, v) == code
  {
    ReachesItself(g, error);
    CodeComesFromAString(g, p, error, [error], {});
  }

  lemma Expanded(g: Graph, start: Value, id: nat, rest: seq<Value>)
    requires Reaches(g, start, Ref(id)) && AllReached(g, start, rest)
    ensures AllReached(g, start, Front(g(id)) + rest + Back(g(id)))
  {
    forall v | IsField(g, id, v)
      ensures Reaches(g, start, v)
    {
      ReachesField(g, start, id, v);
    }
    var all := Front(g(id)) + rest + Back(g(id));
    forall k | 0 <= k < |all|
      ensures Reaches(g, start, all[k])
    {
      if 2 <= k < 2 + |rest| {
        assert all[k] == rest[k - 2];
      } else {
        assert IsField(g, id, all[k]);
      }
    }
  }

  // ---------- when the fallback is returned ----------

  /** Nothing more is to be found at `v`. */
  predicate Settled(p: Patterns, v: Value, pending: seq<Value>, visited: set<nat>) {
    v in pending || v.Opaque? || (v.Text? && CodeIn(p, v).None?) || (v.Ref? && v.id in visited)
  }

  ghost predicate Complete(g: Graph, p: Patterns, start: Value, pending: seq<Value>, visited: set<nat>) {
    && Settled(p, start, pending, visited)
    && forall id, v :: id in visited && IsField(g, id, v) ==> Settled(p, v, pending, visited)
  }

  /** The search ends without a code and without hitting its limit. */
  ghost predicate Exhausted(g: Graph, p: Patterns, pending: seq<Value>, visited: set<nat>)
    requires |visited| <= LIMIT
    decreases 5 * (LIMIT - |visited|) + |pending|
  {
    if |visited| == LIMIT then false
    else if pending == [] then true
    else
      var current, rest := pending[0], pending[1..];
      CodeIn(p, current).None?
      && if current.Ref? && current.id !in visited then Exhausted(g, p, Front(g(current.id)) + rest + Back(g(current.id)), visited + {current.id})
         else Exhausted(g, p, rest, visited)
  }

  lemma DropsSettled(g: Graph, p: Patterns, start: Value, pending: seq<Value>, visited: set<nat>)
    requires pending != [] && Complete(g, p, start, pending, visited)
    requires CodeIn(p, pending[0]).None? && (pending[0].Ref? ==> pending[0].id in visited)
    ensures Complete(g, p, start, pending[1..], visited)
  {
    assert pending == [pending[0]] + pending[1..];
  }

  lemma ExpandsComplete(g: Graph, p: Patterns, start: Value, pending: seq<Value>, visited: set<nat>, id: nat)
    requires pending != [] && Complete(g, p, start, pending, visited) && pending[0] == Ref(id)
    ensures Complete(g, p, start, Front(g(id)) + pending[1..] + Back(g(id)), visited + {id})
  {
    assert pending == [pending[0]] + pending[1..];
    var next := Front(g(id)) + pending[1..] + Back(g(id));
    forall v | v in pending || IsField(g, id, v)
      ensures Settled(p, v, next, visited + {id})
    {
      if IsField(g, id, v) { assert v in next; }
    }
  }

  lemma {:induction false} ClosedHasNoCode(g: Graph, p: Patterns, start: Value, visited: set<nat>, path: seq<Value>)
    requires Complete(g, p, start, [], visited) && IsPath(g, path) && path[0] == start
    ensures CodeIn(p, path[|path| - 1]).None? && Settled(p, path[|path| - 1], [], visited)
    decreases path
  {
    if |path| > 1 {
      var shorter := path[..|path| - 1];
      ClosedHasNoCode(g, p, start, visited, shorter);
    }
  }

  lemma {:induction false} ExhaustedMeansNoCode(g: Graph, p: Patterns, start: Value, pending: seq<Value>, visited: set<nat>, v: Value)
    requires |visited| <= LIMIT && Complete(g, p, start, pending, visited)
    requires Exhausted(g, p, pending, visited) && Reaches(g, start, v)
    ensures CodeIn(p, v).None?
    decreases 5 * (LIMIT - |visited|) + |pending|
  {
    if pending == [] {
      var path :| IsPath(g, path) && path[0] == start && path[|path| - 1] == v;
      ClosedHasNoCode(g, p, start, visited, path);
    } else if pending[0].Ref? && pending[0].id !in visited {
      ExpandsComplete(g, p, start, pending, visited, pending[0].id);
      ExhaustedMeansNoCode(g, p, start, Front(g(pending[0].id)) + pending[1..] + Back(g(pending[0].id)), visited + {pending[0].id}, v);
    } else {
      DropsSettled(g, p, start, pending, visited);
      ExhaustedMeansNoCode(g, p, start, pending[1..], visited, v);
    }
  }

  /** Unless twelve objects were expanded, the fallback means that no string in the graph has a code. */
  lemma FallbackMeansNoCode(g: Graph, p: Patterns, start: Value, v: Value)
    requires Exhausted(g, p, [start], {}) && Reaches(g, start, v)
    ensures CodeIn(p, v).None?
  {
    ExhaustedMeansNoCode(g, p, start, [start], {}, v);
  }

  /** An object's own message key comes first, then its code, then what it wraps. */
  lemma OwnCodeComesFirst(g: Graph, p: Patterns, id: nat)
    ensures var f := g(id);
            && (CodeIn(p, f.messageKey).Some? ==> Search(g, p, [Ref(id)], {}) == CodeIn(p, f.messageKey))
            && (!f.messageKey.Ref? && CodeIn(p, f.messageKey).None? && CodeIn(p, f.code).Some? ==> Search(g, p, [Ref(id)], {}) == CodeIn(p, f.code))
            && (f.messageKey.Opaque? && f.code.Opaque? && CodeIn(p, f.error).Some? ==> Search(g, p, [Ref(id)], {}) == CodeIn(p, f.error))
  {
    var f := g(id);
    var next := [f.messageKey, f.code, f.error, f.failure, f.envelope];
    assert Front(f) + [] + Back(f) == next;
    assert Search(g, p, [Ref(id)], {}) == Search(g, p, next, {id});
    var after := next[1..];
    if CodeIn(p, f.messageKey).None? && !f.messageKey.Ref? {
      assert Search(g, p, next, {id}) == Search(g, p, after, {id});
      if CodeIn(p, f.code).None? && !f.code.Ref? {
        assert Search(g, p, after, {id}) == Search(g, p, after[1..], {id});
      }
    }
  }

  // ---------- the loop ----------

  method SafeDiagnosticCode(g: Graph, p: Patterns, error: Value, fallback: string) returns (code: string, visited: set<nat>)
    ensures code == match Search(g, p, [error], {}) case Some(c) => c case None => fallback
    ensures |visited| <= LIMIT
    ensures Search(g, p, [error], {}).None? && |visited| < LIMIT ==> Exhausted(g, p, [error], {})
  {
    var pending := [error];
    visited := {};
    while pending != [] && |visited| < LIMIT
      invariant |visited| <= LIMIT
      invariant Search(g, p, pending, visited) == Search(g, p, [error], {})
      invariant Exhausted(g, p, pending, visited) ==> Exhausted(g, p, [error], {})
      decreases 5 * (LIMIT - |visited|) + |pending|
    {
      var current := pending[0];
      pending := pending[1..];
      if CodeIn(p, current).Some? {
        return CodeIn(p, current).value, visited;
      }
      if current.Ref? && current.id !in visited {
        visited := visited + {current.id};
        pending := Front(g(current.id)) + pending;
        pending := pending + Back(g(current.id));
      }
    }
    code := fallback;
  }
}
