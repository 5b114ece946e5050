/** What `Store.apply` removes: a managed checkout after its artifacts are exported, or only
    `target/debug` of a developer checkout. */
module ManagedCleanup {

  datatype Node = File(bytes: string) | Link(destination: string)

  /** A path of a checkout: outside `target`, under `target/debug`, or under another entry of `target`. */
  datatype Place = Source(path: string) | Debug(path: string) | Target(entry: string, rest: string)

  datatype Artifact = Artifact(entry: string, rest: string)

  datatype Kind = Managed | Developer

  /** The removal itself comes back, or stops with an error and leaves part of the tree. */
  datatype Removal = Completes | Stops(left: map<Place, Node>)

  datatype Outcome = Refused | Interrupted | Removed

  /** `git status` is clean and nothing is ignored outside `target`: the sources are the recorded commit. */
  ghost predicate CleanAt(checkout: map<Place, Node>, commit: map<string, Node>) {
    forall p :: if p in commit then Source(p) in checkout && checkout[Source(p)] == commit[p] else Source(p) !in checkout
  }

  ghost predicate HasLinks(checkout: map<Place, Node>, entry: string) {
    exists rest :: Target(entry, rest) in checkout && checkout[Target(entry, rest)].Link?
  }

  /** The entries of `target` other than `debug`, in whatever order the directory lists them. */
  ghost predicate Lists(entries: seq<string>, checkout: map<Place, Node>) {
    && (forall i, j :: 0 <= i < j < |entries| ==> entries[i] != entries[j])
    && (forall p :: p in checkout && p.Target? ==> p.entry in entries)
  }

  predicate IsPart(left: map<Place, Node>, checkout: map<Place, Node>) {
    forall p :: p in left ==> p in checkout && left[p] == checkout[p]
  }

  function WithoutDebug(checkout: map<Place, Node>): map<Place, Node> {
    map p | p in checkout && !p.Debug? :: checkout[p]
  }

  /** What can be put back from the commit and the exported entries. */
  function Rebuilt(commit: map<string, Node>, artifacts: map<Artifact, Node>, entries: seq<string>): map<Place, Node> {
    (map p | p in commit :: Source(p) := commit[p])
    + (map a | a in artifacts && a.entry in entries :: Target(a.entry, a.rest) := artifacts[a])
  }

  /** Entry `e` was exported: the artifacts hold exactly its files. */
  ghost predicate Exported(checkout: map<Place, Node>, artifacts: map<Artifact, Node>, e: string) {
    forall rest :: if Target(e, rest) in checkout
                   then Artifact(e, rest) in artifacts && artifacts[Artifact(e, rest)] == checkout[Target(e, rest)]
                   else Artifact(e, rest) !in artifacts
  }

  ghost predicate SameEntry(a: map<Artifact, Node>, b: map<Artifact, Node>, e: string) {
    forall rest :: if Artifact(e, rest) in b then Artifact(e, rest) in a && a[Artifact(e, rest)] == b[Artifact(e, rest)] else Artifact(e, rest) !in a
  }

  lemma RebuildsAll(checkout: map<Place, Node>, commit: map<string, Node>, artifacts: map<Artifact, Node>, entries: seq<string>)
    requires CleanAt(checkout, commit) && Lists(entries, checkout)
    requires forall e :: e in entries ==> Exported(checkout, artifacts, e)
    ensures Rebuilt(commit, artifacts, entries) == WithoutDebug(checkout)
  {
    var rebuilt, kept := Rebuilt(commit, artifacts, entries), WithoutDebug(checkout);
    forall p
      ensures p in rebuilt <==> p in kept
      ensures p in rebuilt ==> rebuilt[p] == kept[p]
    {
      match p
      case Source(path) =>
        assert if path in commit then p in checkout && checkout[p] == commit[path] else p !in checkout;
      case Target(entry, rest) =>
        if entry in entries {
          assert Exported(checkout, artifacts, entry);
          assert if p in checkout then Artifact(entry, rest) in artifacts && artifacts[Artifact(entry, rest)] == checkout[p] else Artifact(entry, rest) !in artifacts;
        }
        assert p in rebuilt <==> Artifact(entry, rest) in artifacts && entry in entries;
      case Debug(_) =>
    }
  }

  class Workspace {
    var checkout: map<Place, Node>
    var artifacts: map<Artifact, Node>

    /** Remove what the kind allows. `clean` is the result of verifying the checkout against `commit`;
        `breaks(e)` makes the copy of entry `e` fail after the old copy was deleted; `removal` is what
        removing the worktree or the debug directory does. */
    method Remove(kind: Kind, commit: map<string, Node>, entries: seq<string>, clean: bool, breaks: string -> bool, removal: Removal)
      returns (outcome: Outcome)
      requires Lists(entries, checkout) && (kind.Managed? && clean ==> CleanAt(checkout, commit))
      requires removal.Stops? ==> IsPart(removal.left, checkout) && (kind.Developer? ==> WithoutDebug(removal.left) == WithoutDebug(checkout))
      modifies this
      ensures outcome.Refused? <==> !clean || (kind.Managed? && exists e :: e in entries && (HasLinks(old(checkout), e) || breaks(e)))
      ensures !outcome.Refused? ==> (outcome.Removed? <==> removal.Completes?)
      ensures outcome.Refused? ==> checkout == old(checkout)
      ensures !outcome.Refused? && kind.Managed? ==> Rebuilt(commit, artifacts, entries) == WithoutDebug(old(checkout))
      ensures outcome.Removed? ==> checkout == if kind.Managed? then map[] else WithoutDebug(old(checkout))
      ensures outcome.Interrupted? ==> checkout == removal.left
      ensures forall e :: kind.Developer? || e !in entries ==> SameEntry(artifacts, old(artifacts), e)
    {
      if !clean {
        return Refused;
      }
      if kind.Managed? {
        var exported := ExportTarget(entries, breaks);
        if !exported {
          return Refused;
        }
        RebuildsAll(checkout, commit, artifacts, entries);
      }
      if removal.Stops? {
        checkout := removal.left;
        return Interrupted;
      }
      checkout := if kind.Managed? then map[] else WithoutDebug(checkout);
      outcome := Removed;
    }

    method ExportTarget(entries: seq<string>, breaks: string -> bool) returns (ok: bool)
      requires Lists(entries, checkout)
      modifies this`artifacts
      ensures ok <==> forall e :: e in entries ==> !HasLinks(checkout, e) && !breaks(e)
      ensures ok ==> forall e :: e in entries ==> Exported(checkout, artifacts, e)
      ensures forall e :: e !in entries ==> SameEntry(artifacts, old(artifacts), e)
    {
      var i := 0;
      while i < |entries|
        invariant i <= |entries|
        invariant forall k :: 0 <= k < i ==> !HasLinks(checkout, entries[k]) && !breaks(entries[k])
        invariant forall k :: 0 <= k < i ==> Exported(checkout, artifacts, entries[k])
        invariant forall e :: e !in entries ==> SameEntry(artifacts, old(artifacts), e)
      {
        ghost var before := artifacts;
        var copied := ExportEntry(entries[i], breaks(entries[i]));
        forall k | 0 <= k < i
          ensures Exported(checkout, artifacts, entries[k])
        {
          SameExport(checkout, before, artifacts, entries[k]);
        }
        forall e | e !in entries
          ensures SameEntry(artifacts, old(artifacts), e)
        {
          assert SameEntry(artifacts, before, e) && SameEntry(before, old(artifacts), e);
        }
        if !copied {
          return false;
        }
        i := i + 1;
      }
      ok := true;
    }

    method ExportEntry(entry: string, breaks: bool) returns (ok: bool)
      modifies this`artifacts
      ensures ok <==> !HasLinks(checkout, entry) && !breaks
      ensures ok ==> Exported(checkout, artifacts, entry)
      ensures forall e :: e != entry ==> SameEntry(artifacts, old(artifacts), e)
    {
      var items := set p | p in checkout && p.Target? && p.entry == entry;
      if exists p :: p in items && checkout[p].Link? {
        var p :| p in items && checkout[p].Link?;
        assert Target(entry, p.rest) in checkout;
        return false;
      }
      artifacts := map a | a in artifacts && a.entry != entry :: artifacts[a];
      if breaks {
        return false;
      }
      ghost var others := artifacts;
      artifacts := artifacts + map p | p in items :: Artifact(entry, p.rest) := checkout[p];
      forall rest
        ensures Target(entry, rest) in items <==> Artifact(entry, rest) in artifacts
      {
        assert Artifact(entry, rest) !in others;
      }
      ok := true;
    }
  }

  lemma SameExport(checkout: map<Place, Node>, before: map<Artifact, Node>, after: map<Artifact, Node>, e: string)
    requires Exported(checkout, before, e) && SameEntry(after, before, e)
    ensures Exported(checkout, after, e)
  {
    forall rest
      ensures if Target(e, rest) in checkout
              then Artifact(e, rest) in after && after[Artifact(e, rest)] == checkout[Target(e, rest)]
              else Artifact(e, rest) !in after
    {
      assert if Artifact(e, rest) in before then Artifact(e, rest) in after && after[Artifact(e, rest)] == before[Artifact(e, rest)] else Artifact(e, rest) !in after;
    }
  }
}
