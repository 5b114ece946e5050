/** JSON values as the metadata tools handle them, and the canonical form that
    `canonical_assignment` gives every stored fact. */
module Json {

  /** Key order of objects is not part of a value. Floats are finite binary fractions or not finite. */
  datatype Json =
    | Null
    | Bool(b: bool)
    | Integer(n: int)
    | Float(mantissa: int, exponent: int)
    | NonFinite
    | Str(s: string)
    | Arr(items: seq<Json>)
    | Obj(fields: map<string, Json>)

  /** Python truthiness. */
  predicate Truthy(v: Json) {
    match v
    case Null => false
    case Bool(b) => b
    case Integer(n) => n != 0
    case Float(m, _) => m != 0
    case NonFinite => true
    case Str(s) => s != ""
    case Arr(items) => items != []
    case Obj(fields) => fields != map[]
  }

  /** `dict.get(key)`: an absent key and an explicit null read the same. */
  function Member(v: Json, key: string): Json {
    if v.Obj? && key in v.fields then v.fields[key] else Null
  }

  // ---------- string order ----------

  /** Code point order, as Python compares strings. */
  predicate Before(a: string, b: string) {
    if b == "" then false
    else if a == "" then true
    else if a[0] != b[0] then a[0] < b[0]
    else Before(a[1..], b[1..])
  }

  lemma {:induction false} BeforeTotal(a: string, b: string)
    ensures Before(a, b) || a == b || Before(b, a)
  {
    if a != "" && b != "" && a[0] == b[0] {
      BeforeTotal(a[1..], b[1..]);
      assert a == [a[0]] + a[1..] && b == [b[0]] + b[1..];
    }
  }

  lemma {:induction false} BeforeTransitive(a: string, b: string, c: string)
    requires Before(a, b) && Before(b, c)
    ensures Before(a, c)
  {
    if a != "" && b != "" && c != "" && a[0] == b[0] == c[0] {
      BeforeTransitive(a[1..], b[1..], c[1..]);
    }
  }

  lemma {:induction false} BeforeIrreflexive(a: string)
    ensures !Before(a, a)
  {
    if a != "" {
      BeforeIrreflexive(a[1..]);
    }
  }

  lemma BeforeAsymmetric(a: string, b: string)
    requires Before(a, b)
    ensures !Before(b, a) && a != b
  {
    BeforeIrreflexive(a);
    if Before(b, a) {
      BeforeTransitive(a, b, a);
    }
  }

  // ---------- sorting with one entry per key ----------

  ghost predicate Ascending<T>(items: seq<T>, key: T -> string) {
    forall i, j :: 0 <= i < j < |items| ==> Before(key(items[i]), key(items[j]))
  }

  /** Put `x` into an ascending list; an entry with the same key is replaced, as in a dict. */
  function Insert<T>(items: seq<T>, x: T, key: T -> string): seq<T> {
    if items == [] then [x]
    else if Before(key(x), key(items[0])) then [x] + items
    else if key(x) == key(items[0]) then [x] + items[1..]
    else [items[0]] + Insert(items[1..], x, key)
  }

  /** `sorted(set(...))` and `[by_encoding[k] for k in sorted(by_encoding)]`. */
  function SortUnique<T>(items: seq<T>, key: T -> string): seq<T> {
    if items == [] then []
    else Insert(SortUnique(items[..|items| - 1], key), items[|items| - 1], key)
  }

  lemma {:induction false} InsertAscending<T>(items: seq<T>, x: T, key: T -> string)
    requires Ascending(items, key)
    ensures Ascending(Insert(items, x, key), key)
    ensures forall y :: y in Insert(items, x, key) ==> y == x || y in items
    ensures x in Insert(items, x, key)
    ensures forall y :: y in items && key(y) != key(x) ==> y in Insert(items, x, key)
  {
    if items != [] {
      var head, rest := items[0], items[1..];
      assert forall y :: y in items <==> y == head || y in rest;
      if Before(key(x), key(head)) {
        forall j | 0 <= j < |items|
          ensures Before(key(x), key(items[j]))
        {
          if j > 0 { BeforeTransitive(key(x), key(head), key(items[j])); }
        }
      } else if key(x) != key(head) {
        BeforeTotal(key(x), key(head));
        InsertAscending(rest, x, key);
        HeadStaysFirst(items, Insert(rest, x, key), x, key);
      }
    }
  }

  lemma HeadStaysFirst<T>(items: seq<T>, tail: seq<T>, x: T, key: T -> string)
    requires items != [] && Ascending(items, key) && Before(key(items[0]), key(x))
    requires Ascending(tail, key) && forall y :: y in tail ==> y == x || y in items[1..]
    ensures Ascending([items[0]] + tail, key)
  {
    forall j | 0 <= j < |tail|
      ensures Before(key(items[0]), key(tail[j]))
    {
      assert tail[j] in tail;
      if tail[j] != x {
        var i :| 0 <= i < |items[1..]| && items[1..][i] == tail[j];
        assert items[i + 1] == tail[j];
      }
    }
  }

  lemma {:induction false} SortUniqueAscending<T>(items: seq<T>, key: T -> string)
    ensures Ascending(SortUnique(items, key), key)
    ensures forall y :: y in SortUnique(items, key) ==> y in items
  {
    if items != [] {
      var init, last := items[..|items| - 1], items[|items| - 1];
      SortUniqueAscending(init, key);
      InsertAscending(SortUnique(init, key), last, key);
      assert items == init + [last];
    }
  }

  ghost function KeySet<T>(items: seq<T>, key: T -> string): set<string> {
    set i | 0 <= i < |items| :: key(items[i])
  }

  lemma KeySetSplit<T>(left: seq<T>, right: seq<T>, key: T -> string)
    ensures KeySet(left + right, key) == KeySet(left, key) + KeySet(right, key)
  {
    forall k | k in KeySet(left, key) + KeySet(right, key)
      ensures k in KeySet(left + right, key)
    {
      if k in KeySet(left, key) {
        var i :| 0 <= i < |left| && key(left[i]) == k;
        assert (left + right)[i] == left[i];
      } else {
        var i :| 0 <= i < |right| && key(right[i]) == k;
        assert (left + right)[|left| + i] == right[i];
      }
    }
  }

  lemma {:induction false} InsertKeySet<T>(items: seq<T>, x: T, key: T -> string)
    ensures KeySet(Insert(items, x, key), key) == KeySet(items, key) + {key(x)}
  {
    KeySetSplit([x], items, key);
    assert KeySet([x], key) == {key(x)} by { assert [x][0] == x; }
    if items != [] {
      var head, rest := [items[0]], items[1..];
      assert items == head + rest;
      assert KeySet(head, key) == {key(items[0])} by { assert head[0] == items[0]; }
      KeySetSplit(head, rest, key);
      KeySetSplit([x], rest, key);
      KeySetSplit(head, Insert(rest, x, key), key);
      InsertKeySet(rest, x, key);
    }
  }

  /** Nothing is lost and nothing invented: the same keys survive. */
  lemma {:induction false} SortUniqueKeySet<T>(items: seq<T>, key: T -> string)
    ensures KeySet(SortUnique(items, key), key) == KeySet(items, key)
  {
    if items != [] {
      var init, last := items[..|items| - 1], items[|items| - 1];
      assert items == init + [last];
      KeySetSplit(init, [last], key);
      SortUniqueKeySet(init, key);
      InsertKeySet(SortUnique(init, key), last, key);
    }
  }

  lemma {:induction false} InsertLast<T>(items: seq<T>, x: T, key: T -> string)
    requires forall i :: 0 <= i < |items| ==> Before(key(items[i]), key(x))
    ensures Insert(items, x, key) == items + [x]
  {
    if items != [] {
      BeforeAsymmetric(key(items[0]), key(x));
      InsertLast(items[1..], x, key);
    }
  }

  lemma {:induction false} SortUniqueFixed<T>(items: seq<T>, key: T -> string)
    requires Ascending(items, key)
    ensures SortUnique(items, key) == items
  {
    if items != [] {
      var init, last := items[..|items| - 1], items[|items| - 1];
      SortUniqueFixed(init, key);
      InsertLast(init, last, key);
    }
  }

  // ---------- canonical form ----------

  function Text(v: Json): string {
    if v.Str? then v.s else ""
  }

  /** `encode` stands for the sorted-key JSON text of an object; nothing is assumed about it. */
  function Canonical(encode: Json -> string, v: Json): Json {
    match v
    case Arr(items) =>
      if forall i :: 0 <= i < |items| ==> items[i].Str? then Arr(SortUnique(items, Text))
      else if forall i :: 0 <= i < |items| ==> items[i].Obj? then Arr(SortUnique(items, encode))
      else v
    case Obj(fields) => Obj(map k | k in fields :: Canonical(encode, fields[k]))
    case _ => v
  }

  lemma CanonicalArrayIdempotent(encode: Json -> string, items: seq<Json>)
    ensures Canonical(encode, Canonical(encode, Arr(items))) == Canonical(encode, Arr(items))
  {
    if items == [] {
      assert SortUnique(items, Text) == [];
    } else if forall i :: 0 <= i < |items| ==> items[i].Str? {
      SortUniqueSettled(items, Text);
    } else if forall i :: 0 <= i < |items| ==> items[i].Obj? {
      SortUniqueSettled(items, encode);
      assert items[0].Obj?;
    }
  }

  lemma SortUniqueSettled(items: seq<Json>, key: Json -> string)
    requires items != []
    ensures SortUnique(SortUnique(items, key), key) == SortUnique(items, key)
    ensures SortUnique(items, key) != []
    ensures forall i :: 0 <= i < |SortUnique(items, key)| ==> SortUnique(items, key)[i] in items
  {
    SortUniqueAscending(items, key);
    SortUniqueFixed(SortUnique(items, key), key);
    SortUniqueKeySet(items, key);
    assert key(items[0]) in KeySet(items, key);
  }

  lemma {:induction false} CanonicalIdempotent(encode: Json -> string, v: Json)
    ensures Canonical(encode, Canonical(encode, v)) == Canonical(encode, v)
  {
    match v
    case Arr(items) => CanonicalArrayIdempotent(encode, items);
    case Obj(fields) =>
      forall k | k in fields
        ensures Canonical(encode, Canonical(encode, fields[k])) == Canonical(encode, fields[k])
      {
        CanonicalIdempotent(encode, fields[k]);
      }
    case _ =>
  }
}
