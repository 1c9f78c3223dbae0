/** Parsed JSON documents, their equality, and the merging of their keys. */
module JsonTrees {
  import opened Bytes

  type Key = seq<Byte>

  /** An object keeps its keys ascending. A number is known by its canonical
      text. */
  datatype Node =
    | Null
    | Bool(b: bool)
    | Str(s: Key)
    | Num(canonical: string)
    | Arr(elems: seq<Node>)
    | Obj(fields: seq<Field>)

  datatype Field = Field(key: Key, value: Node)

  predicate Less(a: Key, b: Key) {
    Compare(a, b) < 0
  }

  lemma {:induction false} LessOrder(a: Key, b: Key, c: Key)
    ensures !Less(a, a) && (a == b || Less(a, b) || Less(b, a)) && !(Less(a, b) && Less(b, a))
    ensures Less(a, b) && Less(b, c) ==> Less(a, c)
  {
    CompareAntisymmetric(a, b);
    CompareAntisymmetric(a, c);
    if Less(a, b) && Less(b, c) {
      CompareTransitive(a, b, c);
      if a == c { CompareAntisymmetric(b, c); }
    }
  }

  ghost predicate AscendingKeys(s: seq<Key>) {
    forall i, j :: 0 <= i < j < |s| ==> Less(s[i], s[j])
  }

  function KeysOf(fields: seq<Field>): (keys: seq<Key>)
    ensures |keys| == |fields| && forall i :: 0 <= i < |keys| ==> keys[i] == fields[i].key
  {
    seq(|fields|, i requires 0 <= i < |fields| => fields[i].key)
  }

  /** What parsing yields: duplicate keys are refused, and keys sorted. */
  ghost predicate Parsed(n: Node) {
    match n
    case Arr(elems) => forall i :: 0 <= i < |elems| ==> Parsed(elems[i])
    case Obj(fields) =>
      && AscendingKeys(KeysOf(fields))
      && forall i :: 0 <= i < |fields| ==> Parsed(fields[i].value)
    case _ => true
  }

  /** The place of a key, or the number of fields. */
  function Place(fields: seq<Field>, k: Key): (i: nat)
    ensures i <= |fields| && (i < |fields| ==> fields[i].key == k)
    ensures forall j :: 0 <= j < i ==> fields[j].key != k
  {
    if fields == [] || fields[0].key == k then 0 else 1 + Place(fields[1..], k)
  }

  predicate Has(fields: seq<Field>, k: Key) {
    Place(fields, k) < |fields|
  }

  predicate SameKind(a: Node, b: Node) {
    match a
    case Null => b.Null?
    case Bool(_) => b.Bool?
    case Str(_) => b.Str?
    case Num(_) => b.Num?
    case Arr(_) => b.Arr?
    case Obj(_) => b.Obj?
  }

  /** Equal as JSON: arrays in order, objects whatever the order of their keys. */
  predicate JsonEqual(a: Node, b: Node)
    decreases a
  {
    SameKind(a, b) &&
    match a
    case Arr(elems) => |elems| == |b.elems| && forall i :: 0 <= i < |elems| ==> JsonEqual(elems[i], b.elems[i])
    case Obj(fields) =>
      && |fields| == |b.fields|
      && forall i :: 0 <= i < |fields| ==>
           Has(b.fields, fields[i].key) && JsonEqual(fields[i].value, b.fields[Place(b.fields, fields[i].key)].value)
    case _ => a == b
  }

  /** Equality is identity: a document is one tree. */
  lemma {:induction false} EqualIsSame(a: Node, b: Node)
    requires Parsed(a) && Parsed(b)
    ensures JsonEqual(a, b) <==> a == b
    decreases a
  {
    match a
    case Arr(elems) =>
      if b.Arr? && |elems| == |b.elems| {
        forall i | 0 <= i < |elems| ensures JsonEqual(elems[i], b.elems[i]) <==> elems[i] == b.elems[i] {
          EqualIsSame(elems[i], b.elems[i]);
        }
      }
    case Obj(fields) =>
      if b.Obj? && |fields| == |b.fields| {
        forall i, j | 0 <= i < |fields| && 0 <= j < |fields|
          ensures JsonEqual(fields[i].value, b.fields[j].value) <==> fields[i].value == b.fields[j].value
        {
          EqualIsSame(fields[i].value, b.fields[j].value);
        }
        if JsonEqual(a, b) { SameFields(fields, b.fields); }
        if a == b { OwnPlaces(fields); }
      }
    case _ =>
  }

  /** Of two keys in a list the smaller comes first. */
  lemma {:induction false} KeysInOrder(fields: seq<Field>)
    requires AscendingKeys(KeysOf(fields))
    ensures forall i, j :: 0 <= i < |fields| && 0 <= j < |fields| ==> (Less(fields[i].key, fields[j].key) <==> i < j)
    ensures forall i, j :: 0 <= i < j < |fields| ==> fields[i].key != fields[j].key
  {
    forall i, j | 0 <= i < |fields| && 0 <= j < |fields|
      ensures (Less(fields[i].key, fields[j].key) <==> i < j) && (i < j ==> fields[i].key != fields[j].key)
    {
      var keys := KeysOf(fields);
      LessOrder(keys[i], keys[j], keys[i]);
    }
  }

  lemma {:induction false} OwnPlaces(fields: seq<Field>)
    requires AscendingKeys(KeysOf(fields))
    ensures forall i :: 0 <= i < |fields| ==> Place(fields, fields[i].key) == i
  {
    KeysInOrder(fields);
  }

  /** Ascending keys, each of one list in the other and as many: the lists are
      the same. */
  lemma {:induction false} SameFields(a: seq<Field>, b: seq<Field>)
    requires AscendingKeys(KeysOf(a)) && AscendingKeys(KeysOf(b)) && |a| == |b|
    requires forall i :: 0 <= i < |a| ==> Has(b, a[i].key) && a[i].value == b[Place(b, a[i].key)].value
    ensures a == b
  {
    forall i: nat | i < |a| ensures Place(b, a[i].key) >= i { PlacesClimb(a, b, i); }
    forall i: nat | i < |a| ensures Place(b, a[i].key) <= i { PlacesFit(a, b, i); }
    forall i | 0 <= i < |a| ensures a[i] == b[i] {
      assert Place(b, a[i].key) == i;
    }
  }

  lemma {:induction false} PlacesOrder(a: seq<Field>, b: seq<Field>, i: nat, j: nat)
    requires AscendingKeys(KeysOf(a)) && AscendingKeys(KeysOf(b)) && i < j < |a|
    requires forall k :: 0 <= k < |a| ==> Has(b, a[k].key)
    ensures Place(b, a[i].key) < Place(b, a[j].key)
  {
    KeysInOrder(a);
    KeysInOrder(b);
    hide Less;
  }

  lemma {:induction false} PlacesClimb(a: seq<Field>, b: seq<Field>, i: nat)
    requires AscendingKeys(KeysOf(a)) && AscendingKeys(KeysOf(b)) && i < |a|
    requires forall k :: 0 <= k < |a| ==> Has(b, a[k].key)
    ensures Place(b, a[i].key) >= i
  {
    if i > 0 {
      PlacesClimb(a, b, i - 1);
      PlacesOrder(a, b, i - 1, i);
    }
  }

  lemma {:induction false} PlacesFit(a: seq<Field>, b: seq<Field>, i: nat)
    requires AscendingKeys(KeysOf(a)) && AscendingKeys(KeysOf(b)) && |a| == |b| && i < |a|
    requires forall k :: 0 <= k < |a| ==> Has(b, a[k].key)
    ensures Place(b, a[i].key) <= i
    decreases |a| - i
  {
    if i + 1 < |a| {
      PlacesFit(a, b, i + 1);
      PlacesOrder(a, b, i, i + 1);
    } else {
      assert Has(b, a[i].key);
    }
  }

  // ---- Merging keys ----

  /** The keys of two ascending lists, the smaller first, equal ones once. */
  function Merge(a: seq<Key>, b: seq<Key>): seq<Key>
    decreases |a| + |b|
  {
    if a == [] then b
    else if b == [] then a
    else if Less(a[0], b[0]) then [a[0]] + Merge(a[1..], b)
    else if Less(b[0], a[0]) then [b[0]] + Merge(a, b[1..])
    else [a[0]] + Merge(a[1..], b[1..])
  }

  lemma {:induction false} Rest(s: seq<Key>)
    requires AscendingKeys(s) && s != []
    ensures AscendingKeys(s[1..]) && forall k :: k in s[1..] ==> Less(s[0], k)
    ensures forall k :: k in s <==> k == s[0] || k in s[1..]
  {
    assert s == [s[0]] + s[1..];
  }

  lemma {:induction false} Prepend(k: Key, s: seq<Key>)
    requires AscendingKeys(s) && forall x :: x in s ==> Less(k, x)
    ensures AscendingKeys([k] + s)
  {
    var t := [k] + s;
    forall i, j | 0 <= i < j < |t| ensures Less(t[i], t[j]) {
      assert t[j] == s[j - 1];
    }
  }

  lemma {:induction false} BelowAll(k: Key, first: Key, s: seq<Key>)
    requires AscendingKeys(s) && s != [] && s[0] == first && (k == first || Less(k, first))
    ensures forall x :: x in s && x != k ==> Less(k, x)
  {
    forall x | x in s && x != k ensures Less(k, x) {
      var i :| 0 <= i < |s| && s[i] == x;
      if i > 0 {
        assert Less(s[0], s[i]);
        LessOrder(k, first, x);
      }
    }
  }

  /** The strictly ascending union of two ascending lists. */
  lemma {:induction false} MergeIsUnion(a: seq<Key>, b: seq<Key>)
    requires AscendingKeys(a) && AscendingKeys(b)
    ensures AscendingKeys(Merge(a, b)) && forall k :: k in Merge(a, b) <==> k in a || k in b
    decreases |a| + |b|
  {
    if a != [] && b != [] {
      LessOrder(a[0], b[0], a[0]);
      Rest(a);
      Rest(b);
      if Less(a[0], b[0]) {
        MergeIsUnion(a[1..], b);
        BelowAll(a[0], b[0], b);
        NotBelowItself(a[0], b);
        Prepend(a[0], Merge(a[1..], b));
      } else if Less(b[0], a[0]) {
        MergeIsUnion(a, b[1..]);
        BelowAll(b[0], a[0], a);
        NotBelowItself(b[0], a);
        Prepend(b[0], Merge(a, b[1..]));
      } else {
        MergeIsUnion(a[1..], b[1..]);
        Prepend(a[0], Merge(a[1..], b[1..]));
      }
    }
  }

  lemma {:induction false} NotBelowItself(k: Key, s: seq<Key>)
    requires AscendingKeys(s) && s != [] && Less(k, s[0])
    ensures k !in s
  {
    forall i | 0 <= i < |s| ensures s[i] != k {
      LessOrder(k, s[0], s[i]);
      LessOrder(k, k, k);
    }
  }

  /** Advances two places through the lists. */
  method MergeSortedKeys(a: seq<Key>, b: seq<Key>) returns (out: seq<Key>)
    ensures out == Merge(a, b)
  {
    out := [];
    var i, j := 0, 0;
    assert a[0..] == a && b[0..] == b;
    while i < |a| || j < |b|
      invariant 0 <= i <= |a| && 0 <= j <= |b| && out + Merge(a[i..], b[j..]) == Merge(a, b)
      decreases |a| - i + |b| - j
    {
      MergeHead(a, b, i, j);
      hide *;
      if j == |b| || (i < |a| && Less(a[i], b[j])) {
        Push(out, a[i], Merge(a[i + 1..], b[j..]));
        out := out + [a[i]];
        i := i + 1;
      } else if i == |a| || Less(b[j], a[i]) {
        Push(out, b[j], Merge(a[i..], b[j + 1..]));
        out := out + [b[j]];
        j := j + 1;
      } else {
        Push(out, a[i], Merge(a[i + 1..], b[j + 1..]));
        out := out + [a[i]];
        i, j := i + 1, j + 1;
      }
    }
    assert a[i..] == [] && b[j..] == [];
    assert out + [] == out;
  }

  lemma {:induction false} Push(out: seq<Key>, k: Key, rest: seq<Key>)
    ensures out + ([k] + rest) == out + [k] + rest
  {
  }

  lemma {:induction false} MergeHead(a: seq<Key>, b: seq<Key>, i: nat, j: nat)
    requires i <= |a| && j <= |b| && (i < |a| || j < |b|)
    ensures j == |b| || (i < |a| && Less(a[i], b[j])) ==>
              i < |a| && Merge(a[i..], b[j..]) == [a[i]] + Merge(a[i + 1..], b[j..])
    ensures !(j == |b| || (i < |a| && Less(a[i], b[j]))) && (i == |a| || Less(b[j], a[i])) ==>
              j < |b| && Merge(a[i..], b[j..]) == [b[j]] + Merge(a[i..], b[j + 1..])
    ensures !(j == |b| || (i < |a| && Less(a[i], b[j]))) && !(i == |a| || Less(b[j], a[i])) ==>
              i < |a| && j < |b| && Merge(a[i..], b[j..]) == [a[i]] + Merge(a[i + 1..], b[j + 1..])
  {
    var x, y := a[i..], b[j..];
    if i < |a| { assert x[0] == a[i] && x[1..] == a[i + 1..] && x == [x[0]] + x[1..]; }
    if j < |b| { assert y[0] == b[j] && y[1..] == b[j + 1..] && y == [y[0]] + y[1..]; }
    if i + 1 <= |a| && j == |b| { assert Merge(x[1..], y) == x[1..]; }
    if j + 1 <= |b| && i == |a| { assert Merge(x, y[1..]) == y[1..]; }
    hide Less;
  }
}
