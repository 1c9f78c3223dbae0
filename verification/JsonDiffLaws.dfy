/** What the difference of two JSON documents says. */
module JsonDiffLaws {
  import opened Bytes
  import opened JsonTrees
  import opened JsonDiffs

  // ---- Nothing is reported just when the documents are equal ----

  lemma {:induction false} EmptyIffEqual(e: Node, a: Node, path: Path)
    requires Parsed(e) && Parsed(a)
    ensures Diffs(e, a, path) == [] <==> JsonEqual(e, a)
    decreases e, 1, 0
  {
    if SameKind(e, a) && e.Arr? {
      ElementsEmpty(e, a, 0, path);
    } else if SameKind(e, a) && e.Obj? {
      var keys := Merge(KeysOf(e.fields), KeysOf(a.fields));
      MergeIsUnion(KeysOf(e.fields), KeysOf(a.fields));
      KeyPlaces(e.fields);
      KeyPlaces(a.fields);
      hide *;
      FieldsEmpty(e, a, keys, path);
      if Fields(e, a, keys, path) == [] { AllFieldsEqual(e, a, keys); }
      if JsonEqual(e, a) { EqualFields(e, a, keys); }
      DiffsOfObjects(e, a, path);
    }
  }

  lemma {:induction false} DiffsOfObjects(e: Node, a: Node, path: Path)
    requires e.Obj? && a.Obj?
    ensures Diffs(e, a, path) == Fields(e, a, Merge(KeysOf(e.fields), KeysOf(a.fields)), path)
  {
  }

  lemma {:induction false} KeyPlaces(fields: seq<Field>)
    ensures forall k :: k in KeysOf(fields) <==> Has(fields, k)
  {
    forall k ensures k in KeysOf(fields) <==> Has(fields, k) {
      if Has(fields, k) { assert KeysOf(fields)[Place(fields, k)] == k; }
      if k in KeysOf(fields) {
        var i :| 0 <= i < |fields| && KeysOf(fields)[i] == k;
        assert Place(fields, k) <= i;
      }
    }
  }

  lemma {:induction false} ElementsEmpty(e: Node, a: Node, i: nat, path: Path)
    requires Parsed(e) && Parsed(a) && e.Arr? && a.Arr?
    ensures Elements(e, a, i, path) == [] <==>
              && (i >= |e.elems| <==> i >= |a.elems|) && (i < |e.elems| ==> |e.elems| == |a.elems|)
              && forall k :: i <= k < |e.elems| && k < |a.elems| ==> JsonEqual(e.elems[k], a.elems[k])
    decreases e, 0, |e.elems| + |a.elems| - i
  {
    if i < |e.elems| && i < |a.elems| {
      EmptyIffEqual(e.elems[i], a.elems[i], path + [Index(i)]);
      ElementsEmpty(e, a, i + 1, path);
    }
  }

  /** Both have the field, with equal values. */
  ghost predicate FieldEqual(e: Node, a: Node, k: Key)
    requires e.Obj? && a.Obj?
  {
    var i, j := Place(e.fields, k), Place(a.fields, k);
    i < |e.fields| && j < |a.fields| && JsonEqual(e.fields[i].value, a.fields[j].value)
  }

  lemma {:induction false} FieldEmpty(e: Node, a: Node, k: Key, path: Path)
    requires Parsed(e) && Parsed(a) && e.Obj? && a.Obj? && (Has(e.fields, k) || Has(a.fields, k))
    ensures FieldDiffs(e, a, k, path) == [] <==> FieldEqual(e, a, k)
    decreases e, 0, 0
  {
    var i, j := Place(e.fields, k), Place(a.fields, k);
    if i < |e.fields| && j < |a.fields| {
      EmptyIffEqual(e.fields[i].value, a.fields[j].value, path + [At(k)]);
    }
  }

  lemma {:induction false} FieldsEmpty(e: Node, a: Node, keys: seq<Key>, path: Path)
    requires Parsed(e) && Parsed(a) && e.Obj? && a.Obj?
    requires forall k :: k in keys ==> Has(e.fields, k) || Has(a.fields, k)
    ensures Fields(e, a, keys, path) == [] <==> forall k :: k in keys ==> FieldEqual(e, a, k)
    decreases e, 0, 1 + |keys|
  {
    if keys != [] {
      assert keys == [keys[0]] + keys[1..];
      FieldEmpty(e, a, keys[0], path);
      FieldsEmpty(e, a, keys[1..], path);
      hide FieldDiffs, FieldEqual, Has, Parsed;
    }
  }

  lemma {:induction false} AllFieldsEqual(e: Node, a: Node, keys: seq<Key>)
    requires Parsed(e) && Parsed(a) && e.Obj? && a.Obj?
    requires forall k :: k in keys <==> k in KeysOf(e.fields) || k in KeysOf(a.fields)
    requires forall k :: k in keys ==> FieldEqual(e, a, k)
    ensures JsonEqual(e, a)
  {
    OwnPlaces(e.fields);
    hide JsonEqual, Place, AscendingKeys;
    forall i | 0 <= i < |e.fields|
      ensures Has(a.fields, e.fields[i].key)
      ensures JsonEqual(e.fields[i].value, a.fields[Place(a.fields, e.fields[i].key)].value)
    {
      assert KeysOf(e.fields)[i] in keys;
      assert FieldEqual(e, a, e.fields[i].key);
    }
    forall j | 0 <= j < |a.fields| ensures Has(e.fields, a.fields[j].key) {
      assert KeysOf(a.fields)[j] in keys;
      assert FieldEqual(e, a, a.fields[j].key);
    }
    SameCount(e.fields, a.fields);
    JsonEqualIs(e, a);
  }

  lemma {:induction false} JsonEqualIs(e: Node, a: Node)
    requires e.Obj? && a.Obj?
    ensures JsonEqual(e, a) <==>
              && |e.fields| == |a.fields|
              && forall i :: 0 <= i < |e.fields| ==>
                   && Has(a.fields, e.fields[i].key)
                   && JsonEqual(e.fields[i].value, a.fields[Place(a.fields, e.fields[i].key)].value)
  {
  }

  /** Lists of fields with the same keys are equally long. */
  lemma {:induction false} SameCount(e: seq<Field>, a: seq<Field>)
    requires AscendingKeys(KeysOf(e)) && AscendingKeys(KeysOf(a))
    requires (forall i :: 0 <= i < |e| ==> Has(a, e[i].key)) && (forall j :: 0 <= j < |a| ==> Has(e, a[j].key))
    ensures |e| == |a|
  {
    if |e| > 0 {
      PlacesClimb(e, a, |e| - 1);
      assert Has(a, e[|e| - 1].key);
    }
    if |a| > 0 {
      PlacesClimb(a, e, |a| - 1);
      assert Has(e, a[|a| - 1].key);
    }
  }

  lemma {:induction false} EqualFields(e: Node, a: Node, keys: seq<Key>)
    requires Parsed(e) && Parsed(a) && e.Obj? && a.Obj? && JsonEqual(e, a)
    requires forall k :: k in keys <==> k in KeysOf(e.fields) || k in KeysOf(a.fields)
    ensures forall k :: k in keys ==> FieldEqual(e, a, k)
  {
    EqualIsSame(e, a);
    OwnPlaces(e.fields);
    forall k | k in keys ensures FieldEqual(e, a, k) {
      KeyPlaces(e.fields);
      var i := Place(e.fields, k);
      EqualIsSame(e.fields[i].value, e.fields[i].value);
    }
  }

  // ---- What is reported, path by path ----

  /** The documents differ here, and no deeper place can say so. */
  ghost predicate Clash(e: Node, a: Node) {
    !SameKind(e, a) || (!e.Arr? && !e.Obj? && e != a)
  }

  /** Following the rest of its path, the entry says how the documents differ. */
  ghost predicate Finds(e: Node, a: Node, rest: Path, x: Entry)
    decreases |rest|
  {
    if rest == [] then Clash(e, a) && x == Differ(x.path, e, a)
    else match rest[0]
      case Index(i) =>
        && e.Arr? && a.Arr?
        && (if i < |e.elems| && i < |a.elems| then Finds(e.elems[i], a.elems[i], rest[1..], x)
            else if i < |e.elems| then |rest| == 1 && x == Missing(x.path, e.elems[i])
            else i < |a.elems| && |rest| == 1 && x == Unexpected(x.path, a.elems[i]))
      case At(k) =>
        && e.Obj? && a.Obj?
        && var i, j := Place(e.fields, k), Place(a.fields, k);
           (if i < |e.fields| && j < |a.fields| then Finds(e.fields[i].value, a.fields[j].value, rest[1..], x)
            else if i < |e.fields| then |rest| == 1 && x == Missing(x.path, e.fields[i].value)
            else j < |a.fields| && |rest| == 1 && x == Unexpected(x.path, a.fields[j].value))
  }

  ghost predicate FindsFrom(e: Node, a: Node, path: Path, x: Entry) {
    path <= x.path && Finds(e, a, x.path[|path|..], x)
  }

  /** Through one hop. */
  ghost predicate Through(e: Node, a: Node, path: Path, h: Hop, x: Entry) {
    path + [h] <= x.path && FindsFrom(e, a, path, x)
  }

  /** An entry is reported exactly when, at its path, the documents differ in
      the way it says. */
  lemma {:induction false} ReportedIffDiffers(e: Node, a: Node, path: Path, x: Entry)
    requires Parsed(e) && Parsed(a)
    ensures x in Diffs(e, a, path) <==> FindsFrom(e, a, path, x)
    decreases e, 1, 0
  {
    if !SameKind(e, a) || (!e.Arr? && !e.Obj?) {
      HereOnly(e, a, path, x);
    } else if e.Arr? {
      InElements(e, a, 0, path, x);
      SomeHop(e, a, path, x);
    } else {
      var keys := Merge(KeysOf(e.fields), KeysOf(a.fields));
      InFields(e, a, keys, path, x);
      MergeIsUnion(KeysOf(e.fields), KeysOf(a.fields));
      KeyPlaces(e.fields);
      KeyPlaces(a.fields);
      SomeHop(e, a, path, x);
      hide Fields, Finds, Parsed;
    }
  }

  lemma {:induction false} HereOnly(e: Node, a: Node, path: Path, x: Entry)
    requires !SameKind(e, a) || (!e.Arr? && !e.Obj?)
    ensures x in Diffs(e, a, path) <==> FindsFrom(e, a, path, x)
  {
    if FindsFrom(e, a, path, x) {
      assert x.path[|path|..] == [] ==> x.path == path;
    }
    if x in Diffs(e, a, path) { assert x.path[|path|..] == []; }
  }

  /** In two containers of one kind an entry goes through some hop. */
  lemma {:induction false} SomeHop(e: Node, a: Node, path: Path, x: Entry)
    requires SameKind(e, a) && (e.Arr? || e.Obj?)
    ensures FindsFrom(e, a, path, x) ==>
              && |path| < |x.path| && Through(e, a, path, x.path[|path|], x)
              && (e.Arr? ==> x.path[|path|].Index?)
              && (e.Obj? ==>
                  x.path[|path|].At? && (Has(e.fields, x.path[|path|].key) || Has(a.fields, x.path[|path|].key)))
  {
    if FindsFrom(e, a, path, x) {
      var rest := x.path[|path|..];
      assert rest != [] ==> path + [rest[0]] <= x.path && rest[0] == x.path[|path|];
    }
  }

  lemma {:induction false} Deeper(path: Path, h: Hop, x: Entry)
    requires path + [h] <= x.path
    ensures path <= x.path && x.path[|path|] == h && x.path[|path|..] != [] && x.path[|path|..][0] == h
    ensures x.path[|path|..][1..] == x.path[|path + [h]|..]
  {
  }

  /** One element, in both, in one or in neither. */
  lemma {:induction false} OneElement(e: Node, a: Node, i: nat, path: Path, x: Entry)
    requires Parsed(e) && Parsed(a) && e.Arr? && a.Arr?
    ensures Through(e, a, path, Index(i), x) <==>
              if i < |e.elems| && i < |a.elems| then x in Diffs(e.elems[i], a.elems[i], path + [Index(i)])
              else if i < |e.elems| then x == Missing(path + [Index(i)], e.elems[i])
              else i < |a.elems| && x == Unexpected(path + [Index(i)], a.elems[i])
    decreases e, 0, 0
  {
    if path + [Index(i)] <= x.path { Deeper(path, Index(i), x); }
    if i < |e.elems| && i < |a.elems| { ReportedIffDiffers(e.elems[i], a.elems[i], path + [Index(i)], x); }
    hide Diffs, Parsed;
  }

  lemma {:induction false} InElements(e: Node, a: Node, i: nat, path: Path, x: Entry)
    requires Parsed(e) && Parsed(a) && e.Arr? && a.Arr?
    ensures x in Elements(e, a, i, path) <==> exists k :: k >= i && Through(e, a, path, Index(k), x)
    decreases e, 0, 1 + if i < |e.elems| + |a.elems| then |e.elems| + |a.elems| - i else 0
  {
    OneElement(e, a, i, path, x);
    if i < |e.elems| || i < |a.elems| {
      InElements(e, a, i + 1, path, x);
      hide Through, Parsed, Diffs;
    } else {
      forall k | k >= i ensures !Through(e, a, path, Index(k), x) { OneElement(e, a, k, path, x); }
      hide Through, Parsed, Diffs;
    }
  }

  lemma {:induction false} OneField(e: Node, a: Node, k: Key, path: Path, x: Entry)
    requires Parsed(e) && Parsed(a) && e.Obj? && a.Obj?
    ensures Through(e, a, path, At(k), x) <==> x in FieldDiffs(e, a, k, path)
    decreases e, 0, 0
  {
    var i, j, p := Place(e.fields, k), Place(a.fields, k), path + [At(k)];
    if p <= x.path { Deeper(path, At(k), x); }
    if i < |e.fields| && j < |a.fields| {
      ReportedIffDiffers(e.fields[i].value, a.fields[j].value, p, x);
    } else {
      assert p <= x.path && |x.path[|path|..]| == 1 ==> x.path == p;
    }
    hide Diffs, Parsed;
  }

  lemma {:induction false} InFields(e: Node, a: Node, keys: seq<Key>, path: Path, x: Entry)
    requires Parsed(e) && Parsed(a) && e.Obj? && a.Obj?
    ensures x in Fields(e, a, keys, path) <==> exists k :: k in keys && Through(e, a, path, At(k), x)
    decreases e, 0, 1 + |keys|
  {
    if keys != [] {
      OneField(e, a, keys[0], path, x);
      InFields(e, a, keys[1..], path, x);
      assert keys == [keys[0]] + keys[1..];
      hide Through, Parsed, FieldDiffs;
    }
  }

  // ---- In what order ----

  predicate HopLess(h: Hop, g: Hop) {
    match (h, g)
    case (Index(i), Index(j)) => i < j
    case (At(k), At(l)) => Less(k, l)
    case _ => h.Index? && g.At?
  }

  ghost predicate PathLess(p: Path, q: Path) {
    q != [] && (p == [] || HopLess(p[0], q[0]) || (p[0] == q[0] && PathLess(p[1..], q[1..])))
  }

  /** Ascending by path: elements by number, fields by key. */
  ghost predicate InOrder(s: seq<Entry>) {
    forall i, j :: 0 <= i < j < |s| ==> PathLess(s[i].path, s[j].path)
  }

  lemma {:induction false} Forked(path: Path, h: Hop, g: Hop, p: Path, q: Path)
    requires path + [h] <= p && path + [g] <= q && HopLess(h, g)
    ensures PathLess(p, q)
  {
    if path == [] {
      assert p[0] == ([h])[0] && q[0] == ([g])[0];
    } else {
      assert p[0] == path[0] && q[0] == path[0];
      assert path[1..] + [h] == (path + [h])[1..] && path[1..] + [g] == (path + [g])[1..];
      Forked(path[1..], h, g, p[1..], q[1..]);
    }
  }

  lemma {:induction false} OrderedParts(s: seq<Entry>, t: seq<Entry>)
    requires InOrder(s) && InOrder(t) && forall x, y :: x in s && y in t ==> PathLess(x.path, y.path)
    ensures InOrder(s + t)
  {
    hide PathLess;
    forall i, j | 0 <= i < j < |s + t| ensures PathLess((s + t)[i].path, (s + t)[j].path) {
      if i < |s| && j >= |s| { assert (s + t)[i] in s && (s + t)[j] in t; }
    }
  }

  /** The differences are strictly ascending by path; none is reported twice. */
  lemma {:induction false} ReportedInOrder(e: Node, a: Node, path: Path)
    requires Parsed(e) && Parsed(a)
    ensures InOrder(Diffs(e, a, path))
    decreases e, 1, 0
  {
    if SameKind(e, a) && e.Arr? {
      ElementsInOrder(e, a, 0, path);
    } else if SameKind(e, a) && e.Obj? {
      var keys := Merge(KeysOf(e.fields), KeysOf(a.fields));
      MergeIsUnion(KeysOf(e.fields), KeysOf(a.fields));
      FieldsInOrder(e, a, keys, path);
    }
    hide PathLess, Elements, Fields;
  }

  lemma {:induction false} ElementsInOrder(e: Node, a: Node, i: nat, path: Path)
    requires Parsed(e) && Parsed(a) && e.Arr? && a.Arr?
    ensures InOrder(Elements(e, a, i, path))
    decreases e, 0, if i < |e.elems| + |a.elems| then |e.elems| + |a.elems| - i else 0
  {
    if i < |e.elems| || i < |a.elems| {
      var first := if i < |e.elems| && i < |a.elems| then Diffs(e.elems[i], a.elems[i], path + [Index(i)])
                   else if i < |e.elems| then [Missing(path + [Index(i)], e.elems[i])]
                   else [Unexpected(path + [Index(i)], a.elems[i])];
      var rest := Elements(e, a, i + 1, path);
      assert Elements(e, a, i, path) == first + rest;
      if i < |e.elems| && i < |a.elems| { ReportedInOrder(e.elems[i], a.elems[i], path + [Index(i)]); }
      ElementsInOrder(e, a, i + 1, path);
      forall x, y | x in first && y in rest ensures PathLess(x.path, y.path) {
        OneElement(e, a, i, path, x);
        InElements(e, a, i + 1, path, y);
        var k :| k >= i + 1 && Through(e, a, path, Index(k), y);
        hide Diffs, Elements, Finds, PathLess, Parsed;
        Forked(path, Index(i), Index(k), x.path, y.path);
      }
      hide Diffs, Elements, PathLess, Parsed;
      OrderedParts(first, rest);
    }
  }

  lemma {:induction false} FieldsInOrder(e: Node, a: Node, keys: seq<Key>, path: Path)
    requires Parsed(e) && Parsed(a) && e.Obj? && a.Obj? && AscendingKeys(keys)
    ensures InOrder(Fields(e, a, keys, path))
    decreases e, 0, |keys|
  {
    if keys != [] {
      var k := keys[0];
      var first, rest := FieldDiffs(e, a, k, path), Fields(e, a, keys[1..], path);
      assert Fields(e, a, keys, path) == first + rest;
      Rest(keys);
      FieldInOrder(e, a, k, path);
      FieldsInOrder(e, a, keys[1..], path);
      forall x, y | x in first && y in rest ensures PathLess(x.path, y.path) {
        OneField(e, a, k, path, x);
        InFields(e, a, keys[1..], path, y);
        var l :| l in keys[1..] && Through(e, a, path, At(l), y);
        hide FieldDiffs, Fields, Finds, PathLess, Parsed;
        Forked(path, At(k), At(l), x.path, y.path);
      }
      hide FieldDiffs, Fields, PathLess, Parsed;
      OrderedParts(first, rest);
    }
  }

  lemma {:induction false} FieldInOrder(e: Node, a: Node, k: Key, path: Path)
    requires Parsed(e) && Parsed(a) && e.Obj? && a.Obj?
    ensures InOrder(FieldDiffs(e, a, k, path))
    decreases e, 0, 0
  {
    var i, j := Place(e.fields, k), Place(a.fields, k);
    if i < |e.fields| && j < |a.fields| {
      ReportedInOrder(e.fields[i].value, a.fields[j].value, path + [At(k)]);
    }
    hide Diffs, PathLess;
  }

  /** The bounded difference says nothing just when the documents are equal,
      whatever the limit. */
  lemma {:induction false} BoundedIffEqual(e: Node, a: Node, limit: nat)
    requires Parsed(e) && Parsed(a)
    ensures Take(Diffs(e, a, []), limit + 1) == [] <==> JsonEqual(e, a)
    ensures |Take(Diffs(e, a, []), limit + 1)| > limit <==> |Diffs(e, a, [])| > limit
  {
    EmptyIffEqual(e, a, []);
  }
}
