/** Fingerprints of values in a heap: what a typed heap guarantees about the
    tree a walk sees, and why addresses and iteration order never show. */
module HeapContents {
  import opened Bytes
  import opened Values
  import opened Fingerprints
  import opened FingerprintLaws
  import opened FingerprintDecodes
  import opened FingerprintReadings
  import opened Namesakes
  import opened Permutations

  // ---- Typed heaps ----

  ghost predicate ValueHasType(ts: Types, h: Heap, v: Value, ty: TypeId)
    decreases v, 0
  {
    match v
    case Invalid => false
    case Leaf(x) => ScalarFits(x) && ScalarHasType(x, ts.def(ty))
    case Interface(dyn, e) =>
      ts.def(ty).InterfaceType? && !ts.def(dyn).InterfaceType? && ValueHasType(ts, h, e, dyn)
    case EmptySlice => ts.def(ty).SliceType?
    case Array(es) => ValuesHaveTypes(ts, h, es, PartTypes(ts.def(ty), ArrayShape, |es|))
    case Struct(fs) => ValuesHaveTypes(ts, h, fs, PartTypes(ts.def(ty), StructShape, |fs|))
    case Ref(key) => key in h && key.typ == ty && KindOfRef(ts.def(ty), key.kind)
  }

  ghost predicate ValuesHaveTypes(ts: Types, h: Heap, es: seq<Value>, tys: seq<TypeId>)
    decreases es, 0
  {
    |es| == |tys| && forall i :: 0 <= i < |es| ==> ValueHasType(ts, h, es[i], tys[i])
  }

  ghost predicate CellHasType(ts: Types, h: Heap, c: Cell, d: TypeDef) {
    match c
    case PointerTo(t) => d.PointerType? && ValueHasType(ts, h, t, d.elem)
    case SliceOf(es) => d.SliceType? && ValuesHaveTypes(ts, h, es, PartTypes(d, SliceShape, |es|))
    case MapOf(es) =>
      && d.MapType?
      && forall i :: 0 <= i < |es| ==>
           ValueHasType(ts, h, es[i].key, d.key) && ValueHasType(ts, h, es[i].val, d.val)
  }

  ghost predicate HeapTyped(ts: Types, h: Heap) {
    forall k :: k in h ==> CellFits(k, h[k]) && CellHasType(ts, h, h[k], ts.def(k.typ))
  }

  lemma {:induction false} TypedIsLive(ts: Types, h: Heap, v: Value, ty: TypeId)
    requires ValueHasType(ts, h, v, ty)
    ensures Live(h, v)
    decreases v
  {
    match v {
      case Interface(dyn, e) => TypedIsLive(ts, h, e, dyn);
      case Array(es) =>
        var tys := PartTypes(ts.def(ty), ArrayShape, |es|);
        forall i | 0 <= i < |es| ensures Live(h, es[i]) { TypedIsLive(ts, h, es[i], tys[i]); }
      case Struct(es) =>
        var tys := PartTypes(ts.def(ty), StructShape, |es|);
        forall i | 0 <= i < |es| ensures Live(h, es[i]) { TypedIsLive(ts, h, es[i], tys[i]); }
      case _ =>
    }
  }

  lemma {:induction false} TypedIsClosed(ts: Types, h: Heap)
    requires HeapTyped(ts, h)
    ensures Closed(h)
  {
    forall k | k in h ensures LiveCell(h, h[k]) {
      var d := ts.def(k.typ);
      match h[k] {
        case PointerTo(t) => TypedIsLive(ts, h, t, d.elem);
        case SliceOf(es) =>
          forall i | 0 <= i < |es| ensures Live(h, es[i]) { TypedIsLive(ts, h, es[i], d.elem); }
        case MapOf(es) =>
          forall i | 0 <= i < |es| ensures Live(h, es[i].key) && Live(h, es[i].val) {
            TypedIsLive(ts, h, es[i].key, d.key);
            TypedIsLive(ts, h, es[i].val, d.val);
          }
      }
    }
  }

  /** What a walk sees of a typed value is a typed tree. */
  lemma {:induction false} UnfoldTyped(ts: Types, h: Heap, v: Value, ty: TypeId, depth: nat, path: seq<RefKey>)
    requires HeapTyped(ts, h) && Closed(h) && ValueHasType(ts, h, v, ty) && Live(h, v)
    ensures HasType(ts, Unfold(ts.names, h, v, depth, path), ty)
    ensures Fits(Unfold(ts.names, h, v, depth, path))
    decreases MeasureAt(depth), 1
  {
    if depth <= MAX_DEPTH {
      var d := ts.def(ty);
      match v {
        case Interface(dyn, e) => UnfoldTyped(ts, h, e, dyn, depth + 1, path);
        case Array(es) => UnfoldAllTyped(ts, h, es, PartTypes(d, ArrayShape, |es|), depth, path);
        case Struct(es) => UnfoldAllTyped(ts, h, es, PartTypes(d, StructShape, |es|), depth, path);
        case Ref(key) =>
          if key !in path {
            match h[key] {
              case PointerTo(t) => UnfoldTyped(ts, h, t, d.elem, depth + 1, path + [key]);
              case SliceOf(es) => UnfoldAllTyped(ts, h, es, PartTypes(d, SliceShape, |es|), depth, path + [key]);
              case MapOf(es) =>
                UnfoldEntriesTyped(ts, h, es, d, depth, path + [key]);
            }
          }
        case _ =>
      }
    }
  }

  lemma {:induction false} UnfoldEntriesTyped(
      ts: Types, h: Heap, es: seq<Entry<Value>>, d: TypeDef, depth: nat, path: seq<RefKey>)
    requires HeapTyped(ts, h) && Closed(h) && depth <= MAX_DEPTH
    requires CellHasType(ts, h, MapOf(es), d) && LiveCell(h, MapOf(es))
    ensures EntriesFit(UnfoldEntries(ts.names, h, es, depth, path))
    ensures forall i :: 0 <= i < |es| ==> EntryHasType(ts, UnfoldEntries(ts.names, h, es, depth, path)[i], d.key, d.val)
    decreases MeasureAt(depth), 0
  {
    forall i | 0 <= i < |es|
      ensures var e := UnfoldEntries(ts.names, h, es, depth, path)[i];
              EntryHasType(ts, e, d.key, d.val) && Fits(e.key) && Fits(e.val)
    {
      UnfoldTyped(ts, h, es[i].key, d.key, depth + 1, path);
      UnfoldTyped(ts, h, es[i].val, d.val, depth + 1, path);
    }
  }

  lemma {:induction false} UnfoldAllTyped(
      ts: Types, h: Heap, es: seq<Value>, tys: seq<TypeId>, depth: nat, path: seq<RefKey>)
    requires HeapTyped(ts, h) && Closed(h) && depth <= MAX_DEPTH
    requires ValuesHaveTypes(ts, h, es, tys) && forall i :: 0 <= i < |es| ==> Live(h, es[i])
    ensures HaveTypes(ts, UnfoldAll(ts.names, h, es, depth, path), tys)
    ensures AllFit(UnfoldAll(ts.names, h, es, depth, path))
    decreases MeasureAt(depth), 0
  {
    forall i | 0 <= i < |es|
      ensures && HasType(ts, Unfold(ts.names, h, es[i], depth + 1, path), tys[i])
              && Fits(Unfold(ts.names, h, es[i], depth + 1, path))
    {
      UnfoldTyped(ts, h, es[i], tys[i], depth + 1, path);
    }
  }

  function Seen(ts: Types, h: Heap, v: Value): Term
    requires Closed(h) && Live(h, v)
  {
    Unfold(ts.names, h, v, 0, [])
  }

  /** Complete fingerprints of two values of one static type are equal exactly
      when everything reachable from the values is the same, up to the order of
      map entries, or namesakes meet; and no namesakes meet when no dynamic type
      in the one value is spelled like another in the other. Nothing in the values
      was too deep to be seen. */
  lemma {:induction false} FingerprintIsContent(
      ts: Types, h: Heap, v: Value, g: Heap, w: Value, ty: TypeId, a: nat, b: nat)
    requires HeapTyped(ts, h) && HeapTyped(ts, g)
    requires ValueHasType(ts, h, v, ty) && ValueHasType(ts, g, w, ty)
    ensures Closed(h) && Live(h, v) && Closed(g) && Live(g, w)
    ensures var t, u := Seen(ts, h, v), Seen(ts, g, w);
      && Fits(t) && Fits(u)
      && (!Computed(t, a).incomplete && !Computed(u, b).incomplete ==>
            && Whole(t) && Whole(u)
            && (Computed(t, a).buf == Computed(u, b).buf <==> Similar(t, u) || NamesakesMeet(t, u))
            && (Similar(t, u) ==> !NamesakesMeet(t, u))
            && (Apart(Boxes(t), Boxes(u)) ==> !NamesakesMeet(t, u)))
  {
    TypedIsClosed(ts, h);
    TypedIsClosed(ts, g);
    TypedIsLive(ts, h, v, ty);
    TypedIsLive(ts, g, w, ty);
    UnfoldTyped(ts, h, v, ty, 0, []);
    UnfoldTyped(ts, g, w, ty, 0, []);
    var t, u := Seen(ts, h, v), Seen(ts, g, w);
    hide *;
    if !Computed(t, a).incomplete && !Computed(u, b).incomplete {
      CompleteDecidesContent(ts, t, u, ty, a, b);
    }
  }

  /** Namesakes are met by ordinary values: a nil []a/p.T and a nil []b/p.T, each
      held in an interface. */
  lemma {:induction false} NilNamesakes(ts: Types, ty: TypeId, a: TypeId, b: TypeId, allowance: nat)
    requires a != b && ts.names(a) == ts.names(b) && NameSize(ts.names(a)) + 2 <= MAX_BYTES && allowance >= 2
    requires ts.def(ty).InterfaceType? && ts.def(a).SliceType? && ts.def(b).SliceType?
    ensures var v, w := Interface(a, Leaf(NilRef(SliceRef))), Interface(b, Leaf(NilRef(SliceRef)));
            && HeapTyped(ts, map[]) && ValueHasType(ts, map[], v, ty) && ValueHasType(ts, map[], w, ty)
            && Closed(map[]) && Live(map[], v) && Live(map[], w)
            && var t, u := Seen(ts, map[], v), Seen(ts, map[], w);
               && Fits(t) && Fits(u) && !Similar(t, u) && NamesakesMeet(t, u)
               && Computed(t, allowance) == Computed(u, allowance) && !Computed(t, allowance).incomplete
  {
    var h: Heap := map[];
    TypedIsClosed(ts, h);
    var v, w := Interface(a, Leaf(NilRef(SliceRef))), Interface(b, Leaf(NilRef(SliceRef)));
    assert ValueHasType(ts, h, v.elem, a) && ValueHasType(ts, h, w.elem, b);
    assert ValueHasType(ts, h, v, ty) && ValueHasType(ts, h, w, ty);
    assert Seen(ts, h, v) == TBox(Dynamic(ts.names(a), a), TLeaf(NilRef(SliceRef)));
    assert Seen(ts, h, w) == TBox(Dynamic(ts.names(b), b), TLeaf(NilRef(SliceRef)));
    hide *;
    NamesakesCollide(ts, ty, a, b, allowance);
  }

  /** Funcs and channels show only as nil or not. */
  lemma {:induction false} ChannelsLookAlike(kind: Byte, a: nat, b: nat)
    requires kind < 255 && 0 < a < b
    ensures var t, u := TLeaf(Opaque(kind, a)), TLeaf(Opaque(kind, b));
            t != u && Computed(t, 1) == Computed(u, 1) && !Computed(t, 1).incomplete
  {
    assert ScalarChunks(Opaque(kind, a)) == ScalarChunks(Opaque(kind, b));
    FlatTwo([kind + 1], [1]);
    WriteAllFits(Start(MAX_BYTES, 0), ScalarChunks(Opaque(kind, a)));
  }

  // ---- Where references live, and in which order maps are iterated ----

  function Rename(f: RefKey -> RefKey, v: Value): Value {
    match v
    case Interface(d, e) => Interface(d, Rename(f, e))
    case Array(es) => Array(seq(|es|, i requires 0 <= i < |es| => Rename(f, es[i])))
    case Struct(es) => Struct(seq(|es|, i requires 0 <= i < |es| => Rename(f, es[i])))
    case Ref(k) => Ref(f(k))
    case _ => v
  }

  ghost predicate CellRenamed(f: RefKey -> RefKey, c: Cell, d: Cell) {
    match (c, d)
    case (PointerTo(t), PointerTo(u)) => u == Rename(f, t)
    case (SliceOf(es), SliceOf(fs)) =>
      |es| == |fs| && forall i :: 0 <= i < |es| ==> fs[i] == Rename(f, es[i])
    case (MapOf(es), MapOf(fs)) => exists p :: EntriesRenamed(f, es, fs, p)
    case _ => false
  }

  ghost predicate EntriesRenamed(
      f: RefKey -> RefKey, es: seq<Entry<Value>>, fs: seq<Entry<Value>>, p: seq<nat>)
  {
    && |es| == |fs| && IsPermutation(p, |es|)
    && forall i :: 0 <= i < |es| ==> fs[p[i]] == Entry(Rename(f, es[i].key), Rename(f, es[i].val))
  }

  /** g holds the objects of h at other addresses, its maps in any order. */
  ghost predicate Moved(f: RefKey -> RefKey, h: Heap, g: Heap) {
    && (forall k :: k in h ==> f(k) in g && f(k).kind == k.kind && CellRenamed(f, h[k], g[f(k)]))
    && (forall k, l :: k in h && l in h && f(k) == f(l) ==> k == l)
  }

  function RenamePath(f: RefKey -> RefKey, path: seq<RefKey>): (r: seq<RefKey>)
    ensures |r| == |path| && forall i :: 0 <= i < |path| ==> r[i] == f(path[i])
  {
    seq(|path|, i requires 0 <= i < |path| => f(path[i]))
  }

  lemma {:induction false} RenameLive(f: RefKey -> RefKey, h: Heap, g: Heap, v: Value)
    requires Moved(f, h, g) && Live(h, v)
    ensures Live(g, Rename(f, v))
  {
    match v {
      case Interface(_, e) => RenameLive(f, h, g, e);
      case Array(es) =>
        forall i | 0 <= i < |es| ensures Live(g, Rename(f, es[i])) { RenameLive(f, h, g, es[i]); }
      case Struct(es) =>
        forall i | 0 <= i < |es| ensures Live(g, Rename(f, es[i])) { RenameLive(f, h, g, es[i]); }
      case _ =>
    }
  }

  lemma {:induction false} RenamedIndex(f: RefKey -> RefKey, h: Heap, g: Heap, path: seq<RefKey>, key: RefKey)
    requires Moved(f, h, g) && key in h && forall k :: k in path ==> k in h
    ensures key in path <==> f(key) in RenamePath(f, path)
    ensures key in path ==> IndexOf(path, key) == IndexOf(RenamePath(f, path), f(key))
  {
    var r := RenamePath(f, path);
    if f(key) in r {
      var i :| 0 <= i < |r| && r[i] == f(key);
      assert path[i] in path;
    }
    if key in path {
      var i, j := IndexOf(path, key), IndexOf(r, f(key));
      assert r[i] == f(key) && path[j] == key;
      assert i <= j && j <= i;
    }
  }

  /** Moving a heap's objects and shuffling its maps leaves what a walk sees
      the same, cycles included. */
  lemma {:induction false} MovedLooksTheSame(
      names: Names, f: RefKey -> RefKey, h: Heap, g: Heap, v: Value, depth: nat, path: seq<RefKey>)
    requires Closed(h) && Closed(g) && Moved(f, h, g) && Live(h, v)
    requires forall k :: k in path ==> k in h
    ensures Live(g, Rename(f, v))
    ensures Similar(Unfold(names, h, v, depth, path), Unfold(names, g, Rename(f, v), depth, RenamePath(f, path)))
    decreases MeasureAt(depth), 1
  {
    RenameLive(f, h, g, v);
    if depth <= MAX_DEPTH {
      var w, q := Rename(f, v), RenamePath(f, path);
      match v {
        case Interface(_, e) => MovedLooksTheSame(names, f, h, g, e, depth + 1, path);
        case Array(es) => MovedAllLookTheSame(names, f, h, g, es, w.elems, depth, path);
        case Struct(es) => MovedAllLookTheSame(names, f, h, g, es, w.fields, depth, path);
        case Ref(key) =>
          RenamedIndex(f, h, g, path, key);
          if key !in path {
            assert CellRenamed(f, h[key], g[f(key)]);
            assert RenamePath(f, path + [key]) == q + [f(key)];
            match h[key] {
              case PointerTo(t) => MovedLooksTheSame(names, f, h, g, t, depth + 1, path + [key]);
              case SliceOf(es) =>
                MovedAllLookTheSame(names, f, h, g, es, g[f(key)].elems, depth, path + [key]);
              case MapOf(es) =>
                MovedEntriesLookTheSame(names, f, h, g, es, g[f(key)].entries, depth, path + [key]);
            }
          }
        case _ =>
      }
    }
  }

  lemma {:induction false} MovedAllLookTheSame(
      names: Names, f: RefKey -> RefKey, h: Heap, g: Heap, es: seq<Value>, fs: seq<Value>,
      depth: nat, path: seq<RefKey>)
    requires Closed(h) && Closed(g) && Moved(f, h, g) && depth <= MAX_DEPTH
    requires forall k :: k in path ==> k in h
    requires |es| == |fs| && forall i :: 0 <= i < |es| ==>
               Live(h, es[i]) && Live(g, fs[i]) && fs[i] == Rename(f, es[i])
    ensures SimilarAll(UnfoldAll(names, h, es, depth, path), UnfoldAll(names, g, fs, depth, RenamePath(f, path)))
    decreases MeasureAt(depth), 0
  {
    forall i | 0 <= i < |es|
      ensures Similar(Unfold(names, h, es[i], depth + 1, path),
                      Unfold(names, g, fs[i], depth + 1, RenamePath(f, path)))
    {
      MovedLooksTheSame(names, f, h, g, es[i], depth + 1, path);
    }
  }

  lemma {:induction false} MovedEntriesLookTheSame(
      names: Names, f: RefKey -> RefKey, h: Heap, g: Heap, es: seq<Entry<Value>>, fs: seq<Entry<Value>>,
      depth: nat, path: seq<RefKey>)
    requires Closed(h) && Closed(g) && Moved(f, h, g) && depth <= MAX_DEPTH
    requires forall k :: k in path ==> k in h
    requires forall i :: 0 <= i < |es| ==> Live(h, es[i].key) && Live(h, es[i].val)
    requires forall i :: 0 <= i < |fs| ==> Live(g, fs[i].key) && Live(g, fs[i].val)
    requires exists p :: EntriesRenamed(f, es, fs, p)
    ensures Similar(TMap(UnfoldEntries(names, h, es, depth, path)),
                    TMap(UnfoldEntries(names, g, fs, depth, RenamePath(f, path))))
    decreases MeasureAt(depth), 0
  {
    var p :| EntriesRenamed(f, es, fs, p);
    var a, b := UnfoldEntries(names, h, es, depth, path), UnfoldEntries(names, g, fs, depth, RenamePath(f, path));
    forall i | 0 <= i < |es| ensures SimilarEntry(a[i], b[p[i]]) {
      MovedLooksTheSame(names, f, h, g, es[i].key, depth + 1, path);
      MovedLooksTheSame(names, f, h, g, es[i].val, depth + 1, path);
    }
    assert SimilarEntries(a, b, p);
  }

  /** Bytes, flags and nodes visited are the same for a value wherever its
      references live and however its maps are ordered. */
  lemma {:induction false} AddressesAndOrderAreInvisible(
      ts: Types, f: RefKey -> RefKey, h: Heap, g: Heap, v: Value, allowance: nat)
    requires Closed(h) && Closed(g) && Moved(f, h, g) && Live(h, v)
    requires Fits(Seen(ts, h, v))
    ensures Live(g, Rename(f, v))
    ensures Fits(Seen(ts, g, Rename(f, v)))
         && Computed(Seen(ts, h, v), allowance) == Computed(Seen(ts, g, Rename(f, v)), allowance)
  {
    MovedLooksTheSame(ts.names, f, h, g, v, 0, []);
    assert RenamePath(f, []) == [];
    SimilarFits(Seen(ts, h, v), Seen(ts, g, Rename(f, v)));
    ContentOnly(Seen(ts, h, v), Seen(ts, g, Rename(f, v)), Start(MAX_BYTES, allowance));
  }

  lemma {:induction false} SimilarFits(t: Term, u: Term)
    requires Similar(t, u) && Fits(t)
    ensures Fits(u)
  {
    match t {
      case TBox(_, e) => SimilarFits(e, u.elem);
      case TList(_, es) =>
        forall i | 0 <= i < |es| ensures Fits(u.elems[i]) { SimilarFits(es[i], u.elems[i]); }
      case TMap(es) =>
        var p :| SimilarEntries(es, u.entries, p);
        forall i | 0 <= i < |es| ensures Fits(u.entries[i].key) && Fits(u.entries[i].val) {
          var k := PermutationHits(p, |p|, i);
          assert SimilarEntry(es[k], u.entries[p[k]]);
          SimilarFits(es[k].key, u.entries[p[k]].key);
          SimilarFits(es[k].val, u.entries[p[k]].val);
        }
      case _ =>
    }
  }
}
