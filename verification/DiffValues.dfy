/** Values as a structural diff walks them: finite trees whose pointers, slices
    and maps have addresses, and reflect.DeepEqual on them. */
module DiffValues {
  import opened Bytes
  import opened Values
  import opened Options
  import opened KeyOrder
  import opened Permutations
  import opened FingerprintDecodes
  import opened Meters

  /** A map key and the dynamic types of the values held in its interfaces. */
  datatype GoKey = GoKey(key: Key, types: seq<TypeId>)

  /** An address of 0 is nil; nil interfaces and pointers hold Invalid. */
  datatype Val =
    | Invalid
    | Plain(ty: TypeId, scalar: Scalar)
    | Func(ty: TypeId, isNil: bool)
    | Interface(ty: TypeId, elem: Val)
    | Pointer(ty: TypeId, addr: nat, target: Val)
    | Slice(ty: TypeId, addr: nat, elems: seq<Val>)
    | Map(ty: TypeId, addr: nat, pairs: seq<Pair>)
    | Struct(ty: TypeId, fields: seq<Val>)
    | Array(ty: TypeId, elems: seq<Val>)

  datatype Pair = Pair(key: GoKey, val: Val)

  /** The identity of a pointer, a slice or a map. */
  datatype RefId = RefId(ty: TypeId, addr: nat, len: nat)

  datatype RefPair = RefPair(a: RefId, b: RefId)

  /** The type of a map's keys, as they are ordered, and of its values. */
  datatype MapShape = MapShape(keys: KeyType, vals: TypeId)

  datatype Form =
    | PlainForm
    | FuncForm
    | InterfaceForm
    | PointerForm
    | SliceForm
    | MapForm(shape: MapShape)
    | StructForm(fields: nat)
    | ArrayForm(len: nat)

  /** Which structs render themselves and hide fields, and which fields those
      are. */
  datatype Facts = Facts(selfShown: TypeId -> bool, hidden: (TypeId, nat) -> bool)

  /** What each type is, what lives at each address and what the dynamic types in
      keys are; and the same program as fingerprints see it. */
  datatype World = World(
    form: TypeId -> Form, at: RefId -> Val, named: Named, facts: Facts, ts: Types, heap: Heap)

  predicate IsRef(v: Val) {
    v.Pointer? || v.Slice? || v.Map?
  }

  function IdOf(v: Val): RefId
    requires IsRef(v)
  {
    RefId(v.ty, v.addr, if v.Slice? then |v.elems| else 0)
  }

  // ---- What fingerprints see ----

  const KIND_FUNC: Byte := 19

  /** A value as reflection shows it: what is behind a reference is in the heap. */
  function Face(v: Val): Value
    decreases v, 0
  {
    match v
    case Invalid => Value.Invalid
    case Plain(_, x) => Leaf(x)
    case Func(_, isNil) => Leaf(Opaque(KIND_FUNC, if isNil then 0 else 1))
    case Interface(_, e) => if e.Invalid? then Leaf(NilInterface) else Value.Interface(e.ty, Face(e))
    case Pointer(ty, addr, _) => if addr == 0 then Leaf(NilRef(PointerRef)) else Ref(RefKey(ty, PointerRef, addr, 0))
    case Slice(ty, addr, es) =>
      if addr == 0 then Leaf(NilRef(SliceRef)) else if es == [] then EmptySlice
      else Ref(RefKey(ty, SliceRef, addr, |es|))
    case Map(ty, addr, _) => if addr == 0 then Leaf(NilRef(MapRef)) else Ref(RefKey(ty, MapRef, addr, 0))
    case Struct(_, fs) => Value.Struct(Faces(fs))
    case Array(_, es) => Value.Array(Faces(es))
  }

  function Faces(vs: seq<Val>): seq<Value>
    decreases vs, 0
  {
    seq(|vs|, i requires 0 <= i < |vs| => Face(vs[i]))
  }

  // ---- Equal keys ----

  /** A key with a NaN in it is not equal to itself. */
  predicate HasNaN(k: Key)
    decreases k, 0
  {
    match k
    case FloatKey(_, b) => IsNaN(b)
    case ComplexKey(_, r, i) => IsNaN(r) || IsNaN(i)
    case ListKey(_, es) => AnyNaN(es)
    case InterfaceKey(_, e) => HasNaN(e)
    case _ => false
  }

  predicate AnyNaN(es: seq<Key>)
    decreases es, 0
  {
    es != [] && (HasNaN(es[0]) || AnyNaN(es[1..]))
  }

  /** Keys are equal when they compare as equal, are equal to themselves, and hold
      the same dynamic types. */
  predicate KeyEqual(k: GoKey, l: GoKey) {
    CompareKeys(k.key, l.key) == 0 && !HasNaN(k.key) && k.types == l.types
  }

  lemma {:induction false} TiesShareNaN(named: Named, k: Key, l: Key, kt: KeyType)
    requires KeyHasType(named, k, kt) && KeyHasType(named, l, kt) && CompareKeys(k, l) == 0
    ensures HasNaN(k) <==> HasNaN(l)
    decreases k, 0
  {
    match (k, l) {
      case (ListKey(_, es), ListKey(_, fs)) => TiesShareNaNs(named, es, fs, kt.elems);
      case (InterfaceKey(n, x), InterfaceKey(m, y)) =>
        CompareNamesIsOrder(n, m, n);
        TiesShareNaN(named, x, y, named(n));
      case _ =>
    }
  }

  lemma {:induction false} TiesShareNaNs(named: Named, es: seq<Key>, fs: seq<Key>, tys: seq<KeyType>)
    requires KeysHaveTypes(named, es, tys) && KeysHaveTypes(named, fs, tys) && CompareLists(es, fs) == 0
    ensures AnyNaN(es) <==> AnyNaN(fs)
    decreases es, 0
  {
    if es != [] {
      TiesShareNaN(named, es[0], fs[0], tys[0]);
      TiesShareNaNs(named, es[1..], fs[1..], tys[1..]);
    }
  }

  lemma {:induction false} KeyEqualSymmetric(named: Named, k: GoKey, l: GoKey, kt: KeyType)
    requires KeyHasType(named, k.key, kt) && KeyHasType(named, l.key, kt)
    ensures KeyEqual(k, l) <==> KeyEqual(l, k)
  {
    CompareKeysAntisymmetric(named, k.key, l.key, kt);
    if CompareKeys(k.key, l.key) == 0 { TiesShareNaN(named, k.key, l.key, kt); }
    hide CompareKeys, HasNaN, KeyHasType;
  }

  lemma {:induction false} KeyEqualTransitive(named: Named, k: GoKey, l: GoKey, m: GoKey, kt: KeyType)
    requires KeyHasType(named, k.key, kt) && KeyHasType(named, l.key, kt) && KeyHasType(named, m.key, kt)
    requires KeyEqual(k, l) && KeyEqual(l, m)
    ensures KeyEqual(k, m)
  {
    CompareKeysTransitive(named, k.key, l.key, m.key, kt);
    hide CompareKeys, HasNaN, KeyHasType;
  }

  /** What a map has for a key. */
  function Lookup(ps: seq<Pair>, k: GoKey): (v: Option<Val>)
    ensures v.Some? ==> exists i :: 0 <= i < |ps| && ps[i].val == v.value && KeyEqual(k, ps[i].key)
    ensures v.None? ==> forall i :: 0 <= i < |ps| ==> !KeyEqual(k, ps[i].key)
  {
    if ps == [] then None
    else if KeyEqual(k, ps[0].key) then Some(ps[0].val)
    else
      var v := Lookup(ps[1..], k);
      assert v.Some? ==> forall i :: 0 <= i < |ps| - 1 ==> ps[1..][i] == ps[i + 1];
      v
  }

  /** Found in qs, by index. */
  lemma {:induction false} LookupAt(ps: seq<Pair>, k: GoKey) returns (i: nat)
    requires Lookup(ps, k).Some?
    ensures i < |ps| && Lookup(ps, k).value == ps[i].val && KeyEqual(k, ps[i].key)
  {
    i :| 0 <= i < |ps| && ps[i].val == Lookup(ps, k).value && KeyEqual(k, ps[i].key);
  }

  // ---- Values as a program has them ----

  ghost predicate Sound(w: World, v: Val)
    decreases v, 0
  {
    match v
    case Invalid => true
    case Plain(ty, _) => w.form(ty).PlainForm?
    case Func(ty, _) => w.form(ty).FuncForm?
    case Interface(ty, e) => w.form(ty).InterfaceForm? && Sound(w, e)
    case Pointer(ty, addr, t) =>
      w.form(ty).PointerForm? && (addr == 0 <==> t.Invalid?) && Sound(w, t) && w.at(IdOf(v)) == v
    case Slice(ty, addr, es) =>
      w.form(ty).SliceForm? && (addr == 0 ==> es == []) && AllSound(w, es) && w.at(IdOf(v)) == v
    case Map(ty, addr, ps) =>
      && w.form(ty).MapForm? && (addr == 0 ==> ps == []) && PairsSound(w, ps, w.form(ty).shape)
      && w.at(IdOf(v)) == v
    case Struct(ty, fs) => w.form(ty).StructForm? && w.form(ty).fields == |fs| && AllSound(w, fs)
    case Array(ty, es) => w.form(ty).ArrayForm? && w.form(ty).len == |es| && AllSound(w, es)
  }

  ghost predicate AllSound(w: World, vs: seq<Val>)
    decreases vs, 0
  {
    forall i :: 0 <= i < |vs| ==> Sound(w, vs[i])
  }

  ghost predicate PairSound(w: World, p: Pair, ms: MapShape)
    decreases p, 0
  {
    && KeyHasType(w.named, p.key.key, ms.keys) && Sound(w, p.val)
    && Typed(w.ts, w.heap, Face(p.val), ms.vals)
  }

  /** The keys of a map are different. */
  ghost predicate PairsSound(w: World, ps: seq<Pair>, ms: MapShape)
    decreases ps, 0
  {
    && (forall i :: 0 <= i < |ps| ==> PairSound(w, ps[i], ms))
    && forall i, j :: 0 <= i < j < |ps| ==> !KeyEqual(ps[i].key, ps[j].key)
  }

  // ---- reflect.DeepEqual ----

  predicate FloatsEqual(a: nat, b: nat) {
    !IsNaN(a) && !IsNaN(b) && NumberRank(a) == NumberRank(b)
  }

  predicate ScalarsEqual(x: Scalar, y: Scalar) {
    match (x, y)
    case (Float(_, a), Float(_, b)) => FloatsEqual(a, b)
    case (Complex(_, r, i), Complex(_, s, j)) => FloatsEqual(r, s) && FloatsEqual(i, j)
    case _ => x == y
  }

  predicate DeepEqual(a: Val, b: Val)
    decreases a, 0
  {
    match (a, b)
    case (Invalid, Invalid) => true
    case (Plain(t, x), Plain(u, y)) => t == u && ScalarsEqual(x, y)
    case (Func(t, m), Func(u, n)) => t == u && m && n
    case (Interface(t, e), Interface(u, f)) => t == u && DeepEqual(e, f)
    case (Pointer(t, x, e), Pointer(u, y, f)) => t == u && (x == y || DeepEqual(e, f))
    case (Slice(t, x, es), Slice(u, y, fs)) =>
      t == u && (x == 0 <==> y == 0) && |es| == |fs| && (x == y || DeepEqualAll(es, fs))
    case (Map(t, x, ps), Map(u, y, qs)) =>
      t == u && (x == 0 <==> y == 0) && |ps| == |qs| && (x == y || AllFound(ps, qs))
    case (Struct(t, es), Struct(u, fs)) => t == u && DeepEqualAll(es, fs)
    case (Array(t, es), Array(u, fs)) => t == u && DeepEqualAll(es, fs)
    case _ => false
  }

  predicate DeepEqualAll(es: seq<Val>, fs: seq<Val>)
    decreases es, 0
  {
    |es| == |fs| && forall i :: 0 <= i < |es| ==> DeepEqual(es[i], fs[i])
  }

  predicate Found(p: Pair, qs: seq<Pair>)
    decreases p, 0
  {
    match Lookup(qs, p.key)
    case None => false
    case Some(v) => DeepEqual(p.val, v)
  }

  /** Every entry has an equal one in the other map. */
  predicate AllFound(ps: seq<Pair>, qs: seq<Pair>)
    decreases ps, 0
  {
    forall i :: 0 <= i < |ps| ==> Found(ps[i], qs)
  }

  // ---- The size of a value ----

  function Size(v: Val): (n: nat)
    ensures n > 0
    decreases v, 0
  {
    1 + match v
      case Interface(_, e) => Size(e)
      case Pointer(_, _, t) => Size(t)
      case Slice(_, _, es) => Sizes(es)
      case Map(_, _, ps) => PairSizes(ps)
      case Struct(_, fs) => Sizes(fs)
      case Array(_, es) => Sizes(es)
      case _ => 0
  }

  function Sizes(vs: seq<Val>): nat
    decreases vs, 0
  {
    if vs == [] then 0 else Size(vs[0]) + Sizes(vs[1..])
  }

  function PairSize(p: Pair): nat
    decreases p, 0
  {
    Size(p.val)
  }

  function PairSizes(ps: seq<Pair>): nat
    decreases ps, 0
  {
    if ps == [] then 0 else PairSize(ps[0]) + PairSizes(ps[1..])
  }

  lemma {:induction false} PartSmaller(vs: seq<Val>, i: nat)
    requires i < |vs|
    ensures Size(vs[i]) <= Sizes(vs)
  {
    if i > 0 { PartSmaller(vs[1..], i - 1); }
    hide Size;
  }

  lemma {:induction false} PairSmaller(ps: seq<Pair>, i: nat)
    requires i < |ps|
    ensures Size(ps[i].val) <= PairSizes(ps)
  {
    if i > 0 { PairSmaller(ps[1..], i - 1); }
    hide Size;
  }

  // ---- Entries found both ways ----

  ghost predicate KeysFound(ps: seq<Pair>, qs: seq<Pair>) {
    forall i :: 0 <= i < |ps| ==> Lookup(qs, ps[i].key).Some?
  }

  /** f says where in qs the first keys of ps are; no two are in one place. */
  ghost predicate Placed(ps: seq<Pair>, qs: seq<Pair>, f: seq<nat>) {
    && |f| <= |ps|
    && (forall i :: 0 <= i < |f| ==> f[i] < |qs| && KeyEqual(ps[i].key, qs[f[i]].key))
    && forall i, j :: 0 <= i < j < |f| ==> f[i] != f[j]
  }

  lemma {:induction false} Placement(w: World, ps: seq<Pair>, qs: seq<Pair>, ms: MapShape, n: nat) returns (f: seq<nat>)
    requires PairsSound(w, ps, ms) && PairsSound(w, qs, ms) && KeysFound(ps, qs) && n <= |ps|
    ensures |f| == n && Placed(ps, qs, f)
  {
    if n == 0 {
      f := [];
    } else {
      assert Lookup(qs, ps[n - 1].key).Some?;
      hide *;
      var g := Placement(w, ps, qs, ms, n - 1);
      var k := LookupAt(qs, ps[n - 1].key);
      NotTaken(w, ps, qs, ms, g, k);
      f := g + [k];
      OneMorePlaced(ps, qs, g, k);
    }
  }

  lemma {:induction false} NotTaken(w: World, ps: seq<Pair>, qs: seq<Pair>, ms: MapShape, g: seq<nat>, k: nat)
    requires PairsSound(w, ps, ms) && PairsSound(w, qs, ms) && Placed(ps, qs, g) && |g| < |ps| && k < |qs|
    requires KeyEqual(ps[|g|].key, qs[k].key)
    ensures k !in g
  {
    hide KeyEqual, PairsSound;
    if k in g {
      var i :| 0 <= i < |g| && g[i] == k;
      OnePlace(w, ps, qs, ms, i, |g|, k);
    }
  }

  lemma {:induction false} OneMorePlaced(ps: seq<Pair>, qs: seq<Pair>, g: seq<nat>, k: nat)
    requires Placed(ps, qs, g) && |g| < |ps| && k < |qs| && k !in g && KeyEqual(ps[|g|].key, qs[k].key)
    ensures Placed(ps, qs, g + [k])
  {
    hide KeyEqual;
  }

  lemma {:induction false} OnePlace(w: World, ps: seq<Pair>, qs: seq<Pair>, ms: MapShape, i: nat, j: nat, k: nat)
    requires PairsSound(w, ps, ms) && PairsSound(w, qs, ms) && i < j < |ps| && k < |qs|
    ensures KeyEqual(ps[i].key, qs[k].key) ==> !KeyEqual(ps[j].key, qs[k].key)
  {
    var x, y, z := ps[i], ps[j], qs[k];
    assert PairSound(w, x, ms) && PairSound(w, y, ms) && PairSound(w, z, ms) && !KeyEqual(x.key, y.key);
    hide PairsSound, KeyEqual, Sound;
    KeyEqualSymmetric(w.named, y.key, z.key, ms.keys);
    if KeyEqual(x.key, z.key) && KeyEqual(z.key, y.key) { KeyEqualTransitive(w.named, x.key, z.key, y.key, ms.keys); }
  }

  lemma {:induction false} FewerKeys(w: World, ps: seq<Pair>, qs: seq<Pair>, ms: MapShape)
    requires PairsSound(w, ps, ms) && PairsSound(w, qs, ms) && KeysFound(ps, qs)
    ensures |ps| <= |qs|
  {
    var f := Placement(w, ps, qs, ms, |ps|);
    hide PairsSound, KeysFound, KeyEqual;
    ImageSize(f, |ps|);
    SubsetSize(set i | 0 <= i < |ps| :: f[i], Range(|qs|));
  }

  lemma {:induction false} FoundBack(w: World, ps: seq<Pair>, qs: seq<Pair>, ms: MapShape, f: seq<nat>, k: nat)
    requires PairsSound(w, ps, ms) && PairsSound(w, qs, ms) && |ps| == |qs| == |f| && Placed(ps, qs, f) && k < |qs|
    ensures Lookup(ps, qs[k].key).Some?
  {
    var i := PermutationHits(f, |qs|, k);
    assert PairSound(w, ps[i], ms) && PairSound(w, qs[k], ms);
    hide PairsSound, KeyEqual, Sound;
    KeyEqualSymmetric(w.named, ps[i].key, qs[k].key, ms.keys);
  }

  /** Maps of one size that hold all keys of the one hold all keys of the other. */
  lemma {:induction false} FoundBothWays(w: World, ps: seq<Pair>, qs: seq<Pair>, ms: MapShape)
    requires PairsSound(w, ps, ms) && PairsSound(w, qs, ms) && KeysFound(ps, qs)
    ensures KeysFound(qs, ps) <==> |ps| == |qs|
  {
    hide PairsSound, KeyEqual, Lookup, Placed;
    FewerKeys(w, ps, qs, ms);
    if KeysFound(qs, ps) { FewerKeys(w, qs, ps, ms); }
    if |ps| == |qs| {
      var f := Placement(w, ps, qs, ms, |ps|);
      forall k | 0 <= k < |qs| ensures Lookup(ps, qs[k].key).Some? {
        FoundBack(w, ps, qs, ms, f, k);
      }
    }
  }
}
