/** What reflect.DeepEqual decides: whether two values are the same but for
    addresses, the order of map entries and the sign of zeros. */
module DiffMeanings {
  import opened Bytes
  import opened Values
  import opened Options
  import opened KeyOrder
  import opened KeyMeanings
  import opened DiffValues

  /** What a key says, with the dynamic types in it. */
  datatype KeyMeaning = KeyMeaning(key: Key, types: seq<TypeId>)

  /** What a value says: no addresses, and maps as sets of entries. */
  datatype Meaning =
    | Nothing
    | ScalarMeaning(ty: TypeId, scalar: Scalar)
    | FuncMeaning(ty: TypeId, isNil: bool)
    | Holds(ty: TypeId, elem: Meaning)
    | Sequence(ty: TypeId, isNil: bool, elems: seq<Meaning>)
    | Entries(ty: TypeId, isNil: bool, entries: set<(KeyMeaning, Meaning)>)

  /** A number's size is known from its type. */
  function ScalarOf(x: Scalar): Scalar {
    match x
    case Float(_, bits) => Float(0, OneZero(bits))
    case Complex(_, re, im) => Complex(0, OneZero(re), OneZero(im))
    case _ => x
  }

  function MeaningOfKey(k: GoKey): KeyMeaning {
    KeyMeaning(Unsigned(k.key), k.types)
  }

  ghost function MeaningOf(v: Val): Meaning
    decreases v, 0
  {
    match v
    case Invalid => Nothing
    case Plain(ty, x) => ScalarMeaning(ty, ScalarOf(x))
    case Func(ty, isNil) => FuncMeaning(ty, isNil)
    case Interface(ty, e) => Holds(ty, MeaningOf(e))
    case Pointer(ty, _, e) => Holds(ty, MeaningOf(e))
    case Slice(ty, addr, es) => Sequence(ty, addr == 0, Meanings(es))
    case Map(ty, addr, ps) => Entries(ty, addr == 0, MeaningsOfPairs(ps))
    case Struct(ty, es) => Sequence(ty, false, Meanings(es))
    case Array(ty, es) => Sequence(ty, false, Meanings(es))
  }

  ghost function Meanings(es: seq<Val>): (ms: seq<Meaning>)
    ensures |ms| == |es| && forall i :: 0 <= i < |es| ==> ms[i] == MeaningOf(es[i])
    decreases es, 0
  {
    seq(|es|, i requires 0 <= i < |es| => MeaningOf(es[i]))
  }

  ghost function MeaningOfPair(p: Pair): (KeyMeaning, Meaning)
    decreases p, 0
  {
    (MeaningOfKey(p.key), MeaningOf(p.val))
  }

  ghost function MeaningsOfPairs(ps: seq<Pair>): (s: set<(KeyMeaning, Meaning)>)
    ensures forall i :: 0 <= i < |ps| ==> MeaningOfPair(ps[i]) in s
    ensures forall x :: x in s ==> exists i :: 0 <= i < |ps| && MeaningOfPair(ps[i]) == x
    decreases ps, 0
  {
    set i | 0 <= i < |ps| :: MeaningOfPair(ps[i])
  }

  // ---- Values that are equal to themselves ----

  predicate ScalarClean(x: Scalar) {
    match x
    case Float(_, bits) => !IsNaN(bits)
    case Complex(_, re, im) => !IsNaN(re) && !IsNaN(im)
    case _ => true
  }

  /** Nothing in v is unequal to itself: no NaN and no function but nil. */
  ghost predicate Clean(v: Val)
    decreases v, 0
  {
    match v
    case Plain(_, x) => ScalarClean(x)
    case Func(_, isNil) => isNil
    case Interface(_, e) => Clean(e)
    case Pointer(_, _, e) => Clean(e)
    case Slice(_, _, es) => AllClean(es)
    case Map(_, _, ps) => PairsClean(ps)
    case Struct(_, es) => AllClean(es)
    case Array(_, es) => AllClean(es)
    case _ => true
  }

  ghost predicate AllClean(es: seq<Val>)
    decreases es, 0
  {
    forall i :: 0 <= i < |es| ==> Clean(es[i])
  }

  ghost predicate PairClean(p: Pair)
    decreases p, 0
  {
    !HasNaN(p.key.key) && Clean(p.val)
  }

  ghost predicate PairsClean(ps: seq<Pair>)
    decreases ps, 0
  {
    forall i :: 0 <= i < |ps| ==> PairClean(ps[i])
  }

  lemma {:induction false} ScalarsAgree(x: Scalar, y: Scalar)
    ensures ScalarsEqual(x, y) ==> ScalarOf(x) == ScalarOf(y) && ScalarClean(x)
    ensures ScalarClean(x) && ScalarOf(x) == ScalarOf(y) ==> ScalarsEqual(x, y)
  {
  }

  lemma {:induction false} KeysAgree(named: Named, k: GoKey, l: GoKey, ty: KeyType)
    requires KeyHasType(named, k.key, ty) && KeyHasType(named, l.key, ty)
    ensures KeyEqual(k, l) <==> MeaningOfKey(k) == MeaningOfKey(l) && !HasNaN(k.key)
  {
    KeysInOrder(named, k.key, l.key, ty);
    hide CompareKeys, HasNaN, Unsigned;
  }

  // ---- Equal values say the same ----

  /** Two references to one place are one value. */
  lemma {:induction false} OneValue(w: World, a: Val, b: Val)
    requires Sound(w, a) && Sound(w, b) && IsRef(a) && IsRef(b) && IdOf(a) == IdOf(b)
    ensures a == b
  {
  }

  lemma {:induction false} EqualSaysTheSame(w: World, a: Val, b: Val)
    requires Sound(w, a) && Sound(w, b) && DeepEqual(a, b)
    ensures MeaningOf(a) == MeaningOf(b)
    decreases a, 1
  {
    match (a, b) {
      case (Plain(_, x), Plain(_, y)) => ScalarsAgree(x, y);
      case (Interface(_, e), Interface(_, f)) => EqualSaysTheSame(w, e, f);
      case (Pointer(t, x, e), Pointer(_, y, f)) =>
        if x == y { OneValue(w, a, b); } else { EqualSaysTheSame(w, e, f); }
      case (Slice(_, x, es), Slice(_, y, fs)) =>
        if x == y { OneValue(w, a, b); } else { PartsSayTheSame(w, es, fs); }
      case (Map(ty, x, ps), Map(_, y, qs)) =>
        if x == y { OneValue(w, a, b); } else { PairsSayTheSame(w, ps, qs, w.form(ty).shape); }
      case (Struct(_, es), Struct(_, fs)) => PartsSayTheSame(w, es, fs);
      case (Array(_, es), Array(_, fs)) => PartsSayTheSame(w, es, fs);
      case _ =>
    }
  }

  lemma {:induction false} PartsSayTheSame(w: World, es: seq<Val>, fs: seq<Val>)
    requires AllSound(w, es) && AllSound(w, fs) && DeepEqualAll(es, fs)
    ensures Meanings(es) == Meanings(fs)
    decreases es, 0
  {
    hide Sound, DeepEqual, MeaningOf;
    forall i | 0 <= i < |es| ensures MeaningOf(es[i]) == MeaningOf(fs[i]) { EqualSaysTheSame(w, es[i], fs[i]); }
  }

  lemma {:induction false} PairSaysTheSame(w: World, p: Pair, qs: seq<Pair>, ms: MapShape)
    requires PairSound(w, p, ms) && PairsSound(w, qs, ms) && Found(p, qs)
    ensures MeaningOfPair(p) in MeaningsOfPairs(qs)
    decreases p, 0
  {
    var j := LookupAt(qs, p.key);
    assert PairSound(w, qs[j], ms);
    hide KeyEqual, HasNaN, MeaningOfKey;
    KeysAgree(w.named, p.key, qs[j].key, ms.keys);
    EqualSaysTheSame(w, p.val, qs[j].val);
    assert MeaningOfPair(qs[j]) == MeaningOfPair(p);
  }

  /** Different keys say different things. */
  lemma {:induction false} KeysDiffer(w: World, ps: seq<Pair>, ms: MapShape, i: nat, j: nat)
    requires PairsSound(w, ps, ms) && i < |ps| && j < |ps| && i != j && !HasNaN(ps[i].key.key)
    ensures MeaningOfKey(ps[i].key) != MeaningOfKey(ps[j].key)
  {
    assert PairSound(w, ps[i], ms) && PairSound(w, ps[j], ms);
    hide Sound, HasNaN, KeyEqual, MeaningOfKey;
    KeysAgree(w.named, ps[i].key, ps[j].key, ms.keys);
    KeysAgree(w.named, ps[j].key, ps[i].key, ms.keys);
    KeyEqualSymmetric(w.named, ps[i].key, ps[j].key, ms.keys);
    assert i < j ==> !KeyEqual(ps[i].key, ps[j].key);
    assert j < i ==> !KeyEqual(ps[j].key, ps[i].key);
  }

  ghost predicate NoNaNs(ps: seq<Pair>) {
    forall i :: 0 <= i < |ps| ==> !HasNaN(ps[i].key.key)
  }

  /** A map without NaN keys has as many entries as it says. */
  lemma {:induction false} AsManyEntries(w: World, ps: seq<Pair>, ms: MapShape)
    requires PairsSound(w, ps, ms) && NoNaNs(ps)
    ensures |MeaningsOfPairs(ps)| == |ps|
    decreases |ps|
  {
    if ps == [] {
      assert MeaningsOfPairs(ps) == {};
    } else {
      var n := |ps| - 1;
      assert PairsSound(w, ps[..n], ms);
      forall i | 0 <= i < n ensures MeaningOfPair(ps[i]) != MeaningOfPair(ps[n]) { KeysDiffer(w, ps, ms, i, n); }
      hide PairsSound, HasNaN, MeaningOfPair;
      AsManyEntries(w, ps[..n], ms);
      LastEntry(ps, n);
    }
  }

  lemma {:induction false} LastEntry(ps: seq<Pair>, n: nat)
    requires |ps| == n + 1 && forall i :: 0 <= i < n ==> MeaningOfPair(ps[i]) != MeaningOfPair(ps[n])
    ensures MeaningsOfPairs(ps) == MeaningsOfPairs(ps[..n]) + {MeaningOfPair(ps[n])}
    ensures MeaningOfPair(ps[n]) !in MeaningsOfPairs(ps[..n])
  {
    hide MeaningOfPair;
    var all, front := MeaningsOfPairs(ps), MeaningsOfPairs(ps[..n]);
    forall x | x in all ensures x in front + {MeaningOfPair(ps[n])} {
      var i :| 0 <= i < |ps| && MeaningOfPair(ps[i]) == x;
      if i < n { assert ps[..n][i] == ps[i]; }
    }
    forall x | x in front ensures x in all {
      var i :| 0 <= i < n && MeaningOfPair(ps[..n][i]) == x;
      assert ps[..n][i] == ps[i];
    }
  }

  /** Of finite sets of one size neither is properly inside the other. */
  lemma {:induction false} SameSize<T>(a: set<T>, b: set<T>)
    requires a <= b && |a| >= |b|
    ensures a == b
  {
    assert b == a + (b - a);
    assert |b| == |a| + |b - a|;
  }

  lemma {:induction false} InEntries(ps: seq<Pair>, n: nat)
    requires |ps| == n + 1
    ensures MeaningsOfPairs(ps) <= MeaningsOfPairs(ps[..n]) + {MeaningOfPair(ps[n])}
  {
    hide MeaningOfPair;
    var all, front := MeaningsOfPairs(ps), MeaningsOfPairs(ps[..n]);
    forall x | x in all ensures x in front + {MeaningOfPair(ps[n])} {
      var i :| 0 <= i < |ps| && MeaningOfPair(ps[i]) == x;
      if i < n { assert ps[..n][i] == ps[i]; }
    }
  }

  /** A map says no more than it has entries. */
  lemma {:induction false} NoMoreEntries(ps: seq<Pair>)
    ensures |MeaningsOfPairs(ps)| <= |ps|
    decreases |ps|
  {
    if ps == [] {
      assert MeaningsOfPairs(ps) == {};
    } else {
      var n := |ps| - 1;
      NoMoreEntries(ps[..n]);
      InEntries(ps, n);
      hide MeaningsOfPairs, MeaningOfPair;
      Within(MeaningsOfPairs(ps), MeaningsOfPairs(ps[..n]) + {MeaningOfPair(ps[n])});
    }
  }

  lemma {:induction false} Within<T>(a: set<T>, b: set<T>)
    requires a <= b
    ensures |a| <= |b|
  {
    assert b == a + (b - a);
  }

  lemma {:induction false} PairsSayTheSame(w: World, ps: seq<Pair>, qs: seq<Pair>, ms: MapShape)
    requires PairsSound(w, ps, ms) && PairsSound(w, qs, ms) && |ps| == |qs| && AllFound(ps, qs)
    ensures MeaningsOfPairs(ps) == MeaningsOfPairs(qs)
    decreases ps, 0
  {
    hide PairSound, MeaningOfPair;
    forall i | 0 <= i < |ps| ensures MeaningOfPair(ps[i]) in MeaningsOfPairs(qs) && !HasNaN(ps[i].key.key) {
      PairSaysTheSame(w, ps[i], qs, ms);
      var j := LookupAt(qs, ps[i].key);
    }
    hide Found, HasNaN, PairsSound;
    AsManyEntries(w, ps, ms);
    NoMoreEntries(qs);
    forall x | x in MeaningsOfPairs(ps) ensures x in MeaningsOfPairs(qs) {
      var i :| 0 <= i < |ps| && MeaningOfPair(ps[i]) == x;
    }
    SameSize(MeaningsOfPairs(ps), MeaningsOfPairs(qs));
  }

  // ---- Values that say the same are equal ----

  lemma {:induction false} SameIsEqual(w: World, a: Val, b: Val)
    requires Sound(w, a) && Sound(w, b) && Clean(a) && MeaningOf(a) == MeaningOf(b)
    ensures DeepEqual(a, b)
    decreases a, 1
  {
    match a {
      case Plain(_, x) => if b.Plain? { ScalarsAgree(x, b.scalar); }
      case Interface(_, e) => SameIsEqual(w, e, b.elem);
      case Pointer(_, _, e) => SameIsEqual(w, e, b.target);
      case Slice(_, _, es) => SameShape(w, a, b); SamePartsEqual(w, es, b.elems);
      case Map(ty, _, ps) => SamePairsEqual(w, ps, b.pairs, w.form(ty).shape);
      case Struct(_, es) => SameShape(w, a, b); SamePartsEqual(w, es, b.fields);
      case Array(_, es) => SameShape(w, a, b); SamePartsEqual(w, es, b.elems);
      case _ =>
    }
  }

  /** A type has values of one form. */
  lemma {:induction false} SameShape(w: World, a: Val, b: Val)
    requires Sound(w, a) && Sound(w, b) && MeaningOf(a) == MeaningOf(b) && (a.Slice? || a.Struct? || a.Array?)
    ensures a.Slice? ==> b.Slice?
    ensures a.Struct? ==> b.Struct?
    ensures a.Array? ==> b.Array?
  {
  }

  lemma {:induction false} SamePartsEqual(w: World, es: seq<Val>, fs: seq<Val>)
    requires AllSound(w, es) && AllSound(w, fs) && AllClean(es) && Meanings(es) == Meanings(fs)
    ensures DeepEqualAll(es, fs)
    decreases es, 0
  {
    hide Sound, Clean, DeepEqual, MeaningOf;
    assert |es| == |Meanings(es)| == |fs|;
    forall i | 0 <= i < |es| ensures DeepEqual(es[i], fs[i]) {
      assert MeaningOf(es[i]) == Meanings(es)[i] == MeaningOf(fs[i]);
      SameIsEqual(w, es[i], fs[i]);
    }
  }

  lemma {:induction false} SamePairFound(w: World, p: Pair, qs: seq<Pair>, j: nat, ms: MapShape)
    requires PairSound(w, p, ms) && PairsSound(w, qs, ms) && PairClean(p)
    requires j < |qs| && MeaningOfPair(qs[j]) == MeaningOfPair(p)
    ensures Found(p, qs)
    decreases p, 0
  {
    assert PairSound(w, qs[j], ms);
    hide HasNaN, KeyEqual, MeaningOfKey;
    KeysAgree(w.named, p.key, qs[j].key, ms.keys);
    var k := LookupAt(qs, p.key);
    assert PairSound(w, qs[k], ms);
    KeysAgree(w.named, p.key, qs[k].key, ms.keys);
    if k != j {
      KeysAgree(w.named, qs[k].key, p.key, ms.keys);
      KeyEqualSymmetric(w.named, p.key, qs[k].key, ms.keys);
      KeysDiffer(w, qs, ms, k, j);
    }
    SameIsEqual(w, p.val, qs[j].val);
  }

  lemma {:induction false} SamePairsEqual(w: World, ps: seq<Pair>, qs: seq<Pair>, ms: MapShape)
    requires PairsSound(w, ps, ms) && PairsSound(w, qs, ms) && PairsClean(ps)
    requires MeaningsOfPairs(ps) == MeaningsOfPairs(qs)
    ensures |ps| == |qs| && AllFound(ps, qs)
    decreases ps, 0
  {
    hide PairSound, MeaningOfPair, Found, HasNaN;
    forall i | 0 <= i < |ps| ensures Found(ps[i], qs) {
      assert MeaningOfPair(ps[i]) in MeaningsOfPairs(qs);
      var j :| 0 <= j < |qs| && MeaningOfPair(qs[j]) == MeaningOfPair(ps[i]);
      SamePairFound(w, ps[i], qs, j, ms);
    }
    OtherNaNs(w, ps, qs, ms);
    hide PairsSound;
    AsManyEntries(w, ps, ms);
    AsManyEntries(w, qs, ms);
  }

  /** A key says whether it has a NaN. */
  lemma {:induction false} NaNSaid(k: Key)
    ensures HasNaN(Unsigned(k)) <==> HasNaN(k)
    decreases k, 0
  {
    match k {
      case ListKey(_, es) => NaNsSaid(es);
      case InterfaceKey(_, e) => NaNSaid(e);
      case _ =>
    }
  }

  lemma {:induction false} NaNsSaid(es: seq<Key>)
    ensures AnyNaN(AllUnsigned(es)) <==> AnyNaN(es)
    decreases es, 0
  {
    if es != [] {
      NaNSaid(es[0]);
      NaNsSaid(es[1..]);
      SplitUnsigned(es);
    }
  }

  lemma {:induction false} OtherNaNs(w: World, ps: seq<Pair>, qs: seq<Pair>, ms: MapShape)
    requires PairsClean(ps) && MeaningsOfPairs(ps) == MeaningsOfPairs(qs)
    ensures NoNaNs(ps) && NoNaNs(qs)
  {
    hide HasNaN, Unsigned;
    forall j | 0 <= j < |qs| ensures !HasNaN(qs[j].key.key) {
      assert MeaningOfPair(qs[j]) in MeaningsOfPairs(ps);
      var i :| 0 <= i < |ps| && MeaningOfPair(ps[i]) == MeaningOfPair(qs[j]);
      assert PairClean(ps[i]);
      NaNSaid(ps[i].key.key);
      NaNSaid(qs[j].key.key);
    }
    forall i | 0 <= i < |ps| ensures !HasNaN(ps[i].key.key) { assert PairClean(ps[i]); }
  }

  // ---- Values that share nothing ----

  /** The places a value refers to. */
  ghost function Places(v: Val): set<RefId>
    decreases v, 0
  {
    (if IsRef(v) && v.addr != 0 then {IdOf(v)} else {}) +
    match v
    case Interface(_, e) => Places(e)
    case Pointer(_, _, e) => Places(e)
    case Slice(_, _, es) => AllPlaces(es)
    case Map(_, _, ps) => PairsPlaces(ps)
    case Struct(_, es) => AllPlaces(es)
    case Array(_, es) => AllPlaces(es)
    case _ => {}
  }

  ghost function AllPlaces(es: seq<Val>): (s: set<RefId>)
    ensures forall i :: 0 <= i < |es| ==> Places(es[i]) <= s
    decreases es, 0
  {
    set i, x | 0 <= i < |es| && x in Places(es[i]) :: x
  }

  ghost function PairPlaces(p: Pair): set<RefId>
    decreases p, 0
  {
    Places(p.val)
  }

  ghost function PairsPlaces(ps: seq<Pair>): (s: set<RefId>)
    ensures forall i :: 0 <= i < |ps| ==> PairPlaces(ps[i]) <= s
    decreases ps, 0
  {
    set i, x | 0 <= i < |ps| && x in PairPlaces(ps[i]) :: x
  }

  lemma {:induction false} NotShared(a: Val, b: Val)
    requires IsRef(a) && IsRef(b) && IdOf(a).ty == IdOf(b).ty && IdOf(a).len == IdOf(b).len && Places(a) !! Places(b)
    ensures a.addr == b.addr ==> a.addr == 0
  {
    assert a.addr == b.addr ==> IdOf(a) == IdOf(b);
    assert a.addr != 0 ==> IdOf(a) in Places(a);
    assert b.addr != 0 ==> IdOf(b) in Places(b);
    hide Places;
  }

  lemma {:induction false} EqualIsClean(w: World, a: Val, b: Val)
    requires Sound(w, a) && Sound(w, b) && DeepEqual(a, b) && Places(a) !! Places(b)
    ensures Clean(a)
    decreases a, 1
  {
    match (a, b) {
      case (Plain(_, x), Plain(_, y)) => ScalarsAgree(x, y);
      case (Interface(_, e), Interface(_, f)) => EqualIsClean(w, e, f);
      case (Pointer(_, x, e), Pointer(_, y, f)) =>
        NotShared(a, b);
        if x != y { EqualIsClean(w, e, f); }
      case (Slice(_, x, es), Slice(_, y, fs)) =>
        NotShared(a, b);
        if x != y { EqualPartsClean(w, es, fs); }
      case (Map(ty, x, ps), Map(_, y, qs)) =>
        NotShared(a, b);
        if x != y { EqualPairsClean(w, ps, qs, w.form(ty).shape); }
      case (Struct(_, es), Struct(_, fs)) => EqualPartsClean(w, es, fs);
      case (Array(_, es), Array(_, fs)) => EqualPartsClean(w, es, fs);
      case _ =>
    }
  }

  lemma {:induction false} EqualPartsClean(w: World, es: seq<Val>, fs: seq<Val>)
    requires AllSound(w, es) && AllSound(w, fs) && DeepEqualAll(es, fs) && AllPlaces(es) !! AllPlaces(fs)
    ensures AllClean(es)
    decreases es, 0
  {
    hide Sound, DeepEqual, Clean, Places;
    forall i | 0 <= i < |es| ensures Clean(es[i]) {
      assert Places(es[i]) <= AllPlaces(es) && Places(fs[i]) <= AllPlaces(fs);
      EqualIsClean(w, es[i], fs[i]);
    }
  }

  lemma {:induction false} EqualPairClean(w: World, p: Pair, qs: seq<Pair>, ms: MapShape)
    requires PairSound(w, p, ms) && PairsSound(w, qs, ms) && Found(p, qs) && PairPlaces(p) !! PairsPlaces(qs)
    ensures PairClean(p)
    decreases p, 0
  {
    var j := LookupAt(qs, p.key);
    assert PairSound(w, qs[j], ms) && PairPlaces(qs[j]) <= PairsPlaces(qs);
    hide HasNaN, PairsPlaces;
    EqualIsClean(w, p.val, qs[j].val);
  }

  lemma {:induction false} EqualPairsClean(w: World, ps: seq<Pair>, qs: seq<Pair>, ms: MapShape)
    requires PairsSound(w, ps, ms) && PairsSound(w, qs, ms) && AllFound(ps, qs) && PairsPlaces(ps) !! PairsPlaces(qs)
    ensures PairsClean(ps)
    decreases ps, 0
  {
    hide PairSound, Found, PairClean, PairPlaces;
    forall i | 0 <= i < |ps| ensures PairClean(ps[i]) {
      assert PairPlaces(ps[i]) <= PairsPlaces(ps);
      EqualPairClean(w, ps[i], qs, ms);
    }
  }

  /** Values without NaN and functions are deeply equal exactly when they say the
      same; and so are values that share no place when the one has neither. No
      values that say different things are. */
  lemma {:induction false} DeepEqualIsMeaning(w: World, a: Val, b: Val)
    requires Sound(w, a) && Sound(w, b)
    ensures DeepEqual(a, b) ==> MeaningOf(a) == MeaningOf(b)
    ensures Clean(a) ==> (DeepEqual(a, b) <==> MeaningOf(a) == MeaningOf(b))
    ensures Places(a) !! Places(b) ==> (DeepEqual(a, b) <==> MeaningOf(a) == MeaningOf(b) && Clean(a))
  {
    hide Sound, Clean, DeepEqual, MeaningOf, Places;
    if DeepEqual(a, b) {
      EqualSaysTheSame(w, a, b);
      if Places(a) !! Places(b) { EqualIsClean(w, a, b); }
    }
    if Clean(a) && MeaningOf(a) == MeaningOf(b) { SameIsEqual(w, a, b); }
  }
}
