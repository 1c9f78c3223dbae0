/** What a complete fingerprint says of a value, and what it leaves unsaid. */
module FingerprintReadings {
  import opened Bytes
  import opened Values
  import opened Fingerprints
  import opened FingerprintLaws
  import opened FingerprintDecodes
  import opened Permutations
  import Sequences

  /** One step of reading a value part by part. A struct's mark does not say
      where the struct ends; an array's or a slice's length does. */
  datatype Token =
    | InvalidMark
    | CutMark
    | ScalarMark(scalar: Scalar)
    | BackMark(ref: RefKind, index: nat)
    | PointerMark
    | BoxMark(name: TypeName, typ: nat)
    | StructMark
    | ListMark(shape: Shape, len: nat)
    | MapMark(len: nat)
    | EntriesMark(entries: multiset<seq<Token>>)

  /** What a reading tells of a dynamic type besides its spelling. */
  type Telling = TypeId -> nat

  const BySpelling: Telling := (ty: TypeId) => 0
  const ByType: Telling := (ty: TypeId) => ty

  /** Funcs, channels and unsafe pointers show only whether they are nil. */
  function Shown(x: Scalar): Scalar {
    match x
    case Opaque(k, id) => Opaque(k, if id == 0 then 0 else 1)
    case _ => x
  }

  function Mark(tell: Telling, t: Term): Token {
    match t
    case TInvalid => InvalidMark
    case TDepthCut => CutMark
    case TLeaf(x) => ScalarMark(Shown(x))
    case TBack(r, i) => BackMark(r, i)
    case TBox(Pointee, _) => PointerMark
    case TBox(Dynamic(name, dyn), _) => BoxMark(name, tell(dyn))
    case TList(StructShape, _) => StructMark
    case TList(shape, es) => ListMark(shape, |es|)
    case TMap(es) => MapMark(|es|)
  }

  function Read(tell: Telling, t: Term): seq<Token>
    decreases t, 0
  {
    [Mark(tell, t)] + match t
      case TBox(_, e) => Read(tell, e)
      case TList(_, es) => ReadAll(tell, es)
      case TMap(es) => [EntriesMark(multiset(ReadEntries(tell, es)))]
      case _ => []
  }

  function ReadAll(tell: Telling, ts: seq<Term>): seq<Token>
    decreases ts, 0
  {
    if ts == [] then [] else Read(tell, ts[0]) + ReadAll(tell, ts[1..])
  }

  function ReadEntry(tell: Telling, e: Entry<Term>): seq<Token>
    decreases e, 0
  {
    Read(tell, e.key) + Read(tell, e.val)
  }

  function ReadEntries(tell: Telling, es: seq<Entry<Term>>): (rs: seq<seq<Token>>)
    ensures |rs| == |es| && forall i :: 0 <= i < |es| ==> rs[i] == ReadEntry(tell, es[i])
    decreases es, 0
  {
    seq(|es|, i requires 0 <= i < |es| => ReadEntry(tell, es[i]))
  }

  // ---- Scalars of the kinds that have them ----

  predicate ScalarKinded(x: Scalar) {
    match x
    case Int(k, _) => 2 <= k <= 6
    case Uint(k, _) => 7 <= k <= 12
    case Float(k, _) => 13 <= k <= 14
    case Complex(k, _, _) => 15 <= k <= 16
    case Opaque(k, _) => k in {18, 19, 26}
    case _ => true
  }

  predicate Kinded(t: Term)
    decreases t, 0
  {
    match t
    case TLeaf(x) => ScalarKinded(x)
    case TBox(_, e) => Kinded(e)
    case TList(_, es) => AllKinded(es)
    case TMap(es) => EntriesKinded(es)
    case _ => true
  }

  predicate AllKinded(ts: seq<Term>)
    decreases ts, 0
  {
    forall i :: 0 <= i < |ts| ==> Kinded(ts[i])
  }

  predicate EntriesKinded(es: seq<Entry<Term>>)
    decreases es, 0
  {
    forall i :: 0 <= i < |es| ==> EntryKinded(es[i])
  }

  predicate EntryKinded(e: Entry<Term>)
    decreases e, 0
  {
    Kinded(e.key) && Kinded(e.val)
  }

  lemma {:induction false} TypedIsKinded(ts: Types, t: Term, ty: TypeId)
    requires HasType(ts, t, ty)
    ensures Kinded(t)
    decreases t, 0
  {
    match t {
      case TBox(Pointee, e) => TypedIsKinded(ts, e, ts.def(ty).elem);
      case TBox(Dynamic(_, dyn), e) => TypedIsKinded(ts, e, dyn);
      case TList(shape, es) =>
        var tys := PartTypes(ts.def(ty), shape, |es|);
        forall i | 0 <= i < |es| ensures Kinded(es[i]) { TypedIsKinded(ts, es[i], tys[i]); }
      case TMap(es) =>
        forall i | 0 <= i < |es| ensures EntryKinded(es[i]) {
          TypedEntryIsKinded(ts, es[i], ts.def(ty).key, ts.def(ty).val);
        }
      case _ =>
    }
  }

  lemma {:induction false} TypedEntryIsKinded(ts: Types, e: Entry<Term>, kt: TypeId, vt: TypeId)
    requires EntryHasType(ts, e, kt, vt)
    ensures EntryKinded(e)
    decreases e, 0
  {
    TypedIsKinded(ts, e.key, kt);
    TypedIsKinded(ts, e.val, vt);
  }

  // ---- What stands before the parts of a value is prefix-free ----

  function ScalarKind(x: Scalar): Byte
    requires ScalarKinded(x)
  {
    match x
    case Bool(_) => KIND_BOOL
    case Int(k, _) => k
    case Uint(k, _) => k
    case Float(k, _) => k
    case Complex(k, _, _) => k
    case Str(_) => KIND_STRING
    case NilInterface => KIND_INTERFACE
    case NilRef(r) => r.Kind()
    case Opaque(k, _) => k
  }

  predicate HeadKinded(t: Term) {
    Fits(t) && (t.TLeaf? ==> ScalarKinded(t.scalar))
  }

  function FirstByte(t: Term): Byte
    requires HeadKinded(t)
  {
    match t
    case TInvalid => INVALID_TAG
    case TDepthCut => DEPTH_CUT_TAG
    case TLeaf(x) => ScalarKind(x) + 1
    case TBack(r, _) => r.Kind() + 1
    case TBox(Pointee, _) => KIND_POINTER + 1
    case TBox(_, _) => KIND_INTERFACE + 1
    case TList(StructShape, _) => KIND_STRUCT + 1
    case TList(ArrayShape, _) => KIND_ARRAY + 1
    case TList(SliceShape, _) => KIND_SLICE + 1
    case TMap(_) => KIND_MAP + 1
  }

  /** Interfaces, pointers, slices and maps have a second byte. */
  predicate Tagged(t: Term) {
    match t
    case TLeaf(x) => x.NilInterface? || x.NilRef?
    case TList(shape, _) => shape.SliceShape?
    case _ => t.TBack? || t.TBox? || t.TMap?
  }

  function Tag(t: Term): Byte {
    match t
    case TLeaf(_) => 0
    case TBack(_, _) => 1
    case TBox(Dynamic(_, _), _) => 1
    case _ => 2
  }

  lemma {:induction false} Peel(h: seq<seq<Byte>>, g: seq<seq<Byte>>, r: seq<Byte>, s: seq<Byte>)
    requires h != [] && g != [] && |h[0]| == |g[0]| && Flat(h) + r == Flat(g) + s
    ensures h[0] == g[0] && Flat(h[1..]) + r == Flat(g[1..]) + s
  {
    Assoc(h[0], Flat(h[1..]), r);
    Assoc(g[0], Flat(g[1..]), s);
    PrefixSameLength(h[0], g[0], Flat(h[1..]) + r, Flat(g[1..]) + s);
  }

  lemma {:induction false} FirstChunk(t: Term)
    requires HeadKinded(t)
    ensures Header(t) != [] && Header(t)[0] == [FirstByte(t)]
    ensures Tagged(t) ==> |Header(t)| > 1 && Header(t)[1] == [Tag(t)]
  {
  }

  /** Two values whose first bytes agree are of one kind. */
  lemma {:induction false} SameKind(t: Term, u: Term)
    requires HeadKinded(t) && HeadKinded(u) && FirstByte(t) == FirstByte(u)
    ensures Tagged(t) == Tagged(u) && (t.TInvalid? <==> u.TInvalid?) && (t.TDepthCut? <==> u.TDepthCut?)
    ensures !Tagged(t) ==> (t.TLeaf? <==> u.TLeaf?) && (t.TList? <==> u.TList?) && (t.TList? ==> t.shape == u.shape)
    ensures !Tagged(t) && t.TLeaf? ==> ScalarKind(t.scalar) == ScalarKind(u.scalar)
    ensures Tagged(t) && Tag(t) == Tag(u) ==> SameTagged(t, u)
  {
  }

  /** Values with the same first byte and tag are of one form. */
  predicate SameTagged(t: Term, u: Term) {
    match (t, u)
    case (TLeaf(x), TLeaf(y)) => x == y
    case (TBack(r, _), TBack(q, _)) => r == q
    case (TBox(b, _), TBox(c, _)) => b.Pointee? <==> c.Pointee?
    case (TList(b, _), TList(c, _)) => b == c == SliceShape
    case (TMap(_), TMap(_)) => true
    case _ => false
  }

  lemma {:induction false} KindedHasType(x: Scalar)
    requires ScalarKinded(x) && !x.NilInterface? && !x.NilRef?
    ensures ScalarHasType(x, ScalarType(ScalarKind(x)))
  {
  }

  lemma {:induction false} ScalarHeadPrefixFree(x: Scalar, y: Scalar, r: seq<Byte>, s: seq<Byte>)
    requires ScalarFits(x) && ScalarKinded(x) && !x.NilInterface? && !x.NilRef?
    requires ScalarFits(y) && ScalarKinded(y) && !y.NilInterface? && !y.NilRef?
    requires ScalarKind(x) == ScalarKind(y) && Flat(ScalarChunks(x)) + r == Flat(ScalarChunks(y)) + s
    ensures Shown(x) == Shown(y) && r == s
  {
    KindedHasType(x);
    KindedHasType(y);
    var d := ScalarType(ScalarKind(x));
    hide *;
    ScalarChunksFlat(x);
    ScalarChunksFlat(y);
    ScalarPrefixFree(x, y, d, r, s);
    SimilarIsShown(x, y);
  }

  lemma {:induction false} SimilarIsShown(x: Scalar, y: Scalar)
    ensures SimilarScalar(x, y) <==> Shown(x) == Shown(y)
  {
  }

  lemma {:induction false} LengthPrefixFree(n: nat, m: nat, r: seq<Byte>, s: seq<Byte>)
    requires Flat([Uvarint(n)]) + r == Flat([Uvarint(m)]) + s
    ensures n == m && r == s
  {
    hide *;
    FlatOne(Uvarint(n));
    FlatOne(Uvarint(m));
    UvarintPrefixFree(n, m, r, s);
  }

  lemma {:induction false} NamePrefixFree(n: TypeName, m: TypeName, r: seq<Byte>, s: seq<Byte>)
    requires Flat(StringChunks(n.text) + StringChunks(n.pkg)) + r
              == Flat(StringChunks(m.text) + StringChunks(m.pkg)) + s
    ensures n == m && r == s
  {
    hide *;
    FlatConcat(StringChunks(n.text), StringChunks(n.pkg));
    FlatConcat(StringChunks(m.text), StringChunks(m.pkg));
    StringChunksFlat(n.text);
    StringChunksFlat(n.pkg);
    StringChunksFlat(m.text);
    StringChunksFlat(m.pkg);
    var a, b, c, d := Escaped(n.text), Escaped(n.pkg), Escaped(m.text), Escaped(m.pkg);
    Assoc(a, b, r);
    Assoc(c, d, s);
    EscapedPrefixFree(n.text, m.text, b + r, d + s);
    EscapedPrefixFree(n.pkg, m.pkg, r, s);
  }

  lemma {:induction false} NoChunks(r: seq<Byte>)
    ensures Flat([]) + r == r
  {
  }

  /** What follows the first two bytes. */
  lemma {:induction false} ThirdChunk(t: Term)
    requires HeadKinded(t) && Tagged(t)
    ensures |Header(t)| > 1
    ensures t.TLeaf? || (t.TBox? && t.box.Pointee?) ==> Header(t)[1..][1..] == []
    ensures t.TBack? ==> Header(t)[1..][1..] == [Uvarint(t.index)]
    ensures t.TList? ==> Header(t)[1..][1..] == [Uvarint(|t.elems|)]
    ensures t.TMap? ==> Header(t)[1..][1..] == [Uvarint(|t.entries|)]
    ensures t.TBox? && t.box.Dynamic? ==>
              Header(t)[1..][1..] == StringChunks(t.box.name.text) + StringChunks(t.box.name.pkg)
  {
    if t.TBox? && t.box.Dynamic? {
      var a, b := StringChunks(t.box.name.text), StringChunks(t.box.name.pkg);
      hide StringChunks;
      assert Header(t) == [[KIND_INTERFACE + 1], [1]] + a + b;
      assert ([[KIND_INTERFACE + 1], [1]] + a + b)[1..][1..] == a + b;
    }
    hide StringChunks;
  }

  lemma {:induction false} TaggedPrefixFree(t: Term, u: Term, r: seq<Byte>, s: seq<Byte>)
    requires HeadKinded(t) && HeadKinded(u) && Tagged(t) && SameTagged(t, u) && Tagged(u)
    requires |Header(t)| > 1 && |Header(u)| > 1
    requires Flat(Header(t)[1..][1..]) + r == Flat(Header(u)[1..][1..]) + s
    ensures Mark(BySpelling, t) == Mark(BySpelling, u) && r == s
  {
    ThirdChunk(t);
    ThirdChunk(u);
    NoChunks(r);
    NoChunks(s);
    hide Header, Flat, StringChunks, Uvarint, Fits;
    match t {
      case TBack(_, i) => LengthPrefixFree(i, u.index, r, s);
      case TList(_, es) => LengthPrefixFree(|es|, |u.elems|, r, s);
      case TMap(es) => LengthPrefixFree(|es|, |u.entries|, r, s);
      case TBox(Dynamic(n, _), _) => NamePrefixFree(n, u.box.name, r, s);
      case _ =>
    }
  }

  lemma {:induction false} PlainPrefixFree(t: Term, u: Term, r: seq<Byte>, s: seq<Byte>)
    requires HeadKinded(t) && HeadKinded(u) && FirstByte(t) == FirstByte(u) && !Tagged(t) && !Tagged(u)
    requires Flat(Header(t)) + r == Flat(Header(u)) + s
    requires Header(t) != [] && Header(u) != [] && Flat(Header(t)[1..]) + r == Flat(Header(u)[1..]) + s
    ensures Mark(BySpelling, t) == Mark(BySpelling, u) && r == s
  {
    SameKind(t, u);
    hide Flat, Uvarint, Fits, ScalarChunks, ScalarFits, ScalarKinded;
    NoChunks(r);
    NoChunks(s);
    match t {
      case TLeaf(x) => ScalarHeadPrefixFree(x, u.scalar, r, s);
      case TList(ArrayShape, es) => LengthPrefixFree(|es|, |u.elems|, r, s);
      case _ =>
    }
  }

  /** What stands before the parts of a value tells its mark, and where it
      ends. */
  lemma {:induction false} HeadPrefixFree(t: Term, u: Term, r: seq<Byte>, s: seq<Byte>)
    requires HeadKinded(t) && HeadKinded(u) && Flat(Header(t)) + r == Flat(Header(u)) + s
    ensures Mark(BySpelling, t) == Mark(BySpelling, u) && r == s
  {
    FirstChunk(t);
    FirstChunk(u);
    hide *;
    Peel(Header(t), Header(u), r, s);
    SameKind(t, u);
    if Tagged(t) {
      Peel(Header(t)[1..], Header(u)[1..], r, s);
      TaggedPrefixFree(t, u, r, s);
    } else {
      PlainPrefixFree(t, u, r, s);
    }
  }

  lemma {:induction false} MarkIsHead(t: Term, u: Term)
    requires HeadKinded(t) && HeadKinded(u) && Mark(BySpelling, t) == Mark(BySpelling, u)
    ensures Header(t) == Header(u)
  {
  }

  // ---- Reading a list of values from left to right ----

  function Parts(t: Term): seq<Term> {
    match t
    case TBox(_, e) => [e]
    case TList(_, es) => es
    case _ => []
  }

  /** The rest of an encoding once the head of t has been read: the parts of t
      and what comes after them are not kept apart. */
  function Behind(t: Term, rest: seq<Term>): seq<Byte>
    requires Fits(t) && AllFit(rest) && AllFit(Parts(t) + rest)
  {
    if t.TMap? then MapBytes(EntryPrints(t.entries)) + EncodingAll(rest) else EncodingAll(Parts(t) + rest)
  }

  function ReadBehind(tell: Telling, t: Term, rest: seq<Term>): seq<Token> {
    if t.TMap? then [EntriesMark(multiset(ReadEntries(tell, t.entries)))] + ReadAll(tell, rest)
    else ReadAll(tell, Parts(t) + rest)
  }

  lemma {:induction false} PartsFit(t: Term, rest: seq<Term>)
    requires Fits(t) && Kinded(t) && AllFit(rest) && AllKinded(rest)
    ensures AllFit(Parts(t) + rest) && AllKinded(Parts(t) + rest) && HeadKinded(t)
    ensures t.TMap? ==> EntriesFit(t.entries) && EntriesKinded(t.entries)
  {
  }

  lemma {:induction false} EncodingAllConcat(a: seq<Term>, b: seq<Term>)
    requires AllFit(a) && AllFit(b)
    ensures AllFit(a + b) && EncodingAll(a + b) == EncodingAll(a) + EncodingAll(b)
  {
    if a == [] {
      assert a + b == b;
    } else {
      assert (a + b)[1..] == a[1..] + b;
      EncodingAllConcat(a[1..], b);
      Assoc(Encoding(a[0]), EncodingAll(a[1..]), EncodingAll(b));
      hide Encoding;
    }
  }

  lemma {:induction false} ReadAllConcat(tell: Telling, a: seq<Term>, b: seq<Term>)
    ensures ReadAll(tell, a + b) == ReadAll(tell, a) + ReadAll(tell, b)
  {
    if a == [] {
      assert a + b == b;
    } else {
      assert (a + b)[1..] == a[1..] + b;
      ReadAllConcat(tell, a[1..], b);
      Sequences.Grouped(Read(tell, a[0]), ReadAll(tell, a[1..]), ReadAll(tell, b));
      hide Read;
    }
  }

  /** The encoding of a value: its head, then its parts. */
  lemma {:induction false} EncodingParts(t: Term)
    requires Fits(t)
    ensures AllFit(Parts(t)) && (t.TMap? ==> EntriesFit(t.entries))
    ensures Encoding(t) == Flat(Header(t)) + if t.TMap? then MapBytes(EntryPrints(t.entries)) else EncodingAll(Parts(t))
  {
    if t.TBox? {
      assert [t.elem][1..] == [];
      Sequences.NothingAdded(Encoding(t.elem));
    }
    hide Flat, Header, MapBytes, EntryPrints;
  }

  lemma {:induction false} ReadParts(tell: Telling, t: Term)
    ensures Read(tell, t) == [Mark(tell, t)] +
      if t.TMap? then [EntriesMark(multiset(ReadEntries(tell, t.entries)))] else ReadAll(tell, Parts(t))
  {
    if t.TBox? {
      assert [t.elem][1..] == [];
      Sequences.NothingAdded(Read(tell, t.elem));
    }
    hide Mark, ReadEntries;
  }

  lemma {:induction false} EncodingFront(ts: seq<Term>) returns (t: Term, rest: seq<Term>)
    requires ts != [] && AllFit(ts) && AllKinded(ts)
    ensures t == ts[0] && rest == ts[1..] && Fits(t) && Kinded(t) && AllFit(rest) && AllKinded(rest)
    ensures HeadKinded(t) && AllFit(Parts(t) + rest) && AllKinded(Parts(t) + rest)
    ensures EncodingAll(ts) == Flat(Header(t)) + Behind(t, rest)
  {
    t, rest := ts[0], ts[1..];
    assert EncodingAll(ts) == Encoding(t) + EncodingAll(rest);
    PartsFit(t, rest);
    EncodingParts(t);
    assert t.TMap? ==> Behind(t, rest) == MapBytes(EntryPrints(t.entries)) + EncodingAll(rest);
    assert !t.TMap? ==> Behind(t, rest) == EncodingAll(Parts(t) + rest);
    hide *;
    EncodingAllConcat(Parts(t), rest);
    if t.TMap? {
      Assoc(Flat(Header(t)), MapBytes(EntryPrints(t.entries)), EncodingAll(rest));
    } else {
      Assoc(Flat(Header(t)), EncodingAll(Parts(t)), EncodingAll(rest));
    }
  }

  lemma {:induction false} ReadFront(tell: Telling, ts: seq<Term>)
    requires ts != []
    ensures ReadAll(tell, ts) == [Mark(tell, ts[0])] + ReadBehind(tell, ts[0], ts[1..])
  {
    var t, rest := ts[0], ts[1..];
    assert ReadAll(tell, ts) == Read(tell, t) + ReadAll(tell, rest);
    ReadParts(tell, t);
    assert t.TMap? ==>
              ReadBehind(tell, t, rest) == [EntriesMark(multiset(ReadEntries(tell, t.entries)))] + ReadAll(tell, rest);
    assert !t.TMap? ==> ReadBehind(tell, t, rest) == ReadAll(tell, Parts(t) + rest);
    hide *;
    ReadAllConcat(tell, Parts(t), rest);
    if t.TMap? {
      Sequences.Grouped([Mark(tell, t)], [EntriesMark(multiset(ReadEntries(tell, t.entries)))], ReadAll(tell, rest));
    } else {
      Sequences.Grouped([Mark(tell, t)], ReadAll(tell, Parts(t)), ReadAll(tell, rest));
    }
  }

  // ---- The size of what is to be read ----

  function Weight(t: Term): (w: nat)
    ensures w > 0
    decreases t, 0
  {
    1 + match t
      case TBox(_, e) => Weight(e)
      case TList(_, es) => Weights(es)
      case TMap(es) => EntryWeights(es)
      case _ => 0
  }

  function Weights(ts: seq<Term>): nat
    decreases ts, 0
  {
    if ts == [] then 0 else Weight(ts[0]) + Weights(ts[1..])
  }

  function EntryWeight(e: Entry<Term>): nat
    decreases e, 0
  {
    Weight(e.key) + Weight(e.val)
  }

  function EntryWeights(es: seq<Entry<Term>>): nat
    decreases es, 0
  {
    if es == [] then 0 else EntryWeight(es[0]) + EntryWeights(es[1..])
  }

  lemma {:induction false} WeightsConcat(a: seq<Term>, b: seq<Term>)
    ensures Weights(a + b) == Weights(a) + Weights(b)
  {
    if a == [] {
      assert a + b == b;
    } else {
      assert (a + b)[1..] == a[1..] + b;
      WeightsConcat(a[1..], b);
      hide Weight;
    }
  }

  lemma {:induction false} EntryLighter(es: seq<Entry<Term>>, i: nat)
    requires i < |es|
    ensures EntryWeight(es[i]) <= EntryWeights(es)
  {
    if i > 0 { EntryLighter(es[1..], i - 1); }
    hide EntryWeight;
  }

  lemma {:induction false} PairWeights(e: Entry<Term>)
    ensures Weights([e.key, e.val]) == EntryWeight(e)
  {
    assert [e.key, e.val][1..] == [e.val] && [e.val][1..] == [];
    assert Weights([e.val]) == Weight(e.val) + Weights([]);
    hide Weight;
  }

  /** Everything left to read weighs less than the list. */
  lemma {:induction false} Lighter(ts: seq<Term>)
    requires ts != []
    ensures Weights(Parts(ts[0]) + ts[1..]) < Weights(ts) && Weights(ts[1..]) < Weights(ts)
    ensures ts[0].TMap? ==> EntryWeights(ts[0].entries) < Weights(ts)
  {
    var t := ts[0];
    WeightsConcat(Parts(t), ts[1..]);
    if t.TBox? { assert [t.elem][1..] == []; }
  }

  // ---- Equal encodings are equal readings ----

  lemma {:induction false} PairEncoding(e: Entry<Term>)
    requires Fits(e.key) && Fits(e.val) && EntryKinded(e)
    ensures var p := [e.key, e.val];
            AllFit(p) && AllKinded(p) && EncodingAll(p) == EntryEncoding(e)
  {
    var p := [e.key, e.val];
    assert p[1..] == [e.val] && [e.val][1..] == [];
    Sequences.NothingAdded(Encoding(e.val));
    assert EncodingAll([e.val]) == Encoding(e.val) + EncodingAll([]);
    hide Encoding, Fits, Kinded;
  }

  lemma {:induction false} PairReading(tell: Telling, e: Entry<Term>)
    ensures ReadAll(tell, [e.key, e.val]) == ReadEntry(tell, e)
  {
    var p := [e.key, e.val];
    assert p[1..] == [e.val] && [e.val][1..] == [];
    Sequences.NothingAdded(Read(tell, e.val));
    assert ReadAll(tell, [e.val]) == Read(tell, e.val) + ReadAll(tell, []);
    hide Read;
  }

  lemma {:induction false} EntryAt(es: seq<Entry<Term>>, i: nat)
    requires i < |es| && EntriesFit(es) && EntriesKinded(es)
    ensures Fits(es[i].key) && Fits(es[i].val) && EntryKinded(es[i])
  {
  }

  /** Entries read alike exactly when they are written alike. */
  lemma {:induction false} EntryReadingIsEncoding(e: Entry<Term>, f: Entry<Term>, w: nat)
    requires Fits(e.key) && Fits(e.val) && EntryKinded(e) && Fits(f.key) && Fits(f.val) && EntryKinded(f)
    requires EntryWeight(e) < w
    ensures EntryEncoding(e) == EntryEncoding(f) <==> ReadEntry(BySpelling, e) == ReadEntry(BySpelling, f)
    decreases w, 0
  {
    hide *;
    var p, q := [e.key, e.val], [f.key, f.val];
    PairEncoding(e);
    PairEncoding(f);
    PairReading(BySpelling, e);
    PairReading(BySpelling, f);
    PairWeights(e);
    ReadingIsEncoding(p, q, EntryWeight(e));
  }

  /** Maps are written alike exactly when their entries read alike. */
  lemma {:induction false} MapReadingIsEncoding(es: seq<Entry<Term>>, fs: seq<Entry<Term>>, w: nat)
    requires EntriesFit(es) && EntriesKinded(es) && EntriesFit(fs) && EntriesKinded(fs) && |es| == |fs|
    requires EntryWeights(es) < w
    ensures MapBytes(EntryPrints(es)) == MapBytes(EntryPrints(fs))
       <==> multiset(ReadEntries(BySpelling, es)) == multiset(ReadEntries(BySpelling, fs))
    decreases w, 1
  {
    var a, b := ReadEntries(BySpelling, es), ReadEntries(BySpelling, fs);
    hide *;
    if MapBytes(EntryPrints(es)) == MapBytes(EntryPrints(fs)) {
      var p := MatchEntries(es, fs, [], []);
      forall i | 0 <= i < |es| ensures a[i] == b[p[i]] {
        EntryAt(es, i);
        PermutationAt(p, |es|, i);
        EntryAt(fs, p[i]);
        EntryLighter(es, i);
        EntryReadingIsEncoding(es[i], fs[p[i]], w);
      }
      SameElements(a, b, p);
    }
    if multiset(a) == multiset(b) {
      var p := MultisetArrangement(a, b);
      MatchesIs(a, b, p);
      forall i | 0 <= i < |es| ensures EntryPrints(es)[i] == EntryPrints(fs)[p[i]] {
        EntryAt(es, i);
        EntryAt(fs, p[i]);
        EntryLighter(es, i);
        EntryReadingIsEncoding(es[i], fs[p[i]], w);
      }
      SameElements(EntryPrints(es), EntryPrints(fs), p);
      SameMapBytes(EntryPrints(es), EntryPrints(fs));
    }
  }

  lemma {:induction false} PermutationAt(p: seq<nat>, n: nat, i: nat)
    requires IsPermutation(p, n) && i < n
    ensures |p| == n && p[i] < n
  {
  }

  lemma {:induction false} SameMapBytes(ps: seq<Print>, qs: seq<Print>)
    requires multiset(ps) == multiset(qs)
    ensures MapBytes(ps) == MapBytes(qs)
  {
    SortIgnoresOrder(ps, qs);
  }

  lemma {:induction false} NothingToRead(ts: seq<Term>)
    requires AllFit(ts) && AllKinded(ts)
    ensures EncodingAll(ts) == [] <==> ts == []
    ensures ReadAll(BySpelling, ts) == [] <==> ts == []
  {
    if ts != [] {
      var t, rest := EncodingFront(ts);
      FirstChunk(t);
      ReadFront(BySpelling, ts);
      hide EncodingAll, Behind, ReadAll, ReadBehind;
      assert Flat(Header(t)) != [];
    }
  }

  /** Reading the rest of two lists whose first values have one mark. */
  lemma {:induction false} RestReadingIsEncoding(t: Term, ts: seq<Term>, u: Term, us: seq<Term>, w: nat)
    requires Fits(t) && Kinded(t) && AllFit(ts) && AllKinded(ts) && AllFit(Parts(t) + ts) && AllKinded(Parts(t) + ts)
    requires Fits(u) && Kinded(u) && AllFit(us) && AllKinded(us) && AllFit(Parts(u) + us) && AllKinded(Parts(u) + us)
    requires Mark(BySpelling, t) == Mark(BySpelling, u)
    requires Weights(Parts(t) + ts) < w && Weights(ts) < w && (t.TMap? ==> EntryWeights(t.entries) < w)
    ensures Behind(t, ts) == Behind(u, us) <==> ReadBehind(BySpelling, t, ts) == ReadBehind(BySpelling, u, us)
    decreases w, 2
  {
    if t.TMap? {
      var es, fs := t.entries, u.entries;
      PartsFit(t, ts);
      PartsFit(u, us);
      hide *;
      MapReadingIsEncoding(es, fs, w);
      ReadingIsEncoding(ts, us, w - 1);
      MapsThenRest(t, ts, u, us);
    } else {
      hide EncodingAll, ReadAll, Fits, Kinded, Weights;
      ReadingIsEncoding(Parts(t) + ts, Parts(u) + us, w - 1);
    }
  }

  lemma {:induction false} MapsThenRest(t: Term, ts: seq<Term>, u: Term, us: seq<Term>)
    requires t.TMap? && u.TMap? && Fits(t) && Fits(u) && AllFit(ts) && AllFit(us) && |t.entries| == |u.entries|
    requires AllFit(Parts(t) + ts) && AllFit(Parts(u) + us)
    requires EntriesFit(t.entries) && EntriesFit(u.entries)
    requires MapBytes(EntryPrints(t.entries)) == MapBytes(EntryPrints(u.entries))
        <==> multiset(ReadEntries(BySpelling, t.entries)) == multiset(ReadEntries(BySpelling, u.entries))
    requires EncodingAll(ts) == EncodingAll(us) <==> ReadAll(BySpelling, ts) == ReadAll(BySpelling, us)
    ensures Behind(t, ts) == Behind(u, us) <==> ReadBehind(BySpelling, t, ts) == ReadBehind(BySpelling, u, us)
  {
    var x, y := MapBytes(EntryPrints(t.entries)), MapBytes(EntryPrints(u.entries));
    var a, b := multiset(ReadEntries(BySpelling, t.entries)), multiset(ReadEntries(BySpelling, u.entries));
    var r, s := EncodingAll(ts), EncodingAll(us);
    var c, d := ReadAll(BySpelling, ts), ReadAll(BySpelling, us);
    assert Behind(t, ts) == x + r && Behind(u, us) == y + s;
    assert ReadBehind(BySpelling, t, ts) == [EntriesMark(a)] + c &&
              ReadBehind(BySpelling, u, us) == [EntriesMark(b)] + d;
    hide *;
    if x + r == y + s {
      var p := MatchEntries(t.entries, u.entries, r, s);
      assert x == y by { MapTextEnds(x, y, r, s); }
    }
    if [EntriesMark(a)] + c == [EntriesMark(b)] + d {
      assert ([EntriesMark(a)] + c)[0] == EntriesMark(a) && ([EntriesMark(b)] + d)[0] == EntriesMark(b);
      assert ([EntriesMark(a)] + c)[1..] == c && ([EntriesMark(b)] + d)[1..] == d;
    }
  }

  lemma {:induction false} MapTextEnds(x: seq<Byte>, y: seq<Byte>, r: seq<Byte>, s: seq<Byte>)
    requires x + r == y + s && r == s
    ensures x == y
  {
    assert |x| == |y|;
    assert x == (x + r)[..|x|] && y == (y + s)[..|y|];
  }

  /** Two lists of values are written alike exactly when they read alike,
      whatever their types. */
  lemma {:induction false} ReadingIsEncoding(ts: seq<Term>, us: seq<Term>, w: nat)
    requires AllFit(ts) && AllKinded(ts) && AllFit(us) && AllKinded(us) && Weights(ts) <= w
    ensures EncodingAll(ts) == EncodingAll(us) <==> ReadAll(BySpelling, ts) == ReadAll(BySpelling, us)
    decreases w, 3
  {
    hide *;
    NothingToRead(ts);
    NothingToRead(us);
    if ts != [] && us != [] {
      var t, ts' := EncodingFront(ts);
      var u, us' := EncodingFront(us);
      ReadFront(BySpelling, ts);
      ReadFront(BySpelling, us);
      Lighter(ts);
      FrontsAgree(t, ts', u, us');
      if Mark(BySpelling, t) == Mark(BySpelling, u) {
        RestReadingIsEncoding(t, ts', u, us', w);
      }
    }
  }

  /** The heads come first: they agree, or the lists differ. */
  lemma {:induction false} FrontsAgree(t: Term, ts: seq<Term>, u: Term, us: seq<Term>)
    requires HeadKinded(t) && HeadKinded(u) && Fits(t) && Fits(u)
    requires AllFit(ts) && AllFit(us) && AllFit(Parts(t) + ts) && AllFit(Parts(u) + us)
    ensures Flat(Header(t)) + Behind(t, ts) == Flat(Header(u)) + Behind(u, us)
       <==> Mark(BySpelling, t) == Mark(BySpelling, u) && Behind(t, ts) == Behind(u, us)
    ensures [Mark(BySpelling, t)] + ReadBehind(BySpelling, t, ts)
              == [Mark(BySpelling, u)] + ReadBehind(BySpelling, u, us)
       <==> Mark(BySpelling, t) == Mark(BySpelling, u) && ReadBehind(BySpelling, t, ts) == ReadBehind(BySpelling, u, us)
  {
    var x, y := Behind(t, ts), Behind(u, us);
    hide *;
    if Mark(BySpelling, t) == Mark(BySpelling, u) { MarkIsHead(t, u); }
    if Flat(Header(t)) + x == Flat(Header(u)) + y { HeadPrefixFree(t, u, x, y); }
    OneThenRest(Mark(BySpelling, t), ReadBehind(BySpelling, t, ts), Mark(BySpelling, u), ReadBehind(BySpelling, u, us));
  }

  lemma {:induction false} OneThenRest<T>(a: T, r: seq<T>, b: T, s: seq<T>)
    ensures [a] + r == [b] + s <==> a == b && r == s
  {
    if [a] + r == [b] + s {
      assert ([a] + r)[0] == a && ([b] + s)[0] == b && ([a] + r)[1..] == r && ([b] + s)[1..] == s;
    }
  }

  // ---- Readings that tell types apart are contents ----

  lemma {:induction false} SimilarReads(tell: Telling, t: Term, u: Term)
    requires Similar(t, u)
    ensures Read(tell, t) == Read(tell, u)
    decreases t, 0
  {
    match t {
      case TLeaf(x) => SimilarIsShown(x, u.scalar);
      case TBox(_, e) => SimilarReads(tell, e, u.elem);
      case TList(_, es) => SimilarReadsAll(tell, es, u.elems);
      case TMap(es) =>
        var fs := u.entries;
        var p :| SimilarEntries(es, fs, p);
        forall i | 0 <= i < |es| ensures ReadEntries(tell, es)[i] == ReadEntries(tell, fs)[p[i]] {
          SimilarReadsEntry(tell, es[i], fs[p[i]]);
        }
        SameElements(ReadEntries(tell, es), ReadEntries(tell, fs), p);
      case _ =>
    }
  }

  lemma {:induction false} SimilarReadsAll(tell: Telling, es: seq<Term>, fs: seq<Term>)
    requires SimilarAll(es, fs)
    ensures ReadAll(tell, es) == ReadAll(tell, fs)
    decreases es, 0
  {
    if es != [] {
      SimilarReads(tell, es[0], fs[0]);
      assert SimilarAll(es[1..], fs[1..]);
      SimilarReadsAll(tell, es[1..], fs[1..]);
    }
  }

  lemma {:induction false} SimilarReadsEntry(tell: Telling, e: Entry<Term>, f: Entry<Term>)
    requires SimilarEntry(e, f)
    ensures ReadEntry(tell, e) == ReadEntry(tell, f)
    decreases e, 0
  {
    SimilarReads(tell, e.key, f.key);
    SimilarReads(tell, e.val, f.val);
  }

  /** What equal marks say. */
  lemma {:induction false} SameMark(t: Term, u: Term)
    requires Mark(ByType, t) == Mark(ByType, u)
    ensures t.TLeaf? ==> u.TLeaf? && SimilarScalar(t.scalar, u.scalar)
    ensures t.TBox? ==> u.TBox? && t.box == u.box
    ensures t.TList? ==> u.TList? && t.shape == u.shape && (t.shape.StructShape? || |t.elems| == |u.elems|)
    ensures t.TMap? ==> u.TMap? && |t.entries| == |u.entries|
    ensures t.TInvalid? || t.TDepthCut? || t.TBack? ==> t == u
  {
    if t.TLeaf? { SimilarIsShown(t.scalar, u.scalar); }
  }

  /** Read with their types, values of one type keep in step: equal readings
      are equal contents, and end at the same place. */
  lemma {:induction false} TypedReading(ts: Types, t: Term, u: Term, ty: TypeId, r: seq<Token>, s: seq<Token>)
    requires HasType(ts, t, ty) && HasType(ts, u, ty) && Read(ByType, t) + r == Read(ByType, u) + s
    ensures Similar(t, u) && r == s
    decreases t, 2
  {
    hide Read, Mark, HasType, Similar, ReadAll, HaveTypes;
    TypedHead(t, u, r, s);
    SameMark(t, u);
    SameIsSimilar(t, u);
    TypeOfParts(ts, t, ty);
    TypeOfParts(ts, u, ty);
    match t {
      case TBox(b, e) => TypedReading(ts, e, u.elem, if b.Pointee? then ts.def(ty).elem else b.dyn, r, s);
      case TList(shape, es) =>
        SameParts(ts.def(ty), shape, |es|, |u.elems|);
        TypedReadingAll(ts, es, u.elems, PartTypes(ts.def(ty), shape, |es|), r, s);
      case TMap(es) => TypedReadingEntries(ts, es, u.entries, ts.def(ty).key, ts.def(ty).val);
      case _ =>
    }
  }

  /** The heads agree, and then what is read of the parts. */
  lemma {:induction false} TypedHead(t: Term, u: Term, r: seq<Token>, s: seq<Token>)
    requires Read(ByType, t) + r == Read(ByType, u) + s
    ensures Mark(ByType, t) == Mark(ByType, u)
    ensures t.TBox? && u.TBox? ==> Read(ByType, t.elem) + r == Read(ByType, u.elem) + s
    ensures t.TList? && u.TList? ==> ReadAll(ByType, t.elems) + r == ReadAll(ByType, u.elems) + s
    ensures t.TMap? && u.TMap? ==>
              multiset(ReadEntries(ByType, t.entries)) == multiset(ReadEntries(ByType, u.entries)) && r == s
    ensures !t.TBox? && !t.TList? && !t.TMap? && !u.TBox? && !u.TList? && !u.TMap? ==> r == s
  {
    var a, b := Tail(t), Tail(u);
    var m, n := Mark(ByType, t), Mark(ByType, u);
    TailIs(t);
    TailIs(u);
    hide *;
    Sequences.Grouped([m], a, r);
    Sequences.Grouped([n], b, s);
    OneThenRest(m, a + r, n, b + s);
    if t.TMap? && u.TMap? {
      OneThenRest(EntriesMark(multiset(ReadEntries(ByType, t.entries))), r,
        EntriesMark(multiset(ReadEntries(ByType, u.entries))), s);
    }
    if a == [] { Sequences.NothingAdded(r); }
    if b == [] { Sequences.NothingAdded(s); }
  }

  function Tail(t: Term): seq<Token> {
    match t
    case TBox(_, e) => Read(ByType, e)
    case TList(_, es) => ReadAll(ByType, es)
    case TMap(es) => [EntriesMark(multiset(ReadEntries(ByType, es)))]
    case _ => []
  }

  lemma {:induction false} TailIs(t: Term)
    ensures Read(ByType, t) == [Mark(ByType, t)] + Tail(t)
    ensures t.TBox? ==> Tail(t) == Read(ByType, t.elem)
    ensures t.TList? ==> Tail(t) == ReadAll(ByType, t.elems)
    ensures t.TMap? ==> Tail(t) == [EntriesMark(multiset(ReadEntries(ByType, t.entries)))]
    ensures !t.TBox? && !t.TList? && !t.TMap? ==> Tail(t) == []
  {
    hide Mark, ReadEntries;
  }

  lemma {:induction false} SameIsSimilar(t: Term, u: Term)
    ensures t == u ==> t.TInvalid? || t.TDepthCut? || t.TBack? ==> Similar(t, u)
    ensures t.TLeaf? && u.TLeaf? && SimilarScalar(t.scalar, u.scalar) ==> Similar(t, u)
    ensures t.TBox? && u.TBox? && t.box == u.box && Similar(t.elem, u.elem) ==> Similar(t, u)
    ensures t.TList? && u.TList? && t.shape == u.shape && SimilarAll(t.elems, u.elems) ==> Similar(t, u)
    ensures t.TMap? && u.TMap? && (exists p :: SimilarEntries(t.entries, u.entries, p)) ==> Similar(t, u)
  {
  }

  /** What its type says of a value's parts. */
  lemma {:induction false} TypeOfParts(ts: Types, t: Term, ty: TypeId)
    requires HasType(ts, t, ty)
    ensures t.TBox? && t.box.Pointee? ==> ts.def(ty).PointerType? && HasType(ts, t.elem, ts.def(ty).elem)
    ensures t.TBox? && t.box.Dynamic? ==> HasType(ts, t.elem, t.box.dyn)
    ensures t.TList? ==> HaveTypes(ts, t.elems, PartTypes(ts.def(ty), t.shape, |t.elems|))
    ensures t.TMap? ==> ts.def(ty).MapType?
    ensures t.TMap? ==>
              forall i :: 0 <= i < |t.entries| ==> EntryHasType(ts, t.entries[i], ts.def(ty).key, ts.def(ty).val)
  {
  }

  lemma {:induction false} SameParts(d: TypeDef, shape: Shape, n: nat, m: nat)
    requires |PartTypes(d, shape, n)| == n && |PartTypes(d, shape, m)| == m
    requires shape.StructShape? || n == m
    ensures PartTypes(d, shape, n) == PartTypes(d, shape, m)
  {
  }

  lemma {:induction false} TypedReadingAll(
      ts: Types, es: seq<Term>, fs: seq<Term>, tys: seq<TypeId>, r: seq<Token>, s: seq<Token>)
    requires HaveTypes(ts, es, tys) && HaveTypes(ts, fs, tys) && ReadAll(ByType, es) + r == ReadAll(ByType, fs) + s
    ensures SimilarAll(es, fs) && r == s
    decreases es, 0
  {
    if es == [] {
      Sequences.NothingAdded(r);
      Sequences.NothingAdded(s);
    } else {
      var x, y := Read(ByType, es[0]), Read(ByType, fs[0]);
      var xs, ys := ReadAll(ByType, es[1..]), ReadAll(ByType, fs[1..]);
      assert HaveTypes(ts, es[1..], tys[1..]) && HaveTypes(ts, fs[1..], tys[1..]);
      hide Read, ReadAll, HasType, Similar;
      Sequences.Grouped(x, xs, r);
      Sequences.Grouped(y, ys, s);
      TypedReading(ts, es[0], fs[0], tys[0], xs + r, ys + s);
      TypedReadingAll(ts, es[1..], fs[1..], tys[1..], r, s);
      forall i | 0 <= i < |es| ensures Similar(es[i], fs[i]) {
        if i > 0 { assert Similar(es[1..][i - 1], fs[1..][i - 1]); }
      }
    }
  }

  lemma {:induction false} TypedReadingEntry(ts: Types, e: Entry<Term>, f: Entry<Term>, kt: TypeId, vt: TypeId)
    requires EntryHasType(ts, e, kt, vt) && EntryHasType(ts, f, kt, vt) && ReadEntry(ByType, e) == ReadEntry(ByType, f)
    ensures SimilarEntry(e, f)
    decreases e, 0
  {
    hide Read, HasType, Similar;
    TypedReading(ts, e.key, f.key, kt, Read(ByType, e.val), Read(ByType, f.val));
    TypedReading(ts, e.val, f.val, vt, [], []);
  }

  lemma {:induction false} TypedReadingEntries(ts: Types, es: seq<Entry<Term>>, fs: seq<Entry<Term>>, kt: TypeId,
      vt: TypeId)
    requires forall i :: 0 <= i < |es| ==> EntryHasType(ts, es[i], kt, vt)
    requires forall i :: 0 <= i < |fs| ==> EntryHasType(ts, fs[i], kt, vt)
    requires multiset(ReadEntries(ByType, es)) == multiset(ReadEntries(ByType, fs))
    ensures exists p :: SimilarEntries(es, fs, p)
    decreases es, 0
  {
    var a, b := ReadEntries(ByType, es), ReadEntries(ByType, fs);
    hide EntryHasType, SimilarEntry, ReadEntry, ReadEntries;
    var p := MultisetArrangement(a, b);
    MatchesIs(a, b, p);
    forall i | 0 <= i < |es| ensures SimilarEntry(es[i], fs[p[i]]) {
      assert a[i] == b[p[i]];
      TypedReadingEntry(ts, es[i], fs[p[i]], kt, vt);
    }
    assert SimilarEntries(es, fs, p);
  }

  /** Values of one type have the same content exactly when they read alike,
      types told. */
  lemma {:induction false} ContentIsTypedReading(ts: Types, t: Term, u: Term, ty: TypeId)
    requires HasType(ts, t, ty) && HasType(ts, u, ty)
    ensures Similar(t, u) <==> Read(ByType, t) == Read(ByType, u)
  {
    if Similar(t, u) { SimilarReads(ByType, t, u); }
    if Read(ByType, t) == Read(ByType, u) {
      TypedReading(ts, t, u, ty, [], []);
    }
  }
}
