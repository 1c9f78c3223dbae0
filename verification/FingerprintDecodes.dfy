/** A complete fingerprint is the encoding of the whole value. */
module FingerprintDecodes {
  import opened Bytes
  import opened Values
  import opened Fingerprints
  import opened FingerprintLaws
  import opened Permutations

  datatype TypeDef =
    | ScalarType(kind: Byte)
    | InterfaceType
    | PointerType(elem: TypeId)
    | SliceType(elem: TypeId)
    | ArrayType(len: nat, elem: TypeId)
    | StructType(fields: seq<TypeId>)
    | MapType(key: TypeId, val: TypeId)

  /** The program's types, which may refer to each other in cycles, and how
      each is spelled. */
  datatype Types = Types(def: TypeId -> TypeDef, names: Names)

  predicate KindOfRef(d: TypeDef, r: RefKind) {
    match r
    case PointerRef => d.PointerType?
    case SliceRef => d.SliceType?
    case MapRef => d.MapType?
  }

  predicate ScalarHasType(x: Scalar, d: TypeDef) {
    match x
    case Bool(_) => d == ScalarType(KIND_BOOL)
    case Int(k, _) => d == ScalarType(k) && 2 <= k <= 6
    case Uint(k, _) => d == ScalarType(k) && 7 <= k <= 12
    case Float(k, _) => d == ScalarType(k) && 13 <= k <= 14
    case Complex(k, _, _) => d == ScalarType(k) && 15 <= k <= 16
    case Str(_) => d == ScalarType(KIND_STRING)
    case NilInterface => d.InterfaceType?
    case NilRef(r) => KindOfRef(d, r)
    case Opaque(k, _) => d == ScalarType(k) && k in {18, 19, 26}
  }

  predicate HasType(ts: Types, t: Term, ty: TypeId)
    decreases t, 0
  {
    match t
    case TInvalid => false
    case TDepthCut => true
    case TLeaf(x) => ScalarHasType(x, ts.def(ty))
    case TBack(r, _) => KindOfRef(ts.def(ty), r)
    case TBox(Pointee, e) => ts.def(ty).PointerType? && HasType(ts, e, ts.def(ty).elem)
    case TBox(Dynamic(name, dyn), e) =>
      ts.def(ty).InterfaceType? && name == ts.names(dyn) && HasType(ts, e, dyn)
    case TList(shape, es) => HaveTypes(ts, es, PartTypes(ts.def(ty), shape, |es|))
    case TMap(es) =>
      && ts.def(ty).MapType?
      && forall i :: 0 <= i < |es| ==> EntryHasType(ts, es[i], ts.def(ty).key, ts.def(ty).val)
  }

  predicate EntryHasType(ts: Types, e: Entry<Term>, key: TypeId, val: TypeId)
    decreases e, 0
  {
    HasType(ts, e.key, key) && HasType(ts, e.val, val)
  }

  predicate HaveTypes(ts: Types, es: seq<Term>, tys: seq<TypeId>)
    decreases es, 0
  {
    |es| == |tys| && forall i :: 0 <= i < |es| ==> HasType(ts, es[i], tys[i])
  }

  /** The types of the n parts of a list-like value, or of one part too many
      when the type has no such values. */
  function PartTypes(d: TypeDef, shape: Shape, n: nat): seq<TypeId> {
    match (shape, d)
    case (StructShape, StructType(fs)) => fs
    case (ArrayShape, ArrayType(len, e)) => seq(len, _ => e)
    case (SliceShape, SliceType(e)) => seq(n, _ => e)
    case _ => seq(n + 1, _ => 0)
  }

  // ---- The encoding without limits ----

  function Flat(chunks: seq<seq<Byte>>): seq<Byte> {
    if chunks == [] then [] else chunks[0] + Flat(chunks[1..])
  }

  lemma {:induction false} FlatConcat(a: seq<seq<Byte>>, b: seq<seq<Byte>>)
    ensures Flat(a + b) == Flat(a) + Flat(b)
  {
    if a == [] {
      assert a + b == b;
    } else {
      assert (a + b)[1..] == a[1..] + b;
      FlatConcat(a[1..], b);
    }
  }

  function PrintBytes(p: Print): seq<Byte> {
    Uvarint(|p.data|) + p.data + [if p.complete then 1 else 0]
  }

  function PrintsBytes(ps: seq<Print>): seq<Byte> {
    if ps == [] then [] else PrintBytes(ps[0]) + PrintsBytes(ps[1..])
  }

  function MapBytes(ps: seq<Print>): seq<Byte> {
    PrintsBytes(Sort(ps))
  }

  function Encoding(t: Term): seq<Byte>
    requires Fits(t)
    decreases t, 0
  {
    Flat(Header(t)) + match t
      case TBox(_, e) => Encoding(e)
      case TList(_, es) => EncodingAll(es)
      case TMap(es) => MapBytes(EntryPrints(es))
      case _ => []
  }

  function EncodingAll(es: seq<Term>): seq<Byte>
    requires AllFit(es)
    decreases es, 0
  {
    if es == [] then [] else Encoding(es[0]) + EncodingAll(es[1..])
  }

  function EntryEncoding(e: Entry<Term>): seq<Byte>
    requires Fits(e.key) && Fits(e.val)
    decreases e, 0
  {
    Encoding(e.key) + Encoding(e.val)
  }

  function EntryPrints(es: seq<Entry<Term>>): (ps: seq<Print>)
    requires EntriesFit(es)
    ensures |ps| == |es| && forall i :: 0 <= i < |es| ==> ps[i] == Print(EntryEncoding(es[i]), true)
    decreases es, 0
  {
    seq(|es|, i requires 0 <= i < |es| => Print(EntryEncoding(es[i]), true))
  }

  // ---- Complete fingerprints are whole encodings ----

  /** Nothing in t lies too deep to be seen, and no map is too large. */
  predicate Whole(t: Term)
    decreases t, 0
  {
    match t
    case TDepthCut => false
    case TBox(_, e) => Whole(e)
    case TList(_, es) => AllWhole(es)
    case TMap(es) => |es| <= MAX_MAP_ENTRIES && EntriesWhole(es)
    case _ => true
  }

  predicate AllWhole(es: seq<Term>)
    decreases es, 0
  {
    forall i :: 0 <= i < |es| ==> Whole(es[i])
  }

  predicate EntryWhole(e: Entry<Term>)
    decreases e, 0
  {
    Whole(e.key) && Whole(e.val)
  }

  predicate EntriesWhole(es: seq<Entry<Term>>)
    decreases es, 0
  {
    forall i :: 0 <= i < |es| ==> EntryWhole(es[i])
  }

  ghost predicate Sane(s: State) {
    s.full ==> s.incomplete
  }

  lemma {:induction false} CutsStay(t: Term, s: State)
    requires Fits(t) && Sane(s)
    ensures Sane(Fingerprint(t, s))
    ensures s.incomplete || t.TDepthCut? ==> Fingerprint(t, s).incomplete
    decreases t, 0
  {
    if !s.full && s.left > 0 {
      match t {
        case TBox(_, e) => CutsStay(e, Entered(t, s));
        case TList(_, es) => CutsStayAll(es, Entered(t, s));
        case _ =>
      }
    }
  }

  lemma {:induction false} CutsStayAll(es: seq<Term>, s: State)
    requires AllFit(es) && Sane(s)
    ensures Sane(FingerprintAll(es, s))
    ensures s.incomplete ==> FingerprintAll(es, s).incomplete
    decreases es, 0
  {
    if es != [] && !s.full {
      CutsStay(es[0], s);
      CutsStayAll(es[1..], Fingerprint(es[0], s));
    }
  }

  lemma {:induction false} WriteAllWhole(s: State, chunks: seq<seq<Byte>>)
    requires Sane(s) && !WriteAll(s, chunks).incomplete
    ensures WriteAll(s, chunks).buf == s.buf + Flat(chunks)
    decreases chunks
  {
    if chunks != [] {
      WriteAllWhole(Write(s, chunks[0]), chunks[1..]);
    }
  }

  lemma {:induction false} WritePrintsWhole(ps: seq<Print>, s: State)
    requires Sane(s) && !WritePrints(ps, s).incomplete
    ensures forall i :: 0 <= i < |ps| ==> ps[i].complete
    ensures WritePrints(ps, s).buf == s.buf + PrintsBytes(ps)
  {
    if ps != [] {
      var p := ps[0];
      var s1 := if p.complete then s else s.(incomplete := true);
      var s2 := Write(s1, PrintBytes(p));
      WritePrintsWhole(ps[1..], s2);
    }
  }

  lemma {:induction false} Assoc(a: seq<Byte>, b: seq<Byte>, c: seq<Byte>)
    ensures a + b + c == a + (b + c)
  {
  }

  /** A fingerprint reported complete holds the whole encoding and nothing
      else. */
  lemma {:induction false} CompleteIsWhole(t: Term, s: State)
    requires Fits(t) && Sane(s) && !Fingerprint(t, s).incomplete
    ensures Whole(t) && Fingerprint(t, s).buf == s.buf + Encoding(t)
    decreases t, 0
  {
    var s1 := Entered(t, s);
    match t {
      case TBox(_, e) =>
        CutsStay(e, s1);
        EnteredWhole(t, s);
        CompleteIsWhole(e, s1);
        Assoc(s.buf, Flat(Header(t)), Encoding(e));
      case TList(_, es) =>
        CutsStayAll(es, s1);
        EnteredWhole(t, s);
        CompleteIsWholeAll(es, s1);
        Assoc(s.buf, Flat(Header(t)), EncodingAll(es));
      case TMap(es) =>
        CompleteIsWholeEntries(es, s1);
        EnteredWhole(t, s);
        Assoc(s.buf, Flat(Header(t)), MapBytes(EntryPrints(es)));
      case _ =>
        EnteredWhole(t, s);
    }
  }

  lemma {:induction false} EnteredWhole(t: Term, s: State)
    requires Fits(t) && s.left > 0 && Sane(s) && !Entered(t, s).incomplete
    ensures Entered(t, s).buf == s.buf + Flat(Header(t))
  {
    var s1: State := s.(left := s.left - 1, incomplete := s.incomplete || t.TDepthCut?);
    WriteAllWhole(s1, Header(t));
  }

  lemma {:induction false} CompleteIsWholeAll(es: seq<Term>, s: State)
    requires AllFit(es) && Sane(s) && !FingerprintAll(es, s).incomplete
    ensures AllWhole(es) && FingerprintAll(es, s).buf == s.buf + EncodingAll(es)
    decreases es, 0
  {
    CutsStayAll(es, s);
    if es != [] {
      var s1 := Fingerprint(es[0], s);
      CutsStay(es[0], s);
      CutsStayAll(es[1..], s1);
      CompleteIsWhole(es[0], s);
      CompleteIsWholeAll(es[1..], s1);
      Assoc(s.buf, Encoding(es[0]), EncodingAll(es[1..]));
      assert es == [es[0]] + es[1..];
    }
  }

  lemma {:induction false} CompleteIsWholePair(e: Entry<Term>, s: State)
    requires Fits(e.key) && Fits(e.val) && Sane(s)
    requires !Fingerprint(e.val, Fingerprint(e.key, s)).incomplete
    ensures EntryWhole(e)
    ensures Fingerprint(e.val, Fingerprint(e.key, s)).buf == s.buf + Encoding(e.key) + Encoding(e.val)
    decreases e, 0
  {
    var s1 := Fingerprint(e.key, s);
    CutsStay(e.key, s);
    CutsStay(e.val, s1);
    CompleteIsWhole(e.key, s);
    CompleteIsWhole(e.val, s1);
  }

  lemma {:induction false} CompleteIsWholeEntry(e: Entry<Term>, room: nat, share: nat)
    requires Fits(e.key) && Fits(e.val) && !FingerprintEntry(e, room, share).incomplete
    ensures EntryWhole(e) && FingerprintEntry(e, room, share).buf == EntryEncoding(e)
    decreases e, 1
  {
    CompleteIsWholePair(e, Start(room, share));
  }

  lemma {:induction false} CompleteIsWholeSubs(es: seq<Entry<Term>>, room: nat, share: nat)
    requires EntriesFit(es)
    requires forall i :: 0 <= i < |es| ==> !EntryStates(es, room, share)[i].incomplete
    ensures EntriesWhole(es) && Prints(EntryStates(es, room, share)) == EntryPrints(es)
    decreases es, 0
  {
    var subs := EntryStates(es, room, share);
    forall i | 0 <= i < |es| ensures EntryWhole(es[i]) && Prints(subs)[i] == EntryPrints(es)[i] {
      EntryStateAt(es, room, share, i);
      CompleteIsWholeEntry(es[i], room, share);
    }
  }

  lemma {:induction false} CompleteIsWholeEntries(es: seq<Entry<Term>>, s: State)
    requires EntriesFit(es) && Sane(s) && !FingerprintEntries(es, s).incomplete
    ensures EntriesWhole(es)
    ensures !s.incomplete && FingerprintEntries(es, s).buf == s.buf + MapBytes(EntryPrints(es))
    decreases es, 1
  {
    var n := |es|;
    if n > 0 {
      var share, room := NodeShare(s, n), RoomShare(s, n);
      FinishedWhole(EntryStates(es, room, share), s, share);
      CompleteIsWholeSubs(es, room, share);
    }
  }

  lemma {:induction false} FinishedWhole(subs: seq<State>, s: State, share: nat)
    requires forall i :: 0 <= i < |subs| ==> subs[i].left <= share
    requires SortCost(|subs|) <= s.left && Times(|subs|, share) <= s.left - SortCost(|subs|)
    requires Sane(s) && !FinishMap(subs, s, share).incomplete
    ensures !s.incomplete && forall i :: 0 <= i < |subs| ==> !subs[i].incomplete
    ensures FinishMap(subs, s, share).buf == s.buf + MapBytes(Prints(subs))
  {
    var sorted := Sort(Prints(subs));
    SortSorts(Prints(subs));
    WritePrintsWhole(sorted, Charged(s, subs, share));
    forall i | 0 <= i < |subs| ensures !subs[i].incomplete {
      assert Prints(subs)[i] in multiset(sorted);
      assert Prints(subs)[i] in sorted;
    }
  }

  // ---- The pieces of an encoding ----

  lemma {:induction false} StringChunksFlat(x: seq<Byte>)
    ensures Flat(StringChunks(x)) == Escaped(x)
  {
    if x != [] {
      StringChunksFlat(x[1..]);
    }
  }

  lemma {:induction false} FlatOne(a: seq<Byte>)
    ensures Flat([a]) == a
  {
    assert [a][1..] == [];
  }

  lemma {:induction false} FlatCons(a: seq<Byte>, b: seq<seq<Byte>>)
    ensures Flat([a] + b) == a + Flat(b)
  {
    FlatConcat([a], b);
    FlatOne(a);
  }

  lemma {:induction false} FlatTwo(a: seq<Byte>, b: seq<Byte>)
    ensures Flat([a, b]) == a + b
  {
    assert [a, b] == [a] + [b];
    FlatCons(a, [b]);
    FlatOne(b);
  }

  lemma {:induction false} FlatThree(a: seq<Byte>, b: seq<Byte>, c: seq<Byte>)
    ensures Flat([a, b, c]) == a + b + c
  {
    assert [a, b, c] == [a] + [b, c];
    FlatCons(a, [b, c]);
    FlatTwo(b, c);
  }

  lemma {:induction false} PrefixSameLength(a: seq<Byte>, b: seq<Byte>, r: seq<Byte>, s: seq<Byte>)
    requires a + r == b + s && |a| == |b|
    ensures a == b && r == s
  {
    assert a == (a + r)[..|a|] && b == (b + s)[..|b|];
    assert r == (a + r)[|a|..] && s == (b + s)[|b|..];
  }

  function ScalarBytes(x: Scalar): seq<Byte>
    requires ScalarFits(x)
  {
    match x
    case Bool(b) => [KIND_BOOL + 1] + [if b then 1 else 0]
    case Int(k, i) => [k + 1] + U64(i + TWO_63)
    case Uint(k, u) => [k + 1] + U64(u)
    case Float(k, b) => [k + 1] + U64(OrderedFloatBits(b))
    case Complex(k, re, im) => [k + 1] + U64(OrderedFloatBits(re)) + U64(OrderedFloatBits(im))
    case Str(t) => [KIND_STRING + 1] + Escaped(t)
    case NilInterface => [KIND_INTERFACE + 1] + [0]
    case NilRef(r) => [r.Kind() + 1] + [0]
    case Opaque(k, id) => [k + 1] + [if id == 0 then 0 else 1]
  }

  lemma {:induction false} ScalarChunksFlat(x: Scalar)
    requires ScalarFits(x)
    ensures Flat(ScalarChunks(x)) == ScalarBytes(x)
  {
    match x
    case Bool(b) => FlatTwo([KIND_BOOL + 1], [if b then 1 else 0]);
    case Int(k, i) => FlatTwo([k + 1], U64(i + TWO_63));
    case Uint(k, u) => FlatTwo([k + 1], U64(u));
    case Float(k, b) => FlatTwo([k + 1], U64(OrderedFloatBits(b)));
    case Complex(k, re, im) => FlatThree([k + 1], U64(OrderedFloatBits(re)), U64(OrderedFloatBits(im)));
    case Str(t) =>
      FlatCons([KIND_STRING + 1], StringChunks(t));
      StringChunksFlat(t);
    case NilInterface => FlatTwo([KIND_INTERFACE + 1], [0]);
    case NilRef(r) => FlatTwo([r.Kind() + 1], [0]);
    case Opaque(k, id) => FlatTwo([k + 1], [if id == 0 then 0 else 1]);
  }

  lemma {:induction false} TwoWords(a: seq<Byte>, b: seq<Byte>, c: seq<Byte>, d: seq<Byte>)
    requires |a| == |c| && a + b == c + d
    ensures a == c && b == d
  {
    PrefixSameLength(a, c, b, d);
  }

  /** Scalars of one type, neither of them a nil reference or interface. */
  lemma {:induction false} ScalarPrefixFree(x: Scalar, y: Scalar, d: TypeDef, r: seq<Byte>, s: seq<Byte>)
    requires ScalarFits(x) && ScalarFits(y) && d.ScalarType?
    requires ScalarHasType(x, d) && ScalarHasType(y, d)
    requires ScalarBytes(x) + r == ScalarBytes(y) + s
    ensures SimilarScalar(x, y) && r == s
  {
    if x.Str? {
      Assoc([KIND_STRING + 1], Escaped(x.s), r);
      Assoc([KIND_STRING + 1], Escaped(y.s), s);
      PrefixSameLength([KIND_STRING + 1], [KIND_STRING + 1], Escaped(x.s) + r, Escaped(y.s) + s);
      EscapedPrefixFree(x.s, y.s, r, s);
    } else {
      PrefixSameLength(ScalarBytes(x), ScalarBytes(y), r, s);
      ScalarBytesInjective(x, y, d);
    }
  }

  lemma {:induction false} ScalarBytesInjective(x: Scalar, y: Scalar, d: TypeDef)
    requires ScalarFits(x) && ScalarFits(y) && d.ScalarType? && !x.Str?
    requires ScalarHasType(x, d) && ScalarHasType(y, d)
    requires ScalarBytes(x) == ScalarBytes(y)
    ensures SimilarScalar(x, y)
  {
    var k := d.kind;
    match x {
      case Int(_, i) =>
        TwoWords([k + 1], U64(i + TWO_63), [k + 1], U64(y.i + TWO_63));
        U64Injective(i + TWO_63, y.i + TWO_63);
      case Uint(_, u) =>
        TwoWords([k + 1], U64(u), [k + 1], U64(y.u));
        U64Injective(u, y.u);
      case Float(_, b) =>
        TwoWords([k + 1], U64(OrderedFloatBits(b)), [k + 1], U64(OrderedFloatBits(y.bits)));
        U64Injective(OrderedFloatBits(b), OrderedFloatBits(y.bits));
      case Complex(_, re, im) =>
        TwoWords([k + 1] + U64(OrderedFloatBits(re)), U64(OrderedFloatBits(im)),
                 [k + 1] + U64(OrderedFloatBits(y.re)), U64(OrderedFloatBits(y.im)));
        TwoWords([k + 1], U64(OrderedFloatBits(re)), [k + 1], U64(OrderedFloatBits(y.re)));
        U64Injective(OrderedFloatBits(re), OrderedFloatBits(y.re));
        U64Injective(OrderedFloatBits(im), OrderedFloatBits(y.im));
      case Bool(b) => TwoWords([k + 1], [if b then 1 else 0], [k + 1], [if y.b then 1 else 0]);
      case Opaque(_, id) =>
        TwoWords([k + 1], [if id == 0 then 0 else 1], [k + 1], [if y.id == 0 then 0 else 1]);
      case _ =>
    }
  }

  lemma {:induction false} PrintsPrefixFree(ps: seq<Print>, qs: seq<Print>, r: seq<Byte>, s: seq<Byte>)
    requires |ps| == |qs|
    requires forall i :: 0 <= i < |ps| ==> ps[i].complete && qs[i].complete
    requires PrintsBytes(ps) + r == PrintsBytes(qs) + s
    ensures ps == qs && r == s
  {
    if ps == [] {
      assert [] + r == r && [] + s == s;
    } else {
      var a, b := ps[0].data, qs[0].data;
      var r', s' := PrintsBytes(ps[1..]) + r, PrintsBytes(qs[1..]) + s;
      PrintBytesParts(ps[0], r');
      PrintBytesParts(qs[0], s');
      Assoc(PrintBytes(ps[0]), PrintsBytes(ps[1..]), r);
      Assoc(PrintBytes(qs[0]), PrintsBytes(qs[1..]), s);
      UvarintPrefixFree(|a|, |b|, a + ([1] + r'), b + ([1] + s'));
      PrefixSameLength(a, b, [1] + r', [1] + s');
      PrefixSameLength([1], [1], r', s');
      PrintsPrefixFree(ps[1..], qs[1..], r, s);
      assert ps == [ps[0]] + ps[1..] && qs == [qs[0]] + qs[1..];
    }
  }

  lemma {:induction false} PrintBytesParts(p: Print, r: seq<Byte>)
    requires p.complete
    ensures PrintBytes(p) + r == Uvarint(|p.data|) + (p.data + ([1] + r))
  {
    Assoc(Uvarint(|p.data|) + p.data, [1], r);
    Assoc(Uvarint(|p.data|), p.data, [1] + r);
  }

  lemma {:induction false} DynamicHeader(name: TypeName)
    ensures Flat([[KIND_INTERFACE + 1], [1]] + StringChunks(name.text) + StringChunks(name.pkg))
         == [KIND_INTERFACE + 1] + ([1] + (Escaped(name.text) + Escaped(name.pkg)))
  {
    FlatConcat([[KIND_INTERFACE + 1], [1]] + StringChunks(name.text), StringChunks(name.pkg));
    FlatConcat([[KIND_INTERFACE + 1], [1]], StringChunks(name.text));
    FlatTwo([KIND_INTERFACE + 1], [1]);
    StringChunksFlat(name.text);
    StringChunksFlat(name.pkg);
  }

  /** Equal sorted entry texts pair the entries of two maps off. */
  lemma {:induction false} MatchEntries(es: seq<Entry<Term>>, fs: seq<Entry<Term>>, r: seq<Byte>,
      s: seq<Byte>) returns (p: seq<nat>)
    requires EntriesFit(es) && EntriesFit(fs) && |es| == |fs|
    requires MapBytes(EntryPrints(es)) + r == MapBytes(EntryPrints(fs)) + s
    ensures r == s && IsPermutation(p, |es|)
    ensures forall i :: 0 <= i < |es| ==> EntryEncoding(es[i]) == EntryEncoding(fs[p[i]])
  {
    var ps, qs := EntryPrints(es), EntryPrints(fs);
    SortSorts(ps);
    SortSorts(qs);
    SortedAllComplete(ps);
    SortedAllComplete(qs);
    assert |Sort(ps)| == |multiset(ps)| == |Sort(qs)| by {
      assert |Sort(ps)| == |multiset(Sort(ps))| && |Sort(qs)| == |multiset(Sort(qs))|;
    }
    PrintsPrefixFree(Sort(ps), Sort(qs), r, s);
    p := MultisetArrangement(ps, qs);
    forall i | 0 <= i < |es| ensures EntryEncoding(es[i]) == EntryEncoding(fs[p[i]]) {
      assert ps[i] == qs[p[i]];
    }
  }

  lemma {:induction false} SortedAllComplete(ps: seq<Print>)
    requires forall i :: 0 <= i < |ps| ==> ps[i].complete
    requires multiset(Sort(ps)) == multiset(ps)
    ensures forall i :: 0 <= i < |Sort(ps)| ==> Sort(ps)[i].complete
  {
    forall i | 0 <= i < |Sort(ps)| ensures Sort(ps)[i].complete {
      assert Sort(ps)[i] in multiset(Sort(ps));
      assert Sort(ps)[i] in ps;
    }
  }
}
