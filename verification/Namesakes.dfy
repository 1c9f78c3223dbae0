/** Types that are spelled alike. A fingerprint knows a dynamic type by its
    String and its package path only, which two types may share: []a/p.T and
    []b/p.T, or types of one name declared in two functions. */
module Namesakes {
  import opened Bytes
  import opened Values
  import opened Fingerprints
  import opened FingerprintLaws
  import opened FingerprintDecodes
  import opened FingerprintReadings
  import opened Permutations
  import Sequences

  // ---- The dynamic types that occur in a value ----

  ghost function Boxes(t: Term): set<Box>
    decreases t, 0
  {
    match t
    case TBox(b, e) => (if b.Dynamic? then {b} else {}) + Boxes(e)
    case TList(_, es) => BoxesAll(es)
    case TMap(es) => BoxesEntries(es)
    case _ => {}
  }

  ghost function BoxesAll(ts: seq<Term>): set<Box>
    decreases ts, 0
  {
    if ts == [] then {} else Boxes(ts[0]) + BoxesAll(ts[1..])
  }

  ghost function BoxesEntry(e: Entry<Term>): set<Box>
    decreases e, 0
  {
    Boxes(e.key) + Boxes(e.val)
  }

  ghost function BoxesEntries(es: seq<Entry<Term>>): set<Box>
    decreases es, 0
  {
    if es == [] then {} else BoxesEntry(es[0]) + BoxesEntries(es[1..])
  }

  /** No type of the one set is spelled like another type of the other. */
  ghost predicate Apart(d: set<Box>, e: set<Box>) {
    forall b, c :: b in d && c in e && b.Dynamic? && c.Dynamic? && b.name == c.name ==> b.dyn == c.dyn
  }

  lemma {:induction false} BoxesAllConcat(a: seq<Term>, b: seq<Term>)
    ensures BoxesAll(a + b) == BoxesAll(a) + BoxesAll(b)
  {
    if a == [] {
      assert a + b == b;
    } else {
      assert (a + b)[1..] == a[1..] + b;
      BoxesAllConcat(a[1..], b);
      hide Boxes;
    }
  }

  lemma {:induction false} EntryBoxes(es: seq<Entry<Term>>, i: nat)
    requires i < |es|
    ensures BoxesEntry(es[i]) <= BoxesEntries(es)
  {
    if i > 0 { EntryBoxes(es[1..], i - 1); }
    hide BoxesEntry;
  }

  lemma {:induction false} PairBoxes(e: Entry<Term>)
    ensures BoxesAll([e.key, e.val]) == BoxesEntry(e)
  {
    assert [e.key, e.val][1..] == [e.val] && [e.val][1..] == [];
    assert BoxesAll([e.val]) == Boxes(e.val) + BoxesAll([]);
    hide Boxes;
  }

  /** The types in what is left to read occur in the list. */
  lemma {:induction false} FewerBoxes(ts: seq<Term>)
    requires ts != []
    ensures BoxesAll(Parts(ts[0]) + ts[1..]) <= BoxesAll(ts) && BoxesAll(ts[1..]) <= BoxesAll(ts)
    ensures ts[0].TMap? ==> BoxesEntries(ts[0].entries) <= BoxesAll(ts)
    ensures ts[0].TBox? && ts[0].box.Dynamic? ==> ts[0].box in BoxesAll(ts)
  {
    var t := ts[0];
    BoxesAllConcat(Parts(t), ts[1..]);
    if t.TBox? {
      assert [t.elem][1..] == [];
      assert BoxesAll([t.elem]) == Boxes(t.elem) + BoxesAll([]);
    }
  }

  // ---- Spelling is enough for types that are spelled apart ----

  lemma {:induction false} SpelledMark(t: Term, u: Term, d: set<Box>, e: set<Box>)
    requires Apart(d, e) && Mark(BySpelling, t) == Mark(BySpelling, u)
    requires t.TBox? && t.box.Dynamic? ==> t.box in d
    requires u.TBox? && u.box.Dynamic? ==> u.box in e
    ensures Mark(ByType, t) == Mark(ByType, u) && (t.TMap? <==> u.TMap?)
    ensures t.TMap? ==> |t.entries| == |u.entries|
  {
  }

  lemma {:induction false} SpelledReading(ts: seq<Term>, us: seq<Term>, d: set<Box>, e: set<Box>, w: nat)
    requires Apart(d, e) && BoxesAll(ts) <= d && BoxesAll(us) <= e && Weights(ts) <= w
    requires ReadAll(BySpelling, ts) == ReadAll(BySpelling, us)
    ensures ReadAll(ByType, ts) == ReadAll(ByType, us)
    decreases w, 3
  {
    hide *;
    ReadNothing(ts);
    ReadNothing(us);
    if ts != [] && us != [] {
      var t, u := ts[0], us[0];
      ReadFront(BySpelling, ts);
      ReadFront(BySpelling, us);
      ReadFront(ByType, ts);
      ReadFront(ByType, us);
      OneThenRest(Mark(BySpelling, t), ReadBehind(BySpelling, t, ts[1..]), Mark(BySpelling, u),
        ReadBehind(BySpelling, u, us[1..]));
      Lighter(ts);
      FewerBoxes(ts);
      FewerBoxes(us);
      SpelledMark(t, u, d, e);
      SpelledRest(t, ts[1..], u, us[1..], d, e, w);
    }
  }

  lemma {:induction false} ReadNothing(ts: seq<Term>)
    ensures ReadAll(BySpelling, ts) == [] <==> ts == []
    ensures ts == [] ==> ReadAll(ByType, ts) == []
  {
    if ts != [] { ReadFront(BySpelling, ts); }
    hide ReadBehind;
  }

  lemma {:induction false} SpelledRest(t: Term, ts: seq<Term>, u: Term, us: seq<Term>, d: set<Box>, e: set<Box>, w: nat)
    requires Apart(d, e) && (t.TMap? <==> u.TMap?) && (t.TMap? ==> |t.entries| == |u.entries|)
    requires BoxesAll(Parts(t) + ts) <= d && BoxesAll(ts) <= d && (t.TMap? ==> BoxesEntries(t.entries) <= d)
    requires BoxesAll(Parts(u) + us) <= e && BoxesAll(us) <= e && (u.TMap? ==> BoxesEntries(u.entries) <= e)
    requires Weights(Parts(t) + ts) < w && Weights(ts) < w && (t.TMap? ==> EntryWeights(t.entries) < w)
    requires ReadBehind(BySpelling, t, ts) == ReadBehind(BySpelling, u, us)
    ensures ReadBehind(ByType, t, ts) == ReadBehind(ByType, u, us)
    decreases w, 2
  {
    BehindIs(BySpelling, t, ts);
    BehindIs(BySpelling, u, us);
    BehindIs(ByType, t, ts);
    BehindIs(ByType, u, us);
    hide *;
    if t.TMap? {
      var es, fs := t.entries, u.entries;
      OneThenRest(EntriesMark(multiset(ReadEntries(BySpelling, es))), ReadAll(BySpelling, ts),
                  EntriesMark(multiset(ReadEntries(BySpelling, fs))), ReadAll(BySpelling, us));
      SpelledEntries(es, fs, d, e, w);
      SpelledReading(ts, us, d, e, w - 1);
    } else {
      SpelledReading(Parts(t) + ts, Parts(u) + us, d, e, w - 1);
    }
  }

  lemma {:induction false} BehindIs(tell: Telling, t: Term, rest: seq<Term>)
    ensures t.TMap? ==>
              ReadBehind(tell, t, rest) == [EntriesMark(multiset(ReadEntries(tell, t.entries)))] + ReadAll(tell, rest)
    ensures !t.TMap? ==> ReadBehind(tell, t, rest) == ReadAll(tell, Parts(t) + rest)
  {
  }

  lemma {:induction false} SpelledEntries(es: seq<Entry<Term>>, fs: seq<Entry<Term>>, d: set<Box>, e: set<Box>, w: nat)
    requires Apart(d, e) && BoxesEntries(es) <= d && BoxesEntries(fs) <= e && EntryWeights(es) < w
    requires multiset(ReadEntries(BySpelling, es)) == multiset(ReadEntries(BySpelling, fs))
    ensures multiset(ReadEntries(ByType, es)) == multiset(ReadEntries(ByType, fs))
    decreases w, 1
  {
    var a, b := ReadEntries(BySpelling, es), ReadEntries(BySpelling, fs);
    hide *;
    var p := MultisetArrangement(a, b);
    MatchesIs(a, b, p);
    forall i | 0 <= i < |es| ensures ReadEntries(ByType, es)[i] == ReadEntries(ByType, fs)[p[i]] {
      assert a[i] == b[p[i]];
      EntryLighter(es, i);
      EntryBoxes(es, i);
      EntryBoxes(fs, p[i]);
      SpelledEntry(es[i], fs[p[i]], d, e, w);
    }
    SameElements(ReadEntries(ByType, es), ReadEntries(ByType, fs), p);
  }

  lemma {:induction false} SpelledEntry(x: Entry<Term>, y: Entry<Term>, d: set<Box>, e: set<Box>, w: nat)
    requires Apart(d, e) && BoxesEntry(x) <= d && BoxesEntry(y) <= e && EntryWeight(x) < w
    requires ReadEntry(BySpelling, x) == ReadEntry(BySpelling, y)
    ensures ReadEntry(ByType, x) == ReadEntry(ByType, y)
    decreases w, 0
  {
    hide *;
    PairReading(BySpelling, x);
    PairReading(BySpelling, y);
    PairReading(ByType, x);
    PairReading(ByType, y);
    PairWeights(x);
    PairBoxes(x);
    PairBoxes(y);
    SpelledReading([x.key, x.val], [y.key, y.val], d, e, EntryWeight(x));
  }

  // ---- What complete fingerprints decide ----

  /** The values read alike by the spelling of their dynamic types, but not by
      the types themselves: somewhere, two types spelled alike stand at the
      same place. */
  ghost predicate NamesakesMeet(t: Term, u: Term) {
    Read(BySpelling, t) == Read(BySpelling, u) && Read(ByType, t) != Read(ByType, u)
  }

  lemma {:induction false} OneReading(tell: Telling, t: Term)
    ensures ReadAll(tell, [t]) == Read(tell, t)
  {
    assert [t][1..] == [];
    Sequences.NothingAdded(Read(tell, t));
    hide Read;
  }

  lemma {:induction false} OneValue(t: Term)
    requires Fits(t) && Kinded(t)
    ensures AllFit([t]) && AllKinded([t]) && EncodingAll([t]) == Encoding(t) && BoxesAll([t]) == Boxes(t)
  {
    assert [t][1..] == [];
    Sequences.NothingAdded(Encoding(t));
    hide Encoding, Fits, Kinded, Boxes;
  }

  lemma {:induction false} OneBox(t: Term)
    ensures BoxesAll([t]) == Boxes(t)
  {
    assert [t][1..] == [];
    hide Boxes;
  }

  /** Complete fingerprints of any two values are equal exactly when the values
      read alike by spelling, whatever allowances they were given; nothing in
      the values was too deep or too many to be seen. */
  lemma {:induction false} PrintsAreReadings(t: Term, u: Term, a: nat, b: nat)
    requires Fits(t) && Kinded(t) && Fits(u) && Kinded(u)
    requires !Computed(t, a).incomplete && !Computed(u, b).incomplete
    ensures Whole(t) && Whole(u)
    ensures Computed(t, a).buf == Computed(u, b).buf <==> Read(BySpelling, t) == Read(BySpelling, u)
  {
    hide *;
    CompleteIsEncoding(t, a);
    CompleteIsEncoding(u, b);
    OneValue(t);
    OneValue(u);
    OneReading(BySpelling, t);
    OneReading(BySpelling, u);
    ReadingIsEncoding([t], [u], Weights([t]));
  }

  lemma {:induction false} CompleteIsEncoding(t: Term, a: nat)
    requires Fits(t) && !Computed(t, a).incomplete
    ensures Whole(t) && Computed(t, a).buf == Encoding(t)
  {
    hide Fingerprint, Encoding, Whole;
    CompleteIsWhole(t, Start(MAX_BYTES, a));
    Sequences.NothingAdded(Encoding(t));
  }

  /** Between complete fingerprints of values of one type, equal bytes mean
      equal content unless namesakes meet, and then they do not; and namesakes
      meet only when a type in the one value is spelled like another type in
      the other. */
  lemma {:induction false} CompleteDecidesContent(ts: Types, t: Term, u: Term, ty: TypeId, a: nat, b: nat)
    requires Fits(t) && Fits(u) && HasType(ts, t, ty) && HasType(ts, u, ty)
    requires !Computed(t, a).incomplete && !Computed(u, b).incomplete
    ensures Whole(t) && Whole(u)
    ensures Computed(t, a).buf == Computed(u, b).buf <==> Similar(t, u) || NamesakesMeet(t, u)
    ensures Similar(t, u) ==> !NamesakesMeet(t, u)
    ensures Apart(Boxes(t), Boxes(u)) ==> !NamesakesMeet(t, u)
  {
    TypedIsKinded(ts, t, ty);
    TypedIsKinded(ts, u, ty);
    hide Fits, Computed, HasType, Whole, Read, Kinded, Similar, Apart;
    PrintsAreReadings(t, u, a, b);
    ContentIsTypedReading(ts, t, u, ty);
    if Similar(t, u) { SimilarReads(BySpelling, t, u); }
    if Read(BySpelling, t) == Read(BySpelling, u) && Apart(Boxes(t), Boxes(u)) { SpelledApart(t, u); }
  }

  lemma {:induction false} SpelledApart(t: Term, u: Term)
    requires Apart(Boxes(t), Boxes(u)) && Read(BySpelling, t) == Read(BySpelling, u)
    ensures Read(ByType, t) == Read(ByType, u)
  {
    hide *;
    OneReading(BySpelling, t);
    OneReading(BySpelling, u);
    OneReading(ByType, t);
    OneReading(ByType, u);
    OneBox(t);
    OneBox(u);
    SpelledReading([t], [u], Boxes(t), Boxes(u), Weights([t]));
  }

  // ---- Namesakes do meet ----

  /** No maps, and nothing too deep to be seen. */
  predicate MapFree(t: Term)
    decreases t, 0
  {
    match t
    case TDepthCut => false
    case TBox(_, e) => MapFree(e)
    case TList(_, es) => AllMapFree(es)
    case TMap(_) => false
    case _ => true
  }

  predicate AllMapFree(es: seq<Term>)
    decreases es, 0
  {
    forall i :: 0 <= i < |es| ==> MapFree(es[i])
  }

  lemma {:induction false} WriteAllFits(s: State, chunks: seq<seq<Byte>>)
    requires !s.full && |s.buf| + |Flat(chunks)| <= s.max
    ensures WriteAll(s, chunks) == s.(buf := s.buf + Flat(chunks))
    decreases chunks
  {
    if chunks != [] {
      WriteAllFits(Write(s, chunks[0]), chunks[1..]);
      Assoc(s.buf, chunks[0], Flat(chunks[1..]));
    }
  }

  /** What s has become once n nodes and their text are written. */
  function Wrote(s: State, text: seq<Byte>, n: nat): State
    requires |s.buf| + |text| <= s.max && n <= s.left
  {
    s.(buf := s.buf + text, left := s.left - n)
  }

  /** A value without maps is written whole when there are bytes and nodes for
      it, one node each. */
  lemma {:induction false} SmallIsComplete(t: Term, s: State)
    requires Fits(t) && MapFree(t) && !s.full && Weight(t) <= s.left && |s.buf| + |Encoding(t)| <= s.max
    ensures Fingerprint(t, s) == Wrote(s, Encoding(t), Weight(t))
    decreases Weight(t), 0
  {
    var head := Flat(Header(t));
    EncodingParts(t);
    SmallParts(t);
    PartsRead(t, s);
    hide Header, Flat, Encoding, EncodingAll, Fingerprint, FingerprintAll, Fits, MapFree, Weight, Weights, Entered;
    SmallHead(t, s);
    SmallAreComplete(Parts(t), Wrote(s, head, 1));
    WroteTwice(s, head, 1, EncodingAll(Parts(t)), Weights(Parts(t)));
  }

  lemma {:induction false} WroteTwice(s: State, a: seq<Byte>, m: nat, b: seq<Byte>, n: nat)
    requires |s.buf| + |a| + |b| <= s.max && m + n <= s.left
    ensures |a + b| == |a| + |b| && Wrote(Wrote(s, a, m), b, n) == Wrote(s, a + b, m + n)
  {
    Assoc(s.buf, a, b);
  }

  lemma {:induction false} SmallParts(t: Term)
    requires Fits(t) && MapFree(t)
    ensures AllFit(Parts(t)) && AllMapFree(Parts(t)) && Weight(t) == 1 + Weights(Parts(t)) && !t.TMap?
  {
    if t.TBox? { assert [t.elem][1..] == []; }
  }

  lemma {:induction false} SmallHead(t: Term, s: State)
    requires Fits(t) && !t.TDepthCut? && !s.full && s.left > 0 && |s.buf| + |Flat(Header(t))| <= s.max
    ensures Entered(t, s) == Wrote(s, Flat(Header(t)), 1)
  {
    hide Flat, Header, WriteAll;
    WriteAllFits(s.(left := s.left - 1), Header(t));
  }

  /** A value without maps is its head and then its parts. */
  lemma {:induction false} PartsRead(t: Term, s: State)
    requires Fits(t) && MapFree(t) && !s.full && s.left > 0
    ensures AllFit(Parts(t)) && Fingerprint(t, s) == FingerprintAll(Parts(t), Entered(t, s))
  {
    SmallParts(t);
    NoMoreParts(Entered(t, s));
    if t.TBox? { OnePart(t.elem, Entered(t, s)); }
    hide Entered, MapFree, FingerprintAll;
  }

  lemma {:induction false} NoMoreParts(s: State)
    ensures FingerprintAll([], s) == s
  {
  }

  lemma {:induction false} OnePart(e: Term, s: State)
    requires Fits(e)
    ensures AllFit([e]) && FingerprintAll([e], s) == Fingerprint(e, s)
  {
    assert [e][1..] == [];
    if !s.full { NoMoreParts(Fingerprint(e, s)); }
  }

  lemma {:induction false} SmallAreComplete(es: seq<Term>, s: State)
    requires AllFit(es) && AllMapFree(es) && !s.full && Weights(es) <= s.left && |s.buf| + |EncodingAll(es)| <= s.max
    ensures FingerprintAll(es, s) == Wrote(s, EncodingAll(es), Weights(es))
    decreases Weights(es), 1
  {
    if es == [] {
      Sequences.NothingAdded(s.buf);
    } else {
      SmallIsComplete(es[0], s);
      SmallAreComplete(es[1..], Wrote(s, Encoding(es[0]), Weight(es[0])));
      Assoc(s.buf, Encoding(es[0]), EncodingAll(es[1..]));
    }
  }

  /** The room that a name takes with its kind, tag and terminators. */
  function NameSize(name: TypeName): nat {
    2 + |Escaped(name.text)| + |Escaped(name.pkg)|
  }

  lemma {:induction false} BoxSize(name: TypeName, dyn: TypeId, e: Term)
    requires Fits(e)
    ensures |Encoding(TBox(Dynamic(name, dyn), e))| == NameSize(name) + |Encoding(e)|
  {
    EncodingParts(TBox(Dynamic(name, dyn), e));
    DynamicHeader(name);
    assert EncodingAll([e]) == Encoding(e) by {
      assert [e][1..] == [];
      Sequences.NothingAdded(Encoding(e));
    }
    hide Encoding, Flat, StringChunks;
  }

  lemma {:induction false} NilSize(r: RefKind)
    ensures |Encoding(TLeaf(NilRef(r)))| == 2
  {
    ScalarChunksFlat(NilRef(r));
    EncodingParts(TLeaf(NilRef(r)));
  }

  /** Nil slices of two types spelled alike, as []a/p.T and []b/p.T are, have one
      complete fingerprint wherever the spelling fits. */
  lemma {:induction false} NamesakesCollide(ts: Types, ty: TypeId, a: TypeId, b: TypeId, allowance: nat)
    requires a != b && ts.names(a) == ts.names(b) && NameSize(ts.names(a)) + 2 <= MAX_BYTES && allowance >= 2
    requires ts.def(ty).InterfaceType? && ts.def(a).SliceType? && ts.def(b).SliceType?
    ensures var nothing := TLeaf(NilRef(SliceRef));
            var t, u := TBox(Dynamic(ts.names(a), a), nothing), TBox(Dynamic(ts.names(b), b), nothing);
            && HasType(ts, t, ty) && HasType(ts, u, ty) && Fits(t) && Fits(u)
            && !Similar(t, u) && NamesakesMeet(t, u)
            && Computed(t, allowance) == Computed(u, allowance) && !Computed(t, allowance).incomplete
  {
    var name, nothing := ts.names(a), TLeaf(NilRef(SliceRef));
    var t, u := TBox(Dynamic(name, a), nothing), TBox(Dynamic(name, b), nothing);
    NilSize(SliceRef);
    BoxSize(name, a, nothing);
    BoxSize(name, b, nothing);
    assert Weight(nothing) == 1 && Weight(t) == Weight(u) == 2;
    assert Read(BySpelling, t) == [BoxMark(name, 0)] + Read(BySpelling, nothing) == Read(BySpelling, u);
    assert Read(ByType, t)[0] == BoxMark(name, a) && Read(ByType, u)[0] == BoxMark(name, b);
    assert Header(t) == Header(u) && Encoding(t) == Encoding(u);
    NamesakesDiffer(t, u);
    hide *;
    SmallIsComplete(t, Start(MAX_BYTES, allowance));
    SmallIsComplete(u, Start(MAX_BYTES, allowance));
  }

  lemma {:induction false} NamesakesDiffer(t: Term, u: Term)
    requires Read(ByType, t) != Read(ByType, u)
    ensures !Similar(t, u)
  {
    hide *;
    if Similar(t, u) { SimilarReads(ByType, t, u); }
  }

  // ---- Namesakes with different fields ----

  /** a and b are declared under one name in two functions: a has a flag, b a
      flag and an interface. */
  ghost predicate LocalTypes(ts: Types, ty: TypeId, a: TypeId, b: TypeId, flag: TypeId, any: TypeId) {
    && ts.names(a) == ts.names(b) && ts.def(flag) == ScalarType(KIND_BOOL) && ts.def(any) == InterfaceType
    && ts.def(a) == StructType([flag]) && ts.def(b) == StructType([flag, any]) && ts.def(ty) == StructType([any, any])
  }

  const NIL := TLeaf(NilInterface)

  function StructOf(fields: seq<Term>): Term {
    TList(StructShape, fields)
  }

  function OfA(ts: Types, a: TypeId, flag: bool): Term {
    TBox(Dynamic(ts.names(a), a), StructOf([TLeaf(Bool(flag))]))
  }

  function OfB(ts: Types, b: TypeId, flag: bool, more: Term): Term {
    TBox(Dynamic(ts.names(b), b), StructOf([TLeaf(Bool(flag)), more]))
  }

  /** Small enough to be written whole, wherever it fits. */
  predicate Plain(t: Term) {
    Fits(t) && Kinded(t) && MapFree(t)
  }

  predicate AllPlain(ts: seq<Term>) {
    AllFit(ts) && AllKinded(ts) && AllMapFree(ts)
  }

  lemma {:induction false} OneField(x: Term)
    requires Plain(x)
    ensures AllPlain([x]) && EncodingAll([x]) == Encoding(x) && Weights([x]) == Weight(x)
    ensures forall tell :: ReadAll(tell, [x]) == Read(tell, x)
  {
    assert [x][1..] == [];
    Sequences.NothingAdded(Encoding(x));
    forall tell ensures ReadAll(tell, [x]) == Read(tell, x) { OneReading(tell, x); }
    hide Encoding, Weight, Read, ReadAll;
  }

  lemma {:induction false} TwoFields(x: Term, y: Term)
    requires Plain(x) && Plain(y)
    ensures AllPlain([x, y]) && EncodingAll([x, y]) == Encoding(x) + Encoding(y)
    ensures Weights([x, y]) == Weight(x) + Weight(y)
    ensures forall tell :: ReadAll(tell, [x, y]) == Read(tell, x) + Read(tell, y)
  {
    assert [x, y][1..] == [y];
    OneField(y);
    hide Encoding, Weight, Read, Fits, MapFree, Kinded;
  }

  lemma {:induction false} StructParts(fields: seq<Term>)
    requires AllPlain(fields)
    ensures var t := StructOf(fields);
            && Plain(t) && Weight(t) == 1 + Weights(fields) && |Encoding(t)| == 1 + |EncodingAll(fields)|
    ensures forall tell :: Read(tell, StructOf(fields)) == [StructMark] + ReadAll(tell, fields)
  {
    EncodingParts(StructOf(fields));
    FlatOne([KIND_STRUCT + 1]);
  }

  lemma {:induction false} FlagParts(v: bool)
    ensures var t := TLeaf(Bool(v));
            Plain(t) && Weight(t) == 1 && |Encoding(t)| == 2
    ensures forall tell :: Read(tell, TLeaf(Bool(v))) == [ScalarMark(Bool(v))]
  {
    ScalarChunksFlat(Bool(v));
    EncodingParts(TLeaf(Bool(v)));
  }

  lemma {:induction false} NilParts()
    ensures Plain(NIL) && Weight(NIL) == 1 && |Encoding(NIL)| == 2
    ensures forall tell :: Read(tell, NIL) == [ScalarMark(NilInterface)]
  {
    ScalarChunksFlat(NilInterface);
    EncodingParts(NIL);
  }

  lemma {:induction false} BoxParts(name: TypeName, dyn: TypeId, e: Term)
    requires Plain(e)
    ensures var t := TBox(Dynamic(name, dyn), e);
            Plain(t) && Weight(t) == 1 + Weight(e) && |Encoding(t)| == NameSize(name) + |Encoding(e)|
    ensures forall tell :: Read(tell, TBox(Dynamic(name, dyn), e)) == [BoxMark(name, tell(dyn))] + Read(tell, e)
  {
    BoxSize(name, dyn, e);
    hide NameSize, Encoding;
  }

  lemma {:induction false} OfAParts(ts: Types, a: TypeId, v: bool)
    ensures var t := OfA(ts, a, v);
            Plain(t) && Weight(t) == 3 && |Encoding(t)| == NameSize(ts.names(a)) + 3
    ensures forall tell ::
              Read(tell, OfA(ts, a, v)) == [BoxMark(ts.names(a), tell(a))] + ([StructMark] + [ScalarMark(Bool(v))])
  {
    var x := TLeaf(Bool(v));
    assert OfA(ts, a, v) == TBox(Dynamic(ts.names(a), a), StructOf([x]));
    hide *;
    FlagParts(v);
    OneField(x);
    StructParts([x]);
    BoxParts(ts.names(a), a, StructOf([x]));
  }

  lemma {:induction false} OfBParts(ts: Types, b: TypeId, v: bool, more: Term)
    requires Plain(more)
    ensures var t := OfB(ts, b, v, more);
            && Plain(t) && Weight(t) == 3 + Weight(more)
            && |Encoding(t)| == NameSize(ts.names(b)) + 3 + |Encoding(more)|
    ensures forall tell :: Read(tell, OfB(ts, b, v, more)) ==
              [BoxMark(ts.names(b), tell(b))] + ([StructMark] + ([ScalarMark(Bool(v))] + Read(tell, more)))
  {
    var x := TLeaf(Bool(v));
    assert OfB(ts, b, v, more) == TBox(Dynamic(ts.names(b), b), StructOf([x, more]));
    hide *;
    FlagParts(v);
    TwoFields(x, more);
    StructParts([x, more]);
    BoxParts(ts.names(b), b, StructOf([x, more]));
  }

  /** Values with namesakes need not even have the same shape to share a complete
      fingerprint, because nothing marks the end of a struct: here one's second
      field holds a value and the other's is nil. */
  lemma {:induction false} NamesakesNest(
      ts: Types, ty: TypeId, a: TypeId, b: TypeId, flag: TypeId, any: TypeId, allowance: nat)
    requires LocalTypes(ts, ty, a, b, flag, any) && 2 * NameSize(ts.names(a)) + 9 <= MAX_BYTES && allowance >= 8
    ensures var t := StructOf([OfA(ts, a, true), OfB(ts, b, false, NIL)]);
            var u := StructOf([OfB(ts, b, true, OfA(ts, a, false)), NIL]);
            && HasType(ts, t, ty) && HasType(ts, u, ty) && Fits(t) && Fits(u)
            && t.elems[1].TBox? && u.elems[1] == NIL && !Similar(t, u) && NamesakesMeet(t, u)
            && Computed(t, allowance) == Computed(u, allowance) && !Computed(t, allowance).incomplete
  {
    var t := StructOf([OfA(ts, a, true), OfB(ts, b, false, NIL)]);
    var u := StructOf([OfB(ts, b, true, OfA(ts, a, false)), NIL]);
    NestTyped(ts, ty, a, b, flag, any);
    NestParts(ts, ty, a, b, flag, any);
    assert t.elems[1].TBox? && u.elems[1] == NIL;
    assert Read(ByType, t)[1] != Read(ByType, u)[1];
    hide *;
    NamesakesDiffer(t, u);
    SmallSame(t, u, allowance);
  }

  lemma {:induction false} NestTyped(ts: Types, ty: TypeId, a: TypeId, b: TypeId, flag: TypeId, any: TypeId)
    requires LocalTypes(ts, ty, a, b, flag, any)
    ensures HasType(ts, StructOf([OfA(ts, a, true), OfB(ts, b, false, NIL)]), ty)
    ensures HasType(ts, StructOf([OfB(ts, b, true, OfA(ts, a, false)), NIL]), ty)
  {
    var x, y := TLeaf(Bool(true)), TLeaf(Bool(false));
    assert HasType(ts, x, flag) && HasType(ts, y, flag) && HasType(ts, NIL, any);
    assert HaveTypes(ts, [x], [flag]) && HaveTypes(ts, [y], [flag]) && HaveTypes(ts, [y, NIL], [flag, any]);
    assert HasType(ts, StructOf([x]), a) && HasType(ts, StructOf([y]), a) && HasType(ts, StructOf([y, NIL]), b);
    assert HasType(ts, OfA(ts, a, true), any) && HasType(ts, OfA(ts, a, false), any) &&
              HasType(ts, OfB(ts, b, false, NIL), any);
    assert HaveTypes(ts, [x, OfA(ts, a, false)], [flag, any]);
    assert HasType(ts, StructOf([x, OfA(ts, a, false)]), b);
    assert HasType(ts, OfB(ts, b, true, OfA(ts, a, false)), any);
    hide HasType, OfA, OfB;
    assert HaveTypes(ts, [OfA(ts, a, true), OfB(ts, b, false, NIL)], [any, any]);
    assert HaveTypes(ts, [OfB(ts, b, true, OfA(ts, a, false)), NIL], [any, any]);
    StructTyped(ts, [OfA(ts, a, true), OfB(ts, b, false, NIL)], ty, [any, any]);
    StructTyped(ts, [OfB(ts, b, true, OfA(ts, a, false)), NIL], ty, [any, any]);
  }

  lemma {:induction false} StructTyped(ts: Types, fields: seq<Term>, ty: TypeId, tys: seq<TypeId>)
    requires ts.def(ty) == StructType(tys) && HaveTypes(ts, fields, tys)
    ensures HasType(ts, StructOf(fields), ty)
  {
    hide HaveTypes;
  }

  lemma {:induction false} NestParts(ts: Types, ty: TypeId, a: TypeId, b: TypeId, flag: TypeId, any: TypeId)
    requires LocalTypes(ts, ty, a, b, flag, any)
    ensures var t := StructOf([OfA(ts, a, true), OfB(ts, b, false, NIL)]);
            var u := StructOf([OfB(ts, b, true, OfA(ts, a, false)), NIL]);
            && Plain(t) && Weight(t) == 8 && |Encoding(t)| == 2 * NameSize(ts.names(a)) + 9
            && Plain(u) && Weight(u) == 8 && Read(BySpelling, t) == Read(BySpelling, u)
            && |Read(ByType, t)| > 1 && Read(ByType, t)[1] == BoxMark(ts.names(a), a)
            && |Read(ByType, u)| > 1 && Read(ByType, u)[1] == BoxMark(ts.names(a), b)
  {
    var p, q, x := OfA(ts, a, true), OfB(ts, b, false, NIL), OfB(ts, b, true, OfA(ts, a, false));
    var name := ts.names(a);
    assert name == ts.names(b) && BySpelling(a) == BySpelling(b) && ByType(a) == a && ByType(b) == b;
    hide *;
    NilParts();
    OfAParts(ts, a, true);
    OfAParts(ts, a, false);
    OfBParts(ts, b, false, NIL);
    OfBParts(ts, b, true, OfA(ts, a, false));
    TwoFields(p, q);
    TwoFields(x, NIL);
    StructParts([p, q]);
    StructParts([x, NIL]);
    SameNest(BoxMark(name, BySpelling(a)), ScalarMark(Bool(true)), ScalarMark(Bool(false)), ScalarMark(NilInterface));
    var y := OfA(ts, a, false);
    SecondToken(BoxMark(name, a), [StructMark] + [ScalarMark(Bool(true))], Read(ByType, q));
    SecondToken(BoxMark(name, b), [StructMark] + ([ScalarMark(Bool(true))] + Read(ByType, y)),
      [ScalarMark(NilInterface)]);
  }

  lemma {:induction false} SameNest(b: Token, t: Token, f: Token, n: Token)
    ensures ([b] + ([StructMark] + [t])) + ([b] + ([StructMark] + ([f] + [n])))
         == ([b] + ([StructMark] + ([t] + ([b] + ([StructMark] + [f]))))) + [n]
  {
    var all := [b, StructMark, t, b, StructMark, f, n];
    assert ([b] + ([StructMark] + [t])) + ([b] + ([StructMark] + ([f] + [n]))) == all;
    assert ([b] + ([StructMark] + ([t] + ([b] + ([StructMark] + [f]))))) + [n] == all;
  }

  lemma {:induction false} SecondToken(m: Token, x: seq<Token>, rest: seq<Token>)
    ensures var s := [StructMark] + (([m] + x) + rest);
            |s| > 1 && s[1] == m
  {
  }

  /** Small values that read alike have one complete fingerprint. */
  lemma {:induction false} SmallSame(t: Term, u: Term, allowance: nat)
    requires Plain(t) && Plain(u)
    requires Weight(t) == Weight(u) <= allowance && |Encoding(t)| <= MAX_BYTES
    requires Read(BySpelling, t) == Read(BySpelling, u)
    ensures Computed(t, allowance) == Computed(u, allowance) && !Computed(t, allowance).incomplete
  {
    var s := Start(MAX_BYTES, allowance);
    hide Encoding, Fingerprint, Fits, Kinded, MapFree, Weight, Read;
    OneValue(t);
    OneValue(u);
    OneReading(BySpelling, t);
    OneReading(BySpelling, u);
    ReadingIsEncoding([t], [u], Weights([t]));
    SmallIsComplete(t, s);
    SmallIsComplete(u, s);
  }
}
