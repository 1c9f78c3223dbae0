/** A program in which two equal maps are reported as different. */
module TiedKeys {
  import opened Bytes
  import opened Values
  import opened Options
  import opened KeyOrder
  import opened Fingerprints
  import opened FingerprintDecodes
  import opened HeapContents
  import opened Meters
  import opened DiffValues
  import opened DiffUnits
  import opened DiffReports
  import opened DiffPaths
  import opened StructuralDiffs

  const TEXT: TypeId := 1
  const TABLE: TypeId := 2

  /** Two types declared under one name, in two functions of one package. */
  const HERE: TypeId := 3
  const THERE: TypeId := 4
  const NAME := TypeName([84], [112])

  const KIND_INT: Byte := 2

  /** More bytes than a fingerprint holds. */
  function Long(): seq<Byte> {
    seq(MAX_BYTES + 1, _ => 120)
  }

  function KeyOfType(ty: TypeId): GoKey {
    GoKey(InterfaceKey(NAME, IntKey(KIND_INT, 1)), [ty])
  }

  function Rows(): seq<Pair> {
    [Pair(KeyOfType(HERE), Plain(TEXT, Str(Long()))), Pair(KeyOfType(THERE), Plain(TEXT, Str(Long())))]
  }

  function TableAt(addr: nat): Val {
    Map(TABLE, addr, Rows())
  }

  function Program(): World {
    World(
      (ty: TypeId) => if ty == TABLE then MapForm(MapShape(InterfaceKeyType, TEXT)) else PlainForm,
      (r: RefId) => TableAt(r.addr),
      (n: TypeName) => ScalarKeyType(KIND_INT),
      Facts((ty: TypeId) => false, (ty: TypeId, i: nat) => false),
      Types((ty: TypeId) => ScalarType(KIND_STRING), (ty: TypeId) => NAME),
      map[])
  }

  lemma {:induction false} ChunksAreLong(s: seq<Byte>)
    ensures |Flat(StringChunks(s))| >= |s|
  {
    if s != [] {
      var chunk: seq<Byte> := if s[0] == 0 then [0, 0xFF] else [s[0]];
      ChunksAreLong(s[1..]);
      FlatConcat([chunk], StringChunks(s[1..]));
      var one := [chunk];
      assert one[1..] == [] && one[0] == chunk;
      assert Flat([chunk]) == chunk + [];
    }
  }

  lemma {:induction false} LongText(s: seq<Byte>)
    ensures Fits(TLeaf(Str(s))) && |Encoding(TLeaf(Str(s)))| >= |s|
  {
    var t := TLeaf(Str(s));
    var tag: seq<seq<Byte>> := [[KIND_STRING + 1]];
    ChunksAreLong(s);
    FlatConcat(tag, StringChunks(s));
    assert Header(t) == tag + StringChunks(s);
  }

  /** No allowance shows all of a long string. */
  lemma {:induction false} LongIsCut(s: seq<Byte>, a: nat)
    requires |s| > MAX_BYTES
    ensures Fits(TLeaf(Str(s))) && Computed(TLeaf(Str(s)), a).incomplete
  {
    LongText(s);
    if !Computed(TLeaf(Str(s)), a).incomplete { CompleteIsWhole(TLeaf(Str(s)), Start(MAX_BYTES, a)); }
    hide Encoding;
  }

  lemma {:induction false} RowsSound()
    ensures PairsSound(Program(), Rows(), MapShape(InterfaceKeyType, TEXT))
  {
    var w, ps := Program(), Rows();
    assert HeapTyped(w.ts, w.heap);
    forall i | 0 <= i < |ps| ensures PairSound(w, ps[i], MapShape(InterfaceKeyType, TEXT)) {
      assert ps[i].val == Plain(TEXT, Str(Long()));
      assert Face(ps[i].val) == Leaf(Str(Long()));
      assert KeyHasType(w.named, IntKey(KIND_INT, 1), ScalarKeyType(KIND_INT));
    }
  }

  lemma {:induction false} TableSound(addr: nat)
    requires addr != 0
    ensures Sound(Program(), TableAt(addr))
  {
    RowsSound();
    hide PairsSound;
  }

  lemma {:induction false} KeysDiffer()
    ensures CompareKeys(KeyOfType(HERE).key, KeyOfType(THERE).key) == 0
    ensures KeyEqual(KeyOfType(HERE), KeyOfType(HERE)) && KeyEqual(KeyOfType(THERE), KeyOfType(THERE))
    ensures !KeyEqual(KeyOfType(THERE), KeyOfType(HERE))
  {
    assert KeyOfType(HERE).types[0] != KeyOfType(THERE).types[0];
    assert KeyHasType(Program().named, IntKey(KIND_INT, 1), ScalarKeyType(KIND_INT));
    CompareKeysAntisymmetric(Program().named, KeyOfType(HERE).key, KeyOfType(HERE).key, InterfaceKeyType);
  }

  lemma {:induction false} RowsFound()
    ensures AllFound(Rows(), Rows())
  {
    KeysDiffer();
    var ps := Rows();
    assert ps[1..][0] == ps[1];
    assert Lookup(ps, ps[0].key) == Some(ps[0].val);
    assert Lookup(ps[1..], ps[1].key) == Some(ps[1].val);
    assert Lookup(ps, ps[1].key) == Some(ps[1].val);
  }

  /** The two rows are alike, whatever the share. */
  lemma {:induction false} RowsAlike(a: nat)
    ensures AnyAlike(Program(), TEXT, Rows(), a)
  {
    var w, ps := Program(), Rows();
    KeysDiffer();
    RowsSound();
    LongIsCut(Long(), a);
    assert PairSound(w, ps[0], MapShape(InterfaceKeyType, TEXT));
    assert PairSound(w, ps[1], MapShape(InterfaceKeyType, TEXT));
    assert Face(ps[0].val) == Face(ps[1].val) == Leaf(Str(Long()));
    assert Seen(w.ts, w.heap, Leaf(Str(Long()))) == TLeaf(Str(Long()));
    hide CompareKeys, Computed, Long;
    assert Alike(w, TEXT, ps[0], ps[1], a);
  }

  /** Two tables with two rows each, deeply equal, whose keys are the number 1 in
      types of one name, are reported as different. */
  method NamesakeKeysReported() returns (w: World, a: Val, b: Val, entries: seq<Detail>)
    ensures Sound(w, a) && Sound(w, b) && DeepEqual(a, b) && entries != []
  {
    w, a, b := Program(), TableAt(1), TableAt(2);
    TableSound(1);
    TableSound(2);
    RowsFound();
    assert NewEqualMaps(map[], a, b);
    hide *;
    ghost var log;
    entries, log := EqualMaps(w, a, b);
    RowsAlike(FirstShare(a));
    TheTable();
  }

  lemma {:induction false} TheTable()
    ensures TableAt(1).pairs == Rows() && TableAt(1).ty == TABLE
    ensures Program().form(TABLE) == MapForm(MapShape(InterfaceKeyType, TEXT))
  {
  }
}
