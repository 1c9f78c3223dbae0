/** The bounded canonical fingerprint of a value, on the tree a walk sees. */
module Fingerprints {
  import opened Bytes
  import opened Values

  const MAX_BYTES: nat := 4096
  const MAX_NODES: nat := 4096
  const MAX_MAP_ENTRIES: nat := 256

  const INVALID_TAG: Byte := 0
  const DEPTH_CUT_TAG: Byte := 0xFF

  /** What a builder holds between two writes: the bytes so far, the room, the
      nodes it may still visit, and what was cut. */
  datatype RawState = State(
    buf: seq<Byte>, max: nat, left: nat, full: bool, incomplete: bool, nodeCut: bool)

  type State = s: RawState | |s.buf| <= s.max witness State([], 0, 0, false, false, false)

  datatype Print = Print(data: seq<Byte>, complete: bool)

  function PrintOf(s: State): Print {
    Print(s.buf, !s.incomplete)
  }

  function Start(max: nat, left: nat): State {
    State([], max, left, false, false, false)
  }

  /** Writes chunk whole, or marks the state full when there is no room. */
  function Write(s: State, chunk: seq<Byte>): (r: State)
    ensures r.max == s.max && r.left == s.left && r.nodeCut == s.nodeCut
    ensures s.incomplete || r.full != s.full ==> r.incomplete
  {
    if s.full then s
    else if |s.buf| + |chunk| > s.max then s.(full := true, incomplete := true)
    else s.(buf := s.buf + chunk)
  }

  function WriteAll(s: State, chunks: seq<seq<Byte>>): (r: State)
    ensures r.max == s.max && r.left == s.left && r.nodeCut == s.nodeCut
    ensures s.incomplete || r.full != s.full ==> r.incomplete
    decreases chunks
  {
    if chunks == [] then s else WriteAll(Write(s, chunks[0]), chunks[1..])
  }

  function OrderedFloatBits(bits: nat): (o: nat)
    requires bits < TWO_64
    ensures o < TWO_64
  {
    if bits >= TWO_63 then TWO_64 - 1 - bits else bits + TWO_63
  }

  /** reflect kinds stay below 27 and machine words below 2^64. */
  predicate ScalarFits(s: Scalar) {
    match s
    case Int(k, i) => k < 255 && -TWO_63 <= i < TWO_63
    case Uint(k, u) => k < 255 && u < TWO_64
    case Float(k, b) => k < 255 && b < TWO_64
    case Complex(k, re, im) => k < 255 && re < TWO_64 && im < TWO_64
    case Opaque(k, _) => k < 255
    case _ => true
  }

  function StringChunks(s: seq<Byte>): seq<seq<Byte>> {
    if s == [] then [[0, 1]]
    else [if s[0] == 0 then [0, 0xFF] else [s[0]]] + StringChunks(s[1..])
  }

  function ScalarChunks(s: Scalar): seq<seq<Byte>>
    requires ScalarFits(s)
  {
    match s
    case Bool(b) => [[KIND_BOOL + 1], [if b then 1 else 0]]
    case Int(k, i) => [[k + 1], U64(i + TWO_63)]
    case Uint(k, u) => [[k + 1], U64(u)]
    case Float(k, b) => [[k + 1], U64(OrderedFloatBits(b))]
    case Complex(k, re, im) => [[k + 1], U64(OrderedFloatBits(re)), U64(OrderedFloatBits(im))]
    case Str(t) => [[KIND_STRING + 1]] + StringChunks(t)
    case NilInterface => [[KIND_INTERFACE + 1], [0]]
    case NilRef(r) => [[r.Kind() + 1], [0]]
    case Opaque(k, id) => [[k + 1], [if id == 0 then 0 else 1]]
  }

  predicate Fits(t: Term) {
    match t
    case TLeaf(s) => ScalarFits(s)
    case TBox(_, e) => Fits(e)
    case TList(_, es) => forall i :: 0 <= i < |es| ==> Fits(es[i])
    case TMap(es) => forall i :: 0 <= i < |es| ==> Fits(es[i].key) && Fits(es[i].val)
    case _ => true
  }

  /** What is written for a value before its parts. */
  function Header(t: Term): seq<seq<Byte>>
    requires Fits(t)
  {
    match t
    case TInvalid => [[INVALID_TAG]]
    case TDepthCut => [[DEPTH_CUT_TAG]]
    case TLeaf(x) => ScalarChunks(x)
    case TBack(r, i) => [[r.Kind() + 1], [1], Uvarint(i)]
    case TBox(Pointee, _) => [[KIND_POINTER + 1], [2]]
    case TBox(Dynamic(name, _), _) =>
      [[KIND_INTERFACE + 1], [1]] + StringChunks(name.text) + StringChunks(name.pkg)
    case TList(StructShape, _) => [[KIND_STRUCT + 1]]
    case TList(ArrayShape, es) => [[KIND_ARRAY + 1], Uvarint(|es|)]
    case TList(SliceShape, es) => [[KIND_SLICE + 1], [2], Uvarint(|es|)]
    case TMap(es) => [[KIND_MAP + 1], [2], Uvarint(|es|)]
  }

  predicate AllFit(ts: seq<Term>) {
    forall i :: 0 <= i < |ts| ==> Fits(ts[i])
  }

  predicate EntriesFit(es: seq<Entry<Term>>) {
    forall i :: 0 <= i < |es| ==> Fits(es[i].key) && Fits(es[i].val)
  }

  // ---- The order of fingerprints ----

  function CompareBool(a: bool, b: bool): int {
    if a == b then 0 else if !a then -1 else 1
  }

  function ComparePrints(x: Print, y: Print): (c: int)
    ensures c == 0 <==> x == y
  {
    var c := Compare(x.data, y.data);
    if c != 0 then c else CompareBool(!x.complete, !y.complete)
  }

  lemma {:induction false} ComparePrintsAntisymmetric(x: Print, y: Print)
    ensures ComparePrints(x, y) == -ComparePrints(y, x)
  {
    CompareAntisymmetric(x.data, y.data);
  }

  lemma {:induction false} ComparePrintsTransitive(x: Print, y: Print, z: Print)
    requires ComparePrints(x, y) <= 0 && ComparePrints(y, z) <= 0
    ensures ComparePrints(x, z) <= 0
  {
    CompareTransitive(x.data, y.data, z.data);
    CompareAntisymmetric(x.data, y.data);
    CompareAntisymmetric(y.data, z.data);
    CompareAntisymmetric(x.data, z.data);
    if x.data == z.data {
      CompareTransitive(y.data, z.data, x.data);
    }
  }

  ghost predicate Sorted(ps: seq<Print>) {
    forall i, j :: 0 <= i < j < |ps| ==> ComparePrints(ps[i], ps[j]) <= 0
  }

  function Insert(p: Print, ps: seq<Print>): seq<Print> {
    if ps == [] || ComparePrints(p, ps[0]) <= 0 then [p] + ps
    else [ps[0]] + Insert(p, ps[1..])
  }

  /** The order sort.Slice gives: ComparePrints ties only between equal
      fingerprints, so there is one sorted arrangement. */
  function Sort(ps: seq<Print>): seq<Print> {
    if ps == [] then [] else Insert(ps[0], Sort(ps[1..]))
  }

  lemma {:induction false} InsertKeeps(p: Print, ps: seq<Print>)
    ensures multiset(Insert(p, ps)) == multiset(ps) + multiset{p}
  {
    if ps != [] && ComparePrints(p, ps[0]) > 0 {
      InsertKeeps(p, ps[1..]);
      assert ps == [ps[0]] + ps[1..];
    }
  }

  lemma {:induction false} InsertSorted(p: Print, ps: seq<Print>)
    requires Sorted(ps)
    ensures Sorted(Insert(p, ps))
  {
    if ps != [] {
      if ComparePrints(p, ps[0]) <= 0 {
        forall j | 0 <= j < |ps| ensures ComparePrints(p, ps[j]) <= 0 {
          if j > 0 { ComparePrintsTransitive(p, ps[0], ps[j]); }
        }
      } else {
        InsertSorted(p, ps[1..]);
        InsertKeeps(p, ps[1..]);
        ComparePrintsAntisymmetric(p, ps[0]);
        var r := Insert(p, ps[1..]);
        forall j | 0 <= j < |r| ensures ComparePrints(ps[0], r[j]) <= 0 {
          assert r[j] in multiset(r);
          if r[j] != p {
            assert r[j] in ps[1..];
          }
        }
      }
    }
  }

  lemma {:induction false} SortSorts(ps: seq<Print>)
    ensures Sorted(Sort(ps)) && multiset(Sort(ps)) == multiset(ps)
  {
    if ps != [] {
      SortSorts(ps[1..]);
      InsertSorted(ps[0], Sort(ps[1..]));
      InsertKeeps(ps[0], Sort(ps[1..]));
      assert ps == [ps[0]] + ps[1..];
    }
  }

  lemma {:induction false} LeastIsFirst(a: seq<Print>, x: Print)
    requires Sorted(a) && x in a
    ensures ComparePrints(a[0], x) <= 0
  {
  }

  lemma {:induction false} TailMultiset(a: seq<Print>)
    requires a != []
    ensures multiset(a[1..]) == multiset(a) - multiset{a[0]}
  {
    assert a == [a[0]] + a[1..];
  }

  lemma {:induction false} SameLeast(a: seq<Print>, b: seq<Print>)
    requires Sorted(a) && Sorted(b) && multiset(a) == multiset(b) && a != [] && b != []
    ensures a[0] == b[0]
  {
    assert a[0] in multiset(b) && b[0] in multiset(a);
    LeastIsFirst(b, a[0]);
    LeastIsFirst(a, b[0]);
    ComparePrintsAntisymmetric(a[0], b[0]);
  }

  lemma {:induction false} SortedUnique(a: seq<Print>, b: seq<Print>)
    requires Sorted(a) && Sorted(b) && multiset(a) == multiset(b)
    ensures a == b
  {
    assert |a| == |multiset(a)| && |b| == |multiset(b)|;
    if a != [] {
      SameLeast(a, b);
      TailMultiset(a);
      TailMultiset(b);
      SortedUnique(a[1..], b[1..]);
      assert a == [a[0]] + a[1..] && b == [b[0]] + b[1..];
    }
  }

  lemma {:induction false} SortIgnoresOrder(a: seq<Print>, b: seq<Print>)
    requires multiset(a) == multiset(b)
    ensures Sort(a) == Sort(b)
  {
    SortSorts(a);
    SortSorts(b);
    SortedUnique(Sort(a), Sort(b));
  }

  // ---- The fingerprint ----

  function BitLen(n: nat): nat {
    if n == 0 then 0 else 1 + BitLen(n / 2)
  }

  /** n * k, by addition. */
  function Times(n: nat, k: nat): nat {
    if n == 0 then 0 else k + Times(n - 1, k)
  }

  lemma {:induction false} TimesIsProduct(n: nat, k: nat)
    ensures Times(n, k) == n * k
  {
    if n > 0 { TimesIsProduct(n - 1, k); }
  }

  function SortCost(n: nat): nat {
    n + Times(n, BitLen(n))
  }

  /** The nodes a map's entries used together, and whether any was cut for want
      of them. */
  function Used(subs: seq<State>, share: nat): (u: nat)
    requires forall i :: 0 <= i < |subs| ==> subs[i].left <= share
    ensures u <= Times(|subs|, share)
  {
    if subs == [] then 0
    else share - subs[0].left + Used(subs[1..], share)
  }

  predicate AnyNodeCut(subs: seq<State>) {
    subs != [] && (subs[0].nodeCut || AnyNodeCut(subs[1..]))
  }

  lemma {:induction false} NodeCutSomewhere(subs: seq<State>)
    ensures AnyNodeCut(subs) <==> exists i :: 0 <= i < |subs| && subs[i].nodeCut
  {
    if subs != [] {
      NodeCutSomewhere(subs[1..]);
      if AnyNodeCut(subs[1..]) {
        var i :| 0 <= i < |subs| - 1 && subs[1..][i].nodeCut;
        assert subs[i + 1].nodeCut;
      }
      if i :| 0 <= i < |subs| && subs[i].nodeCut {
        assert i > 0 ==> subs[1..][i - 1].nodeCut;
      }
    }
  }

  function Prints(subs: seq<State>): (ps: seq<Print>)
    ensures |ps| == |subs|
  {
    seq(|subs|, i requires 0 <= i < |subs| => PrintOf(subs[i]))
  }

  function WritePrints(ps: seq<Print>, s: State): (r: State)
    ensures r.max == s.max && r.left == s.left && r.nodeCut == s.nodeCut
    ensures s.incomplete || r.full != s.full ==> r.incomplete
  {
    if ps == [] then s
    else
      var p := ps[0];
      var s1 := if p.complete then s else s.(incomplete := true);
      var s2 := Write(s1, Uvarint(|p.data|) + p.data + [if p.complete then 1 else 0]);
      if s2.full then s2 else WritePrints(ps[1..], s2)
  }

  /** An equal part of what is left for each of n entries. */
  function Share(n: nat, left: nat): (share: nat)
    requires n > 0
    ensures Times(n, share) <= left < Times(n, share + 1)
  {
    assert left == n * (left / n) + left % n;
    TimesIsProduct(n, left / n);
    TimesIsProduct(n, left / n + 1);
    left / n
  }

  function RoomShare(s: State, n: nat): nat
    requires n > 0
  {
    Share(n, s.max - |s.buf|)
  }

  function NodeShare(s: State, n: nat): (share: nat)
    requires n > 0 && SortCost(n) <= s.left
    ensures Times(n, share) <= s.left - SortCost(n)
  {
    Share(n, s.left - SortCost(n))
  }

  /** s once a map's sort and its entries have been paid for. */
  function Charged(s: State, subs: seq<State>, share: nat): (r: State)
    requires forall i :: 0 <= i < |subs| ==> subs[i].left <= share
    requires SortCost(|subs|) <= s.left && Times(|subs|, share) <= s.left - SortCost(|subs|)
    ensures r.left <= s.left && r.max == s.max && r.buf == s.buf && r.full == s.full
  {
    s.(left := s.left - SortCost(|subs|) - Used(subs, share), nodeCut := s.nodeCut || AnyNodeCut(subs))
  }

  /** Pays for the entries of a map and writes them in canonical order. */
  function FinishMap(subs: seq<State>, s: State, share: nat): (r: State)
    requires forall i :: 0 <= i < |subs| ==> subs[i].left <= share
    requires SortCost(|subs|) <= s.left && Times(|subs|, share) <= s.left - SortCost(|subs|)
    ensures r.left <= s.left && r.max == s.max
  {
    WritePrints(Sort(Prints(subs)), Charged(s, subs, share))
  }

  /** s with one node visited and its header written. */
  function Entered(t: Term, s: State): (r: State)
    requires Fits(t) && s.left > 0
    ensures r.left == s.left - 1 && r.max == s.max && r.nodeCut == s.nodeCut
  {
    WriteAll(s.(left := s.left - 1, incomplete := s.incomplete || t.TDepthCut?), Header(t))
  }

  function Fingerprint(t: Term, s: State): (r: State)
    requires Fits(t)
    ensures r.left <= s.left && r.max == s.max
    decreases t, 0
  {
    if s.full then s
    else if s.left == 0 then s.(full := true, incomplete := true, nodeCut := true)
    else match t
      case TBox(_, e) => Fingerprint(e, Entered(t, s))
      case TList(_, es) => FingerprintAll(es, Entered(t, s))
      case TMap(es) =>
        if |es| > MAX_MAP_ENTRIES then Entered(t, s).(incomplete := true)
        else FingerprintEntries(es, Entered(t, s))
      case _ => Entered(t, s)
  }

  function FingerprintAll(ts: seq<Term>, s: State): (r: State)
    requires AllFit(ts)
    ensures r.left <= s.left && r.max == s.max
    decreases ts, 0
  {
    if ts == [] || s.full then s else FingerprintAll(ts[1..], Fingerprint(ts[0], s))
  }

  /** One map entry, alone in its share of the room and of the nodes. */
  function FingerprintEntry(e: Entry<Term>, room: nat, share: nat): (r: State)
    requires Fits(e.key) && Fits(e.val)
    ensures r.left <= share && r.max == room
    decreases e, 0
  {
    Fingerprint(e.val, Fingerprint(e.key, Start(room, share)))
  }

  function EntryStates(es: seq<Entry<Term>>, room: nat, share: nat): (subs: seq<State>)
    requires EntriesFit(es)
    ensures |subs| == |es| && forall i :: 0 <= i < |subs| ==> subs[i].left <= share
    decreases es, 0
  {
    seq(|es|, i requires 0 <= i < |es| => FingerprintEntry(es[i], room, share))
  }

  lemma {:induction false} EntryStateAt(es: seq<Entry<Term>>, room: nat, share: nat, i: nat)
    requires EntriesFit(es) && i < |es|
    ensures EntryStates(es, room, share)[i] == FingerprintEntry(es[i], room, share)
  {
  }

  function FingerprintEntries(es: seq<Entry<Term>>, s: State): (r: State)
    requires EntriesFit(es)
    ensures r.left <= s.left && r.max == s.max
    decreases es, 1
  {
    var n := |es|;
    if n == 0 || s.full then s
    else if SortCost(n) > s.left then s.(incomplete := true, nodeCut := true)
    else
      FinishMap(EntryStates(es, RoomShare(s, n), NodeShare(s, n)), s, NodeShare(s, n))
  }

  /** The whole of a value's fingerprint within an allowance of nodes. */
  function Computed(t: Term, allowance: nat): State
    requires Fits(t)
  {
    Fingerprint(t, Start(MAX_BYTES, allowance))
  }
}
