/** The builder that walks a value once, writing its fingerprint as it goes. */
module FingerprintBuilders {
  import opened Bytes
  import opened Values
  import opened Fingerprints
  import opened FingerprintLaws
  import opened Permutations
  import Sequences

  lemma {:induction false} WriteAllConcat(s: State, a: seq<seq<Byte>>, b: seq<seq<Byte>>)
    ensures WriteAll(s, a + b) == WriteAll(WriteAll(s, a), b)
    decreases a
  {
    if a == [] {
      assert a + b == b;
    } else {
      assert (a + b)[1..] == a[1..] + b;
      WriteAllConcat(Write(s, a[0]), a[1..], b);
    }
  }

  lemma {:induction false} WriteAllWhenFull(s: State, chunks: seq<seq<Byte>>)
    requires s.full
    ensures WriteAll(s, chunks) == s
    decreases chunks
  {
    if chunks != [] {
      WriteAllWhenFull(s, chunks[1..]);
    }
  }

  lemma {:induction false} WriteOne(s: State, a: seq<Byte>)
    ensures WriteAll(s, [a]) == Write(s, a)
  {
    assert [a][1..] == [];
  }

  lemma {:induction false} WriteTwo(s: State, a: seq<Byte>, b: seq<Byte>)
    ensures WriteAll(s, [a, b]) == Write(Write(s, a), b)
  {
    assert [a, b][1..] == [b];
    WriteOne(Write(s, a), b);
  }

  lemma {:induction false} WriteThree(s: State, a: seq<Byte>, b: seq<Byte>, c: seq<Byte>)
    ensures WriteAll(s, [a, b, c]) == Write(Write(Write(s, a), b), c)
  {
    assert [a, b, c][1..] == [b, c];
    WriteTwo(Write(s, a), b, c);
  }

  lemma {:induction false} UsedAppend(subs: seq<State>, x: State, share: nat)
    requires x.left <= share && forall i :: 0 <= i < |subs| ==> subs[i].left <= share
    ensures Used(subs + [x], share) == Used(subs, share) + share - x.left
  {
    if subs != [] {
      assert (subs + [x])[1..] == subs[1..] + [x];
      UsedAppend(subs[1..], x, share);
    }
  }

  lemma {:induction false} OneMoreEntry(subs: seq<State>, x: State, share: nat)
    requires x.left <= share && forall i :: 0 <= i < |subs| ==> subs[i].left <= share
    ensures Used(subs + [x], share) == Used(subs, share) + share - x.left
    ensures AnyNodeCut(subs + [x]) == (AnyNodeCut(subs) || x.nodeCut)
    ensures Prints(subs + [x]) == Prints(subs) + [PrintOf(x)]
  {
    UsedAppend(subs, x, share);
    var r := subs + [x];
    NodeCutSomewhere(subs);
    NodeCutSomewhere(r);
    assert r[|subs|] == x && forall i :: 0 <= i < |subs| ==> r[i] == subs[i];
  }

  lemma {:induction false} UsedBound(subs: seq<State>, share: nat, n: nat)
    requires |subs| <= n && forall i :: 0 <= i < |subs| ==> subs[i].left <= share
    ensures Used(subs, share) <= Times(n, share)
  {
    TimesIsProduct(|subs|, share);
    TimesIsProduct(n, share);
  }

  /** What one more entry adds. */
  lemma {:induction false} PrefixUsed(subs: seq<State>, k: nat, share: nat, n: nat)
    requires k < |subs| <= n && forall i :: 0 <= i < |subs| ==> subs[i].left <= share
    ensures Used(subs[..k + 1], share) == Used(subs[..k], share) + share - subs[k].left
    ensures Used(subs[..k + 1], share) <= Times(n, share)
    ensures AnyNodeCut(subs[..k + 1]) == (AnyNodeCut(subs[..k]) || subs[k].nodeCut)
    ensures Prints(subs[..k + 1]) == Prints(subs[..k]) + [PrintOf(subs[k])]
  {
    assert subs[..k + 1] == subs[..k] + [subs[k]];
    OneMoreEntry(subs[..k], subs[k], share);
    UsedBound(subs[..k + 1], share, n);
  }

  lemma {:induction false} NoneVisited(share: nat)
    ensures Used([], share) == 0 && !AnyNodeCut([]) && Prints([]) == []
  {
  }

  /** s after a map's sort and its entries, in the given order, were charged. */
  ghost function Visited(s: State, subs: seq<State>, share: nat): State
    requires forall i :: 0 <= i < |subs| ==> subs[i].left <= share
    requires Used(subs, share) <= s.left
  {
    s.(left := s.left - Used(subs, share), nodeCut := s.nodeCut || AnyNodeCut(subs))
  }

  /** Whatever order the entries were visited in, writing them sorted finishes
      the map in the same way. */
  lemma {:induction false} MapFinished(all: seq<State>, order: seq<nat>, s: State, share: nat)
    requires IsPermutation(order, |all|)
    requires forall i :: 0 <= i < |all| ==> all[i].left <= share
    requires SortCost(|all|) <= s.left && Times(|all|, share) <= s.left - SortCost(|all|)
    ensures forall i :: 0 <= i < |all| ==> Arrange(all, order)[i].left <= share
    ensures Used(Arrange(all, order), share) <= s.left - SortCost(|all|)
    ensures WritePrints(Sort(Prints(Arrange(all, order))),
              Visited(s.(left := s.left - SortCost(|all|)), Arrange(all, order), share))
            == FinishMap(all, s, share)
  {
    EntryOrderIsInvisible(all, order, s, share);
    UsedBound(Arrange(all, order), share, |all|);
  }

  /** want is the outcome of an entry's own builder. */
  ghost predicate EntryGives(names: Names, h: Heap, e: Entry<Value>, depth: nat, path: seq<RefKey>,
      room: nat, share: nat, want: State)
    requires Closed(h) && Live(h, e.key) && Live(h, e.val)
  {
    var k, v := Unfold(names, h, e.key, depth + 1, path), Unfold(names, h, e.val, depth + 1, path);
    Fits(k) && Fits(v) && want == FingerprintEntry(Entry(k, v), room, share) && want.left <= share
  }

  lemma {:induction false} EntriesGive(names: Names, h: Heap, es: seq<Entry<Value>>, depth: nat, path: seq<RefKey>,
      room: nat, share: nat, ts: seq<Entry<Term>>)
    requires Closed(h) && depth <= MAX_DEPTH
    requires forall i :: 0 <= i < |es| ==> Live(h, es[i].key) && Live(h, es[i].val)
    requires ts == UnfoldEntries(names, h, es, depth, path) && EntriesFit(ts)
    ensures forall i :: 0 <= i < |es| ==>
              EntryGives(names, h, es[i], depth, path, room, share, EntryStates(ts, room, share)[i])
  {
    forall i | 0 <= i < |es|
      ensures EntryGives(names, h, es[i], depth, path, room, share, EntryStates(ts, room, share)[i])
    {
      EntryStateAt(ts, room, share, i);
      assert ts[i] == Entry(ts[i].key, ts[i].val);
    }
  }

  /** The references being followed, shared by a builder and the builders of
      the map entries below it. */
  class RefPath {
    var keys: seq<RefKey>

    constructor ()
      ensures keys == []
    {
      keys := [];
    }
  }

  class FingerprintBuilder {
    var buf: seq<Byte>
    var max: nat
    var left: nat
    var full: bool
    var incomplete: bool
    var nodeCut: bool
    var path: RefPath

    ghost predicate Valid()
      reads this
    {
      |buf| <= max
    }

    ghost function Snapshot(): Fingerprints.State
      reads this
      requires Valid()
    {
      State(buf, max, left, full, incomplete, nodeCut)
    }

    constructor (max: nat, left: nat, path: RefPath)
      ensures Valid() && Snapshot() == Start(max, left) && this.path == path
    {
      this.buf, this.max, this.left := [], max, left;
      this.full, this.incomplete, this.nodeCut := false, false, false;
      this.path := path;
    }

    method Room(n: nat) returns (ok: bool)
      requires Valid()
      modifies this`full, this`incomplete
      ensures Valid() && ok == !full && (ok ==> |buf| + n <= max)
      ensures old(full) ==> full && incomplete == old(incomplete)
      ensures !old(full) && full ==> incomplete && |buf| + n > max
      ensures !full ==> incomplete == old(incomplete)
    {
      if full { return false; }
      if |buf| + n > max {
        full, incomplete := true, true;
        return false;
      }
      return true;
    }

    method Chunk(chunk: seq<Byte>)
      requires Valid()
      modifies this`buf, this`full, this`incomplete
      ensures Valid() && Snapshot() == Write(old(Snapshot()), chunk)
    {
      var ok := Room(|chunk|);
      if ok { buf := buf + chunk; }
    }

    method Str(s: seq<Byte>)
      requires Valid()
      modifies this`buf, this`full, this`incomplete
      ensures Valid() && Snapshot() == WriteAll(old(Snapshot()), StringChunks(s))
    {
      var i := 0;
      while i < |s|
        invariant 0 <= i <= |s| && Valid()
        invariant max == old(max) && left == old(left) && nodeCut == old(nodeCut)
        invariant WriteAll(Snapshot(), StringChunks(s[i..])) == WriteAll(old(Snapshot()), StringChunks(s))
      {
        ghost var before := Snapshot();
        var ok := Room(if s[i] == 0 then 2 else 1);
        if !ok {
          WriteAllWhenFull(Snapshot(), StringChunks(s[i + 1..]));
          assert StringChunks(s[i..])[1..] == StringChunks(s[i..][1..]) && s[i..][1..] == s[i + 1..];
          return;
        }
        if s[i] == 0 {
          buf := buf + [0, 0xFF];
        } else {
          buf := buf + [s[i]];
        }
        assert Snapshot() == Write(before, StringChunks(s[i..])[0]);
        assert StringChunks(s[i..])[1..] == StringChunks(s[i..][1..]) && s[i..][1..] == s[i + 1..];
        i := i + 1;
      }
      assert s[i..] == [] && StringChunks([]) == [[0, 1]];
      WriteOne(Snapshot(), [0, 1]);
      Chunk([0, 1]);
    }

    method Scalar(x: Scalar)
      requires Valid() && ScalarFits(x)
      modifies this`buf, this`full, this`incomplete
      ensures Valid() && Snapshot() == WriteAll(old(Snapshot()), ScalarChunks(x))
    {
      ghost var s := Snapshot();
      match x {
        case Bool(b) =>
          WriteTwo(s, [KIND_BOOL + 1], [if b then 1 else 0]);
          Chunk([KIND_BOOL + 1]);
          Chunk([if b then 1 else 0]);
        case Int(k, i) =>
          WriteTwo(s, [k + 1], U64(i + TWO_63));
          Chunk([k + 1]);
          Chunk(U64(i + TWO_63));
        case Uint(k, u) =>
          WriteTwo(s, [k + 1], U64(u));
          Chunk([k + 1]);
          Chunk(U64(u));
        case Float(k, b) =>
          WriteTwo(s, [k + 1], U64(OrderedFloatBits(b)));
          Chunk([k + 1]);
          Chunk(U64(OrderedFloatBits(b)));
        case Complex(k, re, im) =>
          WriteThree(s, [k + 1], U64(OrderedFloatBits(re)), U64(OrderedFloatBits(im)));
          Chunk([k + 1]);
          Chunk(U64(OrderedFloatBits(re)));
          Chunk(U64(OrderedFloatBits(im)));
        case Str(t) =>
          WriteAllConcat(s, [[KIND_STRING + 1]], StringChunks(t));
          WriteOne(s, [KIND_STRING + 1]);
          Chunk([KIND_STRING + 1]);
          Str(t);
        case NilInterface =>
          WriteTwo(s, [KIND_INTERFACE + 1], [0]);
          Chunk([KIND_INTERFACE + 1]);
          Chunk([0]);
        case NilRef(r) =>
          WriteTwo(s, [r.Kind() + 1], [0]);
          Chunk([r.Kind() + 1]);
          Chunk([0]);
        case Opaque(k, id) =>
          WriteTwo(s, [k + 1], [if id == 0 then 0 else 1]);
          Chunk([k + 1]);
          Chunk([if id == 0 then 0 else 1]);
      }
    }

    /** Visits v: whatever order the runtime iterates each map in, the state
        afterwards is the fingerprint of what a walk from v sees. */
    method Visit(names: Names, h: Heap, v: Value, depth: nat)
      requires Valid() && Closed(h) && Live(h, v)
      requires Fits(Unfold(names, h, v, depth, path.keys))
      modifies this, path
      ensures Valid() && path == old(path) && path.keys == old(path.keys)
      ensures Snapshot() == Fingerprint(old(Unfold(names, h, v, depth, path.keys)), old(Snapshot()))
      decreases MeasureAt(depth), 7
    {
      ghost var t := Unfold(names, h, v, depth, path.keys);
      ghost var s := Snapshot();
      if full { return; }
      if left == 0 {
        full, incomplete, nodeCut := true, true, true;
        return;
      }
      left := left - 1;
      if v.Invalid? {
        WriteOne(Snapshot(), [INVALID_TAG]);
        Chunk([INVALID_TAG]);
        return;
      }
      if depth > MAX_DEPTH {
        incomplete := true;
        WriteOne(Snapshot(), [DEPTH_CUT_TAG]);
        Chunk([DEPTH_CUT_TAG]);
        return;
      }
      match v {
        case Leaf(x) => Scalar(x);
        case Interface(dyn, e) =>
          VisitName(names(dyn));
          Visit(names, h, e, depth + 1);
        case EmptySlice => VisitEmptySlice();
        case Array(es) => VisitArray(names, h, es, depth, s);
        case Struct(es) => VisitStruct(names, h, es, depth, s);
        case Ref(key) => VisitRef(names, h, key, depth, s);
      }
    }

    method VisitArray(names: Names, h: Heap, es: seq<Value>, depth: nat, ghost s: Fingerprints.State)
      requires Valid() && Closed(h) && depth <= MAX_DEPTH && forall i :: 0 <= i < |es| ==> Live(h, es[i])
      requires !s.full && s.left > 0 && Snapshot() == s.(left := s.left - 1)
      requires AllFit(UnfoldAll(names, h, es, depth, path.keys))
      modifies this, path
      ensures Valid() && path == old(path) && path.keys == old(path.keys)
      ensures Snapshot() == Fingerprint(TList(ArrayShape, old(UnfoldAll(names, h, es, depth, path.keys))), s)
      decreases MeasureAt(depth), 1
    {
      hide Closed, Live, Uvarint, UnfoldAll, WriteAll, Write;
      WriteTwo(Snapshot(), [KIND_ARRAY + 1], Uvarint(|es|));
      Chunk([KIND_ARRAY + 1]);
      Chunk(Uvarint(|es|));
      VisitAll(names, h, es, depth);
    }

    method VisitStruct(names: Names, h: Heap, es: seq<Value>, depth: nat, ghost s: Fingerprints.State)
      requires Valid() && Closed(h) && depth <= MAX_DEPTH && forall i :: 0 <= i < |es| ==> Live(h, es[i])
      requires !s.full && s.left > 0 && Snapshot() == s.(left := s.left - 1)
      requires AllFit(UnfoldAll(names, h, es, depth, path.keys))
      modifies this, path
      ensures Valid() && path == old(path) && path.keys == old(path.keys)
      ensures Snapshot() == Fingerprint(TList(StructShape, old(UnfoldAll(names, h, es, depth, path.keys))), s)
      decreases MeasureAt(depth), 1
    {
      WriteOne(Snapshot(), [KIND_STRUCT + 1]);
      Chunk([KIND_STRUCT + 1]);
      VisitAll(names, h, es, depth);
    }

    method VisitEmptySlice()
      requires Valid()
      modifies this`buf, this`full, this`incomplete
      ensures Valid() && Snapshot() == WriteAll(old(Snapshot()), Header(TList(SliceShape, [])))
    {
      WriteThree(Snapshot(), [KIND_SLICE + 1], [2], Uvarint(0));
      Chunk([KIND_SLICE + 1]);
      Chunk([2]);
      Chunk(Uvarint(0));
    }

    /** The type name of an interface's dynamic value. */
    method VisitName(name: TypeName)
      requires Valid()
      modifies this`buf, this`full, this`incomplete
      ensures Valid() && Snapshot() == WriteAll(old(Snapshot()),
                [[KIND_INTERFACE + 1], [1]] + StringChunks(name.text) + StringChunks(name.pkg))
    {
      ghost var s := Snapshot();
      WriteAllConcat(s, [[KIND_INTERFACE + 1], [1]] + StringChunks(name.text), StringChunks(name.pkg));
      WriteAllConcat(s, [[KIND_INTERFACE + 1], [1]], StringChunks(name.text));
      WriteTwo(s, [KIND_INTERFACE + 1], [1]);
      Chunk([KIND_INTERFACE + 1]);
      Chunk([1]);
      Str(name.text);
      Str(name.pkg);
    }

    /** A pointer, map or non-empty slice: a back-reference when it is already
        on the path, otherwise its target with the reference on the path. */
    method VisitRef(names: Names, h: Heap, key: RefKey, depth: nat, ghost s: Fingerprints.State)
      requires Valid() && Closed(h) && key in h && depth <= MAX_DEPTH
      requires !s.full && s.left > 0 && Snapshot() == s.(left := s.left - 1)
      requires Fits(Unfold(names, h, Ref(key), depth, path.keys))
      modifies this, path
      ensures Valid() && path == old(path) && path.keys == old(path.keys)
      ensures Snapshot() == Fingerprint(old(Unfold(names, h, Ref(key), depth, path.keys)), s)
      decreases MeasureAt(depth), 6
    {
      ghost var t := Unfold(names, h, Ref(key), depth, path.keys);
      ghost var was := path.keys;
      assert CellFits(key, h[key]);
      if key in path.keys {
        var i := IndexOf(path.keys, key);
        WriteThree(Snapshot(), [key.kind.Kind() + 1], [1], Uvarint(i));
        Chunk([key.kind.Kind() + 1]);
        Chunk([1]);
        Chunk(Uvarint(i));
        return;
      }
      path.keys := path.keys + [key];
      match key.kind {
        case PointerRef => VisitPointer(names, h, h[key].target, depth, s);
        case SliceRef => VisitSlice(names, h, h[key].elems, depth, s);
        case MapRef => VisitMap(names, h, h[key].entries, depth, s);
      }
      path.keys := path.keys[..|path.keys| - 1];
      assert path.keys == was;
    }

    method VisitPointer(names: Names, h: Heap, e: Value, depth: nat, ghost s: Fingerprints.State)
      requires Valid() && Closed(h) && Live(h, e) && depth <= MAX_DEPTH
      requires !s.full && s.left > 0 && Snapshot() == s.(left := s.left - 1)
      requires Fits(Unfold(names, h, e, depth + 1, path.keys))
      modifies this, path
      ensures Valid() && path == old(path) && path.keys == old(path.keys)
      ensures Snapshot() == Fingerprint(TBox(Pointee, old(Unfold(names, h, e, depth + 1, path.keys))), s)
      decreases MeasureAt(depth), 0
    {
      WriteTwo(Snapshot(), [KIND_POINTER + 1], [2]);
      Chunk([KIND_POINTER + 1]);
      Chunk([2]);
      Visit(names, h, e, depth + 1);
    }

    method VisitSlice(names: Names, h: Heap, es: seq<Value>, depth: nat, ghost s: Fingerprints.State)
      requires Valid() && Closed(h) && depth <= MAX_DEPTH && forall i :: 0 <= i < |es| ==> Live(h, es[i])
      requires !s.full && s.left > 0 && Snapshot() == s.(left := s.left - 1)
      requires AllFit(UnfoldAll(names, h, es, depth, path.keys))
      modifies this, path
      ensures Valid() && path == old(path) && path.keys == old(path.keys)
      ensures Snapshot() == Fingerprint(TList(SliceShape, old(UnfoldAll(names, h, es, depth, path.keys))), s)
      decreases MeasureAt(depth), 1
    {
      hide Closed, Live, Uvarint, UnfoldAll, WriteAll, Write;
      WriteThree(Snapshot(), [KIND_SLICE + 1], [2], Uvarint(|es|));
      Chunk([KIND_SLICE + 1]);
      Chunk([2]);
      Chunk(Uvarint(|es|));
      VisitAll(names, h, es, depth);
    }

    method VisitMap(names: Names, h: Heap, es: seq<Entry<Value>>, depth: nat, ghost s: Fingerprints.State)
      requires Valid() && Closed(h) && depth <= MAX_DEPTH
      requires forall i :: 0 <= i < |es| ==> Live(h, es[i].key) && Live(h, es[i].val)
      requires !s.full && s.left > 0 && Snapshot() == s.(left := s.left - 1)
      requires EntriesFit(UnfoldEntries(names, h, es, depth, path.keys))
      modifies this, path
      ensures Valid() && path == old(path) && path.keys == old(path.keys)
      ensures Snapshot() == Fingerprint(TMap(old(UnfoldEntries(names, h, es, depth, path.keys))), s)
      decreases MeasureAt(depth), 5
    {
      WriteThree(Snapshot(), [KIND_MAP + 1], [2], Uvarint(|es|));
      Chunk([KIND_MAP + 1]);
      Chunk([2]);
      Chunk(Uvarint(|es|));
      if |es| > MAX_MAP_ENTRIES {
        incomplete := true;
      } else {
        VisitEntries(names, h, es, depth, UnfoldEntries(names, h, es, depth, path.keys));
      }
    }

    method VisitAll(names: Names, h: Heap, es: seq<Value>, depth: nat)
      requires Valid() && Closed(h) && depth <= MAX_DEPTH && forall i :: 0 <= i < |es| ==> Live(h, es[i])
      requires AllFit(UnfoldAll(names, h, es, depth, path.keys))
      modifies this, path
      ensures Valid() && path == old(path) && path.keys == old(path.keys)
      ensures Snapshot() == FingerprintAll(old(UnfoldAll(names, h, es, depth, path.keys)), old(Snapshot()))
      decreases MeasureAt(depth), 0
    {
      hide Closed, Live, Unfold, Fingerprint;
      ghost var ts := UnfoldAll(names, h, es, depth, path.keys);
      var i := 0;
      while i < |es| && !full
        invariant 0 <= i <= |es| && Valid() && path == old(path) && path.keys == old(path.keys)
        invariant AllFit(ts[i..])
        invariant FingerprintAll(ts[i..], Snapshot()) == FingerprintAll(ts, old(Snapshot()))
        decreases |es| - i
      {
        assert ts[i..][0] == ts[i] && ts[i..][1..] == ts[i + 1..];
        Visit(names, h, es[i], depth + 1);
        i := i + 1;
      }
    }

    /** The entries of a map, in whatever order the runtime yields them, each
        alone in an equal share of the room and of the nodes. */
    method VisitEntries(names: Names, h: Heap, es: seq<Entry<Value>>, depth: nat, ghost ts: seq<Entry<Term>>)
      requires Valid() && Closed(h) && depth <= MAX_DEPTH
      requires forall i :: 0 <= i < |es| ==> Live(h, es[i].key) && Live(h, es[i].val)
      requires ts == UnfoldEntries(names, h, es, depth, path.keys) && EntriesFit(ts)
      modifies this, path
      ensures Valid() && path == old(path) && path.keys == old(path.keys)
      ensures Snapshot() == FingerprintEntries(ts, old(Snapshot()))
      decreases MeasureAt(depth), 4
    {
      hide EntriesFit, Closed, Live, SortCost, UnfoldEntries, FinishMap, EntryStates, Times;
      ghost var s := Snapshot();
      var n := |es|;
      if n == 0 || full { return; }
      if SortCost(n) > left {
        incomplete, nodeCut := true, true;
        return;
      }
      var room, share := Share(n, max - |buf|), Share(n, left - SortCost(n));
      assert FingerprintEntries(ts, s) == FinishMap(EntryStates(ts, room, share), s, share);
      left := left - SortCost(n);
      VisitPaid(names, h, es, depth, room, share, s, ts);
    }

    /** The entries of a map whose sort has been paid for out of s. */
    method VisitPaid(names: Names, h: Heap, es: seq<Entry<Value>>, depth: nat, room: nat, share: nat,
        ghost s: Fingerprints.State, ghost ts: seq<Entry<Term>>)
      requires Valid() && Closed(h) && depth <= MAX_DEPTH
      requires forall i :: 0 <= i < |es| ==> Live(h, es[i].key) && Live(h, es[i].val)
      requires ts == UnfoldEntries(names, h, es, depth, path.keys) && EntriesFit(ts)
      requires !s.full && SortCost(|es|) <= s.left && Times(|es|, share) <= s.left - SortCost(|es|)
      requires Snapshot() == s.(left := s.left - SortCost(|es|))
      modifies this, path
      ensures Valid() && path == old(path) && path.keys == old(path.keys)
      ensures Snapshot() == FinishMap(EntryStates(ts, room, share), s, share)
      decreases MeasureAt(depth), 3
    {
      hide EntriesFit, Closed, Live, SortCost, UnfoldEntries, FinishMap, EntryStates, WritePrints, Sort, Times, Used,
        EntryGives;
      var order := AnyOrder(|es|);
      ghost var all := EntryStates(ts, room, share);
      MapFinished(all, order, s, share);
      EntriesGive(names, h, es, depth, path.keys, room, share, ts);
      var prints := VisitInOrder(names, h, es, depth, room, share, order, all);
      WriteSorted(Sort(prints));
    }

    method VisitInOrder(names: Names, h: Heap, es: seq<Entry<Value>>, depth: nat, room: nat, share: nat,
        order: seq<nat>, ghost all: seq<Fingerprints.State>) returns (prints: seq<Print>)
      requires Valid() && Closed(h) && depth <= MAX_DEPTH && |order| == |es| == |all|
      requires forall i :: 0 <= i < |order| ==> order[i] < |es|
      requires forall i :: 0 <= i < |es| ==> Live(h, es[i].key) && Live(h, es[i].val)
      requires forall i :: 0 <= i < |es| ==> EntryGives(names, h, es[i], depth, path.keys, room, share, all[i])
      requires forall i :: 0 <= i < |es| ==> all[i].left <= share
      requires Times(|es|, share) <= left
      modifies this`left, this`nodeCut, path
      ensures path.keys == old(path.keys) && Valid()
      ensures forall i :: 0 <= i < |es| ==> Arrange(all, order)[i].left <= share
      ensures Used(Arrange(all, order), share) <= old(left)
      ensures prints == Prints(Arrange(all, order))
      ensures Snapshot() == Visited(old(Snapshot()), Arrange(all, order), share)
      decreases MeasureAt(depth), 2
    {
      hide Closed, Live, EntryGives, Times;
      ghost var want := Arrange(all, order);
      ghost var s, keys := Snapshot(), path.keys;
      UsedBound(want, share, |es|);
      hide Used, AnyNodeCut, Prints, PrintOf;
      NoneVisited(share);
      prints := [];
      assert want[..0] == [];
      var k := 0;
      while k < |es|
        invariant 0 <= k <= |es| && path.keys == keys && Valid()
        invariant prints == Prints(want[..k])
        invariant Used(want[..k], share) <= s.left && left == s.left - Used(want[..k], share)
        invariant nodeCut == (s.nodeCut || AnyNodeCut(want[..k]))
      {
        PrefixUsed(want, k, share, |es|);
        var p := VisitNext(names, h, es[order[k]], depth, room, share, want[k]);
        prints := prints + [p];
        k := k + 1;
      }
      assert want[..k] == want;
    }

    method VisitNext(names: Names, h: Heap, e: Entry<Value>, depth: nat, room: nat, share: nat,
        ghost want: Fingerprints.State) returns (p: Print)
      requires Valid() && Closed(h) && depth <= MAX_DEPTH && Live(h, e.key) && Live(h, e.val)
      requires EntryGives(names, h, e, depth, path.keys, room, share, want)
      requires share - want.left <= left
      modifies this`left, this`nodeCut, path
      ensures path.keys == old(path.keys) && p == PrintOf(want)
      ensures left == old(left) - (share - want.left) && nodeCut == (old(nodeCut) || want.nodeCut)
      decreases MeasureAt(depth), 1
    {
      var sub := VisitEntry(names, h, e, depth, room, share, want);
      left := left - (share - sub.left);
      nodeCut := nodeCut || sub.nodeCut;
      p := Print(sub.buf, !sub.incomplete);
    }

    /** One entry, on a builder of its own that shares this one's path. */
    method VisitEntry(names: Names, h: Heap, e: Entry<Value>, depth: nat, room: nat, share: nat,
        ghost want: Fingerprints.State) returns (sub: FingerprintBuilder)
      requires Closed(h) && depth <= MAX_DEPTH && Live(h, e.key) && Live(h, e.val)
      requires EntryGives(names, h, e, depth, path.keys, room, share, want)
      modifies path
      ensures fresh(sub) && path.keys == old(path.keys)
      ensures sub.Valid() && sub.Snapshot() == want
      decreases MeasureAt(depth), 0
    {
      sub := new FingerprintBuilder(room, share, path);
      sub.Visit(names, h, e.key, depth + 1);
      sub.Visit(names, h, e.val, depth + 1);
    }

    /** One entry: the length of its text, the text, and whether it is whole. */
    method WriteOnePrint(p: Print)
      requires Valid() && !full
      modifies this`buf, this`full, this`incomplete
      ensures Valid()
      ensures var s := old(Snapshot());
              var s1 := if p.complete then s else s.(incomplete := true);
              Snapshot() == Write(s1, Uvarint(|p.data|) + p.data + [if p.complete then 1 else 0])
    {
      if !p.complete { incomplete := true; }
      ghost var was, size, end := buf, Uvarint(|p.data|), [if p.complete then 1 else 0];
      hide Uvarint;
      Sequences.Grouped(was + size, p.data, end);
      Sequences.Grouped(was, size, p.data + end);
      Sequences.Grouped(size, p.data, end);
      var ok := Room(UvarintSize(|p.data|) + |p.data| + 1);
      if !ok { return; }
      buf := buf + Uvarint(|p.data|);
      buf := buf + p.data;
      buf := buf + [if p.complete then 1 else 0];
    }

    method WriteSorted(prints: seq<Print>)
      requires Valid() && !full
      modifies this`buf, this`full, this`incomplete
      ensures Valid() && Snapshot() == WritePrints(prints, old(Snapshot()))
    {
      var i := 0;
      while i < |prints|
        invariant 0 <= i <= |prints| && Valid() && !full
        invariant max == old(max) && left == old(left) && nodeCut == old(nodeCut)
        invariant WritePrints(prints[i..], Snapshot()) == WritePrints(prints, old(Snapshot()))
      {
        var p := prints[i];
        NextPrint(prints, i, Snapshot());
        hide WritePrints, Uvarint;
        WriteOnePrint(p);
        if full { return; }
        i := i + 1;
      }
    }
  }

  lemma {:induction false} NextPrint(prints: seq<Print>, i: nat, s: Fingerprints.State)
    requires i < |prints|
    ensures var p := prints[i];
            var s1 := if p.complete then s else s.(incomplete := true);
            var s2 := Write(s1, Uvarint(|p.data|) + p.data + [if p.complete then 1 else 0]);
            WritePrints(prints[i..], s) == if s2.full then s2 else WritePrints(prints[i + 1..], s2)
  {
    assert prints[i..][0] == prints[i] && prints[i..][1..] == prints[i + 1..];
  }

  /** Fingerprints v with at most allowance nodes. */
  method Compute(names: Names, h: Heap, v: Value, allowance: nat) returns (p: Print, left: nat, nodeCut: bool)
    requires Closed(h) && Live(h, v) && Fits(Unfold(names, h, v, 0, []))
    ensures var s := Computed(Unfold(names, h, v, 0, []), allowance);
            p == PrintOf(s) && left == s.left && nodeCut == s.nodeCut
  {
    var path := new RefPath();
    var b := new FingerprintBuilder(MAX_BYTES, allowance, path);
    b.Visit(names, h, v, 0);
    p, left, nodeCut := Print(b.buf, !b.incomplete), b.left, b.nodeCut;
  }
}
