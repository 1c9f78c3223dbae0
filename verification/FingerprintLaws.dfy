/** What a fingerprint depends on: the content of a value, never the order in
    which its maps are iterated, where its references live, or how many nodes
    were allowed beyond those it needed. */
module FingerprintLaws {
  import opened Bytes
  import opened Values
  import opened Fingerprints
  import opened Permutations

  /** Funcs, channels and unsafe pointers are seen by nil-ness only. */
  predicate SimilarScalar(x: Scalar, y: Scalar) {
    x == y || (x.Opaque? && y.Opaque? && x.kind == y.kind && (x.id == 0 <==> y.id == 0))
  }

  /** The same content: equal trees up to the order of map entries at every
      depth. */
  ghost predicate Similar(t: Term, u: Term)
    decreases t, 0
  {
    match (t, u)
    case (TLeaf(x), TLeaf(y)) => SimilarScalar(x, y)
    case (TBox(b, e), TBox(c, f)) => b == c && Similar(e, f)
    case (TList(b, es), TList(c, fs)) => b == c && SimilarAll(es, fs)
    case (TMap(es), TMap(fs)) => exists p :: SimilarEntries(es, fs, p)
    case _ => t == u
  }

  ghost predicate SimilarAll(es: seq<Term>, fs: seq<Term>)
    decreases es, 0
  {
    |es| == |fs| && forall i :: 0 <= i < |es| ==> Similar(es[i], fs[i])
  }

  ghost predicate SimilarEntry(e: Entry<Term>, f: Entry<Term>)
    decreases e, 0
  {
    Similar(e.key, f.key) && Similar(e.val, f.val)
  }

  /** Entry i of one map answers to entry p[i] of the other. */
  ghost predicate SimilarEntries(es: seq<Entry<Term>>, fs: seq<Entry<Term>>, p: seq<nat>)
    decreases es, 0
  {
    && |es| == |fs|
    && IsPermutation(p, |es|)
    && forall i :: 0 <= i < |es| ==> SimilarEntry(es[i], fs[p[i]])
  }

  // ---- Order and identity do not show ----

  lemma {:induction false} SimilarHeader(t: Term, u: Term)
    requires Fits(t) && Fits(u) && Similar(t, u)
    ensures Header(t) == Header(u)
  {
  }

  lemma {:induction false} ContentOnly(t: Term, u: Term, s: State)
    requires Fits(t) && Fits(u) && Similar(t, u)
    ensures Fingerprint(t, s) == Fingerprint(u, s)
    decreases t, 0
  {
    if !s.full && s.left > 0 {
      SimilarHeader(t, u);
      var s1 := Entered(t, s);
      assert Entered(u, s) == s1;
      match t {
        case TBox(_, e) => ContentOnly(e, u.elem, s1);
        case TList(_, es) => ContentOnlyAll(es, u.elems, s1);
        case TMap(es) =>
          var p :| SimilarEntries(es, u.entries, p);
          ContentOnlyEntries(es, u.entries, p, s1);
        case _ =>
      }
    }
  }

  lemma {:induction false} ContentOnlyAll(es: seq<Term>, fs: seq<Term>, s: State)
    requires AllFit(es) && AllFit(fs) && SimilarAll(es, fs)
    ensures FingerprintAll(es, s) == FingerprintAll(fs, s)
    decreases es, 0
  {
    if es != [] && !s.full {
      ContentOnly(es[0], fs[0], s);
      assert SimilarAll(es[1..], fs[1..]);
      ContentOnlyAll(es[1..], fs[1..], Fingerprint(es[0], s));
    }
  }

  lemma {:induction false} ContentOnlyEntry(e: Entry<Term>, f: Entry<Term>, room: nat, share: nat)
    requires Fits(e.key) && Fits(e.val) && Fits(f.key) && Fits(f.val) && SimilarEntry(e, f)
    ensures FingerprintEntry(e, room, share) == FingerprintEntry(f, room, share)
    decreases e, 0
  {
    ContentOnly(e.key, f.key, Start(room, share));
    ContentOnly(e.val, f.val, Fingerprint(e.key, Start(room, share)));
  }

  lemma {:induction false} ContentOnlyEntries(es: seq<Entry<Term>>, fs: seq<Entry<Term>>, p: seq<nat>, s: State)
    requires EntriesFit(es) && EntriesFit(fs) && SimilarEntries(es, fs, p)
    ensures FingerprintEntries(es, s) == FingerprintEntries(fs, s)
    decreases es, 0
  {
    var n := |es|;
    if n > 0 && !s.full && SortCost(n) <= s.left {
      var share, room := NodeShare(s, n), RoomShare(s, n);
      var subs, tubs := EntryStates(es, room, share), EntryStates(fs, room, share);
      forall i | 0 <= i < n ensures subs[i] == tubs[p[i]] {
        EntryStateAt(es, room, share, i);
        EntryStateAt(fs, room, share, p[i]);
        ContentOnlyEntry(es[i], fs[p[i]], room, share);
      }
      assert subs == Arrange(tubs, p);
      EntryOrderIsInvisible(tubs, p, s, share);
    }
  }

  /** Finishing a map does not depend on the order its entries were visited in. */
  lemma {:induction false} EntryOrderIsInvisible(subs: seq<State>, p: seq<nat>, s: State, share: nat)
    requires IsPermutation(p, |subs|)
    requires forall i :: 0 <= i < |subs| ==> subs[i].left <= share
    requires SortCost(|subs|) <= s.left && Times(|subs|, share) <= s.left - SortCost(|subs|)
    ensures FinishMap(Arrange(subs, p), s, share) == FinishMap(subs, s, share)
  {
    var r := Arrange(subs, p);
    ArrangeMultiset(subs, p);
    UsedByMultiset(r, subs, share);
    assert Prints(r) == Arrange(Prints(subs), p);
    ArrangeMultiset(Prints(subs), p);
    SortIgnoresOrder(Prints(r), Prints(subs));
    NodeCutSomewhere(r);
    NodeCutSomewhere(subs);
    assert AnyNodeCut(r) == AnyNodeCut(subs) by {
      if AnyNodeCut(subs) {
        var i :| 0 <= i < |subs| && subs[i].nodeCut;
        var k := PermutationHits(p, |p|, i);
        assert r[k].nodeCut;
      }
      if AnyNodeCut(r) {
        var i :| 0 <= i < |r| && r[i].nodeCut;
        assert subs[p[i]].nodeCut;
      }
    }
  }

  lemma {:induction false} UsedByMultiset(a: seq<State>, b: seq<State>, share: nat)
    requires multiset(a) == multiset(b)
    requires forall i :: 0 <= i < |a| ==> a[i].left <= share
    requires forall i :: 0 <= i < |b| ==> b[i].left <= share
    ensures Used(a, share) == Used(b, share)
    decreases |a|
  {
    assert |a| == |multiset(a)| && |b| == |multiset(b)|;
    if a != [] {
      var k := MatchLast(a, b);
      UsedByMultiset(a[..|a| - 1], Without(b, k), share);
      UsedWithout(a, |a| - 1, share);
      assert Without(a, |a| - 1) == a[..|a| - 1];
      UsedWithout(b, k, share);
    }
  }

  lemma {:induction false} UsedWithout(a: seq<State>, k: nat, share: nat)
    requires k < |a| && forall i :: 0 <= i < |a| ==> a[i].left <= share
    ensures Used(a, share) == Used(Without(a, k), share) + share - a[k].left
  {
    if k == 0 {
      assert Without(a, 0) == a[1..];
    } else {
      assert Without(a, k)[1..] == Without(a[1..], k - 1);
      UsedWithout(a[1..], k - 1, share);
    }
  }

  // ---- A larger allowance changes nothing that was not cut for want of nodes ----

  lemma {:induction false} NodeCutStays(t: Term, s: State)
    requires Fits(t) && s.nodeCut
    ensures Fingerprint(t, s).nodeCut
    decreases t, 0
  {
    if !s.full && s.left > 0 {
      match t {
        case TBox(_, e) => NodeCutStays(e, Entered(t, s));
        case TList(_, es) => NodeCutStaysAll(es, Entered(t, s));
        case _ =>
      }
    }
  }

  lemma {:induction false} NodeCutStaysAll(es: seq<Term>, s: State)
    requires AllFit(es) && s.nodeCut
    ensures FingerprintAll(es, s).nodeCut
    decreases es, 0
  {
    if es != [] && !s.full {
      NodeCutStays(es[0], s);
      NodeCutStaysAll(es[1..], Fingerprint(es[0], s));
    }
  }

  function More(s: State, d: nat): State {
    s.(left := s.left + d)
  }

  lemma {:induction false} WriteAllMore(s: State, chunks: seq<seq<Byte>>, d: nat)
    ensures WriteAll(More(s, d), chunks) == More(WriteAll(s, chunks), d)
    decreases chunks
  {
    if chunks != [] {
      WriteAllMore(Write(s, chunks[0]), chunks[1..], d);
    }
  }

  lemma {:induction false} WritePrintsMore(ps: seq<Print>, s: State, d: nat)
    ensures WritePrints(ps, More(s, d)) == More(WritePrints(ps, s), d)
  {
    if ps != [] {
      var p := ps[0];
      var s1 := if p.complete then s else s.(incomplete := true);
      var s2 := Write(s1, Uvarint(|p.data|) + p.data + [if p.complete then 1 else 0]);
      WritePrintsMore(ps[1..], s2, d);
    }
  }

  /** A fingerprint that was not cut for want of nodes is the same for every
      larger allowance, and visits as many nodes. */
  lemma {:induction false} LargerAllowance(t: Term, s: State, d: nat)
    requires Fits(t) && !Fingerprint(t, s).nodeCut
    ensures Fingerprint(t, More(s, d)) == More(Fingerprint(t, s), d)
    decreases t, 0
  {
    if !s.full && s.left > 0 {
      var s1 := Entered(t, s);
      EnteredMore(t, s, d);
      match t {
        case TBox(_, e) => LargerAllowance(e, s1, d);
        case TList(_, es) => LargerAllowanceAll(es, s1, d);
        case TMap(es) =>
          if |es| <= MAX_MAP_ENTRIES {
            LargerAllowanceEntries(es, s1, d);
          }
        case _ =>
      }
    }
  }

  lemma {:induction false} EnteredMore(t: Term, s: State, d: nat)
    requires Fits(t) && s.left > 0
    ensures Entered(t, More(s, d)) == More(Entered(t, s), d)
  {
    var s1: State := s.(left := s.left - 1, incomplete := s.incomplete || t.TDepthCut?);
    WriteAllMore(s1, Header(t), d);
  }

  lemma {:induction false} LargerAllowanceAll(es: seq<Term>, s: State, d: nat)
    requires AllFit(es) && !FingerprintAll(es, s).nodeCut
    ensures FingerprintAll(es, More(s, d)) == More(FingerprintAll(es, s), d)
    decreases es, 0
  {
    if es != [] && !s.full {
      var s1 := Fingerprint(es[0], s);
      if s1.nodeCut {
        NodeCutStaysAll(es[1..], s1);
      }
      LargerAllowance(es[0], s, d);
      LargerAllowanceAll(es[1..], s1, d);
    }
  }

  lemma {:induction false} LargerAllowanceEntry(e: Entry<Term>, room: nat, share: nat, d: nat)
    requires Fits(e.key) && Fits(e.val) && !FingerprintEntry(e, room, share).nodeCut
    ensures FingerprintEntry(e, room, share + d) == More(FingerprintEntry(e, room, share), d)
    decreases e, 0
  {
    var s := Fingerprint(e.key, Start(room, share));
    if s.nodeCut {
      NodeCutStays(e.val, s);
    }
    LargerAllowance(e.key, Start(room, share), d);
    assert More(Start(room, share), d) == Start(room, share + d);
    LargerAllowance(e.val, s, d);
  }

  ghost predicate IsMore(a: State, b: State, share: nat, share': nat) {
    share <= share' && a.left <= share && b == More(a, share' - share)
  }

  ghost predicate AllMore(a: seq<State>, b: seq<State>, share: nat, share': nat) {
    && |a| == |b| && share <= share'
    && forall i :: 0 <= i < |a| ==> IsMore(a[i], b[i], share, share')
  }

  lemma {:induction false} LargerAllowanceSubs(es: seq<Entry<Term>>, room: nat, share: nat, share': nat)
    requires EntriesFit(es) && share <= share'
    requires forall i :: 0 <= i < |es| ==> !EntryStates(es, room, share)[i].nodeCut
    ensures AllMore(EntryStates(es, room, share), EntryStates(es, room, share'), share, share')
    decreases es, 1
  {
    var a, b := EntryStates(es, room, share), EntryStates(es, room, share');
    hide *;
    forall i | 0 <= i < |es| ensures IsMore(a[i], b[i], share, share') {
      LargerAllowanceSub(es, room, share, share', i);
    }
    AreMore(a, b, share, share');
  }

  lemma {:induction false} LargerAllowanceSub(es: seq<Entry<Term>>, room: nat, share: nat, share': nat, i: nat)
    requires EntriesFit(es) && i < |es| && !EntryStates(es, room, share)[i].nodeCut && share <= share'
    ensures IsMore(EntryStates(es, room, share)[i], EntryStates(es, room, share')[i], share, share')
    decreases es, 0
  {
    assert Fits(es[i].key) && Fits(es[i].val);
    EntryStateAt(es, room, share, i);
    EntryStateAt(es, room, share', i);
    hide EntryStates, FingerprintEntry, Fits;
    LargerAllowanceEntry(es[i], room, share, share' - share);
  }

  lemma {:induction false} AreMore(a: seq<State>, b: seq<State>, share: nat, share': nat)
    requires |a| == |b| && share <= share' && forall i :: 0 <= i < |a| ==> IsMore(a[i], b[i], share, share')
    ensures AllMore(a, b, share, share')
  {
    hide IsMore;
  }

  lemma {:induction false} LargerAllowanceEntries(es: seq<Entry<Term>>, s: State, d: nat)
    requires EntriesFit(es) && !FingerprintEntries(es, s).nodeCut
    ensures FingerprintEntries(es, More(s, d)) == More(FingerprintEntries(es, s), d)
    decreases es, 2
  {
    var n := |es|;
    if n > 0 && !s.full {
      var share, share', room := SharesMore(es, s, d);
      hide *;
      var subs, subs' := EntryStates(es, room, share), EntryStates(es, room, share');
      NoEntryCut(subs, s, share);
      LargerAllowanceSubs(es, room, share, share');
      FinishMapMore(s, d, subs, subs', share, share');
    }
  }

  /** What each entry gets with s, and with d nodes more. */
  lemma {:induction false} SharesMore(es: seq<Entry<Term>>, s: State, d: nat) returns (share: nat, share': nat,
      room: nat)
    requires EntriesFit(es) && es != [] && !s.full && !FingerprintEntries(es, s).nodeCut
    ensures share <= share' && SortCost(|es|) <= s.left
    ensures Times(|es|, share) <= s.left - SortCost(|es|) && Times(|es|, share') <= s.left + d - SortCost(|es|)
    ensures FingerprintEntries(es, s) == FinishMap(EntryStates(es, room, share), s, share)
    ensures More(s, d).left == s.left + d
    ensures FingerprintEntries(es, More(s, d)) == FinishMap(EntryStates(es, room, share'), More(s, d), share')
  {
    var n := |es|;
    hide FinishMap, EntryStates, SortCost, Times;
    share, share', room := NodeShare(s, n), NodeShare(More(s, d), n), RoomShare(s, n);
    ShareGrows(n, s.left - SortCost(n), d);
  }

  lemma {:induction false} NoEntryCut(subs: seq<State>, s: State, share: nat)
    requires forall i :: 0 <= i < |subs| ==> subs[i].left <= share
    requires SortCost(|subs|) <= s.left && Times(|subs|, share) <= s.left - SortCost(|subs|)
    requires !FinishMap(subs, s, share).nodeCut
    ensures !s.nodeCut && forall i :: 0 <= i < |subs| ==> !subs[i].nodeCut
  {
    NodeCutSomewhere(subs);
  }

  lemma {:induction false} FinishMapMore(s: State, d: nat, subs: seq<State>, subs': seq<State>, share: nat, share': nat)
    requires AllMore(subs, subs', share, share')
    requires SortCost(|subs|) <= s.left && Times(|subs|, share) <= s.left - SortCost(|subs|)
    requires Times(|subs|, share') <= s.left + d - SortCost(|subs|)
    ensures forall i :: 0 <= i < |subs'| ==> subs'[i].left <= share'
    ensures FinishMap(subs', More(s, d), share') == More(FinishMap(subs, s, share), d)
  {
    UsedMore(subs, subs', share, share');
    NodeCutSomewhere(subs);
    NodeCutSomewhere(subs');
    assert forall i :: 0 <= i < |subs| ==> subs'[i].nodeCut == subs[i].nodeCut;
    assert Prints(subs') == Prints(subs);
    assert Charged(More(s, d), subs', share') == More(Charged(s, subs, share), d);
    WritePrintsMore(Sort(Prints(subs)), Charged(s, subs, share), d);
  }

  lemma {:induction false} ShareGrows(n: nat, left: nat, d: nat)
    requires n > 0
    ensures Share(n, left) <= Share(n, left + d)
  {
    var a, b := Share(n, left), Share(n, left + d);
    if a > b {
      ScaledAtMost(n, b + 1, a);
      assert false;
    }
  }

  lemma {:induction false} ScaledAtMost(n: nat, a: nat, b: nat)
    requires a <= b
    ensures Times(n, a) <= Times(n, b)
  {
    if n > 0 { ScaledAtMost(n - 1, a, b); }
  }

  lemma {:induction false} UsedMore(a: seq<State>, b: seq<State>, share: nat, share': nat)
    requires AllMore(a, b, share, share')
    ensures forall i :: 0 <= i < |b| ==> b[i].left <= share'
    ensures Used(a, share) == Used(b, share')
  {
    if a != [] {
      UsedMore(a[1..], b[1..], share, share');
    }
  }
}
