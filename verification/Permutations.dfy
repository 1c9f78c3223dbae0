/** Permutations of index ranges, and what does not depend on the order of a
    sequence. A Go map may be iterated in any order, a new one each time. */
module Permutations {

  ghost predicate IsPermutation(p: seq<nat>, n: nat) {
    && |p| == n
    && (forall i :: 0 <= i < n ==> p[i] < n)
    && (forall i, j :: 0 <= i < j < n ==> p[i] != p[j])
  }

  /** An arbitrary element, as a map iteration gives its next key. */
  method AnyOf<T(==)>(s: set<T>) returns (x: T)
    requires s != {}
    ensures x in s
  {
    x :| x in s;
  }

  /** An arbitrary order in which to visit n entries. */
  method AnyOrder(n: nat) returns (p: seq<nat>)
    ensures IsPermutation(p, n)
  {
    p := [];
    var rest := Range(n);
    while rest != {}
      invariant |p| + |rest| == n
      invariant forall i :: i in rest ==> 0 <= i < n
      invariant forall i :: 0 <= i < |p| ==> p[i] < n && p[i] !in rest
      invariant forall i, j :: 0 <= i < j < |p| ==> p[i] != p[j]
      decreases |rest|
    {
      var i :| i in rest;
      p := p + [i];
      rest := rest - {i};
    }
  }

  function Range(n: nat): (r: set<nat>)
    ensures |r| == n
    ensures forall i: nat :: i in r <==> i < n
  {
    if n == 0 then {} else Range(n - 1) + {n - 1}
  }

  function Arrange<T>(s: seq<T>, p: seq<nat>): (r: seq<T>)
    requires |p| == |s| && forall i :: 0 <= i < |p| ==> p[i] < |s|
    ensures |r| == |s|
  {
    seq(|s|, i requires 0 <= i < |s| => s[p[i]])
  }

  function Without<T>(s: seq<T>, k: nat): (r: seq<T>)
    requires k < |s|
    ensures |r| == |s| - 1
    ensures forall i :: 0 <= i < |r| ==> r[i] == s[if i < k then i else i + 1]
  {
    s[..k] + s[k + 1..]
  }

  lemma {:induction false} WithoutMultiset<T>(s: seq<T>, k: nat)
    requires k < |s|
    ensures multiset(s) == multiset(Without(s, k)) + multiset{s[k]}
  {
    assert s == s[..k] + [s[k]] + s[k + 1..];
  }

  lemma {:induction false} PermutationWithoutLast(p: seq<nat>, k: nat)
    requires IsPermutation(p, |p|) && k < |p| && p[k] == |p| - 1
    ensures IsPermutation(Without(p, k), |p| - 1)
  {
  }

  lemma {:induction false} ArrangeWithout<T>(s: seq<T>, p: seq<nat>, k: nat)
    requires IsPermutation(p, |s|) && k < |p| && p[k] == |p| - 1
    ensures IsPermutation(Without(p, k), |s| - 1)
    ensures Arrange(s[..|s| - 1], Without(p, k)) == Without(Arrange(s, p), k)
  {
    PermutationWithoutLast(p, k);
  }

  lemma {:induction false} MultisetStep<T>(r: seq<T>, k: nat, s: seq<T>)
    requires k < |r| && s != [] && r[k] == s[|s| - 1]
    requires multiset(Without(r, k)) == multiset(s[..|s| - 1])
    ensures multiset(r) == multiset(s)
  {
    WithoutMultiset(r, k);
    assert s == s[..|s| - 1] + [s[|s| - 1]];
  }

  /** Rearranging a sequence keeps every element as often as it was there. */
  lemma {:induction false} ArrangeMultiset<T>(s: seq<T>, p: seq<nat>)
    requires IsPermutation(p, |s|)
    ensures multiset(Arrange(s, p)) == multiset(s)
    decreases |s|
  {
    if s == [] {
      assert Arrange(s, p) == s;
    } else {
      var k := PermutationHits(p, |s|, |s| - 1);
      ArrangeWithout(s, p, k);
      ArrangeMultiset(s[..|s| - 1], Without(p, k));
      MultisetStep(Arrange(s, p), k, s);
    }
  }

  lemma {:induction false} PermutationHits(p: seq<nat>, n: nat, x: nat) returns (k: nat)
    requires IsPermutation(p, n) && x < n
    ensures k < n && p[k] == x
  {
    if forall k :: 0 <= k < n ==> p[k] != x {
      var image := set i | 0 <= i < n :: p[i];
      ImageSize(p, n);
      assert image <= Range(n) - {x};
      SubsetSize(image, Range(n) - {x});
      assert false;
    }
    k :| k < n && p[k] == x;
  }

  lemma {:induction false} ImageSize(p: seq<nat>, n: nat)
    requires n <= |p| && forall i, j :: 0 <= i < j < n ==> p[i] != p[j]
    ensures |set i | 0 <= i < n :: p[i]| == n
  {
    if n > 0 {
      ImageSize(p, n - 1);
      assert (set i | 0 <= i < n :: p[i]) == (set i | 0 <= i < n - 1 :: p[i]) + {p[n - 1]};
    }
  }

  lemma {:induction false} SubsetSize<T>(a: set<T>, b: set<T>)
    requires a <= b
    ensures |a| <= |b|
  {
    if a != {} {
      var x :| x in a;
      SubsetSize(a - {x}, b - {x});
    }
  }

  /** q, sending one more index to k and stepping over k with the others. */
  function Extended(q: seq<nat>, k: nat): (p: seq<nat>)
    ensures |p| == |q| + 1 && p[|q|] == k
    ensures forall i :: 0 <= i < |q| ==> p[i] == if q[i] < k then q[i] else q[i] + 1
    ensures IsPermutation(q, |q|) && k <= |q| ==> IsPermutation(p, |p|)
  {
    seq(|q|, i requires 0 <= i < |q| => if q[i] < k then q[i] else q[i] + 1) + [k]
  }

  lemma {:induction false} MatchTaken<T>(s: seq<T>, t: seq<T>, k: nat)
    requires multiset(s) == multiset(t) && s != [] && k < |t| && t[k] == s[|s| - 1]
    ensures multiset(s[..|s| - 1]) == multiset(Without(t, k))
  {
    var x := s[|s| - 1];
    WithoutMultiset(t, k);
    assert s == s[..|s| - 1] + [x];
    assert multiset(s[..|s| - 1]) == multiset(s) - multiset{x};
    assert multiset(Without(t, k)) == multiset(t) - multiset{x};
  }

  lemma {:induction false} MatchLast<T>(s: seq<T>, t: seq<T>) returns (k: nat)
    requires multiset(s) == multiset(t) && s != []
    ensures |s| == |t| && k < |t| && t[k] == s[|s| - 1]
    ensures multiset(s[..|s| - 1]) == multiset(Without(t, k))
  {
    assert |s| == |multiset(s)| && |t| == |multiset(t)|;
    var x := s[|s| - 1];
    assert x in multiset(s);
    k :| k < |t| && t[k] == x;
    MatchTaken(s, t, k);
  }

  ghost predicate Matches<T>(s: seq<T>, t: seq<T>, p: seq<nat>) {
    && |s| == |t|
    && IsPermutation(p, |s|)
    && forall i :: 0 <= i < |s| ==> s[i] == t[p[i]]
  }

  lemma {:induction false} MatchesExtended<T>(s: seq<T>, t: seq<T>, q: seq<nat>, k: nat)
    requires |s| == |t| && s != [] && k < |t| && t[k] == s[|s| - 1]
    requires Matches(s[..|s| - 1], Without(t, k), q)
    ensures Matches(s, t, Extended(q, k))
  {
    var p, w := Extended(q, k), Without(t, k);
    forall i | 0 <= i < |s| ensures s[i] == t[p[i]] {
      if i < |s| - 1 {
        assert s[i] == w[q[i]];
      }
    }
  }

  /** Two sequences with the same elements, as often, are rearrangements of
      each other. */
  lemma {:induction false} MultisetArrangement<T>(s: seq<T>, t: seq<T>) returns (p: seq<nat>)
    requires multiset(s) == multiset(t)
    ensures Matches(s, t, p)
    decreases |s|
  {
    assert |s| == |multiset(s)| && |t| == |multiset(t)|;
    if s == [] {
      p := [];
    } else {
      var k := MatchLast(s, t);
      var q := MultisetArrangement(s[..|s| - 1], Without(t, k));
      p := Extended(q, k);
      MatchesExtended(s, t, q, k);
    }
  }

  /** Such a rearrangement, found one element at a time. */
  method Rearrangement<T(==)>(s: seq<T>, t: seq<T>) returns (p: seq<nat>)
    requires multiset(s) == multiset(t)
    ensures Matches(s, t, p)
    decreases |s|
  {
    assert |s| == |multiset(s)| && |t| == |multiset(t)|;
    if s == [] { return []; }
    ghost var found := MatchLast(s, t);
    var k := 0;
    while t[k] != s[|s| - 1]
      invariant k <= found
      decreases found - k
    {
      k := k + 1;
    }
    MatchTaken(s, t, k);
    var q := Rearrangement(s[..|s| - 1], Without(t, k));
    p := Extended(q, k);
    MatchesExtended(s, t, q, k);
  }

  lemma {:induction false} MatchesIs<T>(s: seq<T>, t: seq<T>, p: seq<nat>)
    requires Matches(s, t, p)
    ensures |s| == |t| == |p| && IsPermutation(p, |s|) && forall i :: 0 <= i < |s| ==> p[i] < |t| && s[i] == t[p[i]]
  {
  }

  lemma {:induction false} SameElements<T>(a: seq<T>, b: seq<T>, p: seq<nat>)
    requires |a| == |b| && IsPermutation(p, |a|) && forall i :: 0 <= i < |a| ==> a[i] == b[p[i]]
    ensures multiset(a) == multiset(b)
  {
    assert a == Arrange(b, p);
    ArrangeMultiset(b, p);
  }
}
