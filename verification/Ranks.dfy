/** Ranks in a finite total preorder: the number of elements strictly below. */
module Ranks {
  import opened Permutations

  function Sign(n: int): int {
    if n < 0 then -1 else if n > 0 then 1 else 0
  }

  /** How elements 0..n-1 compare; a total preorder. */
  type Order = (nat, nat) -> int

  ghost predicate TotalPreorder(cmp: Order, n: nat) {
    && (forall i, j :: 0 <= i < n && 0 <= j < n ==> cmp(i, j) <= 0 || cmp(j, i) < 0)
    && (forall i, j :: 0 <= i < n && 0 <= j < n && cmp(i, j) < 0 ==> cmp(j, i) > 0)
    && (forall i, j :: 0 <= i < n && 0 <= j < n && cmp(i, j) == 0 ==> cmp(j, i) == 0)
    && (forall i, j, k :: 0 <= i < n && 0 <= j < n && 0 <= k < n && cmp(i, j) <= 0 && cmp(j, k) <= 0 ==> cmp(i, k) <= 0)
  }

  ghost function BelowSet(cmp: Order, n: nat, i: nat): set<nat> {
    set j | 0 <= j < n && cmp(j, i) < 0
  }

  ghost function RankOf(cmp: Order, n: nat, i: nat): nat {
    |BelowSet(cmp, n, i)|
  }

  ghost function RanksOf(cmp: Order, n: nat): (r: seq<nat>)
    ensures |r| == n && forall i :: 0 <= i < n ==> r[i] == RankOf(cmp, n, i)
  {
    seq(n, i requires 0 <= i < n => RankOf(cmp, n, i))
  }

  /** Comparing elements is comparing their ranks. */
  lemma {:induction false} RankDecides(cmp: Order, n: nat, i: nat, j: nat)
    requires TotalPreorder(cmp, n) && i < n && j < n
    ensures cmp(i, j) < 0 <==> RankOf(cmp, n, i) < RankOf(cmp, n, j)
    ensures cmp(i, j) == 0 <==> RankOf(cmp, n, i) == RankOf(cmp, n, j)
  {
    RankFollows(cmp, n, i, j);
    RankFollows(cmp, n, j, i);
  }

  lemma {:induction false} RankFollows(cmp: Order, n: nat, i: nat, j: nat)
    requires TotalPreorder(cmp, n) && i < n && j < n
    ensures cmp(i, j) <= 0 ==> RankOf(cmp, n, i) <= RankOf(cmp, n, j)
    ensures cmp(i, j) < 0 ==> RankOf(cmp, n, i) < RankOf(cmp, n, j)
  {
    var a, b := BelowSet(cmp, n, i), BelowSet(cmp, n, j);
    if cmp(i, j) <= 0 {
      forall x | x in a ensures x in b {
        assert cmp(x, j) <= 0;
        assert cmp(x, j) == 0 ==> cmp(j, x) == 0 && cmp(i, x) <= 0;
      }
      SubsetSize(a, b);
    }
    if cmp(i, j) < 0 {
      assert i in b && i !in a;
      SubsetSize(a, b - {i});
    }
  }

  /** The positions whose rank is below c, and those at c. */
  ghost function Under(r: seq<nat>, c: nat): set<nat> {
    set j | 0 <= j < |r| && r[j] < c
  }

  ghost function At(r: seq<nat>, c: nat): set<nat> {
    set j | 0 <= j < |r| && r[j] == c
  }

  /** r are ranks: each is the number of positions below it. */
  ghost predicate AreRanks(r: seq<nat>) {
    forall i :: 0 <= i < |r| ==> r[i] == |Under(r, r[i])|
  }

  lemma {:induction false} RanksAreRanks(cmp: Order, n: nat)
    requires TotalPreorder(cmp, n)
    ensures AreRanks(RanksOf(cmp, n))
  {
    var r := RanksOf(cmp, n);
    forall i | 0 <= i < n ensures r[i] == |Under(r, r[i])| {
      forall j | 0 <= j < n ensures cmp(j, i) < 0 <==> r[j] < r[i] {
        RankDecides(cmp, n, j, i);
      }
      assert Under(r, r[i]) == BelowSet(cmp, n, i);
    }
  }

  lemma {:induction false} AtSize(r: seq<nat>, c: nat)
    ensures |At(r, c)| == multiset(r)[c]
  {
    if r != [] {
      var s := r[..|r| - 1];
      AtSize(s, c);
      var x := r[|r| - 1];
      assert r == s + [x];
      OneMoreAt(r, s, x, c);
    }
  }

  lemma {:induction false} OneMoreAt(r: seq<nat>, s: seq<nat>, x: nat, c: nat)
    requires r == s + [x]
    ensures |At(r, c)| == |At(s, c)| + if x == c then 1 else 0
  {
    var n := |s|;
    assert forall j :: 0 <= j < n ==> r[j] == s[j];
    assert n !in At(s, c);
    assert At(r, c) == At(s, c) + if x == c then {n} else {};
  }

  /** The next rank after c is c's plus the size of its class. */
  lemma {:induction false} UnderNext(r: seq<nat>, c: nat, d: nat)
    requires c < d && forall j :: 0 <= j < |r| ==> r[j] <= c || r[j] >= d
    ensures |Under(r, d)| == |Under(r, c)| + |At(r, c)|
  {
    assert Under(r, d) == Under(r, c) + At(r, c);
  }
}
