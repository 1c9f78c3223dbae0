/** Stable sorting by a comparison, and what sorted sequences have in common. */
module StableSorts {
  import opened KeyOrder
  import opened Permutations

  type Comparison<!T> = (T, T) -> int

  function InsertFirst<T>(x: T, s: seq<T>, cmp: Comparison<T>): seq<T> {
    if s == [] || cmp(x, s[0]) <= 0 then [x] + s else [s[0]] + InsertFirst(x, s[1..], cmp)
  }

  /** The stable sort. */
  function StableSort<T>(s: seq<T>, cmp: Comparison<T>): seq<T> {
    if s == [] then [] else InsertFirst(s[0], StableSort(s[1..], cmp), cmp)
  }

  ghost predicate Ascends<T(!new)>(s: seq<T>, cmp: Comparison<T>) {
    forall i, j :: 0 <= i < j < |s| ==> cmp(s[i], s[j]) <= 0
  }

  /** cmp orders the elements that are ok. */
  ghost predicate Orders<T(!new)>(cmp: Comparison<T>, ok: T -> bool) {
    && (forall x, y :: ok(x) && ok(y) ==> cmp(x, y) == -cmp(y, x))
    && (forall x, y, z :: ok(x) && ok(y) && ok(z) ==> Composes(cmp(x, y), cmp(y, z), cmp(x, z)))
  }

  ghost predicate AllOk<T(!new)>(s: seq<T>, ok: T -> bool) {
    forall i :: 0 <= i < |s| ==> ok(s[i])
  }

  lemma {:induction false} InsertFirstKeeps<T>(x: T, s: seq<T>, cmp: Comparison<T>)
    ensures multiset(InsertFirst(x, s, cmp)) == multiset(s) + multiset{x}
  {
    if s != [] && cmp(x, s[0]) > 0 {
      InsertFirstKeeps(x, s[1..], cmp);
      assert s == [s[0]] + s[1..];
    }
  }

  lemma {:induction false} InsertFirstAscends<T(!new)>(x: T, s: seq<T>, cmp: Comparison<T>, ok: T -> bool)
    requires Orders(cmp, ok) && ok(x) && AllOk(s, ok) && Ascends(s, cmp)
    ensures Ascends(InsertFirst(x, s, cmp), cmp)
  {
    if s != [] {
      assert ok(s[0]) && cmp(s[0], x) == -cmp(x, s[0]);
      var rest, r := s[1..], InsertFirst(x, s[1..], cmp);
      assert InsertFirst(x, s, cmp) == if cmp(x, s[0]) <= 0 then [x] + s else [s[0]] + r;
      TailAscends(s, cmp, ok);
      hide *;
      if cmp(x, s[0]) <= 0 {
        AllAbove(x, s, cmp, ok);
        ConsAscends(x, s, cmp);
      } else {
        InsertFirstAscends(x, rest, cmp, ok);
        InsertFirstKeeps(x, rest, cmp);
        StillAbove(s[0], x, rest, r, cmp);
        ConsAscends(s[0], r, cmp);
      }
    } else {
      assert InsertFirst(x, s, cmp) == [x];
    }
  }

  lemma {:induction false} TailAscends<T(!new)>(s: seq<T>, cmp: Comparison<T>, ok: T -> bool)
    requires s != [] && Ascends(s, cmp) && AllOk(s, ok)
    ensures Ascends(s[1..], cmp) && AllOk(s[1..], ok) && forall j :: 0 <= j < |s[1..]| ==> cmp(s[0], s[1..][j]) <= 0
  {
  }

  lemma {:induction false} ConsAscends<T(!new)>(x: T, s: seq<T>, cmp: Comparison<T>)
    requires Ascends(s, cmp) && forall j :: 0 <= j < |s| ==> cmp(x, s[j]) <= 0
    ensures Ascends([x] + s, cmp)
  {
  }

  lemma {:induction false} AllAbove<T(!new)>(x: T, s: seq<T>, cmp: Comparison<T>, ok: T -> bool)
    requires Orders(cmp, ok) && ok(x) && AllOk(s, ok) && Ascends(s, cmp) && s != [] && cmp(x, s[0]) <= 0
    ensures forall j :: 0 <= j < |s| ==> cmp(x, s[j]) <= 0
  {
    forall j | 0 <= j < |s| ensures cmp(x, s[j]) <= 0 {
      assert Composes(cmp(x, s[0]), cmp(s[0], s[j]), cmp(x, s[j]));
    }
  }

  lemma {:induction false} StillAbove<T(!new)>(y: T, x: T, s: seq<T>, r: seq<T>, cmp: Comparison<T>)
    requires multiset(r) == multiset(s) + multiset{x} && cmp(y, x) <= 0 && forall j :: 0 <= j < |s| ==>
              cmp(y, s[j]) <= 0
    ensures forall j :: 0 <= j < |r| ==> cmp(y, r[j]) <= 0
  {
    forall j | 0 <= j < |r| ensures cmp(y, r[j]) <= 0 {
      assert r[j] in multiset(r);
      if r[j] != x { assert r[j] in s; }
    }
  }

  lemma {:induction false} StableSortSorts<T(!new)>(s: seq<T>, cmp: Comparison<T>, ok: T -> bool)
    requires Orders(cmp, ok) && AllOk(s, ok)
    ensures var r := StableSort(s, cmp);
            multiset(r) == multiset(s) && |r| == |s| && AllOk(r, ok) && Ascends(r, cmp)
  {
    if s != [] {
      var t := StableSort(s[1..], cmp);
      StableSortSorts(s[1..], cmp, ok);
      InsertFirstKeeps(s[0], t, cmp);
      InsertFirstAscends(s[0], t, cmp, ok);
      assert s == [s[0]] + s[1..];
      SameMultisetOk(s, StableSort(s, cmp), ok);
    }
  }

  lemma {:induction false} SameMultisetOk<T(!new)>(s: seq<T>, r: seq<T>, ok: T -> bool)
    requires multiset(s) == multiset(r) && AllOk(s, ok)
    ensures |s| == |r| && AllOk(r, ok)
  {
    assert |s| == |multiset(s)| && |r| == |multiset(r)|;
    forall i | 0 <= i < |r| ensures ok(r[i]) {
      assert r[i] in multiset(s);
    }
  }

  /** Two sorted arrangements of the same elements tie at every place. */
  lemma {:induction false} SortedOnce<T(!new)>(s: seq<T>, r: seq<T>, cmp: Comparison<T>, ok: T -> bool, i: nat)
    requires Orders(cmp, ok) && AllOk(s, ok) && multiset(s) == multiset(r) && Ascends(s, cmp) && Ascends(r, cmp)
    requires i < |s|
    ensures |r| == |s| && cmp(s[i], r[i]) == 0
  {
    SameMultisetOk(s, r, ok);
    NotBelow(s, r, cmp, ok, i);
    NotBelow(r, s, cmp, ok, i);
    assert cmp(s[i], r[i]) == -cmp(r[i], s[i]);
  }

  /** If s[i] came before r[i], the i + 1 first elements of s would all be among
      the i first of r. */
  lemma {:induction false} NotBelow<T(!new)>(s: seq<T>, r: seq<T>, cmp: Comparison<T>, ok: T -> bool, i: nat)
    requires Orders(cmp, ok) && AllOk(s, ok) && AllOk(r, ok) && multiset(s) == multiset(r) && |s| == |r|
    requires Ascends(s, cmp) && Ascends(r, cmp) && i < |s|
    ensures cmp(s[i], r[i]) >= 0
  {
    var p := MultisetArrangement(s, r);
    MatchesIs(s, r, p);
    var j := OneNotBefore(p, i);
    assert cmp(s[i], s[i]) == -cmp(s[i], s[i]);
    assert s[j] == r[p[j]];
    NoneBelow(r, cmp, ok, i, p[j]);
    if cmp(s[i], r[i]) < 0 { ComposedBelow(s[j], s[i], r[i], cmp, ok); }
  }

  lemma {:induction false} ComposedBelow<T(!new)>(x: T, y: T, z: T, cmp: Comparison<T>, ok: T -> bool)
    requires Orders(cmp, ok) && ok(x) && ok(y) && ok(z) && cmp(x, y) <= 0 && cmp(y, z) < 0
    ensures cmp(x, z) < 0
  {
    assert Composes(cmp(x, y), cmp(y, z), cmp(x, z));
  }

  lemma {:induction false} NoneBelow<T(!new)>(r: seq<T>, cmp: Comparison<T>, ok: T -> bool, i: nat, j: nat)
    requires Orders(cmp, ok) && AllOk(r, ok) && Ascends(r, cmp) && i <= j < |r|
    ensures cmp(r[j], r[i]) >= 0
  {
    assert cmp(r[j], r[i]) == -cmp(r[i], r[j]);
  }

  /** i + 1 places do not fit among i. */
  lemma {:induction false} OneNotBefore(p: seq<nat>, i: nat) returns (j: nat)
    requires i < |p| && IsPermutation(p, |p|)
    ensures j <= i && p[j] >= i
  {
    var q := p[..i + 1];
    ImageSize(q, i + 1);
    var image := set k | 0 <= k < i + 1 :: q[k];
    if image <= Range(i) { SubsetSize(image, Range(i)); }
    var x :| x in image && x !in Range(i);
    j :| 0 <= j < i + 1 && q[j] == x;
  }
}
