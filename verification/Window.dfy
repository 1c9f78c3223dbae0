/** Selecting the first k entries of a map without sorting it. */
module Windows {
  import opened Bytes
  import opened Values
  import opened Fingerprints
  import opened FingerprintDecodes
  import opened HeapContents
  import opened Meters
  import opened Options
  import opened KeyOrder
  import opened Permutations
  import Ranks

  function KeyCompare(m: seq<MapEntry>): Ranks.Order {
    (i: nat, j: nat) => if i < |m| && j < |m| then CompareKeys(m[i].key, m[j].key) else 0
  }

  ghost predicate KeysTyped(named: Named, kt: KeyType, m: seq<MapEntry>) {
    forall i :: 0 <= i < |m| ==> KeyHasType(named, m[i].key, kt)
  }

  /** r orders the entries as their keys do. */
  ghost predicate OrdersKeys(m: seq<MapEntry>, r: seq<nat>) {
    && |r| == |m|
    && forall i, j :: 0 <= i < |m| && 0 <= j < |m| ==>
         && (CompareKeys(m[i].key, m[j].key) < 0 <==> r[i] < r[j])
         && (CompareKeys(m[i].key, m[j].key) == 0 <==> r[i] == r[j])
  }

  lemma {:induction false} KeyRanks(named: Named, kt: KeyType, m: seq<MapEntry>) returns (r: seq<nat>)
    requires KeysTyped(named, kt, m)
    ensures OrdersKeys(m, r) && Ranks.AreRanks(r)
  {
    var cmp, n := KeyCompare(m), |m|;
    KeysPreordered(named, kt, m);
    hide *;
    r := Ranks.RanksOf(cmp, n);
    Ranks.RanksAreRanks(cmp, n);
    RanksOrderKeys(m, r);
  }

  lemma {:induction false} KeysPreordered(named: Named, kt: KeyType, m: seq<MapEntry>)
    requires KeysTyped(named, kt, m)
    ensures Ranks.TotalPreorder(KeyCompare(m), |m|)
  {
    var cmp, n := KeyCompare(m), |m|;
    forall i: nat, j: nat | i < n && j < n ensures cmp(i, j) == -cmp(j, i) {
      hide CompareKeys;
      CompareKeysAntisymmetric(named, m[i].key, m[j].key, kt);
    }
    forall i: nat, j: nat, k: nat | i < n && j < n && k < n ensures Composes(cmp(i, j), cmp(j, k), cmp(i, k)) {
      hide CompareKeys, Composes;
      CompareKeysTransitive(named, m[i].key, m[j].key, m[k].key, kt);
    }
    hide CompareKeys, KeyCompare, KeysTyped;
  }

  lemma {:induction false} RanksOrderKeys(m: seq<MapEntry>, r: seq<nat>)
    requires Ranks.TotalPreorder(KeyCompare(m), |m|) && r == Ranks.RanksOf(KeyCompare(m), |m|)
    ensures OrdersKeys(m, r)
  {
    var cmp, n := KeyCompare(m), |m|;
    hide CompareKeys, Ranks.TotalPreorder;
    forall i, j | 0 <= i < n && 0 <= j < n
      ensures CompareKeys(m[i].key, m[j].key) < 0 <==> r[i] < r[j]
      ensures CompareKeys(m[i].key, m[j].key) == 0 <==> r[i] == r[j]
    {
      Ranks.RankDecides(cmp, n, i, j);
    }
  }

  // ---- Pass one: the smallest distinct keys ----

  ghost predicate Increasing(r: seq<nat>, top: seq<nat>) {
    && (forall p :: 0 <= p < |top| ==> top[p] < |r|)
    && (forall p, q :: 0 <= p < q < |top| ==> r[top[p]] < r[top[q]])
  }

  ghost function Sharing(r: seq<nat>, scanned: set<nat>, c: nat): set<nat> {
    set x | x in scanned && x < |r| && r[x] == c
  }

  /** Each entry of top has its number of scanned entries with the same key. */
  ghost predicate Counted(r: seq<nat>, scanned: set<nat>, top: seq<nat>, counts: seq<nat>) {
    && |top| == |counts|
    && (forall p :: 0 <= p < |top| ==> top[p] < |r| && top[p] in scanned)
    && (forall p :: 0 <= p < |top| ==> counts[p] == |Sharing(r, scanned, r[top[p]])|)
  }

  /** Some entry of top has key rank c. */
  ghost predicate HasKey(r: seq<nat>, top: seq<nat>, c: nat) {
    top != [] && ((top[0] < |r| && r[top[0]] == c) || HasKey(r, top[1..], c))
  }

  lemma {:induction false} KeyAt(r: seq<nat>, top: seq<nat>, p: nat)
    requires p < |top| && top[p] < |r|
    ensures HasKey(r, top, r[top[p]])
  {
    if p > 0 { KeyAt(r, top[1..], p - 1); }
  }

  lemma {:induction false} FindKey(r: seq<nat>, top: seq<nat>, c: nat) returns (p: nat)
    requires HasKey(r, top, c)
    ensures p < |top| && top[p] < |r| && r[top[p]] == c
  {
    if top[0] < |r| && r[top[0]] == c {
      p := 0;
    } else {
      p := FindKey(r, top[1..], c);
      p := p + 1;
    }
  }

  ghost predicate AllBelow(r: seq<nat>, top: seq<nat>, c: nat) {
    forall p :: 0 <= p < |top| ==> top[p] < |r| && r[top[p]] < c
  }

  /** A scanned key is missing from top only when k smaller ones are there. */
  ghost predicate Covered(r: seq<nat>, scanned: set<nat>, top: seq<nat>, k: nat) {
    && |top| <= k
    && forall x :: x in scanned && x < |r| ==> HasKey(r, top, r[x]) || (|top| == k && AllBelow(r, top, r[x]))
  }

  /** top holds the k smallest keys of the scanned entries, smallest first,
      each with the number of scanned entries that share it. */
  ghost predicate Smallest(r: seq<nat>, scanned: set<nat>, top: seq<nat>, counts: seq<nat>, k: nat) {
    Increasing(r, top) && Counted(r, scanned, top, counts) && Covered(r, scanned, top, k)
  }

  method Compare(m: seq<MapEntry>, ghost r: seq<nat>, i: nat, j: nat) returns (c: int)
    requires OrdersKeys(m, r) && i < |m| && j < |m|
    ensures c < 0 <==> r[i] < r[j]
    ensures c == 0 <==> r[i] == r[j]
  {
    c := CompareKeys(m[i].key, m[j].key);
  }

  /** The place of entry e among top, from the right, and whether an entry with
      its key is there already. */
  method Locate(m: seq<MapEntry>, ghost r: seq<nat>, top: seq<nat>, e: nat) returns (pos: nat, seen: bool)
    requires OrdersKeys(m, r) && e < |m|
    requires Increasing(r, top)
    ensures pos <= |top|
    ensures seen ==> pos > 0 && r[top[pos - 1]] == r[e]
    ensures !seen ==> Belongs(r, top, e, pos)
  {
    pos, seen := |top|, false;
    while pos > 0
      invariant pos <= |top| && !seen
      invariant forall p :: pos <= p < |top| ==> r[e] < r[top[p]]
    {
      var c := Compare(m, r, e, top[pos - 1]);
      if c == 0 { return pos, true; }
      if c > 0 { return; }
      pos := pos - 1;
    }
  }

  lemma {:induction false} SharingGrows(r: seq<nat>, scanned: set<nat>, e: nat, c: nat)
    requires e < |r| && e !in scanned
    ensures |Sharing(r, scanned + {e}, c)| == |Sharing(r, scanned, c)| + if r[e] == c then 1 else 0
  {
    var a, b := Sharing(r, scanned, c), Sharing(r, scanned + {e}, c);
    assert b == if r[e] == c then a + {e} else a;
  }

  lemma {:induction false} Recounted(r: seq<nat>, scanned: set<nat>, top: seq<nat>, counts: seq<nat>, k: nat, e: nat,
      pos: nat)
    requires Smallest(r, scanned, top, counts, k) && e < |r| && e !in scanned
    requires 0 < pos <= |top| && r[top[pos - 1]] == r[e]
    ensures Smallest(r, scanned + {e}, top, counts[pos - 1 := counts[pos - 1] + 1], k)
  {
    var n := counts[pos - 1 := counts[pos - 1] + 1];
    assert Counted(r, scanned + {e}, top, n) by {
      forall p | 0 <= p < |top| ensures n[p] == |Sharing(r, scanned + {e}, r[top[p]])| {
        SharingGrows(r, scanned, e, r[top[p]]);
      }
    }
    KeyAt(r, top, pos - 1);
  }

  lemma {:induction false} PassedOver(r: seq<nat>, scanned: set<nat>, top: seq<nat>, counts: seq<nat>, k: nat, e: nat)
    requires Smallest(r, scanned, top, counts, k) && e < |r| && e !in scanned
    requires |top| == k && AllBelow(r, top, r[e])
    ensures Smallest(r, scanned + {e}, top, counts, k)
  {
    forall p | 0 <= p < |top| ensures counts[p] == |Sharing(r, scanned + {e}, r[top[p]])| {
      SharingGrows(r, scanned, e, r[top[p]]);
    }
  }

  function InsertAt(s: seq<nat>, pos: nat, x: nat, k: nat): (t: seq<nat>)
    requires pos <= |s| <= k && pos < k
    ensures |t| == if |s| < k then |s| + 1 else k
    ensures forall i :: 0 <= i < |t| ==> t[i] == if i < pos then s[i] else if i == pos then x else s[i - 1]
  {
    if |s| < k then s[..pos] + [x] + s[pos..] else s[..pos] + [x] + s[pos..|s| - 1]
  }

  /** e belongs at pos: keys before it are smaller, those from it on larger. */
  ghost predicate Belongs(r: seq<nat>, top: seq<nat>, e: nat, pos: nat) {
    && e < |r| && pos <= |top|
    && forall p :: 0 <= p < |top| ==> top[p] < |r| && if p < pos then r[top[p]] < r[e] else r[e] < r[top[p]]
  }

  lemma {:induction false} Inserted(r: seq<nat>, scanned: set<nat>, top: seq<nat>, counts: seq<nat>, k: nat, e: nat,
      pos: nat)
    requires Smallest(r, scanned, top, counts, k) && e !in scanned && pos < k && Belongs(r, top, e, pos)
    ensures Smallest(r, scanned + {e}, InsertAt(top, pos, e, k), InsertAt(counts, pos, 1, k), k)
  {
    InsertedIncreasing(r, top, k, e, pos);
    InsertedCounted(r, scanned, top, counts, k, e, pos);
    InsertedCovered(r, scanned, top, k, e, pos);
  }

  lemma {:induction false} InsertedIncreasing(r: seq<nat>, top: seq<nat>, k: nat, e: nat, pos: nat)
    requires Increasing(r, top) && Belongs(r, top, e, pos) && pos < k && |top| <= k
    ensures Increasing(r, InsertAt(top, pos, e, k))
  {
  }

  lemma {:induction false} InsertedCounted(
      r: seq<nat>, scanned: set<nat>, top: seq<nat>, counts: seq<nat>, k: nat, e: nat, pos: nat)
    requires Counted(r, scanned, top, counts) && Covered(r, scanned, top, k)
    requires Belongs(r, top, e, pos) && e !in scanned && pos < k
    ensures Counted(r, scanned + {e}, InsertAt(top, pos, e, k), InsertAt(counts, pos, 1, k))
  {
    var t, n := InsertAt(top, pos, e, k), InsertAt(counts, pos, 1, k);
    assert Sharing(r, scanned, r[e]) == {} by {
      forall x | x in scanned && x < |r| ensures r[x] != r[e] {
        if HasKey(r, top, r[x]) {
          var p := FindKey(r, top, r[x]);
        } else if |top| == k && AllBelow(r, top, r[x]) {
          assert r[top[pos]] < r[x];
        }
      }
    }
    forall p | 0 <= p < |t| ensures n[p] == |Sharing(r, scanned + {e}, r[t[p]])| {
      SharingGrows(r, scanned, e, r[t[p]]);
    }
  }

  lemma {:induction false} InsertedCovered(r: seq<nat>, scanned: set<nat>, top: seq<nat>, k: nat, e: nat, pos: nat)
    requires Increasing(r, top) && Covered(r, scanned, top, k) && Belongs(r, top, e, pos) && pos < k
    ensures Covered(r, scanned + {e}, InsertAt(top, pos, e, k), k)
  {
    var t := InsertAt(top, pos, e, k);
    forall x | x in scanned + {e} && x < |r|
      ensures HasKey(r, t, r[x]) || (|t| == k && AllBelow(r, t, r[x]))
    {
      if x == e {
        KeyAt(r, t, pos);
      } else if HasKey(r, top, r[x]) {
        KeptOrPushedOut(r, top, k, e, pos, r[x]);
      } else {
        assert AllBelow(r, top, r[x]) && r[e] < r[top[pos]];
      }
    }
  }

  lemma {:induction false} KeptOrPushedOut(r: seq<nat>, top: seq<nat>, k: nat, e: nat, pos: nat, c: nat)
    requires Increasing(r, top) && Belongs(r, top, e, pos) && pos < k && |top| <= k && HasKey(r, top, c)
    ensures var t := InsertAt(top, pos, e, k); HasKey(r, t, c) || (|t| == k && AllBelow(r, t, c))
  {
    var t := InsertAt(top, pos, e, k);
    var q := FindKey(r, top, c);
    if q < pos {
      KeyAt(r, t, q);
    } else if q + 1 < |t| {
      KeyAt(r, t, q + 1);
    } else {
      assert |t| == k && q + 1 == |top| && q + 1 == |t| && r[top[q]] == c;
      forall p | 0 <= p < |t| ensures t[p] < |r| && r[t[p]] < c {
        if p == pos { assert t[p] == e && r[e] < r[top[q]]; }
        if p > pos { assert t[p] == top[p - 1]; }
        if p < pos { assert t[p] == top[p]; }
      }
    }
  }

  ghost function Elements(s: seq<nat>): set<nat> {
    set x | x in s
  }

  method ScanKey(m: seq<MapEntry>, ghost r: seq<nat>, ghost scanned: set<nat>, top: seq<nat>, counts: seq<nat>,
      k: nat, e: nat) returns (top': seq<nat>, counts': seq<nat>)
    requires OrdersKeys(m, r) && e < |m| && e !in scanned && Smallest(r, scanned, top, counts, k)
    ensures Smallest(r, scanned + {e}, top', counts', k)
  {
    var pos, seen := Locate(m, r, top, e);
    if seen {
      Recounted(r, scanned, top, counts, k, e, pos);
      return top, counts[pos - 1 := counts[pos - 1] + 1];
    }
    if pos >= k {
      PassedOver(r, scanned, top, counts, k, e);
      return top, counts;
    }
    Inserted(r, scanned, top, counts, k, e, pos);
    return InsertAt(top, pos, e, k), InsertAt(counts, pos, 1, k);
  }

  method DistinctSmallest(m: seq<MapEntry>, ghost r: seq<nat>, order: seq<nat>, k: nat)
    returns (top: seq<nat>, counts: seq<nat>)
    requires OrdersKeys(m, r) && IsPermutation(order, |m|)
    ensures Smallest(r, Elements(order), top, counts, k)
  {
    top, counts := [], [];
    var t := 0;
    while t < |m|
      invariant 0 <= t <= |m| && Smallest(r, Elements(order[..t]), top, counts, k)
    {
      assert order[t] !in Elements(order[..t]) && Elements(order[..t + 1]) == Elements(order[..t]) + {order[t]};
      top, counts := ScanKey(m, r, Elements(order[..t]), top, counts, k, order[t]);
      t := t + 1;
    }
    assert order[..t] == order;
  }

  // ---- Between the passes: which classes tie inside the window ----

  /** All entries of the map. */
  ghost function All(r: seq<nat>): set<nat> {
    Range(|r|)
  }

  lemma {:induction false} SharingAll(r: seq<nat>, c: nat)
    ensures Sharing(r, All(r), c) == Ranks.At(r, c)
  {
  }

  /** The rank just past the first i classes of top. */
  ghost function Mark(r: seq<nat>, top: seq<nat>, i: nat): nat
    requires i <= |top| && forall p :: 0 <= p < |top| ==> top[p] < |r|
  {
    if i == 0 then 0 else r[top[i - 1]] + |Ranks.At(r, r[top[i - 1]])|
  }

  lemma {:induction false} NothingBetween(r: seq<nat>, top: seq<nat>, k: nat, i: nat, x: nat)
    requires Increasing(r, top) && Covered(r, All(r), top, k) && i < |top| && x < |r|
    ensures r[x] >= r[top[i]] || (i > 0 && r[x] <= r[top[i - 1]])
  {
    if HasKey(r, top, r[x]) {
      var p := FindKey(r, top, r[x]);
      if i > 0 && p < i - 1 { assert r[top[p]] < r[top[i - 1]]; }
    }
  }

  /** The entries before class i of top are as many as its rank. */
  lemma {:induction false} MarkIsRank(r: seq<nat>, top: seq<nat>, k: nat, i: nat)
    requires Increasing(r, top) && Covered(r, All(r), top, k) && Ranks.AreRanks(r) && i < |top|
    ensures Mark(r, top, i) == r[top[i]] >= i
    decreases i
  {
    forall x | 0 <= x < |r| ensures r[x] >= r[top[i]] || (i > 0 && r[x] <= r[top[i - 1]]) {
      NothingBetween(r, top, k, i, x);
    }
    if i == 0 {
      assert Ranks.Under(r, r[top[0]]) == {};
    } else {
      Ranks.UnderNext(r, r[top[i - 1]], r[top[i]]);
      assert top[i - 1] in Ranks.At(r, r[top[i - 1]]);
      MarkIsRank(r, top, k, i - 1);
    }
  }

  lemma {:induction false} RankBelowSize(r: seq<nat>, x: nat)
    requires Ranks.AreRanks(r) && x < |r|
    ensures r[x] < |r|
  {
    SubsetSize(Ranks.Under(r, r[x]), Range(|r|) - {x});
  }

  lemma {:induction false} NoneAfterLast(r: seq<nat>, top: seq<nat>, k: nat, x: nat)
    requires Increasing(r, top) && Covered(r, All(r), top, k) && |top| < k && x < |r|
    ensures top != [] && r[x] <= r[top[|top| - 1]]
  {
    assert x in All(r);
    var p := FindKey(r, top, r[x]);
    if p < |top| - 1 { assert r[top[p]] < r[top[|top| - 1]]; }
  }

  /** Past the last class there is nothing, or the window is full. */
  lemma {:induction false} LastMark(r: seq<nat>, top: seq<nat>, k: nat)
    requires Increasing(r, top) && Covered(r, All(r), top, k) && Ranks.AreRanks(r)
    ensures Mark(r, top, |top|) >= k || Mark(r, top, |top|) == |r|
  {
    hide Covered, Ranks.AreRanks;
    if |top| < k {
      LastMarkShort(r, top, k);
    } else if top != [] {
      MarkIsRank(r, top, k, |top| - 1);
      assert top[|top| - 1] in Ranks.At(r, r[top[|top| - 1]]);
    }
  }

  lemma {:induction false} LastMarkShort(r: seq<nat>, top: seq<nat>, k: nat)
    requires Increasing(r, top) && Covered(r, All(r), top, k) && Ranks.AreRanks(r) && |top| < k
    ensures Mark(r, top, |top|) == |r|
  {
    if r == [] { return; }
    NoneAfterLast(r, top, k, 0);
    var c := r[top[|top| - 1]];
    assert Ranks.Under(r, c) + Ranks.At(r, c) == Range(|r|) by {
      forall x | x in Range(|r|) ensures x in Ranks.Under(r, c) + Ranks.At(r, c) {
        NoneAfterLast(r, top, k, x);
      }
    }
    assert Ranks.Under(r, c) !! Ranks.At(r, c) && c == |Ranks.Under(r, c)|;
  }

  /** The entries that get a fingerprint: those whose key ties, in a class that
      starts inside the window. */
  ghost function TiedSet(r: seq<nat>, k: nat): set<nat> {
    set x | 0 <= x < |r| && |Ranks.At(r, r[x])| >= 2 && r[x] < k
  }

  ghost function TiedBelow(r: seq<nat>, k: nat, c: nat): set<nat> {
    set x | x in TiedSet(r, k) && r[x] < c
  }

  function Min(a: nat, b: nat): nat {
    if a < b then a else b
  }

  /** How many entries of a class of n the window can still hold. */
  function Need(n: nat, before: nat, k: nat): nat {
    if n >= 2 && before < k then Min(n, k - before) else 0
  }

  /** The entries of the first i classes. */
  function Before(counts: seq<nat>, i: nat): nat
    requires i <= |counts|
  {
    if i == 0 then 0 else Before(counts, i - 1) + counts[i - 1]
  }

  /** Those of them that tie in a class starting inside the window. */
  function TiedCount(counts: seq<nat>, k: nat, i: nat): nat
    requires i <= |counts|
  {
    if i == 0 then 0
    else TiedCount(counts, k, i - 1) + if counts[i - 1] >= 2 && Before(counts, i - 1) < k then counts[i - 1] else 0
  }

  method CountTies(counts: seq<nat>, k: nat) returns (need: seq<nat>, tied: nat)
    ensures |need| == |counts| && tied == TiedCount(counts, k, |counts|)
    ensures forall i {:trigger need[i]} :: 0 <= i < |need| ==> need[i] == Need(counts[i], Before(counts, i), k)
  {
    need, tied := [], 0;
    var before, i := 0, 0;
    while i < |counts|
      invariant 0 <= i <= |counts| && |need| == i && before == Before(counts, i) && tied == TiedCount(counts, k, i)
      invariant forall p {:trigger need[p]} :: 0 <= p < i ==> need[p] == Need(counts[p], Before(counts, p), k)
    {
      var n := counts[i];
      need := need + [if n >= 2 && before < k then Min(n, k - before) else 0];
      if n >= 2 && before < k { tied := tied + n; }
      before := before + n;
      i := i + 1;
    }
  }

  lemma {:induction false} MarkSteps(r: seq<nat>, top: seq<nat>, counts: seq<nat>, k: nat, i: nat)
    requires Smallest(r, All(r), top, counts, k) && i < |top|
    ensures Increasing(r, top) && |counts| == |top| && top[i] < |r|
    ensures Mark(r, top, i + 1) == r[top[i]] + |Ranks.At(r, r[top[i]])| && Mark(r, top, 0) == 0
    ensures Before(counts, i + 1) == Before(counts, i) + counts[i]
    ensures TiedCount(counts, k, i + 1)
            == TiedCount(counts, k, i) + if counts[i] >= 2 && Before(counts, i) < k then counts[i] else 0
  {
    hide Covered, Ranks.At;
  }

  lemma {:induction false} NoneTiedYet(r: seq<nat>, counts: seq<nat>, k: nat)
    ensures TiedBelow(r, k, 0) == {} && Before(counts, 0) == 0 && TiedCount(counts, k, 0) == 0
  {
  }

  lemma {:induction false} BeforeIsMark(r: seq<nat>, top: seq<nat>, counts: seq<nat>, k: nat, i: nat)
    requires Smallest(r, All(r), top, counts, k) && Ranks.AreRanks(r) && i <= |top|
    ensures Before(counts, i) == Mark(r, top, i)
    ensures TiedCount(counts, k, i) == |TiedBelow(r, k, Mark(r, top, i))|
  {
    if i == 0 {
      NoneTiedYet(r, counts, k);
      hide TiedBelow, Covered, Ranks.AreRanks;
    } else {
      hide *;
      var j := i - 1;
      MarkSteps(r, top, counts, k, j);
      BeforeIsMark(r, top, counts, k, j);
      ClassSize(r, top, counts, k, j);
      OneMoreClass(r, top, k, j);
    }
  }

  /** What the counts say about the map: where each class of the window starts,
      how large it is, and how many entries of the map tie inside the window. */
  lemma {:induction false} CountsDescribeTheMap(r: seq<nat>, top: seq<nat>, counts: seq<nat>, k: nat)
    requires Smallest(r, All(r), top, counts, k) && Ranks.AreRanks(r)
    ensures forall i :: 0 <= i < |top| ==>
              counts[i] == |Ranks.At(r, r[top[i]])| && Before(counts, i) == r[top[i]]
    ensures TiedCount(counts, k, |counts|) == |TiedSet(r, k)|
    ensures Before(counts, |counts|) >= k || Before(counts, |counts|) == |r|
  {
    forall i | 0 <= i < |top| ensures counts[i] == |Ranks.At(r, r[top[i]])| && Before(counts, i) == r[top[i]] {
      ClassSize(r, top, counts, k, i);
      BeforeIsMark(r, top, counts, k, i);
    }
    BeforeIsMark(r, top, counts, k, |top|);
    AllTiesCounted(r, top, k);
    LastMark(r, top, k);
  }

  lemma {:induction false} ClassSize(r: seq<nat>, top: seq<nat>, counts: seq<nat>, k: nat, i: nat)
    requires Smallest(r, All(r), top, counts, k) && Ranks.AreRanks(r) && i < |top|
    ensures counts[i] == |Ranks.At(r, r[top[i]])| && Mark(r, top, i) == r[top[i]]
  {
    SharingAll(r, r[top[i]]);
    MarkIsRank(r, top, k, i);
  }

  lemma {:induction false} AllTiesCounted(r: seq<nat>, top: seq<nat>, k: nat)
    requires Increasing(r, top) && Covered(r, All(r), top, k) && Ranks.AreRanks(r)
    ensures TiedBelow(r, k, Mark(r, top, |top|)) == TiedSet(r, k)
  {
    LastMark(r, top, k);
    forall x | 0 <= x < |r| ensures r[x] < |r| {
      RankBelowSize(r, x);
    }
  }

  lemma {:induction false} OneMoreClass(r: seq<nat>, top: seq<nat>, k: nat, i: nat)
    requires Increasing(r, top) && Ranks.AreRanks(r) && i < |top|
    ensures var c := r[top[i]];
            |TiedBelow(r, k, Mark(r, top, i + 1))|
            == |TiedBelow(r, k, c)| + if |Ranks.At(r, c)| >= 2 && c < k then |Ranks.At(r, c)| else 0
  {
    hide Ranks.AreRanks;
    var c := r[top[i]];
    var at := Ranks.At(r, c);
    assert top[i] in at;
    forall x | 0 <= x < |r| && c < r[x] ensures r[x] >= c + |at| {
      RanksSkip(r, top[i], x);
    }
    if |at| >= 2 && c < k {
      assert TiedBelow(r, k, c + |at|) == TiedBelow(r, k, c) + at;
    } else {
      assert TiedBelow(r, k, c + |at|) == TiedBelow(r, k, c);
    }
  }

  /** A larger rank is at least a whole class further on. */
  lemma {:induction false} RanksSkip(r: seq<nat>, a: nat, b: nat)
    requires Ranks.AreRanks(r) && a < |r| && b < |r| && r[a] < r[b]
    ensures r[b] >= r[a] + |Ranks.At(r, r[a])|
  {
    assert Ranks.Under(r, r[a]) !! Ranks.At(r, r[a]);
    SubsetSize(Ranks.Under(r, r[a]) + Ranks.At(r, r[a]), Ranks.Under(r, r[b]));
  }
}
