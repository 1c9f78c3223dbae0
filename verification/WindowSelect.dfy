/** The first k entries of a map in the order of a full sort by key and
    fingerprint, found in two passes that keep at most k entries. */
module WindowSelection {
  import opened Values
  import opened Fingerprints
  import opened FingerprintDecodes
  import opened HeapContents
  import opened Meters
  import opened Options
  import opened KeyOrder
  import opened Permutations
  import opened Windows
  import opened WindowClasses
  import Ranks

  // ---- Pass two: the entries of the tied classes ----

  /** Each tied class has kept what it should of the scanned entries. */
  ghost predicate ClassesKept(
      ps: seq<Print>, q: seq<nat>, r: seq<nat>, top: seq<nat>, need: seq<nat>, kept: seq<seq<Slot>>, scanned: set<nat>)
  {
    && |q| == |ps| == |r| && |top| == |need| == |kept|
    && forall c :: 0 <= c < |top| ==>
         top[c] < |r| && (need[c] > 0 ==> Kept(ps, q, kept[c], Sharing(r, scanned, r[top[c]]), need[c]))
  }

  /** The first class whose key is not below entry e's. */
  method FindClass(m: seq<MapEntry>, ghost r: seq<nat>, top: seq<nat>, e: nat) returns (ci: nat)
    requires OrdersKeys(m, r) && e < |m| && Increasing(r, top)
    ensures ci <= |top|
    ensures forall p :: 0 <= p < |top| ==> if p < ci then r[top[p]] < r[e] else r[top[p]] >= r[e]
  {
    ci := 0;
    var hi := |top|;
    while ci < hi
      invariant ci <= hi <= |top|
      invariant forall p :: 0 <= p < ci ==> r[top[p]] < r[e]
      invariant forall p :: hi <= p < |top| ==> r[top[p]] >= r[e]
    {
      var mid := (ci + hi) / 2;
      var c := Compare(m, r, top[mid], e);
      if c >= 0 { hi := mid; } else { ci := mid + 1; }
    }
  }

  /** The class of entry e among those that keep entries, if it has one. */
  method ClassOf(m: seq<MapEntry>, ghost r: seq<nat>, top: seq<nat>, need: seq<nat>, k: nat, e: nat) returns (ci: nat)
    requires OrdersKeys(m, r) && e < |m| && Increasing(r, top) && |need| == |top|
    ensures ci <= |top|
    ensures ci < |top| ==> need[ci] > 0 && r[top[ci]] == r[e]
    ensures ci == |top| ==> forall p :: 0 <= p < |top| && need[p] > 0 ==> r[top[p]] != r[e]
  {
    if |top| == k && k > 0 {
      var c := Compare(m, r, e, top[|top| - 1]);
      if c > 0 { return |top|; }
    }
    ci := FindClass(m, r, top, e);
    assert forall p :: ci < p < |top| ==> r[top[ci]] < r[top[p]];
    if ci == |top| || need[ci] == 0 { return |top|; }
    var c := Compare(m, r, top[ci], e);
    if c != 0 { return |top|; }
  }

  lemma {:induction false} SkipEntry(
      ps: seq<Print>, q: seq<nat>, r: seq<nat>, top: seq<nat>, need: seq<nat>, kept: seq<seq<Slot>>, scanned: set<nat>,
      e: nat)
    requires ClassesKept(ps, q, r, top, need, kept, scanned) && e < |r| && Increasing(r, top)
    requires forall p :: 0 <= p < |top| && need[p] > 0 ==> r[top[p]] != r[e]
    ensures ClassesKept(ps, q, r, top, need, kept, scanned + {e})
  {
    forall c | 0 <= c < |top| && need[c] > 0
      ensures Sharing(r, scanned + {e}, r[top[c]]) == Sharing(r, scanned, r[top[c]])
    {
    }
  }

  lemma {:induction false} TakeEntry(
      ps: seq<Print>, q: seq<nat>, r: seq<nat>, top: seq<nat>, need: seq<nat>, kept: seq<seq<Slot>>, scanned: set<nat>,
      e: nat, ci: nat, w: seq<Slot>)
    requires ClassesKept(ps, q, r, top, need, kept, scanned) && e < |r| && Increasing(r, top)
    requires ci < |top| && r[top[ci]] == r[e] && Kept(ps, q, w, Sharing(r, scanned, r[e]) + {e}, need[ci])
    ensures ClassesKept(ps, q, r, top, need, kept[ci := w], scanned + {e})
  {
    var kept' := kept[ci := w];
    forall c | 0 <= c < |top| && need[c] > 0
      ensures Kept(ps, q, kept'[c], Sharing(r, scanned + {e}, r[top[c]]), need[c])
    {
      if c == ci {
        assert Sharing(r, scanned + {e}, r[e]) == Sharing(r, scanned, r[e]) + {e};
      } else {
        assert r[top[c]] != r[e];
        assert Sharing(r, scanned + {e}, r[top[c]]) == Sharing(r, scanned, r[top[c]]);
      }
    }
  }

  // ---- What is returned ----

  /** Entry x is not after entry y, by rank of key, then of fingerprint. */
  ghost predicate NotAfter(r: seq<nat>, q: seq<nat>, x: nat, y: nat)
    requires |q| == |r|
  {
    x < |r| && y < |r| && (r[x] < r[y] || (r[x] == r[y] && q[x] <= q[y]))
  }

  /** A slot carries its fingerprint when its key ties, and its flag is right
      for the whole map. */
  ghost predicate Marked(ps: seq<Print>, r: seq<nat>, s: Slot)
    requires |ps| == |r|
  {
    && s.entry < |r|
    && s.fp == (if |Ranks.At(r, r[s.entry])| >= 2 then Some(ps[s.entry]) else None)
    && (s.ambiguous <==> Twin(ps, Ranks.At(r, r[s.entry]), s.entry))
  }

  ghost predicate InOrder(r: seq<nat>, q: seq<nat>, w: seq<Slot>)
    requires |q| == |r|
  {
    forall i, j :: 0 <= i < j < |w| ==>
      w[i].entry != w[j].entry && NotAfter(r, q, w[i].entry, w[j].entry)
  }

  ghost predicate NoneLater(r: seq<nat>, q: seq<nat>, w: seq<Slot>, x: nat)
    requires |q| == |r|
  {
    forall i :: 0 <= i < |w| ==> NotAfter(r, q, w[i].entry, x)
  }

  /** w is the window of the first k entries. */
  ghost predicate Chosen(ps: seq<Print>, q: seq<nat>, r: seq<nat>, w: seq<Slot>, k: nat)
    requires |ps| == |q| == |r|
  {
    && |w| == Min(k, |r|)
    && (forall i :: 0 <= i < |w| ==> Marked(ps, r, w[i]))
    && InOrder(r, q, w)
    && forall x :: 0 <= x < |r| ==> Holds(w, x) || NoneLater(r, q, w, x)
  }

  /** w is the whole of the classes below b. */
  ghost predicate Whole(ps: seq<Print>, q: seq<nat>, r: seq<nat>, w: seq<Slot>, b: nat)
    requires |ps| == |q| == |r|
  {
    && (forall i :: 0 <= i < |w| ==> Marked(ps, r, w[i]) && r[w[i].entry] < b)
    && InOrder(r, q, w)
    && forall x :: 0 <= x < |r| && r[x] < b ==> Holds(w, x)
  }

  /** u is what the class of rank c adds: all of it, or its first n entries. */
  ghost predicate Adds(ps: seq<Print>, q: seq<nat>, r: seq<nat>, u: seq<Slot>, c: nat, n: nat)
    requires |ps| == |q| == |r|
  {
    && |u| == n
    && (forall i :: 0 <= i < |u| ==> Marked(ps, r, u[i]) && r[u[i].entry] == c)
    && InOrder(r, q, u)
    && Filled(q, u, Ranks.At(r, c), n)
  }

  lemma {:induction false} HoldsAppend(w: seq<Slot>, u: seq<Slot>, x: nat)
    ensures Holds(w + u, x) <==> Holds(w, x) || Holds(u, x)
  {
    if w == [] {
      assert w + u == u;
    } else {
      HoldsAppend(w[1..], u, x);
      assert (w + u)[1..] == w[1..] + u;
    }
  }

  /** The entries of a class all fit when there is room for as many. */
  lemma {:induction false} HoldsAll(q: seq<nat>, u: seq<Slot>, s: set<nat>)
    requires Filled(q, u, s, |s|) && forall x :: x in s ==> x < |q|
    requires forall i :: 0 <= i < |u| ==> u[i].entry in s
    requires forall i, j :: 0 <= i < j < |u| ==> u[i].entry != u[j].entry
    ensures forall x :: x in s ==> Holds(u, x)
  {
    forall x | x in s ensures Holds(u, x) {
      if !Holds(u, x) {
        var es := seq(|u|, i requires 0 <= i < |u| => u[i].entry);
        ImageSize(es, |u|);
        var image := set i | 0 <= i < |u| :: es[i];
        forall i | 0 <= i < |u| ensures u[i].entry != x {
          HoldsAt(u, i);
        }
        SubsetSize(image, s - {x});
        assert false;
      }
    }
  }

  /** A class with room left has all its entries, so it fills its need. */
  lemma {:induction false} KeptFills(ps: seq<Print>, q: seq<nat>, w: seq<Slot>, s: set<nat>, need: nat)
    requires |q| == |ps| && Kept(ps, q, w, s, need) && need <= |s| && forall x :: x in s ==> x < |ps|
    ensures |w| == need
  {
    if |w| < need {
      var es := seq(|w|, i requires 0 <= i < |w| => w[i].entry);
      ImageSize(es, |w|);
      var image := set i | 0 <= i < |w| :: es[i];
      forall x | x in s ensures x in image {
        var i := FindHeld(w, x);
        assert es[i] == x;
      }
      SubsetSize(s, image);
      assert false;
    }
  }

  lemma {:induction false} Appended(ps: seq<Print>, q: seq<nat>, r: seq<nat>, w: seq<Slot>, u: seq<Slot>, c: nat,
      n: nat)
    requires |ps| == |q| == |r| && Whole(ps, q, r, w, c) && Adds(ps, q, r, u, c, n)
    ensures InOrder(r, q, w + u)
    ensures forall i :: 0 <= i < |w + u| ==> Marked(ps, r, (w + u)[i]) && r[(w + u)[i].entry] <= c
    ensures forall x :: 0 <= x < |r| && r[x] < c ==> Holds(w + u, x)
    ensures forall x :: 0 <= x < |r| && r[x] == c ==> Holds(w + u, x) || NoneAfter(q, u, q[x])
  {
    forall x | 0 <= x < |r|
      ensures r[x] < c ==> Holds(w + u, x)
      ensures r[x] == c ==> Holds(w + u, x) || NoneAfter(q, u, q[x])
    {
      HoldsAppend(w, u, x);
      assert r[x] == c ==> x in Ranks.At(r, c);
    }
  }

  /** A class that fits is added whole. */
  lemma {:induction false} AppendWhole(ps: seq<Print>, q: seq<nat>, r: seq<nat>, w: seq<Slot>, u: seq<Slot>, c: nat,
      b: nat)
    requires |ps| == |q| == |r| && Whole(ps, q, r, w, c) && Adds(ps, q, r, u, c, |Ranks.At(r, c)|)
    requires c < b && forall x :: 0 <= x < |r| ==> r[x] <= c || r[x] >= b
    ensures Whole(ps, q, r, w + u, b)
  {
    var at := Ranks.At(r, c);
    Appended(ps, q, r, w, u, c, |at|);
    HoldsAll(q, u, at);
    forall x | 0 <= x < |r| && r[x] < b ensures Holds(w + u, x) {
      HoldsAppend(w, u, x);
      assert r[x] == c ==> x in at;
    }
  }

  /** The window is full once k entries are out. */
  lemma {:induction false} AppendLast(ps: seq<Print>, q: seq<nat>, r: seq<nat>, w: seq<Slot>, u: seq<Slot>, c: nat,
      n: nat, k: nat)
    requires |ps| == |q| == |r| && Whole(ps, q, r, w, c) && Adds(ps, q, r, u, c, n) && |w| + n == k <= |r|
    ensures Chosen(ps, q, r, w + u, k)
  {
    Appended(ps, q, r, w, u, c, n);
    var v := w + u;
    forall x | 0 <= x < |r| ensures Holds(v, x) || NoneLater(r, q, v, x) {
      if r[x] == c && !Holds(v, x) {
        assert NoneAfter(q, u, q[x]);
        forall i | 0 <= i < |v| ensures NotAfter(r, q, v[i].entry, x) {
          if i >= |w| { assert v[i] == u[i - |w|]; }
        }
      }
    }
  }

  lemma {:induction false} AlreadyWhole(ps: seq<Print>, q: seq<nat>, r: seq<nat>, w: seq<Slot>, k: nat)
    requires |ps| == |q| == |r| && Ranks.AreRanks(r) && Whole(ps, q, r, w, |r|) && |w| == |r| <= k
    ensures Chosen(ps, q, r, w, k)
  {
    forall x | 0 <= x < |r| ensures Holds(w, x) {
      RankBelowSize(r, x);
    }
  }

  /** The only entry of its class needs no fingerprint. */
  lemma {:induction false} AddsOne(ps: seq<Print>, q: seq<nat>, r: seq<nat>, x: nat)
    requires |ps| == |q| == |r| && x < |r| && |Ranks.At(r, r[x])| == 1
    ensures Adds(ps, q, r, [Slot(x, None, false)], r[x], 1)
  {
    var at, u := Ranks.At(r, r[x]), [Slot(x, None, false)];
    forall y | y in at ensures y == x {
      SubsetSize({x, y}, at);
    }
    HoldsAt(u, 0);
  }

  /** What a tied class kept of the whole map. */
  lemma {:induction false} AddsKept(ps: seq<Print>, q: seq<nat>, r: seq<nat>, u: seq<Slot>, c: nat, n: nat)
    requires |ps| == |q| == |r| && |Ranks.At(r, c)| >= 2 && n <= |Ranks.At(r, c)|
    requires Kept(ps, q, u, Ranks.At(r, c), n)
    ensures Adds(ps, q, r, u, c, n)
  {
    KeptFills(ps, q, u, Ranks.At(r, c), n);
  }

  /** What class i adds to the window. */
  lemma {:induction false} ClassAdds(ps: seq<Print>, q: seq<nat>, r: seq<nat>, top: seq<nat>, counts: seq<nat>,
      need: seq<nat>,
      kept: seq<seq<Slot>>, k: nat, i: nat, u: seq<Slot>)
    requires |ps| == |q| == |r| && Ranks.AreRanks(r) && Smallest(r, All(r), top, counts, k)
    requires ClassesKept(ps, q, r, top, need, kept, All(r)) && i < |top|
    requires need[i] == Need(counts[i], Before(counts, i), k) && Before(counts, i) < k
    requires u == if need[i] == 0 then [Slot(top[i], None, false)] else kept[i]
    ensures Before(counts, i) == r[top[i]]
    ensures counts[i] == |Ranks.At(r, r[top[i]])| > 0
    ensures Adds(ps, q, r, u, r[top[i]], Min(counts[i], k - Before(counts, i)))
  {
    CountsDescribeTheMap(r, top, counts, k);
    var c := r[top[i]];
    assert top[i] in Ranks.At(r, c);
    SharingAll(r, c);
    if counts[i] == 1 {
      AddsOne(ps, q, r, top[i]);
    } else {
      AddsKept(ps, q, r, u, c, Min(counts[i], k - Before(counts, i)));
    }
  }

  /** Adding class i to the whole classes before it. */
  lemma {:induction false} AddClass(ps: seq<Print>, q: seq<nat>, r: seq<nat>, top: seq<nat>, counts: seq<nat>,
      w: seq<Slot>,
      u: seq<Slot>, k: nat, i: nat)
    requires |ps| == |q| == |r| && Ranks.AreRanks(r) && i < |top| == |counts| && top[i] < |r|
    requires Before(counts, i) == r[top[i]] < k && counts[i] == |Ranks.At(r, r[top[i]])| > 0
    requires Adds(ps, q, r, u, r[top[i]], Min(counts[i], k - r[top[i]]))
    requires Whole(ps, q, r, w, r[top[i]]) && |w| == r[top[i]]
    ensures |w + u| == Min(Before(counts, i + 1), k)
    ensures Before(counts, i + 1) <= |r|
    ensures Before(counts, i + 1) < k ==> Whole(ps, q, r, w + u, Before(counts, i + 1))
    ensures Before(counts, i + 1) >= k ==> Chosen(ps, q, r, w + u, k)
  {
    var c := r[top[i]];
    var n := counts[i];
    assert Ranks.Under(r, c) !! Ranks.At(r, c);
    SubsetSize(Ranks.Under(r, c) + Ranks.At(r, c), Range(|r|));
    if c + n < k {
      forall x | 0 <= x < |r| ensures r[x] <= c || r[x] >= c + n {
        if r[x] > c { RanksSkip(r, top[i], x); }
      }
      AppendWhole(ps, q, r, w, u, c, c + n);
    } else {
      AppendLast(ps, q, r, w, u, c, k - c, k);
    }
  }

  ghost predicate NeedsRight(counts: seq<nat>, need: seq<nat>, k: nat) {
    |need| == |counts| && forall i {:trigger need[i]} :: 0 <= i < |need| ==>
        need[i] == Need(counts[i], Before(counts, i), k)
  }

  /** The window after the first i classes, which takes no more once full. */
  ghost function Joined(top: seq<nat>, need: seq<nat>, kept: seq<seq<Slot>>, k: nat, i: nat): seq<Slot>
    requires i <= |top| == |need| == |kept|
  {
    if i == 0 then [] else
      var w := Joined(top, need, kept, k, i - 1);
      if |w| >= k then w
      else w + if need[i - 1] == 0 then [Slot(top[i - 1], None, false)] else kept[i - 1]
  }

  lemma {:induction false} FullStays(top: seq<nat>, need: seq<nat>, kept: seq<seq<Slot>>, k: nat, i: nat, j: nat)
    requires i <= j <= |top| == |need| == |kept| && |Joined(top, need, kept, k, i)| >= k
    ensures Joined(top, need, kept, k, j) == Joined(top, need, kept, k, i)
  {
    if i < j { FullStays(top, need, kept, k, i, j - 1); }
  }

  method Assemble(top: seq<nat>, need: seq<nat>, kept: seq<seq<Slot>>, k: nat) returns (out: seq<Slot>)
    requires |top| == |need| == |kept|
    ensures var w := Joined(top, need, kept, k, |top|); out == if |w| >= k && top != [] then w[..k] else w
  {
    out := [];
    var i := 0;
    while i < |top|
      invariant 0 <= i <= |top| && out == Joined(top, need, kept, k, i) && (|out| < k || i == 0)
    {
      if need[i] == 0 { out := out + [Slot(top[i], None, false)]; } else { out := out + kept[i]; }
      i := i + 1;
      if |out| >= k {
        FullStays(top, need, kept, k, i, |top|);
        return out[..k];
      }
    }
  }

  /** w is the whole of the classes below b, or the full window. */
  ghost predicate SoFar(ps: seq<Print>, q: seq<nat>, r: seq<nat>, w: seq<Slot>, b: nat, k: nat)
    requires |ps| == |q| == |r|
  {
    if |w| >= k then Chosen(ps, q, r, w, k) else |w| == b && Whole(ps, q, r, w, b)
  }

  lemma {:induction false} AddNext(ps: seq<Print>, q: seq<nat>, r: seq<nat>, top: seq<nat>, counts: seq<nat>,
      need: seq<nat>,
      kept: seq<seq<Slot>>, k: nat, i: nat, w: seq<Slot>, u: seq<Slot>)
    requires |ps| == |q| == |r| && Ranks.AreRanks(r) && Smallest(r, All(r), top, counts, k)
    requires ClassesKept(ps, q, r, top, need, kept, All(r)) && i < |top| && NeedsRight(counts, need, k)
    requires |w| < k && SoFar(ps, q, r, w, Before(counts, i), k)
    requires u == if need[i] == 0 then [Slot(top[i], None, false)] else kept[i]
    ensures SoFar(ps, q, r, w + u, Before(counts, i + 1), k)
  {
    ClassAdds(ps, q, r, top, counts, need, kept, k, i, u);
    AddClass(ps, q, r, top, counts, w, u, k, i);
  }

  /** Joining the classes gives the whole classes before it, or the window. */
  lemma {:induction false} JoinedSoFar(ps: seq<Print>, q: seq<nat>, r: seq<nat>, top: seq<nat>, counts: seq<nat>,
      need: seq<nat>, kept: seq<seq<Slot>>, k: nat, i: nat)
    requires |ps| == |q| == |r| && Ranks.AreRanks(r) && Smallest(r, All(r), top, counts, k)
    requires ClassesKept(ps, q, r, top, need, kept, All(r)) && NeedsRight(counts, need, k)
    requires i <= |top| == |need| == |kept| == |counts| && k > 0
    ensures SoFar(ps, q, r, Joined(top, need, kept, k, i), Before(counts, i), k)
  {
    hide Chosen, ClassesKept, Smallest, NeedsRight, Ranks.AreRanks;
    if i > 0 {
      hide Whole;
      JoinedSoFar(ps, q, r, top, counts, need, kept, k, i - 1);
      var w := Joined(top, need, kept, k, i - 1);
      if |w| < k {
        var u := if need[i - 1] == 0 then [Slot(top[i - 1], None, false)] else kept[i - 1];
        AddNext(ps, q, r, top, counts, need, kept, k, i - 1, w, u);
      }
    }
  }

  lemma {:induction false} JoinedIsChosen(ps: seq<Print>, q: seq<nat>, r: seq<nat>, top: seq<nat>, counts: seq<nat>,
      need: seq<nat>,
      kept: seq<seq<Slot>>, k: nat)
    requires |ps| == |q| == |r| && Ranks.AreRanks(r) && Smallest(r, All(r), top, counts, k)
    requires ClassesKept(ps, q, r, top, need, kept, All(r)) && NeedsRight(counts, need, k) && k > 0
    ensures Chosen(ps, q, r, Joined(top, need, kept, k, |top|), k)
  {
    JoinedSoFar(ps, q, r, top, counts, need, kept, k, |top|);
    CountsDescribeTheMap(r, top, counts, k);
    var w := Joined(top, need, kept, k, |top|);
    if |w| < k {
      AlreadyWhole(ps, q, r, w, k);
    }
  }

  // ---- The selection ----

  /** The values of the map have one type, and its keys another. */
  ghost predicate MapTyped(ts: Types, h: Heap, vt: TypeId, m: seq<MapEntry>) {
    forall i :: 0 <= i < |m| ==> Typed(ts, h, m[i].val, vt)
  }

  /** Every entry's fingerprint within one allowance. */
  ghost function AllPrints(ts: Types, h: Heap, vt: TypeId, m: seq<MapEntry>, allowance: nat): (ps: seq<Print>)
    requires MapTyped(ts, h, vt, m)
    ensures |ps| == |m| && forall i :: 0 <= i < |m| ==> ps[i] == TiePrint(ts, h, m[i].val, vt, allowance)
  {
    seq(|m|, i requires 0 <= i < |m| => TiePrint(ts, h, m[i].val, vt, allowance))
  }

  lemma {:induction false} TimesIs(n: nat, a: nat)
    ensures Times(n, a) == a * n
  {
    if n > 0 { TimesIs(n - 1, a); }
  }

  lemma {:induction false} TimesMore(a: nat, b: nat, c: nat)
    requires b <= c
    ensures Times(b, a) <= Times(c, a)
  {
    if b < c { TimesMore(a, b, c - 1); }
  }

  /** Spending the allowance on one more of the tied entries is within what was
      left before the first of them. */
  lemma {:induction false} Affordable(allowance: nat, tied: nat, used: nat, before: nat, left: nat)
    requires used < tied && Times(tied, allowance) <= before && left + Times(used, allowance) >= before
    ensures allowance <= left && Times(used + 1, allowance) == Times(used, allowance) + allowance
  {
    TimesMore(allowance, used + 1, tied);
  }

  /** Entry e of a tied class gets its fingerprint and is offered to its class. */
  method TakeTied(meter: FpMeter, ts: Types, h: Heap, vt: TypeId, m: seq<MapEntry>, allowance: nat,
      ghost ps: seq<Print>, ghost q: seq<nat>, w: seq<Slot>, ghost s: set<nat>, need: nat, e: nat)
    returns (v: seq<Slot>)
    requires meter.Valid(ts, h) && MapTyped(ts, h, vt, m) && ps == AllPrints(ts, h, vt, m, allowance)
    requires OrdersPrints(ps, q) && e < |m| && e !in s && Kept(ps, q, w, s, need) && allowance <= meter.left
    modifies meter`left, meter`visited, meter`memo
    ensures meter.Valid(ts, h) && old(meter.left) - allowance <= meter.left <= old(meter.left)
    ensures Kept(ps, q, v, s + {e}, need)
  {
    var fp := meter.TieFingerprint(ts, h, m[e].val, vt, allowance);
    v := Offer(ps, q, w, s, need, e, fp);
  }

  /** The entries that were fingerprinted are tied entries of the map, each
      fingerprinted once. */
  lemma {:induction false} OneMoreTied(r: seq<nat>, top: seq<nat>, counts: seq<nat>, need: seq<nat>, k: nat, ci: nat,
      e: nat,
      taken: set<nat>)
    requires Ranks.AreRanks(r) && Smallest(r, All(r), top, counts, k) && NeedsRight(counts, need, k)
    requires ci < |top| && need[ci] > 0 && e < |r| && r[top[ci]] == r[e]
    requires taken <= TiedSet(r, k) && e !in taken
    ensures taken + {e} <= TiedSet(r, k) && |taken| < |TiedSet(r, k)|
  {
    CountsDescribeTheMap(r, top, counts, k);
    assert e in TiedSet(r, k);
    SubsetSize(taken + {e}, TiedSet(r, k));
  }

  lemma {:induction false} InShape(m: seq<MapEntry>, ps: seq<Print>, q: seq<nat>, r: seq<nat>, top: seq<nat>,
      counts: seq<nat>,
      need: seq<nat>, kept: seq<seq<Slot>>, k: nat, scanned: set<nat>)
    requires Smallest(r, All(r), top, counts, k) && NeedsRight(counts, need, k)
    requires ClassesKept(ps, q, r, top, need, kept, scanned) && OrdersKeys(m, r)
    ensures Increasing(r, top) && |need| == |top| == |kept| && |r| == |m| == |ps| == |q|
    ensures forall p :: 0 <= p < |top| ==> top[p] < |r|
  {
  }

  lemma {:induction false} ClassSoFar(ps: seq<Print>, q: seq<nat>, r: seq<nat>, top: seq<nat>, need: seq<nat>,
      kept: seq<seq<Slot>>,
      scanned: set<nat>, ci: nat, e: nat)
    requires ClassesKept(ps, q, r, top, need, kept, scanned) && e < |r| && e !in scanned
    requires ci < |top| && need[ci] > 0 && top[ci] < |r| && r[top[ci]] == r[e]
    ensures Kept(ps, q, kept[ci], Sharing(r, scanned, r[e]), need[ci]) && e !in Sharing(r, scanned, r[e])
  {
  }

  /** One step of the second pass. taken are the entries fingerprinted so far,
      in which case allowance for each has been set aside from left. */
  method ScanTie(meter: FpMeter, ts: Types, h: Heap, vt: TypeId, m: seq<MapEntry>, k: nat, allowance: nat,
      ghost left: nat, ghost r: seq<nat>, ghost ps: seq<Print>, ghost q: seq<nat>,
      top: seq<nat>, ghost counts: seq<nat>, need: seq<nat>, kept: seq<seq<Slot>>, ghost scanned: set<nat>,
      ghost taken: set<nat>, e: nat) returns (kept': seq<seq<Slot>>, ghost taken': set<nat>)
    requires meter.Valid(ts, h) && MapTyped(ts, h, vt, m) && ps == AllPrints(ts, h, vt, m, allowance)
    requires OrdersKeys(m, r) && Ranks.AreRanks(r) && OrdersPrints(ps, q)
    requires Smallest(r, All(r), top, counts, k) && NeedsRight(counts, need, k)
    requires e < |m| && e !in scanned && taken <= scanned && ClassesKept(ps, q, r, top, need, kept, scanned)
    requires taken <= TiedSet(r, k) && Times(|TiedSet(r, k)|, allowance) <= left
    requires meter.left + Times(|taken|, allowance) >= left >= meter.left
    modifies meter`left, meter`visited, meter`memo
    ensures meter.Valid(ts, h) && taken' <= scanned + {e} && ClassesKept(ps, q, r, top, need, kept', scanned + {e})
    ensures taken' <= TiedSet(r, k) && meter.left + Times(|taken'|, allowance) >= left >= meter.left
  {
    hide *;
    InShape(m, ps, q, r, top, counts, need, kept, k, scanned);
    var ci := ClassOf(m, r, top, need, k, e);
    if ci == |top| {
      SkipEntry(ps, q, r, top, need, kept, scanned, e);
      return kept, taken;
    }
    ClassSoFar(ps, q, r, top, need, kept, scanned, ci, e);
    OneMoreTied(r, top, counts, need, k, ci, e, taken);
    Affordable(allowance, |TiedSet(r, k)|, |taken|, left, meter.left);
    var w := TakeTied(meter, ts, h, vt, m, allowance, ps, q, kept[ci], Sharing(r, scanned, r[e]), need[ci], e);
    TakeEntry(ps, q, r, top, need, kept, scanned, e, ci, w);
    taken' := taken + {e};
    kept' := kept[ci := w];
  }

  lemma {:induction false} NothingKeptYet(ps: seq<Print>, q: seq<nat>, r: seq<nat>, top: seq<nat>, counts: seq<nat>,
      need: seq<nat>,
      kept: seq<seq<Slot>>, order: seq<nat>, k: nat)
    requires |q| == |ps| == |r| && |top| == |need| == |kept| && Smallest(r, All(r), top, counts, k)
    requires forall i :: 0 <= i < |kept| ==> kept[i] == []
    ensures ClassesKept(ps, q, r, top, need, kept, Elements(order[..0]))
    ensures {} <= TiedSet(r, k) && {} <= Elements(order[..0]) && Times(0, 0) == 0
  {
    forall c | 0 <= c < |top| ensures Sharing(r, Elements(order[..0]), r[top[c]]) == {} {
    }
  }

  lemma {:induction false} EveryEntryScanned(order: seq<nat>)
    requires IsPermutation(order, |order|)
    ensures Elements(order) == Range(|order|)
  {
    forall x | x in Range(|order|) ensures x in Elements(order) {
      var i := PermutationHits(order, |order|, x);
    }
  }

  lemma {:induction false} SpentAtMost(allowance: nat, r: seq<nat>, k: nat, taken: set<nat>)
    requires taken <= TiedSet(r, k)
    ensures Times(|taken|, allowance) <= Times(|TiedSet(r, k)|, allowance)
  {
    SubsetSize(taken, TiedSet(r, k));
    TimesMore(allowance, |taken|, |TiedSet(r, k)|);
  }

  lemma {:induction false} OneMoreScanned(order: seq<nat>, t: nat)
    requires IsPermutation(order, |order|) && t < |order|
    ensures order[t] < |order| && order[t] !in Elements(order[..t])
    ensures Elements(order[..t + 1]) == Elements(order[..t]) + {order[t]}
  {
  }

  method ScanTies(meter: FpMeter, ts: Types, h: Heap, vt: TypeId, m: seq<MapEntry>, order: seq<nat>, k: nat,
      allowance: nat, ghost r: seq<nat>, ghost ps: seq<Print>, ghost q: seq<nat>,
      top: seq<nat>, ghost counts: seq<nat>, need: seq<nat>) returns (kept: seq<seq<Slot>>)
    requires meter.Valid(ts, h) && MapTyped(ts, h, vt, m) && ps == AllPrints(ts, h, vt, m, allowance)
    requires OrdersKeys(m, r) && Ranks.AreRanks(r) && OrdersPrints(ps, q) && |order| == |m|
    requires IsPermutation(order, |order|)
    requires Smallest(r, All(r), top, counts, k) && NeedsRight(counts, need, k)
    requires Times(|TiedSet(r, k)|, allowance) <= meter.left
    modifies meter`left, meter`visited, meter`memo
    ensures meter.Valid(ts, h)
    ensures meter.left <= old(meter.left) <= meter.left + Times(|TiedSet(r, k)|, allowance)
    ensures ClassesKept(ps, q, r, top, need, kept, All(r))
  {
    hide *;
    ghost var taken: set<nat> := {};
    ghost var left := meter.left;
    kept := seq(|top|, i => []);
    SameLengths(m, r, ps, q, top, counts, need, k);
    NothingKeptYet(ps, q, r, top, counts, need, kept, order, k);
    var t := 0;
    while t < |m|
      invariant 0 <= t <= |m| && meter.Valid(ts, h)
      invariant taken <= TiedSet(r, k) && taken <= Elements(order[..t])
      invariant meter.left <= left <= meter.left + Times(|taken|, allowance)
      invariant ClassesKept(ps, q, r, top, need, kept, Elements(order[..t]))
    {
      OneMoreScanned(order, t);
      kept, taken := ScanTie(meter, ts, h, vt, m, k, allowance, left, r, ps, q, top, counts, need, kept,
                             Elements(order[..t]), taken, order[t]);
      t := t + 1;
    }
    assert order[..t] == order;
    EveryEntryScanned(order);
    AllIsRange(r);
    SpentAtMost(allowance, r, k, taken);
  }

  lemma {:induction false} AllIsRange(r: seq<nat>)
    ensures All(r) == Range(|r|)
  {
  }

  // ---- What the window is, in terms of the entries ----

  /** Entry x is not after entry y by key, then by fingerprint. */
  ghost predicate EntryNotAfter(m: seq<MapEntry>, ps: seq<Print>, x: nat, y: nat)
    requires |ps| == |m| && x < |m| && y < |m|
  {
    var c := CompareKeys(m[x].key, m[y].key);
    c < 0 || (c == 0 && ComparePrints(ps[x], ps[y]) <= 0)
  }

  /** Another entry has x's key and, as far as both were seen, x's value. */
  ghost predicate Indistinguishable(m: seq<MapEntry>, ps: seq<Print>, x: nat)
    requires |ps| == |m| && x < |m|
  {
    !ps[x].complete && exists y :: 0 <= y < |m| && y != x && CompareKeys(m[y].key, m[x].key) == 0 && ps[y] == ps[x]
  }

  ghost predicate SharesKey(m: seq<MapEntry>, x: nat)
    requires x < |m|
  {
    exists y :: 0 <= y < |m| && y != x && CompareKeys(m[y].key, m[x].key) == 0
  }

  /** w holds the first k entries by key, then by fingerprint; each has its
      fingerprint when its key is shared, and is ambiguous exactly when some
      other entry of the map cannot be told from it. */
  ghost predicate IsWindow(m: seq<MapEntry>, ps: seq<Print>, w: seq<Slot>, k: nat)
    requires |ps| == |m|
  {
    && |w| == Min(k, |m|)
    && (forall i :: 0 <= i < |w| ==>
          && w[i].entry < |m|
          && w[i].fp == (if SharesKey(m, w[i].entry) then Some(ps[w[i].entry]) else None)
          && (w[i].ambiguous <==> Indistinguishable(m, ps, w[i].entry)))
    && (forall i, j :: 0 <= i < j < |w| ==>
          w[i].entry != w[j].entry && EntryNotAfter(m, ps, w[i].entry, w[j].entry))
    && (forall x, i :: 0 <= x < |m| && 0 <= i < |w| && !Holds(w, x) ==> EntryNotAfter(m, ps, w[i].entry, x))
  }

  lemma {:induction false} RanksCompareEntries(m: seq<MapEntry>, ps: seq<Print>, r: seq<nat>, q: seq<nat>, x: nat,
      y: nat)
    requires OrdersKeys(m, r) && |ps| == |m| && OrdersPrints(ps, q) && x < |m| && y < |m|
    ensures EntryNotAfter(m, ps, x, y) <==> NotAfter(r, q, x, y)
  {
  }

  lemma {:induction false} TwinsCompare(m: seq<MapEntry>, ps: seq<Print>, r: seq<nat>, x: nat)
    requires OrdersKeys(m, r) && |ps| == |m| && x < |m|
    ensures Twin(ps, Ranks.At(r, r[x]), x) <==> Indistinguishable(m, ps, x)
    ensures SharesKey(m, x) <==> |Ranks.At(r, r[x])| >= 2
  {
    var at := Ranks.At(r, r[x]);
    forall y | 0 <= y < |m| ensures y in at <==> CompareKeys(m[y].key, m[x].key) == 0 {
    }
    if SharesKey(m, x) {
      var y :| 0 <= y < |m| && y != x && CompareKeys(m[y].key, m[x].key) == 0;
      SubsetSize({x, y}, at);
    } else {
      assert at == {x};
    }
  }

  lemma {:induction false} ChosenIsWindow(m: seq<MapEntry>, ps: seq<Print>, r: seq<nat>, q: seq<nat>, w: seq<Slot>,
      k: nat)
    requires OrdersKeys(m, r) && |ps| == |m| && OrdersPrints(ps, q)
    ensures IsWindow(m, ps, w, k) <==> Chosen(ps, q, r, w, k)
  {
    var n := |m|;
    assert |r| == |q| == n;
    forall x, y | 0 <= x < n && 0 <= y < n ensures EntryNotAfter(m, ps, x, y) <==> NotAfter(r, q, x, y) {
      RanksCompareEntries(m, ps, r, q, x, y);
    }
    forall x | 0 <= x < n
      ensures Twin(ps, Ranks.At(r, r[x]), x) <==> Indistinguishable(m, ps, x)
      ensures SharesKey(m, x) <==> |Ranks.At(r, r[x])| >= 2
    {
      TwinsCompare(m, ps, r, x);
    }
    hide OrdersKeys, OrdersPrints, EntryNotAfter, NotAfter, Twin, Indistinguishable, SharesKey, Ranks.At;
  }

  // ---- No ties in the window ----

  function Bare(top: seq<nat>): (w: seq<Slot>)
    ensures |w| == |top| && forall i :: 0 <= i < |w| ==> w[i] == Slot(top[i], None, false)
  {
    seq(|top|, i requires 0 <= i < |top| => Slot(top[i], None, false))
  }

  lemma {:induction false} NoTiesNoNeed(counts: seq<nat>, k: nat, i: nat, n: nat)
    requires i < n <= |counts| && TiedCount(counts, k, n) == 0
    ensures Need(counts[i], Before(counts, i), k) == 0
  {
    if i < n - 1 { NoTiesNoNeed(counts, k, i, n - 1); }
  }

  lemma {:induction false} JoinedBare(top: seq<nat>, need: seq<nat>, kept: seq<seq<Slot>>, k: nat, i: nat)
    requires i <= |top| == |need| == |kept| && |top| <= k && forall c :: 0 <= c < |need| ==> need[c] == 0
    ensures Joined(top, need, kept, k, i) == Bare(top[..i])
  {
    if i > 0 {
      JoinedBare(top, need, kept, k, i - 1);
      assert Bare(top[..i]) == Bare(top[..i - 1]) + [Slot(top[i - 1], None, false)];
    }
  }

  lemma {:induction false} NoTies(ps: seq<Print>, q: seq<nat>, r: seq<nat>, top: seq<nat>, counts: seq<nat>,
      need: seq<nat>, k: nat)
    requires |ps| == |q| == |r| && Ranks.AreRanks(r) && Smallest(r, All(r), top, counts, k)
    requires NeedsRight(counts, need, k) && TiedCount(counts, k, |counts|) == 0
    ensures Chosen(ps, q, r, Bare(top), k)
  {
    if k == 0 { return; }
    var kept := seq(|top|, i => []);
    forall c | 0 <= c < |need| ensures need[c] == 0 {
      NoTiesNoNeed(counts, k, c, |counts|);
    }
    assert ClassesKept(ps, q, r, top, need, kept, All(r));
    JoinedIsChosen(ps, q, r, top, counts, need, kept, k);
    JoinedBare(top, need, kept, k, |top|);
    assert top[..|top|] == top;
  }

  /** The second pass, when classes of the window tie. */
  method SelectTied(meter: FpMeter, ts: Types, h: Heap, vt: TypeId, m: seq<MapEntry>, k: nat, allowance: nat,
      ghost r: seq<nat>, top: seq<nat>, ghost counts: seq<nat>, need: seq<nat>) returns (out: seq<Slot>)
    requires meter.Valid(ts, h) && MapTyped(ts, h, vt, m) && OrdersKeys(m, r) && Ranks.AreRanks(r)
    requires Smallest(r, All(r), top, counts, k) && NeedsRight(counts, need, k) && k > 0
    requires Times(|TiedSet(r, k)|, allowance) <= meter.left
    modifies meter`left, meter`visited, meter`memo
    ensures meter.Valid(ts, h)
    ensures meter.left <= old(meter.left) <= meter.left + Times(|TiedSet(r, k)|, allowance)
    ensures IsWindow(m, AllPrints(ts, h, vt, m, allowance), out, k)
  {
    hide *;
    var order := AnyOrder(|m|);
    ghost var ps := AllPrints(ts, h, vt, m, allowance);
    ghost var q := PrintRanks(ps);
    SameLengths(m, r, ps, q, top, counts, need, k);
    var kept := ScanTies(meter, ts, h, vt, m, order, k, allowance, r, ps, q, top, counts, need);
    InShape(m, ps, q, r, top, counts, need, kept, k, All(r));
    out := Assemble(top, need, kept, k);
    JoinedIsChosen(ps, q, r, top, counts, need, kept, k);
    ghost var w := Joined(top, need, kept, k, |top|);
    ChosenFits(ps, q, r, w, k);
    assert |w| >= k ==> w[..k] == w;
    ChosenIsWindow(m, ps, r, q, out, k);
  }

  lemma {:induction false} SameLengths(m: seq<MapEntry>, r: seq<nat>, ps: seq<Print>, q: seq<nat>, top: seq<nat>,
      counts: seq<nat>,
      need: seq<nat>, k: nat)
    requires OrdersKeys(m, r) && OrdersPrints(ps, q) && |ps| == |m|
    requires Smallest(r, All(r), top, counts, k) && NeedsRight(counts, need, k)
    ensures |r| == |m| == |q| && |top| == |need| == |counts|
  {
  }

  lemma {:induction false} ChosenFits(ps: seq<Print>, q: seq<nat>, r: seq<nat>, w: seq<Slot>, k: nat)
    requires |ps| == |q| == |r| && Chosen(ps, q, r, w, k)
    ensures |w| <= k
  {
  }

  /** The first k entries of m, each class of equal keys by fingerprint, without
      sorting m, whatever orders the runtime iterates it in. At most half of the
      message's budget is spent. */
  method SelectSmallest(meter: FpMeter, ts: Types, h: Heap, vt: TypeId, ghost named: Named, ghost kt: KeyType,
      m: seq<MapEntry>, k: nat) returns (out: seq<Slot>, total: nat, allowance: nat)
    requires meter.Valid(ts, h) && MapTyped(ts, h, vt, m) && KeysTyped(named, kt, m)
    modifies meter`left, meter`visited, meter`memo
    ensures meter.Valid(ts, h) && total == |m|
    ensures IsWindow(m, AllPrints(ts, h, vt, m, allowance), out, k)
    ensures meter.left <= old(meter.left) <= meter.left + old(meter.left) / 2
  {
    hide *;
    total := |m|;
    ghost var r := KeyRanks(named, kt, m);
    var order := AnyOrder(|m|);
    var top, counts := DistinctSmallest(m, r, order, k);
    ScannedAll(m, r, order);
    var need, tied := CountTies(counts, k);
    Counts(r, top, counts, need, k);
    if tied == 0 {
      out, allowance := Bare(top), 0;
      ghost var ps := AllPrints(ts, h, vt, m, allowance);
      ghost var q := PrintRanks(ps);
      SameLengths(m, r, ps, q, top, counts, need, k);
      NoTies(ps, q, r, top, counts, need, k);
      ChosenIsWindow(m, ps, r, q, out, k);
      return;
    }
    allowance := meter.TieAllowance(tied);
    TimesIs(tied, allowance);
    out := SelectTied(meter, ts, h, vt, m, k, allowance, r, top, counts, need);
  }

  lemma {:induction false} ScannedAll(m: seq<MapEntry>, r: seq<nat>, order: seq<nat>)
    requires OrdersKeys(m, r) && IsPermutation(order, |m|)
    ensures Elements(order) == All(r)
  {
    EveryEntryScanned(order);
    AllIsRange(r);
  }

  lemma {:induction false} Counts(r: seq<nat>, top: seq<nat>, counts: seq<nat>, need: seq<nat>, k: nat)
    requires Smallest(r, All(r), top, counts, k) && Ranks.AreRanks(r) && |need| == |counts|
    requires forall i {:trigger need[i]} :: 0 <= i < |need| ==> need[i] == Need(counts[i], Before(counts, i), k)
    ensures NeedsRight(counts, need, k)
    ensures TiedCount(counts, k, |counts|) == |TiedSet(r, k)|
    ensures k == 0 ==> TiedCount(counts, k, |counts|) == 0
  {
    CountsDescribeTheMap(r, top, counts, k);
  }

  // ---- The window is the beginning of a full sort ----

  /** The entries of v up to i are before entry w[i], so they are among the first
      i of w; but they are i + 1. */
  lemma {:induction false} NoneEarlier(r: seq<nat>, q: seq<nat>, v: seq<Slot>, w: seq<Slot>, i: nat)
    requires |q| == |r| && InOrder(r, q, v) && InOrder(r, q, w) && i < |v| && i < |w| && v[i].entry < |r|
    requires forall x :: 0 <= x < |r| ==> Holds(w, x) || NoneLater(r, q, w, x)
    ensures NotAfter(r, q, w[i].entry, v[i].entry)
  {
    if NotAfter(r, q, w[i].entry, v[i].entry) { return; }
    var vs := seq(i + 1, j requires 0 <= j < i + 1 => v[j].entry);
    var ws := seq(i, j requires 0 <= j < i => w[j].entry);
    var a := set j | 0 <= j < i + 1 :: vs[j];
    var b := set j | 0 <= j < i :: ws[j];
    ImageSize(vs, i + 1);
    ImageSize(ws, i);
    forall x | x in a ensures x in b {
      var j :| 0 <= j < i + 1 && vs[j] == x;
      EarlierIsHeld(r, q, v, w, i, j);
      var p := FindHeld(w, x);
      assert ws[p] == x;
    }
    SubsetSize(a, b);
    assert false;
  }

  lemma {:induction false} EarlierIsHeld(r: seq<nat>, q: seq<nat>, v: seq<Slot>, w: seq<Slot>, i: nat, j: nat)
    requires |q| == |r| && InOrder(r, q, v) && j <= i < |v| && i < |w| && v[i].entry < |r|
    requires forall x :: 0 <= x < |r| ==> Holds(w, x) || NoneLater(r, q, w, x)
    requires !NotAfter(r, q, w[i].entry, v[i].entry)
    ensures Holds(w, v[j].entry) && !NotAfter(r, q, w[i].entry, v[j].entry)
  {
    assert j == i || NotAfter(r, q, v[j].entry, v[i].entry);
  }

  /** Any two windows of one map, of any sizes, agree on every place they share:
      same key, same fingerprint, same flag. The larger may be a full sort. */
  lemma {:induction false} WindowsAgree(named: Named, kt: KeyType, m: seq<MapEntry>, ps: seq<Print>, v: seq<Slot>,
      k: nat,
      w: seq<Slot>, l: nat, i: nat)
    requires KeysTyped(named, kt, m) && |ps| == |m| && IsWindow(m, ps, v, k) && IsWindow(m, ps, w, l)
    requires i < |v| && i < |w|
    ensures v[i].entry < |m| && w[i].entry < |m|
    ensures CompareKeys(m[v[i].entry].key, m[w[i].entry].key) == 0 && ps[v[i].entry] == ps[w[i].entry]
    ensures v[i].fp == w[i].fp && v[i].ambiguous == w[i].ambiguous
  {
    var r := KeyRanks(named, kt, m);
    var q := PrintRanks(ps);
    ChosenIsWindow(m, ps, r, q, v, k);
    ChosenIsWindow(m, ps, r, q, w, l);
    NoneEarlier(r, q, v, w, i);
    NoneEarlier(r, q, w, v, i);
    var x, y := v[i].entry, w[i].entry;
    assert r[x] == r[y] && q[x] == q[y];
    SameFlag(ps, Ranks.At(r, r[x]), x, y);
  }

  lemma {:induction false} SameFlag(ps: seq<Print>, s: set<nat>, x: nat, y: nat)
    requires x < |ps| && y < |ps| && x in s && y in s && ps[x] == ps[y]
    ensures Twin(ps, s, x) <==> Twin(ps, s, y)
  {
  }
}
