/** The entries of two maps side by side: their union, sorted as a diff sorts it,
    and the runs of entries it reports together. */
module DiffUnits {
  import opened Values
  import opened Options
  import opened KeyOrder
  import opened Permutations
  import opened Fingerprints
  import opened FingerprintDecodes
  import opened Meters
  import opened StableSorts
  import opened SortedEntries
  import opened DiffValues

  /** An entry of the union of two maps. */
  datatype Sided = Sided(pair: Pair, fromA: bool)

  /** A run of n sorted entries reported as one. */
  datatype Unit = Unit(first: nat, n: nat)

  type Likeness = (Pair, Pair) -> bool

  // ---- Entries that cannot be told apart ----

  /** The keys tie, and so do the fingerprints of the values within allowance a,
      without being the whole values. */
  ghost predicate Alike(w: World, vt: TypeId, p: Pair, q: Pair, a: nat) {
    && Typed(w.ts, w.heap, Face(p.val), vt) && Typed(w.ts, w.heap, Face(q.val), vt)
    && CompareKeys(p.key.key, q.key.key) == 0
    && var x, y := TiePrint(w.ts, w.heap, Face(p.val), vt, a), TiePrint(w.ts, w.heap, Face(q.val), vt, a);
       !x.complete && x == y
  }

  ghost function AlikeAt(w: World, vt: TypeId, a: nat): Likeness {
    (p, q) => Alike(w, vt, p, q, a)
  }

  ghost predicate AnyAlike(w: World, vt: TypeId, ps: seq<Pair>, a: nat) {
    exists i, j :: 0 <= i < j < |ps| && Alike(w, vt, ps[i], ps[j], a)
  }

  lemma {:induction false} AlikeSymmetric(w: World, ms: MapShape, p: Pair, q: Pair, a: nat)
    requires PairSound(w, p, ms) && PairSound(w, q, ms)
    ensures Alike(w, ms.vals, p, q, a) <==> Alike(w, ms.vals, q, p, a)
  {
    CompareKeysAntisymmetric(w.named, p.key.key, q.key.key, ms.keys);
    hide CompareKeys, KeyHasType, Typed, TiePrint, Face;
  }

  // ---- The units of a union ----

  /** units are runs that follow each other from first to last. */
  ghost predicate Tiles(units: seq<Unit>, sorted: seq<Sided>, alike: Likeness, n: nat) {
    && n <= |sorted|
    && (units == [] ==> n == 0)
    && (forall u :: 0 <= u < |units| ==> UnitIs(units[u], sorted, alike))
    && (units != [] ==> units[0].first == 0 && units[|units| - 1].first + units[|units| - 1].n == n)
    && forall u :: 0 < u < |units| ==> units[u].first == units[u - 1].first + units[u - 1].n
  }

  ghost predicate UnitIs(x: Unit, sorted: seq<Sided>, alike: Likeness) {
    && x.n > 0 && x.first + x.n <= |sorted|
    && forall j :: x.first < j < x.first + x.n ==> alike(sorted[x.first].pair, sorted[j].pair)
  }

  /** The next entry is not alike. */
  ghost predicate Maximal(x: Unit, sorted: seq<Sided>, alike: Likeness) {
    x.first + x.n < |sorted| ==> !alike(sorted[x.first].pair, sorted[x.first + x.n].pair)
  }

  /** What fingerprinted entries show: their keys tie, and nothing more is known. */
  predicate Indistinguishable(x: SideEntry, y: SideEntry) {
    ByKey(x, y) == 0 && !PrintSeen(x).complete && PrintSeen(x) == PrintSeen(y)
  }

  /** The entries show which pairs are alike. */
  ghost predicate Shows(entries: seq<SideEntry>, sorted: seq<Sided>, alike: Likeness) {
    && |entries| == |sorted|
    && forall i, j :: 0 <= i < j < |sorted| ==>
         (Indistinguishable(entries[i], entries[j]) <==> alike(sorted[i].pair, sorted[j].pair))
  }

  lemma {:induction false} OneMoreUnit(units: seq<Unit>, sorted: seq<Sided>, alike: Likeness, i: nat, j: nat)
    requires Tiles(units, sorted, alike, i) && i < j <= |sorted|
    requires forall k :: i < k < j ==> alike(sorted[i].pair, sorted[k].pair)
    ensures Tiles(units + [Unit(i, j - i)], sorted, alike, j)
  {
    assert UnitIs(Unit(i, j - i), sorted, alike);
  }

  method TiedUnits(entries: seq<SideEntry>, ghost sorted: seq<Sided>, ghost alike: Likeness)
    returns (units: seq<Unit>)
    requires Shows(entries, sorted, alike)
    ensures Tiles(units, sorted, alike, |sorted|)
    ensures forall u :: 0 <= u < |units| ==> Maximal(units[u], sorted, alike)
  {
    units := [];
    var i := 0;
    hide Indistinguishable;
    assert Tiles(units, sorted, alike, 0);
    hide Tiles;
    while i < |entries|
      invariant i <= |entries| && Tiles(units, sorted, alike, i)
      invariant forall u :: 0 <= u < |units| ==> Maximal(units[u], sorted, alike)
    {
      var j := i + 1;
      while j < |entries| && Indistinguishable(entries[i], entries[j])
        invariant i < j <= |entries| && forall k :: i < k < j ==> alike(sorted[i].pair, sorted[k].pair)
      {
        j := j + 1;
      }
      OneMoreUnit(units, sorted, alike, i, j);
      units := units + [Unit(i, j - i)];
      i := j;
    }
  }

  /** The unit an entry is in. */
  lemma {:induction false} UnitOf(units: seq<Unit>, sorted: seq<Sided>, alike: Likeness, n: nat,
      i: nat) returns (u: nat)
    requires Tiles(units, sorted, alike, n) && i < n
    ensures u < |units| && units[u].first <= i < units[u].first + units[u].n
    decreases |units|
  {
    u := |units| - 1;
    if i < units[u].first {
      var fewer := units[..u];
      assert u > 0 && UnitIs(units[u - 1], sorted, alike);
      assert Tiles(fewer, sorted, alike, units[u].first);
      u := UnitOf(fewer, sorted, alike, units[u].first, i);
    }
  }

  // ---- The units decide whether two maps are equal ----

  /** The entries of ps and, after them, those of qs whose keys ps does not
      have. */
  ghost predicate IsUnion(ps: seq<Pair>, qs: seq<Pair>, all: seq<Sided>) {
    && |ps| <= |all|
    && (forall i :: 0 <= i < |ps| ==> all[i] == Sided(ps[i], true))
    && (forall i :: |ps| <= i < |all| ==> OnlyInB(ps, qs, all[i]))
    && forall j :: 0 <= j < |qs| ==> Lookup(ps, qs[j].key).Some? || Sided(qs[j], false) in all[|ps|..]
  }

  ghost predicate OnlyInB(ps: seq<Pair>, qs: seq<Pair>, x: Sided) {
    !x.fromA && x.pair in qs && Lookup(ps, x.pair.key).None?
  }

  /** A single entry of the first map with its equal in the second, or a single
      entry of the second. */
  ghost predicate UnitFine(x: Unit, sorted: seq<Sided>, qs: seq<Pair>)
    requires x.first < |sorted|
  {
    x.n == 1 && (sorted[x.first].fromA ==> Found(sorted[x.first].pair, qs))
  }

  ghost predicate InRange(units: seq<Unit>, sorted: seq<Sided>) {
    forall u :: 0 <= u < |units| ==> units[u].first < |sorted|
  }

  ghost predicate UnitsFine(units: seq<Unit>, sorted: seq<Sided>, qs: seq<Pair>, n: nat)
    requires n <= |units| && InRange(units, sorted)
  {
    forall u :: 0 <= u < n ==> UnitFine(units[u], sorted, qs)
  }

  ghost predicate NoneOnlyInB(units: seq<Unit>, sorted: seq<Sided>, n: nat)
    requires n <= |units| && InRange(units, sorted)
  {
    forall u :: 0 <= u < n && units[u].n == 1 ==> sorted[units[u].first].fromA
  }

  ghost predicate Unioned(ps: seq<Pair>, qs: seq<Pair>, all: seq<Sided>, order: seq<nat>, sorted: seq<Sided>) {
    IsUnion(ps, qs, all) && IsPermutation(order, |all|) && sorted == Arrange(all, order)
  }

  lemma {:induction false} TilesInRange(units: seq<Unit>, sorted: seq<Sided>, alike: Likeness, n: nat)
    requires Tiles(units, sorted, alike, n)
    ensures InRange(units, sorted)
  {
  }

  /** The entry at i of the union stands alone somewhere. */
  lemma {:induction false} StandsAlone(ps: seq<Pair>, qs: seq<Pair>, all: seq<Sided>, order: seq<nat>,
      sorted: seq<Sided>,
      units: seq<Unit>, alike: Likeness, i: nat) returns (u: nat)
    requires Unioned(ps, qs, all, order, sorted) && Tiles(units, sorted, alike, |sorted|) && InRange(units, sorted)
    requires UnitsFine(units, sorted, qs, |units|) && i < |all|
    ensures u < |units| && units[u].n == 1 && sorted[units[u].first] == all[i] && UnitFine(units[u], sorted, qs)
  {
    var k := SortedPlace(ps, qs, all, order, sorted, i);
    hide *;
    u := UnitOf(units, sorted, alike, |sorted|, k);
    FineAt(units, sorted, qs, u);
    AloneAt(units[u], sorted, k, all[i]);
  }

  lemma {:induction false} AloneAt(x: Unit, sorted: seq<Sided>, k: nat, e: Sided)
    requires x.n == 1 && x.first <= k < x.first + x.n && k < |sorted| && sorted[k] == e
    ensures sorted[x.first] == e
  {
    assert x.first == k;
  }

  lemma {:induction false} FineAt(units: seq<Unit>, sorted: seq<Sided>, qs: seq<Pair>, u: nat)
    requires InRange(units, sorted) && UnitsFine(units, sorted, qs, |units|) && u < |units|
    ensures units[u].first < |sorted| && UnitFine(units[u], sorted, qs) && units[u].n == 1
  {
    hide Found;
  }

  lemma {:induction false} SortedPlace(ps: seq<Pair>, qs: seq<Pair>, all: seq<Sided>, order: seq<nat>,
      sorted: seq<Sided>,
      i: nat) returns (k: nat)
    requires Unioned(ps, qs, all, order, sorted) && i < |all|
    ensures k < |sorted| && sorted[k] == all[i]
  {
    k := PermutationHits(order, |all|, i);
  }

  lemma {:induction false} FineIsFound(ps: seq<Pair>, qs: seq<Pair>, all: seq<Sided>, order: seq<nat>,
      sorted: seq<Sided>,
      units: seq<Unit>, alike: Likeness)
    requires Unioned(ps, qs, all, order, sorted) && Tiles(units, sorted, alike, |sorted|) && InRange(units, sorted)
    requires UnitsFine(units, sorted, qs, |units|)
    ensures AllFound(ps, qs)
  {
    hide Found, Tiles, UnitsFine;
    forall i | 0 <= i < |ps| ensures Found(ps[i], qs) {
      var u := StandsAlone(ps, qs, all, order, sorted, units, alike, i);
    }
  }

  lemma {:induction false} FoundHasKeys(ps: seq<Pair>, qs: seq<Pair>)
    requires AllFound(ps, qs)
    ensures KeysFound(ps, qs)
  {
    forall i | 0 <= i < |ps| ensures Lookup(qs, ps[i].key).Some? {
      assert Found(ps[i], qs);
    }
  }

  /** Where every unit is fine and no key is only in b, the maps are equal. */
  lemma {:induction false} FineIsEqual(w: World, ms: MapShape, ps: seq<Pair>, qs: seq<Pair>, all: seq<Sided>,
      order: seq<nat>,
      sorted: seq<Sided>, units: seq<Unit>, alike: Likeness)
    requires PairsSound(w, ps, ms) && PairsSound(w, qs, ms)
    requires Unioned(ps, qs, all, order, sorted) && Tiles(units, sorted, alike, |sorted|) && InRange(units, sorted)
    requires UnitsFine(units, sorted, qs, |units|) && NoneOnlyInB(units, sorted, |units|)
    ensures |ps| == |qs| && AllFound(ps, qs)
  {
    FineIsFound(ps, qs, all, order, sorted, units, alike);
    FoundHasKeys(ps, qs);
    hide Found, AllFound, Tiles, UnitsFine, NoneOnlyInB, PairsSound, UnitFine, Unioned, KeyEqual;
    forall j | 0 <= j < |qs| ensures Lookup(ps, qs[j].key).Some? {
      HasKey(ps, qs, all, order, sorted, units, alike, j);
    }
    FoundBothWays(w, ps, qs, ms);
  }

  lemma {:induction false} HasKey(ps: seq<Pair>, qs: seq<Pair>, all: seq<Sided>, order: seq<nat>, sorted: seq<Sided>,
      units: seq<Unit>, alike: Likeness, j: nat)
    requires Unioned(ps, qs, all, order, sorted) && Tiles(units, sorted, alike, |sorted|) && InRange(units, sorted)
    requires UnitsFine(units, sorted, qs, |units|) && NoneOnlyInB(units, sorted, |units|) && j < |qs|
    ensures Lookup(ps, qs[j].key).Some?
  {
    var x := Sided(qs[j], false);
    hide Lookup, UnitsFine, UnitFine, Tiles;
    if x in all[|ps|..] {
      var i :| 0 <= i < |all| - |ps| && all[|ps|..][i] == x;
      var u := StandsAlone(ps, qs, all, order, sorted, units, alike, |ps| + i);
    }
  }

  /** Where the maps are equal, every entry of the union is of the first map. */
  lemma {:induction false} EqualIsAllA(w: World, ms: MapShape, ps: seq<Pair>, qs: seq<Pair>, all: seq<Sided>)
    requires PairsSound(w, ps, ms) && PairsSound(w, qs, ms) && IsUnion(ps, qs, all)
    requires |ps| == |qs| && AllFound(ps, qs)
    ensures |all| == |ps|
  {
    FoundHasKeys(ps, qs);
    hide AllFound, PairsSound, KeysFound, OnlyInB;
    FoundBothWays(w, ps, qs, ms);
    if |all| > |ps| { OnlyInBMissing(ps, qs, all[|ps|]); }
  }

  lemma {:induction false} OnlyInBMissing(ps: seq<Pair>, qs: seq<Pair>, x: Sided)
    requires OnlyInB(ps, qs, x)
    ensures !KeysFound(qs, ps)
  {
    var j :| 0 <= j < |qs| && qs[j] == x.pair;
    assert Lookup(ps, qs[j].key).None?;
  }

  lemma {:induction false} NaNNotFound(p: Pair, qs: seq<Pair>)
    requires HasNaN(p.key.key)
    ensures !Found(p, qs)
  {
  }

  lemma {:induction false} DifferentPlaces(order: seq<nat>, n: nat, k: nat, l: nat)
    requires IsPermutation(order, n) && k < l < n
    ensures order[k] != order[l]
  {
  }

  lemma {:induction false} SortedFrom(ps: seq<Pair>, qs: seq<Pair>, all: seq<Sided>, order: seq<nat>,
      sorted: seq<Sided>, k: nat)
    requires Unioned(ps, qs, all, order, sorted) && |all| == |ps| && k < |sorted|
    ensures |sorted| == |order| == |ps| && IsPermutation(order, |all|)
    ensures order[k] < |ps| && sorted[k] == Sided(ps[order[k]], true)
  {
  }

  /** The entries of a, then those of b that a has no key for. */
  method UnionOf(ps: seq<Pair>, qs: seq<Pair>) returns (all: seq<Sided>)
    ensures IsUnion(ps, qs, all)
  {
    all := seq(|ps|, i requires 0 <= i < |ps| => Sided(ps[i], true));
    ghost var first := all;
    for j := 0 to |qs|
      invariant |ps| <= |all| && all[..|ps|] == first
      invariant forall i :: |ps| <= i < |all| ==> OnlyInB(ps, qs, all[i])
      invariant forall k :: 0 <= k < j ==> Lookup(ps, qs[k].key).Some? || Sided(qs[k], false) in all[|ps|..]
    {
      ghost var was := all;
      if Lookup(ps, qs[j].key).None? {
        all := all + [Sided(qs[j], false)];
        assert all[|ps|..] == was[|ps|..] + [Sided(qs[j], false)];
      }
      hide Lookup;
    }
  }

  ghost predicate UnitsNotEmpty(units: seq<Unit>) {
    forall u :: 0 <= u < |units| ==> units[u].n > 0
  }

  lemma {:induction false} NotEmptyUnits(units: seq<Unit>, sorted: seq<Sided>, alike: Likeness)
    requires Tiles(units, sorted, alike, |sorted|)
    ensures UnitsNotEmpty(units)
  {
  }

  lemma {:induction false} FinePrefix(units: seq<Unit>, sorted: seq<Sided>, qs: seq<Pair>, u: nat, n: nat)
    requires u <= n <= |units| && InRange(units, sorted)
    ensures UnitsFine(units, sorted, qs, n) ==> UnitsFine(units, sorted, qs, u)
  {
    hide UnitFine;
  }

  lemma {:induction false} FromFirst(ps: seq<Pair>, qs: seq<Pair>, all: seq<Sided>, i: nat)
    requires IsUnion(ps, qs, all) && i < |all|
    ensures all[i].fromA ==> i < |ps| && all[i] == Sided(ps[i], true)
  {
    hide Lookup;
  }

  lemma {:induction false} LookupSound(w: World, ms: MapShape, qs: seq<Pair>, k: GoKey)
    requires PairsSound(w, qs, ms)
    ensures Lookup(qs, k).Some? ==> Sound(w, Lookup(qs, k).value)
  {
    if Lookup(qs, k).Some? {
      var i := LookupAt(qs, k);
      assert PairSound(w, qs[i], ms);
    }
    hide KeyEqual;
  }

  // ---- Sorting the union ----

  function Side(x: Sided): SideEntry {
    SideEntry(x.pair.key.key, Face(x.pair.val), x.fromA, None)
  }

  function SidesOf(all: seq<Sided>): (s: seq<SideEntry>)
    ensures |s| == |all| && forall i :: 0 <= i < |all| ==> s[i] == Side(all[i])
  {
    seq(|all|, i requires 0 <= i < |all| => Side(all[i]))
  }

  function Bare(s: seq<SideEntry>): (r: seq<SideEntry>)
    ensures |r| == |s| && forall i :: 0 <= i < |s| ==> r[i] == s[i].(fp := None)
  {
    seq(|s|, i requires 0 <= i < |s| => s[i].(fp := None))
  }

  ghost predicate AllSides(w: World, ms: MapShape, all: seq<Sided>) {
    forall i :: 0 <= i < |all| ==> PairSound(w, all[i].pair, ms)
  }

  lemma {:induction false} SidesSound(w: World, ms: MapShape, all: seq<Sided>)
    requires AllSides(w, ms, all)
    ensures ValuesTyped(w.ts, w.heap, ms.vals, SidesOf(all)) && Keyed(w.named, ms.keys, SidesOf(all))
  {
    hide Typed, KeyHasType, Face, Sound;
  }

  /** The entries of out are those of was, each with its fingerprint if its key
      ties, in the order given. */
  ghost predicate Sorted(w: World, vt: TypeId, was: seq<SideEntry>, a: nat, out: seq<SideEntry>, order: seq<nat>)
    requires ValuesTyped(w.ts, w.heap, vt, was)
  {
    && IsPermutation(order, |was|) && |out| == |was|
    && forall i :: 0 <= i < |out| ==> order[i] < |was| && out[i] == Resolved(w.ts, w.heap, vt, was, a)[order[i]]
  }

  lemma {:induction false} SameWhenBare(w: World, vt: TypeId, named: Named, kt: KeyType, was: seq<SideEntry>, a: nat,
      i: nat, j: nat)
    requires ValuesTyped(w.ts, w.heap, vt, was) && Keyed(named, kt, was) && i < |was| && j < |was| && was[i] == was[j]
    ensures Resolved(w.ts, w.heap, vt, was, a)[i] == Resolved(w.ts, w.heap, vt, was, a)[j]
  {
    if i != j {
      KeyedAt(named, kt, was, i);
      CompareKeysAntisymmetric(named, was[i].key, was[j].key, kt);
      assert ByKey(was[i], was[j]) == 0 && ByKey(was[j], was[i]) == 0;
    }
    hide CompareKeys, KeyHasType, Typed, TiePrint;
  }

  lemma {:induction false} BareResolved(w: World, vt: TypeId, was: seq<SideEntry>, a: nat, out: seq<SideEntry>)
    requires ValuesTyped(w.ts, w.heap, vt, was) && multiset(out) == multiset(Resolved(w.ts, w.heap, vt, was, a))
    requires Bare(was) == was
    ensures multiset(Bare(out)) == multiset(was) && |out| == |was|
  {
    var r := Resolved(w.ts, w.heap, vt, was, a);
    var p := MultisetArrangement(out, r);
    MatchesIs(out, r, p);
    hide Typed, TiePrint, Shares;
    forall i | 0 <= i < |out| ensures Bare(out)[i] == was[p[i]] {
      assert Bare(was)[p[i]] == was[p[i]];
    }
    SameElements(Bare(out), was, p);
  }

  lemma {:induction false} PlacesSort(w: World, vt: TypeId, named: Named, kt: KeyType, was: seq<SideEntry>, a: nat,
      out: seq<SideEntry>, order: seq<nat>)
    requires ValuesTyped(w.ts, w.heap, vt, was) && Keyed(named, kt, was) && Bare(was) == was
    requires multiset(out) == multiset(Resolved(w.ts, w.heap, vt, was, a)) && Matches(Bare(out), was, order)
    ensures Sorted(w, vt, was, a, out, order)
  {
    var r := Resolved(w.ts, w.heap, vt, was, a);
    var p := MultisetArrangement(out, r);
    MatchesIs(out, r, p);
    MatchesIs(Bare(out), was, order);
    hide ValuesTyped, Keyed, Typed, Shares, Resolved, Matches;
    forall i | 0 <= i < |out| ensures order[i] < |was| && out[i] == r[order[i]] {
      BareAt(w, vt, was, a, p[i]);
      assert was[order[i]] == Bare(out)[i] == was[p[i]];
      SameWhenBare(w, vt, named, kt, was, a, p[i], order[i]);
    }
  }

  lemma {:induction false} BareAt(w: World, vt: TypeId, was: seq<SideEntry>, a: nat, i: nat)
    requires ValuesTyped(w.ts, w.heap, vt, was) && Bare(was) == was && i < |was|
    ensures Resolved(w.ts, w.heap, vt, was, a)[i].(fp := None) == was[i]
  {
    assert Bare(was)[i] == was[i];
    hide Shares, Typed, TiePrint;
  }

  /** Entries in order keep those that cannot be told apart together. */
  ghost predicate Adjoining(sorted: seq<Sided>, alike: Likeness) {
    forall i, k, j :: 0 <= i < k < j < |sorted| && alike(sorted[i].pair, sorted[j].pair) ==>
      alike(sorted[i].pair, sorted[k].pair)
  }

  lemma {:induction false} Between(named: Named, kt: KeyType, x: SideEntry, y: SideEntry, z: SideEntry)
    requires KeyHasType(named, x.key, kt) && KeyHasType(named, y.key, kt) && KeyHasType(named, z.key, kt)
    requires ByEntry(x, y) <= 0 && ByEntry(y, z) <= 0 && Indistinguishable(x, z)
    ensures Indistinguishable(x, y)
  {
    ByKeyOrders(named, kt);
    var ok := KeyOk(named, kt);
    assert ok(x) && ok(y) && ok(z);
    assert Composes(ByKey(x, y), ByKey(y, z), ByKey(x, z));
    ComparePrintsAntisymmetric(PrintSeen(y), PrintSeen(z));
    hide KeyOk, KeyHasType, ByKey, ComparePrints, PrintSeen;
  }

  lemma {:induction false} OrderShows(w: World, ms: MapShape, all: seq<Sided>, a: nat, out: seq<SideEntry>,
      order: seq<nat>, i: nat, j: nat)
    requires AllSides(w, ms, all) && ValuesTyped(w.ts, w.heap, ms.vals, SidesOf(all))
    requires Sorted(w, ms.vals, SidesOf(all), a, out, order) && i < |out| && j < |out| && i != j
    ensures order[i] < |all| && order[j] < |all|
    ensures Indistinguishable(out[i], out[j]) <==>
              Alike(w, ms.vals, all[order[i]].pair, all[order[j]].pair, a)
  {
    var was := SidesOf(all);
    var x, y := order[i], order[j];
    assert x != y && was[x] == Side(all[x]) && was[y] == Side(all[y]);
    assert PairSound(w, all[x].pair, ms) && PairSound(w, all[y].pair, ms);
    CompareKeysAntisymmetric(w.named, was[x].key, was[y].key, ms.keys);
    if ByKey(was[x], was[y]) == 0 {
      assert Shares(was, x) && Shares(was, y);
    }
    hide CompareKeys, KeyHasType, TiePrint, Face, Sound, Typed, Sorted;
  }

  lemma {:induction false} SortedKeyed(w: World, ms: MapShape, all: seq<Sided>, a: nat, out: seq<SideEntry>,
      order: seq<nat>, i: nat)
    requires AllSides(w, ms, all) && ValuesTyped(w.ts, w.heap, ms.vals, SidesOf(all))
    requires Sorted(w, ms.vals, SidesOf(all), a, out, order) && i < |out|
    ensures KeyHasType(w.named, out[i].key, ms.keys)
  {
    var was := SidesOf(all);
    assert was[order[i]] == Side(all[order[i]]) && PairSound(w, all[order[i]].pair, ms);
    hide KeyHasType, TiePrint, Face, Sound, Typed, Shares;
  }

  lemma {:induction false} SortingShows(w: World, ms: MapShape, all: seq<Sided>, a: nat, out: seq<SideEntry>,
      order: seq<nat>)
    requires AllSides(w, ms, all) && ValuesTyped(w.ts, w.heap, ms.vals, SidesOf(all))
    requires Sorted(w, ms.vals, SidesOf(all), a, out, order) && Ascends(out, ByEntry)
    ensures IsPermutation(order, |all|)
    ensures Shows(out, Arrange(all, order), AlikeAt(w, ms.vals, a))
    ensures Adjoining(Arrange(all, order), AlikeAt(w, ms.vals, a))
  {
    var sorted, alike := Arrange(all, order), AlikeAt(w, ms.vals, a);
    assert |out| == |all|;
    hide AllSides, ValuesTyped, Sorted, Alike, Indistinguishable, ByEntry;
    forall i, j | 0 <= i < j < |sorted|
      ensures Indistinguishable(out[i], out[j]) <==> alike(sorted[i].pair, sorted[j].pair)
    {
      OrderShows(w, ms, all, a, out, order, i, j);
    }
    forall i, k, j | 0 <= i < k < j < |sorted| && alike(sorted[i].pair, sorted[j].pair)
      ensures alike(sorted[i].pair, sorted[k].pair)
    {
      SortedKeyed(w, ms, all, a, out, order, i);
      SortedKeyed(w, ms, all, a, out, order, k);
      SortedKeyed(w, ms, all, a, out, order, j);
      Between(w.named, ms.keys, out[i], out[k], out[j]);
    }
  }

  /** Sorts the union within the budget of the message; a is what each entry whose
      key ties may visit. */
  method SortUnion(meter: FpMeter, w: World, ms: MapShape, all: seq<Sided>)
    returns (order: seq<nat>, entries: seq<SideEntry>, ghost a: nat)
    requires meter.Valid(w.ts, w.heap) && AllSides(w, ms, all)
    modifies meter`left, meter`visited, meter`memo
    ensures meter.Valid(w.ts, w.heap) && meter.left <= old(meter.left)
    ensures a == Allowance(old(meter.left), Ties(SidesOf(all), |all|)) && a <= MAX_NODES
    ensures IsPermutation(order, |all|)
    ensures Shows(entries, Arrange(all, order), AlikeAt(w, ms.vals, a))
    ensures Adjoining(Arrange(all, order), AlikeAt(w, ms.vals, a))
  {
    hide *;
    var was := SidesOf(all);
    SidesSound(w, ms, all);
    NoneFingerprinted(all);
    var sides := new SideEntry[|was|](i requires 0 <= i < |was| => was[i]);
    assert sides[..] == was;
    AllowanceIsFair(meter.left, Ties(was, |was|));
    a := SortEntries(meter, w.ts, w.heap, ms.vals, w.named, ms.keys, sides);
    entries := sides[..];
    SortedParts(w, ms.vals, was, a, entries);
    BareResolved(w, ms.vals, was, a, entries);
    order := Rearrangement(Bare(entries), was);
    PlacesSort(w, ms.vals, w.named, ms.keys, was, a, entries, order);
    SortingShows(w, ms, all, a, entries, order);
  }

  lemma {:induction false} SortedParts(w: World, vt: TypeId, was: seq<SideEntry>, a: nat, out: seq<SideEntry>)
    requires SortedWith(w.ts, w.heap, vt, was, a, out)
    ensures ValuesTyped(w.ts, w.heap, vt, was) && Ascends(out, ByEntry)
    ensures multiset(out) == multiset(Resolved(w.ts, w.heap, vt, was, a))
  {
  }

  lemma {:induction false} NoneFingerprinted(all: seq<Sided>)
    ensures Bare(SidesOf(all)) == SidesOf(all)
  {
  }

  // ---- Equal maps ----

  /** Two of the sorted entries cannot be told apart. */
  ghost predicate AnyTwo(sorted: seq<Sided>, alike: Likeness) {
    exists i, j :: 0 <= i < j < |sorted| && alike(sorted[i].pair, sorted[j].pair)
  }

  /** Such entries are reported as a group: one of the units is no single entry. */
  lemma {:induction false} Grouped(sorted: seq<Sided>, units: seq<Unit>, alike: Likeness, i: nat, j: nat)
    returns (u: nat)
    requires Tiles(units, sorted, alike, |sorted|) && Adjoining(sorted, alike)
    requires forall u :: 0 <= u < |units| ==> Maximal(units[u], sorted, alike)
    requires i < j < |sorted| && alike(sorted[i].pair, sorted[j].pair)
    ensures u < |units| && units[u].n > 1
  {
    assert i + 1 < j ==> alike(sorted[i].pair, sorted[i + 1].pair);
    hide Adjoining;
    u := UnitOf(units, sorted, alike, |sorted|, i);
    assert UnitIs(units[u], sorted, alike) && Maximal(units[u], sorted, alike);
  }

  lemma {:induction false} GroupIsAlike(sorted: seq<Sided>, units: seq<Unit>, alike: Likeness, u: nat)
    requires Tiles(units, sorted, alike, |sorted|) && u < |units| && units[u].n > 1
    ensures AnyTwo(sorted, alike)
  {
    assert UnitIs(units[u], sorted, alike);
    var k := units[u].first;
    assert alike(sorted[k].pair, sorted[k + 1].pair);
  }

  lemma {:induction false} AloneIsFine(ps: seq<Pair>, qs: seq<Pair>, all: seq<Sided>, order: seq<nat>,
      sorted: seq<Sided>, x: Unit)
    requires AllFound(ps, qs) && Unioned(ps, qs, all, order, sorted) && |all| == |ps| && x.first < |sorted| && x.n == 1
    ensures UnitFine(x, sorted, qs) && sorted[x.first].fromA
  {
    SortedFrom(ps, qs, all, order, sorted, x.first);
    assert Found(ps[order[x.first]], qs);
    hide Found, AllFound;
  }

  /** The units of equal maps are fine exactly when no two entries are alike. */
  lemma {:induction false} EqualUnits(w: World, ms: MapShape, ps: seq<Pair>, qs: seq<Pair>, all: seq<Sided>,
      order: seq<nat>, sorted: seq<Sided>, units: seq<Unit>, alike: Likeness)
    requires PairsSound(w, ps, ms) && PairsSound(w, qs, ms) && |ps| == |qs| && AllFound(ps, qs)
    requires Unioned(ps, qs, all, order, sorted) && Tiles(units, sorted, alike, |sorted|) && InRange(units, sorted)
    requires Adjoining(sorted, alike) && forall u :: 0 <= u < |units| ==> Maximal(units[u], sorted, alike)
    ensures UnitsFine(units, sorted, qs, |units|) <==> !AnyTwo(sorted, alike)
    ensures NoneOnlyInB(units, sorted, |units|)
  {
    EqualIsAllA(w, ms, ps, qs, all);
    hide PairsSound, AllFound, Unioned, UnitFine, Tiles, Adjoining, Maximal;
    forall u | 0 <= u < |units| && units[u].n == 1
      ensures UnitFine(units[u], sorted, qs) && sorted[units[u].first].fromA
    {
      AloneIsFine(ps, qs, all, order, sorted, units[u]);
    }
    if AnyTwo(sorted, alike) {
      var i: nat, j: nat :| i < j < |sorted| && alike(sorted[i].pair, sorted[j].pair);
      var u := Grouped(sorted, units, alike, i, j);
      GroupNotFine(units, sorted, qs, u);
    } else {
      forall u | 0 <= u < |units| ensures units[u].n == 1 {
        NotEmptyUnits(units, sorted, alike);
        if units[u].n > 1 { GroupIsAlike(sorted, units, alike, u); }
      }
    }
  }

  lemma {:induction false} GroupNotFine(units: seq<Unit>, sorted: seq<Sided>, qs: seq<Pair>, u: nat)
    requires InRange(units, sorted) && u < |units| && units[u].n > 1
    ensures !UnitsFine(units, sorted, qs, |units|)
  {
    assert !UnitFine(units[u], sorted, qs);
    hide UnitFine;
  }

  /** Sorting does not change whether two entries are alike. */
  lemma {:induction false} TwoOfTheFirst(w: World, ms: MapShape, ps: seq<Pair>, qs: seq<Pair>, all: seq<Sided>,
      order: seq<nat>, sorted: seq<Sided>, a: nat)
    requires PairsSound(w, ps, ms) && Unioned(ps, qs, all, order, sorted) && |all| == |ps|
    ensures AnyTwo(sorted, AlikeAt(w, ms.vals, a)) <==> AnyAlike(w, ms.vals, ps, a)
  {
    hide Alike, PairSound;
    if AnyTwo(sorted, AlikeAt(w, ms.vals, a)) {
      var i, j :| 0 <= i < j < |sorted| && Alike(w, ms.vals, sorted[i].pair, sorted[j].pair, a);
      SortedFrom(ps, qs, all, order, sorted, i);
      SortedFrom(ps, qs, all, order, sorted, j);
      DifferentPlaces(order, |all|, i, j);
      AlikeSymmetric(w, ms, ps[order[i]], ps[order[j]], a);
      if order[i] < order[j] {
        assert Alike(w, ms.vals, ps[order[i]], ps[order[j]], a);
      } else {
        assert Alike(w, ms.vals, ps[order[j]], ps[order[i]], a);
      }
    }
    if AnyAlike(w, ms.vals, ps, a) {
      var x: nat, y: nat :| x < y < |ps| && Alike(w, ms.vals, ps[x], ps[y], a);
      var i := PermutationHits(order, |all|, x);
      var j := PermutationHits(order, |all|, y);
      SortedFrom(ps, qs, all, order, sorted, i);
      SortedFrom(ps, qs, all, order, sorted, j);
      AlikeSymmetric(w, ms, ps[x], ps[y], a);
      if i < j {
        assert Alike(w, ms.vals, sorted[i].pair, sorted[j].pair, a);
      } else {
        assert Alike(w, ms.vals, sorted[j].pair, sorted[i].pair, a);
      }
    }
  }
}
