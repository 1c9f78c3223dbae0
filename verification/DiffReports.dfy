/** What a structural walk reports of two values, and what it keeps on its way. */
module DiffReports {
  import opened Values
  import opened Options
  import opened KeyOrder
  import opened Permutations
  import opened Fingerprints
  import opened FingerprintDecodes
  import opened Meters
  import opened SortedEntries
  import opened DiffValues
  import opened DiffUnits
  import opened DiffLogs
  import opened DiffPaths

  // ---- What a walk reports ----

  /** after is before and what was found between two values: something when they
      are not equal; and when they are, nothing or something tied. */
  ghost predicate Told(before: seq<Detail>, after: seq<Detail>, equal: bool, quiet: bool, tied: bool) {
    && before <= after
    && (!equal ==> after != [])
    && (equal && before == [] ==> if after == [] then quiet else tied)
  }

  ghost predicate Settled(w: World, p: RefPair, l: Log, entries: seq<Detail>) {
    entries != [] || (DeepEqual(w.at(p.a), w.at(p.b)) && Quiet(w, l, w.at(p.a), w.at(p.b), false))
  }

  /** The pairs met, of values no larger than size, were found equal and quiet,
      unless something was reported. */
  ghost predicate SeenRight(w: World, l: Log, entries: seq<Detail>, size: nat) {
    forall p :: p in l && Size(w.at(p.a)) <= size ==> Settled(w, p, l, entries)
  }

  ghost predicate Grew(w: World, before: Log, after: Log, entries: seq<Detail>, size: nat) {
    && Extends(before, after)
    && forall p :: p in after && p !in before ==> Size(w.at(p.a)) <= size && Settled(w, p, after, entries)
  }

  /** From entries e and log l to e' and l', walking values of this size. */
  ghost predicate Did(w: World, e: seq<Detail>, l: Log, e': seq<Detail>, l': Log, size: nat, equal: bool, quiet: bool,
      tied: bool)
  {
    Told(e, e', equal, quiet, tied) && Grew(w, l, l', e', size)
  }

  lemma {:induction false} DidNothing(w: World, e: seq<Detail>, l: Log, size: nat, equal: bool, quiet: bool, tied: bool)
    requires (equal && quiet) || e != []
    ensures Did(w, e, l, e, l, size, equal, quiet, tied)
  {
  }

  lemma {:induction false} DidAdd(w: World, e: seq<Detail>, l: Log, e': seq<Detail>, size: nat, equal: bool,
      quiet: bool, tied: bool)
    requires e <= e' && e' != [] && (equal ==> tied)
    ensures Did(w, e, l, e', l, size, equal, quiet, tied)
  {
  }

  lemma {:induction false} SettledStays(w: World, p: RefPair, l: Log, e: seq<Detail>, l': Log, e': seq<Detail>)
    requires Settled(w, p, l, e) && Extends(l, l') && e <= e'
    ensures Settled(w, p, l', e')
  {
    QuietStays(w, l, l', w.at(p.a), w.at(p.b), false);
    hide DeepEqual, Quiet;
  }

  lemma {:induction false} GrewMore(w: World, l: Log, l1: Log, e1: seq<Detail>, l2: Log, e2: seq<Detail>, size: nat)
    requires Grew(w, l, l1, e1, size) && Grew(w, l1, l2, e2, size) && e1 <= e2
    ensures Grew(w, l, l2, e2, size)
  {
    hide Settled, Size;
    forall p | p in l2 && p !in l ensures Size(w.at(p.a)) <= size && Settled(w, p, l2, e2) {
      if p in l1 { SettledStays(w, p, l1, e1, l2, e2); }
    }
  }

  /** One walk after another: equal and quiet when both are, tied when one is. */
  lemma {:induction false} DidMore(w: World, e: seq<Detail>, l: Log, e1: seq<Detail>, l1: Log, e2: seq<Detail>, l2: Log,
      size: nat, equal1: bool, quiet1: bool, tied1: bool, equal2: bool, quiet2: bool, tied2: bool, quiet: bool,
      tied: bool)
    requires Did(w, e, l, e1, l1, size, equal1, quiet1, tied1)
    requires Did(w, e1, l1, e2, l2, size, equal2, quiet2, tied2)
    requires (quiet1 && quiet2 ==> quiet) && (tied1 || tied2 ==> tied)
    ensures Did(w, e, l, e2, l2, size, equal1 && equal2, quiet, tied)
  {
    GrewMore(w, l, l1, e1, l2, e2, size);
    hide Grew;
  }

  /** The same walk, seen as one of larger values, or told otherwise. */
  lemma {:induction false} DidInstead(w: World, e: seq<Detail>, l: Log, e': seq<Detail>, l': Log, size: nat,
      equal: bool, quiet: bool, tied: bool, size': nat, equal': bool, quiet': bool, tied': bool)
    requires Did(w, e, l, e', l', size, equal, quiet, tied) && size <= size'
    requires (!equal' ==> !equal || e' != []) && (equal' && !equal ==> tied')
    requires (equal' && equal && quiet && e' == [] ==> quiet') && (equal' && equal && tied ==> tied')
    ensures Did(w, e, l, e', l', size', equal', quiet', tied')
  {
    hide Settled, Size;
  }

  lemma {:induction false} StillRight(w: World, e: seq<Detail>, l: Log, e': seq<Detail>, l': Log, size: nat, size': nat,
      equal: bool, quiet: bool, tied: bool)
    requires SeenRight(w, l, e, size') && Did(w, e, l, e', l', size, equal, quiet, tied)
    ensures SeenRight(w, l', e', size')
  {
    hide Settled, Size;
    forall p | p in l' && Size(w.at(p.a)) <= size' ensures Settled(w, p, l', e') {
      if p in l { SettledStays(w, p, l, e, l', e'); }
    }
  }

  lemma {:induction false} RightBelow(w: World, l: Log, e: seq<Detail>, size: nat, size': nat)
    requires SeenRight(w, l, e, size) && size' <= size
    ensures SeenRight(w, l, e, size')
  {
  }

  /** While a pair is compared, its parts do not meet it again. */
  lemma {:induction false} RightInside(w: World, l: Log, e: seq<Detail>, a: Val, key: RefPair, m: Meeting, size: nat)
    requires SeenRight(w, l, e, Size(a)) && w.at(key.a) == a && size < Size(a) && key !in l
    ensures SeenRight(w, l[key := m], e, size)
  {
    var l' := l[key := m];
    hide Settled, Size;
    forall p | p in l' && Size(w.at(p.a)) <= size ensures Settled(w, p, l', e) {
      SettledStays(w, p, l, e, l', e);
    }
  }

  /** The pair itself is settled once its parts have been walked. */
  lemma {:induction false} PairDone(w: World, e: seq<Detail>, l: Log, e': seq<Detail>, l': Log, a: Val, b: Val,
      key: RefPair, m: Meeting, size: nat, hidden: bool)
    requires w.at(key.a) == a && w.at(key.b) == b && size <= Size(a) && key !in l
    requires IsRef(a) && Same(a, b)
    requires Did(w, e, l[key := m], e', l', size, DeepEqual(a, b), Quiet(w, l', a, b, hidden),
                 TieMet(w, l', a, b, hidden))
    ensures Did(w, e, l, e', l', Size(a), DeepEqual(a, b), Quiet(w, l', a, b, hidden), TieMet(w, l', a, b, hidden))
  {
    RefsIgnoreHidden(w, l', a, b, hidden);
    hide DeepEqual, Quiet, TieMet, Size;
  }

  predicate Same(a: Val, b: Val) {
    (a.Pointer? && b.Pointer?) || (a.Slice? && b.Slice?) || (a.Map? && b.Map?)
  }

  /** How a reference was reached this time is of no account. */
  lemma {:induction false} RefsIgnoreHidden(w: World, l: Log, a: Val, b: Val, hidden: bool)
    requires IsRef(a) && Same(a, b)
    ensures Quiet(w, l, a, b, hidden) == Quiet(w, l, a, b, false)
  {
    hide QuietParts, QuietEntries, Mixed;
  }

  lemma {:induction false} SeenIsSettled(w: World, l: Log, e: seq<Detail>, a: Val, b: Val, key: RefPair, hidden: bool)
    requires SeenRight(w, l, e, Size(a)) && key in l && w.at(key.a) == a && w.at(key.b) == b && IsRef(a) && Same(a, b)
    ensures e != [] || (DeepEqual(a, b) && Quiet(w, l, a, b, hidden))
  {
    RefsIgnoreHidden(w, l, a, b, hidden);
    hide DeepEqual, Size, Quiet;
    assert Settled(w, key, l, e);
  }

  // ---- Parts of a value ----

  predicate IsComposite(v: Val) {
    v.Struct? || v.Map? || v.Slice? || v.Array? || v.Pointer?
  }

  /** Values of one type have one form. */
  lemma {:induction false} SameForm(w: World, a: Val, b: Val)
    requires Sound(w, a) && Sound(w, b) && !a.Invalid? && !b.Invalid? && a.ty == b.ty
    ensures (a.Plain? <==> b.Plain?) && (a.Func? <==> b.Func?) && (a.Interface? <==> b.Interface?)
    ensures (a.Pointer? <==> b.Pointer?) && (a.Slice? <==> b.Slice?) && (a.Map? <==> b.Map?)
    ensures (a.Struct? <==> b.Struct?) && (a.Array? <==> b.Array?)
    ensures a.Struct? ==> |a.fields| == |b.fields|
    ensures a.Array? ==> |a.elems| == |b.elems|
  {
    hide AllSound, PairsSound;
  }

  ghost predicate EqualUpTo(es: seq<Val>, fs: seq<Val>, n: nat)
    requires n <= |es| && n <= |fs|
  {
    forall i :: 0 <= i < n ==> DeepEqual(es[i], fs[i])
  }

  lemma {:induction false} OneMoreEqual(es: seq<Val>, fs: seq<Val>, n: nat)
    requires n < |es| && n < |fs|
    ensures EqualUpTo(es, fs, n + 1) <==> EqualUpTo(es, fs, n) && DeepEqual(es[n], fs[n])
  {
    hide DeepEqual;
  }

  ghost predicate FoundUpTo(ps: seq<Pair>, qs: seq<Pair>, order: seq<nat>, n: nat)
    requires n <= |order| && forall i :: 0 <= i < |order| ==> order[i] < |ps|
  {
    forall i :: 0 <= i < n ==> Found(ps[order[i]], qs)
  }

  ghost predicate QuietUpTo(w: World, l: Log, es: seq<Val>, fs: seq<Val>, ty: Option<TypeId>, hidden: bool, n: nat)
    requires n <= |es| && n <= |fs|
  {
    forall i :: 0 <= i < n ==> Quiet(w, l, es[i], fs[i], HiddenAt(w, ty, hidden, i))
  }

  ghost predicate TieUpTo(w: World, l: Log, es: seq<Val>, fs: seq<Val>, ty: Option<TypeId>, hidden: bool, n: nat)
    requires n <= |es| && n <= |fs|
  {
    exists i :: 0 <= i < n && TieMet(w, l, es[i], fs[i], HiddenAt(w, ty, hidden, i))
  }

  lemma {:induction false} OneMoreQuiet(w: World, l: Log, l': Log, es: seq<Val>, fs: seq<Val>, ty: Option<TypeId>,
      hidden: bool, n: nat)
    requires n < |es| && n < |fs| && Extends(l, l')
    ensures var h := HiddenAt(w, ty, hidden, n);
            && (QuietUpTo(w, l, es, fs, ty, hidden, n) && Quiet(w, l', es[n], fs[n], h) ==>
                  QuietUpTo(w, l', es, fs, ty, hidden, n + 1))
            && (TieUpTo(w, l, es, fs, ty, hidden, n) || TieMet(w, l', es[n], fs[n], h) ==>
                  TieUpTo(w, l', es, fs, ty, hidden, n + 1))
  {
    hide Quiet, TieMet, HiddenAt;
    forall i | 0 <= i < n
      ensures var h := HiddenAt(w, ty, hidden, i);
              && (Quiet(w, l, es[i], fs[i], h) ==> Quiet(w, l', es[i], fs[i], h))
              && (TieMet(w, l, es[i], fs[i], h) ==> TieMet(w, l', es[i], fs[i], h))
    {
      QuietStays(w, l, l', es[i], fs[i], HiddenAt(w, ty, hidden, i));
    }
  }

  lemma {:induction false} UpToAll(w: World, l: Log, es: seq<Val>, fs: seq<Val>, ty: Option<TypeId>, hidden: bool,
      n: nat)
    requires n <= |es| && n <= |fs|
    ensures |es| == |fs| == n ==> QuietUpTo(w, l, es, fs, ty, hidden, n) == QuietParts(w, l, es, fs, ty, hidden)
    ensures TieUpTo(w, l, es, fs, ty, hidden, n) ==> TieInParts(w, l, es, fs, ty, hidden)
  {
    hide Quiet, TieMet, HiddenAt;
  }

  lemma {:induction false} TieFurther(w: World, l: Log, es: seq<Val>, fs: seq<Val>, ty: Option<TypeId>, hidden: bool,
      i: nat, n: nat)
    requires i <= n <= |es| && n <= |fs|
    ensures TieUpTo(w, l, es, fs, ty, hidden, i) ==> TieUpTo(w, l, es, fs, ty, hidden, n)
    ensures EqualUpTo(es, fs, n) ==> EqualUpTo(es, fs, i)
  {
    hide TieMet, HiddenAt, DeepEqual;
  }

  lemma {:induction false} NoPartsYet(w: World, l: Log, es: seq<Val>, fs: seq<Val>, ty: Option<TypeId>, hidden: bool)
    ensures EqualUpTo(es, fs, 0) && QuietUpTo(w, l, es, fs, ty, hidden, 0)
  {
  }

  ghost predicate QuietInOrder(w: World, l: Log, ps: seq<Pair>, qs: seq<Pair>, order: seq<nat>, hidden: bool, n: nat)
    requires n <= |order| && forall i :: 0 <= i < |order| ==> order[i] < |ps|
  {
    forall i :: 0 <= i < n ==> QuietPair(w, l, ps[order[i]], qs, hidden)
  }

  lemma {:induction false} OneMoreInOrder(w: World, l: Log, l': Log, ps: seq<Pair>, qs: seq<Pair>, order: seq<nat>,
      hidden: bool, n: nat)
    requires n < |order| && (forall i :: 0 <= i < |order| ==> order[i] < |ps|) && Extends(l, l')
    ensures QuietInOrder(w, l, ps, qs, order, hidden, n) && QuietPair(w, l', ps[order[n]], qs, hidden) ==>
              QuietInOrder(w, l', ps, qs, order, hidden, n + 1)
  {
    hide QuietPair;
    forall i | 0 <= i < n
      ensures QuietPair(w, l, ps[order[i]], qs, hidden) ==> QuietPair(w, l', ps[order[i]], qs, hidden)
    {
      QuietPairStays(w, l, l', ps[order[i]], qs, hidden);
    }
  }

  lemma {:induction false} InOrderIsAll(w: World, l: Log, ps: seq<Pair>, qs: seq<Pair>, order: seq<nat>, hidden: bool)
    requires IsPermutation(order, |ps|)
    ensures QuietInOrder(w, l, ps, qs, order, hidden, 0)
    ensures QuietInOrder(w, l, ps, qs, order, hidden, |order|) ==> QuietEntries(w, l, ps, qs, hidden)
  {
    hide QuietPair;
    if QuietInOrder(w, l, ps, qs, order, hidden, |order|) {
      forall i | 0 <= i < |ps| ensures QuietPair(w, l, ps[i], qs, hidden) {
        var k := PermutationHits(order, |ps|, i);
      }
    }
  }

  ghost predicate QuietUnits(w: World, l: Log, units: seq<Unit>, sorted: seq<Sided>, qs: seq<Pair>, hidden: bool,
      n: nat)
    requires n <= |units| && InRange(units, sorted)
  {
    forall u :: 0 <= u < n ==> QuietUnit(w, l, units[u], sorted, qs, hidden)
  }

  ghost predicate QuietUnit(w: World, l: Log, x: Unit, sorted: seq<Sided>, qs: seq<Pair>, hidden: bool)
    requires x.first < |sorted|
  {
    x.n == 1 && sorted[x.first].fromA ==> QuietPair(w, l, sorted[x.first].pair, qs, hidden)
  }

  ghost predicate TieInUnit(w: World, l: Log, x: Unit, sorted: seq<Sided>, qs: seq<Pair>, hidden: bool)
    requires x.first < |sorted|
  {
    x.n == 1 && sorted[x.first].fromA && TieInPair(w, l, sorted[x.first].pair, qs, hidden)
  }

  ghost predicate TieInUnits(w: World, l: Log, units: seq<Unit>, sorted: seq<Sided>, qs: seq<Pair>, hidden: bool,
      n: nat)
    requires n <= |units| && InRange(units, sorted)
  {
    exists u :: 0 <= u < n && TieInUnit(w, l, units[u], sorted, qs, hidden)
  }

  lemma {:induction false} UnitStays(w: World, l: Log, l': Log, x: Unit, sorted: seq<Sided>, qs: seq<Pair>,
      hidden: bool)
    requires x.first < |sorted| && Extends(l, l')
    ensures QuietUnit(w, l, x, sorted, qs, hidden) ==> QuietUnit(w, l', x, sorted, qs, hidden)
    ensures TieInUnit(w, l, x, sorted, qs, hidden) ==> TieInUnit(w, l', x, sorted, qs, hidden)
  {
    QuietPairStays(w, l, l', sorted[x.first].pair, qs, hidden);
    hide QuietPair, TieInPair;
  }

  lemma {:induction false} OneMoreUnitQuiet(w: World, l: Log, l': Log, units: seq<Unit>, sorted: seq<Sided>,
      qs: seq<Pair>, hidden: bool, n: nat)
    requires n < |units| && InRange(units, sorted) && Extends(l, l')
    ensures units[n].first < |sorted|
    ensures QuietUnits(w, l, units, sorted, qs, hidden, n) && QuietUnit(w, l', units[n], sorted, qs, hidden) ==>
              QuietUnits(w, l', units, sorted, qs, hidden, n + 1)
    ensures TieInUnits(w, l, units, sorted, qs, hidden, n) || TieInUnit(w, l', units[n], sorted, qs, hidden) ==>
              TieInUnits(w, l', units, sorted, qs, hidden, n + 1)
  {
    hide QuietUnit, TieInUnit;
    forall u | 0 <= u < n
      ensures QuietUnit(w, l, units[u], sorted, qs, hidden) ==> QuietUnit(w, l', units[u], sorted, qs, hidden)
      ensures TieInUnit(w, l, units[u], sorted, qs, hidden) ==> TieInUnit(w, l', units[u], sorted, qs, hidden)
    {
      UnitStays(w, l, l', units[u], sorted, qs, hidden);
    }
  }

  lemma {:induction false} NoUnitsYet(w: World, l: Log, units: seq<Unit>, sorted: seq<Sided>, qs: seq<Pair>,
      hidden: bool)
    requires InRange(units, sorted)
    ensures UnitsFine(units, sorted, qs, 0) && QuietUnits(w, l, units, sorted, qs, hidden, 0)
  {
  }

  lemma {:induction false} TieInMore(w: World, l: Log, units: seq<Unit>, sorted: seq<Sided>, qs: seq<Pair>,
      hidden: bool, u: nat)
    requires u <= |units| && InRange(units, sorted)
    ensures TieInUnits(w, l, units, sorted, qs, hidden, u) ==> TieInUnits(w, l, units, sorted, qs, hidden, |units|)
  {
    hide TieInUnit;
  }

  /** The units of equal maps hold every entry of the first. */
  lemma {:induction false} UnitsAreEntries(w: World, l: Log, ps: seq<Pair>, qs: seq<Pair>, all: seq<Sided>,
      order: seq<nat>, sorted: seq<Sided>, units: seq<Unit>, alike: Likeness, hidden: bool)
    requires Unioned(ps, qs, all, order, sorted) && Tiles(units, sorted, alike, |sorted|) && InRange(units, sorted)
    ensures UnitsFine(units, sorted, qs, |units|) && QuietUnits(w, l, units, sorted, qs, hidden, |units|) ==>
              QuietEntries(w, l, ps, qs, hidden)
    ensures TieInUnits(w, l, units, sorted, qs, hidden, |units|) ==> TieInEntries(w, l, ps, qs, hidden)
  {
    hide QuietPair, TieInPair, UnitsFine, Tiles, UnitFine;
    if UnitsFine(units, sorted, qs, |units|) && QuietUnits(w, l, units, sorted, qs, hidden, |units|) {
      forall i | 0 <= i < |ps| ensures QuietPair(w, l, ps[i], qs, hidden) {
        var u := StandsAlone(ps, qs, all, order, sorted, units, alike, i);
        assert QuietUnit(w, l, units[u], sorted, qs, hidden);
      }
    }
    if TieInUnits(w, l, units, sorted, qs, hidden, |units|) {
      var u: nat :| u < |units| && TieInUnit(w, l, units[u], sorted, qs, hidden);
      FromFirst(ps, qs, all, order[units[u].first]);
    }
  }

  lemma {:induction false} FoundInOrder(ps: seq<Pair>, qs: seq<Pair>, order: seq<nat>)
    requires IsPermutation(order, |ps|)
    ensures FoundUpTo(ps, qs, order, |order|) <==> AllFound(ps, qs)
    ensures FoundUpTo(ps, qs, order, 0)
  {
    hide Found;
    if FoundUpTo(ps, qs, order, |order|) {
      forall i | 0 <= i < |ps| ensures Found(ps[i], qs) {
        var k := PermutationHits(order, |ps|, i);
      }
    }
  }

  lemma {:induction false} FoundPrefix(ps: seq<Pair>, qs: seq<Pair>, order: seq<nat>, i: nat, n: nat)
    requires i <= n <= |order| && forall i :: 0 <= i < |order| ==> order[i] < |ps|
    ensures FoundUpTo(ps, qs, order, n) ==> FoundUpTo(ps, qs, order, i)
  {
    hide Found;
  }

  lemma {:induction false} OneMoreFound(w: World, ms: MapShape, ps: seq<Pair>, qs: seq<Pair>, order: seq<nat>, i: nat)
    requires i < |order| && forall i :: 0 <= i < |order| ==> order[i] < |ps|
    requires PairsSound(w, ps, ms) && PairsSound(w, qs, ms)
    ensures var p := ps[order[i]];
            && Sound(w, p.val) && Size(p.val) <= PairSizes(ps)
            && (FoundUpTo(ps, qs, order, i + 1) <==> FoundUpTo(ps, qs, order, i) && Found(p, qs))
            && (Lookup(qs, p.key).None? ==> !Found(p, qs))
            && (Lookup(qs, p.key).Some? ==>
                  Sound(w, Lookup(qs, p.key).value) && Found(p, qs) == DeepEqual(p.val, Lookup(qs, p.key).value))
  {
    PairSmaller(ps, order[i]);
    assert PairSound(w, ps[order[i]], ms);
    LookupSound(w, ms, qs, ps[order[i]].key);
    hide DeepEqual, Size, PairsSound;
  }

  ghost predicate ProbedRight(w: World, probed: map<RefPair, bool>) {
    forall p :: p in probed ==> (probed[p] <==> !DeepEqual(w.at(p.a), w.at(p.b)))
  }

  lemma {:induction false} ProbedAt(w: World, probed: map<RefPair, bool>, key: RefPair)
    requires ProbedRight(w, probed) && key in probed
    ensures probed[key] <==> !DeepEqual(w.at(key.a), w.at(key.b))
  {
    hide DeepEqual;
  }

  lemma {:induction false} OneMoreProbed(w: World, probed: map<RefPair, bool>, key: RefPair, d: bool)
    requires ProbedRight(w, probed) && (d <==> !DeepEqual(w.at(key.a), w.at(key.b)))
    ensures ProbedRight(w, probed[key := d])
  {
    hide DeepEqual;
  }

  lemma {:induction false} RefAt(w: World, v: Val)
    requires Sound(w, v) && IsRef(v)
    ensures w.at(IdOf(v)) == v
  {
  }

  /** An entry of the first map in its place among all. */
  lemma {:induction false} FirstEntry(w: World, ms: MapShape, ps: seq<Pair>, qs: seq<Pair>, all: seq<Sided>,
      order: seq<nat>,
      sorted: seq<Sided>, k: nat, bv: Val)
    requires PairsSound(w, ps, ms) && PairsSound(w, qs, ms) && Unioned(ps, qs, all, order, sorted)
    requires k < |sorted| && sorted[k].fromA && Lookup(qs, sorted[k].pair.key) == Some(bv)
    ensures var p := sorted[k].pair;
            && Sound(w, p.val) && Sound(w, bv) && Size(p.val) <= PairSizes(ps)
            && Found(p, qs) == DeepEqual(p.val, bv)
  {
    var i := order[k];
    assert sorted[k] == all[i];
    FromFirst(ps, qs, all, i);
    PairSmaller(ps, i);
    assert PairSound(w, ps[i], ms);
    LookupSound(w, ms, qs, ps[i].key);
    hide DeepEqual, Size, PairsSound, Unioned;
  }

  // ---- What a log holds ----

  /** Every pair of maps met was sorted, with a share for each tied entry. */
  ghost predicate AllSorted(w: World, l: Log) {
    forall k :: k in l && w.at(k.a).Map? ==> l[k].share.Some? && l[k].share.value <= MAX_NODES
  }

  ghost predicate LogFits(w: World, l: Log, probe: bool) {
    if probe then NoneSorted(l) else AllSorted(w, l)
  }

  lemma {:induction false} NothingMet(w: World, size: nat, probe: bool)
    ensures SeenRight(w, map[], [], size) && ProbedRight(w, map[]) && LogFits(w, map[], probe)
  {
  }

  lemma {:induction false} OneMoreMet(w: World, l: Log, probe: bool, key: RefPair, m: Meeting)
    requires LogFits(w, l, probe) && (probe ==> m.share.None?)
    requires !probe && w.at(key.a).Map? ==> m.share.Some? && m.share.value <= MAX_NODES
    ensures LogFits(w, l[key := m], probe)
  {
  }

  /** A whole walk, from nothing: it reports something exactly when the values
      differ or a tie was met. */
  lemma {:induction false} WalkTells(w: World, e: seq<Detail>, l: Log, size: nat, a: Val, b: Val)
    requires Did(w, [], map[], e, l, size, DeepEqual(a, b), Quiet(w, l, a, b, false), TieMet(w, l, a, b, false))
    ensures !DeepEqual(a, b) ==> e != []
    ensures DeepEqual(a, b) ==> (e != [] <==> TieMet(w, l, a, b, false)) && (e == [] <==> Quiet(w, l, a, b, false))
  {
    NotBoth(w, l, a, b, false);
    hide Grew, DeepEqual, Quiet, TieMet;
  }

  // ---- One step down ----

  lemma {:induction false} InterfaceParts(w: World, a: Val, b: Val)
    requires Sound(w, a) && Sound(w, b) && a.Interface? && b.Interface? && a.ty == b.ty
    ensures Sound(w, a.elem) && Sound(w, b.elem) && Size(a.elem) < Size(a)
    ensures DeepEqual(a, b) == DeepEqual(a.elem, b.elem)
  {
  }

  lemma {:induction false} PointerParts(w: World, a: Val, b: Val)
    requires Sound(w, a) && Sound(w, b) && a.Pointer? && b.Pointer? && a.ty == b.ty
    ensures Sound(w, a.target) && Sound(w, b.target) && Size(a.target) < Size(a)
    ensures w.at(IdOf(a)) == a && w.at(IdOf(b)) == b
    ensures a.addr == b.addr ==> DeepEqual(a, b)
    ensures a.addr != b.addr ==> DeepEqual(a, b) == DeepEqual(a.target, b.target)
    ensures a.addr != b.addr && (a.addr == 0 || b.addr == 0) ==> !DeepEqual(a, b)
  {
  }

  lemma {:induction false} PointerQuiet(w: World, l: Log, a: Val, b: Val, hidden: bool)
    requires a.Pointer? && b.Pointer?
    ensures a.addr == b.addr ==> Quiet(w, l, a, b, hidden)
    ensures a.addr != b.addr && KeyOf(a, b) in l ==>
              && Quiet(w, l, a, b, hidden) == Quiet(w, l, a.target, b.target, l[KeyOf(a, b)].hidden)
              && TieMet(w, l, a, b, hidden) == TieMet(w, l, a.target, b.target, l[KeyOf(a, b)].hidden)
  {
  }

  lemma {:induction false} StructParts(w: World, a: Val, b: Val)
    requires Sound(w, a) && Sound(w, b) && a.Struct? && b.Struct? && a.ty == b.ty && |a.fields| == |b.fields|
    ensures AllSound(w, a.fields) && AllSound(w, b.fields) && Sizes(a.fields) < Size(a)
    ensures DeepEqual(a, b) == EqualUpTo(a.fields, b.fields, |a.fields|)
  {
    hide Sizes;
  }

  lemma {:induction false} ArrayParts(w: World, a: Val, b: Val)
    requires Sound(w, a) && Sound(w, b) && a.Array? && b.Array? && a.ty == b.ty && |a.elems| == |b.elems|
    ensures AllSound(w, a.elems) && AllSound(w, b.elems) && Sizes(a.elems) < Size(a)
    ensures DeepEqual(a, b) == EqualUpTo(a.elems, b.elems, |a.elems|)
  {
    hide Sizes;
  }

  lemma {:induction false} ListQuiet(w: World, l: Log, a: Val, b: Val, hidden: bool)
    ensures a.Struct? && b.Struct? && Shown(w, a.ty, hidden) ==> Quiet(w, l, a, b, hidden)
    ensures a.Struct? && b.Struct? && !Shown(w, a.ty, hidden) ==>
              && Quiet(w, l, a, b, hidden) == QuietParts(w, l, a.fields, b.fields, Some(a.ty), hidden)
              && TieMet(w, l, a, b, hidden) == TieInParts(w, l, a.fields, b.fields, Some(a.ty), hidden)
    ensures a.Array? && b.Array? ==>
              && Quiet(w, l, a, b, hidden) == QuietParts(w, l, a.elems, b.elems, None, hidden)
              && TieMet(w, l, a, b, hidden) == TieInParts(w, l, a.elems, b.elems, None, hidden)
  {
    hide QuietParts, TieInParts;
  }

  lemma {:induction false} SliceParts(w: World, a: Val, b: Val)
    requires Sound(w, a) && Sound(w, b) && a.Slice? && b.Slice? && a.ty == b.ty
    ensures AllSound(w, a.elems) && AllSound(w, b.elems) && Sizes(a.elems) < Size(a)
    ensures w.at(IdOf(a)) == a && w.at(IdOf(b)) == b
    ensures (a.addr == 0) != (b.addr == 0) ==> !DeepEqual(a, b)
    ensures a.addr == b.addr && |a.elems| == |b.elems| ==> DeepEqual(a, b)
    ensures |a.elems| != |b.elems| ==> !DeepEqual(a, b)
    ensures (a.addr == 0 <==> b.addr == 0) && a.addr != b.addr && |a.elems| == |b.elems| ==>
              DeepEqual(a, b) == EqualUpTo(a.elems, b.elems, |a.elems|)
  {
    hide Sizes;
  }

  lemma {:induction false} SliceQuiet(w: World, l: Log, a: Val, b: Val, hidden: bool)
    requires a.Slice? && b.Slice?
    ensures a.addr == b.addr && |a.elems| == |b.elems| ==> Quiet(w, l, a, b, hidden)
    ensures a.elems == [] ==> Quiet(w, l, a, b, hidden)
    ensures (a.addr != b.addr || |a.elems| != |b.elems|) && a.elems != [] && KeyOf(a, b) in l ==>
              && Quiet(w, l, a, b, hidden)
                 == QuietParts(w, l, a.elems, b.elems, None, l[KeyOf(a, b)].hidden)
              && TieMet(w, l, a, b, hidden)
                 == TieInParts(w, l, a.elems, b.elems, None, l[KeyOf(a, b)].hidden)
  {
    hide QuietParts, TieInParts;
  }

  lemma {:induction false} MapParts(w: World, a: Val, b: Val)
    requires Sound(w, a) && Sound(w, b) && a.Map? && b.Map? && a.ty == b.ty
    ensures w.form(a.ty).MapForm?
    ensures PairsSound(w, a.pairs, w.form(a.ty).shape) && PairsSound(w, b.pairs, w.form(a.ty).shape)
    ensures PairSizes(a.pairs) < Size(a)
    ensures w.at(IdOf(a)) == a && w.at(IdOf(b)) == b
    ensures (a.addr == 0) != (b.addr == 0) ==> !DeepEqual(a, b)
    ensures a.addr == b.addr ==> DeepEqual(a, b)
    ensures (a.addr == 0 <==> b.addr == 0) && a.addr != b.addr ==>
              DeepEqual(a, b) == (|a.pairs| == |b.pairs| && AllFound(a.pairs, b.pairs))
  {
    hide PairSizes, PairsSound;
    assert IdOf(a) == RefId(a.ty, a.addr, 0) && IdOf(b) == RefId(b.ty, b.addr, 0);
  }

  lemma {:induction false} MapQuiet(w: World, l: Log, a: Val, b: Val, hidden: bool)
    requires a.Map? && b.Map?
    ensures a.addr == b.addr ==> Quiet(w, l, a, b, hidden)
    ensures a.addr != b.addr && KeyOf(a, b) in l ==>
              var m := l[KeyOf(a, b)];
              && Quiet(w, l, a, b, hidden)
                 == (!Mixed(w, a.ty, a.pairs, m.share) && QuietEntries(w, l, a.pairs, b.pairs, m.hidden))
              && TieMet(w, l, a, b, hidden)
                 == (Mixed(w, a.ty, a.pairs, m.share) || TieInEntries(w, l, a.pairs, b.pairs, m.hidden))
  {
    hide QuietEntries, TieInEntries, Mixed;
  }

  // ---- The union of two maps ----

  function Firsts(ps: seq<Pair>): (all: seq<Sided>)
    ensures |all| == |ps| && forall i :: 0 <= i < |ps| ==> all[i] == Sided(ps[i], true)
  {
    seq(|ps|, i requires 0 <= i < |ps| => Sided(ps[i], true))
  }

  lemma {:induction false} UnionSound(w: World, ms: MapShape, ps: seq<Pair>, qs: seq<Pair>, all: seq<Sided>)
    requires PairsSound(w, ps, ms) && PairsSound(w, qs, ms) && IsUnion(ps, qs, all)
    ensures AllSides(w, ms, all)
  {
    hide PairSound, Lookup, KeyEqual;
    forall i | 0 <= i < |all| ensures PairSound(w, all[i].pair, ms) {
      if i >= |ps| { assert OnlyInB(ps, qs, all[i]) && all[i].pair in qs; }
    }
  }

  lemma {:induction false} EqualUnion(w: World, ms: MapShape, ps: seq<Pair>, qs: seq<Pair>, all: seq<Sided>)
    requires PairsSound(w, ps, ms) && PairsSound(w, qs, ms) && IsUnion(ps, qs, all)
    ensures |ps| == |qs| && AllFound(ps, qs) ==> all == Firsts(ps)
  {
    hide PairsSound, AllFound;
    if |ps| == |qs| && AllFound(ps, qs) { EqualIsAllA(w, ms, ps, qs, all); }
    hide OnlyInB;
  }

  /** What the units say about two maps. */
  lemma {:induction false} UnitsDecide(w: World, ms: MapShape, ps: seq<Pair>, qs: seq<Pair>, all: seq<Sided>,
      order: seq<nat>, sorted: seq<Sided>, units: seq<Unit>, a: nat)
    requires PairsSound(w, ps, ms) && PairsSound(w, qs, ms) && Unioned(ps, qs, all, order, sorted)
    requires var alike := AlikeAt(w, ms.vals, a);
             && Tiles(units, sorted, alike, |sorted|) && Adjoining(sorted, alike)
             && forall u :: 0 <= u < |units| ==> Maximal(units[u], sorted, alike)
    ensures InRange(units, sorted) && UnitsNotEmpty(units)
    ensures UnitsFine(units, sorted, qs, |units|) && NoneOnlyInB(units, sorted, |units|) ==>
              |ps| == |qs| && AllFound(ps, qs)
    ensures |ps| == |qs| && AllFound(ps, qs) ==>
              && (UnitsFine(units, sorted, qs, |units|) <==> !AnyAlike(w, ms.vals, ps, a))
              && NoneOnlyInB(units, sorted, |units|)
  {
    var alike := AlikeAt(w, ms.vals, a);
    TilesInRange(units, sorted, alike, |sorted|);
    NotEmptyUnits(units, sorted, alike);
    hide *;
    if UnitsFine(units, sorted, qs, |units|) && NoneOnlyInB(units, sorted, |units|) {
      FineIsEqual(w, ms, ps, qs, all, order, sorted, units, alike);
    }
    if |ps| == |qs| && AllFound(ps, qs) {
      EqualUnits(w, ms, ps, qs, all, order, sorted, units, alike);
      UnionIs(ps, qs, all, order, sorted);
      EqualIsAllA(w, ms, ps, qs, all);
      TwoOfTheFirst(w, ms, ps, qs, all, order, sorted, a);
    }
  }

  lemma {:induction false} UnionIs(ps: seq<Pair>, qs: seq<Pair>, all: seq<Sided>, order: seq<nat>, sorted: seq<Sided>)
    requires Unioned(ps, qs, all, order, sorted)
    ensures IsUnion(ps, qs, all)
  {
  }
}
