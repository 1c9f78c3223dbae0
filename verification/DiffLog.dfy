/** What a structural walk met on its way, and whether it met entries it could not
    tell apart. */
module DiffLogs {
  import opened Values
  import opened Options
  import opened KeyOrder
  import opened Meters
  import opened DiffValues
  import opened DiffUnits

  /** How a pair of references was first met: through an unexported field, and,
      for maps that were sorted, with which allowance for each entry whose key
      ties. */
  datatype Meeting = Meeting(hidden: bool, share: Option<nat>)

  type Log = map<RefPair, Meeting>

  ghost predicate Extends(l: Log, m: Log) {
    forall k :: k in l ==> k in m && m[k] == l[k]
  }

  /** The entries of a map sorted with this share include two that are alike. */
  ghost predicate Mixed(w: World, ty: TypeId, ps: seq<Pair>, share: Option<nat>) {
    share.Some? && w.form(ty).MapForm? && AnyAlike(w, w.form(ty).shape.vals, ps, share.value)
  }

  /** Field i of a struct of type ty, or an element when there is no type. */
  function HiddenAt(w: World, ty: Option<TypeId>, hidden: bool, i: nat): bool {
    hidden || (ty.Some? && w.facts.hidden(ty.value, i))
  }

  /** Structs that render themselves are compared as a whole, where their methods
      may be called. */
  function Shown(w: World, ty: TypeId, hidden: bool): bool {
    !hidden && w.facts.selfShown(ty)
  }

  /** Walking equal values, every pair of references on the way has been met, and
      no map on the way holds two entries alike. */
  ghost predicate Quiet(w: World, l: Log, a: Val, b: Val, hidden: bool)
    decreases a, 0
  {
    match (a, b)
    case (Interface(_, e), Interface(_, f)) => Quiet(w, l, e, f, hidden)
    case (Pointer(_, x, e), Pointer(_, y, f)) =>
      x == y || (KeyOf(a, b) in l && Quiet(w, l, e, f, l[KeyOf(a, b)].hidden))
    case (Slice(_, x, es), Slice(_, y, fs)) =>
      || (x == y && |es| == |fs|) || es == []
      || (KeyOf(a, b) in l && QuietParts(w, l, es, fs, None, l[KeyOf(a, b)].hidden))
    case (Map(ty, x, ps), Map(_, y, qs)) =>
      || x == y
      || (KeyOf(a, b) in l && !Mixed(w, ty, ps, l[KeyOf(a, b)].share)
          && QuietEntries(w, l, ps, qs, l[KeyOf(a, b)].hidden))
    case (Struct(ty, es), Struct(_, fs)) => Shown(w, ty, hidden) || QuietParts(w, l, es, fs, Some(ty), hidden)
    case (Array(_, es), Array(_, fs)) => QuietParts(w, l, es, fs, None, hidden)
    case _ => true
  }

  ghost predicate QuietParts(w: World, l: Log, es: seq<Val>, fs: seq<Val>, ty: Option<TypeId>, hidden: bool)
    decreases es, 0
  {
    forall i :: 0 <= i < |es| && i < |fs| ==> Quiet(w, l, es[i], fs[i], HiddenAt(w, ty, hidden, i))
  }

  ghost predicate QuietPair(w: World, l: Log, p: Pair, qs: seq<Pair>, hidden: bool)
    decreases p, 0
  {
    Lookup(qs, p.key).Some? ==> Quiet(w, l, p.val, Lookup(qs, p.key).value, hidden)
  }

  ghost predicate QuietEntries(w: World, l: Log, ps: seq<Pair>, qs: seq<Pair>, hidden: bool)
    decreases ps, 0
  {
    forall i :: 0 <= i < |ps| ==> QuietPair(w, l, ps[i], qs, hidden)
  }

  /** Walking equal values, some map on the way was sorted and holds two entries
      alike. */
  ghost predicate TieMet(w: World, l: Log, a: Val, b: Val, hidden: bool)
    decreases a, 0
  {
    match (a, b)
    case (Interface(_, e), Interface(_, f)) => TieMet(w, l, e, f, hidden)
    case (Pointer(_, x, e), Pointer(_, y, f)) =>
      x != y && KeyOf(a, b) in l && TieMet(w, l, e, f, l[KeyOf(a, b)].hidden)
    case (Slice(_, x, es), Slice(_, y, fs)) =>
      && (x != y || |es| != |fs|) && es != []
      && KeyOf(a, b) in l && TieInParts(w, l, es, fs, None, l[KeyOf(a, b)].hidden)
    case (Map(ty, x, ps), Map(_, y, qs)) =>
      && x != y && KeyOf(a, b) in l
      && (Mixed(w, ty, ps, l[KeyOf(a, b)].share) || TieInEntries(w, l, ps, qs, l[KeyOf(a, b)].hidden))
    case (Struct(ty, es), Struct(_, fs)) => !Shown(w, ty, hidden) && TieInParts(w, l, es, fs, Some(ty), hidden)
    case (Array(_, es), Array(_, fs)) => TieInParts(w, l, es, fs, None, hidden)
    case _ => false
  }

  ghost predicate TieInParts(w: World, l: Log, es: seq<Val>, fs: seq<Val>, ty: Option<TypeId>, hidden: bool)
    decreases es, 0
  {
    exists i :: 0 <= i < |es| && i < |fs| && TieMet(w, l, es[i], fs[i], HiddenAt(w, ty, hidden, i))
  }

  ghost predicate TieInPair(w: World, l: Log, p: Pair, qs: seq<Pair>, hidden: bool)
    decreases p, 0
  {
    Lookup(qs, p.key).Some? && TieMet(w, l, p.val, Lookup(qs, p.key).value, hidden)
  }

  ghost predicate TieInEntries(w: World, l: Log, ps: seq<Pair>, qs: seq<Pair>, hidden: bool)
    decreases ps, 0
  {
    exists i :: 0 <= i < |ps| && TieInPair(w, l, ps[i], qs, hidden)
  }

  function KeyOf(a: Val, b: Val): RefPair
    requires IsRef(a) && IsRef(b)
  {
    RefPair(IdOf(a), IdOf(b))
  }

  // ---- A longer log ----

  lemma {:induction false} QuietStays(w: World, l: Log, m: Log, a: Val, b: Val, hidden: bool)
    requires Extends(l, m)
    ensures Quiet(w, l, a, b, hidden) ==> Quiet(w, m, a, b, hidden)
    ensures TieMet(w, l, a, b, hidden) ==> TieMet(w, m, a, b, hidden)
    decreases a, 0
  {
    hide Mixed, Shown, HiddenAt;
    match (a, b) {
      case (Interface(_, e), Interface(_, f)) => QuietStays(w, l, m, e, f, hidden);
      case (Pointer(_, _, e), Pointer(_, _, f)) =>
        if KeyOf(a, b) in l { QuietStays(w, l, m, e, f, l[KeyOf(a, b)].hidden); }
      case (Slice(_, _, es), Slice(_, _, fs)) =>
        if KeyOf(a, b) in l { QuietPartsStay(w, l, m, es, fs, None, l[KeyOf(a, b)].hidden); }
      case (Map(_, _, ps), Map(_, _, qs)) =>
        if KeyOf(a, b) in l { QuietEntriesStay(w, l, m, ps, qs, l[KeyOf(a, b)].hidden); }
      case (Struct(ty, es), Struct(_, fs)) => QuietPartsStay(w, l, m, es, fs, Some(ty), hidden);
      case (Array(_, es), Array(_, fs)) => QuietPartsStay(w, l, m, es, fs, None, hidden);
      case _ =>
    }
  }

  lemma {:induction false} QuietPartsStay(w: World, l: Log, m: Log, es: seq<Val>, fs: seq<Val>, ty: Option<TypeId>,
      hidden: bool)
    requires Extends(l, m)
    ensures QuietParts(w, l, es, fs, ty, hidden) ==> QuietParts(w, m, es, fs, ty, hidden)
    ensures TieInParts(w, l, es, fs, ty, hidden) ==> TieInParts(w, m, es, fs, ty, hidden)
    decreases es, 0
  {
    hide Quiet, TieMet, HiddenAt;
    forall i | 0 <= i < |es| && i < |fs|
      ensures var h := HiddenAt(w, ty, hidden, i);
              && (Quiet(w, l, es[i], fs[i], h) ==> Quiet(w, m, es[i], fs[i], h))
              && (TieMet(w, l, es[i], fs[i], h) ==> TieMet(w, m, es[i], fs[i], h))
    {
      QuietStays(w, l, m, es[i], fs[i], HiddenAt(w, ty, hidden, i));
    }
  }

  lemma {:induction false} QuietEntriesStay(w: World, l: Log, m: Log, ps: seq<Pair>, qs: seq<Pair>, hidden: bool)
    requires Extends(l, m)
    ensures QuietEntries(w, l, ps, qs, hidden) ==> QuietEntries(w, m, ps, qs, hidden)
    ensures TieInEntries(w, l, ps, qs, hidden) ==> TieInEntries(w, m, ps, qs, hidden)
    decreases ps, 0
  {
    hide QuietPair, TieInPair;
    forall i | 0 <= i < |ps|
      ensures QuietPair(w, l, ps[i], qs, hidden) ==> QuietPair(w, m, ps[i], qs, hidden)
      ensures TieInPair(w, l, ps[i], qs, hidden) ==> TieInPair(w, m, ps[i], qs, hidden)
    {
      QuietPairStays(w, l, m, ps[i], qs, hidden);
    }
  }

  lemma {:induction false} QuietPairStays(w: World, l: Log, m: Log, p: Pair, qs: seq<Pair>, hidden: bool)
    requires Extends(l, m)
    ensures QuietPair(w, l, p, qs, hidden) ==> QuietPair(w, m, p, qs, hidden)
    ensures TieInPair(w, l, p, qs, hidden) ==> TieInPair(w, m, p, qs, hidden)
    decreases p, 0
  {
    hide Quiet, TieMet, Lookup;
    if Lookup(qs, p.key).Some? { QuietStays(w, l, m, p.val, Lookup(qs, p.key).value, hidden); }
  }

  // ---- Quiet or tied, not both ----

  lemma {:induction false} NotBoth(w: World, l: Log, a: Val, b: Val, hidden: bool)
    ensures !(Quiet(w, l, a, b, hidden) && TieMet(w, l, a, b, hidden))
    decreases a, 0
  {
    hide Mixed, Shown, HiddenAt;
    match (a, b) {
      case (Interface(_, e), Interface(_, f)) => NotBoth(w, l, e, f, hidden);
      case (Pointer(_, _, e), Pointer(_, _, f)) =>
        if KeyOf(a, b) in l { NotBoth(w, l, e, f, l[KeyOf(a, b)].hidden); }
      case (Slice(_, _, es), Slice(_, _, fs)) =>
        if KeyOf(a, b) in l { NotBothParts(w, l, es, fs, None, l[KeyOf(a, b)].hidden); }
      case (Map(_, _, ps), Map(_, _, qs)) =>
        if KeyOf(a, b) in l { NotBothEntries(w, l, ps, qs, l[KeyOf(a, b)].hidden); }
      case (Struct(ty, es), Struct(_, fs)) => NotBothParts(w, l, es, fs, Some(ty), hidden);
      case (Array(_, es), Array(_, fs)) => NotBothParts(w, l, es, fs, None, hidden);
      case _ =>
    }
  }

  lemma {:induction false} NotBothParts(w: World, l: Log, es: seq<Val>, fs: seq<Val>, ty: Option<TypeId>, hidden: bool)
    ensures !(QuietParts(w, l, es, fs, ty, hidden) && TieInParts(w, l, es, fs, ty, hidden))
    decreases es, 0
  {
    hide Quiet, TieMet, HiddenAt;
    forall i | 0 <= i < |es| && i < |fs|
      ensures var h := HiddenAt(w, ty, hidden, i);
              !(Quiet(w, l, es[i], fs[i], h) && TieMet(w, l, es[i], fs[i], h))
    {
      NotBoth(w, l, es[i], fs[i], HiddenAt(w, ty, hidden, i));
    }
  }

  lemma {:induction false} NotBothEntries(w: World, l: Log, ps: seq<Pair>, qs: seq<Pair>, hidden: bool)
    ensures !(QuietEntries(w, l, ps, qs, hidden) && TieInEntries(w, l, ps, qs, hidden))
    decreases ps, 0
  {
    hide Quiet, TieMet, Lookup;
    forall i | 0 <= i < |ps| ensures !(QuietPair(w, l, ps[i], qs, hidden) && TieInPair(w, l, ps[i], qs, hidden)) {
      NotBothPair(w, l, ps[i], qs, hidden);
    }
  }

  lemma {:induction false} NotBothPair(w: World, l: Log, p: Pair, qs: seq<Pair>, hidden: bool)
    ensures !(QuietPair(w, l, p, qs, hidden) && TieInPair(w, l, p, qs, hidden))
    decreases p, 0
  {
    hide Quiet, TieMet, Lookup;
    if Lookup(qs, p.key).Some? { NotBoth(w, l, p.val, Lookup(qs, p.key).value, hidden); }
  }

  // ---- Where no map is sorted ----

  /** As in a probe, which sorts nothing. */
  ghost predicate NoneSorted(l: Log) {
    forall k :: k in l ==> l[k].share.None?
  }

  lemma {:induction false} NoTie(w: World, l: Log, a: Val, b: Val, hidden: bool)
    requires NoneSorted(l)
    ensures !TieMet(w, l, a, b, hidden)
    decreases a, 0
  {
    hide Shown, HiddenAt;
    match (a, b) {
      case (Interface(_, e), Interface(_, f)) => NoTie(w, l, e, f, hidden);
      case (Pointer(_, _, e), Pointer(_, _, f)) =>
        if KeyOf(a, b) in l { NoTie(w, l, e, f, l[KeyOf(a, b)].hidden); }
      case (Slice(_, _, es), Slice(_, _, fs)) =>
        if KeyOf(a, b) in l { NoTieInParts(w, l, es, fs, None, l[KeyOf(a, b)].hidden); }
      case (Map(_, _, ps), Map(_, _, qs)) =>
        if KeyOf(a, b) in l { NoTieInEntries(w, l, ps, qs, l[KeyOf(a, b)].hidden); }
      case (Struct(ty, es), Struct(_, fs)) => NoTieInParts(w, l, es, fs, Some(ty), hidden);
      case (Array(_, es), Array(_, fs)) => NoTieInParts(w, l, es, fs, None, hidden);
      case _ =>
    }
  }

  lemma {:induction false} NoTieInParts(w: World, l: Log, es: seq<Val>, fs: seq<Val>, ty: Option<TypeId>, hidden: bool)
    requires NoneSorted(l)
    ensures !TieInParts(w, l, es, fs, ty, hidden)
    decreases es, 0
  {
    hide TieMet, HiddenAt;
    forall i | 0 <= i < |es| && i < |fs| ensures !TieMet(w, l, es[i], fs[i], HiddenAt(w, ty, hidden, i)) {
      NoTie(w, l, es[i], fs[i], HiddenAt(w, ty, hidden, i));
    }
  }

  lemma {:induction false} NoTieInEntries(w: World, l: Log, ps: seq<Pair>, qs: seq<Pair>, hidden: bool)
    requires NoneSorted(l)
    ensures !TieInEntries(w, l, ps, qs, hidden)
    decreases ps, 0
  {
    hide TieInPair;
    forall i | 0 <= i < |ps| ensures !TieInPair(w, l, ps[i], qs, hidden) {
      NoTieInPair(w, l, ps[i], qs, hidden);
    }
  }

  lemma {:induction false} NoTieInPair(w: World, l: Log, p: Pair, qs: seq<Pair>, hidden: bool)
    requires NoneSorted(l)
    ensures !TieInPair(w, l, p, qs, hidden)
    decreases p, 0
  {
    hide TieMet, Lookup;
    if Lookup(qs, p.key).Some? { NoTie(w, l, p.val, Lookup(qs, p.key).value, hidden); }
  }

  // ---- When keys can be told apart ----

  /** No two entries of a map within v have keys that tie though they are equal to
      themselves. */
  ghost predicate KeysApart(v: Val)
    decreases v, 0
  {
    match v
    case Interface(_, e) => KeysApart(e)
    case Pointer(_, _, t) => KeysApart(t)
    case Slice(_, _, es) => AllApart(es)
    case Map(_, _, ps) => EntriesApart(ps)
    case Struct(_, fs) => AllApart(fs)
    case Array(_, es) => AllApart(es)
    case _ => true
  }

  ghost predicate AllApart(vs: seq<Val>)
    decreases vs, 0
  {
    forall i :: 0 <= i < |vs| ==> KeysApart(vs[i])
  }

  ghost predicate PairApart(p: Pair)
    decreases p, 0
  {
    KeysApart(p.val)
  }

  ghost predicate EntriesApart(ps: seq<Pair>)
    decreases ps, 0
  {
    && (forall i :: 0 <= i < |ps| ==> PairApart(ps[i]))
    && forall i, j :: 0 <= i < |ps| && 0 <= j < |ps| && i != j && CompareKeys(ps[i].key.key, ps[j].key.key) == 0 ==>
         HasNaN(ps[i].key.key)
  }

  lemma {:induction false} ApartNotMixed(w: World, ty: TypeId, ps: seq<Pair>, qs: seq<Pair>, share: Option<nat>)
    requires EntriesApart(ps) && AllFound(ps, qs)
    ensures !Mixed(w, ty, ps, share)
  {
    hide CompareKeys, HasNaN, KeysApart, Found, Typed, TiePrint, Face;
    if Mixed(w, ty, ps, share) {
      var i, j :| 0 <= i < j < |ps| && Alike(w, w.form(ty).shape.vals, ps[i], ps[j], share.value);
      NaNNotFound(ps[i], qs);
    }
  }

  /** In equal values no such map is ever mixed, whatever the allowances. */
  lemma {:induction false} ApartNoTie(w: World, l: Log, a: Val, b: Val, hidden: bool)
    requires KeysApart(a) && DeepEqual(a, b)
    ensures !TieMet(w, l, a, b, hidden)
    decreases a, 0
  {
    hide Mixed, Shown, HiddenAt;
    match (a, b) {
      case (Interface(_, e), Interface(_, f)) => ApartNoTie(w, l, e, f, hidden);
      case (Pointer(_, x, e), Pointer(_, y, f)) =>
        if x != y && KeyOf(a, b) in l { ApartNoTie(w, l, e, f, l[KeyOf(a, b)].hidden); }
      case (Slice(_, x, es), Slice(_, y, fs)) =>
        if x != y && KeyOf(a, b) in l { ApartNoTieInParts(w, l, es, fs, None, l[KeyOf(a, b)].hidden); }
      case (Map(ty, x, ps), Map(_, y, qs)) =>
        if x != y && KeyOf(a, b) in l {
          ApartNotMixed(w, ty, ps, qs, l[KeyOf(a, b)].share);
          ApartNoTieInEntries(w, l, ps, qs, l[KeyOf(a, b)].hidden);
        }
      case (Struct(ty, es), Struct(_, fs)) => ApartNoTieInParts(w, l, es, fs, Some(ty), hidden);
      case (Array(_, es), Array(_, fs)) => ApartNoTieInParts(w, l, es, fs, None, hidden);
      case _ =>
    }
  }

  lemma {:induction false} ApartNoTieInParts(w: World, l: Log, es: seq<Val>, fs: seq<Val>, ty: Option<TypeId>,
      hidden: bool)
    requires AllApart(es) && DeepEqualAll(es, fs)
    ensures !TieInParts(w, l, es, fs, ty, hidden)
    decreases es, 0
  {
    hide TieMet, HiddenAt, KeysApart, DeepEqual;
    forall i | 0 <= i < |es| && i < |fs| ensures !TieMet(w, l, es[i], fs[i], HiddenAt(w, ty, hidden, i)) {
      ApartNoTie(w, l, es[i], fs[i], HiddenAt(w, ty, hidden, i));
    }
  }

  lemma {:induction false} ApartNoTieInEntries(w: World, l: Log, ps: seq<Pair>, qs: seq<Pair>, hidden: bool)
    requires EntriesApart(ps) && AllFound(ps, qs)
    ensures !TieInEntries(w, l, ps, qs, hidden)
    decreases ps, 0
  {
    hide TieInPair, PairApart, CompareKeys, Found, HasNaN;
    forall i | 0 <= i < |ps| ensures !TieInPair(w, l, ps[i], qs, hidden) {
      assert PairApart(ps[i]) && Found(ps[i], qs);
      ApartNoTieInPair(w, l, ps[i], qs, hidden);
    }
  }

  lemma {:induction false} ApartNoTieInPair(w: World, l: Log, p: Pair, qs: seq<Pair>, hidden: bool)
    requires PairApart(p) && Found(p, qs)
    ensures !TieInPair(w, l, p, qs, hidden)
    decreases p, 0
  {
    hide TieMet, Lookup, KeysApart, DeepEqual;
    assert KeysApart(p.val) && DeepEqual(p.val, Lookup(qs, p.key).value);
    ApartNoTie(w, l, p.val, Lookup(qs, p.key).value, hidden);
  }
}
