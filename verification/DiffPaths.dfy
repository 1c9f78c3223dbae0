/** What an entry of a structural diff says, and where. */
module DiffPaths {
  import opened Values
  import opened Options
  import opened DiffValues
  import opened DiffUnits

  /** One step into a value: what an interface or a pointer holds, a field, an
      element, or the value of a key. */
  datatype Step = Inside | Field(i: nat) | Index(i: nat) | AtKey(key: GoKey)

  type Path = seq<Step>

  datatype What =
    | Differs | TypeMismatch | Below | NeverEqual | Nilness | Length
    | Missing(step: Step) | Unexpected(step: Step) | Ambiguous(key: GoKey)

  datatype Detail = Detail(path: Path, what: What)

  /** From u and v one step leads to x and y. */
  ghost predicate OneStep(u: Val, v: Val, s: Step, x: Val, y: Val) {
    match s
    case Inside =>
      || (u.Interface? && v.Interface? && x == u.elem && y == v.elem)
      || (u.Pointer? && v.Pointer? && x == u.target && y == v.target)
    case Field(i) =>
      u.Struct? && v.Struct? && i < |u.fields| && i < |v.fields| && x == u.fields[i] && y == v.fields[i]
    case Index(i) =>
      && ((u.Slice? && v.Slice?) || (u.Array? && v.Array?))
      && i < |u.elems| && i < |v.elems| && x == u.elems[i] && y == v.elems[i]
    case AtKey(k) => u.Map? && v.Map? && Pair(k, x) in u.pairs && Lookup(v.pairs, k) == Some(y)
  }

  function Front(path: Path): Path
    requires path != []
  {
    path[..|path| - 1]
  }

  /** The same path leads from a to x and from b to y. */
  ghost predicate Leads(a: Val, b: Val, path: Path, x: Val, y: Val)
    decreases |path|
  {
    if path == [] then x == a && y == b
    else exists u, v :: Leads(a, b, Front(path), u, v) && OneStep(u, v, path[|path| - 1], x, y)
  }

  /** The step leads on in u, but not in v. */
  ghost predicate OnlyIn(u: Val, v: Val, s: Step) {
    match s
    case Index(i) => u.Slice? && v.Slice? && |v.elems| <= i < |u.elems|
    case AtKey(k) => u.Map? && v.Map? && (exists x :: Pair(k, x) in u.pairs) && Lookup(v.pairs, k).None?
    case _ => false
  }

  /** An entry of the one map or the other that cannot be told from one of them. */
  ghost predicate AlikeIn(w: World, x: Val, y: Val, k: GoKey, share: nat)
    requires x.Map? && y.Map? && w.form(x.ty).MapForm?
  {
    exists p, q ::
      && (p in x.pairs || p in y.pairs) && (q in x.pairs || q in y.pairs) && p.key == k
      && Alike(w, w.form(x.ty).shape.vals, p, q, share)
  }

  /** What an entry says of the values x and y is so. */
  ghost predicate Explains(w: World, d: What, x: Val, y: Val) {
    match d
    case Differs => !DeepEqual(x, y) && (x.Invalid? || y.Invalid? || ((x.Plain? || x.Struct?) && y.ty == x.ty))
    case TypeMismatch => !x.Invalid? && !y.Invalid? && x.ty != y.ty
    case Below => !x.Invalid? && !y.Invalid? && x.ty == y.ty && !DeepEqual(x, y)
    case NeverEqual => x.Func? && y.Func? && !(x.isNil && y.isNil)
    case Nilness => IsRef(x) && IsRef(y) && x.ty == y.ty && ((x.addr == 0) != (y.addr == 0))
    case Length =>
      || (x.Slice? && y.Slice? && |x.elems| != |y.elems|)
      || (x.Map? && y.Map? && |x.pairs| != |y.pairs|)
    case Missing(s) => OnlyIn(x, y, s)
    case Unexpected(s) => OnlyIn(y, x, s)
    case Ambiguous(k) =>
      x.Map? && y.Map? && w.form(x.ty).MapForm? && exists share: nat :: AlikeIn(w, x, y, k, share)
  }

  /** What an entry about a and b says is so of what its path leads to. */
  ghost predicate Right(w: World, a: Val, b: Val, d: Detail) {
    exists x, y :: Leads(a, b, d.path, x, y) && Explains(w, d.what, x, y)
  }

  ghost predicate AllRight(w: World, a: Val, b: Val, entries: seq<Detail>) {
    forall i :: 0 <= i < |entries| ==> Right(w, a, b, entries[i])
  }

  lemma {:induction false} OneMoreRight(w: World, a: Val, b: Val, entries: seq<Detail>, d: Detail)
    requires AllRight(w, a, b, entries) && Right(w, a, b, d)
    ensures AllRight(w, a, b, entries + [d])
  {
    hide Right;
  }

  lemma {:induction false} IsRight(w: World, a: Val, b: Val, path: Path, d: What, x: Val, y: Val)
    requires Leads(a, b, path, x, y) && Explains(w, d, x, y)
    ensures Right(w, a, b, Detail(path, d))
  {
    hide Leads, Explains;
  }

  lemma {:induction false} DifferSo(w: World, x: Val, y: Val)
    requires !DeepEqual(x, y)
    ensures x.Invalid? || y.Invalid? || ((x.Plain? || x.Struct?) && y.ty == x.ty) ==> Explains(w, Differs, x, y)
  {
    hide DeepEqual;
  }

  lemma {:induction false} TypesSo(w: World, x: Val, y: Val)
    requires !x.Invalid? && !y.Invalid? && x.ty != y.ty
    ensures Explains(w, TypeMismatch, x, y)
  {
  }

  lemma {:induction false} BelowSo(w: World, x: Val, y: Val)
    requires !x.Invalid? && !y.Invalid? && x.ty == y.ty && !DeepEqual(x, y)
    ensures Explains(w, Below, x, y)
  {
    hide DeepEqual;
  }

  lemma {:induction false} FuncsSo(w: World, x: Val, y: Val)
    requires x.Func? && y.Func? && (!x.isNil || !y.isNil)
    ensures Explains(w, NeverEqual, x, y)
  {
  }

  lemma {:induction false} NilnessSo(w: World, x: Val, y: Val)
    requires IsRef(x) && IsRef(y) && x.ty == y.ty && ((x.addr == 0) != (y.addr == 0))
    ensures Explains(w, Nilness, x, y)
  {
  }

  lemma {:induction false} LengthsSo(w: World, x: Val, y: Val)
    requires x.Slice? && y.Slice? && |x.elems| != |y.elems|
    ensures Explains(w, Length, x, y)
  {
  }

  lemma {:induction false} LongerSo(w: World, x: Val, y: Val, i: nat)
    requires x.Slice? && y.Slice?
    ensures |y.elems| <= i < |x.elems| ==> Explains(w, Missing(Index(i)), x, y)
    ensures |x.elems| <= i < |y.elems| ==> Explains(w, Unexpected(Index(i)), x, y)
  {
  }

  lemma {:induction false} LeadsOn(a: Val, b: Val, path: Path, u: Val, v: Val, s: Step, x: Val, y: Val)
    requires Leads(a, b, path, u, v) && OneStep(u, v, s, x, y)
    ensures Leads(a, b, path + [s], x, y)
  {
    assert Front(path + [s]) == path && (path + [s])[|path|] == s;
    hide OneStep;
  }

  /** Where part i of a list is. */
  function PartStep(ty: Option<TypeId>, i: nat): Step {
    if ty.Some? then Field(i) else Index(i)
  }

  /** es and fs are what path leads to, part by part. */
  ghost predicate PartsAt(a: Val, b: Val, path: Path, ty: Option<TypeId>, es: seq<Val>, fs: seq<Val>) {
    forall i :: 0 <= i < |es| && i < |fs| ==> Leads(a, b, path + [PartStep(ty, i)], es[i], fs[i])
  }

  lemma {:induction false} FieldsLead(a: Val, b: Val, path: Path, u: Val, v: Val)
    requires Leads(a, b, path, u, v) && u.Struct? && v.Struct?
    ensures PartsAt(a, b, path, Some(u.ty), u.fields, v.fields)
  {
    hide Leads, OneStep;
    forall i | 0 <= i < |u.fields| && i < |v.fields|
      ensures Leads(a, b, path + [PartStep(Some(u.ty), i)], u.fields[i], v.fields[i])
    {
      ToField(u, v, i);
      LeadsOn(a, b, path, u, v, Field(i), u.fields[i], v.fields[i]);
    }
  }

  lemma {:induction false} ToField(u: Val, v: Val, i: nat)
    requires u.Struct? && v.Struct? && i < |u.fields| && i < |v.fields|
    ensures OneStep(u, v, Field(i), u.fields[i], v.fields[i])
  {
  }

  lemma {:induction false} ElemsLead(a: Val, b: Val, path: Path, u: Val, v: Val)
    requires Leads(a, b, path, u, v) && ((u.Slice? && v.Slice?) || (u.Array? && v.Array?))
    ensures PartsAt(a, b, path, None, u.elems, v.elems)
  {
    hide Leads, OneStep;
    forall i | 0 <= i < |u.elems| && i < |v.elems|
      ensures Leads(a, b, path + [PartStep(None, i)], u.elems[i], v.elems[i])
    {
      ToElem(u, v, i);
      LeadsOn(a, b, path, u, v, Index(i), u.elems[i], v.elems[i]);
    }
  }

  lemma {:induction false} ToElem(u: Val, v: Val, i: nat)
    requires ((u.Slice? && v.Slice?) || (u.Array? && v.Array?)) && i < |u.elems| && i < |v.elems|
    ensures OneStep(u, v, Index(i), u.elems[i], v.elems[i])
  {
  }

  lemma {:induction false} PartLeads(a: Val, b: Val, path: Path, ty: Option<TypeId>, es: seq<Val>, fs: seq<Val>,
      i: nat)
    requires PartsAt(a, b, path, ty, es, fs) && i < |es| && i < |fs|
    ensures Leads(a, b, path + [PartStep(ty, i)], es[i], fs[i])
  {
    hide Leads, PartStep;
  }

  /** The value of an interface or a pointer. */
  lemma {:induction false} InsideLeads(a: Val, b: Val, path: Path, u: Val, v: Val)
    requires Leads(a, b, path, u, v)
    ensures u.Interface? && v.Interface? ==> Leads(a, b, path + [Inside], u.elem, v.elem)
    ensures u.Pointer? && v.Pointer? ==> Leads(a, b, path + [Inside], u.target, v.target)
  {
    if u.Interface? && v.Interface? { LeadsOn(a, b, path, u, v, Inside, u.elem, v.elem); }
    if u.Pointer? && v.Pointer? { LeadsOn(a, b, path, u, v, Inside, u.target, v.target); }
    hide Leads;
  }

  lemma {:induction false} LeadsNowhere(a: Val, b: Val)
    ensures Leads(a, b, [], a, b)
  {
  }

  /** ps and qs are the entries of the maps path leads to. */
  ghost predicate MapsAt(w: World, a: Val, b: Val, path: Path, ms: MapShape, ps: seq<Pair>, qs: seq<Pair>) {
    exists x, y :: Leads(a, b, path, x, y) && MapsAre(w, x, y, ms, ps, qs)
  }

  ghost predicate MapsAre(w: World, x: Val, y: Val, ms: MapShape, ps: seq<Pair>, qs: seq<Pair>) {
    x.Map? && y.Map? && x.pairs == ps && y.pairs == qs && w.form(x.ty) == MapForm(ms)
  }

  lemma {:induction false} KeyLeads(w: World, a: Val, b: Val, path: Path, ms: MapShape, ps: seq<Pair>,
      qs: seq<Pair>, p: Pair, y: Val)
    requires MapsAt(w, a, b, path, ms, ps, qs) && p in ps && Lookup(qs, p.key) == Some(y)
    ensures Leads(a, b, path + [AtKey(p.key)], p.val, y)
  {
    hide Leads, Lookup;
    var u, v :| Leads(a, b, path, u, v) && MapsAre(w, u, v, ms, ps, qs);
    assert p == Pair(p.key, p.val);
    LeadsOn(a, b, path, u, v, AtKey(p.key), p.val, y);
  }

  lemma {:induction false} MapMisses(w: World, a: Val, b: Val, path: Path, ms: MapShape, ps: seq<Pair>,
      qs: seq<Pair>, p: Pair)
    requires MapsAt(w, a, b, path, ms, ps, qs)
    ensures p in ps && Lookup(qs, p.key).None? ==> Right(w, a, b, Detail(path, Missing(AtKey(p.key))))
    ensures p in qs && Lookup(ps, p.key).None? ==> Right(w, a, b, Detail(path, Unexpected(AtKey(p.key))))
  {
    hide Leads, Lookup, Right;
    var u, v :| Leads(a, b, path, u, v) && MapsAre(w, u, v, ms, ps, qs);
    assert p == Pair(p.key, p.val);
    if p in ps && Lookup(qs, p.key).None? { IsRight(w, a, b, path, Missing(AtKey(p.key)), u, v); }
    if p in qs && Lookup(ps, p.key).None? { IsRight(w, a, b, path, Unexpected(AtKey(p.key)), u, v); }
  }

  lemma {:induction false} MapLengths(w: World, a: Val, b: Val, path: Path, ms: MapShape, ps: seq<Pair>, qs: seq<Pair>)
    requires MapsAt(w, a, b, path, ms, ps, qs) && |ps| != |qs|
    ensures Right(w, a, b, Detail(path, Length))
  {
    hide Leads, Right;
    var u, v :| Leads(a, b, path, u, v) && MapsAre(w, u, v, ms, ps, qs);
    IsRight(w, a, b, path, Length, u, v);
  }

  lemma {:induction false} MapsLead(w: World, a: Val, b: Val, path: Path, x: Val, y: Val)
    requires Leads(a, b, path, x, y) && x.Map? && y.Map? && w.form(x.ty).MapForm?
    ensures MapsAt(w, a, b, path, w.form(x.ty).shape, x.pairs, y.pairs)
  {
    hide Leads;
    assert MapsAre(w, x, y, w.form(x.ty).shape, x.pairs, y.pairs);
  }

  /** An entry of the union that is of the second map. */
  lemma {:induction false} SecondOnly(ps: seq<Pair>, qs: seq<Pair>, all: seq<Sided>, order: seq<nat>,
      sorted: seq<Sided>, i: nat)
    requires Unioned(ps, qs, all, order, sorted) && i < |sorted| && !sorted[i].fromA
    ensures sorted[i].pair in qs && Lookup(ps, sorted[i].pair.key).None?
  {
    hide Lookup;
    assert sorted[i] == all[order[i]];
    assert OnlyInB(ps, qs, all[order[i]]);
  }

  lemma {:induction false} FirstIs(ps: seq<Pair>, qs: seq<Pair>, all: seq<Sided>, order: seq<nat>,
      sorted: seq<Sided>, i: nat)
    requires Unioned(ps, qs, all, order, sorted) && i < |sorted| && sorted[i].fromA
    ensures sorted[i].pair in ps
  {
    hide Lookup;
    assert sorted[i] == all[order[i]];
    if order[i] >= |ps| {
      NotOfFirst(ps, qs, all, order[i]);
      assert false;
    }
  }

  lemma {:induction false} NotOfFirst(ps: seq<Pair>, qs: seq<Pair>, all: seq<Sided>, i: nat)
    requires IsUnion(ps, qs, all) && |ps| <= i < |all|
    ensures !all[i].fromA
  {
    hide Lookup;
    assert OnlyInB(ps, qs, all[i]);
  }

  /** What cannot be told apart is reported as such. */
  ghost predicate UnitRight(w: World, a: Val, b: Val, path: Path, sorted: seq<Sided>, x: Unit) {
    x.n > 1 && x.first < |sorted| ==> Right(w, a, b, Detail(path, Ambiguous(sorted[x.first].pair.key)))
  }

  ghost predicate UnitsRight(w: World, a: Val, b: Val, path: Path, sorted: seq<Sided>, units: seq<Unit>) {
    forall u :: 0 <= u < |units| ==> UnitRight(w, a, b, path, sorted, units[u])
  }

  lemma {:induction false} TiesAreRight(w: World, a: Val, b: Val, path: Path, ms: MapShape, ps: seq<Pair>,
      qs: seq<Pair>, all: seq<Sided>, order: seq<nat>, sorted: seq<Sided>, units: seq<Unit>, share: nat)
    requires MapsAt(w, a, b, path, ms, ps, qs) && Unioned(ps, qs, all, order, sorted)
    requires Tiles(units, sorted, AlikeAt(w, ms.vals, share), |sorted|)
    ensures UnitsRight(w, a, b, path, sorted, units)
  {
    var alike := AlikeAt(w, ms.vals, share);
    forall u | 0 <= u < |units| ensures UnitRight(w, a, b, path, sorted, units[u]) {
      TileIs(units, sorted, alike, u);
      if units[u].n > 1 {
        var i := units[u].first;
        assert alike(sorted[i].pair, sorted[i + 1].pair);
        OfEither(ps, qs, all, order, sorted, i);
        OfEither(ps, qs, all, order, sorted, i + 1);
        hide *;
        TieIsRight(w, a, b, path, ms, ps, qs, sorted[i].pair, sorted[i + 1].pair, share);
      }
    }
  }

  lemma {:induction false} TileIs(units: seq<Unit>, sorted: seq<Sided>, alike: Likeness, u: nat)
    requires Tiles(units, sorted, alike, |sorted|) && u < |units|
    ensures UnitIs(units[u], sorted, alike)
  {
  }

  lemma {:induction false} OfEither(ps: seq<Pair>, qs: seq<Pair>, all: seq<Sided>, order: seq<nat>,
      sorted: seq<Sided>, i: nat)
    requires Unioned(ps, qs, all, order, sorted) && i < |sorted|
    ensures sorted[i].pair in ps || sorted[i].pair in qs
  {
    if sorted[i].fromA { FirstIs(ps, qs, all, order, sorted, i); } else { SecondOnly(ps, qs, all, order, sorted, i); }
    hide *;
  }

  lemma {:induction false} TieIsRight(w: World, a: Val, b: Val, path: Path, ms: MapShape, ps: seq<Pair>,
      qs: seq<Pair>, p: Pair, q: Pair, share: nat)
    requires MapsAt(w, a, b, path, ms, ps, qs) && AlikeAt(w, ms.vals, share)(p, q)
    requires (p in ps || p in qs) && (q in ps || q in qs)
    ensures Right(w, a, b, Detail(path, Ambiguous(p.key)))
  {
    hide Leads, Alike, Right;
    var x, y :| Leads(a, b, path, x, y) && MapsAre(w, x, y, ms, ps, qs);
    assert Alike(w, ms.vals, p, q, share);
    assert AlikeIn(w, x, y, p.key, share);
    IsRight(w, a, b, path, Ambiguous(p.key), x, y);
  }
}
