/** Walking two values side by side to name what differs. */
module StructuralDiffs {
  import opened Values
  import opened Options
  import opened KeyOrder
  import opened Permutations
  import opened Fingerprints
  import opened Meters
  import opened SortedEntries
  import opened DiffValues
  import opened DiffUnits
  import opened DiffLogs
  import opened DiffReports
  import opened DiffPaths
  import opened DiffMeanings

  const PROBE_DEPTH: nat := 0x4000_0000

  // ---- Small steps of a walk ----

  lemma {:induction false} InterfaceQuiet(w: World, l: Log, a: Val, b: Val, hidden: bool)
    requires a.Interface? && b.Interface?
    ensures Quiet(w, l, a, b, hidden) == Quiet(w, l, a.elem, b.elem, hidden)
    ensures TieMet(w, l, a, b, hidden) == TieMet(w, l, a.elem, b.elem, hidden)
  {
  }

  lemma {:induction false} SimpleQuiet(w: World, l: Log, a: Val, b: Val, hidden: bool)
    requires a.Invalid? || a.Func? || a.Plain? || b.Invalid?
    ensures Quiet(w, l, a, b, hidden) && !TieMet(w, l, a, b, hidden)
  {
  }

  /** One more part walked. */
  lemma {:induction false} PartDone(w: World, e: seq<Detail>, l: Log, e1: seq<Detail>, l1: Log, e2: seq<Detail>,
      l2: Log, es: seq<Val>, fs: seq<Val>, ty: Option<TypeId>, hidden: bool, i: nat)
    requires i < |es| && i < |fs| && SeenRight(w, l1, e1, Sizes(es)) && Size(es[i]) <= Sizes(es)
    requires Did(w, e, l, e1, l1, Sizes(es), EqualUpTo(es, fs, i), QuietUpTo(w, l1, es, fs, ty, hidden, i),
                 TieUpTo(w, l1, es, fs, ty, hidden, i))
    requires var h := HiddenAt(w, ty, hidden, i);
             Did(w, e1, l1, e2, l2, Size(es[i]), DeepEqual(es[i], fs[i]), Quiet(w, l2, es[i], fs[i], h),
                 TieMet(w, l2, es[i], fs[i], h))
    ensures SeenRight(w, l2, e2, Sizes(es))
    ensures Did(w, e, l, e2, l2, Sizes(es), EqualUpTo(es, fs, i + 1), QuietUpTo(w, l2, es, fs, ty, hidden, i + 1),
                TieUpTo(w, l2, es, fs, ty, hidden, i + 1))
  {
    LogGrew(w, e1, l1, e2, l2, Size(es[i]), DeepEqual(es[i], fs[i]), Quiet(w, l2, es[i], fs[i],
      HiddenAt(w, ty, hidden, i)), TieMet(w, l2, es[i], fs[i], HiddenAt(w, ty, hidden, i)));
    hide *;
    var h := HiddenAt(w, ty, hidden, i);
    var equal, quiet, tied := DeepEqual(es[i], fs[i]), Quiet(w, l2, es[i], fs[i], h), TieMet(w, l2, es[i], fs[i], h);
    OneMoreQuiet(w, l1, l2, es, fs, ty, hidden, i);
    OneMoreEqual(es, fs, i);
    DidInstead(w, e1, l1, e2, l2, Size(es[i]), equal, quiet, tied, Sizes(es), equal, quiet, tied);
    DidMore(w, e, l, e1, l1, e2, l2, Sizes(es), EqualUpTo(es, fs, i), QuietUpTo(w, l1, es, fs, ty, hidden, i),
      TieUpTo(w, l1, es, fs, ty, hidden, i), equal, quiet, tied, QuietUpTo(w, l2, es, fs, ty, hidden, i + 1),
      TieUpTo(w, l2, es, fs, ty, hidden, i + 1));
    StillRight(w, e1, l1, e2, l2, Sizes(es), Sizes(es), equal, quiet, tied);
  }

  lemma {:induction false} LogGrew(w: World, e: seq<Detail>, l: Log, e': seq<Detail>, l': Log, size: nat, equal: bool,
      quiet: bool, tied: bool)
    requires Did(w, e, l, e', l', size, equal, quiet, tied)
    ensures Extends(l, l') && e <= e' && (!equal ==> e' != [])
  {
    hide Settled, Size;
  }

  /** One more entry probed. */
  lemma {:induction false} ProbeDone(w: World, e: seq<Detail>, l: Log, e1: seq<Detail>, l1: Log, e2: seq<Detail>,
      l2: Log, ms: MapShape, ps: seq<Pair>, qs: seq<Pair>, order: seq<nat>, hidden: bool, i: nat, v: Val)
    requires i < |order| && (forall i :: 0 <= i < |order| ==> order[i] < |ps|) && SeenRight(w, l1, e1, PairSizes(ps))
    requires PairsSound(w, ps, ms) && PairsSound(w, qs, ms) && NoneSorted(l2)
    requires Lookup(qs, ps[order[i]].key) == Some(v)
    requires Did(w, e, l, e1, l1, PairSizes(ps), FoundUpTo(ps, qs, order, i),
                 QuietInOrder(w, l1, ps, qs, order, hidden, i), false)
    requires Did(w, e1, l1, e2, l2, Size(ps[order[i]].val), DeepEqual(ps[order[i]].val, v),
                 Quiet(w, l2, ps[order[i]].val, v, hidden), TieMet(w, l2, ps[order[i]].val, v, hidden))
    ensures SeenRight(w, l2, e2, PairSizes(ps))
    ensures Did(w, e, l, e2, l2, PairSizes(ps), FoundUpTo(ps, qs, order, i + 1),
                QuietInOrder(w, l2, ps, qs, order, hidden, i + 1), false)
  {
    var p, size := ps[order[i]], PairSizes(ps);
    var quiet, tied := Quiet(w, l2, p.val, v, hidden), TieMet(w, l2, p.val, v, hidden);
    QuietPairIs(w, l2, p, qs, hidden, v);
    hide *;
    OneMoreFound(w, ms, ps, qs, order, i);
    LogGrew(w, e1, l1, e2, l2, Size(p.val), DeepEqual(p.val, v), quiet, tied);
    NoTie(w, l2, p.val, v, hidden);
    OneMoreInOrder(w, l1, l2, ps, qs, order, hidden, i);
    DidInstead(w, e1, l1, e2, l2, Size(p.val), DeepEqual(p.val, v), quiet, tied, size, Found(p, qs), quiet, false);
    DidMore(w, e, l, e1, l1, e2, l2, size, FoundUpTo(ps, qs, order, i), QuietInOrder(w, l1, ps, qs, order, hidden, i),
      false, Found(p, qs), quiet, false, QuietInOrder(w, l2, ps, qs, order, hidden, i + 1), false);
    StillRight(w, e1, l1, e2, l2, size, size, Found(p, qs), quiet, false);
  }

  lemma {:induction false} EntryMissed(w: World, e: seq<Detail>, l: Log, e1: seq<Detail>, l1: Log, e2: seq<Detail>,
      ps: seq<Pair>, qs: seq<Pair>, order: seq<nat>, hidden: bool, i: nat)
    requires i < |order| && (forall i :: 0 <= i < |order| ==> order[i] < |ps|) && SeenRight(w, l1, e1, PairSizes(ps))
    requires Did(w, e, l, e1, l1, PairSizes(ps), FoundUpTo(ps, qs, order, i),
                 QuietInOrder(w, l1, ps, qs, order, hidden, i), false)
    requires e1 <= e2 && e2 != [] && Lookup(qs, ps[order[i]].key).None?
    ensures SeenRight(w, l1, e2, PairSizes(ps))
    ensures Did(w, e, l, e2, l1, PairSizes(ps), FoundUpTo(ps, qs, order, i + 1),
                QuietInOrder(w, l1, ps, qs, order, hidden, i + 1), false)
  {
    assert !Found(ps[order[i]], qs);
    assert !FoundUpTo(ps, qs, order, i + 1);
    hide *;
    var size, quiet := PairSizes(ps), QuietInOrder(w, l1, ps, qs, order, hidden, i);
    DidAdd(w, e1, l1, e2, size, false, true, false);
    StillRight(w, e1, l1, e2, l1, size, size, false, true, false);
    DidMore(w, e, l, e1, l1, e2, l1, size, FoundUpTo(ps, qs, order, i), quiet, false, false, true, false, quiet, false);
    DidInstead(w, e, l, e2, l1, size, false, quiet, false, size, FoundUpTo(ps, qs, order, i + 1),
      QuietInOrder(w, l1, ps, qs, order, hidden, i + 1), false);
  }

  lemma {:induction false} QuietPairIs(w: World, l: Log, p: Pair, qs: seq<Pair>, hidden: bool, v: Val)
    requires Lookup(qs, p.key) == Some(v)
    ensures QuietPair(w, l, p, qs, hidden) == Quiet(w, l, p.val, v, hidden)
    ensures TieInPair(w, l, p, qs, hidden) == TieMet(w, l, p.val, v, hidden)
  {
    hide Lookup, Quiet, TieMet;
  }

  lemma {:induction false} UnitDone(w: World, e: seq<Detail>, l: Log, e1: seq<Detail>, l1: Log, e2: seq<Detail>,
      l2: Log, size: nat, qs: seq<Pair>, sorted: seq<Sided>, units: seq<Unit>, hidden: bool, u: nat)
    requires u < |units| && InRange(units, sorted) && SeenRight(w, l1, e1, size)
    requires Did(w, e, l, e1, l1, size, UnitsFine(units, sorted, qs, u),
                 QuietUnits(w, l1, units, sorted, qs, hidden, u), TieInUnits(w, l1, units, sorted, qs, hidden, u))
    requires units[u].first < |sorted|
    requires Did(w, e1, l1, e2, l2, size, UnitFine(units[u], sorted, qs),
                 QuietUnit(w, l2, units[u], sorted, qs, hidden), TieInUnit(w, l2, units[u], sorted, qs, hidden))
    ensures SeenRight(w, l2, e2, size)
    ensures Did(w, e, l, e2, l2, size, UnitsFine(units, sorted, qs, u + 1),
                QuietUnits(w, l2, units, sorted, qs, hidden, u + 1),
                TieInUnits(w, l2, units, sorted, qs, hidden, u + 1))
  {
    assert UnitsFine(units, sorted, qs, u + 1) <==> UnitsFine(units, sorted, qs, u) && UnitFine(units[u], sorted, qs);
    hide *;
    var fine, quiet, tied := UnitFine(units[u], sorted, qs), QuietUnit(w, l2, units[u], sorted, qs, hidden),
      TieInUnit(w, l2, units[u], sorted, qs, hidden);
    LogGrew(w, e1, l1, e2, l2, size, fine, quiet, tied);
    OneMoreUnitQuiet(w, l1, l2, units, sorted, qs, hidden, u);
    DidMore(w, e, l, e1, l1, e2, l2, size, UnitsFine(units, sorted, qs, u),
      QuietUnits(w, l1, units, sorted, qs, hidden, u), TieInUnits(w, l1, units, sorted, qs, hidden, u), fine, quiet,
      tied, QuietUnits(w, l2, units, sorted, qs, hidden, u + 1), TieInUnits(w, l2, units, sorted, qs, hidden, u + 1));
    StillRight(w, e1, l1, e2, l2, size, size, fine, quiet, tied);
  }

  /** Two equal maps at different addresses, not met before. */
  ghost predicate NewEqualMaps(l: Log, a: Val, b: Val) {
    a.Map? && b.Map? && a.ty == b.ty && a.addr != b.addr && DeepEqual(a, b) && KeyOf(a, b) !in l
  }

  /** The maps were sorted with an even share of left for every entry whose key
      ties. */
  ghost predicate SharedOut(l: Log, a: Val, b: Val, hidden: bool, left: nat)
    requires a.Map? && b.Map?
  {
    && KeyOf(a, b) in l
    && l[KeyOf(a, b)]
       == Meeting(hidden, Some(Allowance(left, Ties(SidesOf(Firsts(a.pairs)), |a.pairs|))))
  }

  /** Something was added before and after walking the elements both have. */
  lemma {:induction false} UnevenDone(w: World, e: seq<Detail>, e1: seq<Detail>, e2: seq<Detail>, e3: seq<Detail>,
      l: Log, l2: Log, size: nat, same: bool, quiet: bool, tied: bool)
    requires e <= e1 && e1 != [] && e2 <= e3 && Did(w, e1, l, e2, l2, size, same, quiet, tied)
    ensures Did(w, e, l, e3, l2, size, false, false, false)
  {
    LogGrew(w, e1, l, e2, l2, size, same, quiet, tied);
    hide *;
    DidAdd(w, e, l, e1, size, false, false, false);
    DidMore(w, e, l, e1, l, e2, l2, size, false, false, false, same, quiet, tied, false, tied);
    if e3 != [] { DidAdd(w, e2, l2, e3, size, false, false, false); }
    DidMore(w, e, l, e2, l2, e3, l2, size, false, false, tied, false, false, false, false, tied);
    DidInstead(w, e, l, e3, l2, size, false, false, tied, size, false, false, false);
  }

  class DiffWalker {
    /** What reflection reads: types, memory, and which structs show themselves. */
    const w: World
    /** The work budget of the message this walk belongs to. */
    const meter: FpMeter
    const limit: nat
    const maxDepth: nat
    /** Structs that render themselves are walked too. */
    const through: bool
    /** Only whether there is a difference matters. */
    const probe: bool
    var entries: seq<Detail>
    var visited: set<RefPair>
    var probed: map<RefPair, bool>
    ghost var log: Log
    /** The values a path starts from. */
    ghost const from: Val
    ghost const to: Val

    ghost predicate Steady()
      reads this
    {
      && |entries| <= limit + 1 && ProbedRight(w, probed) && through == probe && LogFits(w, log, probe)
      && AllRight(w, from, to, entries)
    }

    ghost predicate Valid()
      reads this
    {
      Steady() && visited == log.Keys
    }

    ghost predicate Funded()
      reads this, meter
    {
      meter.Valid(w.ts, w.heap)
    }

    constructor (w: World, meter: FpMeter, limit: nat, maxDepth: nat, probe: bool, ghost from: Val, ghost to: Val)
      ensures this.w == w && this.meter == meter && this.limit == limit && this.maxDepth == maxDepth
      ensures this.through == this.probe == probe && this.from == from && this.to == to
      ensures entries == [] && visited == {} && probed == map[] && log == map[]
    {
      this.w, this.meter, this.limit, this.maxDepth := w, meter, limit, maxDepth;
      this.through, this.probe, this.from, this.to := probe, probe, from, to;
      entries, visited, probed, log := [], {}, map[], map[];
    }

    predicate Full()
      reads this
    {
      |entries| > limit
    }

    /** Rendering the values of a line spends some of the budget. */
    method Render()
      requires Funded()
      modifies meter`left, meter`visited
      ensures Funded() && meter.left <= old(meter.left)
    {
      var k: nat :| k <= meter.left;
      meter.left, meter.visited := meter.left - k, meter.visited + k;
    }

    method Add(path: Path, d: What)
      requires |entries| <= limit + 1 && Funded() && AllRight(w, from, to, entries)
      requires Right(w, from, to, Detail(path, d))
      modifies `entries, meter`left, meter`visited
      ensures Funded() && old(entries) <= entries && entries != [] && |entries| <= limit + 1
      ensures AllRight(w, from, to, entries)
    {
      hide Leads, Explains, AllRight, Right, FpMeter.Valid, AllRight, Right;
      Render();
      OneMoreRight(w, from, to, entries, Detail(path, d));
      if !Full() { entries := entries + [Detail(path, d)]; }
    }

    /** An entry about the values path leads to. */
    method AddAt(path: Path, d: What, ghost a: Val, ghost b: Val)
      requires |entries| <= limit + 1 && Funded() && AllRight(w, from, to, entries)
      requires Leads(from, to, path, a, b) && Explains(w, d, a, b)
      modifies `entries, meter`left, meter`visited
      ensures Funded() && old(entries) <= entries && entries != [] && |entries| <= limit + 1
      ensures AllRight(w, from, to, entries)
    {
      IsRight(w, from, to, path, d, a, b);
      hide *;
      Add(path, d);
    }

    /** Whether a and b differ at all; a pair of references asked about again is
        answered from memory. */
    method Differs(a: Val, b: Val, hidden: bool, ghost depth: nat) returns (d: bool)
      requires Valid() && Funded() && Sound(w, a) && Sound(w, b) && !a.Invalid? && !b.Invalid? && a.ty == b.ty
      requires through ==> depth >= maxDepth
      modifies `probed, meter`left, meter`visited, meter`memo
      ensures Valid() && Funded() && (d <==> !DeepEqual(a, b))
      decreases Size(a), if through then 0 else 1, if depth >= maxDepth then 1 else 0, 0
    {
      SameForm(w, a, b);
      hide Sound, DeepEqual, Size, ProbedRight, Did, SeenRight, LogFits, Quiet, TieMet, Leads, Explains, AllRight,
        Right, FpMeter.Valid;
      if IsRef(a) {
        RefAt(w, a);
        RefAt(w, b);
        var key := RefPair(IdOf(a), IdOf(b));
        if key in probed {
          ProbedAt(w, probed, key);
          return probed[key];
        }
      }
      d := Probe(a, b, hidden);
      if IsRef(a) {
        var key := RefPair(IdOf(a), IdOf(b));
        OneMoreProbed(w, probed, key, d);
        probed := probed[key := d];
      }
    }

    /** A walk that only asks whether there is a difference. */
    method Probe(a: Val, b: Val, hidden: bool) returns (d: bool)
      requires Funded() && Sound(w, a) && Sound(w, b)
      modifies meter`left, meter`visited, meter`memo
      ensures Funded() && (d <==> !DeepEqual(a, b))
      decreases Size(a), 0, 0, 9
    {
      var sub := new DiffWalker(w, meter, 0, PROBE_DEPTH, true, a, b);
      hide Sound, DeepEqual, Size, ProbedRight, Did, SeenRight, LogFits, Quiet, TieMet, Leads, Explains, AllRight,
        Right, FpMeter.Valid;
      NothingMet(w, Size(a), true);
      LeadsNowhere(a, b);
      sub.Walk(a, b, [], 0, false);
      WalkTells(w, sub.entries, sub.log, Size(a), a, b);
      NoneSortedIn(w, sub.log);
      NoTie(w, sub.log, a, b, false);
      d := |sub.entries| > 0;
    }

    method Walk(a: Val, b: Val, path: Path, depth: nat, hidden: bool)
      requires Valid() && Funded() && Sound(w, a) && Sound(w, b) && SeenRight(w, log, entries, Size(a))
      requires Leads(from, to, path, a, b)
      modifies `entries, `visited, `log, `probed, meter`left, meter`visited, meter`memo
      ensures Valid() && Funded()
      ensures Did(w, old(entries), old(log), entries, log, Size(a), DeepEqual(a, b), Quiet(w, log, a, b, hidden),
                  TieMet(w, log, a, b, hidden))
      decreases Size(a), if through then 0 else 1, if depth >= maxDepth then 1 else 0, 3
    {
      hide Sound, Size, ProbedRight, SeenRight, Did, LogFits, Quiet, TieMet, Leads, Explains, AllRight, Right,
        FpMeter.Valid;
      ghost var e, l := entries, log;
      if Full() {
        DidNothing(w, e, l, Size(a), DeepEqual(a, b), Quiet(w, l, a, b, hidden), TieMet(w, l, a, b, hidden));
        return;
      }
      if a.Invalid? || b.Invalid? {
        SimpleQuiet(w, l, a, b, hidden);
        if a.Invalid? != b.Invalid? {
          DifferSo(w, a, b);
          AddAt(path, What.Differs, a, b);
          DidAdd(w, e, l, entries, Size(a), DeepEqual(a, b), true, false);
        } else {
          DidNothing(w, e, l, Size(a), DeepEqual(a, b), true, false);
        }
        return;
      }
      if a.ty != b.ty {
        TypesSo(w, a, b);
        AddAt(path, TypeMismatch, a, b);
        DidAdd(w, e, l, entries, Size(a), DeepEqual(a, b), Quiet(w, l, a, b, hidden), TieMet(w, l, a, b, hidden));
        return;
      }
      if depth >= maxDepth && IsComposite(a) {
        hide DeepEqual;
        var d := Differs(a, b, hidden, depth);
        if d {
          BelowSo(w, a, b);
          AddAt(path, Below, a, b);
          DidAdd(w, e, l, entries, Size(a), DeepEqual(a, b), Quiet(w, l, a, b, hidden), TieMet(w, l, a, b, hidden));
          return;
        }
      }
      WalkKind(a, b, path, depth, hidden);
    }

    method WalkKind(a: Val, b: Val, path: Path, depth: nat, hidden: bool)
      requires Valid() && Funded() && Sound(w, a) && Sound(w, b) && SeenRight(w, log, entries, Size(a))
      requires !a.Invalid? && !b.Invalid? && a.ty == b.ty
      requires Leads(from, to, path, a, b)
      modifies `entries, `visited, `log, `probed, meter`left, meter`visited, meter`memo
      ensures Valid() && Funded()
      ensures Did(w, old(entries), old(log), entries, log, Size(a), DeepEqual(a, b), Quiet(w, log, a, b, hidden),
                  TieMet(w, log, a, b, hidden))
      decreases Size(a), if through then 0 else 1, if depth >= maxDepth then 1 else 0, 2
    {
      SameForm(w, a, b);
      hide Sound, ProbedRight, SeenRight, Did, ScalarsEqual, Size, LogFits, Quiet, TieMet, Leads, Explains, AllRight,
        Right, FpMeter.Valid;
      match a {
        case Interface(_, _) => WalkInterface(a, b, path, depth, hidden);
        case Pointer(_, _, _) => WalkPointer(a, b, path, depth, hidden);
        case Struct(_, _) => WalkStruct(a, b, path, depth, hidden);
        case Slice(_, _, _) => WalkSlice(a, b, path, depth, hidden);
        case Array(_, _) => WalkArray(a, b, path, depth, hidden);
        case Map(_, _, _) => WalkMap(a, b, path, depth, hidden);
        case Func(_, isNil) =>
          if !isNil || !b.isNil { FuncsSo(w, a, b); }
          WalkSimple(a, b, path, !isNil || !b.isNil, NeverEqual, hidden);
        case Plain(_, x) =>
          if !ScalarsEqual(x, b.scalar) { DifferSo(w, a, b); }
          WalkSimple(a, b, path, !ScalarsEqual(x, b.scalar), What.Differs, hidden);
      }
    }

    /** Values that hold no others. */
    method WalkSimple(a: Val, b: Val, path: Path, differ: bool, what: What, hidden: bool)
      requires Valid() && Funded() && (a.Func? || a.Plain?) && differ == !DeepEqual(a, b)
      requires Leads(from, to, path, a, b) && (differ ==> Explains(w, what, a, b))
      modifies `entries, meter`left, meter`visited
      ensures Valid() && Funded()
      ensures Did(w, old(entries), log, entries, log, Size(a), DeepEqual(a, b), Quiet(w, log, a, b, hidden),
                  TieMet(w, log, a, b, hidden))
    {
      hide Size, ProbedRight, Did, LogFits, Quiet, TieMet, Leads, Explains, AllRight, Right, FpMeter.Valid, DeepEqual;
      SimpleQuiet(w, log, a, b, hidden);
      ghost var e := entries;
      if differ {
        AddAt(path, what, a, b);
        DidAdd(w, e, log, entries, Size(a), DeepEqual(a, b), true, false);
      } else {
        DidNothing(w, e, log, Size(a), DeepEqual(a, b), true, false);
      }
    }

    /** The dynamic values of two interfaces, which may have different types. */
    method WalkInterface(a: Val, b: Val, path: Path, depth: nat, hidden: bool)
      requires Valid() && Funded() && Sound(w, a) && Sound(w, b) && SeenRight(w, log, entries, Size(a))
      requires a.Interface? && b.Interface? && a.ty == b.ty
      requires Leads(from, to, path, a, b)
      modifies `entries, `visited, `log, `probed, meter`left, meter`visited, meter`memo
      ensures Valid() && Funded()
      ensures Did(w, old(entries), old(log), entries, log, Size(a), DeepEqual(a, b), Quiet(w, log, a, b, hidden),
                  TieMet(w, log, a, b, hidden))
      decreases Size(a), if through then 0 else 1, if depth >= maxDepth then 1 else 0, 1
    {
      ghost var e, l := entries, log;
      var x, y := a.elem, b.elem;
      InterfaceParts(w, a, b);
      InsideLeads(from, to, path, a, b);
      assert x.Invalid? || y.Invalid? ==> DeepEqual(x, y) == (x.Invalid? && y.Invalid?);
      assert !x.Invalid? && !y.Invalid? && x.ty != y.ty ==> !DeepEqual(x, y);
      hide Sound, ProbedRight, SeenRight, Did, Size, LogFits, Quiet, TieMet, Leads, Explains, AllRight, Right,
        FpMeter.Valid, DeepEqual;
      if x.Invalid? || y.Invalid? {
        SimpleQuiet(w, l, x, y, hidden);
        InterfaceQuiet(w, l, a, b, hidden);
        if x.Invalid? != y.Invalid? {
          DifferSo(w, x, y);
          AddAt(path + [Inside], What.Differs, x, y);
          DidAdd(w, e, l, entries, Size(a), DeepEqual(a, b), true, false);
        } else {
          DidNothing(w, e, l, Size(a), DeepEqual(a, b), true, false);
        }
        return;
      }
      if x.ty != y.ty {
        TypesSo(w, x, y);
        AddAt(path + [Inside], TypeMismatch, x, y);
        DidAdd(w, e, l, entries, Size(a), DeepEqual(a, b), Quiet(w, l, a, b, hidden), TieMet(w, l, a, b, hidden));
        return;
      }
      RightBelow(w, log, entries, Size(a), Size(x));
      Walk(x, y, path + [Inside], depth, hidden);
      InterfaceQuiet(w, log, a, b, hidden);
      ghost var quiet, tied := Quiet(w, log, a, b, hidden), TieMet(w, log, a, b, hidden);
      DidInstead(w, e, l, entries, log, Size(x), DeepEqual(a, b), quiet, tied, Size(a), DeepEqual(a, b), quiet, tied);
    }

    method WalkPointer(a: Val, b: Val, path: Path, depth: nat, hidden: bool)
      requires Valid() && Funded() && Sound(w, a) && Sound(w, b) && SeenRight(w, log, entries, Size(a))
      requires a.Pointer? && b.Pointer? && a.ty == b.ty
      requires Leads(from, to, path, a, b)
      modifies `entries, `visited, `log, `probed, meter`left, meter`visited, meter`memo
      ensures Valid() && Funded()
      ensures Did(w, old(entries), old(log), entries, log, Size(a), DeepEqual(a, b), Quiet(w, log, a, b, hidden),
                  TieMet(w, log, a, b, hidden))
      decreases Size(a), if through then 0 else 1, if depth >= maxDepth then 1 else 0, 1
    {
      ghost var e, l := entries, log;
      PointerParts(w, a, b);
      InsideLeads(from, to, path, a, b);
      PointerQuiet(w, l, a, b, hidden);
      hide Sound, ProbedRight, SeenRight, Did, Size, LogFits, Quiet, TieMet, Leads, Explains, AllRight, Right,
        FpMeter.Valid, DeepEqual;
      if a.addr == 0 || b.addr == 0 {
        if a.addr != b.addr {
          NilnessSo(w, a, b);
          AddAt(path, Nilness, a, b);
          DidAdd(w, e, l, entries, Size(a), DeepEqual(a, b), Quiet(w, l, a, b, hidden), TieMet(w, l, a, b, hidden));
        } else {
          DidNothing(w, e, l, Size(a), DeepEqual(a, b), true, TieMet(w, l, a, b, hidden));
        }
        return;
      }
      if a.addr == b.addr {
        DidNothing(w, e, l, Size(a), DeepEqual(a, b), true, TieMet(w, l, a, b, hidden));
        return;
      }
      var key := KeyOf(a, b);
      if key in visited {
        SeenIsSettled(w, l, e, a, b, key, hidden);
        DidNothing(w, e, l, Size(a), DeepEqual(a, b), Quiet(w, l, a, b, hidden), TieMet(w, l, a, b, hidden));
        return;
      }
      ghost var m := Meeting(hidden, None);
      RightInside(w, l, e, a, key, m, Size(a.target));
      OneMoreMet(w, l, probe, key, m);
      visited, log := visited + {key}, log[key := m];
      Walk(a.target, b.target, path + [Inside], depth, hidden);
      LogKeeps(w, e, l[key := m], entries, log, Size(a.target), DeepEqual(a, b),
               Quiet(w, log, a.target, b.target, hidden), TieMet(w, log, a.target, b.target, hidden), key);
      PointerQuiet(w, log, a, b, hidden);
      PairDone(w, e, l, entries, log, a, b, key, m, Size(a.target), hidden);
    }

    /** The first n parts of two lists. */
    method WalkParts(es: seq<Val>, fs: seq<Val>, n: nat, path: Path, depth: nat,
        ty: Option<TypeId>, hidden: bool)
      requires Valid() && Funded() && AllSound(w, es) && AllSound(w, fs) && n <= |es| && n <= |fs|
      requires SeenRight(w, log, entries, Sizes(es))
      requires PartsAt(from, to, path, ty, es, fs)
      modifies `entries, `visited, `log, `probed, meter`left, meter`visited, meter`memo
      ensures Valid() && Funded()
      ensures Did(w, old(entries), old(log), entries, log, Sizes(es), EqualUpTo(es, fs, n),
                  QuietUpTo(w, log, es, fs, ty, hidden, n), TieUpTo(w, log, es, fs, ty, hidden, n))
      decreases Sizes(es), 2, 0, 0
    {
      ghost var e, l := entries, log;
      NoPartsYet(w, l, es, fs, ty, hidden);
      hide Sound, ProbedRight, SeenRight, Did, Size, Sizes, LogFits, Quiet, TieMet, Leads, Explains, AllRight, Right,
        FpMeter.Valid, DeepEqual, EqualUpTo, QuietUpTo, TieUpTo, HiddenAt;
      DidNothing(w, e, l, Sizes(es), true, true, TieUpTo(w, l, es, fs, ty, hidden, 0));
      var i := 0;
      while i < n && !Full()
        invariant i <= n && Valid() && Funded() && SeenRight(w, log, entries, Sizes(es))
        invariant Did(w, e, l, entries, log, Sizes(es), EqualUpTo(es, fs, i),
                      QuietUpTo(w, log, es, fs, ty, hidden, i), TieUpTo(w, log, es, fs, ty, hidden, i))
      {
        ghost var e1, l1 := entries, log;
        PartSmaller(es, i);
        RightBelow(w, log, entries, Sizes(es), Size(es[i]));
        assert Sound(w, es[i]) && Sound(w, fs[i]);
        PartLeads(from, to, path, ty, es, fs, i);
        Walk(es[i], fs[i], path + [PartStep(ty, i)], depth, HiddenAt(w, ty, hidden, i));
        PartDone(w, e, l, e1, l1, entries, log, es, fs, ty, hidden, i);
        i := i + 1;
      }
      TieFurther(w, log, es, fs, ty, hidden, i, n);
      DidInstead(w, e, l, entries, log, Sizes(es), EqualUpTo(es, fs, i), QuietUpTo(w, log, es, fs, ty, hidden, i),
        TieUpTo(w, log, es, fs, ty, hidden, i), Sizes(es), EqualUpTo(es, fs, n),
        QuietUpTo(w, log, es, fs, ty, hidden, n), TieUpTo(w, log, es, fs, ty, hidden, n));
    }

    method WalkStruct(a: Val, b: Val, path: Path, depth: nat, hidden: bool)
      requires Valid() && Funded() && Sound(w, a) && Sound(w, b) && SeenRight(w, log, entries, Size(a))
      requires a.Struct? && b.Struct? && a.ty == b.ty && |a.fields| == |b.fields|
      requires Leads(from, to, path, a, b)
      modifies `entries, `visited, `log, `probed, meter`left, meter`visited, meter`memo
      ensures Valid() && Funded()
      ensures Did(w, old(entries), old(log), entries, log, Size(a), DeepEqual(a, b), Quiet(w, log, a, b, hidden),
                  TieMet(w, log, a, b, hidden))
      decreases Size(a), if through then 0 else 1, if depth >= maxDepth then 1 else 0, 1
    {
      ghost var e, l := entries, log;
      StructParts(w, a, b);
      hide Sound, AllSound, ProbedRight, SeenRight, Did, Size, LogFits, Quiet, TieMet, Leads, Explains, AllRight,
        Right, FpMeter.Valid, DeepEqual, EqualUpTo, QuietUpTo, TieUpTo, Shown;
      if !through && Shown(w, a.ty, hidden) {
        ListQuiet(w, l, a, b, hidden);
        var d := Differs(a, b, hidden, depth);
        if d {
          DifferSo(w, a, b);
          AddAt(path, What.Differs, a, b);
          DidAdd(w, e, l, entries, Size(a), DeepEqual(a, b), true, TieMet(w, l, a, b, hidden));
        } else {
          DidNothing(w, e, l, Size(a), DeepEqual(a, b), true, TieMet(w, l, a, b, hidden));
        }
        return;
      }
      RightBelow(w, log, entries, Size(a), Sizes(a.fields));
      FieldsLead(from, to, path, a, b);
      WalkParts(a.fields, b.fields, |a.fields|, path, depth + 1, Some(a.ty), hidden);
      FieldsQuiet(w, log, probe, a, b, hidden);
      DidInstead(w, e, l, entries, log, Sizes(a.fields), DeepEqual(a, b),
        QuietUpTo(w, log, a.fields, b.fields, Some(a.ty), hidden, |a.fields|),
        TieUpTo(w, log, a.fields, b.fields, Some(a.ty), hidden, |a.fields|), Size(a), DeepEqual(a, b),
        Quiet(w, log, a, b, hidden), TieMet(w, log, a, b, hidden));
    }

    method WalkArray(a: Val, b: Val, path: Path, depth: nat, hidden: bool)
      requires Valid() && Funded() && Sound(w, a) && Sound(w, b) && SeenRight(w, log, entries, Size(a))
      requires a.Array? && b.Array? && a.ty == b.ty && |a.elems| == |b.elems|
      requires Leads(from, to, path, a, b)
      modifies `entries, `visited, `log, `probed, meter`left, meter`visited, meter`memo
      ensures Valid() && Funded()
      ensures Did(w, old(entries), old(log), entries, log, Size(a), DeepEqual(a, b), Quiet(w, log, a, b, hidden),
                  TieMet(w, log, a, b, hidden))
      decreases Size(a), if through then 0 else 1, if depth >= maxDepth then 1 else 0, 1
    {
      ghost var e, l := entries, log;
      ArrayParts(w, a, b);
      hide Sound, AllSound, ProbedRight, SeenRight, Did, Size, LogFits, Quiet, TieMet, Leads, Explains, AllRight,
        Right, FpMeter.Valid, DeepEqual, EqualUpTo, QuietUpTo, TieUpTo;
      RightBelow(w, log, entries, Size(a), Sizes(a.elems));
      ElemsLead(from, to, path, a, b);
      WalkParts(a.elems, b.elems, |a.elems|, path, depth + 1, None, hidden);
      ListQuiet(w, log, a, b, hidden);
      UpToAll(w, log, a.elems, b.elems, None, hidden, |a.elems|);
      DidInstead(w, e, l, entries, log, Sizes(a.elems), DeepEqual(a, b),
        QuietUpTo(w, log, a.elems, b.elems, None, hidden, |a.elems|),
        TieUpTo(w, log, a.elems, b.elems, None, hidden, |a.elems|), Size(a), DeepEqual(a, b),
        Quiet(w, log, a, b, hidden), TieMet(w, log, a, b, hidden));
    }

    method WalkSlice(a: Val, b: Val, path: Path, depth: nat, hidden: bool)
      requires Valid() && Funded() && Sound(w, a) && Sound(w, b) && SeenRight(w, log, entries, Size(a))
      requires a.Slice? && b.Slice? && a.ty == b.ty
      requires Leads(from, to, path, a, b)
      modifies `entries, `visited, `log, `probed, meter`left, meter`visited, meter`memo
      ensures Valid() && Funded()
      ensures Did(w, old(entries), old(log), entries, log, Size(a), DeepEqual(a, b), Quiet(w, log, a, b, hidden),
                  TieMet(w, log, a, b, hidden))
      decreases Size(a), if through then 0 else 1, if depth >= maxDepth then 1 else 0, 1
    {
      ghost var e, l := entries, log;
      SliceParts(w, a, b);
      SliceQuiet(w, l, a, b, hidden);
      hide Sound, AllSound, ProbedRight, SeenRight, Did, Size, LogFits, Quiet, TieMet, Leads, Explains, AllRight,
        Right, FpMeter.Valid, DeepEqual, EqualUpTo, QuietParts, TieInParts;
      if (a.addr == 0) != (b.addr == 0) {
        NilnessSo(w, a, b);
        AddAt(path, Nilness, a, b);
        DidAdd(w, e, l, entries, Size(a), DeepEqual(a, b), Quiet(w, l, a, b, hidden), TieMet(w, l, a, b, hidden));
        return;
      }
      if a.addr == b.addr && |a.elems| == |b.elems| {
        DidNothing(w, e, l, Size(a), DeepEqual(a, b), true, TieMet(w, l, a, b, hidden));
        return;
      }
      if |a.elems| == 0 {
        RightBelow(w, log, entries, Size(a), Sizes(a.elems));
        WalkElems(a, b, path, depth, hidden);
        SliceQuiet(w, log, a, b, hidden);
        NoElems(w, log, a, b, hidden);
        DidInstead(w, e, l, entries, log, Sizes(a.elems), DeepEqual(a, b),
          QuietParts(w, log, a.elems, b.elems, None, hidden), TieInParts(w, log, a.elems, b.elems, None, hidden),
          Size(a),
          DeepEqual(a, b), Quiet(w, log, a, b, hidden), TieMet(w, log, a, b, hidden));
        return;
      }
      var key := KeyOf(a, b);
      if key in visited {
        SeenIsSettled(w, l, e, a, b, key, hidden);
        DidNothing(w, e, l, Size(a), DeepEqual(a, b), Quiet(w, l, a, b, hidden), TieMet(w, l, a, b, hidden));
        return;
      }
      ghost var m := Meeting(hidden, None);
      RightInside(w, l, e, a, key, m, Sizes(a.elems));
      OneMoreMet(w, l, probe, key, m);
      visited, log := visited + {key}, log[key := m];
      WalkElems(a, b, path, depth, hidden);
      LogKeeps(w, e, l[key := m], entries, log, Sizes(a.elems), DeepEqual(a, b),
               QuietParts(w, log, a.elems, b.elems, None, hidden), TieInParts(w, log, a.elems, b.elems, None, hidden),
               key);
      SliceQuiet(w, log, a, b, hidden);
      PairDone(w, e, l, entries, log, a, b, key, m, Sizes(a.elems), hidden);
    }

    /** The elements that one of two slices has from place common on, as long as
        there is room. */
    method AddEach(common: nat, n: nat, inA: bool, path: Path, ghost a: Val, ghost b: Val)
      requires |entries| <= limit + 1 && Funded() && AllRight(w, from, to, entries)
      requires Leads(from, to, path, a, b) && a.Slice? && b.Slice?
      requires common < n ==>
                 if inA then |b.elems| <= common && n <= |a.elems| else |a.elems| <= common && n <= |b.elems|
      modifies `entries, meter`left, meter`visited
      ensures Funded() && old(entries) <= entries && |entries| <= limit + 1 && AllRight(w, from, to, entries)
    {
      hide Leads, Explains, AllRight, Right, FpMeter.Valid;
      var i := common;
      while i < n && !Full()
        invariant common <= i && Funded() && old(entries) <= entries && |entries| <= limit + 1
        invariant AllRight(w, from, to, entries)
      {
        LongerSo(w, a, b, i);
        AddAt(path, if inA then Missing(Index(i)) else Unexpected(Index(i)), a, b);
        i := i + 1;
      }
    }


    /** The elements of two slices, which may have different lengths. */
    method WalkElems(a: Val, b: Val, path: Path, depth: nat, hidden: bool)
      requires Valid() && Funded() && Sound(w, a) && Sound(w, b) && a.Slice? && b.Slice? && a.ty == b.ty
      requires SeenRight(w, log, entries, Sizes(a.elems)) && (a.addr == 0 <==> b.addr == 0)
      requires a.addr != b.addr || |a.elems| != |b.elems|
      requires Leads(from, to, path, a, b)
      modifies `entries, `visited, `log, `probed, meter`left, meter`visited, meter`memo
      ensures Valid() && Funded()
      ensures Did(w, old(entries), old(log), entries, log, Sizes(a.elems), DeepEqual(a, b),
                  QuietParts(w, log, a.elems, b.elems, None, hidden),
                  TieInParts(w, log, a.elems, b.elems, None, hidden))
      decreases Size(a), if through then 0 else 1, if depth >= maxDepth then 1 else 0, 0
    {
      ghost var e, l, size := entries, log, Sizes(a.elems);
      SliceParts(w, a, b);
      hide Sound, AllSound, ProbedRight, SeenRight, Did, Size, Sizes, LogFits, Quiet, TieMet, Leads, Explains,
        AllRight, Right, FpMeter.Valid, DeepEqual, EqualUpTo, QuietUpTo, TieUpTo, QuietParts, TieInParts;
      var la, lb := |a.elems|, |b.elems|;
      if la == lb {
        ElemsLead(from, to, path, a, b);
        WalkParts(a.elems, b.elems, la, path, depth + 1, None, hidden);
        UpToAll(w, log, a.elems, b.elems, None, hidden, la);
        DidInstead(w, e, l, entries, log, size, DeepEqual(a, b), QuietUpTo(w, log, a.elems, b.elems, None, hidden, la),
          TieUpTo(w, log, a.elems, b.elems, None, hidden, la), size, DeepEqual(a, b),
          QuietParts(w, log, a.elems, b.elems, None, hidden), TieInParts(w, log, a.elems, b.elems, None, hidden));
      } else {
        WalkUneven(a, b, path, depth, hidden);
        DidInstead(w, e, l, entries, log, size, false, false, false, size, DeepEqual(a, b),
          QuietParts(w, log, a.elems, b.elems, None, hidden), TieInParts(w, log, a.elems, b.elems, None, hidden));
      }
    }

    method WalkUneven(a: Val, b: Val, path: Path, depth: nat, hidden: bool)
      requires Valid() && Funded() && Sound(w, a) && Sound(w, b) && a.Slice? && b.Slice? && a.ty == b.ty
      requires SeenRight(w, log, entries, Sizes(a.elems)) && |a.elems| != |b.elems|
      requires Leads(from, to, path, a, b)
      modifies `entries, `visited, `log, `probed, meter`left, meter`visited, meter`memo
      ensures Valid() && Funded()
      ensures Did(w, old(entries), old(log), entries, log, Sizes(a.elems), false, false, false)
      decreases Size(a), if through then 0 else 1, if depth >= maxDepth then 1 else 0, -1
    {
      ghost var e, l, size := entries, log, Sizes(a.elems);
      SliceParts(w, a, b);
      hide Sound, AllSound, ProbedRight, SeenRight, Did, Size, Sizes, LogFits, Quiet, TieMet, Leads, Explains,
        AllRight, Right, FpMeter.Valid, DeepEqual, EqualUpTo, QuietUpTo, TieUpTo;
      var la, lb := |a.elems|, |b.elems|;
      var common := if la < lb then la else lb;
      LengthsSo(w, a, b);
      AddAt(path, Length, a, b);
      ghost var e1 := entries;
      DidAdd(w, e, l, e1, size, false, false, false);
      StillRight(w, e, l, e1, l, size, size, false, false, false);
      ElemsLead(from, to, path, a, b);
      WalkParts(a.elems, b.elems, common, path, depth + 1, None, hidden);
      ghost var same, quiet, tied := EqualUpTo(a.elems, b.elems, common),
        QuietUpTo(w, log, a.elems, b.elems, None, hidden, common),
        TieUpTo(w, log, a.elems, b.elems, None, hidden, common);
      ghost var e2, l2 := entries, log;
      AddEach(common, la, true, path, a, b);
      AddEach(common, lb, false, path, a, b);
      UnevenDone(w, e, e1, e2, entries, l, l2, size, same, quiet, tied);
    }

    method WalkMap(a: Val, b: Val, path: Path, depth: nat, hidden: bool)
      requires Valid() && Funded() && Sound(w, a) && Sound(w, b) && SeenRight(w, log, entries, Size(a))
      requires a.Map? && b.Map? && a.ty == b.ty
      requires Leads(from, to, path, a, b)
      modifies `entries, `visited, `log, `probed, meter`left, meter`visited, meter`memo
      ensures Valid() && Funded()
      ensures Did(w, old(entries), old(log), entries, log, Size(a), DeepEqual(a, b), Quiet(w, log, a, b, hidden),
                  TieMet(w, log, a, b, hidden))
      ensures !probe && NewEqualMaps(old(log), a, b) ==> SharedOut(log, a, b, hidden, old(meter.left))
      decreases Size(a), if through then 0 else 1, if depth >= maxDepth then 1 else 0, 1
    {
      ghost var e, l := entries, log;
      MapParts(w, a, b);
      MapQuiet(w, l, a, b, hidden);
      hide Sound, PairsSound, ProbedRight, SeenRight, Did, Size, LogFits, Quiet, TieMet, Leads, Explains, AllRight,
        Right, FpMeter.Valid, DeepEqual, AllFound, QuietEntries, TieInEntries, Mixed;
      if (a.addr == 0) != (b.addr == 0) {
        NilnessSo(w, a, b);
        AddAt(path, Nilness, a, b);
        DidAdd(w, e, l, entries, Size(a), DeepEqual(a, b), Quiet(w, l, a, b, hidden), TieMet(w, l, a, b, hidden));
        return;
      }
      if a.addr == b.addr {
        DidNothing(w, e, l, Size(a), DeepEqual(a, b), true, TieMet(w, l, a, b, hidden));
        return;
      }
      var key := KeyOf(a, b);
      if key in visited {
        SeenIsSettled(w, l, e, a, b, key, hidden);
        DidNothing(w, e, l, Size(a), DeepEqual(a, b), Quiet(w, l, a, b, hidden), TieMet(w, l, a, b, hidden));
        return;
      }
      visited := visited + {key};
      WalkEntries(key, a, b, path, depth, hidden);
    }

    /** The entries of two maps met for the first time. */
    method WalkEntries(key: RefPair, a: Val, b: Val, path: Path, depth: nat, hidden: bool)
      requires Steady() && Funded() && Sound(w, a) && Sound(w, b) && SeenRight(w, log, entries, Size(a))
      requires a.Map? && b.Map? && a.ty == b.ty && key == KeyOf(a, b) && key !in log && visited == log.Keys + {key}
      requires (a.addr == 0 <==> b.addr == 0) && a.addr != b.addr
      requires Leads(from, to, path, a, b)
      modifies `entries, `visited, `log, `probed, meter`left, meter`visited, meter`memo
      ensures Valid() && Funded()
      ensures Did(w, old(entries), old(log), entries, log, Size(a), DeepEqual(a, b), Quiet(w, log, a, b, hidden),
                  TieMet(w, log, a, b, hidden))
      ensures !probe && DeepEqual(a, b) ==> SharedOut(log, a, b, hidden, old(meter.left))
      decreases Size(a), if through then 0 else 1, if depth >= maxDepth then 1 else 0, 0
    {
      ghost var e, l, size := entries, log, PairSizes(a.pairs);
      MapParts(w, a, b);
      hide Sound, PairsSound, ProbedRight, SeenRight, Did, Size, LogFits, Quiet, TieMet, Leads, Explains, AllRight,
        Right, FpMeter.Valid, DeepEqual, AllFound, QuietEntries, TieInEntries, Mixed, AnyAlike;
      var ms := w.form(a.ty).shape;
      MapsLead(w, from, to, path, a, b);
      if probe {
        ghost var m := Meeting(hidden, None);
        RightInside(w, l, e, a, key, m, size);
        OneMoreMet(w, l, probe, key, m);
        log := log[key := m];
        ProbeMap(ms, a.pairs, b.pairs, path, depth, hidden);
        ghost var quiet := QuietEntries(w, log, a.pairs, b.pairs, hidden);
        LogKeeps(w, e, l[key := m], entries, log, size, DeepEqual(a, b), quiet, false, key);
        MapQuiet(w, log, a, b, hidden);
        NotMixed(w, a.ty, a.pairs);
        DidInstead(w, e, l[key := m], entries, log, size, DeepEqual(a, b), quiet, false, size, DeepEqual(a, b),
          Quiet(w, log, a, b, hidden), TieMet(w, log, a, b, hidden));
        PairDone(w, e, l, entries, log, a, b, key, m, size, hidden);
      } else {
        ghost var share := WalkUnits(key, a, ms, a.pairs, b.pairs, path, depth, hidden);
        ghost var m := Meeting(hidden, Some(share));
        ghost var quiet, tied :=
          !AnyAlike(w, ms.vals, a.pairs, share) && QuietEntries(w, log, a.pairs, b.pairs, hidden),
          AnyAlike(w, ms.vals, a.pairs, share) || TieInEntries(w, log, a.pairs, b.pairs, hidden);
        LogKeeps(w, e, l[key := m], entries, log, size, DeepEqual(a, b), quiet, tied, key);
        MapQuiet(w, log, a, b, hidden);
        MixedIs(w, a.ty, a.pairs, share);
        PairDone(w, e, l, entries, log, a, b, key, m, size, hidden);
      }
    }

    /** For a probe: nothing is sorted, and the first difference is enough. */
    method ProbeMap(ghost ms: MapShape, ps: seq<Pair>, qs: seq<Pair>, path: Path, depth: nat, hidden: bool)
      requires Valid() && Funded() && PairsSound(w, ps, ms) && PairsSound(w, qs, ms) && probe
      requires SeenRight(w, log, entries, PairSizes(ps))
      requires MapsAt(w, from, to, path, ms, ps, qs)
      modifies `entries, `visited, `log, `probed, meter`left, meter`visited, meter`memo
      ensures Valid() && Funded()
      ensures Did(w, old(entries), old(log), entries, log, PairSizes(ps), |ps| == |qs| && AllFound(ps, qs),
                  QuietEntries(w, log, ps, qs, hidden), false)
      decreases PairSizes(ps), 2, 0, 0
    {
      ghost var e, l, equal, size := entries, log, |ps| == |qs| && AllFound(ps, qs), PairSizes(ps);
      hide Leads, Explains, AllRight, Right, FpMeter.Valid;
      if |ps| != |qs| {
        MapLengths(w, from, to, path, ms, ps, qs);
        Add(path, Length);
        DidAdd(w, e, l, entries, size, false, QuietEntries(w, l, ps, qs, hidden), false);
        return;
      }
      var order := AnyOrder(|ps|);
      OrderInRange(order, |ps|);
      FoundInOrder(ps, qs, order);
      hide *;
      ProbeEach(ms, ps, qs, order, path, depth, hidden);
      InOrderIsAll(w, log, ps, qs, order, hidden);
      DidInstead(w, e, l, entries, log, size, FoundUpTo(ps, qs, order, |order|),
        QuietInOrder(w, log, ps, qs, order, hidden, |order|), false, size, equal, QuietEntries(w, log, ps, qs, hidden),
        false);
    }

    /** The entries in this order, up to the first difference. */
    method ProbeEach(ghost ms: MapShape, ps: seq<Pair>, qs: seq<Pair>, order: seq<nat>, path: Path, depth: nat,
        hidden: bool)
      requires Valid() && Funded() && PairsSound(w, ps, ms) && PairsSound(w, qs, ms) && probe
      requires SeenRight(w, log, entries, PairSizes(ps)) && forall i :: 0 <= i < |order| ==> order[i] < |ps|
      requires MapsAt(w, from, to, path, ms, ps, qs)
      modifies `entries, `visited, `log, `probed, meter`left, meter`visited, meter`memo
      ensures Valid() && Funded()
      ensures Did(w, old(entries), old(log), entries, log, PairSizes(ps), FoundUpTo(ps, qs, order, |order|),
                  QuietInOrder(w, log, ps, qs, order, hidden, |order|), false)
      decreases PairSizes(ps), 1, 2, 0
    {
      ghost var e, l, size := entries, log, PairSizes(ps);
      NothingProbed(w, l, ps, qs, order, hidden);
      hide *;
      var i := 0;
      DidNothing(w, e, l, size, FoundUpTo(ps, qs, order, 0), QuietInOrder(w, l, ps, qs, order, hidden, 0), false);
      while i < |order| && !Full()
        invariant i <= |order| && Valid() && Funded() && SeenRight(w, log, entries, size)
        invariant Did(w, e, l, entries, log, size, FoundUpTo(ps, qs, order, i),
                      QuietInOrder(w, log, ps, qs, order, hidden, i), false)
      {
        ProbeOne(ms, ps, qs, order, i, path, depth, hidden, e, l);
        i := i + 1;
      }
      FoundPrefix(ps, qs, order, i, |order|);
      NotFull();
      DidInstead(w, e, l, entries, log, size, FoundUpTo(ps, qs, order, i),
        QuietInOrder(w, log, ps, qs, order, hidden, i), false, size, FoundUpTo(ps, qs, order, |order|),
        QuietInOrder(w, log, ps, qs, order, hidden, |order|), false);
    }

    lemma {:induction false} NotFull()
      ensures Full() ==> entries != []
    {
    }

    method ProbeOne(ghost ms: MapShape, ps: seq<Pair>, qs: seq<Pair>, order: seq<nat>, i: nat, path: Path, depth: nat,
        hidden: bool, ghost e: seq<Detail>, ghost l: Log)
      requires Valid() && Funded() && PairsSound(w, ps, ms) && PairsSound(w, qs, ms) && probe && i < |order|
      requires SeenRight(w, log, entries, PairSizes(ps)) && forall i :: 0 <= i < |order| ==> order[i] < |ps|
      requires Did(w, e, l, entries, log, PairSizes(ps), FoundUpTo(ps, qs, order, i),
                   QuietInOrder(w, log, ps, qs, order, hidden, i), false)
      requires MapsAt(w, from, to, path, ms, ps, qs)
      modifies `entries, `visited, `log, `probed, meter`left, meter`visited, meter`memo
      ensures Valid() && Funded() && SeenRight(w, log, entries, PairSizes(ps))
      ensures Did(w, e, l, entries, log, PairSizes(ps), FoundUpTo(ps, qs, order, i + 1),
                  QuietInOrder(w, log, ps, qs, order, hidden, i + 1), false)
      decreases PairSizes(ps), 1, 1, 0
    {
      ghost var e1, l1, size := entries, log, PairSizes(ps);
      var p := ps[order[i]];
      OneMoreFound(w, ms, ps, qs, order, i);
      hide *;
      var bv := Lookup(qs, p.key);
      if bv.None? {
        MapMisses(w, from, to, path, ms, ps, qs, p);
        AddMissing(path, p.key);
        EntryMissed(w, e, l, e1, l1, entries, ps, qs, order, hidden, i);
      } else {
        RightBelow(w, log, entries, size, Size(p.val));
        KeyLeads(w, from, to, path, ms, ps, qs, p, bv.value);
        Walk(p.val, bv.value, path + [AtKey(p.key)], depth + 1, hidden);
        NoneSortedNow();
        ProbeDone(w, e, l, e1, l1, entries, log, ms, ps, qs, order, hidden, i, bv.value);
      }
    }

    method AddMissing(path: Path, key: GoKey)
      requires Valid() && Funded() && Right(w, from, to, Detail(path, Missing(AtKey(key))))
      modifies `entries, meter`left, meter`visited
      ensures Valid() && Funded() && old(entries) <= entries && entries != []
    {
      hide Leads, Explains, AllRight, Right, FpMeter.Valid, ProbedRight, LogFits;
      Add(path, Missing(AtKey(key)));
    }

    lemma {:induction false} NoneSortedNow()
      requires Valid() && probe
      ensures NoneSorted(log)
    {
      hide ProbedRight;
    }

    /** The entries of both maps in order, those that cannot be told apart
        reported together. share is what each entry whose key ties could visit. */
    method WalkUnits(key: RefPair, ghost a: Val, ms: MapShape, ps: seq<Pair>, qs: seq<Pair>, path: Path, depth: nat,
        hidden: bool)
      returns (ghost share: nat)
      requires Steady() && Funded() && PairsSound(w, ps, ms) && PairsSound(w, qs, ms) && !probe
      requires key !in log && visited == log.Keys + {key} && w.at(key.a) == a && PairSizes(ps) < Size(a)
      requires SeenRight(w, log, entries, Size(a))
      requires MapsAt(w, from, to, path, ms, ps, qs)
      modifies `entries, `visited, `log, `probed, meter`left, meter`visited, meter`memo
      ensures Valid() && Funded()
      ensures |ps| == |qs| && AllFound(ps, qs) ==> share == Allowance(old(meter.left), Ties(SidesOf(Firsts(ps)), |ps|))
      ensures Did(w, old(entries), old(log)[key := Meeting(hidden, Some(share))], entries, log, PairSizes(ps),
                  |ps| == |qs| && AllFound(ps, qs),
                  !AnyAlike(w, ms.vals, ps, share) && QuietEntries(w, log, ps, qs, hidden),
                  AnyAlike(w, ms.vals, ps, share) || TieInEntries(w, log, ps, qs, hidden))
      decreases PairSizes(ps), 4, 0, 0
    {
      ghost var e, l := entries, log;
      hide Sound, PairsSound, ProbedRight, SeenRight, Did, Size, LogFits, DeepEqual, AllFound, QuietEntries,
        TieInEntries, AnyAlike, IsUnion, Leads, Explains, AllRight, Right, FpMeter.Valid, AllSides, Shows, Adjoining,
        Tiles, Maximal, IsPermutation, InRange, UnitsFine, NoneOnlyInB, UnitsNotEmpty, Ties, Allowance;
      var all := UnionOf(ps, qs);
      UnionSound(w, ms, ps, qs, all);
      EqualUnion(w, ms, ps, qs, all);
      var order, sides: seq<SideEntry>;
      order, sides, share := SortUnion(meter, w, ms, all);
      ghost var m := Meeting(hidden, Some(share));
      RightInside(w, l, e, a, key, m, PairSizes(ps));
      OneMoreMet(w, l, probe, key, m);
      log := log[key := m];
      OrderInRange(order, |all|);
      var sorted := Arrange(all, order);
      IsUnioned(ps, qs, all, order, sorted);
      hide Unioned;
      var units := TiedUnits(sides, sorted, AlikeAt(w, ms.vals, share));
      TiesAreRight(w, from, to, path, ms, ps, qs, all, order, sorted, units, share);
      UnitsDecide(w, ms, ps, qs, all, order, sorted, units, share);
      UnitsAreEntries(w, log, ps, qs, all, order, sorted, units, AlikeAt(w, ms.vals, share), hidden);
      WalkSorted(ms, ps, qs, all, order, sorted, units, path, depth, hidden);
      UnitsAreEntries(w, log, ps, qs, all, order, sorted, units, AlikeAt(w, ms.vals, share), hidden);
      DidInstead(w, e, l[key := m], entries, log, PairSizes(ps),
        UnitsFine(units, sorted, qs, |units|) && NoneOnlyInB(units, sorted, |units|),
        QuietUnits(w, log, units, sorted, qs, hidden, |units|), TieInUnits(w, log, units, sorted, qs, hidden, |units|),
        PairSizes(ps), |ps| == |qs| && AllFound(ps, qs),
        !AnyAlike(w, ms.vals, ps, share) && QuietEntries(w, log, ps, qs, hidden),
        AnyAlike(w, ms.vals, ps, share) || TieInEntries(w, log, ps, qs, hidden));
    }

    /** The units of the first map, then those only in the second. */
    method WalkSorted(ghost ms: MapShape, ghost ps: seq<Pair>, qs: seq<Pair>, ghost all: seq<Sided>,
        ghost order: seq<nat>, sorted: seq<Sided>, units: seq<Unit>, path: Path, depth: nat, hidden: bool)
      requires Valid() && Funded() && PairsSound(w, ps, ms) && PairsSound(w, qs, ms) && !probe
      requires SeenRight(w, log, entries, PairSizes(ps))
      requires Unioned(ps, qs, all, order, sorted) && InRange(units, sorted) && UnitsNotEmpty(units)
      requires MapsAt(w, from, to, path, ms, ps, qs)
      requires UnitsRight(w, from, to, path, sorted, units)
      modifies `entries, `visited, `log, `probed, meter`left, meter`visited, meter`memo
      ensures Valid() && Funded()
      ensures Did(w, old(entries), old(log), entries, log, PairSizes(ps),
                  UnitsFine(units, sorted, qs, |units|) && NoneOnlyInB(units, sorted, |units|),
                  QuietUnits(w, log, units, sorted, qs, hidden, |units|),
                  TieInUnits(w, log, units, sorted, qs, hidden, |units|))
      decreases PairSizes(ps), 3, 0, 0
    {
      ghost var e, l := entries, log;
      hide *;
      WalkFirst(ms, ps, qs, all, order, sorted, units, path, depth, hidden);
      ghost var e1, l1 := entries, log;
      AddSecond(PairSizes(ps), ms, ps, qs, all, order, sorted, units, path);
      ghost var quiet, tied := QuietUnits(w, log, units, sorted, qs, hidden, |units|),
        TieInUnits(w, log, units, sorted, qs, hidden, |units|);
      DidMore(w, e, l, e1, l1, entries, log, PairSizes(ps), UnitsFine(units, sorted, qs, |units|), quiet, tied,
        NoneOnlyInB(units, sorted, |units|), true, false, quiet, tied);
    }

    /** The entries of the first map, and the groups. */
    method WalkFirst(ghost ms: MapShape, ghost ps: seq<Pair>, qs: seq<Pair>, ghost all: seq<Sided>,
        ghost order: seq<nat>, sorted: seq<Sided>, units: seq<Unit>, path: Path, depth: nat, hidden: bool)
      requires Valid() && Funded() && PairsSound(w, ps, ms) && PairsSound(w, qs, ms) && !probe
      requires SeenRight(w, log, entries, PairSizes(ps))
      requires Unioned(ps, qs, all, order, sorted) && InRange(units, sorted) && UnitsNotEmpty(units)
      requires MapsAt(w, from, to, path, ms, ps, qs)
      requires UnitsRight(w, from, to, path, sorted, units)
      modifies `entries, `visited, `log, `probed, meter`left, meter`visited, meter`memo
      ensures Valid() && Funded()
      ensures Did(w, old(entries), old(log), entries, log, PairSizes(ps), UnitsFine(units, sorted, qs, |units|),
                  QuietUnits(w, log, units, sorted, qs, hidden, |units|),
                  TieInUnits(w, log, units, sorted, qs, hidden, |units|))
      decreases PairSizes(ps), 2, 0, 0
    {
      ghost var e, l, size := entries, log, PairSizes(ps);
      NoUnitsYet(w, l, units, sorted, qs, hidden);
      hide Sound, PairsSound, ProbedRight, SeenRight, Did, Size, LogFits, DeepEqual, Lookup, Unioned, UnitsFine,
        QuietUnits, TieInUnits, Leads, Explains, AllRight, Right, FpMeter.Valid, UnitFine, QuietUnit, TieInUnit;
      var u := 0;
      DidNothing(w, e, l, size, true, true, TieInUnits(w, l, units, sorted, qs, hidden, 0));
      while u < |units| && !Full()
        invariant u <= |units| && Valid() && Funded() && SeenRight(w, log, entries, size)
        invariant Did(w, e, l, entries, log, size, UnitsFine(units, sorted, qs, u),
                      QuietUnits(w, log, units, sorted, qs, hidden, u),
                      TieInUnits(w, log, units, sorted, qs, hidden, u))
      {
        ghost var e1, l1 := entries, log;
        WalkUnit(ms, ps, qs, all, order, sorted, units[u], path, depth, hidden);
        UnitDone(w, e, l, e1, l1, entries, log, size, qs, sorted, units, hidden, u);
        u := u + 1;
      }
      FinePrefix(units, sorted, qs, u, |units|);
      TieInMore(w, log, units, sorted, qs, hidden, u);
      DidInstead(w, e, l, entries, log, size, UnitsFine(units, sorted, qs, u),
        QuietUnits(w, log, units, sorted, qs, hidden, u), TieInUnits(w, log, units, sorted, qs, hidden, u), size,
        UnitsFine(units, sorted, qs, |units|), QuietUnits(w, log, units, sorted, qs, hidden, |units|),
        TieInUnits(w, log, units, sorted, qs, hidden, |units|));
    }

    method WalkUnit(ghost ms: MapShape, ghost ps: seq<Pair>, qs: seq<Pair>, ghost all: seq<Sided>,
        ghost order: seq<nat>, sorted: seq<Sided>, unit: Unit, path: Path, depth: nat, hidden: bool)
      requires Valid() && Funded() && PairsSound(w, ps, ms) && PairsSound(w, qs, ms) && !probe
      requires SeenRight(w, log, entries, PairSizes(ps))
      requires Unioned(ps, qs, all, order, sorted) && unit.first < |sorted| && unit.n > 0
      requires MapsAt(w, from, to, path, ms, ps, qs)
      requires UnitRight(w, from, to, path, sorted, unit)
      modifies `entries, `visited, `log, `probed, meter`left, meter`visited, meter`memo
      ensures Valid() && Funded()
      ensures Did(w, old(entries), old(log), entries, log, PairSizes(ps), UnitFine(unit, sorted, qs),
                  QuietUnit(w, log, unit, sorted, qs, hidden), TieInUnit(w, log, unit, sorted, qs, hidden))
      decreases PairSizes(ps), 1, 1, 9
    {
      ghost var e, l, size := entries, log, PairSizes(ps);
      hide Sound, PairsSound, ProbedRight, SeenRight, Did, Size, LogFits, DeepEqual, Unioned, Leads, Explains,
        AllRight, Right, FpMeter.Valid, QuietPair, TieInPair, Quiet, TieMet;
      var p := sorted[unit.first];
      if unit.n == 1 && !p.fromA {
        DidNothing(w, e, l, size, true, true, false);
        return;
      }
      if p.fromA { FirstIs(ps, qs, all, order, sorted, unit.first); }
      if unit.n > 1 {
        Add(path, Ambiguous(p.pair.key));
        DidAdd(w, e, l, entries, size, false, true, false);
        return;
      }
      var bv := Lookup(qs, p.pair.key);
      if bv.None? {
        MapMisses(w, from, to, path, ms, ps, qs, p.pair);
        Add(path, Missing(AtKey(p.pair.key)));
        DidAdd(w, e, l, entries, size, false, QuietUnit(w, l, unit, sorted, qs, hidden),
          TieInUnit(w, l, unit, sorted, qs, hidden));
        return;
      }
      FirstEntry(w, ms, ps, qs, all, order, sorted, unit.first, bv.value);
      RightBelow(w, log, entries, size, Size(p.pair.val));
      KeyLeads(w, from, to, path, ms, ps, qs, p.pair, bv.value);
      Walk(p.pair.val, bv.value, path + [AtKey(p.pair.key)], depth + 1, hidden);
      QuietPairIs(w, log, p.pair, qs, hidden, bv.value);
      ghost var quiet := Quiet(w, log, p.pair.val, bv.value, hidden);
      ghost var tied := TieMet(w, log, p.pair.val, bv.value, hidden);
      DidInstead(w, e, l, entries, log, Size(p.pair.val), UnitFine(unit, sorted, qs), quiet, tied, size,
        UnitFine(unit, sorted, qs), quiet, tied);
    }

    /** The single entries of the second map. */
    method AddSecond(ghost size: nat, ghost ms: MapShape, ghost ps: seq<Pair>, ghost qs: seq<Pair>,
        ghost all: seq<Sided>, ghost order: seq<nat>, sorted: seq<Sided>, units: seq<Unit>, path: Path)
      requires Valid() && Funded() && InRange(units, sorted)
      requires Unioned(ps, qs, all, order, sorted) && MapsAt(w, from, to, path, ms, ps, qs)
      modifies `entries, meter`left, meter`visited
      ensures Valid() && Funded()
      ensures Did(w, old(entries), log, entries, log, size, NoneOnlyInB(units, sorted, |units|), true, false)
    {
      ghost var e := entries;
      hide ProbedRight, Did, LogFits, Leads, Explains, AllRight, Right, FpMeter.Valid;
      DidNothing(w, e, log, size, true, true, false);
      var u := 0;
      while u < |units| && !Full()
        invariant u <= |units| && Valid() && Funded()
        invariant Did(w, e, log, entries, log, size, NoneOnlyInB(units, sorted, u), true, false)
      {
        var unit := units[u];
        ghost var e1 := entries;
        if unit.n == 1 && !sorted[unit.first].fromA {
          SecondOnly(ps, qs, all, order, sorted, unit.first);
          MapMisses(w, from, to, path, ms, ps, qs, sorted[unit.first].pair);
          Add(path, Unexpected(AtKey(sorted[unit.first].pair.key)));
          DidAdd(w, e1, log, entries, size, false, true, false);
          DidMore(w, e, log, e1, log, entries, log, size, NoneOnlyInB(units, sorted, u), true, false, false, true,
            false, true, false);
          DidInstead(w, e, log, entries, log, size, false, true, false, size, NoneOnlyInB(units, sorted, u + 1), true,
            false);
        }
        u := u + 1;
      }
      DidInstead(w, e, log, entries, log, size, NoneOnlyInB(units, sorted, u), true, false, size,
        NoneOnlyInB(units, sorted, |units|), true, false);
    }
  }

  // ---- What the steps need ----

  /** What was in the log still is. */
  lemma {:induction false} LogKeeps(w: World, e: seq<Detail>, l: Log, e': seq<Detail>, l': Log, size: nat, equal: bool,
      quiet: bool, tied: bool, key: RefPair)
    requires Did(w, e, l, e', l', size, equal, quiet, tied) && key in l
    ensures key in l' && l'[key] == l[key]
  {
    hide Settled, Size;
  }

  lemma {:induction false} NoneSortedIn(w: World, l: Log)
    requires LogFits(w, l, true)
    ensures NoneSorted(l)
  {
  }

  lemma {:induction false} FieldsQuiet(w: World, l: Log, probe: bool, a: Val, b: Val, hidden: bool)
    requires a.Struct? && b.Struct? && |a.fields| == |b.fields| && LogFits(w, l, probe)
    requires probe || !Shown(w, a.ty, hidden)
    ensures QuietUpTo(w, l, a.fields, b.fields, Some(a.ty), hidden, |a.fields|) ==> Quiet(w, l, a, b, hidden)
    ensures TieUpTo(w, l, a.fields, b.fields, Some(a.ty), hidden, |a.fields|) ==> TieMet(w, l, a, b, hidden)
  {
    ListQuiet(w, l, a, b, hidden);
    UpToAll(w, l, a.fields, b.fields, Some(a.ty), hidden, |a.fields|);
    if probe {
      NoneSortedIn(w, l);
      NoTieInParts(w, l, a.fields, b.fields, Some(a.ty), hidden);
    }
    hide QuietUpTo, TieUpTo, Quiet, TieMet, Shown, LogFits;
  }

  lemma {:induction false} NoElems(w: World, l: Log, a: Val, b: Val, hidden: bool)
    requires a.Slice? && b.Slice? && a.elems == []
    ensures !TieInParts(w, l, a.elems, b.elems, None, hidden)
  {
  }

  lemma {:induction false} NothingProbed(w: World, l: Log, ps: seq<Pair>, qs: seq<Pair>, order: seq<nat>, hidden: bool)
    requires forall i :: 0 <= i < |order| ==> order[i] < |ps|
    ensures FoundUpTo(ps, qs, order, 0) && QuietInOrder(w, l, ps, qs, order, hidden, 0)
  {
  }

  lemma {:induction false} NotMixed(w: World, ty: TypeId, ps: seq<Pair>)
    ensures !Mixed(w, ty, ps, None)
  {
  }

  lemma {:induction false} MixedIs(w: World, ty: TypeId, ps: seq<Pair>, share: nat)
    requires w.form(ty).MapForm?
    ensures Mixed(w, ty, ps, Some(share)) == AnyAlike(w, w.form(ty).shape.vals, ps, share)
  {
    hide AnyAlike;
  }

  lemma {:induction false} OrderInRange(order: seq<nat>, n: nat)
    requires IsPermutation(order, n)
    ensures |order| == n && forall i :: 0 <= i < |order| ==> order[i] < n
  {
  }

  lemma {:induction false} IsUnioned(ps: seq<Pair>, qs: seq<Pair>, all: seq<Sided>, order: seq<nat>,
      sorted: seq<Sided>)
    requires IsUnion(ps, qs, all) && IsPermutation(order, |all|) && sorted == Arrange(all, order)
    ensures Unioned(ps, qs, all, order, sorted)
  {
  }

  // ---- A whole diff ----

  const MAX_ENTRIES: nat := 10
  const MAX_DEPTH: nat := 8

  lemma {:induction false} Begun(walker: DiffWalker)
    requires walker.entries == [] && walker.probed == map[] && walker.log == map[] && walker.visited == {}
    requires walker.through == walker.probe
    ensures walker.Valid() && (walker.meter.Valid(walker.w.ts, walker.w.heap) ==> walker.Funded())
  {
    NothingMet(walker.w, 0, walker.probe);
  }

  lemma {:induction false} FullBudget(meter: FpMeter, w: World)
    requires meter.Valid(w.ts, w.heap) && meter.visited == 0
    ensures meter.left == MESSAGE_BUDGET
  {
    hide Remembered;
  }

  /** A walker with nothing found yet, and a budget of its own. */
  method NewWalker(w: World, limit: nat, depth: nat, ghost from: Val, ghost to: Val) returns (walker: DiffWalker)
    ensures fresh(walker) && fresh(walker.meter) && walker.w == w && walker.limit == limit && walker.maxDepth == depth
    ensures walker.entries == [] && walker.log == map[] && !walker.probe && walker.from == from && walker.to == to
    ensures walker.Valid() && walker.Funded() && walker.meter.left == MESSAGE_BUDGET
  {
    var meter := new FpMeter(w.ts, w.heap);
    FullBudget(meter, w);
    walker := new DiffWalker(w, meter, limit, depth, false, from, to);
    hide *;
    Begun(walker);
  }

  /** The differences between two values: some when they are not deeply equal,
      whatever cannot be told apart, wherever the depth limit falls and whichever
      structs render themselves. When they are equal there are some exactly when,
      in a map on the way, two different entries could not be told apart with the
      share the map was given; log says which maps and what share. Where keys can
      be told apart, equal values are left alone. What values say decides: those
      that say different things are always told of. And what an entry tells of the
      values its path leads to is so. */
  method StructuralDiff(w: World, a: Val, b: Val, limit: nat, depth: nat)
    returns (entries: seq<Detail>, ghost log: Log)
    requires Sound(w, a) && Sound(w, b)
    ensures |entries| <= limit + 1 && AllSorted(w, log) && AllRight(w, a, b, entries)
    ensures !DeepEqual(a, b) ==> entries != []
    ensures DeepEqual(a, b) ==> (entries != [] <==> TieMet(w, log, a, b, false))
    ensures DeepEqual(a, b) ==> (entries == [] <==> Quiet(w, log, a, b, false))
    ensures DeepEqual(a, b) && KeysApart(a) ==> entries == []
    ensures MeaningOf(a) != MeaningOf(b) ==> entries != []
    ensures Clean(a) && MeaningOf(a) == MeaningOf(b) && KeysApart(a) ==> entries == []
  {
    hide *;
    DeepEqualIsMeaning(w, a, b);
    var walker := NewWalker(w, limit, depth, a, b);
    NothingMet(w, Size(a), false);
    LeadsNowhere(a, b);
    walker.Walk(a, b, [], 0, false);
    entries, log := walker.entries, walker.log;
    Ended(walker);
    WalkTells(w, entries, log, Size(a), a, b);
    if DeepEqual(a, b) && KeysApart(a) { ApartNoTie(w, log, a, b, false); }
  }

  lemma {:induction false} Ended(walker: DiffWalker)
    requires walker.Valid()
    ensures |walker.entries| <= walker.limit + 1 && (!walker.probe ==> AllSorted(walker.w, walker.log))
    ensures AllRight(walker.w, walker.from, walker.to, walker.entries)
  {
    hide ProbedRight;
  }

  /** A probe asks whether the values differ, and no more; a walk also finds what
      it cannot tell apart. Where keys can be told apart the two agree. */
  method ProbeAgrees(w: World, a: Val, b: Val) returns (probed: bool, walked: bool, ghost log: Log)
    requires Sound(w, a) && Sound(w, b)
    ensures probed == !DeepEqual(a, b)
    ensures walked == (!DeepEqual(a, b) || TieMet(w, log, a, b, false))
    ensures KeysApart(a) ==> probed == walked
  {
    hide *;
    var entries: seq<Detail>;
    entries, log := StructuralDiff(w, a, b, MAX_ENTRIES, MAX_DEPTH);
    walked := |entries| > 0;
    var meter := new FpMeter(w.ts, w.heap);
    var probe := new DiffWalker(w, meter, 0, PROBE_DEPTH, true, a, b);
    Begun(probe);
    probed := probe.Probe(a, b, false);
    if !DeepEqual(a, b) { assert walked; }
    if DeepEqual(a, b) && KeysApart(a) { ApartNoTie(w, log, a, b, false); }
  }

  /** What each entry of a map whose key ties may spend when the map is the first
      to be sorted: an even share of half the budget. */
  ghost function FirstShare(a: Val): nat
    requires a.Map?
  {
    Allowance(MESSAGE_BUDGET, Ties(SidesOf(Firsts(a.pairs)), |a.pairs|))
  }

  /** Two deeply equal maps, of any size, at different addresses: a difference is
      reported exactly when two different entries cannot be told apart within their
      share, or one of the values holds such a map. */
  method EqualMaps(w: World, a: Val, b: Val) returns (entries: seq<Detail>, ghost log: Log)
    requires Sound(w, a) && Sound(w, b) && NewEqualMaps(map[], a, b)
    ensures w.form(a.ty).MapForm?
    ensures AnyAlike(w, w.form(a.ty).shape.vals, a.pairs, FirstShare(a)) ==> entries != []
    ensures (forall i :: 0 <= i < |a.pairs| ==> PairApart(a.pairs[i])) ==>
              (entries != [] <==> AnyAlike(w, w.form(a.ty).shape.vals, a.pairs, FirstShare(a)))
    ensures entries != [] <==>
              || AnyAlike(w, w.form(a.ty).shape.vals, a.pairs, FirstShare(a))
              || TieInEntries(w, log, a.pairs, b.pairs, false)
  {
    MapParts(w, a, b);
    EqualFirst(a, b);
    hide *;
    var walker := NewWalker(w, MAX_ENTRIES, MAX_DEPTH, a, b);
    NothingMet(w, Size(a), false);
    LeadsNowhere(a, b);
    walker.WalkMap(a, b, [], 0, false);
    entries, log := walker.entries, walker.log;
    WalkTells(w, entries, log, Size(a), a, b);
    SharedMap(w, log, a, b);
    if forall i :: 0 <= i < |a.pairs| ==> PairApart(a.pairs[i]) { ValuesApart(w, log, a, b); }
  }

  lemma {:induction false} EqualFirst(a: Val, b: Val)
    requires NewEqualMaps(map[], a, b)
    ensures a.Map? && b.Map? && a.ty == b.ty && a.addr != b.addr && DeepEqual(a, b)
    ensures |a.pairs| == |b.pairs| && AllFound(a.pairs, b.pairs)
  {
    hide AllFound;
  }

  lemma {:induction false} SharedMap(w: World, l: Log, a: Val, b: Val)
    requires a.Map? && b.Map? && a.addr != b.addr && SharedOut(l, a, b, false, MESSAGE_BUDGET) && w.form(a.ty).MapForm?
    ensures TieMet(w, l, a, b, false)
        <==> AnyAlike(w, w.form(a.ty).shape.vals, a.pairs, FirstShare(a)) || TieInEntries(w, l, a.pairs, b.pairs, false)
  {
    var share := FirstShare(a);
    MapQuiet(w, l, a, b, false);
    MixedIs(w, a.ty, a.pairs, share);
    hide TieMet, Quiet, TieInEntries, QuietEntries, Mixed, AnyAlike, Allowance, Ties;
  }

  lemma {:induction false} ValuesApart(w: World, l: Log, a: Val, b: Val)
    requires a.Map? && b.Map? && AllFound(a.pairs, b.pairs)
    requires forall i :: 0 <= i < |a.pairs| ==> PairApart(a.pairs[i])
    ensures !TieInEntries(w, l, a.pairs, b.pairs, false)
  {
    hide PairApart, Found, TieInPair;
    forall i | 0 <= i < |a.pairs| ensures !TieInPair(w, l, a.pairs[i], b.pairs, false) {
      assert Found(a.pairs[i], b.pairs);
      ApartNoTieInPair(w, l, a.pairs[i], b.pairs, false);
    }
  }
}
