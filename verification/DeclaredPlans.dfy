/** The plan of a tree has just what the calls declared. */
module DeclaredPlans {
  import opened Options
  import opened Declarations
  import opened Plans
  import opened Suites
  import opened DeclaredSuites
  import Sequences

  // ---- One call at a time ----

  lemma {:induction false} HooksAre(s: Script)
    ensures HooksOf(s)
            == Hooks(HooksIn(s, EachBefore), HooksIn(s, EachAfter), HooksIn(s, AllBefore), HooksIn(s, AllAfter))
  {
    if s.Then? {
      HooksAre(s.rest);
      Sequences.NothingAdded(HooksIn(s.rest, EachBefore));
      Sequences.NothingAdded(HooksIn(s.rest, EachAfter));
      Sequences.NothingAdded(HooksIn(s.rest, AllBefore));
      Sequences.NothingAdded(HooksIn(s.rest, AllAfter));
    }
  }

  lemma {:induction false} ScopesAre(s: Script)
    ensures Scopes(s) == Groups(ForestOf(s))
  {
    match s {
      case Done =>
      case Then(Describe(_, Some(inner)), rest) =>
        ScopesAre(inner);
        ScopesAre(rest);
      case Then(c, rest) => ScopesAre(rest);
    }
  }

  /** What Describe adds: the scope's own declarations, and then its group. */
  function Described(name: string, inner: Script, c: Context, id: nat, focus: bool, b: Build): Build {
    var c', h := Enter(c, name, id, HooksOf(inner)), HooksOf(inner);
    CloseScope(Add(ForestOf(inner), c', id + 1, focus, CloseRun(b)), c', name, h, |b.plan.specs|)
  }

  lemma {:induction false} AddCall(s: Script, c: Context, id: nat, focus: bool, b: Build)
    ensures s.Done? ==> Add(ForestOf(s), c, id, focus, b) == b
    ensures s.Then? && s.call.It? && (s.call.kind != Focus || s.call.body.Some?) ==>
              Add(ForestOf(s), c, id, focus, b) == Add(ForestOf(s.rest), c, id, focus,
                AddLeaf(b, c, s.call.kind, s.call.name, s.call.body, focus))
    ensures s.Then? && s.call.Describe? && s.call.callback.Some? ==>
              var inner := s.call.callback.value;
              Add(ForestOf(s), c, id, focus, b)
              == Add(ForestOf(s.rest), c, id + 1 + Scopes(inner), focus, Described(s.call.name, inner, c, id, focus, b))
    ensures s.Then? && !Registers(s.call) ==>
              Add(ForestOf(s), c, id, focus, b) == Add(ForestOf(s.rest), c, id, focus, b)
  {
    if s.Then? && s.call.Describe? && s.call.callback.Some? { ScopesAre(s.call.callback.value); }
    assert |CloseRun(b).plan.specs| == |b.plan.specs|;
    hide AddLeaf, HooksOf, CloseScope, Scopes, Groups;
  }

  lemma {:induction false} WhereBoth(a: seq<Spot>, b: seq<Spot>, f: Spot -> bool)
    ensures Where(a + b, f) == Where(a, f) + Where(b, f)
  {
    if a == [] {
      assert [] + b == b;
    } else {
      assert (a + b)[1..] == a[1..] + b && (a + b)[0] == a[0];
      WhereBoth(a[1..], b, f);
      Sequences.Grouped(if f(a[0]) then [a[0]] else [], Where(a[1..], f), Where(b, f));
    }
  }

  lemma {:induction false} WhereOne(d: Spot, f: Spot -> bool)
    ensures Where([d], f) == if f(d) then [d] else []
  {
    assert [d][1..] == [];
  }

  // ---- Specs and marks ----

  function ContextFor(around: seq<Around>): Context {
    if around == [] then TOP
    else
      var a := around[|around| - 1];
      Enter(ContextFor(around[..|around| - 1]), a.name, a.id, HooksOf(a.body))
  }

  function SpecFor(d: Spot): Spec {
    SpecOf(ContextFor(d.around), d.kind, d.name, d.body)
  }

  function SpecsFor(spots: seq<Spot>): (r: seq<Spec>)
    ensures |r| == |spots|
  {
    seq(|spots|, i requires 0 <= i < |spots| => SpecFor(spots[i]))
  }

  lemma {:induction false} Both(a: seq<Spot>, b: seq<Spot>)
    ensures SpecsFor(a + b) == SpecsFor(a) + SpecsFor(b) && MarksFor(a + b) == MarksFor(a) + MarksFor(b)
  {
  }

  lemma {:induction false} EnteredFor(around: seq<Around>, name: string, id: nat, inner: Script)
    ensures ContextFor(around + [Around(name, id, inner)]) == Enter(ContextFor(around), name, id, HooksOf(inner))
  {
    assert (around + [Around(name, id, inner)])[..|around|] == around;
  }

  /** q has the specs and marks of p and those declared at the spots. */
  ghost predicate Grows(p: Plan, q: Plan, spots: seq<Spot>, focus: bool) {
    && q.specs == p.specs + SpecsFor(Where(spots, Runs(focus)))
    && q.skipped == p.skipped + MarksFor(Where(spots, IsKind(Skip, focus)))
    && q.pending == p.pending + MarksFor(Where(spots, IsKind(Pending, focus)))
    && q.excluded == p.excluded + MarksFor(Where(spots, LosesFocus(focus)))
  }

  lemma {:induction false} GrowsBy(p: Plan, focus: bool)
    ensures Grows(p, p, [], focus)
  {
    assert p.specs + [] == p.specs && p.skipped + [] == p.skipped && p.pending + [] == p.pending;
    assert p.excluded + [] == p.excluded;
  }

  lemma {:induction false} GrowsOn(p: Plan, q: Plan, r: Plan, a: seq<Spot>, b: seq<Spot>, focus: bool)
    requires Grows(p, q, a, focus) && Grows(q, r, b, focus)
    ensures Grows(p, r, a + b, focus)
  {
    GrowsPart(a, b, Runs(focus));
    GrowsPart(a, b, IsKind(Skip, focus));
    GrowsPart(a, b, IsKind(Pending, focus));
    GrowsPart(a, b, LosesFocus(focus));
    hide Where, SpecsFor, MarksFor, Runs, IsKind, LosesFocus;
  }

  lemma {:induction false} GrowsPart(a: seq<Spot>, b: seq<Spot>, f: Spot -> bool)
    ensures SpecsFor(Where(a + b, f)) == SpecsFor(Where(a, f)) + SpecsFor(Where(b, f))
    ensures MarksFor(Where(a + b, f)) == MarksFor(Where(a, f)) + MarksFor(Where(b, f))
  {
    WhereBoth(a, b, f);
    Both(Where(a, f), Where(b, f));
    hide Where, SpecsFor, MarksFor;
  }

  /** What one leaf adds. */
  lemma {:induction false} LeafAdds(b: Build, c: Context, d: Spot, focus: bool)
    requires c == ContextFor(d.around)
    ensures var p, q := b.plan, AddLeaf(b, c, d.kind, d.name, d.body, focus).plan;
            && q.specs == p.specs + (if Runs(focus)(d) then [SpecFor(d)] else [])
            && q.skipped == p.skipped + (if IsKind(Skip, focus)(d) then [Mark(d.name, c.ids)] else [])
            && q.pending == p.pending + (if IsKind(Pending, focus)(d) then [Mark(d.name, c.ids)] else [])
            && q.excluded == p.excluded + (if LosesFocus(focus)(d) then [Mark(d.name, c.ids)] else [])
  {
    hide ContextFor, Joined, Program;
  }

  lemma {:induction false} OneFor(d: Spot, f: Spot -> bool)
    ensures SpecsFor(Where([d], f)) == if f(d) then [SpecFor(d)] else []
    ensures MarksFor(Where([d], f)) == if f(d) then [Mark(d.name, ContextFor(d.around).ids)] else []
  {
    WhereOne(d, f);
    IdsFor(d.around);
    hide Where, ContextFor, Ids, SpecFor;
  }

  lemma {:induction false} LeafGrows(b: Build, d: Spot, focus: bool)
    ensures Grows(b.plan, AddLeaf(b, ContextFor(d.around), d.kind, d.name, d.body, focus).plan, [d], focus)
  {
    LeafAdds(b, ContextFor(d.around), d, focus);
    OneFor(d, Runs(focus));
    OneFor(d, IsKind(Skip, focus));
    OneFor(d, IsKind(Pending, focus));
    OneFor(d, LosesFocus(focus));
    hide Where, ContextFor, SpecsFor, MarksFor, AddLeaf, Runs, IsKind, LosesFocus, SpecFor;
  }

  lemma {:induction false} IdsFor(around: seq<Around>)
    ensures ContextFor(around).ids == Ids(around) && ContextFor(around).names == Names(around)
  {
    if around != [] { IdsFor(around[..|around| - 1]); }
  }

  lemma {:induction false} RunClosedGrows(b: Build, focus: bool)
    ensures Grows(b.plan, CloseRun(b).plan, [], focus)
  {
    GrowsBy(b.plan, focus);
  }

  lemma {:induction false} CloseGrows(b: Build, c: Context, name: string, h: Hooks, start: nat, focus: bool)
    ensures Grows(b.plan, CloseScope(b, c, name, h, start).plan, [], focus)
  {
    GrowsBy(b.plan, focus);
  }

  /** Declarations add the specs and marks at their spots. */
  lemma {:induction false} SpotsAdded(s: Script, around: seq<Around>, id: nat, turn: nat, focus: bool, b: Build)
    ensures Grows(b.plan, Add(ForestOf(s), ContextFor(around), id, focus, b).plan, Spots(s, around, id, turn), focus)
    decreases s, 0
  {
    var c := ContextFor(around);
    AddCall(s, c, id, focus, b);
    hide Add, Grows, ContextFor, ForestOf, CloseScope, HooksOf;
    match s {
      case Done => GrowsBy(b.plan, focus);
      case Then(It(kind, name, body), rest) =>
        if kind == Focus && body.None? {
          SpotsAdded(rest, around, id, turn, focus, b);
        } else {
          var d := Spot(kind, name, body, around, turn);
          var b' := AddLeaf(b, c, kind, name, body, focus);
          LeafGrows(b, d, focus);
          SpotsAdded(rest, around, id, turn + 1, focus, b');
          GrowsOn(b.plan, b'.plan, Add(ForestOf(rest), c, id, focus, b').plan, [d], Spots(rest, around, id, turn + 1),
            focus);
        }
      case Then(Describe(name, Some(inner)), rest) =>
        var chain := around + [Around(name, id, inner)];
        var b' := Described(name, inner, c, id, focus, b);
        DescribedGrows(name, inner, around, id, focus, b);
        SpotsAdded(rest, around, id + 1 + Scopes(inner), turn + 1, focus, b');
        GrowsOn(b.plan, b'.plan, Add(ForestOf(rest), c, id + 1 + Scopes(inner), focus, b').plan,
          Spots(inner, chain, id + 1, 0), Spots(rest, around, id + 1 + Scopes(inner), turn + 1), focus);
      case Then(call, rest) => SpotsAdded(rest, around, id, turn, focus, b);
    }
  }

  lemma {:induction false} DescribedGrows(name: string, inner: Script, around: seq<Around>, id: nat, focus: bool,
      b: Build)
    ensures Grows(b.plan, Described(name, inner, ContextFor(around), id, focus, b).plan,
                  Spots(inner, around + [Around(name, id, inner)], id + 1, 0), focus)
    decreases inner, 1
  {
    var chain := around + [Around(name, id, inner)];
    var c', h := ContextFor(chain), HooksOf(inner);
    EnteredFor(around, name, id, inner);
    var b0 := CloseRun(b);
    var b1 := Add(ForestOf(inner), c', id + 1, focus, b0);
    var spots := Spots(inner, chain, id + 1, 0);
    assert Described(name, inner, ContextFor(around), id, focus, b) == CloseScope(b1, c', name, h, |b.plan.specs|);
    hide *;
    RunClosedGrows(b, focus);
    SpotsAdded(inner, chain, id + 1, 0, focus, b0);
    CloseGrows(b1, c', name, h, |b.plan.specs|, focus);
    GrowsOn(b.plan, b0.plan, b1.plan, [], spots, focus);
    GrowsOn(b.plan, b1.plan, CloseScope(b1, c', name, h, |b.plan.specs|).plan, [] + spots, [], focus);
    Sequences.NothingAdded(spots);
    Sequences.NothingAdded([] + spots);
  }

  // ---- A spec shows its scopes ----

  function SlashAfter(name: string): string {
    if name == "" then "" else name + "/"
  }

  lemma {:induction false} JoinedLast(names: seq<string>, last: string, leaf: string)
    ensures Joined(names + [last], leaf) == Joined(names, SlashAfter(last) + leaf)
  {
    if names == [] {
      assert names + [last] == [last] && [last][1..] == [];
      assert Joined([last], leaf) == (if last == "" then "" else last + "/") + Joined([], leaf);
    } else {
      assert (names + [last])[1..] == names[1..] + [last] && (names + [last])[0] == names[0];
      JoinedLast(names[1..], last, leaf);
    }
  }

  /** One scope more takes its name and "/" off the front of the rest. */
  lemma {:induction false} BreadcrumbLast(full: string, front: seq<string>, last: string, leaf: string)
    requires Breadcrumb(full, front, SlashAfter(last) + leaf)
    ensures Breadcrumb(full, front + [last], leaf)
  {
    var names, n, w, y := front + [last], |front|, Width(front), SlashAfter(last);
    assert names[..n] == front;
    assert Width(names) == w + |y| && |full| == w + |y| + |leaf|;
    hide Width;
    SlicedTwice(full, w, y, leaf);
    forall i | 0 <= i < |names| && names[i] != "" ensures AtPlace(full, Width(names[..i]), names[i] + "/") {
      if i < n { assert names[..i] == front[..i] && names[i] == front[i]; }
    }
  }

  lemma {:induction false} SlicedTwice(full: string, w: nat, y: string, leaf: string)
    requires |full| == w + |y| + |leaf| && AtPlace(full, w, y + leaf)
    ensures AtPlace(full, w, y) && AtPlace(full, w + |y|, leaf)
  {
    assert full[w..w + |y + leaf|] == y + leaf;
    assert full[w..w + |y|] == (y + leaf)[..|y|] && full[w + |y|..w + |y| + |leaf|] == (y + leaf)[|y|..];
  }

  lemma {:induction false} JoinedSpells(names: seq<string>, leaf: string)
    ensures Breadcrumb(Joined(names, leaf), names, leaf)
    decreases |names|
  {
    if names != [] {
      var front, last := names[..|names| - 1], names[|names| - 1];
      assert names == front + [last];
      hide *;
      JoinedLast(front, last, leaf);
      JoinedSpells(front, SlashAfter(last) + leaf);
      BreadcrumbLast(Joined(names, leaf), front, last, leaf);
    }
  }

  lemma {:induction false} BeforesBoth(a: seq<Fn>, b: seq<Fn>)
    ensures Befores(a + b) == Befores(a) + Befores(b) && Afters(a + b) == Afters(b) + Afters(a)
  {
  }

  function EachOf(around: seq<Around>, k: Hook): seq<Fn> {
    if around == [] then [] else HooksIn(around[0].body, k) + EachOf(around[1..], k)
  }

  lemma {:induction false} EachLast(around: seq<Around>, a: Around, k: Hook)
    ensures EachOf(around + [a], k) == EachOf(around, k) + HooksIn(a.body, k)
  {
    if around == [] {
      assert around + [a] == [a] && [a][1..] == [];
      assert EachOf([a], k) == HooksIn(a.body, k) + EachOf([], k);
    } else {
      assert (around + [a])[1..] == around[1..] + [a] && (around + [a])[0] == around[0];
      EachLast(around[1..], a, k);
    }
  }

  lemma {:induction false} HooksFor(around: seq<Around>)
    ensures ContextFor(around).before == EachOf(around, EachBefore)
    ensures ContextFor(around).after == EachOf(around, EachAfter)
  {
    if around != [] {
      var n := |around| - 1;
      HooksFor(around[..n]);
      HooksAre(around[n].body);
      EachLast(around[..n], around[n], EachBefore);
      EachLast(around[..n], around[n], EachAfter);
      assert around == around[..n] + [around[n]];
    }
  }

  lemma {:induction false} NestsAround(all: seq<Instr>, inner: seq<Instr>, around: seq<Around>, body: Option<Fn>)
    requires around != [] && Nested(inner, around[1..], body)
    requires all == Befores(HooksIn(around[0].body, EachBefore)) + inner + Afters(HooksIn(around[0].body, EachAfter))
    ensures Nested(all, around, body)
  {
    var before, after := HooksIn(around[0].body, EachBefore), HooksIn(around[0].body, EachAfter);
    HooksInstrs(before);
    HooksInstrs(after);
    var b, a := Befores(before), Afters(after);
    hide HooksIn, Befores, Afters, InOrder, InReverse;
    assert all[..|before|] == b && all[|all| - |after|..] == a && all[|before|..|all| - |after|] == inner;
  }

  lemma {:induction false} HooksInstrs(fns: seq<Fn>)
    ensures Befores(fns) == InOrder(fns) && Afters(fns) == InReverse(fns)
  {
    if fns != [] {
      HooksInstrs(fns[1..]);
      assert fns == [fns[0]] + fns[1..];
      BeforesBoth([fns[0]], fns[1..]);
      assert Befores([fns[0]]) == [BeforeHook(fns[0])] && Afters([fns[0]]) == [AfterHook(fns[0])];
      hide Befores, Afters;
    }
  }

  lemma {:induction false} ProgramSplits(before: seq<Fn>, b: seq<Fn>, body: Option<Fn>, a: seq<Fn>, after: seq<Fn>)
    ensures Program(before + b, body, after + a) == Befores(before) + Program(b, body, a) + Afters(after)
  {
    BeforesBoth(before, b);
    BeforesBoth(after, a);
    hide Befores, Afters;
  }

  lemma {:induction false} ProgramNests(around: seq<Around>, body: Option<Fn>)
    ensures Nested(Program(EachOf(around, EachBefore), body, EachOf(around, EachAfter)), around, body)
    decreases |around|
  {
    if around == [] {
      assert Befores([]) == [] && Afters([]) == [];
    } else {
      var before, after := HooksIn(around[0].body, EachBefore), HooksIn(around[0].body, EachAfter);
      var b, a := EachOf(around[1..], EachBefore), EachOf(around[1..], EachAfter);
      assert EachOf(around, EachBefore) == before + b && EachOf(around, EachAfter) == after + a;
      hide *;
      ProgramNests(around[1..], body);
      ProgramSplits(before, b, body, a, after);
      NestsAround(Program(before + b, body, after + a), Program(b, body, a), around, body);
    }
  }

  lemma {:induction false} SpecShows(d: Spot)
    ensures SpecIs(SpecFor(d), d)
  {
    IdsFor(d.around);
    HooksFor(d.around);
    JoinedSpells(Names(d.around), d.name);
    ProgramNests(d.around, d.body);
    hide ContextFor, Joined, Program, Breadcrumb, Nested, EachOf, Names, Ids;
  }
}
