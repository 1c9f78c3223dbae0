/** What a built program has to show of the calls its Builder got. */
module BuilderShows {
  import opened Options
  import opened Declarations
  import opened Plans
  import opened Suites
  import opened BuilderItems
  import BuilderGroups
  import opened BuilderPlans
  import opened DeclaredSuites
  import opened DeclaredPlans

  /** What a run of a spec calls: the hooks of each scope around those of the
      scopes inside it, the after hooks in reverse, and the body in the middle. */
  ghost predicate NestedCalls(calls: seq<Fn>, around: seq<Around>, body: Option<Fn>)
    decreases |around|
  {
    if around == [] then calls == if body.Some? then [body.value] else []
    else
      var before, after := HooksIn(around[0].body, EachBefore), HooksIn(around[0].body, EachAfter);
      && |before| + |after| <= |calls|
      && calls[..|before|] == before && calls[|calls| - |after|..] == Backwards(after)
      && NestedCalls(calls[|before|..|calls| - |after|], around[1..], body)
  }

  function Backwards(fns: seq<Fn>): (r: seq<Fn>)
    ensures |r| == |fns|
  {
    if fns == [] then [] else Backwards(fns[1..]) + [fns[0]]
  }

  /** A run shows the spec declared there; only a parallel one has no full name. */
  ghost predicate RunShows(r: BuilderGroups.Run, d: Spot, labels: seq<string>) {
    && r.name == d.name && (r.fullName.None? <==> d.kind == Parallel)
    && (r.fullName.Some? ==> FullNameIs(r.fullName.value, d, false))
    && r.path == Route(d.around, labels) && NestedCalls(r.calls, d.around, d.body)
  }

  ghost predicate ProgramIs(program: BuilderGroups.Program, spots: seq<Spot>, focus: bool, labels: seq<string>) {
    var running := Where(spots, Runs(focus));
    && BuilderGroups.AllProper(program.units) && |BuilderGroups.AllRuns(program.units)| == |running|
    && (forall i :: 0 <= i < |running| ==> RunShows(BuilderGroups.AllRuns(program.units)[i], running[i], labels))
    && BuilderGroups.AllSkipped(program.units) == ShownMarks(Where(spots, IsKind(Skip, focus)), labels)
    && BuilderGroups.AllPending(program.units) == ShownMarks(Where(spots, IsKind(Pending, focus)), labels)
    && multiset(program.excluded) == multiset(ShownMarks(Where(spots, LosesFocus(focus)), labels))
    && program.excludedCount == |program.excluded|
    && |program.focusedNames| == (if focus then |running| else 0)
    && forall i :: 0 <= i < |program.focusedNames| ==> FullNameIs(program.focusedNames[i], running[i], false)
  }

  // ---- Calls and programs ----

  lemma {:induction false} FnsOf(fns: seq<Fn>)
    ensures Fns(InOrder(fns)) == fns && Fns(InReverse(fns)) == Backwards(fns)
  {
    if fns != [] {
      FnsOf(fns[1..]);
      assert fns == [fns[0]] + fns[1..];
      FnsBoth([BeforeHook(fns[0])], InOrder(fns[1..]));
      FnsBoth(InReverse(fns[1..]), [AfterHook(fns[0])]);
    }
  }

  lemma {:induction false} FnsBoth(a: seq<Instr>, b: seq<Instr>)
    ensures Fns(a + b) == Fns(a) + Fns(b)
  {
  }

  lemma {:induction false} FnsSlice(p: seq<Instr>, lo: nat, hi: nat)
    requires lo <= hi <= |p|
    ensures Fns(p[lo..hi]) == Fns(p)[lo..hi]
  {
  }

  lemma {:induction false} NestedRuns(program: seq<Instr>, around: seq<Around>, body: Option<Fn>)
    requires Nested(program, around, body)
    ensures NestedCalls(Fns(program), around, body)
    decreases |around|
  {
    if around != [] {
      var before, after := HooksIn(around[0].body, EachBefore), HooksIn(around[0].body, EachAfter);
      var n := |program|;
      assert |before| + |after| <= n && program[..|before|] == InOrder(before);
      assert program[n - |after|..] == InReverse(after);
      NestedRuns(program[|before|..n - |after|], around[1..], body);
      hide HooksIn, Nested;
      SlicedFns(program, before, after);
      hide Fns, InOrder, InReverse, Backwards;
    }
  }

  lemma {:induction false} SlicedFns(program: seq<Instr>, before: seq<Fn>, after: seq<Fn>)
    requires var n := |program|;
      && |before| + |after| <= n && program[..|before|] == InOrder(before)
      && program[n - |after|..] == InReverse(after)
    ensures var n, calls := |program|, Fns(program);
            && calls[..|before|] == before && calls[n - |after|..] == Backwards(after)
            && Fns(program[|before|..n - |after|]) == calls[|before|..n - |after|]
  {
    var n, calls := |program|, Fns(program);
    FnsOf(before);
    FnsOf(after);
    FnsSlice(program, 0, |before|);
    FnsSlice(program, n - |after|, n);
    FnsSlice(program, |before|, n - |after|);
    hide Fns, InOrder, InReverse, Backwards;
    assert program[..|before|] == program[0..|before|] && program[n - |after|..] == program[n - |after|..n];
    assert calls[..|before|] == calls[0..|before|] && calls[n - |after|..] == calls[n - |after|..n];
  }

  // ---- Which runs have a full name ----

  ghost predicate SameKinds(items: seq<Item>, spots: seq<Spot>) {
    |items| == |spots| && forall i :: 0 <= i < |items| ==> items[i].kind == spots[i].kind
  }

  lemma {:induction false} KindsMore(a: seq<Item>, x: seq<Spot>, b: seq<Item>, y: seq<Spot>)
    requires SameKinds(a, x) && SameKinds(b, y)
    ensures SameKinds(a + b, x + y)
  {
  }

  /** A Builder keeps every spec it got, in order. */
  lemma {:induction false} KindsCollected(d: Decl, s: Script, around: seq<Around>, id: nat, turn: nat, spots: seq<Spot>)
    requires Shaped(d) && SameKinds(d.pending, spots)
    ensures Declare(d, s).Declared? ==> SameKinds(Declare(d, s).d.pending, spots + Spots(s, around, id, turn))
    decreases s
  {
    hide SameKinds;
    match s {
      case Done => assert spots + [] == spots;
      case Then(It(kind, name, body), rest) =>
        if kind == Focus && body.None? {
          KindsCollected(d, rest, around, id, turn, spots);
        } else {
          var x, more := Spot(kind, name, body, around, turn), Spots(rest, around, id, turn + 1);
          PutKind(d, x, spots);
          KindsCollected(Put(d, kind, name, body), rest, around, id, turn + 1, spots + [x]);
          assert spots + [x] + more == spots + ([x] + more);
        }
      case Then(Describe(_, None), rest) => KindsCollected(d, rest, around, id, turn, spots);
      case Then(Describe(name, Some(inner)), rest) =>
        var chain, id' := around + [Around(name, id, inner)], id + 1 + DeclaredSuites.Scopes(inner);
        var x, y := Spots(inner, chain, id + 1, 0), Spots(rest, around, id', turn + 1);
        KindsCollected(Begin(d, name), inner, chain, id + 1, 0, spots);
        if Declare(Begin(d, name), inner).Declared? {
          KindsCollected(BuilderItems.Finish(Declare(Begin(d, name), inner).d), rest, around, id', turn + 1, spots + x);
          assert spots + x + y == spots + (x + y);
        }
      case Then(c, rest) =>
        if AddHook(d, c).Declared? {
          HookKeeps(d, c);
          KindsCollected(AddHook(d, c).d, rest, around, id, turn, spots);
        }
    }
  }

  lemma {:induction false} HookKeeps(d: Decl, c: Call)
    requires d.open != []
    ensures AddHook(d, c).d.pending == d.pending
  {
  }

  lemma {:induction false} PutKind(d: Decl, x: Spot, spots: seq<Spot>)
    requires d.open != [] && SameKinds(d.pending, spots)
    ensures SameKinds(Put(d, x.kind, x.name, x.body).pending, spots + [x])
  {
    hide StepsOf, Joined, BuilderItems.AllBefore, BuilderItems.AllAfter;
  }

  lemma {:induction false} KindsLast(items: seq<Item>, spots: seq<Spot>)
    requires SameKinds(items, spots) && items != []
    ensures SameKinds(items[..|items| - 1], spots[..|spots| - 1])
    ensures items[|items| - 1].kind == spots[|spots| - 1].kind
    ensures forall f :: Where(spots, f) == Where(spots[..|spots| - 1], f) +
              if f(spots[|spots| - 1]) then [spots[|spots| - 1]] else []
  {
    var n := |spots| - 1;
    assert spots == spots[..n] + [spots[n]];
    forall f ensures Where(spots, f) == Where(spots[..n], f) + if f(spots[n]) then [spots[n]] else [] {
      WhereBoth(spots[..n], [spots[n]], f);
      WhereOne(spots[n], f);
    }
    hide Where;
  }

  /** Those that run have the kinds of those declared. */
  lemma {:induction false} RealKinds(items: seq<Item>, spots: seq<Spot>)
    requires SameKinds(items, spots)
    ensures SameKinds(Reals(items), Where(spots, Runs(false)))
    ensures SameKinds(BuilderGroups.FocusOnly(items), Where(spots, Runs(true)))
  {
    if items != [] {
      KindsLast(items, spots);
      RealKinds(items[..|items| - 1], spots[..|spots| - 1]);
      hide Where;
    }
  }

  lemma {:induction false} FocusReals(items: seq<Item>)
    requires forall i :: 0 <= i < |items| ==> items[i].kind == Focus
    ensures Reals(items) == items
  {
    if items != [] {
      FocusReals(items[..|items| - 1]);
      assert items == items[..|items| - 1] + [items[|items| - 1]];
    }
  }

  /** Item i of those that run is the i-th run; only sequential ones have a full
      name. */
  lemma {:induction false} RunsOfItems(items: seq<Item>, spots: seq<Spot>)
    requires SameKinds(Reals(items), spots)
    ensures |BuilderGroups.RunsOf(items)| == |spots|
    ensures forall i :: 0 <= i < |spots| ==>
              (BuilderGroups.RunsOf(items)[i].fullName.None? <==> spots[i].kind == Parallel)
    decreases |items|
  {
    if items != [] {
      var n := |items| - 1;
      if Real(items[n]) {
        assert Reals(items)[..|Reals(items)| - 1] == Reals(items[..n]);
        RunsOfItems(items[..n], spots[..|spots| - 1]);
      } else {
        assert Reals(items) == Reals(items[..n]);
        RunsOfItems(items[..n], spots);
        assert BuilderGroups.RunsOf(items) == BuilderGroups.RunsOf(items[..n]);
      }
      hide BuilderGroups.Calls, BuilderGroups.StepCalls;
    }
  }
}
