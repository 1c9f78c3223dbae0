/** Every plan a compiler makes divides into sections: its groups nest, and no
    run of parallel specs straddles a group. */
module PlanSections {
  import opened Options
  import opened Declarations
  import opened Permutations
  import opened Plans
  import opened Sections
  import opened GroupRuns
  import opened GroupTraces

  // ---- Sections of growing plans ----

  lemma {:induction false} SizeAppend(a: seq<Section>, b: seq<Section>)
    ensures SizeAll(a + b) == SizeAll(a) + SizeAll(b)
    ensures PreOrderAll(a + b) == PreOrderAll(a) + PreOrderAll(b)
  {
    if a == [] {
      assert a + b == b;
    } else {
      assert (a + b)[1..] == a[1..] + b;
      SizeAppend(a[1..], b);
    }
  }

  lemma {:induction false} RunsAppend(a: seq<Section>, b: seq<Section>, lo: nat)
    ensures RunsOfAll(a + b, lo) == RunsOfAll(a, lo) + RunsOfAll(b, lo + SizeAll(a))
  {
    if a == [] {
      assert a + b == b;
    } else {
      assert (a + b)[1..] == a[1..] + b;
      RunsAppend(a[1..], b, lo + Size(a[0]));
    }
  }

  lemma {:induction false} LaidAppend(a: seq<Section>, b: seq<Section>, lo: nat, groups: seq<Group>, depth: nat)
    requires LaidAll(a, lo, groups, depth) && LaidAll(b, lo + SizeAll(a), groups, depth)
    ensures LaidAll(a + b, lo, groups, depth)
  {
    if a == [] {
      assert a + b == b;
    } else {
      assert (a + b)[1..] == a[1..] + b;
      LaidAppend(a[1..], b, lo + Size(a[0]), groups, depth);
    }
  }

  /** More groups, or less depth to exceed, leave sections laid. */
  lemma {:induction false} LaidMore(s: Section, lo: nat, groups: seq<Group>, more: seq<Group>, depth: nat, less: nat)
    requires Laid(s, lo, groups, depth) && groups <= more && less <= depth
    ensures Laid(s, lo, more, less)
    decreases s, 0
  {
    if s.Nest? { LaidAllMore(s.body, lo, groups, more, |groups[s.g].path|, |groups[s.g].path|); }
  }

  lemma {:induction false} LaidAllMore(ss: seq<Section>, lo: nat, groups: seq<Group>, more: seq<Group>, depth: nat,
      less: nat)
    requires LaidAll(ss, lo, groups, depth) && groups <= more && less <= depth
    ensures LaidAll(ss, lo, more, less)
    decreases ss, 0
  {
    if ss != [] {
      LaidMore(ss[0], lo, groups, more, depth, less);
      LaidAllMore(ss[1..], lo + Size(ss[0]), groups, more, depth, less);
    }
  }

  /** ids are the numbers from..to-1, in some order. */
  ghost predicate Numbers(ids: seq<nat>, from: nat, to: nat) {
    && from <= to && |ids| == to - from
    && (forall i :: 0 <= i < |ids| ==> from <= ids[i] < to)
    && forall i, j :: 0 <= i < j < |ids| ==> ids[i] != ids[j]
  }

  lemma {:induction false} NumbersJoin(a: seq<nat>, b: seq<nat>, x: nat, y: nat, z: nat)
    requires Numbers(a, x, y) && Numbers(b, y, z)
    ensures Numbers(a + b, x, z)
  {
  }

  lemma {:induction false} NumbersNest(inner: seq<nat>, y: nat, z: nat)
    requires Numbers(inner, y, z)
    ensures Numbers([z] + inner, y, z + 1)
  {
  }

  /** The sections of a scope whose specs begin at lo, its groups at g0 and its
      runs at p0; an unfinished run is the last section. */
  ghost predicate Describes(b: Build, ss: seq<Section>, lo: nat, g0: nat, p0: nat, depth: nat) {
    var p := b.plan;
    && lo + SizeAll(ss) == |p.specs| && LaidAll(ss, lo, p.groups, depth)
    && Numbers(PreOrderAll(ss), g0, |p.groups|) && p0 <= |p.parallel|
    && if b.open == None then p.parallel[p0..] == RunsOfAll(ss, lo)
       else
         && ss != [] && ss[|ss| - 1].Batch? && b.open.value + ss[|ss| - 1].n == |p.specs|
         && p.parallel[p0..] == RunsOfAll(ss[..|ss| - 1], lo)
  }

  lemma {:induction false} DescribesEmpty(b: Build, depth: nat)
    requires b.open == None
    ensures Describes(b, [], |b.plan.specs|, |b.plan.groups|, |b.plan.parallel|, depth)
  {
  }

  lemma {:induction false} LastSection(ss: seq<Section>, lo: nat, groups: seq<Group>, depth: nat)
    requires ss != [] && LaidAll(ss, lo, groups, depth)
    ensures var n := |ss| - 1;
            && LaidAll(ss[..n], lo, groups, depth) && Laid(ss[n], lo + SizeAll(ss[..n]), groups, depth)
            && SizeAll(ss) == SizeAll(ss[..n]) + Size(ss[n])
            && PreOrderAll(ss) == PreOrderAll(ss[..n]) + PreOrder(ss[n])
            && RunsOfAll(ss, lo) == RunsOfAll(ss[..n], lo) + RunsOf(ss[n], lo + SizeAll(ss[..n]))
  {
    hide *;
    var n := |ss| - 1;
    LaidLast(ss, lo, groups, depth);
    LaidOneMore(ss[..n], ss[n], lo, groups, depth);
    assert ss == ss[..n] + [ss[n]];
  }

  lemma {:induction false} LaidLast(ss: seq<Section>, lo: nat, groups: seq<Group>, depth: nat)
    requires ss != [] && LaidAll(ss, lo, groups, depth)
    ensures LaidAll(ss[..|ss| - 1], lo, groups, depth)
    ensures Laid(ss[|ss| - 1], lo + SizeAll(ss[..|ss| - 1]), groups, depth)
  {
    if |ss| > 1 {
      LaidLast(ss[1..], lo + Size(ss[0]), groups, depth);
      assert ss[1..][..|ss| - 2] == ss[..|ss| - 1][1..];
    }
  }

  /** One section more at the end. */
  lemma {:induction false} LaidOneMore(ss: seq<Section>, s: Section, lo: nat, groups: seq<Group>, depth: nat)
    requires LaidAll(ss, lo, groups, depth) && Laid(s, lo + SizeAll(ss), groups, depth)
    ensures LaidAll(ss + [s], lo, groups, depth)
    ensures SizeAll(ss + [s]) == SizeAll(ss) + Size(s) && PreOrderAll(ss + [s]) == PreOrderAll(ss) + PreOrder(s)
    ensures RunsOfAll(ss + [s], lo) == RunsOfAll(ss, lo) + RunsOf(s, lo + SizeAll(ss))
  {
    assert [s][1..] == [] && PreOrder(s) + [] == PreOrder(s);
    LaidAppend(ss, [s], lo, groups, depth);
    SizeAppend(ss, [s]);
    RunsAppend(ss, [s], lo);
    assert RunsOf(s, lo + SizeAll(ss)) + [] == RunsOf(s, lo + SizeAll(ss));
  }

  lemma {:induction false} DescribesClosed(b: Build, ss: seq<Section>, lo: nat, g0: nat, p0: nat, depth: nat)
    requires Describes(b, ss, lo, g0, p0, depth)
    ensures Describes(CloseRun(b), ss, lo, g0, p0, depth) && CloseRun(b).open == None
    ensures CloseRun(b).plan.specs == b.plan.specs && CloseRun(b).plan.groups == b.plan.groups
  {
    if b.open.Some? {
      LastSection(ss, lo, b.plan.groups, depth);
      var r := Range(b.open.value, |b.plan.specs| - 1);
      assert (b.plan.parallel + [r])[p0..] == b.plan.parallel[p0..] + [r];
    }
  }

  /** A spec that is part of no run. */
  lemma {:induction false} DescribesSpec(b: Build, ss: seq<Section>, lo: nat, g0: nat, p0: nat, depth: nat, p: Plan)
    requires Describes(b, ss, lo, g0, p0, depth) && b.open == None
    requires |p.specs| == |b.plan.specs| + 1 && p.groups == b.plan.groups && p.parallel == b.plan.parallel
    ensures Describes(Build(p, None), ss + [OneSpec], lo, g0, p0, depth)
  {
    LaidOneMore(ss, OneSpec, lo, p.groups, depth);
    assert PreOrderAll(ss) + [] == PreOrderAll(ss) && RunsOfAll(ss, lo) + [] == RunsOfAll(ss, lo);
  }

  /** A spec that begins a run, or joins the one that is open. */
  lemma {:induction false} DescribesParallel(b: Build, ss: seq<Section>, lo: nat, g0: nat, p0: nat, depth: nat, p: Plan)
      returns (ss': seq<Section>)
    requires Describes(b, ss, lo, g0, p0, depth)
    requires |p.specs| == |b.plan.specs| + 1 && p.groups == b.plan.groups && p.parallel == b.plan.parallel
    ensures Describes(Build(p, if b.open == None then Some(|b.plan.specs|) else b.open), ss', lo, g0, p0, depth)
  {
    if b.open == None {
      ss' := ss + [Batch(1)];
      LaidOneMore(ss, Batch(1), lo, p.groups, depth);
      assert ss'[..|ss'| - 1] == ss && PreOrderAll(ss) + [] == PreOrderAll(ss);
    } else {
      var n := |ss| - 1;
      LastSection(ss, lo, p.groups, depth);
      var s := Batch(ss[n].n + 1);
      ss' := ss[..n] + [s];
      LaidOneMore(ss[..n], s, lo, p.groups, depth);
      assert ss'[..|ss'| - 1] == ss[..n];
    }
  }

  lemma {:induction false} DescribesMark(b: Build, ss: seq<Section>, lo: nat, g0: nat, p0: nat, depth: nat, p: Plan)
    requires Describes(b, ss, lo, g0, p0, depth)
    requires p.specs == b.plan.specs && p.groups == b.plan.groups && p.parallel == b.plan.parallel
    ensures Describes(Build(p, b.open), ss, lo, g0, p0, depth)
  {
  }

  lemma {:induction false} DescribesLeaf(b: Build, ss: seq<Section>, lo: nat, g0: nat, p0: nat, depth: nat, c: Context,
      kind: Kind,
      name: string, body: Option<Fn>, focus: bool) returns (ss': seq<Section>)
    requires Describes(b, ss, lo, g0, p0, depth)
    ensures Describes(AddLeaf(b, c, kind, name, body, focus), ss', lo, g0, p0, depth)
  {
    hide Describes;
    ss' := ss;
    if kind == Parallel {
      var p := AddSpec(b.plan, c, kind, name, body, focus);
      if focus {
        DescribesMark(b, ss, lo, g0, p0, depth, p);
      } else {
        ss' := DescribesParallel(b, ss, lo, g0, p0, depth, p);
      }
    } else {
      DescribesClosed(b, ss, lo, g0, p0, depth);
      var b0 := CloseRun(b);
      var p := AddSpec(b0.plan, c, kind, name, body, focus);
      if |p.specs| > |b0.plan.specs| {
        DescribesSpec(b0, ss, lo, g0, p0, depth, p);
        ss' := ss + [OneSpec];
      } else {
        DescribesMark(b0, ss, lo, g0, p0, depth, p);
      }
    }
  }

  /** A nested scope's sections become part of the enclosing scope's: under a
      group of their own if it has hooks and specs, otherwise as they are. */
  lemma {:induction false} DescribesScope(b: Build, ss: seq<Section>, lo: nat, g0: nat, p0: nat, depth: nat, i: Build,
      inner: seq<Section>,
      c: Context, name: string, h: Hooks) returns (ss': seq<Section>)
    requires Describes(b, ss, lo, g0, p0, depth) && b.open == None && |c.names| == depth + 1
    requires Describes(i, inner, |b.plan.specs|, |b.plan.groups|, |b.plan.parallel|, depth + 1)
    requires b.plan.groups <= i.plan.groups && b.plan.parallel <= i.plan.parallel
    ensures Describes(CloseScope(i, c, name, h, |b.plan.specs|), ss', lo, g0, p0, depth)
  {
    DescribesClosed(i, inner, |b.plan.specs|, |b.plan.groups|, |b.plan.parallel|, depth + 1);
    var p, q := CloseRun(i).plan, CloseScope(i, c, name, h, |b.plan.specs|).plan;
    var start, z := |b.plan.specs|, |p.groups|;
    assert b.plan.parallel <= p.parallel;
    LaidAllMore(ss, lo, b.plan.groups, q.groups, depth, depth);
    var add: seq<Section>;
    if q.groups == p.groups {
      add := inner;
      LaidAllMore(inner, start, p.groups, q.groups, depth + 1, depth);
    } else {
      add := [Nest(z, inner)];
      LaidAllMore(inner, start, p.groups, q.groups, depth + 1, depth + 1);
      assert q.groups[z].first == start && q.groups[z].last == |p.specs| - 1 && |q.groups[z].path| == depth + 1;
      NumbersNest(PreOrderAll(inner), |b.plan.groups|, z);
      assert add[1..] == [];
      assert PreOrder(add[0]) + [] == PreOrder(add[0]) && RunsOfAll(inner, start) + [] == RunsOfAll(inner, start);
    }
    ss' := ss + add;
    LaidAppend(ss, add, lo, q.groups, depth);
    SizeAppend(ss, add);
    RunsAppend(ss, add, lo);
    NumbersJoin(PreOrderAll(ss), PreOrderAll(add), g0, |b.plan.groups|, |q.groups|);
    RunsSplit(b.plan.parallel, p.parallel, p0);
  }

  lemma {:induction false} RunsSplit(a: seq<Range>, b: seq<Range>, p0: nat)
    requires p0 <= |a| && a <= b
    ensures b[p0..] == a[p0..] + b[|a|..]
  {
  }

  // ---- Whole plans ----

  lemma {:induction false} StepGrows(b: Build, c: Context, kind: Kind, name: string, body: Option<Fn>, h: Hooks,
      start: nat, focus: bool)
    ensures b.plan.groups <= AddLeaf(b, c, kind, name, body, focus).plan.groups
    ensures b.plan.parallel <= AddLeaf(b, c, kind, name, body, focus).plan.parallel
    ensures b.plan.groups <= CloseScope(b, c, name, h, start).plan.groups
    ensures b.plan.parallel <= CloseScope(b, c, name, h, start).plan.parallel
    ensures b.plan.groups <= CloseRun(b).plan.groups && b.plan.parallel <= CloseRun(b).plan.parallel
  {
  }

  /** Building adds specs, groups and runs, and never takes any back. */
  lemma {:induction false} PlanGrows(f: Forest, c: Context, id: nat, focus: bool, b: Build)
    ensures var q := Add(f, c, id, focus, b).plan; b.plan.groups <= q.groups && b.plan.parallel <= q.parallel
    decreases f
  {
    hide AddLeaf, CloseScope, CloseRun;
    match f
    case Empty =>
    case Grow(Leaf(kind, name, body), rest) =>
      StepGrows(b, c, kind, name, body, Hooks([], [], [], []), 0, focus);
      PlanGrows(rest, c, id, focus, AddLeaf(b, c, kind, name, body, focus));
    case Grow(Scope(name, h, kids), rest) =>
      var inner := Enter(c, name, id, h);
      StepGrows(b, c, Normal, name, None, h, 0, focus);
      StepGrows(Add(kids, inner, id + 1, focus, CloseRun(b)), inner, Normal, name, None, h, |CloseRun(b).plan.specs|,
        focus);
      PlanGrows(kids, Enter(c, name, id, h), id + 1, focus, CloseRun(b));
      PlanGrows(rest, c, id + 1 + Groups(kids), focus, AddScope(name, h, kids, c, id, focus, CloseRun(b)));
  }

  lemma {:induction false} AddDescribes(f: Forest, c: Context, id: nat, focus: bool, b: Build, ss: seq<Section>,
      lo: nat,
      g0: nat, p0: nat) returns (ss': seq<Section>)
    requires Describes(b, ss, lo, g0, p0, |c.names|)
    ensures Describes(Add(f, c, id, focus, b), ss', lo, g0, p0, |c.names|)
    decreases f, 0
  {
    hide Describes, AddLeaf, AddScope, CloseRun;
    match f
    case Empty => ss' := ss;
    case Grow(Leaf(kind, name, body), rest) =>
      ss' := DescribesLeaf(b, ss, lo, g0, p0, |c.names|, c, kind, name, body, focus);
      ss' := AddDescribes(rest, c, id, focus, AddLeaf(b, c, kind, name, body, focus), ss', lo, g0, p0);
    case Grow(Scope(name, h, kids), rest) =>
      DescribesClosed(b, ss, lo, g0, p0, |c.names|);
      ss' := ScopeDescribes(name, h, kids, c, id, focus, CloseRun(b), ss, lo, g0, p0);
      ss' := AddDescribes(rest, c, id + 1 + Groups(kids), focus, AddScope(name, h, kids, c, id, focus, CloseRun(b)),
        ss', lo, g0, p0);
  }

  lemma {:induction false} ScopeDescribes(name: string, h: Hooks, kids: Forest, c: Context, id: nat, focus: bool,
      b: Build,
      ss: seq<Section>, lo: nat, g0: nat, p0: nat) returns (ss': seq<Section>)
    requires Describes(b, ss, lo, g0, p0, |c.names|) && b.open == None
    ensures Describes(AddScope(name, h, kids, c, id, focus, b), ss', lo, g0, p0, |c.names|)
    decreases kids, 1
  {
    var inner := Enter(c, name, id, h);
    hide Describes, Add, CloseScope;
    DescribesEmpty(b, |inner.names|);
    PlanGrows(kids, inner, id + 1, focus, b);
    var i := AddDescribes(kids, inner, id + 1, focus, b, [], |b.plan.specs|, |b.plan.groups|, |b.plan.parallel|);
    ss' := DescribesScope(b, ss, lo, g0, p0, |c.names|, Add(kids, inner, id + 1, focus, b), i, inner, name, h);
  }

  /** The plan of every suite, focused or not, divides into sections. */
  lemma {:induction false} PlanArranged(name: string, h: Hooks, kids: Forest, focus: bool) returns (ss: seq<Section>)
    ensures var p := PlanOf(name, h, kids, focus); Arranged(ss, p.groups, p.parallel, |p.specs|)
  {
    var start := Build(NOTHING, None);
    DescribesEmpty(start, 0);
    ss := ScopeDescribes(name, h, kids, TOP, 0, focus, start, [], 0, 0, 0);
    var b := AddScope(name, h, kids, TOP, 0, focus, start);
    assert b.open == None;
    assert b.plan.parallel[0..] == b.plan.parallel;
    hide AddScope;
  }

  /** Running a compiled suite's plan, whatever its hooks and specs do, is
      running its sections directly, and its trace is faithful. */
  method RunSuite(name: string, h: Hooks, kids: Forest, focus: bool, fails: Outcomes, failFast: bool,
      included: nat -> bool)
      returns (trace: seq<Event>, ghost ss: seq<Section>)
    ensures var p := PlanOf(name, h, kids, focus);
            var w := World(p.groups, fails, failFast, included);
            && Arranged(ss, p.groups, p.parallel, |p.specs|) && GroupsOfAll(ss, |p.groups|)
            && trace == RunAll(w, ss, 0, Run([], false)).trace && Faithful(w, trace)
  {
    ss := PlanArranged(name, h, kids, focus);
    var p := PlanOf(name, h, kids, focus);
    hide PlanOf, Arranged, Faithful;
    TraceIsFaithful(World(p.groups, fails, failFast, included), ss, p.parallel, |p.specs|);
    trace := RunPlanWithGroups(World(p.groups, fails, failFast, included), p.parallel, |p.specs|, ss);
  }
}
