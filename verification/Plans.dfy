/** What a declaration tree compiles to: the specs in order with their programs,
    the groups that have once-per-group hooks, the parallel runs and the marks. */
module Plans {
  import opened Options
  import opened Declarations

  datatype Instr = BeforeHook(fn: Fn) | Body(fn: Fn) | AfterHook(fn: Fn)

  function Befores(fns: seq<Fn>): seq<Instr> {
    seq(|fns|, i requires 0 <= i < |fns| => BeforeHook(fns[i]))
  }

  function Afters(fns: seq<Fn>): seq<Instr> {
    seq(|fns|, i requires 0 <= i < |fns| => AfterHook(fns[|fns| - 1 - i]))
  }

  /** The hooks before the body outermost first, those after it innermost
      first. */
  function Program(before: seq<Fn>, body: Option<Fn>, after: seq<Fn>): seq<Instr> {
    Befores(before) + (match body case None => [] case Some(f) => [Body(f)]) + Afters(after)
  }

  /** The breadcrumb: unnamed scopes add nothing. */
  function Joined(scopes: seq<string>, leaf: string): string {
    if scopes == [] then leaf
    else (if scopes[0] == "" then "" else scopes[0] + "/") + Joined(scopes[1..], leaf)
  }

  /** ids are the numbers of the enclosing scopes, in the order declared. */
  datatype Spec = Spec(name: string, fullName: string, program: seq<Instr>, ids: seq<nat>, focused: bool)

  datatype Mark = Mark(name: string, ids: seq<nat>)

  /** Scope hooks that run once, around the specs first..last. */
  datatype Group = Group(
    path: seq<string>, ids: seq<nat>, name: string, beforeAll: seq<Fn>, afterAll: seq<Fn>, first: nat, last: nat)

  datatype Range = Range(first: nat, last: nat)

  datatype Plan = Plan(
    specs: seq<Spec>, groups: seq<Group>, parallel: seq<Range>,
    skipped: seq<Mark>, pending: seq<Mark>, excluded: seq<Mark>)

  const NOTHING := Plan([], [], [], [], [], [])

  /** A plan under construction; open is where an unfinished run of parallel
      specs began. */
  datatype Build = Build(plan: Plan, open: Option<nat>)

  /** The enclosing scopes of a declaration, outermost first. */
  datatype Context = Context(names: seq<string>, ids: seq<nat>, before: seq<Fn>, after: seq<Fn>)

  const TOP := Context([], [], [], [])

  function Enter(c: Context, name: string, id: nat, h: Hooks): Context {
    Context(c.names + [name], c.ids + [id], c.before + h.before, c.after + h.after)
  }

  function CloseRun(b: Build): Build {
    match b.open
    case None => b
    case Some(s) =>
      if s < |b.plan.specs| then Build(b.plan.(parallel := b.plan.parallel + [Range(s, |b.plan.specs| - 1)]), None)
      else b.(open := None)
  }

  function SpecOf(c: Context, kind: Kind, name: string, body: Option<Fn>): Spec {
    Spec(name, Joined(c.names, name), Program(c.before, body, c.after), c.ids, kind == Focus)
  }

  /** The program of a spec whose enclosing hooks were gathered outermost first. */
  method BuildProgram(before: seq<Fn>, body: Option<Fn>, after: seq<Fn>) returns (program: seq<Instr>)
    ensures program == Program(before, body, after)
  {
    program := [];
    for i := 0 to |before|
      invariant program == Befores(before[..i])
    {
      program := program + [BeforeHook(before[i])];
    }
    assert before[..|before|] == before;
    if body.Some? { program := program + [Body(body.value)]; }
    ghost var upToBody := program;
    var i := |after|;
    while i > 0
      invariant 0 <= i <= |after| && program == upToBody + Afters(after)[..|after| - i]
    {
      i := i - 1;
      program := program + [AfterHook(after[i])];
    }
  }

  /** With a focus, only focused specs are kept; the others are excluded. */
  function AddSpec(p: Plan, c: Context, kind: Kind, name: string, body: Option<Fn>, focus: bool): Plan {
    if focus && kind != Focus then p.(excluded := p.excluded + [Mark(name, c.ids)])
    else if kind == Skip then p.(skipped := p.skipped + [Mark(name, c.ids)])
    else if kind == Pending then p.(pending := p.pending + [Mark(name, c.ids)])
    else p.(specs := p.specs + [SpecOf(c, kind, name, body)])
  }

  /** Neighbouring parallel specs form a run; any other spec ends it. */
  function AddLeaf(b: Build, c: Context, kind: Kind, name: string, body: Option<Fn>, focus: bool): Build {
    var b0 := if kind == Parallel then b else CloseRun(b);
    var p := AddSpec(b0.plan, c, kind, name, body, focus);
    var begins := kind == Parallel && |p.specs| > |b0.plan.specs| && b0.open == None;
    Build(p, if begins then Some(|b0.plan.specs|) else b0.open)
  }

  /** A scope with once-per-group hooks and at least one spec is a group. */
  function CloseGroup(p: Plan, c: Context, name: string, h: Hooks, start: nat): Plan {
    if (h.beforeAll == [] && h.afterAll == []) || start >= |p.specs| then p
    else p.(groups := p.groups + [Group(c.names, c.ids, name, h.beforeAll, h.afterAll, start, |p.specs| - 1)])
  }

  function CloseScope(b: Build, c: Context, name: string, h: Hooks, start: nat): Build {
    Build(CloseGroup(CloseRun(b).plan, c, name, h, start), None)
  }

  /** The declarations of f, numbered from id on, added to b. */
  function Add(f: Forest, c: Context, id: nat, focus: bool, b: Build): Build
    decreases f, 0
  {
    match f
    case Empty => b
    case Grow(Leaf(kind, name, body), rest) => Add(rest, c, id, focus, AddLeaf(b, c, kind, name, body, focus))
    case Grow(Scope(name, h, kids), rest) =>
      Add(rest, c, id + 1 + Groups(kids), focus, AddScope(name, h, kids, c, id, focus, CloseRun(b)))
  }

  function AddScope(name: string, h: Hooks, kids: Forest, c: Context, id: nat, focus: bool, b: Build): Build
    decreases kids, 1
  {
    var inner := Enter(c, name, id, h);
    CloseScope(Add(kids, inner, id + 1, focus, b), inner, name, h, |b.plan.specs|)
  }

  /** The plan of a whole suite. */
  function PlanOf(name: string, h: Hooks, kids: Forest, focus: bool): Plan {
    AddScope(name, h, kids, TOP, 0, focus, Build(NOTHING, None)).plan
  }

  // ---- Keeping only the focused specs of a finished plan ----

  function Kept(s: seq<Spec>): seq<Spec> {
    if s == [] then []
    else Kept(s[..|s| - 1]) + if s[|s| - 1].focused then [s[|s| - 1]] else []
  }

  function MarkOf(s: Spec): Mark {
    Mark(s.name, s.ids)
  }

  function Unfocused(s: seq<Spec>): seq<Mark> {
    if s == [] then []
    else Unfocused(s[..|s| - 1]) + if s[|s| - 1].focused then [] else [MarkOf(s[|s| - 1])]
  }

  /** How many specs before place i are kept: the new place of spec i. */
  function Rank(s: seq<Spec>, i: nat): nat
    requires i <= |s|
  {
    |Kept(s[..i])|
  }

  /** The places the kept specs of first..last move to, if there are any. */
  function Remap(s: seq<Spec>, first: nat, last: nat): Option<Range> {
    if first <= last < |s| && Rank(s, first) < Rank(s, last + 1) then Some(Range(Rank(s, first), Rank(s, last + 1) - 1))
    else None
  }

  function RemapGroups(s: seq<Spec>, gs: seq<Group>): seq<Group> {
    if gs == [] then []
    else
      var g := gs[|gs| - 1];
      RemapGroups(s, gs[..|gs| - 1]) + (
        match Remap(s, g.first, g.last)
        case None => []
        case Some(r) => [g.(first := r.first, last := r.last)])
  }

  function RemapRanges(s: seq<Spec>, rs: seq<Range>): seq<Range> {
    if rs == [] then []
    else
      var r := rs[|rs| - 1];
      RemapRanges(s, rs[..|rs| - 1]) + (match Remap(s, r.first, r.last) case None => [] case Some(n) => [n])
  }

  /** A finished plan without its unfocused specs; what was dropped is excluded. */
  function Filtered(p: Plan): Plan {
    Plan(Kept(p.specs), RemapGroups(p.specs, p.groups), RemapRanges(p.specs, p.parallel), [], [],
      p.excluded + Unfocused(p.specs) + p.skipped + p.pending)
  }

  /** A suite with no focused spec keeps everything. */
  function Focused(p: Plan): Plan {
    if Kept(p.specs) == [] then p else Filtered(p)
  }

  /** The same plan, up to the order of the excluded marks. */
  ghost predicate SamePlan(p: Plan, q: Plan) {
    p.(excluded := []) == q.(excluded := []) && multiset(p.excluded) == multiset(q.excluded)
  }

  // ---- Filtering as it builds gives what filtering afterwards gives ----

  lemma {:induction false} KeptAppend(s: seq<Spec>, x: Spec)
    ensures Kept(s + [x]) == Kept(s) + if x.focused then [x] else []
    ensures Unfocused(s + [x]) == Unfocused(s) + if x.focused then [] else [MarkOf(x)]
  {
    assert (s + [x])[..|s|] == s;
  }

  lemma {:induction false} KeptPrefix(s: seq<Spec>, i: nat, j: nat)
    requires i <= j <= |s|
    ensures Rank(s, i) <= Rank(s, j) && (Rank(s, i) == Rank(s, j) <==> forall k :: i <= k < j ==> !s[k].focused)
    decreases j
  {
    if i < j {
      KeptPrefix(s, i, j - 1);
      assert s[..j] == s[..j - 1] + [s[j - 1]];
      KeptAppend(s[..j - 1], s[j - 1]);
    }
  }

  lemma {:induction false} RemapAppend(s: seq<Spec>, x: Spec, first: nat, last: nat)
    requires last < |s|
    ensures Remap(s + [x], first, last) == Remap(s, first, last)
  {
    if first <= last {
      assert (s + [x])[..first] == s[..first] && (s + [x])[..last + 1] == s[..last + 1];
    }
  }

  ghost predicate GroupsWithin(gs: seq<Group>, n: nat) {
    forall i :: 0 <= i < |gs| ==> gs[i].first <= gs[i].last < n
  }

  lemma {:induction false} RemapGroupsAppend(s: seq<Spec>, x: Spec, gs: seq<Group>)
    requires GroupsWithin(gs, |s|)
    ensures RemapGroups(s + [x], gs) == RemapGroups(s, gs)
  {
    if gs != [] {
      RemapGroupsAppend(s, x, gs[..|gs| - 1]);
      RemapAppend(s, x, gs[|gs| - 1].first, gs[|gs| - 1].last);
    }
  }

  /** None of the specs from place i to before place j is focused. */
  ghost predicate NoFocus(s: seq<Spec>, i: nat, j: nat) {
    i < j <= |s| && forall k :: i <= k < j ==> !s[k].focused
  }

  /** All parallel runs, finished or not, have only unfocused specs. */
  ghost predicate RunsUnfocused(b: Build) {
    && (forall i :: 0 <= i < |b.plan.parallel| ==>
          NoFocus(b.plan.specs, b.plan.parallel[i].first, b.plan.parallel[i].last + 1))
    && (b.open.Some? ==> NoFocus(b.plan.specs, b.open.value, |b.plan.specs|))
  }

  /** a was built without filtering, b with it. */
  ghost predicate Simulates(a: Build, b: Build) {
    && b.plan.specs == Kept(a.plan.specs) && b.open == None
    && b.plan.parallel == [] && b.plan.skipped == [] && b.plan.pending == []
    && GroupsWithin(a.plan.groups, |a.plan.specs|) && b.plan.groups == RemapGroups(a.plan.specs, a.plan.groups)
    && RunsUnfocused(a)
    && a.plan.excluded == []
    && multiset(b.plan.excluded)
        == multiset(Unfocused(a.plan.specs)) + multiset(a.plan.skipped) + multiset(a.plan.pending)
  }

  lemma {:induction false} RunClosed(a: Build, b: Build)
    requires Simulates(a, b)
    ensures Simulates(CloseRun(a), b) && CloseRun(b) == b && CloseRun(a).open == None
    ensures CloseRun(a).plan.specs == a.plan.specs
  {
    hide Kept, RemapGroups, Unfocused, GroupsWithin;
  }

  lemma {:induction false} SpecAdded(a: Build, b: Build, x: Spec)
    requires Simulates(a, b) && (a.open.Some? ==> !x.focused)
    ensures var p := a.plan.(specs := a.plan.specs + [x]);
            var q := if x.focused then b.plan.(specs := b.plan.specs + [x])
                     else b.plan.(excluded := b.plan.excluded + [MarkOf(x)]);
            Simulates(Build(p, a.open), Build(q, None))
  {
    KeptAppend(a.plan.specs, x);
    RemapGroupsAppend(a.plan.specs, x, a.plan.groups);
    RunsGrow(a, x);
    hide Kept, Unfocused, RemapGroups, RunsUnfocused;
  }

  lemma {:induction false} RunsGrow(a: Build, x: Spec)
    requires RunsUnfocused(a) && (a.open.Some? ==> !x.focused)
    ensures RunsUnfocused(Build(a.plan.(specs := a.plan.specs + [x]), a.open))
  {
  }

  lemma {:induction false} MarkAdded(a: Build, b: Build, x: Mark, skip: bool)
    requires Simulates(a, b)
    ensures var p := if skip then a.plan.(skipped := a.plan.skipped + [x])
            else a.plan.(pending := a.plan.pending + [x]);
            Simulates(Build(p, a.open), Build(b.plan.(excluded := b.plan.excluded + [x]), None))
  {
    hide Kept, Unfocused, RemapGroups;
  }

  lemma {:induction false} LeafAdded(a: Build, b: Build, c: Context, kind: Kind, name: string, body: Option<Fn>)
    requires Simulates(a, b)
    ensures Simulates(AddLeaf(a, c, kind, name, body, false), AddLeaf(b, c, kind, name, body, true))
  {
    if kind == Parallel {
      SpecAdded(a, b, SpecOf(c, kind, name, body));
      RunOpened(Build(AddSpec(a.plan, c, kind, name, body, false), a.open),
        Build(AddSpec(b.plan, c, kind, name, body, true), None));
    } else {
      RunClosed(a, b);
      if kind == Skip || kind == Pending {
        MarkAdded(CloseRun(a), b, Mark(name, c.ids), kind == Skip);
      } else {
        SpecAdded(CloseRun(a), b, SpecOf(c, kind, name, body));
      }
    }
  }

  /** The spec just added may begin a run. */
  lemma {:induction false} RunOpened(a: Build, b: Build)
    requires Simulates(a, b) && a.plan.specs != [] && !a.plan.specs[|a.plan.specs| - 1].focused
    ensures Simulates(Build(a.plan, Some(|a.plan.specs| - 1)), b)
  {
  }

  lemma {:induction false} GroupRemapped(s: seq<Spec>, gs: seq<Group>, g: Group)
    ensures RemapGroups(s, gs + [g]) == RemapGroups(s, gs) + (
              match Remap(s, g.first, g.last)
              case None => []
              case Some(r) => [g.(first := r.first, last := r.last)])
  {
    assert (gs + [g])[..|gs|] == gs;
  }

  lemma {:induction false} RemapToEnd(s: seq<Spec>, start: nat)
    requires start <= |s|
    ensures Rank(s, start) <= |Kept(s)| && (start == |s| ==> Rank(s, start) == |Kept(s)|)
    ensures start < |s| && Rank(s, start) < |Kept(s)| ==>
              Remap(s, start, |s| - 1) == Some(Range(Rank(s, start), |Kept(s)| - 1))
    ensures start < |s| && Rank(s, start) == |Kept(s)| ==> Remap(s, start, |s| - 1) == None
  {
    KeptPrefix(s, start, |s|);
    assert s[..|s|] == s;
    hide Kept;
  }

  /** Closing a scope makes the same group, or none, before and after the
      unfocused specs are dropped. */
  lemma {:induction false} GroupMoved(s: seq<Spec>, gs: seq<Group>, p: Plan, q: Plan, c: Context, name: string,
      h: Hooks, start: nat)
    requires p.specs == s && p.groups == gs && GroupsWithin(gs, |s|) && start <= |s|
    requires q.specs == Kept(s) && q.groups == RemapGroups(s, gs)
    ensures var gs' := CloseGroup(p, c, name, h, start).groups;
            && GroupsWithin(gs', |s|)
            && CloseGroup(q, c, name, h, Rank(s, start)).groups == RemapGroups(s, gs')
  {
    hide Kept, RemapGroups, Rank, Remap;
    RemapToEnd(s, start);
    if start < |s| {
      GroupRemapped(s, gs, Group(c.names, c.ids, name, h.beforeAll, h.afterAll, start, |s| - 1));
    }
  }

  lemma {:induction false} GroupClosed(a: Build, b: Build, c: Context, name: string, h: Hooks, start: nat, start': nat)
    requires Simulates(a, b) && start <= |a.plan.specs| && start' == Rank(a.plan.specs, start)
    ensures Simulates(CloseScope(a, c, name, h, start), CloseScope(b, c, name, h, start'))
  {
    hide Kept, Unfocused, RemapGroups, Rank;
    RunClosed(a, b);
    var p := CloseRun(a).plan;
    GroupMoved(p.specs, p.groups, p, b.plan, c, name, h, start);
    hide GroupsWithin;
  }

  /** Building only ever adds specs. */
  lemma {:induction false} SpecsGrow(f: Forest, c: Context, id: nat, focus: bool, b: Build)
    ensures b.plan.specs <= Add(f, c, id, focus, b).plan.specs
    decreases f
  {
    match f
    case Empty =>
    case Grow(Leaf(kind, name, body), rest) =>
      SpecsGrow(rest, c, id, focus, AddLeaf(b, c, kind, name, body, focus));
    case Grow(Scope(name, h, kids), rest) =>
      SpecsGrow(kids, Enter(c, name, id, h), id + 1, focus, CloseRun(b));
      SpecsGrow(rest, c, id + 1 + Groups(kids), focus, AddScope(name, h, kids, c, id, focus, CloseRun(b)));
  }

  lemma {:induction false} AddSimulates(f: Forest, c: Context, id: nat, a: Build, b: Build)
    requires Simulates(a, b)
    ensures Simulates(Add(f, c, id, false, a), Add(f, c, id, true, b))
    decreases f, 0
  {
    hide Simulates;
    match f
    case Empty =>
    case Grow(Leaf(kind, name, body), rest) =>
      LeafAdded(a, b, c, kind, name, body);
      AddSimulates(rest, c, id, AddLeaf(a, c, kind, name, body, false), AddLeaf(b, c, kind, name, body, true));
    case Grow(Scope(name, h, kids), rest) =>
      RunClosed(a, b);
      ScopeSimulates(name, h, kids, c, id, CloseRun(a), CloseRun(b));
      AddSimulates(rest, c, id + 1 + Groups(kids), AddScope(name, h, kids, c, id, false, CloseRun(a)),
        AddScope(name, h, kids, c, id, true, CloseRun(b)));
  }

  lemma {:induction false} ScopeSimulates(name: string, h: Hooks, kids: Forest, c: Context, id: nat, a: Build, b: Build)
    requires Simulates(a, b)
    ensures Simulates(AddScope(name, h, kids, c, id, false, a), AddScope(name, h, kids, c, id, true, b))
    decreases kids, 1
  {
    var inner := Enter(c, name, id, h);
    AddSimulates(kids, inner, id + 1, a, b);
    SpecsGrow(kids, inner, id + 1, false, a);
    var a', b' := Add(kids, inner, id + 1, false, a), Add(kids, inner, id + 1, true, b);
    assert a'.plan.specs[..|a.plan.specs|] == a.plan.specs;
    GroupClosed(a', b', inner, name, h, |a.plan.specs|, |b.plan.specs|);
  }

  lemma {:induction false} RangesVanish(s: seq<Spec>, rs: seq<Range>)
    requires forall i :: 0 <= i < |rs| ==> NoFocus(s, rs[i].first, rs[i].last + 1)
    ensures RemapRanges(s, rs) == []
  {
    if rs != [] {
      RangesVanish(s, rs[..|rs| - 1]);
      var r := rs[|rs| - 1];
      if r.last < |s| { KeptPrefix(s, r.first, r.last + 1); }
    }
  }

  /** Dropping the unfocused specs of a finished plan and moving the ranges of
      its groups gives the plan that never added them. */
  lemma {:induction false} FilterAsYouGo(name: string, h: Hooks, kids: Forest)
    ensures SamePlan(Filtered(PlanOf(name, h, kids, false)), PlanOf(name, h, kids, true))
  {
    var start := Build(NOTHING, None);
    assert Simulates(start, start);
    ScopeSimulates(name, h, kids, TOP, 0, start, start);
    var p, q := PlanOf(name, h, kids, false), PlanOf(name, h, kids, true);
    RangesVanish(p.specs, p.parallel);
    assert [] + Unfocused(p.specs) == Unfocused(p.specs);
  }

  lemma {:induction false} LeafSpecs(b: Build, c: Context, kind: Kind, name: string, body: Option<Fn>)
    ensures AddLeaf(b, c, kind, name, body, false).plan.specs
            == b.plan.specs + if kind == Skip || kind == Pending then [] else [SpecOf(c, kind, name, body)]
  {
  }

  lemma {:induction false} ScopeSpecs(name: string, h: Hooks, kids: Forest, c: Context, id: nat, focus: bool, b: Build)
    ensures AddScope(name, h, kids, c, id, focus, b).plan.specs
            == Add(kids, Enter(c, name, id, h), id + 1, focus, b).plan.specs
    ensures CloseRun(b).plan.specs == b.plan.specs
  {
  }

  /** A forest has a focused spec just when its plan does. */
  lemma {:induction false} FocusSeen(f: Forest, c: Context, id: nat, b: Build)
    ensures Kept(Add(f, c, id, false, b).plan.specs) == [] <==> Kept(b.plan.specs) == [] && !HasFocus(f)
    decreases f
  {
    hide Kept, AddLeaf, AddScope, CloseRun, Enter;
    match f
    case Empty =>
    case Grow(Leaf(kind, name, body), rest) =>
      LeafSpecs(b, c, kind, name, body);
      KeptAppend(b.plan.specs, SpecOf(c, kind, name, body));
      FocusSeen(rest, c, id, AddLeaf(b, c, kind, name, body, false));
      assert b.plan.specs + [] == b.plan.specs;
    case Grow(Scope(name, h, kids), rest) =>
      ScopeSpecs(name, h, kids, c, id, false, CloseRun(b));
      ScopeSpecs(name, h, kids, c, id, false, b);
      FocusSeen(kids, Enter(c, name, id, h), id + 1, CloseRun(b));
      FocusSeen(rest, c, id + 1 + Groups(kids), AddScope(name, h, kids, c, id, false, CloseRun(b)));
  }

  /** The two ways to focus a suite agree. */
  lemma {:induction false} FocusedIsFocusedBuild(name: string, h: Hooks, kids: Forest)
    ensures SamePlan(Focused(PlanOf(name, h, kids, false)), PlanOf(name, h, kids, HasFocus(kids)))
  {
    FilterAsYouGo(name, h, kids);
    PlanFocus(name, h, kids);
    FocusedCases(PlanOf(name, h, kids, false));
    hide *;
  }

  lemma {:induction false} PlanFocus(name: string, h: Hooks, kids: Forest)
    ensures Kept(PlanOf(name, h, kids, false).specs) == [] <==> !HasFocus(kids)
  {
    var start := Build(NOTHING, None);
    ScopeSpecs(name, h, kids, TOP, 0, false, start);
    FocusSeen(kids, Enter(TOP, name, 0, h), 1, start);
    assert Kept(start.plan.specs) == [];
    hide Add, AddScope, HasFocus, Kept;
  }

  lemma {:induction false} FocusedCases(p: Plan)
    ensures Focused(p) == if Kept(p.specs) == [] then p else Filtered(p)
    ensures SamePlan(p, p)
  {
  }
}
