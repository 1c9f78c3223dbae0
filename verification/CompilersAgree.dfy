/** The two compilers give the same suite for the same declarations. */
module CompilersAgree {
  import opened Options
  import opened Declarations
  import opened ReportLabels
  import opened ScopeTables
  import opened Plans
  import opened Recordings
  import opened Suites
  import opened Arenas
  import opened ArenaLabels
  import opened ArenaWalks
  import opened BytecodeSuites
  import opened DeclaredSuites
  import opened DeclaredPlans
  import opened DeclaredRuns
  import LateHooks

  /** Where the registry stands between top-level Describes: only the synthetic
      root is open, and it has no per-spec hooks. */
  ghost predicate AtRoot(r: Registry)
    reads r
  {
    r.Valid() && r.stack == [0] && |r.nodes| > 0 && r.Nodes()[0].hooks.before == [] && r.Nodes()[0].hooks.after == []
  }

  lemma {:induction false} RootChain(nodes: seq<Node>)
    requires ParentsFirst(nodes) && nodes != [] && nodes[0].hooks.before == [] && nodes[0].hooks.after == []
    ensures Chain(nodes, 0).before == [] && Chain(nodes, 0).after == []
  {
    assert Chain(nodes, nodes[0].row.parent) == NO_HOOKS;
  }

  /** A top-level scope's nodes, placed after all that was declared before. */
  lemma {:induction false} TopLevelPlaced(was: seq<Node>, t: Tree, nodes: seq<Node>)
    requires was != [] && ParentsFirst(was) && nodes == was + TreeNodes(t, 0, |was|)
    ensures Placed(RowsOf(was), Grow(t, Empty), [], 0, true)
    ensures RowsOf(nodes) == Table(RowsOf(was), Grow(t, Empty), [], 0, true)
    ensures TreeFilled(nodes, t, |was|)
  {
    var mine := TreeNodes(t, 0, |was|);
    RowsOfTree(t, 0, |was|);
    NodesFillTree(was, t, [], 0, nodes);
    assert RowsOf(nodes) == RowsOf(was) + RowsOf(mine);
    var rows := TreeRows(t, 0, |was|, true);
    assert Rows(Grow(t, Empty), 0, |was|, true) == rows + [];
    hide TreeNodes, TreeRows, Rows, TreeFilled;
    assert rows + [] == rows && RowsOf(was) + rows + [] == RowsOf(was) + rows;
  }

  /** Describe inside Analyze: any number of top-level Describes may have come
      before, and none of them shows in this one's suite. */
  method DescribeInRegistry(r: Registry, name: string, s: Script) returns (late: Option<LateHook>, suite: Option<Suite>)
    requires AtRoot(r)
    modifies r
    ensures late == Late(s, false)
    ensures late.None? ==> AtRoot(r)
    ensures suite == if late.Some? then None
      else Some(Walked(PlanOf(name, HooksOf(s), ForestOf(s), HasFocus(ForestOf(s))), SuiteLabels(name, ForestOf(s))))
  {
    ghost var was := r.Nodes();
    var rootID := |r.nodes|;
    late := r.CallNested(name, s);
    if late.Some? { return late, None; }
    ghost var t := Scope(name, HooksOf(s), ForestOf(s));
    TopLevelPlaced(was, t, r.Nodes());
    var compiled := Compile(r, rootID, was, t);
    suite := Some(compiled);
  }

  method Compile(r: Registry, rootID: nat, ghost was: seq<Node>, ghost t: Tree) returns (suite: Suite)
    requires r.Valid() && t.Scope? && rootID == |was|
    requires was != [] && ParentsFirst(was) && was[0].hooks.before == [] && was[0].hooks.after == []
    requires r.Nodes() == was + TreeNodes(t, 0, |was|)
    ensures suite == Walked(PlanOf(t.name, t.hooks, t.kids, HasFocus(t.kids)), SuiteLabels(t.name, t.kids))
  {
    var nodes := NodesOf(r.nodes, r.before, r.after, r.groupBefore, r.groupAfter);
    var rows := RowsOf(nodes);
    TopLevelPlaced(was, t, nodes);
    SuiteKept(t);
    RootChain(nodes);
    ghost var L := SuiteLabels(t.name, t.kids);
    assert Tracks(nodes, 0, TOP, L, [], []);
    assert TreeHasFocus(t) == HasFocus(t.kids);
    assert AddTree(t, TOP, 0, HasFocus(t.kids), NOTHING) == PlanOf(t.name, t.hooks, t.kids, HasFocus(t.kids));
    assert KidsMatch(rows, r.children) && rootID == |RowsOf(was)| && rows == RowsOf(nodes);
    hide *;
    var labels := ComputeArenaGroupLabels(rows, r.children, rootID, RowsOf(was), 0, t);
    PlacedTreeIsAt(RowsOf(was), Grow(t, Empty), [], 0, rows, r.children);
    var focus := HasFocusAt(nodes, r.children, rootID, t, 0);
    var walk := new ArenaWalk(nodes, r.children, labels, focus, L);
    walk.Visit(rootID, t, 0, TOP, 0, NOTHING);
    suite := walk.suite;
  }

  // ---- What shows of a suite ----

  /** A spec's and a group's path as they are reported: unnamed scopes add
      nothing. */
  function ShownSpec(s: SuiteSpec): SuiteSpec {
    s.(path := Named(s.path))
  }

  function ShownGroup(g: SuiteGroup): SuiteGroup {
    g.(path := Named(g.path))
  }

  function Shown(s: Suite): Suite {
    s.(specs := seq(|s.specs|, i requires 0 <= i < |s.specs| => ShownSpec(s.specs[i])),
       groups := seq(|s.groups|, i requires 0 <= i < |s.groups| => ShownGroup(s.groups[i])))
  }

  /** An unnamed spec below a scope with a name, among those that run. */
  predicate Nameless(f: Forest, below: bool, focus: bool) {
    f.Grow? && (NamelessTree(f.first, below, focus) || Nameless(f.rest, below, focus))
  }

  predicate NamelessTree(t: Tree, below: bool, focus: bool) {
    match t
    case Leaf(kind, name, _) => below && name == "" && if focus then kind == Focus else kind != Skip && kind != Pending
    case Scope(name, _, kids) => Nameless(kids, below || name != "", focus)
  }

  ghost predicate AnyClipped(s: seq<Spec>) {
    exists i :: 0 <= i < |s| && Clipped(s[i])
  }

  lemma {:induction false} JoinedEmpty(names: seq<string>, name: string)
    ensures Joined(names + [name], "") != "" <==> Joined(names, "") != "" || name != ""
  {
    if names == [] {
      assert names + [name] == [name] && [name][1..] == [];
    } else {
      assert (names + [name])[1..] == names[1..] + [name];
      JoinedEmpty(names[1..], name);
    }
  }

  lemma {:induction false} LeafClipped(b: Build, c: Context, kind: Kind, name: string, body: Option<Fn>, focus: bool)
    ensures AnyClipped(AddLeaf(b, c, kind, name, body, focus).plan.specs)
            <==> AnyClipped(b.plan.specs) || NamelessTree(Leaf(kind, name, body), Joined(c.names, "") != "", focus)
  {
    var s, x := b.plan.specs, SpecOf(c, kind, name, body);
    assert AnyClipped(s + [x]) <==> AnyClipped(s) || Clipped(x) by {
      assert (s + [x])[|s|] == x;
      if AnyClipped(s) {
        var i :| 0 <= i < |s| && Clipped(s[i]);
        assert (s + [x])[i] == s[i];
      }
    }
  }

  /** The unnamed specs of a plan are those declared. */
  lemma {:induction false} NamelessAdded(f: Forest, c: Context, id: nat, focus: bool, b: Build)
    ensures AnyClipped(Add(f, c, id, focus, b).plan.specs)
            <==> AnyClipped(b.plan.specs) || Nameless(f, Joined(c.names, "") != "", focus)
    decreases f, 0
  {
    match f
    case Empty =>
    case Grow(Leaf(kind, name, body), rest) =>
      LeafClipped(b, c, kind, name, body, focus);
      NamelessAdded(rest, c, id, focus, AddLeaf(b, c, kind, name, body, focus));
      hide AddLeaf, AnyClipped;
    case Grow(Scope(name, h, kids), rest) =>
      NamelessScope(name, h, kids, c, id, focus, CloseRun(b));
      NamelessAdded(rest, c, id + 1 + Groups(kids), focus, AddScope(name, h, kids, c, id, focus, CloseRun(b)));
      hide AddScope, AnyClipped;
  }

  lemma {:induction false} NamelessScope(name: string, h: Hooks, kids: Forest, c: Context, id: nat, focus: bool,
      b: Build)
    ensures AnyClipped(AddScope(name, h, kids, c, id, focus, b).plan.specs)
            <==> AnyClipped(b.plan.specs) || Nameless(kids, Joined(c.names, "") != "" || name != "", focus)
    decreases kids, 1
  {
    var inner := Enter(c, name, id, h);
    JoinedEmpty(c.names, name);
    NamelessAdded(kids, inner, id + 1, focus, b);
    hide Add, AnyClipped, Nameless, Joined;
  }

  lemma {:induction false} NamelessPlan(name: string, h: Hooks, kids: Forest, focus: bool)
    ensures AnyClipped(PlanOf(name, h, kids, focus).specs) <==> Nameless(kids, name != "", focus)
  {
    NamelessScope(name, h, kids, TOP, 0, focus, Build(NOTHING, None));
    hide AddScope, Nameless;
  }

  lemma {:induction false} FocusShown(s: seq<Spec>)
    requires !AnyClipped(s)
    ensures WalkedFocus(s) == FocusedNames(s)
  {
    if s != [] {
      assert s[|s| - 1] in s;
      FocusShown(s[..|s| - 1]);
    }
  }

  lemma {:induction false} SpecShown(s: Spec, labels: seq<string>)
    ensures ShownSpec(WalkedSpec(s, labels)) == ShownSpec(ResolveSpec(s, labels)) <==> !Clipped(s)
  {
    NamedLabels(s.ids, labels);
  }

  lemma {:induction false} GroupShown(g: Group, labels: seq<string>)
    ensures ShownGroup(WalkedGroup(g, labels)) == ShownGroup(ResolveGroup(g, labels))
  {
    NamedTwice(g.path);
    NamedLast(Named(g.path), "");
    assert Named(g.path) + [] == Named(g.path);
  }

  /** What the walk writes shows as the plan does, unless a spec lost the "/" at
      the end of its name. */
  lemma {:induction false} WalkShows(p: Plan, labels: seq<string>)
    ensures Shown(Walked(p, labels)).groups == Shown(Resolve(p, labels)).groups
    ensures Shown(Walked(p, labels)).specs == Shown(Resolve(p, labels)).specs <==> !AnyClipped(p.specs)
    ensures !AnyClipped(p.specs) ==> Shown(Walked(p, labels)) == Shown(Resolve(p, labels))
  {
    var v, w := Shown(Walked(p, labels)), Shown(Resolve(p, labels));
    forall i | 0 <= i < |p.groups| ensures v.groups[i] == w.groups[i] { GroupShown(p.groups[i], labels); }
    forall i | 0 <= i < |p.specs| ensures v.specs[i] == w.specs[i] <==> !Clipped(p.specs[i]) {
      SpecShown(p.specs[i], labels);
    }
    if !AnyClipped(p.specs) { FocusShown(p.specs); }
  }

  /** Filtering after emitting and moving the ranges, or looking for a focus
      first and emitting only what is kept: for every set of declarations both
      compilers give the same specs, programs, breadcrumbs, report paths, groups,
      runs and marks, but for the "/" the walk leaves out at the end of an unnamed
      spec's name. */
  lemma {:induction false} SameSuites(name: string, s: Script)
    ensures var h, kids := HooksOf(s), ForestOf(s);
            SameSuite(Shown(Resolve(Focused(PlanOf(name, h, kids, false)), SuiteLabels(name, kids))),
                      Shown(Walked(PlanOf(name, h, kids, HasFocus(kids)), SuiteLabels(name, kids))))
            <==> !Nameless(kids, name != "", HasFocus(kids))
  {
    var h, kids := HooksOf(s), ForestOf(s);
    var p, q, labels := Focused(PlanOf(name, h, kids, false)), PlanOf(name, h, kids, HasFocus(kids)),
      SuiteLabels(name, kids);
    FocusedIsFocusedBuild(name, h, kids);
    SamePlanSameSuite(p, q, labels);
    WalkShows(q, labels);
    NamelessPlan(name, h, kids, HasFocus(kids));
    hide PlanOf, Focused, SuiteLabels, Nameless, Walked, Resolve, SamePlan;
  }

  // ---- What both show is what was declared ----

  lemma {:induction false} RouteIs(chain: seq<Around>, labels: seq<string>)
    ensures PathOf(Ids(chain), labels) == Route(chain, labels)
  {
    if chain != [] {
      var n := |chain| - 1;
      RouteIs(chain[..n], labels);
      assert Ids(chain)[..n] == Ids(chain[..n]) && Ids(chain)[n] == chain[n].id;
    }
  }

  /** Behind scopes with names a breadcrumb ends in "/". */
  lemma {:induction false} EndsInSlash(full: string, names: seq<string>)
    requires Breadcrumb(full, names, "") && full != ""
    ensures |full| >= 2 && full == full[..|full| - 1] + "/"
    decreases |names|
  {
    var n := |names| - 1;
    assert names[..n + 1] == names;
    if names[n] == "" {
      assert Breadcrumb(full, names[..n], "") by { ShorterCrumb(full, names); }
      EndsInSlash(full, names[..n]);
    } else {
      assert AtPlace(full, Width(names[..n]), names[n] + "/");
      assert full[|full| - 1] == (names[n] + "/")[|names[n]|];
    }
  }

  lemma {:induction false} ShorterCrumb(full: string, names: seq<string>)
    requires Breadcrumb(full, names, "") && names != [] && names[|names| - 1] == ""
    ensures Breadcrumb(full, names[..|names| - 1], "")
  {
    var n := |names| - 1;
    forall i | 0 <= i < n && names[..n][i] != "" ensures AtPlace(full, Width(names[..n][..i]), names[..n][i] + "/") {
      assert names[..n][..i] == names[..i];
    }
  }

  lemma {:induction false} ClippedIs(s: Spec, d: Spot)
    requires SpecIs(s, d)
    ensures FullNameIs(s.fullName, d, false) && FullNameIs(WalkedName(s), d, true)
  {
    if Clipped(s) { EndsInSlash(s.fullName, Names(d.around)); }
    hide Breadcrumb, Nested, Names, Ids;
  }

  lemma {:induction false} SpecShows2(s: Spec, d: Spot, labels: seq<string>)
    requires SpecIs(s, d)
    ensures ShowsSpec(ShownSpec(ResolveSpec(s, labels)), d, labels, false)
    ensures ShowsSpec(ShownSpec(WalkedSpec(s, labels)), d, labels, true)
  {
    ClippedIs(s, d);
    NamedLabels(s.ids, labels);
    RouteIs(d.around, labels);
    hide FullNameIs, Nested, Named, LabelsOf, PathOf, Route, Clipped, Ids, Breadcrumb, Names;
  }

  lemma {:induction false} GroupShows(g: Group, chain: seq<Around>, spots: seq<Spot>, labels: seq<string>)
    requires GroupIs(g, chain, spots)
    ensures ShowsGroup(ShownGroup(ResolveGroup(g, labels)), chain, spots, labels)
    ensures ShowsGroup(ShownGroup(WalkedGroup(g, labels)), chain, spots, labels)
  {
    GroupShown(g, labels);
    RouteIs(chain, labels);
    hide HooksIn, IsInside, PathOf, Route, Named, Names, Ids, WalkedGroup;
  }

  lemma {:induction false} MarksShow(spots: seq<Spot>, labels: seq<string>)
    ensures ResolveMarks(MarksFor(spots), labels) == ShownMarks(spots, labels)
  {
    forall i | 0 <= i < |spots| ensures ResolveMarks(MarksFor(spots), labels)[i] == ShownMarks(spots, labels)[i] {
      RouteIs(spots[i].around, labels);
    }
    hide PathOf, Route;
  }

  lemma {:induction false} FocusOfAll(s: seq<Spec>)
    requires forall i :: 0 <= i < |s| ==> s[i].focused
    ensures |FocusedNames(s)| == |WalkedFocus(s)| == |s|
    ensures forall i :: 0 <= i < |s| ==> FocusedNames(s)[i] == s[i].fullName && WalkedFocus(s)[i] == WalkedName(s[i])
  {
    hide WalkedName;
    if s != [] { FocusOfAll(s[..|s| - 1]); }
  }

  lemma {:induction false} FocusOfNone(s: seq<Spec>)
    requires forall i :: 0 <= i < |s| ==> !s[i].focused
    ensures FocusedNames(s) == [] && WalkedFocus(s) == []
  {
    if s != [] { FocusOfNone(s[..|s| - 1]); }
  }

  lemma {:induction false} FocusShows(p: Plan, spots: seq<Spot>, focus: bool)
    requires SpecsAre(p.specs, Where(spots, Runs(focus))) && (focus <==> AnyFocused(spots))
    ensures |FocusedNames(p.specs)| == |WalkedFocus(p.specs)| == if focus then |p.specs| else 0
    ensures forall i :: 0 <= i < |FocusedNames(p.specs)| ==>
              && FocusedNames(p.specs)[i] == p.specs[i].fullName
              && WalkedFocus(p.specs)[i] == WalkedName(p.specs[i])
  {
    var running := Where(spots, Runs(focus));
    WhereIn(spots, Runs(focus));
    hide Where, Breadcrumb, Nested;
    forall i | 0 <= i < |running| ensures p.specs[i].focused <==> focus {
      assert SpecIs(p.specs[i], running[i]) && running[i] in spots;
      var j :| 0 <= j < |spots| && spots[j] == running[i];
    }
    if focus { FocusOfAll(p.specs); } else { FocusOfNone(p.specs); }
  }

  lemma {:induction false} MarksKeepCounts(marks: seq<Mark>, spots: seq<Spot>, labels: seq<string>)
    requires multiset(marks) == multiset(MarksFor(spots))
    ensures multiset(ResolveMarks(marks, labels)) == multiset(ShownMarks(spots, labels))
  {
    ResolveKeepsCounts(marks, MarksFor(spots), labels);
    MarksShow(spots, labels);
    hide ResolveMarks, ShownMarks, MarksFor;
  }

  /** A plan that has what was declared is shown so by both. */
  lemma {:induction false} PlanShows(p: Plan, spots: seq<Spot>, scopes: seq<seq<Around>>, focus: bool,
      labels: seq<string>)
    requires PlanDeclares(p, spots, scopes, focus) && (focus <==> AnyFocused(spots))
    ensures SuiteIs(Shown(Resolve(p, labels)), spots, scopes, focus, labels, false)
    ensures SuiteIs(Shown(Walked(p, labels)), spots, scopes, focus, labels, true)
  {
    hide *;
    var v, w := Shown(Resolve(p, labels)), Shown(Walked(p, labels));
    ShownParts(p, labels);
    PlanParts(p, spots, scopes, focus);
    FocusShows(p, spots, focus);
    SpecsShow(p, Where(spots, Runs(focus)), labels);
    GroupsShow(p, scopes, Where(spots, Runs(focus)), labels);
    MarksShow(Where(spots, IsKind(Skip, focus)), labels);
    MarksShow(Where(spots, IsKind(Pending, focus)), labels);
    MarksKeepCounts(p.excluded, Where(spots, LosesFocus(focus)), labels);
    SuiteParts(v, spots, scopes, focus, labels, false);
    SuiteParts(w, spots, scopes, focus, labels, true);
  }

  lemma {:induction false} PlanParts(p: Plan, spots: seq<Spot>, scopes: seq<seq<Around>>, focus: bool)
    requires PlanDeclares(p, spots, scopes, focus)
    ensures var running := Where(spots, Runs(focus));
            && SpecsAre(p.specs, running) && |p.specs| == |running| && RunsAreNeighbours(p.parallel, running)
            && GroupsAre(p.groups, scopes, running)
    ensures p.skipped == MarksFor(Where(spots, IsKind(Skip, focus)))
    ensures p.pending == MarksFor(Where(spots, IsKind(Pending, focus)))
    ensures multiset(p.excluded) == multiset(MarksFor(Where(spots, LosesFocus(focus))))
  {
    hide Where, RunsAreNeighbours, GroupsAre, MarksFor, SpecIs;
  }

  lemma {:induction false} ShownParts(p: Plan, labels: seq<string>)
    ensures var v, w := Shown(Resolve(p, labels)), Shown(Walked(p, labels));
            && |v.specs| == |w.specs| == |p.specs| && |v.groups| == |w.groups| == |p.groups|
            && (forall i :: 0 <= i < |p.specs| ==>
                  && v.specs[i] == ShownSpec(ResolveSpec(p.specs[i], labels))
                  && w.specs[i] == ShownSpec(WalkedSpec(p.specs[i], labels))
                  && v.specs[i].fullName == p.specs[i].fullName && w.specs[i].fullName == WalkedName(p.specs[i]))
            && (forall i :: 0 <= i < |p.groups| ==>
                  && v.groups[i] == ShownGroup(ResolveGroup(p.groups[i], labels))
                  && w.groups[i] == ShownGroup(WalkedGroup(p.groups[i], labels)))
            && v.parallel == w.parallel == p.parallel
            && v.skipped == w.skipped == ResolveMarks(p.skipped, labels)
            && v.pending == w.pending == ResolveMarks(p.pending, labels)
            && v.excluded == w.excluded == ResolveMarks(p.excluded, labels)
            && v.focusedNames == FocusedNames(p.specs) && w.focusedNames == WalkedFocus(p.specs)
  {
    hide LabelsOf, PathOf, Named, WalkedName, ResolveMarks, FocusedNames, WalkedFocus;
  }

  lemma {:induction false} SpecsShow(p: Plan, running: seq<Spot>, labels: seq<string>)
    requires SpecsAre(p.specs, running)
    ensures forall i :: 0 <= i < |p.specs| ==>
              && i < |running| && ShowsSpec(ShownSpec(ResolveSpec(p.specs[i], labels)), running[i], labels, false)
              && ShowsSpec(ShownSpec(WalkedSpec(p.specs[i], labels)), running[i], labels, true)
  {
    hide SpecIs, ShowsSpec, WalkedSpec, ResolveSpec, ShownSpec;
    forall i | 0 <= i < |p.specs|
      ensures && ShowsSpec(ShownSpec(ResolveSpec(p.specs[i], labels)), running[i], labels, false)
              && ShowsSpec(ShownSpec(WalkedSpec(p.specs[i], labels)), running[i], labels, true)
    {
      assert SpecIs(p.specs[i], running[i]);
      SpecShows2(p.specs[i], running[i], labels);
    }
  }

  lemma {:induction false} GroupsShow(p: Plan, scopes: seq<seq<Around>>, running: seq<Spot>, labels: seq<string>)
    requires GroupsAre(p.groups, scopes, running)
    ensures var of := GroupedOf(scopes, running);
            && |p.groups| == |of|
            && forall i :: 0 <= i < |p.groups| ==>
                 && ShowsGroup(ShownGroup(ResolveGroup(p.groups[i], labels)), of[i], running, labels)
                 && ShowsGroup(ShownGroup(WalkedGroup(p.groups[i], labels)), of[i], running, labels)
  {
    hide GroupIs, ShowsGroup, WalkedGroup, ResolveGroup, ShownGroup, GroupedOf;
    var of := GroupedOf(scopes, running);
    forall i | 0 <= i < |p.groups|
      ensures && ShowsGroup(ShownGroup(ResolveGroup(p.groups[i], labels)), of[i], running, labels)
              && ShowsGroup(ShownGroup(WalkedGroup(p.groups[i], labels)), of[i], running, labels)
    {
      GroupShows(p.groups[i], of[i], running, labels);
    }
  }

  lemma {:induction false} SuiteParts(v: Suite, spots: seq<Spot>, scopes: seq<seq<Around>>, focus: bool,
      labels: seq<string>, clipped: bool)
    requires var running := Where(spots, Runs(focus));
      && |v.specs| == |running|
      && (forall i :: 0 <= i < |v.specs| ==> ShowsSpec(v.specs[i], running[i], labels, clipped))
      && |v.groups| == |GroupedOf(scopes, running)| && RunsAreNeighbours(v.parallel, running)
      && forall i :: 0 <= i < |v.groups| ==> ShowsGroup(v.groups[i], GroupedOf(scopes, running)[i], running, labels)
    requires v.skipped == ShownMarks(Where(spots, IsKind(Skip, focus)), labels)
    requires v.pending == ShownMarks(Where(spots, IsKind(Pending, focus)), labels)
    requires multiset(v.excluded) == multiset(ShownMarks(Where(spots, LosesFocus(focus)), labels))
    requires |v.focusedNames| == if focus then |v.specs| else 0
    requires forall i :: 0 <= i < |v.focusedNames| ==> v.focusedNames[i] == v.specs[i].fullName
    ensures SuiteIs(v, spots, scopes, focus, labels, clipped)
  {
    hide Where, ShowsSpec, ShowsGroup, GroupedOf, RunsAreNeighbours, ShownMarks, Runs, IsKind, LosesFocus;
  }

  /** There is a focus where some spec has one. */
  lemma {:induction false} FocusIsDeclared(s: Script, around: seq<Around>, id: nat, turn: nat)
    ensures HasFocus(ForestOf(s)) <==> AnyFocused(Spots(s, around, id, turn))
    decreases s
  {
    match s {
      case Done =>
      case Then(It(kind, name, body), rest) =>
        if kind == Focus && body.None? {
          FocusIsDeclared(rest, around, id, turn);
        } else {
          FocusIsDeclared(rest, around, id, turn + 1);
          assert [Spot(kind, name, body, around, turn)][0].kind == kind;
          FocusOfBoth([Spot(kind, name, body, around, turn)], Spots(rest, around, id, turn + 1));
        }
      case Then(Describe(name, Some(inner)), rest) =>
        var chain := around + [Around(name, id, inner)];
        FocusIsDeclared(inner, chain, id + 1, 0);
        FocusIsDeclared(rest, around, id + 1 + DeclaredSuites.Scopes(inner), turn + 1);
        FocusOfBoth(Spots(inner, chain, id + 1, 0),
          Spots(rest, around, id + 1 + DeclaredSuites.Scopes(inner), turn + 1));
      case Then(c, rest) => FocusIsDeclared(rest, around, id, turn);
    }
  }

  lemma {:induction false} FocusOfBoth(a: seq<Spot>, b: seq<Spot>)
    ensures AnyFocused(a + b) <==> AnyFocused(a) || AnyFocused(b)
  {
    var all := a + b;
    assert forall i :: 0 <= i < |a| ==> all[i] == a[i];
    assert forall i :: 0 <= i < |b| ==> all[|a| + i] == b[i];
    if AnyFocused(all) {
      var i :| 0 <= i < |all| && all[i].kind == Focus;
      assert i >= |a| ==> b[i - |a|].kind == Focus;
    }
  }

  lemma {:induction false} SuiteFocus(name: string, s: Script)
    ensures HasFocus(ForestOf(s)) <==> AnyFocused(AllSpots(name, s))
  {
    FocusIsDeclared(Whole(name, s), [], 0, 0);
    hide Spots, AnyFocused;
  }

  lemma {:induction false} SamePlanDeclared(p: Plan, q: Plan, spots: seq<Spot>, scopes: seq<seq<Around>>, focus: bool)
    requires SamePlan(p, q) && PlanDeclares(q, spots, scopes, focus)
    ensures PlanDeclares(p, spots, scopes, focus)
  {
    hide Where, SpecsAre, RunsAreNeighbours, GroupsAre, MarksFor;
  }

  /** What either compiler makes of a callback shows what the callback declared. */
  lemma {:induction false} BothShow(name: string, s: Script)
    ensures var h, kids, labels := HooksOf(s), ForestOf(s), SuiteLabels(name, ForestOf(s));
            var spots, scopes, focus := AllSpots(name, s), AllScopes(name, s), AnyFocused(AllSpots(name, s));
            && SuiteIs(Shown(Resolve(Focused(PlanOf(name, h, kids, false)), labels)), spots, scopes, focus, labels,
                       false)
            && SuiteIs(Shown(Walked(PlanOf(name, h, kids, HasFocus(kids)), labels)), spots, scopes, focus, labels, true)
  {
    hide *;
    var h, kids, labels := HooksOf(s), ForestOf(s), SuiteLabels(name, ForestOf(s));
    var p, q := Focused(PlanOf(name, h, kids, false)), PlanOf(name, h, kids, HasFocus(kids));
    SuiteFocus(name, s);
    FocusedIsFocusedBuild(name, h, kids);
    PlanIsDeclared(name, s, HasFocus(kids));
    SamePlanDeclared(p, q, AllSpots(name, s), AllScopes(name, s), HasFocus(kids));
    PlanShows(p, AllSpots(name, s), AllScopes(name, s), HasFocus(kids), labels);
    PlanShows(q, AllSpots(name, s), AllScopes(name, s), HasFocus(kids), labels);
  }

  /** The same callback through both compilers. Both suites show just what the
      calls declared. */
  method CompileBothWays(r: Registry, name: string, s: Script)
    returns (late: Option<LateHook>, direct: Option<Suite>, walked: Option<Suite>)
    requires AtRoot(r)
    modifies r
    ensures late == Late(s, false) && LateHooks.StopsAt(s, false, late)
    ensures late.Some? ==> direct == None && walked == None
    ensures late.None? ==>
              && direct.Some? && walked.Some?
              && (SameSuite(Shown(direct.value), Shown(walked.value))
                  <==> !Nameless(ForestOf(s), name != "", HasFocus(ForestOf(s))))
    ensures late.None? ==>
              var spots, scopes, labels := AllSpots(name, s), AllScopes(name, s), SuiteLabels(name, ForestOf(s));
              && SuiteIs(Shown(direct.value), spots, scopes, AnyFocused(spots), labels, false)
              && SuiteIs(Shown(walked.value), spots, scopes, AnyFocused(spots), labels, true)
  {
    hide *;
    LateHooks.LateIsFirst(s, false);
    SameSuites(name, s);
    BothShow(name, s);
    var late', d := DescribeWithCompiler(name, s);
    direct := d;
    late, walked := DescribeInRegistry(r, name, s);
  }

  /** It("") under Describe("D") is "D/" when compiled directly and "D" when
      compiled from the registry. */
  lemma {:induction false} UnnamedSpecDiffers(body: Fn, labels: seq<string>)
    ensures var p := PlanOf("D", HooksOf(Done), Grow(Leaf(Normal, "", Some(body)), Empty), false);
            && |p.specs| == 1
            && Resolve(p, labels).specs[0].fullName == "D/" && Walked(p, labels).specs[0].fullName == "D"
  {
    var h, f, b := HooksOf(Done), Grow(Leaf(Normal, "", Some(body)), Empty), Build(NOTHING, None);
    var c := Enter(TOP, "D", 0, h);
    assert c.names == ["D"] && ["D"][1..] == [];
    assert Joined(["D"], "") == "D/" && "D/"[..1] == "D";
    var after := AddLeaf(b, c, Normal, "", Some(body), false);
    assert Add(f, c, 1, false, b) == Add(Empty, c, 1, false, after) == after;
    assert PlanOf("D", h, f, false) == CloseScope(after, c, "D", h, 0).plan;
    assert PlanOf("D", h, f, false).specs == [SpecOf(c, Normal, "", Some(body))];
  }
}
