/** The compiler that walks a finished arena, knowing the labels and whether
    anything is focused before it emits the first spec. */
module ArenaWalks {
  import opened Options
  import opened Declarations
  import opened ReportLabels
  import opened ScopeTables
  import opened Plans
  import opened Recordings
  import opened Suites
  import opened Arenas
  import opened ArenaLabels

  /** The hooks of a node and its ancestors, outermost first. */
  function Chain(nodes: seq<Node>, id: int): Hooks
    requires ParentsFirst(nodes)
    decreases id
  {
    if 0 <= id < |nodes| then MoreHooks(Chain(nodes, nodes[id].row.parent), nodes[id].hooks) else NO_HOOKS
  }

  function Lineage(nodes: seq<Node>, id: int): (ids: seq<nat>)
    requires ParentsFirst(nodes)
    ensures forall i :: 0 <= i < |ids| ==> ids[i] < |nodes|
    decreases id
  {
    if 0 <= id < |nodes| then Lineage(nodes, nodes[id].row.parent) + [id] else []
  }

  function Reversed(s: seq<nat>): (r: seq<nat>)
    ensures |r| == |s| && forall i :: 0 <= i < |s| ==> r[i] == s[|s| - 1 - i]
  {
    seq(|s|, i requires 0 <= i < |s| => s[|s| - 1 - i])
  }

  /** From the root to the node. */
  method CollectAncestorIDs(nodes: seq<Node>, nodeID: int) returns (ids: seq<nat>)
    requires ParentsFirst(nodes)
    ensures ids == Lineage(nodes, nodeID)
  {
    ids := [];
    var id := nodeID;
    while 0 <= id < |nodes|
      invariant Lineage(nodes, nodeID) == Lineage(nodes, id) + Reversed(ids)
      decreases id
    {
      assert Reversed(ids + [id]) == [id] + Reversed(ids);
      ids := ids + [id];
      id := nodes[id].row.parent;
    }
    ids := Reverse(ids);
  }

  method Reverse(was: seq<nat>) returns (ids: seq<nat>)
    ensures ids == Reversed(was)
  {
    ids := was;
    var i, j := 0, |ids| - 1;
    while i < j
      invariant 0 <= i <= j + 1 && i + j == |was| - 1 && |ids| == |was|
      invariant forall k :: 0 <= k < |was| && (k < i || k > j) ==> ids[k] == was[|was| - 1 - k]
      invariant forall k :: i <= k <= j ==> ids[k] == was[k]
    {
      ids := ids[i := ids[j]][j := ids[i]];
      i, j := i + 1, j - 1;
    }
  }

  lemma {:induction false} ChainOfLineage(nodes: seq<Node>, id: int, n: nat)
    requires ParentsFirst(nodes) && n < |Lineage(nodes, id)|
    ensures var ids := Lineage(nodes, id);
            Chain(nodes, ids[n])
            == MoreHooks(if n == 0 then NO_HOOKS else Chain(nodes, ids[n - 1]), nodes[ids[n]].hooks)
    decreases id
  {
    var up := Lineage(nodes, nodes[id].row.parent);
    if n < |up| {
      ChainOfLineage(nodes, nodes[id].row.parent, n);
    } else if n > 0 {
      LineageEnds(nodes, nodes[id].row.parent);
    } else {
      LineageEnds(nodes, nodes[id].row.parent);
    }
  }

  lemma {:induction false} LineageEnds(nodes: seq<Node>, id: int)
    requires ParentsFirst(nodes)
    ensures var ids := Lineage(nodes, id);
            if 0 <= id < |nodes| then ids != [] && ids[|ids| - 1] == id else ids == [] && Chain(nodes, id) == NO_HOOKS
  {
  }

  /** The hooks around a spec under node parent. */
  method GatherHooks(nodes: seq<Node>, parent: int) returns (before: seq<Fn>, after: seq<Fn>)
    requires ParentsFirst(nodes)
    ensures before == Chain(nodes, parent).before && after == Chain(nodes, parent).after
  {
    var ids := CollectAncestorIDs(nodes, parent);
    before, after := [], [];
    LineageEnds(nodes, parent);
    for i := 0 to |ids|
      invariant i == 0 ==> before == [] && after == []
      invariant i > 0 ==> before == Chain(nodes, ids[i - 1]).before && after == Chain(nodes, ids[i - 1]).after
    {
      ChainOfLineage(nodes, parent, i);
      before := before + nodes[ids[i]].hooks.before;
      after := after + nodes[ids[i]].hooks.after;
    }
  }

  /** The nodes of t hold what was declared. */
  ghost predicate TreeFilled(nodes: seq<Node>, t: Tree, id: nat)
    decreases t, 0
  {
    && id < |nodes|
    && match t {
         case Leaf(kind, _, body) => nodes[id].kind == kind && nodes[id].fn == body && nodes[id].hooks == NO_HOOKS
         case Scope(_, h, kids) => nodes[id].hooks == h && ForestFilled(nodes, kids, id + 1)
       }
  }

  ghost predicate ForestFilled(nodes: seq<Node>, f: Forest, base: nat)
    decreases f, 0
  {
    f.Grow? ==> TreeFilled(nodes, f.first, base) && ForestFilled(nodes, f.rest, base + TreeSize(f.first))
  }

  lemma {:induction false} NodesFillTree(pre: seq<Node>, t: Tree, post: seq<Node>, parent: int, nodes: seq<Node>)
    requires nodes == pre + TreeNodes(t, parent, |pre|) + post
    ensures TreeFilled(nodes, t, |pre|) && |TreeNodes(t, parent, |pre|)| == TreeSize(t)
    decreases t, 0
  {
    var all := TreeNodes(t, parent, |pre|);
    assert nodes[|pre|] == all[0];
    if t.Scope? {
      var kids := ForestNodes(t.kids, |pre|, |pre| + 1);
      assert nodes == (pre + [all[0]]) + kids + post;
      NodesFill(pre + [all[0]], t.kids, post, |pre|, nodes);
    }
  }

  lemma {:induction false} NodesFill(pre: seq<Node>, f: Forest, post: seq<Node>, parent: int, nodes: seq<Node>)
    requires nodes == pre + ForestNodes(f, parent, |pre|) + post
    ensures ForestFilled(nodes, f, |pre|) && |ForestNodes(f, parent, |pre|)| == ForestSize(f)
    decreases f, 0
  {
    if f.Grow? {
      var first := TreeNodes(f.first, parent, |pre|);
      var rest := ForestNodes(f.rest, parent, |pre| + |first|);
      assert nodes == pre + first + (rest + post) && nodes == (pre + first) + rest + post;
      NodesFillTree(pre, f.first, rest + post, parent, nodes);
      NodesFill(pre + first, f.rest, post, parent, nodes);
    }
  }

  /** strings.Join of the names with "/" between. */
  function JoinNames(names: seq<string>): string {
    if names == [] then ""
    else if |names| == 1 then names[0]
    else names[0] + "/" + JoinNames(names[1..])
  }

  /** For a named spec the two ways to join a breadcrumb agree. */
  lemma {:induction false} JoinsAgree(scopes: seq<string>, leaf: string)
    ensures JoinNames(Named(scopes) + [leaf]) == Joined(scopes, leaf)
  {
    if scopes == [] {
      assert Named(scopes) + [leaf] == [leaf];
    } else {
      JoinsAgree(scopes[1..], leaf);
      var rest := Named(scopes[1..]);
      if scopes[0] == "" {
        assert Named(scopes) == rest;
      } else {
        assert (Named(scopes) + [leaf])[1..] == rest + [leaf];
      }
    }
  }

  /** An unnamed spec is its scopes' breadcrumb, less the "/" at its end. */
  lemma {:induction false} UnnamedJoin(scopes: seq<string>)
    ensures Named(scopes) == [] ==> Joined(scopes, "") == ""
    ensures Named(scopes) != [] ==> Joined(scopes, "") == JoinNames(Named(scopes)) + "/"
  {
    if scopes != [] {
      UnnamedJoin(scopes[1..]);
      var rest := Named(scopes[1..]);
      if scopes[0] == "" {
        assert Named(scopes) == rest;
      } else {
        assert Named(scopes)[1..] == rest;
        assert rest == [] ==> Joined(scopes, "") == scopes[0] + "/";
      }
    }
  }

  /** The names pushed for a node: none when it has none. */
  function Pushed(names: seq<string>, name: string, l: string): (r: seq<string>)
    ensures name == "" ==> r == names
  {
    if name == "" then names else names + [l]
  }

  /** What was there before a node's name was pushed. */
  function MarkScopes(path: seq<string>, name: string): seq<string>
    requires name != "" ==> path != []
  {
    if name == "" then path else path[..|path| - 1]
  }

  lemma {:induction false} PushedAndPopped(names: seq<string>, name: string, l: string)
    ensures name != "" ==> Pushed(names, name, l) != []
    ensures MarkScopes(Pushed(names, name, l), name) == names
  {
  }

  // ---- A plan as this walk writes it ----

  /** The name the walk gives a spec: it never pushes an empty one. */
  predicate Clipped(s: Spec) {
    s.name == "" && s.fullName != ""
  }

  function WalkedName(s: Spec): string {
    if Clipped(s) then s.fullName[..|s.fullName| - 1] else s.fullName
  }

  lemma {:induction false} NameOfWalk(c: Context, kind: Kind, name: string, body: Option<Fn>)
    ensures JoinNames(Pushed(Named(c.names), name, name)) == WalkedName(SpecOf(c, kind, name, body))
  {
    if name != "" {
      JoinsAgree(c.names, name);
    } else {
      UnnamedJoin(c.names);
      var j := JoinNames(Named(c.names));
      assert (j + "/")[..|j|] == j;
    }
  }

  function WalkedSpec(s: Spec, labels: seq<string>): SuiteSpec {
    SuiteSpec(s.name, WalkedName(s), s.program, PathOf(s.ids, labels))
  }

  function WalkedGroup(g: Group, labels: seq<string>): SuiteGroup {
    SuiteGroup(Named(g.path) + (if g.name == "" then [""] else []), PathOf(g.ids, labels), g.name, g.beforeAll,
               g.afterAll, g.first, g.last)
  }

  function WalkedSpecs(s: seq<Spec>, labels: seq<string>): (r: seq<SuiteSpec>)
    ensures |r| == |s| && forall i :: 0 <= i < |s| ==> r[i] == WalkedSpec(s[i], labels)
  {
    seq(|s|, i requires 0 <= i < |s| => WalkedSpec(s[i], labels))
  }

  function WalkedGroups(s: seq<Group>, labels: seq<string>): (r: seq<SuiteGroup>)
    ensures |r| == |s| && forall i :: 0 <= i < |s| ==> r[i] == WalkedGroup(s[i], labels)
  {
    seq(|s|, i requires 0 <= i < |s| => WalkedGroup(s[i], labels))
  }

  function WalkedFocus(s: seq<Spec>): seq<string> {
    if s == [] then []
    else WalkedFocus(s[..|s| - 1]) + if s[|s| - 1].focused then [WalkedName(s[|s| - 1])] else []
  }

  /** Unnamed scopes leave no trace on its paths, but the name of an unnamed
      group. */
  function Walked(p: Plan, labels: seq<string>): Suite {
    Suite(WalkedSpecs(p.specs, labels), WalkedGroups(p.groups, labels), p.parallel,
      ResolveMarks(p.skipped, labels), ResolveMarks(p.pending, labels), ResolveMarks(p.excluded, labels),
      WalkedFocus(p.specs))
  }

  // ---- Where the walk stands ----

  /** Groups have labels just when they have names. */
  ghost predicate TreeKept(t: Tree, suite: seq<string>, n: nat)
    decreases t, 0
  {
    t.Scope? ==> n < |suite| && (suite[n] == "" <==> t.name == "") && ForestKept(t.kids, suite, n + 1)
  }

  ghost predicate ForestKept(f: Forest, suite: seq<string>, n: nat)
    decreases f, 0
  {
    f.Grow? ==>
      && TreeKept(f.first, suite, n)
      && ForestKept(f.rest, suite, n + if f.first.Scope? then 1 + Groups(f.first.kids) else 0)
  }

  lemma {:induction false} WithinKept(f: Forest, elders: seq<string>, suite: seq<string>, n: nat)
    requires Within(f, elders, suite, n)
    ensures ForestKept(f, suite, n)
  {
    hide Within, Labels, GroupNames;
    if f.Grow? {
      WithinParts(f, elders, suite, n);
      if f.first.Leaf? {
        WithinKept(f.rest, elders, suite, n);
      } else {
        ElderName(f, elders);
        LabelAvoidsNames(elders + GroupNames(f), |elders|);
        WithinKept(f.first.kids, [], suite, n + 1);
        WithinKept(f.rest, elders + [f.first.name], suite, n + 1 + Groups(f.first.kids));
      }
    }
  }

  lemma {:induction false} ElderName(f: Forest, elders: seq<string>)
    requires f.Grow? && f.first.Scope?
    ensures |elders| < |elders + GroupNames(f)| && (elders + GroupNames(f))[|elders|] == f.first.name
  {
  }

  /** So do those of a suite. */
  lemma {:induction false} SuiteKept(t: Tree)
    requires t.Scope?
    ensures TreeKept(t, SuiteLabels(t.name, t.kids), 0)
  {
    SuiteWithin(t);
    WithinKept(t.kids, [], SuiteLabels(t.name, t.kids), 1);
    hide ForestKept, SuiteLabels;
  }

  /** What visiting a node adds to the plan. */
  function AddTree(t: Tree, c: Context, n: nat, focus: bool, p: Plan): Plan {
    match t
    case Leaf(kind, name, body) => AddSpec(p, c, kind, name, body, focus)
    case Scope(name, h, kids) => AddScope(name, h, kids, c, n, focus, Build(p, None)).plan
  }

  /** The node's enclosing scopes, as the walk tracks them. */
  ghost predicate Tracks(nodes: seq<Node>, parent: int, c: Context, suite: seq<string>, path: seq<string>,
      reportPath: seq<string>)
    requires ParentsFirst(nodes)
  {
    && Chain(nodes, parent).before == c.before && Chain(nodes, parent).after == c.after
    && path == Named(c.names) && reportPath == PathOf(c.ids, suite)
  }

  method HasFocusAt(nodes: seq<Node>, children: seq<seq<nat>>, id: nat, ghost t: Tree,
      ghost parent: int) returns (focus: bool)
    requires TreeAt(RowsOf(nodes), children, t, parent, id) && TreeFilled(nodes, t, id)
    ensures focus == TreeHasFocus(t)
    decreases |nodes| - id
  {
    if !nodes[id].row.group && nodes[id].kind == Focus { return true; }
    ghost var rest, base := if t.Scope? then t.kids else Empty, id + 1;
    var kids := children[id];
    var i := 0;
    while i < |kids|
      invariant 0 <= i <= |kids| && base > id && kids[i..] == Places(rest, base, true)
      invariant ForestAt(RowsOf(nodes), children, rest, id, base) && ForestFilled(nodes, rest, base)
      invariant TreeHasFocus(t) == HasFocus(rest)
    {
      NextKid(RowsOf(nodes), children, kids, i, rest, id, base);
      focus := HasFocusAt(nodes, children, kids[i], rest.first, id);
      if focus { return; }
      base, rest := base + TreeSize(rest.first), rest.rest;
      i := i + 1;
    }
    NoMore(rest, base);
    focus := false;
  }

  // ---- The walk ----

  lemma {:induction false} ResolveMarksAppend(s: seq<Mark>, m: Mark, labels: seq<string>)
    ensures ResolveMarks(s + [m], labels) == ResolveMarks(s, labels) + [ResolveMark(m, labels)]
  {
  }

  lemma {:induction false} WalkedSpecsAppend(s: seq<Spec>, x: Spec, labels: seq<string>)
    ensures WalkedSpecs(s + [x], labels) == WalkedSpecs(s, labels) + [WalkedSpec(x, labels)]
    ensures WalkedFocus(s + [x]) == WalkedFocus(s) + if x.focused then [WalkedName(x)] else []
  {
    assert (s + [x])[..|s|] == s;
  }

  lemma {:induction false} WalkedGroupsAppend(s: seq<Group>, g: Group, labels: seq<string>)
    ensures WalkedGroups(s + [g], labels) == WalkedGroups(s, labels) + [WalkedGroup(g, labels)]
  {
  }

  lemma {:induction false} NamesEntered(c: Context, labels: seq<string>, name: string, h: Hooks, n: nat)
    requires n < |labels| && (labels[n] == "" <==> name == "")
    ensures Named(Enter(c, name, n, h).names) == Pushed(Named(c.names), name, name)
    ensures PathOf(Enter(c, name, n, h).ids, labels) == Pushed(PathOf(c.ids, labels), name, labels[n])
  {
    NamedLast(c.names, name);
    assert (c.ids + [n])[..|c.ids|] == c.ids;
    assert name == "" ==> Named(c.names) + [] == Named(c.names) && PathOf(c.ids, labels) + [] == PathOf(c.ids, labels);
  }

  lemma {:induction false} HooksEntered(nodes: seq<Node>, parent: int, c: Context, id: nat, name: string, h: Hooks,
      n: nat)
    requires ParentsFirst(nodes) && id < |nodes| && nodes[id].row.parent == parent && nodes[id].hooks == h
    requires Chain(nodes, parent).before == c.before && Chain(nodes, parent).after == c.after
    ensures Chain(nodes, id).before == Enter(c, name, n, h).before
    ensures Chain(nodes, id).after == Enter(c, name, n, h).after
  {
  }

  /** The walk's own names for the node being visited. */
  lemma {:induction false} Entered(nodes: seq<Node>, parent: int, c: Context, labels: seq<string>, path: seq<string>,
      reportPath: seq<string>, id: nat, name: string, h: Hooks, n: nat)
    requires ParentsFirst(nodes) && Tracks(nodes, parent, c, labels, path, reportPath)
    requires id < |nodes| && nodes[id].row.parent == parent && nodes[id].hooks == h
    requires n < |labels| && (labels[n] == "" <==> name == "")
    ensures Tracks(nodes, id, Enter(c, name, n, h), labels, Pushed(path, name, name),
                   Pushed(reportPath, name, labels[n]))
  {
    hide Chain, ParentsFirst, Named, PathOf, Pushed, Enter;
    NamesEntered(c, labels, name, h, n);
    HooksEntered(nodes, parent, c, id, name, h, n);
  }

  lemma {:induction false} NodeFacts(nodes: seq<Node>, children: seq<seq<nat>>, labels: seq<string>, t: Tree,
      parent: int, id: nat,
      suite: seq<string>, n: nat)
    requires TreeAt(RowsOf(nodes), children, t, parent, id) && TreeFilled(nodes, t, id)
    requires TreeLabelled(labels, t, id, suite, n) && TreeKept(t, suite, n)
    ensures id < |nodes| && nodes[id].row == Row(parent, t.name, t.Scope?)
    ensures t.Leaf? ==> nodes[id].kind == t.kind && nodes[id].fn == t.body && nodes[id].hooks == NO_HOOKS
    ensures t.Scope? ==> nodes[id].hooks == t.hooks && id < |labels| && n < |suite| && labels[id] == suite[n]
    ensures t.Scope? ==> (suite[n] == "" <==> t.name == "") && ForestKept(t.kids, suite, n + 1)
    ensures t.Scope? ==> id < |children| && children[id] == Places(t.kids, id + 1, true)
    ensures t.Scope? ==> ForestAt(RowsOf(nodes), children, t.kids, id, id + 1) && ForestFilled(nodes, t.kids, id + 1)
    ensures t.Scope? ==> ForestLabelled(labels, t.kids, id + 1, suite, n + 1)
  {
  }

  function RunFrom(open: int): Option<nat> {
    if open < 0 then None else Some(open)
  }

  /** What the next sibling adds: a leaf may open or end a run, a group ends
      it. */
  function AddNext(t: Tree, c: Context, n: nat, focus: bool, b: Build): Build {
    match t
    case Leaf(kind, name, body) => AddLeaf(b, c, kind, name, body, focus)
    case Scope(name, h, kids) => AddScope(name, h, kids, c, n, focus, CloseRun(b))
  }

  lemma {:induction false} AddStep(f: Forest, c: Context, n: nat, focus: bool, b: Build)
    requires f.Grow?
    ensures var n' := n + if f.first.Scope? then 1 + Groups(f.first.kids) else 0;
            Add(f, c, n, focus, b) == Add(f.rest, c, n', focus, AddNext(f.first, c, n, focus, b))
  {
    hide AddScope, AddLeaf, CloseRun;
  }

  lemma {:induction false} NothingAdded(c: Context, n: nat, focus: bool, b: Build)
    ensures Add(Empty, c, n, focus, b) == b
  {
  }

  lemma {:induction false} NoRun(b: Build)
    requires b.open == None
    ensures b.open == RunFrom(-1)
  {
  }

  lemma {:induction false} RunEnded(b: Build, open: int)
    requires b.open == RunFrom(open)
    ensures open < 0 ==> CloseRun(b) == b
    ensures |CloseRun(b).plan.specs| == |b.plan.specs|
  {
  }

  lemma {:induction false} ScopeClosed(b: Build, c: Context, name: string, h: Hooks, start: nat)
    ensures CloseScope(b, c, name, h, start).plan == CloseGroup(CloseRun(b).plan, c, name, h, start)
  {
  }

  lemma {:induction false} SpecsCounted(p: Plan, labels: seq<string>)
    ensures |Walked(p, labels).specs| == |p.specs|
  {
  }

  lemma {:induction false} NextFilled(nodes: seq<Node>, labels: seq<string>, f: Forest, base: nat, suite: seq<string>,
      n: nat)
    requires f.Grow? && ForestFilled(nodes, f, base) && ForestLabelled(labels, f, base, suite, n)
    requires ForestKept(f, suite, n)
    ensures TreeFilled(nodes, f.first, base) && ForestFilled(nodes, f.rest, base + TreeSize(f.first))
    ensures TreeLabelled(labels, f.first, base, suite, n)
    ensures ForestLabelled(labels, f.rest, base + TreeSize(f.first), suite,
              n + if f.first.Scope? then 1 + Groups(f.first.kids) else 0)
    ensures TreeKept(f.first, suite, n)
    ensures ForestKept(f.rest, suite, n + if f.first.Scope? then 1 + Groups(f.first.kids) else 0)
  {
  }

  /** Visiting the next sibling, after ending the run when it is no part of it,
      adds what AddNext adds. */
  lemma {:induction false} NextAdded(t: Tree, c: Context, n: nat, focus: bool, b: Build, b0: Build, parallel: bool)
    requires parallel == (t.Leaf? && t.kind == Parallel)
    requires b0 == if parallel || b.open == None then b else CloseRun(b)
    ensures AddNext(t, c, n, focus, b).plan == AddTree(t, c, n, focus, b0.plan)
    ensures var grew := |AddTree(t, c, n, focus, b0.plan).specs| > |b0.plan.specs|;
            AddNext(t, c, n, focus, b).open
            == if parallel && grew && b0.open == None then Some(|b0.plan.specs|) else if t.Leaf? then b0.open else None
    ensures parallel ==> |AddTree(t, c, n, focus, b0.plan).specs| <= |b0.plan.specs| + 1
    ensures !parallel ==> b0.open == None
  {
    hide Add;
  }

  class ArenaWalk {
    const nodes: seq<Node>
    const children: seq<seq<nat>>
    const labels: seq<string>
    const hasFocus: bool
    ghost const suiteLabels: seq<string>
    var suite: Suite
    var path: seq<string>
    var reportPath: seq<string>

    constructor (nodes: seq<Node>, children: seq<seq<nat>>, labels: seq<string>, hasFocus: bool,
        ghost suiteLabels: seq<string>)
      ensures this.nodes == nodes && this.children == children && this.labels == labels && this.hasFocus == hasFocus
      ensures this.suiteLabels == suiteLabels && path == [] && reportPath == []
      ensures suite == Walked(NOTHING, suiteLabels)
    {
      this.nodes, this.children, this.labels, this.hasFocus := nodes, children, labels, hasFocus;
      this.suiteLabels := suiteLabels;
      suite, path, reportPath := Suite([], [], [], [], [], [], []), [], [];
    }

    /** A spec: its own name was pushed on both paths. */
    method VisitLeaf(id: nat, ghost c: Context, ghost parent: int, kind: Kind, name: string, body: Option<Fn>,
        ghost p: Plan, ghost scopes: seq<string>, ghost reportScopes: seq<string>)
      requires ParentsFirst(nodes) && id < |nodes| && nodes[id].row.parent == parent && nodes[id].hooks == NO_HOOKS
      requires path == Pushed(scopes, name, name) && reportPath == Pushed(reportScopes, name, name)
      requires Tracks(nodes, parent, c, suiteLabels, scopes, reportScopes) && suite == Walked(p, suiteLabels)
      modifies `suite
      ensures suite == Walked(AddSpec(p, c, kind, name, body, hasFocus), suiteLabels)
    {
      var scopes' := MarkScopes(reportPath, name);
      ghost var m := Mark(name, c.ids);
      if hasFocus && kind != Focus {
        ResolveMarksAppend(p.excluded, m, suiteLabels);
        suite := suite.(excluded := suite.excluded + [SuiteMark(name, scopes')]);
      } else if kind == Skip {
        ResolveMarksAppend(p.skipped, m, suiteLabels);
        suite := suite.(skipped := suite.skipped + [SuiteMark(name, scopes')]);
      } else if kind == Pending {
        ResolveMarksAppend(p.pending, m, suiteLabels);
        suite := suite.(pending := suite.pending + [SuiteMark(name, scopes')]);
      } else {
        EmitSpec(id, c, parent, kind, name, body, p, scopes, reportScopes);
      }
    }

    method EmitSpec(id: nat, ghost c: Context, ghost parent: int, kind: Kind, name: string, body: Option<Fn>,
        ghost p: Plan, ghost scopes: seq<string>, ghost reportScopes: seq<string>)
      requires ParentsFirst(nodes) && id < |nodes| && nodes[id].row.parent == parent && nodes[id].hooks == NO_HOOKS
      requires path == Pushed(scopes, name, name) && reportPath == Pushed(reportScopes, name, name)
      requires Tracks(nodes, parent, c, suiteLabels, scopes, reportScopes) && suite == Walked(p, suiteLabels)
      modifies `suite
      ensures suite == Walked(p.(specs := p.specs + [SpecOf(c, kind, name, body)]), suiteLabels)
    {
      NameOfWalk(c, kind, name, body);
      if kind == Focus { suite := suite.(focusedNames := suite.focusedNames + [JoinNames(path)]); }
      var before, after := GatherHooks(nodes, nodes[id].row.parent);
      before, after := before + nodes[id].hooks.before, after + nodes[id].hooks.after;
      assert before == c.before && after == c.after;
      var program := BuildProgram(before, body, after);
      WalkedSpecsAppend(p.specs, SpecOf(c, kind, name, body), suiteLabels);
      suite := suite.(specs := suite.specs +
          [SuiteSpec(name, JoinNames(path), program, MarkScopes(reportPath, name))]);
    }

    /** A node and everything under it. */
    method Visit(id: nat, ghost t: Tree, ghost parent: int, ghost c: Context, ghost n: nat, ghost p: Plan)
      requires ParentsFirst(nodes) && TreeAt(RowsOf(nodes), children, t, parent, id) && TreeFilled(nodes, t, id)
      requires TreeLabelled(labels, t, id, suiteLabels, n) && TreeKept(t, suiteLabels, n)
      requires Tracks(nodes, parent, c, suiteLabels, path, reportPath) && suite == Walked(p, suiteLabels)
      modifies `suite, `path, `reportPath
      ensures path == old(path) && reportPath == old(reportPath)
      ensures suite == Walked(AddTree(t, c, n, hasFocus, p), suiteLabels)
      decreases |nodes| - id, 1
    {
      var name := nodes[id].row.name;
      NodeFacts(nodes, children, labels, t, parent, id, suiteLabels, n);
      var l := if nodes[id].row.group && id < |labels| then labels[id] else name;
      var path', reportPath' := path, reportPath;
      path, reportPath := Pushed(path, name, name), Pushed(reportPath, name, l);
      if !nodes[id].row.group {
        VisitLeaf(id, c, parent, nodes[id].kind, name, nodes[id].fn, p, path', reportPath');
      } else {
        Entered(nodes, parent, c, suiteLabels, path', reportPath', id, name, t.hooks, n);
        VisitGroup(id, t, Enter(c, name, n, t.hooks), n, p);
      }
      path, reportPath := MarkScopes(path, name), MarkScopes(reportPath, name);
    }

    /** The run of parallel siblings that ends here, if one is open. */
    method EndRun(open: int, ghost b: Build)
      requires suite == Walked(b.plan, suiteLabels) && b.open == RunFrom(open)
      modifies `suite
      ensures suite == Walked(CloseRun(b).plan, suiteLabels)
    {
      if open >= 0 && open <= |suite.specs| - 1 {
        suite := suite.(parallel := suite.parallel + [Range(open, |suite.specs| - 1)]);
      }
    }

    /** One child of a group, with the run its siblings may have opened. */
    method VisitChild(cid: nat, open: int, ghost t: Tree, ghost parent: int, ghost c: Context, ghost n: nat,
        ghost b: Build)
      returns (open': int)
      requires ParentsFirst(nodes) && TreeAt(RowsOf(nodes), children, t, parent, cid) && TreeFilled(nodes, t, cid)
      requires TreeLabelled(labels, t, cid, suiteLabels, n) && TreeKept(t, suiteLabels, n)
      requires Tracks(nodes, parent, c, suiteLabels, path, reportPath)
      requires suite == Walked(b.plan, suiteLabels) && b.open == RunFrom(open)
      modifies `suite, `path, `reportPath
      ensures path == old(path) && reportPath == old(reportPath)
      ensures suite == Walked(AddNext(t, c, n, hasFocus, b).plan, suiteLabels)
      ensures AddNext(t, c, n, hasFocus, b).open == RunFrom(open')
      decreases |nodes| - cid, 2
    {
      NodeFacts(nodes, children, labels, t, parent, cid, suiteLabels, n);
      var wantParallel := !nodes[cid].row.group && nodes[cid].kind == Parallel;
      open' := open;
      ghost var b0 := b;
      if !wantParallel && open >= 0 {
        EndRun(open, b);
        open' := -1;
        b0 := CloseRun(b);
      }
      var before := |suite.specs|;
      hide *;
      Visit(cid, t, parent, c, n, b0.plan);
      NextAdded(t, c, n, hasFocus, b, b0, wantParallel);
      SpecsCounted(b0.plan, suiteLabels);
      SpecsCounted(AddTree(t, c, n, hasFocus, b0.plan), suiteLabels);
      if wantParallel && |suite.specs| > before && open' < 0 { open' := |suite.specs| - 1; }
    }

    /** A group: its children, then its own once-per-group hooks. */
    method VisitGroup(id: nat, ghost t: Tree, ghost c: Context, ghost n: nat, ghost p: Plan)
      requires ParentsFirst(nodes) && id < |nodes| == |children| && t.Scope? && nodes[id].hooks == t.hooks
      requires nodes[id].row.name == t.name
      requires children[id] == Places(t.kids, id + 1, true) && ForestAt(RowsOf(nodes), children, t.kids, id, id + 1)
      requires ForestFilled(nodes, t.kids, id + 1) && ForestLabelled(labels, t.kids, id + 1, suiteLabels, n + 1)
      requires ForestKept(t.kids, suiteLabels, n + 1)
      requires Tracks(nodes, id, c, suiteLabels, path, reportPath) && suite == Walked(p, suiteLabels)
      modifies `suite, `path, `reportPath
      ensures path == old(path) && reportPath == old(reportPath)
      ensures suite == Walked(CloseScope(Add(t.kids, c, n + 1, hasFocus, Build(p, None)), c, t.name, t.hooks,
          |p.specs|).plan,
                               suiteLabels)
      decreases |nodes| - id, 0
    {
      hide *;
      var start := |suite.specs|;
      SpecsCounted(p, suiteLabels);
      var kids := children[id];
      var open := -1;
      ghost var rest, base, k: nat, b := t.kids, id + 1, n + 1, Build(p, None);
      NoRun(b);
      var i := 0;
      while i < |kids|
        invariant 0 <= i <= |kids| && id < base && kids[i..] == Places(rest, base, true)
        invariant ForestAt(RowsOf(nodes), children, rest, id, base) && ForestFilled(nodes, rest, base)
        invariant ForestLabelled(labels, rest, base, suiteLabels, k) && ForestKept(rest, suiteLabels, k)
        invariant path == old(path) && reportPath == old(reportPath)
        invariant suite == Walked(b.plan, suiteLabels) && b.open == RunFrom(open)
        invariant Add(rest, c, k, hasFocus, b) == Add(t.kids, c, n + 1, hasFocus, Build(p, None))
      {
        NextKid(RowsOf(nodes), children, kids, i, rest, id, base);
        NextFilled(nodes, labels, rest, base, suiteLabels, k);
        AddStep(rest, c, k, hasFocus, b);
        open := VisitChild(kids[i], open, rest.first, id, c, k, b);
        b := AddNext(rest.first, c, k, hasFocus, b);
        k := k + if rest.first.Scope? then 1 + Groups(rest.first.kids) else 0;
        base, rest := base + TreeSize(rest.first), rest.rest;
        i := i + 1;
      }
      NoMore(rest, base);
      NothingAdded(c, k, hasFocus, b);
      if open >= 0 { EndRun(open, b); }
      RunEnded(b, open);
      CloseHooks(id, t, c, start, CloseRun(b).plan);
      ScopeClosed(b, c, t.name, t.hooks, start);
    }

    method CloseHooks(id: nat, ghost t: Tree, ghost c: Context, start: nat, ghost p: Plan)
      requires ParentsFirst(nodes) && id < |nodes| && t.Scope? && nodes[id].hooks == t.hooks
      requires nodes[id].row.name == t.name
      requires Tracks(nodes, id, c, suiteLabels, path, reportPath) && suite == Walked(p, suiteLabels)
      modifies `suite
      ensures suite == Walked(CloseGroup(p, c, t.name, t.hooks, start), suiteLabels)
    {
      var h := nodes[id].hooks;
      if |h.beforeAll| > 0 || |h.afterAll| > 0 {
        var end := |suite.specs| - 1;
        if start <= end {
          ghost var g := Group(c.names, c.ids, t.name, h.beforeAll, h.afterAll, start, end);
          var path' := if nodes[id].row.name == "" then path + [""] else path;
          var name := nodes[id].row.name;
          GroupWritten(nodes, id, c, suiteLabels, path, reportPath, g, path');
          GroupRegistered(p, c, t.name, h, start, suiteLabels);
          hide *;
          suite := suite.(groups := suite.groups
            + [SuiteGroup(path', reportPath, name, h.beforeAll, h.afterAll, start, end)]);
        }
      }
    }
  }

  lemma {:induction false} GroupWritten(nodes: seq<Node>, id: int, c: Context, labels: seq<string>, path: seq<string>,
      reportPath: seq<string>, g: Group, path': seq<string>)
    requires ParentsFirst(nodes) && Tracks(nodes, id, c, labels, path, reportPath)
    requires g.path == c.names && g.ids == c.ids && path' == if g.name == "" then path + [""] else path
    ensures WalkedGroup(g, labels) == SuiteGroup(path', reportPath, g.name, g.beforeAll, g.afterAll, g.first, g.last)
  {
    hide Chain, PathOf, Named;
  }

  lemma {:induction false} GroupRegistered(p: Plan, c: Context, name: string, h: Hooks, start: nat, labels: seq<string>)
    requires (h.beforeAll != [] || h.afterAll != []) && start < |p.specs|
    ensures var g := Group(c.names, c.ids, name, h.beforeAll, h.afterAll, start, |p.specs| - 1);
            Walked(CloseGroup(p, c, name, h, start), labels)
            == Walked(p, labels).(groups := Walked(p, labels).groups + [WalkedGroup(g, labels)])
  {
    var g := Group(c.names, c.ids, name, h.beforeAll, h.afterAll, start, |p.specs| - 1);
    WalkedGroupsAppend(p.groups, g, labels);
    hide WalkedGroup, WalkedSpecs, ResolveMarks, WalkedFocus;
  }
}
