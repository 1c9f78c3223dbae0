/** Building a suite into an arena: one array of nodes, each with its parent and
    its children, and a stack of the nodes being declared into. */
module Arenas {
  import opened Options
  import opened Declarations
  import opened Plans
  import opened ScopeTables
  import opened Recordings
  import opened BytecodeCompilers
  import Sequences

  datatype ArenaNode = ArenaNode(name: string, parent: int, group: bool, kind: Kind, fn: Option<Fn>)

  /** A node with the hooks registered on it. */
  datatype Node = Node(row: Row, kind: Kind, fn: Option<Fn>, hooks: Hooks)

  const NO_HOOKS := Hooks([], [], [], [])

  function TreeNodes(t: Tree, parent: int, base: nat): seq<Node>
    decreases t, 0
  {
    match t
    case Leaf(kind, name, body) => [Node(Row(parent, name, false), kind, body, NO_HOOKS)]
    case Scope(name, h, kids) => [Node(Row(parent, name, true), Normal, None, h)] + ForestNodes(kids, base, base + 1)
  }

  /** The nodes of a forest under parent, in the order declared. */
  function ForestNodes(f: Forest, parent: int, base: nat): seq<Node>
    decreases f, 0
  {
    match f
    case Empty => []
    case Grow(t, rest) =>
      var first := TreeNodes(t, parent, base);
      first + ForestNodes(rest, parent, base + |first|)
  }

  function RowsOf(s: seq<Node>): (r: seq<Row>)
    ensures |r| == |s| && forall i :: 0 <= i < |s| ==> r[i] == s[i].row
  {
    seq(|s|, i requires 0 <= i < |s| => s[i].row)
  }

  lemma {:induction false} RowsOfTree(t: Tree, parent: int, base: nat)
    ensures RowsOf(TreeNodes(t, parent, base)) == TreeRows(t, parent, base, true)
    decreases t, 0
  {
    if t.Scope? { RowsOfForest(t.kids, base, base + 1); }
  }

  lemma {:induction false} RowsOfForest(f: Forest, parent: int, base: nat)
    ensures RowsOf(ForestNodes(f, parent, base)) == Rows(f, parent, base, true)
    decreases f, 0
  {
    if f.Grow? {
      RowsOfTree(f.first, parent, base);
      RowsOfForest(f.rest, parent, base + |TreeNodes(f.first, parent, base)|);
    }
  }

  /** The nodes with more hooks on node id. */
  function Hooked(nodes: seq<Node>, id: nat, h: Hooks): (s: seq<Node>)
    requires id < |nodes|
    ensures |s| == |nodes|
  {
    nodes[id := nodes[id].(hooks := MoreHooks(nodes[id].hooks, h))]
  }

  ghost predicate ChildrenMatch(nodes: seq<Node>, children: seq<seq<nat>>) {
    |children| == |nodes| && forall id :: 0 <= id < |nodes| ==> children[id] == Kids(RowsOf(nodes), id, 0)
  }

  ghost predicate ParentsFirst(nodes: seq<Node>) {
    forall id :: 0 <= id < |nodes| ==> nodes[id].row.parent < id
  }

  function NodeOf(n: ArenaNode, h: Hooks): Node {
    Node(Row(n.parent, n.name, n.group), n.kind, n.fn, h)
  }

  function NodesOf(nodes: seq<ArenaNode>, before: seq<seq<Fn>>, after: seq<seq<Fn>>, groupBefore: seq<seq<Fn>>,
      groupAfter: seq<seq<Fn>>): (s: seq<Node>)
    requires |before| == |after| == |nodes|
    ensures |s| == |nodes|
    ensures forall i :: 0 <= i < |s| ==>
              s[i] == NodeOf(nodes[i], Hooks(before[i], after[i], At(groupBefore, i), At(groupAfter, i)))
  {
    seq(|nodes|, i requires 0 <= i < |nodes| =>
      NodeOf(nodes[i], Hooks(before[i], after[i], At(groupBefore, i), At(groupAfter, i))))
  }

  class Registry {
    var nodes: seq<ArenaNode>
    var children: seq<seq<nat>>
    var before: seq<seq<Fn>>
    var after: seq<seq<Fn>>
    /** Once-per-group hooks by node, only as far as the last node with any. */
    var groupBefore: seq<seq<Fn>>
    var groupAfter: seq<seq<Fn>>
    var stack: seq<nat>

    ghost predicate Sized()
      reads this
    {
      |children| == |before| == |after| == |nodes| && |groupBefore| <= |nodes| && |groupAfter| <= |nodes|
    }

    ghost function Nodes(): (s: seq<Node>)
      reads this
      requires Sized()
      ensures |s| == |nodes|
    {
      NodesOf(nodes, before, after, groupBefore, groupAfter)
    }

    ghost predicate Valid()
      reads this
    {
      && Sized() && stack != [] && (forall i :: 0 <= i < |stack| ==> stack[i] < |nodes|)
      && ChildrenMatch(Nodes(), children) && ParentsFirst(Nodes())
    }

    ghost function Top(): (id: nat)
      reads this
      requires Valid()
      ensures id < |nodes|
    {
      stack[|stack| - 1]
    }

    /** Whether the innermost node has a spec or nested scope. */
    ghost predicate Begun()
      reads this
      requires Valid()
    {
      children[Top()] != []
    }

    constructor ()
      ensures Valid() && stack == [0] && Nodes() == [Node(Row(-1, "suite", true), Normal, None, NO_HOOKS)]
    {
      nodes, children := [ArenaNode("suite", -1, true, Normal, None)], [[]];
      before, after, groupBefore, groupAfter, stack := [[]], [[]], [], [], [0];
    }

    method CurrentNodeID() returns (id: nat)
      requires Valid()
      ensures id == Top()
    {
      id := stack[|stack| - 1];
    }

    method EnterNode(group: bool, name: string, kind: Kind, fn: Option<Fn>) returns (id: nat)
      requires Valid()
      modifies this
      ensures Valid() && id == old(|nodes|) && stack == old(stack) + [id]
      ensures Nodes() == old(Nodes()) + [Node(Row(old(Top()), name, group), kind, fn, NO_HOOKS)]
      ensures !Begun() && children[old(Top())] != []
    {
      var parent := CurrentNodeID();
      id := |nodes|;
      ghost var was, row := Nodes(), Row(parent, name, group);
      nodes := nodes + [ArenaNode(name, parent, group, kind, fn)];
      children := children + [[]];
      before, after := before + [[]], after + [[]];
      children := children[parent := children[parent] + [id]];
      stack := stack + [id];
      assert Nodes() == was + [Node(row, kind, fn, NO_HOOKS)];
      ChildAdded(was, Node(row, kind, fn, NO_HOOKS), old(children), children);
    }

    method LeaveNode()
      requires Valid()
      modifies `stack
      ensures Valid() && stack == if |old(stack)| > 1 then old(stack)[..|old(stack)| - 1] else old(stack)
    {
      if |stack| > 1 { stack := stack[..|stack| - 1]; }
    }

    /** A hook on the innermost node; a per-spec hook that comes late panics. */
    method AppendHook(c: Call) returns (late: Option<LateHook>)
      requires Valid() && !Registers(c)
      modifies `before, `after, `groupBefore, `groupAfter
      ensures late == Late(Then(c, Done), old(Begun()))
      ensures late.None? ==> Valid() && Nodes() == Hooked(old(Nodes()), old(Top()), HooksOf(Then(c, Done)))
    {
      late := None;
      var id := CurrentNodeID();
      ghost var was := Nodes();
      OneHook(was[id].hooks, c);
      match c {
        case BeforeEach(Some(fn)) =>
          if |children[id]| > 0 { return Some(LateBefore); }
          before := before[id := before[id] + [fn]];
        case AfterEach(Some(fn)) =>
          if |children[id]| > 0 { return Some(LateAfter); }
          after := after[id := after[id] + [fn]];
        case BeforeAll(Some(fn)) => groupBefore := AppendAt(groupBefore, id, fn);
        case AfterAll(Some(fn)) => groupAfter := AppendAt(groupAfter, id, fn);
        case _ =>
      }
      assert Nodes() == Hooked(was, id, HooksOf(Then(c, Done)));
      HookedInShape(was, id, HooksOf(Then(c, Done)), children);
    }

    /** Calls a callback with a handle on the innermost node. */
    method Call(s: Script) returns (late: Option<LateHook>)
      requires Valid()
      modifies this
      ensures late == Late(s, old(Begun()))
      ensures late.None? ==> Valid() && stack == old(stack)
      ensures late.None? ==> Declared(old(Nodes()), old(Top()), s, Nodes())
      ensures late.None? ==> (Begun() <==> old(Begun()) || ForestOf(s) != Empty)
      decreases s, 3
    {
      hide ChildrenMatch, ParentsFirst, ForestNodes, Hooked, TreeNodes, NodesOf, HooksOf, ForestOf, Late, MoreHooks,
        TreeOf, Declared;
      ghost var was, top, begun := Nodes(), Top(), Begun();
      match s
      case Done =>
        late := None;
        NothingHooked(was, top);
        NothingLate(begun);
      case Then(It(kind, name, body), rest) =>
        if kind != Focus || body.Some? {
          RegistersThenRest(It(kind, name, body), rest, begun);
          late := CallLeaf(kind, name, body, rest);
        } else {
          SkippedThenRest(was, top, It(kind, name, body), rest, begun);
          late := Call(rest);
        }
      case Then(Describe(name, None), rest) =>
        SkippedThenRest(was, top, Describe(name, None), rest, begun);
        late := Call(rest);
      case Then(Describe(name, Some(inner)), rest) =>
        RegistersThenRest(Describe(name, Some(inner)), rest, begun);
        late := CallScope(name, inner, rest, s);
      case Then(c, rest) =>
        HookIsLate(c, rest, begun);
        late := AppendHook(c);
        if late.Some? { return; }
        ghost var mid := Nodes();
        late := Call(rest);
        if late.None? { HookThenRest(was, mid, Nodes(), top, c, rest); }
    }

    method CallLeaf(kind: Kind, name: string, body: Option<Fn>, rest: Script) returns (late: Option<LateHook>)
      requires Valid() && Registers(It(kind, name, body))
      modifies this
      ensures late == Late(rest, true)
      ensures late.None? ==> Valid() && stack == old(stack) && Begun()
      ensures late.None? ==> Declared(old(Nodes()), old(Top()), Then(It(kind, name, body), rest), Nodes())
      decreases rest, 4
    {
      ghost var was, top := Nodes(), Top();
      ghost var first := TreeNodes(Leaf(kind, name, body), top, |was|);
      assert first == [Node(Row(top, name, false), kind, body, NO_HOOKS)];
      assert TreeOf(It(kind, name, body)) == Leaf(kind, name, body);
      hide ChildrenMatch, ParentsFirst, HooksOf, ForestNodes, Hooked, TreeNodes, NodesOf, ForestOf, Late, MoreHooks,
        TreeOf;
      var id := EnterNode(false, name, kind, body);
      LeaveNode();
      late := Call(rest);
      if late.None? {
        TreeThenRest(was, top, It(kind, name, body), rest, first, ForestNodes(ForestOf(rest), top, |was + first|),
          Nodes());
      }
    }

    method CallScope(name: string, inner: Script, rest: Script, ghost s: Script) returns (late: Option<LateHook>)
      requires Valid() && s == Then(Describe(name, Some(inner)), rest)
      modifies this
      ensures late == Late(s, old(Begun()))
      ensures late.None? ==> Valid() && stack == old(stack) && Begun()
      ensures late.None? ==> Declared(old(Nodes()), old(Top()), s, Nodes())
      decreases s, 2
    {
      ghost var was, top := Nodes(), Top();
      late := CallNested(name, inner);
      if late.Some? { return; }
      ghost var first := TreeNodes(Scope(name, HooksOf(inner), ForestOf(inner)), top, |was|);
      late := Call(rest);
      if late.None? {
        TreeThenRest(was, top, Describe(name, Some(inner)), rest, first, ForestNodes(ForestOf(rest), top,
            |was + first|),
          Nodes());
      }
    }

    /** A nested Describe, from entering its node to leaving it. */
    method CallNested(name: string, inner: Script) returns (late: Option<LateHook>)
      requires Valid()
      modifies this
      ensures late == Late(inner, false)
      ensures late.None? ==> Valid() && stack == old(stack) && Begun()
      ensures late.None? ==>
                Nodes() == old(Nodes()) +
                  TreeNodes(Scope(name, HooksOf(inner), ForestOf(inner)), old(Top()), |old(Nodes())|)
      decreases inner, 4
    {
      hide ChildrenMatch, ParentsFirst, HooksOf, ForestNodes, Hooked, TreeNodes, NodesOf, ForestOf, Late;
      ghost var was, top := Nodes(), Top();
      var id := EnterNode(true, name, Normal, None);
      ghost var entered := Nodes();
      late := Call(inner);
      if late.Some? { return; }
      ghost var h, kids := HooksOf(inner), ForestNodes(ForestOf(inner), |was|, |was| + 1);
      ScopeEntered(was, top, name, inner, entered, kids);
      LeaveNode();
      NestedBegun(was, top, name, inner, Nodes(), children);
    }
  }

  /** now is was with what the calls s declare under node top. */
  ghost predicate Declared(was: seq<Node>, top: nat, s: Script, now: seq<Node>) {
    top < |was| && now == Hooked(was, top, HooksOf(s)) + ForestNodes(ForestOf(s), top, |was|)
  }

  lemma {:induction false} OneHook(h: Hooks, c: Call)
    ensures MoreHooks(h, HooksOf(Then(c, Done))) == match c {
              case BeforeEach(Some(fn)) => h.(before := h.before + [fn])
              case AfterEach(Some(fn)) => h.(after := h.after + [fn])
              case BeforeAll(Some(fn)) => h.(beforeAll := h.beforeAll + [fn])
              case AfterAll(Some(fn)) => h.(afterAll := h.afterAll + [fn])
              case _ => h
            }
  {
    assert h.before + [] == h.before && h.after + [] == h.after;
    assert h.beforeAll + [] == h.beforeAll && h.afterAll + [] == h.afterAll;
    match c
    case BeforeEach(Some(fn)) => assert [fn] + [] == [fn];
    case AfterEach(Some(fn)) => assert [fn] + [] == [fn];
    case BeforeAll(Some(fn)) => assert [fn] + [] == [fn];
    case AfterAll(Some(fn)) => assert [fn] + [] == [fn];
    case _ =>
  }

  lemma {:induction false} HookedInShape(nodes: seq<Node>, id: nat, h: Hooks, children: seq<seq<nat>>)
    requires id < |nodes| && ChildrenMatch(nodes, children) && ParentsFirst(nodes)
    ensures ChildrenMatch(Hooked(nodes, id, h), children) && ParentsFirst(Hooked(nodes, id, h))
  {
    SameRows(nodes, Hooked(nodes, id, h));
  }

  lemma {:induction false} NothingHooked(nodes: seq<Node>, id: nat)
    requires id < |nodes|
    ensures Declared(nodes, id, Done, nodes)
  {
    var h := nodes[id].hooks;
    assert MoreHooks(h, NO_HOOKS) == h;
  }

  lemma {:induction false} GrowNodes(t: Tree, rest: Forest, parent: int, base: nat, first: seq<Node>, more: seq<Node>)
    requires first == TreeNodes(t, parent, base) && more == ForestNodes(rest, parent, base + |first|)
    ensures ForestNodes(Grow(t, rest), parent, base) == first + more
  {
  }

  /** A declared leaf or scope, and then the rest of the callback. */
  lemma {:induction false} TreeThenRest(was: seq<Node>, top: nat, c: Call, rest: Script, first: seq<Node>,
      more: seq<Node>, now: seq<Node>)
    requires top < |was| && Registers(c) && first == TreeNodes(TreeOf(c), top, |was|)
    requires more == ForestNodes(ForestOf(rest), top, |was + first|)
    requires now == Hooked(was + first, top, HooksOf(rest)) + more
    ensures now == Hooked(was, top, HooksOf(Then(c, rest))) + ForestNodes(ForestOf(Then(c, rest)), top, |was|)
  {
    assert HooksOf(Then(c, rest)) == HooksOf(rest);
    assert ForestOf(Then(c, rest)) == Grow(TreeOf(c), ForestOf(rest));
    hide *;
    GrowNodes(TreeOf(c), ForestOf(rest), top, |was|, first, more);
    HookedBefore(was, first, top, HooksOf(rest), more);
  }

  lemma {:induction false} HookedBefore(was: seq<Node>, more: seq<Node>, top: nat, h: Hooks, rest: seq<Node>)
    requires top < |was|
    ensures Hooked(was + more, top, h) + rest == Hooked(was, top, h) + (more + rest)
  {
    assert Hooked(was + more, top, h) == Hooked(was, top, h) + more;
  }

  /** The nodes of a nested scope once its callback has made its calls. */
  lemma {:induction false} ScopeEntered(was: seq<Node>, top: nat, name: string, inner: Script, entered: seq<Node>,
      kids: seq<Node>)
    requires entered == was + [Node(Row(top, name, true), Normal, None, NO_HOOKS)]
    requires kids == ForestNodes(ForestOf(inner), |was|, |was| + 1)
    ensures Hooked(entered, |was|, HooksOf(inner)) + kids
            == was + TreeNodes(Scope(name, HooksOf(inner), ForestOf(inner)), top, |was|)
  {
    var n, h := Node(Row(top, name, true), Normal, None, NO_HOOKS), HooksOf(inner);
    assert MoreHooks(NO_HOOKS, h) == h;
    assert Hooked(entered, |was|, h) == was + [n.(hooks := h)];
    assert TreeNodes(Scope(name, h, ForestOf(inner)), top, |was|) == [n.(hooks := h)] + kids;
    hide *;
    Sequences.Grouped(was, [n.(hooks := h)], kids);
  }

  lemma {:induction false} NestedBegun(was: seq<Node>, top: nat, name: string, inner: Script, nodes: seq<Node>,
      children: seq<seq<nat>>)
    requires top < |was| && ChildrenMatch(nodes, children)
    requires nodes == was + TreeNodes(Scope(name, HooksOf(inner), ForestOf(inner)), top, |was|)
    ensures top < |children| && children[top] != []
  {
    assert nodes[|was|] == TreeNodes(Scope(name, HooksOf(inner), ForestOf(inner)), top, |was|)[0];
    HasKid(RowsOf(nodes), |was|, 0);
  }

  /** A row under p is one of p's children. */
  lemma {:induction false} HasKid(rows: seq<Row>, id: nat, off: nat)
    requires id < |rows|
    ensures Kids(rows, rows[id].parent, off) != []
  {
    if id > 0 { HasKid(rows[1..], id - 1, off + 1); }
  }

  lemma {:induction false} HookThenRest(was: seq<Node>, mid: seq<Node>, now: seq<Node>, top: nat, c: Call, rest: Script)
    requires top < |was| && !Registers(c) && mid == Hooked(was, top, HooksOf(Then(c, Done)))
    requires Declared(mid, top, rest, now)
    ensures Declared(was, top, Then(c, rest), now)
  {
    var h := was[top].hooks;
    OneHook(h, c);
    assert MoreHooks(MoreHooks(h, HooksOf(Then(c, Done))), HooksOf(rest)) == MoreHooks(h, HooksOf(Then(c, rest)));
    assert ForestOf(Then(c, rest)) == ForestOf(rest);
    hide HooksOf, MoreHooks, ForestNodes, ForestOf;
    assert Hooked(mid, top, HooksOf(rest)) == Hooked(was, top, HooksOf(Then(c, rest)));
  }

  lemma {:induction false} HookIsLate(c: Call, rest: Script, begun: bool)
    requires !c.It? && !c.Describe?
    ensures Late(Then(c, rest), begun)
              == if Late(Then(c, Done), begun).Some? then Late(Then(c, Done), begun) else Late(rest, begun)
    ensures ForestOf(Then(c, rest)) == ForestOf(rest)
  {
  }

  lemma {:induction false} NothingLate(begun: bool)
    ensures Late(Done, begun) == None && ForestOf(Done) == Empty
  {
  }

  lemma {:induction false} RegistersThenRest(c: Call, rest: Script, begun: bool)
    requires Registers(c)
    ensures ForestOf(Then(c, rest)) != Empty
    ensures c.It? ==> Late(Then(c, rest), begun) == Late(rest, true)
  {
  }

  /** A call that registers nothing. */
  lemma {:induction false} SkippedThenRest(was: seq<Node>, top: nat, c: Call, rest: Script, begun: bool)
    requires !Registers(c) && (c.It? || c.Describe?)
    ensures Late(Then(c, rest), begun) == Late(rest, begun) && ForestOf(Then(c, rest)) == ForestOf(rest)
    ensures forall now :: Declared(was, top, rest, now) ==> Declared(was, top, Then(c, rest), now)
  {
    assert HooksOf(Then(c, rest)) == HooksOf(rest) && ForestOf(Then(c, rest)) == ForestOf(rest);
    hide ForestNodes, Hooked;
  }

  lemma {:induction false} SameRows(a: seq<Node>, b: seq<Node>)
    requires |a| == |b| && forall i :: 0 <= i < |a| ==> a[i].row == b[i].row
    ensures RowsOf(a) == RowsOf(b)
  {
  }

  lemma {:induction false} ChildAdded(was: seq<Node>, n: Node, children: seq<seq<nat>>, children': seq<seq<nat>>)
    requires ChildrenMatch(was, children) && ParentsFirst(was) && 0 <= n.row.parent < |was|
    requires children' == (children + [[]])[n.row.parent := children[n.row.parent] + [|was|]]
    ensures ChildrenMatch(was + [n], children')
  {
    var all := was + [n];
    assert RowsOf(all) == RowsOf(was) + [n.row];
    forall id | 0 <= id < |all| ensures children'[id] == Kids(RowsOf(all), id, 0) {
      KidsAppend(RowsOf(was), [n.row], id, 0);
      if id == |was| { NoKids(RowsOf(was), id, 0); }
    }
  }
}
