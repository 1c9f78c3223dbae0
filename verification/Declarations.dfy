/** What a suite declares: the calls its Describe callback makes, and the tree
    those calls mean. */
module Declarations {
  import opened Options

  /** A function the suite passes in. */
  type Fn = nat

  datatype Kind = Normal | Focus | Skip | Pending | Parallel

  datatype Call =
    | BeforeEach(fn: Option<Fn>)
    | AfterEach(fn: Option<Fn>)
    | BeforeAll(fn: Option<Fn>)
    | AfterAll(fn: Option<Fn>)
    | It(kind: Kind, name: string, body: Option<Fn>)
    | Describe(name: string, callback: Option<Script>)

  /** The calls of one callback, in order. */
  datatype Script = Done | Then(call: Call, rest: Script)

  datatype Hooks = Hooks(before: seq<Fn>, after: seq<Fn>, beforeAll: seq<Fn>, afterAll: seq<Fn>)

  datatype Tree =
    | Leaf(kind: Kind, name: string, body: Option<Fn>)
    | Scope(name: string, hooks: Hooks, kids: Forest)

  datatype Forest = Empty | Grow(first: Tree, rest: Forest)

  /** A nil callback registers nothing; It, SkipIt, PendingIt and ItParallel
      register their name all the same. */
  predicate Registers(c: Call) {
    match c
    case It(kind, _, body) => kind != Focus || body.Some?
    case Describe(_, callback) => callback.Some?
    case _ => false
  }

  function Opt(fn: Option<Fn>): seq<Fn> {
    match fn
    case None => []
    case Some(f) => [f]
  }

  function HooksOf(s: Script): Hooks {
    match s
    case Done => Hooks([], [], [], [])
    case Then(c, rest) =>
      var h := HooksOf(rest);
      match c
      case BeforeEach(fn) => h.(before := Opt(fn) + h.before)
      case AfterEach(fn) => h.(after := Opt(fn) + h.after)
      case BeforeAll(fn) => h.(beforeAll := Opt(fn) + h.beforeAll)
      case AfterAll(fn) => h.(afterAll := Opt(fn) + h.afterAll)
      case _ => h
  }

  function ForestOf(s: Script): Forest {
    match s
    case Done => Empty
    case Then(c, rest) => if Registers(c) then Grow(TreeOf(c), ForestOf(rest)) else ForestOf(rest)
  }

  function TreeOf(c: Call): Tree
    requires Registers(c)
  {
    match c
    case It(kind, name, body) => Leaf(kind, name, body)
    case Describe(name, Some(s)) => Scope(name, HooksOf(s), ForestOf(s))
  }

  datatype LateHook = LateBefore | LateAfter

  /** The first per-spec hook registered after a spec or nested scope of its own
      scope; registering it panics. begun says whether this scope has one yet. */
  function Late(s: Script, begun: bool): Option<LateHook> {
    match s
    case Done => None
    case Then(BeforeEach(Some(_)), rest) => if begun then Some(LateBefore) else Late(rest, begun)
    case Then(AfterEach(Some(_)), rest) => if begun then Some(LateAfter) else Late(rest, begun)
    case Then(Describe(_, Some(body)), rest) =>
      if Late(body, false).Some? then Late(body, false) else Late(rest, true)
    case Then(c, rest) => Late(rest, begun || Registers(c))
  }

  /** Once a scope has begun, a run without late hooks adds no per-spec hooks. */
  lemma {:induction false} NoHooksOnceBegun(s: Script)
    requires Late(s, true).None?
    ensures HooksOf(s).before == [] && HooksOf(s).after == []
  {
    if s.Then? { NoHooksOnceBegun(s.rest); }
  }

  /** Every spec and every group has a name. */
  predicate AllNamed(f: Forest) {
    match f
    case Empty => true
    case Grow(t, rest) => TreeNamed(t) && AllNamed(rest)
  }

  predicate TreeNamed(t: Tree) {
    t.name != "" && (t.Scope? ==> AllNamed(t.kids))
  }

  predicate HasFocus(f: Forest) {
    f.Grow? && (TreeHasFocus(f.first) || HasFocus(f.rest))
  }

  predicate TreeHasFocus(t: Tree) {
    match t
    case Leaf(kind, _, _) => kind == Focus
    case Scope(_, _, kids) => HasFocus(kids)
  }

  function GroupNames(f: Forest): seq<string> {
    match f
    case Empty => []
    case Grow(t, rest) => (if t.Scope? then [t.name] else []) + GroupNames(rest)
  }

  /** The number of groups. */
  function Groups(f: Forest): nat {
    match f
    case Empty => 0
    case Grow(t, rest) => (if t.Scope? then 1 + Groups(t.kids) else 0) + Groups(rest)
  }
}
