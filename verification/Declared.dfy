/** What a suite's callback declares, told by its calls alone: every spec with the
    scopes around it, in order, and every scope once it is complete. */
module DeclaredSuites {
  import opened Options
  import opened Declarations
  import opened Plans
  import opened Suites

  /** A Describe: its number in the order declared, and the calls it makes. */
  datatype Around = Around(name: string, id: nat, body: Script)

  /** An It: the scopes around it, outermost first, and how many specs and scopes
      its own scope declared before it. */
  datatype Spot = Spot(kind: Kind, name: string, body: Option<Fn>, around: seq<Around>, turn: nat)

  datatype Hook = EachBefore | EachAfter | AllBefore | AllAfter

  function FnOf(c: Call, k: Hook): seq<Fn> {
    match (k, c)
    case (EachBefore, BeforeEach(Some(fn))) => [fn]
    case (EachAfter, AfterEach(Some(fn))) => [fn]
    case (AllBefore, BeforeAll(Some(fn))) => [fn]
    case (AllAfter, AfterAll(Some(fn))) => [fn]
    case _ => []
  }

  /** The hooks of one kind a callback registers. */
  function HooksIn(s: Script, k: Hook): seq<Fn> {
    if s.Done? then [] else FnOf(s.call, k) + HooksIn(s.rest, k)
  }

  /** The scopes inside. */
  function Scopes(s: Script): nat {
    match s
    case Done => 0
    case Then(Describe(_, Some(inner)), rest) => 1 + Scopes(inner) + Scopes(rest)
    case Then(_, rest) => Scopes(rest)
  }

  /** Specs and scopes of the callback itself. */
  function Turns(s: Script): nat {
    match s
    case Done => 0
    case Then(It(kind, _, body), rest) => (if kind == Focus && body.None? then 0 else 1) + Turns(rest)
    case Then(Describe(_, Some(_)), rest) => 1 + Turns(rest)
    case Then(_, rest) => Turns(rest)
  }

  /** Every It, in order; only a focused one without a body is no spec. */
  function Spots(s: Script, around: seq<Around>, id: nat, turn: nat): seq<Spot>
    decreases s
  {
    match s
    case Done => []
    case Then(It(kind, name, body), rest) =>
      if kind == Focus && body.None? then Spots(rest, around, id, turn)
      else [Spot(kind, name, body, around, turn)] + Spots(rest, around, id, turn + 1)
    case Then(Describe(name, Some(inner)), rest) =>
      Spots(inner, around + [Around(name, id, inner)], id + 1, 0) +
      Spots(rest, around, id + 1 + Scopes(inner), turn + 1)
    case Then(_, rest) => Spots(rest, around, id, turn)
  }

  /** Every scope, in the order they are complete, as the chain of scopes down to
      it. */
  function Closed(s: Script, around: seq<Around>, id: nat): seq<seq<Around>>
    decreases s
  {
    match s
    case Done => []
    case Then(Describe(name, Some(inner)), rest) =>
      var chain := around + [Around(name, id, inner)];
      Closed(inner, chain, id + 1) + [chain] + Closed(rest, around, id + 1 + Scopes(inner))
    case Then(_, rest) => Closed(rest, around, id)
  }

  /** A whole suite is one Describe. */
  function Whole(name: string, s: Script): Script {
    Then(Describe(name, Some(s)), Done)
  }

  function AllSpots(name: string, s: Script): seq<Spot> {
    Spots(Whole(name, s), [], 0, 0)
  }

  function AllScopes(name: string, s: Script): seq<seq<Around>> {
    Closed(Whole(name, s), [], 0)
  }

  function Where(spots: seq<Spot>, f: Spot -> bool): seq<Spot> {
    if spots == [] then [] else (if f(spots[0]) then [spots[0]] else []) + Where(spots[1..], f)
  }

  /** Which specs run: with a focus, the focused ones. */
  function Runs(focus: bool): Spot -> bool {
    (d: Spot) => if focus then d.kind == Focus else d.kind != Skip && d.kind != Pending
  }

  function IsKind(kind: Kind, focus: bool): Spot -> bool {
    (d: Spot) => d.kind == kind && !focus
  }

  function LosesFocus(focus: bool): Spot -> bool {
    (d: Spot) => focus && d.kind != Focus
  }

  function Names(around: seq<Around>): (r: seq<string>)
    ensures |r| == |around|
  {
    seq(|around|, i requires 0 <= i < |around| => around[i].name)
  }

  function Ids(around: seq<Around>): (r: seq<nat>)
    ensures |r| == |around|
  {
    seq(|around|, i requires 0 <= i < |around| => around[i].id)
  }

  // ---- What a spec of the suite has to show ----

  /** The room names take, each with a "/" behind it; empty ones take none. */
  function Width(names: seq<string>): nat {
    if names == [] then 0
    else
      var last := names[|names| - 1];
      Width(names[..|names| - 1]) + if last == "" then 0 else |last| + 1
  }

  ghost predicate AtPlace(full: string, at: nat, part: string) {
    at + |part| <= |full| && full[at..at + |part|] == part
  }

  /** The full name of a spec: the names of its scopes, each followed by a "/",
      and its own. */
  ghost predicate Breadcrumb(full: string, names: seq<string>, leaf: string) {
    && |full| == Width(names) + |leaf| && AtPlace(full, Width(names), leaf)
    && forall i :: 0 <= i < |names| && names[i] != "" ==> AtPlace(full, Width(names[..i]), names[i] + "/")
  }

  function InOrder(fns: seq<Fn>): (r: seq<Instr>)
    ensures |r| == |fns|
  {
    if fns == [] then [] else [BeforeHook(fns[0])] + InOrder(fns[1..])
  }

  function InReverse(fns: seq<Fn>): (r: seq<Instr>)
    ensures |r| == |fns|
  {
    if fns == [] then [] else InReverse(fns[1..]) + [AfterHook(fns[0])]
  }

  /** A spec's program: the hooks of each scope around those of the scopes inside
      it, the after hooks in reverse, and the body in the middle. */
  ghost predicate Nested(program: seq<Instr>, around: seq<Around>, body: Option<Fn>)
    decreases |around|
  {
    if around == [] then program == if body.Some? then [Body(body.value)] else []
    else
      var before, after := HooksIn(around[0].body, EachBefore), HooksIn(around[0].body, EachAfter);
      && |before| + |after| <= |program|
      && program[..|before|] == InOrder(before) && program[|program| - |after|..] == InReverse(after)
      && Nested(program[|before|..|program| - |after|], around[1..], body)
  }

  ghost predicate SpecIs(x: Spec, d: Spot) {
    && x.name == d.name && x.ids == Ids(d.around) && (x.focused <==> d.kind == Focus)
    && Breadcrumb(x.fullName, Names(d.around), d.name) && Nested(x.program, d.around, d.body)
  }

  ghost predicate SpecsAre(specs: seq<Spec>, spots: seq<Spot>) {
    |specs| == |spots| && forall i :: 0 <= i < |specs| ==> SpecIs(specs[i], spots[i])
  }

  function MarkFor(d: Spot): Mark {
    Mark(d.name, Ids(d.around))
  }

  function MarksFor(spots: seq<Spot>): (r: seq<Mark>)
    ensures |r| == |spots|
  {
    seq(|spots|, i requires 0 <= i < |spots| => MarkFor(spots[i]))
  }

  // ---- Parallel runs and groups ----

  /** Parallel specs declared one right after the other, in one scope. */
  predicate Neighbours(d: Spot, e: Spot) {
    d.kind == Parallel && e.kind == Parallel && d.around == e.around && d.turn + 1 == e.turn
  }

  /** Specs first..last are neighbours all along. */
  ghost predicate IsRun(spots: seq<Spot>, first: nat, last: int) {
    && first <= last < |spots| && spots[first].kind == Parallel
    && forall i :: first <= i < last ==> Neighbours(spots[i], spots[i + 1])
  }

  /** The runs are those of neighbours, as long as they can be, in order; and every
      parallel spec is in one. */
  ghost predicate RunsAreNeighbours(runs: seq<Range>, spots: seq<Spot>) {
    && (forall r :: 0 <= r < |runs| ==> IsRun(spots, runs[r].first, runs[r].last))
    && (forall r, q :: 0 <= r < q < |runs| ==> runs[r].last < runs[q].first)
    && (forall i :: 0 <= i < |spots| && spots[i].kind == Parallel ==> InRun(runs, i))
    && (forall r :: 0 <= r < |runs| && runs[r].last + 1 < |spots| ==>
          !Neighbours(spots[runs[r].last], spots[runs[r].last + 1]))
  }

  ghost predicate InRun(runs: seq<Range>, i: nat) {
    exists r :: 0 <= r < |runs| && runs[r].first <= i <= runs[r].last
  }

  predicate HasGroupHooks(s: Script) {
    HooksIn(s, AllBefore) != [] || HooksIn(s, AllAfter) != []
  }

  predicate IsInside(chain: seq<Around>, d: Spot) {
    chain <= d.around
  }

  /** The group of a scope: its hooks, and the specs inside it. */
  ghost predicate GroupIs(g: Group, chain: seq<Around>, spots: seq<Spot>) {
    && chain != [] && g.path == Names(chain) && g.ids == Ids(chain) && g.name == chain[|chain| - 1].name
    && g.beforeAll == HooksIn(chain[|chain| - 1].body, AllBefore)
    && g.afterAll == HooksIn(chain[|chain| - 1].body, AllAfter)
    && g.first <= g.last < |spots|
    && forall i :: 0 <= i < |spots| ==> (g.first <= i <= g.last <==> IsInside(chain, spots[i]))
  }

  /** A scope has a group exactly when it has hooks of its own and a spec runs
      inside it. */
  ghost predicate Grouped(chain: seq<Around>, spots: seq<Spot>) {
    chain != [] && HasGroupHooks(chain[|chain| - 1].body) && exists i :: 0 <= i < |spots| && IsInside(chain, spots[i])
  }

  ghost predicate GroupsAre(groups: seq<Group>, scopes: seq<seq<Around>>, spots: seq<Spot>) {
    && |groups| == |GroupedOf(scopes, spots)|
    && forall i :: 0 <= i < |groups| ==> GroupIs(groups[i], GroupedOf(scopes, spots)[i], spots)
  }

  ghost function GroupedOf(scopes: seq<seq<Around>>, spots: seq<Spot>): seq<seq<Around>> {
    if scopes == [] then []
    else
      GroupedOf(scopes[..|scopes| - 1], spots) +
      if Grouped(scopes[|scopes| - 1], spots) then [scopes[|scopes| - 1]] else []
  }

  /** A plan has just what was declared. */
  ghost predicate PlanDeclares(p: Plan, spots: seq<Spot>, scopes: seq<seq<Around>>, focus: bool) {
    var running := Where(spots, Runs(focus));
    && SpecsAre(p.specs, running) && RunsAreNeighbours(p.parallel, running) && GroupsAre(p.groups, scopes, running)
    && p.skipped == MarksFor(Where(spots, IsKind(Skip, focus)))
    && p.pending == MarksFor(Where(spots, IsKind(Pending, focus)))
    && multiset(p.excluded) == multiset(MarksFor(Where(spots, LosesFocus(focus))))
  }

  // ---- What a whole suite shows ----

  /** The labels of a chain of scopes; a scope without one adds nothing. */
  function Route(chain: seq<Around>, labels: seq<string>): seq<string> {
    if chain == [] then []
    else
      var id := chain[|chain| - 1].id;
      Route(chain[..|chain| - 1], labels) + if id < |labels| && labels[id] != "" then [labels[id]] else []
  }

  /** full is the breadcrumb of a spec; clipped, it has lost the "/" behind the
      scopes of a spec without a name. */
  ghost predicate FullNameIs(full: string, d: Spot, clipped: bool) {
    Breadcrumb(if clipped && d.name == "" && full != "" then full + "/" else full, Names(d.around), d.name)
  }

  ghost predicate ShowsSpec(x: SuiteSpec, d: Spot, labels: seq<string>, clipped: bool) {
    && x.name == d.name && FullNameIs(x.fullName, d, clipped) && Nested(x.program, d.around, d.body)
    && x.path == Route(d.around, labels)
  }

  ghost predicate ShowsGroup(g: SuiteGroup, chain: seq<Around>, spots: seq<Spot>, labels: seq<string>) {
    && chain != [] && g.path == Named(Names(chain)) && g.reportPath == Route(chain, labels)
    && g.name == chain[|chain| - 1].name
    && g.beforeAll == HooksIn(chain[|chain| - 1].body, AllBefore)
    && g.afterAll == HooksIn(chain[|chain| - 1].body, AllAfter)
    && g.first <= g.last < |spots|
    && forall i :: 0 <= i < |spots| ==> (g.first <= i <= g.last <==> IsInside(chain, spots[i]))
  }

  function ShownMarks(spots: seq<Spot>, labels: seq<string>): (r: seq<SuiteMark>)
    ensures |r| == |spots|
  {
    seq(|spots|, i requires 0 <= i < |spots| => SuiteMark(spots[i].name, Route(spots[i].around, labels)))
  }

  /** A suite shows just what was declared: the specs that run, in order, each
      under its full name, with its hooks and under its labels; a group for every
      scope with hooks of its own and specs; the longest runs of neighbouring
      parallel specs; and everything else as skipped, pending or excluded. */
  ghost predicate SuiteIs(suite: Suite, spots: seq<Spot>, scopes: seq<seq<Around>>, focus: bool, labels: seq<string>,
      clipped: bool)
  {
    var running := Where(spots, Runs(focus));
    && |suite.specs| == |running|
    && (forall i :: 0 <= i < |running| ==> ShowsSpec(suite.specs[i], running[i], labels, clipped))
    && |suite.groups| == |GroupedOf(scopes, running)|
    && (forall i :: 0 <= i < |suite.groups| ==>
          ShowsGroup(suite.groups[i], GroupedOf(scopes, running)[i], running, labels))
    && RunsAreNeighbours(suite.parallel, running)
    && suite.skipped == ShownMarks(Where(spots, IsKind(Skip, focus)), labels)
    && suite.pending == ShownMarks(Where(spots, IsKind(Pending, focus)), labels)
    && multiset(suite.excluded) == multiset(ShownMarks(Where(spots, LosesFocus(focus)), labels))
    && |suite.focusedNames| == (if focus then |running| else 0)
    && forall i :: 0 <= i < |suite.focusedNames| ==> suite.focusedNames[i] == suite.specs[i].fullName
  }

  /** A suite is focused when some spec is. */
  ghost predicate AnyFocused(spots: seq<Spot>) {
    exists i :: 0 <= i < |spots| && spots[i].kind == Focus
  }
}
