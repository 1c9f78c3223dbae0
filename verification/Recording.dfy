/** Compiling while the suite is being declared: every call appends to the plan
    at once, knowing only the scopes open so far. */
module Recordings {
  import opened Options
  import opened Declarations
  import opened Plans
  import opened ScopeTables

  /** A scope whose callback is still running. start is the place its first spec
      takes; sealed says whether it has a spec or nested scope. */
  datatype Open = Open(name: string, id: nat, hooks: Hooks, sealed: bool, start: nat)

  datatype Recorder = Recorder(stack: seq<Open>, table: seq<Row>, build: Build)

  datatype Outcome = Fine(r: Recorder) | Panicked(hook: LateHook)

  function ContextOf(stack: seq<Open>): Context {
    if stack == [] then TOP
    else
      var top := stack[|stack| - 1];
      Enter(ContextOf(stack[..|stack| - 1]), top.name, top.id, top.hooks)
  }

  function Top(r: Recorder): Open
    requires r.stack != []
  {
    r.stack[|r.stack| - 1]
  }

  function WithTop(r: Recorder, top: Open): Recorder
    requires r.stack != []
  {
    r.(stack := r.stack[..|r.stack| - 1] + [top])
  }

  function Seal(r: Recorder): Recorder {
    if r.stack == [] then r else WithTop(r, Top(r).(sealed := true))
  }

  function PushScope(r: Recorder, name: string): Recorder {
    var s := Seal(r);
    var id, parent := |r.table|, if r.stack == [] then -1 else Top(r).id;
    Recorder(s.stack + [Open(name, id, Hooks([], [], [], []), false, |r.build.plan.specs|)],
      r.table + [Row(parent, name, true)], CloseRun(r.build))
  }

  function PopScope(r: Recorder): Recorder
    requires r.stack != []
  {
    var top := Top(r);
    r.(stack := r.stack[..|r.stack| - 1],
       build := CloseScope(r.build, ContextOf(r.stack), top.name, top.hooks, top.start))
  }

  function RecordLeaf(r: Recorder, kind: Kind, name: string, body: Option<Fn>): Recorder {
    Seal(r).(build := AddLeaf(r.build, ContextOf(r.stack), kind, name, body, false))
  }

  function RecordHook(r: Recorder, c: Call): Outcome
    requires r.stack != []
  {
    var top := Top(r);
    match c
    case BeforeEach(Some(fn)) =>
      if top.sealed then Panicked(LateBefore)
      else Fine(WithTop(r, top.(hooks := top.hooks.(before := top.hooks.before + [fn]))))
    case AfterEach(Some(fn)) =>
      if top.sealed then Panicked(LateAfter)
      else Fine(WithTop(r, top.(hooks := top.hooks.(after := top.hooks.after + [fn]))))
    case BeforeAll(Some(fn)) => Fine(WithTop(r, top.(hooks := top.hooks.(beforeAll := top.hooks.beforeAll + [fn]))))
    case AfterAll(Some(fn)) => Fine(WithTop(r, top.(hooks := top.hooks.(afterAll := top.hooks.afterAll + [fn]))))
    case _ => Fine(r)
  }

  /** The calls of a callback, one after the other. */
  function Record(r: Recorder, s: Script): Outcome
    requires r.stack != []
    ensures Record(r, s).Fine? ==> |Record(r, s).r.stack| == |r.stack|
    decreases s
  {
    match s
    case Done => Fine(r)
    case Then(It(kind, name, body), rest) =>
      if kind == Focus && body.None? then Record(r, rest) else Record(RecordLeaf(r, kind, name, body), rest)
    case Then(Describe(_, None), rest) => Record(r, rest)
    case Then(Describe(name, Some(inner)), rest) => (
      match Record(PushScope(r, name), inner)
      case Panicked(h) => Panicked(h)
      case Fine(r') => Record(PopScope(r'), rest))
    case Then(c, rest) => (
      match RecordHook(r, c)
      case Panicked(h) => Panicked(h)
      case Fine(r') => Record(r', rest))
  }

  // ---- What was recorded is the plan of the tree ----

  function MoreHooks(h: Hooks, g: Hooks): Hooks {
    Hooks(h.before + g.before, h.after + g.after, h.beforeAll + g.beforeAll, h.afterAll + g.afterAll)
  }

  /** The open scopes once a callback has made all its calls. */
  function End(r: Recorder, s: Script): (end: seq<Open>)
    requires r.stack != []
    ensures |end| == |r.stack|
  {
    var top := Top(r);
    WithTop(r, top.(hooks := MoreHooks(top.hooks, HooksOf(s)), sealed := top.sealed || ForestOf(s) != Empty)).stack
  }

  /** The recorder then. */
  function Recorded(r: Recorder, s: Script): Recorder
    requires r.stack != []
  {
    Recorder(End(r, s), r.table + Rows(ForestOf(s), Top(r).id, |r.table|, false),
      Add(ForestOf(s), ContextOf(End(r, s)), |r.table|, false, r.build))
  }

  lemma {:induction false} ContextOfTop(below: seq<Open>, top: Open)
    ensures ContextOf(below + [top]) == Enter(ContextOf(below), top.name, top.id, top.hooks)
  {
    assert (below + [top])[..|below|] == below;
  }

  /** A scope's context depends on its per-spec hooks alone. */
  lemma {:induction false} SameContext(r: Recorder, g: Hooks, sealed: bool)
    requires r.stack != [] && g.before == [] && g.after == []
    ensures ContextOf(WithTop(r, Top(r).(hooks := MoreHooks(Top(r).hooks, g), sealed := sealed)).stack)
              == ContextOf(r.stack)
  {
    var below := r.stack[..|r.stack| - 1];
    ContextOfTop(below, Top(r));
    ContextOfTop(below, Top(r).(hooks := MoreHooks(Top(r).hooks, g), sealed := sealed));
    assert below + [Top(r)] == r.stack;
    assert Top(r).hooks.before + g.before == Top(r).hooks.before && Top(r).hooks.after + g.after == Top(r).hooks.after;
  }

  lemma {:induction false} RecordedDone(r: Recorder)
    requires r.stack != []
    ensures Recorded(r, Done) == r
  {
    var h := Top(r).hooks;
    assert MoreHooks(h, HooksOf(Done)) == h;
    assert WithTop(r, Top(r)).stack == r.stack;
  }

  lemma {:induction false} EndAfterHook(r: Recorder, c: Call, rest: Script)
    requires r.stack != [] && !Registers(c) && RecordHook(r, c).Fine?
    ensures var r' := RecordHook(r, c).r;
            && r'.stack != [] && End(r', rest) == End(r, Then(c, rest))
            && Top(r').sealed == Top(r).sealed && Top(r').id == Top(r).id
            && r'.table == r.table && r'.build == r.build
  {
    var r' := RecordHook(r, c).r;
    assert MoreHooks(Top(r').hooks, HooksOf(rest)) == MoreHooks(Top(r).hooks, HooksOf(Then(c, rest)));
    assert r'.stack[..|r'.stack| - 1] == r.stack[..|r.stack| - 1];
    hide HooksOf, MoreHooks, RecordHook;
  }

  lemma {:induction false} RecordedHook(r: Recorder, c: Call, rest: Script)
    requires r.stack != [] && !Registers(c) && RecordHook(r, c).Fine?
    ensures RecordHook(r, c).r.stack != []
    ensures Recorded(RecordHook(r, c).r, rest) == Recorded(r, Then(c, rest))
    ensures Top(RecordHook(r, c).r).sealed == Top(r).sealed
  {
    EndAfterHook(r, c, rest);
    hide Add, Rows, ContextOf, End, RecordHook;
  }

  lemma {:induction false} RecordedLeaf(r: Recorder, kind: Kind, name: string, body: Option<Fn>, rest: Script)
    requires r.stack != [] && Registers(It(kind, name, body)) && Late(rest, true).None?
    ensures Recorded(RecordLeaf(r, kind, name, body), rest) == Recorded(r, Then(It(kind, name, body), rest))
  {
    var c := It(kind, name, body);
    var r' := RecordLeaf(r, kind, name, body);
    NoHooksOnceBegun(rest);
    SameContext(r, HooksOf(rest), true);
    assert HooksOf(Then(c, rest)) == HooksOf(rest);
    assert r'.stack[..|r'.stack| - 1] == r.stack[..|r.stack| - 1];
    assert Rows(ForestOf(Then(c, rest)), Top(r).id, |r.table|, false)
              == Rows(ForestOf(rest), Top(r).id, |r.table|, false);
    hide Rows, HooksOf, ContextOf, Late, AddLeaf;
  }

  lemma {:induction false} PopTop(below: seq<Open>, top: Open, table: seq<Row>, build: Build)
    ensures var c := Enter(ContextOf(below), top.name, top.id, top.hooks);
            PopScope(Recorder(below + [top], table, build))
            == Recorder(below, table, CloseScope(build, c, top.name, top.hooks, top.start))
  {
    ContextOfTop(below, top);
    assert (below + [top])[..|below|] == below;
    hide CloseScope, ContextOf, Enter;
  }

  /** The new scope on top of the stack once its callback has made its calls. */
  lemma {:induction false} EndOfScope(r: Recorder, name: string, inner: Script) returns (top: Open)
    requires r.stack != []
    ensures top.name == name && top.id == |r.table| && top.hooks == HooksOf(inner) && top.start == |r.build.plan.specs|
    ensures PushScope(r, name).stack != []
    ensures End(PushScope(r, name), inner) == Seal(r).stack + [top]
  {
    var p, h := PushScope(r, name), HooksOf(inner);
    assert p.stack[..|p.stack| - 1] == Seal(r).stack;
    assert MoreHooks(Top(p).hooks, h) == h;
    top := Top(p).(hooks := h, sealed := Top(p).sealed || ForestOf(inner) != Empty);
    hide HooksOf, Seal, MoreHooks;
  }

  lemma {:induction false} PushedFacts(r: Recorder, name: string)
    requires r.stack != []
    ensures var p := PushScope(r, name);
            && p.stack != [] && Top(p).id == |r.table|
            && p.table == r.table + [Row(Top(r).id, name, true)] && p.build == CloseRun(r.build)
  {
  }

  lemma {:induction false} RecordedIs(r: Recorder, s: Script)
    requires r.stack != []
    ensures Recorded(r, s) == Recorder(End(r, s), r.table + Rows(ForestOf(s), Top(r).id, |r.table|, false),
                                Add(ForestOf(s), ContextOf(End(r, s)), |r.table|, false, r.build))
  {
  }

  lemma {:induction false} ScopeIs(name: string, h: Hooks, kids: Forest, c: Context, parent: int, table: seq<Row>,
      focus: bool, b: Build)
    ensures var inner := Enter(c, name, |table|, h);
            AddScope(name, h, kids, c, |table|, focus, CloseRun(b))
            == CloseScope(Add(kids, inner, |table| + 1, focus, CloseRun(b)), inner, name, h, |b.plan.specs|)
    ensures table + TreeRows(Scope(name, h, kids), parent, |table|, false)
            == (table + [Row(parent, name, true)]) + Rows(kids, |table|, |table| + 1, false)
  {
    hide Add, CloseScope, Rows;
  }

  /** A nested scope's callback: from opening the scope to closing it. */
  lemma {:induction false} RecordedScope(r: Recorder, name: string, inner: Script)
    requires r.stack != []
    ensures var r' := Recorded(PushScope(r, name), inner);
            && r'.stack != []
            && PopScope(r') == Recorder(Seal(r).stack,
                 r.table + TreeRows(Scope(name, HooksOf(inner), ForestOf(inner)), Top(r).id, |r.table|, false),
                 AddScope(name, HooksOf(inner), ForestOf(inner), ContextOf(Seal(r).stack), |r.table|, false,
                     CloseRun(r.build)))
  {
    hide *;
    var p, below := PushScope(r, name), Seal(r).stack;
    PushedFacts(r, name);
    var top := EndOfScope(r, name, inner);
    RecordedIs(p, inner);
    ContextOfTop(below, top);
    var r' := Recorded(p, inner);
    PopTop(below, top, r'.table, r'.build);
    ScopeIs(name, HooksOf(inner), ForestOf(inner), ContextOf(below), Top(r).id, r.table, false, r.build);
  }

  lemma {:induction false} EndAfterDescribe(r: Recorder, r': Recorder, name: string, inner: Script, rest: Script)
    requires r.stack != [] && r'.stack == Seal(r).stack && Late(rest, true).None?
    ensures r'.stack != [] && Top(r').sealed && Top(r').id == Top(r).id
    ensures End(r', rest) == End(r, Then(Describe(name, Some(inner)), rest))
    ensures ContextOf(End(r', rest)) == ContextOf(Seal(r).stack)
  {
    NoHooksOnceBegun(rest);
    SameContext(Seal(r), HooksOf(rest), true);
    assert HooksOf(Then(Describe(name, Some(inner)), rest)) == HooksOf(rest);
    assert r'.stack[..|r'.stack| - 1] == r.stack[..|r.stack| - 1];
    hide ContextOf, HooksOf, Late;
  }

  lemma {:induction false} TableAfterDescribe(table: seq<Row>, parent: nat, name: string, inner: Script, rest: Script)
    ensures var first := TreeRows(Scope(name, HooksOf(inner), ForestOf(inner)), parent, |table|, false);
            && |first| == 1 + Groups(ForestOf(inner))
            && (table + first) + Rows(ForestOf(rest), parent, |table + first|, false)
               == table + Rows(ForestOf(Then(Describe(name, Some(inner)), rest)), parent, |table|, false)
  {
    RowPerGroup(ForestOf(inner), |table|, |table| + 1);
    var first := TreeRows(Scope(name, HooksOf(inner), ForestOf(inner)), parent, |table|, false);
    var more := Rows(ForestOf(rest), parent, |table + first|, false);
    assert (table + first) + more == table + (first + more);
  }

  lemma {:induction false} AddIs(f: Forest, c: Context, id: nat, b: Build, c': Context, id': nat, b': Build)
    requires f.Grow? && f.first.Scope? && c' == c && id' == id + 1 + Groups(f.first.kids)
    requires b' == AddScope(f.first.name, f.first.hooks, f.first.kids, c, id, false, CloseRun(b))
    ensures Add(f, c, id, false, b) == Add(f.rest, c', id', false, b')
  {
    hide AddScope;
  }

  lemma {:induction false} RecordedDescribe(r: Recorder, name: string, inner: Script, rest: Script)
    requires r.stack != [] && Late(rest, true).None?
    ensures var r' := Recorded(PushScope(r, name), inner);
            && r'.stack != [] && PopScope(r').stack != [] && Top(PopScope(r')).sealed
            && Recorded(PopScope(r'), rest) == Recorded(r, Then(Describe(name, Some(inner)), rest))
  {
    var whole := Then(Describe(name, Some(inner)), rest);
    assert ForestOf(whole) == Grow(Scope(name, HooksOf(inner), ForestOf(inner)), ForestOf(rest));
    hide *;
    RecordedScope(r, name, inner);
    var r' := PopScope(Recorded(PushScope(r, name), inner));
    EndAfterDescribe(r, r', name, inner, rest);
    TableAfterDescribe(r.table, Top(r).id, name, inner, rest);
    RecordedIs(r', rest);
    RecordedIs(r, whole);
    AddIs(ForestOf(whole), ContextOf(End(r, whole)), |r.table|, r.build, ContextOf(End(r', rest)), |r'.table|,
      r'.build);
  }

  /** Recording a callback either panics at its first late hook, or leaves the
      plan of the tree it declares. */
  lemma {:induction false} RecordMeans(r: Recorder, s: Script)
    requires r.stack != []
    ensures Record(r, s)
              == match Late(s, Top(r).sealed) { case Some(h) => Panicked(h) case None => Fine(Recorded(r, s)) }
    decreases s, 0
  {
    hide Recorded, RecordLeaf, PopScope, HooksOf, ForestOf;
    match s
    case Done => RecordedDone(r);
    case Then(It(kind, name, body), rest) =>
      if kind == Focus && body.None? {
        RecordMeans(r, rest);
        RecordedHook(r, s.call, rest);
      } else {
        LeafSeals(r, kind, name, body);
        RecordMeans(RecordLeaf(r, kind, name, body), rest);
        if Late(rest, true).None? { RecordedLeaf(r, kind, name, body, rest); }
      }
    case Then(Describe(_, None), rest) =>
      RecordMeans(r, rest);
      RecordedHook(r, s.call, rest);
    case Then(Describe(name, Some(inner)), rest) =>
      RecordMeans(PushScope(r, name), inner);
      if Late(inner, false).None? { RecordMeansDescribe(r, name, inner, rest); }
    case Then(c, rest) =>
      if RecordHook(r, c).Fine? {
        RecordedHook(r, c, rest);
        RecordMeans(RecordHook(r, c).r, rest);
      }
  }

  lemma {:induction false} LeafSeals(r: Recorder, kind: Kind, name: string, body: Option<Fn>)
    requires r.stack != []
    ensures var r' := RecordLeaf(r, kind, name, body); r'.stack != [] && Top(r').sealed
  {
  }

  lemma {:induction false} RecordMeansDescribe(r: Recorder, name: string, inner: Script, rest: Script)
    requires r.stack != [] && Late(inner, false).None?
    ensures var r' := Recorded(PushScope(r, name), inner);
            && r'.stack != [] && PopScope(r').stack != []
            && Record(PopScope(r'), rest)
               == match Late(rest, true) {
                    case Some(h) => Panicked(h)
                    case None => Fine(Recorded(r, Then(Describe(name, Some(inner)), rest)))
                  }
    decreases rest, 1
  {
    RecordedScope(r, name, inner);
    var r' := Recorded(PushScope(r, name), inner);
    assert PopScope(r').stack == Seal(r).stack;
    assert Top(PopScope(r')).sealed;
    hide *;
    RecordMeans(PopScope(r'), rest);
    if Late(rest, true).None? { RecordedDescribe(r, name, inner, rest); }
  }

  // ---- A whole suite ----

  const FRESH := Recorder([], [], Build(NOTHING, None))

  /** Recording a top-level Describe: its scope is opened, its callback called,
      and the plan taken, which closes the scope. */
  function RecordSuite(name: string, s: Script): Outcome {
    match Record(PushScope(FRESH, name), s)
    case Panicked(h) => Panicked(h)
    case Fine(r) => Fine(PopScope(r))
  }

  /** What recording a suite leaves: the plan of its tree, and its scopes. */
  lemma {:induction false} SuiteRecorded(name: string, s: Script)
    ensures match RecordSuite(name, s) {
              case Panicked(h) => Late(s, false) == Some(h)
              case Fine(r) =>
                && Late(s, false) == None
                && r.build.plan == PlanOf(name, HooksOf(s), ForestOf(s), false)
                && r.table == [Row(-1, name, true)] + Rows(ForestOf(s), 0, 1, false)
            }
  {
    var p := PushScope(FRESH, name);
    RecordMeans(p, s);
    if Late(s, false).None? { SuiteEnds(name, s); }
    hide PlanOf, Rows, HooksOf, Recorded, PopScope, Record;
  }

  lemma {:induction false} FirstScope(name: string, s: Script) returns (top: Open)
    ensures var p := PushScope(FRESH, name);
            && p.stack != [] && Top(p).id == 0 && p.table == [Row(-1, name, true)] && p.build == Build(NOTHING, None)
            && End(p, s) == [] + [top]
    ensures top.name == name && top.id == 0 && top.hooks == HooksOf(s) && top.start == 0
    ensures ContextOf([]) == TOP
  {
    var p, h := PushScope(FRESH, name), HooksOf(s);
    assert MoreHooks(Top(p).hooks, h) == h;
    top := End(p, s)[0];
    hide HooksOf;
  }

  lemma {:induction false} SuiteEnds(name: string, s: Script)
    ensures var r := Recorded(PushScope(FRESH, name), s);
            && r.stack != []
            && PopScope(r).build.plan == PlanOf(name, HooksOf(s), ForestOf(s), false)
            && PopScope(r).table == [Row(-1, name, true)] + Rows(ForestOf(s), 0, 1, false)
  {
    hide *;
    var p := PushScope(FRESH, name);
    var top := FirstScope(name, s);
    RecordedIs(p, s);
    ContextOfTop([], top);
    var r := Recorded(p, s);
    PopTop([], top, r.table, r.build);
    PlanIs(name, HooksOf(s), ForestOf(s));
  }

  lemma {:induction false} PlanIs(name: string, h: Hooks, kids: Forest)
    ensures var c := Enter(TOP, name, 0, h);
            PlanOf(name, h, kids, false)
            == CloseScope(Add(kids, c, 1, false, Build(NOTHING, None)), c, name, h, 0).plan
  {
    hide Add, CloseScope;
  }
}
