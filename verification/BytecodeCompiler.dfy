/** The compiler that emits instructions while the suite is declared. */
module BytecodeCompilers {
  import opened Options
  import opened Declarations
  import opened Plans
  import opened ScopeTables
  import opened Recordings

  /** The flat plan: spec i's program and enclosing scopes are windows of two
      shared arrays. */
  datatype Code = Code(
    instructions: seq<Instr>, programStart: seq<nat>, programLen: seq<nat>, names: seq<string>, fullNames: seq<string>,
    scopeIDs: seq<nat>, idStart: seq<nat>, idLen: seq<nat>)

  ghost predicate InBounds(start: seq<nat>, len: seq<nat>, n: nat, size: nat) {
    && |start| == |len| == n
    && forall i :: 0 <= i < n ==> start[i] + len[i] <= size
  }

  ghost predicate WindowsFit(c: Code) {
    && |c.fullNames| == |c.names|
    && InBounds(c.programStart, c.programLen, |c.names|, |c.instructions|)
    && InBounds(c.idStart, c.idLen, |c.names|, |c.scopeIDs|)
  }

  ghost function SpecAt(c: Code, focus: seq<nat>, i: nat): Spec
    requires WindowsFit(c) && i < |c.names|
  {
    Spec(c.names[i], c.fullNames[i], c.instructions[c.programStart[i]..c.programStart[i] + c.programLen[i]],
      c.scopeIDs[c.idStart[i]..c.idStart[i] + c.idLen[i]], i in focus)
  }

  /** The specs of a flat plan, those with a place in focus being focused. */
  ghost function SpecsOf(c: Code, focus: seq<nat>): (s: seq<Spec>)
    requires WindowsFit(c)
    ensures |s| == |c.names| && forall i :: 0 <= i < |s| ==> s[i] == SpecAt(c, focus, i)
  {
    seq(|c.names|, i requires 0 <= i < |c.names| => SpecAt(c, focus, i))
  }

  ghost predicate Ascending(s: seq<nat>, n: nat) {
    (forall i :: 0 <= i < |s| ==> s[i] < n) && (forall i, j :: 0 <= i < j < |s| ==> s[i] < s[j])
  }

  function At(hooks: seq<seq<Fn>>, depth: nat): seq<Fn> {
    if depth < |hooks| then hooks[depth] else []
  }

  datatype OpenScope = OpenScope(name: string, before: seq<Fn>, after: seq<Fn>, sealed: bool, start: nat, id: nat)

  ghost function OpenOf(s: OpenScope, beforeAll: seq<Fn>, afterAll: seq<Fn>): Open {
    Open(s.name, s.id, Hooks(s.before, s.after, beforeAll, afterAll), s.sealed, s.start)
  }

  ghost function StackOf(scopes: seq<OpenScope>, before: seq<seq<Fn>>, after: seq<seq<Fn>>): (s: seq<Open>)
    ensures |s| == |scopes| && forall i :: 0 <= i < |s| ==> s[i] == OpenOf(scopes[i], At(before, i), At(after, i))
  {
    seq(|scopes|, i requires 0 <= i < |scopes| => OpenOf(scopes[i], At(before, i), At(after, i)))
  }

  function Run(start: int): Option<nat> {
    if start < 0 then None else Some(start)
  }

  /** A scope just opened has no hooks. */
  lemma {:induction false} StackGrows(scopes: seq<OpenScope>, before: seq<seq<Fn>>, after: seq<seq<Fn>>, s: OpenScope)
    requires |before| <= |scopes| && |after| <= |scopes|
    ensures StackOf(scopes + [s], before, after) == StackOf(scopes, before, after) + [OpenOf(s, [], [])]
  {
  }

  /** Only the innermost scope is another. */
  lemma {:induction false} TopChanged(scopes: seq<OpenScope>, before: seq<seq<Fn>>, after: seq<seq<Fn>>, top: OpenScope,
      before': seq<seq<Fn>>, after': seq<seq<Fn>>)
    requires scopes != []
    requires forall d :: 0 <= d && d != |scopes| - 1 ==>
              At(before', d) == At(before, d) && At(after', d) == At(after, d)
    ensures var n := |scopes|;
            StackOf(scopes[..n - 1] + [top], before', after')
            == StackOf(scopes, before, after)[..n - 1] + [OpenOf(top, At(before', n - 1), At(after', n - 1))]
  {
    hide At;
  }

  lemma {:induction false} SealKeepsTop(r: Recorder)
    ensures |Seal(r).stack| == |r.stack| && Seal(r).table == r.table && Seal(r).build == r.build
    ensures r.stack != [] ==> Top(Seal(r)).id == Top(r).id
    ensures forall b :: Seal(r.(build := b)) == Seal(r).(build := b)
  {
  }

  // ---- Appending a spec ----

  /** One more spec at the end of a flat plan. */
  ghost predicate Appends(c: Code, d: Code, name: string, fullName: string, program: seq<Instr>, ids: seq<nat>) {
    && WindowsFit(c) && WindowsFit(d)
    && d.names == c.names + [name] && d.fullNames == c.fullNames + [fullName]
    && c.instructions <= d.instructions && c.scopeIDs <= d.scopeIDs
    && c.programStart <= d.programStart && c.programLen <= d.programLen
    && c.idStart <= d.idStart && c.idLen <= d.idLen
    && var n := |c.names|;
       && d.instructions[d.programStart[n]..d.programStart[n] + d.programLen[n]] == program
       && d.scopeIDs[d.idStart[n]..d.idStart[n] + d.idLen[n]] == ids
  }

  /** The earlier windows still hold what they held. */
  lemma {:induction false} SpecsAppend(c: Code, d: Code, focus: seq<nat>, name: string, fullName: string,
      program: seq<Instr>, ids: seq<nat>)
    requires Appends(c, d, name, fullName, program, ids) && Ascending(focus, |c.names|)
    ensures SpecsOf(d, focus) == SpecsOf(c, focus) + [Spec(name, fullName, program, ids, false)]
  {
    var n := |c.names|;
    forall i | 0 <= i < n ensures SpecAt(d, focus, i) == SpecAt(c, focus, i) {
      assert d.instructions[..|c.instructions|] == c.instructions;
      assert d.scopeIDs[..|c.scopeIDs|] == c.scopeIDs;
    }
  }

  lemma {:induction false} FocusLast(c: Code, focus: seq<nat>, s: seq<Spec>, x: Spec)
    requires WindowsFit(c) && Ascending(focus, |s|) && SpecsOf(c, focus) == s + [x]
    ensures SpecsOf(c, focus + [|s|]) == s + [x.(focused := true)] && Ascending(focus + [|s|], |s| + 1)
  {
    var f := focus + [|s|];
    forall i | 0 <= i < |s| ensures SpecAt(c, f, i) == s[i] {
      assert SpecsOf(c, focus)[i] == s[i];
    }
    assert SpecsOf(c, focus)[|s|] == x;
  }

  /** The window of n of the ids at start, as in a flat plan. */
  method AppendIDs(c: Code, ids: seq<nat>) returns (scopeIDs: seq<nat>, start: nat)
    requires WindowsFit(c)
    ensures c.scopeIDs <= scopeIDs && start + |ids| <= |scopeIDs| && scopeIDs[start..start + |ids|] == ids
  {
    hide *;
    scopeIDs := c.scopeIDs;
    if |ids| <= |scopeIDs| && scopeIDs[|scopeIDs| - |ids|..] == ids {
      start := |scopeIDs| - |ids|;
      assert scopeIDs[start..|scopeIDs|] == scopeIDs[start..];
    } else {
      start := |scopeIDs|;
      scopeIDs := scopeIDs + ids;
      assert scopeIDs[start..start + |ids|] == ids;
    }
  }

  /** A spec's code at the end of a flat plan; specs next to each other in one
      scope share their window of ids. */
  method AppendSpec(c: Code, name: string, fullName: string, program: seq<Instr>, ids: seq<nat>) returns (d: Code)
    requires WindowsFit(c)
    ensures Appends(c, d, name, fullName, program, ids)
  {
    var start := |c.instructions|;
    var scopeIDs, idStart := AppendIDs(c, ids);
    d := Code(c.instructions + program, c.programStart + [start], c.programLen + [|program|], c.names + [name],
      c.fullNames + [fullName], scopeIDs, c.idStart + [idStart], c.idLen + [|ids|]);
  }

  lemma {:induction false} ContextGrows(stack: seq<Open>, i: nat)
    requires i < |stack|
    ensures var c, s := ContextOf(stack[..i]), stack[i];
            ContextOf(stack[..i + 1]) == Enter(c, s.name, s.id, s.hooks)
  {
    assert stack[..i + 1] == stack[..i] + [stack[i]];
    ContextOfTop(stack[..i], stack[i]);
  }

  lemma {:induction false} WholeStack(stack: seq<Open>)
    ensures ContextOf(stack[..|stack|]) == ContextOf(stack) && ContextOf(stack[..0]) == TOP
  {
    assert stack[..|stack|] == stack;
  }

  /** The hooks, names and numbers of all open scopes, outermost first. */
  method Flatten(scopes: seq<OpenScope>, ghost before: seq<seq<Fn>>, ghost after: seq<seq<Fn>>) returns (c: Context)
    ensures c == ContextOf(StackOf(scopes, before, after))
  {
    ghost var stack := StackOf(scopes, before, after);
    c := TOP;
    WholeStack(stack);
    var i := 0;
    while i < |scopes|
      invariant 0 <= i <= |scopes| && c == ContextOf(stack[..i])
    {
      ContextGrows(stack, i);
      var s := scopes[i];
      c := Context(c.names + [s.name], c.ids + [s.id], c.before + s.before, c.after + s.after);
      i := i + 1;
    }
  }

  class BytecodeCompiler {
    var code: Code
    var scopes: seq<OpenScope>
    /** The once-per-group hooks of the open scopes, by depth; only as deep as
        the deepest scope that has any. */
    var groupBefore: seq<seq<Fn>>
    var groupAfter: seq<seq<Fn>>
    /** Everything of the plan but its specs. */
    var groups: Plan
    var focusIndices: seq<nat>
    var openParallelStart: int
    /** Every scope ever opened, in order. */
    var table: seq<Row>

    ghost predicate Valid()
      reads this
    {
      && WindowsFit(code) && Ascending(focusIndices, |code.names|)
      && |groupBefore| <= |scopes| && |groupAfter| <= |scopes|
      && groups.specs == []
    }

    ghost function Stack(): seq<Open>
      reads this
    {
      StackOf(scopes, groupBefore, groupAfter)
    }

    ghost function Built(): Build
      reads this
      requires Valid()
    {
      Build(groups.(specs := SpecsOf(code, focusIndices)), Run(openParallelStart))
    }

    ghost function Snapshot(): Recorder
      reads this
      requires Valid()
    {
      Recorder(Stack(), table, Built())
    }

    constructor ()
      ensures Valid() && Snapshot() == FRESH
    {
      code := Code([], [], [], [], [], [], [], []);
      scopes, groupBefore, groupAfter := [], [], [];
      groups, focusIndices, openParallelStart, table := NOTHING, [], -1, [];
    }

    method CloseOpenParallelRun()
      requires Valid()
      modifies `groups, `openParallelStart
      ensures Valid() && Built() == CloseRun(old(Built())) && openParallelStart < 0
    {
      if openParallelStart < 0 { return; }
      var first, last := openParallelStart, |code.names| - 1;
      if first <= last { groups := groups.(parallel := groups.parallel + [Range(first, last)]); }
      openParallelStart := -1;
    }

    method SealTop()
      requires Valid()
      modifies `scopes
      ensures Valid() && Snapshot() == Seal(old(Snapshot())) && |scopes| == old(|scopes|)
    {
      var n := |scopes|;
      if n > 0 {
        scopes := scopes[..n - 1] + [scopes[n - 1].(sealed := true)];
      }
    }

    /** Appends one spec. Its hooks are those registered so far. */
    method EmitIt(name: string, body: Option<Fn>)
      requires Valid()
      modifies `scopes, `code
      ensures Valid() && |code.names| == old(|code.names|) + 1 && |scopes| == old(|scopes|)
      ensures var r := old(Snapshot());
              Snapshot() == Seal(r).(build := Build(
                r.build.plan.(specs := r.build.plan.specs +
                    [SpecOf(ContextOf(r.stack), Normal, name, body)]), r.build.open))
    {
      SealTop();
      ghost var sealed := Snapshot();
      var c := Flatten(scopes, groupBefore, groupAfter);
      SealKeepsContext(old(Snapshot()));
      var program := BuildProgram(c.before, body, c.after);
      ghost var was := code;
      code := AppendSpec(code, name, Joined(c.names, name), program, c.ids);
      SpecsAppend(was, code, focusIndices, name, Joined(c.names, name), program, c.ids);
    }

    method EmitFocusedIt(name: string, body: Option<Fn>)
      requires Valid()
      modifies `scopes, `code, `focusIndices
      ensures Valid() && |scopes| == old(|scopes|)
      ensures var r := old(Snapshot());
              Snapshot() == Seal(r).(build := Build(
                r.build.plan.(specs := r.build.plan.specs +
                    [SpecOf(ContextOf(r.stack), Focus, name, body)]), r.build.open))
    {
      ghost var r := Snapshot();
      EmitIt(name, body);
      FocusLast(code, focusIndices, r.build.plan.specs, SpecOf(ContextOf(r.stack), Normal, name, body));
      focusIndices := focusIndices + [|code.names| - 1];
    }

    method EmitItParallel(name: string, body: Option<Fn>)
      requires Valid()
      modifies `scopes, `code, `openParallelStart
      ensures Valid() && |scopes| == old(|scopes|)
      ensures Snapshot() == RecordLeaf(old(Snapshot()), Parallel, name, body)
    {
      if openParallelStart < 0 { openParallelStart := |code.names|; }
      EmitIt(name, body);
    }

    /** A skipped or pending spec leaves only its name and its scopes. */
    method EmitMark(name: string, skip: bool)
      requires Valid()
      modifies `scopes, `groups
      ensures Valid() && |scopes| == old(|scopes|)
      ensures var r, p := old(Snapshot()), old(Snapshot()).build.plan;
              var m := Mark(name, ContextOf(r.stack).ids);
              Snapshot() == Seal(r).(build := Build(
                if skip then p.(skipped := p.skipped + [m]) else p.(pending := p.pending + [m]), r.build.open))
    {
      SealKeepsContext(Snapshot());
      SealTop();
      var c := Flatten(scopes, groupBefore, groupAfter);
      if skip { groups := groups.(skipped := groups.skipped + [Mark(name, c.ids)]); }
      else { groups := groups.(pending := groups.pending + [Mark(name, c.ids)]); }
    }

    /** It, FIt, SkipIt, PendingIt or ItParallel. */
    method EmitLeaf(kind: Kind, name: string, body: Option<Fn>)
      requires Valid()
      modifies this
      ensures Valid() && |scopes| == old(|scopes|)
      ensures Snapshot() == RecordLeaf(old(Snapshot()), kind, name, body)
    {
      hide WindowsFit, Ascending, ContextOf, StackOf, SpecsOf, Joined;
      if kind == Parallel {
        EmitItParallel(name, body);
        return;
      }
      CloseOpenParallelRun();
      if kind == Focus {
        EmitFocusedIt(name, body);
      } else if kind == Skip || kind == Pending {
        EmitMark(name, kind == Skip);
      } else {
        EmitIt(name, body);
      }
    }

    method PushScope(name: string)
      requires Valid()
      modifies this
      ensures Valid() && |scopes| == old(|scopes|) + 1
      ensures Snapshot() == Recordings.PushScope(old(Snapshot()), name)
    {
      hide WindowsFit, Ascending, SpecsOf, CloseRun, StackOf, Seal;
      ghost var r := Snapshot();
      SealKeepsTop(r);
      CloseOpenParallelRun();
      SealTop();
      assert Snapshot() == Seal(r).(build := CloseRun(r.build));
      var n := |scopes|;
      assert n > 0 ==> Snapshot().stack[n - 1].id == scopes[n - 1].id;
      var parent := if n > 0 then scopes[n - 1].id else -1;
      var top := OpenScope(name, [], [], false, |code.names|, |table|);
      StackGrows(scopes, groupBefore, groupAfter, top);
      scopes := scopes + [top];
      table := table + [Row(parent, name, true)];
    }

    /** The innermost open scope's once-per-group hooks, around the specs added
        since it was opened. */
    method CloseGroupHooksAtTop()
      requires Valid() && scopes != []
      modifies `groups
      ensures Valid()
      ensures var r := old(Snapshot());
              Snapshot() == r.(build := Build(
                CloseGroup(r.build.plan, ContextOf(r.stack), Top(r).name, Top(r).hooks, Top(r).start), r.build.open))
    {
      var n := |scopes|;
      var before, after := At(groupBefore, n - 1), At(groupAfter, n - 1);
      if |before| == 0 && |after| == 0 { return; }
      var start, end := scopes[n - 1].start, |code.names| - 1;
      if start > end { return; }
      var c := Flatten(scopes, groupBefore, groupAfter);
      groups := groups.(groups := groups.groups +
          [Group(c.names, c.ids, scopes[n - 1].name, before, after, start, end)]);
    }

    method PopScope()
      requires Valid() && scopes != []
      modifies this
      ensures Valid() && |scopes| == old(|scopes|) - 1
      ensures Snapshot() == Recordings.PopScope(old(Snapshot()))
    {
      hide WindowsFit, Ascending, SpecsOf, CloseRun, ContextOf, CloseGroup;
      CloseOpenParallelRun();
      CloseGroupHooksAtTop();
      scopes := scopes[..|scopes| - 1];
      groupBefore := Truncate(groupBefore, |scopes|);
      groupAfter := Truncate(groupAfter, |scopes|);
    }

    /** A hook on the innermost open scope; a per-spec hook that comes late
        panics. */
    method AppendHook(c: Call) returns (late: Option<LateHook>)
      requires Valid() && scopes != [] && !Registers(c)
      modifies `scopes, `groupBefore, `groupAfter
      ensures Valid() && |scopes| == old(|scopes|)
      ensures RecordHook(old(Snapshot()), c) == if late.Some? then Panicked(late.value) else Fine(Snapshot())
    {
      hide WindowsFit, Ascending, SpecsOf, StackOf, At, InBounds;
      late := None;
      var n := |scopes|;
      var top := scopes[n - 1];
      ghost var was, wasBefore, wasAfter := scopes, groupBefore, groupAfter;
      assert was == was[..n - 1] + [top];
      match c {
        case BeforeEach(Some(fn)) =>
          if top.sealed { return Some(LateBefore); }
          scopes := scopes[..n - 1] + [top.(before := top.before + [fn])];
        case AfterEach(Some(fn)) =>
          if top.sealed { return Some(LateAfter); }
          scopes := scopes[..n - 1] + [top.(after := top.after + [fn])];
        case BeforeAll(Some(fn)) =>
          groupBefore := AppendAt(groupBefore, n - 1, fn);
        case AfterAll(Some(fn)) =>
          groupAfter := AppendAt(groupAfter, n - 1, fn);
        case _ =>
      }
      TopChanged(was, wasBefore, wasAfter, scopes[n - 1], groupBefore, groupAfter);
    }

    /** Calls a callback with a handle on the innermost open scope. */
    method Call(s: Script) returns (late: Option<LateHook>)
      requires Valid() && scopes != []
      modifies this
      ensures late.None? ==> Valid() && |scopes| == old(|scopes|)
      ensures Record(old(Snapshot()), s) == if late.Some? then Panicked(late.value) else Fine(Snapshot())
      decreases s
    {
      hide WindowsFit, Ascending, SpecsOf, StackOf, InBounds, RecordLeaf, RecordHook, Recordings.PushScope,
        Recordings.PopScope;
      match s
      case Done => late := None;
      case Then(It(kind, name, body), rest) =>
        if kind != Focus || body.Some? { EmitLeaf(kind, name, body); }
        late := Call(rest);
      case Then(Describe(_, None), rest) => late := Call(rest);
      case Then(Describe(name, Some(inner)), rest) =>
        PushScope(name);
        late := Call(inner);
        if late.Some? { return; }
        PopScope();
        late := Call(rest);
      case Then(c, rest) =>
        late := AppendHook(c);
        if late.Some? { return; }
        late := Call(rest);
    }
  }

  function Truncate(hooks: seq<seq<Fn>>, n: nat): (t: seq<seq<Fn>>)
    ensures |t| <= n && forall d :: 0 <= d < n ==> At(t, d) == At(hooks, d)
  {
    if n >= |hooks| then hooks else hooks[..n]
  }

  /** fn after the hooks at depth, growing with scopes that have none. */
  method AppendAt(hooks: seq<seq<Fn>>, depth: nat, fn: Fn) returns (t: seq<seq<Fn>>)
    ensures |t| == if |hooks| <= depth then depth + 1 else |hooks|
    ensures At(t, depth) == At(hooks, depth) + [fn] && forall d :: 0 <= d && d != depth ==> At(t, d) == At(hooks, d)
  {
    t := hooks;
    while |t| <= depth
      invariant |hooks| <= |t| && (|t| > |hooks| ==> |t| <= depth + 1)
      invariant forall d :: 0 <= d ==> At(t, d) == At(hooks, d)
    {
      t := t + [[]];
    }
    t := t[depth := t[depth] + [fn]];
  }

  /** Sealing a scope changes no hook, name or number. */
  lemma {:induction false} SealKeepsContext(r: Recorder)
    ensures ContextOf(Seal(r).stack) == ContextOf(r.stack)
  {
    if r.stack != [] {
      var below := r.stack[..|r.stack| - 1];
      ContextOfTop(below, Top(r));
      ContextOfTop(below, Top(r).(sealed := true));
      assert r.stack == below + [Top(r)];
    }
  }
}
