/** A Builder and the compiler behind Describe agree: the specs a Builder
    collects are those of one unnamed Describe around all it declares. */
module BuilderPlans {
  import opened Options
  import opened Declarations
  import opened ScopeTables
  import opened Plans
  import opened Recordings
  import opened Suites
  import opened BuilderItems
  import opened BuilderGroups
  import Sequences

  /** Scope numbers once the unnamed scope has number 0. */
  function Up(ids: seq<nat>): (r: seq<nat>)
    ensures |r| == |ids| + 1
  {
    [0] + seq(|ids|, i requires 0 <= i < |ids| => ids[i] + 1)
  }

  function Shift(rows: seq<Row>): (r: seq<Row>)
    ensures |r| == |rows|
  {
    seq(|rows|, i requires 0 <= i < |rows| => rows[i].(parent := rows[i].parent + 1))
  }

  function Fns(program: seq<Instr>): (fns: seq<Fn>)
    ensures |fns| == |program|
  {
    seq(|program|, i requires 0 <= i < |program| => program[i].fn)
  }

  function Reals(items: seq<Item>): seq<Item> {
    if items == [] then []
    else Reals(items[..|items| - 1]) + if Real(items[|items| - 1]) then [items[|items| - 1]] else []
  }

  /** The marks of one kind, by scope numbers. */
  function NumberedMarks(items: seq<Item>, kind: Kind): seq<Mark> {
    if items == [] then []
    else
      NumberedMarks(items[..|items| - 1], kind) +
      if items[|items| - 1].kind == kind then [Numbered(items[|items| - 1])] else []
  }

  function Numbered(x: Item): Mark {
    Mark(x.name, Up(x.ids))
  }

  /** The item and the compiled spec say the same. */
  ghost predicate ItemIs(x: Item, s: Spec) {
    && x.name == s.name && (x.kind != Parallel ==> x.fullName == s.fullName) && Up(x.ids) == s.ids
    && (x.kind == Focus <==> s.focused) && RunOf(x).calls == Fns(s.program)
  }

  ghost predicate ItemsAre(items: seq<Item>, specs: seq<Spec>) {
    |items| == |specs| && forall i :: 0 <= i < |items| ==> ItemIs(items[i], specs[i])
  }

  ghost predicate Collected(items: seq<Item>, p: Plan) {
    && ItemsAre(Reals(items), p.specs)
    && NumberedMarks(items, Skip) == p.skipped && NumberedMarks(items, Pending) == p.pending
  }

  ghost predicate FrameIs(f: Frame, o: Open) {
    f.id == o.id && f.before == o.hooks.before && f.after == o.hooks.after && f.sealed == o.sealed
  }

  ghost predicate ScopesAre(open: seq<Frame>, names: seq<string>, ids: seq<nat>, stack: seq<Open>) {
    && |stack| == |open| == |names| + 1 == |ids| + 1
    && forall i :: 0 <= i < |open| ==>
        FrameIs(open[i], stack[i]) && stack[i].name == ([""] + names)[i] && open[i].id == Up(ids)[i]
  }

  ghost predicate Sim(d: Decl, r: Recorder) {
    && ScopesAre(d.open, d.names, d.ids, r.stack)
    && r.table == [Row(-1, "", true)] + Shift(d.rows)
    && Collected(d.pending, r.build.plan)
  }

  // ---- What a spec captures is its program ----

  lemma {:induction false} ContextIs(open: seq<Frame>, names: seq<string>, ids: seq<nat>, stack: seq<Open>)
    requires ScopesAre(open, names, ids, stack)
    ensures var c := ContextOf(stack);
            c.names == [""] + names && c.ids == Up(ids) && c.before == AllBefore(open) && c.after == AllAfter(open)
  {
    var all := [""] + names;
    ContextUpTo(open, all, Up(ids), stack, |stack|);
    assert open[..|open|] == open && all[..|all|] == all && Up(ids)[..|all|] == Up(ids) && stack[..|stack|] == stack;
  }

  lemma {:induction false} OneScopeMore(
      stack: seq<Open>, o: Open, open: seq<Frame>, f: Frame, names: seq<string>, ids: seq<nat>)
    requires FrameIs(f, o) && ContextOf(stack) == Context(names, ids, AllBefore(open), AllAfter(open))
    ensures ContextOf(stack + [o])
              == Context(names + [o.name], ids + [o.id], AllBefore(open + [f]), AllAfter(open + [f]))
  {
    ContextOfTop(stack, o);
    HooksGrow(open, f);
    hide AllBefore, AllAfter, ContextOf;
  }

  lemma {:induction false} ContextUpTo(open: seq<Frame>, names: seq<string>, ids: seq<nat>, stack: seq<Open>, n: nat)
    requires n <= |open| == |names| == |ids| == |stack|
    requires forall i :: 0 <= i < |open| ==>
              FrameIs(open[i], stack[i]) && stack[i].name == names[i] && open[i].id == ids[i]
    ensures ContextOf(stack[..n]) == Context(names[..n], ids[..n], AllBefore(open[..n]), AllAfter(open[..n]))
  {
    if n > 0 {
      var i := n - 1;
      assert FrameIs(open[i], stack[i]) && stack[i].name == names[i] && stack[i].id == ids[i];
      ContextUpTo(open, names, ids, stack, i);
      hide *;
      OneScopeMore(stack[..i], stack[i], open[..i], open[i], names[..i], ids[..i]);
      Sequences.Prefix(stack, i);
      Sequences.Prefix(open, i);
      Sequences.Prefix(names, i);
      Sequences.Prefix(ids, i);
    }
  }

  lemma {:induction false} HooksGrow(open: seq<Frame>, f: Frame)
    ensures AllBefore(open + [f]) == AllBefore(open) + f.before && AllAfter(open + [f]) == AllAfter(open) + f.after
  {
    assert (open + [f])[..|open|] == open;
  }

  lemma {:induction false} ProgramCalls(before: seq<Fn>, body: Option<Fn>, after: seq<Fn>)
    ensures Fns(Plans.Program(before, body, after)) == Calls(before, body, after)
  {
    var middle: seq<Instr> := match body case None => [] case Some(f) => [Body(f)];
    assert Plans.Program(before, body, after) == Befores(before) + middle + Afters(after);
    assert Fns(Befores(before)) == before && Fns(middle) == Opt(body) && Fns(Afters(after)) == Reversed(after);
    assert Fns(Befores(before) + middle) == Fns(Befores(before)) + Fns(middle);
    assert Fns(Befores(before) + middle + Afters(after)) == Fns(Befores(before) + middle) + Fns(Afters(after));
  }

  lemma {:induction false} PlainCalls(fns: seq<Fn>)
    ensures StepCalls(Plains(fns)) == fns
  {
    if fns != [] {
      PlainCalls(fns[..|fns| - 1]);
      assert Plains(fns)[..|fns| - 1] == Plains(fns[..|fns| - 1]);
      assert fns == fns[..|fns| - 1] + [fns[|fns| - 1]];
    }
  }

  lemma {:induction false} StepsCalls(before: seq<Fn>, body: Option<Fn>, after: seq<Fn>)
    ensures StepCalls(StepsOf(before, body, after)) == Calls(before, body, after)
  {
    if after == [] {
      PlainCalls(before + Opt(body));
      assert Plains(before) + Plains(Opt(body)) == Plains(before + Opt(body));
      assert Calls(before, body, after) == before + Opt(body);
    } else {
      var steps := StepsOf(before, body, after);
      assert StepCalls(steps[..0]) == [];
      assert Calls(before, body, after) == [] + Calls(before, body, after);
    }
  }

  lemma {:induction false} CaptureIsSpec(
    open: seq<Frame>, names: seq<string>, ids: seq<nat>, c: Context, kind: Kind, name: string, body: Option<Fn>)
    requires c.names == [""] + names && c.ids == Up(ids) && c.before == AllBefore(open) && c.after == AllAfter(open)
    requires kind != Skip && kind != Pending
    ensures ItemIs(Capture(open, names, ids, kind, name, body), SpecOf(c, kind, name, body))
  {
    assert c.names[1..] == names;
    ProgramCalls(c.before, body, c.after);
    StepsCalls(c.before, body, c.after);
    hide Plans.Program, Calls, StepCalls, StepsOf, AllBefore, AllAfter, KeyOf, Fns, Up;
  }

  // ---- Step by step ----

  lemma {:induction false} CollectedMore(items: seq<Item>, x: Item)
    ensures Reals(items + [x]) == Reals(items) + if Real(x) then [x] else []
    ensures NumberedMarks(items + [x], Skip) == NumberedMarks(items, Skip) +
              if x.kind == Skip then [Numbered(x)] else []
    ensures NumberedMarks(items + [x], Pending) == NumberedMarks(items, Pending) +
              if x.kind == Pending then [Numbered(x)] else []
  {
    assert (items + [x])[..|items|] == items;
  }

  lemma {:induction false} SealScopes(d: Decl, r: Recorder)
    requires ScopesAre(d.open, d.names, d.ids, r.stack)
    ensures ScopesAre(SealTop(d).open, d.names, d.ids, Seal(r).stack)
  {
    hide Up;
  }

  lemma {:induction false} SealKeepsHooks(d: Decl)
    requires d.open != []
    ensures AllBefore(SealTop(d).open) == AllBefore(d.open) && AllAfter(SealTop(d).open) == AllAfter(d.open)
  {
    var front, f := d.open[..|d.open| - 1], TopFrame(d);
    assert d.open == front + [f];
    HooksGrow(front, f);
    HooksGrow(front, f.(sealed := true));
  }

  lemma {:induction false} LeafBuilt(b: Build, c: Context, kind: Kind, name: string, body: Option<Fn>)
    ensures var p, q := b.plan, AddLeaf(b, c, kind, name, body, false).plan;
            && q.specs == p.specs + (if kind == Skip || kind == Pending then [] else [SpecOf(c, kind, name, body)])
            && q.skipped == p.skipped + (if kind == Skip then [Mark(name, c.ids)] else [])
            && q.pending == p.pending + (if kind == Pending then [Mark(name, c.ids)] else [])
  {
    hide SpecOf;
  }

  lemma {:induction false} LeafCollected(
    items: seq<Item>, b: Build, x: Item, c: Context, kind: Kind, name: string, body: Option<Fn>)
    requires Collected(items, b.plan) && x.kind == kind && Numbered(x) == Mark(name, c.ids)
    requires Real(x) ==> ItemIs(x, SpecOf(c, kind, name, body))
    ensures Collected(items + [x], AddLeaf(b, c, kind, name, body, false).plan)
  {
    CollectedMore(items, x);
    LeafBuilt(b, c, kind, name, body);
    hide AddLeaf, Reals, NumberedMarks, ItemIs, SpecOf, Numbered;
  }

  lemma {:induction false} PutSims(d: Decl, r: Recorder, kind: Kind, name: string, body: Option<Fn>)
    requires Sim(d, r)
    ensures Sim(Put(d, kind, name, body), RecordLeaf(r, kind, name, body))
  {
    SealScopes(d, r);
    ContextIs(d.open, d.names, d.ids, r.stack);
    SealKeepsHooks(d);
    var c, open := ContextOf(r.stack), SealTop(d).open;
    var x := Capture(open, d.names, d.ids, kind, name, body);
    assert Numbered(x) == Mark(name, c.ids) && x.kind == kind;
    hide ScopesAre, AddLeaf, Capture, Reals, NumberedMarks, Up, ContextOf, ItemIs, SpecOf, Numbered, Collected;
    if Real(x) { CaptureIsSpec(open, d.names, d.ids, c, kind, name, body); }
    LeafCollected(d.pending, r.build, x, c, kind, name, body);
  }

  lemma {:induction false} BeginSims(d: Decl, r: Recorder, name: string)
    requires Sim(d, r)
    ensures Sim(Begin(d, name), PushScope(r, name))
  {
    SealScopes(d, r);
    var e, p := Begin(d, name), PushScope(r, name);
    assert [""] + e.names == ([""] + d.names) + [name];
    assert Up(e.ids) == Up(d.ids) + [|d.rows| + 1];
    assert FrameIs(d.open[|d.open| - 1], r.stack[|r.stack| - 1]) && d.open[|d.open| - 1].id == Up(d.ids)[|d.ids|];
    var row := e.rows[|d.rows|];
    assert p.table[|r.table|] == row.(parent := row.parent + 1);
    assert p.table == [Row(-1, "", true)] + Shift(e.rows);
    assert p.build.plan.(parallel := []) == r.build.plan.(parallel := []);
    hide Collected, Shift;
    CollectedParts(d.pending, r.build.plan, p.build.plan);
  }

  lemma {:induction false} CollectedParts(items: seq<Item>, p: Plan, q: Plan)
    requires Collected(items, p) && p.specs == q.specs && p.skipped == q.skipped && p.pending == q.pending
    ensures Collected(items, q)
  {
  }

  lemma {:induction false} FinishSims(d: Decl, r: Recorder)
    requires Sim(d, r) && d.names != []
    ensures Sim(Finish(d), Recordings.PopScope(r))
  {
    var e, p := Finish(d), Recordings.PopScope(r);
    assert [""] + e.names == ([""] + d.names)[..|d.names|];
    assert Up(e.ids) == Up(d.ids)[..|d.ids|];
    ClosedParts(r.build, ContextOf(r.stack), Top(r).name, Top(r).hooks, Top(r).start);
    CollectedParts(d.pending, r.build.plan, p.build.plan);
    hide CloseScope, Collected, ContextOf, Up;
  }

  lemma {:induction false} ClosedParts(b: Build, c: Context, name: string, h: Hooks, start: nat)
    ensures var p, q := b.plan, CloseScope(b, c, name, h, start).plan;
            q.specs == p.specs && q.skipped == p.skipped && q.pending == p.pending
  {
  }

  lemma {:induction false} HookSims(d: Decl, r: Recorder, c: Call)
    requires Sim(d, r) && !Registers(c)
    ensures RecordHook(r, c).Panicked? <==> AddHook(d, c).Refused?
    ensures RecordHook(r, c).Panicked? ==> RecordHook(r, c).hook == AddHook(d, c).hook
    ensures RecordHook(r, c).Fine? ==> Sim(AddHook(d, c).d, RecordHook(r, c).r)
  {
    assert FrameIs(d.open[|d.open| - 1], r.stack[|r.stack| - 1]);
    hide Up, Collected, Shift;
  }

  /** Both go through the same calls to the same late hook, or to the same specs. */
  ghost predicate Alike(x: Declaring, y: Outcome) {
    match y
    case Panicked(h) => x.Refused? && x.hook == h
    case Fine(r) => x.Declared? && Sim(x.d, r)
  }

  lemma {:induction false} DeclareSims(d: Decl, r: Recorder, s: Script)
    requires Sim(d, r) && Shaped(d) && r.stack != []
    ensures Alike(Declare(d, s), Record(r, s))
    decreases s
  {
    hide Sim, Put, RecordLeaf, Begin, PushScope, Finish, Recordings.PopScope, AddHook, RecordHook;
    match s
    case Done =>
    case Then(It(kind, name, body), rest) =>
      if kind == Focus && body.None? {
        DeclareSims(d, r, rest);
      } else {
        PutSims(d, r, kind, name, body);
        StackKept(Put(d, kind, name, body), RecordLeaf(r, kind, name, body));
        DeclareSims(Put(d, kind, name, body), RecordLeaf(r, kind, name, body), rest);
      }
    case Then(Describe(_, None), rest) => DeclareSims(d, r, rest);
    case Then(Describe(name, Some(inner)), rest) =>
      BeginSims(d, r, name);
      StackKept(Begin(d, name), PushScope(r, name));
      DeclareSims(Begin(d, name), PushScope(r, name), inner);
      var x, y := Declare(Begin(d, name), inner), Record(PushScope(r, name), inner);
      if y.Fine? {
        FinishSims(x.d, y.r);
        StackKept(Finish(x.d), Recordings.PopScope(y.r));
        DeclareSims(Finish(x.d), Recordings.PopScope(y.r), rest);
      }
    case Then(c, rest) =>
      HookSims(d, r, c);
      if RecordHook(r, c).Fine? {
        StackKept(AddHook(d, c).d, RecordHook(r, c).r);
        DeclareSims(AddHook(d, c).d, RecordHook(r, c).r, rest);
      }
  }

  lemma {:induction false} StackKept(d: Decl, r: Recorder)
    requires Sim(d, r)
    ensures Shaped(d) && r.stack != []
  {
  }

  // ---- A whole Builder ----

  lemma {:induction false} StartSims()
    ensures Sim(START, PushScope(Recordings.FRESH, ""))
  {
    var r := PushScope(Recordings.FRESH, "");
    assert r.table == [Row(-1, "", true)] + Shift([]);
    assert r.build.plan.specs == [] && r.build.plan.skipped == [] && r.build.plan.pending == [];
  }

  lemma {:induction false} ShiftConcat(a: seq<Row>, b: seq<Row>)
    ensures Shift(a + b) == Shift(a) + Shift(b)
  {
  }

  lemma {:induction false} ShiftScope(f: Forest, parent: int, base: nat, kids: seq<Row>, rest: seq<Row>)
    requires f.Grow? && f.first.Scope?
    requires kids == Rows(f.first.kids, base, base + 1, false) && rest == Rows(f.rest, parent, base + 1 + |kids|, false)
    requires Rows(f.first.kids, base + 1, base + 2, false) == Shift(kids)
    requires Rows(f.rest, parent + 1, base + 2 + |kids|, false) == Shift(rest)
    ensures Rows(f, parent + 1, base + 1, false) == Shift(Rows(f, parent, base, false))
  {
    var kids', rest' := ScopeRows(f, parent, base, false);
    var kids'', rest'' := ScopeRows(f, parent + 1, base + 1, false);
    var row := [Row(parent, f.first.name, true)];
    assert Shift(row) == [Row(parent + 1, f.first.name, true)];
    hide *;
    ShiftConcat(row + kids, rest);
    ShiftConcat(row, kids);
  }

  lemma {:induction false} RowsShift(f: Forest, parent: int, base: nat)
    ensures Rows(f, parent + 1, base + 1, false) == Shift(Rows(f, parent, base, false))
    decreases f
  {
    match f
    case Empty =>
    case Grow(Leaf(_, _, _), rest) =>
      SkipLeaf(f, parent, base);
      SkipLeaf(f, parent + 1, base + 1);
      RowsShift(rest, parent, base);
    case Grow(Scope(name, _, inner), rest) =>
      hide *;
      var kids := Rows(inner, base, base + 1, false);
      RowsShift(inner, base, base + 1);
      RowsShift(rest, parent, base + 1 + |kids|);
      ShiftScope(f, parent, base, kids, Rows(rest, parent, base + 1 + |kids|, false));
  }

  lemma {:induction false} ShiftBack(a: seq<Row>, b: seq<Row>)
    requires Shift(a) == Shift(b)
    ensures a == b
  {
    forall i | 0 <= i < |a| ensures a[i] == b[i] {
      assert Shift(a)[i] == Shift(b)[i];
    }
  }

  /** What a Builder collects from a script is the unfiltered plan of the script
      inside one unnamed Describe, and it stops at the same late hook. */
  lemma {:induction false} BuilderCollectsThePlan(s: Script)
    ensures match Declare(START, s) {
              case Refused(_, h) => Declarations.Late(s, false) == Some(h)
              case Declared(d) =>
                && Declarations.Late(s, false) == None
                && Collected(d.pending, PlanOf("", HooksOf(s), ForestOf(s), false))
                && d.rows == Rows(ForestOf(s), -1, 0, false)
            }
  {
    var r0 := PushScope(Recordings.FRESH, "");
    StartSims();
    SuiteRecorded("", s);
    DeclareSims(START, r0, s);
    var x, y := Declare(START, s), Record(r0, s);
    if y.Fine? {
      var r := y.r;
      assert Sim(x.d, r);
      ClosedParts(r.build, ContextOf(r.stack), Top(r).name, Top(r).hooks, Top(r).start);
      CollectedParts(x.d.pending, r.build.plan, Recordings.PopScope(r).build.plan);
      RowsShift(ForestOf(s), -1, 0);
      var row := Row(-1, "", true);
      assert r.table == Recordings.PopScope(r).table;
      assert ([row] + Shift(x.d.rows))[1..] == Shift(x.d.rows);
      assert ([row] + Rows(ForestOf(s), 0, 1, false))[1..] == Rows(ForestOf(s), 0, 1, false);
      ShiftBack(x.d.rows, Rows(ForestOf(s), -1, 0, false));
    }
    hide PlanOf, Rows, Declare, Record, Collected, CloseScope;
  }
}
