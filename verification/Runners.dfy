/** The loops that run one spec: its before hooks, its body, and its after hooks
    whatever happened. User code may return, record a failure, stop on a fatal
    assertion or panic. */
module Runners {
  import opened Options
  import opened Declarations
  import opened Plans
  import opened BuilderGroups
  import Sequences

  /** Fails records a failure and returns; Aborts records one and unwinds. */
  datatype Outcome = Returns | Fails | Aborts | Panics(value: string)

  predicate Unwinds(o: Outcome) {
    o.Aborts? || o.Panics?
  }

  /** The two end alike, apart from failures that were recorded. */
  predicate Ends(a: Outcome, b: Outcome) {
    Unwinds(a) || Unwinds(b) ==> a == b
  }

  datatype Message = BodyPanic(value: string) | HookPanic(value: string) | TaskPanic(value: string)

  /** User code: how the last of a history of calls ends, and the first panic
      among the tasks started so far, known once they are awaited. */
  datatype World = World(outcome: seq<Fn> -> Outcome, tasks: seq<Fn> -> Option<string>)

  /** The first task panic is kept. */
  ghost predicate Sticky(w: World) {
    forall h: seq<Fn>, g: seq<Fn> :: w.tasks(h).Some? && h <= g ==> w.tasks(g) == w.tasks(h)
  }

  // ---- What a run of a spec is, however it is run ----

  /** The history once the calls were made, up to the first that unwinds, and how
      that ended. */
  ghost function Front(w: World, h: seq<Fn>, calls: seq<Fn>): (r: (seq<Fn>, Outcome))
    ensures h <= r.0
    decreases |calls|
  {
    if calls == [] then (h, Returns)
    else
      var g := h + [calls[0]];
      if Unwinds(w.outcome(g)) then (g, w.outcome(g)) else Front(w, g, calls[1..])
  }

  /** The before hooks: with FailFast a failed one ends them too. */
  ghost function BeforeRun(w: World, failFast: bool, h: seq<Fn>, before: seq<Fn>): (r: (seq<Fn>, Outcome))
    ensures h <= r.0
    decreases |before|
  {
    if before == [] then (h, Returns)
    else
      var g := h + [before[0]];
      var o := w.outcome(g);
      if Unwinds(o) || (failFast && o.Fails?) then (g, o) else BeforeRun(w, failFast, g, before[1..])
  }

  /** The before hooks, and the body if they did not end early. */
  ghost function SpecFront(w: World, failFast: bool, h: seq<Fn>, before: seq<Fn>, s: Fn): (r: (seq<Fn>, Outcome))
    ensures h <= r.0
  {
    var b := BeforeRun(w, failFast, h, before);
    if b.1.Returns? then (b.0 + [s], w.outcome(b.0 + [s])) else b
  }

  function Panic(o: Outcome, hook: bool): seq<Message> {
    match o
    case Panics(value) => [if hook then HookPanic(value) else BodyPanic(value)]
    case _ => []
  }

  /** The panics of the after hooks run after the history f, up to e. */
  ghost function HookPanics(w: World, f: seq<Fn>, e: seq<Fn>): seq<Message>
    decreases |e|
  {
    if |e| <= |f| then [] else HookPanics(w, f, e[..|e| - 1]) + Panic(w.outcome(e), true)
  }

  ghost function TaskPanics(w: World, h: seq<Fn>): seq<Message> {
    match w.tasks(h)
    case None => []
    case Some(value) => [TaskPanic(value)]
  }

  /** What is known only when tasks are awaited a second time. */
  ghost function NewTaskPanics(w: World, f: seq<Fn>, e: seq<Fn>): seq<Message> {
    if w.tasks(f).None? then TaskPanics(w, e) else []
  }

  /** All panics, in the order they became known: that of the body or a before
      hook, those of the tasks, those of the after hooks, those of tasks the
      after hooks started. up is how the part before the after hooks ended. */
  ghost function Happened(w: World, f: seq<Fn>, up: Outcome, hooks: seq<Fn>): seq<Message> {
    Panic(up, false) + Afterwards(w, f, hooks)
  }

  ghost function Afterwards(w: World, f: seq<Fn>, hooks: seq<Fn>): seq<Message> {
    TaskPanics(w, f) + HookPanics(w, f, f + hooks) + NewTaskPanics(w, f, f + hooks)
  }

  /** The order in which the one-recover loop prefers them: once the body has
      returned, an after hook's panic comes before a task's. */
  ghost function Preferred(w: World, f: seq<Fn>, up: Outcome, hooks: seq<Fn>): seq<Message> {
    if Unwinds(up) then Happened(w, f, up, hooks) else HookPanics(w, f, f + hooks) + TaskPanics(w, f + hooks)
  }

  /** An assertion failed in one of the calls from place base on. */
  ghost predicate AnyAsserted(w: World, base: nat, h: seq<Fn>)
    decreases |h|
  {
    |h| > base && (AnyAsserted(w, base, h[..|h| - 1]) || w.outcome(h).Fails? || w.outcome(h).Aborts?)
  }

  lemma {:induction false} AssertedSnoc(w: World, base: nat, h: seq<Fn>, fn: Fn)
    requires base <= |h|
    ensures var g := h + [fn];
            AnyAsserted(w, base, g) <==> AnyAsserted(w, base, h) || w.outcome(g).Fails? || w.outcome(g).Aborts?
  {
    assert (h + [fn])[..|h|] == h;
  }

  lemma {:induction false} AssertedConcat(w: World, a: nat, g: seq<Fn>, h: seq<Fn>)
    requires a <= |g| && g <= h
    ensures AnyAsserted(w, a, h) <==> AnyAsserted(w, a, g) || AnyAsserted(w, |g|, h)
    decreases |h|
  {
    if |h| > |g| {
      AssertedConcat(w, a, g, h[..|h| - 1]);
    } else {
      assert g == h;
    }
  }

  function First<T>(s: seq<T>): Option<T> {
    if s == [] then None else Some(s[0])
  }

  function OrElse<T>(a: Option<T>, b: Option<T>): Option<T> {
    if a.Some? then a else b
  }

  lemma {:induction false} HookPanicsSnoc(w: World, f: seq<Fn>, e: seq<Fn>, fn: Fn)
    requires |f| <= |e|
    ensures HookPanics(w, f, e + [fn]) == HookPanics(w, f, e) + Panic(w.outcome(e + [fn]), true)
  {
    assert (e + [fn])[..|e|] == e;
  }

  lemma {:induction false} HookPanicsConcat(w: World, f: seq<Fn>, e: seq<Fn>, g: seq<Fn>)
    requires |f| <= |e| && e <= g
    ensures HookPanics(w, f, g) == HookPanics(w, f, e) + HookPanics(w, e, g)
    decreases |g|
  {
    if |g| > |e| {
      HookPanicsConcat(w, f, e, g[..|g| - 1]);
    } else {
      assert e == g;
    }
  }

  lemma {:induction false} FirstOf<T>(a: seq<T>, b: seq<T>)
    ensures First(a + b) == OrElse(First(a), First(b))
  {
  }

  lemma {:induction false} OrElseIs<T>(a: Option<T>, b: Option<T>)
    ensures OrElse(a, b) == if a.Some? then a else b
  {
  }

  lemma {:induction false} TasksSettled(w: World, f: seq<Fn>, e: seq<Fn>)
    ensures NewTaskPanics(w, f, e) == if w.tasks(f).Some? then [] else TaskPanics(w, e)
  {
  }

  lemma {:induction false} Regroup<T>(a: seq<T>, b: seq<T>, c: seq<T>, d: seq<T>)
    ensures a + b + c + d == a + (b + (c + d))
  {
  }

  lemma {:induction false} StickyAt(w: World, f: seq<Fn>, hooks: seq<Fn>)
    requires Sticky(w) && w.tasks(f).Some?
    ensures w.tasks(f + hooks) == w.tasks(f)
  {
  }

  lemma {:induction false} NoHookPanics(w: World, f: seq<Fn>)
    ensures HookPanics(w, f, f) == []
  {
  }

  lemma {:induction false} NoPanic(o: Outcome)
    ensures !Unwinds(o) ==> Panic(o, true) == []
  {
  }

  lemma {:induction false} AfterwardsIs(w: World, f: seq<Fn>, hooks: seq<Fn>)
    ensures Afterwards(w, f, hooks)
            == TaskPanics(w, f) + (HookPanics(w, f, f + hooks) + NewTaskPanics(w, f, f + hooks))
  {
  }

  lemma {:induction false} OneMore(f: seq<Fn>, hooks: seq<Fn>, i: nat)
    requires i < |hooks|
    ensures f + hooks[..i] + [hooks[i]] == f + hooks[..i + 1]
  {
  }

  /** Awaiting tasks again after hooks that all returned. */
  lemma {:induction false} SettledAgain(w: World, f: seq<Fn>, e: seq<Fn>)
    requires HookPanics(w, f, e) == [] && (w.tasks(f).Some? ==> w.tasks(e) == w.tasks(f))
    ensures HookPanics(w, f, e) + NewTaskPanics(w, f, e) == if w.tasks(f).Some? then [] else TaskPanics(w, e)
    ensures OrElse(First(TaskPanics(w, f)), First(TaskPanics(w, e))) == First(HookPanics(w, f, e) + TaskPanics(w, e))
  {
  }

  lemma {:induction false} HappenedIs(w: World, f: seq<Fn>, up: Outcome, hooks: seq<Fn>)
    ensures Happened(w, f, up, hooks) == Panic(up, false) + Afterwards(w, f, hooks)
  {
  }

  lemma {:induction false} AfterwardsQuiet(w: World, f: seq<Fn>, e: seq<Fn>, r: seq<Message>)
    requires HookPanics(w, f, e) == []
    ensures r + (TaskPanics(w, f) + (HookPanics(w, f, e) + NewTaskPanics(w, f, e)))
            == r + TaskPanics(w, f) + if w.tasks(f).Some? then [] else TaskPanics(w, e)
  {
  }

  class SpecContext {
    const world: World
    const failFast: bool
    var trace: seq<Fn>
    var failed: bool
    var reports: seq<Message>
    var panicReported: bool

    constructor (w: World, f: bool)
      ensures world == w && failFast == f && trace == [] && !failed && reports == [] && !panicReported
    {
      world, failFast, trace, failed, reports, panicReported := w, f, [], false, [], false;
    }

    method Do(fn: Fn) returns (o: Outcome)
      modifies `trace, `failed
      ensures trace == old(trace) + [fn] && o == world.outcome(trace)
      ensures failed == (old(failed) || o.Fails? || o.Aborts?)
    {
      trace := trace + [fn];
      o := world.outcome(trace);
      if o.Fails? || o.Aborts? { failed := true; }
    }

    /** A recovered panic is reported; a stop by a fatal assertion already is. */
    method RecoverSpecFailure(o: Outcome, hook: bool) returns (m: Option<Message>)
      modifies `failed, `reports
      ensures m == First(Panic(o, hook)) && reports == old(reports) + Panic(o, hook)
      ensures failed == (old(failed) || o.Panics?)
    {
      m := None;
      if o.Panics? {
        var message := if hook then HookPanic(o.value) else BodyPanic(o.value);
        failed, reports := true, reports + [message];
        m := Some(message);
      }
    }

    /** A task's panic is reported once, and returned every time. */
    method SettleTasks() returns (m: Option<Message>)
      modifies `failed, `reports, `panicReported
      ensures m == First(TaskPanics(world, trace))
      ensures reports == old(reports) + if old(panicReported) then [] else TaskPanics(world, trace)
      ensures panicReported == (old(panicReported) || m.Some?)
      ensures failed == (old(failed) || (!old(panicReported) && m.Some?))
    {
      var panicked := world.tasks(trace);
      m := None;
      if panicked.Some? {
        m := Some(TaskPanic(panicked.value));
        if !panicReported { failed, reports := true, reports + [TaskPanic(panicked.value)]; }
        panicReported := true;
      }
    }

    /** The calls up to the first that unwinds. */
    method RunCalls(calls: seq<Fn>) returns (up: Outcome)
      modifies `trace, `failed
      ensures trace == Front(world, old(trace), calls).0
      ensures Ends(up, Front(world, old(trace), calls).1)
      ensures failed == (old(failed) || AnyAsserted(world, |old(trace)|, trace))
    {
      up := Returns;
      var i := 0;
      assert calls[0..] == calls;
      while i < |calls|
        invariant 0 <= i <= |calls| && !Unwinds(up) && |old(trace)| <= |trace|
        invariant Front(world, old(trace), calls) == Front(world, trace, calls[i..])
        invariant failed == (old(failed) || AnyAsserted(world, |old(trace)|, trace))
      {
        assert calls[i..][1..] == calls[i + 1..];
        AssertedSnoc(world, |old(trace)|, trace, calls[i]);
        hide AnyAsserted;
        up := Do(calls[i]);
        if Unwinds(up) { return; }
        i := i + 1;
      }
    }

    /** The before hooks. With FailFast, a failure recorded so far ends them. */
    method RunBefore(before: seq<Fn>) returns (up: Outcome)
      requires !failed
      modifies `trace, `failed
      ensures (trace, up) == BeforeRun(world, failFast, old(trace), before)
      ensures failed == AnyAsserted(world, |old(trace)|, trace)
    {
      var i := 0;
      assert before[0..] == before;
      while i < |before|
        invariant 0 <= i <= |before| && (failFast ==> !failed) && |old(trace)| <= |trace|
        invariant BeforeRun(world, failFast, old(trace), before) == BeforeRun(world, failFast, trace, before[i..])
        invariant failed == AnyAsserted(world, |old(trace)|, trace)
      {
        assert before[i..][1..] == before[i + 1..];
        AssertedSnoc(world, |old(trace)|, trace, before[i]);
        hide AnyAsserted;
        up := Do(before[i]);
        if Unwinds(up) { return; }
        if failFast && failed { return; }
        i := i + 1;
      }
      up := Returns;
    }

    /** The hooks in the order given, each with its own recover. */
    method RunAfterRecovered(hooks: seq<Fn>) returns (m: Option<Message>)
      modifies `trace, `failed, `reports
      ensures trace == old(trace) + hooks
      ensures m == First(HookPanics(world, old(trace), trace))
      ensures reports == old(reports) + HookPanics(world, old(trace), trace)
      ensures failed == (old(failed) || AnyAsserted(world, |old(trace)|, trace)
                                     || HookPanics(world, old(trace), trace) != [])
    {
      m := None;
      var i := 0;
      while i < |hooks|
        invariant 0 <= i <= |hooks| && trace == old(trace) + hooks[..i]
        invariant m == First(HookPanics(world, old(trace), trace))
        invariant reports == old(reports) + HookPanics(world, old(trace), trace)
        invariant failed == (old(failed) || AnyAsserted(world, |old(trace)|, trace)
                                         || HookPanics(world, old(trace), trace) != [])
      {
        HookPanicsSnoc(world, old(trace), trace, hooks[i]);
        AssertedSnoc(world, |old(trace)|, trace, hooks[i]);
        hide HookPanics, AnyAsserted;
        var o := Do(hooks[i]);
        assert trace == old(trace) + hooks[..i + 1];
        var message := RecoverSpecFailure(o, true);
        m := OrElse(m, message);
        i := i + 1;
      }
    }

    /** What follows once the part before the after hooks is over and recovered:
        tasks, after hooks, tasks. */
    method RunRest(first: Option<Message>, hooks: seq<Fn>) returns (message: Option<Message>)
      requires !panicReported && Sticky(world)
      modifies this
      ensures trace == old(trace) + hooks
      ensures reports == old(reports) + Afterwards(world, old(trace), hooks)
      ensures message == OrElse(first, First(Afterwards(world, old(trace), hooks)))
      ensures failed == (old(failed) || AnyAsserted(world, |old(trace)|, trace)
                                     || Afterwards(world, old(trace), hooks) != [])
    {
      ghost var f, r := trace, reports;
      if world.tasks(f).Some? { StickyAt(world, f, hooks); }
      hide Sticky, HookPanics, AnyAsserted;
      var m := SettleTasks();
      message := OrElse(first, m);
      m := RunAfterRecovered(hooks);
      message := OrElse(message, m);
      m := SettleTasks();
      message := OrElse(message, m);
    }

    /** The instructions of one compiled spec; the after hooks come in the order
        they run. */
    method RunProgram(program: seq<Instr>) returns (message: Option<Message>)
      requires !panicReported && Sticky(world)
      modifies this
      ensures var f, hooks := Front(world, old(trace), FrontFns(program)), AfterFns(program);
              && trace == f.0 + hooks
              && reports == old(reports) + Happened(world, f.0, f.1, hooks)
              && message == First(Happened(world, f.0, f.1, hooks))
              && failed == (old(failed) || AnyAsserted(world, |old(trace)|, trace)
                                        || Happened(world, f.0, f.1, hooks) != [])
    {
      ghost var h, r := trace, reports;
      hide *;
      var calls, hooks := SplitProgram(program);
      var up := RunCalls(calls);
      ghost var f := Front(world, h, calls);
      UnwindsTo(world, h, calls, up);
      message := RecoverSpecFailure(up, false);
      ghost var first, after := Panic(f.1, false), Afterwards(world, f.0, hooks);
      HappenedIs(world, f.0, f.1, hooks);
      FirstOf(first, after);
      AssertedConcat(world, |h|, f.0, f.0 + hooks);
      PanicIs(f.1, false);
      PanicIs(up, false);
      message := RunRest(message, hooks);
      Sequences.Grouped(r, first, after);
    }

    /** The deferred part after an after hook unwound. */
    method ResumeUnwound(up: Outcome, rest: seq<Fn>, ghost f: seq<Fn>,
        ghost hooks: seq<Fn>) returns (message: Option<Message>)
      requires panicReported == world.tasks(f).Some? && trace + rest == f + hooks && f <= trace
      requires HookPanics(world, f, trace) == Panic(up, true)
      requires world.tasks(f).Some? ==> world.tasks(f + hooks) == world.tasks(f)
      modifies this
      ensures trace == f + hooks
      ensures reports == old(reports) + HookPanics(world, f, trace) + NewTaskPanics(world, f, trace)
      ensures message == First(HookPanics(world, f, trace) + TaskPanics(world, trace))
      ensures failed == (old(failed) || AnyAsserted(world, |old(trace)|, trace)
                                     || HookPanics(world, f, trace) != [] || NewTaskPanics(world, f, trace) != [])
    {
      ghost var t, e := trace, f + hooks;
      HookPanicsConcat(world, f, t, e);
      PanicIs(up, true);
      hide *;
      FirstOf(HookPanics(world, f, t), HookPanics(world, t, e));
      FirstOf(HookPanics(world, f, e), TaskPanics(world, e));
      ghost var r, p, q := reports, HookPanics(world, f, t), HookPanics(world, t, e);
      message := RecoverSpecFailure(up, true);
      var m := RunAfterRecovered(rest);
      message := OrElse(message, m);
      OrElseIs(First(p), First(q));
      TasksSettled(world, f, e);
      Sequences.Grouped(r, p, q);
      ghost var known := panicReported;
      m := SettleTasks();
      OrElseIs(message, m);
      message := OrElse(message, m);
    }

    /** The after hooks up to the first that unwinds, and those that remain. */
    method RunHooks(hooks: seq<Fn>) returns (rest: seq<Fn>, up: Outcome)
      modifies `trace, `failed
      ensures old(trace) <= trace && trace + rest == old(trace) + hooks && (!Unwinds(up) ==> rest == [])
      ensures HookPanics(world, old(trace), trace) == Panic(up, true)
      ensures failed == (old(failed) || AnyAsserted(world, |old(trace)|, trace))
    {
      var n := 0;
      up := Returns;
      NoHookPanics(world, trace);
      hide HookPanics;
      while n < |hooks|
        invariant n <= |hooks| && trace == old(trace) + hooks[..n] && !Unwinds(up)
        invariant HookPanics(world, old(trace), trace) == []
        invariant failed == (old(failed) || AnyAsserted(world, |old(trace)|, trace))
      {
        HookPanicsSnoc(world, old(trace), trace, hooks[n]);
        AssertedSnoc(world, |old(trace)|, trace, hooks[n]);
        hide AnyAsserted;
        up := Do(hooks[n]);
        OneMore(old(trace), hooks, n);
        n := n + 1;
        if Unwinds(up) { break; }
      }
      rest := hooks[n..];
      NoPanic(up);
      Sequences.Grouped(old(trace), hooks[..n], rest);
      assert hooks[..n] + hooks[n..] == hooks;
    }

    /** The after hooks in one loop. When one unwinds, its panic becomes the
        message, and the remaining hooks run on their own. */
    method RunAfterLoop(hooks: seq<Fn>) returns (message: Option<Message>)
      requires !panicReported && Sticky(world)
      modifies this
      ensures trace == old(trace) + hooks
      ensures reports == old(reports) + Afterwards(world, old(trace), hooks)
      ensures message == First(HookPanics(world, old(trace), trace) + TaskPanics(world, trace))
      ensures failed == (old(failed) || AnyAsserted(world, |old(trace)|, trace)
                                     || Afterwards(world, old(trace), hooks) != [])
    {
      ghost var f, r := trace, reports;
      if world.tasks(f).Some? { StickyAt(world, f, hooks); }
      NoHookPanics(world, f);
      AfterwardsIs(world, f, hooks);
      TasksIs(world, f);
      TasksIs(world, f + hooks);
      TasksSettled(world, f, f + hooks);
      hide *;
      message := SettleTasks();
      var rest, up := RunHooks(hooks);
      AssertedConcat(world, |f|, trace, f + hooks);
      if Unwinds(up) {
        message := ResumeUnwound(up, rest, f, hooks);
        Regroup(r, TaskPanics(world, f), HookPanics(world, f, trace), NewTaskPanics(world, f, trace));
        return;
      }
      NoPanic(up);
      Sequences.NothingAdded(trace);
      SettledAgain(world, f, trace);
      ghost var known := reports;
      var m := SettleTasks();
      AfterwardsQuiet(world, f, trace, r);
      OrElseIs(message, m);
      message := OrElse(message, m);
    }

    /** One recover for the whole spec as long as no after hook unwinds. */
    method RunSpecWithHooks(before: seq<Fn>, s: Fn, after: seq<Fn>) returns (message: Option<Message>)
      requires !failed && !panicReported && Sticky(world)
      modifies this
      ensures var f, hooks := SpecFront(world, failFast, old(trace), before, s), Reversed(after);
              && trace == f.0 + hooks
              && reports == old(reports) + Happened(world, f.0, f.1, hooks)
              && message == First(Preferred(world, f.0, f.1, hooks))
              && failed == (AnyAsserted(world, |old(trace)|, trace) || Happened(world, f.0, f.1, hooks) != [])
    {
      ghost var h, r := trace, reports;
      ghost var f := SpecFront(world, failFast, h, before, s);
      var hooks := Reverse(after);
      var up := RunBefore(before);
      AssertedSnoc(world, |h|, trace, s);
      if up.Returns? { up := Do(s); }
      assert trace == f.0 && up == f.1 && failed == AnyAsserted(world, |h|, trace);
      AssertedConcat(world, |h|, f.0, f.0 + hooks);
      PanicIs(up, false);
      hide *;
      ghost var first, after' := Panic(up, false), Afterwards(world, f.0, hooks);
      HappenedIs(world, f.0, up, hooks);
      PreferredIs(world, f.0, up, hooks);
      UnwindsIs(up);
      if up.Aborts? || up.Panics? {
        message := RecoverSpecFailure(up, false);
        FirstOf(first, after');
        message := RunRest(message, hooks);
        Sequences.Grouped(r, first, after');
        return;
      }
      message := RunAfterLoop(hooks);
      Sequences.NothingAdded(after');
    }
  }

  lemma {:induction false} PanicIs(o: Outcome, hook: bool)
    ensures Panic(o, hook) != [] <==> o.Panics?
  {
  }

  lemma {:induction false} TasksIs(w: World, h: seq<Fn>)
    ensures TaskPanics(w, h) != [] <==> w.tasks(h).Some?
  {
  }

  lemma {:induction false} UnwindsIs(o: Outcome)
    ensures Unwinds(o) <==> o.Aborts? || o.Panics?
    ensures !Unwinds(o) ==> Panic(o, false) == []
  {
  }

  lemma {:induction false} PreferredIs(w: World, f: seq<Fn>, up: Outcome, hooks: seq<Fn>)
    ensures Preferred(w, f, up, hooks)
            == if Unwinds(up) then Happened(w, f, up, hooks) else HookPanics(w, f, f + hooks) + TaskPanics(w, f + hooks)
  {
  }

  /** A call that returns, failed or not, is all the same to what follows. */
  lemma {:induction false} UnwindsTo(w: World, h: seq<Fn>, calls: seq<Fn>, up: Outcome)
    requires Ends(up, Front(w, h, calls).1)
    ensures Panic(up, false) == Panic(Front(w, h, calls).1, false)
  {
  }

  // ---- Programs and their hooks ----

  function FrontFns(program: seq<Instr>): seq<Fn> {
    if program == [] then []
    else
      var last := program[|program| - 1];
      FrontFns(program[..|program| - 1]) + if last.AfterHook? then [] else [last.fn]
  }

  function AfterFns(program: seq<Instr>): seq<Fn> {
    if program == [] then []
    else
      var last := program[|program| - 1];
      AfterFns(program[..|program| - 1]) + if last.AfterHook? then [last.fn] else []
  }

  method SplitProgram(program: seq<Instr>) returns (calls: seq<Fn>, hooks: seq<Fn>)
    ensures calls == FrontFns(program) && hooks == AfterFns(program)
  {
    calls, hooks := [], [];
    for i := 0 to |program|
      invariant calls == FrontFns(program[..i]) && hooks == AfterFns(program[..i])
    {
      assert program[..i + 1][..i] == program[..i];
      if program[i].AfterHook? { hooks := hooks + [program[i].fn]; } else { calls := calls + [program[i].fn]; }
    }
    assert program[..|program|] == program;
  }

  method Reverse(s: seq<Fn>) returns (r: seq<Fn>)
    ensures r == Reversed(s)
  {
    r := [];
    var i := |s|;
    while i > 0
      invariant 0 <= i <= |s| && r == Reversed(s)[..|s| - i]
    {
      i := i - 1;
      r := r + [s[i]];
    }
  }

  lemma {:induction false} PartsConcat(p: seq<Instr>, q: seq<Instr>)
    ensures FrontFns(p + q) == FrontFns(p) + FrontFns(q) && AfterFns(p + q) == AfterFns(p) + AfterFns(q)
  {
    if q == [] {
      assert p + q == p;
    } else {
      var n := |q| - 1;
      assert (p + q)[..|p| + n] == p + q[..n];
      PartsConcat(p, q[..n]);
    }
  }

  lemma {:induction false} OnlyBefores(fns: seq<Fn>)
    ensures FrontFns(Befores(fns)) == fns && AfterFns(Befores(fns)) == []
  {
    if fns != [] {
      var n := |fns| - 1;
      OnlyBefores(fns[..n]);
      assert Befores(fns)[..n] == Befores(fns[..n]);
    }
  }

  lemma {:induction false} OnlyAfters(fns: seq<Fn>)
    ensures FrontFns(Afters(fns)) == [] && AfterFns(Afters(fns)) == Reversed(fns)
  {
    if fns != [] {
      var n := |fns| - 1;
      OnlyAfters(fns[1..]);
      assert Afters(fns)[..n] == Afters(fns[1..]);
      assert Reversed(fns) == Reversed(fns[1..]) + [fns[0]];
    }
  }

  /** The parts of a compiled spec. */
  lemma {:induction false} PartsOfProgram(before: seq<Fn>, s: Fn, after: seq<Fn>)
    ensures FrontFns(Plans.Program(before, Some(s), after)) == before + [s]
    ensures AfterFns(Plans.Program(before, Some(s), after)) == Reversed(after)
  {
    var body: seq<Instr> := [Body(s)];
    var nothing := body[..0];
    assert FrontFns(nothing) == [] && AfterFns(nothing) == [];
    assert FrontFns(body) == [s] && AfterFns(body) == [];
    PartsConcat(Befores(before) + body, Afters(after));
    PartsConcat(Befores(before), body);
    OnlyBefores(before);
    OnlyAfters(after);
  }
}
