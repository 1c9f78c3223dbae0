/** The loop for parallel specs, and where the three loops agree. */
module RunnersAgree {
  import opened Options
  import opened Declarations
  import opened Plans
  import opened BuilderItems
  import opened BuilderGroups
  import opened Runners

  /** What a parallel spec is reported with. */
  datatype Record = Asserted | Panicked(value: string) | TaskPanicked(value: string)

  function Recorded(o: Outcome): Option<Record> {
    match o
    case Returns => None
    case Fails => Some(Asserted)
    case Aborts => Some(Asserted)
    case Panics(value) => Some(Panicked(value))
  }

  /** The failure that happened first. */
  ghost function FirstFailure(w: World, base: nat, h: seq<Fn>): Option<Record>
    decreases |h|
  {
    if |h| <= base then None else OrElse(FirstFailure(w, base, h[..|h| - 1]), Recorded(w.outcome(h)))
  }

  /** The panic that happened first. */
  ghost function FirstPanic(w: World, base: nat, h: seq<Fn>): Option<string>
    decreases |h|
  {
    if |h| <= base then None else OrElse(FirstPanic(w, base, h[..|h| - 1]), PanicValue(w.outcome(h)))
  }

  function PanicValue(o: Outcome): Option<string> {
    match o
    case Panics(value) => Some(value)
    case _ => None
  }

  lemma {:induction false} FailuresSnoc(w: World, base: nat, h: seq<Fn>, fn: Fn)
    requires base <= |h|
    ensures var g := h + [fn];
            && (AnyAsserted(w, base, g) <==> AnyAsserted(w, base, h) || w.outcome(g).Fails? || w.outcome(g).Aborts?)
            && FirstFailure(w, base, g) == OrElse(FirstFailure(w, base, h), Recorded(w.outcome(g)))
            && FirstPanic(w, base, g) == OrElse(FirstPanic(w, base, h), PanicValue(w.outcome(g)))
  {
    assert (h + [fn])[..|h|] == h;
  }

  class ParallelContext {
    const world: World
    var trace: seq<Fn>
    var record: Option<Record>

    constructor (w: World)
      ensures world == w && trace == [] && record == None
    {
      world, trace, record := w, [], None;
    }

    /** The first assertion that fails is recorded at once. */
    method Do(fn: Fn) returns (o: Outcome)
      modifies this
      ensures trace == old(trace) + [fn] && o == world.outcome(trace)
      ensures record == if old(record).None? && (o.Fails? || o.Aborts?) then Some(Asserted) else old(record)
    {
      trace := trace + [fn];
      o := world.outcome(trace);
      if record.None? && (o.Fails? || o.Aborts?) { record := Some(Asserted); }
    }

    /** Only assertions are recorded yet, from place base of the trace on. */
    ghost predicate Tracks(base: nat)
      reads this
    {
      base <= |trace| && record == if AnyAsserted(world, base, trace) then Some(Asserted) else None
    }

    method RunCalls(calls: seq<Fn>, ghost base: nat) returns (up: Outcome)
      requires Tracks(base) && FirstPanic(world, base, trace) == None
      modifies this
      ensures Tracks(base) && trace == Front(world, old(trace), calls).0
      ensures FirstPanic(world, base, trace) == PanicValue(up)
      ensures Unwinds(up) <==> Unwinds(Front(world, old(trace), calls).1)
    {
      up := Returns;
      var i := 0;
      assert calls[0..] == calls;
      while i < |calls|
        invariant 0 <= i <= |calls| && !Unwinds(up) && base <= |old(trace)| <= |trace|
        invariant Tracks(base) && FirstPanic(world, base, trace) == None
        invariant Front(world, old(trace), calls) == Front(world, trace, calls[i..])
      {
        assert calls[i..][1..] == calls[i + 1..];
        FailuresSnoc(world, base, trace, calls[i]);
        hide AnyAsserted, FirstPanic;
        up := Do(calls[i]);
        if Unwinds(up) { return; }
        i := i + 1;
      }
    }

    /** The after hooks one by one, each recovered; first is the panic so far. */
    method RunRestRecovered(first: Option<string>, hooks: seq<Fn>, ghost base: nat) returns (p: Option<string>)
      requires Tracks(base) && first == FirstPanic(world, base, trace)
      modifies this
      ensures Tracks(base) && trace == old(trace) + hooks && p == FirstPanic(world, base, trace)
    {
      p := first;
      var i := 0;
      while i < |hooks|
        invariant 0 <= i <= |hooks| && trace == old(trace) + hooks[..i]
        invariant Tracks(base) && p == FirstPanic(world, base, trace)
      {
        FailuresSnoc(world, base, trace, hooks[i]);
        hide AnyAsserted, FirstPanic;
        var o := Do(hooks[i]);
        OneMore(old(trace), hooks, i);
        p := OrElse(p, PanicValue(o));
        i := i + 1;
      }
      assert hooks[..i] == hooks;
    }

    /** A parallel spec with after hooks. The first panic is raised again at the
        end; a stop by a fatal assertion is not. */
    method RunParallelSpec(before: seq<Fn>, body: Fn, after: seq<Fn>) returns (raised: Option<string>)
      requires record == None
      modifies this
      ensures Tracks(|old(trace)|) && raised == FirstPanic(world, |old(trace)|, trace)
      ensures trace == Front(world, old(trace), before + [body]).0 + Reversed(after)
    {
      ghost var h := trace;
      FailuresStart(world, h);
      var up := RunCalls(before + [body], |h|);
      ghost var f := trace;
      var hooks := Reverse(after);
      var n := 0;
      hide AnyAsserted, FirstPanic, Front;
      if !Unwinds(up) {
        while n < |hooks| && !Unwinds(up)
          invariant 0 <= n <= |hooks| && trace == f + hooks[..n] && Tracks(|h|)
          invariant FirstPanic(world, |h|, trace) == PanicValue(up)
        {
          FailuresSnoc(world, |h|, trace, hooks[n]);
          up := Do(hooks[n]);
          OneMore(f, hooks, n);
          n := n + 1;
        }
      }
      assert f + hooks[..n] + hooks[n..] == f + hooks;
      if !Unwinds(up) {
        assert hooks[..n] == hooks;
        return None;
      }
      raised := RunRestRecovered(PanicValue(up), hooks[n..], |h|);
    }

    /** One spec of a parallel batch, whose steps its Builder made. A panic is
        recorded once it reaches the end, a task's after that. */
    method RunOne(before: seq<Fn>, body: Fn, after: seq<Fn>)
      requires record == None
      modifies this
      ensures trace == Front(world, old(trace), before + [body]).0 + Reversed(after)
      ensures record == FinalRecord(world, |old(trace)|, trace)
    {
      var steps := StepsOf(before, Some(body), after);
      var raised: Option<string>;
      FailuresStart(world, trace);
      if |steps| == 1 && steps[0].Guarded? {
        raised := RunParallelSpec(steps[0].before, body, steps[0].after);
      } else {
        assert after == [];
        var calls := [];
        for i := 0 to |steps|
          invariant i <= |before| ==> calls == before[..i]
          invariant i == |before| + 1 ==> calls == before + [body]
        {
          if i < |before| { assert steps[i] == Plain(before[i]); } else { assert steps[i] == Plain(body); }
          calls := calls + [steps[i].fn];
        }
        assert before[..|before|] == before;
        var up := RunCalls(calls, |old(trace)|);
        raised := PanicValue(up);
        assert trace + Reversed(after) == trace;
      }
      if record.None? && raised.Some? { record := Some(Panicked(raised.value)); }
      var panicked := world.tasks(trace);
      if record.None? && panicked.Some? { record := Some(TaskPanicked(panicked.value)); }
    }
  }

  lemma {:induction false} FailuresStart(w: World, h: seq<Fn>)
    ensures !AnyAsserted(w, |h|, h) && FirstFailure(w, |h|, h) == None && FirstPanic(w, |h|, h) == None
  {
  }

  /** A failed assertion, else the first panic, else a task's. */
  ghost function FinalRecord(w: World, base: nat, e: seq<Fn>): Option<Record> {
    if AnyAsserted(w, base, e) then Some(Asserted)
    else match FirstPanic(w, base, e)
      case Some(value) => Some(Panicked(value))
      case None =>
        match w.tasks(e)
        case Some(value) => Some(TaskPanicked(value))
        case None => None
  }

  /** A failure recorded with parallel specs is the one that happened first,
      exactly unless that was a panic and an assertion failed after it, in an
      after hook. */
  lemma {:induction false} RecordIsFirst(w: World, base: nat, e: seq<Fn>)
    requires FirstFailure(w, base, e).Some?
    ensures FinalRecord(w, base, e) == FirstFailure(w, base, e) <==>
              !(FirstFailure(w, base, e).value.Panicked? && AnyAsserted(w, base, e))
  {
    FirstOfEach(w, base, e);
  }

  lemma {:induction false} FirstOfEach(w: World, base: nat, e: seq<Fn>)
    ensures FirstFailure(w, base, e).None? <==> !AnyAsserted(w, base, e) && FirstPanic(w, base, e).None?
    ensures match FirstFailure(w, base, e) {
              case Some(Asserted) => AnyAsserted(w, base, e)
              case Some(Panicked(value)) => FirstPanic(w, base, e) == Some(value)
              case Some(TaskPanicked(_)) => false
              case None => true
            }
    decreases |e|
  {
    if |e| > base { FirstOfEach(w, base, e[..|e| - 1]); }
  }

  // ---- The three loops side by side ----

  /** With FailFast, a before hook records a failure and returns. */
  ghost predicate StopsEarly(w: World, failFast: bool, h: seq<Fn>, before: seq<Fn>) {
    failFast && BeforeRun(w, true, h, before).1.Fails?
  }

  /** Where no failed hook stops it, the part before the after hooks is the same
      for all; where one does, it is shorter. */
  lemma {:induction false} SameFront(w: World, failFast: bool, h: seq<Fn>, before: seq<Fn>, s: Fn)
    ensures var f, g := SpecFront(w, failFast, h, before, s), Front(w, h, before + [s]);
            if StopsEarly(w, failFast, h, before) then |f.0| < |g.0|
            else f.0 == g.0 && Ends(f.1, g.1)
    decreases |before|
  {
    var calls := before + [s];
    var g := h + [calls[0]];
    if before == [] {
      assert calls[1..] == [];
    } else if !Unwinds(w.outcome(g)) {
      assert calls[1..] == before[1..] + [s];
      FrontGrows(w, g, before[1..], s);
      SameFront(w, failFast, g, before[1..], s);
    }
  }

  lemma {:induction false} FrontGrows(w: World, h: seq<Fn>, before: seq<Fn>, s: Fn)
    ensures |Front(w, h, before + [s]).0| > |h|
  {
    assert (before + [s])[0] in before + [s];
  }

  /** The body and all before hooks returned, a task had panicked by then, and
      an after hook panicked too. */
  ghost predicate TaskPanicReplaced(w: World, f: (seq<Fn>, Outcome), hooks: seq<Fn>) {
    !Unwinds(f.1) && w.tasks(f.0).Some? && HookPanics(w, f.0, f.0 + hooks) != []
  }

  lemma {:induction false} HookMessages(w: World, f: seq<Fn>, e: seq<Fn>)
    ensures forall i :: 0 <= i < |HookPanics(w, f, e)| ==> HookPanics(w, f, e)[i].HookPanic?
    decreases |e|
  {
    if |e| > |f| { HookMessages(w, f, e[..|e| - 1]); }
  }

  /** The one-recover loop keeps the first panic, except that an after hook's
      replaces a task's. */
  lemma {:induction false} WhenFirstIsKept(w: World, f: (seq<Fn>, Outcome), hooks: seq<Fn>)
    requires Sticky(w)
    ensures First(Preferred(w, f.0, f.1, hooks)) == First(Happened(w, f.0, f.1, hooks))
            <==> !TaskPanicReplaced(w, f, hooks)
  {
    if w.tasks(f.0).Some? { StickyAt(w, f.0, hooks); }
    HookMessages(w, f.0, f.0 + hooks);
    hide HookPanics, Sticky;
  }

  lemma {:induction false} SameHappened(w: World, f: (seq<Fn>, Outcome), g: (seq<Fn>, Outcome), hooks: seq<Fn>)
    requires f.0 == g.0 && Ends(f.1, g.1)
    ensures Happened(w, f.0, f.1, hooks) == Happened(w, g.0, g.1, hooks)
    ensures TaskPanicReplaced(w, f, hooks) == TaskPanicReplaced(w, g, hooks)
  {
  }

  // ---- What a run shows, told by its calls and how they ended ----

  /** The next call of the front is made. */
  predicate GoesOn(failFast: bool, o: Outcome) {
    match o
    case Returns => true
    case Fails => !failFast
    case Aborts => false
    case Panics(_) => false
  }

  /** f are the before hooks and the body as far as they were called: up to the
      first that unwinds, or fails with FailFast. */
  ghost predicate CalledUpTo(w: World, failFast: bool, calls: seq<Fn>, f: seq<Fn>) {
    && f <= calls && (forall n :: 0 < n < |f| ==> GoesOn(failFast, w.outcome(f[..n])))
    && (|f| < |calls| ==> f != [] && !GoesOn(failFast, w.outcome(f)))
  }

  function LastFirst(fns: seq<Fn>): seq<Fn> {
    if fns == [] then [] else LastFirst(fns[1..]) + [fns[0]]
  }

  /** The panics among the calls of e behind place base, those up to place mid
      being of the body or before hooks. */
  ghost function PanicsOf(w: World, base: nat, mid: nat, e: seq<Fn>): seq<Message>
    decreases |e|
  {
    if |e| <= base then []
    else
      PanicsOf(w, base, mid, e[..|e| - 1]) +
      match w.outcome(e)
      case Panics(value) => if |e| <= mid then [BodyPanic(value)] else [HookPanic(value)]
      case _ => []
  }

  ghost function TaskPanicOf(w: World, h: seq<Fn>): seq<Message> {
    if w.tasks(h).Some? then [TaskPanic(w.tasks(h).value)] else []
  }

  /** Every panic of a run, in the order they become known: f was called before the
      after hooks, e in all. */
  ghost function AllPanics(w: World, f: seq<Fn>, e: seq<Fn>): seq<Message> {
    PanicsOf(w, 0, |f|, f) + TaskPanicOf(w, f) + PanicsOf(w, |f|, |f|, e) +
    if w.tasks(f).Some? then [] else TaskPanicOf(w, e)
  }

  /** Something failed: a call did not just return, or a task panicked. */
  ghost predicate AnyFailed(w: World, e: seq<Fn>) {
    w.tasks(e).Some? || exists n :: 0 < n <= |e| && !w.outcome(e[..n]).Returns?
  }

  /** Place n is the first panic. */
  ghost predicate FirstPanicAt(w: World, e: seq<Fn>, n: nat, value: string) {
    && 0 < n <= |e| && w.outcome(e[..n]) == Panics(value)
    && forall k :: 0 < k < n ==> !w.outcome(e[..k]).Panics?
  }

  ghost predicate AssertionFailed(w: World, e: seq<Fn>) {
    exists n :: 0 < n <= |e| && (w.outcome(e[..n]).Fails? || w.outcome(e[..n]).Aborts?)
  }

  ghost predicate NoPanics(w: World, e: seq<Fn>) {
    forall n :: 0 < n <= |e| ==> !w.outcome(e[..n]).Panics?
  }

  /** What a parallel spec is recorded with. */
  ghost predicate RecordIs(w: World, e: seq<Fn>, record: Option<Record>) {
    match record
    case None => !AnyFailed(w, e)
    case Some(Asserted) => AssertionFailed(w, e)
    case Some(Panicked(value)) => !AssertionFailed(w, e) && exists n: nat :: FirstPanicAt(w, e, n, value)
    case Some(TaskPanicked(value)) => !AssertionFailed(w, e) && NoPanics(w, e) && w.tasks(e) == Some(value)
  }

  lemma {:induction false} FrontCalled(w: World, h: seq<Fn>, calls: seq<Fn>)
    ensures var e := Front(w, h, calls).0;
            && h <= e <= h + calls && (forall n :: |h| < n < |e| ==> GoesOn(false, w.outcome(e[..n])))
            && (|e| < |h| + |calls| ==> |h| < |e| && !GoesOn(false, w.outcome(e)))
    decreases |calls|
  {
    var e := Front(w, h, calls).0;
    if calls != [] {
      var g := h + [calls[0]];
      FrontCalled(w, g, calls[1..]);
      assert h + calls == g + calls[1..];
      if Unwinds(w.outcome(g)) {
        assert e == g;
      } else {
        forall n | |h| < n < |e| ensures GoesOn(false, w.outcome(e[..n])) {
          if n == |g| { assert e[..n] == g; }
        }
      }
    }
  }

  lemma {:induction false} BeforesCalled(w: World, failFast: bool, h: seq<Fn>, before: seq<Fn>)
    ensures var e := BeforeRun(w, failFast, h, before);
            && h <= e.0 <= h + before && (forall n :: |h| < n < |e.0| ==> GoesOn(failFast, w.outcome(e.0[..n])))
            && (e.1.Returns? ==> e.0 == h + before && (|e.0| > |h| ==> GoesOn(failFast, w.outcome(e.0))))
            && (!e.1.Returns? ==> |h| < |e.0| && !GoesOn(failFast, w.outcome(e.0)))
    decreases |before|
  {
    var e := BeforeRun(w, failFast, h, before).0;
    if before != [] {
      var g := h + [before[0]];
      BeforesCalled(w, failFast, g, before[1..]);
      assert h + before == g + before[1..];
      if GoesOn(failFast, w.outcome(g)) {
        assert e[..|g|] == g;
      } else {
        assert e == g;
      }
    }
  }

  lemma {:induction false} FrontIsCalled(w: World, before: seq<Fn>, s: Fn)
    ensures CalledUpTo(w, false, before + [s], Front(w, [], before + [s]).0)
  {
    FrontCalled(w, [], before + [s]);
    assert [] + (before + [s]) == before + [s];
    hide Front;
  }

  lemma {:induction false} SpecFrontIsCalled(w: World, failFast: bool, before: seq<Fn>, s: Fn)
    ensures CalledUpTo(w, failFast, before + [s], SpecFront(w, failFast, [], before, s).0)
  {
    var b, f := BeforeRun(w, failFast, [], before), SpecFront(w, failFast, [], before, s).0;
    BeforesCalled(w, failFast, [], before);
    assert [] + before == before;
    hide BeforeRun;
    if b.1.Returns? {
      forall n | 0 < n < |f| ensures GoesOn(failFast, w.outcome(f[..n])) {
        assert f[..n] == before[..n] && (n == |before| ==> before[..n] == before);
      }
    }
  }

  lemma {:induction false} LastFirstIs(fns: seq<Fn>)
    ensures LastFirst(fns) == Reversed(fns)
  {
    if fns != [] {
      LastFirstIs(fns[1..]);
      assert Reversed(fns) == Reversed(fns[1..]) + [fns[0]];
    }
  }

  lemma {:induction false} HookPanicsAre(w: World, f: seq<Fn>, e: seq<Fn>)
    ensures HookPanics(w, f, e) == PanicsOf(w, |f|, |f|, e)
    decreases |e|
  {
    if |e| > |f| { HookPanicsAre(w, f, e[..|e| - 1]); }
  }

  /** Until the front ends nothing panics. */
  lemma {:induction false} FrontPanics(w: World, failFast: bool, calls: seq<Fn>, f: seq<Fn>, n: nat)
    requires CalledUpTo(w, failFast, calls, f) && n <= |f|
    ensures n < |f| ==> PanicsOf(w, 0, |f|, f[..n]) == []
    ensures n == |f| > 0 ==> PanicsOf(w, 0, |f|, f) == Panic(w.outcome(f), false)
    decreases n
  {
    if n > 0 {
      FrontPanics(w, failFast, calls, f, n - 1);
      assert f[..n][..n - 1] == f[..n - 1] && f[..|f|] == f;
      if n < |f| { assert GoesOn(failFast, w.outcome(f[..n])); }
    }
  }

  lemma {:induction false} HappenedAre(w: World, failFast: bool, calls: seq<Fn>, f: seq<Fn>, up: Outcome,
      hooks: seq<Fn>)
    requires CalledUpTo(w, failFast, calls, f) && calls != []
    requires f != [] && (Unwinds(up) || Unwinds(w.outcome(f)) ==> up == w.outcome(f))
    ensures Happened(w, f, up, hooks) == AllPanics(w, f, f + hooks)
  {
    FrontPanics(w, failFast, calls, f, |f|);
    HookPanicsAre(w, f, f + hooks);
    hide HookPanics, PanicsOf, CalledUpTo;
    var a, t := Panic(up, false), TaskPanics(w, f);
    var k, q := PanicsOf(w, |f|, |f|, f + hooks), NewTaskPanics(w, f, f + hooks);
    assert a == PanicsOf(w, 0, |f|, f) && t == TaskPanicOf(w, f);
    Grouped4(a, t, k, q);
  }

  lemma {:induction false} Grouped4<T>(a: seq<T>, b: seq<T>, c: seq<T>, d: seq<T>)
    ensures a + (b + c + d) == a + b + c + d
  {
  }

  lemma {:induction false} AssertedIs(w: World, e: seq<Fn>)
    ensures AnyAsserted(w, 0, e) <==> AssertionFailed(w, e)
    decreases |e|
  {
    if e != [] {
      var n := |e| - 1;
      AssertedIs(w, e[..n]);
      assert e[..|e|] == e;
      assert forall k :: 0 < k <= n ==> e[..n][..k] == e[..k];
    }
  }

  lemma {:induction false} PanickedIs(w: World, mid: nat, e: seq<Fn>)
    ensures PanicsOf(w, 0, mid, e) == [] <==> NoPanics(w, e)
    decreases |e|
  {
    if e != [] {
      var n := |e| - 1;
      PanickedIs(w, mid, e[..n]);
      assert e[..|e|] == e;
      assert forall k :: 0 < k <= n ==> e[..n][..k] == e[..k];
    }
  }

  lemma {:induction false} PanicsConcat(w: World, mid: nat, f: seq<Fn>, e: seq<Fn>)
    requires f <= e
    ensures PanicsOf(w, 0, mid, e) == PanicsOf(w, 0, mid, f) + PanicsOf(w, |f|, mid, e)
    decreases |e|
  {
    if |f| < |e| {
      PanicsConcat(w, mid, f, e[..|e| - 1]);
    } else {
      assert f == e;
    }
  }

  lemma {:induction false} FailedWhen(w: World, e: seq<Fn>)
    ensures AnyFailed(w, e) <==> w.tasks(e).Some? || AssertionFailed(w, e) || !NoPanics(w, e)
  {
    if AnyFailed(w, e) && w.tasks(e).None? {
      var n :| 0 < n <= |e| && !w.outcome(e[..n]).Returns?;
      assert w.outcome(e[..n]).Fails? || w.outcome(e[..n]).Aborts? || w.outcome(e[..n]).Panics?;
    }
  }

  lemma {:induction false} FailedIs(w: World, f: seq<Fn>, e: seq<Fn>)
    requires f <= e && (w.tasks(f).Some? ==> w.tasks(e).Some?)
    ensures AnyAsserted(w, 0, e) || AllPanics(w, f, e) != [] <==> AnyFailed(w, e)
  {
    AssertedIs(w, e);
    PanickedIs(w, |f|, e);
    PanicsConcat(w, |f|, f, e);
    FailedWhen(w, e);
    hide AnyAsserted, PanicsOf, AnyFailed, AssertionFailed, NoPanics;
  }

  lemma {:induction false} FirstPanicIs(w: World, e: seq<Fn>)
    ensures FirstPanic(w, 0, e).None? <==> NoPanics(w, e)
    ensures FirstPanic(w, 0, e).Some? ==> exists n: nat :: FirstPanicAt(w, e, n, FirstPanic(w, 0, e).value)
    decreases |e|
  {
    if e != [] {
      var n := |e| - 1;
      FirstPanicIs(w, e[..n]);
      assert e[..|e|] == e;
      assert forall k :: 0 < k <= n ==> e[..n][..k] == e[..k];
      if FirstPanic(w, 0, e[..n]).Some? {
        var k: nat :| FirstPanicAt(w, e[..n], k, FirstPanic(w, 0, e[..n]).value);
        assert FirstPanicAt(w, e, k, FirstPanic(w, 0, e).value);
      } else if FirstPanic(w, 0, e).Some? {
        assert FirstPanicAt(w, e, |e|, FirstPanic(w, 0, e).value);
      }
    }
  }

  lemma {:induction false} RecordRight(w: World, e: seq<Fn>)
    ensures RecordIs(w, e, FinalRecord(w, 0, e))
  {
    AssertedIs(w, e);
    FirstPanicIs(w, e);
    FailedWhen(w, e);
    hide AnyAsserted, FirstPanic, AnyFailed, AssertionFailed, NoPanics, FirstPanicAt;
  }

  lemma {:induction false} CalledSome(w: World, failFast: bool, calls: seq<Fn>, f: seq<Fn>)
    requires CalledUpTo(w, failFast, calls, f) && calls != []
    ensures f != []
  {
  }

  /** How the front ended is how its last call did, unless that just returned. */
  lemma {:induction false} FrontEnds(w: World, h: seq<Fn>, calls: seq<Fn>)
    ensures var e := Front(w, h, calls);
            |e.0| > |h| && (Unwinds(e.1) || Unwinds(w.outcome(e.0))) ==> e.1 == w.outcome(e.0)
    ensures Front(w, h, calls).0 == h ==> calls == []
    decreases |calls|
  {
    if calls != [] { FrontEnds(w, h + [calls[0]], calls[1..]); }
  }

  lemma {:induction false} BeforesEnd(w: World, failFast: bool, h: seq<Fn>, before: seq<Fn>)
    ensures var e := BeforeRun(w, failFast, h, before); !e.1.Returns? ==> e.1 == w.outcome(e.0)
    decreases |before|
  {
    if before != [] { BeforesEnd(w, failFast, h + [before[0]], before[1..]); }
  }

  lemma {:induction false} SpecFrontEnds(w: World, failFast: bool, before: seq<Fn>, s: Fn)
    ensures var f := SpecFront(w, failFast, [], before, s); f.1 == w.outcome(f.0)
  {
    BeforesEnd(w, failFast, [], before);
    hide BeforeRun;
  }

  /** The message of the loop with one recover: the first panic, but once the front
      has returned an after hook's comes before a task's. */
  ghost predicate MessageIs(w: World, f: seq<Fn>, e: seq<Fn>, m: Option<Message>) {
    var order :=
      if w.outcome(f).Aborts? || w.outcome(f).Panics? then AllPanics(w, f, e)
      else PanicsOf(w, |f|, |f|, e) + TaskPanicOf(w, e);
    m == if order == [] then None else Some(order[0])
  }

  /** What one of the sequential loops leaves. */
  ghost predicate LoopShows(w: World, f: seq<Fn>, e: seq<Fn>, reports: seq<Message>, failed: bool) {
    reports == AllPanics(w, f, e) && (failed <==> AnyFailed(w, e))
  }

  lemma {:induction false} LoopRight(w: World, failFast: bool, calls: seq<Fn>, f: seq<Fn>, up: Outcome, hooks: seq<Fn>,
      reports: seq<Message>, failed: bool)
    requires Sticky(w) && CalledUpTo(w, failFast, calls, f) && calls != []
    requires Unwinds(up) || Unwinds(w.outcome(f)) ==> up == w.outcome(f)
    requires reports == Happened(w, f, up, hooks)
    requires failed == (AnyAsserted(w, 0, f + hooks) || Happened(w, f, up, hooks) != [])
    ensures LoopShows(w, f, f + hooks, reports, failed)
  {
    CalledSome(w, failFast, calls, f);
    HappenedAre(w, failFast, calls, f, up, hooks);
    if w.tasks(f).Some? { StickyAt(w, f, hooks); }
    FailedIs(w, f, f + hooks);
    hide Happened, AllPanics, AnyAsserted, AnyFailed, CalledUpTo;
  }

  /** One spec by each of the three loops, in the same world. They make the same
      calls, every after hook once and in reverse, unless FailFast stops the
      first one early; and the same panics are reported. The messages are the
      same unless an after hook's panic replaced a task's. Each shows every panic
      there was and fails when anything did. */
  method RunThreeWays(w: World, failFast: bool, before: seq<Fn>, s: Fn, after: seq<Fn>)
    returns (first: seq<Fn>, second: seq<Fn>, third: seq<Fn>, m: Option<Message>, n: Option<Message>,
      reports: seq<Message>, reports': seq<Message>, failed: bool, failed': bool, record: Option<Record>,
      ghost f: seq<Fn>, ghost g: seq<Fn>)
    requires Sticky(w)
    ensures second == third == Front(w, [], before + [s]).0 + Reversed(after)
    ensures first == second <==> !StopsEarly(w, failFast, [], before)
    ensures !StopsEarly(w, failFast, [], before) ==> reports == reports'
    ensures !StopsEarly(w, failFast, [], before) ==>
              (m == n <==> !TaskPanicReplaced(w, Front(w, [], before + [s]), Reversed(after)))
    ensures CalledUpTo(w, failFast, before + [s], f) && first == f + LastFirst(after)
    ensures CalledUpTo(w, false, before + [s], g) && second == third == g + LastFirst(after)
    ensures LoopShows(w, f, first, reports, failed) && LoopShows(w, g, second, reports', failed')
    ensures n == First(reports') && MessageIs(w, f, first, m) && RecordIs(w, third, record)
  {
    hide *;
    ghost var ff, gg, hooks := SpecFront(w, failFast, [], before, s), Front(w, [], before + [s]), Reversed(after);
    f, g := ff.0, gg.0;
    SameFront(w, failFast, [], before, s);
    PartsOfProgram(before, s, after);
    WhenFirstIsKept(w, ff, hooks);
    if !StopsEarly(w, failFast, [], before) { SameHappened(w, ff, gg, hooks); }
    TracesDiffer(f, g, hooks);
    SpecFrontIsCalled(w, failFast, before, s);
    FrontIsCalled(w, before, s);
    SpecFrontEnds(w, failFast, before, s);
    FrontEndsAs(w, before, s);
    LastFirstIs(after);
    var c := new SpecContext(w, failFast);
    m := c.RunSpecWithHooks(before, s, after);
    var program := BuildProgram(before, Some(s), after);
    var d := new SpecContext(w, failFast);
    n := d.RunProgram(program);
    var p := new ParallelContext(w);
    p.RunOne(before, s, after);
    first, second, third, reports, reports' := c.trace, d.trace, p.trace, c.reports, d.reports;
    failed, failed', record := c.failed, d.failed, p.record;
    NothingBefore(Happened(w, f, ff.1, hooks));
    NothingBefore(Happened(w, g, gg.1, hooks));
    CalledSome(w, failFast, before + [s], f);
    LoopRight(w, failFast, before + [s], f, ff.1, hooks, reports, failed);
    LoopRight(w, false, before + [s], g, gg.1, hooks, reports', failed');
    HappenedAre(w, failFast, before + [s], f, ff.1, hooks);
    MessageRight(w, f, ff.1, hooks);
    RecordRight(w, third);
  }

  lemma {:induction false} NothingBefore<T>(s: seq<T>)
    ensures [] + s == s
  {
  }

  lemma {:induction false} FrontEndsAs(w: World, before: seq<Fn>, s: Fn)
    ensures var g := Front(w, [], before + [s]);
            Unwinds(g.1) || Unwinds(w.outcome(g.0)) ==> g.1 == w.outcome(g.0)
  {
    FrontEnds(w, [], before + [s]);
    hide Front;
  }

  lemma {:induction false} MessageRight(w: World, f: seq<Fn>, up: Outcome, hooks: seq<Fn>)
    requires up == w.outcome(f) && Happened(w, f, up, hooks) == AllPanics(w, f, f + hooks)
    ensures MessageIs(w, f, f + hooks, First(Preferred(w, f, up, hooks)))
  {
    HookPanicsAre(w, f, f + hooks);
    hide HookPanics, PanicsOf, Happened, AllPanics;
  }

  lemma {:induction false} TracesDiffer(f: seq<Fn>, g: seq<Fn>, hooks: seq<Fn>)
    ensures |f| < |g| ==> f + hooks != g + hooks
  {
  }

  /** A world in which the two sequential loops give different messages: the
      body returns, its task panicked, and the after hook panics. */
  lemma {:induction false} TaskPanicLost() returns (w: World)
    ensures Sticky(w) && Front(w, [], [0]) == ([0], Returns)
    ensures First(Preferred(w, [0], Returns, [1])) == Some(HookPanic("hook"))
    ensures First(Happened(w, [0], Returns, [1])) == Some(TaskPanic("task"))
  {
    w := World(h => if |h| == 1 then Returns else Panics("hook"), h => Some("task"));
    var body: seq<Fn> := [0];
    assert [] + [body[0]] == body && body[1..] == [];
    assert Front(w, body, body[1..]) == (body, Returns);
    assert [0] + [1] == [0, 1] && [0, 1][..1] == [0];
  }

  /** A spec whose body panics and whose after hook fails an assertion is
      reported with the assertion. */
  lemma {:induction false} PanicLost() returns (w: World)
    ensures FirstFailure(w, 0, [0, 1]) == Some(Panicked("body")) && FinalRecord(w, 0, [0, 1]) == Some(Asserted)
  {
    w := World(h => if |h| == 1 then Panics("body") else Aborts, h => None);
    assert [0, 1][..1] == [0] && [0][..0] == [];
  }

  lemma {:induction false} QuietFront(w: World, h: seq<Fn>, calls: seq<Fn>)
    requires forall g :: !Unwinds(w.outcome(g))
    ensures Front(w, h, calls).0 == h + calls
    decreases |calls|
  {
    if calls != [] {
      QuietFront(w, h + [calls[0]], calls[1..]);
      assert h + [calls[0]] + calls[1..] == h + calls;
    }
  }

  /** A spec in which nothing unwinds makes the calls its group promises. */
  lemma {:induction false} QuietRun(w: World, h: seq<Fn>, before: seq<Fn>, s: Fn, after: seq<Fn>)
    requires forall g :: !Unwinds(w.outcome(g))
    ensures Front(w, h, before + [s]).0 + Reversed(after) == h + Calls(before, Some(s), after)
  {
    QuietFront(w, h, before + [s]);
    hide Front;
  }
}
