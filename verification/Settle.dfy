/** One spec with the tasks it starts, the failures they record and the cleanups
    they register, in every interleaving. */
module Settling {
  import opened Options
  import opened GoStates

  /** Where the spec's own goroutine is: in its body, waiting for tasks, in an
      AfterEach hook, waiting for the last time, taking the next cleanup, in
      one, or finished. */
  datatype Phase = InBody | Waiting | InAfter(k: nat) | LastWait | Draining | InCleanup(id: nat) | Over

  datatype Action =
    | Assert(message: string)
    | Report(message: string)
    | Go
    | Register
    | TaskAssert(t: nat, message: string)
    | TaskReport(t: nat, message: string)
    | TaskGo(t: nat)
    | TaskRegister(t: nat)
    | TaskEnd(t: nat, failure: Failure, panicked: string)
    | End(panicked: string)
    | Proceed

  /** hooks is the number of AfterEach hooks; used says whether any task or
      cleanup state exists yet; bad remembers that something failed; ran are
      the cleanups run, in order. */
  datatype Case = Case(
    hooks: nat, phase: Phase, used: bool, shared: Shared, failure: Failure,
    running: set<nat>, tasks: nat, registered: nat, bad: bool, ran: seq<nat>)

  function Initial(hooks: nat): Case {
    Case(hooks, InBody, false, FRESH, NO_FAILURE, {}, 0, 0, false, [])
  }

  /** User code runs on the spec's goroutine. */
  predicate InUserCode(c: Case) {
    c.phase.InBody? || c.phase.InAfter? || c.phase.InCleanup?
  }

  /** Whatever code runs may use the context of any task started, even when that
      task has ended: a hook, a cleanup, or another task may have kept it. */
  predicate Reaches(c: Case, t: nat) {
    t < c.tasks && (InUserCode(c) || c.running != {})
  }

  predicate Enabled(c: Case, a: Action) {
    match a
    case Assert(_) => InUserCode(c)
    case Report(_) => InUserCode(c)
    case Go => InUserCode(c) && !c.shared.closed
    case Register => InUserCode(c)
    case TaskAssert(t, _) => Reaches(c, t)
    case TaskReport(t, _) => Reaches(c, t)
    case TaskGo(t) => t in c.running && !c.shared.closed
    case TaskRegister(t) => Reaches(c, t)
    case TaskEnd(t, _, _) => t in c.running
    case End(_) => InUserCode(c)
    case Proceed => ((c.phase.Waiting? || c.phase.LastWait?) && c.running == {}) || c.phase.Draining?
  }

  function AfterPhase(c: Case, k: nat): Phase {
    if k < c.hooks then InAfter(k) else LastWait
  }

  function StartTask(c: Case): Case {
    c.(used := true, running := c.running + {c.tasks}, tasks := c.tasks + 1)
  }

  function RegisterCleanup(c: Case): Case {
    c.(used := true, shared := Registered(c.shared, c.registered), registered := c.registered + 1)
  }

  /** With task or cleanup state an Errorf waits for the next settle point. */
  function ReportFailure(c: Case, message: string): Case {
    if c.used then c.(shared := Queued(c.shared, message), bad := true)
    else c.(failure := First(c.failure, message), bad := true)
  }

  function Step(c: Case, a: Action): Case
    requires Enabled(c, a)
  {
    match a
    case Assert(message) => c.(failure := Failure(true, message), bad := true)
    case Report(message) => ReportFailure(c, message)
    case Go => StartTask(c)
    case Register => RegisterCleanup(c)
    case TaskAssert(_, message) => c.(shared := Recorded(c.shared, message), bad := true)
    case TaskReport(_, message) => ReportFailure(c, message)
    case TaskGo(_) => StartTask(c)
    case TaskRegister(_) => RegisterCleanup(c)
    case TaskEnd(t, failure, panicked) =>
      c.(running := c.running - {t}, bad := c.bad || panicked != "" || failure.failed,
         shared := Finished(c.shared, failure, panicked))
    case End(panicked) =>
      var d := if panicked == "" then c else c.(failure := c.failure.(failed := true), bad := true);
      d.(phase := match c.phase
         case InBody => Waiting
         case InAfter(k) => AfterPhase(c, k + 1)
         case _ => Draining)
    case Proceed =>
      match c.phase
      case Waiting =>
        var s := Settled(c.shared, c.failure, false);
        c.(shared := s.0, failure := s.1, phase := AfterPhase(c, 0))
      case LastWait =>
        var s := Settled(c.shared, c.failure, true);
        if c.used then c.(shared := s.0, failure := s.1, phase := Draining) else c.(phase := Over)
      case _ =>
        var popped := Popped(c.shared);
        match popped.1
        case Some(id) => c.(shared := popped.0, phase := InCleanup(id), ran := c.ran + [id])
        case None => c.(shared := popped.0.(pending := []), failure := Fold(popped.0, c.failure), phase := Over)
  }

  // ---- What every step keeps ----

  ghost predicate Closing(p: Phase) {
    p.Draining? || p.InCleanup? || p.Over?
  }

  /** What failed is recorded somewhere: on the spec, or where the next settle
      point, or the end of the drain, will find it. */
  ghost predicate FailuresKept(c: Case) {
    && (c.bad <==> c.failure.failed || c.shared.rec.failed || c.shared.pending != []
                   || (c.shared.panicMsg != "" && !c.shared.panicReported))
    && (c.shared.panicReported ==> c.failure.failed)
    && (Closing(c.phase) && c.shared.panicMsg != "" ==> c.shared.panicReported)
    && (c.phase.Over? ==> c.shared.pending == [] && (c.shared.rec.failed ==> c.failure.failed))
  }

  ghost predicate TasksKept(c: Case) {
    && (c.shared.closed ==> Closing(c.phase)) && (Closing(c.phase) ==> c.running == {} && (c.used ==> c.shared.closed))
    && (forall t :: t in c.running ==> t < c.tasks)
  }

  /** Before anything used it, the shared state holds nothing. */
  ghost predicate UnusedIsFresh(c: Case) {
    c.used ||
    (c.shared == FRESH && c.running == {} && c.tasks == 0 && c.registered
        == 0 && !c.phase.Draining? && !c.phase.InCleanup?)
  }

  /** Of the cleanups numbered below n, those in ran were run, each once, and
      those in wait still wait, in order of registration. */
  ghost predicate Accounted(wait: seq<nat>, ran: seq<nat>, n: nat) {
    && (forall i :: 0 <= i < |wait| ==> wait[i] < n && wait[i] !in ran)
    && (forall i, j :: 0 <= i < j < |wait| ==> wait[i] < wait[j])
    && (forall i :: 0 <= i < |ran| ==> ran[i] < n)
    && (forall i, j :: 0 <= i < j < |ran| ==> ran[i] != ran[j])
    && (forall id: nat :: id < n ==> id in ran || id in wait)
  }

  lemma {:induction false} OneMoreWaits(wait: seq<nat>, ran: seq<nat>, n: nat)
    requires Accounted(wait, ran, n)
    ensures Accounted(wait + [n], ran, n + 1)
  {
    assert (wait + [n])[|wait|] == n;
  }

  lemma {:induction false} LastIsTaken(wait: seq<nat>, ran: seq<nat>, n: nat)
    requires Accounted(wait, ran, n) && wait != []
    ensures var id := wait[|wait| - 1]; Accounted(wait[..|wait| - 1], ran + [id], n)
  {
    var id, rest := wait[|wait| - 1], wait[..|wait| - 1];
    assert (ran + [id])[|ran|] == id && wait == rest + [id];
  }

  ghost predicate CleanupsKept(c: Case) {
    && Accounted(c.shared.cleanups, c.ran, c.registered)
    && (c.phase.Over? ==> c.shared.cleanups == []) && (c.ran != [] ==> Closing(c.phase))
    && (c.shared.cleanupsDone ==> c.phase.Over?)
  }

  ghost predicate Kept(c: Case) {
    FailuresKept(c) && TasksKept(c) && UnusedIsFresh(c) && CleanupsKept(c)
  }

  lemma {:induction false} FoldFails(f: Failure, pending: seq<string>)
    ensures FoldPending(f, pending).failed <==> f.failed || pending != []
  {
    if pending != [] { FoldFails(f, pending[..|pending| - 1]); }
  }

  lemma {:induction false} StartsKept(hooks: nat)
    ensures Kept(Initial(hooks))
  {
  }

  lemma {:induction false} StepKeepsFailures(c: Case, a: Action)
    requires Kept(c) && Enabled(c, a)
    ensures FailuresKept(Step(c, a))
  {
    FoldFails(if c.shared.rec.failed then First(c.failure, c.shared.rec.message) else c.failure, c.shared.pending);
    hide CleanupsKept, FoldPending;
  }

  lemma {:induction false} StepKeepsTasks(c: Case, a: Action)
    requires Kept(c) && Enabled(c, a)
    ensures TasksKept(Step(c, a)) && UnusedIsFresh(Step(c, a))
  {
    hide CleanupsKept, FailuresKept, Fold;
  }

  lemma {:induction false} StepKeepsCleanups(c: Case, a: Action)
    requires Kept(c) && Enabled(c, a)
    ensures CleanupsKept(Step(c, a))
  {
    hide FailuresKept, Fold, Accounted;
    OneMoreWaits(c.shared.cleanups, c.ran, c.registered);
    if c.shared.cleanups != [] { LastIsTaken(c.shared.cleanups, c.ran, c.registered); }
  }

  /** Everything that can happen, in order. */
  ghost predicate Possible(c: Case, actions: seq<Action>)
    decreases actions
  {
    actions != [] ==> Enabled(c, actions[0]) && Possible(Step(c, actions[0]), actions[1..])
  }

  function After(c: Case, actions: seq<Action>): Case
    requires Possible(c, actions)
    decreases actions
  {
    if actions == [] then c else After(Step(c, actions[0]), actions[1..])
  }

  lemma {:induction false} RunKeeps(c: Case, actions: seq<Action>)
    requires Kept(c) && Possible(c, actions)
    ensures Kept(After(c, actions))
    decreases actions
  {
    if actions != [] {
      StepKeeps(c, actions[0]);
      hide Kept, Step;
      RunKeeps(Step(c, actions[0]), actions[1..]);
    }
  }

  // ---- What a run did, told by its actions alone ----

  predicate Failing(a: Action) {
    match a
    case Assert(_) => true
    case Report(_) => true
    case TaskAssert(_, _) => true
    case TaskReport(_, _) => true
    case TaskEnd(_, failure, panicked) => failure.failed || panicked != ""
    case End(panicked) => panicked != ""
    case _ => false
  }

  ghost predicate AnyFailing(actions: seq<Action>) {
    exists i :: 0 <= i < |actions| && Failing(actions[i])
  }

  function Registrations(actions: seq<Action>): nat {
    if actions == [] then 0
    else
      var a := actions[|actions| - 1];
      Registrations(actions[..|actions| - 1]) + if a.Register? || a.TaskRegister? then 1 else 0
  }

  /** The tasks started, by the spec or by other tasks; they are numbered in order. */
  function Started(actions: seq<Action>): nat {
    if actions == [] then 0
    else
      var a := actions[|actions| - 1];
      Started(actions[..|actions| - 1]) + if a.Go? || a.TaskGo? then 1 else 0
  }

  ghost predicate HasEnded(actions: seq<Action>, t: nat) {
    exists i :: 0 <= i < |actions| && actions[i].TaskEnd? && actions[i].t == t
  }

  /** Every task started so far has ended. */
  ghost predicate TasksEnded(actions: seq<Action>) {
    forall t: nat :: t < Started(actions) ==> HasEnded(actions, t)
  }

  /** The message of the last assertion on the spec's goroutine. */
  function LastAsserted(actions: seq<Action>): Option<string> {
    if actions == [] then None
    else
      var a := actions[|actions| - 1];
      if a.Assert? then Some(a.message) else LastAsserted(actions[..|actions| - 1])
  }

  lemma {:induction false} Divided(c: Case, actions: seq<Action>, n: nat)
    requires Possible(c, actions) && n <= |actions|
    ensures Possible(c, actions[..n]) && Possible(After(c, actions[..n]), actions[n..])
    ensures After(c, actions) == After(After(c, actions[..n]), actions[n..])
    decreases n
  {
    if n == 0 {
      assert actions[..0] == [] && actions[0..] == actions;
    } else {
      Divided(Step(c, actions[0]), actions[1..], n - 1);
      assert actions[..n][0] == actions[0] && actions[..n][1..] == actions[1..][..n - 1];
      assert actions[1..][n - 1..] == actions[n..];
      hide Step, Enabled;
    }
  }

  /** The last of a run's actions. */
  lemma {:induction false} LastStep(c: Case, actions: seq<Action>)
    requires Possible(c, actions) && actions != []
    ensures var n := |actions| - 1;
            && Possible(c, actions[..n]) && Enabled(After(c, actions[..n]), actions[n])
            && After(c, actions) == Step(After(c, actions[..n]), actions[n])
  {
    var n := |actions| - 1;
    Divided(c, actions, n);
    assert actions[n..] == [actions[n]] && actions[n..][1..] == [];
    hide Step, Enabled;
  }

  /** Which code ended, by the phases in which End happened, in order. */
  ghost function Ended(c: Case, actions: seq<Action>): seq<Phase>
    requires Possible(c, actions)
    decreases |actions|
  {
    if actions == [] then []
    else
      var n := |actions| - 1;
      LastStep(c, actions);
      Ended(c, actions[..n]) + if actions[n].End? then [After(c, actions[..n]).phase] else []
  }

  function AfterHooks(n: nat): seq<Phase> {
    seq(n, k requires 0 <= k => InAfter(k))
  }

  function Cleaned(ran: seq<nat>): seq<Phase> {
    seq(|ran|, i requires 0 <= i < |ran| => InCleanup(ran[i]))
  }

  /** The body, the after hooks in order, and the cleanups that ran, as far as the
      case has got. */
  ghost predicate EndedUpTo(c: Case, ended: seq<Phase>) {
    match c.phase
    case InBody => ended == [] && c.ran == []
    case Waiting => ended == [InBody] && c.ran == []
    case InAfter(k) => k < c.hooks && ended == [InBody] + AfterHooks(k) && c.ran == []
    case LastWait => ended == [InBody] + AfterHooks(c.hooks) && c.ran == []
    case InCleanup(id) =>
      && c.ran != [] && id == c.ran[|c.ran| - 1]
      && ended == [InBody] + AfterHooks(c.hooks) + Cleaned(c.ran[..|c.ran| - 1])
    case _ => ended == [InBody] + AfterHooks(c.hooks) + Cleaned(c.ran)
  }

  lemma {:induction false} NextHook(k: nat)
    ensures [InBody] + AfterHooks(k) + [InAfter(k)] == [InBody] + AfterHooks(k + 1)
    ensures [InBody] + AfterHooks(0) == [InBody]
    ensures [InBody] + AfterHooks(k) + Cleaned([]) == [InBody] + AfterHooks(k)
  {
  }

  lemma {:induction false} NextCleaned(hooks: seq<Phase>, ran: seq<nat>)
    requires ran != []
    ensures hooks + Cleaned(ran[..|ran| - 1]) + [InCleanup(ran[|ran| - 1])] == hooks + Cleaned(ran)
  {
    var n := |ran| - 1;
    assert Cleaned(ran) == Cleaned(ran[..n]) + [InCleanup(ran[n])];
  }

  lemma {:induction false} StaysIn(c: Case, a: Action)
    requires Enabled(c, a) && !a.End? && !a.Proceed?
    ensures Step(c, a).phase == c.phase && Step(c, a).ran == c.ran && Step(c, a).hooks == c.hooks
  {
  }

  lemma {:induction false} EndEnds(c: Case, panicked: string, ended: seq<Phase>)
    requires Enabled(c, End(panicked)) && EndedUpTo(c, ended)
    ensures EndedUpTo(Step(c, End(panicked)), ended + [c.phase]) && Step(c, End(panicked)).hooks == c.hooks
  {
    hide AfterHooks, Cleaned;
    NextHook(0);
    if c.phase.InAfter? { NextHook(c.phase.k); }
    NextHook(c.hooks);
    if c.phase.InCleanup? { NextCleaned([InBody] + AfterHooks(c.hooks), c.ran); }
  }

  lemma {:induction false} WhereProceedLeads(c: Case)
    requires Enabled(c, Proceed)
    ensures var d := Step(c, Proceed);
            && d.hooks == c.hooks
            && (c.phase.Waiting? ==> d.phase == AfterPhase(c, 0) && d.ran == c.ran)
            && (c.phase.LastWait? ==> (d.phase.Draining? || d.phase.Over?) && d.ran == c.ran)
            && (c.phase.Draining? ==>
                  if d.phase.InCleanup? then d.ran == c.ran + [d.phase.id] && d.ran[..|d.ran| - 1] == c.ran
                  else d.phase.Over? && d.ran == c.ran)
  {
    hide Fold, Settled;
  }

  lemma {:induction false} ProceedsFrom(c: Case)
    requires Enabled(c, Proceed)
    ensures c.phase.Waiting? || c.phase.LastWait? || c.phase.Draining?
  {
  }

  lemma {:induction false} ProceedEnds(c: Case, ended: seq<Phase>)
    requires Enabled(c, Proceed) && EndedUpTo(c, ended)
    ensures EndedUpTo(Step(c, Proceed), ended) && Step(c, Proceed).hooks == c.hooks
  {
    hide Step, Enabled, AfterHooks, Cleaned;
    WhereProceedLeads(c);
    ProceedsFrom(c);
    NextHook(0);
    NextHook(c.hooks);
  }

  lemma {:induction false} StepEnds(c: Case, a: Action, ended: seq<Phase>)
    requires Enabled(c, a) && EndedUpTo(c, ended)
    ensures Step(c, a).hooks == c.hooks
    ensures EndedUpTo(Step(c, a), ended + if a.End? then [c.phase] else [])
  {
    assert ended + [] == ended;
    if a.End? {
      EndEnds(c, a.panicked, ended);
    } else if a.Proceed? {
      ProceedEnds(c, ended);
    } else {
      StaysIn(c, a);
    }
    hide Step, Enabled, AfterHooks, Cleaned;
  }

  lemma {:induction false} RunEnds(hooks: nat, actions: seq<Action>)
    requires Possible(Initial(hooks), actions)
    ensures var c := After(Initial(hooks), actions);
            c.hooks == hooks && EndedUpTo(c, Ended(Initial(hooks), actions))
    decreases |actions|
  {
    if actions != [] {
      var n := |actions| - 1;
      LastStep(Initial(hooks), actions);
      RunEnds(hooks, actions[..n]);
      StepEnds(After(Initial(hooks), actions[..n]), actions[n], Ended(Initial(hooks), actions[..n]));
      hide Step, Enabled, EndedUpTo;
    }
  }

  /** What the case says happened is what its actions were. */
  ghost predicate Told(c: Case, actions: seq<Action>) {
    && (c.bad <==> AnyFailing(actions)) && c.registered == Registrations(actions) && TasksTold(c, actions)
    && (LastAsserted(actions).Some? ==> c.failure == Failure(true, LastAsserted(actions).value))
  }

  ghost predicate TasksTold(c: Case, actions: seq<Action>) {
    && c.tasks == Started(actions)
    && (forall t: nat :: t in c.running <==> t < c.tasks && !HasEnded(actions, t))
    && (forall t: nat :: HasEnded(actions, t) ==> t < c.tasks)
  }

  lemma {:induction false} OneMoreAction(actions: seq<Action>)
    requires actions != []
    ensures var n := |actions| - 1;
            && (AnyFailing(actions) <==> AnyFailing(actions[..n]) || Failing(actions[n]))
            && Registrations(actions) == Registrations(actions[..n]) +
                 (if actions[n].Register? || actions[n].TaskRegister? then 1 else 0)
            && Started(actions) == Started(actions[..n]) + (if actions[n].Go? || actions[n].TaskGo? then 1 else 0)
            && (forall t: nat :: HasEnded(actions, t)
                                 <==> HasEnded(actions[..n], t) || (actions[n].TaskEnd? && actions[n].t == t))
            && LastAsserted(actions) == if actions[n].Assert? then Some(actions[n].message)
                 else LastAsserted(actions[..n])
  {
    hide Failing;
  }

  lemma {:induction false} FirstKept(f: Failure, pending: seq<string>)
    requires f.failed
    ensures FoldPending(f, pending) == f
  {
    PendingFolds(f, pending);
  }

  lemma {:induction false} StepTellsTasks(c: Case, a: Action, before: seq<Action>, actions: seq<Action>)
    requires Enabled(c, a) && TasksTold(c, before) && actions == before + [a]
    ensures TasksTold(Step(c, a), actions)
  {
    OneMoreAction(actions);
    assert actions[..|before|] == before;
    hide Fold, Settled, FoldPending, Started, HasEnded;
  }

  lemma {:induction false} StepTells(c: Case, a: Action, before: seq<Action>, actions: seq<Action>)
    requires Enabled(c, a) && Told(c, before) && actions == before + [a]
    ensures Told(Step(c, a), actions)
  {
    OneMoreAction(actions);
    assert actions[..|before|] == before;
    if c.failure.failed { FirstKept(c.failure, c.shared.pending); }
    StepTellsTasks(c, a, before, actions);
    hide FoldPending, AnyFailing, Registrations, LastAsserted, TasksTold;
  }

  lemma {:induction false} RunTells(hooks: nat, actions: seq<Action>)
    requires Possible(Initial(hooks), actions)
    ensures Told(After(Initial(hooks), actions), actions)
    decreases |actions|
  {
    if actions != [] {
      var n := |actions| - 1;
      LastStep(Initial(hooks), actions);
      RunTells(hooks, actions[..n]);
      StepTells(After(Initial(hooks), actions[..n]), actions[n], actions[..n], actions);
      hide Step, Enabled, Told;
    }
  }

  /** If action n goes on from waiting for tasks, every task started has ended. */
  ghost predicate Awaited(c: Case, actions: seq<Action>, n: nat)
    requires n < |actions|
  {
    && Possible(c, actions[..n]) && Enabled(After(c, actions[..n]), actions[n])
    && var d := After(c, actions[..n]);
       (d.phase.Waiting? || d.phase.LastWait?) && Step(d, actions[n]).phase != d.phase ==> TasksEnded(actions[..n])
  }

  /** In every run that is over, the body ended first, then every after hook, once
      each and in order, then the cleanups that ran; and whenever the spec went on
      from waiting for its tasks, every task started before had ended. */
  lemma {:induction false} HooksRunInOrder(hooks: nat, actions: seq<Action>)
    requires Possible(Initial(hooks), actions)
    ensures var c := After(Initial(hooks), actions);
            c.phase.Over? ==> Ended(Initial(hooks), actions) == [InBody] + AfterHooks(hooks) + Cleaned(c.ran)
    ensures forall n :: 0 <= n < |actions| ==> Awaited(Initial(hooks), actions, n)
  {
    RunEnds(hooks, actions);
    hide After, Ended, Step;
    forall n | 0 <= n < |actions| ensures Awaited(Initial(hooks), actions, n) {
      NoneRunning(hooks, actions, n);
    }
  }

  lemma {:induction false} NoneRunning(hooks: nat, actions: seq<Action>, n: nat)
    requires Possible(Initial(hooks), actions) && n < |actions|
    ensures Awaited(Initial(hooks), actions, n)
  {
    var c := Initial(hooks);
    Divided(c, actions, n + 1);
    LastStep(c, actions[..n + 1]);
    assert actions[..n + 1][..n] == actions[..n];
    RunTells(hooks, actions[..n]);
    var d := After(c, actions[..n]);
    if (d.phase.Waiting? || d.phase.LastWait?) && Step(d, actions[n]).phase != d.phase {
      WaitsForTasks(d, actions[n]);
      NoTaskLeft(d, actions[..n]);
    }
    hide Step, Enabled, Possible, After, Told, TasksEnded;
  }

  lemma {:induction false} NoTaskLeft(c: Case, actions: seq<Action>)
    requires Told(c, actions) && c.running == {}
    ensures TasksEnded(actions)
  {
    hide AnyFailing, Registrations, LastAsserted, Started, HasEnded;
  }

  lemma {:induction false} WaitsForTasks(c: Case, a: Action)
    requires Enabled(c, a) && (c.phase.Waiting? || c.phase.LastWait?) && Step(c, a).phase != c.phase
    ensures c.running == {}
  {
    hide Fold, Settled;
  }

  /** However body, hooks, tasks and cleanups interleave: past the last settle point
      every task started has ended; once the case is over every cleanup registered
      has run, once each; and it is failed exactly when some action failed, with the
      message of the spec's last failed assertion if there was one. */
  lemma {:induction false} EveryRun(hooks: nat, actions: seq<Action>)
    requires Possible(Initial(hooks), actions)
    ensures var c := After(Initial(hooks), actions);
            && (Closing(c.phase) ==> TasksEnded(actions))
            && (c.phase.Over? ==>
                  && (c.failure.failed <==> AnyFailing(actions))
                  && (LastAsserted(actions).Some? ==> c.failure.message == LastAsserted(actions).value)
                  && (forall id: nat :: id < Registrations(actions) <==> id in c.ran)
                  && (forall i, j :: 0 <= i < j < |c.ran| ==> c.ran[i] != c.ran[j]))
  {
    StartsKept(hooks);
    RunKeeps(Initial(hooks), actions);
    RunTells(hooks, actions);
    if After(Initial(hooks), actions).running == {} { NoTaskLeft(After(Initial(hooks), actions), actions); }
    hide AnyFailing, Registrations, LastAsserted, Started, TasksEnded, HasEnded, Step;
  }

  // ---- The locked operations carry out the steps ----

  /** One action, done with the operations of the shared state. */
  method Perform(gs: GoState, c: Case, a: Action) returns (d: Case)
    requires Kept(c) && Enabled(c, a) && gs.View() == c.shared
    modifies gs
    ensures d == Step(c, a) && gs.View() == d.shared
  {
    hide FailuresKept, Accounted, Fold, Settled;
    d := c;
    match a {
      case Assert(message) => d := d.(failure := Failure(true, message), bad := true);
      case Report(message) => d := PerformReport(gs, d, message);
      case TaskReport(_, message) => d := PerformReport(gs, d, message);
      case Go => d := StartTask(d);
      case TaskGo(_) => d := StartTask(d);
      case Register => d := PerformRegister(gs, d);
      case TaskRegister(_) => d := PerformRegister(gs, d);
      case TaskAssert(_, message) =>
        gs.Record(message);
        d := d.(bad := true, shared := Recorded(d.shared, message));
      case TaskEnd(t, failure, panicked) =>
        gs.Finish(failure, panicked);
        d := d.(running := d.running - {t}, bad := d.bad || panicked != "" || failure.failed,
                shared := Finished(d.shared, failure, panicked));
      case End(panicked) => d := Step(d, a);
      case Proceed => d := PerformProceed(gs, d);
    }
  }

  method PerformReport(gs: GoState, c: Case, message: string) returns (d: Case)
    requires gs.View() == c.shared
    modifies gs
    ensures d == ReportFailure(c, message) && gs.View() == d.shared
  {
    d := ReportFailure(c, message);
    if c.used { gs.Errorf(message); }
  }

  method PerformRegister(gs: GoState, c: Case) returns (d: Case)
    requires gs.View() == c.shared
    modifies gs
    ensures d == RegisterCleanup(c) && gs.View() == d.shared
  {
    d := RegisterCleanup(c);
    var ok := gs.Cleanup(c.registered);
  }

  /** What the spec's goroutine does between pieces of user code. */
  method PerformProceed(gs: GoState, c: Case) returns (d: Case)
    requires Enabled(c, Proceed) && gs.View() == c.shared
    modifies gs
    ensures d == Step(c, Proceed) && gs.View() == d.shared
  {
    hide Fold, Settled;
    match c.phase {
      case Waiting =>
        var g := gs.Settle(c.failure, false);
        d := c.(shared := Settled(c.shared, c.failure, false).0, failure := g, phase := AfterPhase(c, 0));
      case LastWait =>
        if !c.used { return c.(phase := Over); }
        var g := gs.Settle(c.failure, true);
        d := c.(shared := Settled(c.shared, c.failure, true).0, failure := g, phase := Draining);
      case Draining =>
        var id := gs.PopCleanup();
        if id.Some? {
          d := c.(shared := Popped(c.shared).0, phase := InCleanup(id.value), ran := c.ran + [id.value]);
        } else {
          var g := gs.FoldInto(c.failure);
          d := c.(shared := Popped(c.shared).0.(pending := []), failure := g, phase := Over);
        }
    }
  }

  /** A whole case, on one shared state. */
  method RunCase(hooks: nat, actions: seq<Action>) returns (c: Case)
    requires Possible(Initial(hooks), actions)
    ensures c == After(Initial(hooks), actions)
  {
    var gs := new GoState();
    c := Initial(hooks);
    StartsKept(hooks);
    var i := 0;
    while i < |actions|
      invariant 0 <= i <= |actions| && Kept(c) && gs.View() == c.shared && fresh(gs)
      invariant Possible(c, actions[i..]) && After(c, actions[i..]) == After(Initial(hooks), actions)
    {
      assert actions[i..][0] == actions[i] && actions[i..][1..] == actions[i + 1..];
      StepKeeps(c, actions[i]);
      hide Step, Kept, Enabled;
      c := Perform(gs, c, actions[i]);
      i := i + 1;
    }
  }

  lemma {:induction false} StepKeeps(c: Case, a: Action)
    requires Kept(c) && Enabled(c, a)
    ensures Kept(Step(c, a))
  {
    StepKeepsFailures(c, a);
    StepKeepsTasks(c, a);
    StepKeepsCleanups(c, a);
    hide Step, FailuresKept, TasksKept, UnusedIsFresh, CleanupsKept;
  }

  /** A cleanup that is taken is the last registered of those still waiting. */
  lemma {:induction false} LastFirst(hooks: nat, actions: seq<Action>)
    requires Possible(Initial(hooks), actions)
    ensures var c := After(Initial(hooks), actions);
            c.phase.Draining? && c.shared.cleanups != [] ==>
              var d := Step(c, Proceed);
              && d.phase.InCleanup? && d.ran == c.ran + [d.phase.id]
              && forall id: nat :: id in c.shared.cleanups ==> id <= d.phase.id
  {
    StartsKept(hooks);
    RunKeeps(Initial(hooks), actions);
  }

  // ---- Every case can end ----

  /** User code returns, a task ends, or the engine goes on. */
  predicate Ends(a: Action) {
    a.TaskEnd? || a.End? || a.Proceed?
  }

  /** A bound on what is left to do when no user code does more than end. */
  function Left(c: Case): nat {
    |c.running| + 2 * |c.shared.cleanups| +
    match c.phase
    case InBody => c.hooks + 5
    case Waiting => c.hooks + 4
    case InAfter(k) => 3 + if k < c.hooks then c.hooks - k else 0
    case LastWait => 2
    case Draining => 1
    case InCleanup(_) => 2
    case Over => 0
  }

  lemma {:induction false} EndsRunOut(c: Case, a: Action)
    requires Enabled(c, a) && Ends(a)
    ensures Left(Step(c, a)) < Left(c)
  {
    if a.TaskEnd? {
      TaskEndRunsOut(c, a);
    } else if a.End? {
      EndRunsOut(c, a);
    } else {
      ProceedRunsOut(c);
    }
    hide *;
  }

  lemma {:induction false} TaskEndRunsOut(c: Case, a: Action)
    requires a.TaskEnd? && Enabled(c, a)
    ensures Left(Step(c, a)) < Left(c)
  {
    var d := Step(c, a);
    assert c.running == d.running + {a.t} && d.shared.cleanups == c.shared.cleanups && d.phase == c.phase;
    hide Step, Enabled;
  }

  lemma {:induction false} EndRunsOut(c: Case, a: Action)
    requires a.End? && Enabled(c, a)
    ensures Left(Step(c, a)) < Left(c)
  {
  }

  lemma {:induction false} ProceedRunsOut(c: Case)
    requires Enabled(c, Proceed)
    ensures Left(Step(c, Proceed)) < Left(c)
  {
    hide Fold;
  }

  /** Until a case is over, something can end or the engine can go on. */
  lemma {:induction false} NeverStuck(c: Case) returns (a: Action)
    requires !c.phase.Over?
    ensures Ends(a) && Enabled(c, a)
  {
    if c.running != {} {
      var t :| t in c.running;
      a := TaskEnd(t, NO_FAILURE, "");
    } else if InUserCode(c) {
      a := End("");
    } else {
      a := Proceed;
    }
  }

  ghost predicate AllEnd(actions: seq<Action>) {
    forall i :: 0 <= i < |actions| ==> Ends(actions[i])
  }

  lemma {:induction false} EndsWithin(c: Case, actions: seq<Action>)
    requires Possible(c, actions) && AllEnd(actions)
    ensures |actions| + Left(After(c, actions)) <= Left(c)
    decreases actions
  {
    if actions != [] {
      EndsRunOut(c, actions[0]);
      hide Step, Left, Enabled;
      EndsWithin(Step(c, actions[0]), actions[1..]);
    }
  }

  lemma {:induction false} EndsFrom(c: Case) returns (actions: seq<Action>)
    requires Kept(c)
    ensures AllEnd(actions) && Possible(c, actions) && After(c, actions).phase.Over?
    decreases Left(c)
  {
    actions := [];
    if !c.phase.Over? {
      var a := NeverStuck(c);
      EndsRunOut(c, a);
      StepKeeps(c, a);
      hide Kept, Step, Enabled, Left;
      var rest := EndsFrom(Step(c, a));
      actions := [a] + rest;
      assert actions[0] == a && actions[1..] == rest;
    }
  }

  /** Wherever a case has got to, it ends: once user code and tasks do nothing but
      end, no more than so many steps follow, in whatever order they come; and
      steps that lead to the end of the case always exist. */
  lemma {:induction false} EveryCaseEnds(hooks: nat, before: seq<Action>) returns (after: seq<Action>)
    requires Possible(Initial(hooks), before)
    ensures var c := After(Initial(hooks), before);
            && AllEnd(after) && Possible(c, after) && After(c, after).phase.Over?
            && forall more :: Possible(c, more) && AllEnd(more) ==> |more| <= Left(c)
  {
    StartsKept(hooks);
    RunKeeps(Initial(hooks), before);
    var c := After(Initial(hooks), before);
    hide *;
    after := EndsFrom(c);
    forall more | Possible(c, more) && AllEnd(more) ensures |more| <= Left(c) {
      EndsWithin(c, more);
    }
  }
}
