/** Eventually and Consistently against a manual clock that callbacks, and other
    goroutines while the poll waits, may advance at any time. */
module Polls {
  import opened Options
  import opened ManualClocks

  datatype Termination = Invalid | Matched | Mismatch | TimedOut | Held | Cancelled | Panicked

  datatype Result = Result(termination: Termination, passed: bool, attempts: nat, elapsed: int)

  datatype Answer = Matches | Differs | Panics

  /** Which channel of those that are ready a select takes. */
  datatype Choice = Deadline | Next | Context

  /** What happens around one attempt: the clock is advanced before it, by the
      callback, and by others while the poll waits; ended says whether the context
      has ended, before the attempt and then at each of the waits. */
  datatype Round = Round(
    before: seq<int>, ended: bool, during: seq<int>, answer: Answer, waits: seq<Wait>, choice: Choice)

  datatype Wait = Wait(advance: int, ended: bool)

  /** A poll's timers: the deadline was neither stopped nor received yet. */
  ghost predicate DeadlineSet(c: ManualClock, deadline: nat, due: int)
    reads c
  {
    && c.Valid() && deadline < |c.due| && c.due[deadline] == due
    && (c.channel[deadline].None? ==> deadline in c.timers)
    && (c.channel[deadline].Some? ==> c.now >= due)
  }

  /** Of the timers made since, no other is pending. */
  ghost predicate OnlyPending(c: ManualClock, first: nat, kept: set<nat>)
    reads c
  {
    forall t :: t in c.timers && t >= first ==> t in kept
  }

  lemma {:induction false} StillSet(c: ManualClock, deadline: nat, due: int)
    requires DeadlineSet(c, deadline, due) && c.channel[deadline].None?
    ensures c.now < due
  {
    var i :| 0 <= i < |c.timers| && c.timers[i] == deadline;
  }

  method Drive(c: ManualClock, ds: seq<int>, ghost deadline: nat, ghost due: int, ghost first: nat,
      ghost kept: set<nat>)
    requires DeadlineSet(c, deadline, due) && OnlyPending(c, first, kept)
    modifies c
    ensures DeadlineSet(c, deadline, due) && OnlyPending(c, first, kept) && c.Valid() && deadline < |c.due|
    ensures c.due == old(c.due) && c.now == TimeAfter(old(c.now), ds) >= old(c.now)
  {
    c.Drive(ds);
  }

  lemma {:induction false} MorePending(c: ManualClock, first: nat, a: nat, b: nat)
    requires OnlyPending(c, first, {a})
    ensures OnlyPending(c, first, {a, b})
  {
  }

  method StartDeadline(c: ManualClock, timeout: int) returns (deadline: nat)
    requires c.Valid() && timeout > 0
    modifies c
    ensures deadline == |old(c.due)| && c.now == old(c.now) && |c.due| == deadline + 1
    ensures DeadlineSet(c, deadline, c.now + timeout) && OnlyPending(c, deadline, {deadline})
  {
    deadline := c.NewTimer(timeout);
  }

  // ---- What the clock and the rounds allow ----

  /** The time at wait i of a round whose attempt began at a. */
  function TimeAt(r: Round, a: int, i: nat): int
    requires i < |r.waits|
  {
    TimeAfter(TimeAfter(a, r.during), seq(i + 1, j requires 0 <= j <= i => r.waits[j].advance))
  }

  /** The poll may take x at wait i: it has come, and it is the round's choice if
      that has come too. due and due' are when the deadline and the next attempt
      come. */
  ghost predicate MayTake(x: Choice, r: Round, a: int, i: nat, due: int, due': int)
    requires i < |r.waits|
  {
    Came(x, r, a, i, due, due') && (Came(r.choice, r, a, i, due, due') ==> x == r.choice)
  }

  ghost predicate Came(x: Choice, r: Round, a: int, i: nat, due: int, due': int)
    requires i < |r.waits|
  {
    match x
    case Deadline => TimeAt(r, a, i) >= due
    case Next => TimeAt(r, a, i) >= due'
    case Context => r.waits[i].ended
  }

  /** Nothing the poll waits for comes at the first n waits. */
  ghost predicate Idle(r: Round, a: int, n: nat, due: int, due': int)
    requires n <= |r.waits|
  {
    forall i, x :: 0 <= i < n ==> !Came(x, r, a, i, due, due')
  }

  predicate Flag(x: Choice, over: bool, ended: bool, again: bool) {
    match x
    case Deadline => over
    case Context => ended
    case Next => again
  }

  /** What a select takes of the channels that are ready. */
  method Take(choice: Choice, over: bool, ended: bool, again: bool) returns (taken: Option<Choice>)
    ensures taken.None? <==> !over && !ended && !again
    ensures taken.Some? ==>
              Flag(taken.value, over, ended, again) && (Flag(choice, over, ended, again) ==> taken.value == choice)
  {
    if over && (choice == Deadline || !(again || ended)) { return Some(Deadline); }
    if ended && (choice == Context || !again) { return Some(Context); }
    if again { return Some(Next); }
    taken := None;
  }

  lemma {:induction false} StillIdle(r: Round, a: int, i: nat, due: int, due': int)
    requires i < |r.waits| && Idle(r, a, i, due, due') && forall x :: !Came(x, r, a, i, due, due')
    ensures Idle(r, a, i + 1, due, due')
  {
    hide TimeAt, Came;
  }

  /** When wait i begins. */
  ghost function TimeBefore(r: Round, a: int, i: nat): int
    requires i <= |r.waits|
  {
    if i == 0 then TimeAfter(a, r.during) else TimeAt(r, a, i - 1)
  }

  /** Others advance the clock once while the poll waits. */
  method WaitOnce(c: ManualClock, deadline: nat, next: nat, r: Round, i: nat,
      ghost a: int, ghost due: int, ghost due': int, ghost first: nat) returns (taken: Option<Choice>)
    requires DeadlineSet(c, deadline, due) && DeadlineSet(c, next, due') && deadline != next
    requires OnlyPending(c, first, {deadline, next}) && i < |r.waits| && c.now == TimeBefore(r, a, i)
    modifies c
    ensures c.Valid() && c.due == old(c.due) && c.now >= old(c.now) && OnlyPending(c, first, {deadline, next})
    ensures c.now == TimeAt(r, a, i)
    ensures taken.None? ==> DeadlineSet(c, deadline, due) && DeadlineSet(c, next, due')
    ensures taken.None? ==> forall x :: !Came(x, r, a, i, due, due')
    ensures taken.Some? ==> MayTake(taken.value, r, a, i, due, due')
    ensures taken == Some(Next) ==> next !in c.timers && DeadlineSet(c, deadline, due)
  {
    OneMoreWait(r, a, i, c.now);
    hide TimeAt, TimeAfter;
    ghost var fired := c.Advance(r.waits[i].advance);
    WhenSet(c, deadline, due);
    WhenSet(c, next, due');
    taken := Take(r.choice, c.channel[deadline].Some?, r.waits[i].ended, c.channel[next].Some?);
    if taken == Some(Next) {
      NotPending(c, next);
      var value := c.Receive(next);
    }
  }

  /** Waits until the deadline, the next attempt or the end of the context; none
      of them comes when others do not advance the clock far enough. a is when the
      attempt began. */
  method Select(c: ManualClock, deadline: nat, next: nat, r: Round,
      ghost a: int, ghost due: int, ghost due': int, ghost first: nat)
      returns (ready: Option<Choice>, ghost at: nat)
    requires DeadlineSet(c, deadline, due) && DeadlineSet(c, next, due') && deadline != next
    requires OnlyPending(c, first, {deadline, next}) && c.now == TimeAfter(a, r.during)
    modifies c
    ensures c.Valid() && c.due == old(c.due) && c.now >= old(c.now) && OnlyPending(c, first, {deadline, next})
    ensures ready.None? ==> Idle(r, a, |r.waits|, due, due')
    ensures ready.Some? ==>
              && at < |r.waits| && Idle(r, a, at, due, due') && MayTake(ready.value, r, a, at, due, due')
              && c.now == TimeAt(r, a, at)
    ensures ready == Some(Next) ==> next !in c.timers && DeadlineSet(c, deadline, due)
  {
    var i := 0;
    at := 0;
    assert Idle(r, a, 0, due, due') && TimeBefore(r, a, 0) == TimeAfter(a, r.during);
    assert c.Valid();
    hide *;
    while i < |r.waits|
      invariant 0 <= i <= |r.waits| && c.Valid()
      invariant DeadlineSet(c, deadline, due) && DeadlineSet(c, next, due') && OnlyPending(c, first, {deadline, next})
      invariant c.due == old(c.due) && c.now >= old(c.now)
      invariant Idle(r, a, i, due, due') && c.now == TimeBefore(r, a, i)
    {
      at := i;
      ready := WaitOnce(c, deadline, next, r, i, a, due, due', first);
      if ready.Some? { return; }
      StillIdle(r, a, i, due, due');
      NextBegins(r, a, i);
      i := i + 1;
    }
    ready := None;
  }

  lemma {:induction false} NextBegins(r: Round, a: int, i: nat)
    requires i < |r.waits|
    ensures TimeBefore(r, a, i + 1) == TimeAt(r, a, i)
  {
  }

  lemma {:induction false} OneMoreWait(r: Round, a: int, i: nat, now: int)
    requires i < |r.waits| && now == TimeBefore(r, a, i)
    ensures TimeAt(r, a, i) == now + if r.waits[i].advance > 0 then r.waits[i].advance else 0
  {
    var b, ds := TimeAfter(a, r.during), seq(i + 1, j requires 0 <= j <= i => r.waits[j].advance);
    assert TimeAfter(b, ds) == TimeAfter(b, ds[..i]) + if ds[i] > 0 then ds[i] else 0;
    if i > 0 {
      assert ds[..i] == seq(i, j requires 0 <= j <= i - 1 => r.waits[j].advance);
    } else {
      assert ds[..i] == [] && TimeAfter(b, []) == b;
    }
  }

  lemma {:induction false} WhenSet(c: ManualClock, t: nat, due: int)
    requires DeadlineSet(c, t, due)
    ensures c.channel[t].Some? <==> c.now >= due
  {
    if c.channel[t].None? { StillSet(c, t, due); }
  }

  lemma {:induction false} NotPending(c: ManualClock, t: nat)
    requires c.Valid() && t < |c.due| && c.channel[t].Some?
    ensures t !in c.timers
  {
  }

  /** The answer after which a poll goes on. */
  function Going(untilMatch: bool): Answer {
    if untilMatch then Differs else Matches
  }

  /** How a poll was set: until when, how often, and when its time is up. */
  datatype Setting = Setting(untilMatch: bool, interval: int, due: int)

  /** An attempt that began at a in round r was followed by a wait that ended with
      x at wait i. */
  ghost predicate Woke(s: Setting, r: Round, a: int, i: nat, x: Choice) {
    && r.answer == Going(s.untilMatch) && i < |r.waits|
    && Idle(r, a, i, s.due, a + s.interval) && MayTake(x, r, a, i, s.due, a + s.interval)
  }

  /** The next attempt was due, and the poll's time was not up. */
  ghost predicate WentOn(s: Setting, r: Round, a: int, i: nat) {
    Woke(s, r, a, i, Next) && TimeAt(r, a, i) < s.due
  }

  ghost predicate RanOut(s: Setting, r: Round, a: int, i: nat) {
    && (Woke(s, r, a, i, Deadline) || Woke(s, r, a, i, Next))
    && TimeAt(r, a, i) >= s.due
  }

  /** The wait after an attempt never ended. */
  ghost predicate Blocked(s: Setting, r: Round, a: int) {
    r.answer == Going(s.untilMatch) && Idle(r, a, |r.waits|, s.due, a + s.interval)
  }

  /** The attempts of a poll: at says when each began, woke at which wait of its
      round it went on. The first comes at once, the others as soon as they may;
      none begins with an ended context. */
  ghost predicate Attempted(s: Setting, rounds: seq<Round>, start: int, at: seq<int>, woke: seq<nat>) {
    && |at| <= |rounds| && |woke| <= |at| <= |woke| + 1
    && (forall k :: 0 <= k < |at| ==> !rounds[k].ended)
    && (forall k :: 0 <= k < |woke| ==> WentOn(s, rounds[k], at[k], woke[k]))
    && forall k :: 0 <= k < |at| ==> Began(rounds, start, at, woke, k)
  }

  /** Attempt k began when the one before it went on, but for what came between. */
  ghost predicate Began(rounds: seq<Round>, start: int, at: seq<int>, woke: seq<nat>, k: nat)
    requires k < |at| <= |rounds| && k <= |woke|
  {
    && (k > 0 ==> woke[k - 1] < |rounds[k - 1].waits|)
    && at[k] == TimeAfter(if k == 0 then start else TimeAt(rounds[k - 1], at[k - 1], woke[k - 1]), rounds[k].before)
  }

  /** Why the last of the attempts was the last, and when the poll ended. */
  ghost predicate EndsRightly(t: Termination, s: Setting, r: Round, a: int, now: int) {
    match t
    case Matched => s.untilMatch && r.answer == Matches && now == TimeAfter(a, r.during)
    case Mismatch => !s.untilMatch && r.answer == Differs && now == TimeAfter(a, r.during)
    case Panicked => r.answer == Panics && now == TimeAfter(a, r.during)
    case TimedOut => s.untilMatch && exists i :: RanOut(s, r, a, i) && now == TimeAt(r, a, i)
    case Held => !s.untilMatch && exists i :: RanOut(s, r, a, i) && now == TimeAt(r, a, i)
    case Cancelled => exists i :: Woke(s, r, a, i, Context) && now == TimeAt(r, a, i)
    case Invalid => false
  }

  ghost predicate LastAttempt(t: Termination, s: Setting, rounds: seq<Round>, at: seq<int>, woke: seq<nat>, now: int) {
    && 0 < |at| == |woke| + 1 && |at| <= |rounds|
    && EndsRightly(t, s, rounds[|at| - 1], at[|at| - 1], now)
  }

  ghost predicate WokeWithin(rounds: seq<Round>, woke: seq<nat>) {
    |woke| <= |rounds| && forall k :: 0 <= k < |woke| ==> woke[k] < |rounds[k].waits|
  }

  /** When the last attempt so far went on. */
  ghost function LastTime(rounds: seq<Round>, start: int, at: seq<int>, woke: seq<nat>): int
    requires |at| == |woke| && WokeWithin(rounds, woke)
  {
    var k := |at|;
    if k == 0 then start else TimeAt(rounds[k - 1], at[k - 1], woke[k - 1])
  }

  /** The attempt after the given ones was not made: the context had ended. */
  ghost predicate EndedBefore(rounds: seq<Round>, start: int, at: seq<int>, woke: seq<nat>, now: int) {
    && |woke| == |at| < |rounds| && rounds[|at|].ended && WokeWithin(rounds, woke)
    && now == TimeAfter(LastTime(rounds, start, at, woke), rounds[|at|].before)
  }

  /** What a poll that began at start says of itself when it ends. */
  ghost predicate Truthful(r: Result, s: Setting, rounds: seq<Round>, start: int, at: seq<int>, woke: seq<nat>) {
    && r.attempts == |at| && (r.passed <==> r.termination == Matched || r.termination == Held)
    && (|| LastAttempt(r.termination, s, rounds, at, woke, start + r.elapsed)
        || (r.termination == Cancelled && EndedBefore(rounds, start, at, woke, start + r.elapsed)))
  }

  /** A poll that has not ended: every round is over, or a wait goes on. */
  ghost predicate Unended(s: Setting, rounds: seq<Round>, at: seq<int>, woke: seq<nat>) {
    || |woke| == |at| == |rounds|
    || (0 < |at| == |woke| + 1 && |at| <= |rounds| && Blocked(s, rounds[|at| - 1], at[|at| - 1]))
  }

  /** Ends a poll: its timers are stopped. */
  method Finish(c: ManualClock, deadline: nat, next: Option<nat>, ghost first: nat)
    requires c.Valid() && deadline < |c.due|
    requires OnlyPending(c, first, if next.Some? then {deadline, next.value} else {deadline})
    modifies c`timers
    ensures c.Valid() && forall t :: t in c.timers ==> t < first
    ensures c.now == old(c.now)
  {
    if next.Some? { var was := c.Stop(next.value); }
    var was := c.Stop(deadline);
  }

  /** How one attempt and the wait after it end. */
  datatype Outcome = Ends(termination: Termination) | Again | Waiting

  /** One attempt, with its timer, and the wait for what comes first. */
  method Attempt(c: ManualClock, deadline: nat, untilMatch: bool, interval: int, r: Round, ghost s: Setting,
      ghost first: nat)
    returns (t: nat, outcome: Outcome, ghost at: nat)
    requires s == Setting(untilMatch, interval, s.due) && DeadlineSet(c, deadline, s.due)
    requires OnlyPending(c, first, {deadline}) && interval > 0 && first <= deadline
    modifies c
    ensures c.Valid() && |c.due| > |old(c.due)| && c.now >= old(c.now)
    ensures first <= t < |c.due| && t != deadline && OnlyPending(c, first, {deadline, t})
    ensures outcome.Ends? ==> EndsRightly(outcome.termination, s, r, old(c.now), c.now)
    ensures outcome.Waiting? ==> Blocked(s, r, old(c.now))
    ensures outcome.Again? ==>
              && DeadlineSet(c, deadline, s.due) && OnlyPending(c, first, {deadline})
              && WentOn(s, r, old(c.now), at) && c.now == TimeAt(r, old(c.now), at)
  {
    ghost var a := c.now;
    ghost var due' := a + interval;
    at := 0;
    t := c.NewTimer(interval);
    DriveBoth(c, r.during, deadline, t, s.due, due', first);
    if r.answer == Panics { return t, Ends(Panicked), at; }
    if (r.answer == Matches) == untilMatch { return t, Ends(if untilMatch then Matched else Mismatch), at; }
    hide Idle, MayTake, TimeAt, TimeAfter;
    var ready;
    ready, at := Select(c, deadline, t, r, a, s.due, due', first);
    if ready.None? { return t, Waiting, at; }
    assert Woke(s, r, a, at, ready.value);
    if ready.value == Context { return t, Ends(Cancelled), at; }
    if ready.value == Deadline || c.channel[deadline].Some? {
      TimeIsUp(c, deadline, s, r, a, at, ready.value);
      return t, Ends(if untilMatch then TimedOut else Held), at;
    }
    StillSet(c, deadline, s.due);
    outcome := Again;
  }

  lemma {:induction false} TimeIsUp(c: ManualClock, deadline: nat, s: Setting, r: Round, a: int, i: nat, x: Choice)
    requires Woke(s, r, a, i, x) && x != Context && c.now == TimeAt(r, a, i)
    requires x == Deadline || (DeadlineSet(c, deadline, s.due) && c.channel[deadline].Some?)
    ensures RanOut(s, r, a, i)
  {
    hide Idle, TimeAt, TimeAfter;
  }

  /** A poll through the rounds given; None when it still waits after them. A
      poll that has returned left no timer of its own, and it ended for the reason
      it gives, as soon as there was one. */
  method Poll(c: ManualClock, untilMatch: bool, timeout: int, interval: int, rounds: seq<Round>)
    returns (res: Option<Result>, ghost at: seq<int>, ghost woke: seq<nat>)
    requires c.Valid()
    modifies c
    ensures c.Valid() && (res.Some? ==> forall t :: t in c.timers ==> t < |old(c.due)|)
    ensures timeout <= 0 || interval <= 0 ==> res == Some(Result(Invalid, false, 0, 0)) && c.now == old(c.now)
    ensures timeout > 0 && interval > 0 ==>
              var s := Setting(untilMatch, interval, old(c.now) + timeout);
              && Attempted(s, rounds, old(c.now), at, woke)
              && (res.None? ==> Unended(s, rounds, at, woke))
              && (res.Some? ==>
                    Truthful(res.value, s, rounds, old(c.now), at, woke) && res.value.elapsed == c.now - old(c.now))
  {
    at, woke := [], [];
    if timeout <= 0 || interval <= 0 {
      res := Some(Result(Invalid, false, 0, 0));
      return;
    }
    hide *;
    var start := c.now;
    var deadline := StartDeadline(c, timeout);
    res, at, woke := PlayRounds(c, deadline, untilMatch, interval, start, rounds,
      Setting(untilMatch, interval, start + timeout));
  }

  /** The rounds one after the other, up to one that ends the poll or blocks. */
  method PlayRounds(c: ManualClock, deadline: nat, untilMatch: bool, interval: int, start: int, rounds: seq<Round>,
      ghost s: Setting)
    returns (res: Option<Result>, ghost at: seq<int>, ghost woke: seq<nat>)
    requires DeadlineSet(c, deadline, s.due) && OnlyPending(c, deadline, {deadline}) && c.Valid()
    requires deadline < |c.due| && c.now == start && interval > 0 && s == Setting(untilMatch, interval, s.due)
    modifies c
    ensures c.Valid() && (res.Some? ==> forall t :: t in c.timers ==> t < deadline)
    ensures Attempted(s, rounds, start, at, woke)
    ensures res.None? ==> Unended(s, rounds, at, woke)
    ensures res.Some? ==> Truthful(res.value, s, rounds, start, at, woke) && res.value.elapsed == c.now - start
  {
    hide *;
    ghost var first := deadline;
    var next: Option<nat> := None;
    at, woke := [], [];
    NoneAttempted(s, rounds, start);
    for k := 0 to |rounds|
      invariant |at| == |woke| == k && Attempted(s, rounds, start, at, woke)
      invariant WokeWithin(rounds, woke) && c.now == LastTime(rounds, start, at, woke)
      invariant DeadlineSet(c, deadline, s.due) && OnlyPending(c, first, {deadline}) && c.Valid() && |c.due| > deadline
      invariant next.Some? ==> first <= next.value < |c.due| && next.value != deadline
    {
      var r := rounds[k];
      Drive(c, r.before, deadline, s.due, first, {deadline});
      if r.ended {
        EndedNow(s, rounds, start, at, woke, c.now);
        CancelledTruly(s, rounds, start, at, woke, c.now - start);
        res := Some(Result(Cancelled, false, k, c.now - start));
        if next.Some? { MorePending(c, first, deadline, next.value); }
        Finish(c, deadline, next, first);
        return;
      }
      OneMoreAttempt(s, rounds, start, at, woke, c.now);
      at := at + [c.now];
      var t, outcome;
      ghost var i;
      t, outcome, i := Attempt(c, deadline, untilMatch, interval, r, s, first);
      next := Some(t);
      if outcome.Waiting? {
        StillBlocked(s, rounds, at, woke);
        return None, at, woke;
      }
      if outcome.Ends? {
        EndsTruly(s, rounds, start, at, woke, outcome.termination, c.now - start);
        var passed := outcome.termination == Matched || outcome.termination == Held;
        res := Some(Result(outcome.termination, passed, k + 1, c.now - start));
        Finish(c, deadline, next, first);
        return;
      }
      OneMoreWoke(s, rounds, start, at, woke, i);
      woke := woke + [i];
    }
    AllPlayed(s, rounds, at, woke);
    res := None;
  }

  lemma {:induction false} NoneAttempted(s: Setting, rounds: seq<Round>, start: int)
    ensures Attempted(s, rounds, start, [], []) && WokeWithin(rounds, []) && LastTime(rounds, start, [], []) == start
  {
  }

  lemma {:induction false} AllPlayed(s: Setting, rounds: seq<Round>, at: seq<int>, woke: seq<nat>)
    requires |at| == |woke| == |rounds|
    ensures Unended(s, rounds, at, woke)
  {
  }

  lemma {:induction false} StillBlocked(s: Setting, rounds: seq<Round>, at: seq<int>, woke: seq<nat>)
    requires 0 < |at| == |woke| + 1 && |at| <= |rounds| && Blocked(s, rounds[|at| - 1], at[|at| - 1])
    ensures Unended(s, rounds, at, woke)
  {
  }

  lemma {:induction false} OneMoreAttempt(s: Setting, rounds: seq<Round>, start: int, at: seq<int>, woke: seq<nat>,
      began: int)
    requires Attempted(s, rounds, start, at, woke) && |at| == |woke| < |rounds| && !rounds[|at|].ended
    requires WokeWithin(rounds, woke)
    requires began == TimeAfter(LastTime(rounds, start, at, woke), rounds[|at|].before)
    ensures Attempted(s, rounds, start, at + [began], woke)
  {
    var at' := at + [began];
    hide WentOn, TimeAt, TimeAfter;
    forall k | 0 <= k < |at'| ensures Began(rounds, start, at', woke, k) {
      if k < |at| { assert Began(rounds, start, at, woke, k) && at'[k] == at[k]; }
    }
  }

  lemma {:induction false} OneMoreWoke(s: Setting, rounds: seq<Round>, start: int, at: seq<int>, woke: seq<nat>, i: nat)
    requires Attempted(s, rounds, start, at, woke) && 0 < |at| == |woke| + 1 && |at| <= |rounds|
    requires WentOn(s, rounds[|at| - 1], at[|at| - 1], i)
    ensures Attempted(s, rounds, start, at, woke + [i])
    ensures WokeWithin(rounds, woke + [i])
    ensures LastTime(rounds, start, at, woke + [i]) == TimeAt(rounds[|at| - 1], at[|at| - 1], i)
  {
    var woke' := woke + [i];
    assert forall k :: 0 <= k < |woke'| ==> WentOn(s, rounds[k], at[k], woke'[k]);
    hide WentOn, TimeAt, TimeAfter;
    forall k | 0 <= k < |at| ensures Began(rounds, start, at, woke', k) {
      assert Began(rounds, start, at, woke, k);
    }
  }

  lemma {:induction false} EndedNow(s: Setting, rounds: seq<Round>, start: int, at: seq<int>, woke: seq<nat>, now: int)
    requires Attempted(s, rounds, start, at, woke) && |at| == |woke| < |rounds| && rounds[|at|].ended
    requires WokeWithin(rounds, woke)
    requires now == TimeAfter(LastTime(rounds, start, at, woke), rounds[|at|].before)
    ensures EndedBefore(rounds, start, at, woke, now)
  {
    hide Attempted, TimeAfter, LastTime;
  }

  lemma {:induction false} CancelledTruly(s: Setting, rounds: seq<Round>, start: int, at: seq<int>, woke: seq<nat>,
      elapsed: int)
    requires EndedBefore(rounds, start, at, woke, start + elapsed)
    ensures Truthful(Result(Cancelled, false, |at|, elapsed), s, rounds, start, at, woke)
  {
    hide LastAttempt, EndedBefore;
  }

  lemma {:induction false} EndsTruly(s: Setting, rounds: seq<Round>, start: int, at: seq<int>, woke: seq<nat>,
      t: Termination, elapsed: int)
    requires 0 < |at| == |woke| + 1 && |at| <= |rounds|
    requires EndsRightly(t, s, rounds[|at| - 1], at[|at| - 1], start + elapsed)
    ensures Truthful(Result(t, t == Matched || t == Held, |at|, elapsed), s, rounds, start, at, woke)
  {
    hide EndsRightly, EndedBefore;
  }

  // ---- How many attempts there are ----

  /** The time k intervals take. */
  function Spent(k: nat, interval: int): int {
    k * interval
  }

  lemma {:induction false} OneMoreInterval(k: nat, interval: int)
    ensures Spent(k + 1, interval) == Spent(k, interval) + interval && Spent(0, interval) == 0
  {
  }

  lemma {:induction false} NeverBack(now: int, ds: seq<int>)
    ensures TimeAfter(now, ds) >= now
  {
    if ds != [] { NeverBack(now, ds[..|ds| - 1]); }
  }

  /** Attempts are an interval apart or more, and all but the first begin before
      the time is up. */
  lemma {:induction false} AttemptsApart(s: Setting, rounds: seq<Round>, start: int, at: seq<int>, woke: seq<nat>,
      k: nat)
    requires Attempted(s, rounds, start, at, woke) && k < |at| && start < s.due && s.interval > 0
    ensures start + Spent(k, s.interval) <= at[k] && start + Spent(k, s.interval) < s.due
  {
    hide Idle, TimeAt, TimeAfter, Spent;
    assert Began(rounds, start, at, woke, k);
    if k == 0 {
      OneMoreInterval(0, s.interval);
      NeverBack(start, rounds[0].before);
    } else {
      AttemptsApart(s, rounds, start, at, woke, k - 1);
      assert WentOn(s, rounds[k - 1], at[k - 1], woke[k - 1]);
      OneMoreInterval(k - 1, s.interval);
      NeverBack(TimeAt(rounds[k - 1], at[k - 1], woke[k - 1]), rounds[k].before);
    }
  }

  method DriveBoth(c: ManualClock, ds: seq<int>, deadline: nat, next: nat, ghost due: int, ghost due': int,
      ghost first: nat)
    requires DeadlineSet(c, deadline, due) && DeadlineSet(c, next, due') && OnlyPending(c, first, {deadline, next})
    modifies c
    ensures DeadlineSet(c, deadline, due) && DeadlineSet(c, next, due') && OnlyPending(c, first, {deadline, next})
    ensures c.due == old(c.due) && c.now == TimeAfter(old(c.now), ds) >= old(c.now)
  {
    c.Drive(ds);
  }
}
