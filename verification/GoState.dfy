/** The state the tasks and cleanups of one spec share, each operation done
    under its lock. */
module GoStates {
  import opened Options

  datatype Failure = Failure(failed: bool, message: string)

  const NO_FAILURE := Failure(false, "")

  /** The fields behind the lock. panicMsg is "" until a task panics. */
  datatype Shared = Shared(
    rec: Failure, panicMsg: string, panicReported: bool, closed: bool,
    cleanups: seq<nat>, cleanupsDone: bool, pending: seq<string>)

  const FRESH := Shared(NO_FAILURE, "", false, false, [], false, [])

  /** The first failure explains the spec. */
  function First(f: Failure, message: string): Failure {
    if f.failed then f else Failure(true, message)
  }

  function FoldPending(f: Failure, pending: seq<string>): Failure {
    if pending == [] then f else First(FoldPending(f, pending[..|pending| - 1]), pending[|pending| - 1])
  }

  /** The spec's own failure comes first, then a task's, then the deferred ones
      in the order they arrived. */
  function Fold(s: Shared, f: Failure): Failure {
    FoldPending(if s.rec.failed then First(f, s.rec.message) else f, s.pending)
  }

  /** A settle point: what tasks recorded is charged to the spec, a task's panic
      once; the last one closes the spec. */
  function Settled(s: Shared, f: Failure, close: bool): (Shared, Failure) {
    var g := Fold(s, f);
    var report := s.panicMsg != "" && !s.panicReported;
    (s.(pending := [], panicReported := s.panicReported || s.panicMsg != "", closed := s.closed || close),
     if report then g.(failed := true) else g)
  }

  // ---- What each operation leaves behind the lock ----

  function Recorded(s: Shared, message: string): Shared {
    s.(rec := First(s.rec, message))
  }

  function Finished(s: Shared, failure: Failure, panicked: string): Shared {
    s.(panicMsg := if s.panicMsg == "" then panicked else s.panicMsg,
       rec := if failure.failed && !s.rec.failed then failure else s.rec)
  }

  function Queued(s: Shared, message: string): Shared {
    s.(pending := s.pending + [message])
  }

  function Registered(s: Shared, id: nat): Shared {
    if s.cleanupsDone then s else s.(cleanups := s.cleanups + [id])
  }

  /** The cleanup registered last is taken; with none left the case is over. */
  function Popped(s: Shared): (Shared, Option<nat>) {
    var n := |s.cleanups|;
    if n == 0 then (s.(cleanupsDone := true), None)
    else (s.(cleanups := s.cleanups[..n - 1]), Some(s.cleanups[n - 1]))
  }

  // ---- What settle points promise, whatever happened before ----

  /** What happens to the shared state of a spec, settle points included. */
  datatype Event =
    | TaskAsserted(message: string)
    | TaskEnded(failure: Failure, panicked: string)
    | Deferred(message: string)
    | CleanupAdded(id: nat)
    | CleanupTaken
    | SettlePoint(f: Failure, close: bool)

  function AfterOne(s: Shared, e: Event): Shared {
    match e
    case TaskAsserted(message) => Recorded(s, message)
    case TaskEnded(failure, panicked) => Finished(s, failure, panicked)
    case Deferred(message) => Queued(s, message)
    case CleanupAdded(id) => Registered(s, id)
    case CleanupTaken => Popped(s).0
    case SettlePoint(f, close) => Settled(s, f, close).0
  }

  function After(events: seq<Event>): Shared {
    if events == [] then FRESH else AfterOne(After(events[..|events| - 1]), events[|events| - 1])
  }

  /** The failures tasks recorded, first to last. */
  function TaskFailures(events: seq<Event>): seq<string> {
    if events == [] then []
    else
      TaskFailures(events[..|events| - 1]) +
      match events[|events| - 1]
      case TaskAsserted(message) => [message]
      case TaskEnded(failure, _) => if failure.failed then [failure.message] else []
      case _ => []
  }

  /** The panics of tasks, first to last. */
  function Panics(events: seq<Event>): seq<string> {
    if events == [] then []
    else
      var e := events[|events| - 1];
      Panics(events[..|events| - 1]) + if e.TaskEnded? && e.panicked != "" then [e.panicked] else []
  }

  /** What came after the last settle point, and what came up to it. */
  function SinceSettle(events: seq<Event>): (r: seq<Event>)
    ensures |r| <= |events|
  {
    if events == [] || events[|events| - 1].SettlePoint? then []
    else SinceSettle(events[..|events| - 1]) + [events[|events| - 1]]
  }

  function UpToSettle(events: seq<Event>): seq<Event> {
    events[..|events| - |SinceSettle(events)|]
  }

  /** The messages put off, first to last. */
  function PutOff(events: seq<Event>): seq<string> {
    if events == [] then []
    else
      var e := events[|events| - 1];
      PutOff(events[..|events| - 1]) + if e.Deferred? then [e.message] else []
  }

  /** The panics settle points reported. */
  function Reported(events: seq<Event>): seq<string> {
    if events == [] then []
    else
      var s, e := After(events[..|events| - 1]), events[|events| - 1];
      Reported(events[..|events| - 1]) +
      if e.SettlePoint? && s.panicMsg != "" && !s.panicReported then [s.panicMsg] else []
  }

  lemma {:induction false} RecIsFirst(events: seq<Event>)
    ensures var rec, all := After(events).rec, TaskFailures(events);
            rec == if all == [] then NO_FAILURE else Failure(true, all[0])
  {
    if events != [] {
      RecIsFirst(events[..|events| - 1]);
      hide FoldPending;
    }
  }

  lemma {:induction false} PendingIsPutOff(events: seq<Event>)
    ensures After(events).pending == PutOff(SinceSettle(events))
  {
    if events != [] && !events[|events| - 1].SettlePoint? {
      var init, e := events[..|events| - 1], events[|events| - 1];
      PendingIsPutOff(init);
      var since := SinceSettle(init);
      assert (since + [e])[..|since|] == since && (since + [e])[|since|] == e;
    }
    hide FoldPending;
  }

  lemma {:induction false} PendingFolds(f: Failure, pending: seq<string>)
    ensures FoldPending(f, pending) == if f.failed || pending == [] then f else Failure(true, pending[0])
  {
    if pending != [] { PendingFolds(f, pending[..|pending| - 1]); }
  }

  /** At any settle point the first failure explains the spec: its own, or else the
      first that any task recorded, or else the first put off since the last one. */
  lemma {:induction false} FirstFailureWins(events: seq<Event>, f: Failure, close: bool)
    ensures var g := Settled(After(events), f, close).1;
            var all := (if f.failed then [f.message] else []) + TaskFailures(events) + PutOff(SinceSettle(events));
            && g.message == (if all == [] then f.message else all[0])
            && (g.failed <==> all != [] || Reported(events + [SettlePoint(f, close)]) != Reported(events))
  {
    var s := After(events);
    RecIsFirst(events);
    PendingIsPutOff(events);
    PendingFolds(if s.rec.failed then First(f, s.rec.message) else f, s.pending);
    var more := events + [SettlePoint(f, close)];
    assert more[..|events|] == events && more[|events|] == SettlePoint(f, close);
    hide After, TaskFailures, PutOff, SinceSettle, FoldPending;
  }

  lemma {:induction false} PanicKept(events: seq<Event>)
    ensures var s, all := After(events), Panics(events);
            && s.panicMsg == (if all == [] then "" else all[0])
            && (all != [] ==> all[0] != "")
  {
    if events != [] {
      PanicKept(events[..|events| - 1]);
      hide FoldPending;
    }
  }

  lemma {:induction false} EarlierPanics(events: seq<Event>, n: nat)
    requires n <= |events|
    ensures Panics(events[..n]) <= Panics(events)
  {
    if n < |events| {
      assert events[..|events| - 1][..n] == events[..n];
      EarlierPanics(events[..|events| - 1], n);
    } else {
      assert events[..n] == events;
    }
  }

  lemma {:induction false} SettleOnce(init: seq<Event>, e: Event, s: Shared)
    requires e.SettlePoint? && s == After(init)
    requires s.panicReported <==> Panics(UpToSettle(init)) != []
    requires Reported(init) == if Panics(UpToSettle(init)) == [] then [] else [Panics(UpToSettle(init))[0]]
    ensures Reported(init) + (if s.panicMsg != "" && !s.panicReported then [s.panicMsg] else [])
            == if Panics(init) == [] then [] else [Panics(init)[0]]
    ensures AfterOne(s, e).panicReported <==> Panics(init) != []
  {
    PanicKept(init);
    EarlierPanics(init, |init| - |SinceSettle(init)|);
    hide After, Panics, SinceSettle, Reported, FoldPending;
  }

  /** However many tasks panic and however often the spec settles, one panic is
      reported, the first, as soon as a settle point comes after it. */
  lemma {:induction false} PanicReportedOnce(events: seq<Event>)
    ensures var seen := Panics(UpToSettle(events));
            && Reported(events) == (if seen == [] then [] else [seen[0]])
            && (After(events).panicReported <==> seen != [])
  {
    if events != [] {
      var init, e := events[..|events| - 1], events[|events| - 1];
      PanicReportedOnce(init);
      UpToStep(events);
      if e.SettlePoint? { SettleOnce(init, e, After(init)); }
      hide UpToSettle, SinceSettle, FoldPending;
    }
  }

  lemma {:induction false} UpToStep(events: seq<Event>)
    requires events != []
    ensures var init, e := events[..|events| - 1], events[|events| - 1];
            && (e.SettlePoint? ==> UpToSettle(events) == events)
            && (!e.SettlePoint? ==> UpToSettle(events) == UpToSettle(init))
  {
  }

  class GoState {
    var rec: Failure
    var panicMsg: string
    var panicReported: bool
    var closed: bool
    var cleanups: seq<nat>
    var cleanupsDone: bool
    var pending: seq<string>

    ghost function View(): Shared
      reads this
    {
      Shared(rec, panicMsg, panicReported, closed, cleanups, cleanupsDone, pending)
    }

    constructor ()
      ensures View() == FRESH
    {
      rec, panicMsg, panicReported, closed := NO_FAILURE, "", false, false;
      cleanups, cleanupsDone, pending := [], false, [];
    }

    /** A failed assertion of a task: the first one is kept. */
    method Record(message: string)
      modifies `rec
      ensures View() == Recorded(old(View()), message)
    {
      if !rec.failed { rec := Failure(true, message); }
    }

    /** A task ended, by returning when panicked is "". failure is what its own
        context recorded. */
    method Finish(failure: Failure, panicked: string)
      modifies `rec, `panicMsg
      ensures View() == Finished(old(View()), failure, panicked)
    {
      if panicked != "" && panicMsg == "" { panicMsg := panicked; }
      if failure.failed && !rec.failed { rec := failure; }
    }

    method Errorf(message: string)
      modifies `pending
      ensures View() == Queued(old(View()), message)
    {
      pending := pending + [message];
    }

    /** Registers cleanup id; a finished case refuses it. */
    method Cleanup(id: nat) returns (ok: bool)
      modifies `cleanups
      ensures ok == !cleanupsDone && View() == Registered(old(View()), id)
    {
      ok := !cleanupsDone;
      if ok { cleanups := cleanups + [id]; }
    }

    /** The cleanup registered last, or none, in which case the case is over. */
    method PopCleanup() returns (id: Option<nat>)
      modifies `cleanups, `cleanupsDone
      ensures (View(), id) == Popped(old(View()))
    {
      var n := |cleanups|;
      if n == 0 {
        cleanupsDone := true;
        return None;
      }
      id := Some(cleanups[n - 1]);
      cleanups := cleanups[..n - 1];
    }

    method FoldInto(f: Failure) returns (g: Failure)
      modifies `pending
      ensures g == Fold(old(View()), f) && View() == old(View()).(pending := [])
    {
      g := f;
      if rec.failed && !g.failed { g := Failure(true, rec.message); }
      var taken := pending;
      pending := [];
      ghost var base := g;
      for i := 0 to |taken|
        invariant g == FoldPending(base, taken[..i])
      {
        assert taken[..i + 1][..i] == taken[..i];
        if !g.failed { g := g.(message := taken[i]); }
        g := g.(failed := true);
      }
      assert taken[..|taken|] == taken;
    }

    method Settle(f: Failure, close: bool) returns (g: Failure)
      modifies this
      ensures View() == Settled(old(View()), f, close).0 && g == Settled(old(View()), f, close).1
    {
      g := FoldInto(f);
      if panicMsg != "" {
        if !panicReported { g := g.(failed := true); }
        panicReported := true;
      }
      if close { closed := true; }
    }
  }
}
