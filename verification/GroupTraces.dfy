/** What a trace of a suite with once-per-group hooks shows is what happened:
    which hooks ran before a spec, why a spec was skipped, and which failures
    were reported. */
module GroupTraces {
  import opened Options
  import opened Plans
  import opened Sections
  import opened GroupRuns
  import opened GroupLaws
  import opened Permutations
  import Sequences

  /** Spec i is one of group g. */
  predicate Around(w: World, g: nat, i: nat) {
    g < |w.groups| && w.groups[g].first <= i <= w.groups[g].last
  }

  /** BeforeAll k of g was run, and passed. */
  ghost predicate Passed(w: World, t: seq<Event>, g: nat, k: nat) {
    exists q :: 0 <= q < |t| && t[q] == SetUp(g, k) && !w.fails(t[..q], BeforeStep(g, k))
  }

  ghost predicate AllPassed(w: World, t: seq<Event>, g: nat) {
    g < |w.groups| && forall k: nat :: k < |w.groups[g].beforeAll| ==> Passed(w, t, g, k)
  }

  /** A BeforeAll of g was run, and failed. */
  ghost predicate SetUpFails(w: World, t: seq<Event>, g: nat) {
    exists q :: 0 <= q < |t| && SetUpFailsAt(w, t, g, q)
  }

  ghost predicate SetUpFailsAt(w: World, t: seq<Event>, g: nat, q: nat)
    requires q < |t|
  {
    t[q].SetUp? && t[q].g == g && w.fails(t[..q], BeforeStep(g, t[q].k))
  }

  ghost predicate TearDownFails(w: World, t: seq<Event>, g: nat) {
    exists q :: 0 <= q < |t| && TearDownFailsAt(w, t, g, q)
  }

  ghost predicate TearDownFailsAt(w: World, t: seq<Event>, g: nat, q: nat)
    requires q < |t|
  {
    t[q].TearDown? && t[q].g == g && w.fails(t[..q], AfterStep(g, t[q].k))
  }

  /** e may come after t: a spec is run as it turns out, behind all BeforeAlls
      around it; hooks come in order, and those of an outer group first; nothing is
      skipped, given up or reported without its reason. */
  ghost predicate Rightly(w: World, t: seq<Event>, e: Event) {
    match e
    case Ran(i, f) => f == w.fails(t, SpecStep(i)) && forall g: nat :: Around(w, g, i) ==> AllPassed(w, t, g)
    case SetUp(g, k) =>
      && g < |w.groups| && k < |w.groups[g].beforeAll| && (forall j: nat :: j < k ==> Passed(w, t, g, j))
      && forall h: nat :: h != g && Within(w.groups, g, h) ==> AllPassed(w, t, h)
    case TearDown(g, k) =>
      g < |w.groups| && k < |w.groups[g].afterAll| && forall j: nat :: j < k ==> TearDown(g, j) in t
    case BeforeAllFailed(g) => SetUpFails(w, t, g)
    case AfterAllFailed(g) => TearDownFails(w, t, g)
    case Skipped(i) => exists g: nat :: Around(w, g, i) && BeforeAllFailed(g) in t
    case Unstarted(i) => w.failFast && AnyFails(t)
  }

  ghost predicate AllRightly(w: World, t: seq<Event>) {
    forall p :: 0 <= p < |t| ==> Rightly(w, t[..p], t[p])
  }

  /** A failed BeforeAll of g is reported, and every spec of g skipped. */
  ghost predicate SetUpTold(w: World, t: seq<Event>, g: nat) {
    SetUpFails(w, t, g) ==> BeforeAllFailed(g) in t && forall i: nat :: Around(w, g, i) ==> Skipped(i) in t
  }

  ghost predicate TearDownTold(w: World, t: seq<Event>, g: nat) {
    TearDownFails(w, t, g) ==> AfterAllFailed(g) in t
  }

  /** So it is with all groups but one whose hooks are being run. */
  ghost predicate Told(w: World, t: seq<Event>, but: int) {
    forall g: nat :: g < |w.groups| && g != but ==> SetUpTold(w, t, g) && TearDownTold(w, t, g)
  }

  ghost predicate Good(w: World, r: Run) {
    AllRightly(w, r.trace) && Told(w, r.trace, -1) && (r.stopped ==> w.failFast && AnyFails(r.trace))
  }

  // ---- One event more ----

  lemma {:induction false} PassedOn(w: World, t: seq<Event>, u: seq<Event>, g: nat, k: nat)
    requires t <= u && Passed(w, t, g, k)
    ensures Passed(w, u, g, k)
  {
    var q :| 0 <= q < |t| && t[q] == SetUp(g, k) && !w.fails(t[..q], BeforeStep(g, k));
    assert u[..q] == t[..q];
  }

  lemma {:induction false} AllPassedOn(w: World, t: seq<Event>, u: seq<Event>, g: nat)
    requires t <= u && AllPassed(w, t, g)
    ensures AllPassed(w, u, g)
  {
    forall k: nat | k < |w.groups[g].beforeAll| ensures Passed(w, u, g, k) { PassedOn(w, t, u, g, k); }
  }

  lemma {:induction false} RightlySnoc(w: World, t: seq<Event>, e: Event)
    requires AllRightly(w, t) && Rightly(w, t, e)
    ensures AllRightly(w, t + [e])
  {
    var u := t + [e];
    hide Rightly;
    forall p | 0 <= p < |u| ensures Rightly(w, u[..p], u[p]) {
      assert u[..p] == t[..p];
      assert p == |t| ==> t[..p] == t;
    }
  }

  lemma {:induction false} FailsSnoc(w: World, t: seq<Event>, e: Event, g: nat)
    ensures SetUpFails(w, t + [e], g) <==>
              SetUpFails(w, t, g) || (e.SetUp? && e.g == g && w.fails(t, BeforeStep(g, e.k)))
    ensures TearDownFails(w, t + [e], g) <==>
              TearDownFails(w, t, g) || (e.TearDown? && e.g == g && w.fails(t, AfterStep(g, e.k)))
  {
    var u := t + [e];
    assert u[..|t|] == t;
    assert forall q :: 0 <= q < |t| ==> u[..q] == t[..q];
    assert forall q :: 0 <= q < |t| ==> SetUpFailsAt(w, u, g, q) == SetUpFailsAt(w, t, g, q);
    assert forall q :: 0 <= q < |t| ==> TearDownFailsAt(w, u, g, q) == TearDownFailsAt(w, t, g, q);
    assert SetUpFailsAt(w, u, g, |t|) == (e.SetUp? && e.g == g && w.fails(t, BeforeStep(g, e.k)));
    assert TearDownFailsAt(w, u, g, |t|) == (e.TearDown? && e.g == g && w.fails(t, AfterStep(g, e.k)));
    hide SetUpFailsAt, TearDownFailsAt;
  }

  /** e is no hook that fails, unless one of the excepted group. */
  ghost predicate Harmless(w: World, t: seq<Event>, e: Event, but: int) {
    && (e.SetUp? && e.g != but ==> !w.fails(t, BeforeStep(e.g, e.k)))
    && (e.TearDown? && e.g != but ==> !w.fails(t, AfterStep(e.g, e.k)))
  }

  lemma {:induction false} ToldSnoc(w: World, t: seq<Event>, e: Event, but: int)
    requires Told(w, t, but) && Harmless(w, t, e, but)
    ensures Told(w, t + [e], but)
  {
    forall g: nat | g < |w.groups| && g != but
      ensures SetUpTold(w, t + [e], g) && TearDownTold(w, t + [e], g)
    {
      FailsSnoc(w, t, e, g);
      assert SetUpTold(w, t, g) && TearDownTold(w, t, g);
      hide SetUpFails, TearDownFails;
    }
  }

  lemma {:induction false} ToldMore(w: World, t: seq<Event>, but: int)
    requires Told(w, t, -1)
    ensures Told(w, t, but)
  {
    hide SetUpTold, TearDownTold;
  }

  /** The excepted group is told of as well. */
  lemma {:induction false} ToldAll(w: World, t: seq<Event>, but: nat)
    requires Told(w, t, but) && (but < |w.groups| ==> SetUpTold(w, t, but) && TearDownTold(w, t, but))
    ensures Told(w, t, -1)
  {
    hide SetUpTold, TearDownTold;
  }

  lemma {:induction false} GoodSnoc(w: World, r: Run, e: Event, stopped: bool)
    requires Good(w, r) && Rightly(w, r.trace, e) && Harmless(w, r.trace, e, -1)
    requires stopped ==> r.stopped || (w.failFast && Fails(e))
    ensures Good(w, Run(r.trace + [e], stopped))
  {
    RightlySnoc(w, r.trace, e);
    ToldSnoc(w, r.trace, e, -1);
    FailsKept(r.trace, e);
    hide AllRightly, Told, Rightly, AnyFails;
  }

  lemma {:induction false} FailsKept(t: seq<Event>, e: Event)
    ensures AnyFails(t) || Fails(e) ==> AnyFails(t + [e])
  {
    var u := t + [e];
    if AnyFails(t) {
      var p :| 0 <= p < |t| && Fails(t[p]);
      assert u[p] == t[p];
    }
    assert u[|t|] == e;
  }

  // ---- What is around the specs still to run ----

  /** The groups around the specs lo..hi-1 that are not among ids are set up. */
  ghost predicate Ready(w: World, t: seq<Event>, lo: int, hi: int, ids: seq<nat>) {
    forall g: nat :: g < |w.groups| && g !in ids && w.groups[g].first < hi && w.groups[g].last >= lo ==>
      AllPassed(w, t, g)
  }

  lemma {:induction false} ReadyOn(w: World, t: seq<Event>, u: seq<Event>, lo: int, hi: int, lo': int, hi': int,
      ids: seq<nat>)
    requires Ready(w, t, lo, hi, ids) && t <= u && lo <= lo' <= hi' <= hi
    ensures Ready(w, u, lo', hi', ids)
  {
    hide AllPassed;
    forall g: nat | g < |w.groups| && g !in ids && w.groups[g].first < hi' && w.groups[g].last >= lo'
      ensures AllPassed(w, u, g)
    {
      AllPassedOn(w, t, u, g);
    }
  }

  /** The first of several sections, and those after it. */
  lemma {:induction false} ReadyParts(w: World, t: seq<Event>, lo: int, mid: int, hi: int, x: seq<nat>, y: seq<nat>)
    requires Ready(w, t, lo, hi, x + y) && lo <= mid <= hi
    requires Between(w.groups, x, lo, mid, -1) && Between(w.groups, y, mid, hi, -1)
    ensures Ready(w, t, lo, mid, x) && Ready(w, t, mid, hi, y)
  {
    hide AllPassed;
    forall g: nat | g < |w.groups| && g !in x && w.groups[g].first < mid && w.groups[g].last >= lo
      ensures AllPassed(w, t, g)
    {
      assert g !in y;
      assert g !in x + y;
    }
    forall g: nat | g < |w.groups| && g !in y && w.groups[g].first < hi && w.groups[g].last >= mid
      ensures AllPassed(w, t, g)
    {
      assert g !in x;
      assert g !in x + y;
    }
  }

  // ---- The pieces of a run ----

  lemma {:induction false} UnstartGood(w: World, lo: nat, hi: nat, r: Run)
    requires Good(w, r) && r.stopped
    ensures Good(w, Unstart(w, lo, hi, r)) && r.trace <= Unstart(w, lo, hi, r).trace
    decreases hi - lo
  {
    if lo < hi {
      GoodSnoc(w, r, Unstarted(lo), true);
      hide Good;
      UnstartGood(w, lo + 1, hi, if w.included(lo) then r.(trace := r.trace + [Unstarted(lo)]) else r);
    }
  }

  lemma {:induction false} SpecGood(w: World, i: nat, r: Run)
    requires Good(w, r) && !r.stopped && Ready(w, r.trace, i, i + 1, [])
    ensures Good(w, RunSpec(w, i, r)) && r.trace <= RunSpec(w, i, r).trace
  {
    var f := w.fails(r.trace, SpecStep(i));
    GoodSnoc(w, r, Ran(i, f), f && w.failFast);
    hide Good;
  }

  lemma {:induction false} BatchGood(w: World, lo: nat, hi: nat, r: Run)
    requires Good(w, r) && !r.stopped && Ready(w, r.trace, lo, hi, [])
    ensures Good(w, RunBatch(w, lo, hi, r)) && r.trace <= RunBatch(w, lo, hi, r).trace
    decreases hi - lo
  {
    hide Good, Ready;
    if lo < hi {
      ReadyOn(w, r.trace, r.trace, lo, hi, lo, lo + 1, []);
      SpecGood(w, lo, r);
      var r' := RunSpec(w, lo, r);
      ReadyOn(w, r.trace, r'.trace, lo, hi, lo + 1, hi, []);
      if r'.stopped { UnstartGood(w, lo + 1, hi, r'); } else { BatchGood(w, lo + 1, hi, r'); }
    }
  }

  lemma {:induction false} SkipGood(w: World, g: nat, i: nat, t: seq<Event>)
    requires AllRightly(w, t) && Told(w, t, g) && BeforeAllFailed(g) in t && Around(w, g, i)
    ensures var u := t + [Skipped(i)];
            && AllRightly(w, u) && Told(w, u, g) && BeforeAllFailed(g) in u && Skipped(i) in u && t <= u
            && SetUpFails(w, u, g) == SetUpFails(w, t, g) && TearDownFails(w, u, g) == TearDownFails(w, t, g)
  {
    var e := Skipped(i);
    assert Rightly(w, t, e);
    hide AllRightly, Told, Rightly;
    RightlySnoc(w, t, e);
    ToldSnoc(w, t, e, g);
    FailsSnoc(w, t, e, g);
    hide SetUpFails, TearDownFails;
    assert (t + [e])[|t|] == e;
  }

  lemma {:induction false} SkipsGood(w: World, g: nat, lo: nat, hi: nat, r: Run)
    requires AllRightly(w, r.trace) && Told(w, r.trace, g) && BeforeAllFailed(g) in r.trace
    requires g < |w.groups| && w.groups[g].first <= lo && hi <= w.groups[g].last + 1
    ensures var t, u := r.trace, SkipSpecs(lo, hi, r).trace;
            && AllRightly(w, u) && Told(w, u, g) && t <= u && SkipSpecs(lo, hi, r).stopped == r.stopped
            && (forall i: nat :: lo <= i < hi ==> Skipped(i) in u)
            && SetUpFails(w, u, g) == SetUpFails(w, t, g) && TearDownFails(w, u, g) == TearDownFails(w, t, g)
    decreases hi - lo
  {
    hide AllRightly, Told, SetUpFails, TearDownFails;
    var u := SkipSpecs(lo, hi, r).trace;
    if lo < hi {
      var t := r.trace + [Skipped(lo)];
      SkipGood(w, g, lo, r.trace);
      SkipsGood(w, g, lo + 1, hi, r.(trace := t));
      StillIn(t, u, Skipped(lo));
      forall i: nat | lo <= i < hi ensures Skipped(i) in u {
        if i > lo { assert lo + 1 <= i < hi; }
      }
    }
  }

  lemma {:induction false} StillIn(t: seq<Event>, u: seq<Event>, e: Event)
    requires t <= u && e in t
    ensures e in u
  {
  }

  /** The BeforeAlls of g, up to one that fails. */
  lemma {:induction false} BeforesGood(w: World, g: nat, k: nat, r: Run)
    requires g < |w.groups| && k <= |w.groups[g].beforeAll| && Good(w, r) && !r.stopped
    requires forall j: nat :: j < k ==> Passed(w, r.trace, g, j)
    requires forall h: nat :: h != g && Within(w.groups, g, h) ==> AllPassed(w, r.trace, h)
    ensures var b := RunBefores(w, g, k, r);
            && r.trace <= b.0.trace && !b.0.stopped
            && (b.1 ==> Good(w, b.0) && AllPassed(w, b.0.trace, g))
            && (!b.1 ==> AllRightly(w, b.0.trace) && Told(w, b.0.trace, g) && SetUpFails(w, b.0.trace, g)
                         && TearDownTold(w, b.0.trace, g))
    decreases |w.groups[g].beforeAll| - k
  {
    if k < |w.groups[g].beforeAll| {
      var e := SetUp(g, k);
      var t := r.trace + [e];
      assert Rightly(w, r.trace, e);
      if w.fails(r.trace, BeforeStep(g, k)) {
        RightlySnoc(w, r.trace, e);
        ToldMore(w, r.trace, g);
        ToldSnoc(w, r.trace, e, g);
        FailsSnoc(w, r.trace, e, g);
        assert TearDownTold(w, r.trace, g);
        hide AllRightly, SetUpFails, TearDownFails, SetUpTold;
      } else {
        GoodSnoc(w, r, e, false);
        hide Good, AllPassed, Rightly, Within;
        assert t[|r.trace|] == e && t[..|r.trace|] == r.trace;
        forall j: nat | j < k + 1 ensures Passed(w, t, g, j) {
          if j < k { PassedOn(w, r.trace, t, g, j); }
        }
        forall h: nat | h != g && Within(w.groups, g, h) ensures AllPassed(w, t, h) {
          AllPassedOn(w, r.trace, t, h);
        }
        hide Passed;
        BeforesGood(w, g, k + 1, r.(trace := t));
      }
    } else {
      hide Good, Passed;
    }
  }

  /** The AfterAlls of g, all of them. */
  lemma {:induction false} AftersGood(w: World, g: nat, k: nat, r: Run)
    requires g < |w.groups| && k <= |w.groups[g].afterAll| && AllRightly(w, r.trace) && Told(w, r.trace, g)
    requires SetUpTold(w, r.trace, g) && forall j: nat :: j < k ==> TearDown(g, j) in r.trace
    ensures var a := RunAfters(w, g, k, r);
            && r.trace <= a.0.trace && a.0.stopped == r.stopped
            && AllRightly(w, a.0.trace) && Told(w, a.0.trace, g) && SetUpTold(w, a.0.trace, g)
            && (TearDownFails(w, a.0.trace, g) <==> TearDownFails(w, r.trace, g) || a.1)
    decreases |w.groups[g].afterAll| - k
  {
    hide *;
    AftersStep(w, g, k, r);
    if k < |w.groups[g].afterAll| {
      AfterGood(w, g, k, r.trace);
      AftersGood(w, g, k + 1, r.(trace := r.trace + [TearDown(g, k)]));
    }
  }

  lemma {:induction false} AftersStep(w: World, g: nat, k: nat, r: Run)
    requires g < |w.groups| && k <= |w.groups[g].afterAll|
    ensures k == |w.groups[g].afterAll| ==> RunAfters(w, g, k, r) == (r, false)
    ensures k < |w.groups[g].afterAll| ==>
              var rest := RunAfters(w, g, k + 1, r.(trace := r.trace + [TearDown(g, k)]));
              RunAfters(w, g, k, r) == (rest.0, w.fails(r.trace, AfterStep(g, k)) || rest.1)
  {
  }

  lemma {:induction false} AfterGood(w: World, g: nat, k: nat, t: seq<Event>)
    requires g < |w.groups| && k < |w.groups[g].afterAll| && AllRightly(w, t) && Told(w, t, g)
    requires SetUpTold(w, t, g) && forall j: nat :: j < k ==> TearDown(g, j) in t
    ensures var u := t + [TearDown(g, k)];
            && AllRightly(w, u) && Told(w, u, g) && SetUpTold(w, u, g)
            && (TearDownFails(w, u, g) <==> TearDownFails(w, t, g) || w.fails(t, AfterStep(g, k)))
            && forall j: nat :: j < k + 1 ==> TearDown(g, j) in u
  {
    var e := TearDown(g, k);
    assert Rightly(w, t, e);
    hide AllRightly, Told, Rightly;
    RightlySnoc(w, t, e);
    ToldSnoc(w, t, e, g);
    FailsSnoc(w, t, e, g);
    hide SetUpFails, TearDownFails;
    assert (t + [e])[|t|] == e;
  }

  lemma {:induction false} FinishGood(w: World, g: nat, r: Run)
    requires g < |w.groups| && Good(w, r)
    ensures Good(w, FinishGroup(w, g, r)) && r.trace <= FinishGroup(w, g, r).trace
  {
    ToldMore(w, r.trace, g);
    assert SetUpTold(w, r.trace, g) && TearDownTold(w, r.trace, g);
    hide AllRightly, Told, SetUpTold, TearDownFails, SetUpFails;
    AftersGood(w, g, 0, r);
    var a := RunAfters(w, g, 0, r);
    if r.stopped { AnyFailsOn(r.trace, a.0.trace); }
    if a.1 {
      AfterAllTold(w, g, a.0);
    } else {
      ToldAll(w, a.0.trace, g);
    }
  }

  lemma {:induction false} AfterAllTold(w: World, g: nat, a: Run)
    requires g < |w.groups| && AllRightly(w, a.trace) && Told(w, a.trace, g) && SetUpTold(w, a.trace, g)
    requires TearDownFails(w, a.trace, g) && (a.stopped ==> w.failFast && AnyFails(a.trace))
    ensures Good(w, Run(a.trace + [AfterAllFailed(g)], a.stopped || w.failFast))
  {
    var e := AfterAllFailed(g);
    var t := a.trace + [e];
    RightlySnoc(w, a.trace, e);
    ToldSnoc(w, a.trace, e, g);
    FailsSnoc(w, a.trace, e, g);
    FailsKept(a.trace, e);
    assert t[|a.trace|] == e;
    assert SetUpTold(w, t, g) && TearDownTold(w, t, g);
    hide AllRightly, Told, SetUpTold, TearDownTold, AnyFails;
    ToldAll(w, t, g);
  }

  lemma {:induction false} AnyFailsOn(t: seq<Event>, u: seq<Event>)
    requires t <= u && AnyFails(t)
    ensures AnyFails(u)
  {
    var p :| 0 <= p < |t| && Fails(t[p]);
    assert u[p] == t[p];
  }

  /** A group whose BeforeAll failed: all its specs are skipped. */
  lemma {:induction false} SkipGroupGood(w: World, g: nat, lo: nat, hi: nat, r: Run)
    requires g < |w.groups| && w.groups[g].first == lo && w.groups[g].last == hi - 1 && !r.stopped
    requires AllRightly(w, r.trace) && Told(w, r.trace, g) && SetUpFails(w, r.trace, g) && TearDownTold(w, r.trace, g)
    ensures Good(w, SkipGroup(w, g, lo, hi, r)) && r.trace <= SkipGroup(w, g, lo, hi, r).trace
  {
    var e := BeforeAllFailed(g);
    var t := r.trace + [e];
    RightlySnoc(w, r.trace, e);
    ToldSnoc(w, r.trace, e, g);
    FailsKept(r.trace, e);
    assert t[|r.trace|] == e;
    hide AllRightly, Told, Rightly, SetUpFails, TearDownFails, AnyFails;
    FailsSnoc(w, r.trace, e, g);
    SkipsGood(w, g, lo, hi, r.(trace := t));
    var s := SkipSpecs(lo, hi, r.(trace := t)).trace;
    AnyFailsOn(t, s);
    assert SetUpTold(w, s, g) && TearDownTold(w, s, g);
    ToldAll(w, s, g);
  }

  lemma {:induction false} OuterReady(w: World, g: nat, body: seq<Section>, lo: nat, depth: nat, t: seq<Event>)
    requires Laid(Nest(g, body), lo, w.groups, depth)
    requires Ready(w, t, lo, lo + SizeAll(body), [g] + PreOrderAll(body))
    ensures forall h: nat :: h != g && Within(w.groups, g, h) ==> AllPassed(w, t, h)
  {
    PreOrderAllBetween(body, lo, w.groups, |w.groups[g].path|);
    var inner := PreOrderAll(body);
    hide AllPassed;
    forall h: nat | h != g && Within(w.groups, g, h) ensures AllPassed(w, t, h) {
      assert h !in inner;
      assert h !in [g] + inner;
    }
  }

  lemma {:induction false} InnerReady(w: World, g: nat, body: seq<Section>, lo: nat, t: seq<Event>, u: seq<Event>)
    requires Ready(w, t, lo, lo + SizeAll(body), [g] + PreOrderAll(body)) && t <= u && AllPassed(w, u, g)
    ensures Ready(w, u, lo, lo + SizeAll(body), PreOrderAll(body))
  {
    var inner := PreOrderAll(body);
    ReadyOn(w, t, u, lo, lo + SizeAll(body), lo, lo + SizeAll(body), [g] + inner);
    hide AllPassed;
    forall h: nat | h < |w.groups| && h !in inner && w.groups[h].first < lo + SizeAll(body) && w.groups[h].last >= lo
      ensures AllPassed(w, u, h)
    {
      if h != g { assert h !in [g] + inner; }
    }
  }

  lemma {:induction false} SectionGood(w: World, s: Section, lo: nat, depth: nat, r: Run)
    requires Laid(s, lo, w.groups, depth) && GroupsOf(s, |w.groups|) && Good(w, r) && !r.stopped
    requires Ready(w, r.trace, lo, lo + Size(s), PreOrder(s))
    ensures Good(w, RunSection(w, s, lo, r)) && r.trace <= RunSection(w, s, lo, r).trace
    decreases s, 1
  {
    hide Good, Ready, RunSpec, RunBatch, FinishGroup, SkipGroup, RunBefores, AllPassed, Within, AllRightly, Told,
      SetUpFails, TearDownTold;
    match s
    case OneSpec => SpecGood(w, lo, r);
    case Batch(n) => BatchGood(w, lo, lo + n, r);
    case Nest(g, body) =>
      OuterReady(w, g, body, lo, depth, r.trace);
      BeforesGood(w, g, 0, r);
      var b := RunBefores(w, g, 0, r);
      if b.1 {
        InnerReady(w, g, body, lo, r.trace, b.0.trace);
        AllGood(w, body, lo, |w.groups[g].path|, b.0);
        FinishGood(w, g, RunAll(w, body, lo, b.0));
      } else {
        SkipGroupGood(w, g, lo, lo + SizeAll(body), b.0);
        FinishGood(w, g, SkipGroup(w, g, lo, lo + SizeAll(body), b.0));
      }
  }

  lemma {:induction false} AllGood(w: World, ss: seq<Section>, lo: nat, depth: nat, r: Run)
    requires LaidAll(ss, lo, w.groups, depth) && GroupsOfAll(ss, |w.groups|) && Good(w, r)
    requires Ready(w, r.trace, lo, lo + SizeAll(ss), PreOrderAll(ss))
    ensures Good(w, RunAll(w, ss, lo, r)) && r.trace <= RunAll(w, ss, lo, r).trace
    decreases ss, 0
  {
    hide Good, Ready, RunSection, Laid, Unstart;
    if r.stopped {
      UnstartGood(w, lo, lo + SizeAll(ss), r);
    } else if ss != [] {
      var first, rest, mid := ss[0], ss[1..], lo + Size(ss[0]);
      PreOrderBetween(first, lo, w.groups, depth);
      PreOrderAllBetween(rest, mid, w.groups, depth);
      Wider(w.groups, PreOrder(first), lo, mid, depth);
      Wider(w.groups, PreOrderAll(rest), mid, lo + SizeAll(ss), depth);
      ReadyParts(w, r.trace, lo, mid, lo + SizeAll(ss), PreOrder(first), PreOrderAll(rest));
      var r' := if w.included(lo) then RunSection(w, first, lo, r) else r;
      if w.included(lo) { SectionGood(w, first, lo, depth, r); }
      ReadyOn(w, r.trace, r'.trace, mid, lo + SizeAll(ss), mid, lo + SizeAll(ss), PreOrderAll(rest));
      AllGood(w, rest, mid, depth, r');
    }
  }

  lemma {:induction false} Wider(groups: seq<Group>, ids: seq<nat>, lo: int, hi: int, depth: nat)
    requires Between(groups, ids, lo, hi, depth)
    ensures Between(groups, ids, lo, hi, -1)
  {
  }

  // ---- Whole runs ----

  /** Every event has its reason, and what failed shows: the trace has the report
      of a failed BeforeAll or AfterAll exactly where one failed, and skips exactly
      the specs of groups whose BeforeAll did. */
  ghost predicate Faithful(w: World, t: seq<Event>) {
    && AllRightly(w, t)
    && (forall g: nat :: g < |w.groups| ==>
          && (BeforeAllFailed(g) in t <==> SetUpFails(w, t, g))
          && (AfterAllFailed(g) in t <==> TearDownFails(w, t, g)))
    && forall i: nat :: Skipped(i) in t <==> exists g: nat :: Around(w, g, i) && BeforeAllFailed(g) in t
  }

  lemma {:induction false} FailsOn(w: World, t: seq<Event>, n: nat, g: nat)
    requires n <= |t|
    ensures SetUpFails(w, t[..n], g) ==> SetUpFails(w, t, g)
    ensures TearDownFails(w, t[..n], g) ==> TearDownFails(w, t, g)
  {
    assert forall q :: 0 <= q < n ==> t[..n][..q] == t[..q] && t[..n][q] == t[q];
    if SetUpFails(w, t[..n], g) {
      var q :| 0 <= q < n && SetUpFailsAt(w, t[..n], g, q);
      assert SetUpFailsAt(w, t, g, q);
    }
    if TearDownFails(w, t[..n], g) {
      var q :| 0 <= q < n && TearDownFailsAt(w, t[..n], g, q);
      assert TearDownFailsAt(w, t, g, q);
    }
  }

  lemma {:induction false} GoodIsFaithful(w: World, r: Run)
    requires Good(w, r)
    ensures Faithful(w, r.trace)
  {
    var t := r.trace;
    hide SetUpFails, TearDownFails, AllPassed;
    forall g: nat | g < |w.groups|
      ensures BeforeAllFailed(g) in t <==> SetUpFails(w, t, g)
      ensures AfterAllFailed(g) in t <==> TearDownFails(w, t, g)
    {
      assert SetUpTold(w, t, g) && TearDownTold(w, t, g);
      if BeforeAllFailed(g) in t {
        var p :| 0 <= p < |t| && t[p] == BeforeAllFailed(g);
        assert Rightly(w, t[..p], t[p]);
        FailsOn(w, t, p, g);
      }
      if AfterAllFailed(g) in t {
        var p :| 0 <= p < |t| && t[p] == AfterAllFailed(g);
        assert Rightly(w, t[..p], t[p]);
        FailsOn(w, t, p, g);
      }
    }
    forall i: nat
      ensures Skipped(i) in t <==> exists g: nat :: Around(w, g, i) && BeforeAllFailed(g) in t
    {
      if Skipped(i) in t {
        var p :| 0 <= p < |t| && t[p] == Skipped(i);
        assert Rightly(w, t[..p], t[p]);
        var g: nat :| Around(w, g, i) && BeforeAllFailed(g) in t[..p];
        assert BeforeAllFailed(g) in t;
      }
      if g: nat :| Around(w, g, i) && BeforeAllFailed(g) in t {
        assert SetUpFails(w, t, g) && SetUpTold(w, t, g);
      }
    }
  }

  /** However hooks and specs turn out, the trace of a suite is faithful. */
  lemma {:induction false} TraceIsFaithful(w: World, ss: seq<Section>, parallel: seq<Range>, n: nat)
    requires Arranged(ss, w.groups, parallel, n)
    ensures GroupsOfAll(ss, |w.groups|)
    ensures Faithful(w, RunAll(w, ss, 0, Run([], false)).trace)
  {
    var r := Run([], false);
    LaidAllGroups(ss, 0, w.groups, 0);
    forall g: nat | g < |w.groups| ensures g in PreOrderAll(ss) { Listed(ss, w.groups, n, g); }
    hide Faithful, RunAll, SetUpFails, TearDownFails;
    AllGood(w, ss, 0, 0, r);
    GoodIsFaithful(w, RunAll(w, ss, 0, r));
  }

  lemma {:induction false} Listed(ss: seq<Section>, groups: seq<Group>, n: nat, g: nat)
    requires Divides(ss, groups, n) && g < |groups|
    ensures g in PreOrderAll(ss)
  {
    hide LaidAll, PreOrderAll;
    var i := PermutationHits(PreOrderAll(ss), |groups|, g);
  }
}
