/** What every run of a suite with once-per-group hooks keeps, whatever fails. */
module GroupLaws {
  import opened Options
  import opened Plans
  import opened Sections
  import opened GroupRuns
  import Sequences

  // ---- Each selected spec is reported once, in order ----

  function IndexOf(e: Event): seq<nat> {
    match e
    case Ran(i, _) => [i]
    case Skipped(i) => [i]
    case Unstarted(i) => [i]
    case _ => []
  }

  /** The specs reported, in the order they were. */
  function Reported(t: seq<Event>): seq<nat> {
    if t == [] then [] else Reported(t[..|t| - 1]) + IndexOf(t[|t| - 1])
  }

  function Selected(w: World, lo: nat, hi: nat): seq<nat>
    decreases hi - lo
  {
    if lo >= hi then [] else (if w.included(lo) then [lo] else []) + Selected(w, lo + 1, hi)
  }

  lemma {:induction false} OneReport(t: seq<Event>, e: Event)
    ensures Reported(t + [e]) == Reported(t) + IndexOf(e)
  {
    assert (t + [e])[..|t|] == t;
  }

  lemma {:induction false} SelectedSplit(w: World, lo: nat, mid: nat, hi: nat)
    requires lo <= mid <= hi
    ensures Selected(w, lo, hi) == Selected(w, lo, mid) + Selected(w, mid, hi)
    decreases mid - lo
  {
    if lo < mid { SelectedSplit(w, lo + 1, mid, hi); }
  }

  ghost predicate AllIn(w: World, lo: nat, hi: nat) {
    forall i: nat :: lo <= i < hi ==> w.included(i)
  }

  /** A shard never splits a section: it has all of it or none. */
  ghost predicate Whole(w: World, lo: nat, hi: nat) {
    forall i: nat :: lo <= i < hi ==> (w.included(i) <==> w.included(lo))
  }

  ghost predicate Wholes(w: World, ss: seq<Section>, lo: nat)
  {
    ss != [] ==> Whole(w, lo, lo + Size(ss[0])) && Wholes(w, ss[1..], lo + Size(ss[0]))
  }

  lemma {:induction false} AllInWholes(w: World, ss: seq<Section>, lo: nat)
    requires AllIn(w, lo, lo + SizeAll(ss))
    ensures Wholes(w, ss, lo)
  {
    if ss != [] { AllInWholes(w, ss[1..], lo + Size(ss[0])); }
  }

  lemma {:induction false} UnstartReports(w: World, lo: nat, hi: nat, r: Run)
    requires lo <= hi
    ensures Reported(Unstart(w, lo, hi, r).trace) == Reported(r.trace) + Selected(w, lo, hi)
    decreases hi - lo
  {
    hide Reported;
    if lo < hi {
      OneReport(r.trace, Unstarted(lo));
      UnstartReports(w, lo + 1, hi, if w.included(lo) then r.(trace := r.trace + [Unstarted(lo)]) else r);
    }
  }

  lemma {:induction false} SkipReports(w: World, lo: nat, hi: nat, r: Run)
    requires lo <= hi && AllIn(w, lo, hi)
    ensures Reported(SkipSpecs(lo, hi, r).trace) == Reported(r.trace) + Selected(w, lo, hi)
    decreases hi - lo
  {
    hide Reported;
    if lo < hi {
      OneReport(r.trace, Skipped(lo));
      SkipReports(w, lo + 1, hi, r.(trace := r.trace + [Skipped(lo)]));
    }
  }

  lemma {:induction false} BatchStep(w: World, lo: nat, hi: nat, r: Run)
    requires lo < hi && w.included(lo)
    ensures Selected(w, lo, hi) == [lo] + Selected(w, lo + 1, hi)
    ensures Reported(RunSpec(w, lo, r).trace) == Reported(r.trace) + [lo]
    ensures RunBatch(w, lo, hi, r)
            == var r' := RunSpec(w, lo, r);
               if r'.stopped then Unstart(w, lo + 1, hi, r') else RunBatch(w, lo + 1, hi, r')
  {
    OneReport(r.trace, Ran(lo, w.fails(r.trace, SpecStep(lo))));
    hide Reported;
  }

  lemma {:induction false} BatchReports(w: World, lo: nat, hi: nat, r: Run)
    requires lo <= hi && AllIn(w, lo, hi)
    ensures Reported(RunBatch(w, lo, hi, r).trace) == Reported(r.trace) + Selected(w, lo, hi)
    decreases hi - lo
  {
    if lo < hi {
      assert w.included(lo) && AllIn(w, lo + 1, hi);
      hide *;
      BatchStep(w, lo, hi, r);
      var r' := RunSpec(w, lo, r);
      if r'.stopped { UnstartReports(w, lo + 1, hi, r'); } else { BatchReports(w, lo + 1, hi, r'); }
      Sequences.Grouped(Reported(r.trace), [lo], Selected(w, lo + 1, hi));
    } else {
      Sequences.NothingAdded(Reported(r.trace));
      hide Reported;
    }
  }

  lemma {:induction false} BeforesReport(w: World, g: nat, k: nat, r: Run)
    requires g < |w.groups| && k <= |w.groups[g].beforeAll|
    ensures Reported(RunBefores(w, g, k, r).0.trace) == Reported(r.trace)
    decreases |w.groups[g].beforeAll| - k
  {
    if k < |w.groups[g].beforeAll| {
      var t := r.trace + [SetUp(g, k)];
      OneReport(r.trace, SetUp(g, k));
      Sequences.NothingAdded(Reported(r.trace));
      BeforesReport(w, g, k + 1, r.(trace := t));
      hide Reported;
    }
  }

  lemma {:induction false} AftersReport(w: World, g: nat, k: nat, r: Run)
    requires g < |w.groups| && k <= |w.groups[g].afterAll|
    ensures Reported(RunAfters(w, g, k, r).0.trace) == Reported(r.trace)
    decreases |w.groups[g].afterAll| - k
  {
    if k < |w.groups[g].afterAll| {
      var t := r.trace + [TearDown(g, k)];
      OneReport(r.trace, TearDown(g, k));
      Sequences.NothingAdded(Reported(r.trace));
      AftersReport(w, g, k + 1, r.(trace := t));
      hide Reported;
    }
  }

  lemma {:induction false} FinishReports(w: World, g: nat, r: Run)
    requires g < |w.groups|
    ensures Reported(FinishGroup(w, g, r).trace) == Reported(r.trace)
  {
    AftersReport(w, g, 0, r);
    OneReport(RunAfters(w, g, 0, r).0.trace, AfterAllFailed(g));
  }

  lemma {:induction false} SpecReports(w: World, lo: nat, r: Run)
    requires w.included(lo)
    ensures Reported(RunSpec(w, lo, r).trace) == Reported(r.trace) + Selected(w, lo, lo + 1)
  {
    OneReport(r.trace, Ran(lo, w.fails(r.trace, SpecStep(lo))));
    assert Selected(w, lo + 1, lo + 1) == [] && Selected(w, lo, lo + 1) == [lo];
  }

  lemma {:induction false} SkipGroupReports(w: World, g: nat, lo: nat, hi: nat, r: Run)
    requires lo <= hi && AllIn(w, lo, hi)
    ensures Reported(SkipGroup(w, g, lo, hi, r).trace) == Reported(r.trace) + Selected(w, lo, hi)
  {
    OneReport(r.trace, BeforeAllFailed(g));
    SkipReports(w, lo, hi, r.(trace := r.trace + [BeforeAllFailed(g)]));
    assert Reported(r.trace) + [] == Reported(r.trace);
  }

  lemma {:induction false} SectionReports(w: World, s: Section, lo: nat, r: Run)
    requires GroupsOf(s, |w.groups|) && AllIn(w, lo, lo + Size(s))
    ensures Reported(RunSection(w, s, lo, r).trace) == Reported(r.trace) + Selected(w, lo, lo + Size(s))
    decreases s, 1
  {
    hide Reported, Selected, RunSpec, RunBatch, RunBefores, FinishGroup, RunAll, SkipGroup;
    match s
    case OneSpec => SpecReports(w, lo, r);
    case Batch(n) => BatchReports(w, lo, lo + n, r);
    case Nest(g, body) =>
      var b := RunBefores(w, g, 0, r);
      BeforesReport(w, g, 0, r);
      if b.1 {
        AllInWholes(w, body, lo);
        AllReports(w, body, lo, b.0);
        FinishReports(w, g, RunAll(w, body, lo, b.0));
      } else {
        SkipGroupReports(w, g, lo, lo + SizeAll(body), b.0);
        FinishReports(w, g, SkipGroup(w, g, lo, lo + SizeAll(body), b.0));
      }
  }

  lemma {:induction false} NoneSelected(w: World, lo: nat, hi: nat)
    requires forall i: nat :: lo <= i < hi ==> !w.included(i)
    ensures Selected(w, lo, hi) == []
    decreases hi - lo
  {
    if lo < hi { NoneSelected(w, lo + 1, hi); }
  }

  /** Whatever passes, fails or panics, every spec of this shard is reported
      exactly once, as run, skipped or unstarted, in the order declared. */
  lemma {:induction false} AllReports(w: World, ss: seq<Section>, lo: nat, r: Run)
    requires GroupsOfAll(ss, |w.groups|) && Wholes(w, ss, lo)
    ensures Reported(RunAll(w, ss, lo, r).trace) == Reported(r.trace) + Selected(w, lo, lo + SizeAll(ss))
    decreases ss, 0
  {
    hide RunSection, Unstart, Reported, Selected;
    if r.stopped {
      UnstartReports(w, lo, lo + SizeAll(ss), r);
    } else if ss == [] {
      NoneSelected(w, lo, lo);
      assert Reported(r.trace) + [] == Reported(r.trace);
    } else {
      var mid := lo + Size(ss[0]);
      var r' := if w.included(lo) then RunSection(w, ss[0], lo, r) else r;
      if w.included(lo) {
        SectionReports(w, ss[0], lo, r);
      } else {
        NoneSelected(w, lo, mid);
        assert Reported(r.trace) + [] == Reported(r.trace);
      }
      AllReports(w, ss[1..], mid, r');
      SelectedSplit(w, lo, mid, lo + SizeAll(ss));
    }
  }

  // ---- After a failure under FailFast nothing starts ----

  predicate Starts(e: Event) {
    e.Ran? || e.SetUp?
  }

  predicate Fails(e: Event) {
    (e.Ran? && e.failed) || e.BeforeAllFailed? || e.AfterAllFailed?
  }

  predicate AnyFails(t: seq<Event>) {
    exists p :: 0 <= p < |t| && Fails(t[p])
  }

  /** No spec and no BeforeAll comes after a failure. */
  ghost predicate Quiet(t: seq<Event>) {
    forall p, q :: 0 <= p < q < |t| && Fails(t[p]) ==> !Starts(t[q])
  }

  ghost predicate Sober(w: World, r: Run) {
    w.failFast ==> Quiet(r.trace) && (AnyFails(r.trace) ==> r.stopped)
  }

  lemma {:induction false} SoberStep(w: World, r: Run, e: Event, stopped: bool)
    requires Sober(w, r) && (Starts(e) ==> !r.stopped) && (r.stopped ==> stopped)
    requires (Fails(e) && w.failFast ==> stopped)
    ensures Sober(w, Run(r.trace + [e], stopped))
  {
    var t := r.trace + [e];
    if w.failFast {
      forall p, q | 0 <= p < q < |t| && Fails(t[p]) ensures !Starts(t[q]) {
        assert t[p] == r.trace[p];
        assert AnyFails(r.trace);
      }
      if AnyFails(t) {
        var p :| 0 <= p < |t| && Fails(t[p]);
        assert p < |r.trace| ==> Fails(r.trace[p]);
      }
    }
  }

  lemma {:induction false} SoberUnstart(w: World, lo: nat, hi: nat, r: Run)
    requires Sober(w, r)
    ensures Sober(w, Unstart(w, lo, hi, r))
    decreases hi - lo
  {
    if lo < hi {
      SoberStep(w, r, Unstarted(lo), r.stopped);
      SoberUnstart(w, lo + 1, hi, if w.included(lo) then r.(trace := r.trace + [Unstarted(lo)]) else r);
    }
  }

  lemma {:induction false} SoberSkip(w: World, lo: nat, hi: nat, r: Run)
    requires Sober(w, r)
    ensures Sober(w, SkipSpecs(lo, hi, r))
    decreases hi - lo
  {
    if lo < hi {
      SoberStep(w, r, Skipped(lo), r.stopped);
      SoberSkip(w, lo + 1, hi, r.(trace := r.trace + [Skipped(lo)]));
    }
  }

  lemma {:induction false} SoberBatch(w: World, lo: nat, hi: nat, r: Run)
    requires Sober(w, r) && !r.stopped
    ensures Sober(w, RunBatch(w, lo, hi, r))
    decreases hi - lo
  {
    if lo < hi {
      var f := w.fails(r.trace, SpecStep(lo));
      SoberStep(w, r, Ran(lo, f), r.stopped || (f && w.failFast));
      var r' := RunSpec(w, lo, r);
      if r'.stopped { SoberUnstart(w, lo + 1, hi, r'); } else { SoberBatch(w, lo + 1, hi, r'); }
    }
  }

  lemma {:induction false} SoberBefores(w: World, g: nat, k: nat, r: Run)
    requires Sober(w, r) && !r.stopped && g < |w.groups| && k <= |w.groups[g].beforeAll|
    ensures Sober(w, RunBefores(w, g, k, r).0) && !RunBefores(w, g, k, r).0.stopped
    decreases |w.groups[g].beforeAll| - k
  {
    if k < |w.groups[g].beforeAll| {
      SoberStep(w, r, SetUp(g, k), false);
      SoberBefores(w, g, k + 1, r.(trace := r.trace + [SetUp(g, k)]));
    }
  }

  lemma {:induction false} SoberAfters(w: World, g: nat, k: nat, r: Run)
    requires Sober(w, r) && g < |w.groups| && k <= |w.groups[g].afterAll|
    ensures Sober(w, RunAfters(w, g, k, r).0) && RunAfters(w, g, k, r).0.stopped == r.stopped
    decreases |w.groups[g].afterAll| - k
  {
    if k < |w.groups[g].afterAll| {
      SoberStep(w, r, TearDown(g, k), r.stopped);
      SoberAfters(w, g, k + 1, r.(trace := r.trace + [TearDown(g, k)]));
    }
  }

  lemma {:induction false} SoberFinish(w: World, g: nat, r: Run)
    requires Sober(w, r) && g < |w.groups|
    ensures Sober(w, FinishGroup(w, g, r))
  {
    SoberAfters(w, g, 0, r);
    var a := RunAfters(w, g, 0, r).0;
    SoberStep(w, a, AfterAllFailed(g), a.stopped || w.failFast);
  }

  lemma {:induction false} SoberSkipGroup(w: World, g: nat, lo: nat, hi: nat, r: Run)
    requires Sober(w, r)
    ensures Sober(w, SkipGroup(w, g, lo, hi, r))
  {
    SoberStep(w, r, BeforeAllFailed(g), r.stopped || w.failFast);
    SoberSkip(w, lo, hi, Run(r.trace + [BeforeAllFailed(g)], r.stopped || w.failFast));
    SkipIgnoresStop(lo, hi, r.trace + [BeforeAllFailed(g)], r.stopped, r.stopped || w.failFast);
  }

  lemma {:induction false} SkipIgnoresStop(lo: nat, hi: nat, t: seq<Event>, a: bool, b: bool)
    ensures SkipSpecs(lo, hi, Run(t, b)) == SkipSpecs(lo, hi, Run(t, a)).(stopped := b)
    decreases hi - lo
  {
    if lo < hi { SkipIgnoresStop(lo + 1, hi, t + [Skipped(lo)], a, b); }
  }

  lemma {:induction false} SoberSection(w: World, s: Section, lo: nat, r: Run)
    requires GroupsOf(s, |w.groups|) && Sober(w, r) && !r.stopped
    ensures Sober(w, RunSection(w, s, lo, r))
    decreases s, 1
  {
    hide Sober;
    match s
    case OneSpec =>
      var f := w.fails(r.trace, SpecStep(lo));
      SoberStep(w, r, Ran(lo, f), r.stopped || (f && w.failFast));
    case Batch(n) => SoberBatch(w, lo, lo + n, r);
    case Nest(g, body) =>
      var b := RunBefores(w, g, 0, r);
      SoberBefores(w, g, 0, r);
      if b.1 {
        SoberAll(w, body, lo, b.0);
        SoberFinish(w, g, RunAll(w, body, lo, b.0));
      } else {
        SoberSkipGroup(w, g, lo, lo + SizeAll(body), b.0);
        SoberFinish(w, g, SkipGroup(w, g, lo, lo + SizeAll(body), b.0));
      }
  }

  /** Under FailFast no spec and no BeforeAll starts after the first failed
      spec, BeforeAll or AfterAll. */
  lemma {:induction false} SoberAll(w: World, ss: seq<Section>, lo: nat, r: Run)
    requires GroupsOfAll(ss, |w.groups|) && Sober(w, r)
    ensures Sober(w, RunAll(w, ss, lo, r))
    decreases ss, 0
  {
    hide Sober;
    if r.stopped {
      SoberUnstart(w, lo, lo + SizeAll(ss), r);
    } else if ss != [] {
      if w.included(lo) { SoberSection(w, ss[0], lo, r); }
      SoberAll(w, ss[1..], lo + Size(ss[0]), if w.included(lo) then RunSection(w, ss[0], lo, r) else r);
    }
  }
}
