/** Running a suite that has once-per-group hooks, against a backend without
    subtests. */
module GroupRuns {
  import opened Options
  import opened Declarations
  import opened Plans
  import opened Sections

  datatype Step = SpecStep(i: nat) | BeforeStep(g: nat, k: nat) | AfterStep(g: nat, k: nat)

  datatype Event =
    | Ran(i: nat, failed: bool)
    | SetUp(g: nat, k: nat)
    | TearDown(g: nat, k: nat)
    | BeforeAllFailed(g: nat)
    | AfterAllFailed(g: nat)
    | Skipped(i: nat)
    | Unstarted(i: nat)

  /** Whether a step fails (or panics), given everything that happened before. */
  type Outcomes = (seq<Event>, Step) -> bool

  datatype World = World(groups: seq<Group>, fails: Outcomes, failFast: bool, included: nat -> bool)

  datatype Run = Run(trace: seq<Event>, stopped: bool)

  // ---- Running the sections directly ----

  function RunSpec(w: World, i: nat, r: Run): Run {
    var f := w.fails(r.trace, SpecStep(i));
    Run(r.trace + [Ran(i, f)], r.stopped || (f && w.failFast))
  }

  /** The selected specs of lo..hi-1 will never start. */
  function Unstart(w: World, lo: nat, hi: nat, r: Run): Run
    decreases hi - lo
  {
    if lo >= hi then r
    else Unstart(w, lo + 1, hi, if w.included(lo) then r.(trace := r.trace + [Unstarted(lo)]) else r)
  }

  function RunBatch(w: World, lo: nat, hi: nat, r: Run): Run
    decreases hi - lo
  {
    if lo >= hi then r
    else
      var r' := RunSpec(w, lo, r);
      if r'.stopped then Unstart(w, lo + 1, hi, r') else RunBatch(w, lo + 1, hi, r')
  }

  function SkipSpecs(lo: nat, hi: nat, r: Run): Run
    decreases hi - lo
  {
    if lo >= hi then r else SkipSpecs(lo + 1, hi, r.(trace := r.trace + [Skipped(lo)]))
  }

  /** The BeforeAll hooks of g from the k-th on, up to the first that fails. */
  function RunBefores(w: World, g: nat, k: nat, r: Run): (Run, bool)
    requires g < |w.groups| && k <= |w.groups[g].beforeAll|
    decreases |w.groups[g].beforeAll| - k
  {
    if k == |w.groups[g].beforeAll| then (r, true)
    else
      var r' := r.(trace := r.trace + [SetUp(g, k)]);
      if w.fails(r.trace, BeforeStep(g, k)) then (r', false) else RunBefores(w, g, k + 1, r')
  }

  /** The AfterAll hooks of g from the k-th on, and whether any fails. */
  function RunAfters(w: World, g: nat, k: nat, r: Run): (Run, bool)
    requires g < |w.groups| && k <= |w.groups[g].afterAll|
    decreases |w.groups[g].afterAll| - k
  {
    if k == |w.groups[g].afterAll| then (r, false)
    else
      var f := w.fails(r.trace, AfterStep(g, k));
      var rest := RunAfters(w, g, k + 1, r.(trace := r.trace + [TearDown(g, k)]));
      (rest.0, f || rest.1)
  }

  /** A failed BeforeAll skips the whole group. */
  function SkipGroup(w: World, g: nat, lo: nat, hi: nat, r: Run): Run {
    SkipSpecs(lo, hi, r.(trace := r.trace + [BeforeAllFailed(g)])).(stopped := r.stopped || w.failFast)
  }

  function FinishGroup(w: World, g: nat, r: Run): Run
    requires g < |w.groups|
  {
    var a := RunAfters(w, g, 0, r);
    if a.1 then Run(a.0.trace + [AfterAllFailed(g)], a.0.stopped || w.failFast) else a.0
  }

  function RunSection(w: World, s: Section, lo: nat, r: Run): Run
    requires GroupsOf(s, |w.groups|)
    decreases s, 0
  {
    match s
    case OneSpec => RunSpec(w, lo, r)
    case Batch(n) => RunBatch(w, lo, lo + n, r)
    case Nest(g, body) =>
      var b := RunBefores(w, g, 0, r);
      FinishGroup(w, g, if b.1 then RunAll(w, body, lo, b.0) else SkipGroup(w, g, lo, lo + SizeAll(body), b.0))
  }

  /** Sections from spec lo on, until FailFast stops the run. */
  function RunAll(w: World, ss: seq<Section>, lo: nat, r: Run): Run
    requires GroupsOfAll(ss, |w.groups|)
    decreases ss, 0
  {
    if r.stopped then Unstart(w, lo, lo + SizeAll(ss), r)
    else if ss == [] then r
    else RunAll(w, ss[1..], lo + Size(ss[0]), if w.included(lo) then RunSection(w, ss[0], lo, r) else r)
  }

  predicate GroupsOf(s: Section, n: nat)
    decreases s, 0
  {
    s.Nest? ==> s.g < n && GroupsOfAll(s.body, n)
  }

  predicate GroupsOfAll(ss: seq<Section>, n: nat)
    decreases ss, 0
  {
    ss != [] ==> GroupsOf(ss[0], n) && GroupsOfAll(ss[1..], n)
  }

  // ---- Walking the plan by index ----

  /** The last spec of a section that begins at lo. */
  function Last(s: Section, lo: nat): nat {
    if Size(s) == 0 then lo else lo + Size(s) - 1
  }

  /** A run of parallel specs is found by the place of its first. */
  ghost predicate Found(s: Section, lo: nat, byStart: map<nat, nat>, parallel: seq<Range>)
    decreases s, 0
  {
    match s
    case OneSpec => lo !in byStart
    case Batch(n) => lo in byStart && byStart[lo] < |parallel| && parallel[byStart[lo]] == Range(lo, Last(s, lo))
    case Nest(_, body) => FoundAll(body, lo, byStart, parallel)
  }

  ghost predicate FoundAll(ss: seq<Section>, lo: nat, byStart: map<nat, nat>, parallel: seq<Range>)
    decreases ss, 0
  {
    ss != [] ==> Found(ss[0], lo, byStart, parallel) && FoundAll(ss[1..], lo + Size(ss[0]), byStart, parallel)
  }

  lemma {:induction false} LaidGroups(s: Section, lo: nat, groups: seq<Group>, depth: nat)
    requires Laid(s, lo, groups, depth)
    ensures GroupsOf(s, |groups|)
    decreases s, 0
  {
    if s.Nest? { LaidAllGroups(s.body, lo, groups, |groups[s.g].path|); }
  }

  lemma {:induction false} LaidAllGroups(ss: seq<Section>, lo: nat, groups: seq<Group>, depth: nat)
    requires LaidAll(ss, lo, groups, depth)
    ensures GroupsOfAll(ss, |groups|)
    decreases ss, 0
  {
    if ss != [] {
      LaidGroups(ss[0], lo, groups, depth);
      LaidAllGroups(ss[1..], lo + Size(ss[0]), groups, depth);
    }
  }

  /** The next group starts no earlier than the section it is in or after. */
  lemma {:induction false} NextTop(ss: seq<Section>, lo: nat, groups: seq<Group>, depth: nat)
    requires LaidAll(ss, lo, groups, depth) && TopIds(ss) != []
    ensures TopIds(ss)[0] < |groups| && groups[TopIds(ss)[0]].first >= lo
    ensures !ss[0].Nest? ==> groups[TopIds(ss)[0]].first > lo
    ensures ss[0].Nest? ==> TopIds(ss) == [ss[0].g] + TopIds(ss[1..]) && groups[ss[0].g].first == lo
  {
    if !ss[0].Nest? { NextTop(ss[1..], lo + Size(ss[0]), groups, depth); }
  }

  /** What the walk knows about the sections still ahead of spec i. */
  ghost predicate Ahead(rest: seq<Section>, i: nat, depth: nat, w: World, children: seq<seq<nat>>,
      byStart: map<nat, nat>,
      parallel: seq<Range>, kids: seq<nat>)
  {
    && LaidAll(rest, i, w.groups, depth) && LinkedAll(rest, children) && FoundAll(rest, i, byStart, parallel)
    && kids == TopIds(rest) && GroupsOfAll(rest, |w.groups|) && |children| == |w.groups|
  }

  class GroupRun {
    const w: World
    const parallel: seq<Range>
    const children: seq<seq<nat>>
    const top: seq<nat>
    const parallelByStart: map<nat, nat>
    var trace: seq<Event>
    var failFastStopped: bool

    ghost function Now(): Run
      reads this
    {
      Run(trace, failFastStopped)
    }

    constructor (w: World, parallel: seq<Range>, children: seq<seq<nat>>, top: seq<nat>, byStart: map<nat, nat>)
      ensures this.w == w && this.parallel == parallel && this.children == children && this.top == top
      ensures parallelByStart == byStart && Now() == Run([], false)
    {
      this.w, this.parallel, this.children, this.top, this.parallelByStart := w, parallel, children, top, byStart;
      trace, failFastStopped := [], false;
    }

    method MarkFailFast()
      modifies `failFastStopped
      ensures failFastStopped == (old(failFastStopped) || w.failFast)
    {
      if w.failFast { failFastStopped := true; }
    }

    method RunOneSpec(i: nat)
      modifies this
      ensures Now() == RunSpec(w, i, old(Now()))
    {
      var failed := w.fails(trace, SpecStep(i));
      trace := trace + [Ran(i, failed)];
      if failed { MarkFailFast(); }
    }

    method ReportRangeUnstarted(lo: nat, hi: int)
      requires hi >= -1
      modifies `trace
      ensures Now() == Unstart(w, lo, hi + 1, old(Now()))
    {
      var i := lo;
      while i <= hi
        invariant Unstart(w, i, hi + 1, Now()) == Unstart(w, lo, hi + 1, old(Now()))
      {
        if w.included(i) { trace := trace + [Unstarted(i)]; }
        i := i + 1;
      }
    }

    method RunParallelGroup(pi: nat)
      requires pi < |parallel| && !failFastStopped
      modifies this
      ensures Now() == RunBatch(w, parallel[pi].first, parallel[pi].last + 1, old(Now()))
    {
      var rng := parallel[pi];
      var i := rng.first;
      while i <= rng.last
        invariant !failFastStopped
        invariant RunBatch(w, i, rng.last + 1, Now()) == RunBatch(w, rng.first, rng.last + 1, old(Now()))
      {
        RunOneSpec(i);
        if failFastStopped {
          ReportRangeUnstarted(i + 1, rng.last);
          return;
        }
        i := i + 1;
      }
    }

    /** The BeforeAlls in order up to the first that fails, in which case the
        group's specs are reported skipped. */
    method RunBeforeAlls(g: nat) returns (ok: bool)
      requires g < |w.groups|
      modifies this
      ensures var b := RunBefores(w, g, 0, old(Now()));
              ok == b.1
              && Now() == if ok then b.0 else SkipGroup(w, g, w.groups[g].first, w.groups[g].last + 1, b.0)
    {
      var hooks := w.groups[g].beforeAll;
      var failed, k := false, 0;
      while k < |hooks|
        invariant 0 <= k <= |hooks| && !failed && RunBefores(w, g, k, Now()) == RunBefores(w, g, 0, old(Now()))
      {
        var f := w.fails(trace, BeforeStep(g, k));
        trace := trace + [SetUp(g, k)];
        if f {
          failed := true;
          break;
        }
        k := k + 1;
      }
      ok := !failed;
      if failed {
        trace := trace + [BeforeAllFailed(g)];
        ReportGroupSkipped(g);
        MarkFailFast();
      }
    }

    method ReportGroupSkipped(g: nat)
      requires g < |w.groups|
      modifies `trace
      ensures Now() == SkipSpecs(w.groups[g].first, w.groups[g].last + 1, old(Now()))
    {
      var i := w.groups[g].first;
      while i <= w.groups[g].last
        invariant SkipSpecs(i, w.groups[g].last + 1, Now())
                  == SkipSpecs(w.groups[g].first, w.groups[g].last + 1, old(Now()))
      {
        trace := trace + [Skipped(i)];
        i := i + 1;
      }
    }

    /** Every AfterAll runs, whatever the others and the group did. */
    method RunAfterAlls(g: nat)
      requires g < |w.groups|
      modifies this
      ensures Now() == FinishGroup(w, g, old(Now()))
    {
      var hooks := w.groups[g].afterAll;
      var failed, k := false, 0;
      while k < |hooks|
        invariant 0 <= k <= |hooks|
        invariant RunAfters(w, g, 0, old(Now()))
          == (RunAfters(w, g, k, Now()).0, failed || RunAfters(w, g, k, Now()).1)
      {
        var f := w.fails(trace, AfterStep(g, k));
        trace := trace + [TearDown(g, k)];
        failed := failed || f;
        k := k + 1;
      }
      if failed {
        trace := trace + [AfterAllFailed(g)];
        MarkFailFast();
      }
    }

    /** One whole group: its hooks and, unless a BeforeAll failed, its specs. */
    method RunGroup(g: nat, ghost s: Section)
      requires g < |w.groups| && |children| == |w.groups| && s.Nest? && s.g == g && GroupsOf(s, |w.groups|)
      requires w.groups[g].last + 1 == w.groups[g].first + SizeAll(s.body)
      requires Ahead(s.body, w.groups[g].first, |w.groups[g].path|, w, children, parallelByStart, parallel, children[g])
      modifies this
      ensures Now() == RunSection(w, s, w.groups[g].first, old(Now()))
      decreases s, 2
    {
      var ok := RunBeforeAlls(g);
      if ok { RunRange(w.groups[g].first, w.groups[g].last, children[g], s.body, |w.groups[g].path|); }
      RunAfterAlls(g);
    }

    /** The specs lo..hi, of which kids are the outermost groups. */
    method RunRange(lo: nat, hi: int, kids: seq<nat>, ghost ss: seq<Section>, ghost depth: nat)
      requires Ahead(ss, lo, depth, w, children, parallelByStart, parallel, kids) && hi + 1 == lo + SizeAll(ss)
      requires GroupsOfAll(ss, |w.groups|)
      modifies this
      ensures Now() == RunAll(w, ss, lo, old(Now()))
      decreases ss, 1
    {
      ghost var j := 0;
      var k, i := 0, lo;
      hide Ahead, RunAll, RunSection;
      assert ss[0..] == ss && kids[0..] == kids;
      while i <= hi
        invariant lo <= i && 0 <= k <= |kids| && 0 <= j <= |ss| && hi + 1 == i + SizeAll(ss[j..])
        invariant GroupsOfAll(ss[j..], |w.groups|)
        invariant Ahead(ss[j..], i, depth, w, children, parallelByStart, parallel, kids[k..])
        invariant RunAll(w, ss[j..], i, Now()) == RunAll(w, ss, lo, old(Now()))
        decreases hi + 1 - i
      {
        if failFastStopped {
          StoppedRun(w, ss[j..], i, Now());
          ReportRangeUnstarted(i, hi);
          return;
        }
        NextSection(ss, j, i, depth, w, children, parallelByStart, parallel, kids, k);
        NextRun(w, ss, j, i, Now());
        if k < |kids| && w.groups[kids[k]].first == i {
          var g := kids[k];
          k := k + 1;
          if w.included(i) { RunGroup(g, ss[j]); }
          i := w.groups[g].last + 1;
        } else if i in parallelByStart {
          var pi := parallelByStart[i];
          if w.included(i) {
            RunParallelGroup(pi);
            BatchRun(w, ss[j], i);
          }
          i := parallel[pi].last + 1;
        } else {
          if w.included(i) {
            RunOneSpec(i);
            SpecRun(w, ss[j], i);
          }
          i := i + 1;
        }
        j := j + 1;
      }
      NoneAhead(ss[j..], i, depth, w, children, parallelByStart, parallel, kids[k..], Now());
    }
  }

  lemma {:induction false} StoppedRun(w: World, ss: seq<Section>, lo: nat, r: Run)
    requires GroupsOfAll(ss, |w.groups|) && r.stopped
    ensures RunAll(w, ss, lo, r) == Unstart(w, lo, lo + SizeAll(ss), r)
  {
  }

  lemma {:induction false} NoneAhead(rest: seq<Section>, i: nat, depth: nat, w: World, children: seq<seq<nat>>,
      byStart: map<nat, nat>,
      parallel: seq<Range>, kids: seq<nat>, r: Run)
    requires Ahead(rest, i, depth, w, children, byStart, parallel, kids) && SizeAll(rest) == 0
    requires GroupsOfAll(rest, |w.groups|)
    ensures RunAll(w, rest, i, r) == r
  {
    if rest != [] { SectionsSplit(rest, i, w.groups, depth); }
  }

  lemma {:induction false} NextRun(w: World, ss: seq<Section>, j: nat, i: nat, r: Run)
    requires j < |ss| && GroupsOfAll(ss[j..], |w.groups|) && !r.stopped
    ensures GroupsOf(ss[j], |w.groups|) && GroupsOfAll(ss[j + 1..], |w.groups|)
    ensures RunAll(w, ss[j..], i, r)
            == RunAll(w, ss[j + 1..], i + Size(ss[j]), if w.included(i) then RunSection(w, ss[j], i, r) else r)
  {
    assert ss[j..][0] == ss[j] && ss[j..][1..] == ss[j + 1..];
  }

  lemma {:induction false} BatchRun(w: World, s: Section, lo: nat)
    requires s.Batch?
    ensures forall r :: RunSection(w, s, lo, r) == RunBatch(w, lo, lo + s.n, r)
  {
  }

  lemma {:induction false} SpecRun(w: World, s: Section, lo: nat)
    requires s.OneSpec?
    ensures forall r :: RunSection(w, s, lo, r) == RunSpec(w, lo, r)
  {
  }

  lemma {:induction false} FirstSection(s: Section, i: nat, depth: nat, w: World, children: seq<seq<nat>>,
      byStart: map<nat, nat>,
      parallel: seq<Range>)
    requires Laid(s, i, w.groups, depth)
    ensures s.Nest? ==> s.g < |w.groups| && w.groups[s.g].first == i && w.groups[s.g].last + 1 == i + SizeAll(s.body)
    ensures s.Nest? ==> LaidAll(s.body, i, w.groups, |w.groups[s.g].path|)
    ensures s.Nest? && Linked(s, children) ==>
              s.g < |children| && children[s.g] == TopIds(s.body) && LinkedAll(s.body, children)
    ensures s.Nest? && Found(s, i, byStart, parallel) ==> FoundAll(s.body, i, byStart, parallel)
    ensures s.Nest? && GroupsOf(s, |w.groups|) ==> GroupsOfAll(s.body, |w.groups|)
    ensures s.OneSpec? && Found(s, i, byStart, parallel) ==> i !in byStart
    ensures s.OneSpec? ==> Size(s) == 1
    ensures s.Batch? ==> Size(s) == s.n
    ensures s.Batch? && Found(s, i, byStart, parallel) ==> i in byStart && byStart[i] < |parallel|
    ensures s.Batch? && Found(s, i, byStart, parallel) ==> parallel[byStart[i]] == Range(i, Last(s, i))
  {
  }

  /** At spec i, the index alone tells which kind of section begins there. */
  lemma {:induction false} NextSection(ss: seq<Section>, j: nat, i: nat, depth: nat, w: World, children: seq<seq<nat>>,
      byStart: map<nat, nat>, parallel: seq<Range>, kids: seq<nat>, k: nat)
    requires j <= |ss| && k <= |kids| && SizeAll(ss[j..]) > 0
    requires Ahead(ss[j..], i, depth, w, children, byStart, parallel, kids[k..])
    ensures j < |ss| && SizeAll(ss[j..]) == Size(ss[j]) + SizeAll(ss[j + 1..]) && Size(ss[j]) > 0
    ensures k < |kids| ==> kids[k] < |w.groups|
    ensures var nest := k < |kids| && w.groups[kids[k]].first == i;
            && (nest <==> ss[j].Nest?)
            && (!nest ==> (i in byStart <==> ss[j].Batch?))
            && (nest ==> ss[j].g == kids[k] && w.groups[kids[k]].last + 1 == i + SizeAll(ss[j].body)
                         && |children| == |w.groups|
                         && Ahead(ss[j].body, i, |w.groups[kids[k]].path|, w, children, byStart, parallel,
                             children[kids[k]]))
            && (ss[j].Batch? ==> i in byStart && byStart[i] < |parallel|)
            && (ss[j].Batch? ==> parallel[byStart[i]] == Range(i, Last(ss[j], i)) && Last(ss[j], i) + 1 == i + ss[j].n)
            && Ahead(ss[j + 1..], i + Size(ss[j]), depth, w, children, byStart, parallel,
                     if nest then kids[k + 1..] else kids[k..])
  {
    var rest := ss[j..];
    assert rest != [] && rest[0] == ss[j] && rest[1..] == ss[j + 1..];
    SectionsSplit(rest, i, w.groups, depth);
    FirstSection(rest[0], i, depth, w, children, byStart, parallel);
    if k < |kids| {
      NextTop(rest, i, w.groups, depth);
      assert kids[k..][0] == kids[k] && kids[k..][1..] == kids[k + 1..];
    }
    if rest[0].Nest? { assert ([rest[0].g] + TopIds(rest[1..]))[1..] == TopIds(rest[1..]); }
    else { assert [] + TopIds(rest[1..]) == TopIds(rest[1..]); }
  }

  // ---- A whole plan ----

  /** The runs of parallel specs, in order. */
  function RunsOf(s: Section, lo: nat): seq<Range>
    decreases s, 0
  {
    match s
    case OneSpec => []
    case Batch(n) => [Range(lo, Last(s, lo))]
    case Nest(_, body) => RunsOfAll(body, lo)
  }

  function RunsOfAll(ss: seq<Section>, lo: nat): seq<Range>
    decreases ss, 0
  {
    if ss == [] then [] else RunsOf(ss[0], lo) + RunsOfAll(ss[1..], lo + Size(ss[0]))
  }

  ghost predicate RunsBetween(rs: seq<Range>, lo: int, hi: int) {
    (forall i :: 0 <= i < |rs| ==> lo <= rs[i].first < hi) && forall i, j :: 0 <= i < j < |rs| ==>
        rs[i].first < rs[j].first
  }

  lemma {:induction false} RunsAscend(s: Section, lo: nat, groups: seq<Group>, depth: nat)
    requires Laid(s, lo, groups, depth)
    ensures RunsBetween(RunsOf(s, lo), lo, lo + Size(s))
    decreases s, 0
  {
    if s.Nest? { RunsAscendAll(s.body, lo, groups, |groups[s.g].path|); }
  }

  lemma {:induction false} RunsAscendAll(ss: seq<Section>, lo: nat, groups: seq<Group>, depth: nat)
    requires LaidAll(ss, lo, groups, depth)
    ensures RunsBetween(RunsOfAll(ss, lo), lo, lo + SizeAll(ss))
    decreases ss, 0
  {
    if ss != [] {
      RunsAscend(ss[0], lo, groups, depth);
      RunsAscendAll(ss[1..], lo + Size(ss[0]), groups, depth);
    }
  }

  /** byStart finds exactly the runs from place lo to before hi. */
  ghost predicate Indexes(byStart: map<nat, nat>, parallel: seq<Range>, rs: seq<Range>, lo: int, hi: int) {
    && (forall x: nat :: lo <= x < hi && x in byStart ==> exists i :: 0 <= i < |rs| && rs[i].first == x)
    && forall i :: 0 <= i < |rs| ==>
        rs[i].first in byStart && byStart[rs[i].first] < |parallel| && parallel[byStart[rs[i].first]] == rs[i]
  }

  lemma {:induction false} IndexesLeft(byStart: map<nat, nat>, parallel: seq<Range>, a: seq<Range>, b: seq<Range>,
      lo: int, mid: int, hi: int)
    requires lo <= mid <= hi && Indexes(byStart, parallel, a + b, lo, hi) && RunsBetween(b, mid, hi)
    ensures Indexes(byStart, parallel, a, lo, mid)
  {
    assert forall i :: 0 <= i < |a| ==> (a + b)[i] == a[i];
    forall i | |a| <= i < |a + b| ensures (a + b)[i].first >= mid { assert (a + b)[i] == b[i - |a|]; }
    forall x: nat | lo <= x < mid && x in byStart ensures exists i :: 0 <= i < |a| && a[i].first == x {
      var i :| 0 <= i < |a + b| && (a + b)[i].first == x;
      assert i < |a|;
    }
  }

  lemma {:induction false} IndexesRight(byStart: map<nat, nat>, parallel: seq<Range>, a: seq<Range>, b: seq<Range>,
      lo: int, mid: int, hi: int)
    requires lo <= mid <= hi && Indexes(byStart, parallel, a + b, lo, hi) && RunsBetween(a, lo, mid)
    ensures Indexes(byStart, parallel, b, mid, hi)
  {
    assert forall i :: 0 <= i < |b| ==> (a + b)[|a| + i] == b[i];
    forall i | 0 <= i < |a| ensures (a + b)[i].first < mid { assert (a + b)[i] == a[i]; }
    forall x: nat | mid <= x < hi && x in byStart ensures exists i :: 0 <= i < |b| && b[i].first == x {
      var i :| 0 <= i < |a + b| && (a + b)[i].first == x;
      assert b[i - |a|].first == x;
    }
  }

  lemma {:induction false} IndexesParts(byStart: map<nat, nat>, parallel: seq<Range>, a: seq<Range>, b: seq<Range>,
      lo: int, mid: int, hi: int)
    requires lo <= mid <= hi && Indexes(byStart, parallel, a + b, lo, hi)
    requires RunsBetween(a, lo, mid) && RunsBetween(b, mid, hi)
    ensures Indexes(byStart, parallel, a, lo, mid) && Indexes(byStart, parallel, b, mid, hi)
  {
    IndexesLeft(byStart, parallel, a, b, lo, mid, hi);
    IndexesRight(byStart, parallel, a, b, lo, mid, hi);
  }

  lemma {:induction false} RunsFound(s: Section, lo: nat, groups: seq<Group>, depth: nat, byStart: map<nat, nat>,
      parallel: seq<Range>)
    requires Laid(s, lo, groups, depth) && Indexes(byStart, parallel, RunsOf(s, lo), lo, lo + Size(s))
    ensures Found(s, lo, byStart, parallel)
    decreases s, 0
  {
    match s
    case OneSpec =>
    case Batch(n) => assert RunsOf(s, lo)[0] == Range(lo, Last(s, lo));
    case Nest(g, body) => RunsFoundAll(body, lo, groups, |groups[g].path|, byStart, parallel);
  }

  lemma {:induction false} RunsFoundAll(ss: seq<Section>, lo: nat, groups: seq<Group>, depth: nat,
      byStart: map<nat, nat>, parallel: seq<Range>)
    requires LaidAll(ss, lo, groups, depth) && Indexes(byStart, parallel, RunsOfAll(ss, lo), lo, lo + SizeAll(ss))
    ensures FoundAll(ss, lo, byStart, parallel)
    decreases ss, 0
  {
    if ss != [] {
      var mid := lo + Size(ss[0]);
      RunsAscend(ss[0], lo, groups, depth);
      RunsAscendAll(ss[1..], mid, groups, depth);
      IndexesParts(byStart, parallel, RunsOf(ss[0], lo), RunsOfAll(ss[1..], mid), lo, mid, lo + SizeAll(ss));
      RunsFound(ss[0], lo, groups, depth, byStart, parallel);
      RunsFoundAll(ss[1..], mid, groups, depth, byStart, parallel);
    }
  }

  lemma {:induction false} OneIndexed(byStart: map<nat, nat>, parallel: seq<Range>, i: nat, hi: int)
    requires i < |parallel| && RunsBetween(parallel, 0, hi) && Indexes(byStart, parallel, parallel[..i], 0, hi)
    ensures Indexes(byStart[parallel[i].first := i], parallel, parallel[..i + 1], 0, hi)
  {
    var next, rs := byStart[parallel[i].first := i], parallel[..i + 1];
    forall x: nat | 0 <= x < hi && x in next ensures exists j :: 0 <= j < |rs| && rs[j].first == x {
      if x == parallel[i].first {
        assert rs[i].first == x;
      } else {
        var j :| 0 <= j < i && parallel[..i][j].first == x;
        assert rs[j].first == x;
      }
    }
    forall j | 0 <= j < |rs| ensures
      rs[j].first in next && next[rs[j].first] < |parallel| && parallel[next[rs[j].first]] == rs[j]
    {
      if j < i { assert parallel[..i][j] == rs[j]; }
    }
  }

  method IndexRuns(parallel: seq<Range>, ghost hi: int) returns (byStart: map<nat, nat>)
    requires RunsBetween(parallel, 0, hi)
    ensures Indexes(byStart, parallel, parallel, 0, hi)
  {
    byStart := map[];
    for i := 0 to |parallel|
      invariant Indexes(byStart, parallel, parallel[..i], 0, hi)
    {
      OneIndexed(byStart, parallel, i, hi);
      byStart := byStart[parallel[i].first := i];
    }
    assert parallel[..|parallel|] == parallel;
  }

  /** The groups and runs of a plan of n specs are those of ss. */
  ghost predicate Arranged(ss: seq<Section>, groups: seq<Group>, parallel: seq<Range>, n: nat) {
    Divides(ss, groups, n) && parallel == RunsOfAll(ss, 0)
  }

  /** Running a plan by its ranges is running its sections directly. */
  method RunPlanWithGroups(w: World, parallel: seq<Range>, n: nat, ghost ss: seq<Section>) returns (trace: seq<Event>)
    requires Arranged(ss, w.groups, parallel, n)
    ensures GroupsOfAll(ss, |w.groups|)
    ensures trace == RunAll(w, ss, 0, Run([], false)).trace
  {
    LaidAllGroups(ss, 0, w.groups, 0);
    RunsAscendAll(ss, 0, w.groups, 0);
    var children, top := BuildTree(w.groups, ss, n);
    var byStart := IndexRuns(parallel, n);
    RunsFoundAll(ss, 0, w.groups, 0, byStart, parallel);
    hide RunAll, Laid, LaidAll, Found, FoundAll, Linked, LinkedAll;
    var run := new GroupRun(w, parallel, children, top, byStart);
    run.RunRange(0, n - 1, top, ss, 0);
    trace := run.trace;
  }
}
