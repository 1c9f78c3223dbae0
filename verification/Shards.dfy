/** Splitting a suite over several jobs: units are dealt out round-robin. */
module Shards {
  import opened Options
  import opened Plans
  import opened Sections
  import opened GroupRuns
  import opened GroupLaws
  import Sequences

  // ---- Dealing out ----

  /** Every count-th element, the first being number u of the whole. */
  function EveryNth<T>(s: seq<T>, u: nat, k: nat, count: nat): (r: seq<T>)
    requires count > 0
    ensures |r| <= |s|
  {
    if s == [] then [] else (if u % count == k then [s[0]] else []) + EveryNth(s[1..], u + 1, k, count)
  }

  lemma {:induction false} EveryNthAppend<T>(s: seq<T>, x: T, u: nat, k: nat, count: nat)
    requires count > 0
    ensures EveryNth(s + [x], u, k, count) == EveryNth(s, u, k, count) + if (u + |s|) % count == k then [x] else []
  {
    if s != [] {
      assert (s + [x])[1..] == s[1..] + [x];
      EveryNthAppend(s[1..], x, u + 1, k, count);
    } else {
      assert [x][1..] == [];
    }
  }

  /** r is s[k], s[k + count], s[k + 2 * count] and so on to the end of s. */
  ghost predicate InTurn<T>(r: seq<T>, s: seq<T>, k: nat, count: nat) {
    && k + |r| * count >= |s|
    && forall j :: 0 <= j < |r| ==> TurnOf(s, k, count, j, r[j])
  }

  ghost predicate TurnOf<T>(s: seq<T>, k: nat, count: nat, j: nat, x: T) {
    k + j * count < |s| && s[k + j * count] == x
  }

  /** The n-th turn of shard k is the one place from there on that leaves k. */
  lemma {:induction false} NextTurn(k: nat, n: nat, j: nat, count: nat)
    requires k < count && k + j * count >= n && (j > 0 ==> k + (j - 1) * count < n)
    ensures n % count == k <==> n == k + j * count
  {
    var q := n / count;
    assert n == q * count + n % count;
    if n % count == k {
      if q < j { Apart(q, j - 1, count); }
      if j < q { Apart(j + 1, q, count); }
    }
    if n == k + j * count { RestOfTurn(k, j, count); }
  }

  lemma {:induction false} Apart(a: nat, b: nat, count: nat)
    requires a <= b
    ensures a * count <= b * count && (a + 1) * count == a * count + count
  {
    assert b * count == a * count + (b - a) * count;
  }

  lemma {:induction false} RestOfTurn(k: nat, j: nat, count: nat)
    requires k < count
    ensures (k + j * count) % count == k
  {
    var n := k + j * count;
    var q := n / count;
    assert n == q * count + n % count;
    if q < j { Apart(q + 1, j, count); }
    if j < q { Apart(j + 1, q, count); }
    Apart(q, q, count);
    Apart(j, j, count);
  }

  lemma {:induction false} DealtInTurn<T>(s: seq<T>, k: nat, count: nat)
    requires k < count
    ensures InTurn(EveryNth(s, 0, k, count), s, k, count)
    decreases |s|
  {
    if s != [] {
      var n := |s| - 1;
      var init, r := s[..n], EveryNth(s[..n], 0, k, count);
      DealtInTurn(init, k, count);
      assert s == init + [s[n]];
      EveryNthAppend(init, s[n], 0, k, count);
      if r != [] { assert TurnOf(init, k, count, |r| - 1, r[|r| - 1]); }
      NextTurn(k, n, |r|, count);
      InTurnAppend(r, init, s[n], k, count);
      hide EveryNth, InTurn;
    }
  }

  lemma {:induction false} InTurnAppend<T>(r: seq<T>, s: seq<T>, x: T, k: nat, count: nat)
    requires InTurn(r, s, k, count) && count > 0
    ensures InTurn(r + if |s| == k + |r| * count then [x] else [], s + [x], k, count)
  {
    var t := r + if |s| == k + |r| * count then [x] else [];
    Apart(|r|, |r|, count);
    forall j | 0 <= j < |t| ensures TurnOf(s + [x], k, count, j, t[j]) {
      if j < |r| { assert TurnOf(s, k, count, j, r[j]); }
    }
  }

  /** With a single shard it has everything. */
  lemma {:induction false} OneShard<T>(s: seq<T>, u: nat)
    ensures EveryNth(s, u, 0, 1) == s
  {
    if s != [] { OneShard(s[1..], u + 1); }
  }

  function Flat<T>(s: seq<seq<T>>): seq<T> {
    if s == [] then [] else s[0] + Flat(s[1..])
  }

  /** All that shards 0..n-1 of count have of s, together. */
  ghost function Together<T>(s: seq<seq<T>>, u: nat, n: nat, count: nat): multiset<T>
    requires count > 0
  {
    if n == 0 then multiset{} else Together(s, u, n - 1, count) + multiset(Flat(EveryNth(s, u, n - 1, count)))
  }

  lemma {:induction false} FirstDealt<T>(s: seq<seq<T>>, u: nat, k: nat, count: nat)
    requires s != [] && count > 0
    ensures var rest := multiset(Flat(EveryNth(s[1..], u + 1, k, count)));
            multiset(Flat(EveryNth(s, u, k, count))) == rest + if u % count == k then multiset(s[0]) else multiset{}
  {
    var rest := EveryNth(s[1..], u + 1, k, count);
    if u % count == k {
      assert EveryNth(s, u, k, count) == [s[0]] + rest && ([s[0]] + rest)[1..] == rest;
      assert Flat([s[0]] + rest) == s[0] + Flat(rest);
    } else {
      assert EveryNth(s, u, k, count) == [] + rest && [] + rest == rest;
    }
  }

  lemma {:induction false} TogetherOne<T>(s: seq<seq<T>>, u: nat, n: nat, count: nat)
    requires s != [] && n <= count && count > 0
    ensures Together(s, u, n, count)
            == Together(s[1..], u + 1, n, count) + if u % count < n then multiset(s[0]) else multiset{}
  {
    hide EveryNth, Flat;
    if n > 0 {
      TogetherOne(s, u, n - 1, count);
      FirstDealt(s, u, n - 1, count);
    }
  }

  /** Every element goes to exactly one shard. */
  lemma {:induction false} DealtOut<T>(s: seq<seq<T>>, u: nat, count: nat)
    requires count > 0
    ensures Together(s, u, count, count) == multiset(Flat(s))
  {
    if s == [] {
      NothingDealt<T>(u, count, count);
    } else {
      TogetherOne(s, u, count, count);
      DealtOut(s[1..], u + 1, count);
    }
  }

  lemma {:induction false} NothingDealt<T>(u: nat, n: nat, count: nat)
    requires count > 0
    ensures Together<T>([], u, n, count) == multiset{}
  {
    if n > 0 { NothingDealt<T>(u, n - 1, count); }
  }

  // ---- The selection of a shard ----

  function Repeat(x: bool, n: nat): (r: seq<bool>)
    ensures |r| == n && forall i :: 0 <= i < n ==> r[i] == x
  {
    seq(n, i => x)
  }

  /** Which specs of the sections, of which the first is unit u, shard k draws. */
  function Selection(ss: seq<Section>, u: nat, k: nat, count: nat): (r: seq<bool>)
    requires count > 0
    ensures |r| == SizeAll(ss)
  {
    if ss == [] then [] else Repeat(u % count == k, Size(ss[0])) + Selection(ss[1..], u + 1, k, count)
  }

  /** The unit spec i belongs to. */
  function UnitOf(ss: seq<Section>, i: nat): nat
    requires i < SizeAll(ss)
  {
    if i < Size(ss[0]) then 0 else 1 + UnitOf(ss[1..], i - Size(ss[0]))
  }

  /** Of any number of shards exactly one draws spec i: that of its unit. */
  lemma {:induction false} OneOwner(ss: seq<Section>, u: nat, k: nat, count: nat, i: nat)
    requires count > 0 && i < SizeAll(ss)
    ensures Selection(ss, u, k, count)[i] <==> k == (u + UnitOf(ss, i)) % count
  {
    if i >= Size(ss[0]) { OneOwner(ss[1..], u + 1, k, count, i - Size(ss[0])); }
  }

  function Drawn(sel: seq<bool>): nat -> bool {
    (i: nat) => i < |sel| && sel[i]
  }

  /** A unit is never split. */
  lemma {:induction false} UnitsWhole(w: World, before: seq<bool>, ss: seq<Section>, u: nat, k: nat, count: nat)
    requires count > 0 && w.included == Drawn(before + Selection(ss, u, k, count))
    ensures Wholes(w, ss, |before|)
    decreases ss
  {
    if ss != [] {
      var mine := Repeat(u % count == k, Size(ss[0]));
      var rest := Selection(ss[1..], u + 1, k, count);
      assert before + (mine + rest) == (before + mine) + rest;
      assert forall i :: 0 <= i < |mine| ==> (before + (mine + rest))[|before| + i] == mine[i];
      UnitsWhole(w, before + mine, ss[1..], u + 1, k, count);
    }
  }

  /** What shard k of count draws: whole units, found by the walk the runner
      itself takes. */
  method BuildShardSelection(groups: seq<Group>, parallel: seq<Range>, n: nat, k: nat, count: nat,
      ghost ss: seq<Section>)
      returns (sel: seq<bool>)
    requires Arranged(ss, groups, parallel, n) && count > 0
    ensures sel == Selection(ss, 0, k, count)
  {
    sel := [];
    if groups == [] && parallel == [] {
      AllSingle(ss, 0, groups, 0);
      for i := 0 to n
        invariant sel == Singles(0, i, k, count)
      {
        sel := sel + [i % count == k];
      }
      SinglesSelected(ss, 0, k, count);
      return;
    }
    sel := SelectUnits(groups, parallel, n, k, count, ss);
  }

  function Singles(u: nat, n: nat, k: nat, count: nat): (r: seq<bool>)
    requires count > 0
    ensures |r| == n && forall i :: 0 <= i < n ==> r[i] == ((u + i) % count == k)
  {
    seq(n, i => (u + i) % count == k)
  }

  ghost predicate AllOneSpec(ss: seq<Section>) {
    forall i :: 0 <= i < |ss| ==> ss[i].OneSpec?
  }

  lemma {:induction false} BatchHasRun(s: Section, lo: nat)
    ensures s.Batch? ==> |RunsOf(s, lo)| == 1
  {
  }

  lemma {:induction false} AllSingle(ss: seq<Section>, lo: nat, groups: seq<Group>, depth: nat)
    requires LaidAll(ss, lo, groups, depth) && groups == [] && RunsOfAll(ss, lo) == []
    ensures AllOneSpec(ss)
  {
    if ss != [] {
      SectionsSplit(ss, lo, groups, depth);
      AllSingle(ss[1..], lo + Size(ss[0]), groups, depth);
      BatchHasRun(ss[0], lo);
      forall i | 0 <= i < |ss| ensures ss[i].OneSpec? {
        if i > 0 { assert ss[i] == ss[1..][i - 1]; }
      }
    }
  }

  lemma {:induction false} SinglesSelected(ss: seq<Section>, u: nat, k: nat, count: nat)
    requires AllOneSpec(ss) && count > 0
    ensures SizeAll(ss) == |ss| && Selection(ss, u, k, count) == Singles(u, |ss|, k, count)
  {
    if ss != [] {
      assert ss[0].OneSpec?;
      SinglesSelected(ss[1..], u + 1, k, count);
    }
  }

  method SelectUnits(groups: seq<Group>, parallel: seq<Range>, n: nat, k: nat, count: nat, ghost ss: seq<Section>)
      returns (sel: seq<bool>)
    requires Arranged(ss, groups, parallel, n) && count > 0
    ensures sel == Selection(ss, 0, k, count)
  {
    var w := World(groups, (t, s) => false, false, (i: nat) => true);
    assert n == SizeAll(ss);
    var children, top, byStart := IndexUnits(w, parallel, n, ss);
    var next, i, u := 0, 0, 0;
    assert ss[0..] == ss && top[0..] == top;
    sel := [];
    hide *;
    Sequences.NothingAdded(Selection(ss, 0, k, count));
    while i < n
      invariant 0 <= u <= |ss| && 0 <= next <= |top| && n == i + SizeAll(ss[u..])
      invariant Ahead(ss[u..], i, 0, w, children, byStart, parallel, top[next..])
      invariant Selection(ss, 0, k, count) == sel + Selection(ss[u..], u, k, count)
      decreases n - i
    {
      var end;
      end, next := UnitEnd(w, parallel, children, top, byStart, i, u, next, ss);
      SelectionNext(ss, u, k, count, sel);
      sel := sel + Repeat(u % count == k, end + 1 - i);
      u, i := u + 1, end + 1;
    }
    Finished(ss[u..], i, groups, u, k, count);
    Sequences.NothingAdded(sel);
  }

  /** The tree of a plan's groups, and its runs by their first spec. */
  method IndexUnits(w: World, parallel: seq<Range>, n: nat, ghost ss: seq<Section>)
      returns (children: seq<seq<nat>>, top: seq<nat>, byStart: map<nat, nat>)
    requires Arranged(ss, w.groups, parallel, n)
    ensures Ahead(ss, 0, 0, w, children, byStart, parallel, top)
  {
    LaidAllGroups(ss, 0, w.groups, 0);
    RunsAscendAll(ss, 0, w.groups, 0);
    children, top := BuildTree(w.groups, ss, n);
    byStart := IndexRuns(parallel, n);
    RunsFoundAll(ss, 0, w.groups, 0, byStart, parallel);
  }

  /** The last spec of the unit that begins at i. */
  method UnitEnd(w: World, parallel: seq<Range>, ghost children: seq<seq<nat>>, top: seq<nat>, byStart: map<nat, nat>,
      i: nat, ghost u: nat, next: nat, ghost ss: seq<Section>) returns (end: nat, next': nat)
    requires u <= |ss| && next <= |top| && SizeAll(ss[u..]) > 0
    requires Ahead(ss[u..], i, 0, w, children, byStart, parallel, top[next..])
    ensures u < |ss| && i < end + 1 == i + Size(ss[u]) && next' <= |top|
    ensures SizeAll(ss[u..]) == Size(ss[u]) + SizeAll(ss[u + 1..])
    ensures Ahead(ss[u + 1..], i + Size(ss[u]), 0, w, children, byStart, parallel, top[next'..])
  {
    NextSection(ss, u, i, 0, w, children, byStart, parallel, top, next);
    hide Ahead, SizeAll;
    next' := next;
    if next < |top| && w.groups[top[next]].first == i {
      end := w.groups[top[next]].last;
      next' := next + 1;
    } else if i in byStart {
      end := parallel[byStart[i]].last;
    } else {
      end := i;
    }
  }

  lemma {:induction false} SelectionNext(ss: seq<Section>, u: nat, k: nat, count: nat, sel: seq<bool>)
    requires u < |ss| && count > 0 && Selection(ss, 0, k, count) == sel + Selection(ss[u..], u, k, count)
    ensures Selection(ss, 0, k, count)
            == (sel + Repeat(u % count == k, Size(ss[u]))) + Selection(ss[u + 1..], u + 1, k, count)
  {
    assert ss[u..][0] == ss[u] && ss[u..][1..] == ss[u + 1..];
  }

  lemma {:induction false} Finished(rest: seq<Section>, i: nat, groups: seq<Group>, u: nat, k: nat, count: nat)
    requires count > 0 && SizeAll(rest) == 0
    ensures Selection(rest, u, k, count) == []
  {
  }

  // ---- All shards together ----

  /** Outcomes that depend on the step alone: shards are separate processes. */
  ghost predicate StepOnly(fails: Outcomes) {
    forall s, t, u :: fails(t, s) == fails(u, s)
  }

  /** Two worlds that differ only in what is selected, without FailFast. */
  ghost predicate Alike(v: World, w: World) {
    v.groups == w.groups && v.fails == w.fails && StepOnly(v.fails) && !v.failFast && !w.failFast
  }

  /** r, after something else happened. */
  function After(p: seq<Event>, r: Run): Run {
    Run(p + r.trace, r.stopped)
  }

  lemma {:induction false} StepAfter(p: seq<Event>, r: Run, e: Event)
    ensures After(p, r.(trace := r.trace + [e])) == After(p, r).(trace := After(p, r).trace + [e])
  {
    assert p + (r.trace + [e]) == (p + r.trace) + [e];
  }

  lemma {:induction false} BatchAfter(v: World, w: World, lo: nat, hi: nat, p: seq<Event>, r: Run)
    requires Alike(v, w) && !r.stopped
    ensures RunBatch(v, lo, hi, After(p, r)) == After(p, RunBatch(w, lo, hi, r)) && !RunBatch(w, lo, hi, r).stopped
    decreases hi - lo
  {
    if lo < hi {
      StepAfter(p, r, Ran(lo, w.fails(r.trace, SpecStep(lo))));
      BatchAfter(v, w, lo + 1, hi, p, RunSpec(w, lo, r));
    }
  }

  lemma {:induction false} SkipAfter(lo: nat, hi: nat, p: seq<Event>, r: Run)
    ensures SkipSpecs(lo, hi, After(p, r)) == After(p, SkipSpecs(lo, hi, r))
    ensures SkipSpecs(lo, hi, r).stopped == r.stopped
    decreases hi - lo
  {
    if lo < hi {
      StepAfter(p, r, Skipped(lo));
      SkipAfter(lo + 1, hi, p, r.(trace := r.trace + [Skipped(lo)]));
    }
  }

  lemma {:induction false} BeforesAfter(v: World, w: World, g: nat, k: nat, p: seq<Event>, r: Run)
    requires Alike(v, w) && g < |w.groups| && k <= |w.groups[g].beforeAll|
    ensures var a, b := RunBefores(v, g, k, After(p, r)), RunBefores(w, g, k, r);
            a.0 == After(p, b.0) && a.1 == b.1 && b.0.stopped == r.stopped
    decreases |w.groups[g].beforeAll| - k
  {
    if k < |w.groups[g].beforeAll| {
      StepAfter(p, r, SetUp(g, k));
      BeforesAfter(v, w, g, k + 1, p, r.(trace := r.trace + [SetUp(g, k)]));
    }
  }

  lemma {:induction false} AftersAfter(v: World, w: World, g: nat, k: nat, p: seq<Event>, r: Run)
    requires Alike(v, w) && g < |w.groups| && k <= |w.groups[g].afterAll|
    ensures var a, b := RunAfters(v, g, k, After(p, r)), RunAfters(w, g, k, r);
            a.0 == After(p, b.0) && a.1 == b.1 && b.0.stopped == r.stopped
    decreases |w.groups[g].afterAll| - k
  {
    if k < |w.groups[g].afterAll| {
      StepAfter(p, r, TearDown(g, k));
      AftersAfter(v, w, g, k + 1, p, r.(trace := r.trace + [TearDown(g, k)]));
    }
  }

  lemma {:induction false} FinishAfter(v: World, w: World, g: nat, p: seq<Event>, r: Run)
    requires Alike(v, w) && g < |w.groups| && !r.stopped
    ensures FinishGroup(v, g, After(p, r)) == After(p, FinishGroup(w, g, r)) && !FinishGroup(w, g, r).stopped
  {
    AftersAfter(v, w, g, 0, p, r);
    StepAfter(p, RunAfters(w, g, 0, r).0, AfterAllFailed(g));
  }

  lemma {:induction false} SkipGroupAfter(v: World, w: World, g: nat, lo: nat, hi: nat, p: seq<Event>, r: Run)
    requires Alike(v, w) && !r.stopped
    ensures SkipGroup(v, g, lo, hi, After(p, r)) == After(p, SkipGroup(w, g, lo, hi, r))
    ensures !SkipGroup(w, g, lo, hi, r).stopped
  {
    StepAfter(p, r, BeforeAllFailed(g));
    SkipAfter(lo, hi, p, r.(trace := r.trace + [BeforeAllFailed(g)]));
  }

  /** A section does the same whatever happened before it. */
  lemma {:induction false} SectionAfter(v: World, w: World, s: Section, lo: nat, p: seq<Event>, r: Run)
    requires Alike(v, w) && GroupsOf(s, |w.groups|) && !r.stopped
    requires AllIn(v, lo, lo + Size(s)) && AllIn(w, lo, lo + Size(s)) && Positive(s)
    ensures RunSection(v, s, lo, After(p, r)) == After(p, RunSection(w, s, lo, r)) && !RunSection(w, s, lo, r).stopped
    decreases s, 1
  {
    hide Alike, AllIn, FinishGroup, SkipGroup, RunBefores, RunBatch, After;
    match s
    case OneSpec => SpecAfter(v, w, lo, p, r);
    case Batch(n) => BatchAfter(v, w, lo, lo + n, p, r);
    case Nest(g, body) =>
      BeforesAfter(v, w, g, 0, p, r);
      var b := RunBefores(w, g, 0, r);
      SameGroups(v, w);
      if b.1 {
        AllAfter(v, w, body, lo, p, b.0);
        FinishAfter(v, w, g, p, RunAll(w, body, lo, b.0));
      } else {
        SkipGroupAfter(v, w, g, lo, lo + SizeAll(body), p, b.0);
        FinishAfter(v, w, g, p, SkipGroup(w, g, lo, lo + SizeAll(body), b.0));
      }
  }

  lemma {:induction false} SameGroups(v: World, w: World)
    requires Alike(v, w)
    ensures v.groups == w.groups
  {
  }

  lemma {:induction false} SpecAfter(v: World, w: World, lo: nat, p: seq<Event>, r: Run)
    requires Alike(v, w) && !r.stopped
    ensures RunSpec(v, lo, After(p, r)) == After(p, RunSpec(w, lo, r)) && !RunSpec(w, lo, r).stopped
  {
    StepAfter(p, r, Ran(lo, w.fails(r.trace, SpecStep(lo))));
  }

  /** Every section has a spec. */
  predicate Positive(s: Section)
    decreases s, 0
  {
    Size(s) > 0 && (s.Nest? ==> PositiveAll(s.body))
  }

  predicate PositiveAll(ss: seq<Section>)
    decreases ss, 0
  {
    ss != [] ==> Positive(ss[0]) && PositiveAll(ss[1..])
  }

  lemma {:induction false} AllAfter(v: World, w: World, ss: seq<Section>, lo: nat, p: seq<Event>, r: Run)
    requires Alike(v, w) && GroupsOfAll(ss, |w.groups|) && !r.stopped
    requires AllIn(v, lo, lo + SizeAll(ss)) && AllIn(w, lo, lo + SizeAll(ss)) && PositiveAll(ss)
    ensures GroupsOfAll(ss, |v.groups|)
    ensures RunAll(v, ss, lo, After(p, r)) == After(p, RunAll(w, ss, lo, r)) && !RunAll(w, ss, lo, r).stopped
    decreases ss, 0
  {
    hide Alike, RunSection, Positive, Size;
    SameGroups(v, w);
    if ss != [] {
      HasSpec(ss[0]);
      AllInParts(v, lo, lo + Size(ss[0]), lo + SizeAll(ss));
      AllInParts(w, lo, lo + Size(ss[0]), lo + SizeAll(ss));
      SectionAfter(v, w, ss[0], lo, p, r);
      AllAfter(v, w, ss[1..], lo + Size(ss[0]), p, RunSection(w, ss[0], lo, r));
    }
  }

  lemma {:induction false} HasSpec(s: Section)
    requires Positive(s)
    ensures Size(s) > 0
  {
  }

  lemma {:induction false} AllInParts(w: World, lo: nat, mid: nat, hi: nat)
    requires AllIn(w, lo, hi) && lo < mid <= hi
    ensures AllIn(w, lo, mid) && AllIn(w, mid, hi) && w.included(lo)
  {
  }

  const FRESH := Run([], false)

  /** What each unit of a whole run does. */
  ghost function Segments(w: World, ss: seq<Section>, lo: nat): (r: seq<seq<Event>>)
    requires GroupsOfAll(ss, |w.groups|)
    ensures |r| == |ss|
  {
    if ss == [] then [] else [RunSection(w, ss[0], lo, FRESH).trace] + Segments(w, ss[1..], lo + Size(ss[0]))
  }

  function Suite(groups: seq<Group>, fails: Outcomes): World {
    World(groups, fails, false, (i: nat) => true)
  }

  function Shard(groups: seq<Group>, fails: Outcomes, ss: seq<Section>, k: nat, count: nat): World
    requires count > 0
  {
    World(groups, fails, false, Drawn(Selection(ss, 0, k, count)))
  }

  lemma {:induction false} UnitRuns(v: World, w: World, s: Section, lo: nat, r: Run)
    requires Alike(v, w) && GroupsOf(s, |w.groups|) && !r.stopped && Positive(s)
    requires AllIn(v, lo, lo + Size(s)) && AllIn(w, lo, lo + Size(s))
    ensures GroupsOf(s, |v.groups|)
    ensures RunSection(v, s, lo, r) == Run(r.trace + RunSection(w, s, lo, FRESH).trace, false)
  {
    SectionAfter(v, w, s, lo, r.trace, FRESH);
    assert After(r.trace, FRESH) == r;
    assert RunSection(v, s, lo, r) == After(r.trace, RunSection(w, s, lo, FRESH));
    hide RunSection;
  }

  /** A shard does, unit by unit, what the whole run does for its units. */
  lemma {:induction false} ShardRuns(v: World, w: World, before: seq<bool>, ss: seq<Section>, u: nat, k: nat,
      count: nat, r: Run)
    requires Alike(v, w) && GroupsOfAll(ss, |w.groups|) && PositiveAll(ss) && count > 0 && !r.stopped
    requires v.included == Drawn(before + Selection(ss, u, k, count)) && forall i: nat :: w.included(i)
    ensures GroupsOfAll(ss, |v.groups|)
    ensures RunAll(v, ss, |before|, r).trace == r.trace + Flat(EveryNth(Segments(w, ss, |before|), u, k, count))
    decreases ss
  {
    hide RunSection, Size, UnitOf, Drawn;
    SameGroups(v, w);
    var lo := |before|;
    if ss == [] {
      assert r.trace + [] == r.trace;
      return;
    }
    var mine, rest := Repeat(u % count == k, Size(ss[0])), Selection(ss[1..], u + 1, k, count);
    assert before + (mine + rest) == (before + mine) + rest;
    FirstDrawn(v, before, mine, rest);
    var first, later := RunSection(w, ss[0], lo, FRESH).trace, Segments(w, ss[1..], lo + Size(ss[0]));
    HasSpec(ss[0]);
    assert Segments(w, ss, lo) == [first] + later && ([first] + later)[1..] == later;
    if u % count == k { UnitRuns(v, w, ss[0], lo, r); }
    var r' := if u % count == k then Run(r.trace + first, false) else r;
    assert RunAll(v, ss, lo, r) == RunAll(v, ss[1..], lo + Size(ss[0]), r');
    hide *;
    ShardRuns(v, w, before + mine, ss[1..], u + 1, k, count, r');
    FirstFlat(first, later, u, k, count, r.trace);
  }

  lemma {:induction false} FirstDrawn(v: World, before: seq<bool>, mine: seq<bool>, rest: seq<bool>)
    requires v.included == Drawn(before + (mine + rest)) && forall i, j :: 0 <= i < |mine| && 0 <= j < |mine| ==>
              mine[i] == mine[j]
    ensures mine != [] ==> (v.included(|before|) <==> mine[0])
    ensures mine != [] && mine[0] ==> AllIn(v, |before|, |before| + |mine|)
  {
    var all := before + (mine + rest);
    assert forall i :: 0 <= i < |mine| ==> all[|before| + i] == mine[i];
    forall i: nat | |before| <= i < |before| + |mine| && mine[0] ensures v.included(i) {
      assert all[i] == mine[i - |before|];
    }
  }

  lemma {:induction false} FirstFlat(first: seq<Event>, later: seq<seq<Event>>, u: nat, k: nat, count: nat,
      t: seq<Event>)
    requires count > 0
    ensures t + Flat(EveryNth([first] + later, u, k, count))
            == (if u % count == k then t + first else t) + Flat(EveryNth(later, u + 1, k, count))
  {
    var rest := EveryNth(later, u + 1, k, count);
    assert ([first] + later)[1..] == later;
    if u % count == k {
      assert EveryNth([first] + later, u, k, count) == [first] + rest && ([first] + rest)[1..] == rest;
    } else {
      assert EveryNth([first] + later, u, k, count) == [] + rest && [] + rest == rest;
    }
  }

  /** All that happens in shards 0..n-1. */
  ghost function ShardTraces(groups: seq<Group>, fails: Outcomes, ss: seq<Section>, n: nat, count: nat): multiset<Event>
    requires GroupsOfAll(ss, |groups|) && count > 0
  {
    if n == 0 then multiset{}
    else ShardTraces(groups, fails, ss, n - 1, count)
         + multiset(RunAll(Shard(groups, fails, ss, n - 1, count), ss, 0, FRESH).trace)
  }

  lemma {:induction false} ShardTracesAre(groups: seq<Group>, fails: Outcomes, ss: seq<Section>, n: nat, count: nat)
    requires GroupsOfAll(ss, |groups|) && PositiveAll(ss) && count > 0 && StepOnly(fails)
    ensures ShardTraces(groups, fails, ss, n, count) == Together(Segments(Suite(groups, fails), ss, 0), 0, n, count)
  {
    if n > 0 {
      ShardTracesAre(groups, fails, ss, n - 1, count);
      var v := Shard(groups, fails, ss, n - 1, count);
      var before: seq<bool> := [];
      assert before + Selection(ss, 0, n - 1, count) == Selection(ss, 0, n - 1, count);
      ShardRuns(v, Suite(groups, fails), before, ss, 0, n - 1, count, FRESH);
      var t := Flat(EveryNth(Segments(Suite(groups, fails), ss, 0), 0, n - 1, count));
      assert FRESH.trace + t == t;
    }
  }

  /** Running every shard does exactly what one whole run does: each spec once,
      each group's hooks once, whatever fails. */
  lemma {:induction false} ShardsMakeTheRun(groups: seq<Group>, fails: Outcomes, ss: seq<Section>, count: nat)
    requires GroupsOfAll(ss, |groups|) && PositiveAll(ss) && count > 0 && StepOnly(fails)
    ensures ShardTraces(groups, fails, ss, count, count) == multiset(RunAll(Suite(groups, fails), ss, 0, FRESH).trace)
  {
    var w := Suite(groups, fails);
    ShardTracesAre(groups, fails, ss, count, count);
    DealtOut(Segments(w, ss, 0), 0, count);
    WholeRun(w, ss, 0, FRESH);
    var t := Flat(Segments(w, ss, 0));
    assert FRESH.trace + t == t;
  }

  lemma {:induction false} WholeRun(w: World, ss: seq<Section>, lo: nat, r: Run)
    requires GroupsOfAll(ss, |w.groups|) && PositiveAll(ss) && !r.stopped && Alike(w, w) &&
              forall i: nat :: w.included(i)
    ensures RunAll(w, ss, lo, r).trace == r.trace + Flat(Segments(w, ss, lo))
    decreases ss
  {
    if ss == [] {
      assert r.trace + [] == r.trace;
    } else {
      HasSpec(ss[0]);
      UnitRuns(w, w, ss[0], lo, r);
      var first := RunSection(w, ss[0], lo, FRESH).trace;
      WholeRun(w, ss[1..], lo + Size(ss[0]), Run(r.trace + first, false));
      var later := Segments(w, ss[1..], lo + Size(ss[0]));
      assert ([first] + later)[1..] == later;
      hide RunSection;
      assert (r.trace + first) + Flat(later) == r.trace + (first + Flat(later));
    }
  }

  lemma {:induction false} LaidPositive(s: Section, lo: nat, groups: seq<Group>, depth: nat)
    requires Laid(s, lo, groups, depth)
    ensures Positive(s)
    decreases s, 0
  {
    if s.Nest? { LaidAllPositive(s.body, lo, groups, |groups[s.g].path|); }
  }

  lemma {:induction false} LaidAllPositive(ss: seq<Section>, lo: nat, groups: seq<Group>, depth: nat)
    requires LaidAll(ss, lo, groups, depth)
    ensures PositiveAll(ss)
    decreases ss, 0
  {
    if ss != [] {
      LaidPositive(ss[0], lo, groups, depth);
      LaidAllPositive(ss[1..], lo + Size(ss[0]), groups, depth);
    }
  }
}
