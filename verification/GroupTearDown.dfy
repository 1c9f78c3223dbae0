/** Every AfterAll of a group that was entered runs, once, after everything
    else of the group; and nothing at all happens twice. */
module GroupTearDown {
  import opened Options
  import opened Plans
  import opened Sections
  import opened GroupRuns
  import Sequences

  /** e concerns a spec of lo..hi-1, or one of the groups ids. */
  predicate About(e: Event, lo: int, hi: int, ids: seq<nat>) {
    match e
    case Ran(i, _) => lo <= i < hi
    case Skipped(i) => lo <= i < hi
    case Unstarted(i) => lo <= i < hi
    case SetUp(g, _) => g in ids
    case TearDown(g, _) => g in ids
    case BeforeAllFailed(g) => g in ids
    case AfterAllFailed(g) => g in ids
  }

  ghost predicate AllAbout(u: seq<Event>, lo: int, hi: int, ids: seq<nat>) {
    forall p :: 0 <= p < |u| ==> About(u[p], lo, hi, ids)
  }

  ghost predicate Once(u: seq<Event>) {
    forall p, q :: 0 <= p < q < |u| ==> u[p] != u[q]
  }

  /** Group g or one inside it was entered, or one of its specs ran. */
  predicate Touches(w: World, g: nat, e: Event)
    requires g < |w.groups|
  {
    match e
    case Ran(i, _) => w.groups[g].first <= i <= w.groups[g].last
    case SetUp(h, _) => Within(w.groups, h, g)
    case _ => false
  }

  /** Whatever touches g is followed by each AfterAll of g. */
  ghost predicate Torn(w: World, g: nat, u: seq<Event>)
    requires g < |w.groups|
  {
    forall p, k: nat :: 0 <= p < |u| && Touches(w, g, u[p]) && k < |w.groups[g].afterAll| ==>
        TearDown(g, k) in u[p + 1..]
  }

  ghost predicate Neat(w: World, u: seq<Event>, lo: int, hi: int, ids: seq<nat>) {
    && AllAbout(u, lo, hi, ids) && Once(u)
    && forall i :: 0 <= i < |ids| ==> ids[i] < |w.groups| && Torn(w, ids[i], u)
  }

  lemma {:induction false} Untouched(w: World, g: nat, u: seq<Event>, lo: int, hi: int, ids: seq<nat>)
    requires g < |w.groups| && AllAbout(u, lo, hi, ids) && g !in ids
    requires w.groups[g].last < lo || w.groups[g].first >= hi
    requires Between(w.groups, ids, lo, hi, -1)
    ensures forall p :: 0 <= p < |u| ==> !Touches(w, g, u[p])
  {
    forall p | 0 <= p < |u| ensures !Touches(w, g, u[p]) {
      assert About(u[p], lo, hi, ids);
      if u[p].SetUp? {
        var i :| 0 <= i < |ids| && ids[i] == u[p].g;
      }
    }
  }

  lemma {:induction false} TornLeft(w: World, g: nat, a: seq<Event>, b: seq<Event>)
    requires g < |w.groups| && Torn(w, g, a) && forall p :: 0 <= p < |b| ==> !Touches(w, g, b[p])
    ensures Torn(w, g, a + b)
  {
    var u := a + b;
    forall p, k: nat | 0 <= p < |u| && Touches(w, g, u[p]) && k < |w.groups[g].afterAll|
      ensures TearDown(g, k) in u[p + 1..]
    {
      assert p < |a| && TearDown(g, k) in a[p + 1..];
      assert u[p + 1..] == a[p + 1..] + b;
    }
  }

  lemma {:induction false} TornRight(w: World, g: nat, a: seq<Event>, b: seq<Event>)
    requires g < |w.groups| && Torn(w, g, b) && forall p :: 0 <= p < |a| ==> !Touches(w, g, a[p])
    ensures Torn(w, g, a + b)
  {
    var u := a + b;
    forall p, k: nat | 0 <= p < |u| && Touches(w, g, u[p]) && k < |w.groups[g].afterAll|
      ensures TearDown(g, k) in u[p + 1..]
    {
      assert p >= |a| && TearDown(g, k) in b[p - |a| + 1..];
      assert u[p + 1..] == b[p - |a| + 1..];
    }
  }

  lemma {:induction false} OnceJoin(a: seq<Event>, b: seq<Event>, lo: int, mid: int, hi: int, x: seq<nat>, y: seq<nat>)
    requires Once(a) && Once(b) && AllAbout(a, lo, mid, x) && AllAbout(b, mid, hi, y)
    requires forall i :: 0 <= i < |x| ==> x[i] !in y
    ensures Once(a + b)
  {
    var u := a + b;
    forall p, q | 0 <= p < q < |u| ensures u[p] != u[q] {
      if p < |a| <= q { assert About(a[p], lo, mid, x) && About(b[q - |a|], mid, hi, y); }
    }
  }

  lemma {:induction false} NeatJoin(w: World, a: seq<Event>, b: seq<Event>, lo: int, mid: int, hi: int, x: seq<nat>,
      y: seq<nat>)
    requires Neat(w, a, lo, mid, x) && Neat(w, b, mid, hi, y) && lo <= mid <= hi
    requires Between(w.groups, x, lo, mid, -1) && Between(w.groups, y, mid, hi, -1)
    requires forall i :: 0 <= i < |x| ==> x[i] !in y
    ensures Neat(w, a + b, lo, hi, x + y)
  {
    OnceJoin(a, b, lo, mid, hi, x, y);
    forall p | 0 <= p < |a + b| ensures About((a + b)[p], lo, hi, x + y) {
      if p < |a| { assert About(a[p], lo, mid, x); } else { assert About(b[p - |a|], mid, hi, y); }
    }
    forall i | 0 <= i < |x + y| ensures (x + y)[i] < |w.groups| && Torn(w, (x + y)[i], a + b) {
      if i < |x| {
        Untouched(w, x[i], b, mid, hi, y);
        TornLeft(w, x[i], a, b);
      } else {
        var g := y[i - |x|];
        assert g !in x;
        Untouched(w, g, a, lo, mid, x);
        TornRight(w, g, a, b);
      }
    }
  }

  // ---- One group ----

  function SetUps(g: nat, k: nat, n: nat): (u: seq<Event>)
    requires k <= n
    ensures |u| == n - k && forall i :: 0 <= i < |u| ==> u[i] == SetUp(g, k + i)
  {
    seq(n - k, i requires 0 <= i < n - k => SetUp(g, k + i))
  }

  function TearDowns(g: nat, k: nat, n: nat): (u: seq<Event>)
    requires k <= n
    ensures |u| == n - k && forall i :: 0 <= i < |u| ==> u[i] == TearDown(g, k + i)
  {
    seq(n - k, i requires 0 <= i < n - k => TearDown(g, k + i))
  }

  lemma {:induction false} BeforesTrace(w: World, g: nat, k: nat, r: Run) returns (n: nat)
    requires g < |w.groups| && k <= |w.groups[g].beforeAll|
    ensures k <= n <= |w.groups[g].beforeAll|
    ensures RunBefores(w, g, k, r).0.trace == r.trace + SetUps(g, k, n)
    decreases |w.groups[g].beforeAll| - k
  {
    if k == |w.groups[g].beforeAll| {
      n := k;
    } else {
      var r' := r.(trace := r.trace + [SetUp(g, k)]);
      n := k + 1;
      if !w.fails(r.trace, BeforeStep(g, k)) { n := BeforesTrace(w, g, k + 1, r'); }
      assert [SetUp(g, k)] + SetUps(g, k + 1, n) == SetUps(g, k, n);
      assert SetUps(g, k, k + 1) == [SetUp(g, k)];
      assert (r.trace + [SetUp(g, k)]) + SetUps(g, k + 1, n) == r.trace + ([SetUp(g, k)] + SetUps(g, k + 1, n));
    }
  }

  lemma {:induction false} AftersTrace(w: World, g: nat, k: nat, r: Run)
    requires g < |w.groups| && k <= |w.groups[g].afterAll|
    ensures RunAfters(w, g, k, r).0.trace == r.trace + TearDowns(g, k, |w.groups[g].afterAll|)
    decreases |w.groups[g].afterAll| - k
  {
    var n := |w.groups[g].afterAll|;
    if k < n {
      AftersTrace(w, g, k + 1, r.(trace := r.trace + [TearDown(g, k)]));
      assert [TearDown(g, k)] + TearDowns(g, k + 1, n) == TearDowns(g, k, n);
      assert (r.trace + [TearDown(g, k)]) + TearDowns(g, k + 1, n)
                == r.trace + ([TearDown(g, k)] + TearDowns(g, k + 1, n));
    }
  }

  /** What closing a group adds. */
  lemma {:induction false} FinishTrace(w: World, g: nat, r: Run) returns (end: seq<Event>)
    requires g < |w.groups|
    ensures end == [] || end == [AfterAllFailed(g)]
    ensures FinishGroup(w, g, r).trace == r.trace + (TearDowns(g, 0, |w.groups[g].afterAll|) + end)
  {
    AftersTrace(w, g, 0, r);
    var t := TearDowns(g, 0, |w.groups[g].afterAll|);
    end := if RunAfters(w, g, 0, r).1 then [AfterAllFailed(g)] else [];
    assert (r.trace + t) + end == r.trace + (t + end);
    assert t + [] == t;
  }

  lemma {:induction false} UnstartTrace(w: World, lo: nat, hi: nat, r: Run) returns (u: seq<Event>)
    ensures Unstart(w, lo, hi, r).trace == r.trace + u && Once(u)
    ensures forall p :: 0 <= p < |u| ==> u[p].Unstarted? && lo <= u[p].i < hi
    decreases hi - lo
  {
    if lo >= hi {
      u := [];
    } else {
      var r' := if w.included(lo) then r.(trace := r.trace + [Unstarted(lo)]) else r;
      u := UnstartTrace(w, lo + 1, hi, r');
      if w.included(lo) {
        assert (r.trace + [Unstarted(lo)]) + u == r.trace + ([Unstarted(lo)] + u);
        u := [Unstarted(lo)] + u;
      }
    }
  }

  lemma {:induction false} SkipTrace(lo: nat, hi: nat, r: Run) returns (u: seq<Event>)
    ensures SkipSpecs(lo, hi, r).trace == r.trace + u && Once(u)
    ensures forall p :: 0 <= p < |u| ==> u[p].Skipped? && lo <= u[p].i < hi
    decreases hi - lo
  {
    if lo >= hi {
      u := [];
    } else {
      u := SkipTrace(lo + 1, hi, r.(trace := r.trace + [Skipped(lo)]));
      assert (r.trace + [Skipped(lo)]) + u == r.trace + ([Skipped(lo)] + u);
      u := [Skipped(lo)] + u;
    }
  }

  lemma {:induction false} BatchTrace(w: World, lo: nat, hi: nat, r: Run) returns (u: seq<Event>)
    ensures RunBatch(w, lo, hi, r).trace == r.trace + u && Once(u) && AllAbout(u, lo, hi, [])
    decreases hi - lo
  {
    if lo >= hi {
      u := [];
    } else {
      var e := Ran(lo, w.fails(r.trace, SpecStep(lo)));
      var r' := RunSpec(w, lo, r);
      if r'.stopped { u := UnstartTrace(w, lo + 1, hi, r'); } else { u := BatchTrace(w, lo + 1, hi, r'); }
      assert (r.trace + [e]) + u == r.trace + ([e] + u);
      u := [e] + u;
    }
  }

  /** m has none of g's own hooks, nor the report that one failed after. */
  ghost predicate HooklessOf(g: nat, m: seq<Event>) {
    forall p :: 0 <= p < |m| ==>
        !(m[p].SetUp? && m[p].g == g) && !(m[p].TearDown? && m[p].g == g) && m[p] != AfterAllFailed(g)
  }

  /** What happens between a group's BeforeAlls and its AfterAlls. */
  ghost predicate Middle(w: World, g: nat, m: seq<Event>, lo: int, hi: int, inner: seq<nat>) {
    && AllAbout(m, lo, hi, [g] + inner) && Once(m) && HooklessOf(g, m)
    && forall i :: 0 <= i < |inner| ==> inner[i] < |w.groups| && Torn(w, inner[i], m)
  }

  lemma {:induction false} NestOnce(g: nat, n: nat, m: seq<Event>, k: nat, end: seq<Event>)
    requires Once(m) && HooklessOf(g, m) && (end == [] || end == [AfterAllFailed(g)])
    ensures Once(SetUps(g, 0, n) + m + (TearDowns(g, 0, k) + end))
  {
    var a, t := SetUps(g, 0, n), TearDowns(g, 0, k);
    var b := t + end;
    assert Once(b);
    var u := a + m;
    forall p, q | 0 <= p < q < |u| ensures u[p] != u[q] {
      if p < |a| <= q { assert u[q] == m[q - |a|]; }
    }
    forall p, q | 0 <= p < |u| && 0 <= q < |b| ensures u[p] != b[q] {
      if p >= |a| { assert u[p] == m[p - |a|]; }
    }
  }

  lemma {:induction false} NestTorn(w: World, g: nat, a: seq<Event>, m: seq<Event>, end: seq<Event>)
    requires g < |w.groups| && (end == [] || end == [AfterAllFailed(g)])
    ensures Torn(w, g, a + m + (TearDowns(g, 0, |w.groups[g].afterAll|) + end))
  {
    var t := TearDowns(g, 0, |w.groups[g].afterAll|);
    var b := t + end;
    var u := a + m + b;
    var n := |a + m|;
    assert forall q :: 0 <= q < |b| ==> !Touches(w, g, b[q]);
    assert forall q :: n <= q < |u| ==> u[q] == b[q - n];
    forall p, k: nat | 0 <= p < |u| && Touches(w, g, u[p]) && k < |w.groups[g].afterAll|
      ensures TearDown(g, k) in u[p + 1..]
    {
      assert u[n + k] == TearDown(g, k) && u[p + 1..][n + k - p - 1] == u[n + k];
    }
  }

  lemma {:induction false} NestNeat(w: World, g: nat, n: nat, m: seq<Event>, end: seq<Event>, lo: int, hi: int,
      inner: seq<nat>)
    requires g < |w.groups| && Middle(w, g, m, lo, hi, inner) && g !in inner
    requires Between(w.groups, inner, lo, hi, |w.groups[g].path|)
    requires end == [] || end == [AfterAllFailed(g)]
    ensures Neat(w, SetUps(g, 0, n) + m + (TearDowns(g, 0, |w.groups[g].afterAll|) + end), lo, hi, [g] + inner)
  {
    var a, t := SetUps(g, 0, n), TearDowns(g, 0, |w.groups[g].afterAll|) + end;
    var ids := [g] + inner;
    assert ids[0] == g;
    NestOnce(g, n, m, |w.groups[g].afterAll|, end);
    NestTorn(w, g, a, m, end);
    NestAbout(g, n, m, |w.groups[g].afterAll|, end, lo, hi, inner);
    forall i | 0 <= i < |ids| ensures ids[i] < |w.groups| && Torn(w, ids[i], a + m + t) {
      if i > 0 {
        assert ids[i] == inner[i - 1] && ids[i] != g;
        TornRight(w, ids[i], a, m);
        TornLeft(w, ids[i], a + m, t);
      }
    }
  }

  lemma {:induction false} NestAbout(g: nat, n: nat, m: seq<Event>, k: nat, end: seq<Event>, lo: int, hi: int,
      inner: seq<nat>)
    requires AllAbout(m, lo, hi, [g] + inner) && (end == [] || end == [AfterAllFailed(g)])
    ensures AllAbout(SetUps(g, 0, n) + m + (TearDowns(g, 0, k) + end), lo, hi, [g] + inner)
  {
    assert ([g] + inner)[0] == g;
  }

  lemma {:induction false} BodyIsMiddle(w: World, g: nat, m: seq<Event>, lo: int, hi: int, inner: seq<nat>)
    requires Neat(w, m, lo, hi, inner) && g !in inner
    ensures Middle(w, g, m, lo, hi, inner)
  {
    forall p | 0 <= p < |m| ensures About(m[p], lo, hi, [g] + inner) {
      assert About(m[p], lo, hi, inner);
    }
    forall p | 0 <= p < |m|
      ensures !(m[p].SetUp? && m[p].g == g) && !(m[p].TearDown? && m[p].g == g) && m[p] != AfterAllFailed(g)
    {
      assert About(m[p], lo, hi, inner);
    }
  }

  lemma {:induction false} SkipsAreMiddle(w: World, g: nat, skips: seq<Event>, lo: int, hi: int, inner: seq<nat>)
    requires Once(skips) && (forall p :: 0 <= p < |skips| ==> skips[p].Skipped? && lo <= skips[p].i < hi)
    requires forall i :: 0 <= i < |inner| ==> inner[i] < |w.groups|
    ensures Middle(w, g, [BeforeAllFailed(g)] + skips, lo, hi, inner)
  {
    var m := [BeforeAllFailed(g)] + skips;
    assert ([g] + inner)[0] == g;
    forall i | 0 <= i < |inner| ensures Torn(w, inner[i], m) {
      assert forall p :: 0 <= p < |m| ==> !Touches(w, inner[i], m[p]);
    }
  }

  /** One section's part of the trace. */
  lemma {:induction false} SectionTrace(w: World, s: Section, lo: nat, depth: nat, r: Run) returns (u: seq<Event>)
    requires Laid(s, lo, w.groups, depth) && GroupsOf(s, |w.groups|)
    ensures RunSection(w, s, lo, r).trace == r.trace + u && Neat(w, u, lo, lo + Size(s), PreOrder(s))
    decreases s, 1
  {
    match s
    case OneSpec => u := [Ran(lo, w.fails(r.trace, SpecStep(lo)))];
    case Batch(n) => u := BatchTrace(w, lo, lo + n, r);
    case Nest(g, body) => u := NestTrace(w, g, body, lo, depth, r);
  }

  lemma {:induction false} NestTrace(w: World, g: nat, body: seq<Section>, lo: nat, depth: nat,
      r: Run) returns (u: seq<Event>)
    requires Laid(Nest(g, body), lo, w.groups, depth) && GroupsOf(Nest(g, body), |w.groups|)
    ensures RunSection(w, Nest(g, body), lo, r).trace == r.trace + u
    ensures Neat(w, u, lo, lo + SizeAll(body), [g] + PreOrderAll(body))
    decreases body, 2
  {
    var hi, inner := lo + SizeAll(body), PreOrderAll(body);
    NestDistinct(w.groups, g, body, lo, depth);
    NestIs(w, g, body, lo, r);
    hide *;
    var n := BeforesTrace(w, g, 0, r);
    var b := RunBefores(w, g, 0, r);
    var mid, m;
    if b.1 {
      m := AllTrace(w, body, lo, |w.groups[g].path|, b.0);
      mid := RunAll(w, body, lo, b.0);
      BodyIsMiddle(w, g, m, lo, hi, inner);
    } else {
      var skips := SkipTrace(lo, hi, b.0.(trace := b.0.trace + [BeforeAllFailed(g)]));
      m := [BeforeAllFailed(g)] + skips;
      mid := SkipGroup(w, g, lo, hi, b.0);
      SkipTraceIs(w, g, lo, hi, b.0, skips);
      SkipsAreMiddle(w, g, skips, lo, hi, inner);
    }
    var end := FinishTrace(w, g, mid);
    NestNeat(w, g, n, m, end, lo, hi, inner);
    u := ThreeParts(r.trace, SetUps(g, 0, n), m, TearDowns(g, 0, |w.groups[g].afterAll|) + end, b.0.trace, mid.trace,
      FinishGroup(w, g, mid).trace);
  }

  lemma {:induction false} ThreeParts(r: seq<Event>, a: seq<Event>, m: seq<Event>, t: seq<Event>, x: seq<Event>,
      y: seq<Event>, z: seq<Event>)
    returns (u: seq<Event>)
    requires x == r + a && y == x + m && z == y + t
    ensures u == a + m + t && z == r + u
  {
    u := a + m + t;
  }

  lemma {:induction false} NestIs(w: World, g: nat, body: seq<Section>, lo: nat, r: Run)
    requires GroupsOf(Nest(g, body), |w.groups|)
    ensures g < |w.groups| && GroupsOfAll(body, |w.groups|)
    ensures var b := RunBefores(w, g, 0, r);
            RunSection(w, Nest(g, body), lo, r)
            == FinishGroup(w, g, if b.1 then RunAll(w, body, lo, b.0) else SkipGroup(w, g, lo, lo + SizeAll(body), b.0))
  {
  }

  lemma {:induction false} SkipTraceIs(w: World, g: nat, lo: nat, hi: nat, r: Run, skips: seq<Event>)
    requires SkipSpecs(lo, hi, r.(trace := r.trace + [BeforeAllFailed(g)])).trace
              == (r.trace + [BeforeAllFailed(g)]) + skips
    ensures SkipGroup(w, g, lo, hi, r).trace == r.trace + ([BeforeAllFailed(g)] + skips)
  {
  }

  lemma {:induction false} NestDistinct(groups: seq<Group>, g: nat, body: seq<Section>, lo: nat, depth: nat)
    requires Laid(Nest(g, body), lo, groups, depth)
    ensures g < |groups| && LaidAll(body, lo, groups, |groups[g].path|) && g !in PreOrderAll(body)
    ensures Between(groups, PreOrderAll(body), lo, lo + SizeAll(body), |groups[g].path|)
    ensures forall i :: 0 <= i < |PreOrderAll(body)| ==> PreOrderAll(body)[i] < |groups|
  {
    PreOrderAllBetween(body, lo, groups, |groups[g].path|);
  }

  /** However the run goes, every event happens at most once, and every group
      that was entered has all its AfterAlls run after its last spec. */
  lemma {:induction false} AllTrace(w: World, ss: seq<Section>, lo: nat, depth: nat, r: Run) returns (u: seq<Event>)
    requires LaidAll(ss, lo, w.groups, depth) && GroupsOfAll(ss, |w.groups|)
    ensures RunAll(w, ss, lo, r).trace == r.trace + u && Neat(w, u, lo, lo + SizeAll(ss), PreOrderAll(ss))
    decreases ss, 1
  {
    PreOrderAllBetween(ss, lo, w.groups, depth);
    hide Laid, LaidAll, PreOrderAll, RunSection;
    if r.stopped {
      u := UnstartTrace(w, lo, lo + SizeAll(ss), r);
      UnstartedNeat(w, u, lo, lo + SizeAll(ss), PreOrderAll(ss));
    } else if ss == [] {
      u := [];
    } else {
      u := SomeTrace(w, ss, lo, depth, r);
    }
  }

  lemma {:induction false} UnstartedNeat(w: World, u: seq<Event>, lo: int, hi: int, ids: seq<nat>)
    requires Once(u) && (forall p :: 0 <= p < |u| ==> u[p].Unstarted? && lo <= u[p].i < hi)
    requires forall i :: 0 <= i < |ids| ==> ids[i] < |w.groups|
    ensures Neat(w, u, lo, hi, ids)
  {
  }

  lemma {:induction false} NothingNeat(w: World, lo: int, hi: int, ids: seq<nat>)
    requires forall i :: 0 <= i < |ids| ==> ids[i] < |w.groups|
    ensures Neat(w, [], lo, hi, ids)
  {
  }

  lemma {:induction false} SomeTrace(w: World, ss: seq<Section>, lo: nat, depth: nat, r: Run) returns (u: seq<Event>)
    requires LaidAll(ss, lo, w.groups, depth) && GroupsOfAll(ss, |w.groups|) && !r.stopped && ss != []
    ensures RunAll(w, ss, lo, r).trace == r.trace + u && Neat(w, u, lo, lo + SizeAll(ss), PreOrderAll(ss))
    decreases ss, 0
  {
    var first, rest, x, y := Parts(ss, lo, w.groups, depth);
    RunAllIs(w, ss, first, rest, lo, r);
    hide *;
    var mid := lo + Size(first);
    var a, r' := FirstTrace(w, first, lo, depth, r);
    var b := AllTrace(w, rest, mid, depth, r');
    u := a + b;
    NeatJoin(w, a, b, lo, mid, lo + SizeAll(ss), x, y);
    Sequences.Grouped(r.trace, a, b);
  }

  lemma {:induction false} Parts(ss: seq<Section>, lo: nat, groups: seq<Group>, depth: nat)
    returns (first: Section, rest: seq<Section>, x: seq<nat>, y: seq<nat>)
    requires LaidAll(ss, lo, groups, depth) && ss != []
    ensures ss == [first] + rest && first == ss[0] && |rest| < |ss|
    ensures Laid(first, lo, groups, depth) && LaidAll(rest, lo + Size(first), groups, depth)
    ensures SizeAll(ss) == Size(first) + SizeAll(rest)
    ensures x == PreOrder(first) && y == PreOrderAll(rest) && PreOrderAll(ss) == x + y
    ensures Between(groups, x, lo, lo + Size(first), -1) && Between(groups, y, lo + Size(first), lo + SizeAll(ss), -1)
    ensures forall i :: 0 <= i < |x| ==> x[i] !in y
  {
    first, rest, x, y := ss[0], ss[1..], PreOrder(ss[0]), PreOrderAll(ss[1..]);
    SectionsSplit(ss, lo, groups, depth);
    SectionsApart(ss, lo, groups, depth);
    hide *;
  }

  /** The first section's part, which is nothing when another shard has it. */
  lemma {:induction false} FirstTrace(w: World, s: Section, lo: nat, depth: nat, r: Run)
    returns (a: seq<Event>, r': Run)
    requires Laid(s, lo, w.groups, depth) && GroupsOf(s, |w.groups|) && !r.stopped
    ensures r' == (if w.included(lo) then RunSection(w, s, lo, r) else r) && r'.trace == r.trace + a
    ensures Neat(w, a, lo, lo + Size(s), PreOrder(s))
    decreases s, 2
  {
    if w.included(lo) {
      a := SectionTrace(w, s, lo, depth, r);
      r' := RunSection(w, s, lo, r);
    } else {
      a, r' := [], r;
      PreOrderBetween(s, lo, w.groups, depth);
      NothingNeat(w, lo, lo + Size(s), PreOrder(s));
      Sequences.NothingAdded(r.trace);
    }
    hide *;
  }

  lemma {:induction false} RunAllIs(w: World, ss: seq<Section>, first: Section, rest: seq<Section>, lo: nat, r: Run)
    requires GroupsOfAll(ss, |w.groups|) && !r.stopped && ss == [first] + rest
    ensures GroupsOf(first, |w.groups|) && GroupsOfAll(rest, |w.groups|)
    ensures RunAll(w, ss, lo, r)
         == RunAll(w, rest, lo + Size(first), if w.included(lo) then RunSection(w, first, lo, r) else r)
  {
    assert ss[0] == first && ss[1..] == rest;
    hide RunSection;
  }

  lemma {:induction false} SectionsApart(ss: seq<Section>, lo: nat, groups: seq<Group>, depth: nat)
    requires LaidAll(ss, lo, groups, depth) && ss != []
    ensures Between(groups, PreOrder(ss[0]), lo, lo + Size(ss[0]), -1)
    ensures Between(groups, PreOrderAll(ss[1..]), lo + Size(ss[0]), lo + SizeAll(ss), -1)
    ensures forall i :: 0 <= i < |PreOrder(ss[0])| ==>
              PreOrder(ss[0])[i] < |groups| && PreOrder(ss[0])[i] !in PreOrderAll(ss[1..])
  {
    PreOrderBetween(ss[0], lo, groups, depth);
    PreOrderAllBetween(ss[1..], lo + Size(ss[0]), groups, depth);
  }
}
