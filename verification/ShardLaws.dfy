/** What the shards of a suite do together, whatever fails in each of them. */
module ShardLaws {
  import opened Options
  import opened Plans
  import opened Sections
  import opened GroupRuns
  import opened GroupLaws
  import opened GroupTearDown
  import opened Shards
  import Sequences

  /** One of the jobs: shard k of the suite, with outcomes of its own. */
  ghost predicate IsShard(w: World, groups: seq<Group>, ss: seq<Section>, k: nat, count: nat) {
    k < count && w.groups == groups && w.included == Drawn(Selection(ss, 0, k, count))
  }

  lemma {:induction false} ShardIsWhole(w: World, ss: seq<Section>, k: nat, count: nat)
    requires IsShard(w, w.groups, ss, k, count)
    ensures Wholes(w, ss, 0)
  {
    var before: seq<bool> := [];
    assert before + Selection(ss, 0, k, count) == Selection(ss, 0, k, count);
    UnitsWhole(w, before, ss, 0, k, count);
  }

  /** The shard that has unit u. */
  function Owner(u: nat, count: nat): nat
    requires count > 0
  {
    u % count
  }

  lemma {:induction false} DrawnByOwner(w: World, ss: seq<Section>, k: nat, count: nat, i: nat)
    requires IsShard(w, w.groups, ss, k, count) && i < SizeAll(ss)
    ensures w.included(i) <==> k == Owner(UnitOf(ss, i), count)
  {
    OneOwner(ss, 0, k, count, i);
    hide Selection, UnitOf;
  }

  // ---- Specs ----

  lemma {:induction false} SelectedOnce(w: World, lo: nat, hi: nat, i: nat)
    ensures multiset(Selected(w, lo, hi))[i] == if lo <= i < hi && w.included(i) then 1 else 0
    decreases hi - lo
  {
    if lo < hi {
      SelectedOnce(w, lo + 1, hi, i);
      var one, rest := if w.included(lo) then [lo] else [], Selected(w, lo + 1, hi);
      assert Selected(w, lo, hi) == one + rest;
      hide *;
      Counted(one, rest, i);
    }
  }

  lemma {:induction false} Counted(a: seq<nat>, b: seq<nat>, i: nat)
    ensures multiset(a + b)[i] == multiset(a)[i] + multiset(b)[i]
  {
  }

  lemma {:induction false} ReportsOnce(w: World, ss: seq<Section>, k: nat, count: nat, i: nat)
    requires GroupsOfAll(ss, |w.groups|) && IsShard(w, w.groups, ss, k, count)
    ensures multiset(Reported(RunAll(w, ss, 0, FRESH).trace))[i]
         == if i < SizeAll(ss) && k == Owner(UnitOf(ss, i), count) then 1 else 0
  {
    hide *;
    ShardIsWhole(w, ss, k, count);
    AllReports(w, ss, 0, FRESH);
    NothingReported();
    SelectedOnce(w, 0, SizeAll(ss), i);
    if i < SizeAll(ss) { DrawnByOwner(w, ss, k, count, i); }
    var all := Selected(w, 0, SizeAll(ss));
    assert [] + all == all;
  }

  lemma {:induction false} NothingReported()
    ensures Reported(FRESH.trace) == []
  {
  }

  // ---- Groups ----

  /** The group a hook, or a report that one failed, is of. */
  function GroupOfEvent(e: Event): Option<nat> {
    match e
    case SetUp(g, _) => Some(g)
    case TearDown(g, _) => Some(g)
    case BeforeAllFailed(g) => Some(g)
    case AfterAllFailed(g) => Some(g)
    case _ => None
  }

  /** Hooks are those of groups that begin with a selected spec. */
  ghost predicate HooksSelected(w: World, u: seq<Event>, lo: int, hi: int) {
    forall p :: 0 <= p < |u| && GroupOfEvent(u[p]).Some? ==>
      var g := GroupOfEvent(u[p]).value;
      g < |w.groups| && lo <= w.groups[g].first < hi && w.included(w.groups[g].first)
  }

  lemma {:induction false} SectionHooks(w: World, s: Section, lo: nat, depth: nat, r: Run) returns (u: seq<Event>)
    requires Laid(s, lo, w.groups, depth) && GroupsOf(s, |w.groups|)
    requires Whole(w, lo, lo + Size(s)) && w.included(lo)
    ensures RunSection(w, s, lo, r).trace == r.trace + u && HooksSelected(w, u, lo, lo + Size(s))
  {
    u := SectionTrace(w, s, lo, depth, r);
    PreOrderBetween(s, lo, w.groups, depth);
    hide Laid, RunSection, Torn, Once;
    var ids := PreOrder(s);
    forall p | 0 <= p < |u| && GroupOfEvent(u[p]).Some?
      ensures var g := GroupOfEvent(u[p]).value;
        g < |w.groups| && lo <= w.groups[g].first < lo + Size(s) && w.included(w.groups[g].first)
    {
      assert About(u[p], lo, lo + Size(s), ids);
      var g := GroupOfEvent(u[p]).value;
      assert g in ids;
      var i :| 0 <= i < |ids| && ids[i] == g;
    }
  }

  lemma {:induction false} AllHooks(w: World, ss: seq<Section>, lo: nat, depth: nat, r: Run) returns (u: seq<Event>)
    requires LaidAll(ss, lo, w.groups, depth) && GroupsOfAll(ss, |w.groups|) && Wholes(w, ss, lo)
    ensures RunAll(w, ss, lo, r).trace == r.trace + u && HooksSelected(w, u, lo, lo + SizeAll(ss))
    decreases ss
  {
    if r.stopped {
      u := UnstartTrace(w, lo, lo + SizeAll(ss), r);
    } else if ss == [] {
      u := [];
    } else {
      var mid, a, r' := lo + Size(ss[0]), [], r;
      SectionsSplit(ss, lo, w.groups, depth);
      if w.included(lo) {
        a := SectionHooks(w, ss[0], lo, depth, r);
        r' := RunSection(w, ss[0], lo, r);
      } else {
        Sequences.NothingAdded(r.trace);
      }
      hide RunSection, Whole, Laid;
      var b := AllHooks(w, ss[1..], mid, depth, r');
      Sequences.Grouped(r.trace, a, b);
      u := a + b;
    }
  }

  lemma {:induction false} HookOfOwner(w: World, ss: seq<Section>, k: nat, count: nat, e: Event)
    requires LaidAll(ss, 0, w.groups, 0) && GroupsOfAll(ss, |w.groups|) && IsShard(w, w.groups, ss, k, count)
    requires e in RunAll(w, ss, 0, FRESH).trace && GroupOfEvent(e).Some?
    ensures var g := GroupOfEvent(e).value;
            && g < |w.groups| && w.groups[g].first < SizeAll(ss)
            && k == Owner(UnitOf(ss, w.groups[g].first), count)
  {
    ShardIsWhole(w, ss, k, count);
    var u := AllHooks(w, ss, 0, 0, FRESH);
    assert FRESH.trace + u == u;
    hide RunAll, LaidAll, UnitOf, Wholes, IsShard, Owner;
    var p :| 0 <= p < |u| && u[p] == e;
    DrawnByOwner(w, ss, k, count, w.groups[GroupOfEvent(e).value].first);
  }

  // ---- All shards ----

  ghost predicate AreShards(jobs: seq<World>, groups: seq<Group>, ss: seq<Section>) {
    forall k :: 0 <= k < |jobs| ==> IsShard(jobs[k], groups, ss, k, |jobs|)
  }

  /** How often the first n jobs report spec i. */
  ghost function TimesReported(jobs: seq<World>, ss: seq<Section>, n: nat, i: nat): nat
    requires n <= |jobs| && forall k :: 0 <= k < |jobs| ==> GroupsOfAll(ss, |jobs[k].groups|)
  {
    if n == 0 then 0
    else TimesReported(jobs, ss, n - 1, i) + multiset(Reported(RunAll(jobs[n - 1], ss, 0, FRESH).trace))[i]
  }

  lemma {:induction false} ReportedByOwner(jobs: seq<World>, groups: seq<Group>, ss: seq<Section>, n: nat, i: nat)
    requires AreShards(jobs, groups, ss) && GroupsOfAll(ss, |groups|) && n <= |jobs| && |jobs| > 0
    ensures forall k :: 0 <= k < |jobs| ==> GroupsOfAll(ss, |jobs[k].groups|)
    ensures TimesReported(jobs, ss, n, i)
         == if i < SizeAll(ss) && Owner(UnitOf(ss, i), |jobs|) < n then 1 else 0
  {
    hide GroupsOfAll, RunAll, Reported, UnitOf, Owner, SizeAll, Selection, Drawn;
    if n > 0 {
      ReportedByOwner(jobs, groups, ss, n - 1, i);
      assert IsShard(jobs[n - 1], groups, ss, n - 1, |jobs|);
      ReportsOnce(jobs[n - 1], ss, n - 1, |jobs|, i);
    }
  }

  /** Whatever fails in which job, with fail-fast or without, the jobs of a suite
      report each of its specs once between them, and the hooks of a group are run,
      or reported as failed, in one job only: the one that has the group's specs. */
  lemma {:induction false} JobsShareTheSuite(jobs: seq<World>, groups: seq<Group>, parallel: seq<Range>, n: nat,
      ss: seq<Section>)
    requires Arranged(ss, groups, parallel, n) && AreShards(jobs, groups, ss) && |jobs| > 0
    ensures forall k :: 0 <= k < |jobs| ==> GroupsOfAll(ss, |jobs[k].groups|)
    ensures forall i: nat :: TimesReported(jobs, ss, |jobs|, i) == if i < n then 1 else 0
    ensures forall k, e :: 0 <= k < |jobs| && e in RunAll(jobs[k], ss, 0, FRESH).trace && GroupOfEvent(e).Some? ==>
              && GroupOfEvent(e).value < |groups| && groups[GroupOfEvent(e).value].first < n
              && k == Owner(UnitOf(ss, groups[GroupOfEvent(e).value].first), |jobs|)
  {
    LaidAllGroups(ss, 0, groups, 0);
    assert n == SizeAll(ss) && LaidAll(ss, 0, groups, 0);
    hide Arranged, LaidAll, GroupsOfAll, RunAll, UnitOf, TimesReported;
    forall i: nat ensures TimesReported(jobs, ss, |jobs|, i) == if i < n then 1 else 0 {
      ReportedByOwner(jobs, groups, ss, |jobs|, i);
    }
    forall k, e | 0 <= k < |jobs| && e in RunAll(jobs[k], ss, 0, FRESH).trace && GroupOfEvent(e).Some?
      ensures && GroupOfEvent(e).value < |groups| && groups[GroupOfEvent(e).value].first < n
              && k == Owner(UnitOf(ss, groups[GroupOfEvent(e).value].first), |jobs|)
    {
      HookOfOwner(jobs[k], ss, k, |jobs|, e);
    }
  }
}
