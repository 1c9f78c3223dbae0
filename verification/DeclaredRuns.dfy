/** The parallel runs and the groups of a plan are those the calls declared. */
module DeclaredRuns {
  import opened Options
  import opened Declarations
  import opened Plans
  import opened DeclaredSuites
  import opened DeclaredPlans
  import Sequences

  // ---- Where declarations stand ----

  /** Everything declared so far came before turn of the scope around, whose scopes
      and those declared have numbers below id. */
  ghost predicate Past(spots: seq<Spot>, around: seq<Around>, id: nat, turn: nat) {
    && (forall j :: 0 <= j < |around| ==> around[j].id < id)
    && forall k :: 0 <= k < |spots| ==> Earlier(spots[k], around, id, turn)
  }

  ghost predicate Earlier(d: Spot, around: seq<Around>, id: nat, turn: nat) {
    (forall j :: 0 <= j < |d.around| ==> d.around[j].id < id) && (d.around == around ==> d.turn < turn)
  }

  /** d is declared by a callback that stands there, before it stands at id' and
      turn'. */
  ghost predicate Later(d: Spot, around: seq<Around>, id: nat, turn: nat, id': nat, turn': nat) {
    && around <= d.around && (forall j :: |around| <= j < |d.around| ==> id <= d.around[j].id < id')
    && (d.around == around ==> turn <= d.turn < turn')
  }

  ghost predicate AllLater(spots: seq<Spot>, around: seq<Around>, id: nat, turn: nat, id': nat, turn': nat) {
    forall k :: 0 <= k < |spots| ==> Later(spots[k], around, id, turn, id', turn')
  }

  lemma {:induction false} SpotsLater(s: Script, around: seq<Around>, id: nat, turn: nat)
    ensures AllLater(Spots(s, around, id, turn), around, id, turn, id + Scopes(s), turn + Turns(s))
    decreases s
  {
    match s {
      case Done =>
      case Then(It(kind, name, body), rest) =>
        SpotsLater(rest, around, id, if kind == Focus && body.None? then turn else turn + 1);
      case Then(Describe(name, Some(inner)), rest) =>
        var chain, id' := around + [Around(name, id, inner)], id + 1 + Scopes(inner);
        SpotsLater(inner, chain, id + 1, 0);
        SpotsLater(rest, around, id', turn + 1);
        hide AllLater;
        BothLater(Spots(inner, chain, id + 1, 0), Spots(rest, around, id', turn + 1), around, Around(name, id, inner),
          turn, id', Turns(inner), id + Scopes(s), turn + Turns(s));
      case Then(c, rest) => SpotsLater(rest, around, id, turn);
    }
  }

  lemma {:induction false} InnerLater(d: Spot, around: seq<Around>, a: Around, id': nat, turn': nat)
    requires Later(d, around + [a], a.id + 1, 0, id', turn') && a.id < id'
    ensures forall id'': nat, t: nat, t': nat :: id' <= id'' && t <= t' ==> Later(d, around, a.id, t, id'', t')
  {
    assert |around + [a]| == |around| + 1 && (around + [a])[|around|] == a;
    assert d.around[|around|] == a && around == (around + [a])[..|around|] == d.around[..|around|];
  }

  /** What is declared inside a scope, and then behind it. */
  lemma {:induction false} BothLater(x: seq<Spot>, y: seq<Spot>, around: seq<Around>, a: Around, turn: nat, id': nat,
      turn': nat, id'': nat, turn'': nat)
    requires AllLater(x, around + [a], a.id + 1, 0, id', turn') && AllLater(y, around, id', turn + 1, id'', turn'')
    requires a.id < id' <= id'' && turn < turn''
    ensures AllLater(x + y, around, a.id, turn, id'', turn'')
  {
    forall k | 0 <= k < |x| ensures Later(x[k], around, a.id, turn, id'', turn'') {
      assert Later(x[k], around + [a], a.id + 1, 0, id', turn');
      InnerLater(x[k], around, a, id', turn');
    }
    forall k | 0 <= k < |y| ensures Later(y[k], around, a.id, turn, id'', turn'') {
      assert Later(y[k], around, id', turn + 1, id'', turn'');
    }
    hide Later;
  }

  lemma {:induction false} WhereIn(spots: seq<Spot>, f: Spot -> bool)
    ensures forall k :: 0 <= k < |Where(spots, f)| ==> Where(spots, f)[k] in spots && f(Where(spots, f)[k])
  {
    if spots != [] { WhereIn(spots[1..], f); }
  }

  lemma {:induction false} SomeLater(spots: seq<Spot>, f: Spot -> bool, around: seq<Around>, id: nat, turn: nat,
      id': nat, turn': nat)
    requires AllLater(spots, around, id, turn, id', turn')
    ensures AllLater(Where(spots, f), around, id, turn, id', turn')
  {
    WhereIn(spots, f);
    hide Later, Where;
    forall k | 0 <= k < |Where(spots, f)| ensures Later(Where(spots, f)[k], around, id, turn, id', turn') {
      var i :| 0 <= i < |spots| && spots[i] == Where(spots, f)[k];
    }
  }

  lemma {:induction false} PastMore(spots: seq<Spot>, more: seq<Spot>, around: seq<Around>, id: nat, turn: nat,
      id': nat, turn': nat)
    requires Past(spots, around, id, turn) && AllLater(more, around, id, turn, id', turn') && id <= id' && turn <= turn'
    ensures Past(spots + more, around, id', turn')
  {
    var all := spots + more;
    forall k | 0 <= k < |all| ensures Earlier(all[k], around, id', turn') {
      if k < |spots| {
        assert Earlier(spots[k], around, id, turn);
      } else {
        assert Later(more[k - |spots|], around, id, turn, id', turn') && all[k] == more[k - |spots|];
        EarlierOnce(all[k], around, id, turn, id', turn');
      }
    }
  }

  lemma {:induction false} EarlierOnce(d: Spot, around: seq<Around>, id: nat, turn: nat, id': nat, turn': nat)
    requires Later(d, around, id, turn, id', turn') && id <= id' && forall j :: 0 <= j < |around| ==> around[j].id < id
    ensures Earlier(d, around, id', turn')
  {
    forall j | 0 <= j < |d.around| ensures d.around[j].id < id' {
      if j < |around| { assert d.around[j] == around[j]; }
    }
  }

  lemma {:induction false} PastInner(spots: seq<Spot>, around: seq<Around>, id: nat, turn: nat, a: Around)
    requires Past(spots, around, id, turn) && a.id == id
    ensures Past(spots, around + [a], id + 1, 0)
  {
    var chain := around + [a];
    forall k | 0 <= k < |spots| ensures Earlier(spots[k], chain, id + 1, 0) {
      assert Earlier(spots[k], around, id, turn);
      FreshChain(spots[k], chain, id);
    }
  }

  lemma {:induction false} FreshChain(d: Spot, chain: seq<Around>, id: nat)
    requires chain != [] && chain[|chain| - 1].id == id && forall j :: 0 <= j < |d.around| ==> d.around[j].id < id
    ensures d.around != chain
  {
  }

  // ---- Parallel runs ----

  /** d is declared just before turn of the scope around. */
  predicate JustBefore(d: Spot, around: seq<Around>, turn: nat) {
    d.kind == Parallel && d.around == around && d.turn + 1 == turn
  }

  ghost predicate ClosedRuns(runs: seq<Range>, spots: seq<Spot>, open: nat) {
    && (forall r :: 0 <= r < |runs| ==> IsRun(spots, runs[r].first, runs[r].last) && runs[r].last < open)
    && (forall r, q :: 0 <= r < q < |runs| ==> runs[r].last < runs[q].first)
    && Covered(runs, spots, open) && (forall r :: 0 <= r < |runs| ==> Ends(spots, runs[r].last))
  }

  /** Every parallel spec before open is in a run. */
  ghost predicate Covered(runs: seq<Range>, spots: seq<Spot>, open: nat) {
    forall i :: 0 <= i < |spots| && i < open && spots[i].kind == Parallel ==> InRun(runs, i)
  }

  /** No run goes on behind spec last. */
  predicate Ends(spots: seq<Spot>, last: nat) {
    last + 1 < |spots| ==> !Neighbours(spots[last], spots[last + 1])
  }

  ghost predicate RunsRight(b: Build, spots: seq<Spot>, around: seq<Around>, turn: nat) {
    && |b.plan.specs| == |spots|
    && match b.open
       case None =>
         ClosedRuns(b.plan.parallel, spots, |spots|) && (spots != [] ==> !JustBefore(spots[|spots| - 1], around, turn))
       case Some(s) =>
         && ClosedRuns(b.plan.parallel, spots, s) && IsRun(spots, s, |spots| - 1)
         && JustBefore(spots[|spots| - 1], around, turn)
  }

  lemma {:induction false} RunsClosed(b: Build, spots: seq<Spot>, around: seq<Around>, turn: nat)
    requires RunsRight(b, spots, around, turn)
    ensures ClosedRuns(CloseRun(b).plan.parallel, spots, |spots|) && CloseRun(b).open == None
    ensures CloseRun(b).plan.specs == b.plan.specs
  {
    hide ClosedRuns;
    if b.open.Some? {
      assert b.open.value < |spots|;
      hide *;
      OpenRun(b, spots);
      RunAdded(b.plan.parallel, spots, b.open.value);
    }
  }

  lemma {:induction false} OpenRun(b: Build, spots: seq<Spot>)
    requires b.open.Some? && b.open.value < |spots| == |b.plan.specs|
    ensures CloseRun(b) == Build(b.plan.(parallel := b.plan.parallel + [Range(b.open.value, |spots| - 1)]), None)
  {
  }

  lemma {:induction false} RunAdded(runs: seq<Range>, spots: seq<Spot>, s: nat)
    requires ClosedRuns(runs, spots, s) && IsRun(spots, s, |spots| - 1) && s < |spots|
    ensures ClosedRuns(runs + [Range(s, |spots| - 1)], spots, |spots|)
  {
    hide IsRun, Covered;
    var all := runs + [Range(s, |spots| - 1)];
    assert all[|runs|] == Range(s, |spots| - 1) && Ends(spots, |spots| - 1);
    CoveredMore(runs, spots, s);
  }

  lemma {:induction false} CoveredMore(runs: seq<Range>, spots: seq<Spot>, s: nat)
    requires Covered(runs, spots, s) && s < |spots|
    ensures Covered(runs + [Range(s, |spots| - 1)], spots, |spots|)
  {
    var all := runs + [Range(s, |spots| - 1)];
    assert all[|runs|] == Range(s, |spots| - 1);
    forall i | 0 <= i < |spots| && spots[i].kind == Parallel ensures InRun(all, i) {
      if i < s {
        assert InRun(runs, i);
        var r :| 0 <= r < |runs| && runs[r].first <= i <= runs[r].last;
        assert all[r] == runs[r];
      }
    }
  }

  /** A spec that is not parallel comes after runs that are over. */
  lemma {:induction false} RunsPast(runs: seq<Range>, spots: seq<Spot>, d: Spot)
    requires ClosedRuns(runs, spots, |spots|)
    requires d.kind != Parallel || (spots != [] ==> !Neighbours(spots[|spots| - 1], d))
    ensures ClosedRuns(runs, spots + [d], |spots|)
    ensures d.kind != Parallel ==> ClosedRuns(runs, spots + [d], |spots| + 1)
  {
    RunsKept(runs, spots, d, |spots|);
    hide IsRun, InRun;
  }

  lemma {:induction false} RunsKept(runs: seq<Range>, spots: seq<Spot>, d: Spot, open: nat)
    requires ClosedRuns(runs, spots, open) && open <= |spots|
    requires open == |spots| && spots != [] ==> d.kind != Parallel || !Neighbours(spots[|spots| - 1], d)
    ensures ClosedRuns(runs, spots + [d], open)
  {
    var more := spots + [d];
    forall r | 0 <= r < |runs|
      ensures IsRun(more, runs[r].first, runs[r].last) && Ends(more, runs[r].last)
    {
      RunKept(spots, d, runs[r].first, runs[r].last);
      assert Ends(spots, runs[r].last);
    }
    hide IsRun, InRun, Ends;
  }

  lemma {:induction false} RunKept(spots: seq<Spot>, d: Spot, first: nat, last: nat)
    requires IsRun(spots, first, last)
    ensures IsRun(spots + [d], first, last)
  {
    hide Neighbours;
  }

  /** One more of an open run. */
  lemma {:induction false} RunLonger(runs: seq<Range>, spots: seq<Spot>, d: Spot, s: nat)
    requires ClosedRuns(runs, spots, s) && s < |spots| && IsRun(spots, s, |spots| - 1)
    requires Neighbours(spots[|spots| - 1], d)
    ensures ClosedRuns(runs, spots + [d], s) && IsRun(spots + [d], s, |spots|)
  {
    var more := spots + [d];
    RunsKept(runs, spots, d, s);
    forall i | s <= i < |spots| ensures Neighbours(more[i], more[i + 1]) {
      if i < |spots| - 1 { assert Neighbours(spots[i], spots[i + 1]); }
    }
    hide ClosedRuns, Neighbours;
  }

  /** A leaf is in a run, or ends one, or is left out. */
  lemma {:induction false} LeafBuilds(b: Build, c: Context, d: Spot, focus: bool)
    requires focus ==> b.open.None?
    ensures var b' := AddLeaf(b, c, d.kind, d.name, d.body, focus);
            && (focus ==> b'.open.None?)
            && |b'.plan.specs| == |b.plan.specs| + (if Runs(focus)(d) then 1 else 0)
            && b'.plan.groups == b.plan.groups
            && (d.kind != Parallel ==> b'.plan.parallel == CloseRun(b).plan.parallel && b'.open == None)
            && (d.kind == Parallel ==> b'.plan.parallel == b.plan.parallel)
            && (d.kind == Parallel && !focus ==> b'.open == if b.open.Some? then b.open else Some(|b.plan.specs|))
  {
  }

  lemma {:induction false} LeafRuns(b: Build, spots: seq<Spot>, c: Context, d: Spot, focus: bool)
    requires RunsRight(b, spots, d.around, d.turn) && (focus ==> b.open.None?)
    requires spots != [] && spots[|spots| - 1].around == d.around ==> spots[|spots| - 1].turn < d.turn
    ensures var b' := AddLeaf(b, c, d.kind, d.name, d.body, focus);
            RunsRight(b', spots + (if Runs(focus)(d) then [d] else []), d.around, d.turn + 1)
  {
    LeafBuilds(b, c, d, focus);
    hide AddLeaf, IsRun, ClosedRuns;
    var more := spots + [d];
    assert more[|spots|] == d && spots + [] == spots;
    if d.kind == Parallel {
      if !focus && b.open.Some? {
        RunLonger(b.plan.parallel, spots, d, b.open.value);
      } else if !focus {
        RunsPast(b.plan.parallel, spots, d);
        OneIsRun(spots, d);
      }
    } else {
      RunsClosed(b, spots, d.around, d.turn);
      RunsPast(CloseRun(b).plan.parallel, spots, d);
    }
  }

  lemma {:induction false} OneIsRun(spots: seq<Spot>, d: Spot)
    requires d.kind == Parallel
    ensures IsRun(spots + [d], |spots|, |spots|)
  {
  }

  // ---- Groups ----

  /** Every scope that is complete has a number below id, and is not around what is
      declared next. */
  ghost predicate PastScopes(scopes: seq<seq<Around>>, around: seq<Around>, id: nat) {
    forall i :: 0 <= i < |scopes| ==> PastScope(scopes[i], around, id)
  }

  ghost predicate PastScope(chain: seq<Around>, around: seq<Around>, id: nat) {
    chain != [] && chain[|chain| - 1].id < id && !(chain <= around)
  }

  lemma {:induction false} NotInside(chain: seq<Around>, d: Spot, around: seq<Around>, id: nat, turn: nat, id': nat,
      turn': nat)
    requires PastScope(chain, around, id) && Later(d, around, id, turn, id', turn')
    ensures !IsInside(chain, d)
  {
    var n := |chain|;
    if n <= |around| {
      assert d.around[..n] == around[..n];
    } else if n <= |d.around| {
      assert d.around[..n][n - 1].id >= id > chain[n - 1].id;
    }
  }

  lemma {:induction false} GroupedMore(chain: seq<Around>, spots: seq<Spot>, more: seq<Spot>)
    requires forall k :: 0 <= k < |more| ==> !IsInside(chain, more[k])
    ensures Grouped(chain, spots + more) <==> Grouped(chain, spots)
    ensures forall g :: GroupIs(g, chain, spots) ==> GroupIs(g, chain, spots + more)
  {
    var all := spots + more;
    hide IsInside, HasGroupHooks, HooksIn, Names, Ids;
    assert forall i :: 0 <= i < |spots| ==> all[i] == spots[i];
    assert forall i :: |spots| <= i < |all| ==> all[i] == more[i - |spots|] && !IsInside(chain, all[i]);
  }

  lemma {:induction false} GroupsMore(groups: seq<Group>, scopes: seq<seq<Around>>, spots: seq<Spot>, more: seq<Spot>,
      around: seq<Around>, id: nat, turn: nat, id': nat, turn': nat)
    requires PastScopes(scopes, around, id) && AllLater(more, around, id, turn, id', turn')
    ensures GroupedOf(scopes, spots + more) == GroupedOf(scopes, spots)
    ensures GroupsAre(groups, scopes, spots) ==> GroupsAre(groups, scopes, spots + more)
    decreases |scopes|
  {
    if scopes != [] {
      var n := |scopes| - 1;
      var chain := scopes[n];
      forall k | 0 <= k < |more| ensures !IsInside(chain, more[k]) {
        NotInside(chain, more[k], around, id, turn, id', turn');
      }
      GroupedMore(chain, spots, more);
      hide Later, PastScope, IsInside, Grouped, GroupIs;
      GroupsMore(groups[..if |groups| > 0 then |groups| - 1 else 0], scopes[..n], spots, more, around, id, turn, id',
        turn');
    }
    hide Later, PastScope, IsInside, Grouped;
    EachGroupMore(groups, scopes, spots, more, around, id, turn, id', turn');
  }

  lemma {:induction false} EachGroupMore(groups: seq<Group>, scopes: seq<seq<Around>>, spots: seq<Spot>,
      more: seq<Spot>, around: seq<Around>, id: nat, turn: nat, id': nat, turn': nat)
    requires PastScopes(scopes, around, id) && AllLater(more, around, id, turn, id', turn')
    requires GroupedOf(scopes, spots + more) == GroupedOf(scopes, spots)
    ensures GroupsAre(groups, scopes, spots) ==> GroupsAre(groups, scopes, spots + more)
  {
    if GroupsAre(groups, scopes, spots) {
      var of := GroupedOf(scopes, spots);
      GroupedIn(scopes, spots);
      hide GroupedOf, GroupIs, Grouped, Later, PastScope;
      forall i | 0 <= i < |groups| ensures GroupIs(groups[i], of[i], spots + more) {
        var j :| 0 <= j < |scopes| && scopes[j] == of[i];
        forall k | 0 <= k < |more| ensures !IsInside(of[i], more[k]) {
          NotInside(of[i], more[k], around, id, turn, id', turn');
        }
        GroupedMore(of[i], spots, more);
      }
    }
  }

  lemma {:induction false} GroupedIn(scopes: seq<seq<Around>>, spots: seq<Spot>)
    ensures forall i :: 0 <= i < |GroupedOf(scopes, spots)| ==> GroupedOf(scopes, spots)[i] in scopes
  {
    hide Grouped;
    if scopes != [] { GroupedIn(scopes[..|scopes| - 1], spots); }
  }

  // ---- Describe ----

  /** Everything declared so far is in the plan. */
  ghost predicate Right(b: Build, spots: seq<Spot>, scopes: seq<seq<Around>>, around: seq<Around>, id: nat, turn: nat,
      focus: bool)
  {
    && Past(spots, around, id, turn) && PastScopes(scopes, around, id)
    && RunsRight(b, spots, around, turn) && GroupsAre(b.plan.groups, scopes, spots) && (focus ==> b.open.None?)
  }

  lemma {:induction false} LeafRight(b: Build, spots: seq<Spot>, scopes: seq<seq<Around>>, d: Spot, id: nat,
      focus: bool)
    requires Right(b, spots, scopes, d.around, id, d.turn, focus)
    ensures Right(AddLeaf(b, ContextFor(d.around), d.kind, d.name, d.body, focus),
                  spots + Where([d], Runs(focus)), scopes, d.around, id, d.turn + 1, focus)
  {
    var added := Where([d], Runs(focus));
    var c := ContextFor(d.around);
    WhereOne(d, Runs(focus));
    LeafBuilds(b, c, d, focus);
    assert spots != [] ==> Earlier(spots[|spots| - 1], d.around, id, d.turn);
    LeafRuns(b, spots, c, d, focus);
    assert AllLater(added, d.around, id, d.turn, id, d.turn + 1);
    PastMore(spots, added, d.around, id, d.turn, id, d.turn + 1);
    GroupsMore(b.plan.groups, scopes, spots, added, d.around, id, d.turn, id, d.turn + 1);
    hide Past, AllLater, RunsRight, GroupsAre, AddLeaf, PastScopes, Where;
  }

  /** Where the callback of a Describe begins. */
  lemma {:induction false} InnerRight(b: Build, spots: seq<Spot>, scopes: seq<seq<Around>>, around: seq<Around>,
      id: nat, turn: nat, focus: bool, a: Around)
    requires Right(b, spots, scopes, around, id, turn, focus) && a.id == id
    ensures Right(CloseRun(b), spots, scopes, around + [a], id + 1, 0, focus)
    ensures ClosedRuns(CloseRun(b).plan.parallel, spots, |spots|)
  {
    RunsClosed(b, spots, around, turn);
    PastInner(spots, around, id, turn, a);
    InnerScopes(scopes, around, id, a);
    hide Past, ClosedRuns, GroupsAre, PastScopes;
  }

  lemma {:induction false} InnerScopes(scopes: seq<seq<Around>>, around: seq<Around>, id: nat, a: Around)
    requires PastScopes(scopes, around, id) && a.id == id
    ensures PastScopes(scopes, around + [a], id + 1)
  {
    forall i | 0 <= i < |scopes| ensures PastScope(scopes[i], around + [a], id + 1) {
      assert PastScope(scopes[i], around, id);
      InnerScope(scopes[i], around, id, a);
    }
  }

  lemma {:induction false} InnerScope(chain: seq<Around>, around: seq<Around>, id: nat, a: Around)
    requires PastScope(chain, around, id) && a.id == id
    ensures PastScope(chain, around + [a], id + 1)
  {
    var n, all := |chain|, around + [a];
    if n <= |around| {
      assert all[..n] == around[..n];
    } else if n == |all| {
      assert all[n - 1].id > chain[n - 1].id;
    }
  }

  /** The scope itself is complete: the specs from start on are those inside it. */
  lemma {:induction false} ScopeCloses(groups: seq<Group>, scopes: seq<seq<Around>>, before: seq<Spot>,
      inside: seq<Spot>, around: seq<Around>, a: Around, id: nat, turn: nat, id': nat, turn': nat)
    requires Past(before, around, id, turn) && a.id == id && AllLater(inside, around + [a], id + 1, 0, id', turn')
    requires GroupsAre(groups, scopes, before + inside)
    ensures var chain, spots := around + [a], before + inside;
            GroupsAre(groups + (if HasGroupHooks(a.body) && inside != [] then
                [Group(Names(chain), Ids(chain), a.name, HooksIn(a.body, AllBefore), HooksIn(a.body, AllAfter),
                  |before|, |spots| - 1)] else []),
              scopes + [chain], spots)
  {
    var chain, spots := around + [a], before + inside;
    assert chain[|around|] == a;
    InsideIs(before, inside, around, a, id, turn, id', turn');
    GroupedLast(scopes, chain, spots);
    assert Grouped(chain, spots) <==> HasGroupHooks(a.body) && inside != [] by {
      if inside != [] { assert IsInside(chain, spots[|before|]); }
    }
    hide GroupedOf, IsInside, Grouped, HasGroupHooks, HooksIn, Names, Ids;
  }

  lemma {:induction false} InsideIs(before: seq<Spot>, inside: seq<Spot>, around: seq<Around>, a: Around, id: nat,
      turn: nat, id': nat, turn': nat)
    requires Past(before, around, id, turn) && a.id == id && AllLater(inside, around + [a], id + 1, 0, id', turn')
    ensures var spots := before + inside;
            forall i :: 0 <= i < |spots| ==> (IsInside(around + [a], spots[i]) <==> |before| <= i)
  {
    var chain, spots := around + [a], before + inside;
    forall i | 0 <= i < |spots| ensures IsInside(chain, spots[i]) <==> |before| <= i {
      if i < |before| {
        assert Earlier(before[i], around, id, turn) && chain[|around|] == a;
        NotAround(before[i], chain, id);
      } else {
        assert Later(inside[i - |before|], chain, id + 1, 0, id', turn') && spots[i] == inside[i - |before|];
      }
    }
  }

  lemma {:induction false} NotAround(d: Spot, chain: seq<Around>, id: nat)
    requires chain != [] && chain[|chain| - 1].id == id && forall j :: 0 <= j < |d.around| ==> d.around[j].id < id
    ensures !IsInside(chain, d)
  {
    var n := |chain|;
    if n <= |d.around| { assert d.around[..n][n - 1].id < id; }
  }

  lemma {:induction false} GroupedLast(scopes: seq<seq<Around>>, chain: seq<Around>, spots: seq<Spot>)
    ensures GroupedOf(scopes + [chain], spots)
         == GroupedOf(scopes, spots) + if Grouped(chain, spots) then [chain] else []
  {
    assert (scopes + [chain])[..|scopes|] == scopes;
    hide Grouped;
  }

  /** Scopes complete when a callback has made its calls are past as well. */
  lemma {:induction false} ClosedPast(s: Script, around: seq<Around>, id: nat, base: nat)
    requires base == |around|
    ensures forall i :: 0 <= i < |Closed(s, around, id)| ==>
              var chain := Closed(s, around, id)[i];
              |chain| > base && around <= chain && id <= chain[|chain| - 1].id < id + Scopes(s)
    decreases s
  {
    match s {
      case Done =>
      case Then(Describe(name, Some(inner)), rest) =>
        var chain := around + [Around(name, id, inner)];
        ClosedPast(inner, chain, id + 1, base + 1);
        ClosedPast(rest, around, id + 1 + Scopes(inner), base);
        var a, b := Closed(inner, chain, id + 1), Closed(rest, around, id + 1 + Scopes(inner));
        assert Closed(s, around, id) == a + [chain] + b;
        forall i | 0 <= i < |a| ensures around <= a[i] {
          assert chain <= a[i] && around == chain[..|around|] == a[i][..|around|];
        }
      case Then(c, rest) => ClosedPast(rest, around, id, base);
    }
  }

  lemma {:induction false} PastMoreScopes(scopes: seq<seq<Around>>, s: Script, around: seq<Around>, id: nat)
    requires PastScopes(scopes, around, id)
    ensures PastScopes(scopes + Closed(s, around, id), around, id + Scopes(s))
  {
    ClosedPast(s, around, id, |around|);
    var added := Closed(s, around, id);
    var all := scopes + added;
    hide Closed;
    forall i | 0 <= i < |all| ensures PastScope(all[i], around, id + Scopes(s)) {
      if i < |scopes| {
        assert PastScope(scopes[i], around, id);
      } else {
        assert all[i] == added[i - |scopes|];
      }
    }
  }

  // ---- Whole callbacks ----

  ghost function NewSpots(s: Script, around: seq<Around>, id: nat, turn: nat, focus: bool): seq<Spot> {
    Where(Spots(s, around, id, turn), Runs(focus))
  }

  lemma {:induction false} NewLater(s: Script, around: seq<Around>, id: nat, turn: nat, focus: bool)
    ensures AllLater(NewSpots(s, around, id, turn, focus), around, id, turn, id + Scopes(s), turn + Turns(s))
  {
    SpotsLater(s, around, id, turn);
    SomeLater(Spots(s, around, id, turn), Runs(focus), around, id, turn, id + Scopes(s), turn + Turns(s));
    hide AllLater, Spots, Where;
  }

  lemma {:induction false} AllRight(s: Script, around: seq<Around>, id: nat, turn: nat, focus: bool, b: Build,
      spots: seq<Spot>, scopes: seq<seq<Around>>)
    requires Right(b, spots, scopes, around, id, turn, focus)
    ensures Right(Add(ForestOf(s), ContextFor(around), id, focus, b), spots + NewSpots(s, around, id, turn, focus),
                  scopes + Closed(s, around, id), around, id + Scopes(s), turn + Turns(s), focus)
    decreases s, 0
  {
    var c := ContextFor(around);
    AddCall(s, c, id, focus, b);
    hide Add, Right, ContextFor, ForestOf, AddLeaf, Described, Where;
    match s {
      case Done =>
        NothingNew(focus);
        assert spots + [] == spots && scopes + [] == scopes;
      case Then(It(kind, name, body), rest) =>
        if kind == Focus && body.None? {
          AllRight(rest, around, id, turn, focus, b, spots, scopes);
        } else {
          var d := Spot(kind, name, body, around, turn);
          var b' := AddLeaf(b, c, kind, name, body, focus);
          var added := Where([d], Runs(focus));
          LeafRight(b, spots, scopes, d, id, focus);
          AllRight(rest, around, id, turn + 1, focus, b', spots + added, scopes);
          WhereBoth([d], Spots(rest, around, id, turn + 1), Runs(focus));
          Sequences.Grouped(spots, added, NewSpots(rest, around, id, turn + 1, focus));
        }
      case Then(Describe(name, Some(inner)), rest) =>
        var chain := around + [Around(name, id, inner)];
        var id', b' := id + 1 + Scopes(inner), Described(name, inner, c, id, focus, b);
        var x, y := NewSpots(inner, chain, id + 1, 0, focus), NewSpots(rest, around, id', turn + 1, focus);
        var p, q := Closed(inner, chain, id + 1) + [chain], Closed(rest, around, id');
        DescribedRight(name, inner, around, id, turn, focus, b, spots, scopes);
        AllRight(rest, around, id', turn + 1, focus, b', spots + x, scopes + p);
        WhereBoth(Spots(inner, chain, id + 1, 0), Spots(rest, around, id', turn + 1), Runs(focus));
        Sequences.Grouped(spots, x, y);
        Sequences.Grouped(scopes, p, q);
      case Then(call, rest) => AllRight(rest, around, id, turn, focus, b, spots, scopes);
    }
  }

  lemma {:induction false} NothingNew(focus: bool)
    ensures Where([], Runs(focus)) == []
  {
  }

  lemma {:induction false} DescribedRight(name: string, inner: Script, around: seq<Around>, id: nat, turn: nat,
      focus: bool, b: Build, spots: seq<Spot>, scopes: seq<seq<Around>>)
    requires Right(b, spots, scopes, around, id, turn, focus)
    ensures var chain := around + [Around(name, id, inner)];
            Right(Described(name, inner, ContextFor(around), id, focus, b),
              spots + NewSpots(inner, chain, id + 1, 0, focus), scopes + (Closed(inner, chain, id + 1) + [chain]),
              around, id + 1 + Scopes(inner), turn + 1, focus)
    decreases inner, 1
  {
    hide *;
    var a := Around(name, id, inner);
    var chain := around + [a];
    var c' := ContextFor(chain);
    EnteredFor(around, name, id, inner);
    var b0 := CloseRun(b);
    var b1 := Add(ForestOf(inner), c', id + 1, focus, b0);
    DescribedIs(name, inner, ContextFor(around), id, focus, b);
    var x, closed := NewSpots(inner, chain, id + 1, 0, focus), scopes + Closed(inner, chain, id + 1);
    InnerRight(b, spots, scopes, around, id, turn, focus, a);
    AllRight(inner, chain, id + 1, 0, focus, b0, spots, scopes);
    NewLater(inner, chain, id + 1, 0, focus);
    Sequences.Grouped(scopes, Closed(inner, chain, id + 1), [chain]);
    ScopeRight(b, b1, spots, x, scopes, inner, around, a, id, turn, focus);
  }

  lemma {:induction false} DescribedIs(name: string, inner: Script, c: Context, id: nat, focus: bool, b: Build)
    ensures Described(name, inner, c, id, focus, b)
         == CloseScope(Add(ForestOf(inner), Enter(c, name, id, HooksOf(inner)), id + 1, focus, CloseRun(b)),
                       Enter(c, name, id, HooksOf(inner)), name, HooksOf(inner), |b.plan.specs|)
  {
  }

  /** Closing a scope ends its last run and adds its group. */
  lemma {:induction false} ScopeRight(b: Build, b1: Build, spots: seq<Spot>, x: seq<Spot>, scopes: seq<seq<Around>>,
      inner: Script, around: seq<Around>, a: Around, id: nat, turn: nat, focus: bool)
    requires Right(b, spots, scopes, around, id, turn, focus) && a.id == id && a.body == inner
    requires AllLater(x, around + [a], id + 1, 0, id + 1 + Scopes(inner), Turns(inner))
    requires Right(b1, spots + x, scopes + Closed(inner, around + [a], id + 1), around + [a], id + 1 + Scopes(inner),
                   Turns(inner), focus)
    ensures Right(CloseScope(b1, ContextFor(around + [a]), a.name, HooksOf(inner), |b.plan.specs|), spots + x,
                  scopes + Closed(inner, around + [a], id + 1) + [around + [a]], around, id + 1 + Scopes(inner),
                    turn + 1, focus)
  {
    hide *;
    var chain, closed, id' := around + [a], scopes + Closed(inner, around + [a], id + 1), id + 1 + Scopes(inner);
    var b2 := CloseScope(b1, ContextFor(chain), a.name, HooksOf(inner), |b.plan.specs|);
    assert chain[|chain| - 1] == a;
    SpecsCounted(b, spots, scopes, around, id, turn, focus);
    SpecsCounted(b1, spots + x, closed, chain, id', Turns(inner), focus);
    RunsClosed(b1, spots + x, chain, Turns(inner));
    ClosedScope(b1, chain, inner, |spots|);
    ScopeCloses(b1.plan.groups, closed, spots, x, around, a, id, turn, id', Turns(inner));
    OuterPast(spots, x, around, a, id, turn, id', Turns(inner));
    OuterScopes(scopes, inner, around, a, id);
    assert x != [] <==> |spots| < |spots + x|;
    RightIs(b2, spots + x, closed + [chain], around, id', turn + 1, focus);
  }

  /** Between scopes no run is open. */
  lemma {:induction false} RightIs(b: Build, spots: seq<Spot>, scopes: seq<seq<Around>>, around: seq<Around>, id: nat,
      turn: nat, focus: bool)
    requires b.open == None && |b.plan.specs| == |spots| && ClosedRuns(b.plan.parallel, spots, |spots|)
    requires Past(spots, around, id, turn) && PastScopes(scopes, around, id) && GroupsAre(b.plan.groups, scopes, spots)
    requires spots != [] ==> !JustBefore(spots[|spots| - 1], around, turn)
    ensures Right(b, spots, scopes, around, id, turn, focus)
  {
    hide ClosedRuns, Past, PastScopes, GroupsAre;
  }

  lemma {:induction false} SpecsCounted(b: Build, spots: seq<Spot>, scopes: seq<seq<Around>>, around: seq<Around>,
      id: nat, turn: nat, focus: bool)
    requires Right(b, spots, scopes, around, id, turn, focus)
    ensures |b.plan.specs| == |spots| && Past(spots, around, id, turn) && PastScopes(scopes, around, id)
    ensures GroupsAre(b.plan.groups, scopes, spots) && RunsRight(b, spots, around, turn)
  {
    hide Past, PastScopes, GroupsAre, ClosedRuns, IsRun;
  }

  lemma {:induction false} ClosedScope(b1: Build, chain: seq<Around>, inner: Script, start: nat)
    requires chain != []
    ensures var b2 := CloseScope(b1, ContextFor(chain), chain[|chain| - 1].name, HooksOf(inner), start);
            && b2.open == None && b2.plan.specs == b1.plan.specs && b2.plan.parallel == CloseRun(b1).plan.parallel
            && b2.plan.groups == b1.plan.groups + if HasGroupHooks(inner) && start < |b1.plan.specs| then
                 [Group(Names(chain), Ids(chain), chain[|chain| - 1].name, HooksIn(inner, AllBefore),
                    HooksIn(inner, AllAfter), start, |b1.plan.specs| - 1)] else []
  {
    HooksAre(inner);
    IdsFor(chain);
    assert b1.plan.groups + [] == b1.plan.groups;
    hide HooksOf, HooksIn, ContextFor, Names, Ids;
  }

  lemma {:induction false} OuterPast(spots: seq<Spot>, x: seq<Spot>, around: seq<Around>, a: Around, id: nat, turn: nat,
      id': nat, turn': nat)
    requires Past(spots, around, id, turn) && a.id == id < id'
    requires AllLater(x, around + [a], id + 1, 0, id', turn')
    ensures Past(spots + x, around, id', turn + 1)
    ensures spots + x != [] ==> !JustBefore((spots + x)[|spots + x| - 1], around, turn + 1)
  {
    forall k | 0 <= k < |x| ensures Later(x[k], around, id, turn, id', turn + 1) && x[k].around != around {
      assert Later(x[k], around + [a], id + 1, 0, id', turn');
      InnerLater(x[k], around, a, id', turn');
      assert |x[k].around| > |around|;
    }
    PastMore(spots, x, around, id, turn, id', turn + 1);
    var all := spots + x;
    if x != [] {
      assert all[|all| - 1] == x[|x| - 1];
    } else if spots != [] {
      assert Earlier(spots[|spots| - 1], around, id, turn);
    }
    hide Past, Later;
  }

  lemma {:induction false} OuterScopes(scopes: seq<seq<Around>>, inner: Script, around: seq<Around>, a: Around, id: nat)
    requires PastScopes(scopes, around, id) && a.id == id
    ensures PastScopes(scopes + Closed(inner, around + [a], id + 1) + [around + [a]], around, id + 1 + Scopes(inner))
  {
    var chain := around + [a];
    ClosedPast(inner, chain, id + 1, |chain|);
    var added := Closed(inner, chain, id + 1);
    var all := scopes + added + [chain];
    hide Closed;
    forall i | 0 <= i < |all| ensures PastScope(all[i], around, id + 1 + Scopes(inner)) {
      if i < |scopes| {
        assert PastScope(scopes[i], around, id) && all[i] == scopes[i];
      } else if i < |scopes| + |added| {
        assert all[i] == added[i - |scopes|];
      } else {
        assert all[i] == chain && chain[|around|] == a;
      }
    }
  }

  // ---- Whole suites ----

  /** The plan of a tree has exactly the specs, groups, runs and marks that the
      calls of the suite declare. */
  lemma {:induction false} PlanIsDeclared(name: string, s: Script, focus: bool)
    ensures PlanDeclares(PlanOf(name, HooksOf(s), ForestOf(s), focus), AllSpots(name, s), AllScopes(name, s), focus)
  {
    hide *;
    var whole, b := Whole(name, s), Build(NOTHING, None);
    SpotsAdded(whole, [], 0, 0, focus, b);
    NothingYet(focus);
    AllRight(whole, [], 0, 0, focus, b, [], []);
    WholeRight(name, s, focus, Add(ForestOf(whole), ContextFor([]), 0, focus, b));
  }

  lemma {:induction false} WholePlan(name: string, s: Script, focus: bool)
    ensures var b := Add(ForestOf(Whole(name, s)), ContextFor([]), 0, focus, Build(NOTHING, None));
            b.plan == PlanOf(name, HooksOf(s), ForestOf(s), focus) && b.open == None
  {
  }

  lemma {:induction false} NothingYet(focus: bool)
    ensures Right(Build(NOTHING, None), [], [], [], 0, 0, focus)
  {
  }

  lemma {:induction false} WholeRight(name: string, s: Script, focus: bool, b: Build)
    requires b == Add(ForestOf(Whole(name, s)), ContextFor([]), 0, focus, Build(NOTHING, None))
    requires Right(b, [] + NewSpots(Whole(name, s), [], 0, 0, focus), [] + Closed(Whole(name, s), [], 0), [],
                   0 + Scopes(Whole(name, s)), 0 + Turns(Whole(name, s)), focus)
    requires Grows(NOTHING, b.plan, Spots(Whole(name, s), [], 0, 0), focus)
    ensures PlanDeclares(PlanOf(name, HooksOf(s), ForestOf(s), focus), AllSpots(name, s), AllScopes(name, s), focus)
  {
    hide *;
    var whole, spots, running := Whole(name, s), AllSpots(name, s), Where(AllSpots(name, s), Runs(focus));
    WholePlan(name, s, focus);
    WholeIs(name, s, focus);
    Sequences.NothingAdded(running);
    Sequences.NothingAdded(AllScopes(name, s));
    SpecsCounted(b, running, AllScopes(name, s), [], 0 + Scopes(whole), 0 + Turns(whole), focus);
    RunsAtEnd(b, running, 0 + Turns(whole));
    GrowsFromNothing(b.plan, spots, focus);
    forall i | 0 <= i < |running| ensures SpecIs(SpecsFor(running)[i], running[i]) {
      SpecShows(running[i]);
      SpecsForAt(running, i);
    }
    PlanDeclaresParts(b.plan, spots, AllScopes(name, s), focus);
  }

  lemma {:induction false} SpecsForAt(spots: seq<Spot>, i: nat)
    requires i < |spots|
    ensures |SpecsFor(spots)| == |spots| && SpecsFor(spots)[i] == SpecFor(spots[i])
  {
  }

  lemma {:induction false} PlanDeclaresParts(p: Plan, spots: seq<Spot>, scopes: seq<seq<Around>>, focus: bool)
    requires var running := Where(spots, Runs(focus));
      && p.specs == SpecsFor(running) && (forall i :: 0 <= i < |running| ==> SpecIs(SpecsFor(running)[i], running[i]))
      && RunsAreNeighbours(p.parallel, running) && GroupsAre(p.groups, scopes, running)
    requires p.skipped == MarksFor(Where(spots, IsKind(Skip, focus)))
    requires p.pending == MarksFor(Where(spots, IsKind(Pending, focus)))
    requires p.excluded == MarksFor(Where(spots, LosesFocus(focus)))
    ensures PlanDeclares(p, spots, scopes, focus)
  {
    hide Where, SpecIs, RunsAreNeighbours, GroupsAre, MarksFor, SpecFor;
  }

  lemma {:induction false} WholeIs(name: string, s: Script, focus: bool)
    ensures AllSpots(name, s) == Spots(Whole(name, s), [], 0, 0) && AllScopes(name, s) == Closed(Whole(name, s), [], 0)
    ensures NewSpots(Whole(name, s), [], 0, 0, focus) == Where(AllSpots(name, s), Runs(focus))
  {
    hide Spots, Closed, Whole, Where;
  }

  lemma {:induction false} RunsAtEnd(b: Build, spots: seq<Spot>, turn: nat)
    requires RunsRight(b, spots, [], turn) && b.open == None
    ensures RunsAreNeighbours(b.plan.parallel, spots)
  {
    RunsFinal(b.plan.parallel, spots);
    hide ClosedRuns, RunsAreNeighbours;
  }

  lemma {:induction false} GrowsFromNothing(p: Plan, spots: seq<Spot>, focus: bool)
    requires Grows(NOTHING, p, spots, focus)
    ensures p.specs == SpecsFor(Where(spots, Runs(focus)))
    ensures p.skipped == MarksFor(Where(spots, IsKind(Skip, focus)))
    ensures p.pending == MarksFor(Where(spots, IsKind(Pending, focus)))
    ensures p.excluded == MarksFor(Where(spots, LosesFocus(focus)))
  {
    hide Where, SpecsFor, MarksFor;
  }

  lemma {:induction false} RunsFinal(runs: seq<Range>, spots: seq<Spot>)
    requires ClosedRuns(runs, spots, |spots|)
    ensures RunsAreNeighbours(runs, spots)
  {
    hide IsRun, InRun;
    assert forall r :: 0 <= r < |runs| ==> Ends(spots, runs[r].last);
  }
}
