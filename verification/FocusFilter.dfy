/** Dropping the unfocused specs of a flat plan after it was emitted. */
module FocusFilters {
  import opened Options
  import opened Declarations
  import opened Plans
  import opened BytecodeCompilers

  /** keep are the places of the focused specs. */
  ghost predicate FocusPlaces(s: seq<Spec>, keep: seq<nat>) {
    Ascending(keep, |s|) && forall i :: 0 <= i < |s| ==> (s[i].focused <==> i in keep)
  }

  lemma {:induction false} RankOfPrefix(s: seq<Spec>, n: nat, i: nat)
    requires i <= n <= |s|
    ensures Rank(s[..n], i) == Rank(s, i) && Rank(s, n) == |Kept(s[..n])|
  {
    assert s[..n][..i] == s[..i];
  }

  lemma {:induction false} KeptLast(s: seq<Spec>)
    requires s != []
    ensures Kept(s) == Kept(s[..|s| - 1]) + if s[|s| - 1].focused then [s[|s| - 1]] else []
  {
  }

  lemma {:induction false} KeptCount(s: seq<Spec>, keep: seq<nat>)
    requires FocusPlaces(s, keep)
    ensures |Kept(s)| == |keep|
  {
    assert keep != [] ==> keep[0] < |s|;
    if s == [] { return; }
    KeptLast(s);
    if s[|s| - 1].focused {
      LastPlace(s, keep);
      KeptCount(s[..|s| - 1], keep[..|keep| - 1]);
    } else {
      EarlierPlaces(s, keep);
      KeptCount(s[..|s| - 1], keep);
    }
  }

  lemma {:induction false} EarlierPlaces(s: seq<Spec>, keep: seq<nat>)
    requires FocusPlaces(s, keep) && s != [] && !s[|s| - 1].focused
    ensures FocusPlaces(s[..|s| - 1], keep)
  {
    assert |s| - 1 !in keep;
  }

  lemma {:induction false} KeptAt(s: seq<Spec>, keep: seq<nat>, j: nat)
    requires FocusPlaces(s, keep) && j < |keep|
    ensures |Kept(s)| == |keep| && Kept(s)[j] == s[keep[j]] && Rank(s, keep[j]) == j
  {
    var n := |s| - 1;
    KeptCount(s, keep);
    KeptLast(s);
    RankOfPrefix(s, n, if keep[j] < n then keep[j] else n);
    if s[n].focused {
      LastPlace(s, keep);
      KeptCount(s[..n], keep[..|keep| - 1]);
      if j < |keep| - 1 { KeptAt(s[..n], keep[..|keep| - 1], j); }
    } else {
      EarlierPlaces(s, keep);
      KeptAt(s[..n], keep, j);
    }
  }

  lemma {:induction false} KeptArePlaces(s: seq<Spec>, keep: seq<nat>)
    requires FocusPlaces(s, keep)
    ensures |Kept(s)| == |keep|
    ensures forall j :: 0 <= j < |keep| ==> Kept(s)[j] == s[keep[j]] && Rank(s, keep[j]) == j
  {
    KeptCount(s, keep);
    forall j | 0 <= j < |keep| ensures Kept(s)[j] == s[keep[j]] && Rank(s, keep[j]) == j {
      KeptAt(s, keep, j);
    }
  }

  lemma {:induction false} LastPlace(s: seq<Spec>, keep: seq<nat>)
    requires FocusPlaces(s, keep) && s != [] && s[|s| - 1].focused
    ensures keep != [] && keep[|keep| - 1] == |s| - 1
    ensures FocusPlaces(s[..|s| - 1], keep[..|keep| - 1])
  {
    var n := |s| - 1;
    var j :| 0 <= j < |keep| && keep[j] == n;
    assert j == |keep| - 1;
    forall i | 0 <= i < n ensures s[i].focused <==> i in keep[..j] {
      if s[i].focused {
        var k :| 0 <= k < |keep| && keep[k] == i;
        assert keep[..j][k] == i;
      }
    }
  }

  /** Where each spec moves to, or -1. */
  ghost predicate Moves(s: seq<Spec>, to: seq<int>) {
    && |to| == |s|
    && forall i :: 0 <= i < |s| ==> to[i] == if s[i].focused then Rank(s, i) else -1
  }

  method OldToNew(ghost s: seq<Spec>, n: nat, keep: seq<nat>) returns (to: array<int>)
    requires n == |s| && FocusPlaces(s, keep)
    ensures Moves(s, to[..])
  {
    to := new int[n](_ => -1);
    var newIdx := 0;
    while newIdx < |keep|
      invariant 0 <= newIdx <= |keep|
      invariant forall i :: 0 <= i < n && i !in keep[..newIdx] ==> to[i] == -1
      invariant forall j :: 0 <= j < newIdx ==> to[keep[j]] == j
    {
      to[keep[newIdx]] := newIdx;
      newIdx := newIdx + 1;
    }
    KeptArePlaces(s, keep);
    assert keep[..|keep|] == keep;
    forall i | 0 <= i < n ensures to[i] == if s[i].focused then Rank(s, i) else -1 {
      if s[i].focused {
        var j :| 0 <= j < |keep| && keep[j] == i;
      }
    }
  }

  lemma {:induction false} RankStep(s: seq<Spec>, i: nat)
    requires i < |s|
    ensures Rank(s, i + 1) == Rank(s, i) + if s[i].focused then 1 else 0
  {
    assert s[..i + 1] == s[..i] + [s[i]];
    KeptAppend(s[..i], s[i]);
  }

  /** The new places of what is kept of first..last. */
  method RemapRange(ghost s: seq<Spec>, to: array<int>, first: nat, last: nat) returns (r: Option<Range>)
    requires Moves(s, to[..]) && first <= last < |s|
    ensures r == Remap(s, first, last)
  {
    var newFirst, newLast, old_ := -1, -1, first;
    while old_ <= last
      invariant first <= old_ <= last + 1
      invariant Rank(s, first) <= Rank(s, old_)
      invariant if Rank(s, first) == Rank(s, old_) then newFirst == newLast == -1
                else newFirst == Rank(s, first) && newLast == Rank(s, old_) - 1
    {
      RankStep(s, old_);
      assert to[old_] == to[..][old_];
      var nu := to[old_];
      if nu >= 0 {
        if newFirst == -1 { newFirst := nu; }
        newLast := nu;
      }
      old_ := old_ + 1;
    }
    r := if newFirst != -1 then Some(Range(newFirst, newLast)) else None;
  }

  method RemapHookGroups(ghost s: seq<Spec>, to: array<int>, groups: seq<Group>) returns (kept: seq<Group>)
    requires Moves(s, to[..]) && GroupsWithin(groups, |s|)
    ensures kept == RemapGroups(s, groups)
  {
    kept := [];
    for i := 0 to |groups|
      invariant kept == RemapGroups(s, groups[..i])
    {
      var g := groups[i];
      assert groups[..i + 1] == groups[..i] + [g];
      GroupRemapped(s, groups[..i], g);
      var r := RemapRange(s, to, g.first, g.last);
      if r.Some? { kept := kept + [g.(first := r.value.first, last := r.value.last)]; }
    }
    assert groups[..|groups|] == groups;
  }

  ghost predicate RangesWithin(rs: seq<Range>, n: nat) {
    forall i :: 0 <= i < |rs| ==> rs[i].first <= rs[i].last < n
  }

  method RemapParallel(ghost s: seq<Spec>, to: array<int>, ranges: seq<Range>) returns (kept: seq<Range>)
    requires Moves(s, to[..]) && RangesWithin(ranges, |s|)
    ensures kept == RemapRanges(s, ranges)
  {
    kept := [];
    for i := 0 to |ranges|
      invariant kept == RemapRanges(s, ranges[..i])
    {
      assert ranges[..i + 1][..i] == ranges[..i];
      var r := RemapRange(s, to, ranges[i].first, ranges[i].last);
      if r.Some? { kept := kept + [r.value]; }
    }
    assert ranges[..|ranges|] == ranges;
  }

  ghost function Places(n: nat): (p: seq<nat>)
    ensures |p| == n && forall i :: 0 <= i < n ==> p[i] == i
  {
    seq(n, i => i)
  }

  /** The flat plan with the windows of the kept specs only. */
  method KeepSpecs(c: Code, keep: seq<nat>) returns (d: Code)
    requires WindowsFit(c) && Ascending(keep, |c.names|)
    ensures WindowsFit(d) && SpecsOf(d, Places(|keep|)) == Kept(SpecsOf(c, keep))
  {
    d := c.(names := [], fullNames := [], programStart := [], programLen := [], idStart := [], idLen := []);
    for i := 0 to |keep|
      invariant d.instructions == c.instructions && d.scopeIDs == c.scopeIDs && |d.names| == i && WindowsFit(d)
      invariant forall j :: 0 <= j < i ==>
        && d.names[j] == c.names[keep[j]] && d.fullNames[j] == c.fullNames[keep[j]]
        && d.programStart[j] == c.programStart[keep[j]] && d.programLen[j] == c.programLen[keep[j]]
        && d.idStart[j] == c.idStart[keep[j]] && d.idLen[j] == c.idLen[keep[j]]
    {
      var old_ := keep[i];
      d := d.(names := d.names + [c.names[old_]], fullNames := d.fullNames + [c.fullNames[old_]],
        programStart := d.programStart + [c.programStart[old_]], programLen := d.programLen + [c.programLen[old_]],
        idStart := d.idStart + [c.idStart[old_]], idLen := d.idLen + [c.idLen[old_]]);
    }
    ghost var s := SpecsOf(c, keep);
    KeptArePlaces(s, keep);
    hide Kept, WindowsFit, Ascending;
    forall j | 0 <= j < |keep| ensures SpecsOf(d, Places(|keep|))[j] == Kept(s)[j] {
      assert Places(|keep|)[j] == j;
    }
  }

  /** The marks of the specs that are dropped. */
  method MarkDropped(c: Code, ghost focus: seq<nat>, to: array<int>) returns (marks: seq<Mark>)
    requires WindowsFit(c) && Moves(SpecsOf(c, focus), to[..])
    ensures marks == Unfocused(SpecsOf(c, focus))
  {
    ghost var s := SpecsOf(c, focus);
    marks := [];
    for i := 0 to |c.names|
      invariant marks == Unfocused(s[..i])
    {
      assert s[..i + 1] == s[..i] + [s[i]];
      KeptAppend(s[..i], s[i]);
      assert to[i] == to[..][i];
      if to[i] == -1 {
        marks := marks + [Mark(c.names[i], c.scopeIDs[c.idStart[i]..c.idStart[i] + c.idLen[i]])];
      }
    }
    assert s[..|s|] == s;
  }

  /** Keeps only the focused specs, when there are any. The marks of skipped and
      pending specs become marks of excluded ones. */
  method ApplyFocusFilter(c: Code, focusIndices: seq<nat>, groups: Plan)
    returns (d: Code, rest: Plan, ghost focus: seq<nat>)
    requires WindowsFit(c) && Ascending(focusIndices, |c.names|)
    requires GroupsWithin(groups.groups, |c.names|) && RangesWithin(groups.parallel, |c.names|)
    requires groups.excluded == []
    ensures WindowsFit(d) && |focus| <= |d.names|
    ensures rest.(specs := SpecsOf(d, focus)) == Focused(groups.(specs := SpecsOf(c, focusIndices)))
  {
    hide *;
    ghost var s := SpecsOf(c, focusIndices);
    FocusIndicesArePlaces(c, focusIndices);
    KeptArePlaces(s, focusIndices);
    FocusedIs(groups.(specs := s));
    if |focusIndices| == 0 {
      return c, groups, focusIndices;
    }
    var to := OldToNew(s, |c.names|, focusIndices);
    d := KeepSpecs(c, focusIndices);
    var dropped := MarkDropped(c, focusIndices, to);
    var gs := RemapHookGroups(s, to, groups.groups);
    var rs := RemapParallel(s, to, groups.parallel);
    focus := Places(|focusIndices|);
    rest := Plan(groups.specs, gs, rs, [], [], dropped + groups.skipped + groups.pending);
    assert [] + dropped == dropped;
  }

  lemma {:induction false} FocusIndicesArePlaces(c: Code, focus: seq<nat>)
    requires WindowsFit(c) && Ascending(focus, |c.names|)
    ensures FocusPlaces(SpecsOf(c, focus), focus)
  {
  }

  lemma {:induction false} FocusedIs(p: Plan)
    ensures |Kept(p.specs)| == 0 ==> Focused(p) == p
    ensures |Kept(p.specs)| > 0 ==>
              Focused(p)
                  == Plan(Kept(p.specs), RemapGroups(p.specs, p.groups), RemapRanges(p.specs, p.parallel), [], [],
                                 p.excluded + Unfocused(p.specs) + p.skipped + p.pending)
  {
  }
}
