/** The path of report labels that names a scope: no two scopes of a suite share
    one, unless unnamed scopes between them let them. */
module ReportPaths {
  import opened Options
  import opened Declarations
  import opened ReportLabels
  import opened ScopeTables
  import opened Plans
  import opened Suites
  import Sequences

  /** A table of scopes, each declared after the one around it. */
  ghost predicate Scopes(t: seq<Row>) {
    forall i :: 0 <= i < |t| ==> t[i].group && -1 <= t[i].parent < i
  }

  /** A scope and those around it, outermost first. */
  ghost function Chain(t: seq<Row>, id: nat): (ids: seq<nat>)
    requires Scopes(t) && id < |t|
    ensures ids != [] && ids[|ids| - 1] == id
    decreases id
  {
    if t[id].parent < 0 then [id] else Chain(t, t[id].parent) + [id]
  }

  ghost predicate Labelled(t: seq<Row>, labels: seq<string>) {
    Scopes(t) && |labels| == |t| && forall id :: 0 <= id < |t| ==> labels[id] == LabelAt(t, id)
  }

  /** The path a report shows for a scope. */
  ghost function ReportPath(t: seq<Row>, labels: seq<string>, id: nat): seq<string>
    requires Labelled(t, labels) && id < |t|
  {
    PathOf(Chain(t, id), labels)
  }

  ghost predicate IsNamed(t: seq<Row>, id: nat) {
    id < |t| && t[id].name != ""
  }

  /** The innermost named scope around a scope, or -1. */
  ghost function NamedParent(t: seq<Row>, id: nat): (p: int)
    requires Scopes(t) && id < |t|
    ensures -1 <= p < id && (p >= 0 ==> IsNamed(t, p))
    decreases id
  {
    var p := t[id].parent;
    if p < 0 then -1 else if t[p].name != "" then p else NamedParent(t, p)
  }

  // ---- Siblings have different labels ----

  /** Where a scope's name is among those of its parent's scopes. */
  lemma {:induction false} SiblingAt(t: seq<Row>, id: nat)
    requires id < |t| && t[id].group
    ensures var elders, all := Siblings(t[..id], t[id].parent), Siblings(t, t[id].parent);
            |elders| < |all| && all[|elders|] == t[id].name
  {
    var p := t[id].parent;
    var elders, rest := Siblings(t[..id], p), Siblings(t[id + 1..], p);
    assert t == t[..id] + t[id..] && t[id..][0] == t[id] && t[id..][1..] == t[id + 1..];
    SiblingsAppend(t[..id], t[id..], p);
    assert Siblings(t[id..], p) == [t[id].name] + rest;
    assert (elders + ([t[id].name] + rest))[|elders|] == t[id].name;
  }

  /** An elder scope has fewer elders. */
  lemma {:induction false} EldersGrow(t: seq<Row>, a: nat, b: nat)
    requires a < b < |t| && t[a].group && t[a].parent == t[b].parent
    ensures |Siblings(t[..a], t[a].parent)| < |Siblings(t[..b], t[b].parent)|
  {
    var p := t[a].parent;
    assert t[..b][..a] == t[..a];
    SiblingAt(t[..b], a);
  }

  lemma {:induction false} LabelIsNamed(t: seq<Row>, id: nat)
    requires id < |t| && t[id].group
    ensures LabelAt(t, id) == "" <==> t[id].name == ""
  {
    SiblingAt(t, id);
    var elders, all := Siblings(t[..id], t[id].parent), Siblings(t, t[id].parent);
    LabelAvoidsNames(all, |elders|);
    hide Labels, Siblings;
  }

  lemma {:induction false} SiblingLabelsDiffer(t: seq<Row>, a: nat, b: nat)
    requires a < b < |t| && t[a].group && t[b].group && t[a].parent == t[b].parent && IsNamed(t, a) && IsNamed(t, b)
    ensures LabelAt(t, a) != LabelAt(t, b)
  {
    SiblingAt(t, a);
    SiblingAt(t, b);
    EldersGrow(t, a, b);
    var p := t[a].parent;
    LabelsDiffer(Siblings(t, p), |Siblings(t[..a], p)|, |Siblings(t[..b], p)|);
    hide Labels, Siblings;
  }

  // ---- A path is that of the named scope around, and a label ----

  ghost function PathAround(t: seq<Row>, labels: seq<string>, id: nat): seq<string>
    requires Labelled(t, labels) && id < |t|
  {
    if NamedParent(t, id) < 0 then [] else ReportPath(t, labels, NamedParent(t, id))
  }

  lemma {:induction false} PathSnoc(ids: seq<nat>, id: nat, labels: seq<string>)
    requires id < |labels|
    ensures PathOf(ids + [id], labels) == PathOf(ids, labels) + if labels[id] == "" then [] else [labels[id]]
  {
    assert (ids + [id])[..|ids|] == ids && (ids + [id])[|ids|] == id;
  }

  lemma {:induction false} LastOfPath(t: seq<Row>, labels: seq<string>, id: nat)
    requires Labelled(t, labels) && id < |t|
    ensures ReportPath(t, labels, id) == PathAround(t, labels, id) + if labels[id] == "" then [] else [labels[id]]
    decreases id
  {
    var p := t[id].parent;
    if p < 0 {
      PathSnoc([], id, labels);
      assert [] + [id] == [id];
    } else {
      LabelIsNamed(t, p);
      LastOfPath(t, labels, p);
      PathSnoc(Chain(t, p), id, labels);
      Sequences.NothingAdded(PathAround(t, labels, p));
    }
  }

  // ---- When paths tell scopes apart ----

  /** Two named scopes with one named scope around them, or none, whose names come
      to one label among their siblings. Only names and parents decide this. */
  ghost predicate Alias(t: seq<Row>, a: nat, b: nat)
    requires Scopes(t)
  {
    a < b && IsNamed(t, a) && IsNamed(t, b) && NamedParent(t, a) == NamedParent(t, b) && LabelAt(t, a) == LabelAt(t, b)
  }

  lemma {:induction false} AliasShares(t: seq<Row>, labels: seq<string>, a: nat, b: nat)
    requires Labelled(t, labels) && Alias(t, a, b)
    ensures ReportPath(t, labels, a) == ReportPath(t, labels, b)
  {
    LastOfPath(t, labels, a);
    LastOfPath(t, labels, b);
  }

  lemma {:induction false} SamePath(t: seq<Row>, labels: seq<string>, a: nat, b: nat) returns (x: nat, y: nat)
    requires Labelled(t, labels) && a < b && IsNamed(t, a) && IsNamed(t, b)
    requires ReportPath(t, labels, a) == ReportPath(t, labels, b)
    ensures Alias(t, x, y)
    decreases b
  {
    LabelIsNamed(t, a);
    LabelIsNamed(t, b);
    LastOfPath(t, labels, a);
    LastOfPath(t, labels, b);
    var p, q := NamedParent(t, a), NamedParent(t, b);
    hide Chain, PathOf, NamedParent, LabelAt, Labels;
    SameSnoc(PathAround(t, labels, a), labels[a], PathAround(t, labels, b), labels[b]);
    if p == q {
      x, y := a, b;
    } else if p < 0 {
      NotEmptyPath(t, labels, q);
    } else if q < 0 {
      NotEmptyPath(t, labels, p);
    } else if p < q {
      x, y := SamePath(t, labels, p, q);
    } else {
      x, y := SamePath(t, labels, q, p);
    }
  }

  lemma {:induction false} SameSnoc<T>(s: seq<T>, x: T, r: seq<T>, y: T)
    requires s + [x] == r + [y]
    ensures s == r && x == y
  {
    assert |s| == |r| && s == (s + [x])[..|s|] && r == (r + [y])[..|r|];
    assert (s + [x])[|s|] == x && (r + [y])[|r|] == y;
  }

  lemma {:induction false} NotEmptyPath(t: seq<Row>, labels: seq<string>, id: nat)
    requires Labelled(t, labels) && IsNamed(t, id)
    ensures ReportPath(t, labels, id) != []
  {
    LabelIsNamed(t, id);
    LastOfPath(t, labels, id);
  }

  ghost predicate TellApart(t: seq<Row>, labels: seq<string>)
    requires Labelled(t, labels)
  {
    forall a: nat, b: nat :: a < b && IsNamed(t, a) && IsNamed(t, b) ==>
      ReportPath(t, labels, a) != ReportPath(t, labels, b)
  }

  /** Different named scopes have different paths exactly when no two of them
      with the same named scope around them have the same label. */
  lemma {:induction false} PathsTellScopesApart(t: seq<Row>, labels: seq<string>)
    requires Labelled(t, labels)
    ensures TellApart(t, labels) <==> !exists a: nat, b: nat :: Alias(t, a, b)
  {
    if a: nat, b: nat :| Alias(t, a, b) {
      AliasShares(t, labels, a, b);
    }
    hide Labelled, ReportPath, Alias;
    forall a: nat, b: nat | a < b && IsNamed(t, a) && IsNamed(t, b)
      ensures ReportPath(t, labels, a) == ReportPath(t, labels, b) ==> exists x: nat, y: nat :: Alias(t, x, y)
    {
      if ReportPath(t, labels, a) == ReportPath(t, labels, b) {
        var x, y := SamePath(t, labels, a, b);
      }
    }
  }

  /** Where every scope is named, paths tell all scopes apart. */
  lemma {:induction false} NamedScopesDiffer(t: seq<Row>, labels: seq<string>)
    requires Labelled(t, labels) && forall id :: 0 <= id < |t| ==> IsNamed(t, id)
    ensures TellApart(t, labels)
  {
    forall a: nat, b: nat ensures !Alias(t, a, b) {
      NoAlias(t, labels, a, b);
    }
    hide Labelled, Alias, TellApart;
    PathsTellScopesApart(t, labels);
  }

  lemma {:induction false} NoAlias(t: seq<Row>, labels: seq<string>, a: nat, b: nat)
    requires Labelled(t, labels) && forall id :: 0 <= id < |t| ==> IsNamed(t, id)
    ensures !Alias(t, a, b)
  {
    hide LabelAt;
    if a < b < |t| {
      assert IsNamed(t, a) && IsNamed(t, b);
      ParentIsNamed(t, a);
      ParentIsNamed(t, b);
      if t[a].parent == t[b].parent { SiblingLabelsDiffer(t, a, b); }
    }
  }

  lemma {:induction false} ParentIsNamed(t: seq<Row>, id: nat)
    requires Scopes(t) && id < |t| && forall i :: 0 <= i < |t| ==> IsNamed(t, i)
    ensures NamedParent(t, id) == t[id].parent
  {
    if t[id].parent >= 0 { assert IsNamed(t, t[id].parent); }
  }

  /** An unnamed scope lets two others share a path: of R's scopes, one is unnamed
      and holds an X, and another is X. */
  lemma {:induction false} UnnamedHides(labels: seq<string>)
    requires Labelled([Row(-1, "R", true), Row(0, "", true), Row(1, "X", true), Row(0, "X", true)], labels)
    ensures var t := [Row(-1, "R", true), Row(0, "", true), Row(1, "X", true), Row(0, "X", true)];
            IsNamed(t, 2) && IsNamed(t, 3) && ReportPath(t, labels, 2) == ReportPath(t, labels, 3)
  {
    var t := [Row(-1, "R", true), Row(0, "", true), Row(1, "X", true), Row(0, "X", true)];
    NoKids(t[..2], 1, 0);
    OwnLabel(t, labels, 2);
    SiblingsAppend(t[..1], t[1..3], 0);
    assert t[..3] == t[..1] + t[1..3] && t[1..3][1..][1..] == [];
    assert Siblings(t[..3], 0) == [""];
    OwnLabel(t, labels, 3);
    assert NamedParent(t, 2) == NamedParent(t, 3) == 0;
    AliasShares(t, labels, 2, 3);
  }

  /** A scope whose name no elder sibling has is labelled by its name. */
  lemma {:induction false} OwnLabel(t: seq<Row>, labels: seq<string>, id: nat)
    requires Labelled(t, labels) && id < |t|
    requires t[id].name !in Siblings(t[..id], t[id].parent)
    ensures labels[id] == t[id].name
  {
    SiblingAt(t, id);
    var p := t[id].parent;
    var elders, all := Siblings(t[..id], p), Siblings(t, p);
    assert t == t[..id] + t[id..];
    SiblingsAppend(t[..id], t[id..], p);
    assert all[..|elders|] == elders;
    LabelAvoidsNames(all, |elders|);
    hide Labels, Siblings;
  }

  // ---- The scopes of a compiled suite ----

  /** ids are a scope and those around it. */
  ghost predicate IsChain(t: seq<Row>, ids: seq<nat>) {
    Scopes(t) && ids != [] && ids[|ids| - 1] < |t| && ids == Chain(t, ids[|ids| - 1])
  }

  ghost predicate PlanChained(t: seq<Row>, p: Plan) {
    && (forall i :: 0 <= i < |p.specs| ==> IsChain(t, p.specs[i].ids))
    && (forall i :: 0 <= i < |p.groups| ==> IsChain(t, p.groups[i].ids))
    && MarksChained(t, p.skipped) && MarksChained(t, p.pending) && MarksChained(t, p.excluded)
  }

  ghost predicate MarksChained(t: seq<Row>, marks: seq<Mark>) {
    forall i :: 0 <= i < |marks| ==> IsChain(t, marks[i].ids)
  }

  lemma {:induction false} LeafChained(t: seq<Row>, b: Build, c: Context, kind: Kind, name: string, body: Option<Fn>,
      focus: bool)
    requires PlanChained(t, b.plan) && IsChain(t, c.ids)
    ensures PlanChained(t, AddLeaf(b, c, kind, name, body, focus).plan)
  {
    hide IsChain, Program, Joined;
  }

  lemma {:induction false} ClosedChained(t: seq<Row>, b: Build, c: Context, name: string, h: Hooks, start: nat)
    requires PlanChained(t, b.plan) && IsChain(t, c.ids)
    ensures PlanChained(t, CloseScope(b, c, name, h, start).plan)
  {
    hide IsChain;
  }

  lemma {:induction false} EnteredChain(t: seq<Row>, ids: seq<nat>, id: nat)
    requires IsChain(t, ids) && id < |t| && t[id].parent == ids[|ids| - 1]
    ensures IsChain(t, ids + [id])
  {
    assert Chain(t, id) == ids + [id];
  }

  /** The scopes of everything a forest adds are chains of the table. */
  lemma {:induction false} AddChained(t: seq<Row>, pre: seq<Row>, f: Forest, post: seq<Row>, parent: nat, c: Context,
      focus: bool, b: Build)
    requires Placed(pre, f, post, parent, false) && t == Table(pre, f, post, parent, false) && Scopes(t)
    requires IsChain(t, c.ids) && c.ids[|c.ids| - 1] == parent && PlanChained(t, b.plan)
    ensures PlanChained(t, Add(f, c, |pre|, focus, b).plan)
    decreases f, 1
  {
    if f.Grow? {
      AddIs(f, c, |pre|, focus, b);
      hide *;
      var before := PlacedRest(pre, f, post, parent, false);
      if f.first.Leaf? {
        LeafChained(t, b, c, f.first.kind, f.first.name, f.first.body, focus);
        SkipLeaf(f, parent, |pre|);
        var b' := AddLeaf(b, c, f.first.kind, f.first.name, f.first.body, focus);
        AddChained(t, before, f.rest, post, parent, c, focus, b');
      } else {
        RowPerGroup(f.first.kids, |pre|, |pre| + 1);
        GroupParts(f, parent, |pre|, []);
        ScopeChained(t, pre, f, post, parent, c, focus, b);
        var b' := AddScope(f.first.name, f.first.hooks, f.first.kids, c, |pre|, focus, CloseRun(b));
        AddChained(t, before, f.rest, post, parent, c, focus, b');
      }
    }
  }

  lemma {:induction false} AddIs(f: Forest, c: Context, id: nat, focus: bool, b: Build)
    requires f.Grow?
    ensures f.first.Leaf? ==>
              Add(f, c, id, focus, b)
              == Add(f.rest, c, id, focus, AddLeaf(b, c, f.first.kind, f.first.name, f.first.body, focus))
    ensures f.first.Scope? ==>
              Add(f, c, id, focus, b)
              == Add(f.rest, c, id + 1 + Groups(f.first.kids), focus,
                     AddScope(f.first.name, f.first.hooks, f.first.kids, c, id, focus, CloseRun(b)))
  {
  }

  lemma {:induction false} ScopeChained(t: seq<Row>, pre: seq<Row>, f: Forest, post: seq<Row>, parent: nat, c: Context,
      focus: bool, b: Build)
    requires Placed(pre, f, post, parent, false) && t == Table(pre, f, post, parent, false) && Scopes(t)
    requires IsChain(t, c.ids) && c.ids[|c.ids| - 1] == parent && PlanChained(t, b.plan) && f.Grow? && f.first.Scope?
    ensures PlanChained(t, AddScope(f.first.name, f.first.hooks, f.first.kids, c, |pre|, focus, CloseRun(b)).plan)
    decreases f, 0
  {
    var name, h, kids := f.first.name, f.first.hooks, f.first.kids;
    var inner, b1 := Enter(c, name, |pre|, h), CloseRun(b);
    assert AddScope(name, h, kids, c, |pre|, focus, b1)
        == CloseScope(Add(kids, inner, |pre| + 1, focus, b1), inner, name, h, |b1.plan.specs|);
    assert inner.ids == c.ids + [|pre|];
    RunClosedChained(t, b);
    hide *;
    LabelOfFirst(pre, f, post, parent, false);
    EnteredChain(t, c.ids, |pre|);
    var before, after := PlacedKids(pre, f, post, parent, false);
    AddChained(t, before, kids, after, |pre|, inner, focus, b1);
    ClosedChained(t, Add(kids, inner, |pre| + 1, focus, b1), inner, name, h, |b1.plan.specs|);
  }

  lemma {:induction false} RunClosedChained(t: seq<Row>, b: Build)
    requires PlanChained(t, b.plan)
    ensures PlanChained(t, CloseRun(b).plan)
  {
    hide IsChain;
  }

  lemma {:induction false} SuiteTableIs(name: string, kids: Forest)
    ensures Labelled(SuiteTable(name, kids), SuiteLabels(name, kids))
    ensures var t := SuiteTable(name, kids);
            && |t| == 1 + Groups(kids) && t[0] == Row(-1, name, true)
            && Placed([t[0]], kids, [], 0, false) && t == Table([t[0]], kids, [], 0, false)
  {
    var t := SuiteTable(name, kids);
    TableLabels(name, kids, 0);
    RowsInside(kids, 0, 1, false);
    RowPerGroup(kids, 0, 1);
    forall id | 0 <= id < |t| ensures LabelAt(t, id) == SuiteLabels(name, kids)[id] {
      TableLabels(name, kids, id);
    }
    forall i | 0 <= i < |t| ensures t[i].group && -1 <= t[i].parent < i {
      if i > 0 { assert t[i] == Rows(kids, 0, 1, false)[i - 1]; }
    }
    hide LabelAt, SuiteLabels, Rows;
  }

  lemma {:induction false} SuiteChained(name: string, h: Hooks, kids: Forest, focus: bool)
    ensures PlanChained(SuiteTable(name, kids), PlanOf(name, h, kids, focus))
  {
    var t, inner, b := SuiteTable(name, kids), Enter(TOP, name, 0, h), Build(NOTHING, None);
    SuiteTableIs(name, kids);
    assert inner.ids == [0] && Chain(t, 0) == [0];
    assert PlanChained(t, b.plan) && IsChain(t, inner.ids);
    assert PlanOf(name, h, kids, focus)
        == CloseScope(Add(kids, inner, 1, focus, b), inner, name, h, |b.plan.specs|).plan;
    assert Scopes(t);
    hide *;
    AddChained(t, [t[0]], kids, [], 0, inner, focus, b);
    ClosedChained(t, Add(kids, inner, 1, focus, b), inner, name, h, |b.plan.specs|);
  }

  lemma {:induction false} RowsNamed(f: Forest, parent: int, base: nat)
    requires AllNamed(f)
    ensures forall i :: 0 <= i < |Rows(f, parent, base, false)| ==> Rows(f, parent, base, false)[i].name != ""
    decreases f, 0
  {
    if f.Grow? {
      var first := TreeRows(f.first, parent, base, false);
      var rest := Rows(f.rest, parent, base + |first|, false);
      if f.first.Scope? { RowsNamed(f.first.kids, base, base + 1); }
      RowsNamed(f.rest, parent, base + |first|);
      forall i | 0 <= i < |first| ensures first[i].name != "" {
        if i > 0 { assert first[i] == Rows(f.first.kids, base, base + 1, false)[i - 1]; }
      }
      assert Rows(f, parent, base, false) == first + rest;
    }
  }

  /** Two chains of scopes that are reported under one path. */
  ghost predicate SameReported(t: seq<Row>, labels: seq<string>, a: seq<nat>, b: seq<nat>) {
    IsChain(t, a) && IsChain(t, b) && PathOf(a, labels) == PathOf(b, labels)
  }

  lemma {:induction false} ChainsDiffer(t: seq<Row>, labels: seq<string>, a: seq<nat>, b: seq<nat>)
    requires Labelled(t, labels) && TellApart(t, labels) && forall id :: 0 <= id < |t| ==> IsNamed(t, id)
    requires SameReported(t, labels, a, b)
    ensures a == b
  {
    var x, y := a[|a| - 1], b[|b| - 1];
    assert IsNamed(t, x) && IsNamed(t, y);
    assert ReportPath(t, labels, x) == PathOf(a, labels) && ReportPath(t, labels, y) == PathOf(b, labels);
    hide Chain, PathOf, LabelAt;
    OneScopeAPath(t, labels, x, y);
  }

  lemma {:induction false} OneScopeAPath(t: seq<Row>, labels: seq<string>, x: nat, y: nat)
    requires Labelled(t, labels) && TellApart(t, labels) && IsNamed(t, x) && IsNamed(t, y)
    requires ReportPath(t, labels, x) == ReportPath(t, labels, y)
    ensures x == y
  {
    hide ReportPath, Labelled;
  }

  lemma {:induction false} ChainInTable(t: seq<Row>, id: nat, i: nat)
    requires Scopes(t) && id < |t| && i < |Chain(t, id)|
    ensures Chain(t, id)[i] < |t|
    decreases id
  {
    if t[id].parent >= 0 && i < |Chain(t, id)| - 1 { ChainInTable(t, t[id].parent, i); }
  }

  /** In a suite whose scopes and specs are named, everything compiled carries the
      path of its own scope: paths are equal only for one and the same scope, and
      the two ways of resolving them give the same path. */
  lemma {:induction false} ReportPathsAreInjective(name: string, h: Hooks, kids: Forest, focus: bool)
    requires name != "" && AllNamed(kids)
    ensures PlanChained(SuiteTable(name, kids), PlanOf(name, h, kids, focus))
    ensures var t, labels := SuiteTable(name, kids), SuiteLabels(name, kids);
            && (forall a, b :: SameReported(t, labels, a, b) ==> a == b)
            && (forall a :: IsChain(t, a) ==> LabelsOf(a, labels) == PathOf(a, labels))
  {
    var t, labels := SuiteTable(name, kids), SuiteLabels(name, kids);
    SuiteChained(name, h, kids, focus);
    SuiteTableIs(name, kids);
    RowsNamed(kids, 0, 1);
    assert forall id :: 0 <= id < |t| ==> IsNamed(t, id);
    hide *;
    NamedScopesDiffer(t, labels);
    forall a, b | SameReported(t, labels, a, b) ensures a == b {
      ChainsDiffer(t, labels, a, b);
    }
    forall a | IsChain(t, a) ensures LabelsOf(a, labels) == PathOf(a, labels) {
      ChainNamed(t, labels, a);
    }
  }

  lemma {:induction false} ChainNamed(t: seq<Row>, labels: seq<string>, a: seq<nat>)
    requires Labelled(t, labels) && IsChain(t, a) && forall id :: 0 <= id < |t| ==> IsNamed(t, id)
    ensures LabelsOf(a, labels) == PathOf(a, labels)
  {
    forall i | 0 <= i < |a| ensures LabelOf(a[i], labels) != "" {
      ChainInTable(t, a[|a| - 1], i);
      assert IsNamed(t, a[i]);
      LabelIsNamed(t, a[i]);
    }
    hide Labelled, IsChain;
    NamedPath(a, labels);
  }
}
