/** A compiled suite as its runner and its reporter see it: scopes under their
    report labels. */
module Suites {
  import opened Options
  import opened Declarations
  import opened Permutations
  import opened ReportLabels
  import opened ScopeTables
  import opened Plans

  datatype SuiteSpec = SuiteSpec(name: string, fullName: string, program: seq<Instr>, path: seq<string>)

  datatype SuiteGroup = SuiteGroup(
    path: seq<string>, reportPath: seq<string>, name: string, beforeAll: seq<Fn>, afterAll: seq<Fn>, first: nat,
    last: nat)

  datatype SuiteMark = SuiteMark(name: string, path: seq<string>)

  datatype Suite = Suite(
    specs: seq<SuiteSpec>, groups: seq<SuiteGroup>, parallel: seq<Range>,
    skipped: seq<SuiteMark>, pending: seq<SuiteMark>, excluded: seq<SuiteMark>, focusedNames: seq<string>)

  function LabelOf(id: nat, labels: seq<string>): string {
    if id < |labels| then labels[id] else ""
  }

  /** The labels of a spec's scopes. */
  function LabelsOf(ids: seq<nat>, labels: seq<string>): (path: seq<string>)
    ensures |path| == |ids|
  {
    seq(|ids|, i requires 0 <= i < |ids| => LabelOf(ids[i], labels))
  }

  /** The labels of a mark's or a group's scopes; unnamed ones add nothing. */
  function PathOf(ids: seq<nat>, labels: seq<string>): seq<string> {
    if ids == [] then []
    else
      var l := LabelOf(ids[|ids| - 1], labels);
      PathOf(ids[..|ids| - 1], labels) + if l == "" then [] else [l]
  }

  method ResolveScopeIDs(ids: seq<nat>, labels: seq<string>) returns (path: seq<string>)
    ensures path == PathOf(ids, labels)
  {
    path := [];
    for i := 0 to |ids|
      invariant path == PathOf(ids[..i], labels)
    {
      assert ids[..i + 1][..i] == ids[..i];
      if ids[i] < |labels| && labels[ids[i]] != "" { path := path + [labels[ids[i]]]; }
    }
    assert ids[..|ids|] == ids;
  }

  /** With labels for all, the two are the same path. */
  lemma {:induction false} NamedPath(ids: seq<nat>, labels: seq<string>)
    requires forall i :: 0 <= i < |ids| ==> LabelOf(ids[i], labels) != ""
    ensures PathOf(ids, labels) == LabelsOf(ids, labels)
  {
    if ids != [] { NamedPath(ids[..|ids| - 1], labels); }
  }

  /** The names there are: an empty one adds nothing. */
  function Named(names: seq<string>): seq<string> {
    if names == [] then []
    else (if names[0] == "" then [] else [names[0]]) + Named(names[1..])
  }

  lemma {:induction false} NamedLast(names: seq<string>, n: string)
    ensures Named(names + [n]) == Named(names) + if n == "" then [] else [n]
  {
    if names == [] {
      assert names + [n] == [n] && [n][1..] == [];
    } else {
      assert (names + [n])[1..] == names[1..] + [n];
      NamedLast(names[1..], n);
    }
  }

  lemma {:induction false} LastLabel(ids: seq<nat>, labels: seq<string>)
    requires ids != []
    ensures LabelsOf(ids, labels) == LabelsOf(ids[..|ids| - 1], labels) + [LabelOf(ids[|ids| - 1], labels)]
  {
  }

  lemma {:induction false} NamedLabels(ids: seq<nat>, labels: seq<string>)
    ensures Named(LabelsOf(ids, labels)) == PathOf(ids, labels)
    ensures Named(PathOf(ids, labels)) == PathOf(ids, labels)
  {
    hide LabelsOf, LabelOf, Named;
    if ids == [] {
      NoLabels(labels);
    } else {
      var front, l := ids[..|ids| - 1], LabelOf(ids[|ids| - 1], labels);
      NamedLabels(front, labels);
      LastLabel(ids, labels);
      NamedLast(LabelsOf(front, labels), l);
      NamedLast(PathOf(front, labels), l);
      assert l == "" ==> PathOf(front, labels) + [] == PathOf(front, labels);
    }
  }

  lemma {:induction false} NoLabels(labels: seq<string>)
    ensures Named(LabelsOf([], labels)) == [] && Named(PathOf([], labels)) == [] && PathOf([], labels) == []
  {
  }

  lemma {:induction false} NamedTwice(names: seq<string>)
    ensures Named(Named(names)) == Named(names)
  {
    if names != [] {
      NamedTwice(names[1..]);
      var rest := Named(names[1..]);
      if names[0] == "" {
        assert Named(names) == rest;
      } else {
        assert ([names[0]] + rest)[1..] == rest;
      }
    }
  }

  function ResolveSpec(s: Spec, labels: seq<string>): SuiteSpec {
    SuiteSpec(s.name, s.fullName, s.program, LabelsOf(s.ids, labels))
  }

  function ResolveGroup(g: Group, labels: seq<string>): SuiteGroup {
    SuiteGroup(g.path, PathOf(g.ids, labels), g.name, g.beforeAll, g.afterAll, g.first, g.last)
  }

  function ResolveMark(m: Mark, labels: seq<string>): SuiteMark {
    SuiteMark(m.name, PathOf(m.ids, labels))
  }

  function ResolveSpecs(s: seq<Spec>, labels: seq<string>): (r: seq<SuiteSpec>)
    ensures |r| == |s| && forall i :: 0 <= i < |s| ==> r[i] == ResolveSpec(s[i], labels)
  {
    seq(|s|, i requires 0 <= i < |s| => ResolveSpec(s[i], labels))
  }

  function ResolveGroups(s: seq<Group>, labels: seq<string>): (r: seq<SuiteGroup>)
    ensures |r| == |s| && forall i :: 0 <= i < |s| ==> r[i] == ResolveGroup(s[i], labels)
  {
    seq(|s|, i requires 0 <= i < |s| => ResolveGroup(s[i], labels))
  }

  function ResolveMarks(s: seq<Mark>, labels: seq<string>): (r: seq<SuiteMark>)
    ensures |r| == |s| && forall i :: 0 <= i < |s| ==> r[i] == ResolveMark(s[i], labels)
  {
    seq(|s|, i requires 0 <= i < |s| => ResolveMark(s[i], labels))
  }

  /** The breadcrumbs of the focused specs. */
  function FocusedNames(s: seq<Spec>): seq<string> {
    if s == [] then []
    else FocusedNames(s[..|s| - 1]) + if s[|s| - 1].focused then [s[|s| - 1].fullName] else []
  }

  function Resolve(p: Plan, labels: seq<string>): Suite {
    Suite(ResolveSpecs(p.specs, labels), ResolveGroups(p.groups, labels), p.parallel,
      ResolveMarks(p.skipped, labels), ResolveMarks(p.pending, labels), ResolveMarks(p.excluded, labels),
      FocusedNames(p.specs))
  }

  /** The same suite, up to the order of the excluded marks. */
  ghost predicate SameSuite(a: Suite, b: Suite) {
    a.(excluded := []) == b.(excluded := []) && multiset(a.excluded) == multiset(b.excluded)
  }

  lemma {:induction false} ResolveKeepsCounts(s: seq<Mark>, t: seq<Mark>, labels: seq<string>)
    requires multiset(s) == multiset(t)
    ensures multiset(ResolveMarks(s, labels)) == multiset(ResolveMarks(t, labels))
  {
    var p := MultisetArrangement(s, t);
    assert ResolveMarks(s, labels) == Arrange(ResolveMarks(t, labels), p);
    ArrangeMultiset(ResolveMarks(t, labels), p);
  }

  lemma {:induction false} SamePlanSameSuite(p: Plan, q: Plan, labels: seq<string>)
    requires SamePlan(p, q)
    ensures SameSuite(Resolve(p, labels), Resolve(q, labels))
  {
    ResolveKeepsCounts(p.excluded, q.excluded, labels);
  }

  // ---- The labels both compilers use are those of the tree ----

  /** The table of a top-level scope's groups. */
  function SuiteTable(name: string, kids: Forest): seq<Row> {
    [Row(-1, name, true)] + Rows(kids, 0, 1, false)
  }

  lemma {:induction false} TableLabels(name: string, kids: Forest, id: nat)
    requires id < 1 + Groups(kids)
    ensures |SuiteTable(name, kids)| == 1 + Groups(kids)
    ensures SuiteTable(name, kids)[id].group
    ensures LabelAt(SuiteTable(name, kids), id) == SuiteLabels(name, kids)[id]
  {
    var row := Row(-1, name, true);
    var t := SuiteTable(name, kids);
    RowPerGroup(kids, 0, 1);
    RowsInside(kids, 0, 1, false);
    if id == 0 {
      SiblingsAppend([row], Rows(kids, 0, 1, false), -1);
      NoKids(Rows(kids, 0, 1, false), -1, 0);
      assert Siblings(t, -1) == [name] && t[..0] == [];
      LabelAvoidsNames([name], 0);
    } else {
      assert Placed([row], kids, [], 0, false);
      assert t == Table([row], kids, [], 0, false);
      assert Siblings([row], 0) == [] && [] + GroupNames(kids) == GroupNames(kids);
      LabelsOfPlaced([row], kids, [], 0, t, [], GroupNames(kids), id - 1);
    }
  }

  /** A finished plan's groups and runs are ranges of its specs. */
  lemma {:induction false} PlanRanges(name: string, h: Hooks, kids: Forest)
    ensures var p := PlanOf(name, h, kids, false);
            && GroupsWithin(p.groups, |p.specs|) && p.excluded == []
            && forall i :: 0 <= i < |p.parallel| ==> p.parallel[i].first <= p.parallel[i].last < |p.specs|
  {
    var start := Build(NOTHING, None);
    ScopeSimulates(name, h, kids, TOP, 0, start, start);
  }
}
