/** A suite through the bytecode compiler, from its Describe to its plan. */
module BytecodeSuites {
  import opened Options
  import opened Declarations
  import opened ScopeTables
  import opened Plans
  import opened Recordings
  import opened Suites
  import opened BytecodeCompilers
  import opened FocusFilters

  method ResolveAll(marks: seq<Mark>, labels: seq<string>) returns (r: seq<SuiteMark>)
    ensures r == ResolveMarks(marks, labels)
  {
    r := [];
    for i := 0 to |marks|
      invariant r == ResolveMarks(marks[..i], labels)
    {
      var path := ResolveScopeIDs(marks[i].ids, labels);
      r := r + [SuiteMark(marks[i].name, path)];
    }
    assert marks[..|marks|] == marks;
  }

  method ResolveHookGroups(groups: seq<Group>, labels: seq<string>) returns (r: seq<SuiteGroup>)
    ensures r == ResolveGroups(groups, labels)
  {
    r := [];
    for i := 0 to |groups|
      invariant r == ResolveGroups(groups[..i], labels)
    {
      var g := groups[i];
      var path := ResolveScopeIDs(g.ids, labels);
      r := r + [SuiteGroup(g.path, path, g.name, g.beforeAll, g.afterAll, g.first, g.last)];
    }
    assert groups[..|groups|] == groups;
  }

  /** The specs of a flat plan, under the labels of their scopes. */
  method FinalizeReportPaths(c: Code, ghost focus: seq<nat>, labels: seq<string>) returns (specs: seq<SuiteSpec>)
    requires WindowsFit(c)
    ensures specs == ResolveSpecs(SpecsOf(c, focus), labels)
  {
    var pathScopes := LabelsOf(c.scopeIDs, labels);
    specs := [];
    for i := 0 to |c.names|
      invariant |specs| == i && forall j :: 0 <= j < i ==> specs[j] == ResolveSpec(SpecAt(c, focus, j), labels)
    {
      var from, to := c.idStart[i], c.idStart[i] + c.idLen[i];
      assert pathScopes[from..to] == LabelsOf(c.scopeIDs[from..to], labels);
      specs := specs + [SuiteSpec(c.names[i], c.fullNames[i],
        c.instructions[c.programStart[i]..c.programStart[i] + c.programLen[i]], pathScopes[from..to])];
    }
  }

  lemma {:induction false} NamesOfAll(s: seq<Spec>, names: seq<string>)
    requires |names| == |s| && forall i :: 0 <= i < |s| ==> s[i].focused && s[i].fullName == names[i]
    ensures FocusedNames(s) == names
  {
    if s != [] { NamesOfAll(s[..|s| - 1], names[..|s| - 1]); }
  }

  lemma {:induction false} NamesOfNone(s: seq<Spec>)
    requires Kept(s) == []
    ensures FocusedNames(s) == []
  {
    if s != [] { NamesOfNone(s[..|s| - 1]); }
  }

  lemma {:induction false} FocusedNamesOf(c: Code, focus: seq<nat>, d: Code, kept: seq<nat>)
    requires WindowsFit(c) && WindowsFit(d) && Ascending(focus, |c.names|)
    requires SpecsOf(d, kept) == if focus == [] then SpecsOf(c, focus) else Kept(SpecsOf(c, focus))
    ensures FocusedNames(SpecsOf(d, kept)) == if focus == [] then [] else d.fullNames
  {
    var s := SpecsOf(c, focus);
    FocusIndicesArePlaces(c, focus);
    KeptArePlaces(s, focus);
    if focus == [] {
      NamesOfNone(s);
    } else {
      forall i | 0 <= i < |d.names|
        ensures SpecsOf(d, kept)[i].focused && SpecsOf(d, kept)[i].fullName == d.fullNames[i]
      {
        assert Kept(s)[i] == s[focus[i]] && focus[i] in focus;
      }
      NamesOfAll(SpecsOf(d, kept), d.fullNames);
    }
  }

  /** The suite once everything is declared: the focus filter, then the labels,
      which need every scope. */
  method Finish(c: BytecodeCompiler, ghost name: string, ghost kids: Forest) returns (suite: Suite)
    requires c.Valid() && c.table == SuiteTable(name, kids)
    requires GroupsWithin(c.groups.groups, |c.code.names|) && RangesWithin(c.groups.parallel, |c.code.names|)
    requires c.groups.excluded == []
    ensures suite == Resolve(Focused(c.Built().plan), SuiteLabels(name, kids))
  {
    var code, groups, focus := ApplyFocusFilter(c.code, c.focusIndices, c.groups);
    ghost var built := Focused(c.Built().plan);
    FilteredSpecs(c, code, groups, focus);
    LabelsOfTable(name, kids);
    hide *;
    var labels := ComputeScopeLabels(c.table);
    assert labels == SuiteLabels(name, kids);
    var specs := FinalizeReportPaths(code, focus, labels);
    var gs := ResolveHookGroups(groups.groups, labels);
    var skipped := ResolveAll(groups.skipped, labels);
    var pending := ResolveAll(groups.pending, labels);
    var excluded := ResolveAll(groups.excluded, labels);
    var names := if |c.focusIndices| == 0 then [] else code.fullNames;
    suite := Suite(specs, gs, groups.parallel, skipped, pending, excluded, names);
    ResolveIs(built, labels);
  }

  lemma {:induction false} FilteredSpecs(c: BytecodeCompiler, code: Code, groups: Plan, focus: seq<nat>)
    requires c.Valid() && WindowsFit(code)
    requires groups.(specs := SpecsOf(code, focus)) == Focused(c.Built().plan)
    ensures FocusedNames(SpecsOf(code, focus)) == if |c.focusIndices| == 0 then [] else code.fullNames
  {
    var s := SpecsOf(c.code, c.focusIndices);
    FocusIndicesArePlaces(c.code, c.focusIndices);
    KeptArePlaces(s, c.focusIndices);
    FocusedIs(c.Built().plan);
    hide Focused, Kept;
    FocusedNamesOf(c.code, c.focusIndices, code, focus);
  }

  lemma {:induction false} ResolveIs(p: Plan, labels: seq<string>)
    ensures Resolve(p, labels) == Suite(ResolveSpecs(p.specs, labels), ResolveGroups(p.groups, labels), p.parallel,
      ResolveMarks(p.skipped, labels), ResolveMarks(p.pending, labels), ResolveMarks(p.excluded, labels),
      FocusedNames(p.specs))
  {
  }

  lemma {:induction false} LabelsOfTable(name: string, kids: Forest)
    ensures |SuiteTable(name, kids)| == |SuiteLabels(name, kids)|
    ensures forall id :: 0 <= id < |SuiteTable(name, kids)| ==>
              SuiteTable(name, kids)[id].group && LabelAt(SuiteTable(name, kids), id) == SuiteLabels(name, kids)[id]
  {
    TableLabels(name, kids, 0);
    forall id | 0 <= id < |SuiteTable(name, kids)|
      ensures SuiteTable(name, kids)[id].group && LabelAt(SuiteTable(name, kids), id) == SuiteLabels(name, kids)[id]
    {
      TableLabels(name, kids, id);
    }
  }

  /** Describe without a registry. Either the first late hook panics, or the
      suite is that of the tree the callback declares, focused afterwards. */
  method DescribeWithCompiler(name: string, s: Script) returns (late: Option<LateHook>, suite: Option<Suite>)
    ensures late == Late(s, false)
    ensures suite == if late.Some? then None
      else Some(Resolve(Focused(PlanOf(name, HooksOf(s), ForestOf(s), false)), SuiteLabels(name, ForestOf(s))))
  {
    SuiteRecorded(name, s);
    PlanRanges(name, HooksOf(s), ForestOf(s));
    var c := new BytecodeCompiler();
    c.PushScope(name);
    late := c.Call(s);
    if late.Some? { return late, None; }
    c.PopScope();
    assert c.Snapshot().build.plan == PlanOf(name, HooksOf(s), ForestOf(s), false);
    var plan := Finish(c, name, ForestOf(s));
    suite := Some(plan);
  }
}
