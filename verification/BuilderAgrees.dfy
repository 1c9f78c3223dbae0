/** A built program runs, skips, leaves pending and excludes what the plan of
    the same declarations does. */
module BuilderAgrees {
  import opened Options
  import opened Declarations
  import opened Permutations
  import opened ReportLabels
  import opened ScopeTables
  import opened Plans
  import opened Suites
  import opened BuilderItems
  import opened BuilderGroups
  import opened BuilderPlans
  import opened Builders
  import opened DeclaredSuites
  import opened DeclaredPlans
  import opened DeclaredRuns
  import opened BuilderShows
  import CompilersAgree
  import LateHooks

  // ---- Scope numbers, and what they resolve to ----

  lemma {:induction false} PathUp(ids: seq<nat>, labels: seq<string>)
    ensures PathOf(Up(ids), [""] + labels) == PathOf(ids, labels)
  {
    if ids == [] {
      assert Up(ids)[..0] == [];
    } else {
      var n := |ids| - 1;
      assert Up(ids)[..n + 1] == Up(ids[..n]);
      PathUp(ids[..n], labels);
    }
  }

  lemma {:induction false} ResolvedSnoc(items: seq<Item>, labels: seq<string>)
    requires items != []
    ensures var n := |items| - 1;
            && Resolved(items, labels)[..n] == Resolved(items[..n], labels)
            && Resolved(items, labels)[n] == items[n].(path := PathOf(items[n].ids, labels))
  {
  }

  lemma {:induction false} MarkResolved(x: Item, labels: seq<string>)
    ensures BuilderGroups.MarkOf(x.(path := PathOf(x.ids, labels))) == ResolveMark(Numbered(x), [""] + labels)
  {
    PathUp(x.ids, labels);
  }

  lemma {:induction false} MarksResolved(items: seq<Item>, kind: Kind, labels: seq<string>)
    ensures MarksOf(Resolved(items, labels), kind) == ResolveMarks(NumberedMarks(items, kind), [""] + labels)
  {
    if items != [] {
      var n := |items| - 1;
      MarksResolved(items[..n], kind, labels);
      ResolvedSnoc(items, labels);
      MarkResolved(items[n], labels);
      hide Resolved, ResolveMark, Numbered;
    }
  }

  /** Dropped, by scope numbers. */
  function NumberedDropped(items: seq<Item>): seq<Mark> {
    if items == [] then []
    else
      NumberedDropped(items[..|items| - 1]) +
      if items[|items| - 1].kind == Focus then [] else [Numbered(items[|items| - 1])]
  }

  lemma {:induction false} DroppedResolved(items: seq<Item>, labels: seq<string>)
    ensures Dropped(Resolved(items, labels)) == ResolveMarks(NumberedDropped(items), [""] + labels)
  {
    if items != [] {
      var n := |items| - 1;
      DroppedResolved(items[..n], labels);
      ResolvedSnoc(items, labels);
      MarkResolved(items[n], labels);
      hide Resolved, ResolveMark, Numbered;
    }
  }

  lemma {:induction false} FocusResolved(items: seq<Item>, labels: seq<string>)
    ensures FocusOnly(Resolved(items, labels)) == Resolved(FocusOnly(items), labels)
  {
    if items != [] {
      FocusResolved(items[..|items| - 1], labels);
      ResolvedSnoc(items, labels);
    }
  }

  lemma {:induction false} RealsResolved(items: seq<Item>, labels: seq<string>)
    ensures Reals(Resolved(items, labels)) == Resolved(Reals(items), labels)
  {
    if items != [] {
      RealsResolved(items[..|items| - 1], labels);
      ResolvedSnoc(items, labels);
    }
  }

  lemma {:induction false} RunsAreReals(items: seq<Item>)
    ensures |RunsOf(items)| == |Reals(items)|
    ensures forall i :: 0 <= i < |Reals(items)| ==> RunsOf(items)[i] == RunOf(Reals(items)[i])
  {
    if items != [] { RunsAreReals(items[..|items| - 1]); }
  }

  // ---- What runs, and what the plan says ----

  /** A run is the spec's program under its name and path. */
  ghost predicate RunIs(r: Run, s: Spec, labels: seq<string>) {
    && r.name == s.name && (r.fullName.Some? ==> r.fullName.value == s.fullName)
    && r.path == PathOf(s.ids, labels) && r.calls == Fns(s.program)
  }

  ghost predicate RunsAre(runs: seq<Run>, specs: seq<Spec>, labels: seq<string>) {
    |runs| == |specs| && forall i :: 0 <= i < |runs| ==> RunIs(runs[i], specs[i], labels)
  }

  /** The program runs the specs of p in order, and skips, leaves pending and
      excludes its marks. */
  ghost predicate Carries(program: BuilderGroups.Program, p: Plan, labels: seq<string>) {
    && AllProper(program.units) && RunsAre(AllRuns(program.units), p.specs, labels)
    && AllSkipped(program.units) == ResolveMarks(p.skipped, labels)
    && AllPending(program.units) == ResolveMarks(p.pending, labels)
    && multiset(program.excluded) == multiset(ResolveMarks(p.excluded, labels))
    && program.excludedCount == |program.excluded| && program.focusedNames == FocusedNames(p.specs)
  }

  lemma {:induction false} RunsOfResolved(items: seq<Item>, specs: seq<Spec>, labels: seq<string>)
    requires ItemsAre(Reals(items), specs)
    ensures RunsAre(RunsOf(Resolved(items, labels)), specs, [""] + labels)
  {
    var done := Resolved(items, labels);
    RunsAreReals(done);
    RealsResolved(items, labels);
    var reals := Reals(items);
    forall i | 0 <= i < |specs| ensures RunIs(RunsOf(done)[i], specs[i], [""] + labels) {
      PathUp(reals[i].ids, labels);
      assert ItemIs(reals[i], specs[i]);
      RunResolved(reals[i], specs[i], labels);
    }
    hide RunIs, ItemIs;
  }

  lemma {:induction false} RunResolved(x: Item, s: Spec, labels: seq<string>)
    requires ItemIs(x, s) && PathOf(Up(x.ids), [""] + labels) == PathOf(x.ids, labels)
    ensures RunIs(RunOf(x.(path := PathOf(x.ids, labels))), s, [""] + labels)
  {
    hide PathOf, Calls, StepCalls, Fns, Up;
  }

  // ---- Keeping the focused ones ----

  lemma {:induction false} ItemsSplit(items: seq<Item>, specs: seq<Spec>)
    requires ItemsAre(items, specs) && items != []
    ensures specs != [] && ItemsAre(items[..|items| - 1], specs[..|specs| - 1])
    ensures ItemIs(items[|items| - 1], specs[|specs| - 1])
  {
    hide ItemIs;
  }

  lemma {:induction false} ItemsJoin(items: seq<Item>, specs: seq<Spec>, x: Item, s: Spec)
    requires ItemsAre(items, specs) && ItemIs(x, s)
    ensures ItemsAre(items + [x], specs + [s])
  {
    hide ItemIs;
  }

  lemma {:induction false} FocusedItemsAre(items: seq<Item>, specs: seq<Spec>)
    requires ItemsAre(items, specs)
    ensures ItemsAre(FocusOnly(items), Kept(specs))
  {
    if items != [] {
      var n := |items| - 1;
      ItemsSplit(items, specs);
      FocusAlike(items[n], specs[n]);
      hide ItemIs, ItemsAre;
      FocusedItemsAre(items[..n], specs[..n]);
      if items[n].kind == Focus { ItemsJoin(FocusOnly(items[..n]), Kept(specs[..n]), items[n], specs[n]); }
    }
  }

  lemma {:induction false} FocusAlike(x: Item, s: Spec)
    requires ItemIs(x, s)
    ensures x.kind == Focus <==> s.focused
    ensures Numbered(x) == Plans.MarkOf(s)
  {
  }

  lemma {:induction false} FocusSnoc(items: seq<Item>, x: Item)
    ensures FocusOnly(items + [x]) == FocusOnly(items) + if x.kind == Focus then [x] else []
  {
    assert (items + [x])[..|items|] == items;
  }

  lemma {:induction false} FocusOfReals(items: seq<Item>)
    ensures FocusOnly(items) == FocusOnly(Reals(items)) && Reals(FocusOnly(items)) == FocusOnly(items)
    ensures NumberedMarks(FocusOnly(items), Skip) == [] && NumberedMarks(FocusOnly(items), Pending) == []
  {
    if items != [] {
      var front, x := items[..|items| - 1], items[|items| - 1];
      assert items == front + [x];
      hide *;
      FocusOfReals(front);
      FocusSnoc(front, x);
      FocusSnoc(Reals(front), x);
      CollectedMore(front, x);
      CollectedMore(FocusOnly(front), x);
      RealUnlessMark(x);
      NothingAdded(Reals(front), FocusOnly(front));
    } else {
      assert Reals(items) == [] && FocusOnly(items) == [];
    }
  }

  lemma {:induction false} RealUnlessMark(x: Item)
    ensures x.kind == Focus ==> Real(x)
  {
  }

  lemma {:induction false} NothingAdded(a: seq<Item>, b: seq<Item>)
    ensures a + [] == a && b + [] == b
  {
  }

  lemma {:induction false} DroppedSnoc(items: seq<Item>, x: Item)
    ensures NumberedDropped(items + [x]) == NumberedDropped(items) + if x.kind == Focus then [] else [Numbered(x)]
  {
    assert (items + [x])[..|items|] == items;
  }

  /** What a focus drops are the unfocused specs and all the marks. */
  lemma {:induction false} DroppedParts(items: seq<Item>)
    ensures multiset(NumberedDropped(items)) == multiset(NumberedDropped(Reals(items)))
              + multiset(NumberedMarks(items, Skip)) + multiset(NumberedMarks(items, Pending))
  {
    if items != [] {
      var n := |items| - 1;
      var front, x := items[..n], items[n];
      assert items == front + [x];
      DroppedParts(front);
      CollectedMore(front, x);
      DroppedSnoc(front, x);
      DroppedSnoc(Reals(front), x);
      hide NumberedDropped, NumberedMarks, Reals, Numbered;
      assert Reals(front) + [] == Reals(front);
    }
  }

  lemma {:induction false} DroppedSpecs(items: seq<Item>, specs: seq<Spec>)
    requires ItemsAre(items, specs)
    ensures NumberedDropped(items) == Unfocused(specs)
  {
    if items != [] {
      var n := |items| - 1;
      ItemsSplit(items, specs);
      FocusAlike(items[n], specs[n]);
      hide ItemIs, ItemsAre, Numbered, Plans.MarkOf;
      DroppedSpecs(items[..n], specs[..n]);
    }
  }

  lemma {:induction false} KeptNames(items: seq<Item>, specs: seq<Spec>)
    requires ItemsAre(items, specs) && forall i :: 0 <= i < |items| ==> items[i].kind == Focus
    ensures FullNames(items) == FocusedNames(specs)
  {
    if items != [] {
      var n := |items| - 1;
      ItemsSplit(items, specs);
      assert items[n].fullName == specs[n].fullName && specs[n].focused;
      hide ItemIs, ItemsAre;
      KeptNames(items[..n], specs[..n]);
      assert FullNames(items) == FullNames(items[..n]) + [items[n].fullName];
    }
  }

  lemma {:induction false} FocusOfSpecs(items: seq<Item>, specs: seq<Spec>)
    requires ItemsAre(Reals(items), specs)
    ensures AnyFocus(items) <==> Kept(specs) != []
  {
    FocusedItemsAre(Reals(items), specs);
    FocusOfReals(items);
    NoneFocused(items);
    hide FocusOnly, Kept, Reals;
  }

  // ---- The finished program ----

  lemma {:induction false} ResolvedCoherent(items: seq<Item>, labels: seq<string>)
    requires Coherent(items)
    ensures Coherent(Resolved(items, labels))
  {
    var done := Resolved(items, labels);
    forall i, j | 0 <= i < |done| && 0 <= j < |done| ensures SharesHooks(done[i], done[j]) {
      assert SharesHooks(items[i], items[j]);
    }
  }

  /** The specs of a plan without a focus, in groups. */
  lemma {:induction false} GroupsCarry(items: seq<Item>, p: Plan, labels: seq<string>)
    requires Coherent(items) && Collected(items, p)
    ensures var units := UnitsOf(Resolved(items, labels));
            && AllProper(units) && RunsAre(AllRuns(units), p.specs, [""] + labels)
            && AllSkipped(units) == ResolveMarks(p.skipped, [""] + labels)
            && AllPending(units) == ResolveMarks(p.pending, [""] + labels)
  {
    ResolvedCoherent(items, labels);
    GroupsRunTheItems(Resolved(items, labels));
    RunsOfResolved(items, p.specs, labels);
    MarksResolved(items, Skip, labels);
    MarksResolved(items, Pending, labels);
    hide UnitsOf, Resolved, AllRuns, RunsAre, RunsOf, MarksOf, ResolveMarks, NumberedMarks, AllSkipped, AllPending;
  }

  lemma {:induction false} FocusCollected(items: seq<Item>, p: Plan)
    requires Collected(items, p)
    ensures Collected(FocusOnly(items), Filtered(p))
  {
    FocusedItemsAre(Reals(items), p.specs);
    FocusOfReals(items);
    hide Kept, FocusOnly, Reals, NumberedMarks, ItemsAre;
  }

  lemma {:induction false} ExcludedMarks(items: seq<Item>, p: Plan, labels: seq<string>)
    requires Collected(items, p) && p.excluded == []
    ensures multiset(Dropped(Resolved(items, labels))) == multiset(ResolveMarks(Filtered(p).excluded, [""] + labels))
  {
    DroppedResolved(items, labels);
    DroppedParts(items);
    DroppedSpecs(Reals(items), p.specs);
    assert p.excluded + Unfocused(p.specs) == Unfocused(p.specs);
    assert multiset(NumberedDropped(items)) == multiset(Filtered(p).excluded);
    hide Dropped, Resolved, NumberedDropped, Filtered, Unfocused;
    ResolveKeepsCounts(NumberedDropped(items), Filtered(p).excluded, [""] + labels);
  }

  lemma {:induction false} FocusedNamesKept(items: seq<Item>, p: Plan, labels: seq<string>)
    requires Collected(items, p)
    ensures FullNames(FocusOnly(Resolved(items, labels))) == FocusedNames(Kept(p.specs))
  {
    FocusResolved(items, labels);
    FocusedItemsAre(Reals(items), p.specs);
    FocusOfReals(items);
    FocusOnlyFacts(items);
    KeptNames(FocusOnly(items), Kept(p.specs));
    assert FullNames(Resolved(FocusOnly(items), labels)) == FullNames(FocusOnly(items));
    hide FocusOnly, Kept, Reals, ItemsAre;
  }

  /** Coalescing, batching and focusing change nothing of what the plan says. */
  lemma {:induction false} FinalizedCarries(items: seq<Item>, p: Plan, labels: seq<string>)
    requires Coherent(items) && Collected(items, p) && p.excluded == []
    ensures Carries(Finalized(Resolved(items, labels), AnyFocus(items)), Focused(p), [""] + labels)
  {
    FocusOfSpecs(items, p.specs);
    if AnyFocus(items) {
      FocusOnlyFacts(items);
      CoherentPart(items, FocusOnly(items));
      FocusCollected(items, p);
      GroupsCarry(FocusOnly(items), Filtered(p), labels);
      FocusResolved(items, labels);
      ExcludedMarks(items, p, labels);
      FocusedNamesKept(items, p, labels);
      assert Focused(p) == Filtered(p) && Filtered(p).specs == Kept(p.specs);
      hide FocusOnly, Kept, UnitsOf, Resolved, AllRuns, RunsAre, ResolveMarks, Filtered, AllSkipped, AllPending,
        Dropped, AnyFocus;
    } else {
      GroupsCarry(items, p, labels);
      KeptNone(p.specs);
      assert Focused(p) == p && ResolveMarks(p.excluded, [""] + labels) == [];
      hide FocusOnly, Kept, UnitsOf, Resolved, AllRuns, RunsAre, ResolveMarks, AllSkipped, AllPending, AnyFocus;
    }
  }

  lemma {:induction false} KeptNone(specs: seq<Spec>)
    requires Kept(specs) == []
    ensures FocusedNames(specs) == []
  {
    if specs != [] { KeptNone(specs[..|specs| - 1]); }
  }

  // ---- From the declarations to the program ----

  lemma {:induction false} AloneInTable(f: Forest)
    ensures Placed([], f, [], -1, false) && Table([], f, [], -1, false) == Rows(f, -1, 0, false)
    ensures Siblings([], -1) == []
  {
    var t := Rows(f, -1, 0, false);
    assert [] + t + [] == t;
  }

  lemma {:induction false} LabelsOfRows(f: Forest)
    ensures AllGroups(Rows(f, -1, 0, false))
    ensures [""] + LabelsOfTable(Rows(f, -1, 0, false)) == SuiteLabels("", f)
  {
    var t := Rows(f, -1, 0, false);
    RowPerGroup(f, -1, 0);
    AloneInTable(f);
    hide Rows, Placed, Table, LabelAt, ForestLabels, Siblings, Groups;
    assert [] + GroupNames(f) == GroupNames(f);
    forall id | 0 <= id < |t| ensures LabelAt(t, id) == ForestLabels(f, GroupNames(f), 0)[id] {
      LabelsOfPlaced([], f, [], -1, t, [], GroupNames(f), id);
    }
    assert LabelsOfTable(t) == ForestLabels(f, GroupNames(f), 0);
  }

  // ---- What the program shows ----

  lemma {:induction false} RunsShow(runs: seq<BuilderGroups.Run>, p: Plan, running: seq<Spot>, labels: seq<string>)
    requires RunsAre(runs, p.specs, labels) && SpecsAre(p.specs, running) && |runs| == |running|
    requires forall i :: 0 <= i < |runs| ==> (runs[i].fullName.None? <==> running[i].kind == Parallel)
    ensures forall i :: 0 <= i < |runs| ==> RunShows(runs[i], running[i], labels)
  {
    hide RunShows, SpecIs, RunIs;
    forall i | 0 <= i < |runs| ensures RunShows(runs[i], running[i], labels) {
      assert RunIs(runs[i], p.specs[i], labels) && SpecIs(p.specs[i], running[i]);
      OneRunShows(runs[i], p.specs[i], running[i], labels);
    }
  }

  lemma {:induction false} OneRunShows(r: BuilderGroups.Run, s: Spec, d: Spot, labels: seq<string>)
    requires RunIs(r, s, labels) && SpecIs(s, d) && (r.fullName.None? <==> d.kind == Parallel)
    ensures RunShows(r, d, labels)
  {
    NestedRuns(s.program, d.around, d.body);
    CompilersAgree.RouteIs(d.around, labels);
    CompilersAgree.ClippedIs(s, d);
    hide FullNameIs, Nested, NestedCalls, Fns, PathOf, Route, Ids, Breadcrumb;
  }

  /** A program that carries a plan shows what the plan declares. */
  lemma {:induction false} CarriedShows(program: BuilderGroups.Program, p: Plan, spots: seq<Spot>,
      scopes: seq<seq<Around>>, focus: bool, labels: seq<string>)
    requires Carries(program, p, labels) && PlanDeclares(p, spots, scopes, focus) && (focus <==> AnyFocused(spots))
    requires var running := Where(spots, Runs(focus));
      && |AllRuns(program.units)| == |running|
      && forall i :: 0 <= i < |running| ==> (AllRuns(program.units)[i].fullName.None? <==> running[i].kind == Parallel)
    ensures ProgramIs(program, spots, focus, labels)
  {
    hide *;
    var running := Where(spots, Runs(focus));
    CarriedParts(program, p, labels);
    CompilersAgree.PlanParts(p, spots, scopes, focus);
    CompilersAgree.FocusShows(p, spots, focus);
    RunsShow(AllRuns(program.units), p, running, labels);
    CompilersAgree.MarksShow(Where(spots, IsKind(Skip, focus)), labels);
    CompilersAgree.MarksShow(Where(spots, IsKind(Pending, focus)), labels);
    CompilersAgree.MarksKeepCounts(p.excluded, Where(spots, LosesFocus(focus)), labels);
    forall i | 0 <= i < |program.focusedNames| ensures FullNameIs(program.focusedNames[i], running[i], false) {
      SpecAt(p.specs, running, i);
      CompilersAgree.ClippedIs(p.specs[i], running[i]);
    }
    ProgramParts(program, spots, focus, labels);
  }

  lemma {:induction false} SpecAt(specs: seq<Spec>, spots: seq<Spot>, i: nat)
    requires SpecsAre(specs, spots) && i < |specs|
    ensures |spots| == |specs| && SpecIs(specs[i], spots[i])
  {
    hide SpecIs;
  }

  lemma {:induction false} CarriedParts(program: BuilderGroups.Program, p: Plan, labels: seq<string>)
    requires Carries(program, p, labels)
    ensures AllProper(program.units) && RunsAre(AllRuns(program.units), p.specs, labels)
    ensures AllSkipped(program.units) == ResolveMarks(p.skipped, labels)
    ensures AllPending(program.units) == ResolveMarks(p.pending, labels)
    ensures multiset(program.excluded) == multiset(ResolveMarks(p.excluded, labels))
    ensures program.excludedCount == |program.excluded| && program.focusedNames == FocusedNames(p.specs)
  {
    hide AllProper, AllRuns, RunsAre, AllSkipped, AllPending, ResolveMarks, FocusedNames;
  }

  lemma {:induction false} ProgramParts(program: BuilderGroups.Program, spots: seq<Spot>, focus: bool,
      labels: seq<string>)
    requires AllProper(program.units) && |AllRuns(program.units)| == |Where(spots, Runs(focus))|
    requires forall i :: 0 <= i < |AllRuns(program.units)| ==>
               RunShows(AllRuns(program.units)[i], Where(spots, Runs(focus))[i], labels)
    requires AllSkipped(program.units) == ShownMarks(Where(spots, IsKind(Skip, focus)), labels)
    requires AllPending(program.units) == ShownMarks(Where(spots, IsKind(Pending, focus)), labels)
    requires multiset(program.excluded) == multiset(ShownMarks(Where(spots, LosesFocus(focus)), labels))
    requires program.excludedCount == |program.excluded|
    requires |program.focusedNames| == if focus then |Where(spots, Runs(focus))| else 0
    requires forall i :: 0 <= i < |program.focusedNames| ==>
               FullNameIs(program.focusedNames[i], Where(spots, Runs(focus))[i], false)
    ensures ProgramIs(program, spots, focus, labels)
  {
    hide Where, AllRuns, RunShows, AllSkipped, AllPending, ShownMarks, FullNameIs, AllProper, Runs, IsKind, LosesFocus;
  }

  lemma {:induction false} AnyFocusIs(items: seq<Item>, spots: seq<Spot>)
    requires SameKinds(items, spots)
    ensures AnyFocus(items) <==> AnyFocused(spots)
  {
    if AnyFocused(spots) {
      var i :| 0 <= i < |spots| && spots[i].kind == Focus;
      assert items[i].kind == Focus;
    }
  }

  /** The runs of the items, focused or not, have full names as declared. */
  lemma {:induction false} FinalizedKinds(items: seq<Item>, spots: seq<Spot>, labels: seq<string>)
    requires Coherent(items) && SameKinds(items, spots)
    ensures var runs := AllRunsOf(Finalized(Resolved(items, labels), AnyFocus(items)));
            var running := Where(spots, Runs(AnyFocus(items)));
            && |runs| == |running|
            && forall i :: 0 <= i < |running| ==> (runs[i].fullName.None? <==> running[i].kind == Parallel)
  {
    var r := Resolved(items, labels);
    ResolvedCoherent(items, labels);
    RealKinds(r, spots);
    hide Where, UnitsOf, AllRuns, RunsOf, Resolved, Coherent;
    if AnyFocus(items) {
      FocusOnlyFacts(r);
      FocusReals(FocusOnly(r));
      CoherentPart(r, FocusOnly(r));
      GroupsRunTheItems(FocusOnly(r));
      RunsOfItems(FocusOnly(r), Where(spots, Runs(true)));
    } else {
      GroupsRunTheItems(r);
      RunsOfItems(r, Where(spots, Runs(false)));
    }
  }

  ghost function AllRunsOf(program: BuilderGroups.Program): seq<BuilderGroups.Run> {
    if AllProper(program.units) then AllRuns(program.units) else []
  }

  /** What a Builder collected and built shows what its calls declared. */
  lemma {:induction false} BuiltShows(a: Script, items: seq<Item>, table: seq<string>, labels: seq<string>)
    requires Coherent(items) && Declare(START, a).Declared? && items == Declare(START, a).d.pending
    requires [""] + table == labels
    requires Carries(Finalized(Resolved(items, table), AnyFocus(items)),
                     Focused(PlanOf("", HooksOf(a), ForestOf(a), false)), labels)
    ensures ProgramIs(Finalized(Resolved(items, table), AnyFocus(items)), AllSpots("", a),
                      AnyFocused(AllSpots("", a)), labels)
  {
    hide *;
    var spots, scopes, kids := AllSpots("", a), AllScopes("", a), ForestOf(a);
    AllKinds(a);
    ShownFocus(a, items, spots);
    FinalizedKinds(items, spots, table);
    FocusedIsFocusedBuild("", HooksOf(a), kids);
    PlanIsDeclared("", a, HasFocus(kids));
    var p := Focused(PlanOf("", HooksOf(a), kids, false));
    CompilersAgree.SamePlanDeclared(p, PlanOf("", HooksOf(a), kids, HasFocus(kids)), spots, scopes, HasFocus(kids));
    var program := Finalized(Resolved(items, table), AnyFocus(items));
    CarriedRuns(program, p, labels);
    CarriedShows(program, p, spots, scopes, HasFocus(kids), labels);
  }

  lemma {:induction false} RootSpots(a: Script)
    ensures AllSpots("", a) == Spots(a, [Around("", 0, a)], 1, 0)
  {
    var root := [Around("", 0, a)];
    assert [] + root == root;
    assert Spots(Done, [], 1 + DeclaredSuites.Scopes(a), 1) == [];
    assert Spots(Whole("", a), [], 0, 0)
           == Spots(a, [] + root, 1, 0) + Spots(Done, [], 1 + DeclaredSuites.Scopes(a), 1);
    hide Spots;
  }

  lemma {:induction false} AllKinds(a: Script)
    ensures Declare(START, a).Declared? ==> SameKinds(Declare(START, a).d.pending, AllSpots("", a))
  {
    var root := [Around("", 0, a)];
    RootSpots(a);
    KindsCollected(START, a, root, 1, 0, []);
    assert [] + Spots(a, root, 1, 0) == Spots(a, root, 1, 0);
    hide Spots, Declare, AllSpots;
  }

  lemma {:induction false} ShownFocus(a: Script, items: seq<Item>, spots: seq<Spot>)
    requires spots == AllSpots("", a) && SameKinds(items, spots)
    ensures AnyFocus(items) == AnyFocused(spots) == HasFocus(ForestOf(a))
  {
    hide *;
    CompilersAgree.SuiteFocus("", a);
    AnyFocusIs(items, spots);
  }

  lemma {:induction false} CarriedRuns(program: BuilderGroups.Program, p: Plan, labels: seq<string>)
    requires Carries(program, p, labels)
    ensures AllProper(program.units) && AllRunsOf(program) == AllRuns(program.units)
  {
    hide AllRuns, RunsAre, AllProper;
  }

  /** Declaring a suite on a Builder and building it. Either the first late hook
      panics; or the program runs the specs that one unnamed Describe around the
      same declarations compiles to, each with the same hooks around it, and shows
      just what the calls declared. */
  method BuildSuite(s: Script) returns (late: Option<LateHook>, program: Option<BuilderGroups.Program>)
    ensures late == Declarations.Late(Acted(s), false) && LateHooks.StopsAt(Acted(s), false, late)
    ensures program.Some? <==> late.None?
    ensures var f := ForestOf(Acted(s));
            late.None? ==> Carries(program.value, Focused(PlanOf("", HooksOf(Acted(s)), f, false)), SuiteLabels("", f))
    ensures late.None? ==>
              var spots := AllSpots("", Acted(s));
              ProgramIs(program.value, spots, AnyFocused(spots), SuiteLabels("", ForestOf(Acted(s))))
  {
    var a := Acted(s);
    LateHooks.LateIsFirst(a, false);
    BuilderCollectsThePlan(a);
    EqualKeysEqualHooks(a);
    PlanRanges("", HooksOf(a), ForestOf(a));
    LabelsOfRows(ForestOf(a));
    var b := new Builder();
    late := b.Call(s);
    if late.Some? { return late, None; }
    hide *;
    ghost var items := b.View().pending;
    assert b.View() == Declare(START, a).d;
    BuiltFrom(b, items);
    FinalizedCarries(items, PlanOf("", HooksOf(a), ForestOf(a), false), LabelsOfTable(b.table));
    BuiltShows(a, items, LabelsOfTable(b.table), SuiteLabels("", ForestOf(a)));
    var built := b.Build();
    program := Some(built);
  }

  lemma {:induction false} BuiltFrom(b: Builder, items: seq<Item>)
    requires b.Valid() && items == b.View().pending
    ensures items == b.pending && (b.hasFocus <==> AnyFocus(items)) && b.View().rows == b.table && AllGroups(b.table)
  {
  }

  // ---- Building again ----

  lemma {:induction false} OneUnfocusedFirst(items: seq<Item>)
    requires |items| == 2 && items[0].kind != Focus && items[1].kind == Focus
    ensures FocusOnly(items) == [items[1]] && Overwritten(items) == [items[1], items[1]]
    ensures FocusOnly([items[1], items[1]]) == [items[1], items[1]] && !FocusFirst(items)
  {
    assert items[..1] == [items[0]] && items[..1][..0] == [];
    assert FocusOnly(items[..1]) == FocusOnly(items[..1][..0]) + [];
    var twice := [items[1], items[1]];
    assert twice[..1] == [items[1]] && twice[..1][..0] == [];
    assert FocusOnly(twice[..1]) == FocusOnly(twice[..1][..0]) + [items[1]];
  }

  lemma {:induction false} ResolvedTwo(items: seq<Item>, labels: seq<string>)
    requires |items| == 2
    ensures |Resolved(items, labels)| == 2 && forall i :: 0 <= i < 2 ==>
              Resolved(items, labels)[i].kind == items[i].kind &&
                  Resolved(items, labels)[i].fullName == items[i].fullName
  {
  }

  lemma {:induction false} TwoBuilds(items: seq<Item>, labels: seq<string>, left: seq<Item>)
    requires |items| == 2 && items[0].kind == Normal && items[1].kind == Focus && items[1].fullName == "b"
    requires var r := Resolved(items, labels); |FocusOnly(r)| <= |r| && left == Overwritten(r)
    ensures Finalized(Resolved(items, labels), true).focusedNames == ["b"]
    ensures Finalized(Resolved(left, labels), true).focusedNames == ["b", "b"]
  {
    ResolvedTwo(items, labels);
    var r := Resolved(items, labels);
    OneUnfocusedFirst(r);
    ResolvedTwo(left, labels);
    FocusedTwice(Resolved(left, labels));
    hide FocusOnly, Resolved, UnitsOf, Dropped, Overwritten;
  }

  lemma {:induction false} FocusedTwice(items: seq<Item>)
    requires |items| == 2 && items[0].kind == Focus && items[1].kind == Focus
    ensures FocusOnly(items) == items
  {
    assert items[..1] == [items[0]] && items[..1][..0] == [];
    assert FocusOnly(items[..1]) == FocusOnly(items[..1][..0]) + [items[0]];
  }

  method ItThenFIt(x: Fn, y: Fn) returns (b: Builder)
    ensures fresh(b) && b.Valid() && b.hasFocus && |b.pending| == 2
    ensures b.pending[0].kind == Normal && b.pending[1].kind == Focus && b.pending[1].fullName == "b"
  {
    b := new Builder();
    b.It("a", Some(x));
    b.FIt("b", Some(y));
    assert Joined([], "b") == "b";
    assert b.View().pending[1].kind == Focus;
  }

  /** A suite whose second Build is another program: It("a"), then FIt("b"). The
      first keeps b, the second has it twice. */
  method BuildAgain(x: Fn, y: Fn) returns (once: BuilderGroups.Program, again: BuilderGroups.Program)
    ensures once.focusedNames == ["b"] && again.focusedNames == ["b", "b"]
  {
    var b := ItThenFIt(x, y);
    ghost var items, labels := b.pending, LabelsOfTable(b.table);
    hide *;
    once := b.Build();
    TwoBuilds(items, labels, b.pending);
    again := b.Build();
  }
}
