/** Turning the pending specs of a Builder into groups: neighbouring specs with
    one key share a group, neighbouring parallel specs a batch, and a skipped or
    pending name goes to the next group there is. */
module BuilderGroups {
  import opened Options
  import opened Declarations
  import opened Suites
  import opened BuilderItems

  datatype Batched = Batched(name: string, path: seq<string>, steps: seq<Step>)

  /** One group of a program; a batch of parallel specs has no specs of its own. */
  datatype Unit = Unit(
    before: seq<Fn>, bodies: seq<Option<Fn>>, names: seq<string>, fullNames: seq<string>, paths: seq<seq<string>>,
    after: seq<Fn>, key: string, batch: seq<Batched>, skipped: seq<SuiteMark>, pending: seq<SuiteMark>)

  datatype Program = Program(units: seq<Unit>, focusedNames: seq<string>, excluded: seq<SuiteMark>, excludedCount: nat)

  /** What is still to be attached, and what the next spec may join. */
  datatype Mode = Apart | Joining | Batching

  datatype Grouping = Grouping(units: seq<Unit>, mode: Mode, skipped: seq<SuiteMark>, pending: seq<SuiteMark>)

  function MarkOf(x: Item): SuiteMark {
    SuiteMark(x.name, x.path)
  }

  function BatchedOf(x: Item): Batched {
    Batched(x.name, x.path, x.steps)
  }

  function Join(u: Unit, x: Item, skipped: seq<SuiteMark>, pending: seq<SuiteMark>): Unit {
    u.(bodies := u.bodies + [x.body], names := u.names + [x.name], fullNames := u.fullNames + [x.fullName],
       paths := u.paths + [x.path], skipped := u.skipped + skipped, pending := u.pending + pending)
  }

  function Alone(x: Item, skipped: seq<SuiteMark>, pending: seq<SuiteMark>): Unit {
    Unit(x.before, [x.body], [x.name], [x.fullName], [x.path], x.after, x.key, [], skipped, pending)
  }

  function BatchOf(batch: seq<Batched>, skipped: seq<SuiteMark>, pending: seq<SuiteMark>): Unit {
    Unit([], [], [], [], [], [], "", batch, skipped, pending)
  }

  function WithLast(units: seq<Unit>, u: Unit): seq<Unit>
    requires units != []
  {
    units[..|units| - 1] + [u]
  }

  function AddItem(g: Grouping, x: Item): (h: Grouping)
    requires g.mode != Apart ==> g.units != []
    ensures h.mode != Apart ==> h.units != []
  {
    match x.kind
    case Skip => g.(skipped := g.skipped + [MarkOf(x)], mode := if g.mode == Batching then Apart else g.mode)
    case Pending => g.(pending := g.pending + [MarkOf(x)], mode := if g.mode == Batching then Apart else g.mode)
    case Parallel =>
      if g.mode == Batching then
        var u := g.units[|g.units| - 1];
        g.(units := WithLast(g.units, u.(batch := u.batch + [BatchedOf(x)])))
      else
        Grouping(g.units + [BatchOf([BatchedOf(x)], g.skipped, g.pending)], Batching, [], [])
    case _ =>
      if g.mode == Joining && g.units[|g.units| - 1].key == x.key then
        Grouping(WithLast(g.units, Join(g.units[|g.units| - 1], x, g.skipped, g.pending)), Joining, [], [])
      else
        Grouping(g.units + [Alone(x, g.skipped, g.pending)], Joining, [], [])
  }

  function Grouped(items: seq<Item>): (g: Grouping)
    ensures g.mode != Apart ==> g.units != []
  {
    if items == [] then Grouping([], Apart, [], []) else AddItem(Grouped(items[..|items| - 1]), items[|items| - 1])
  }

  /** Names left over make a group of their own. */
  function UnitsOf(items: seq<Item>): seq<Unit> {
    var g := Grouped(items);
    if g.skipped == [] && g.pending == [] then g.units else g.units + [BatchOf([], g.skipped, g.pending)]
  }

  function FocusOnly(items: seq<Item>): seq<Item> {
    if items == [] then []
    else FocusOnly(items[..|items| - 1]) + if items[|items| - 1].kind == Focus then [items[|items| - 1]] else []
  }

  function Dropped(items: seq<Item>): seq<SuiteMark> {
    if items == [] then []
    else Dropped(items[..|items| - 1]) + if items[|items| - 1].kind == Focus then [] else [MarkOf(items[|items| - 1])]
  }

  function FullNames(items: seq<Item>): (names: seq<string>)
    ensures |names| == |items|
  {
    seq(|items|, i requires 0 <= i < |items| => items[i].fullName)
  }

  function Finalized(items: seq<Item>, focus: bool): Program {
    if focus then Program(UnitsOf(FocusOnly(items)), FullNames(FocusOnly(items)), Dropped(items), |Dropped(items)|)
    else Program(UnitsOf(items), [], [], 0)
  }

  // ---- The loops ----

  lemma {:induction false} GroupedStep(items: seq<Item>, i: nat)
    requires i < |items|
    ensures Grouped(items[..i + 1]) == AddItem(Grouped(items[..i]), items[i])
  {
    assert items[..i + 1][..i] == items[..i];
  }

  /** The parallel specs from place i on, up to the next other one. */
  method TakeBatch(items: seq<Item>, i: nat) returns (batch: seq<Batched>, j: nat)
    requires i < |items| && items[i].kind == Parallel && Grouped(items[..i]).mode != Batching
    ensures i < j <= |items| && (j < |items| ==> items[j].kind != Parallel)
    ensures var g := Grouped(items[..i]);
            Grouped(items[..j]) == Grouping(g.units + [BatchOf(batch, g.skipped, g.pending)], Batching, [], [])
  {
    ghost var g := Grouped(items[..i]);
    GroupedStep(items, i);
    BatchBegins(g, items[i]);
    hide *;
    batch, j := [BatchedOf(items[i])], i + 1;
    while j < |items| && items[j].kind == Parallel
      invariant i < j <= |items|
      invariant Grouped(items[..j]) == Grouping(g.units + [BatchOf(batch, g.skipped, g.pending)], Batching, [], [])
    {
      var x := items[j];
      GroupedStep(items, j);
      BatchGrows(g, batch, x);
      batch := batch + [BatchedOf(x)];
      j := j + 1;
    }
  }

  lemma {:induction false} BatchBegins(g: Grouping, x: Item)
    requires x.kind == Parallel && g.mode != Batching && (g.mode != Apart ==> g.units != [])
    ensures AddItem(g, x) == Grouping(g.units + [BatchOf([BatchedOf(x)], g.skipped, g.pending)], Batching, [], [])
  {
  }

  lemma {:induction false} BatchGrows(g: Grouping, batch: seq<Batched>, x: Item)
    requires x.kind == Parallel
    ensures AddItem(Grouping(g.units + [BatchOf(batch, g.skipped, g.pending)], Batching, [], []), x)
            == Grouping(g.units + [BatchOf(batch + [BatchedOf(x)], g.skipped, g.pending)], Batching, [], [])
  {
    var u := BatchOf(batch, g.skipped, g.pending);
    assert (g.units + [u])[..|g.units|] == g.units;
  }

  method Coalesce(items: seq<Item>) returns (units: seq<Unit>)
    ensures units == UnitsOf(items)
  {
    var i := 0;
    var current := -1;
    var skipped: seq<SuiteMark>, pending: seq<SuiteMark> := [], [];
    units := [];
    while i < |items|
      invariant 0 <= i <= |items| && -1 <= current < |units|
      invariant var g := Grouped(items[..i]);
                && g.units == units && g.skipped == skipped && g.pending == pending
                && (g.mode == Joining <==> current >= 0) && (current >= 0 ==> current == |units| - 1)
                && (g.mode == Batching && i < |items| ==> items[i].kind != Parallel)
    {
      hide Grouped, Join, Alone, BatchOf;
      var x := items[i];
      GroupedStep(items, i);
      if x.kind == Skip {
        skipped := skipped + [MarkOf(x)];
        i := i + 1;
      } else if x.kind == Pending {
        pending := pending + [MarkOf(x)];
        i := i + 1;
      } else if x.kind == Parallel {
        current := -1;
        var batch, j := TakeBatch(items, i);
        units := units + [BatchOf(batch, skipped, pending)];
        skipped, pending := [], [];
        i := j;
      } else if current >= 0 && units[current].key == x.key {
        units := units[..current] + [Join(units[current], x, skipped, pending)];
        skipped, pending := [], [];
        i := i + 1;
      } else {
        units := units + [Alone(x, skipped, pending)];
        skipped, pending := [], [];
        current := |units| - 1;
        i := i + 1;
      }
    }
    assert items[..i] == items;
    if |skipped| > 0 || |pending| > 0 {
      units := units + [BatchOf([], skipped, pending)];
    }
  }

  /** Only the focused specs, in the array of all of them: the kept ones take
      its first places, the rest of it stays. */
  method FilterFocused(items: seq<Item>) returns (kept: seq<Item>, slots: seq<Item>, names: seq<string>,
      excluded: seq<SuiteMark>)
    ensures kept == FocusOnly(items) && names == FullNames(kept) && excluded == Dropped(items)
    ensures |kept| <= |items| && slots == kept + items[|kept|..]
  {
    slots, names, excluded := items, [], [];
    var n, i := 0, 0;
    while i < |items|
      invariant 0 <= n <= i <= |items| == |slots|
      invariant slots[..n] == FocusOnly(items[..i]) && names == FullNames(slots[..n]) && excluded == Dropped(items[..i])
      invariant slots[n..] == items[n..]
    {
      var x := slots[i];
      assert slots[i] == slots[n..][i - n] == items[i];
      assert items[..i + 1][..i] == items[..i];
      if x.kind == Focus {
        ghost var was := slots[..n];
        slots := slots[n := x];
        assert slots[..n + 1] == was + [x];
        assert FullNames(was + [x]) == FullNames(was) + [x.fullName];
        names := names + [x.fullName];
        n := n + 1;
      } else {
        excluded := excluded + [MarkOf(x)];
      }
      i := i + 1;
    }
    assert items[..i] == items;
    kept := slots[..n];
  }

  // ---- What running the groups does ----

  /** One spec as it is run. Only a sequential one has a breadcrumb. */
  datatype Run = Run(name: string, fullName: Option<string>, path: seq<string>, calls: seq<Fn>)

  function Reversed(s: seq<Fn>): (r: seq<Fn>)
    ensures |r| == |s|
  {
    seq(|s|, i requires 0 <= i < |s| => s[|s| - 1 - i])
  }

  /** The hooks before it, the body, and those after it in reverse. */
  function Calls(before: seq<Fn>, body: Option<Fn>, after: seq<Fn>): seq<Fn> {
    before + Opt(body) + Reversed(after)
  }

  function StepCall(s: Step): seq<Fn> {
    match s
    case Plain(fn) => [fn]
    case Guarded(before, body, after) => Calls(before, body, after)
  }

  function StepCalls(steps: seq<Step>): seq<Fn> {
    if steps == [] then [] else StepCalls(steps[..|steps| - 1]) + StepCall(steps[|steps| - 1])
  }

  ghost predicate Proper(u: Unit) {
    |u.bodies| == |u.names| == |u.fullNames| == |u.paths| && (u.batch != [] ==> u.bodies == [])
  }

  function SequentialRun(u: Unit, i: nat): Run
    requires Proper(u) && i < |u.bodies|
  {
    Run(u.names[i], Some(u.fullNames[i]), u.paths[i], Calls(u.before, u.bodies[i], u.after))
  }

  function BatchedRun(b: Batched): Run {
    Run(b.name, None, b.path, StepCalls(b.steps))
  }

  /** Every spec of a group gets the hooks the group was made with. */
  function UnitRuns(u: Unit): seq<Run>
    requires Proper(u)
  {
    if u.batch == [] then seq(|u.bodies|, i requires 0 <= i < |u.bodies| => SequentialRun(u, i))
    else seq(|u.batch|, i requires 0 <= i < |u.batch| => BatchedRun(u.batch[i]))
  }

  ghost predicate AllProper(units: seq<Unit>) {
    forall i :: 0 <= i < |units| ==> Proper(units[i])
  }

  function AllRuns(units: seq<Unit>): seq<Run>
    requires AllProper(units)
  {
    if units == [] then [] else AllRuns(units[..|units| - 1]) + UnitRuns(units[|units| - 1])
  }

  function AllSkipped(units: seq<Unit>): seq<SuiteMark> {
    if units == [] then [] else AllSkipped(units[..|units| - 1]) + units[|units| - 1].skipped
  }

  function AllPending(units: seq<Unit>): seq<SuiteMark> {
    if units == [] then [] else AllPending(units[..|units| - 1]) + units[|units| - 1].pending
  }

  /** A spec with the hooks captured when it was registered. */
  function RunOf(x: Item): Run {
    if x.kind == Parallel then Run(x.name, None, x.path, StepCalls(x.steps))
    else Run(x.name, Some(x.fullName), x.path, Calls(x.before, x.body, x.after))
  }

  function RunsOf(items: seq<Item>): seq<Run> {
    if items == [] then []
    else RunsOf(items[..|items| - 1]) + if Real(items[|items| - 1]) then [RunOf(items[|items| - 1])] else []
  }

  function MarksOf(items: seq<Item>, kind: Kind): seq<SuiteMark> {
    if items == [] then []
    else
      MarksOf(items[..|items| - 1], kind) +
      if items[|items| - 1].kind == kind then [MarkOf(items[|items| - 1])] else []
  }

  lemma {:induction false} RunsSnoc(units: seq<Unit>, u: Unit)
    requires AllProper(units) && Proper(u)
    ensures AllProper(units + [u]) && AllRuns(units + [u]) == AllRuns(units) + UnitRuns(u)
    ensures AllSkipped(units + [u]) == AllSkipped(units) + u.skipped
    ensures AllPending(units + [u]) == AllPending(units) + u.pending
  {
    assert (units + [u])[..|units|] == units;
  }

  /** The last sequential spec. */
  function LastSequential(items: seq<Item>): Option<Item> {
    if items == [] then None
    else if Sequential(items[|items| - 1]) then Some(items[|items| - 1])
    else LastSequential(items[..|items| - 1])
  }

  lemma {:induction false} LastIsOne(items: seq<Item>) returns (k: nat)
    requires LastSequential(items).Some?
    ensures k < |items| && Sequential(items[k]) && items[k] == LastSequential(items).value
  {
    k := |items| - 1;
    if !Sequential(items[k]) { k := LastIsOne(items[..k]); }
  }

  /** The group a spec may join has the hooks of the last sequential spec. */
  ghost predicate Current(g: Grouping, items: seq<Item>) {
    && (g.mode == Joining ==>
          && g.units != [] && LastSequential(items).Some?
          && var u, y := g.units[|g.units| - 1], LastSequential(items).value;
             u.batch == [] && u.key == y.key && u.before == y.before && u.after == y.after)
    && (g.mode == Batching ==>
          g.units != [] && g.skipped == [] && g.pending == [] && g.units[|g.units| - 1].batch != [])
  }

  /** Nothing is lost: what the groups run, skip and leave pending is what the
      items say, in order. */
  ghost predicate Conserves(g: Grouping, items: seq<Item>) {
    && AllProper(g.units) && AllRuns(g.units) == RunsOf(items)
    && AllSkipped(g.units) + g.skipped == MarksOf(items, Skip)
    && AllPending(g.units) + g.pending == MarksOf(items, Pending)
  }

  lemma {:induction false} JoinRuns(u: Unit, x: Item, skipped: seq<SuiteMark>, pending: seq<SuiteMark>)
    requires Proper(u) && u.batch == [] && Sequential(x) && u.before == x.before && u.after == x.after
    ensures Proper(Join(u, x, skipped, pending)) && UnitRuns(Join(u, x, skipped, pending)) == UnitRuns(u) + [RunOf(x)]
  {
    hide Calls, StepCalls;
  }

  lemma {:induction false} AloneRuns(x: Item, skipped: seq<SuiteMark>, pending: seq<SuiteMark>)
    requires Sequential(x)
    ensures Proper(Alone(x, skipped, pending)) && UnitRuns(Alone(x, skipped, pending)) == [RunOf(x)]
  {
    hide Calls, StepCalls;
  }

  lemma {:induction false} BatchRuns(u: Unit, x: Item)
    requires Proper(u) && u.batch != [] && x.kind == Parallel
    ensures var v := u.(batch := u.batch + [BatchedOf(x)]); Proper(v) && UnitRuns(v) == UnitRuns(u) + [RunOf(x)]
  {
    hide Calls, StepCalls;
  }

  lemma {:induction false} NewBatchRuns(x: Item, skipped: seq<SuiteMark>, pending: seq<SuiteMark>)
    requires x.kind == Parallel
    ensures var u := BatchOf([BatchedOf(x)], skipped, pending); Proper(u) && UnitRuns(u) == [RunOf(x)]
  {
    hide Calls, StepCalls;
  }

  /** Growing the last group adds just what it grows by. */
  lemma {:induction false} EndGrows(
    front: seq<Unit>, u: Unit, v: Unit, x: Run, skipped: seq<SuiteMark>, pending: seq<SuiteMark>)
    requires AllProper(front) && Proper(u) && Proper(v) && UnitRuns(v) == UnitRuns(u) + [x]
    requires v.skipped == u.skipped + skipped && v.pending == u.pending + pending
    ensures AllProper(front + [v]) && AllProper(front + [u]) && AllRuns(front + [v]) == AllRuns(front + [u]) + [x]
    ensures AllSkipped(front + [v]) == AllSkipped(front + [u]) + skipped
    ensures AllPending(front + [v]) == AllPending(front + [u]) + pending
  {
    hide *;
    RunsSnoc(front, u);
    RunsSnoc(front, v);
  }

  lemma {:induction false} LastGrows(units: seq<Unit>, v: Unit, x: Run, skipped: seq<SuiteMark>,
      pending: seq<SuiteMark>)
    requires units != [] && AllProper(units) && Proper(v) && UnitRuns(v) == UnitRuns(units[|units| - 1]) + [x]
    requires v.skipped == units[|units| - 1].skipped + skipped && v.pending == units[|units| - 1].pending + pending
    ensures var more := WithLast(units, v);
            && AllProper(more) && AllRuns(more) == AllRuns(units) + [x]
            && AllSkipped(more) == AllSkipped(units) + skipped && AllPending(more) == AllPending(units) + pending
  {
    hide AllRuns, AllSkipped, AllPending, UnitRuns, Proper;
    var front, u := units[..|units| - 1], units[|units| - 1];
    assert units == front + [u];
    EndGrows(front, u, v, x, skipped, pending);
  }

  lemma {:induction false} ItemsSnoc(items: seq<Item>, x: Item)
    ensures RunsOf(items + [x]) == RunsOf(items) + if Real(x) then [RunOf(x)] else []
    ensures MarksOf(items + [x], Skip) == MarksOf(items, Skip) + if x.kind == Skip then [MarkOf(x)] else []
    ensures MarksOf(items + [x], Pending) == MarksOf(items, Pending) + if x.kind == Pending then [MarkOf(x)] else []
    ensures LastSequential(items + [x]) == if Sequential(x) then Some(x) else LastSequential(items)
    ensures Grouped(items + [x]) == AddItem(Grouped(items), x)
  {
    assert (items + [x])[..|items|] == items;
  }

  /** Where the keys are equal, so are the hooks. */
  lemma {:induction false} JoinedHooks(g: Grouping, items: seq<Item>, x: Item)
    requires Current(g, items) && Coherent(items + [x]) && Sequential(x)
    requires g.mode == Joining && g.units[|g.units| - 1].key == x.key
    ensures var u := g.units[|g.units| - 1]; u.batch == [] && u.before == x.before && u.after == x.after
  {
    var k := LastIsOne(items);
    assert (items + [x])[k] == items[k] && (items + [x])[|items|] == x;
    assert SharesHooks((items + [x])[k], (items + [x])[|items|]);
  }

  lemma {:induction false} ConservesStep(g: Grouping, items: seq<Item>, x: Item)
    requires Conserves(g, items) && Current(g, items) && Coherent(items + [x])
    ensures (g.mode != Apart ==> g.units != []) && Conserves(AddItem(g, x), items + [x])
  {
    ItemsSnoc(items, x);
    hide RunsOf, MarksOf, LastSequential, Grouped, RunOf, UnitRuns, AllRuns, AllSkipped, AllPending;
    hide Join;
    var n := |g.units|;
    match x.kind
    case Skip =>
    case Pending =>
    case Parallel =>
      if g.mode == Batching {
        var u := g.units[n - 1];
        BatchRuns(u, x);
        LastGrows(g.units, u.(batch := u.batch + [BatchedOf(x)]), RunOf(x), [], []);
      } else {
        NewBatchRuns(x, g.skipped, g.pending);
        NewUnit(g, BatchOf([BatchedOf(x)], g.skipped, g.pending), RunOf(x));
      }
    case _ =>
      if g.mode == Joining && g.units[n - 1].key == x.key {
        JoinedHooks(g, items, x);
        JoinRuns(g.units[n - 1], x, g.skipped, g.pending);
        JoinMarks(g.units[n - 1], x, g.skipped, g.pending);
        LastGrows(g.units, Join(g.units[n - 1], x, g.skipped, g.pending), RunOf(x), g.skipped, g.pending);
      } else {
        AloneRuns(x, g.skipped, g.pending);
        NewUnit(g, Alone(x, g.skipped, g.pending), RunOf(x));
      }
  }

  lemma {:induction false} JoinMarks(u: Unit, x: Item, skipped: seq<SuiteMark>, pending: seq<SuiteMark>)
    ensures var v := Join(u, x, skipped, pending); v.skipped == u.skipped + skipped && v.pending == u.pending + pending
  {
  }

  lemma {:induction false} NewUnit(g: Grouping, u: Unit, x: Run)
    requires AllProper(g.units) && Proper(u) && UnitRuns(u) == [x]
    ensures var more := g.units + [u];
            && AllProper(more) && AllRuns(more) == AllRuns(g.units) + [x]
            && AllSkipped(more) == AllSkipped(g.units) + u.skipped &&
                AllPending(more) == AllPending(g.units) + u.pending
  {
    RunsSnoc(g.units, u);
  }

  lemma {:induction false} CurrentStep(g: Grouping, items: seq<Item>, x: Item)
    requires Current(g, items) && (g.mode != Apart ==> g.units != []) && Coherent(items + [x])
    ensures Current(AddItem(g, x), items + [x])
  {
    ItemsSnoc(items, x);
    hide RunsOf, MarksOf, LastSequential, Grouped;
    if Sequential(x) && g.mode == Joining && g.units[|g.units| - 1].key == x.key {
      JoinedHooks(g, items, x);
      hide Coherent;
      var u := Join(g.units[|g.units| - 1], x, g.skipped, g.pending);
      assert WithLast(g.units, u)[|g.units| - 1] == u;
    }
    hide Coherent;
  }

  lemma {:induction false} GroupedConserves(items: seq<Item>)
    requires Coherent(items)
    ensures Conserves(Grouped(items), items) && Current(Grouped(items), items)
  {
    if items != [] {
      var front, x := items[..|items| - 1], items[|items| - 1];
      assert items == front + [x];
      assert Coherent(front) by { CoherentPart(items, front); }
      GroupedConserves(front);
      ConservesStep(Grouped(front), front, x);
      CurrentStep(Grouped(front), front, x);
      ItemsSnoc(front, x);
    }
  }

  lemma {:induction false} CoherentPart(items: seq<Item>, part: seq<Item>)
    requires Coherent(items) && forall i :: 0 <= i < |part| ==> part[i] in items
    ensures Coherent(part)
  {
    forall i, j | 0 <= i < |part| && 0 <= j < |part| ensures SharesHooks(part[i], part[j]) {
      assert part[i] in items && part[j] in items;
      var a :| 0 <= a < |items| && items[a] == part[i];
      var b :| 0 <= b < |items| && items[b] == part[j];
      assert SharesHooks(items[a], items[b]);
    }
  }

  /** Running the groups runs every spec once, in order, each with the hooks
      captured at its own registration; every skipped and pending name is in
      one group. */
  lemma {:induction false} GroupsRunTheItems(items: seq<Item>)
    requires Coherent(items)
    ensures AllProper(UnitsOf(items)) && AllRuns(UnitsOf(items)) == RunsOf(items)
    ensures AllSkipped(UnitsOf(items)) == MarksOf(items, Skip) && AllPending(UnitsOf(items)) == MarksOf(items, Pending)
  {
    GroupedConserves(items);
    var g := Grouped(items);
    var u := BatchOf([], g.skipped, g.pending);
    RunsSnoc(g.units, u);
    assert UnitRuns(u) == [];
    assert AllRuns(g.units) + [] == AllRuns(g.units);
    hide UnitRuns, Grouped, AllRuns, RunsOf, MarksOf;
  }

  // ---- Building twice ----

  /** No unfocused spec comes before a focused one. */
  ghost predicate FocusFirst(items: seq<Item>) {
    forall i, j :: 0 <= i < j < |items| && items[j].kind == Focus ==> items[i].kind == Focus
  }

  /** The array after a focused build. */
  function Overwritten(items: seq<Item>): seq<Item>
    requires |FocusOnly(items)| <= |items|
  {
    FocusOnly(items) + items[|FocusOnly(items)|..]
  }

  lemma {:induction false} FocusOnlyFacts(items: seq<Item>)
    ensures |FocusOnly(items)| <= |items|
    ensures forall i :: 0 <= i < |FocusOnly(items)| ==>
              FocusOnly(items)[i].kind == Focus && FocusOnly(items)[i] in items
    ensures |FocusOnly(items)| + |Dropped(items)| == |items|
  {
    if items != [] { FocusOnlyFacts(items[..|items| - 1]); }
  }

  lemma {:induction false} FocusOnlyAll(items: seq<Item>)
    requires forall i :: 0 <= i < |items| ==> items[i].kind == Focus
    ensures FocusOnly(items) == items && Dropped(items) == []
  {
    if items != [] {
      FocusOnlyAll(items[..|items| - 1]);
      assert items == items[..|items| - 1] + [items[|items| - 1]];
    }
  }

  lemma {:induction false} FocusOnlyConcat(a: seq<Item>, b: seq<Item>)
    ensures FocusOnly(a + b) == FocusOnly(a) + FocusOnly(b) && Dropped(a + b) == Dropped(a) + Dropped(b)
  {
    if b == [] {
      assert a + b == a;
    } else {
      var n := |b| - 1;
      assert (a + b)[..|a| + n] == a + b[..n];
      FocusOnlyConcat(a, b[..n]);
    }
  }

  lemma {:induction false} NoneFocused(items: seq<Item>)
    ensures FocusOnly(items) == [] <==> forall i :: 0 <= i < |items| ==> items[i].kind != Focus
  {
    if items != [] {
      NoneFocused(items[..|items| - 1]);
      assert items == items[..|items| - 1] + [items[|items| - 1]];
    }
  }

  lemma {:induction false} SomeUnfocused(items: seq<Item>) returns (i: nat)
    requires |FocusOnly(items)| < |items|
    ensures i < |items| && items[i].kind != Focus
  {
    i := |items| - 1;
    if items[i].kind == Focus { i := SomeUnfocused(items[..i]); }
  }

  lemma {:induction false} SomeFocused(items: seq<Item>) returns (i: nat)
    requires FocusOnly(items) != []
    ensures i < |items| && items[i].kind == Focus
  {
    i := |items| - 1;
    if items[i].kind != Focus { i := SomeFocused(items[..i]); }
  }

  lemma {:induction false} HeadThenTail(head: seq<Item>, tail: seq<Item>)
    requires |FocusOnly(head)| == |head| && FocusOnly(tail) == []
    ensures FocusFirst(head + tail) && FocusOnly(head) == head
  {
    NoneFocused(tail);
    FullFocus(head);
    FocusOnlyAll(head);
    hide FocusOnly;
  }

  /** Where the focused specs come first, they are the first ones. */
  lemma {:induction false} FocusFirstPrefix(items: seq<Item>)
    ensures |FocusOnly(items)| <= |items|
    ensures FocusFirst(items) <==> FocusOnly(items[|FocusOnly(items)|..]) == []
    ensures FocusFirst(items) ==> Overwritten(items) == items
  {
    FocusOnlyFacts(items);
    var k := |FocusOnly(items)|;
    var head, tail := items[..k], items[k..];
    assert items == head + tail;
    FocusOnlyConcat(head, tail);
    hide FocusOnly, Dropped;
    if FocusOnly(tail) == [] {
      HeadThenTail(head, tail);
    } else {
      var i := SomeUnfocused(head);
      var j := SomeFocused(tail);
      assert items[i].kind != Focus && items[k + j].kind == Focus;
    }
  }

  lemma {:induction false} FullFocus(items: seq<Item>)
    requires |FocusOnly(items)| == |items|
    ensures forall i :: 0 <= i < |items| ==> items[i].kind == Focus
  {
    if items != [] {
      FocusOnlyFacts(items[..|items| - 1]);
      FullFocus(items[..|items| - 1]);
    }
  }

  /** Building a focused suite again gives the same program exactly when no
      unfocused spec was declared before a focused one. */
  lemma {:induction false} BuildingTwice(items: seq<Item>)
    ensures |FocusOnly(items)| <= |items|
    ensures Finalized(Overwritten(items), true) == Finalized(items, true) <==> FocusFirst(items)
  {
    FocusFirstPrefix(items);
    FocusOnlyFacts(items);
    var kept := FocusOnly(items);
    FocusOnlyConcat(kept, items[|kept|..]);
    FocusOnlyAll(kept);
    hide UnitsOf, FocusOnly, Dropped, FocusFirst;
  }
}
