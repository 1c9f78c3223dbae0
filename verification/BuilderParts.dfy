/** Which specs share a group: the groups cut the items into neighbouring parts,
    as few as can be. */
module BuilderParts {
  import opened Declarations
  import opened Suites
  import opened BuilderItems
  import opened BuilderGroups
  import Sequences

  function Sequentials(items: seq<Item>): seq<Item> {
    if items == [] then []
    else Sequentials(items[..|items| - 1]) + if Sequential(items[|items| - 1]) then [items[|items| - 1]] else []
  }

  function Parallels(items: seq<Item>): seq<Batched> {
    if items == [] then []
    else
      var x := items[|items| - 1];
      Parallels(items[..|items| - 1]) + if x.kind == Parallel then [Batched(x.name, x.path, x.steps)] else []
  }

  predicate OnlyMarks(items: seq<Item>) {
    forall i :: 0 <= i < |items| ==> !Real(items[i])
  }

  /** Place k of a group is this spec. */
  predicate Holds(u: Unit, k: nat, x: Item)
    requires k < |u.bodies| == |u.names| == |u.fullNames| == |u.paths|
  {
    u.bodies[k] == x.body && u.names[k] == x.name && u.fullNames[k] == x.fullName && u.paths[k] == x.path
    && x.key == u.key
  }

  /** A group is made of one part of the items: their marks; and either specs of one
      key, or parallel specs with nothing between them. */
  ghost predicate PartIs(u: Unit, part: seq<Item>) {
    var specs := Sequentials(part);
    && part != [] && u.skipped == MarksOf(part, Skip) && u.pending == MarksOf(part, Pending)
    && u.batch == Parallels(part) && (u.batch != [] ==> specs == [])
    && (forall i, j :: 0 <= i < j < |part| && part[i].kind == Parallel ==> part[j].kind == Parallel)
    && |u.bodies| == |u.names| == |u.fullNames| == |u.paths| == |specs|
    && (forall k :: 0 <= k < |specs| ==> Holds(u, k, specs[k]))
    && (specs != [] ==> u.before == specs[0].before && u.after == specs[0].after)
  }

  /** A part could not have been joined to the one before. */
  ghost predicate Separate(u: Unit, part: seq<Item>, v: Unit, next: seq<Item>) {
    && PartIs(u, part) && PartIs(v, next) && Real(part[|part| - 1])
    && !(u.bodies != [] && v.bodies != [] && u.key == v.key)
    && !(u.batch != [] && next[0].kind == Parallel)
  }

  function Together(parts: seq<seq<Item>>): seq<Item> {
    if parts == [] then [] else Together(parts[..|parts| - 1]) + parts[|parts| - 1]
  }

  /** The groups, in order, are the parts of all the items. */
  ghost predicate Parted(units: seq<Unit>, parts: seq<seq<Item>>) {
    && |units| == |parts| && (forall i :: 0 <= i < |units| ==> PartIs(units[i], parts[i]))
    && forall i :: 0 < i < |units| ==> SeparateAt(units, parts, i)
  }

  ghost predicate SeparateAt(units: seq<Unit>, parts: seq<seq<Item>>, i: nat)
    requires 0 < i < |units| == |parts|
  {
    Separate(units[i - 1], parts[i - 1], units[i], parts[i])
  }

  lemma {:induction false} OneMoreItem(items: seq<Item>, x: Item)
    ensures Sequentials(items + [x]) == Sequentials(items) + if Sequential(x) then [x] else []
    ensures Parallels(items + [x]) == Parallels(items) + if x.kind == Parallel then [BatchedOf(x)] else []
    ensures MarksOf(items + [x], Skip) == MarksOf(items, Skip) + if x.kind == Skip then [MarkOf(x)] else []
    ensures MarksOf(items + [x], Pending) == MarksOf(items, Pending) + if x.kind == Pending then [MarkOf(x)] else []
  {
    assert (items + [x])[..|items|] == items;
  }

  lemma {:induction false} MarksAdded(items: seq<Item>, open: seq<Item>)
    requires OnlyMarks(open)
    ensures Sequentials(items + open) == Sequentials(items) && Parallels(items + open) == Parallels(items)
    ensures MarksOf(items + open, Skip) == MarksOf(items, Skip) + MarksOf(open, Skip)
    ensures MarksOf(items + open, Pending) == MarksOf(items, Pending) + MarksOf(open, Pending)
  {
    if open == [] {
      NoMarks();
      Sequences.NothingAdded(items);
      Sequences.NothingAdded(MarksOf(items, Skip));
      Sequences.NothingAdded(MarksOf(items, Pending));
    } else {
      var front, x := open[..|open| - 1], open[|open| - 1];
      MarksAdded(items, front);
      MarkAdded(items, front, open, x);
    }
  }

  lemma {:induction false} MarkAdded(items: seq<Item>, front: seq<Item>, open: seq<Item>, x: Item)
    requires open == front + [x] && !Real(x)
    requires Sequentials(items + front) == Sequentials(items) && Parallels(items + front) == Parallels(items)
    requires MarksOf(items + front, Skip) == MarksOf(items, Skip) + MarksOf(front, Skip)
    requires MarksOf(items + front, Pending) == MarksOf(items, Pending) + MarksOf(front, Pending)
    ensures Sequentials(items + open) == Sequentials(items) && Parallels(items + open) == Parallels(items)
    ensures MarksOf(items + open, Skip) == MarksOf(items, Skip) + MarksOf(open, Skip)
    ensures MarksOf(items + open, Pending) == MarksOf(items, Pending) + MarksOf(open, Pending)
  {
    hide MarksOf, Sequentials, Parallels, MarkOf, BatchedOf;
    OneMoreItem(items + front, x);
    OneMoreItem(front, x);
    assert items + open == items + front + [x];
    Sequences.NothingAdded(Sequentials(items));
    Sequences.NothingAdded(Parallels(items));
    Sequences.Grouped(MarksOf(items, Skip), MarksOf(front, Skip), if x.kind == Skip then [MarkOf(x)] else []);
    Sequences.Grouped(MarksOf(items, Pending), MarksOf(front, Pending), if x.kind == Pending then [MarkOf(x)] else []);
  }

  lemma {:induction false} MarksAlone(open: seq<Item>)
    requires OnlyMarks(open)
    ensures Sequentials(open) == [] && Parallels(open) == []
  {
    MarksAdded([], open);
    assert [] + open == open;
  }

  // ---- The four ways a group grows ----

  lemma {:induction false} AloneIsPart(open: seq<Item>, x: Item)
    requires OnlyMarks(open) && Sequential(x)
    ensures PartIs(Alone(x, MarksOf(open, Skip), MarksOf(open, Pending)), open + [x])
  {
    OneMoreItem(open, x);
    MarksAlone(open);
    hide MarksOf, Sequentials, Parallels;
  }

  lemma {:induction false} JoinIsPart(u: Unit, part: seq<Item>, open: seq<Item>, x: Item)
    requires PartIs(u, part) && u.batch == [] && u.bodies != [] && OnlyMarks(open) && Sequential(x) && u.key == x.key
    ensures PartIs(Join(u, x, MarksOf(open, Skip), MarksOf(open, Pending)), part + open + [x])
  {
    var specs := Sequentials(part);
    MarksAdded(part, open);
    OneMoreItem(part + open, x);
    NoParallel(part);
    NoParallel(part + open);
    assert (specs + [x])[..|specs|] == specs;
    hide MarksOf, Sequentials, Parallels;
  }

  /** No batch, no parallel spec. */
  lemma {:induction false} NoParallel(part: seq<Item>)
    ensures Parallels(part) == [] <==> forall i :: 0 <= i < |part| ==> part[i].kind != Parallel
  {
    if part != [] {
      hide Parallels;
      var front, x := part[..|part| - 1], part[|part| - 1];
      NoParallel(front);
      OneMoreItem(front, x);
      assert part == front + [x];
      assert forall i :: 0 <= i < |front| ==> part[i] == front[i];
    }
  }

  lemma {:induction false} BatchIsPart(open: seq<Item>, x: Item)
    requires OnlyMarks(open) && x.kind == Parallel
    ensures PartIs(BatchOf([BatchedOf(x)], MarksOf(open, Skip), MarksOf(open, Pending)), open + [x])
  {
    OneMoreItem(open, x);
    MarksAlone(open);
    hide MarksOf, Sequentials, Parallels;
  }

  lemma {:induction false} BatchMoreIsPart(u: Unit, part: seq<Item>, x: Item)
    requires PartIs(u, part) && u.batch != [] && x.kind == Parallel
    ensures PartIs(u.(batch := u.batch + [BatchedOf(x)]), part + [x])
  {
    OneMoreItem(part, x);
    Sequences.NothingAdded(Sequentials(part));
    Sequences.NothingAdded(u.skipped);
    Sequences.NothingAdded(u.pending);
    hide MarksOf, Sequentials, Parallels;
  }

  lemma {:induction false} RestIsPart(open: seq<Item>)
    requires OnlyMarks(open) && open != []
    ensures PartIs(BatchOf([], MarksOf(open, Skip), MarksOf(open, Pending)), open)
  {
    MarksAlone(open);
    hide MarksOf, Sequentials, Parallels;
  }

  // ---- The parts, item by item ----

  lemma {:induction false} PartedMore(units: seq<Unit>, parts: seq<seq<Item>>, v: Unit, next: seq<Item>)
    requires Parted(units, parts) && PartIs(v, next)
    requires units != [] ==> Separate(units[|units| - 1], parts[|units| - 1], v, next)
    ensures Parted(units + [v], parts + [next]) && Together(parts + [next]) == Together(parts) + next
  {
    hide PartIs, Separate, SeparateAt, Together;
    var more, all := units + [v], parts + [next];
    forall i | 0 < i < |more| ensures SeparateAt(more, all, i) {
      if i < |units| {
        SameAt(units, parts, more, all, i);
      } else {
        LastAt(more, all);
      }
    }
    TogetherMore(parts, next);
  }

  lemma {:induction false} TogetherMore(parts: seq<seq<Item>>, next: seq<Item>)
    ensures Together(parts + [next]) == Together(parts) + next
  {
    assert (parts + [next])[..|parts|] == parts;
  }

  lemma {:induction false} SameAt(units: seq<Unit>, parts: seq<seq<Item>>, units': seq<Unit>, parts': seq<seq<Item>>,
      i: nat)
    requires 0 < i < |units| == |parts| && |units'| == |parts'| && i < |units'|
    requires units[..i + 1] == units'[..i + 1] && parts[..i + 1] == parts'[..i + 1]
    ensures SeparateAt(units, parts, i) <==> SeparateAt(units', parts', i)
  {
    hide Separate;
    assert units[..i + 1][i] == units'[..i + 1][i] && units[..i + 1][i - 1] == units'[..i + 1][i - 1];
    assert parts[..i + 1][i] == parts'[..i + 1][i] && parts[..i + 1][i - 1] == parts'[..i + 1][i - 1];
  }

  lemma {:induction false} LastAt(units: seq<Unit>, parts: seq<seq<Item>>)
    requires 1 < |units| == |parts|
    ensures var n := |units| - 1;
            SeparateAt(units, parts, n) <==> Separate(units[n - 1], parts[n - 1], units[n], parts[n])
  {
    hide Separate;
  }

  lemma {:induction false} PartedFront(units: seq<Unit>, parts: seq<seq<Item>>)
    requires Parted(units, parts) && units != []
    ensures var n := |units| - 1;
            && Parted(units[..n], parts[..n]) && parts == parts[..n] + [parts[n]] && PartIs(units[n], parts[n])
            && (n > 0 ==> Separate(units[n - 1], parts[n - 1], units[n], parts[n]))
            && Together(parts) == Together(parts[..n]) + parts[n]
  {
    var n := |units| - 1;
    hide PartIs, Separate, SeparateAt, Together;
    forall i | 0 < i < n ensures SeparateAt(units[..n], parts[..n], i) {
      assert units[..n][..i + 1] == units[..i + 1] && parts[..n][..i + 1] == parts[..i + 1];
      SameAt(units, parts, units[..n], parts[..n], i);
    }
    if n > 0 { LastAt(units, parts); }
    assert parts == parts[..n] + [parts[n]];
    TogetherMore(parts[..n], parts[n]);
  }

  /** The last part has grown. */
  lemma {:induction false} PartedLonger(units: seq<Unit>, parts: seq<seq<Item>>, v: Unit, next: seq<Item>)
    requires Parted(units, parts) && units != [] && PartIs(v, next) && parts[|units| - 1] <= next
    requires v.key == units[|units| - 1].key && (v.bodies != [] ==> units[|units| - 1].bodies != [])
    ensures var n := |units| - 1;
            && Parted(WithLast(units, v), parts[..n] + [next])
            && Together(parts[..n] + [next]) + [] == Together(parts[..n]) + next
            && Together(parts) == Together(parts[..n]) + parts[n]
  {
    var n := |units| - 1;
    hide PartIs, Separate, SeparateAt, Parted, Together;
    SameLength(units, parts);
    PartedFront(units, parts);
    if n > 0 { StillSeparate(units[n - 1], parts[n - 1], units[n], parts[n], v, next); }
    PartedMore(units[..n], parts[..n], v, next);
    Sequences.NothingAdded(Together(parts[..n] + [next]));
  }

  lemma {:induction false} SameLength(units: seq<Unit>, parts: seq<seq<Item>>)
    requires Parted(units, parts)
    ensures |units| == |parts|
  {
  }

  lemma {:induction false} StillSeparate(p: Unit, before: seq<Item>, u: Unit, part: seq<Item>, v: Unit,
      next: seq<Item>)
    requires Separate(p, before, u, part) && PartIs(v, next) && part <= next
    requires v.key == u.key && (v.bodies != [] ==> u.bodies != [])
    ensures Separate(p, before, v, next)
  {
  }

  /** How far the parts have got: open are the marks for the next group. */
  ghost predicate Fitting(g: Grouping, parts: seq<seq<Item>>, open: seq<Item>) {
    var n := |g.units| - 1;
    && Parted(g.units, parts) && OnlyMarks(open)
    && g.skipped == MarksOf(open, Skip) && g.pending == MarksOf(open, Pending)
    && (g.units == [] ==> g.mode == Apart)
    && (g.units != [] ==>
          && parts[n] != [] && Real(parts[n][|parts[n]| - 1])
          && match g.mode
             case Joining => g.units[n].batch == [] && g.units[n].bodies != []
             case Batching => g.units[n].batch != [] && open == []
             case Apart => g.units[n].batch != [] && open != [])
  }

  lemma {:induction false} MarkFits(g: Grouping, parts: seq<seq<Item>>, open: seq<Item>, x: Item)
    requires Fitting(g, parts, open) && !Real(x)
    ensures Fitting(AddItem(g, x), parts, open + [x])
  {
    OneMoreItem(open, x);
    Sequences.NothingAdded(g.skipped);
    Sequences.NothingAdded(g.pending);
    hide Parted, MarksOf, Join, Alone;
  }

  lemma {:induction false} NewGroupFits(g: Grouping, parts: seq<seq<Item>>, open: seq<Item>, x: Item, u: Unit)
    requires Fitting(g, parts, open) && Real(x) && PartIs(u, open + [x])
    requires u.bodies != [] ==> Sequential(x) && (g.mode == Joining ==> g.units[|g.units| - 1].key != u.key)
    requires u.bodies == [] ==> x.kind == Parallel && g.mode != Batching && u.batch != []
    ensures Fitting(Grouping(g.units + [u], if u.bodies == [] then Batching else Joining, [], []),
                    parts + [open + [x]], [])
    ensures Together(parts + [open + [x]]) == Together(parts) + (open + [x])
  {
    hide PartIs, Separate, SeparateAt, Parted, Together, MarksOf;
    if g.units != [] { NewIsSeparate(g, parts, open, x, u); }
    SameLength(g.units, parts);
    BatchHasNoSpecs(u, open + [x]);
    PartedMore(g.units, parts, u, open + [x]);
    NoMarks();
    LastFits(g.units + [u], if u.bodies == [] then Batching else Joining, parts + [open + [x]]);
  }

  /** A group that ends in a spec, and nothing open. */
  lemma {:induction false} LastFits(units: seq<Unit>, mode: Mode, parts: seq<seq<Item>>)
    requires Parted(units, parts) && |units| == |parts| > 0 && mode != Apart
    requires var n := |units| - 1;
             && parts[n] != [] && Real(parts[n][|parts[n]| - 1])
             && (mode == Joining ==> units[n].batch == [] && units[n].bodies != [])
             && (mode == Batching ==> units[n].batch != [])
    ensures Fitting(Grouping(units, mode, [], []), parts, [])
  {
    hide Parted;
  }

  lemma {:induction false} BatchHasNoSpecs(u: Unit, part: seq<Item>)
    requires PartIs(u, part)
    ensures u.batch != [] ==> u.bodies == []
  {
  }

  lemma {:induction false} NewIsSeparate(g: Grouping, parts: seq<seq<Item>>, open: seq<Item>, x: Item, u: Unit)
    requires Fitting(g, parts, open) && Real(x) && PartIs(u, open + [x]) && g.units != []
    requires u.bodies != [] ==> Sequential(x) && (g.mode == Joining ==> g.units[|g.units| - 1].key != u.key)
    requires u.bodies == [] ==> x.kind == Parallel && g.mode != Batching && u.batch != []
    ensures Separate(g.units[|g.units| - 1], parts[|g.units| - 1], u, open + [x])
  {
    hide PartIs, SeparateAt, MarksOf, Together;
    var n := |g.units| - 1;
    PartedFront(g.units, parts);
    BatchHasNoSpecs(g.units[n], parts[n]);
    BatchHasNoSpecs(u, open + [x]);
    hide Parted;
    assert open != [] ==> (open + [x])[0] == open[0];
  }

  lemma {:induction false} LongerFits(g: Grouping, parts: seq<seq<Item>>, open: seq<Item>, x: Item, u: Unit)
    requires Fitting(g, parts, open) && Real(x) && g.units != []
    requires var v := g.units[|g.units| - 1];
             && PartIs(u, parts[|g.units| - 1] + open + [x]) && u.key == v.key
             && (u.bodies != [] <==> v.bodies != []) && (u.batch != [] <==> v.batch != [])
             && (g.mode == Batching ==> open == []) && g.mode != Apart
    ensures var n := |g.units| - 1;
            var grown := parts[..n] + [parts[n] + open + [x]];
            && Fitting(Grouping(WithLast(g.units, u), g.mode, [], []), grown, [])
            && Together(grown) == Together(parts) + (open + [x])
  {
    hide PartIs, Separate, SeparateAt, Parted, Together, MarksOf;
    var n := |g.units| - 1;
    SameLength(g.units, parts);
    var next := parts[n] + open + [x];
    assert parts[n] <= next && next[|next| - 1] == x;
    PartedLonger(g.units, parts, u, next);
    NoMarks();
    Regroup(Together(parts[..n]), parts[n], open, x);
    Sequences.NothingAdded(Together(parts[..n] + [next]));
    LastFits(WithLast(g.units, u), g.mode, parts[..n] + [next]);
  }

  lemma {:induction false} NoMarks()
    ensures MarksOf([], Skip) == [] && MarksOf([], Pending) == []
  {
  }

  lemma {:induction false} Regroup(a: seq<Item>, b: seq<Item>, c: seq<Item>, x: Item)
    ensures a + (b + c + [x]) == a + b + (c + [x])
  {
  }

  /** What the parts say of the last group. */
  lemma {:induction false} LastOf(g: Grouping, parts: seq<seq<Item>>, open: seq<Item>)
    requires Fitting(g, parts, open)
    ensures |parts| == |g.units| && OnlyMarks(open) && (g.mode != Apart ==> g.units != [])
    ensures g.skipped == MarksOf(open, Skip) && g.pending == MarksOf(open, Pending)
    ensures var n := |g.units| - 1;
            && (g.units != [] ==> PartIs(g.units[n], parts[n]))
            && (g.mode == Joining ==> g.units[n].batch == [] && g.units[n].bodies != [])
            && (g.mode == Batching ==> g.units[n].batch != [] && g.units[n].bodies == [] && open == [])
  {
    hide PartIs, SeparateAt, MarksOf;
    if g.units != [] { BatchHasNoSpecs(g.units[|g.units| - 1], parts[|g.units| - 1]); }
  }

  lemma {:induction false} ItemFits(g: Grouping, parts: seq<seq<Item>>, open: seq<Item>, x: Item)
    returns (parts': seq<seq<Item>>, open': seq<Item>)
    requires Fitting(g, parts, open)
    ensures (g.mode != Apart ==> g.units != []) && Fitting(AddItem(g, x), parts', open')
    ensures Together(parts') + open' == Together(parts) + (open + [x])
  {
    hide PartIs, Parted, MarksOf, Together, OnlyMarks, Fitting, Join, Alone, BatchOf;
    var n := |g.units| - 1;
    LastOf(g, parts, open);
    parts', open' := parts, open + [x];
    if !Real(x) {
      MarkFits(g, parts, open, x);
    } else {
      if x.kind == Parallel && g.mode == Batching {
        BatchGrowsBy(g, parts, open, x);
        parts' := parts[..n] + [parts[n] + open + [x]];
      } else if x.kind == Parallel {
        BatchStarts(g, parts, open, x);
        parts' := parts + [open + [x]];
      } else if g.mode == Joining && g.units[n].key == x.key {
        GroupGrowsBy(g, parts, open, x);
        parts' := parts[..n] + [parts[n] + open + [x]];
      } else {
        GroupStarts(g, parts, open, x);
        parts' := parts + [open + [x]];
      }
      open' := [];
      Sequences.NothingAdded(Together(parts'));
    }
  }

  lemma {:induction false} BatchGrowsBy(g: Grouping, parts: seq<seq<Item>>, open: seq<Item>, x: Item)
    requires Fitting(g, parts, open) && x.kind == Parallel && g.mode == Batching
    ensures |parts| == |g.units| > 0
    ensures var n := |g.units| - 1;
            var grown := parts[..n] + [parts[n] + open + [x]];
            && Fitting(AddItem(g, x), grown, []) && Together(grown) == Together(parts) + (open + [x])
  {
    hide PartIs, Parted, MarksOf, Together, Fitting;
    LastOf(g, parts, open);
    NoMarks();
    var n := |g.units| - 1;
    BatchMoreIsPart(g.units[n], parts[n], x);
    Sequences.NothingAdded(parts[n]);
    LongerFits(g, parts, open, x, g.units[n].(batch := g.units[n].batch + [BatchedOf(x)]));
  }

  lemma {:induction false} BatchStarts(g: Grouping, parts: seq<seq<Item>>, open: seq<Item>, x: Item)
    requires Fitting(g, parts, open) && x.kind == Parallel && g.mode != Batching
    ensures (g.mode != Apart ==> g.units != []) && Fitting(AddItem(g, x), parts + [open + [x]], [])
    ensures Together(parts + [open + [x]]) == Together(parts) + (open + [x])
  {
    hide PartIs, Parted, MarksOf, Together, Fitting;
    LastOf(g, parts, open);
    BatchIsPart(open, x);
    NewGroupFits(g, parts, open, x, BatchOf([BatchedOf(x)], g.skipped, g.pending));
  }

  lemma {:induction false} GroupGrowsBy(g: Grouping, parts: seq<seq<Item>>, open: seq<Item>, x: Item)
    requires Fitting(g, parts, open) && Sequential(x) && g.mode == Joining && g.units != []
    requires g.units[|g.units| - 1].key == x.key
    ensures |parts| == |g.units| > 0
    ensures var n := |g.units| - 1;
            var grown := parts[..n] + [parts[n] + open + [x]];
            && Fitting(AddItem(g, x), grown, []) && Together(grown) == Together(parts) + (open + [x])
  {
    hide PartIs, Parted, MarksOf, Together, Fitting;
    LastOf(g, parts, open);
    var n := |g.units| - 1;
    JoinIsPart(g.units[n], parts[n], open, x);
    LongerFits(g, parts, open, x, Join(g.units[n], x, g.skipped, g.pending));
  }

  lemma {:induction false} GroupStarts(g: Grouping, parts: seq<seq<Item>>, open: seq<Item>, x: Item)
    requires Fitting(g, parts, open) && Sequential(x)
    requires g.mode == Joining && g.units != [] ==> g.units[|g.units| - 1].key != x.key
    ensures (g.mode != Apart ==> g.units != []) && Fitting(AddItem(g, x), parts + [open + [x]], [])
    ensures Together(parts + [open + [x]]) == Together(parts) + (open + [x])
  {
    hide PartIs, Parted, MarksOf, Together, Fitting;
    LastOf(g, parts, open);
    AloneIsPart(open, x);
    NewGroupFits(g, parts, open, x, Alone(x, g.skipped, g.pending));
  }

  lemma {:induction false} ItemsFit(items: seq<Item>) returns (parts: seq<seq<Item>>, open: seq<Item>)
    ensures Fitting(Grouped(items), parts, open) && Together(parts) + open == items
  {
    hide *;
    parts, open := [], [];
    if items == [] {
      NothingFits(items);
    } else {
      var n := |items| - 1;
      var before, marks := ItemsFit(items[..n]);
      LastItem(items, Together(before), marks);
      parts, open := ItemFits(Grouped(items[..n]), before, marks, items[n]);
    }
  }

  lemma {:induction false} NothingFits(items: seq<Item>)
    requires items == []
    ensures Fitting(Grouped(items), [], []) && Together([]) + [] == items
  {
  }

  lemma {:induction false} LastItem(items: seq<Item>, a: seq<Item>, marks: seq<Item>)
    requires items != [] && a + marks == items[..|items| - 1]
    ensures a + (marks + [items[|items| - 1]]) == items
    ensures Grouped(items) == AddItem(Grouped(items[..|items| - 1]), items[|items| - 1])
  {
    hide AddItem;
  }

  /** The groups of a program cut the items, in order, into parts: neighbouring
      specs of one key, or neighbouring parallel specs, each with the marks before
      them; marks at the end are a group of their own; and no two groups could be
      one. */
  lemma {:induction false} GroupsAreParts(items: seq<Item>) returns (parts: seq<seq<Item>>)
    ensures Together(parts) == items && Parted(UnitsOf(items), parts)
  {
    hide PartIs, Separate, SeparateAt, Parted, Together, MarksOf, Grouped, Fitting, OnlyMarks;
    var open;
    parts, open := ItemsFit(items);
    var g := Grouped(items);
    FittingIsParted(g, parts, open);
    if open == [] {
      Sequences.NothingAdded(Together(parts));
      NoMarks();
    } else {
      OpenHasMarks(open);
      RestIsPart(open);
      var rest := BatchOf([], g.skipped, g.pending);
      if g.units != [] { RestIsSeparate(g, parts, open, rest); }
      PartedMore(g.units, parts, rest, open);
      parts := parts + [open];
    }
  }

  lemma {:induction false} FittingIsParted(g: Grouping, parts: seq<seq<Item>>, open: seq<Item>)
    requires Fitting(g, parts, open)
    ensures Parted(g.units, parts) && |g.units| == |parts| && OnlyMarks(open)
    ensures g.skipped == MarksOf(open, Skip) && g.pending == MarksOf(open, Pending)
  {
    hide PartIs, SeparateAt, MarksOf;
  }

  lemma {:induction false} OpenHasMarks(open: seq<Item>)
    requires OnlyMarks(open) && open != []
    ensures MarksOf(open, Skip) != [] || MarksOf(open, Pending) != []
  {
  }

  lemma {:induction false} RestIsSeparate(g: Grouping, parts: seq<seq<Item>>, open: seq<Item>, rest: Unit)
    requires Fitting(g, parts, open) && g.units != [] && open != [] && PartIs(rest, open) && rest.bodies == []
    ensures Separate(g.units[|g.units| - 1], parts[|g.units| - 1], rest, open)
  {
    hide PartIs, MarksOf;
  }
}
