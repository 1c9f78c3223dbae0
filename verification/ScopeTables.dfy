/** The table of declared scopes both compilers number from, and the report
    labels computed from it. */
module ScopeTables {
  import opened Options
  import opened Declarations
  import opened ReportLabels
  import opened Permutations
  import Sequences

  /** One declaration; parent is the enclosing one's place in the table, or
      less than 0. */
  datatype Row = Row(parent: int, name: string, group: bool)

  /** The rows of a tree placed at base; specs have rows only with leaves. */
  function TreeRows(t: Tree, parent: int, base: nat, leaves: bool): seq<Row>
    decreases t, 0
  {
    match t
    case Leaf(_, name, _) => if leaves then [Row(parent, name, false)] else []
    case Scope(name, _, kids) => [Row(parent, name, true)] + Rows(kids, base, base + 1, leaves)
  }

  function Rows(f: Forest, parent: int, base: nat, leaves: bool): seq<Row>
    decreases f, 0
  {
    match f
    case Empty => []
    case Grow(t, rest) =>
      var first := TreeRows(t, parent, base, leaves);
      first + Rows(rest, parent, base + |first|, leaves)
  }

  /** The places, from off on, of the rows of t under parent p. */
  function Kids(t: seq<Row>, p: int, off: nat): seq<nat> {
    if t == [] then [] else (if t[0].parent == p then [off] else []) + Kids(t[1..], p, off + 1)
  }

  /** The names of the groups of t under parent p. */
  function Siblings(t: seq<Row>, p: int): seq<string> {
    if t == [] then [] else (if t[0].parent == p && t[0].group then [t[0].name] else []) + Siblings(t[1..], p)
  }

  lemma {:induction false} KidsAppend(a: seq<Row>, b: seq<Row>, p: int, off: nat)
    ensures Kids(a + b, p, off) == Kids(a, p, off) + Kids(b, p, off + |a|)
  {
    if a == [] {
      assert a + b == b;
    } else {
      assert (a + b)[1..] == a[1..] + b;
      KidsAppend(a[1..], b, p, off + 1);
    }
  }

  lemma {:induction false} SiblingsAppend(a: seq<Row>, b: seq<Row>, p: int)
    ensures Siblings(a + b, p) == Siblings(a, p) + Siblings(b, p)
  {
    if a == [] {
      assert a + b == b;
    } else {
      assert (a + b)[1..] == a[1..] + b;
      SiblingsAppend(a[1..], b, p);
    }
  }

  ghost predicate NoneUnder(t: seq<Row>, p: int) {
    forall i :: 0 <= i < |t| ==> t[i].parent != p
  }

  lemma {:induction false} NoKids(t: seq<Row>, p: int, off: nat)
    requires NoneUnder(t, p)
    ensures Kids(t, p, off) == [] && Siblings(t, p) == []
  {
    if t != [] { NoKids(t[1..], p, off + 1); }
  }

  /** The places of the trees of a forest placed at base. */
  function Places(f: Forest, base: nat, leaves: bool): seq<nat> {
    match f
    case Empty => []
    case Grow(t, rest) =>
      (if leaves || t.Scope? then [base] else []) + Places(rest, base + |TreeRows(t, 0, base, leaves)|, leaves)
  }

  lemma {:induction false} SizeOnly(t: Tree, p: int, base: nat, q: int, base': nat, leaves: bool)
    ensures |TreeRows(t, p, base, leaves)| == |TreeRows(t, q, base', leaves)|
    decreases t, 0
  {
    if t.Scope? { SizeOnlyAll(t.kids, base, base + 1, base', base' + 1, leaves); }
  }

  lemma {:induction false} SizeOnlyAll(f: Forest, p: int, base: nat, q: int, base': nat, leaves: bool)
    ensures |Rows(f, p, base, leaves)| == |Rows(f, q, base', leaves)|
    decreases f, 0
  {
    if f.Grow? {
      var a, b := TreeRows(f.first, p, base, leaves), TreeRows(f.first, q, base', leaves);
      SizeOnly(f.first, p, base, q, base', leaves);
      SizeOnlyAll(f.rest, p, base + |a|, q, base' + |b|, leaves);
    }
  }

  /** Parents are the given one, or lie inside. */
  ghost predicate Inside(t: seq<Row>, parent: int, lo: int, hi: int) {
    forall i :: 0 <= i < |t| ==> t[i].parent == parent || lo <= t[i].parent < hi
  }

  lemma {:induction false} TreeRowsInside(t: Tree, parent: int, base: nat, leaves: bool)
    requires parent < base
    ensures var r := TreeRows(t, parent, base, leaves);
            && Inside(r, parent, base, base + |r|)
            && (forall i :: 0 <= i < |r| ==> r[i].parent < base + i)
            && (r != [] ==> r[0] == Row(parent, t.name, t.Scope?) && NoneUnder(r[1..], parent))
            && (r == [] <==> t.Leaf? && !leaves)
    decreases t, 0
  {
    if t.Scope? {
      RowsInside(t.kids, base, base + 1, leaves);
    }
  }

  lemma {:induction false} RowsInside(f: Forest, parent: int, base: nat, leaves: bool)
    requires parent < base
    ensures var r := Rows(f, parent, base, leaves);
            Inside(r, parent, base, base + |r|) && forall i :: 0 <= i < |r| ==> r[i].parent < base + i
    decreases f, 0
  {
    if f.Grow? {
      var first := TreeRows(f.first, parent, base, leaves);
      TreeRowsInside(f.first, parent, base, leaves);
      RowsInside(f.rest, parent, base + |first|, leaves);
    }
  }

  /** The rows right under the parent are those of the trees themselves. */
  lemma {:induction false} RowsUnderParent(f: Forest, parent: int, base: nat, leaves: bool)
    requires parent < base
    ensures Kids(Rows(f, parent, base, leaves), parent, base) == Places(f, base, leaves)
    ensures Siblings(Rows(f, parent, base, leaves), parent) == GroupNames(f)
  {
    if f.Grow? {
      var first, rest := FirstRows(f, parent, base, leaves);
      hide *;
      RowsUnderParent(f.rest, parent, base + |first|, leaves);
      TreeUnderParent(f.first, parent, base, leaves);
      KidsAppend(first, rest, parent, base);
      SiblingsAppend(first, rest, parent);
    }
  }

  lemma {:induction false} FirstRows(f: Forest, parent: int, base: nat, leaves: bool)
    returns (first: seq<Row>, rest: seq<Row>)
    requires f.Grow?
    ensures first == TreeRows(f.first, parent, base, leaves) && rest == Rows(f.rest, parent, base + |first|, leaves)
    ensures Rows(f, parent, base, leaves) == first + rest
    ensures Places(f, base, leaves)
         == (if leaves || f.first.Scope? then [base] else []) + Places(f.rest, base + |first|, leaves)
    ensures GroupNames(f) == (if f.first.Scope? then [f.first.name] else []) + GroupNames(f.rest)
  {
    first := TreeRows(f.first, parent, base, leaves);
    rest := Rows(f.rest, parent, base + |first|, leaves);
    SizeOnly(f.first, parent, base, 0, base, leaves);
    hide TreeRows;
  }

  lemma {:induction false} TreeUnderParent(t: Tree, parent: int, base: nat, leaves: bool)
    requires parent < base
    ensures Kids(TreeRows(t, parent, base, leaves), parent, base) == if leaves || t.Scope? then [base] else []
    ensures Siblings(TreeRows(t, parent, base, leaves), parent) == if t.Scope? then [t.name] else []
  {
    var r := TreeRows(t, parent, base, leaves);
    TreeRowsInside(t, parent, base, leaves);
    hide TreeRows;
    if r != [] { NoKids(r[1..], parent, base + 1); }
  }

  // ---- A forest's place in a table ----

  /** The table pre + Rows(f) + post, in which the trees of f are the last ones
      under parent, and nothing outside is under a row of f. */
  ghost predicate Placed(pre: seq<Row>, f: Forest, post: seq<Row>, parent: int, leaves: bool) {
    var base, size := |pre|, |Rows(f, parent, |pre|, leaves)|;
    && parent < base
    && (forall i :: 0 <= i < base ==> pre[i].parent < base)
    && (forall i :: 0 <= i < |post| ==> post[i].parent != parent && !(base <= post[i].parent < base + size))
  }

  ghost function Table(pre: seq<Row>, f: Forest, post: seq<Row>, parent: int, leaves: bool): seq<Row> {
    pre + Rows(f, parent, |pre|, leaves) + post
  }

  /** The label of row id: the next of its parent's groups. */
  ghost function LabelAt(t: seq<Row>, id: nat): string
    requires id < |t| && t[id].group
  {
    var elders, all := Siblings(t[..id], t[id].parent), Siblings(t, t[id].parent);
    if |elders| < |all| then Labels(all)[|elders|] else ""
  }

  lemma {:induction false} PlacedRest(pre: seq<Row>, f: Forest, post: seq<Row>, parent: int,
      leaves: bool) returns (before: seq<Row>)
    requires Placed(pre, f, post, parent, leaves) && f.Grow?
    ensures |before| == |pre| + |TreeRows(f.first, parent, |pre|, leaves)|
    ensures Placed(before, f.rest, post, parent, leaves)
    ensures Table(before, f.rest, post, parent, leaves) == Table(pre, f, post, parent, leaves)
    ensures f.first.Scope? ==> Siblings(before, parent) == Siblings(pre, parent) + [f.first.name]
    ensures f.first.Leaf? ==> Siblings(before, parent) == Siblings(pre, parent)
  {
    var first := TreeRows(f.first, parent, |pre|, leaves);
    before := pre + first;
    TreeRowsInside(f.first, parent, |pre|, leaves);
    SiblingsAppend(pre, first, parent);
    if first != [] { NoKids(first[1..], parent, 0); }
    assert Siblings(first, parent) == if f.first.Scope? then [f.first.name] else [];
    Sequences.NothingAdded(Siblings(pre, parent));
    RestPlaced(pre, f, post, parent, leaves, first, before);
    hide Rows, TreeRows, Siblings, Placed, Table;
  }

  lemma {:induction false} RestPlaced(
      pre: seq<Row>, f: Forest, post: seq<Row>, parent: int, leaves: bool, first: seq<Row>, before: seq<Row>)
    requires Placed(pre, f, post, parent, leaves) && f.Grow?
    requires first == TreeRows(f.first, parent, |pre|, leaves) && before == pre + first
    requires forall i :: 0 <= i < |first| ==> first[i].parent < |pre| + i
    ensures Placed(before, f.rest, post, parent, leaves)
    ensures Table(before, f.rest, post, parent, leaves) == Table(pre, f, post, parent, leaves)
  {
    var rest := Rows(f.rest, parent, |pre| + |first|, leaves);
    assert Rows(f, parent, |pre|, leaves) == first + rest;
    hide Rows, TreeRows;
    Sequences.Grouped(pre, first, rest);
    assert |before| == |pre| + |first|;
  }

  lemma {:induction false} Regroup<T>(pre: seq<T>, row: T, kids: seq<T>, rest: seq<T>, post: seq<T>)
    ensures (pre + [row]) + kids + (rest + post) == pre + ([row] + kids + rest) + post
  {
  }

  lemma {:induction false} PlacedKids(pre: seq<Row>, f: Forest, post: seq<Row>, parent: int, leaves: bool)
    returns (before: seq<Row>, after: seq<Row>)
    requires Placed(pre, f, post, parent, leaves) && f.Grow? && f.first.Scope?
    ensures |before| == |pre| + 1 && Placed(before, f.first.kids, after, |pre|, leaves)
    ensures Table(before, f.first.kids, after, |pre|, leaves) == Table(pre, f, post, parent, leaves)
    ensures Siblings(before, |pre|) == [] && Kids(before, |pre|, 0) == []
  {
    var row := Row(parent, f.first.name, true);
    var base := |pre|;
    var kids, rest := ScopeRows(f, parent, base, leaves);
    RowsInside(f.rest, parent, base + 1 + |kids|, leaves);
    before, after := pre + [row], rest + post;
    KidsPlaced(pre, f, post, parent, leaves, kids, rest, before, after);
    hide *;
    Regroup(pre, row, kids, rest, post);
  }

  lemma {:induction false} ScopeRows(f: Forest, parent: int, base: nat, leaves: bool) returns (kids: seq<Row>,
      rest: seq<Row>)
    requires f.Grow? && f.first.Scope?
    ensures kids == Rows(f.first.kids, base, base + 1, leaves)
    ensures rest == Rows(f.rest, parent, base + 1 + |kids|, leaves)
    ensures Rows(f, parent, base, leaves) == [Row(parent, f.first.name, true)] + kids + rest
  {
    kids := Rows(f.first.kids, base, base + 1, leaves);
    rest := Rows(f.rest, parent, base + 1 + |kids|, leaves);
  }

  lemma {:induction false} KidsPlaced(pre: seq<Row>, f: Forest, post: seq<Row>, parent: int, leaves: bool,
      kids: seq<Row>, rest: seq<Row>, before: seq<Row>, after: seq<Row>)
    requires Placed(pre, f, post, parent, leaves) && f.Grow? && f.first.Scope?
    requires kids == Rows(f.first.kids, |pre|, |pre| + 1, leaves)
    requires Rows(f, parent, |pre|, leaves) == [Row(parent, f.first.name, true)] + kids + rest
    requires before == pre + [Row(parent, f.first.name, true)] && after == rest + post
    requires Inside(rest, parent, |pre| + 1 + |kids|, |pre| + 1 + |kids| + |rest|)
    ensures |before| == |pre| + 1 && Placed(before, f.first.kids, after, |pre|, leaves)
    ensures Siblings(before, |pre|) == [] && Kids(before, |pre|, 0) == []
    ensures Table(before, f.first.kids, after, |pre|, leaves) == before + kids + after
    ensures Table(pre, f, post, parent, leaves) == pre + ([Row(parent, f.first.name, true)] + kids + rest) + post
  {
    hide Rows, TreeRows;
    NoKids(before, |pre|, 0);
    assert |before| == |pre| + 1;
  }

  /** What lies under the parent of a placed forest. */
  lemma {:induction false} UnderPlaced(pre: seq<Row>, f: Forest, post: seq<Row>, parent: int, leaves: bool)
    requires Placed(pre, f, post, parent, leaves)
    ensures var t := Table(pre, f, post, parent, leaves);
            && Siblings(t, parent) == Siblings(pre, parent) + GroupNames(f)
            && Kids(t, parent, 0) == Kids(pre, parent, 0) + Places(f, |pre|, leaves)
  {
    var rows := Rows(f, parent, |pre|, leaves);
    assert NoneUnder(post, parent) && parent < |pre|;
    assert Table(pre, f, post, parent, leaves) == pre + rows + post;
    hide *;
    var both := pre + rows;
    RowsUnderParent(f, parent, |pre|, leaves);
    SiblingsAppend(both, post, parent);
    SiblingsAppend(pre, rows, parent);
    KidsAppend(both, post, parent, 0);
    KidsAppend(pre, rows, parent, 0);
    NoKids(post, parent, |both|);
    Sequences.NothingAdded(Siblings(both, parent));
    Sequences.NothingAdded(Kids(both, parent, 0));
  }

  /** A group's label depends on its siblings alone. */
  lemma {:induction false} LabelOfFirst(pre: seq<Row>, f: Forest, post: seq<Row>, parent: int, leaves: bool)
    requires Placed(pre, f, post, parent, leaves) && f.Grow? && f.first.Scope?
    ensures var t := Table(pre, f, post, parent, leaves);
            var sibs := Siblings(pre, parent) + GroupNames(f);
            && |pre| < |t| && t[|pre|] == Row(parent, f.first.name, true)
            && |Siblings(pre, parent)| < |sibs|
            && LabelAt(t, |pre|) == Labels(sibs)[|Siblings(pre, parent)|]
  {
    UnderPlaced(pre, f, post, parent, leaves);
    TreeRowsInside(f.first, parent, |pre|, leaves);
    assert Rows(f, parent, |pre|, leaves)[0] == TreeRows(f.first, parent, |pre|, leaves)[0];
    assert Table(pre, f, post, parent, leaves)[..|pre|] == pre;
  }

  // ---- Labels of a tree ----

  /** The labels of the groups of f, outermost first, where sibs are the names of
      all the groups under its parent and f's own begin at j. */
  function ForestLabels(f: Forest, sibs: seq<string>, j: nat): (ls: seq<string>)
    requires j + |GroupNames(f)| <= |sibs|
    ensures |ls| == Groups(f)
  {
    match f
    case Empty => []
    case Grow(Leaf(_, _, _), rest) => ForestLabels(rest, sibs, j)
    case Grow(Scope(_, _, kids), rest) =>
      [Labels(sibs)[j]] + ForestLabels(kids, GroupNames(kids), 0) + ForestLabels(rest, sibs, j + 1)
  }

  /** The labels of a top-level scope and its groups, in the order declared. */
  function SuiteLabels(name: string, kids: Forest): (ls: seq<string>)
    ensures |ls| == 1 + Groups(kids)
  {
    [name] + ForestLabels(kids, GroupNames(kids), 0)
  }

  lemma {:induction false} RowPerGroup(f: Forest, parent: int, base: nat)
    ensures |Rows(f, parent, base, false)| == Groups(f)
    ensures forall i :: 0 <= i < |Rows(f, parent, base, false)| ==> Rows(f, parent, base, false)[i].group
  {
    if f.Grow? {
      if f.first.Scope? { RowPerGroup(f.first.kids, base, base + 1); }
      RowPerGroup(f.rest, parent, base + |TreeRows(f.first, parent, base, false)|);
    }
  }

  /** The parts of a forest whose first tree is a group: their rows and labels,
      in a table where the groups elders came before. */
  lemma {:induction false} GroupParts(f: Forest, parent: int, base: nat, elders: seq<string>)
    requires f.Grow? && f.first.Scope?
    ensures var kids := f.first.kids;
            var sibs := elders + GroupNames(f);
            && |TreeRows(f.first, parent, base, false)| == 1 + Groups(kids)
            && Groups(f) == 1 + Groups(kids) + Groups(f.rest)
            && sibs == (elders + [f.first.name]) + GroupNames(f.rest)
            && ForestLabels(f, sibs, |elders|)
               == [Labels(sibs)[|elders|]] + ForestLabels(kids, GroupNames(kids), 0)
                  + ForestLabels(f.rest, sibs, |elders| + 1)
  {
    RowPerGroup(f.first.kids, base, base + 1);
    var kids := f.first.kids;
    var sibs := elders + GroupNames(f);
    assert GroupNames(f) == [f.first.name] + GroupNames(f.rest);
    assert sibs == (elders + [f.first.name]) + GroupNames(f.rest);
    hide Labels;
  }

  lemma {:induction false} SkipLeaf(f: Forest, parent: int, base: nat)
    requires f.Grow? && f.first.Leaf?
    ensures TreeRows(f.first, parent, base, false) == [] && Groups(f) == Groups(f.rest)
    ensures GroupNames(f) == GroupNames(f.rest)
    ensures forall sibs, j: nat :: j + |GroupNames(f)| <= |sibs| ==>
              ForestLabels(f, sibs, j) == ForestLabels(f.rest, sibs, j)
  {
  }

  /** Which label of a forest whose first tree is a group label i is. */
  lemma {:induction false} LabelPart(f: Forest, parent: int, base: nat, elders: seq<string>, i: nat)
    requires f.Grow? && f.first.Scope? && i < Groups(f)
    ensures var n := |TreeRows(f.first, parent, base, false)|;
            var sibs := elders + GroupNames(f);
            var names := GroupNames(f.first.kids);
            && n == 1 + Groups(f.first.kids) && Groups(f) == n + Groups(f.rest)
            && sibs == (elders + [f.first.name]) + GroupNames(f.rest)
            && (i == 0 ==> ForestLabels(f, sibs, |elders|)[i] == Labels(sibs)[|elders|])
            && (0 < i < n ==> ForestLabels(f, sibs, |elders|)[i] == ForestLabels(f.first.kids, names, 0)[i - 1])
            && (i >= n ==> ForestLabels(f, sibs, |elders|)[i] == ForestLabels(f.rest, sibs, |elders| + 1)[i - n])
  {
    GroupParts(f, parent, base, elders);
    hide *;
    var sibs, names := elders + GroupNames(f), GroupNames(f.first.kids);
    PickPart(Labels(sibs)[|elders|], ForestLabels(f.first.kids, names, 0), ForestLabels(f.rest, sibs, |elders| + 1),
      ForestLabels(f, sibs, |elders|), i);
  }

  lemma {:induction false} PickPart(x: string, a: seq<string>, b: seq<string>, all: seq<string>, i: nat)
    requires all == [x] + a + b && i < |all|
    ensures all[i] == if i == 0 then x else if i <= |a| then a[i - 1] else b[i - 1 - |a|]
  {
  }

  /** In a table of scopes alone, the labels of a forest's rows are its labels. */
  lemma {:induction false} LabelsOfPlaced(
      pre: seq<Row>, f: Forest, post: seq<Row>, parent: int, t: seq<Row>, elders: seq<string>, sibs: seq<string>,
      i: nat)
    requires Placed(pre, f, post, parent, false) && t == Table(pre, f, post, parent, false) && i < Groups(f)
    requires elders == Siblings(pre, parent) && sibs == elders + GroupNames(f)
    ensures |pre| + i < |t| && t[|pre| + i].group
    ensures LabelAt(t, |pre| + i) == ForestLabels(f, sibs, |elders|)[i]
    decreases f, 1
  {
    assert f.Grow?;
    hide *;
    if f.first.Leaf? {
      SkipLeaf(f, parent, |pre|);
      var before := PlacedRest(pre, f, post, parent, false);
      LabelsOfPlaced(before, f.rest, post, parent, t, elders, sibs, i);
    } else if i == 0 {
      LabelPart(f, parent, |pre|, elders, i);
      LabelOfFirst(pre, f, post, parent, false);
    } else {
      LabelsPastFirst(pre, f, post, parent, t, elders, sibs, i);
    }
  }

  lemma {:induction false} LabelsPastFirst(
      pre: seq<Row>, f: Forest, post: seq<Row>, parent: int, t: seq<Row>, elders: seq<string>, sibs: seq<string>,
      i: nat)
    requires Placed(pre, f, post, parent, false) && t == Table(pre, f, post, parent, false)
    requires elders == Siblings(pre, parent) && sibs == elders + GroupNames(f)
    requires f.Grow? && f.first.Scope? && 0 < i < Groups(f)
    ensures |pre| + i < |t| && t[|pre| + i].group
    ensures LabelAt(t, |pre| + i) == ForestLabels(f, sibs, |elders|)[i]
    decreases f, 0
  {
    hide *;
    LabelPart(f, parent, |pre|, elders, i);
    var n := |TreeRows(f.first, parent, |pre|, false)|;
    if i < n {
      var names := GroupNames(f.first.kids);
      var before, after := PlacedKids(pre, f, post, parent, false);
      assert [] + names == names;
      LabelsOfPlaced(before, f.first.kids, after, |pre|, t, [], names, i - 1);
    } else {
      var before := PlacedRest(pre, f, post, parent, false);
      LabelsOfPlaced(before, f.rest, post, parent, t, elders + [f.first.name], sibs, i - n);
    }
  }

  // ---- Computing the labels of a table ----

  /** The places, from off on, of the groups of t under parent p. */
  function GroupKids(t: seq<Row>, p: int, off: nat): seq<nat> {
    if t == [] then []
    else (if t[0].parent == p && t[0].group then [off] else []) + GroupKids(t[1..], p, off + 1)
  }

  lemma {:induction false} GroupKidsAppend(a: seq<Row>, b: seq<Row>, p: int, off: nat)
    ensures GroupKids(a + b, p, off) == GroupKids(a, p, off) + GroupKids(b, p, off + |a|)
  {
    if a == [] {
      assert a + b == b;
    } else {
      assert (a + b)[1..] == a[1..] + b;
      GroupKidsAppend(a[1..], b, p, off + 1);
    }
  }

  /** GroupKids are where the names of Siblings come from, in order. */
  lemma {:induction false} GroupKidsNames(t: seq<Row>, p: int, off: nat)
    ensures |GroupKids(t, p, off)| == |Siblings(t, p)|
    ensures forall i :: 0 <= i < |Siblings(t, p)| ==>
              var id := GroupKids(t, p, off)[i];
              && off <= id < off + |t| && t[id - off].parent == p && t[id - off].group
              && t[id - off].name == Siblings(t, p)[i]
  {
    if t != [] {
      var rest := t[1..];
      GroupKidsNames(rest, p, off + 1);
      var ids, names := GroupKids(rest, p, off + 1), Siblings(rest, p);
      var here := t[0].parent == p && t[0].group;
      assert GroupKids(t, p, off) == (if here then [off] else []) + ids;
      assert Siblings(t, p) == (if here then [t[0].name] else []) + names;
      hide GroupKids, Siblings;
      forall i | 0 <= i < |Siblings(t, p)|
        ensures var id := GroupKids(t, p, off)[i];
                && off <= id < off + |t| && t[id - off].parent == p && t[id - off].group
                && t[id - off].name == Siblings(t, p)[i]
      {
        if here && i > 0 {
          assert GroupKids(t, p, off)[i] == ids[i - 1] && Siblings(t, p)[i] == names[i - 1];
          assert rest[ids[i - 1] - off - 1] == t[ids[i - 1] - off];
        } else if !here {
          assert GroupKids(t, p, off)[i] == ids[i] && Siblings(t, p)[i] == names[i];
          assert rest[ids[i] - off - 1] == t[ids[i] - off];
        }
      }
    }
  }

  /** A group's place among its parent's groups. */
  lemma {:induction false} GroupKidAt(t: seq<Row>, id: nat)
    requires id < |t| && t[id].group
    ensures var p := t[id].parent;
            var j := |Siblings(t[..id], p)|;
            j < |Siblings(t, p)| == |GroupKids(t, p, 0)| && GroupKids(t, p, 0)[j] == id
  {
    var p := t[id].parent;
    assert t == t[..id] + t[id..];
    GroupKidsAppend(t[..id], t[id..], p, 0);
    GroupKidsNames(t[..id], p, 0);
    GroupKidsNames(t, p, 0);
  }

  /** Rows under the parents done have their labels, the others their names. */
  ghost predicate Labelled(t: seq<Row>, labels: seq<string>, done: set<int>) {
    && |labels| == |t|
    && forall id :: 0 <= id < |t| ==>
         labels[id] == if t[id].group && t[id].parent in done then LabelAt(t, id) else t[id].name
  }

  /** Whatever is at the i-th of a parent's groups is that group's label. */
  ghost predicate SetTo(labels: seq<string>, ids: seq<nat>, values: seq<string>, n: nat)
    requires n <= |ids| == |values|
  {
    forall i :: 0 <= i < n ==> ids[i] < |labels| && labels[ids[i]] == values[i]
  }

  lemma {:induction false} KidsAscend(t: seq<Row>, p: int, off: nat, i: nat, j: nat)
    requires i < j < |GroupKids(t, p, off)|
    ensures off <= GroupKids(t, p, off)[i] < GroupKids(t, p, off)[j]
  {
    GroupKidsNames(t[1..], p, off + 1);
    if t[0].parent == p && t[0].group {
      if i > 0 { KidsAscend(t[1..], p, off + 1, i - 1, j - 1); }
    } else {
      KidsAscend(t[1..], p, off + 1, i, j);
    }
  }

  method ApplySiblingLabels(t: seq<Row>, labels: seq<string>, p: int, ids: seq<nat>, ghost done: set<int>)
    returns (out: seq<string>)
    requires Labelled(t, labels, done) && ids == GroupKids(t, p, 0) && p !in done
    ensures Labelled(t, out, done + {p})
  {
    hide *;
    GroupKidsNames(t, p, 0);
    LabelledSize(t, labels, done);
    out := labels;
    var siblingNames := seq(|ids|, i requires 0 <= i < |ids| => t[ids[i]].name);
    assert siblingNames == Siblings(t, p);
    var resolved := DisambiguateSiblingNames(siblingNames);
    SetNothing(out, ids, resolved);
    var i := 0;
    while i < |ids|
      invariant 0 <= i <= |ids| && |out| == |t| && SetTo(out, ids, resolved, i)
      invariant forall id :: 0 <= id < |t| && !(t[id].group && t[id].parent == p) ==> out[id] == labels[id]
    {
      SetOneMore(t, out, p, ids, resolved, i);
      out := out[ids[i] := resolved[i]];
      i := i + 1;
    }
    Relabelled(t, labels, out, p, ids, done);
  }

  lemma {:induction false} LabelledSize(t: seq<Row>, labels: seq<string>, done: set<int>)
    requires Labelled(t, labels, done)
    ensures |labels| == |t|
  {
  }

  lemma {:induction false} SetNothing(labels: seq<string>, ids: seq<nat>, values: seq<string>)
    requires |ids| == |values|
    ensures SetTo(labels, ids, values, 0)
  {
  }

  lemma {:induction false} SetOneMore(t: seq<Row>, out: seq<string>, p: int, ids: seq<nat>, values: seq<string>, i: nat)
    requires ids == GroupKids(t, p, 0) && i < |ids| == |values| && SetTo(out, ids, values, i) && ids[i] < |out|
    ensures SetTo(out[ids[i] := values[i]], ids, values, i + 1)
  {
    forall j | 0 <= j < i ensures ids[j] != ids[i] {
      KidsAscend(t, p, 0, j, i);
    }
  }

  lemma {:induction false} Relabelled(t: seq<Row>, labels: seq<string>, out: seq<string>, p: int, ids: seq<nat>,
      done: set<int>)
    requires Labelled(t, labels, done) && ids == GroupKids(t, p, 0) && |out| == |t|
    requires |ids| == |Siblings(t, p)| && SetTo(out, ids, Labels(Siblings(t, p)), |ids|)
    requires forall id :: 0 <= id < |t| && !(t[id].group && t[id].parent == p) ==> out[id] == labels[id]
    ensures Labelled(t, out, done + {p})
  {
    forall id | 0 <= id < |t| && t[id].group && t[id].parent == p ensures out[id] == LabelAt(t, id) {
      SetIsLabel(t, out, p, ids, id);
    }
    hide LabelAt;
  }

  lemma {:induction false} SetIsLabel(t: seq<Row>, out: seq<string>, p: int, ids: seq<nat>, id: nat)
    requires ids == GroupKids(t, p, 0) && |ids| == |Siblings(t, p)| && SetTo(out, ids, Labels(Siblings(t, p)), |ids|)
    requires id < |t| == |out| && t[id].group && t[id].parent == p
    ensures out[id] == LabelAt(t, id)
  {
    GroupKidAt(t, id);
  }

  /** The groups under each parent. */
  ghost predicate ByParent(t: seq<Row>, m: map<int, seq<nat>>) {
    forall p :: if p in m then m[p] == GroupKids(t, p, 0) else GroupKids(t, p, 0) == []
  }

  /** Labels the rows under every parent in m, whatever order the map has. */
  method LabelRows(t: seq<Row>, m: map<int, seq<nat>>) returns (labels: seq<string>)
    requires forall p :: p in m ==> m[p] == GroupKids(t, p, 0)
    ensures Labelled(t, labels, m.Keys)
  {
    labels := seq(|t|, i requires 0 <= i < |t| => t[i].name);
    var rest: set<int> := m.Keys;
    ghost var done: set<int> := {};
    while rest != {}
      invariant Labelled(t, labels, done) && rest + done == m.Keys && rest !! done
      decreases |rest|
    {
      var p := AnyOf(rest);
      labels := ApplySiblingLabels(t, labels, p, m[p], done);
      done, rest := done + {p}, rest - {p};
    }
    assert done == m.Keys;
  }

  lemma {:induction false} GroupUnderItsParent(t: seq<Row>, id: nat)
    requires id < |t| && t[id].group
    ensures GroupKids(t, t[id].parent, 0) != []
  {
    GroupKidAt(t, id);
  }

  /** The label of every scope recorded in declaration order. */
  method ComputeScopeLabels(t: seq<Row>) returns (labels: seq<string>)
    requires forall i :: 0 <= i < |t| ==> t[i].group
    ensures |labels| == |t| && forall id :: 0 <= id < |t| ==> labels[id] == LabelAt(t, id)
  {
    var m: map<int, seq<nat>> := map[];
    var i := 0;
    while i < |t|
      invariant 0 <= i <= |t| && ByParent(t[..i], m)
    {
      var p := t[i].parent;
      forall q ensures GroupKids(t[..i + 1], q, 0) == GroupKids(t[..i], q, 0) + if q == p then [i] else [] {
        assert t[..i + 1] == t[..i] + [t[i]];
        GroupKidsAppend(t[..i], [t[i]], q, 0);
      }
      m := m[p := (if p in m then m[p] else []) + [i]];
      i := i + 1;
    }
    assert t[..i] == t;
    labels := LabelRows(t, m);
    forall id | 0 <= id < |t| ensures t[id].parent in m {
      GroupUnderItsParent(t, id);
    }
  }
}
