/** The report labels of one top-level scope in an arena that may hold others. */
module ArenaLabels {
  import opened Options
  import opened Declarations
  import opened ReportLabels
  import opened ScopeTables

  function TreeSize(t: Tree): nat {
    1 + if t.Scope? then ForestSize(t.kids) else 0
  }

  function ForestSize(f: Forest): nat {
    match f
    case Empty => 0
    case Grow(t, rest) => TreeSize(t) + ForestSize(rest)
  }

  lemma {:induction false} SizeOfTree(t: Tree, parent: int, base: nat)
    ensures |TreeRows(t, parent, base, true)| == TreeSize(t)
    decreases t, 0
  {
    if t.Scope? { SizeOfForest(t.kids, base, base + 1); }
  }

  lemma {:induction false} SizeOfForest(f: Forest, parent: int, base: nat)
    ensures |Rows(f, parent, base, true)| == ForestSize(f)
    decreases f, 0
  {
    if f.Grow? {
      SizeOfTree(f.first, parent, base);
      SizeOfForest(f.rest, parent, base + TreeSize(f.first));
    }
  }

  /** Node id of an arena is t, its descendants right after it. */
  ghost predicate TreeAt(rows: seq<Row>, children: seq<seq<nat>>, t: Tree, parent: int, id: nat)
    decreases t, 0
  {
    && id < |rows| == |children| && rows[id] == Row(parent, t.name, t.Scope?)
    && children[id] == (if t.Scope? then Places(t.kids, id + 1, true) else [])
    && (t.Scope? ==> ForestAt(rows, children, t.kids, id, id + 1))
  }

  ghost predicate ForestAt(rows: seq<Row>, children: seq<seq<nat>>, f: Forest, parent: int, base: nat)
    decreases f, 0
  {
    f.Grow? ==> TreeAt(rows, children, f.first, parent, base)
                && ForestAt(rows, children, f.rest, parent, base + TreeSize(f.first))
  }

  ghost predicate KidsMatch(rows: seq<Row>, children: seq<seq<nat>>) {
    |children| == |rows| && forall id :: 0 <= id < |rows| ==> children[id] == Kids(rows, id, 0)
  }

  lemma {:induction false} FirstPlace(f: Forest, base: nat)
    requires f.Grow?
    ensures Places(f, base, true) == [base] + Places(f.rest, base + TreeSize(f.first), true)
  {
    SizeOfTree(f.first, 0, base);
  }

  lemma {:induction false} LeafRows(f: Forest, parent: int, base: nat) returns (rest: seq<Row>)
    requires f.Grow? && f.first.Leaf? && parent < base
    ensures Rows(f, parent, base, true) == [Row(parent, f.first.name, false)] + rest
    ensures NoneUnder(rest, base)
  {
    rest := Rows(f.rest, parent, base + 1, true);
    RowsInside(f.rest, parent, base + 1, true);
  }

  lemma {:induction false} NoneUnderAny(a: seq<Row>, b: seq<Row>, c: seq<Row>, p: nat, t: seq<Row>)
    requires NoneUnder(a, p) && NoneUnder(b, p) && NoneUnder(c, p) && t == a + b + c
    ensures Kids(t, p, 0) == []
  {
    NoKids(t, p, 0);
  }

  lemma {:induction false} NoneUnderOne(row: Row, rest: seq<Row>, p: nat, t: seq<Row>)
    requires row.parent != p && NoneUnder(rest, p) && t == [row] + rest
    ensures NoneUnder(t, p)
  {
  }

  /** A leaf has no row under it. */
  lemma {:induction false} LeafIsChildless(pre: seq<Row>, f: Forest, post: seq<Row>, parent: int)
    requires Placed(pre, f, post, parent, true) && f.Grow? && f.first.Leaf?
    ensures Kids(Table(pre, f, post, parent, true), |pre|, 0) == []
  {
    var rest := LeafRows(f, parent, |pre|);
    var mine := Rows(f, parent, |pre|, true);
    NoneUnderOne(Row(parent, f.first.name, false), rest, |pre|, mine);
    NoneUnderAny(pre, mine, post, |pre|, Table(pre, f, post, parent, true));
    hide *;
  }

  lemma {:induction false} PlacedIsAt(pre: seq<Row>, f: Forest, post: seq<Row>, parent: int, rows: seq<Row>,
      children: seq<seq<nat>>)
    requires Placed(pre, f, post, parent, true) && rows == Table(pre, f, post, parent, true)
    requires KidsMatch(rows, children)
    ensures ForestAt(rows, children, f, parent, |pre|)
    decreases f, 1
  {
    hide Placed, Table, Rows, TreeRows, Kids, TreeAt, KidsMatch;
    if f.Grow? {
      var before := PlacedRest(pre, f, post, parent, true);
      SizeOfTree(f.first, parent, |pre|);
      PlacedIsAt(before, f.rest, post, parent, rows, children);
      PlacedTreeIsAt(pre, f, post, parent, rows, children);
    }
  }

  lemma {:induction false} PlacedTreeIsAt(pre: seq<Row>, f: Forest, post: seq<Row>, parent: int, rows: seq<Row>,
      children: seq<seq<nat>>)
    requires Placed(pre, f, post, parent, true) && rows == Table(pre, f, post, parent, true)
    requires KidsMatch(rows, children)
    requires f.Grow?
    ensures TreeAt(rows, children, f.first, parent, |pre|)
    decreases f, 0
  {
    hide Placed, Table, Rows, TreeRows, Kids, ForestAt, Places;
    FirstRow(pre, f, post, parent);
    if f.first.Scope? {
      var inner, after := PlacedKids(pre, f, post, parent, true);
      UnderPlaced(inner, f.first.kids, after, |pre|, true);
      var places := Places(f.first.kids, |pre| + 1, true);
      assert [] + places == places;
      PlacedIsAt(inner, f.first.kids, after, |pre|, rows, children);
    } else {
      LeafIsChildless(pre, f, post, parent);
    }
  }

  lemma {:induction false} FirstRow(pre: seq<Row>, f: Forest, post: seq<Row>, parent: int)
    requires Placed(pre, f, post, parent, true) && f.Grow?
    ensures var t := Table(pre, f, post, parent, true);
            |pre| < |t| && t[|pre|] == Row(parent, f.first.name, f.first.Scope?)
  {
    TreeRowsInside(f.first, parent, |pre|, true);
    assert Rows(f, parent, |pre|, true)[0] == TreeRows(f.first, parent, |pre|, true)[0];
  }

  // ---- Collecting the groups under each parent ----

  /** The groups among some places. */
  function OnlyGroups(rows: seq<Row>, ids: seq<nat>): seq<nat>
    requires forall i :: 0 <= i < |ids| ==> ids[i] < |rows|
  {
    if ids == [] then []
    else OnlyGroups(rows, ids[..|ids| - 1]) + if rows[ids[|ids| - 1]].group then [ids[|ids| - 1]] else []
  }

  lemma {:induction false} KidsAreRows(rows: seq<Row>, p: int, off: nat)
    ensures forall i :: 0 <= i < |Kids(rows, p, off)| ==> off <= Kids(rows, p, off)[i] < off + |rows|
  {
    if rows != [] { KidsAreRows(rows[1..], p, off + 1); }
  }

  lemma {:induction false} OneKid(row: Row, p: int, n: nat)
    ensures Kids([row], p, n) == if row.parent == p then [n] else []
    ensures GroupKids([row], p, n) == if row.parent == p && row.group then [n] else []
  {
    assert [row][1..] == [];
  }

  lemma {:induction false} OnlyGroupsAppend(rows: seq<Row>, ids: seq<nat>, n: nat)
    requires n < |rows| && forall i :: 0 <= i < |ids| ==> ids[i] < |rows|
    ensures OnlyGroups(rows, ids + [n]) == OnlyGroups(rows, ids) + if rows[n].group then [n] else []
  {
    assert (ids + [n])[..|ids|] == ids;
  }

  lemma {:induction false} GroupsAmongKids(rows: seq<Row>, all: seq<Row>, p: int)
    requires rows <= all
    ensures forall i :: 0 <= i < |Kids(rows, p, 0)| ==> Kids(rows, p, 0)[i] < |all|
    ensures GroupKids(rows, p, 0) == OnlyGroups(all, Kids(rows, p, 0))
  {
    KidsAreRows(rows, p, 0);
    if rows == [] { return; }
    var n := |rows| - 1;
    var before := rows[..n];
    assert rows == before + [rows[n]] && all[n] == rows[n];
    hide *;
    GroupsAmongKids(before, all, p);
    LastKid(rows, before, rows[n], p);
    if rows[n].parent == p {
      OneMoreKid(all, n, Kids(before, p, 0), Kids(rows, p, 0), GroupKids(before, p, 0), GroupKids(rows, p, 0));
    } else {
      Unchanged(Kids(before, p, 0), Kids(rows, p, 0));
      Unchanged(GroupKids(before, p, 0), GroupKids(rows, p, 0));
    }
  }

  lemma {:induction false} LastKid(rows: seq<Row>, before: seq<Row>, row: Row, p: int)
    requires rows == before + [row]
    ensures Kids(rows, p, 0) == Kids(before, p, 0) + if row.parent == p then [|before|] else []
    ensures GroupKids(rows, p, 0) == GroupKids(before, p, 0) + if row.parent == p && row.group then [|before|] else []
  {
    hide *;
    KidsAppend(before, [row], p, 0);
    GroupKidsAppend(before, [row], p, 0);
    OneKid(row, p, |before|);
  }

  lemma {:induction false} Unchanged(s: seq<nat>, t: seq<nat>)
    requires t == s + []
    ensures t == s
  {
  }

  lemma {:induction false} OneMoreKid(all: seq<Row>, n: nat, k: seq<nat>, k': seq<nat>, g: seq<nat>, g': seq<nat>)
    requires n < |all| && forall i :: 0 <= i < |k| ==> k[i] < |all|
    requires g == OnlyGroups(all, k) && k' == k + [n]
    requires all[n].group ==> g' == g + [n]
    requires !all[n].group ==> g' == g + []
    ensures (forall i :: 0 <= i < |k'| ==> k'[i] < |all|) && g' == OnlyGroups(all, k')
  {
    hide *;
    OnlyGroupsAppend(all, k, n);
  }

  /** m has the groups under every parent from lo to before hi; those in busy
      are still being collected. */
  ghost predicate Collected(rows: seq<Row>, m: map<int, seq<nat>>, lo: int, hi: int, busy: set<int>) {
    forall p {:trigger p in m} :: p !in busy ==>
      if lo <= p < hi && GroupKids(rows, p, 0) != [] then p in m && m[p] == GroupKids(rows, p, 0) else p !in m
  }

  /** What was collected so far under the parents in busy stays. */
  ghost predicate Undisturbed(m: map<int, seq<nat>>, m': map<int, seq<nat>>, busy: set<int>) {
    forall p {:trigger p in m'} :: p in busy ==> (p in m' <==> p in m) && (p in m ==> m'[p] == m[p])
  }

  ghost predicate Listed(m: map<int, seq<nat>>, id: int, groups: seq<nat>) {
    if groups == [] then id !in m else id in m && m[id] == groups
  }

  method AddGroup(m: map<int, seq<nat>>, rows: seq<Row>, id: int, cid: nat, ghost kids: seq<nat>, ghost i: nat)
    returns (m': map<int, seq<nat>>)
    requires i < |kids| && cid == kids[i] && forall j :: 0 <= j < |kids| ==> kids[j] < |rows|
    requires Listed(m, id, OnlyGroups(rows, kids[..i]))
    ensures Listed(m', id, OnlyGroups(rows, kids[..i + 1]))
    ensures forall p {:trigger p in m'} :: p != id ==> (p in m' <==> p in m) && (p in m ==> m'[p] == m[p])
  {
    assert kids[..i + 1][..i] == kids[..i];
    m' := if rows[cid].group then m[id := (if id in m then m[id] else []) + [cid]] else m;
  }

  method Visit(rows: seq<Row>, children: seq<seq<nat>>, id: nat, m: map<int, seq<nat>>, ghost lo: nat,
      ghost parent: int,
      ghost t: Tree, ghost busy: set<int>) returns (m': map<int, seq<nat>>)
    requires KidsMatch(rows, children) && TreeAt(rows, children, t, parent, id) && lo <= id
    requires Collected(rows, m, lo, id, busy) && forall p :: p in busy ==> p < id
    ensures Collected(rows, m', lo, id + TreeSize(t), busy) && Undisturbed(m, m', busy)
    decreases |rows| - id, 1
  {
    hide *;
    ghost var base := id + 1;
    ghost var rest := KidsOf(rows, children, t, parent, id);
    StartListing(rows, m, lo, id, busy);
    m' := m;
    var kids := children[id];
    var i := 0;
    while i < |kids|
      invariant 0 <= i <= |kids| && id < base && base + ForestSize(rest) == id + TreeSize(t)
      invariant kids[i..] == Places(rest, base, true) && ForestAt(rows, children, rest, id, base)
      invariant Collected(rows, m', lo, base, busy + {id}) && Undisturbed(m, m', busy)
      invariant Listed(m', id, OnlyGroups(rows, kids[..i]))
    {
      m', rest, base := VisitKid(rows, children, id, kids, i, m, m', lo, rest, base, busy);
      i := i + 1;
    }
    assert kids[..i] == kids;
    NoMore(rest, base);
    EndListing(rows, m, m', lo, base, busy, id);
  }

  lemma {:induction false} NoMore(f: Forest, base: nat)
    requires Places(f, base, true) == []
    ensures f == Empty && ForestSize(f) == 0
  {
  }

  /** What a node's place says about its children. */
  lemma {:induction false} KidsOf(rows: seq<Row>, children: seq<seq<nat>>, t: Tree, parent: int,
      id: nat) returns (kids: Forest)
    requires KidsMatch(rows, children) && TreeAt(rows, children, t, parent, id)
    ensures id < |children| == |rows| && children[id] == Places(kids, id + 1, true)
    ensures ForestAt(rows, children, kids, id, id + 1) && id + 1 + ForestSize(kids) == id + TreeSize(t)
    ensures children[id] == Kids(rows, id, 0) && forall i :: 0 <= i < |children[id]| ==> children[id][i] < |rows|
    ensures OnlyGroups(rows, children[id][..0]) == []
  {
    kids := if t.Scope? then t.kids else Empty;
    KidsAreRows(rows, id, 0);
  }

  method VisitKid(rows: seq<Row>, children: seq<seq<nat>>, id: nat, kids: seq<nat>, i: nat, ghost m: map<int, seq<nat>>,
      m1: map<int, seq<nat>>, ghost lo: nat, ghost rest: Forest, ghost base: nat, ghost busy: set<int>)
    returns (m': map<int, seq<nat>>, ghost rest': Forest, ghost base': nat)
    requires KidsMatch(rows, children) && i < |kids| && lo <= id < base && id < |rows| && forall p :: p in busy ==>
              p < id
    requires forall j :: 0 <= j < |kids| ==> kids[j] < |rows|
    requires kids[i..] == Places(rest, base, true) && ForestAt(rows, children, rest, id, base)
    requires Collected(rows, m1, lo, base, busy + {id}) && Undisturbed(m, m1, busy)
    requires Listed(m1, id, OnlyGroups(rows, kids[..i]))
    ensures id < base' && base' + ForestSize(rest') == base + ForestSize(rest)
    ensures kids[i + 1..] == Places(rest', base', true) && ForestAt(rows, children, rest', id, base')
    ensures Collected(rows, m', lo, base', busy + {id}) && Undisturbed(m, m', busy)
    ensures Listed(m', id, OnlyGroups(rows, kids[..i + 1]))
    decreases |rows| - id, 0
  {
    hide *;
    NextKid(rows, children, kids, i, rest, id, base);
    rest', base' := rest.rest, base + TreeSize(rest.first);
    var listed := AddGroup(m1, rows, id, kids[i], kids, i);
    GroupAdded(rows, m, m1, listed, lo, base, busy, id);
    m' := Visit(rows, children, kids[i], listed, lo, id, rest.first, busy + {id});
    ChildVisited(rows, m, listed, m', busy, id, OnlyGroups(rows, kids[..i + 1]));
  }

  lemma {:induction false} NextKid(rows: seq<Row>, children: seq<seq<nat>>, kids: seq<nat>, i: nat, rest: Forest,
      parent: int, base: nat)
    requires i < |kids| && kids[i..] == Places(rest, base, true) && ForestAt(rows, children, rest, parent, base)
    ensures rest.Grow? && kids[i] == base && TreeAt(rows, children, rest.first, parent, base)
    ensures kids[i + 1..] == Places(rest.rest, base + TreeSize(rest.first), true)
    ensures ForestAt(rows, children, rest.rest, parent, base + TreeSize(rest.first))
    ensures ForestSize(rest) == TreeSize(rest.first) + ForestSize(rest.rest)
  {
    assert rest.Grow?;
    FirstPlace(rest, base);
    assert kids[i..] == [kids[i]] + kids[i + 1..];
    hide TreeAt;
  }

  lemma {:induction false} StartListing(rows: seq<Row>, m: map<int, seq<nat>>, lo: nat, id: nat, busy: set<int>)
    requires Collected(rows, m, lo, id, busy) && forall p :: p in busy ==> p < id
    ensures Collected(rows, m, lo, id + 1, busy + {id}) && Listed(m, id, []) && Undisturbed(m, m, busy)
  {
    assert id !in busy && id !in m;
  }

  lemma {:induction false} GroupAdded(rows: seq<Row>, m: map<int, seq<nat>>, before: map<int, seq<nat>>,
      m': map<int, seq<nat>>, lo: nat,
      hi: nat, busy: set<int>, id: nat)
    requires Collected(rows, before, lo, hi, busy + {id}) && Undisturbed(m, before, busy) && id !in busy
    requires forall p {:trigger p in m'} :: p != id ==> (p in m' <==> p in before) && (p in before ==>
              m'[p] == before[p])
    ensures Collected(rows, m', lo, hi, busy + {id}) && Undisturbed(m, m', busy)
  {
    var b := busy + {id};
    forall p | p !in b
      ensures if lo <= p < hi && GroupKids(rows, p, 0) != [] then p in m' && m'[p] == GroupKids(rows, p, 0)
              else p !in m'
    {
      assert id in b && p != id;
      assert p in m' <==> p in before;
    }
    assert Collected(rows, m', lo, hi, b);
    forall p | p in busy ensures (p in m' <==> p in m) && (p in m ==> m'[p] == m[p]) {
      assert p != id && (p in m' <==> p in before);
    }
  }

  lemma {:induction false} ChildVisited(rows: seq<Row>, m: map<int, seq<nat>>, listed: map<int, seq<nat>>,
      m': map<int, seq<nat>>,
      busy: set<int>, id: nat, groups: seq<nat>)
    requires Undisturbed(listed, m', busy + {id}) && Undisturbed(m, listed, busy) && Listed(listed, id, groups)
    ensures Undisturbed(m, m', busy) && Listed(m', id, groups)
  {
    assert id in busy + {id};
  }

  lemma {:induction false} EndListing(rows: seq<Row>, m: map<int, seq<nat>>, m': map<int, seq<nat>>, lo: nat, hi: nat,
      busy: set<int>, id: nat)
    requires lo <= id < hi && forall p :: p in busy ==> p < id
    requires Collected(rows, m', lo, hi, busy + {id})
    requires forall i :: 0 <= i < |Kids(rows, id, 0)| ==> Kids(rows, id, 0)[i] < |rows|
    requires Listed(m', id, OnlyGroups(rows, Kids(rows, id, 0)))
    ensures Collected(rows, m', lo, hi, busy)
  {
    GroupsAmongKids(rows, rows, id);
  }

  // ---- The labels of a top-level scope ----

  /** The groups of f, placed at base, have the labels of suite from number n
      on. */
  ghost predicate ForestLabelled(labels: seq<string>, f: Forest, base: nat, suite: seq<string>, n: nat)
    decreases f, 0
  {
    f.Grow? ==>
      && TreeLabelled(labels, f.first, base, suite, n)
      && ForestLabelled(labels, f.rest, base + TreeSize(f.first), suite,
                        n + if f.first.Scope? then 1 + Groups(f.first.kids) else 0)
  }

  ghost predicate TreeLabelled(labels: seq<string>, t: Tree, base: nat, suite: seq<string>, n: nat)
    decreases t, 0
  {
    t.Scope? ==>
      && base < |labels| && n < |suite| && labels[base] == suite[n]
      && ForestLabelled(labels, t.kids, base + 1, suite, n + 1)
  }

  ghost predicate LabelledFrom(rows: seq<Row>, labels: seq<string>, from: nat) {
    |labels| == |rows| && forall id :: from <= id < |rows| && rows[id].group ==> labels[id] == LabelAt(rows, id)
  }

  /** The labels of f are those of suite from number n on. */
  ghost predicate Within(f: Forest, elders: seq<string>, suite: seq<string>, n: nat) {
    && n + Groups(f) <= |suite|
    && suite[n..n + Groups(f)] == ForestLabels(f, elders + GroupNames(f), |elders|)
  }

  lemma {:induction false} Split3<T>(all: seq<T>, s: seq<T>, n: nat, l: T, k: seq<T>, r: seq<T>)
    requires n + |all| <= |s| && s[n..n + |all|] == all && all == [l] + k + r
    ensures s[n] == l && s[n + 1..n + 1 + |k|] == k && s[n + 1 + |k|..n + 1 + |k| + |r|] == r
  {
    assert s[n] == all[0];
    forall i | 0 <= i < |k| ensures s[n + 1 + i] == k[i] {
      assert all[1 + i] == k[i];
    }
    forall i | 0 <= i < |r| ensures s[n + 1 + |k| + i] == r[i] {
      assert all[1 + |k| + i] == r[i];
    }
  }

  lemma {:induction false} WithinGroup(f: Forest, elders: seq<string>, suite: seq<string>, n: nat)
    requires f.Grow? && f.first.Scope? && Within(f, elders, suite, n)
    ensures n < |suite| && suite[n] == Labels(elders + GroupNames(f))[|elders|]
    ensures Within(f.first.kids, [], suite, n + 1)
    ensures Within(f.rest, elders + [f.first.name], suite, n + 1 + Groups(f.first.kids))
  {
    GroupParts(f, 0, 1, elders);
    var names, sibs := GroupNames(f.first.kids), elders + GroupNames(f);
    assert [] + names == names;
    var k, r := ForestLabels(f.first.kids, names, 0), ForestLabels(f.rest, sibs, |elders| + 1);
    Split3(ForestLabels(f, sibs, |elders|), suite, n, Labels(sibs)[|elders|], k, r);
    hide ForestLabels, Labels, Groups, GroupNames;
  }

  lemma {:induction false} WithinParts(f: Forest, elders: seq<string>, suite: seq<string>, n: nat)
    requires f.Grow? && Within(f, elders, suite, n)
    ensures f.first.Leaf? ==> Within(f.rest, elders, suite, n)
    ensures f.first.Scope? ==>
              && n < |suite| && suite[n] == Labels(elders + GroupNames(f))[|elders|]
              && Within(f.first.kids, [], suite, n + 1)
              && Within(f.rest, elders + [f.first.name], suite, n + 1 + Groups(f.first.kids))
  {
    if f.first.Scope? {
      WithinGroup(f, elders, suite, n);
      hide *;
    } else {
      SkipLeaf(f, 0, 1);
      hide ForestLabels, Labels, GroupNames;
    }
  }

  lemma {:induction false} PlacedLabelled(pre: seq<Row>, f: Forest, post: seq<Row>, parent: int, rows: seq<Row>,
      labels: seq<string>, elders: seq<string>, suite: seq<string>, n: nat)
    requires Placed(pre, f, post, parent, true) && rows == Table(pre, f, post, parent, true)
    requires LabelledFrom(rows, labels, |pre|)
    requires elders == Siblings(pre, parent) && Within(f, elders, suite, n)
    ensures ForestLabelled(labels, f, |pre|, suite, n)
    decreases f, 1
  {
    hide Placed, Table, Within, LabelledFrom, TreeLabelled, TreeRows, Siblings;
    if f.Grow? {
      WithinParts(f, elders, suite, n);
      SizeOfTree(f.first, parent, |pre|);
      var before := PlacedRest(pre, f, post, parent, true);
      StillLabelled(rows, labels, |pre|, |before|);
      if f.first.Leaf? {
        PlacedLabelled(before, f.rest, post, parent, rows, labels, elders, suite, n);
        LeafLabelled(labels, f.first, |pre|, suite, n);
      } else {
        PlacedLabelled(before, f.rest, post, parent, rows, labels, elders + [f.first.name], suite,
          n + 1 + Groups(f.first.kids));
        PlacedTreeLabelled(pre, f, post, parent, rows, labels, elders, suite, n);
      }
    }
  }

  lemma {:induction false} LeafLabelled(labels: seq<string>, t: Tree, base: nat, suite: seq<string>, n: nat)
    requires t.Leaf?
    ensures TreeLabelled(labels, t, base, suite, n)
  {
  }

  lemma {:induction false} StillLabelled(rows: seq<Row>, labels: seq<string>, from: nat, from': nat)
    requires LabelledFrom(rows, labels, from) && from <= from'
    ensures LabelledFrom(rows, labels, from')
  {
  }

  lemma {:induction false} PlacedTreeLabelled(pre: seq<Row>, f: Forest, post: seq<Row>, parent: int, rows: seq<Row>,
      labels: seq<string>, elders: seq<string>, suite: seq<string>, n: nat)
    requires Placed(pre, f, post, parent, true) && rows == Table(pre, f, post, parent, true)
    requires LabelledFrom(rows, labels, |pre|)
    requires elders == Siblings(pre, parent) && Within(f, elders, suite, n) && f.Grow? && f.first.Scope?
    ensures TreeLabelled(labels, f.first, |pre|, suite, n)
    decreases f, 0
  {
    hide Placed, Table, Within, TreeRows, Siblings, ForestLabelled, LabelAt;
    WithinParts(f, elders, suite, n);
    LabelOfFirst(pre, f, post, parent, true);
    var inner, after := PlacedKids(pre, f, post, parent, true);
    StillLabelled(rows, labels, |pre|, |inner|);
    PlacedLabelled(inner, f.first.kids, after, |pre|, rows, labels, [], suite, n + 1);
  }

  /** The labels of the top-level scope last declared into an arena. */
  method ComputeArenaGroupLabels(rows: seq<Row>, children: seq<seq<nat>>, rootID: nat, ghost pre: seq<Row>,
      ghost parent: int, ghost t: Tree) returns (labels: seq<string>)
    requires Placed(pre, Grow(t, Empty), [], parent, true) && rows == Table(pre, Grow(t, Empty), [], parent, true)
    requires KidsMatch(rows, children) && rootID == |pre| && t.Scope?
    ensures TreeLabelled(labels, t, rootID, SuiteLabels(t.name, t.kids), 0)
  {
    hide *;
    var m: map<int, seq<nat>> := map[];
    PlacedTreeIsAt(pre, Grow(t, Empty), [], parent, rows, children);
    ghost var none: set<int> := {};
    NothingCollected(rows, m, rootID, none);
    m := Visit(rows, children, rootID, m, rootID, parent, t, none);
    WholeTable(pre, t, parent, rows);
    CollectedAll(rows, m, rootID, none);
    labels := LabelRows(rows, m);
    RootLabelled(pre, t, parent, rows, labels, m, none);
  }

  lemma {:induction false} NothingCollected(rows: seq<Row>, m: map<int, seq<nat>>, id: nat, none: set<int>)
    requires m == map[] && none == {}
    ensures Collected(rows, m, id, id, none) && forall p :: p in none ==> p < id
  {
  }

  lemma {:induction false} WholeTable(pre: seq<Row>, t: Tree, parent: int, rows: seq<Row>)
    requires Placed(pre, Grow(t, Empty), [], parent, true) && rows == Table(pre, Grow(t, Empty), [], parent, true)
    ensures |rows| == |pre| + TreeSize(t) && parent < |pre|
    ensures rows == pre + TreeRows(t, parent, |pre|, true)
  {
    SizeOfTree(t, parent, |pre|);
    var r := TreeRows(t, parent, |pre|, true);
    assert Rows(Grow(t, Empty), parent, |pre|, true) == r + [];
    hide Rows, TreeRows;
    assert r + [] == r && pre + r + [] == pre + r;
  }

  lemma {:induction false} CollectedAll(rows: seq<Row>, m: map<int, seq<nat>>, lo: nat, none: set<int>)
    requires Collected(rows, m, lo, |rows|, none) && none == {}
    ensures forall p :: p in m ==> m[p] == GroupKids(rows, p, 0)
  {
  }

  lemma {:induction false} RootLabelled(pre: seq<Row>, t: Tree, parent: int, rows: seq<Row>, labels: seq<string>,
      m: map<int, seq<nat>>, none: set<int>)
    requires Placed(pre, Grow(t, Empty), [], parent, true) && rows == Table(pre, Grow(t, Empty), [], parent, true)
    requires none == {} && t.Scope? && Collected(rows, m, |pre|, |rows|, none) && Labelled(rows, labels, m.Keys)
    ensures TreeLabelled(labels, t, |pre|, SuiteLabels(t.name, t.kids), 0)
  {
    var f := Grow(t, Empty);
    var suite := SuiteLabels(t.name, t.kids);
    WholeTable(pre, t, parent, rows);
    TreeRowsInside(t, parent, |pre|, true);
    FirstRow(pre, f, [], parent);
    SubtreeLabelled(pre, t, parent, rows, labels, m, none);
    hide Placed, Table, SuiteLabels, Collected, LabelAt, Rows, TreeRows, Labelled, Within, ForestLabelled;
    SuiteWithin(t);
    var inner, after := PlacedKids(pre, f, [], parent, true);
    PlacedLabelled(inner, t.kids, after, |pre|, rows, labels, [], suite, 1);
  }

  lemma {:induction false} SuiteWithin(t: Tree)
    requires t.Scope?
    ensures Within(t.kids, [], SuiteLabels(t.name, t.kids), 1) && SuiteLabels(t.name, t.kids)[0] == t.name
  {
    var names := GroupNames(t.kids);
    assert [] + names == names;
  }

  /** Every group below the root has its label; the root keeps its name. */
  lemma {:induction false} SubtreeLabelled(pre: seq<Row>, t: Tree, parent: int, rows: seq<Row>, labels: seq<string>,
      m: map<int, seq<nat>>,
      none: set<int>)
    requires rows == pre + TreeRows(t, parent, |pre|, true) && parent < |pre| < |rows| && t.Scope?
    requires none == {} && Collected(rows, m, |pre|, |rows|, none) && Labelled(rows, labels, m.Keys)
    ensures LabelledFrom(rows, labels, |pre| + 1) && labels[|pre|] == t.name
  {
    TreeRowsInside(t, parent, |pre|, true);
    var r := TreeRows(t, parent, |pre|, true);
    hide LabelAt, TreeRows;
    forall id | |pre| + 1 <= id < |rows| && rows[id].group ensures labels[id] == LabelAt(rows, id) {
      GroupUnderItsParent(rows, id);
      assert rows[id] == r[1..][id - |pre| - 1];
      assert rows[id].parent in m;
    }
    assert rows[|pre|] == r[0] && parent !in m;
  }
}
