/** How hook groups and parallel runs divide the specs of a plan, and how the
    runner recovers it from the ranges alone. */
module Sections {
  import opened Options
  import opened Plans
  import opened Permutations

  /** A spec of its own, a run of n parallel specs, or a group and what it
      encloses. */
  datatype Section = OneSpec | Batch(n: nat) | Nest(g: nat, body: seq<Section>)

  function Size(s: Section): nat
    decreases s, 0
  {
    match s
    case OneSpec => 1
    case Batch(n) => n
    case Nest(_, body) => SizeAll(body)
  }

  function SizeAll(ss: seq<Section>): nat
    decreases ss, 0
  {
    if ss == [] then 0 else Size(ss[0]) + SizeAll(ss[1..])
  }

  /** Section s begins at spec lo; groups enclosed in others have longer paths. */
  ghost predicate Laid(s: Section, lo: nat, groups: seq<Group>, depth: nat)
    decreases s, 0
  {
    && Size(s) > 0
    && match s {
         case OneSpec => true
         case Batch(n) => true
         case Nest(g, body) =>
           && g < |groups| && groups[g].first == lo && groups[g].last == lo + SizeAll(body) - 1
           && |groups[g].path| > depth
           && LaidAll(body, lo, groups, |groups[g].path|)
       }
  }

  ghost predicate LaidAll(ss: seq<Section>, lo: nat, groups: seq<Group>, depth: nat)
    decreases ss, 0
  {
    ss != [] ==> Laid(ss[0], lo, groups, depth) && LaidAll(ss[1..], lo + Size(ss[0]), groups, depth)
  }

  /** The groups, each before those it encloses. */
  function PreOrder(s: Section): seq<nat>
    decreases s, 0
  {
    match s
    case Nest(g, body) => [g] + PreOrderAll(body)
    case _ => []
  }

  function PreOrderAll(ss: seq<Section>): seq<nat>
    decreases ss, 0
  {
    if ss == [] then [] else PreOrder(ss[0]) + PreOrderAll(ss[1..])
  }

  /** The groups enclosed in no other. */
  function TopIds(ss: seq<Section>): seq<nat> {
    if ss == [] then [] else (if ss[0].Nest? then [ss[0].g] else []) + TopIds(ss[1..])
  }

  // ---- The order the runner sorts groups in ----

  function CompareGroups(groups: seq<Group>, a: nat, b: nat): int
    requires a < |groups| && b < |groups|
  {
    var x, y := groups[a], groups[b];
    if x.first != y.first then x.first - y.first
    else if x.last != y.last then y.last - x.last
    else |x.path| - |y.path|
  }

  /** Every group of ids lies between lo and hi and has a path longer than
      depth. */
  ghost predicate Between(groups: seq<Group>, ids: seq<nat>, lo: int, hi: int, depth: int) {
    forall i :: 0 <= i < |ids| ==>
      ids[i] < |groups| && lo <= groups[ids[i]].first <= groups[ids[i]].last < hi && |groups[ids[i]].path| > depth
  }

  /** Group h is inside group g, or is g. */
  predicate Within(groups: seq<Group>, h: nat, g: nat) {
    && g < |groups| && h < |groups|
    && (h == g || (groups[g].first <= groups[h].first && groups[h].last <= groups[g].last
                   && |groups[g].path| < |groups[h].path|))
  }

  ghost predicate StrictlySorted(groups: seq<Group>, ids: seq<nat>) {
    && (forall i :: 0 <= i < |ids| ==> ids[i] < |groups|)
    && forall i, j :: 0 <= i < j < |ids| ==> CompareGroups(groups, ids[i], ids[j]) < 0
  }

  lemma {:induction false} PreOrderBetween(s: Section, lo: nat, groups: seq<Group>, depth: nat)
    requires Laid(s, lo, groups, depth)
    ensures Between(groups, PreOrder(s), lo, lo + Size(s), depth)
    decreases s, 0
  {
    if s.Nest? {
      PreOrderAllBetween(s.body, lo, groups, |groups[s.g].path|);
    }
  }

  lemma {:induction false} PreOrderAllBetween(ss: seq<Section>, lo: nat, groups: seq<Group>, depth: nat)
    requires LaidAll(ss, lo, groups, depth)
    ensures Between(groups, PreOrderAll(ss), lo, lo + SizeAll(ss), depth)
    decreases ss, 0
  {
    if ss != [] {
      PreOrderBetween(ss[0], lo, groups, depth);
      PreOrderAllBetween(ss[1..], lo + Size(ss[0]), groups, depth);
    }
  }

  lemma {:induction false} PreOrderSorted(s: Section, lo: nat, groups: seq<Group>, depth: nat)
    requires Laid(s, lo, groups, depth)
    ensures StrictlySorted(groups, PreOrder(s))
    decreases s, 0
  {
    if s.Nest? {
      PreOrderAllSorted(s.body, lo, groups, |groups[s.g].path|);
      PreOrderAllBetween(s.body, lo, groups, |groups[s.g].path|);
    }
  }

  lemma {:induction false} PreOrderAllSorted(ss: seq<Section>, lo: nat, groups: seq<Group>, depth: nat)
    requires LaidAll(ss, lo, groups, depth)
    ensures StrictlySorted(groups, PreOrderAll(ss))
    decreases ss, 0
  {
    if ss != [] {
      PreOrderSorted(ss[0], lo, groups, depth);
      PreOrderBetween(ss[0], lo, groups, depth);
      PreOrderAllSorted(ss[1..], lo + Size(ss[0]), groups, depth);
      PreOrderAllBetween(ss[1..], lo + Size(ss[0]), groups, depth);
    }
  }

  ghost predicate WeaklySorted(groups: seq<Group>, ids: seq<nat>, n: nat) {
    && n <= |ids|
    && (forall i :: 0 <= i < |ids| ==> ids[i] < |groups|)
    && forall i, j :: 0 <= i < j < n ==> CompareGroups(groups, ids[i], ids[j]) <= 0
  }

  lemma {:induction false} CompareFlips(groups: seq<Group>, a: nat, b: nat)
    requires a < |groups| && b < |groups|
    ensures CompareGroups(groups, a, b) == -CompareGroups(groups, b, a)
  {
  }

  /** A stable sort by insertion. */
  method SortGroups(groups: seq<Group>) returns (order: seq<nat>)
    ensures IsPermutation(order, |groups|) && WeaklySorted(groups, order, |groups|)
  {
    order := seq(|groups|, i => i);
    var n := 0;
    while n < |groups|
      invariant 0 <= n <= |groups| && IsPermutation(order, |groups|) && WeaklySorted(groups, order, n)
    {
      order := InsertGroup(groups, order, n);
      n := n + 1;
    }
  }

  method InsertGroup(groups: seq<Group>, ids: seq<nat>, n: nat) returns (order: seq<nat>)
    requires n < |ids| == |groups| && IsPermutation(ids, |groups|) && WeaklySorted(groups, ids, n)
    ensures IsPermutation(order, |groups|) && WeaklySorted(groups, order, n + 1)
  {
    order := ids;
    var k := n;
    while k > 0 && CompareGroups(groups, order[k - 1], order[k]) > 0
      invariant 0 <= k <= n && IsPermutation(order, |groups|)
      invariant forall i, j :: 0 <= i < j <= n && i != k && j != k ==> CompareGroups(groups, order[i], order[j]) <= 0
      invariant forall j :: k < j <= n ==> CompareGroups(groups, order[k], order[j]) <= 0
    {
      CompareFlips(groups, order[k - 1], order[k]);
      hide CompareGroups;
      order := order[k - 1 := order[k]][k := order[k - 1]];
      k := k - 1;
    }
  }

  // ---- The sorted order is the order the groups enclose each other ----

  lemma {:induction false} AscendingIsIdentity(q: seq<nat>, n: nat, i: nat)
    requires |q| == n && i < n && (forall k :: 0 <= k < n ==> q[k] < n) && forall j, k :: 0 <= j < k < n ==> q[j] < q[k]
    ensures q[i] == i
  {
    AtLeast(q, i);
    AtMost(q, n, i);
  }

  lemma {:induction false} AtLeast(q: seq<nat>, i: nat)
    requires i < |q| && forall j, k :: 0 <= j < k < |q| ==> q[j] < q[k]
    ensures q[i] >= i
  {
    if i > 0 { AtLeast(q, i - 1); }
  }

  lemma {:induction false} AtMost(q: seq<nat>, n: nat, i: nat)
    requires |q| == n && i < n && (forall k :: 0 <= k < n ==> q[k] < n) && forall j, k :: 0 <= j < k < n ==> q[j] < q[k]
    ensures q[i] <= i
    decreases n - i
  {
    if i < n - 1 { AtMost(q, n, i + 1); }
  }

  /** There is one sorted arrangement of the groups. */
  lemma {:induction false} SortedIsPreOrder(groups: seq<Group>, order: seq<nat>, pre: seq<nat>)
    requires IsPermutation(order, |groups|) && WeaklySorted(groups, order, |groups|)
    requires IsPermutation(pre, |groups|) && StrictlySorted(groups, pre)
    ensures order == pre
  {
    var n := |groups|;
    var q: seq<nat> := [];
    while |q| < n
      invariant |q| <= n && forall i :: 0 <= i < |q| ==> q[i] < n && pre[q[i]] == order[i]
    {
      var k := PermutationHits(pre, n, order[|q|]);
      q := q + [k];
    }
    forall i, j | 0 <= i < j < n ensures q[i] < q[j] {
      assert pre[q[i]] == order[i] && pre[q[j]] == order[j] && order[i] != order[j];
      CompareFlips(groups, order[i], order[j]);
    }
    forall i | 0 <= i < n ensures order[i] == pre[i] {
      AscendingIsIdentity(q, n, i);
    }
  }

  // ---- Recovering who encloses whom ----

  datatype Links = Links(children: seq<seq<nat>>, top: seq<nat>, stack: seq<nat>)

  /** The stack without the groups that end before start. */
  function Pop(groups: seq<Group>, stack: seq<nat>, start: nat): (s: seq<nat>)
    requires forall i :: 0 <= i < |stack| ==> stack[i] < |groups|
    ensures |s| <= |stack| && s == stack[..|s|]
  {
    if stack != [] && groups[stack[|stack| - 1]].last < start then Pop(groups, stack[..|stack| - 1], start) else stack
  }

  ghost predicate LinksFit(groups: seq<Group>, l: Links) {
    |l.children| == |groups| && forall i :: 0 <= i < |l.stack| ==> l.stack[i] < |groups|
  }

  function Link(groups: seq<Group>, l: Links, g: nat): (l': Links)
    requires LinksFit(groups, l) && g < |groups|
    ensures LinksFit(groups, l')
  {
    var s := Pop(groups, l.stack, groups[g].first);
    if s == [] then Links(l.children, l.top + [g], [g])
    else
      var p := s[|s| - 1];
      Links(l.children[p := l.children[p] + [g]], l.top, s + [g])
  }

  function LinkAll(groups: seq<Group>, l: Links, ids: seq<nat>): (l': Links)
    requires LinksFit(groups, l) && forall i :: 0 <= i < |ids| ==> ids[i] < |groups|
    ensures LinksFit(groups, l')
    decreases ids
  {
    if ids == [] then l else LinkAll(groups, Link(groups, l, ids[0]), ids[1..])
  }

  lemma {:induction false} LinkAppend(groups: seq<Group>, l: Links, a: seq<nat>, b: seq<nat>)
    requires LinksFit(groups, l) && forall i :: 0 <= i < |a + b| ==> (a + b)[i] < |groups|
    requires (forall i :: 0 <= i < |a| ==> a[i] < |groups|) && forall i :: 0 <= i < |b| ==> b[i] < |groups|
    ensures LinkAll(groups, l, a + b) == LinkAll(groups, LinkAll(groups, l, a), b)
    decreases a
  {
    if a == [] {
      assert a + b == b;
    } else {
      assert (a + b)[1..] == a[1..] + b && (a + b)[0] == a[0];
      LinkAppend(groups, Link(groups, l, a[0]), a[1..], b);
    }
  }

  /** Each group's children are the groups right inside it. */
  ghost predicate Linked(s: Section, children: seq<seq<nat>>)
    decreases s, 0
  {
    s.Nest? ==> s.g < |children| && children[s.g] == TopIds(s.body) && LinkedAll(s.body, children)
  }

  ghost predicate LinkedAll(ss: seq<Section>, children: seq<seq<nat>>)
    decreases ss, 0
  {
    ss != [] ==> Linked(ss[0], children) && LinkedAll(ss[1..], children)
  }

  ghost predicate AllEndBefore(groups: seq<Group>, ids: seq<nat>, x: int) {
    forall i :: 0 <= i < |ids| ==> ids[i] < |groups| && groups[ids[i]].last < x
  }

  ghost predicate NoneEndsBefore(groups: seq<Group>, ids: seq<nat>, x: int) {
    forall i :: 0 <= i < |ids| ==> ids[i] < |groups| && groups[ids[i]].last >= x
  }

  lemma {:induction false} PopJunk(groups: seq<Group>, outer: seq<nat>, junk: seq<nat>, start: nat)
    requires NoneEndsBefore(groups, outer, start) && AllEndBefore(groups, junk, start)
    requires forall i :: 0 <= i < |outer + junk| ==> (outer + junk)[i] < |groups|
    ensures Pop(groups, outer + junk, start) == outer
    decreases junk
  {
    var s := outer + junk;
    if junk != [] {
      assert s[..|s| - 1] == outer + junk[..|junk| - 1] && s[|s| - 1] == junk[|junk| - 1];
      PopJunk(groups, outer, junk[..|junk| - 1], start);
    } else {
      assert s == outer;
    }
  }

  /** The groups being linked: distinct, none of them open yet, none with
      children yet. */
  ghost predicate Unlinked(l: Links, outer: seq<nat>, ids: seq<nat>) {
    && (forall i :: 0 <= i < |ids| ==> ids[i] < |l.children| && l.children[ids[i]] == [] && ids[i] !in outer)
    && forall i, j :: 0 <= i < j < |ids| ==> ids[i] != ids[j]
  }

  /** l' is l with more groups under the innermost open one, or on top. */
  ghost predicate Gains(l: Links, l': Links, outer: seq<nat>, more: seq<nat>) {
    && |l'.children| == |l.children|
    && if outer == [] then l'.top == l.top + more
       else
         var p := outer[|outer| - 1];
         p < |l.children| && l'.top == l.top && l'.children[p] == l.children[p] + more
  }

  /** Only the groups in ids, and the innermost open one, change. */
  ghost predicate Untouched(l: Links, l': Links, outer: seq<nat>, ids: seq<nat>) {
    |l'.children| == |l.children|
    && forall i :: 0 <= i < |l.children| && i !in ids && (outer == [] || i != outer[|outer| - 1]) ==>
         l'.children[i] == l.children[i]
  }

  ghost predicate SameOn(children: seq<seq<nat>>, children': seq<seq<nat>>, ids: seq<nat>) {
    |children'| == |children| && forall i :: 0 <= i < |ids| && ids[i] < |children| ==>
        children'[ids[i]] == children[ids[i]]
  }

  lemma {:induction false} LinkedStays(s: Section, children: seq<seq<nat>>, children': seq<seq<nat>>)
    requires Linked(s, children) && SameOn(children, children', PreOrder(s))
    ensures Linked(s, children')
    decreases s, 0
  {
    if s.Nest? {
      assert PreOrder(s)[0] == s.g;
      assert SameOn(children, children', PreOrderAll(s.body)) by {
        forall i | 0 <= i < |PreOrderAll(s.body)| && PreOrderAll(s.body)[i] < |children|
          ensures children'[PreOrderAll(s.body)[i]] == children[PreOrderAll(s.body)[i]]
        {
          assert PreOrder(s)[i + 1] == PreOrderAll(s.body)[i];
        }
      }
      LinkedAllStays(s.body, children, children');
    }
  }

  lemma {:induction false} LinkedAllStays(ss: seq<Section>, children: seq<seq<nat>>, children': seq<seq<nat>>)
    requires LinkedAll(ss, children) && SameOn(children, children', PreOrderAll(ss))
    ensures LinkedAll(ss, children')
    decreases ss, 0
  {
    if ss != [] {
      var a, b := PreOrder(ss[0]), PreOrderAll(ss[1..]);
      assert forall i :: 0 <= i < |a| ==> PreOrderAll(ss)[i] == a[i];
      assert forall i :: 0 <= i < |b| ==> PreOrderAll(ss)[|a| + i] == b[i];
      LinkedStays(ss[0], children, children');
      LinkedAllStays(ss[1..], children, children');
    }
  }

  /** What linking the groups of some sections does. */
  ghost predicate Links1(groups: seq<Group>, l: Links, l': Links, outer: seq<nat>, junk': seq<nat>, hi: int,
      ids: seq<nat>, more: seq<nat>)
  {
    && l'.stack == outer + junk' && AllEndBefore(groups, junk', hi)
    && Gains(l, l', outer, more) && Untouched(l, l', outer, ids)
  }

  ghost predicate Ready(groups: seq<Group>, l: Links, outer: seq<nat>, junk: seq<nat>, lo: int, hi: int,
      ids: seq<nat>) {
    && LinksFit(groups, l) && l.stack == outer + junk && lo < hi
    && NoneEndsBefore(groups, outer, hi - 1) && AllEndBefore(groups, junk, lo) && Unlinked(l, outer, ids)
  }

  /** Opening group g. */
  lemma {:induction false} OpenGroup(groups: seq<Group>, l: Links, outer: seq<nat>, junk: seq<nat>, lo: nat, hi: nat,
      g: nat, inner: seq<nat>)
    requires g < |groups| && groups[g].first == lo && groups[g].last == hi - 1
    requires Ready(groups, l, outer, junk, lo, hi, [g] + inner)
    ensures var l' := Link(groups, l, g);
            && Ready(groups, l', outer + [g], [], lo, hi, inner)
            && l'.children[g] == [] && Gains(l, l', outer, [g]) && Untouched(l, l', outer, [g])
  {
    PopJunk(groups, outer, junk, lo);
    var ids := [g] + inner;
    assert ids[0] == g;
    forall i | 0 <= i < |inner| ensures inner[i] == ids[i + 1] {
    }
    assert outer + [g] + [] == outer + [g];
  }

  /** Everything inside group g, once it is open. */
  lemma {:induction false} CloseGroup(groups: seq<Group>, l: Links, l1: Links, l2: Links, outer: seq<nat>,
      junk2: seq<nat>, hi: nat, g: nat,
      inner: seq<nat>, kids: seq<nat>)
    requires g < |groups| && groups[g].last == hi - 1 && g !in inner && g !in outer && |l.children| == |groups|
    requires forall i :: 0 <= i < |outer| ==> outer[i] < |groups| && outer[i] !in inner
    requires Gains(l, l1, outer, [g]) && Untouched(l, l1, outer, [g]) && l1.children[g] == []
    requires Links1(groups, l1, l2, outer + [g], junk2, hi, inner, kids)
    ensures Links1(groups, l, l2, outer, [g] + junk2, hi, [g] + inner, [g]) && l2.children[g] == kids
  {
    assert (outer + [g]) + junk2 == outer + ([g] + junk2);
    assert [] + kids == kids;
  }

  lemma {:induction false} LinkSection(s: Section, lo: nat, depth: nat, groups: seq<Group>, l: Links, outer: seq<nat>,
      junk: seq<nat>) returns (junk': seq<nat>)
    requires Laid(s, lo, groups, depth) && Ready(groups, l, outer, junk, lo, lo + Size(s), PreOrder(s))
    ensures forall i :: 0 <= i < |PreOrder(s)| ==> PreOrder(s)[i] < |groups|
    ensures var l' := LinkAll(groups, l, PreOrder(s));
            && Links1(groups, l, l', outer, junk', lo + Size(s), PreOrder(s), if s.Nest? then [s.g] else [])
            && Linked(s, l'.children)
    decreases s, 1
  {
    PreOrderBetween(s, lo, groups, depth);
    if s.Nest? {
      var g, inner, hi := s.g, PreOrderAll(s.body), lo + Size(s);
      OpenGroup(groups, l, outer, junk, lo, hi, g, inner);
      NotAmong(l, outer, g, inner);
      var l1 := Link(groups, l, g);
      var junk2 := LinkSections(s.body, lo, |groups[g].path|, groups, l1, outer + [g], []);
      var l2 := LinkAll(groups, l1, inner);
      CloseGroup(groups, l, l1, l2, outer, junk2, hi, g, inner, TopIds(s.body));
      assert ([g] + inner)[1..] == inner;
      junk' := [g] + junk2;
    } else {
      junk' := junk;
      assert forall p: seq<nat> :: p + [] == p;
    }
  }

  lemma {:induction false} NotAmong(l: Links, outer: seq<nat>, g: nat, inner: seq<nat>)
    requires Unlinked(l, outer, [g] + inner)
    ensures g !in inner && g !in outer && forall i :: 0 <= i < |outer| ==> outer[i] !in inner
  {
    var ids := [g] + inner;
    assert ids[0] == g && forall i :: 0 <= i < |inner| ==> ids[i + 1] == inner[i];
  }

  lemma {:induction false} LinkSections(ss: seq<Section>, lo: nat, depth: nat, groups: seq<Group>, l: Links,
      outer: seq<nat>, junk: seq<nat>) returns (junk': seq<nat>)
    requires LaidAll(ss, lo, groups, depth)
    requires ss != [] ==> Ready(groups, l, outer, junk, lo, lo + SizeAll(ss), PreOrderAll(ss))
    requires ss == [] ==> LinksFit(groups, l) && l.stack == outer + junk && AllEndBefore(groups, junk, lo)
    requires ss == [] && outer != [] ==> outer[|outer| - 1] < |groups|
    ensures forall i :: 0 <= i < |PreOrderAll(ss)| ==> PreOrderAll(ss)[i] < |groups|
    ensures var l' := LinkAll(groups, l, PreOrderAll(ss));
            && Links1(groups, l, l', outer, junk', lo + SizeAll(ss), PreOrderAll(ss), TopIds(ss))
            && LinkedAll(ss, l'.children)
    decreases ss, 0
  {
    hide *;
    IdsFit(ss, lo, groups, depth);
    if ss == [] {
      junk' := junk;
      NothingLinked(groups, l, outer, junk, lo);
      NoSections(ss);
      return;
    }
    var a, b, mid, hi := PreOrder(ss[0]), PreOrderAll(ss[1..]), lo + Size(ss[0]), lo + SizeAll(ss);
    SectionsSplit(ss, lo, groups, depth);
    IdsFit(ss[1..], mid, groups, depth);
    FirstReady(groups, l, outer, junk, lo, mid, hi, a, b);
    var junk1 := LinkSection(ss[0], lo, depth, groups, l, outer, junk);
    var l1 := LinkAll(groups, l, a);
    var m1 := if ss[0].Nest? then [ss[0].g] else [];
    if ss[1..] != [] { RestReady(groups, l, l1, outer, junk, junk1, lo, mid, hi, a, b, m1); }
    OuterFits(groups, l, outer, junk, lo, hi, a + b);
    JunkFits(groups, l, l1, outer, junk1, mid, a, m1);
    junk' := LinkSections(ss[1..], mid, depth, groups, l1, outer, junk1);
    var l2 := LinkAll(groups, l1, b);
    LinkAppend(groups, l, a, b);
    Both(groups, l, l1, l2, outer, junk, junk1, junk', lo, mid, hi, a, b, m1, TopIds(ss[1..]));
    LinkedStays(ss[0], l1.children, l2.children);
    LinkedBoth(ss, l2.children);
  }

  lemma {:induction false} IdsFit(ss: seq<Section>, lo: nat, groups: seq<Group>, depth: nat)
    requires LaidAll(ss, lo, groups, depth)
    ensures forall i :: 0 <= i < |PreOrderAll(ss)| ==> PreOrderAll(ss)[i] < |groups|
    ensures ss != [] ==> forall i :: 0 <= i < |PreOrder(ss[0])| ==> PreOrder(ss[0])[i] < |groups|
  {
    PreOrderAllBetween(ss, lo, groups, depth);
    if ss != [] { PreOrderBetween(ss[0], lo, groups, depth); }
  }

  lemma {:induction false} NoSections(ss: seq<Section>)
    requires ss == []
    ensures PreOrderAll(ss) == [] && TopIds(ss) == [] && SizeAll(ss) == 0
    ensures forall c :: LinkedAll(ss, c)
  {
  }

  lemma {:induction false} OuterFits(groups: seq<Group>, l: Links, outer: seq<nat>, junk: seq<nat>, lo: int, hi: int,
      ids: seq<nat>)
    requires Ready(groups, l, outer, junk, lo, hi, ids)
    ensures forall i :: 0 <= i < |outer| ==> outer[i] < |groups|
  {
  }

  lemma {:induction false} JunkFits(groups: seq<Group>, l: Links, l1: Links, outer: seq<nat>, junk1: seq<nat>, mid: int,
      a: seq<nat>, m1: seq<nat>)
    requires Links1(groups, l, l1, outer, junk1, mid, a, m1)
    ensures l1.stack == outer + junk1 && AllEndBefore(groups, junk1, mid)
  {
  }

  lemma {:induction false} NothingLinked(groups: seq<Group>, l: Links, outer: seq<nat>, junk: seq<nat>, lo: nat)
    requires LinksFit(groups, l) && l.stack == outer + junk && AllEndBefore(groups, junk, lo)
    requires outer != [] ==> outer[|outer| - 1] < |groups|
    ensures LinkAll(groups, l, []) == l && Links1(groups, l, l, outer, junk, lo, [], [])
  {
    assert forall p: seq<nat> :: p + [] == p;
  }

  lemma {:induction false} SectionsSplit(ss: seq<Section>, lo: nat, groups: seq<Group>, depth: nat)
    requires ss != [] && LaidAll(ss, lo, groups, depth)
    ensures Laid(ss[0], lo, groups, depth) && LaidAll(ss[1..], lo + Size(ss[0]), groups, depth)
    ensures SizeAll(ss) == Size(ss[0]) + SizeAll(ss[1..]) && Size(ss[0]) > 0
    ensures ss[1..] != [] ==> SizeAll(ss[1..]) > 0
    ensures ss[1..] == [] ==> SizeAll(ss[1..]) == 0
    ensures PreOrderAll(ss) == PreOrder(ss[0]) + PreOrderAll(ss[1..])
    ensures TopIds(ss) == (if ss[0].Nest? then [ss[0].g] else []) + TopIds(ss[1..])
  {
    if ss[1..] != [] { assert Laid(ss[1], lo + Size(ss[0]), groups, depth); }
  }

  lemma {:induction false} FirstReady(groups: seq<Group>, l: Links, outer: seq<nat>, junk: seq<nat>, lo: nat, mid: nat,
      hi: nat,
      a: seq<nat>, b: seq<nat>)
    requires lo < mid <= hi && Ready(groups, l, outer, junk, lo, hi, a + b)
    ensures Ready(groups, l, outer, junk, lo, mid, a)
  {
    assert forall i :: 0 <= i < |a| ==> (a + b)[i] == a[i];
  }

  lemma {:induction false} RestReady(groups: seq<Group>, l: Links, l1: Links, outer: seq<nat>, junk: seq<nat>,
      junk1: seq<nat>, lo: nat,
      mid: nat, hi: nat, a: seq<nat>, b: seq<nat>, m1: seq<nat>)
    requires lo < mid < hi && Ready(groups, l, outer, junk, lo, hi, a + b) && LinksFit(groups, l1)
    requires Links1(groups, l, l1, outer, junk1, mid, a, m1)
    ensures Ready(groups, l1, outer, junk1, mid, hi, b)
  {
    Apart(l, outer, a, b);
  }

  lemma {:induction false} Apart(l: Links, outer: seq<nat>, a: seq<nat>, b: seq<nat>)
    requires Unlinked(l, outer, a + b)
    ensures Unlinked(l, outer, b) && Unlinked(l, outer, a)
    ensures forall i :: 0 <= i < |b| ==> b[i] !in a && b[i] !in outer
    ensures forall i :: 0 <= i < |a| ==> a[i] !in b && a[i] !in outer
  {
    var ids := a + b;
    assert forall i :: 0 <= i < |a| ==> ids[i] == a[i];
    assert forall i :: 0 <= i < |b| ==> ids[|a| + i] == b[i];
  }

  lemma {:induction false} Both(groups: seq<Group>, l: Links, l1: Links, l2: Links, outer: seq<nat>, junk: seq<nat>,
      junk1: seq<nat>,
      junk2: seq<nat>, lo: nat, mid: nat, hi: nat, a: seq<nat>, b: seq<nat>, m1: seq<nat>, m2: seq<nat>)
    requires lo < mid <= hi && Ready(groups, l, outer, junk, lo, hi, a + b)
    requires Links1(groups, l, l1, outer, junk1, mid, a, m1) && Links1(groups, l1, l2, outer, junk2, hi, b, m2)
    ensures Links1(groups, l, l2, outer, junk2, hi, a + b, m1 + m2)
    ensures SameOn(l1.children, l2.children, a)
  {
    Apart(l, outer, a, b);
    if outer == [] {
      assert (l.top + m1) + m2 == l.top + (m1 + m2);
    } else {
      var p := outer[|outer| - 1];
      assert (l.children[p] + m1) + m2 == l.children[p] + (m1 + m2);
    }
  }

  lemma {:induction false} LinkedBoth(ss: seq<Section>, children: seq<seq<nat>>)
    requires ss != [] && Linked(ss[0], children) && LinkedAll(ss[1..], children)
    ensures LinkedAll(ss, children)
  {
  }

  // ---- buildTree ----

  /** The groups and runs of a plan of n specs are those of ss. */
  ghost predicate Divides(ss: seq<Section>, groups: seq<Group>, n: nat) {
    LaidAll(ss, 0, groups, 0) && SizeAll(ss) == n && IsPermutation(PreOrderAll(ss), |groups|)
  }

  method PopEnded(groups: seq<Group>, stack: seq<nat>, start: nat) returns (s: seq<nat>)
    requires forall i :: 0 <= i < |stack| ==> stack[i] < |groups|
    ensures s == Pop(groups, stack, start)
  {
    s := stack;
    while |s| > 0 && groups[s[|s| - 1]].last < start
      invariant |s| <= |stack| && s == stack[..|s|] && Pop(groups, s, start) == Pop(groups, stack, start)
    {
      s := s[..|s| - 1];
    }
  }

  lemma {:induction false} LinkNext(groups: seq<Group>, l: Links, order: seq<nat>, i: nat)
    requires LinksFit(groups, l) && i < |order| && forall j :: 0 <= j < |order| ==> order[j] < |groups|
    ensures LinkAll(groups, l, order[i..]) == LinkAll(groups, Link(groups, l, order[i]), order[i + 1..])
  {
    assert order[i..][0] == order[i] && order[i..][1..] == order[i + 1..];
  }

  method LinkOne(groups: seq<Group>, children: seq<seq<nat>>, top: seq<nat>, stack: seq<nat>, g: nat)
    returns (children': seq<seq<nat>>, top': seq<nat>, stack': seq<nat>)
    requires LinksFit(groups, Links(children, top, stack)) && g < |groups|
    ensures Links(children', top', stack') == Link(groups, Links(children, top, stack), g)
  {
    children', top' := children, top;
    stack' := PopEnded(groups, stack, groups[g].first);
    if |stack'| == 0 {
      top' := top + [g];
    } else {
      var parent := stack'[|stack'| - 1];
      children' := children[parent := children[parent] + [g]];
    }
    stack' := stack' + [g];
  }

  /** The groups in order, each linked under the innermost one still open. */
  method LinkInOrder(groups: seq<Group>, order: seq<nat>, ghost start: Links) returns (children: seq<seq<nat>>,
      top: seq<nat>)
    requires forall j :: 0 <= j < |order| ==> order[j] < |groups|
    requires start == Links(seq(|groups|, i => []), [], [])
    ensures children == LinkAll(groups, start, order).children && top == LinkAll(groups, start, order).top
  {
    children, top := seq(|groups|, i => []), [];
    var stack: seq<nat> := [];
    hide LinkAll, Link;
    var i := 0;
    while i < |order|
      invariant 0 <= i <= |order| && LinksFit(groups, Links(children, top, stack))
      invariant LinkAll(groups, start, order[0..]) == LinkAll(groups, Links(children, top, stack), order[i..])
    {
      LinkNext(groups, Links(children, top, stack), order, i);
      children, top, stack := LinkOne(groups, children, top, stack, order[i]);
      i := i + 1;
    }
    assert order[0..] == order && order[i..] == [];
    NoneLeft(groups, Links(children, top, stack));
  }

  /** Each group's direct children, and the groups enclosed in none, whatever
      order the groups are listed in. */
  method BuildTree(groups: seq<Group>, ghost ss: seq<Section>, ghost n: nat) returns (children: seq<seq<nat>>,
      top: seq<nat>)
    requires Divides(ss, groups, n)
    ensures |children| == |groups| && LinkedAll(ss, children) && top == TopIds(ss)
  {
    PreOrderAllSorted(ss, 0, groups, 0);
    var order := SortGroups(groups);
    SortedIsPreOrder(groups, order, PreOrderAll(ss));
    assert forall j :: 0 <= j < |order| ==> order[j] < |groups|;
    ghost var start := Links(seq(|groups|, i => []), [], []);
    LinkedFromScratch(groups, ss, start, n);
    hide *;
    children, top := LinkInOrder(groups, order, start);
  }

  lemma {:induction false} NoneLeft(groups: seq<Group>, l: Links)
    requires LinksFit(groups, l)
    ensures LinkAll(groups, l, []) == l
  {
  }

  lemma {:induction false} LinkedFromScratch(groups: seq<Group>, ss: seq<Section>, start: Links, n: nat)
    requires Divides(ss, groups, n) && LinksFit(groups, start) && start.top == [] && start.stack == []
    requires forall i :: 0 <= i < |groups| ==> start.children[i] == []
    ensures var l := LinkAll(groups, start, PreOrderAll(ss)); LinkedAll(ss, l.children) && l.top == TopIds(ss)
  {
    var none: seq<nat> := [];
    var lo: nat := StartsReady(groups, ss, start, none, n);
    hide *;
    var l := LinkTop(groups, ss, start, none, lo);
  }

  lemma {:induction false} LinkTop(groups: seq<Group>, ss: seq<Section>, start: Links, none: seq<nat>,
      lo: nat) returns (l: Links)
    requires LaidAll(ss, lo, groups, 0) && LinksFit(groups, start) && start.top == [] && none == []
    requires ss != [] ==> Ready(groups, start, none, none, lo, lo + SizeAll(ss), PreOrderAll(ss))
    requires ss == [] ==> start.stack == none + none && AllEndBefore(groups, none, lo)
    ensures forall i :: 0 <= i < |PreOrderAll(ss)| ==> PreOrderAll(ss)[i] < |groups|
    ensures l == LinkAll(groups, start, PreOrderAll(ss)) && LinkedAll(ss, l.children) && l.top == TopIds(ss)
  {
    hide *;
    var junk := LinkSections(ss, lo, 0, groups, start, none, none);
    l := LinkAll(groups, start, PreOrderAll(ss));
    TopGains(groups, start, l, none, junk, lo + SizeAll(ss), PreOrderAll(ss), TopIds(ss));
  }

  lemma {:induction false} StartsReady(groups: seq<Group>, ss: seq<Section>, start: Links, none: seq<nat>,
      n: nat) returns (lo: nat)
    requires Divides(ss, groups, n) && LinksFit(groups, start) && start.stack == [] && none == []
    requires forall i :: 0 <= i < |groups| ==> start.children[i] == []
    ensures LaidAll(ss, lo, groups, 0)
    ensures ss != [] ==> Ready(groups, start, none, none, lo, lo + SizeAll(ss), PreOrderAll(ss))
    ensures start.stack == none + none && AllEndBefore(groups, none, lo)
    ensures LinksFit(groups, start)
  {
    lo := 0;
    if ss != [] { SectionsSplit(ss, 0, groups, 0); }
  }

  lemma {:induction false} TopGains(groups: seq<Group>, l: Links, l': Links, outer: seq<nat>, junk: seq<nat>, hi: int,
      ids: seq<nat>, more: seq<nat>)
    requires Links1(groups, l, l', outer, junk, hi, ids, more) && outer == [] && l.top == []
    ensures l'.top == more
  {
    assert [] + more == more;
  }
}
