/** The bounded difference of two JSON documents. */
module JsonDiffs {
  import opened Options
  import opened JsonTrees

  datatype Hop = Index(i: nat) | At(key: Key)

  type Path = seq<Hop>

  datatype Entry =
    | Differ(path: Path, expected: Node, actual: Node)
    | Missing(path: Path, expected: Node)
    | Unexpected(path: Path, actual: Node)

  // ---- All differences ----

  /** The differences of two documents, elements in order and keys ascending. */
  function Diffs(e: Node, a: Node, path: Path): seq<Entry>
    decreases e, 1, 0
  {
    if !SameKind(e, a) then [Differ(path, e, a)]
    else match e
      case Arr(_) => Elements(e, a, 0, path)
      case Obj(_) => Fields(e, a, Merge(KeysOf(e.fields), KeysOf(a.fields)), path)
      case _ => if e == a then [] else [Differ(path, e, a)]
  }

  function Elements(e: Node, a: Node, i: nat, path: Path): seq<Entry>
    requires e.Arr? && a.Arr?
    decreases e, 0, |e.elems| + |a.elems| - i
  {
    if i < |e.elems| && i < |a.elems| then
      Diffs(e.elems[i], a.elems[i], path + [Index(i)]) + Elements(e, a, i + 1, path)
    else if i < |e.elems| then [Missing(path + [Index(i)], e.elems[i])] + Elements(e, a, i + 1, path)
    else if i < |a.elems| then [Unexpected(path + [Index(i)], a.elems[i])] + Elements(e, a, i + 1, path)
    else []
  }

  function Fields(e: Node, a: Node, keys: seq<Key>, path: Path): seq<Entry>
    requires e.Obj? && a.Obj?
    decreases e, 0, |keys|
  {
    if keys == [] then []
    else FieldDiffs(e, a, keys[0], path) + Fields(e, a, keys[1..], path)
  }

  function FieldDiffs(e: Node, a: Node, k: Key, path: Path): seq<Entry>
    requires e.Obj? && a.Obj?
    decreases e, 0, 0
  {
    var i, j, p := Place(e.fields, k), Place(a.fields, k), path + [At(k)];
    if i < |e.fields| && j < |a.fields| then Diffs(e.fields[i].value, a.fields[j].value, p)
    else if i < |e.fields| then [Missing(p, e.fields[i].value)]
    else if j < |a.fields| then [Unexpected(p, a.fields[j].value)]
    else []
  }

  // ---- The walk with a limit ----

  /** The first n of them, or all. */
  function Take(s: seq<Entry>, n: nat): seq<Entry> {
    if |s| <= n then s else s[..n]
  }

  /** The entries so far, followed by what is still to come, begin like all. */
  ghost predicate OnTrack(entries: seq<Entry>, rest: seq<Entry>, all: seq<Entry>, n: nat) {
    |entries| <= n && Take(entries + rest, n) == Take(all, n)
  }

  lemma {:induction false} TrackStarts(entries: seq<Entry>, rest: seq<Entry>, n: nat)
    requires |entries| <= n
    ensures OnTrack(entries, rest, entries + rest, n)
  {
  }

  lemma {:induction false} TrackStep(entries: seq<Entry>, first: seq<Entry>, rest: seq<Entry>, all: seq<Entry>, n: nat)
    requires OnTrack(entries, first + rest, all, n)
    ensures OnTrack(Take(entries + first, n), rest, all, n)
  {
    assert entries + first + rest == entries + (first + rest);
  }

  lemma {:induction false} TrackEnds(entries: seq<Entry>, rest: seq<Entry>, all: seq<Entry>, n: nat)
    requires OnTrack(entries, rest, all, n) && (|entries| < n ==> rest == [])
    ensures entries == Take(all, n)
  {
    if rest == [] { assert entries + rest == entries; }
  }

  /** Once full, what is still to come does not matter. */
  lemma {:induction false} TrackFull(entries: seq<Entry>, rest: seq<Entry>, other: seq<Entry>, all: seq<Entry>, n: nat)
    requires OnTrack(entries, rest, all, n) && |entries| == n
    ensures OnTrack(entries, other, all, n)
  {
    assert (entries + rest)[..n] == entries && (entries + other)[..n] == entries;
  }

  lemma {:induction false} TakeNothing(s: seq<Entry>, n: nat)
    requires |s| <= n
    ensures Take(s + [], n) == s
  {
    assert s + [] == s;
  }

  lemma {:induction false} TakeFull(s: seq<Entry>, t: seq<Entry>, n: nat)
    requires |s| == n
    ensures Take(s + t, n) == s
  {
  }

  lemma {:induction false} TakeSize(s: seq<Entry>, n: nat)
    ensures |Take(s, n)| <= n
  {
  }

  lemma {:induction false} NoneLeft(e: Node, a: Node, i: nat, path: Path)
    requires e.Arr? && a.Arr?
    ensures i >= |e.elems| && i >= |a.elems| ==> Elements(e, a, i, path) == []
  {
  }

  class DiffWalker {
    var entries: seq<Entry>
    const limit: nat

    constructor (n: nat)
      ensures entries == [] && limit == n
    {
      entries, limit := [], n;
    }

    predicate Full()
      reads this
    {
      |entries| > limit
    }

    method Add(x: Entry)
      requires |entries| <= limit + 1
      modifies this
      ensures entries == Take(old(entries) + [x], limit + 1) && |entries| <= limit + 1
    {
      if !Full() { entries := entries + [x]; }
    }

    /** Adds the differences there is room for. One more than the limit shows
        that there are more. */
    method Walk(e: Node, a: Node, path: Path)
      requires |entries| <= limit + 1
      modifies this
      ensures entries == Take(old(entries) + Diffs(e, a, path), limit + 1) && |entries| <= limit + 1
      decreases e, 1, 0
    {
      if Full() {
        TakeFull(entries, Diffs(e, a, path), limit + 1);
        return;
      }
      DiffsIs(e, a, path);
      hide Diffs, Elements, Fields, Take;
      if !SameKind(e, a) || (!e.Arr? && !e.Obj?) {
        if !JsonEqual(e, a) {
          Add(Differ(path, e, a));
        } else {
          TakeNothing(entries, limit + 1);
        }
        return;
      }
      if e.Arr? {
        WalkElements(e, a, path);
        return;
      }
      var keys := MergeSortedKeys(KeysOf(e.fields), KeysOf(a.fields));
      WalkFields(e, a, keys, path);
    }

    /** Elements both have, then those missing, then those unexpected. */
    method WalkElements(e: Node, a: Node, path: Path)
      requires |entries| <= limit + 1 && e.Arr? && a.Arr?
      modifies this
      ensures entries == Take(old(entries) + Elements(e, a, 0, path), limit + 1) && |entries| <= limit + 1
      decreases e, 0, 1
    {
      ghost var all := entries + Elements(e, a, 0, path);
      TrackStarts(entries, Elements(e, a, 0, path), limit + 1);
      TakeSize(all, limit + 1);
      hide *;
      WalkCommon(e, a, path, all);
      AddMissing(e, a, path, all);
      AddUnexpected(e, a, path, all);
    }

    method WalkCommon(e: Node, a: Node, path: Path, ghost all: seq<Entry>)
      requires |entries| <= limit + 1 && e.Arr? && a.Arr? && OnTrack(entries, Elements(e, a, 0, path), all, limit + 1)
      modifies this
      ensures |entries| <= limit + 1
      ensures OnTrack(entries, Elements(e, a, Common(e, a), path), all, limit + 1)
      decreases e, 0, 0
    {
      hide *;
      var i := 0;
      while i < |e.elems| && i < |a.elems| && !Full()
        invariant i <= |e.elems| && i <= |a.elems| && |entries| <= limit + 1
        invariant OnTrack(entries, Elements(e, a, i, path), all, limit + 1)
      {
        var p := path + [Index(i)];
        Unfolded(e, a, i, path);
        TrackStep(entries, Diffs(e.elems[i], a.elems[i], p), Elements(e, a, i + 1, path), all, limit + 1);
        Walk(e.elems[i], a.elems[i], p);
        i := i + 1;
      }
      FullIs();
      CommonIs(e, a);
      if |entries| == limit + 1 {
        TrackFull(entries, Elements(e, a, i, path), Elements(e, a, Common(e, a), path), all, limit + 1);
      }
    }

    lemma {:induction false} FullIs()
      ensures Full() <==> |entries| > limit
    {
    }

    method AddMissing(e: Node, a: Node, path: Path, ghost all: seq<Entry>)
      requires |entries| <= limit + 1 && e.Arr? && a.Arr?
      requires OnTrack(entries, Elements(e, a, Common(e, a), path), all, limit + 1)
      modifies this
      ensures |entries| <= limit + 1 && OnTrack(entries, Elements(e, a, |e.elems|, path), all, limit + 1)
    {
      CommonIs(e, a);
      hide *;
      var i := |a.elems|;
      ghost var j := Common(e, a);
      while i < |e.elems| && !Full()
        invariant |a.elems| <= i && |entries| <= limit + 1 && (i < |e.elems| ==> j == i)
        invariant (i >= |e.elems| ==> j == |e.elems|)
        invariant OnTrack(entries, Elements(e, a, j, path), all, limit + 1)
      {
        var x := Missing(path + [Index(i)], e.elems[i]);
        Unfolded(e, a, i, path);
        TrackStep(entries, [x], Elements(e, a, i + 1, path), all, limit + 1);
        Add(x);
        i := i + 1;
        j := i;
      }
      FullIs();
      if |entries| == limit + 1 {
        TrackFull(entries, Elements(e, a, j, path), Elements(e, a, |e.elems|, path), all, limit + 1);
      }
    }

    method AddUnexpected(e: Node, a: Node, path: Path, ghost all: seq<Entry>)
      requires |entries| <= limit + 1 && e.Arr? && a.Arr?
      requires OnTrack(entries, Elements(e, a, |e.elems|, path), all, limit + 1)
      modifies this
      ensures entries == Take(all, limit + 1)
    {
      hide *;
      var i := |e.elems|;
      while i < |a.elems| && !Full()
        invariant |e.elems| <= i && |entries| <= limit + 1
        invariant OnTrack(entries, Elements(e, a, i, path), all, limit + 1)
      {
        var x := Unexpected(path + [Index(i)], a.elems[i]);
        Unfolded(e, a, i, path);
        TrackStep(entries, [x], Elements(e, a, i + 1, path), all, limit + 1);
        Add(x);
        i := i + 1;
      }
      FullIs();
      NoneLeft(e, a, i, path);
      TrackEnds(entries, Elements(e, a, i, path), all, limit + 1);
    }

    method WalkFields(e: Node, a: Node, keys: seq<Key>, path: Path)
      requires |entries| <= limit + 1 && e.Obj? && a.Obj?
      modifies this
      ensures entries == Take(old(entries) + Fields(e, a, keys, path), limit + 1) && |entries| <= limit + 1
      decreases e, 0, 1
    {
      ghost var all := entries + Fields(e, a, keys, path);
      TrackStarts(entries, Fields(e, a, keys, path), limit + 1);
      TakeSize(all, limit + 1);
      hide *;
      var n := 0;
      assert keys[0..] == keys;
      while n < |keys|
        invariant 0 <= n <= |keys| && |entries| <= limit + 1
        invariant OnTrack(entries, Fields(e, a, keys[n..], path), all, limit + 1)
      {
        FullIs();
        if Full() {
          TrackEnds(entries, Fields(e, a, keys[n..], path), all, limit + 1);
          return;
        }
        NextField(e, a, keys, n, path);
        TrackStep(entries, FieldDiffs(e, a, keys[n], path), Fields(e, a, keys[n + 1..], path), all, limit + 1);
        WalkField(e, a, keys[n], path);
        n := n + 1;
      }
      NoFields(e, a, keys, n, path);
      TrackEnds(entries, Fields(e, a, keys[n..], path), all, limit + 1);
    }

    method WalkField(e: Node, a: Node, k: Key, path: Path)
      requires |entries| <= limit + 1 && e.Obj? && a.Obj?
      modifies this
      ensures entries == Take(old(entries) + FieldDiffs(e, a, k, path), limit + 1) && |entries| <= limit + 1
      decreases e, 0, 0
    {
      hide Take, Diffs;
      var i, j, p := Place(e.fields, k), Place(a.fields, k), path + [At(k)];
      if i < |e.fields| && j < |a.fields| {
        Walk(e.fields[i].value, a.fields[j].value, p);
      } else if i < |e.fields| {
        Add(Missing(p, e.fields[i].value));
      } else if j < |a.fields| {
        Add(Unexpected(p, a.fields[j].value));
      } else {
        TakeNothing(entries, limit + 1);
      }
    }
  }

  /** How many places both arrays have. */
  ghost function Common(e: Node, a: Node): nat
    requires e.Arr? && a.Arr?
  {
    if |e.elems| < |a.elems| then |e.elems| else |a.elems|
  }

  lemma {:induction false} CommonIs(e: Node, a: Node)
    requires e.Arr? && a.Arr?
    ensures Common(e, a) == if |e.elems| < |a.elems| then |e.elems| else |a.elems|
  {
  }

  lemma {:induction false} DiffsIs(e: Node, a: Node, path: Path)
    ensures !SameKind(e, a) ==> Diffs(e, a, path) == [Differ(path, e, a)] && !JsonEqual(e, a)
    ensures SameKind(e, a) && e.Arr? ==> Diffs(e, a, path) == Elements(e, a, 0, path)
    ensures SameKind(e, a) && e.Obj? ==>
              Diffs(e, a, path) == Fields(e, a, Merge(KeysOf(e.fields), KeysOf(a.fields)), path)
    ensures SameKind(e, a) && !e.Arr? && !e.Obj? ==>
              Diffs(e, a, path) == if JsonEqual(e, a) then [] else [Differ(path, e, a)]
  {
    hide Elements, Fields, Merge;
  }

  lemma {:induction false} NextField(e: Node, a: Node, keys: seq<Key>, n: nat, path: Path)
    requires e.Obj? && a.Obj? && n < |keys|
    ensures Fields(e, a, keys[n..], path) == FieldDiffs(e, a, keys[n], path) + Fields(e, a, keys[n + 1..], path)
  {
    assert keys[n..][1..] == keys[n + 1..];
    hide FieldDiffs;
  }

  lemma {:induction false} NoFields(e: Node, a: Node, keys: seq<Key>, n: nat, path: Path)
    requires e.Obj? && a.Obj? && n == |keys|
    ensures Fields(e, a, keys[n..], path) == []
  {
  }

  lemma {:induction false} Unfolded(e: Node, a: Node, i: nat, path: Path)
    requires e.Arr? && a.Arr?
    ensures i < |e.elems| && i < |a.elems| ==>
              Elements(e, a, i, path) == Diffs(e.elems[i], a.elems[i], path + [Index(i)]) + Elements(e, a, i + 1, path)
    ensures |a.elems| <= i < |e.elems| ==>
              Elements(e, a, i, path) == [Missing(path + [Index(i)], e.elems[i])] + Elements(e, a, i + 1, path)
    ensures |e.elems| <= i < |a.elems| ==>
              Elements(e, a, i, path) == [Unexpected(path + [Index(i)], a.elems[i])] + Elements(e, a, i + 1, path)
  {
  }

  /** The difference of two documents, cut at the limit. */
  method Compare(e: Node, a: Node, limit: nat) returns (entries: seq<Entry>)
    ensures entries == Take(Diffs(e, a, []), limit + 1)
  {
    var w := new DiffWalker(limit);
    w.Walk(e, a, []);
    entries := w.entries;
    assert [] + Diffs(e, a, []) == Diffs(e, a, []);
  }
}
