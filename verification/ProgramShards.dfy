/** Splitting a built program over several jobs: its groups are dealt out in
    turn, and what a focus excluded is reported by the first job. */
module ProgramShards {
  import opened Options
  import opened Declarations
  import opened Suites
  import opened BuilderGroups
  import opened Shards

  /** Shard k of count, or none when it would have nothing to do. */
  method ShardProgram(prog: Program, k: nat, count: nat) returns (r: Option<Program>)
    requires k < count
    ensures r == ShardOf(prog, k, count)
    ensures r.Some? ==> InTurn(r.value.units, prog.units, k, count)
    ensures r == None ==> InTurn([], prog.units, k, count)
  {
    DealtInTurn(prog.units, k, count);
    var units := [];
    Nothing(prog.units, k, count);
    for g := 0 to |prog.units|
      invariant units == EveryNth(prog.units[..g], 0, k, count)
    {
      assert prog.units[..g + 1] == prog.units[..g] + [prog.units[g]];
      EveryNthAppend(prog.units[..g], prog.units[g], 0, k, count);
      if g % count == k { units := units + [prog.units[g]]; }
    }
    assert prog.units[..|prog.units|] == prog.units;
    var marks := [];
    if k == 0 { marks := prog.excluded; }
    if |units| == 0 && |marks| == 0 && |prog.focusedNames| == 0 { return None; }
    r := Some(BuilderGroups.Program(units, prog.focusedNames, marks, prog.excludedCount));
  }

  lemma {:induction false} Nothing(units: seq<Unit>, k: nat, count: nat)
    requires count > 0
    ensures EveryNth(units[..0], 0, k, count) == []
  {
  }

  function ShardOf(prog: Program, k: nat, count: nat): Option<Program>
    requires count > 0
  {
    var units := EveryNth(prog.units, 0, k, count);
    var marks := if k == 0 then prog.excluded else [];
    if units == [] && marks == [] && prog.focusedNames == [] then None
    else Some(prog.(units := units, excluded := marks))
  }

  // ---- All shards together ----

  ghost function Runs(u: Unit): seq<Run> {
    if Proper(u) then BuilderGroups.UnitRuns(u) else []
  }

  function Skips(u: Unit): seq<SuiteMark> {
    u.skipped
  }

  function Pendings(u: Unit): seq<SuiteMark> {
    u.pending
  }

  ghost function Each<T>(units: seq<Unit>, f: Unit -> seq<T>): (r: seq<seq<T>>)
    ensures |r| == |units|
  {
    if units == [] then [] else [f(units[0])] + Each(units[1..], f)
  }

  lemma {:induction false} EachDealt<T>(units: seq<Unit>, f: Unit -> seq<T>, u: nat, k: nat, count: nat)
    requires count > 0
    ensures EveryNth(Each(units, f), u, k, count) == Each(EveryNth(units, u, k, count), f)
  {
    if units != [] {
      EachDealt(units[1..], f, u + 1, k, count);
      var rest := EveryNth(units[1..], u + 1, k, count);
      assert Each(units, f)[1..] == Each(units[1..], f);
      if u % count == k {
        assert ([units[0]] + rest)[1..] == rest;
      } else {
        assert [] + rest == rest;
      }
    }
  }

  /** What shards 0..n-1 of count have, together. */
  ghost function InShards<T>(prog: Program, f: Unit -> seq<T>, n: nat, count: nat): multiset<T>
    requires count > 0
  {
    if n == 0 then multiset{}
    else
      var r := ShardOf(prog, n - 1, count);
      InShards(prog, f, n - 1, count) + multiset(if r.None? then [] else Flat(Each(r.value.units, f)))
  }

  lemma {:induction false} InShardsTogether<T>(prog: Program, f: Unit -> seq<T>, n: nat, count: nat)
    requires count > 0
    ensures InShards(prog, f, n, count) == Together(Each(prog.units, f), 0, n, count)
  {
    if n > 0 {
      InShardsTogether(prog, f, n - 1, count);
      EachDealt(prog.units, f, 0, n - 1, count);
    }
  }

  ghost function ExcludedInShards(prog: Program, n: nat, count: nat): multiset<SuiteMark>
    requires count > 0
  {
    if n == 0 then multiset{}
    else
      var r := ShardOf(prog, n - 1, count);
      ExcludedInShards(prog, n - 1, count) + multiset(if r.None? then [] else r.value.excluded)
  }

  lemma {:induction false} FirstExcludes(prog: Program, n: nat, count: nat)
    requires count > 0
    ensures ExcludedInShards(prog, n, count) == if n == 0 then multiset{} else multiset(prog.excluded)
  {
    if n > 0 { FirstExcludes(prog, n - 1, count); }
  }

  lemma {:induction false} FlatLast<T>(s: seq<seq<T>>, x: seq<T>)
    ensures Flat(s + [x]) == Flat(s) + x
  {
    if s != [] {
      FlatLast(s[1..], x);
      assert (s + [x])[1..] == s[1..] + [x];
      assert s[0] + (Flat(s[1..]) + x) == (s[0] + Flat(s[1..])) + x;
    } else {
      assert [x][1..] == [] && x + [] == x;
    }
  }

  lemma {:induction false} EachLast<T>(units: seq<Unit>, f: Unit -> seq<T>)
    requires units != []
    ensures var n := |units| - 1;
            Each(units, f) == Each(units[..n], f) + [f(units[n])] &&
                Flat(Each(units, f)) == Flat(Each(units[..n], f)) + f(units[n])
  {
    var n := |units| - 1;
    if n > 0 {
      EachLast(units[1..], f);
      assert units[1..][..n - 1] == units[..n][1..];
    }
    FlatLast(Each(units[..n], f), f(units[n]));
  }

  lemma {:induction false} FlatRuns(units: seq<Unit>)
    requires AllProper(units)
    ensures Flat(Each(units, Runs)) == AllRuns(units)
  {
    if units != [] {
      EachLast(units, Runs);
      FlatRuns(units[..|units| - 1]);
      assert Proper(units[|units| - 1]);
      hide BuilderGroups.UnitRuns, Proper;
    }
  }

  lemma {:induction false} FlatMarks(units: seq<Unit>)
    ensures Flat(Each(units, Skips)) == AllSkipped(units) && Flat(Each(units, Pendings)) == AllPending(units)
  {
    if units != [] {
      EachLast(units, Skips);
      EachLast(units, Pendings);
      FlatMarks(units[..|units| - 1]);
    }
  }

  /** All shards together run each spec of a program as often as the program, with
      its own hooks, and report each skipped, pending or excluded spec as often. */
  lemma {:induction false} ShardsShareTheProgram(prog: Program, count: nat)
    requires count > 0 && AllProper(prog.units)
    ensures InShards(prog, Runs, count, count) == multiset(AllRuns(prog.units))
    ensures InShards(prog, Skips, count, count) == multiset(AllSkipped(prog.units))
    ensures InShards(prog, Pendings, count, count) == multiset(AllPending(prog.units))
    ensures ExcludedInShards(prog, count, count) == multiset(prog.excluded)
  {
    InShardsTogether(prog, Runs, count, count);
    InShardsTogether(prog, Skips, count, count);
    InShardsTogether(prog, Pendings, count, count);
    DealtOut(Each(prog.units, Runs), 0, count);
    DealtOut(Each(prog.units, Skips), 0, count);
    DealtOut(Each(prog.units, Pendings), 0, count);
    FlatRuns(prog.units);
    FlatMarks(prog.units);
    FirstExcludes(prog, count, count);
    hide *;
  }
}
