/** Flat bytecode programs: one array of code, and where each spec begins. */
module BCPrograms {
  import opened Options
  import opened Declarations
  import opened Shards
  import Sequences

  datatype BCProgram = BCProgram(code: seq<Fn>, starts: seq<nat>)

  /** Each spec's code is a window that ends where the next begins. */
  ghost predicate WellFormed(p: BCProgram) {
    && (p.starts != [] ==> p.starts[|p.starts| - 1] == |p.code|)
    && forall i, j :: 0 <= i < j < |p.starts| ==> p.starts[i] <= p.starts[j]
  }

  function NumSpecs(p: BCProgram): nat {
    if |p.starts| < 2 then 0 else |p.starts| - 1
  }

  ghost function Window(code: seq<Fn>, from: nat, to: nat): seq<Fn> {
    if from <= to <= |code| then code[from..to] else []
  }

  /** The code of each spec. */
  ghost function Specs(p: BCProgram): (s: seq<seq<Fn>>)
    ensures |s| == NumSpecs(p) && forall i :: 0 <= i < |s| ==> s[i] == Window(p.code, p.starts[i], p.starts[i + 1])
  {
    seq(NumSpecs(p), i requires 0 <= i < NumSpecs(p) => Window(p.code, p.starts[i], p.starts[i + 1]))
  }

  function Reversed(s: seq<Fn>): (r: seq<Fn>)
    ensures |r| == |s| && forall i :: 0 <= i < |s| ==> r[i] == s[|s| - 1 - i]
  {
    seq(|s|, i requires 0 <= i < |s| => s[|s| - 1 - i])
  }

  lemma {:induction false} WindowKept(code: seq<Fn>, more: seq<Fn>, from: nat, to: nat)
    requires to <= |code|
    ensures Window(code + more, from, to) == Window(code, from, to)
  {
    if from <= to { assert (code + more)[from..to] == code[from..to]; }
  }

  lemma {:induction false} LastWindow(code: seq<Fn>, more: seq<Fn>)
    ensures Window(code + more, |code|, |code + more|) == more
  {
  }

  /** More code at the end, and its end as one more start. */
  lemma {:induction false} SpecsGrow(p: BCProgram, q: BCProgram, more: seq<Fn>)
    requires WellFormed(p) && p.starts != [] && q == BCProgram(p.code + more, p.starts + [|p.code + more|])
    ensures WellFormed(q) && Specs(q) == Specs(p) + [more]
  {
    var n := NumSpecs(p);
    assert NumSpecs(q) == n + 1 && |q.code| == |p.code| + |more|;
    hide Window;
    forall i | 0 <= i < n ensures Specs(q)[i] == Specs(p)[i] {
      assert q.starts[i] == p.starts[i] && q.starts[i + 1] == p.starts[i + 1] <= |p.code|;
      WindowKept(p.code, more, p.starts[i], p.starts[i + 1]);
    }
    assert q.starts[n] == |p.code| && q.starts[n + 1] == |q.code|;
    LastWindow(p.code, more);
    assert Specs(q)[n] == more;
  }

  class BCBuilder {
    var before: seq<Fn>
    var after: seq<Fn>
    var code: seq<Fn>
    var starts: seq<nat>

    /** The program so far, were it built now. */
    ghost function Program(): BCProgram
      reads this
    {
      BCProgram(code, starts + [|code|])
    }

    ghost predicate Valid()
      reads this
    {
      WellFormed(Program()) && (starts == [] ==> code == []) && (starts != [] ==> starts[0] == 0)
    }

    constructor ()
      ensures Valid() && Specs(Program()) == [] && before == [] && after == []
    {
      before, after, code, starts := [], [], [], [];
    }

    method AddBefore(fn: Option<Fn>)
      requires Valid()
      modifies `before
      ensures Valid() && before == old(before) + Opt(fn)
    {
      if fn.Some? { before := before + [fn.value]; }
    }

    method AddAfter(fn: Option<Fn>)
      requires Valid()
      modifies `after
      ensures Valid() && after == old(after) + Opt(fn)
    {
      if fn.Some? { after := after + [fn.value]; }
    }

    /** One spec: the hooks registered so far around its body, those after it
        last first. */
    method AddSpec(fn: Option<Fn>)
      requires Valid()
      modifies `code, `starts
      ensures Valid()
      ensures Specs(Program()) == old(Specs(Program())) +
                if fn.Some? then [before + [fn.value] + Reversed(after)] else []
    {
      if fn.None? { return; }
      ghost var was := Program();
      starts := starts + [|code|];
      code := code + before;
      code := code + [fn.value];
      ghost var upToBody, begun := code, starts;
      var i := |after|;
      while i > 0
        invariant starts == begun
        invariant 0 <= i <= |after| && code == upToBody + Reversed(after)[..|after| - i]
      {
        i := i - 1;
        code := code + [after[i]];
      }
      assert Reversed(after)[..|after|] == Reversed(after);
      ghost var more := before + [fn.value] + Reversed(after);
      assert code == was.code + more;
      SpecsGrow(was, Program(), more);
    }

    /** The program. Building leaves a start behind: what is built next has one
        more spec, without code, in this place. */
    method BuildBC() returns (p: BCProgram)
      requires Valid()
      modifies `starts
      ensures Valid() && WellFormed(p) && Specs(p) == old(Specs(Program()))
      ensures Specs(Program()) == old(Specs(Program())) + [[]]
    {
      ghost var was := Program();
      starts := starts + [|code|];
      p := BCProgram(code, starts);
      assert code + [] == code;
      SpecsGrow(was, Program(), []);
    }
  }

  method CopySpec(p: BCProgram, s: nat, code: seq<Fn>, starts: seq<nat>) returns (code': seq<Fn>, starts': seq<nat>)
    requires WellFormed(p) && s < NumSpecs(p) && WellFormed(BCProgram(code, starts)) && starts != []
    ensures WellFormed(BCProgram(code', starts')) && |starts'| == |starts| + 1
    ensures Specs(BCProgram(code', starts')) == Specs(BCProgram(code, starts)) + [Specs(p)[s]]
  {
    SpecWindow(p, s);
    hide *;
    var start, end := p.starts[s], p.starts[s + 1];
    code' := code + p.code[start..end];
    starts' := starts + [|code'|];
    SpecsGrow(BCProgram(code, starts), BCProgram(code', starts'), p.code[start..end]);
  }

  /** Shard k of count of a program; an unusable shard panics. */
  method ShardBCProgram(p: BCProgram, k: int, count: int) returns (r: Option<BCProgram>)
    requires WellFormed(p)
    ensures r.Some? <==> 0 <= k < count
    ensures r.Some? ==> WellFormed(r.value) && Specs(r.value) == EveryNth(Specs(p), 0, k, count)
    ensures r.Some? ==> InTurn(Specs(r.value), Specs(p), k, count)
  {
    if count <= 0 || k < 0 || k >= count { return None; }
    DealtInTurn(Specs(p), k, count);
    var n := NumSpecs(p);
    NoProgram(p);
    if n == 0 {
      assert EveryNth<seq<Fn>>([], 0, k, count) == [];
      return Some(p);
    }
    var code, starts: seq<nat>, s := [], [0], 0;
    NothingDealt(p, k, count);
    hide *;
    while s < n
      invariant s <= n && Dealt(p, s, k, count, code, starts)
    {
      SpecDealt(p, s, k, count, code, starts);
      if Mine(s, k, count) {
        ghost var was, before := code, starts;
        code, starts := CopySpec(p, s, code, starts);
        SpecCopied(p, s, k, count, was, before, code, starts);
      }
      s := s + 1;
    }
    AllDealt(p, k, count, code, starts);
    NoProgram(BCProgram(code, starts));
    r := Some(if |starts| == 1 then BCProgram([], []) else BCProgram(code, starts));
  }

  predicate Mine(s: nat, k: nat, count: nat)
    requires count > 0
  {
    s % count == k
  }

  /** code and starts hold what shard k gets of the first s specs of p. */
  ghost predicate Dealt(p: BCProgram, s: nat, k: nat, count: nat, code: seq<Fn>, starts: seq<nat>) {
    && WellFormed(p) && s <= NumSpecs(p) && k < count
    && starts != [] && (|starts| == 1 ==> code == []) && WellFormed(BCProgram(code, starts))
    && Specs(BCProgram(code, starts)) == EveryNth(Specs(p)[..s], 0, k, count)
  }

  lemma {:induction false} NothingDealt(p: BCProgram, k: nat, count: nat)
    requires WellFormed(p) && k < count
    ensures Dealt(p, 0, k, count, [], [0])
  {
    NothingYet();
    assert EveryNth(Specs(p)[..0], 0, k, count) == [];
  }

  lemma {:induction false} NextSpec(p: BCProgram, s: nat, k: nat, count: nat)
    requires WellFormed(p) && s < NumSpecs(p) && k < count
    ensures EveryNth(Specs(p)[..s + 1], 0, k, count)
         == EveryNth(Specs(p)[..s], 0, k, count) + if Mine(s, k, count) then [Specs(p)[s]] else []
  {
    var specs := Specs(p);
    hide Specs, WellFormed, EveryNth;
    assert specs[..s + 1] == specs[..s] + [specs[s]];
    EveryNthAppend(specs[..s], specs[s], 0, k, count);
  }

  lemma {:induction false} SpecDealt(p: BCProgram, s: nat, k: nat, count: nat, code: seq<Fn>, starts: seq<nat>)
    requires Dealt(p, s, k, count, code, starts) && s < NumSpecs(p)
    ensures starts != [] && WellFormed(BCProgram(code, starts))
    ensures !Mine(s, k, count) ==> Dealt(p, s + 1, k, count, code, starts)
  {
    NextSpec(p, s, k, count);
    hide Specs, WellFormed, EveryNth, Mine;
    Sequences.NothingAdded(EveryNth(Specs(p)[..s], 0, k, count));
  }

  lemma {:induction false} SpecCopied(p: BCProgram, s: nat, k: nat, count: nat, was: seq<Fn>, before: seq<nat>,
      code: seq<Fn>, starts: seq<nat>)
    requires Dealt(p, s, k, count, was, before) && s < NumSpecs(p) && Mine(s, k, count)
    requires WellFormed(BCProgram(code, starts)) && |starts| == |before| + 1
    requires Specs(BCProgram(code, starts)) == Specs(BCProgram(was, before)) + [Specs(p)[s]]
    ensures Dealt(p, s + 1, k, count, code, starts)
  {
    NextSpec(p, s, k, count);
    hide Specs, WellFormed, EveryNth, Mine;
  }

  lemma {:induction false} AllDealt(p: BCProgram, k: nat, count: nat, code: seq<Fn>, starts: seq<nat>)
    requires Dealt(p, NumSpecs(p), k, count, code, starts)
    ensures starts != [] && WellFormed(BCProgram(code, starts))
    ensures Specs(BCProgram(code, starts)) == EveryNth(Specs(p), 0, k, count)
  {
    assert Specs(p)[..NumSpecs(p)] == Specs(p);
    hide EveryNth;
  }

  lemma {:induction false} NothingYet()
    ensures WellFormed(BCProgram([], [0])) && Specs(BCProgram([], [0])) == []
  {
  }

  lemma {:induction false} SpecWindow(p: BCProgram, s: nat)
    requires WellFormed(p) && s < NumSpecs(p)
    ensures p.starts[s] <= p.starts[s + 1] <= |p.code| && Specs(p)[s] == p.code[p.starts[s]..p.starts[s + 1]]
  {
    assert p.starts[s + 1] <= p.starts[|p.starts| - 1];
  }

  lemma {:induction false} NoProgram(p: BCProgram)
    ensures |p.starts| == 1 ==> Specs(p) == []
    ensures WellFormed(BCProgram([], [])) && Specs(BCProgram([], [])) == []
  {
  }

  ghost function Singly<T>(s: seq<T>): (r: seq<seq<T>>)
    ensures |r| == |s| && forall i :: 0 <= i < |s| ==> r[i] == [s[i]]
  {
    seq(|s|, i requires 0 <= i < |s| => [s[i]])
  }

  lemma {:induction false} EveryNthSingly<T>(s: seq<T>, u: nat, k: nat, count: nat)
    requires count > 0
    ensures EveryNth(Singly(s), u, k, count) == Singly(EveryNth(s, u, k, count))
  {
    if s != [] {
      EveryNthSingly(s[1..], u + 1, k, count);
      assert Singly(s)[1..] == Singly(s[1..]);
    }
  }

  /** Every spec of a program goes to exactly one of its shards. */
  lemma {:induction false} ShardsOfProgram(p: BCProgram, count: nat)
    requires count > 0
    ensures Together(Singly(Specs(p)), 0, count, count) == multiset(Specs(p))
  {
    DealtOut(Singly(Specs(p)), 0, count);
    FlatSingly(Specs(p));
  }

  lemma {:induction false} FlatSingly<T>(s: seq<T>)
    ensures Flat(Singly(s)) == s
  {
    if s != [] {
      FlatSingly(s[1..]);
      assert Singly(s)[1..] == Singly(s[1..]);
    }
  }
}
