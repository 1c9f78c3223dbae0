/** The Builder: scopes are pushed and popped while Describe callbacks run, and
    Build turns the specs registered so far into a program. */
module Builders {
  import opened Options
  import opened Declarations
  import opened ReportLabels
  import opened ScopeTables
  import opened Plans
  import opened Suites
  import opened BuilderItems
  import opened BuilderGroups

  ghost predicate AllGroups(t: seq<Row>) {
    forall i :: 0 <= i < |t| ==> t[i].group
  }

  ghost function LabelsOfTable(t: seq<Row>): (labels: seq<string>)
    requires AllGroups(t)
    ensures |labels| == |t|
  {
    seq(|t|, id requires 0 <= id < |t| => LabelAt(t, id))
  }

  function Resolved(items: seq<Item>, labels: seq<string>): (r: seq<Item>)
    ensures |r| == |items|
  {
    seq(|items|, i requires 0 <= i < |items| => items[i].(path := PathOf(items[i].ids, labels)))
  }

  ghost predicate AnyFocus(items: seq<Item>) {
    exists i :: 0 <= i < |items| && items[i].kind == Focus
  }

  lemma {:induction false} MarksHaveNoBody(d: Decl, kind: Kind, name: string, body: Option<Fn>)
    requires d.open != []
    ensures kind == Skip || kind == Pending ==> Put(d, kind, name, body) == Put(d, kind, name, None)
  {
  }

  method PlainSteps(fns: seq<Fn>) returns (steps: seq<Step>)
    ensures steps == Plains(fns)
  {
    steps := [];
    for i := 0 to |fns|
      invariant |steps| == i && forall j :: 0 <= j < i ==> steps[j] == Plain(fns[j])
    {
      steps := steps + [Plain(fns[i])];
    }
  }

  lemma {:induction false} StepsAre(before: seq<Fn>, fn: Fn, after: seq<Fn>)
    ensures StepsOf(before, Some(fn), after)
            == if |after| == 0 then Plains(before) + [Plain(fn)] else [Guarded(before, Some(fn), after)]
  {
    assert Plains(Opt(Some(fn))) == [Plain(fn)];
  }

  lemma {:induction false} OneMoreItem(items: seq<Item>, x: Item)
    ensures AnyFocus(items + [x]) <==> AnyFocus(items) || x.kind == Focus
  {
    assert (items + [x])[|items|] == x;
    assert forall i :: 0 <= i < |items| ==> (items + [x])[i] == items[i];
  }

  /** A focused build leaves focused specs behind. */
  lemma {:induction false} FocusRemains(items: seq<Item>)
    requires AnyFocus(items) && |FocusOnly(items)| <= |items|
    ensures AnyFocus(Overwritten(items))
  {
    FocusOnlyFacts(items);
    NoneFocused(items);
    assert Overwritten(items)[0] == FocusOnly(items)[0];
    hide FocusOnly;
  }

  class Builder {
    var scopes: seq<Frame>
    var scopeNames: seq<string>
    var pending: seq<Item>
    var hasFocus: bool
    var nextScopeID: nat
    /** Every Describe so far, in order. */
    var table: seq<Row>
    var reportScopeIDStack: seq<nat>
    ghost var frozen: map<nat, Frame>
    ghost var stacks: seq<seq<Frame>>

    /** The implicit root scope is there from the start as far as anyone can
        tell. */
    ghost function View(): Decl
      reads this
    {
      Decl(if scopes == [] then START.open else scopes, scopeNames, reportScopeIDStack, table, pending, frozen, stacks)
    }

    ghost predicate Formed()
      reads this
    {
      && Shaped(View()) && AllGroups(table)
      && nextScopeID == |table| + (if scopes == [] then 0 else 1)
      && (scopes == [] ==> table == [])
    }

    ghost predicate Valid()
      reads this
    {
      Formed() && (hasFocus <==> AnyFocus(pending))
    }

    constructor ()
      ensures Valid() && View() == START
    {
      scopes, scopeNames, pending, hasFocus, nextScopeID, table, reportScopeIDStack := [], [], [], false, 0, [], [];
      frozen, stacks := map[], [];
    }

    method EmitBefore() returns (out: seq<Fn>)
      ensures out == AllBefore(scopes)
    {
      out := [];
      for i := 0 to |scopes|
        invariant out == AllBefore(scopes[..i])
      {
        assert scopes[..i + 1][..i] == scopes[..i];
        out := out + scopes[i].before;
      }
      assert scopes[..|scopes|] == scopes;
    }

    method EmitAfter() returns (out: seq<Fn>)
      ensures out == AllAfter(scopes)
    {
      out := [];
      for i := 0 to |scopes|
        invariant out == AllAfter(scopes[..i])
      {
        assert scopes[..i + 1][..i] == scopes[..i];
        out := out + scopes[i].after;
      }
      assert scopes[..|scopes|] == scopes;
    }

    method HookKey() returns (key: string)
      ensures key == KeyOf(scopes)
    {
      key := "";
      for i := 0 to |scopes|
        invariant key == KeyOf(scopes[..i])
      {
        assert scopes[..i + 1][..i] == scopes[..i];
        var s := scopes[i];
        key := key + (Decimal(s.id) + [','] + Decimal(|s.before|) + [','] + Decimal(|s.after|) + [';']);
      }
      assert scopes[..|scopes|] == scopes;
    }

    /** A parallel spec without AfterEach hooks is its steps one by one. */
    method EmitSpecSteps(fn: Fn) returns (steps: seq<Step>)
      ensures steps == StepsOf(AllBefore(scopes), Some(fn), AllAfter(scopes))
    {
      var before := EmitBefore();
      var after := EmitAfter();
      StepsAre(before, fn, after);
      hide *;
      if |after| == 0 {
        steps := PlainSteps(before);
        return steps + [Plain(fn)];
      }
      steps := [Guarded(before, Some(fn), after)];
    }

    method EnsureScope()
      requires Formed()
      modifies `scopes, `nextScopeID
      ensures Formed() && View() == old(View()) && scopes == old(View()).open
    {
      if |scopes| == 0 {
        scopes := [Frame(nextScopeID, [], [], false)];
        nextScopeID := nextScopeID + 1;
      }
    }

    method SealScope()
      requires Formed()
      modifies `scopes, `nextScopeID, `frozen
      ensures Formed() && View() == SealTop(old(View())) && scopes == SealTop(old(View())).open
    {
      EnsureScope();
      var n := |scopes| - 1;
      var top := scopes[n].(sealed := true);
      scopes := scopes[..n] + [top];
      frozen := frozen[top.id := top];
    }

    method It(name: string, fn: Option<Fn>)
      requires Valid()
      modifies this
      ensures Valid() && View() == if fn.None? then old(View()) else Put(old(View()), Normal, name, fn)
    {
      if fn.None? { return; }
      AddSequential(Normal, name, fn);
    }

    method FIt(name: string, fn: Option<Fn>)
      requires Valid()
      modifies this
      ensures Valid() && View() == if fn.None? then old(View()) else Put(old(View()), Focus, name, fn)
    {
      if fn.None? { return; }
      hasFocus := true;
      AddSequential(Focus, name, fn);
    }

    method AddSequential(kind: Kind, name: string, fn: Option<Fn>)
      requires Formed() && (kind == Normal || kind == Focus) && (hasFocus <==> AnyFocus(pending) || kind == Focus)
      modifies this
      ensures Valid() && View() == Put(old(View()), kind, name, fn)
    {
      SealScope();
      var x := BuildItem(kind, name, fn);
      hide Capture;
      Append(x);
    }

    method BuildItem(kind: Kind, name: string, fn: Option<Fn>) returns (x: Item)
      requires kind == Normal || kind == Focus
      ensures x == Capture(scopes, scopeNames, reportScopeIDStack, kind, name, fn)
    {
      var before := EmitBefore();
      var after := EmitAfter();
      var key := HookKey();
      x := Item(kind, name, Joined(scopeNames, name), scopeNames, reportScopeIDStack, before, fn, after, [], key);
    }

    method Append(x: Item)
      requires Formed() && scopes != [] && (hasFocus <==> AnyFocus(pending) || x.kind == Focus)
      modifies `pending, `stacks
      ensures Valid() && View() == old(View()).(pending := old(pending) + [x], stacks := old(stacks) + [scopes])
    {
      ghost var was := pending;
      pending := pending + [x];
      stacks := stacks + [scopes];
      OneMoreItem(was, x);
    }

    method SkipIt(name: string)
      requires Valid()
      modifies this
      ensures Valid() && View() == Put(old(View()), Skip, name, None)
    {
      SealScope();
      Append(Item(Skip, name, "", scopeNames, reportScopeIDStack, [], None, [], [], ""));
    }

    method PendingIt(name: string)
      requires Valid()
      modifies this
      ensures Valid() && View() == Put(old(View()), Pending, name, None)
    {
      SealScope();
      Append(Item(Pending, name, "", scopeNames, reportScopeIDStack, [], None, [], [], ""));
    }

    method ItParallel(name: string, fn: Option<Fn>)
      requires Valid()
      modifies this
      ensures Valid() && View() == if fn.None? then old(View()) else Put(old(View()), Parallel, name, fn)
    {
      if fn.None? { return; }
      SealScope();
      var steps := EmitSpecSteps(fn.value);
      hide AllBefore, AllAfter, StepsOf;
      Append(Item(Parallel, name, "", scopeNames, reportScopeIDStack, [], None, [], steps, ""));
    }

    method BeforeEach(fn: Option<Fn>) returns (late: bool)
      requires Valid()
      modifies this
      ensures Valid() && (fn.None? ==> !late && View() == old(View()))
      ensures fn.Some? ==>
                AddHook(old(View()), Declarations.Call.BeforeEach(fn))
                    == if late then Refused(View(), LateBefore) else Declared(View())
    {
      if fn.None? { return false; }
      EnsureScope();
      var n := |scopes| - 1;
      if scopes[n].sealed { return true; }
      late := false;
      scopes := scopes[..n] + [scopes[n].(before := scopes[n].before + [fn.value])];
    }

    method AfterEach(fn: Option<Fn>) returns (late: bool)
      requires Valid()
      modifies this
      ensures Valid() && (fn.None? ==> !late && View() == old(View()))
      ensures fn.Some? ==>
                AddHook(old(View()), Declarations.Call.AfterEach(fn))
                    == if late then Refused(View(), LateAfter) else Declared(View())
    {
      if fn.None? { return false; }
      EnsureScope();
      var n := |scopes| - 1;
      if scopes[n].sealed { return true; }
      late := false;
      scopes := scopes[..n] + [scopes[n].(after := scopes[n].after + [fn.value])];
    }

    method OpenScope(name: string)
      requires Valid()
      modifies this
      ensures Valid() && View() == Begin(old(View()), name)
    {
      SealScope();
      var parent: int := -1;
      if |reportScopeIDStack| > 0 { parent := reportScopeIDStack[|reportScopeIDStack| - 1]; }
      var id := |table|;
      table := table + [Row(parent, name, true)];
      reportScopeIDStack := reportScopeIDStack + [id];
      scopes := scopes + [Frame(nextScopeID, [], [], false)];
      nextScopeID := nextScopeID + 1;
      scopeNames := scopeNames + [name];
    }

    method CloseScope()
      requires Valid() && scopeNames != []
      modifies this
      ensures Valid() && View() == Finish(old(View()))
    {
      scopes := scopes[..|scopes| - 1];
      scopeNames := scopeNames[..|scopeNames| - 1];
      reportScopeIDStack := reportScopeIDStack[..|reportScopeIDStack| - 1];
    }

    /** The calls of a callback. A late hook panics out of it, and out of every
        Describe around it, each of which closes its scope on the way. */
    method Call(s: Script) returns (late: Option<LateHook>)
      requires Valid()
      modifies this
      ensures Valid()
      ensures Declare(old(View()), Acted(s)) == if late.Some? then Refused(View(), late.value) else Declared(View())
      decreases s
    {
      hide Put, Begin, Finish, AddHook, AllGroups, AnyFocus;
      match s
      case Done => late := None;
      case Then(It(kind, name, body), rest) =>
        MarksHaveNoBody(View(), kind, name, body);
        match kind {
          case Normal => It(name, body);
          case Focus => FIt(name, body);
          case Skip => SkipIt(name);
          case Pending => PendingIt(name);
          case Parallel => ItParallel(name, body);
        }
        late := Call(rest);
      case Then(Describe(_, None), rest) => late := Call(rest);
      case Then(Describe(name, Some(inner)), rest) =>
        OpenScope(name);
        late := Call(inner);
        CloseScope();
        if late.Some? { return; }
        late := Call(rest);
      case Then(BeforeEach(fn), rest) =>
        var refused := BeforeEach(fn);
        if refused { return Some(LateBefore); }
        late := Call(rest);
      case Then(AfterEach(fn), rest) =>
        var refused := AfterEach(fn);
        if refused { return Some(LateAfter); }
        late := Call(rest);
      case Then(_, rest) => late := Call(rest);
    }

    /** Every pending spec's path under the labels of all the scopes declared. */
    method ResolveReportPaths()
      requires Valid()
      modifies `pending
      ensures Valid() && pending == Resolved(old(pending), LabelsOfTable(table))
    {
      var labels := ComputeScopeLabels(table);
      assert labels == LabelsOfTable(table);
      ghost var was := pending;
      for i := 0 to |pending|
        invariant |pending| == |was| && forall j :: 0 <= j < i ==> pending[j] == Resolved(was, labels)[j]
        invariant forall j :: i <= j < |was| ==> pending[j] == was[j]
      {
        var path := ResolveScopeIDs(pending[i].ids, labels);
        pending := pending[i := pending[i].(path := path)];
      }
      assert forall i :: 0 <= i < |was| ==> pending[i].kind == was[i].kind;
    }

    /** Keeping only focused specs reuses the array of the pending ones, so a
        focused Builder is left with pending specs nobody declared. */
    method Build() returns (program: BuilderGroups.Program)
      requires Valid()
      modifies `pending
      ensures var items := Resolved(old(pending), LabelsOfTable(table));
              && program == Finalized(items, hasFocus) && |FocusOnly(items)| <= |items|
              && pending == if hasFocus then Overwritten(items) else items
      ensures Valid()
    {
      ResolveReportPaths();
      FocusOnlyFacts(pending);
      if hasFocus { FocusRemains(pending); }
      var items := pending;
      if hasFocus {
        var kept, slots, names, excluded := FilterFocused(pending);
        pending := slots;
        var units := Coalesce(kept);
        program := BuilderGroups.Program(units, names, excluded, |excluded|);
      } else {
        var units := Coalesce(items);
        program := BuilderGroups.Program(units, [], [], 0);
      }
    }
  }
}
