/** Declaring specs on a Builder: every It captures the hooks of the scopes open
    around it, and a key that names those scopes. */
module BuilderItems {
  import opened Options
  import opened Declarations
  import opened ReportLabels
  import opened ScopeTables
  import opened Plans

  /** One open scope; the implicit root has id 0. */
  datatype Frame = Frame(id: nat, before: seq<Fn>, after: seq<Fn>, sealed: bool)

  /** A step of a parallel spec: a function, or a whole spec that runs its
      AfterEach hooks last-registered first however it ends. */
  datatype Step = Plain(fn: Fn) | Guarded(before: seq<Fn>, body: Option<Fn>, after: seq<Fn>)

  datatype Item = Item(
    kind: Kind, name: string, fullName: string, path: seq<string>, ids: seq<nat>,
    before: seq<Fn>, body: Option<Fn>, after: seq<Fn>, steps: seq<Step>, key: string)

  function AllBefore(open: seq<Frame>): seq<Fn> {
    if open == [] then [] else AllBefore(open[..|open| - 1]) + open[|open| - 1].before
  }

  function AllAfter(open: seq<Frame>): seq<Fn> {
    if open == [] then [] else AllAfter(open[..|open| - 1]) + open[|open| - 1].after
  }

  function KeyPart(f: Frame): string {
    Decimal(f.id) + [','] + Decimal(|f.before|) + [','] + Decimal(|f.after|) + [';']
  }

  function KeyOf(open: seq<Frame>): string {
    if open == [] then "" else KeyOf(open[..|open| - 1]) + KeyPart(open[|open| - 1])
  }

  function StepsOf(before: seq<Fn>, body: Option<Fn>, after: seq<Fn>): seq<Step> {
    if after == [] then Plains(before) + Plains(Opt(body)) else [Guarded(before, body, after)]
  }

  function Plains(fns: seq<Fn>): seq<Step> {
    seq(|fns|, i requires 0 <= i < |fns| => Plain(fns[i]))
  }

  /** What It and its variants add to the pending specs. */
  function Capture(open: seq<Frame>, names: seq<string>, ids: seq<nat>, kind: Kind, name: string,
      body: Option<Fn>): Item {
    match kind
    case Skip => Item(kind, name, "", names, ids, [], None, [], [], "")
    case Pending => Item(kind, name, "", names, ids, [], None, [], [], "")
    case Parallel => Item(kind, name, "", names, ids, [], None, [], StepsOf(AllBefore(open), body, AllAfter(open)), "")
    case _ => Item(kind, name, Joined(names, name), names, ids, AllBefore(open), body, AllAfter(open), [], KeyOf(open))
  }

  predicate Sequential(x: Item) {
    x.kind == Normal || x.kind == Focus
  }

  predicate Real(x: Item) {
    x.kind != Skip && x.kind != Pending
  }

  // ---- A key names its scopes ----

  lemma {:induction false} OnlyDigits(n: nat)
    ensures ',' !in Decimal(n) && ';' !in Decimal(n)
  {
    forall d: nat | d < 10 ensures Digit(d) != ',' && Digit(d) != ';' {
      var digits := "0123456789";
      assert digits[0] == '0' && digits[1] == '1' && digits[2] == '2' && digits[3] == '3' && digits[4] == '4';
      assert digits[5] == '5' && digits[6] == '6' && digits[7] == '7' && digits[8] == '8' && digits[9] == '9';
    }
    if n >= 10 { OnlyDigits(n / 10); }
  }

  /** Strings split in one way at their last separator. */
  lemma {:induction false} SplitAtLast(x: string, u: string, y: string, v: string, sep: char)
    requires x + [sep] + u == y + [sep] + v && sep !in u && sep !in v
    ensures x == y && u == v
  {
    var s, t := x + [sep] + u, y + [sep] + v;
    assert s[|x|] == sep && t[|y|] == sep;
    forall k | |x| < k < |s| ensures s[k] != sep { assert s[k] == u[k - |x| - 1]; }
    forall k | |y| < k < |t| ensures t[k] != sep { assert t[k] == v[k - |y| - 1]; }
    assert |x| == |y|;
    assert s[..|x|] == x && t[..|y|] == y;
    assert s[|x| + 1..] == u && t[|y| + 1..] == v;
  }

  lemma {:induction false} KeyEnds(open: seq<Frame>) returns (front: string)
    requires open != []
    ensures KeyOf(open) == front + [';']
  {
    var k := KeyOf(open);
    front := k[..|k| - 1];
    assert k[|k| - 1] == ';';
  }

  /** Only the key of the scopes around an id has a semicolon. */
  lemma {:induction false} Semicolon(outer: seq<Frame>, id: nat)
    ensures ';' in KeyOf(outer) + Decimal(id) <==> outer != []
  {
    OnlyDigits(id);
    if outer == [] {
      assert KeyOf(outer) + Decimal(id) == Decimal(id);
    } else {
      var front := KeyEnds(outer);
      assert (KeyOf(outer) + Decimal(id))[|front|] == ';';
    }
  }

  lemma {:induction false} IdSplits(outer: seq<Frame>, id: nat, outer': seq<Frame>, id': nat)
    requires KeyOf(outer) + Decimal(id) == KeyOf(outer') + Decimal(id')
    ensures KeyOf(outer) == KeyOf(outer') && id == id'
  {
    Semicolon(outer, id);
    Semicolon(outer', id');
    OnlyDigits(id);
    OnlyDigits(id');
    if outer == [] {
      assert KeyOf(outer) + Decimal(id) == Decimal(id) && KeyOf(outer') + Decimal(id') == Decimal(id');
    } else {
      var a := KeyEnds(outer);
      var b := KeyEnds(outer');
      SplitAtLast(a, Decimal(id), b, Decimal(id'), ';');
    }
    DecimalInjective(id, id');
  }

  lemma {:induction false} PartSplits(outer: seq<Frame>, f: Frame, outer': seq<Frame>, f': Frame)
    requires KeyOf(outer) + KeyPart(f) == KeyOf(outer') + KeyPart(f')
    ensures KeyOf(outer) == KeyOf(outer') && f.id == f'.id
  {
    hide KeyOf, Decimal;
    var k, k' := KeyOf(outer) + Decimal(f.id), KeyOf(outer') + Decimal(f'.id);
    var m, m' := k + [','] + Decimal(|f.before|), k' + [','] + Decimal(|f'.before|);
    var e, e' := m + [','] + Decimal(|f.after|), m' + [','] + Decimal(|f'.after|);
    assert e + [';'] == KeyOf(outer) + KeyPart(f);
    assert e' + [';'] == KeyOf(outer') + KeyPart(f');
    assert e == (e + [';'])[..|e|] && e' == (e' + [';'])[..|e'|];
    OnlyDigits(|f.before|);
    OnlyDigits(|f'.before|);
    OnlyDigits(|f.after|);
    OnlyDigits(|f'.after|);
    SplitAtLast(m, Decimal(|f.after|), m', Decimal(|f'.after|), ',');
    SplitAtLast(k, Decimal(|f.before|), k', Decimal(|f'.before|), ',');
    IdSplits(outer, f.id, outer', f'.id);
  }

  lemma {:induction false} KeySplits(a: seq<Frame>, b: seq<Frame>)
    requires KeyOf(a) == KeyOf(b)
    ensures a == [] <==> b == []
    ensures a != [] ==> KeyOf(a[..|a| - 1]) == KeyOf(b[..|b| - 1]) && a[|a| - 1].id == b[|b| - 1].id
  {
    Semicolon(a, 0);
    Semicolon(b, 0);
    if a != [] { PartSplits(a[..|a| - 1], a[|a| - 1], b[..|b| - 1], b[|b| - 1]); }
  }

  /** Equal keys name the same scopes, whatever their hooks. */
  lemma {:induction false} KeyNamesScopes(a: seq<Frame>, b: seq<Frame>)
    requires KeyOf(a) == KeyOf(b)
    ensures |a| == |b| && forall i :: 0 <= i < |a| ==> a[i].id == b[i].id
  {
    hide *;
    KeySplits(a, b);
    if a != [] {
      var n, m := |a| - 1, |b| - 1;
      var outer, outer' := a[..n], b[..m];
      KeyNamesScopes(outer, outer');
      forall i | 0 <= i < n ensures a[i].id == b[i].id {
        assert outer[i] == a[i] && outer'[i] == b[i];
      }
    }
  }

  // ---- Declaring ----

  /** A Builder's state. names and ids are those of the open Describes; frozen
      are the scopes that were ever sealed, and stacks[i] those open around
      pending[i]. */
  datatype Decl = Decl(
    open: seq<Frame>, names: seq<string>, ids: seq<nat>, rows: seq<Row>, pending: seq<Item>,
    frozen: map<nat, Frame>, stacks: seq<seq<Frame>>)

  const START := Decl([Frame(0, [], [], false)], [], [], [], [], map[], [])

  datatype Declaring = Declared(d: Decl) | Refused(d: Decl, hook: LateHook)

  function TopFrame(d: Decl): Frame
    requires d.open != []
  {
    d.open[|d.open| - 1]
  }

  function SetTop(d: Decl, f: Frame): Decl
    requires d.open != []
  {
    d.(open := d.open[..|d.open| - 1] + [f])
  }

  /** From its first spec or nested scope on, a scope takes no more hooks. */
  function SealTop(d: Decl): Decl
    requires d.open != []
  {
    var f := TopFrame(d).(sealed := true);
    SetTop(d, f).(frozen := d.frozen[f.id := f])
  }

  function Begin(d: Decl, name: string): (e: Decl)
    requires d.open != []
    ensures |e.open| == |d.open| + 1 && |e.names| == |d.names| + 1 && |e.ids| == |d.ids| + 1
  {
    var e, id := SealTop(d), |d.rows|;
    var parent: int := if d.ids == [] then -1 else d.ids[|d.ids| - 1];
    e.(open := e.open + [Frame(id + 1, [], [], false)], names := d.names + [name], ids := d.ids + [id],
       rows := d.rows + [Row(parent, name, true)])
  }

  /** A Describe closes its scope even when its callback panics. */
  function Finish(d: Decl): (e: Decl)
    requires d.open != [] && d.names != [] && d.ids != []
    ensures |e.open| == |d.open| - 1 && |e.names| == |d.names| - 1 && |e.ids| == |d.ids| - 1
  {
    d.(open := d.open[..|d.open| - 1], names := d.names[..|d.names| - 1], ids := d.ids[..|d.ids| - 1])
  }

  function Put(d: Decl, kind: Kind, name: string, body: Option<Fn>): (e: Decl)
    requires d.open != []
    ensures |e.open| == |d.open| && |e.names| == |d.names| && |e.ids| == |d.ids|
  {
    var e := SealTop(d);
    e.(pending := d.pending + [Capture(e.open, d.names, d.ids, kind, name, body)], stacks := d.stacks + [e.open])
  }

  function AddHook(d: Decl, c: Call): (r: Declaring)
    requires d.open != []
    ensures |r.d.open| == |d.open| && r.d.names == d.names && r.d.ids == d.ids && r.d.rows == d.rows
  {
    var top := TopFrame(d);
    match c
    case BeforeEach(Some(fn)) =>
      if top.sealed then Refused(d, LateBefore) else Declared(SetTop(d, top.(before := top.before + [fn])))
    case AfterEach(Some(fn)) =>
      if top.sealed then Refused(d, LateAfter) else Declared(SetTop(d, top.(after := top.after + [fn])))
    case _ => Declared(d)
  }

  predicate Shaped(d: Decl) {
    |d.open| == |d.names| + 1 == |d.ids| + 1
  }

  /** The calls of a callback, one after the other, up to a late hook. */
  function Declare(d: Decl, s: Script): (r: Declaring)
    requires Shaped(d)
    ensures Shaped(r.d) && |r.d.open| == |d.open|
    decreases s
  {
    match s
    case Done => Declared(d)
    case Then(It(kind, name, body), rest) =>
      if kind == Focus && body.None? then Declare(d, rest) else Declare(Put(d, kind, name, body), rest)
    case Then(Describe(_, None), rest) => Declare(d, rest)
    case Then(Describe(name, Some(inner)), rest) => (
      match Declare(Begin(d, name), inner)
      case Refused(d', h) => Refused(Finish(d'), h)
      case Declared(d') => Declare(Finish(d'), rest))
    case Then(c, rest) => (
      match AddHook(d, c)
      case Refused(d', h) => Refused(d', h)
      case Declared(d') => Declare(d', rest))
  }

  /** The calls a Builder acts on: it ignores a nil function, except for SkipIt
      and PendingIt, and has no once-per-group hooks. */
  predicate Ignored(c: Call) {
    match c
    case BeforeEach(fn) => fn.None?
    case AfterEach(fn) => fn.None?
    case BeforeAll(_) => true
    case AfterAll(_) => true
    case It(kind, _, body) => kind != Skip && kind != Pending && body.None?
    case Describe(_, callback) => callback.None?
  }

  function Acted(s: Script): Script {
    match s
    case Done => Done
    case Then(Describe(name, Some(inner)), rest) => Then(Describe(name, Some(Acted(inner))), Acted(rest))
    case Then(c, rest) => if Ignored(c) then Acted(rest) else Then(c, Acted(rest))
  }

  // ---- A sealed scope keeps its hooks ----

  ghost predicate Known(stack: seq<Frame>, frozen: map<nat, Frame>) {
    forall i :: 0 <= i < |stack| ==> stack[i].id in frozen && frozen[stack[i].id] == stack[i]
  }

  /** What a sequential spec captured is what its sealed scopes have. */
  ghost predicate CapturedFrom(x: Item, stack: seq<Frame>) {
    Sequential(x) ==> x.before == AllBefore(stack) && x.after == AllAfter(stack) && x.key == KeyOf(stack)
  }

  ghost predicate Captured(pending: seq<Item>, stacks: seq<seq<Frame>>, frozen: map<nat, Frame>) {
    && |stacks| == |pending|
    && forall i :: 0 <= i < |pending| ==> Known(stacks[i], frozen) && CapturedFrom(pending[i], stacks[i])
  }

  ghost predicate OpenScopes(open: seq<Frame>, frozen: map<nat, Frame>, n: nat) {
    && open != []
    && (forall i :: 0 <= i < |open| ==> open[i].id <= n)
    && (forall i, j :: 0 <= i < j < |open| ==> open[i].id < open[j].id)
    && Known(open[..|open| - 1], frozen)
    && (forall i :: 0 <= i < |open| - 1 ==> open[i].sealed)
    && var top := open[|open| - 1]; if top.sealed then top.id in frozen && frozen[top.id] == top else top.id !in frozen
  }

  ghost predicate Frozen(d: Decl) {
    && Shaped(d) && OpenScopes(d.open, d.frozen, |d.rows|)
    && (forall id :: id in d.frozen ==> id <= |d.rows| && d.frozen[id].sealed)
    && Captured(d.pending, d.stacks, d.frozen)
  }

  lemma {:induction false} CapturedStill(pending: seq<Item>, stacks: seq<seq<Frame>>, frozen: map<nat, Frame>, f: Frame)
    requires Captured(pending, stacks, frozen) && (f.id in frozen ==> frozen[f.id] == f)
    ensures Captured(pending, stacks, frozen[f.id := f])
  {
    forall i | 0 <= i < |pending| ensures Known(stacks[i], frozen[f.id := f]) {
    }
  }

  lemma {:induction false} SealFreezes(d: Decl)
    requires Frozen(d)
    ensures Frozen(SealTop(d)) && Known(SealTop(d).open, SealTop(d).frozen)
  {
    var n, e, f := |d.open| - 1, SealTop(d), TopFrame(d).(sealed := true);
    CapturedStill(d.pending, d.stacks, d.frozen, f);
    assert e.open[..n] == d.open[..n];
    forall i | 0 <= i < n ensures e.open[i].id in e.frozen && e.frozen[e.open[i].id] == e.open[i] {
      assert d.open[..n][i] == e.open[i];
    }
    assert Known(e.open, e.frozen);
    assert Known(e.open[..n], e.frozen);
  }

  lemma {:induction false} PutFreezes(d: Decl, kind: Kind, name: string, body: Option<Fn>)
    requires Frozen(d)
    ensures Frozen(Put(d, kind, name, body))
  {
    SealFreezes(d);
    hide AllBefore, AllAfter, KeyOf, StepsOf, Joined, Known, OpenScopes;
  }

  lemma {:induction false} BeginFreezes(d: Decl, name: string)
    requires Frozen(d)
    ensures Frozen(Begin(d, name))
  {
    SealFreezes(d);
    var e := SealTop(d);
    assert Begin(d, name).open[..|e.open|] == e.open;
    hide CapturedFrom, Capture;
  }

  lemma {:induction false} FinishFreezes(d: Decl)
    requires Frozen(d) && d.names != []
    ensures Frozen(Finish(d))
  {
    var n := |d.open| - 1;
    var top := d.open[n - 1];
    assert d.open[..n][n - 1] == top;
    assert top.id in d.frozen && d.frozen[top.id] == top;
    assert d.open[..n][..n - 1] == d.open[..n - 1];
    forall i | 0 <= i < n - 1 ensures d.open[..n - 1][i].id in d.frozen && d.frozen[d.open[i].id] == d.open[i] {
      assert d.open[..n][i] == d.open[i];
    }
    hide CapturedFrom;
  }

  lemma {:induction false} HookFreezes(d: Decl, c: Call)
    requires Frozen(d)
    ensures Frozen(AddHook(d, c).d)
  {
    var e := AddHook(d, c).d;
    assert e.open[..|e.open| - 1] == d.open[..|d.open| - 1];
    hide CapturedFrom;
  }

  lemma {:induction false} DeclareFreezes(d: Decl, s: Script)
    requires Frozen(d)
    ensures Frozen(Declare(d, s).d)
    decreases s
  {
    hide Frozen, Put, Begin, Finish, AddHook;
    assert Shaped(d) by { FrozenShape(d); }
    match s
    case Done =>
    case Then(It(kind, name, body), rest) =>
      if kind == Focus && body.None? {
        DeclareFreezes(d, rest);
      } else {
        PutFreezes(d, kind, name, body);
        DeclareFreezes(Put(d, kind, name, body), rest);
      }
    case Then(Describe(_, None), rest) => DeclareFreezes(d, rest);
    case Then(Describe(name, Some(inner)), rest) =>
      BeginFreezes(d, name);
      BeginShape(d, name);
      DeclareFreezes(Begin(d, name), inner);
      var r := Declare(Begin(d, name), inner);
      FinishFreezes(r.d);
      if r.Declared? { DeclareFreezes(Finish(r.d), rest); }
    case Then(c, rest) =>
      HookFreezes(d, c);
      if AddHook(d, c).Declared? { DeclareFreezes(AddHook(d, c).d, rest); }
  }

  lemma {:induction false} FrozenShape(d: Decl)
    requires Frozen(d)
    ensures Shaped(d)
  {
  }

  lemma {:induction false} BeginShape(d: Decl, name: string)
    requires Shaped(d)
    ensures Shaped(Begin(d, name)) && Begin(d, name).names != []
  {
  }

  /** Sequential specs with one key captured the same hooks. */
  ghost predicate SharesHooks(x: Item, y: Item) {
    Sequential(x) && Sequential(y) && x.key == y.key ==> x.before == y.before && x.after == y.after
  }

  ghost predicate Coherent(items: seq<Item>) {
    forall i, j :: 0 <= i < |items| && 0 <= j < |items| ==> SharesHooks(items[i], items[j])
  }

  lemma {:induction false} FrozenIsCoherent(d: Decl)
    requires Frozen(d)
    ensures Coherent(d.pending)
  {
    forall i, j | 0 <= i < |d.pending| && 0 <= j < |d.pending| ensures SharesHooks(d.pending[i], d.pending[j]) {
      var x, y := d.pending[i], d.pending[j];
      if Sequential(x) && Sequential(y) && x.key == y.key {
        KeyNamesScopes(d.stacks[i], d.stacks[j]);
        assert d.stacks[i] == d.stacks[j];
      }
    }
  }

  /** After any calls, even ones that end in a late hook, an equal key means an
      equal stack of sealed scopes, hence the same hooks. */
  lemma {:induction false} EqualKeysEqualHooks(s: Script)
    ensures Coherent(Declare(START, s).d.pending)
  {
    var none: seq<Frame> := START.open[..0];
    assert START.open[..|START.open| - 1] == none;
    DeclareFreezes(START, s);
    FrozenIsCoherent(Declare(START, s).d);
  }

  // ---- Every Describe closes its scope ----

  /** The same scopes are open, their names and numbers unchanged. */
  ghost predicate SameOpen(d: Decl, e: Decl) {
    && e.names == d.names && e.ids == d.ids && |e.open| == |d.open| && d.open != []
    && var n := |d.open| - 1; e.open[..n] == d.open[..n] && e.open[n].id == d.open[n].id
  }

  lemma {:induction false} ScopeBeganAndFinished(d: Decl, e: Decl, name: string)
    requires d.open != [] && SameOpen(Begin(d, name), e)
    ensures SameOpen(d, Finish(e))
  {
    var b, f, n := Begin(d, name), Finish(e), |d.open|;
    assert f.open == b.open[..n] && b.open[..n] == SealTop(d).open;
    assert f.names == b.names[..|d.names|] && f.ids == b.ids[..|d.ids|];
  }

  lemma {:induction false} OpenStays(d: Decl, kind: Kind, name: string, body: Option<Fn>, c: Call)
    requires d.open != []
    ensures SameOpen(d, Put(d, kind, name, body)) && SameOpen(d, AddHook(d, c).d) && SameOpen(d, d)
  {
    hide Capture;
  }

  lemma {:induction false} SameOpenChains(d: Decl, e: Decl, f: Decl)
    requires SameOpen(d, e) && SameOpen(e, f)
    ensures SameOpen(d, f)
  {
  }

  /** Whether its calls end or a late hook panics out of them, a callback leaves
      the open scopes as they were: what is declared afterwards gets the names
      of the scopes it is in. */
  lemma {:induction false} ScopesUnwind(d: Decl, s: Script)
    requires Shaped(d)
    ensures SameOpen(d, Declare(d, s).d)
    decreases s
  {
    hide SameOpen, Put, Begin, Finish, AddHook;
    OpenStays(d, Normal, "", None, Call.BeforeAll(None));
    match s
    case Done =>
    case Then(It(kind, name, body), rest) =>
      var e := if kind == Focus && body.None? then d else Put(d, kind, name, body);
      OpenStays(d, kind, name, body, s.call);
      ScopesUnwind(e, rest);
      SameOpenChains(d, e, Declare(e, rest).d);
    case Then(Describe(_, None), rest) => ScopesUnwind(d, rest);
    case Then(Describe(name, Some(inner)), rest) =>
      BeginShape(d, name);
      ScopesUnwind(Begin(d, name), inner);
      var r := Declare(Begin(d, name), inner);
      ScopeBeganAndFinished(d, r.d, name);
      if r.Declared? {
        ScopesUnwind(Finish(r.d), rest);
        SameOpenChains(d, Finish(r.d), Declare(Finish(r.d), rest).d);
      }
    case Then(c, rest) =>
      OpenStays(d, Normal, "", None, c);
      var r := AddHook(d, c);
      if r.Declared? {
        ScopesUnwind(r.d, rest);
        SameOpenChains(d, r.d, Declare(r.d, rest).d);
      }
  }
}
