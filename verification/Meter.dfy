/** The work budget all the fingerprints of one diagnostic message share, and
    the memo that recalls a fingerprint instead of building it again. */
module Meters {
  import opened Bytes
  import opened Values
  import opened Fingerprints
  import opened FingerprintLaws
  import opened FingerprintDecodes
  import opened HeapContents
  import opened FingerprintBuilders
  import opened KeyOrder
  import opened Options

  const MESSAGE_BUDGET: nat := 32768

  datatype MemoKey = MemoKey(typ: TypeId, ref: RefKey)

  datatype MemoEntry = MemoEntry(allowance: nat, nodeCut: bool, fp: Print)

  /** The reference v is, or holds through interfaces. */
  function MemoRef(v: Value): Option<RefKey> {
    match v
    case Interface(_, e) => MemoRef(e)
    case Ref(k) => Some(k)
    case _ => None
  }

  /** The type of a value and the reference behind it determine the value. */
  lemma {:induction false} OneValuePerMemoKey(ts: Types, h: Heap, v: Value, w: Value, ty: TypeId, k: RefKey)
    requires ValueHasType(ts, h, v, ty) && ValueHasType(ts, h, w, ty)
    requires MemoRef(v) == Some(k) && MemoRef(w) == Some(k)
    ensures v == w
  {
    if v.Interface? {
      assert v.elem == Ref(k) && w.elem == Ref(k);
    }
  }

  ghost predicate Typed(ts: Types, h: Heap, v: Value, ty: TypeId) {
    HeapTyped(ts, h) && ValueHasType(ts, h, v, ty)
  }

  lemma {:induction false} TypedIsReady(ts: Types, h: Heap, v: Value, ty: TypeId)
    requires Typed(ts, h, v, ty)
    ensures Closed(h) && Live(h, v) && Fits(Seen(ts, h, v))
  {
    TypedIsClosed(ts, h);
    TypedIsLive(ts, h, v, ty);
    UnfoldTyped(ts, h, v, ty, 0, []);
  }

  /** What fingerprinting v from scratch would leave. */
  ghost function Outcome(ts: Types, h: Heap, v: Value, ty: TypeId, allowance: nat): State
    requires Typed(ts, h, v, ty)
  {
    TypedIsReady(ts, h, v, ty);
    Computed(Seen(ts, h, v), allowance)
  }

  /** The fingerprint of a tied entry's value; with no allowance nothing is
      visited and nothing is known. */
  ghost function TiePrint(ts: Types, h: Heap, v: Value, ty: TypeId, allowance: nat): Print
    requires Typed(ts, h, v, ty)
  {
    if allowance == 0 then Print([], false) else PrintOf(Outcome(ts, h, v, ty, allowance))
  }

  ghost predicate Remembered(ts: Types, h: Heap, key: MemoKey, e: MemoEntry) {
    forall v :: Typed(ts, h, v, key.typ) && MemoRef(v) == Some(key.ref) ==>
      var s := Outcome(ts, h, v, key.typ, e.allowance);
      e.fp == PrintOf(s) && e.nodeCut == s.nodeCut
  }

  /** A recalled fingerprint is exactly what a new computation would give. */
  lemma {:induction false} RecallIsExact(ts: Types, h: Heap, v: Value, ty: TypeId, e: MemoEntry, allowance: nat)
    requires Typed(ts, h, v, ty)
    requires var s := Outcome(ts, h, v, ty, e.allowance); e.fp == PrintOf(s) && e.nodeCut == s.nodeCut
    requires e.allowance == allowance || (!e.nodeCut && allowance > e.allowance)
    ensures e.fp == PrintOf(Outcome(ts, h, v, ty, allowance))
  {
    if e.allowance < allowance {
      TypedIsReady(ts, h, v, ty);
      LargerAllowance(Seen(ts, h, v), Start(MAX_BYTES, e.allowance), allowance - e.allowance);
    }
  }

  function Pow2(n: nat): (p: nat)
    ensures p > 0
  {
    if n == 0 then 1 else 2 * Pow2(n - 1)
  }

  lemma {:induction false} TopBit(a: nat)
    requires a > 0
    ensures BitLen(a) > 0 && Pow2(BitLen(a) - 1) <= a < 2 * Pow2(BitLen(a) - 1)
  {
    if a > 1 { TopBit(a / 2); }
  }

  /** An equal part of half of left for each of tied entries, within the limit
      for one entry. */
  function EvenShare(left: nat, tied: nat): nat
    requires tied > 0
  {
    if left / 2 / tied < MAX_NODES then left / 2 / tied else MAX_NODES
  }

  lemma {:induction false} EvenShareFits(left: nat, tied: nat, a: nat)
    requires tied > 0 && a <= EvenShare(left, tied)
    ensures a * tied <= left / 2
  {
    var half := left / 2;
    assert half / tied * tied <= half;
    assert a * tied <= half / tied * tied;
  }

  /** The allowance of each of tied entries: the even share rounded down to a
      power of two, so that small spending does not change it. */
  function Allowance(left: nat, tied: nat): nat {
    if tied == 0 || EvenShare(left, tied) == 0 then 0 else Pow2(BitLen(EvenShare(left, tied)) - 1)
  }

  /** All tied entries together can use half of what is left, and each gets more
      than half of its even share. */
  lemma {:induction false} AllowanceIsFair(left: nat, tied: nat)
    ensures Allowance(left, tied) <= MAX_NODES && Allowance(left, tied) * tied <= left / 2
    ensures tied > 0 ==> Allowance(left, tied) <= EvenShare(left, tied)
    ensures tied > 0 && EvenShare(left, tied) > 0 ==> EvenShare(left, tied) < 2 * Allowance(left, tied)
  {
    if tied > 0 && EvenShare(left, tied) > 0 {
      TopBit(EvenShare(left, tied));
      EvenShareFits(left, tied, Allowance(left, tied));
    }
  }

  datatype MapEntry = MapEntry(key: Key, val: Value)

  /** An entry kept for a window, named by its place in the map. It is ambiguous
      when another entry of the map cannot be told from it. */
  datatype Slot = Slot(entry: nat, fp: Option<Print>, ambiguous: bool)

  /** The window of the first k entries of one map. */
  datatype WindowKey = WindowKey(ref: RefKey, k: nat)

  datatype MapWindow = MapWindow(top: seq<Slot>, total: nat)

  class FpMeter {
    var left: nat
    var visited: nat
    var memo: map<MemoKey, MemoEntry>
    /** The windows of big maps already selected in this message. */
    var windows: map<WindowKey, MapWindow>
    /** The allowance each of them was selected with. */
    ghost var shares: map<WindowKey, nat>

    ghost predicate Valid(ts: Types, h: Heap)
      reads this
    {
      && left + visited == MESSAGE_BUDGET
      && forall k :: k in memo ==> Remembered(ts, h, k, memo[k])
    }

    constructor (ghost ts: Types, ghost h: Heap)
      ensures Valid(ts, h) && visited == 0 && windows == map[] && shares == map[]
    {
      left, visited, memo, windows, shares := MESSAGE_BUDGET, 0, map[], map[], map[];
    }

    /** What each of tied entries of one map may visit. */
    method TieAllowance(tied: nat) returns (a: nat)
      ensures a == Allowance(left, tied) && a <= MAX_NODES && a * tied <= left / 2
      ensures tied == 0 ==> a == 0
      ensures tied > 0 ==> a <= EvenShare(left, tied) && (EvenShare(left, tied) == 0 || EvenShare(left, tied) < 2 * a)
      ensures a > 0 ==> exists n :: a == Pow2(n)
    {
      AllowanceIsFair(left, tied);
      if tied == 0 { return 0; }
      a := EvenShare(left, tied);
      if a < 1 { return 0; }
      a := Pow2(BitLen(a) - 1);
    }

    /** The fingerprint of v within allowance, recalled when that is exact. */
    method TieFingerprint(ts: Types, h: Heap, v: Value, ty: TypeId, allowance: nat) returns (fp: Print)
      requires Valid(ts, h) && Typed(ts, h, v, ty) && allowance <= left
      modifies `left, `visited, `memo
      ensures Valid(ts, h)
      ensures old(left) - allowance <= left <= old(left)
      ensures fp == TiePrint(ts, h, v, ty, allowance)
    {
      if allowance == 0 { return Print([], false); }
      var ref := MemoRef(v);
      if ref.Some? && MemoKey(ty, ref.value) in memo {
        var e := memo[MemoKey(ty, ref.value)];
        if e.allowance == allowance || (!e.nodeCut && allowance > e.allowance) {
          assert Remembered(ts, h, MemoKey(ty, ref.value), e);
          RecallIsExact(ts, h, v, ty, e, allowance);
          return e.fp;
        }
      }
      TypedIsReady(ts, h, v, ty);
      var p, rest, nodeCut := Compute(ts.names, h, v, allowance);
      var used := allowance - rest;
      left, visited := left - used, visited + used;
      fp := p;
      if ref.Some? {
        var key, e := MemoKey(ty, ref.value), MemoEntry(allowance, nodeCut, p);
        NewMemory(ts, h, v, key, e);
        memo := memo[key := e];
      }
    }
  }

  lemma {:induction false} NewMemory(ts: Types, h: Heap, v: Value, key: MemoKey, e: MemoEntry)
    requires Typed(ts, h, v, key.typ) && MemoRef(v) == Some(key.ref)
    requires var s := Outcome(ts, h, v, key.typ, e.allowance); e.fp == PrintOf(s) && e.nodeCut == s.nodeCut
    ensures Remembered(ts, h, key, e)
  {
    forall w | Typed(ts, h, w, key.typ) && MemoRef(w) == Some(key.ref) ensures w == v {
      OneValuePerMemoKey(ts, h, v, w, key.typ, key.ref);
    }
  }
}
