/** What the order of map keys means: which keys tie, and which come first. */
module KeyMeanings {
  import opened Bytes
  import opened Values
  import opened KeyOrder

  // ---- Keys that tie ----

  const NEGATIVE_ZERO: nat := 0x8000_0000_0000_0000

  /** The two zeros are one number. */
  function OneZero(bits: nat): nat {
    if bits == NEGATIVE_ZERO then 0 else bits
  }

  /** A key but for the sign of its zeros. */
  function Unsigned(k: Key): Key
    decreases k, 0
  {
    match k
    case FloatKey(kind, bits) => FloatKey(kind, OneZero(bits))
    case ComplexKey(kind, re, im) => ComplexKey(kind, OneZero(re), OneZero(im))
    case ListKey(shape, es) => ListKey(shape, AllUnsigned(es))
    case InterfaceKey(name, e) => InterfaceKey(name, Unsigned(e))
    case _ => k
  }

  function AllUnsigned(es: seq<Key>): (r: seq<Key>)
    ensures |r| == |es|
    decreases es, 0
  {
    if es == [] then [] else [Unsigned(es[0])] + AllUnsigned(es[1..])
  }

  lemma {:induction false} FloatsTie(a: nat, b: nat)
    ensures CompareFloats(a, b) == 0 <==> OneZero(a) == OneZero(b)
  {
  }

  // ---- Keys in order ----

  /** The number a float's bits stand for, in units of the least one. */
  function Magnitude(bits: nat): nat {
    var exponent, fraction := bits / TWO_52, bits % TWO_52;
    if exponent == 0 then fraction else (TWO_52 + fraction) * Pow2(exponent - 1)
  }

  const TWO_52: nat := 0x10_0000_0000_0000

  function Pow2(n: nat): (p: nat)
    ensures p > 0
  {
    if n == 0 then 1 else 2 * Pow2(n - 1)
  }

  function NumberOf(bits: nat): int {
    if bits >= TWO_63 then -(Magnitude(bits - TWO_63) as int) else Magnitude(bits)
  }

  ghost predicate BytesBefore(a: seq<Byte>, b: seq<Byte>) {
    exists i :: 0 <= i <= |a| && i < |b| && a[..i] == b[..i] && (i < |a| ==> a[i] < b[i])
  }

  predicate FloatBefore(a: nat, b: nat) {
    if IsNaN(a) then (if IsNaN(b) then a < b else true) else !IsNaN(b) && NumberOf(a) < NumberOf(b)
  }

  ghost predicate NameBefore(a: TypeName, b: TypeName) {
    BytesBefore(a.text, b.text) || (a.text == b.text && BytesBefore(a.pkg, b.pkg))
  }

  /** False before true, numbers by value with NaN first, strings by their bytes,
      parts one after the other, nil first and then by the name of the type. */
  ghost predicate Before(a: Key, b: Key)
    decreases a, 0
  {
    match (a, b)
    case (BoolKey(x), BoolKey(y)) => !x && y
    case (IntKey(_, x), IntKey(_, y)) => x < y
    case (UintKey(_, x), UintKey(_, y)) => x < y
    case (FloatKey(_, x), FloatKey(_, y)) => FloatBefore(x, y)
    case (ComplexKey(_, r, i), ComplexKey(_, s, j)) =>
      FloatBefore(r, s) || (OneZero(r) == OneZero(s) && FloatBefore(i, j))
    case (StringKey(x), StringKey(y)) => BytesBefore(x, y)
    case (AddressKey(_, x), AddressKey(_, y)) => x < y
    case (ListKey(_, xs), ListKey(_, ys)) =>
      exists i :: 0 <= i < |xs| && i < |ys| && AllUnsigned(xs[..i]) == AllUnsigned(ys[..i]) && Before(xs[i], ys[i])
    case (NilInterfaceKey, InterfaceKey(_, _)) => true
    case (InterfaceKey(n, x), InterfaceKey(m, y)) => NameBefore(n, m) || (n == m && Before(x, y))
    case _ => false
  }

  lemma {:induction false} BytesInOrder(a: seq<Byte>, b: seq<Byte>)
    ensures Compare(a, b) < 0 <==> BytesBefore(a, b)
  {
    if a == [] || b == [] {
      assert a == [] && b != [] ==> a[..0] == b[..0];
    } else if a[0] == b[0] {
      BytesInOrder(a[1..], b[1..]);
      if BytesBefore(a[1..], b[1..]) {
        var i :| 0 <= i <= |a[1..]| && i < |b[1..]| && a[1..][..i] == b[1..][..i]
                 && (i < |a[1..]| ==> a[1..][i] < b[1..][i]);
        assert a[..i + 1] == [a[0]] + a[1..][..i] && b[..i + 1] == [b[0]] + b[1..][..i];
        assert BytesBefore(a, b);
      }
      if BytesBefore(a, b) {
        var i :| 0 <= i <= |a| && i < |b| && a[..i] == b[..i] && (i < |a| ==> a[i] < b[i]);
        assert i > 0;
        assert a[1..][..i - 1] == a[..i][1..] && b[1..][..i - 1] == b[..i][1..];
        assert BytesBefore(a[1..], b[1..]);
      }
    } else {
      assert a[..0] == b[..0];
      if BytesBefore(a, b) {
        var i :| 0 <= i <= |a| && i < |b| && a[..i] == b[..i] && (i < |a| ==> a[i] < b[i]);
        if i > 0 { assert a[..i][0] == b[..i][0]; }
      }
    }
  }

  lemma {:induction false} PowersGrow(m: nat, n: nat)
    requires m < n
    ensures 2 * Pow2(m) <= Pow2(n)
  {
    if m + 1 < n { PowersGrow(m, n - 1); }
  }

  lemma {:induction false} Scaled(x: nat, y: nat, p: nat)
    requires p > 0 && x < y
    ensures x * p < y * p
  {
  }

  lemma {:induction false} ScaledMore(x: nat, y: nat, p: nat, q: nat)
    requires 2 * p <= q && x < 2 * y
    ensures p > 0 ==> x * p < y * q
  {
    if p > 0 {
      Scaled(x, 2 * y, p);
      assert (2 * y) * p == y * (2 * p) <= y * q;
    }
  }

  /** Larger bits are larger numbers. */
  lemma {:induction false} MagnitudeGrows(a: nat, b: nat)
    requires a < b
    ensures Magnitude(a) < Magnitude(b)
  {
    var e, f, m, n := a / TWO_52, b / TWO_52, a % TWO_52, b % TWO_52;
    assert e <= f && (e == f ==> m < n);
    if e == f {
      if e > 0 { Scaled(TWO_52 + m, TWO_52 + n, Pow2(e - 1)); }
    } else if e == 0 {
      assert Pow2(f - 1) >= 1;
      Atleast(TWO_52 + n, Pow2(f - 1));
    } else {
      PowersGrow(e - 1, f - 1);
      ScaledMore(TWO_52 + m, TWO_52 + n, Pow2(e - 1), Pow2(f - 1));
    }
  }

  lemma {:induction false} Atleast(x: nat, p: nat)
    requires p > 0
    ensures x <= x * p
  {
  }

  lemma {:induction false} FloatsInOrder(a: nat, b: nat)
    ensures CompareFloats(a, b) < 0 <==> FloatBefore(a, b)
  {
    var x, y := if a >= TWO_63 then a - TWO_63 else a, if b >= TWO_63 then b - TWO_63 else b;
    if x < y { MagnitudeGrows(x, y); }
    if y < x { MagnitudeGrows(y, x); }
    if x > 0 { MagnitudeGrows(0, x); }
    if y > 0 { MagnitudeGrows(0, y); }
    hide Magnitude;
  }

  lemma {:induction false} NamesInOrder(a: TypeName, b: TypeName)
    ensures CompareNames(a, b) < 0 <==> NameBefore(a, b)
  {
    BytesInOrder(a.text, b.text);
    BytesInOrder(a.pkg, b.pkg);
    NotBeforeItself(a.text);
    hide Compare, BytesBefore;
  }

  lemma {:induction false} NotBeforeItself(a: seq<Byte>)
    ensures !BytesBefore(a, a)
  {
  }

  /** Keys of one type tie exactly when they are the same but for the sign of
      zeros, and one comes first exactly when it is before the other. */
  lemma {:induction false} KeysInOrder(named: Named, a: Key, b: Key, ty: KeyType)
    requires KeyHasType(named, a, ty) && KeyHasType(named, b, ty)
    ensures CompareKeys(a, b) == 0 <==> Unsigned(a) == Unsigned(b)
    ensures CompareKeys(a, b) < 0 <==> Before(a, b)
    decreases a, 0
  {
    hide CompareFloats, FloatBefore, BytesBefore, NameBefore, OneZero;
    match (a, b) {
      case (FloatKey(_, x), FloatKey(_, y)) =>
        FloatsTie(x, y);
        FloatsInOrder(x, y);
      case (ComplexKey(_, r, i), ComplexKey(_, s, j)) =>
        FloatsTie(r, s);
        FloatsTie(i, j);
        FloatsInOrder(r, s);
        FloatsInOrder(i, j);
      case (StringKey(x), StringKey(y)) => BytesInOrder(x, y);
      case (ListKey(_, xs), ListKey(_, ys)) => ListsInOrder(named, xs, ys, ty.elems);
      case (InterfaceKey(n, x), InterfaceKey(m, y)) =>
        CompareNamesIsOrder(n, m, n);
        NamesInOrder(n, m);
        if n == m {
          NamesInOrder(n, n);
          KeysInOrder(named, x, y, named(n));
        }
      case _ =>
    }
  }

  /** The parts of two keys, one after the other. */
  ghost predicate ListBefore(xs: seq<Key>, ys: seq<Key>) {
    exists i :: 0 <= i < |xs| && i < |ys| && AllUnsigned(xs[..i]) == AllUnsigned(ys[..i]) && Before(xs[i], ys[i])
  }

  lemma {:induction false} ListBeforeIs(xs: seq<Key>, ys: seq<Key>)
    requires xs != [] && ys != []
    ensures ListBefore(xs, ys) <==>
              Before(xs[0], ys[0]) || (Unsigned(xs[0]) == Unsigned(ys[0]) && ListBefore(xs[1..], ys[1..]))
  {
    hide Before;
    if ListBefore(xs, ys) {
      var i :| 0 <= i < |xs| && i < |ys| && AllUnsigned(xs[..i]) == AllUnsigned(ys[..i]) && Before(xs[i], ys[i]);
      if i > 0 {
        assert xs[..i][1..] == xs[1..][..i - 1] && ys[..i][1..] == ys[1..][..i - 1];
        SplitUnsigned(xs[..i]);
        SplitUnsigned(ys[..i]);
        assert xs[1..][i - 1] == xs[i] && ys[1..][i - 1] == ys[i];
      }
    }
    if Before(xs[0], ys[0]) { assert xs[..0] == ys[..0]; }
    if Unsigned(xs[0]) == Unsigned(ys[0]) && ListBefore(xs[1..], ys[1..]) {
      var x, y := xs[1..], ys[1..];
      var i :| 0 <= i < |x| && i < |y| && AllUnsigned(x[..i]) == AllUnsigned(y[..i]) && Before(x[i], y[i]);
      assert xs[..i + 1][1..] == x[..i] && ys[..i + 1][1..] == y[..i];
      assert xs[i + 1] == x[i] && ys[i + 1] == y[i];
    }
  }

  lemma {:induction false} SplitUnsigned(s: seq<Key>)
    requires s != []
    ensures AllUnsigned(s) == [Unsigned(s[0])] + AllUnsigned(s[1..])
    ensures AllUnsigned(s)[0] == Unsigned(s[0]) && AllUnsigned(s)[1..] == AllUnsigned(s[1..])
  {
  }

  lemma {:induction false} ListsInOrder(named: Named, xs: seq<Key>, ys: seq<Key>, tys: seq<KeyType>)
    requires KeysHaveTypes(named, xs, tys) && KeysHaveTypes(named, ys, tys)
    ensures CompareLists(xs, ys) == 0 <==> AllUnsigned(xs) == AllUnsigned(ys)
    ensures CompareLists(xs, ys) < 0 <==>
              exists i :: 0 <= i < |xs| && i < |ys| && AllUnsigned(xs[..i]) == AllUnsigned(ys[..i])
                          && Before(xs[i], ys[i])
    decreases xs, 0
  {
    if xs != [] {
      KeysInOrder(named, xs[0], ys[0], tys[0]);
      ListsInOrder(named, xs[1..], ys[1..], tys[1..]);
      ListBeforeIs(xs, ys);
      SplitUnsigned(xs);
      SplitUnsigned(ys);
      assert CompareLists(xs[1..], ys[1..]) < 0 <==> ListBefore(xs[1..], ys[1..]);
      assert AllUnsigned(xs) == AllUnsigned(ys) <==>
             Unsigned(xs[0]) == Unsigned(ys[0]) && AllUnsigned(xs[1..]) == AllUnsigned(ys[1..]);
      hide Before, Unsigned, AllUnsigned, CompareKeys;
    }
  }
}
