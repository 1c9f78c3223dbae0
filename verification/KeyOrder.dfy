/** The order diffs and renderers put map keys in, read through reflection. */
module KeyOrder {
  import opened Bytes
  import opened Values

  datatype Key =
    | BoolKey(b: bool)
    | IntKey(kind: Byte, i: int)
    | UintKey(kind: Byte, u: nat)
    | FloatKey(kind: Byte, bits: nat)
    | ComplexKey(kind: Byte, re: nat, im: nat)
    | StringKey(s: seq<Byte>)
    | AddressKey(kind: Byte, ptr: nat)
    | ListKey(shape: Shape, elems: seq<Key>)
    | NilInterfaceKey
    | InterfaceKey(name: TypeName, elem: Key)

  /** A key type; an interface's dynamic type is determined by its name. */
  datatype KeyType =
    | ScalarKeyType(kind: Byte)
    | ListKeyType(shape: Shape, elems: seq<KeyType>)
    | InterfaceKeyType

  type Named = TypeName -> KeyType

  function KindOf(k: Key): Byte {
    match k
    case BoolKey(_) => KIND_BOOL
    case IntKey(kind, _) => kind
    case UintKey(kind, _) => kind
    case FloatKey(kind, _) => kind
    case ComplexKey(kind, _, _) => kind
    case StringKey(_) => KIND_STRING
    case AddressKey(kind, _) => kind
    case ListKey(shape, _) => if shape.ArrayShape? then KIND_ARRAY else KIND_STRUCT
    case NilInterfaceKey => KIND_INTERFACE
    case InterfaceKey(_, _) => KIND_INTERFACE
  }

  /** Kinds tell the scalar constructors apart, as they do in reflect. */
  predicate KindFits(k: Key) {
    match k
    case IntKey(kind, _) => 2 <= kind <= 6
    case UintKey(kind, _) => 7 <= kind <= 12
    case FloatKey(kind, _) => 13 <= kind <= 14
    case ComplexKey(kind, _, _) => 15 <= kind <= 16
    case AddressKey(kind, _) => kind in {18, 22, 26}
    case _ => true
  }

  predicate KeyHasType(named: Named, k: Key, ty: KeyType)
    decreases k, 0
  {
    match k
    case ListKey(shape, es) => ty.ListKeyType? && shape == ty.shape && KeysHaveTypes(named, es, ty.elems)
    case NilInterfaceKey => ty.InterfaceKeyType?
    case InterfaceKey(name, e) =>
      ty.InterfaceKeyType? && !named(name).InterfaceKeyType? && KeyHasType(named, e, named(name))
    case _ => ty == ScalarKeyType(KindOf(k)) && KindFits(k)
  }

  predicate KeysHaveTypes(named: Named, es: seq<Key>, tys: seq<KeyType>)
    decreases es, 0
  {
    |es| == |tys| && forall i :: 0 <= i < |es| ==> KeyHasType(named, es[i], tys[i])
  }

  function Sign(n: int): int {
    if n < 0 then -1 else if n > 0 then 1 else 0
  }

  function CompareBools(a: bool, b: bool): int {
    if a == b then 0 else if !a then -1 else 1
  }

  const INFINITY_BITS: int := 0x7FF0_0000_0000_0000

  predicate IsNaN(bits: nat) {
    bits % TWO_63 > INFINITY_BITS
  }

  /** Numbers in the order of their values: the sign bit, then the magnitude. */
  function NumberRank(bits: nat): int {
    if bits >= TWO_63 then -(bits - TWO_63) else bits
  }

  function CompareFloats(a: nat, b: nat): int {
    if IsNaN(a) && IsNaN(b) then Sign(a - b)
    else if IsNaN(a) then -1
    else if IsNaN(b) then 1
    else Sign(NumberRank(a) - NumberRank(b))
  }

  function CompareNames(a: TypeName, b: TypeName): int {
    var c := Compare(a.text, b.text);
    if c != 0 then c else Compare(a.pkg, b.pkg)
  }

  function CompareKeys(a: Key, b: Key): int
    decreases a, 0
  {
    if KindOf(a) != KindOf(b) then Sign(KindOf(a) - KindOf(b))
    else match (a, b)
      case (BoolKey(x), BoolKey(y)) => CompareBools(x, y)
      case (IntKey(_, x), IntKey(_, y)) => Sign(x - y)
      case (UintKey(_, x), UintKey(_, y)) => Sign(x - y)
      case (FloatKey(_, x), FloatKey(_, y)) => CompareFloats(x, y)
      case (ComplexKey(_, r, i), ComplexKey(_, s, j)) =>
        if CompareFloats(r, s) != 0 then CompareFloats(r, s) else CompareFloats(i, j)
      case (StringKey(x), StringKey(y)) => Compare(x, y)
      case (AddressKey(_, x), AddressKey(_, y)) => Sign(x - y)
      case (ListKey(_, xs), ListKey(_, ys)) => CompareLists(xs, ys)
      case (InterfaceKey(n, x), InterfaceKey(m, y)) =>
        if CompareNames(n, m) != 0 then CompareNames(n, m) else CompareKeys(x, y)
      case _ => CompareBools(!a.NilInterfaceKey?, !b.NilInterfaceKey?)
  }

  function CompareLists(xs: seq<Key>, ys: seq<Key>): int
    decreases xs, 0
  {
    if xs == [] || ys == [] then 0
    else
      var c := CompareKeys(xs[0], ys[0]);
      if c != 0 then c else CompareLists(xs[1..], ys[1..])
  }

  // ---- Keys of one type are totally preordered ----

  lemma {:induction false} CompareFloatsIsRank(a: nat, b: nat, c: nat)
    ensures CompareFloats(a, b) == -CompareFloats(b, a)
    ensures CompareFloats(a, b) <= 0 && CompareFloats(b, c) <= 0 ==> CompareFloats(a, c) <= 0
    ensures CompareFloats(a, b) == 0 && CompareFloats(b, c) == 0 ==> CompareFloats(a, c) == 0
    ensures CompareFloats(a, b) == 0 && CompareFloats(b, c) < 0 ==> CompareFloats(a, c) < 0
    ensures CompareFloats(a, b) < 0 && CompareFloats(b, c) == 0 ==> CompareFloats(a, c) < 0
    ensures CompareFloats(a, b) < 0 && CompareFloats(b, c) < 0 ==> CompareFloats(a, c) < 0
  {
  }

  lemma {:induction false} CompareNamesIsOrder(a: TypeName, b: TypeName, c: TypeName)
    ensures CompareNames(a, b) == -CompareNames(b, a)
    ensures CompareNames(a, b) == 0 <==> a == b
    ensures CompareNames(a, b) <= 0 && CompareNames(b, c) <= 0 ==> CompareNames(a, c) <= 0
  {
    CompareAntisymmetric(a.text, b.text);
    CompareAntisymmetric(a.pkg, b.pkg);
    CompareAntisymmetric(b.text, c.text);
    CompareAntisymmetric(a.text, c.text);
    if CompareNames(a, b) <= 0 && CompareNames(b, c) <= 0 {
      CompareTransitive(a.text, b.text, c.text);
      if a.text == c.text {
        CompareTransitive(b.text, c.text, a.text);
        CompareTransitive(c.text, a.text, b.text);
        CompareTransitive(a.pkg, b.pkg, c.pkg);
      }
    }
  }

  lemma {:induction false} CompareKeysAntisymmetric(named: Named, a: Key, b: Key, ty: KeyType)
    requires KeyHasType(named, a, ty) && KeyHasType(named, b, ty)
    ensures CompareKeys(a, b) == -CompareKeys(b, a)
    decreases a, 0
  {
    match (a, b) {
      case (StringKey(x), StringKey(y)) => CompareAntisymmetric(x, y);
      case (ListKey(_, xs), ListKey(_, ys)) => CompareListsAntisymmetric(named, xs, ys, ty.elems);
      case (InterfaceKey(n, x), InterfaceKey(m, y)) =>
        CompareNamesIsOrder(n, m, n);
        if n == m { CompareKeysAntisymmetric(named, x, y, named(n)); }
      case _ =>
    }
  }

  lemma {:induction false} CompareListsAntisymmetric(named: Named, xs: seq<Key>, ys: seq<Key>, tys: seq<KeyType>)
    requires KeysHaveTypes(named, xs, tys) && KeysHaveTypes(named, ys, tys)
    ensures CompareLists(xs, ys) == -CompareLists(ys, xs)
    decreases xs, 0
  {
    if xs != [] {
      CompareKeysAntisymmetric(named, xs[0], ys[0], tys[0]);
      CompareListsAntisymmetric(named, xs[1..], ys[1..], tys[1..]);
    }
  }

  /** How two links of a chain compose: a chain ties only when both links do. */
  predicate Composes(ab: int, bc: int, ac: int) {
    ab <= 0 && bc <= 0 ==> ac <= 0 && (ac == 0 <==> ab == 0 && bc == 0)
  }

  lemma {:induction false} CompareKeysTransitive(named: Named, a: Key, b: Key, c: Key, ty: KeyType)
    requires KeyHasType(named, a, ty) && KeyHasType(named, b, ty) && KeyHasType(named, c, ty)
    ensures Composes(CompareKeys(a, b), CompareKeys(b, c), CompareKeys(a, c))
    decreases a, 0
  {
    match (a, b, c) {
      case (FloatKey(_, x), FloatKey(_, y), FloatKey(_, z)) => CompareFloatsIsRank(x, y, z);
      case (ComplexKey(_, r, i), ComplexKey(_, s, j), ComplexKey(_, t, k)) =>
        CompareFloatsIsRank(r, s, t);
        CompareFloatsIsRank(i, j, k);
      case (StringKey(x), StringKey(y), StringKey(z)) => CompareBytesComposes(x, y, z);
      case (ListKey(_, xs), ListKey(_, ys), ListKey(_, zs)) => CompareListsTransitive(named, xs, ys, zs, ty.elems);
      case (InterfaceKey(n, x), InterfaceKey(m, y), InterfaceKey(l, z)) =>
        CompareNamesIsOrder(n, m, l);
        CompareNamesIsOrder(m, l, n);
        CompareNamesIsOrder(l, n, m);
        if n == m == l { CompareKeysTransitive(named, x, y, z, named(n)); }
      case _ =>
    }
  }

  lemma {:induction false} CompareBytesComposes(x: seq<Byte>, y: seq<Byte>, z: seq<Byte>)
    ensures Composes(Compare(x, y), Compare(y, z), Compare(x, z))
  {
    CompareAntisymmetric(x, y);
    CompareAntisymmetric(y, z);
    if Compare(x, y) <= 0 && Compare(y, z) <= 0 {
      CompareTransitive(x, y, z);
    }
  }

  lemma {:induction false} CompareListsTransitive(
      named: Named, xs: seq<Key>, ys: seq<Key>, zs: seq<Key>, tys: seq<KeyType>)
    requires KeysHaveTypes(named, xs, tys) && KeysHaveTypes(named, ys, tys) && KeysHaveTypes(named, zs, tys)
    ensures Composes(CompareLists(xs, ys), CompareLists(ys, zs), CompareLists(xs, zs))
    decreases xs, 0
  {
    if xs != [] {
      CompareKeysTransitive(named, xs[0], ys[0], zs[0], tys[0]);
      CompareListsTransitive(named, xs[1..], ys[1..], zs[1..], tys[1..]);
    }
  }
}
