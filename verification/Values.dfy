/** Go values as reflection shows them: inline data, and references into a heap
    that may share cells and contain cycles. A Term is what a walk from one
    value can see of that graph. */
module Values {
  import opened Bytes

  type TypeId = nat

  /** Kinds are written as reflect numbers them. */
  const KIND_BOOL: Byte := 1
  const KIND_ARRAY: Byte := 17
  const KIND_INTERFACE: Byte := 20
  const KIND_MAP: Byte := 21
  const KIND_POINTER: Byte := 22
  const KIND_SLICE: Byte := 23
  const KIND_STRING: Byte := 24
  const KIND_STRUCT: Byte := 25

  datatype RefKind = PointerRef | SliceRef | MapRef {
    function Kind(): Byte {
      match this
      case PointerRef => KIND_POINTER
      case SliceRef => KIND_SLICE
      case MapRef => KIND_MAP
    }
  }

  /** A value that holds no other value. Funcs, channels and unsafe pointers
      are Opaque, with identity 0 for nil. */
  datatype Scalar =
    | Bool(b: bool)
    | Int(kind: Byte, i: int)
    | Uint(kind: Byte, u: nat)
    | Float(kind: Byte, bits: nat)
    | Complex(kind: Byte, re: nat, im: nat)
    | Str(s: seq<Byte>)
    | NilInterface
    | NilRef(ref: RefKind)
    | Opaque(kind: Byte, id: nat)

  /** The identity of a pointer, a map or a non-empty slice. */
  datatype RefKey = RefKey(typ: TypeId, kind: RefKind, ptr: nat, len: nat)

  datatype Value =
    | Invalid
    | Leaf(scalar: Scalar)
    | Interface(dyn: TypeId, elem: Value)
    | EmptySlice
    | Array(elems: seq<Value>)
    | Struct(fields: seq<Value>)
    | Ref(key: RefKey)

  datatype Entry<T> = Entry(key: T, val: T)

  datatype Cell =
    | PointerTo(target: Value)
    | SliceOf(elems: seq<Value>)
    | MapOf(entries: seq<Entry<Value>>)

  type Heap = map<RefKey, Cell>

  predicate CellFits(key: RefKey, c: Cell) {
    match key.kind
    case PointerRef => c.PointerTo?
    case SliceRef => c.SliceOf? && c.elems != []
    case MapRef => c.MapOf?
  }

  /** Every reference held inline by v is in the heap. */
  ghost predicate Live(h: Heap, v: Value) {
    match v
    case Interface(_, e) => Live(h, e)
    case Array(es) => forall i :: 0 <= i < |es| ==> Live(h, es[i])
    case Struct(fs) => forall i :: 0 <= i < |fs| ==> Live(h, fs[i])
    case Ref(k) => k in h
    case _ => true
  }

  ghost predicate LiveCell(h: Heap, c: Cell) {
    match c
    case PointerTo(t) => Live(h, t)
    case SliceOf(es) => forall i :: 0 <= i < |es| ==> Live(h, es[i])
    case MapOf(es) => forall i :: 0 <= i < |es| ==> Live(h, es[i].key) && Live(h, es[i].val)
  }

  ghost predicate Closed(h: Heap) {
    forall k :: k in h ==> CellFits(k, h[k]) && LiveCell(h, h[k])
  }

  /** How a type is spelled: its String and its package path. */
  datatype TypeName = TypeName(text: seq<Byte>, pkg: seq<Byte>)

  type Names = TypeId -> TypeName

  /** A single value held behind a pointer, or in an interface with its
      dynamic type. */
  datatype Box = Pointee | Dynamic(name: TypeName, dyn: TypeId)

  datatype Shape = ArrayShape | StructShape | SliceShape

  datatype Term =
    | TInvalid
    | TDepthCut
    | TLeaf(scalar: Scalar)
    | TBack(ref: RefKind, index: nat)
    | TBox(box: Box, elem: Term)
    | TList(shape: Shape, elems: seq<Term>)
    | TMap(entries: seq<Entry<Term>>)

  const MAX_DEPTH: nat := 64

  /** Levels still to be seen from depth down. */
  function MeasureAt(depth: nat): nat {
    if depth > MAX_DEPTH then 0 else MAX_DEPTH + 1 - depth
  }

  function IndexOf(path: seq<RefKey>, key: RefKey): (i: nat)
    requires key in path
    ensures i < |path| && path[i] == key && key !in path[..i]
  {
    if path[0] == key then 0 else
      assert path == [path[0]] + path[1..];
      1 + IndexOf(path[1..], key)
  }

  /** The tree a walk from v sees: references are followed, a reference already
      on the current path becomes its depth index there, and nothing is seen
      more than MAX_DEPTH levels down. */
  function Unfold(names: Names, h: Heap, v: Value, depth: nat, path: seq<RefKey>): (t: Term)
    requires Closed(h) && Live(h, v)
    decreases MeasureAt(depth), 1
  {
    if v.Invalid? then TInvalid
    else if depth > MAX_DEPTH then TDepthCut
    else match v
      case Leaf(s) => TLeaf(s)
      case Interface(dyn, e) => TBox(Dynamic(names(dyn), dyn), Unfold(names, h, e, depth + 1, path))
      case EmptySlice => TList(SliceShape, [])
      case Array(es) => TList(ArrayShape, UnfoldAll(names, h, es, depth, path))
      case Struct(fs) => TList(StructShape, UnfoldAll(names, h, fs, depth, path))
      case Ref(key) =>
        if key in path then TBack(key.kind, IndexOf(path, key))
        else match h[key]
          case PointerTo(e) => TBox(Pointee, Unfold(names, h, e, depth + 1, path + [key]))
          case SliceOf(es) => TList(SliceShape, UnfoldAll(names, h, es, depth, path + [key]))
          case MapOf(es) => TMap(UnfoldEntries(names, h, es, depth, path + [key]))
  }

  /** The parts of a value at depth, each one level further down. */
  function UnfoldAll(names: Names, h: Heap, es: seq<Value>, depth: nat, path: seq<RefKey>): (ts: seq<Term>)
    requires Closed(h) && depth <= MAX_DEPTH && forall i :: 0 <= i < |es| ==> Live(h, es[i])
    ensures |ts| == |es|
    ensures forall i :: 0 <= i < |es| ==> ts[i] == Unfold(names, h, es[i], depth + 1, path)
    decreases MeasureAt(depth), 0
  {
    seq(|es|, i requires 0 <= i < |es| => Unfold(names, h, es[i], depth + 1, path))
  }

  function UnfoldEntries(names: Names, h: Heap, es: seq<Entry<Value>>, depth: nat, path: seq<RefKey>)
    : (ts: seq<Entry<Term>>)
    requires Closed(h) && depth <= MAX_DEPTH
    requires forall i :: 0 <= i < |es| ==> Live(h, es[i].key) && Live(h, es[i].val)
    ensures |ts| == |es|
    ensures forall i :: 0 <= i < |es| ==>
              && ts[i].key == Unfold(names, h, es[i].key, depth + 1, path)
              && ts[i].val == Unfold(names, h, es[i].val, depth + 1, path)
    decreases MeasureAt(depth), 0
  {
    seq(|es|, i requires 0 <= i < |es| =>
      Entry(Unfold(names, h, es[i].key, depth + 1, path), Unfold(names, h, es[i].val, depth + 1, path)))
  }
}
