/** Byte strings, their lexicographic order, and the self-delimiting encodings
    the value fingerprint is built from. */
module Bytes {

  type Byte = b: nat | b < 256

  /** The sign convention of Go's bytes.Compare and strings.Compare. */
  function Compare(a: seq<Byte>, b: seq<Byte>): (c: int)
    ensures c == 0 <==> a == b
    ensures c == -1 || c == 0 || c == 1
  {
    if a == [] && b == [] then 0
    else if a == [] then -1
    else if b == [] then 1
    else if a[0] < b[0] then -1
    else if a[0] > b[0] then 1
    else
      assert a == [a[0]] + a[1..] && b == [b[0]] + b[1..];
      Compare(a[1..], b[1..])
  }

  lemma {:induction false} CompareAntisymmetric(a: seq<Byte>, b: seq<Byte>)
    ensures Compare(a, b) == -Compare(b, a)
  {
    if a != [] && b != [] && a[0] == b[0] {
      CompareAntisymmetric(a[1..], b[1..]);
    }
  }

  lemma {:induction false} CompareTransitive(a: seq<Byte>, b: seq<Byte>, c: seq<Byte>)
    requires Compare(a, b) <= 0 && Compare(b, c) <= 0
    ensures Compare(a, c) <= 0
  {
    if a != [] && b != [] && c != [] && a[0] == b[0] == c[0] {
      CompareTransitive(a[1..], b[1..], c[1..]);
    }
  }

  /** encoding/binary's unsigned varint: seven bits a byte, least significant first. */
  function Uvarint(x: nat): (e: seq<Byte>)
    ensures |e| > 0
  {
    if x < 0x80 then [x] else [x % 0x80 + 0x80] + Uvarint(x / 0x80)
  }

  function UvarintSize(x: nat): (n: nat)
    ensures n == |Uvarint(x)|
  {
    if x < 0x80 then 1 else 1 + UvarintSize(x / 0x80)
  }

  /** No varint is a prefix of another, and each denotes one number. */
  lemma {:induction false} UvarintPrefixFree(x: nat, y: nat, r: seq<Byte>, s: seq<Byte>)
    requires Uvarint(x) + r == Uvarint(y) + s
    ensures x == y && r == s
  {
    var ex, ey := Uvarint(x), Uvarint(y);
    assert (ex + r)[0] == ex[0] && (ey + s)[0] == ey[0];
    if x < 0x80 || y < 0x80 {
      assert r == (ex + r)[1..] && s == (ey + s)[1..];
    } else {
      assert (ex + r)[1..] == Uvarint(x / 0x80) + r;
      assert (ey + s)[1..] == Uvarint(y / 0x80) + s;
      UvarintPrefixFree(x / 0x80, y / 0x80, r, s);
    }
  }

  /** The low k bytes of x, most significant first. */
  function BigEndian(x: nat, k: nat): (e: seq<Byte>)
    ensures |e| == k
  {
    if k == 0 then [] else BigEndian(x / 256, k - 1) + [x % 256]
  }

  function Pow256(k: nat): (p: nat)
    ensures p > 0
  {
    if k == 0 then 1 else 256 * Pow256(k - 1)
  }

  lemma {:induction false} BigEndianInjective(x: nat, y: nat, k: nat)
    requires x < Pow256(k) && y < Pow256(k)
    requires BigEndian(x, k) == BigEndian(y, k)
    ensures x == y
  {
    if k > 0 {
      var ex, ey := BigEndian(x, k), BigEndian(y, k);
      assert ex[..k - 1] == BigEndian(x / 256, k - 1) && ex[k - 1] == x % 256;
      assert ey[..k - 1] == BigEndian(y / 256, k - 1) && ey[k - 1] == y % 256;
      BigEndianInjective(x / 256, y / 256, k - 1);
    }
  }

  const TWO_63: int := 0x8000_0000_0000_0000
  const TWO_64: int := 0x1_0000_0000_0000_0000

  function U64(x: nat): (e: seq<Byte>)
    ensures |e| == 8
  {
    BigEndian(x, 8)
  }

  lemma {:induction false} U64Injective(x: nat, y: nat)
    requires x < TWO_64 && y < TWO_64 && U64(x) == U64(y)
    ensures x == y
  {
    assert Pow256(8) == TWO_64 by {
      assert Pow256(4) == 0x1_0000_0000;
      assert Pow256(6) == 0x1_0000_0000_0000;
    }
    BigEndianInjective(x, y, 8);
  }

  /** A string with each 0x00 escaped and a two-byte terminator. */
  function Escaped(s: seq<Byte>): (e: seq<Byte>)
    ensures |e| >= 2
  {
    if s == [] then [0, 1]
    else if s[0] == 0 then [0, 0xFF] + Escaped(s[1..])
    else [s[0]] + Escaped(s[1..])
  }

  lemma {:induction false} EscapedPrefixFree(x: seq<Byte>, y: seq<Byte>, r: seq<Byte>, s: seq<Byte>)
    requires Escaped(x) + r == Escaped(y) + s
    ensures x == y && r == s
  {
    var ex, ey := Escaped(x), Escaped(y);
    var w := ex + r;
    assert w[0] == ex[0] == ey[0] && w[1] == (ex + r)[1] == (ey + s)[1];
    assert w[1] == ex[1] == ey[1];
    if x == [] && y == [] {
      assert r == w[2..] && s == (ey + s)[2..];
    } else if x == [] || y == [] {
      assert false;
    } else if x[0] == 0 {
      assert w[2..] == Escaped(x[1..]) + r && (ey + s)[2..] == Escaped(y[1..]) + s;
      EscapedPrefixFree(x[1..], y[1..], r, s);
      assert x == [x[0]] + x[1..] && y == [y[0]] + y[1..];
    } else {
      assert w[1..] == Escaped(x[1..]) + r && (ey + s)[1..] == Escaped(y[1..]) + s;
      EscapedPrefixFree(x[1..], y[1..], r, s);
      assert x == [x[0]] + x[1..] && y == [y[0]] + y[1..];
    }
  }
}
