/** Sorting the entries of maps for one message: by key, and where keys tie, by
    the fingerprint of the value. */
module SortedEntries {
  import opened Bytes
  import opened Values
  import opened Fingerprints
  import opened FingerprintDecodes
  import opened Meters
  import opened KeyOrder
  import opened Options
  import opened Permutations
  import opened StableSorts
  import Sequences

  /** An entry of the expected map or of the actual one, with the fingerprint of
      its value once that was needed. */
  datatype SideEntry = SideEntry(key: Key, val: Value, fromA: bool, fp: Option<Print>)

  function ByKey(x: SideEntry, y: SideEntry): int {
    CompareKeys(x.key, y.key)
  }

  function PrintSeen(e: SideEntry): Print {
    if e.fp.Some? then e.fp.value else Print([], false)
  }

  /** By key, then by fingerprint, then expected before actual. */
  function ByEntry(x: SideEntry, y: SideEntry): int {
    var c, d := ByKey(x, y), ComparePrints(PrintSeen(x), PrintSeen(y));
    if c != 0 then c else if d != 0 then d else CompareBool(!x.fromA, !y.fromA)
  }

  /** Entries whose keys have one type. */
  ghost function KeyOk(named: Named, kt: KeyType): SideEntry -> bool {
    (e: SideEntry) => KeyHasType(named, e.key, kt)
  }

  lemma {:induction false} ByKeyOrders(named: Named, kt: KeyType)
    ensures Orders(ByKey, KeyOk(named, kt))
  {
    var ok := KeyOk(named, kt);
    forall x, y | ok(x) && ok(y) ensures ByKey(x, y) == -ByKey(y, x) {
      hide CompareKeys, KeyHasType;
      CompareKeysAntisymmetric(named, x.key, y.key, kt);
    }
    forall x, y, z | ok(x) && ok(y) && ok(z) ensures Composes(ByKey(x, y), ByKey(y, z), ByKey(x, z)) {
      hide CompareKeys, KeyHasType, Composes;
      CompareKeysTransitive(named, x.key, y.key, z.key, kt);
    }
  }

  lemma {:induction false} PrintsCompose(x: Print, y: Print, z: Print)
    ensures Composes(ComparePrints(x, y), ComparePrints(y, z), ComparePrints(x, z))
    ensures ComparePrints(x, y) == -ComparePrints(y, x)
  {
    ComparePrintsAntisymmetric(x, y);
    ComparePrintsAntisymmetric(y, z);
    ComparePrintsAntisymmetric(x, z);
    if ComparePrints(x, y) <= 0 && ComparePrints(y, z) <= 0 {
      ComparePrintsTransitive(x, y, z);
      if x == z { assert ComparePrints(y, x) <= 0; }
    }
    hide ComparePrints;
  }

  lemma {:induction false} EntriesCompose(x: SideEntry, y: SideEntry, z: SideEntry)
    requires Composes(ByKey(x, y), ByKey(y, z), ByKey(x, z))
    ensures Composes(ByEntry(x, y), ByEntry(y, z), ByEntry(x, z))
  {
    PrintsCompose(PrintSeen(x), PrintSeen(y), PrintSeen(z));
    hide ByKey, ComparePrints, PrintSeen;
  }

  lemma {:induction false} ByEntryOrders(named: Named, kt: KeyType)
    ensures Orders(ByEntry, KeyOk(named, kt))
  {
    ByKeyOrders(named, kt);
    var ok := KeyOk(named, kt);
    hide KeyOk;
    forall x, y | ok(x) && ok(y) ensures ByEntry(x, y) == -ByEntry(y, x) {
      hide ByKey, ComparePrints, PrintSeen;
      assert ByKey(x, y) == -ByKey(y, x);
      PrintsCompose(PrintSeen(x), PrintSeen(y), PrintSeen(x));
    }
    forall x, y, z | ok(x) && ok(y) && ok(z) ensures Composes(ByEntry(x, y), ByEntry(y, z), ByEntry(x, z)) {
      hide ByKey, ByEntry, Composes;
      assert Composes(ByKey(x, y), ByKey(y, z), ByKey(x, z));
      EntriesCompose(x, y, z);
    }
  }

  // ---- Which entries need a fingerprint ----

  /** Another entry has the key of entry i. */
  ghost predicate Shares(s: seq<SideEntry>, i: nat) {
    i < |s| && exists j :: 0 <= j < |s| && j != i && ByKey(s[i], s[j]) == 0
  }

  ghost predicate ValuesTyped(ts: Types, h: Heap, vt: TypeId, s: seq<SideEntry>) {
    forall i :: 0 <= i < |s| ==> Typed(ts, h, s[i].val, vt)
  }

  ghost function Fingerprinted(ts: Types, h: Heap, vt: TypeId, e: SideEntry, a: nat): SideEntry
    requires Typed(ts, h, e.val, vt)
  {
    e.(fp := Some(TiePrint(ts, h, e.val, vt, a)))
  }

  /** The entries, those whose key ties with the fingerprint of their value. */
  ghost function Resolved(ts: Types, h: Heap, vt: TypeId, s: seq<SideEntry>, a: nat): (r: seq<SideEntry>)
    requires ValuesTyped(ts, h, vt, s)
    ensures |r| == |s|
    ensures forall i :: 0 <= i < |s| ==> r[i] == if Shares(s, i) then Fingerprinted(ts, h, vt, s[i], a) else s[i]
  {
    seq(|s|, i requires 0 <= i < |s| => if Shares(s, i) then Fingerprinted(ts, h, vt, s[i], a) else s[i])
  }

  /** How many of the first n entries have a key that ties. */
  ghost function Ties(s: seq<SideEntry>, n: nat): nat {
    if n == 0 then 0 else Ties(s, n - 1) + if Shares(s, n - 1) then 1 else 0
  }

  // ---- Runs of entries whose keys tie ----

  ghost predicate Keyed(named: Named, kt: KeyType, s: seq<SideEntry>) {
    AllOk(s, KeyOk(named, kt))
  }

  lemma {:induction false} KeyedAt(named: Named, kt: KeyType, s: seq<SideEntry>, i: nat)
    requires Keyed(named, kt, s) && i < |s|
    ensures KeyOk(named, kt)(s[i])
  {
  }

  /** How comparisons of keys go together. */
  lemma {:induction false} KeyChain(named: Named, kt: KeyType, x: SideEntry, y: SideEntry, z: SideEntry)
    requires KeyOk(named, kt)(x) && KeyOk(named, kt)(y) && KeyOk(named, kt)(z)
    ensures ByKey(x, y) == -ByKey(y, x)
    ensures ByKey(x, y) <= 0 && ByKey(y, z) <= 0 ==>
              ByKey(x, z) <= 0 && (ByKey(x, z) == 0 <==> ByKey(x, y) == 0 && ByKey(y, z) == 0)
  {
    ByKeyOrders(named, kt);
    hide ByKey, KeyOk;
    assert Composes(ByKey(x, y), ByKey(y, z), ByKey(x, z));
  }

  /** The entries from lo to hi are those with the key of entry lo. */
  ghost predicate Class(s: seq<SideEntry>, lo: nat, hi: nat) {
    && lo < hi <= |s|
    && (forall i :: lo <= i < hi ==> ByKey(s[lo], s[i]) == 0)
    && (hi < |s| ==> ByKey(s[lo], s[hi]) < 0)
  }

  /** No key ties across lo. */
  ghost predicate Boundary(s: seq<SideEntry>, lo: nat) {
    forall i, j :: 0 <= i < lo <= j < |s| ==> ByKey(s[i], s[j]) < 0
  }

  lemma {:induction false} NextBoundary(named: Named, kt: KeyType, s: seq<SideEntry>, lo: nat, hi: nat)
    requires Keyed(named, kt, s) && Ascends(s, ByKey) && Boundary(s, lo) && Class(s, lo, hi)
    ensures Boundary(s, hi)
  {
    forall i, j | 0 <= i < hi <= j < |s| ensures ByKey(s[i], s[j]) < 0 {
      hide ByKey, KeyOk;
      if i >= lo {
        AcrossClass(named, kt, s, lo, hi, i, j);
      }
    }
  }

  lemma {:induction false} AcrossClass(named: Named, kt: KeyType, s: seq<SideEntry>, lo: nat, hi: nat, i: nat, j: nat)
    requires Keyed(named, kt, s) && Ascends(s, ByKey) && Class(s, lo, hi) && lo <= i < hi <= j < |s|
    ensures ByKey(s[i], s[j]) < 0
  {
    hide ByKey, KeyOk;
    KeyedAt(named, kt, s, lo);
    KeyedAt(named, kt, s, i);
    KeyedAt(named, kt, s, hi);
    KeyedAt(named, kt, s, j);
    KeyChain(named, kt, s[i], s[lo], s[hi]);
    KeyChain(named, kt, s[lo], s[i], s[lo]);
    KeyChain(named, kt, s[i], s[hi], s[j]);
  }

  lemma {:induction false} InClass(named: Named, kt: KeyType, s: seq<SideEntry>, lo: nat, hi: nat, i: nat, j: nat)
    requires Keyed(named, kt, s) && Class(s, lo, hi) && lo <= i < hi && lo <= j < hi
    ensures ByKey(s[i], s[j]) == 0
  {
    hide ByKey, KeyOk;
    KeyedAt(named, kt, s, lo);
    KeyedAt(named, kt, s, i);
    KeyedAt(named, kt, s, j);
    KeyChain(named, kt, s[lo], s[i], s[lo]);
    KeyChain(named, kt, s[i], s[lo], s[j]);
  }

  lemma {:induction false} SharesInClass(named: Named, kt: KeyType, s: seq<SideEntry>, lo: nat, hi: nat, i: nat)
    requires Keyed(named, kt, s) && Boundary(s, lo) && Boundary(s, hi) && Class(s, lo, hi) && lo <= i < hi
    ensures Shares(s, i) <==> hi - lo > 1
  {
    if hi - lo > 1 {
      var j := if i == lo then lo + 1 else lo;
      InClass(named, kt, s, lo, hi, i, j);
    } else {
      forall j | 0 <= j < |s| && j != i ensures ByKey(s[i], s[j]) != 0 {
        hide ByKey, KeyOk;
        KeyedAt(named, kt, s, i);
        KeyedAt(named, kt, s, j);
        KeyChain(named, kt, s[i], s[j], s[i]);
      }
    }
  }

  lemma {:induction false} TiesInClass(named: Named, kt: KeyType, s: seq<SideEntry>, lo: nat, hi: nat, n: nat)
    requires Keyed(named, kt, s) && Boundary(s, lo) && Boundary(s, hi) && Class(s, lo, hi) && lo <= n <= hi
    ensures Ties(s, n) == Ties(s, lo) + if hi - lo > 1 then n - lo else 0
    decreases n
  {
    hide *;
    if n > lo {
      OneMoreTie(s, n);
      TiesInClass(named, kt, s, lo, hi, n - 1);
      SharesInClass(named, kt, s, lo, hi, n - 1);
    }
  }

  lemma {:induction false} OneMoreTie(s: seq<SideEntry>, n: nat)
    requires n > 0
    ensures Ties(s, n) == Ties(s, n - 1) + if Shares(s, n - 1) then 1 else 0
  {
    hide Shares;
  }

  /** Where the run of entries with the key of entry lo ends. */
  method ClassEnd(s: seq<SideEntry>, lo: nat) returns (hi: nat)
    requires lo < |s| && Ascends(s, ByKey) && ByKey(s[lo], s[lo]) == 0
    ensures Class(s, lo, hi)
  {
    hi := lo + 1;
    while hi < |s| && CompareKeys(s[lo].key, s[hi].key) == 0
      invariant lo < hi <= |s| && forall i :: lo <= i < hi ==> ByKey(s[lo], s[i]) == 0
    {
      hi := hi + 1;
    }
  }

  /** The number of entries in runs of two or more. */
  method CountTied(s: seq<SideEntry>, ghost named: Named, ghost kt: KeyType) returns (tied: nat)
    requires Keyed(named, kt, s) && Ascends(s, ByKey)
    ensures tied == Ties(s, |s|)
  {
    tied := 0;
    var lo := 0;
    while lo < |s|
      invariant lo <= |s| && Boundary(s, lo) && tied == Ties(s, lo)
      decreases |s| - lo
    {
      hide KeyOk, Keyed, Shares, Ties, Boundary;
      SameKey(named, kt, s, lo);
      var hi := ClassEnd(s, lo);
      NextBoundary(named, kt, s, lo, hi);
      TiesInClass(named, kt, s, lo, hi, hi);
      if hi - lo > 1 { tied := tied + (hi - lo); }
      lo := hi;
    }
  }

  lemma {:induction false} SameKey(named: Named, kt: KeyType, s: seq<SideEntry>, i: nat)
    requires Keyed(named, kt, s) && i < |s|
    ensures ByKey(s[i], s[i]) == 0
  {
    KeyChain(named, kt, s[i], s[i], s[i]);
  }

  // ---- Building the order ----

  /** done is what the first lo entries of s become. */
  ghost predicate Progress(ts: Types, h: Heap, vt: TypeId, named: Named, kt: KeyType, s: seq<SideEntry>, a: nat,
      done: seq<SideEntry>, lo: nat)
  {
    && lo <= |s| && |done| == lo && ValuesTyped(ts, h, vt, s) && Keyed(named, kt, done)
    && multiset(done) == multiset(Resolved(ts, h, vt, s, a)[..lo]) && Ascends(done, ByEntry)
    && forall i :: 0 <= i < lo ==> ByKey(done[i], s[i]) == 0
  }

  /** part is what the run from lo to hi becomes. */
  ghost predicate Part(ts: Types, h: Heap, vt: TypeId, s: seq<SideEntry>, a: nat, lo: nat, hi: nat,
      part: seq<SideEntry>) {
    && lo < hi <= |s| && |part| == hi - lo && ValuesTyped(ts, h, vt, s)
    && multiset(part) == multiset(Resolved(ts, h, vt, s, a)[lo..hi]) && Ascends(part, ByEntry)
  }

  /** Every element of part has a key of the run. */
  lemma {:induction false} PartKeys(ts: Types, h: Heap, vt: TypeId, named: Named, kt: KeyType, s: seq<SideEntry>,
      a: nat,
      lo: nat, hi: nat, part: seq<SideEntry>, k: nat)
    requires Keyed(named, kt, s) && Class(s, lo, hi) && Part(ts, h, vt, s, a, lo, hi, part) && k < |part|
    ensures KeyOk(named, kt)(part[k]) && ByKey(part[k], s[lo + k]) == 0
  {
    var i := PartFrom(ts, h, vt, s, a, lo, hi, part, k);
    KeyedAt(named, kt, s, i);
    hide Class, KeyOk, Keyed, CompareKeys, KeyHasType;
    InClass(named, kt, s, lo, hi, i, lo + k);
    SameKeyOk(named, kt, part[k], s[i]);
  }

  lemma {:induction false} SameKeyOk(named: Named, kt: KeyType, x: SideEntry, y: SideEntry)
    requires x.key == y.key && KeyOk(named, kt)(y)
    ensures KeyOk(named, kt)(x)
  {
  }

  lemma {:induction false} PartFrom(ts: Types, h: Heap, vt: TypeId, s: seq<SideEntry>, a: nat, lo: nat, hi: nat,
      part: seq<SideEntry>, k: nat) returns (i: nat)
    requires Part(ts, h, vt, s, a, lo, hi, part) && k < |part|
    ensures lo <= i < hi <= |s| && part[k].key == s[i].key && |part| == hi - lo
  {
    var r := Resolved(ts, h, vt, s, a);
    hide Ascends, ValuesTyped, Shares;
    assert part[k] in multiset(part);
    var j :| 0 <= j < hi - lo && r[lo..hi][j] == part[k];
    i := lo + j;
  }

  lemma {:induction false} PartAdded(ts: Types, h: Heap, vt: TypeId, named: Named, kt: KeyType, s: seq<SideEntry>,
      a: nat,
      done: seq<SideEntry>, lo: nat, hi: nat, part: seq<SideEntry>)
    requires Keyed(named, kt, s) && Progress(ts, h, vt, named, kt, s, a, done, lo) && Boundary(s, lo)
    requires Class(s, lo, hi)
    requires Part(ts, h, vt, s, a, lo, hi, part)
    ensures Progress(ts, h, vt, named, kt, s, a, done + part, hi)
  {
    ResolvedOn(ts, h, vt, s, a, done, lo, hi, part);
    assert Ascends(done, ByEntry) && Ascends(part, ByEntry);
    assert Keyed(named, kt, done) && |done| == lo && |part| == hi - lo && hi <= |s| && ValuesTyped(ts, h, vt, s);
    assert forall i :: 0 <= i < lo ==> ByKey(done[i], s[i]) == 0;
    hide *;
    forall k | 0 <= k < |part| ensures KeyOk(named, kt)(part[k]) && ByKey(part[k], s[lo + k]) == 0 {
      PartKeys(ts, h, vt, named, kt, s, a, lo, hi, part, k);
    }
    forall i, k | 0 <= i < lo && 0 <= k < |part| ensures ByEntry(done[i], part[k]) <= 0 {
      KeyedAt(named, kt, done, i);
      DoneBeforePart(named, kt, s, lo, done[i], i, part[k], lo + k);
    }
    BothAscend(done, part);
    KeysOn(named, kt, s, done, lo, part);
    IsProgress(ts, h, vt, named, kt, s, a, done + part, hi);
  }

  lemma {:induction false} IsProgress(ts: Types, h: Heap, vt: TypeId, named: Named, kt: KeyType, s: seq<SideEntry>,
      a: nat,
      done: seq<SideEntry>, lo: nat)
    requires lo <= |s| && |done| == lo && ValuesTyped(ts, h, vt, s) && Keyed(named, kt, done)
    requires multiset(done) == multiset(Resolved(ts, h, vt, s, a)[..lo]) && Ascends(done, ByEntry)
    requires forall i :: 0 <= i < lo ==> ByKey(done[i], s[i]) == 0
    ensures Progress(ts, h, vt, named, kt, s, a, done, lo)
  {
    hide ValuesTyped, Keyed, Ascends, ByKey, ByEntry, Resolved;
  }

  lemma {:induction false} ResolvedOn(ts: Types, h: Heap, vt: TypeId, s: seq<SideEntry>, a: nat, done: seq<SideEntry>,
      lo: nat, hi: nat, part: seq<SideEntry>)
    requires lo <= |s| && ValuesTyped(ts, h, vt, s) && multiset(done) == multiset(Resolved(ts, h, vt, s, a)[..lo])
    requires Part(ts, h, vt, s, a, lo, hi, part)
    ensures multiset(done + part) == multiset(Resolved(ts, h, vt, s, a)[..hi])
  {
    var r := Resolved(ts, h, vt, s, a);
    hide Resolved, ValuesTyped, Ascends;
    assert r[..hi] == r[..lo] + r[lo..hi];
  }

  lemma {:induction false} KeysOn(named: Named, kt: KeyType, s: seq<SideEntry>, done: seq<SideEntry>, lo: nat,
      part: seq<SideEntry>)
    requires |done| == lo && lo + |part| <= |s| && Keyed(named, kt, done)
    requires forall i :: 0 <= i < lo ==> ByKey(done[i], s[i]) == 0
    requires forall k :: 0 <= k < |part| ==> KeyOk(named, kt)(part[k]) && ByKey(part[k], s[lo + k]) == 0
    ensures Keyed(named, kt, done + part)
    ensures forall i :: 0 <= i < lo + |part| ==> ByKey((done + part)[i], s[i]) == 0
  {
    hide ByKey, KeyOk;
    forall i | 0 <= i < lo + |part| ensures ByKey((done + part)[i], s[i]) == 0 && KeyOk(named, kt)((done + part)[i]) {
      if i >= lo { assert (done + part)[i] == part[i - lo] && s[i] == s[lo + (i - lo)]; }
    }
  }

  lemma {:induction false} BothAscend(a: seq<SideEntry>, b: seq<SideEntry>)
    requires Ascends(a, ByEntry) && Ascends(b, ByEntry)
    requires forall i, k :: 0 <= i < |a| && 0 <= k < |b| ==> ByEntry(a[i], b[k]) <= 0
    ensures Ascends(a + b, ByEntry)
  {
    hide ByEntry;
  }

  /** What is done comes before what is not, by key alone. */
  lemma {:induction false} DoneBeforePart(named: Named, kt: KeyType, s: seq<SideEntry>, lo: nat, x: SideEntry, i: nat,
      y: SideEntry, j: nat)
    requires Keyed(named, kt, s) && Boundary(s, lo) && i < lo <= j < |s|
    requires KeyOk(named, kt)(x) && KeyOk(named, kt)(y) && ByKey(x, s[i]) == 0 && ByKey(y, s[j]) == 0
    ensures ByEntry(x, y) <= 0
  {
    hide ByKey, KeyOk, PrintSeen, ComparePrints;
    KeyedAt(named, kt, s, i);
    KeyedAt(named, kt, s, j);
    KeyChain(named, kt, x, s[i], s[j]);
    KeyChain(named, kt, y, s[j], y);
    KeyChain(named, kt, x, s[j], y);
  }

  /** A run of one entry needs nothing. */
  lemma {:induction false} LonePart(ts: Types, h: Heap, vt: TypeId, named: Named, kt: KeyType, s: seq<SideEntry>,
      a: nat, lo: nat)
    requires ValuesTyped(ts, h, vt, s) && Keyed(named, kt, s) && Boundary(s, lo) && Boundary(s, lo + 1)
    requires Class(s, lo, lo + 1)
    ensures Part(ts, h, vt, s, a, lo, lo + 1, s[lo..lo + 1])
  {
    SharesInClass(named, kt, s, lo, lo + 1, lo);
    assert Resolved(ts, h, vt, s, a)[lo..lo + 1] == s[lo..lo + 1];
  }

  ghost function AllFingerprinted(ts: Types, h: Heap, vt: TypeId, s: seq<SideEntry>, a: nat): (r: seq<SideEntry>)
    requires ValuesTyped(ts, h, vt, s)
    ensures |r| == |s| && forall i :: 0 <= i < |s| ==> r[i] == Fingerprinted(ts, h, vt, s[i], a)
  {
    seq(|s|, i requires 0 <= i < |s| => Fingerprinted(ts, h, vt, s[i], a))
  }

  lemma {:induction false} TiedPart(ts: Types, h: Heap, vt: TypeId, named: Named, kt: KeyType, s: seq<SideEntry>,
      a: nat,
      lo: nat, hi: nat, part: seq<SideEntry>)
    requires ValuesTyped(ts, h, vt, s) && Keyed(named, kt, s) && Boundary(s, lo) && Boundary(s, hi) && Class(s, lo, hi)
    requires hi - lo > 1 && ValuesTyped(ts, h, vt, s[lo..hi]) && |part| == hi - lo
    requires multiset(part) == multiset(AllFingerprinted(ts, h, vt, s[lo..hi], a)) && Ascends(part, ByEntry)
    ensures Part(ts, h, vt, s, a, lo, hi, part)
  {
    var r := Resolved(ts, h, vt, s, a);
    forall i | lo <= i < hi ensures r[i] == Fingerprinted(ts, h, vt, s[i], a) {
      SharesInClass(named, kt, s, lo, hi, i);
    }
    assert r[lo..hi] == AllFingerprinted(ts, h, vt, s[lo..hi], a);
  }

  // ---- The order the entries came in ----

  ghost function Flags(s: seq<SideEntry>): (b: seq<bool>)
    ensures |b| == |s|
  {
    seq(|s|, i requires 0 <= i < |s| => Shares(s, i))
  }

  lemma {:induction false} FlagAt(s: seq<SideEntry>, i: nat)
    requires i < |s|
    ensures Flags(s)[i] <==> Shares(s, i)
  {
    hide Shares;
  }

  lemma {:induction false} TiesAreFlags(s: seq<SideEntry>, n: nat)
    requires n <= |s|
    ensures Ties(s, n) == CountTrue(Flags(s)[..n])
  {
    hide *;
    var b := Flags(s);
    if n == 0 {
      NoFlags(s, b[..0]);
    } else {
      OneMoreTie(s, n);
      FlagAt(s, n - 1);
      TiesAreFlags(s, n - 1);
      Sequences.Prefix(b, n - 1);
      OneMoreFlag(b[..n - 1], b[n - 1]);
    }
  }

  ghost function CountTrue(b: seq<bool>): nat {
    multiset(b)[true]
  }

  lemma {:induction false} NoFlags(s: seq<SideEntry>, b: seq<bool>)
    requires b == []
    ensures Ties(s, 0) == 0 && CountTrue(b) == 0
  {
  }

  lemma {:induction false} OneMoreFlag(b: seq<bool>, x: bool)
    ensures CountTrue(b + [x]) == CountTrue(b) + if x then 1 else 0
  {
  }

  lemma {:induction false} SharesPermuted(s: seq<SideEntry>, t: seq<SideEntry>, p: seq<nat>, i: nat)
    requires |s| == |t| && IsPermutation(p, |s|) && i < |s| && forall j :: 0 <= j < |s| ==> s[j] == t[p[j]]
    ensures Shares(s, i) <==> Shares(t, p[i])
  {
    hide ByKey;
    if Shares(s, i) {
      var j :| 0 <= j < |s| && j != i && ByKey(s[i], s[j]) == 0;
      assert p[j] != p[i] && ByKey(t[p[i]], t[p[j]]) == 0;
    }
    if Shares(t, p[i]) {
      var k :| 0 <= k < |t| && k != p[i] && ByKey(t[p[i]], t[k]) == 0;
      var j := PermutationHits(p, |s|, k);
      assert ByKey(s[i], s[j]) == 0;
    }
  }

  lemma {:induction false} TiesPermuted(s: seq<SideEntry>, t: seq<SideEntry>, p: seq<nat>)
    requires |s| == |t| && IsPermutation(p, |s|) && forall j :: 0 <= j < |s| ==> s[j] == t[p[j]]
    ensures Ties(s, |s|) == Ties(t, |t|)
    ensures forall i :: 0 <= i < |s| ==> (Shares(s, i) <==> Shares(t, p[i]))
  {
    hide Shares, Ties, Flags;
    forall i | 0 <= i < |s| ensures (Shares(s, i) <==> Shares(t, p[i])) && Flags(s)[i] == Flags(t)[p[i]] {
      SharesPermuted(s, t, p, i);
      FlagAt(s, i);
      FlagAt(t, p[i]);
    }
    SameElements(Flags(s), Flags(t), p);
    TiesAreFlags(s, |s|);
    TiesAreFlags(t, |t|);
    assert Flags(s)[..|s|] == Flags(s) && Flags(t)[..|t|] == Flags(t);
  }

  /** Which entries tie, and with what fingerprints, does not depend on the order
      the entries come in. */
  lemma {:induction false} ResolvedPermuted(ts: Types, h: Heap, vt: TypeId, s: seq<SideEntry>, t: seq<SideEntry>,
      a: nat)
    requires multiset(s) == multiset(t) && ValuesTyped(ts, h, vt, t)
    ensures |s| == |t| && ValuesTyped(ts, h, vt, s) && Ties(s, |s|) == Ties(t, |t|)
    ensures multiset(Resolved(ts, h, vt, s, a)) == multiset(Resolved(ts, h, vt, t, a))
  {
    var p := MultisetArrangement(s, t);
    MatchesIs(s, t, p);
    TiesPermuted(s, t, p);
    assert ValuesTyped(ts, h, vt, s);
    hide *;
    SameElements(Resolved(ts, h, vt, s, a), Resolved(ts, h, vt, t, a), p);
  }

  lemma {:induction false} NoneShares(s: seq<SideEntry>, n: nat)
    requires Ties(s, n) == 0
    ensures forall i :: 0 <= i < n ==> !Shares(s, i)
  {
    hide Shares;
    if n > 0 { NoneShares(s, n - 1); }
  }

  lemma {:induction false} NothingTies(ts: Types, h: Heap, vt: TypeId, s: seq<SideEntry>, a: nat)
    requires ValuesTyped(ts, h, vt, s) && Ascends(s, ByKey) && Ties(s, |s|) == 0
    ensures Resolved(ts, h, vt, s, a) == s && Ascends(s, ByEntry)
  {
    NoneShares(s, |s|);
    forall i, j | 0 <= i < j < |s| ensures ByEntry(s[i], s[j]) <= 0 {
      hide ByKey, PrintSeen, ComparePrints;
      assert !Shares(s, i);
      assert ByKey(s[i], s[j]) <= 0 && ByKey(s[i], s[j]) != 0;
    }
  }

  // ---- Sorting in place ----

  /** What SortEntries leaves of the entries it finds. */
  ghost predicate SortedWith(ts: Types, h: Heap, vt: TypeId, was: seq<SideEntry>, a: nat, out: seq<SideEntry>) {
    && ValuesTyped(ts, h, vt, was)
    && multiset(out) == multiset(Resolved(ts, h, vt, was, a)) && Ascends(out, ByEntry)
  }

  /** x before y: by key, by the bytes of the fingerprint, whole before cut, and what was
      expected first. */
  ghost predicate ComesFirst(x: SideEntry, y: SideEntry) {
    && CompareKeys(x.key, y.key) <= 0
    && (CompareKeys(x.key, y.key) == 0 && x.fp.Some? && y.fp.Some? ==>
          && Compare(x.fp.value.data, y.fp.value.data) <= 0
          && (x.fp.value.data == y.fp.value.data ==> (y.fp.value.complete ==> x.fp.value.complete))
          && (x.fp == y.fp ==> (y.fromA ==> x.fromA)))
  }

  ghost predicate InOrder(s: seq<SideEntry>) {
    forall i, j :: 0 <= i < j < |s| ==> ComesFirst(s[i], s[j])
  }

  lemma {:induction false} AscendingInOrder(s: seq<SideEntry>)
    requires Ascends(s, ByEntry)
    ensures InOrder(s)
  {
    forall i, j | 0 <= i < j < |s| ensures ComesFirst(s[i], s[j]) {
      ByEntryFirst(s[i], s[j]);
    }
  }

  lemma {:induction false} SortedInOrder(ts: Types, h: Heap, vt: TypeId, was: seq<SideEntry>, a: nat,
      out: seq<SideEntry>)
    requires SortedWith(ts, h, vt, was, a, out)
    ensures InOrder(out)
  {
    AscendingInOrder(out);
    hide ByEntry, ComesFirst;
  }

  lemma {:induction false} ByEntryFirst(x: SideEntry, y: SideEntry)
    requires ByEntry(x, y) <= 0
    ensures ComesFirst(x, y)
  {
    hide CompareKeys, Compare;
  }

  /** The entries of a run, each with its fingerprint, in order. */
  method SortClass(meter: FpMeter, ts: Types, h: Heap, vt: TypeId, ghost named: Named, ghost kt: KeyType,
      run: seq<SideEntry>, a: nat) returns (out: seq<SideEntry>)
    requires meter.Valid(ts, h) && ValuesTyped(ts, h, vt, run) && Keyed(named, kt, run) && Times(|run|, a) <= meter.left
    modifies meter`left, meter`visited, meter`memo
    ensures meter.Valid(ts, h) && meter.left <= old(meter.left) <= meter.left + Times(|run|, a)
    ensures |out| == |run| && multiset(out) == multiset(AllFingerprinted(ts, h, vt, run, a)) && Ascends(out, ByEntry)
  {
    var fps: seq<SideEntry> := [];
    hide *;
    ghost var all, left := AllFingerprinted(ts, h, vt, run, a), meter.left;
    for i := 0 to |run|
      invariant |fps| == i && fps == all[..i] && meter.Valid(ts, h)
      invariant meter.left <= left <= meter.left + Times(i, a)
    {
      RunAt(ts, h, vt, run, a, i);
      TimesGrow(i + 1, |run|, a);
      TimesStep(i, a);
      var fp := meter.TieFingerprint(ts, h, run[i].val, vt, a);
      fps := fps + [run[i].(fp := Some(fp))];
      Sequences.Prefix(all, i);
    }
    assert all[..|run|] == all;
    out := StableSort(fps, ByEntry);
    ByEntryOrders(named, kt);
    StillKeyed(ts, h, vt, named, kt, run, a);
    StableSortSorts(fps, ByEntry, KeyOk(named, kt));
  }

  lemma {:induction false} RunAt(ts: Types, h: Heap, vt: TypeId, run: seq<SideEntry>, a: nat, i: nat)
    requires ValuesTyped(ts, h, vt, run) && i < |run|
    ensures Typed(ts, h, run[i].val, vt)
    ensures AllFingerprinted(ts, h, vt, run, a)[i] == run[i].(fp := Some(TiePrint(ts, h, run[i].val, vt, a)))
  {
  }

  lemma {:induction false} TimesStep(n: nat, a: nat)
    ensures Times(n + 1, a) == a + Times(n, a) && Times(0, a) == 0
  {
  }

  lemma {:induction false} TimesGrow(m: nat, n: nat, a: nat)
    requires m <= n
    ensures Times(m, a) <= Times(n, a)
  {
    if m < n { TimesGrow(m, n - 1, a); }
  }

  lemma {:induction false} StillKeyed(ts: Types, h: Heap, vt: TypeId, named: Named, kt: KeyType, run: seq<SideEntry>,
      a: nat)
    requires ValuesTyped(ts, h, vt, run) && Keyed(named, kt, run)
    ensures AllOk(AllFingerprinted(ts, h, vt, run, a), KeyOk(named, kt))
  {
  }

  function Overwritten(now: seq<SideEntry>, lo: nat, s: seq<SideEntry>): (next: seq<SideEntry>)
    requires lo + |s| <= |now|
    ensures |next| == |now|
  {
    now[..lo] + s + now[lo + |s|..]
  }

  /** s is written over the entries from lo on. */
  method Overwrite(entries: array<SideEntry>, lo: nat, s: seq<SideEntry>)
    requires lo + |s| <= entries.Length
    modifies entries
    ensures entries[..] == Overwritten(old(entries[..]), lo, s)
  {
    for i := 0 to |s|
      invariant forall j :: 0 <= j < i ==> entries[lo + j] == s[j]
      invariant forall j :: 0 <= j < entries.Length && !(lo <= j < lo + i) ==> entries[j] == old(entries[j])
    {
      entries[lo + i] := s[i];
    }
  }

  lemma {:induction false} OverwrittenRun(done: seq<SideEntry>, s: seq<SideEntry>, lo: nat, hi: nat,
      part: seq<SideEntry>,
      now: seq<SideEntry>, next: seq<SideEntry>)
    requires |done| == lo <= hi <= |s| && |part| == hi - lo && now == done + s[lo..]
    requires next == Overwritten(now, lo, part)
    ensures next == (done + part) + s[hi..]
  {
    assert now[..lo] == done && now[hi..] == s[hi..];
  }

  lemma {:induction false} KeySorted(ts: Types, h: Heap, vt: TypeId, named: Named, kt: KeyType, was: seq<SideEntry>,
      s: seq<SideEntry>)
    requires ValuesTyped(ts, h, vt, was) && Keyed(named, kt, was) && s == StableSort(was, ByKey)
    ensures multiset(s) == multiset(was) && |s| == |was| && Keyed(named, kt, s) && Ascends(s, ByKey)
    ensures ValuesTyped(ts, h, vt, s)
  {
    hide ByKey, KeyOk, Typed;
    ByKeyOrders(named, kt);
    StableSortSorts(was, ByKey, KeyOk(named, kt));
    forall i | 0 <= i < |s| ensures Typed(ts, h, s[i].val, vt) {
      assert s[i] in multiset(was);
    }
  }

  lemma {:induction false} IsSortedWith(ts: Types, h: Heap, vt: TypeId, was: seq<SideEntry>, a: nat,
      out: seq<SideEntry>)
    requires ValuesTyped(ts, h, vt, was) && multiset(out) == multiset(Resolved(ts, h, vt, was, a))
    requires Ascends(out, ByEntry)
    ensures SortedWith(ts, h, vt, was, a, out)
  {
    hide ValuesTyped, Resolved, Ascends;
  }

  lemma {:induction false} NothingDone(ts: Types, h: Heap, vt: TypeId, named: Named, kt: KeyType, s: seq<SideEntry>,
      a: nat)
    requires ValuesTyped(ts, h, vt, s)
    ensures Progress(ts, h, vt, named, kt, s, a, [], 0) && Boundary(s, 0) && Ties(s, 0) == 0 && Times(0, a) == 0
  {
  }

  lemma {:induction false} ClassIs(s: seq<SideEntry>, lo: nat, hi: nat)
    requires Class(s, lo, hi)
    ensures lo < hi <= |s|
  {
  }

  lemma {:induction false} RunKeyed(ts: Types, h: Heap, vt: TypeId, named: Named, kt: KeyType, s: seq<SideEntry>,
      lo: nat, hi: nat)
    requires ValuesTyped(ts, h, vt, s) && Keyed(named, kt, s) && lo <= hi <= |s|
    ensures ValuesTyped(ts, h, vt, s[lo..hi]) && Keyed(named, kt, s[lo..hi])
  {
  }

  lemma {:induction false} TimesSum(m: nat, n: nat, a: nat)
    ensures Times(m + n, a) == Times(m, a) + Times(n, a)
  {
    if m > 0 { TimesSum(m - 1, n, a); }
  }

  lemma {:induction false} TiesGrow(s: seq<SideEntry>, m: nat, n: nat)
    requires m <= n
    ensures Ties(s, m) <= Ties(s, n)
  {
    if m < n { TiesGrow(s, m, n - 1); }
    hide Shares;
  }

  /** What is left pays for a run, and for every run. */
  lemma {:induction false} RunAffordable(s: seq<SideEntry>, lo: nat, hi: nat, a: nat, left: nat, now: nat)
    requires lo <= hi <= |s| && Ties(s, hi) == Ties(s, lo) + (hi - lo) && Times(Ties(s, |s|), a) <= left
    requires left <= now + Times(Ties(s, lo), a)
    ensures Times(hi - lo, a) <= now && Times(Ties(s, hi), a) == Times(Ties(s, lo), a) + Times(hi - lo, a)
  {
    TiesGrow(s, hi, |s|);
    TimesGrow(Ties(s, hi), Ties(s, |s|), a);
    TimesSum(Ties(s, lo), hi - lo, a);
  }

  lemma {:induction false} AllDone(ts: Types, h: Heap, vt: TypeId, named: Named, kt: KeyType, s: seq<SideEntry>,
      was: seq<SideEntry>, a: nat, done: seq<SideEntry>, out: seq<SideEntry>, left: nat, now: nat)
    requires Going(ts, h, vt, named, kt, s, a, done, |s|, out, left, now)
    requires ValuesTyped(ts, h, vt, was) && ValuesTyped(ts, h, vt, s)
    requires multiset(Resolved(ts, h, vt, s, a)) == multiset(Resolved(ts, h, vt, was, a))
    ensures SortedWith(ts, h, vt, was, a, out) && now <= left <= now + Times(Ties(s, |s|), a)
  {
    var r := Resolved(ts, h, vt, s, a);
    assert r[..|s|] == r && done + s[|s|..] == done;
    hide Resolved, ValuesTyped, Ascends, Times, Ties;
  }

  /** The entries are sorted by key, and there are nodes for all that tie. */
  ghost predicate Ready(ts: Types, h: Heap, vt: TypeId, named: Named, kt: KeyType, s: seq<SideEntry>, a: nat,
      left: nat) {
    && ValuesTyped(ts, h, vt, s) && Keyed(named, kt, s) && Ascends(s, ByKey) && Times(Ties(s, |s|), a) <= left
  }

  /** The runs before lo are done; the entries from lo on are as in s. */
  ghost predicate Going(ts: Types, h: Heap, vt: TypeId, named: Named, kt: KeyType, s: seq<SideEntry>, a: nat,
      done: seq<SideEntry>, lo: nat, entries: seq<SideEntry>, left: nat, now: nat)
  {
    && Progress(ts, h, vt, named, kt, s, a, done, lo) && Boundary(s, lo) && |done| == lo <= |s|
    && entries == done + s[lo..] && now <= left <= now + Times(Ties(s, lo), a)
  }

  /** A run of entries whose keys tie. */
  method SortTiedRun(meter: FpMeter, ts: Types, h: Heap, vt: TypeId, ghost named: Named, ghost kt: KeyType,
      entries: array<SideEntry>, s: seq<SideEntry>, a: nat, lo: nat, hi: nat, ghost done: seq<SideEntry>,
      ghost now: seq<SideEntry>, ghost left: nat) returns (ghost more: seq<SideEntry>, ghost next: seq<SideEntry>)
    requires meter.Valid(ts, h) && Ready(ts, h, vt, named, kt, s, a, left) && entries[..] == now
    requires Going(ts, h, vt, named, kt, s, a, done, lo, now, left, meter.left) && Class(s, lo, hi)
    requires lo + 1 < hi <= |s| == |now|
    modifies meter`left, meter`visited, meter`memo, entries
    ensures meter.Valid(ts, h) && entries[..] == next
    ensures Going(ts, h, vt, named, kt, s, a, more, hi, next, left, meter.left)
  {
    hide *;
    ghost var before := meter.left;
    RunFound(ts, h, vt, named, kt, s, a, left, lo, hi, done, now, before);
    var part := SortClass(meter, ts, h, vt, named, kt, s[lo..hi], a);
    assert entries[..] == now;
    Overwrite(entries, lo, part);
    more, next := done + part, Overwritten(now, lo, part);
    TiedRunDone(ts, h, vt, named, kt, s, a, left, lo, hi, done, now, before, part, meter.left);
  }

  /** One run of entries whose keys tie, or one entry. */
  method SortRun(meter: FpMeter, ts: Types, h: Heap, vt: TypeId, ghost named: Named, ghost kt: KeyType,
      entries: array<SideEntry>, s: seq<SideEntry>, a: nat, lo: nat, ghost done: seq<SideEntry>,
      ghost now: seq<SideEntry>,
      ghost left: nat) returns (hi: nat, ghost more: seq<SideEntry>, ghost next: seq<SideEntry>)
    requires meter.Valid(ts, h) && Ready(ts, h, vt, named, kt, s, a, left) && lo < |s| && entries[..] == now
    requires Going(ts, h, vt, named, kt, s, a, done, lo, now, left, meter.left)
    modifies meter`left, meter`visited, meter`memo, entries
    ensures meter.Valid(ts, h) && lo < hi <= |s| && entries[..] == next
    ensures Going(ts, h, vt, named, kt, s, a, more, hi, next, left, meter.left)
  {
    ReadyParts(ts, h, vt, named, kt, s, a, left);
    SameKey(named, kt, s, lo);
    hide *;
    hi := ClassEnd(s, lo);
    RunBounds(ts, h, vt, named, kt, s, a, left, lo, hi, done, now, meter.left);
    if hi - lo > 1 {
      more, next := SortTiedRun(meter, ts, h, vt, named, kt, entries, s, a, lo, hi, done, now, left);
    } else {
      LoneRunDone(ts, h, vt, named, kt, s, a, left, lo, hi, done, now, meter.left);
      more, next := done + s[lo..hi], now;
    }
  }

  lemma {:induction false} RunBounds(ts: Types, h: Heap, vt: TypeId, named: Named, kt: KeyType, s: seq<SideEntry>,
      a: nat,
      left: nat, lo: nat, hi: nat, done: seq<SideEntry>, now: seq<SideEntry>, before: nat)
    requires Class(s, lo, hi) && Going(ts, h, vt, named, kt, s, a, done, lo, now, left, before)
    ensures lo < hi <= |s| == |now|
  {
    hide Progress, Boundary;
  }

  lemma {:induction false} LoneRunDone(ts: Types, h: Heap, vt: TypeId, named: Named, kt: KeyType, s: seq<SideEntry>,
      a: nat,
      left: nat, lo: nat, hi: nat, done: seq<SideEntry>, now: seq<SideEntry>, before: nat)
    requires Ready(ts, h, vt, named, kt, s, a, left) && Class(s, lo, hi) && hi == lo + 1 <= |s| == |now|
    requires Going(ts, h, vt, named, kt, s, a, done, lo, now, left, before)
    ensures Going(ts, h, vt, named, kt, s, a, done + s[lo..hi], hi, now, left, before)
  {
    hide *;
    RunFound(ts, h, vt, named, kt, s, a, left, lo, hi, done, now, before);
    LonePart(ts, h, vt, named, kt, s, a, lo);
    LoneDone(s, lo, hi, now);
    RunDone(ts, h, vt, named, kt, s, a, left, lo, hi, done, now, before, s[lo..hi], now, before);
  }

  lemma {:induction false} TiedRunDone(ts: Types, h: Heap, vt: TypeId, named: Named, kt: KeyType, s: seq<SideEntry>,
      a: nat,
      left: nat, lo: nat, hi: nat, done: seq<SideEntry>, now: seq<SideEntry>, before: nat, part: seq<SideEntry>,
      after: nat)
    requires Ready(ts, h, vt, named, kt, s, a, left) && Class(s, lo, hi) && lo + 1 < hi <= |s| == |now|
    requires Going(ts, h, vt, named, kt, s, a, done, lo, now, left, before) && ValuesTyped(ts, h, vt, s[lo..hi])
    requires |part| == hi - lo && Ascends(part, ByEntry)
    requires multiset(part) == multiset(AllFingerprinted(ts, h, vt, s[lo..hi], a))
    requires after <= before <= after + Times(hi - lo, a)
    ensures Going(ts, h, vt, named, kt, s, a, done + part, hi, Overwritten(now, lo, part), left, after)
  {
    hide *;
    RunFound(ts, h, vt, named, kt, s, a, left, lo, hi, done, now, before);
    TiedPart(ts, h, vt, named, kt, s, a, lo, hi, part);
    RunDone(ts, h, vt, named, kt, s, a, left, lo, hi, done, now, before, part, Overwritten(now, lo, part), after);
  }

  lemma {:induction false} LoneDone(s: seq<SideEntry>, lo: nat, hi: nat, now: seq<SideEntry>)
    requires lo <= hi <= |s| == |now| && now[lo..hi] == s[lo..hi]
    ensures now == Overwritten(now, lo, s[lo..hi])
  {
  }

  lemma {:induction false} RunFound(ts: Types, h: Heap, vt: TypeId, named: Named, kt: KeyType, s: seq<SideEntry>,
      a: nat,
      left: nat, lo: nat, hi: nat, done: seq<SideEntry>, now: seq<SideEntry>, before: nat)
    requires Ready(ts, h, vt, named, kt, s, a, left) && Class(s, lo, hi)
    requires Going(ts, h, vt, named, kt, s, a, done, lo, now, left, before)
    ensures lo < hi <= |s| == |now| && ValuesTyped(ts, h, vt, s) && Keyed(named, kt, s) && Boundary(s, lo)
    ensures Boundary(s, hi)
    ensures ValuesTyped(ts, h, vt, s[lo..hi]) && Keyed(named, kt, s[lo..hi])
    ensures hi - lo > 1 ==> Times(hi - lo, a) <= before
    ensures now[lo..hi] == s[lo..hi]
  {
    ReadyParts(ts, h, vt, named, kt, s, a, left);
    GoingParts(ts, h, vt, named, kt, s, a, done, lo, now, left, before);
    hide *;
    ClassIs(s, lo, hi);
    NextBoundary(named, kt, s, lo, hi);
    TiesInClass(named, kt, s, lo, hi, hi);
    RunKeyed(ts, h, vt, named, kt, s, lo, hi);
    SameRun(done, s, lo, hi, now);
    if hi - lo > 1 { RunAffordable(s, lo, hi, a, left, before); }
  }

  lemma {:induction false} SameRun(done: seq<SideEntry>, s: seq<SideEntry>, lo: nat, hi: nat, now: seq<SideEntry>)
    requires |done| == lo <= hi <= |s| && now == done + s[lo..]
    ensures |now| == |s| && now[lo..hi] == s[lo..hi]
  {
  }

  lemma {:induction false} ReadyParts(ts: Types, h: Heap, vt: TypeId, named: Named, kt: KeyType, s: seq<SideEntry>,
      a: nat,
      left: nat)
    requires Ready(ts, h, vt, named, kt, s, a, left)
    ensures ValuesTyped(ts, h, vt, s) && Keyed(named, kt, s) && Ascends(s, ByKey) && Times(Ties(s, |s|), a) <= left
  {
    hide ValuesTyped, Keyed, Ascends, Times, Ties;
  }

  lemma {:induction false} GoingParts(ts: Types, h: Heap, vt: TypeId, named: Named, kt: KeyType, s: seq<SideEntry>,
      a: nat,
      done: seq<SideEntry>, lo: nat, now: seq<SideEntry>, left: nat, before: nat)
    requires Going(ts, h, vt, named, kt, s, a, done, lo, now, left, before)
    ensures Progress(ts, h, vt, named, kt, s, a, done, lo) && Boundary(s, lo) && |done| == lo <= |s|
    ensures now == done + s[lo..] && before <= left <= before + Times(Ties(s, lo), a)
  {
    hide Progress, Boundary, Times, Ties;
  }

  lemma {:induction false} IsGoing(ts: Types, h: Heap, vt: TypeId, named: Named, kt: KeyType, s: seq<SideEntry>, a: nat,
      done: seq<SideEntry>, lo: nat, now: seq<SideEntry>, left: nat, before: nat)
    requires Progress(ts, h, vt, named, kt, s, a, done, lo) && Boundary(s, lo) && |done| == lo <= |s|
    requires now == done + s[lo..] && before <= left <= before + Times(Ties(s, lo), a)
    ensures Going(ts, h, vt, named, kt, s, a, done, lo, now, left, before)
  {
    hide Progress, Boundary, Times, Ties;
  }

  lemma {:induction false} RunDone(ts: Types, h: Heap, vt: TypeId, named: Named, kt: KeyType, s: seq<SideEntry>, a: nat,
      left: nat, lo: nat, hi: nat, done: seq<SideEntry>, now: seq<SideEntry>, before: nat, part: seq<SideEntry>,
      next: seq<SideEntry>, after: nat)
    requires Ready(ts, h, vt, named, kt, s, a, left) && Class(s, lo, hi) && Boundary(s, hi) && lo < hi <= |s| == |now|
    requires Going(ts, h, vt, named, kt, s, a, done, lo, now, left, before)
    requires Part(ts, h, vt, s, a, lo, hi, part) && |part| == hi - lo && next == Overwritten(now, lo, part)
    requires after <= before <= after + if hi - lo > 1 then Times(hi - lo, a) else 0
    ensures Going(ts, h, vt, named, kt, s, a, done + part, hi, next, left, after)
  {
    hide *;
    ReadyParts(ts, h, vt, named, kt, s, a, left);
    GoingParts(ts, h, vt, named, kt, s, a, done, lo, now, left, before);
    PartAdded(ts, h, vt, named, kt, s, a, done, lo, hi, part);
    TiesInClass(named, kt, s, lo, hi, hi);
    OverwrittenRun(done, s, lo, hi, part, now, next);
    if hi - lo > 1 { RunAffordable(s, lo, hi, a, left, before); }
    IsGoing(ts, h, vt, named, kt, s, a, done + part, hi, next, left, after);
  }

  /** Puts entries in order in place and gives every entry whose key ties a
      fingerprint, all within one allowance. Together they spend at most half of
      the message's budget, and no more than the allowance for each entry that
      ties. */
  method SortEntries(meter: FpMeter, ts: Types, h: Heap, vt: TypeId, ghost named: Named, ghost kt: KeyType,
      entries: array<SideEntry>) returns (ghost a: nat)
    requires meter.Valid(ts, h) && ValuesTyped(ts, h, vt, entries[..]) && Keyed(named, kt, entries[..])
    modifies meter`left, meter`visited, meter`memo, entries
    ensures meter.Valid(ts, h) && a == Allowance(old(meter.left), Ties(old(entries[..]), entries.Length))
    ensures SortedWith(ts, h, vt, old(entries[..]), a, entries[..]) && InOrder(entries[..])
    ensures meter.left <= old(meter.left) <= meter.left + a * Ties(old(entries[..]), entries.Length)
    ensures meter.left <= old(meter.left) <= meter.left + old(meter.left) / 2
  {
    hide *;
    ghost var was, left := entries[..], meter.left;
    var s := StableSort(entries[..], ByKey);
    KeySorted(ts, h, vt, named, kt, was, s);
    Overwrite(entries, 0, s);
    AllOverwritten(was, s);
    var tied := CountTied(s, named, kt);
    a := Allowance(left, tied);
    AllowanceIsFair(left, tied);
    TimesIsProduct(tied, a);
    ResolvedPermuted(ts, h, vt, s, was, a);
    if tied == 0 {
      NothingTies(ts, h, vt, s, a);
      IsSortedWith(ts, h, vt, was, a, s);
      SortedInOrder(ts, h, vt, was, a, s);
      return;
    }
    var allowance := meter.TieAllowance(tied);
    IsReady(ts, h, vt, named, kt, s, a, left);
    var lo := 0;
    ghost var done: seq<SideEntry>, now := [], s;
    while lo < entries.Length
      invariant lo <= |s| == entries.Length && meter.Valid(ts, h) && entries[..] == now
      invariant Going(ts, h, vt, named, kt, s, a, done, lo, now, left, meter.left)
    {
      lo, done, now := SortRun(meter, ts, h, vt, named, kt, entries, s, allowance, lo, done, now, left);
    }
    AllDone(ts, h, vt, named, kt, s, was, a, done, now, left, meter.left);
    SortedInOrder(ts, h, vt, was, a, now);
    ProductsCommute(a, tied);
  }

  lemma {:induction false} AllOverwritten(was: seq<SideEntry>, s: seq<SideEntry>)
    requires |was| == |s|
    ensures Overwritten(was, 0, s) == s
  {
  }

  lemma {:induction false} ProductsCommute(a: nat, b: nat)
    ensures a * b == b * a
  {
  }

  lemma {:induction false} IsReady(ts: Types, h: Heap, vt: TypeId, named: Named, kt: KeyType, s: seq<SideEntry>, a: nat,
      left: nat)
    requires ValuesTyped(ts, h, vt, s) && Keyed(named, kt, s) && Ascends(s, ByKey) && Times(Ties(s, |s|), a) <= left
    ensures Ready(ts, h, vt, named, kt, s, a, left)
    ensures Going(ts, h, vt, named, kt, s, a, [], 0, s, left, left)
  {
    NothingDone(ts, h, vt, named, kt, s, a);
    assert [] + s[0..] == s;
    hide ValuesTyped, Keyed, Ascends, Progress, Boundary, Times, Ties;
  }

  lemma {:induction false} ResolvedKeyed(ts: Types, h: Heap, vt: TypeId, named: Named, kt: KeyType, s: seq<SideEntry>,
      a: nat)
    requires ValuesTyped(ts, h, vt, s) && Keyed(named, kt, s)
    ensures AllOk(Resolved(ts, h, vt, s, a), KeyOk(named, kt))
  {
    hide Shares;
  }

  lemma {:induction false} TiedEntries(x: SideEntry, y: SideEntry)
    requires ByEntry(x, y) == 0
    ensures ByKey(x, y) == 0 && PrintSeen(x) == PrintSeen(y) && x.fromA == y.fromA
  {
    hide ByKey, PrintSeen;
  }

  /** Whatever order the entries come in, each gets the same allowance and every
      place of the result holds the same key, fingerprint and side. */
  lemma {:induction false} InputOrderIsInvisible(ts: Types, h: Heap, vt: TypeId, named: Named, kt: KeyType, left: nat,
      was: seq<SideEntry>, a: nat, out: seq<SideEntry>, was': seq<SideEntry>, a': nat, out': seq<SideEntry>, i: nat)
    requires multiset(was) == multiset(was') && Keyed(named, kt, was)
    requires a == Allowance(left, Ties(was, |was|)) && a' == Allowance(left, Ties(was', |was'|))
    requires SortedWith(ts, h, vt, was, a, out) && SortedWith(ts, h, vt, was', a', out') && i < |out|
    ensures a == a' && |out'| == |out|
    ensures ByKey(out[i], out'[i]) == 0 && PrintSeen(out[i]) == PrintSeen(out'[i]) && out[i].fromA == out'[i].fromA
  {
    var ok := KeyOk(named, kt);
    hide KeyOk, ByKey, ByEntry, PrintSeen, Allowance, Ties, Resolved, Ascends, Orders;
    ResolvedPermuted(ts, h, vt, was, was', a);
    ResolvedKeyed(ts, h, vt, named, kt, was, a);
    ByEntryOrders(named, kt);
    hide ValuesTyped, Keyed;
    SameMultisetOk(Resolved(ts, h, vt, was, a), out, ok);
    SortedOnce(out, out', ByEntry, ok, i);
    TiedEntries(out[i], out'[i]);
  }
}
