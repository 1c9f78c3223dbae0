/** Selecting windows of maps in one message: a big map met again gets the
    window that was selected the first time. */
module WindowMemos {
  import opened Values
  import opened Fingerprints
  import opened FingerprintDecodes
  import opened Meters
  import opened KeyOrder
  import opened Windows
  import opened WindowSelection

  /** The smallest map whose window is remembered. */
  const MEMO_MIN_LEN: nat := 64

  /** A map as the message finds it: the type of its values and its entries. */
  datatype MapContent = MapContent(named: Named, keys: KeyType, vals: TypeId, entries: seq<MapEntry>)

  /** The maps of a message; nobody writes to them while it is rendered. */
  type Maps = RefKey -> MapContent

  ghost predicate ContentTyped(ts: Types, h: Heap, c: MapContent) {
    MapTyped(ts, h, c.vals, c.entries) && KeysTyped(c.named, c.keys, c.entries)
  }

  /** w holds the first k entries of c, its ties seen with an allowance of a. */
  ghost predicate WindowOf(ts: Types, h: Heap, c: MapContent, w: MapWindow, k: nat, a: nat) {
    && ContentTyped(ts, h, c) && w.total == |c.entries|
    && IsWindow(c.entries, AllPrints(ts, h, c.vals, c.entries, a), w.top, k)
  }

  /** Every window remembered is a window of its map. */
  ghost predicate WindowsRight(ts: Types, h: Heap, maps: Maps, windows: map<WindowKey, MapWindow>,
      shares: map<WindowKey, nat>) {
    forall key :: key in windows ==>
      key in shares && WindowOf(ts, h, maps(key.ref), windows[key], key.k, shares[key])
  }

  /** What was remembered still is. */
  ghost predicate Keeps(old_: map<WindowKey, MapWindow>, new_: map<WindowKey, MapWindow>) {
    forall key :: key in old_ ==> key in new_ && new_[key] == old_[key]
  }

  /** The first k entries of the map at ref, and how many it holds. A big map is
      selected from once in a message: its window is the remembered one, and costs
      nothing. */
  method SmallestMapEntriesWith(meter: FpMeter, ts: Types, h: Heap, ghost maps: Maps, ref: RefKey, c: MapContent,
      k: nat)
      returns (w: MapWindow, ghost a: nat)
    requires meter.Valid(ts, h) && WindowsRight(ts, h, maps, meter.windows, meter.shares)
    requires maps(ref) == c && ContentTyped(ts, h, c)
    modifies meter
    ensures meter.Valid(ts, h) && WindowsRight(ts, h, maps, meter.windows, meter.shares)
    ensures WindowOf(ts, h, c, w, k, a)
    ensures meter.left <= old(meter.left) <= meter.left + old(meter.left) / 2
    ensures Keeps(old(meter.windows), meter.windows)
    ensures var key := WindowKey(ref, k);
            && (|c.entries| >= MEMO_MIN_LEN ==> key in meter.windows && meter.windows[key] == w)
            && (|c.entries| >= MEMO_MIN_LEN && key in old(meter.windows) ==>
                  w == old(meter.windows[key]) && meter.left == old(meter.left))
  {
    hide WindowOf, WindowsRight, IsWindow, AllPrints, Keeps, ContentTyped, MapTyped, KeysTyped, Remembered;
    var key := WindowKey(ref, k);
    var memo := |c.entries| >= MEMO_MIN_LEN;
    if memo && key in meter.windows {
      RememberedIsRight(ts, h, maps, meter.windows, meter.shares, key);
      KeepsAll(meter.windows);
      return meter.windows[key], meter.shares[key];
    }
    TypedContent(ts, h, c);
    var top, total, allowance := SelectSmallest(meter, ts, h, c.vals, c.named, c.keys, c.entries, k);
    w, a := MapWindow(top, total), allowance;
    IsWindowOf(ts, h, c, w, k, a);
    KeepsAll(meter.windows);
    if memo {
      OneMoreWindow(ts, h, maps, meter.windows, meter.shares, key, w, a);
      meter.windows := meter.windows[key := w];
      meter.shares := meter.shares[key := a];
    }
  }

  lemma {:induction false} KeepsAll(windows: map<WindowKey, MapWindow>)
    ensures Keeps(windows, windows)
  {
  }

  lemma {:induction false} TypedContent(ts: Types, h: Heap, c: MapContent)
    requires ContentTyped(ts, h, c)
    ensures MapTyped(ts, h, c.vals, c.entries) && KeysTyped(c.named, c.keys, c.entries)
  {
  }

  lemma {:induction false} IsWindowOf(ts: Types, h: Heap, c: MapContent, w: MapWindow, k: nat, a: nat)
    requires ContentTyped(ts, h, c) && w.total == |c.entries| && MapTyped(ts, h, c.vals, c.entries)
    requires IsWindow(c.entries, AllPrints(ts, h, c.vals, c.entries, a), w.top, k)
    ensures WindowOf(ts, h, c, w, k, a)
  {
    hide IsWindow, MapTyped, KeysTyped;
  }

  lemma {:induction false} RememberedIsRight(ts: Types, h: Heap, maps: Maps, windows: map<WindowKey, MapWindow>,
      shares: map<WindowKey, nat>, key: WindowKey)
    requires WindowsRight(ts, h, maps, windows, shares) && key in windows
    ensures key in shares && WindowOf(ts, h, maps(key.ref), windows[key], key.k, shares[key])
  {
    hide WindowOf;
  }

  lemma {:induction false} OneMoreWindow(ts: Types, h: Heap, maps: Maps, windows: map<WindowKey, MapWindow>,
      shares: map<WindowKey, nat>, key: WindowKey, w: MapWindow, a: nat)
    requires WindowsRight(ts, h, maps, windows, shares) && WindowOf(ts, h, maps(key.ref), w, key.k, a)
    requires key !in windows
    ensures WindowsRight(ts, h, maps, windows[key := w], shares[key := a])
    ensures Keeps(windows, windows[key := w])
  {
    hide WindowOf;
  }
}
