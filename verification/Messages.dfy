/** One diagnostic message: any number of maps sorted and of windows selected,
    all on one budget. */
module Messages {
  import opened Values
  import opened Fingerprints
  import opened FingerprintDecodes
  import opened Meters
  import opened KeyOrder
  import opened SortedEntries
  import opened WindowMemos

  datatype Request =
    | Sorting(vals: TypeId, named: Named, keys: KeyType, entries: seq<SideEntry>)
    | Smallest(ref: RefKey, k: nat)

  datatype Answer =
    | Sorted(entries: seq<SideEntry>)
    | Window(window: MapWindow)

  ghost predicate Askable(ts: Types, h: Heap, maps: Maps, r: Request) {
    match r
    case Sorting(vals, named, keys, entries) => ValuesTyped(ts, h, vals, entries) && Keyed(named, keys, entries)
    case Smallest(ref, _) => ContentTyped(ts, h, maps(ref))
  }

  /** The answer to r, its ties seen with an allowance of a. */
  ghost predicate Answers(ts: Types, h: Heap, maps: Maps, r: Request, x: Answer, a: nat) {
    match r
    case Sorting(vals, _, _, entries) => x.Sorted? && SortedWith(ts, h, vals, entries, a, x.entries)
    case Smallest(ref, k) => x.Window? && WindowOf(ts, h, maps(ref), x.window, k, a)
  }

  /** The window of a big map is remembered. */
  ghost predicate Recalled(maps: Maps, r: Request, x: Answer, windows: map<WindowKey, MapWindow>) {
    r.Smallest? && |maps(r.ref).entries| >= MEMO_MIN_LEN ==>
      && WindowKey(r.ref, r.k) in windows
      && x == Window(windows[WindowKey(r.ref, r.k)])
  }

  ghost predicate SameBigMap(maps: Maps, r: Request, q: Request) {
    r.Smallest? && q.Smallest? && r.ref == q.ref && r.k == q.k && |maps(r.ref).entries| >= MEMO_MIN_LEN
  }

  method Serve(meter: FpMeter, ts: Types, h: Heap, maps: Maps, r: Request) returns (x: Answer, ghost a: nat)
    requires meter.Valid(ts, h) && WindowsRight(ts, h, maps, meter.windows, meter.shares) && Askable(ts, h, maps, r)
    modifies meter
    ensures meter.Valid(ts, h) && WindowsRight(ts, h, maps, meter.windows, meter.shares)
    ensures Answers(ts, h, maps, r, x, a) && Recalled(maps, r, x, meter.windows)
    ensures Keeps(old(meter.windows), meter.windows)
    ensures meter.left <= old(meter.left) <= meter.left + old(meter.left) / 2
  {
    hide ValuesTyped, Keyed, ContentTyped, SortedWith, WindowOf, WindowsRight, Remembered;
    match r {
      case Sorting(vals, named, keys, entries) =>
        var slice := new SideEntry[|entries|](i requires 0 <= i < |entries| => entries[i]);
        assert slice[..] == entries;
        a := SortEntries(meter, ts, h, vals, named, keys, slice);
        x := Sorted(slice[..]);
      case Smallest(ref, k) =>
        var w;
        w, a := SmallestMapEntriesWith(meter, ts, h, maps, ref, maps(ref), k);
        x := Window(w);
    }
  }

  /** A message answers every request rightly and visits no more nodes than its
      budget, whatever it is asked and in whatever order; and it shows a big map
      the same wherever it meets it. */
  method Message(ts: Types, h: Heap, maps: Maps, requests: seq<Request>)
      returns (answers: seq<Answer>, visited: nat, ghost allowances: seq<nat>)
    requires forall i :: 0 <= i < |requests| ==> Askable(ts, h, maps, requests[i])
    ensures |answers| == |allowances| == |requests| && visited <= MESSAGE_BUDGET
    ensures forall i :: 0 <= i < |requests| ==> Answers(ts, h, maps, requests[i], answers[i], allowances[i])
    ensures forall i, j :: 0 <= i < j < |requests| && SameBigMap(maps, requests[i], requests[j]) ==>
              answers[i] == answers[j]
  {
    var meter := new FpMeter(ts, h);
    answers, allowances := [], [];
    hide Askable, Answers, WindowsRight, Remembered;
    NoWindows(ts, h, maps);
    for i := 0 to |requests|
      invariant |answers| == |allowances| == i && meter.Valid(ts, h)
      invariant WindowsRight(ts, h, maps, meter.windows, meter.shares)
      invariant forall j :: 0 <= j < i ==> Answers(ts, h, maps, requests[j], answers[j], allowances[j])
      invariant forall j :: 0 <= j < i ==> Recalled(maps, requests[j], answers[j], meter.windows)
    {
      ghost var before := meter.windows;
      var x;
      ghost var a;
      x, a := Serve(meter, ts, h, maps, requests[i]);
      forall j | 0 <= j < i ensures Recalled(maps, requests[j], answers[j], meter.windows) {
        StillRecalled(maps, requests[j], answers[j], before, meter.windows);
      }
      hide Keeps;
      answers, allowances := answers + [x], allowances + [a];
    }
    visited := meter.visited;
  }

  lemma {:induction false} NoWindows(ts: Types, h: Heap, maps: Maps)
    ensures WindowsRight(ts, h, maps, map[], map[])
  {
  }

  lemma {:induction false} StillRecalled(maps: Maps, r: Request, x: Answer, before: map<WindowKey, MapWindow>,
      after: map<WindowKey, MapWindow>)
    requires Recalled(maps, r, x, before) && Keeps(before, after)
    ensures Recalled(maps, r, x, after)
  {
  }
}
