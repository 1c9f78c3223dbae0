/** When a fingerprint is complete: exactly when nothing of the value is too deep,
    no map too large, and every part fits in its own room and its own nodes. */
module FingerprintSizes {
  import opened Bytes
  import opened Values
  import opened Fingerprints
  import opened FingerprintLaws
  import opened FingerprintDecodes
  import opened Namesakes

  /** The nodes a value takes that is written whole. A map of n entries takes one,
      its entries', and n + n * log n to visit and sort them. */
  function Visits(t: Term): (n: nat)
    ensures n > 0
    decreases t, 0
  {
    1 + match t
      case TBox(_, e) => Visits(e)
      case TList(_, es) => VisitsAll(es)
      case TMap(es) => Sorting(|es|) + VisitsEntries(es)
      case _ => 0
  }

  function VisitsAll(es: seq<Term>): nat
    decreases es, 0
  {
    if es == [] then 0 else Visits(es[0]) + VisitsAll(es[1..])
  }

  function VisitsEntries(es: seq<Entry<Term>>): nat
    decreases es, 0
  {
    if es == [] then 0 else EntryVisits(es[0]) + VisitsEntries(es[1..])
  }

  function EntryVisits(e: Entry<Term>): nat
    decreases e, 0
  {
    Visits(e.key) + Visits(e.val)
  }

  /** Visiting and sorting n entries. */
  function Sorting(n: nat): nat {
    n * (1 + Digits(n))
  }

  /** The binary digits of n. */
  function Digits(n: nat): (k: nat)
    ensures Power(k) > n && (n > 0 ==> k > 0 && Power(k - 1) <= n)
  {
    if n == 0 then 0 else Digits(n / 2) + 1
  }

  function Power(k: nat): (p: nat)
    ensures p > 0
  {
    if k == 0 then 1 else 2 * Power(k - 1)
  }

  /** What room and nodes there are is enough for t and all its parts; each entry
      of a map has an equal share of what is left, and no more. */
  predicate Roomy(t: Term, room: int, nodes: int)
    requires Fits(t)
    decreases t, 0
  {
    var inside := room - |Flat(Header(t))|;
    && nodes > 0 && inside >= 0
    && match t
       case TDepthCut => false
       case TBox(_, e) => Roomy(e, inside, nodes - 1)
       case TList(_, es) => AllRoomy(es, inside, nodes - 1)
       case TMap(es) => |es| <= 256 && MapRoomy(es, inside, nodes - 1)
       case _ => true
  }

  predicate AllRoomy(es: seq<Term>, room: int, nodes: int)
    requires AllFit(es)
    decreases es, 0
  {
    es == [] ||
    (Roomy(es[0], room, nodes) && AllRoomy(es[1..], room - |Encoding(es[0])|, nodes - Visits(es[0])))
  }

  predicate EntryRoomy(e: Entry<Term>, room: int, nodes: int)
    requires Fits(e.key) && Fits(e.val)
    decreases e, 0
  {
    Roomy(e.key, room, nodes) && Roomy(e.val, room - |Encoding(e.key)|, nodes - Visits(e.key))
  }

  predicate MapRoomy(es: seq<Entry<Term>>, room: int, nodes: int)
    requires EntriesFit(es) && room >= 0
    decreases es, 1
  {
    es == [] || EntriesRoomy(es, room, nodes - Sorting(|es|))
  }

  predicate EntriesRoomy(es: seq<Entry<Term>>, room: int, nodes: int)
    requires EntriesFit(es) && es != [] && room >= 0
    decreases es, 0
  {
    && nodes >= 0 && |MapBytes(EntryPrints(es))| <= room
    && forall i :: 0 <= i < |es| ==> EntryRoomy(es[i], room / |es|, nodes / |es|)
  }

  lemma {:induction false} DigitsAreBits(n: nat)
    ensures Digits(n) == BitLen(n)
  {
    if n > 0 { DigitsAreBits(n / 2); }
  }

  lemma {:induction false} SortCostIs(n: nat)
    ensures SortCost(n) == Sorting(n)
  {
    DigitsAreBits(n);
    TimesIsProduct(n, Digits(n));
    OneMore(n, Digits(n));
    hide Times, BitLen, Digits;
  }

  lemma {:induction false} OneMore(n: nat, k: nat)
    ensures n * (1 + k) == n + n * k
  {
  }

  ghost predicate Going(s: State) {
    !s.full && !s.incomplete
  }

  /** Writing a value of so many bytes and visits either goes through or is cut. */
  ghost predicate Decided(s: State, r: State, whole: bool, text: seq<Byte>, visits: nat) {
    if whole then |s.buf| + |text| <= s.max && visits <= s.left && r == Wrote(s, text, visits) else r.incomplete
  }

  lemma {:induction false} WriteAllCut(s: State, chunks: seq<seq<Byte>>)
    requires Going(s) && |s.buf| + |Flat(chunks)| > s.max
    ensures WriteAll(s, chunks).incomplete
    decreases chunks
  {
    if !WriteAll(s, chunks).incomplete { WriteAllWhole(s, chunks); }
  }

  lemma {:induction false} HeadDecided(t: Term, s: State)
    requires Fits(t) && Going(s) && s.left > 0
    ensures Sane(Entered(t, s))
    ensures Decided(s, Entered(t, s), !t.TDepthCut? && |s.buf| + |Flat(Header(t))| <= s.max, Flat(Header(t)), 1)
  {
    EnteredSane(t, s);
    if !t.TDepthCut? && |s.buf| + |Flat(Header(t))| <= s.max {
      SmallHead(t, s);
    } else if t.TDepthCut? {
      DepthCutStays(t, s);
    } else {
      WriteAllCut(s.(left := s.left - 1), Header(t));
    }
    hide Header, Flat, WriteAll;
  }

  lemma {:induction false} WriteAllKeeps(s: State, chunks: seq<seq<Byte>>)
    requires Sane(s)
    ensures Sane(WriteAll(s, chunks)) && (s.incomplete ==> WriteAll(s, chunks).incomplete)
    decreases chunks
  {
    if chunks != [] { WriteAllKeeps(Write(s, chunks[0]), chunks[1..]); }
  }

  lemma {:induction false} EnteredSane(t: Term, s: State)
    requires Fits(t) && Sane(s) && s.left > 0
    ensures Sane(Entered(t, s))
  {
    WriteAllKeeps(s.(left := s.left - 1, incomplete := s.incomplete || t.TDepthCut?), Header(t));
    hide Header, WriteAll;
  }

  lemma {:induction false} DepthCutStays(t: Term, s: State)
    requires Fits(t) && t.TDepthCut? && Sane(s) && s.left > 0
    ensures Entered(t, s).incomplete
  {
    WriteAllKeeps(s.(left := s.left - 1, incomplete := true), Header(t));
    hide Header, WriteAll;
  }

  // ---- Part by part ----

  /** A value whose first part takes text and visits, and whose rest is decided after it. */
  lemma {:induction false} ThenDecided(s: State, m: State, r: State, first: bool, a: seq<Byte>, i: nat, rest: bool,
      b: seq<Byte>, j: nat)
    requires Decided(s, m, first, a, i) && (first || r.incomplete)
    requires first ==> Decided(m, r, rest, b, j)
    ensures Decided(s, r, first && rest, a + b, i + j)
  {
    if first && rest {
      WroteTwice(s, a, i, b, j);
    }
  }

  /** What follows the head of a value, and what that takes. */
  ghost function Rest(t: Term, m: State): State
    requires Fits(t)
  {
    match t
    case TBox(_, e) => Fingerprint(e, m)
    case TList(_, es) => FingerprintAll(es, m)
    case TMap(es) => if |es| > MAX_MAP_ENTRIES then m.(incomplete := true) else FingerprintEntries(es, m)
    case _ => m
  }

  ghost function RestText(t: Term): seq<Byte>
    requires Fits(t)
  {
    match t
    case TBox(_, e) => Encoding(e)
    case TList(_, es) => EncodingAll(es)
    case TMap(es) => MapBytes(EntryPrints(es))
    case _ => []
  }

  ghost predicate RestRoomy(t: Term, room: int, nodes: int)
    requires Fits(t) && room >= 0
  {
    match t
    case TBox(_, e) => Roomy(e, room, nodes)
    case TList(_, es) => AllRoomy(es, room, nodes)
    case TMap(es) => |es| <= 256 && MapRoomy(es, room, nodes)
    case _ => true
  }

  lemma {:induction false} HeadAndRest(t: Term, s: State)
    requires Fits(t) && Going(s) && s.left > 0
    ensures Fingerprint(t, s) == Rest(t, Entered(t, s))
    ensures Encoding(t) == Flat(Header(t)) + RestText(t)
    ensures var head := |Flat(Header(t))|;
            Roomy(t, s.max - |s.buf|, s.left)
            <==> !t.TDepthCut? && |s.buf| + head <= s.max && RestRoomy(t, s.max - |s.buf| - head, s.left - 1)
  {
    hide Entered, FingerprintAll, FingerprintEntries, EncodingAll, MapBytes, Flat, Header, AllRoomy, EntriesRoomy;
  }

  lemma {:induction false} RestKeeps(t: Term, m: State)
    requires Fits(t) && Sane(m) && m.incomplete
    ensures Rest(t, m).incomplete
  {
    match t {
      case TBox(_, e) => CutsStay(e, m);
      case TList(_, es) => CutsStayAll(es, m);
      case TMap(es) => EntriesKeep(es, m);
      case _ =>
    }
  }

  lemma {:induction false} EntriesKeep(es: seq<Entry<Term>>, m: State)
    requires EntriesFit(es) && Sane(m) && m.incomplete
    ensures FingerprintEntries(es, m).incomplete
  {
    if !FingerprintEntries(es, m).incomplete { CompleteIsWholeEntries(es, m); }
  }

  /** A fingerprint that nothing has cut so far goes on whole, with every node
      counted, if there is room for all the parts; and else it is cut. */
  lemma {:induction false} CompleteIffRoomy(t: Term, s: State)
    requires Fits(t) && Going(s)
    ensures Decided(s, Fingerprint(t, s), Roomy(t, s.max - |s.buf|, s.left), Encoding(t), Visits(t))
    decreases t, 1
  {
    hide *;
    StartsSane(s);
    if s.left == 0 {
      NothingLeft(t, s);
      CutIs(s, Fingerprint(t, s), Encoding(t), Visits(t));
    } else {
      var m, head := Entered(t, s), Flat(Header(t));
      var first := !t.TDepthCut? && |s.buf| + |head| <= s.max;
      HeadDecided(t, s);
      HeadAndRest(t, s);
      GoesOn(s, m, first, head, 1);
      if first { RestDecided(t, m); } else { RestKeeps(t, m); }
      ThenDecided(s, m, Rest(t, m), first, head, 1, first && RestRoomy(t, s.max - |s.buf| - |head|, s.left - 1),
        RestText(t), Visits(t) - 1);
    }
  }

  lemma {:induction false} StartsSane(s: State)
    requires Going(s)
    ensures !s.full && !s.incomplete
  {
  }

  lemma {:induction false} NothingLeft(t: Term, s: State)
    requires Fits(t) && Going(s) && s.left == 0
    ensures Fingerprint(t, s).incomplete && !Roomy(t, s.max - |s.buf|, s.left)
  {
  }

  lemma {:induction false} RestOfBox(t: Term, m: State, room: nat, nodes: int)
    requires Fits(t) && t.TBox?
    ensures Fits(t.elem) && Rest(t, m) == Fingerprint(t.elem, m) && RestText(t) == Encoding(t.elem)
    ensures Visits(t) - 1 == Visits(t.elem) && RestRoomy(t, room, nodes) == Roomy(t.elem, room, nodes)
  {
    hide Fingerprint, Encoding, Roomy;
  }

  lemma {:induction false} RestOfList(t: Term, m: State, room: nat, nodes: int)
    requires Fits(t) && t.TList?
    ensures AllFit(t.elems) && Rest(t, m) == FingerprintAll(t.elems, m) && RestText(t) == EncodingAll(t.elems)
    ensures Visits(t) - 1 == VisitsAll(t.elems) && RestRoomy(t, room, nodes) == AllRoomy(t.elems, room, nodes)
  {
    hide FingerprintAll, EncodingAll, AllRoomy;
  }

  lemma {:induction false} RestOfMap(t: Term, m: State, room: nat, nodes: int)
    requires Fits(t) && t.TMap?
    ensures EntriesFit(t.entries) && RestText(t) == MapBytes(EntryPrints(t.entries))
    ensures Visits(t) - 1 == Sorting(|t.entries|) + VisitsEntries(t.entries)
    ensures RestRoomy(t, room, nodes) == (|t.entries| <= 256 && MapRoomy(t.entries, room, nodes))
    ensures Rest(t, m) == if |t.entries| > 256 then m.(incomplete := true) else FingerprintEntries(t.entries, m)
  {
    hide FingerprintEntries, MapBytes, EntryPrints, EntriesRoomy, VisitsEntries, Sorting;
  }

  lemma {:induction false} RestOfOthers(t: Term, m: State, room: nat, nodes: int)
    requires Fits(t) && !t.TBox? && !t.TList? && !t.TMap?
    ensures Rest(t, m) == m && RestText(t) == [] && Visits(t) - 1 == 0 && RestRoomy(t, room, nodes)
  {
  }

  lemma {:induction false} RestDecided(t: Term, m: State)
    requires Fits(t) && Going(m) && !t.TDepthCut?
    ensures Decided(m, Rest(t, m), RestRoomy(t, m.max - |m.buf|, m.left), RestText(t), Visits(t) - 1)
    decreases t, 0
  {
    hide *;
    var room, nodes := m.max - |m.buf|, m.left;
    if t.TBox? {
      RestOfBox(t, m, room, nodes);
      CompleteIffRoomy(t.elem, m);
    } else if t.TList? {
      RestOfList(t, m, room, nodes);
      AllCompleteIffRoomy(t.elems, m);
    } else if t.TMap? {
      RestOfMap(t, m, room, nodes);
      if |t.entries| <= 256 {
        MapCompleteIffRoomy(t.entries, m);
      } else {
        CutIs(m, Rest(t, m), RestText(t), Visits(t) - 1);
      }
    } else {
      RestOfOthers(t, m, room, nodes);
      DoneAlready(m);
    }
  }

  lemma {:induction false} DoneAlready(m: State)
    ensures Decided(m, m, true, [], 0)
  {
    Sequences.NothingAdded(m.buf);
  }

  /** What Decided leaves for what comes next. */
  lemma {:induction false} GoesOn(s: State, m: State, whole: bool, text: seq<Byte>, visits: nat)
    requires Going(s) && Decided(s, m, whole, text, visits)
    ensures whole ==> Going(m) && m.max - |m.buf| == s.max - |s.buf| - |text| && m.left == s.left - visits
    ensures !whole ==> m.incomplete
  {
  }

  lemma {:induction false} GoingIsSane(s: State)
    requires Going(s)
    ensures Sane(s)
  {
  }

  lemma {:induction false} StartGoes(room: nat, nodes: nat)
    ensures var s := Start(room, nodes); Going(s) && s.max == room && |s.buf| == 0 && s.left == nodes
  {
  }

  lemma {:induction false} AllParts(es: seq<Term>)
    requires AllFit(es)
    ensures es != [] ==> Fits(es[0]) && AllFit(es[1..])
  {
    hide Fits;
  }

  lemma {:induction false} AllStep(es: seq<Term>, s: State, room: int, nodes: int)
    requires AllFit(es) && es != [] && Going(s)
    ensures AllFit(es[1..]) && Fits(es[0])
    ensures FingerprintAll(es, s) == FingerprintAll(es[1..], Fingerprint(es[0], s))
    ensures EncodingAll(es) == Encoding(es[0]) + EncodingAll(es[1..])
    ensures VisitsAll(es) == Visits(es[0]) + VisitsAll(es[1..])
    ensures AllRoomy(es, room, nodes)
            <==> Roomy(es[0], room, nodes) && AllRoomy(es[1..], room - |Encoding(es[0])|, nodes - Visits(es[0]))
  {
    hide Fingerprint, Encoding, Visits, Roomy;
  }

  lemma {:induction false} NoParts(s: State, room: int, nodes: int)
    ensures FingerprintAll([], s) == s && EncodingAll([]) == [] && VisitsAll([]) == 0 && AllRoomy([], room, nodes)
  {
  }

  lemma {:induction false} AllCompleteIffRoomy(es: seq<Term>, s: State)
    requires AllFit(es) && Going(s)
    ensures Decided(s, FingerprintAll(es, s), AllRoomy(es, s.max - |s.buf|, s.left), EncodingAll(es), VisitsAll(es))
    decreases es, 2
  {
    hide *;
    var room, nodes := s.max - |s.buf|, s.left;
    AllParts(es);
    if es == [] {
      NoParts(s, room, nodes);
      DoneAlready(s);
    } else {
      var e, rest := es[0], es[1..];
      var m := Fingerprint(e, s);
      AllStep(es, s, room, nodes);
      GoingIsSane(s);
      CutsStay(e, s);
      CompleteIffRoomy(e, s);
      CutsStayAll(rest, m);
      var first := Roomy(e, room, nodes);
      GoesOn(s, m, first, Encoding(e), Visits(e));
      if first { AllCompleteIffRoomy(rest, m); }
      ThenDecided(s, m, FingerprintAll(rest, m), first, Encoding(e), Visits(e),
        AllRoomy(rest, room - |Encoding(e)|, nodes - Visits(e)), EncodingAll(rest), VisitsAll(rest));
    }
  }

  lemma {:induction false} EntryCompleteIffRoomy(e: Entry<Term>, room: nat, nodes: nat)
    requires Fits(e.key) && Fits(e.val)
    ensures Decided(Start(room, nodes), FingerprintEntry(e, room, nodes), EntryRoomy(e, room, nodes),
                    EntryEncoding(e), EntryVisits(e))
    decreases e, 2
  {
    hide *;
    var s := Start(room, nodes);
    var m := Fingerprint(e.key, s);
    StartGoes(room, nodes);
    GoingIsSane(s);
    CutsStay(e.key, s);
    CompleteIffRoomy(e.key, s);
    CutsStay(e.val, m);
    var first := Roomy(e.key, room, nodes);
    GoesOn(s, m, first, Encoding(e.key), Visits(e.key));
    if first { CompleteIffRoomy(e.val, m); }
    EntryStep(e, room, nodes);
    ThenDecided(s, m, Fingerprint(e.val, m), first, Encoding(e.key), Visits(e.key),
      Roomy(e.val, room - |Encoding(e.key)|, nodes - Visits(e.key)), Encoding(e.val), Visits(e.val));
  }

  lemma {:induction false} EntryStep(e: Entry<Term>, room: nat, nodes: nat)
    requires Fits(e.key) && Fits(e.val)
    ensures FingerprintEntry(e, room, nodes) == Fingerprint(e.val, Fingerprint(e.key, Start(room, nodes)))
    ensures EntryEncoding(e) == Encoding(e.key) + Encoding(e.val) && EntryVisits(e) == Visits(e.key) + Visits(e.val)
    ensures EntryRoomy(e, room, nodes) ==
            (Roomy(e.key, room, nodes) && Roomy(e.val, room - |Encoding(e.key)|, nodes - Visits(e.key)))
  {
    hide Fingerprint, Encoding, Visits, Roomy;
  }

  // ---- The entries of a map ----

  ghost predicate AllDone(subs: seq<State>, es: seq<Entry<Term>>, room: nat, share: nat)
    requires EntriesFit(es)
  {
    |subs| == |es| && forall i :: 0 <= i < |es| ==> Done(subs[i], es[i], room, share)
  }

  ghost predicate Done(sub: State, e: Entry<Term>, room: nat, share: nat)
    requires Fits(e.key) && Fits(e.val)
  {
    && |EntryEncoding(e)| <= room && EntryVisits(e) <= share
    && sub == Wrote(Start(room, share), EntryEncoding(e), EntryVisits(e))
  }

  lemma {:induction false} UsedIsVisits(subs: seq<State>, es: seq<Entry<Term>>, room: nat, share: nat)
    requires EntriesFit(es) && AllDone(subs, es, room, share)
    ensures |subs| == |es|
    ensures forall i :: 0 <= i < |subs| ==> subs[i].left <= share && !subs[i].nodeCut && !subs[i].incomplete
    ensures Used(subs, share) == VisitsEntries(es) && !AnyNodeCut(subs) && Prints(subs) == EntryPrints(es)
  {
    forall i | 0 <= i < |subs|
      ensures subs[i].left <= share && !subs[i].nodeCut && !subs[i].incomplete && subs[i].buf == EntryEncoding(es[i])
    {
      assert Done(subs[i], es[i], room, share);
      Sequences.NothingAdded(EntryEncoding(es[i]));
    }
    if es != [] { UsedIsVisits(subs[1..], es[1..], room, share); }
  }

  lemma {:induction false} WritePrintsDecided(ps: seq<Print>, s: State)
    requires Going(s) && forall i :: 0 <= i < |ps| ==> ps[i].complete
    ensures Decided(s, WritePrints(ps, s), |s.buf| + |PrintsBytes(ps)| <= s.max, PrintsBytes(ps), 0)
  {
    if ps == [] {
      Sequences.NothingAdded(s.buf);
    } else {
      var m := Write(s, PrintBytes(ps[0]));
      if !m.full {
        WritePrintsDecided(ps[1..], m);
        Assoc(s.buf, PrintBytes(ps[0]), PrintsBytes(ps[1..]));
      }
    }
  }

  lemma {:induction false} EntriesDecided(es: seq<Entry<Term>>, room: nat, share: nat)
    requires EntriesFit(es)
    ensures var subs := EntryStates(es, room, share);
            if AllEntriesRoomy(es, room, share) then AllDone(subs, es, room, share)
            else exists i :: 0 <= i < |subs| && subs[i].incomplete
    decreases es, -1
  {
    var subs := EntryStates(es, room, share);
    forall i | 0 <= i < |es|
      ensures if EntryRoomy(es[i], room, share) then Done(subs[i], es[i], room, share) else subs[i].incomplete
    {
      EntryCompleteIffRoomy(es[i], room, share);
      EntryStateAt(es, room, share, i);
    }
    hide EntryRoomy, EntryStates, Done;
    if i :| 0 <= i < |es| && !EntryRoomy(es[i], room, share) { assert subs[i].incomplete; }
  }

  /** All entries of a map done, writing them is a matter of room. */
  lemma {:induction false} FinishDecided(subs: seq<State>, es: seq<Entry<Term>>, m: State, room: nat, share: nat)
    requires EntriesFit(es) && Going(m) && AllDone(subs, es, room, share)
    requires forall i :: 0 <= i < |subs| ==> subs[i].left <= share
    requires SortCost(|es|) <= m.left && Times(|es|, share) <= m.left - SortCost(|es|)
    ensures Decided(m, FinishMap(subs, m, share), |MapBytes(EntryPrints(es))| <= m.max - |m.buf|,
                    MapBytes(EntryPrints(es)), SortCost(|es|) + VisitsEntries(es))
  {
    hide *;
    SameLength(subs, es, room, share);
    UsedIsVisits(subs, es, room, share);
    ChargedIs(subs, m, share);
    FinishIsWrite(subs, es, m, share);
    var c, ps := Charged(m, subs, share), Sort(EntryPrints(es));
    WritePrintsDecided(ps, c);
    PaidFirst(m, c, WritePrints(ps, c), PrintsBytes(ps), SortCost(|es|) + VisitsEntries(es));
  }

  lemma {:induction false} SameLength(subs: seq<State>, es: seq<Entry<Term>>, room: nat, share: nat)
    requires EntriesFit(es) && AllDone(subs, es, room, share)
    ensures |subs| == |es|
  {
  }

  lemma {:induction false} FinishIsWrite(subs: seq<State>, es: seq<Entry<Term>>, m: State, share: nat)
    requires EntriesFit(es) && Prints(subs) == EntryPrints(es)
    requires forall i :: 0 <= i < |subs| ==> subs[i].left <= share
    requires SortCost(|subs|) <= m.left && Times(|subs|, share) <= m.left - SortCost(|subs|)
    ensures FinishMap(subs, m, share) == WritePrints(Sort(EntryPrints(es)), Charged(m, subs, share))
    ensures MapBytes(EntryPrints(es)) == PrintsBytes(Sort(EntryPrints(es)))
    ensures forall i :: 0 <= i < |Sort(EntryPrints(es))| ==> Sort(EntryPrints(es))[i].complete
  {
    SortSorts(EntryPrints(es));
    SortedAllComplete(EntryPrints(es));
    hide Sort, SortCost, Times, EntryEncoding, Charged, WritePrints;
  }

  lemma {:induction false} ChargedIs(subs: seq<State>, m: State, share: nat)
    requires Going(m) && forall i :: 0 <= i < |subs| ==> subs[i].left <= share
    requires SortCost(|subs|) <= m.left && Times(|subs|, share) <= m.left - SortCost(|subs|)
    requires !AnyNodeCut(subs)
    ensures SortCost(|subs|) + Used(subs, share) <= m.left
    ensures Charged(m, subs, share) == m.(left := m.left - (SortCost(|subs|) + Used(subs, share)))
    ensures Going(Charged(m, subs, share))
  {
    hide SortCost, Times, Used;
  }

  lemma {:induction false} PaidFirst(m: State, c: State, r: State, text: seq<Byte>, visits: nat)
    requires visits <= m.left && c == m.(left := m.left - visits)
    requires Decided(c, r, |c.buf| + |text| <= c.max, text, 0)
    ensures Decided(m, r, |text| <= m.max - |m.buf|, text, visits)
  {
  }

  lemma {:induction false} MapCompleteIffRoomy(es: seq<Entry<Term>>, m: State)
    requires EntriesFit(es) && Going(m)
    ensures Decided(m, FingerprintEntries(es, m), MapRoomy(es, m.max - |m.buf|, m.left), MapBytes(EntryPrints(es)),
                    Sorting(|es|) + VisitsEntries(es))
    decreases es, 1
  {
    hide *;
    SortCostIs(|es|);
    if es == [] {
      NoEntries(es, m);
      DoneAlready(m);
    } else if SortCost(|es|) > m.left {
      NoNodesToSort(es, m);
    } else {
      MapPaidFor(es, m);
    }
  }

  lemma {:induction false} NoNodesToSort(es: seq<Entry<Term>>, m: State)
    requires EntriesFit(es) && Going(m) && es != [] && SortCost(|es|) > m.left
    ensures Decided(m, FingerprintEntries(es, m), MapRoomy(es, m.max - |m.buf|, m.left), MapBytes(EntryPrints(es)),
                    Sorting(|es|) + VisitsEntries(es))
  {
    SortCostIs(|es|);
    assert !MapRoomy(es, m.max - |m.buf|, m.left) && FingerprintEntries(es, m).incomplete by {
      hide EntryRoomy, EntryPrints, MapBytes, SortCost, Digits, EntryStates, FinishMap;
    }
    hide EntriesRoomy, FingerprintEntries, MapRoomy, MapBytes, EntryPrints, VisitsEntries, Digits;
  }

  lemma {:induction false} MapPaidFor(es: seq<Entry<Term>>, m: State)
    requires EntriesFit(es) && Going(m) && es != [] && SortCost(|es|) <= m.left
    ensures Decided(m, FingerprintEntries(es, m), MapRoomy(es, m.max - |m.buf|, m.left), MapBytes(EntryPrints(es)),
                    Sorting(|es|) + VisitsEntries(es))
    decreases es, 0
  {
    hide *;
    var n := |es|;
    var room, share := RoomShare(m, n), NodeShare(m, n);
    var subs := EntryStates(es, room, share);
    MapStep(es, m);
    EntriesDecided(es, room, share);
    SortCostIs(n);
    if AllEntriesRoomy(es, room, share) {
      FinishDecided(subs, es, m, room, share);
    } else {
      Unfinished(subs, m, share);
      CutIs(m, FinishMap(subs, m, share), MapBytes(EntryPrints(es)), SortCost(n) + VisitsEntries(es));
    }
  }

  lemma {:induction false} CutIs(m: State, r: State, text: seq<Byte>, visits: nat)
    requires r.incomplete
    ensures Decided(m, r, false, text, visits)
  {
  }

  lemma {:induction false} Unfinished(subs: seq<State>, m: State, share: nat)
    requires forall i :: 0 <= i < |subs| ==> subs[i].left <= share
    requires SortCost(|subs|) <= m.left && Times(|subs|, share) <= m.left - SortCost(|subs|) && Going(m)
    requires exists i :: 0 <= i < |subs| && subs[i].incomplete
    ensures FinishMap(subs, m, share).incomplete
  {
    hide SortCost, Times, FinishMap;
    if !FinishMap(subs, m, share).incomplete { FinishedWhole(subs, m, share); }
  }

  ghost predicate AllEntriesRoomy(es: seq<Entry<Term>>, room: nat, share: nat)
    requires EntriesFit(es)
  {
    forall i :: 0 <= i < |es| ==> EntryRoomy(es[i], room, share)
  }

  lemma {:induction false} NoEntries(es: seq<Entry<Term>>, m: State)
    requires es == []
    ensures MapBytes(EntryPrints(es)) == [] && FingerprintEntries(es, m) == m && VisitsEntries(es) == 0
    ensures MapRoomy(es, m.max - |m.buf|, m.left) && Sorting(|es|) == 0
  {
  }

  /** What the entries of a map get, and what is done with them. */
  lemma {:induction false} MapStep(es: seq<Entry<Term>>, m: State)
    requires EntriesFit(es) && es != [] && Going(m) && SortCost(|es|) <= m.left
    ensures var room, share := RoomShare(m, |es|), NodeShare(m, |es|);
            var subs := EntryStates(es, room, share);
            && |subs| == |es| && Times(|es|, share) <= m.left - SortCost(|es|)
            && (forall i :: 0 <= i < |subs| ==> subs[i].left <= share)
            && FingerprintEntries(es, m) == FinishMap(subs, m, share)
            && (MapRoomy(es, m.max - |m.buf|, m.left)
                <==> |MapBytes(EntryPrints(es))| <= m.max - |m.buf| && AllEntriesRoomy(es, room, share))
  {
    hide *;
    MapShares(es, m);
    SortCostIs(|es|);
    MapRoomyIs(es, m.max - |m.buf|, m.left, RoomShare(m, |es|), NodeShare(m, |es|));
  }

  lemma {:induction false} MapShares(es: seq<Entry<Term>>, m: State)
    requires EntriesFit(es) && es != [] && Going(m) && SortCost(|es|) <= m.left
    ensures RoomShare(m, |es|) == (m.max - |m.buf|) / |es| && NodeShare(m, |es|) == (m.left - SortCost(|es|)) / |es|
    ensures var share := NodeShare(m, |es|);
            var subs := EntryStates(es, RoomShare(m, |es|), share);
            && |subs| == |es| && Times(|es|, share) <= m.left - SortCost(|es|)
            && FingerprintEntries(es, m) == FinishMap(subs, m, share)
  {
    hide EntryStates, FinishMap, SortCost, Times;
  }

  lemma {:induction false} MapRoomyIs(es: seq<Entry<Term>>, room: nat, nodes: int, each: nat, share: nat)
    requires EntriesFit(es) && es != [] && nodes >= Sorting(|es|)
    requires each == room / |es| && share == (nodes - Sorting(|es|)) / |es|
    ensures MapRoomy(es, room, nodes) <==> |MapBytes(EntryPrints(es))| <= room && AllEntriesRoomy(es, each, share)
  {
    hide Sorting, EntryRoomy, MapBytes, EntryPrints;
  }

  /** The fingerprint of a value is complete exactly when there is room for every
      part; then it is the whole encoding, and every node visited is one of the
      value's. */
  lemma {:induction false} CompleteExactly(t: Term, allowance: nat)
    requires Fits(t)
    ensures var r := Computed(t, allowance);
            && (!r.incomplete <==> Roomy(t, 4096, allowance))
            && (!r.incomplete ==> r.buf == Encoding(t) && allowance - r.left == Visits(t))
  {
    CompleteIffRoomy(t, Start(MAX_BYTES, allowance));
    Sequences.NothingAdded(Encoding(t));
    hide Roomy, Fingerprint, Encoding, Visits;
  }

  // ---- What is left of a fingerprint that was cut ----

  predicate Mapless(t: Term)
    decreases t, 0
  {
    match t
    case TBox(_, e) => Mapless(e)
    case TList(_, es) => AllMapless(es)
    case TMap(_) => false
    case _ => true
  }

  predicate AllMapless(es: seq<Term>)
    decreases es, 0
  {
    forall i :: 0 <= i < |es| ==> Mapless(es[i])
  }

  /** r goes on from s with as much of text as it has room for, in order. */
  ghost predicate Continues(s: State, r: State, text: seq<Byte>) {
    && s.buf <= r.buf && (s.full ==> r.full)
    && r.buf <= s.buf + text && (!r.full ==> r.buf == s.buf + text)
  }

  lemma {:induction false} ContinuesOn(s: State, m: State, r: State, a: seq<Byte>, b: seq<Byte>)
    requires Continues(s, m, a) && (if m.full then r == m else Continues(m, r, b))
    ensures Continues(s, r, a + b)
  {
    Assoc(s.buf, a, b);
    assert s.buf + a <= s.buf + a + b;
  }

  lemma {:induction false} WriteAllContinues(s: State, chunks: seq<seq<Byte>>)
    ensures Continues(s, WriteAll(s, chunks), Flat(chunks))
    decreases chunks
  {
    if chunks == [] {
      Sequences.NothingAdded(s.buf);
    } else {
      var m := Write(s, chunks[0]);
      WriteAllContinues(m, chunks[1..]);
      if m.full { FullStays(m, chunks[1..]); }
      hide WriteAll;
      ContinuesOn(s, m, WriteAll(m, chunks[1..]), chunks[0], Flat(chunks[1..]));
    }
  }

  lemma {:induction false} FullStays(s: State, chunks: seq<seq<Byte>>)
    requires s.full
    ensures WriteAll(s, chunks) == s
    decreases chunks
  {
    if chunks != [] { FullStays(s, chunks[1..]); }
  }

  lemma {:induction false} HeadContinues(t: Term, s: State)
    requires Fits(t) && s.left > 0
    ensures Continues(s, Entered(t, s), Flat(Header(t)))
  {
    var m: State := s.(left := s.left - 1, incomplete := s.incomplete || t.TDepthCut?);
    WriteAllContinues(m, Header(t));
    hide WriteAll, Flat, Header;
  }

  /** However a fingerprint of a value without maps is cut, it is the beginning of
      its encoding. */
  lemma {:induction false} CutIsPrefix(t: Term, s: State)
    requires Fits(t) && Mapless(t)
    ensures Continues(s, Fingerprint(t, s), Encoding(t))
    decreases t, 1
  {
    hide *;
    if s.full || s.left == 0 {
      NothingWritten(t, s);
    } else {
      var m := Entered(t, s);
      HeadContinues(t, s);
      HeadThenRest(t, s);
      RestStays(t, m);
      if !m.full { RestContinues(t, m); }
      ContinuesOn(s, m, Rest(t, m), Flat(Header(t)), RestText(t));
    }
  }

  lemma {:induction false} NothingWritten(t: Term, s: State)
    requires Fits(t) && (s.full || s.left == 0)
    ensures Continues(s, Fingerprint(t, s), Encoding(t))
  {
  }

  lemma {:induction false} HeadThenRest(t: Term, s: State)
    requires Fits(t) && !s.full && s.left > 0
    ensures Fingerprint(t, s) == Rest(t, Entered(t, s)) && Encoding(t) == Flat(Header(t)) + RestText(t)
  {
    hide Entered, FingerprintAll, FingerprintEntries, EncodingAll, MapBytes, Flat, Header;
  }

  lemma {:induction false} RestStays(t: Term, m: State)
    requires Fits(t) && Mapless(t)
    ensures m.full ==> Rest(t, m) == m
  {
  }

  lemma {:induction false} RestContinues(t: Term, m: State)
    requires Fits(t) && Mapless(t)
    ensures Continues(m, Rest(t, m), RestText(t))
    decreases t, 0
  {
    hide *;
    MaplessParts(t);
    if t.TBox? {
      RestOfBox(t, m, 0, 0);
      CutIsPrefix(t.elem, m);
    } else if t.TList? {
      RestOfList(t, m, 0, 0);
      AllCutIsPrefix(t.elems, m);
    } else {
      RestOfOthers(t, m, 0, 0);
      NothingContinues(m);
    }
  }

  lemma {:induction false} MaplessParts(t: Term)
    requires Mapless(t)
    ensures !t.TMap? && (t.TBox? ==> Mapless(t.elem)) && (t.TList? ==> AllMapless(t.elems))
  {
  }

  lemma {:induction false} NothingContinues(m: State)
    ensures Continues(m, m, [])
  {
    Sequences.NothingAdded(m.buf);
  }

  lemma {:induction false} AllCutIsPrefix(es: seq<Term>, s: State)
    requires AllFit(es) && AllMapless(es)
    ensures Continues(s, FingerprintAll(es, s), EncodingAll(es))
    decreases es, 2
  {
    hide *;
    AllParts(es);
    if es == [] {
      NoParts(s, 0, 0);
      NothingContinues(s);
    } else {
      AllMaplessParts(es);
      AllCutStep(es, s);
      var m := Fingerprint(es[0], s);
      CutIsPrefix(es[0], s);
      if !m.full { AllCutIsPrefix(es[1..], m); }
      ContinuesOn(s, m, FingerprintAll(es, s), Encoding(es[0]), EncodingAll(es[1..]));
    }
  }

  lemma {:induction false} AllMaplessParts(es: seq<Term>)
    requires AllMapless(es) && es != []
    ensures Mapless(es[0]) && AllMapless(es[1..])
  {
    hide Mapless;
  }

  lemma {:induction false} AllCutStep(es: seq<Term>, s: State)
    requires AllFit(es) && es != []
    ensures AllFit(es[1..]) && Fits(es[0]) && EncodingAll(es) == Encoding(es[0]) + EncodingAll(es[1..])
    ensures var m := Fingerprint(es[0], s);
            FingerprintAll(es, s) == if m.full then m else FingerprintAll(es[1..], m)
  {
    hide Encoding, Fits;
    if s.full { FullIsDone(es[0], s); }
    hide Fingerprint;
  }

  lemma {:induction false} FullIsDone(t: Term, s: State)
    requires Fits(t) && s.full
    ensures Fingerprint(t, s) == s
  {
  }
}
