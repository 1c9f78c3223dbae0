/** Keeping the first entries of one class of tied keys, by fingerprint, and
    knowing which of them cannot be told from another entry. */
module WindowClasses {
  import opened Bytes
  import opened Fingerprints
  import opened Meters
  import opened Options
  import opened Windows
  import opened Permutations
  import Ranks

  /** q orders the fingerprints ps as ComparePrints does. */
  ghost predicate OrdersPrints(ps: seq<Print>, q: seq<nat>) {
    && |q| == |ps|
    && forall i, j :: 0 <= i < |ps| && 0 <= j < |ps| ==>
         && (ComparePrints(ps[i], ps[j]) < 0 <==> q[i] < q[j])
         && (ps[i] == ps[j] <==> q[i] == q[j])
  }

  function PrintOrder(ps: seq<Print>): Ranks.Order {
    (i: nat, j: nat) => if i < |ps| && j < |ps| then ComparePrints(ps[i], ps[j]) else 0
  }

  lemma {:induction false} PrintOrderTotal(ps: seq<Print>)
    ensures Ranks.TotalPreorder(PrintOrder(ps), |ps|)
  {
    var cmp, n := PrintOrder(ps), |ps|;
    forall i, j | 0 <= i < n && 0 <= j < n ensures cmp(i, j) == -cmp(j, i) {
      ComparePrintsAntisymmetric(ps[i], ps[j]);
    }
    forall i, j, k | 0 <= i < n && 0 <= j < n && 0 <= k < n && cmp(i, j) <= 0 && cmp(j, k) <= 0
      ensures cmp(i, k) <= 0
    {
      ComparePrintsTransitive(ps[i], ps[j], ps[k]);
    }
  }

  lemma {:induction false} PrintRanks(ps: seq<Print>) returns (q: seq<nat>)
    ensures OrdersPrints(ps, q)
  {
    var cmp, n := PrintOrder(ps), |ps|;
    PrintOrderTotal(ps);
    q := Ranks.RanksOf(cmp, n);
    forall i, j | 0 <= i < n && 0 <= j < n
      ensures ComparePrints(ps[i], ps[j]) < 0 <==> q[i] < q[j]
      ensures ps[i] == ps[j] <==> q[i] == q[j]
    {
      Ranks.RankDecides(cmp, n, i, j);
      assert cmp(i, j) == ComparePrints(ps[i], ps[j]);
    }
  }

  /** Some other entry among s cannot be told from entry x. */
  ghost predicate Twin(ps: seq<Print>, s: set<nat>, x: nat)
    requires x < |ps|
  {
    !ps[x].complete && exists y :: y in s && y < |ps| && y != x && ps[y] == ps[x]
  }

  ghost predicate Sound(ps: seq<Print>, q: seq<nat>, w: seq<Slot>, s: set<nat>)
    requires |q| == |ps|
  {
    && (forall i :: 0 <= i < |w| ==> w[i].entry in s && w[i].entry < |ps| && w[i].fp == Some(ps[w[i].entry]))
    && (forall i, j :: 0 <= i < j < |w| ==> w[i].entry != w[j].entry && q[w[i].entry] <= q[w[j].entry])
  }

  ghost predicate Holds(w: seq<Slot>, x: nat) {
    w != [] && (w[0].entry == x || Holds(w[1..], x))
  }

  lemma {:induction false} HoldsAt(w: seq<Slot>, i: nat)
    requires i < |w|
    ensures Holds(w, w[i].entry)
  {
    if i > 0 { HoldsAt(w[1..], i - 1); }
  }

  lemma {:induction false} FindHeld(w: seq<Slot>, x: nat) returns (i: nat)
    requires Holds(w, x)
    ensures i < |w| && w[i].entry == x
  {
    if w[0].entry == x {
      i := 0;
    } else {
      i := FindHeld(w[1..], x);
      i := i + 1;
    }
  }

  ghost predicate NoneAfter(q: seq<nat>, w: seq<Slot>, c: nat) {
    forall i :: 0 <= i < |w| ==> w[i].entry < |q| && q[w[i].entry] <= c
  }

  /** An entry of s is left out only when need entries not after it are kept. */
  ghost predicate Filled(q: seq<nat>, w: seq<Slot>, s: set<nat>, need: nat) {
    && |w| <= need
    && forall x :: x in s && x < |q| ==> Holds(w, x) || (|w| == need && NoneAfter(q, w, q[x]))
  }

  ghost predicate Flagged(ps: seq<Print>, w: seq<Slot>, s: set<nat>) {
    forall i :: 0 <= i < |w| ==> w[i].entry < |ps| && (w[i].ambiguous <==> Twin(ps, s, w[i].entry))
  }

  /** w is what the window keeps of the entries s of one class. */
  ghost predicate Kept(ps: seq<Print>, q: seq<nat>, w: seq<Slot>, s: set<nat>, need: nat)
    requires |q| == |ps|
  {
    Sound(ps, q, w, s) && Filled(q, w, s, need) && Flagged(ps, w, s)
  }

  /** The slot at i, marked ambiguous. */
  function Mark(w: seq<Slot>, i: nat): (v: seq<Slot>)
    requires i < |w|
    ensures |v| == |w| && forall j :: 0 <= j < |w| ==>
      v[j].entry == w[j].entry && v[j].fp == w[j].fp && v[j].ambiguous == (w[j].ambiguous || j == i)
  {
    w[i := w[i].(ambiguous := true)]
  }

  /** x at pos, dropping the last slot when there is no more room. */
  function Shift(w: seq<Slot>, pos: nat, x: Slot, need: nat): (v: seq<Slot>)
    requires pos <= |w| <= need && pos < need
    ensures |v| == if |w| < need then |w| + 1 else need
    ensures forall i :: 0 <= i < |v| ==> v[i] == if i < pos then w[i] else if i == pos then x else w[i - 1]
  {
    if |w| < need then w[..pos] + [x] + w[pos..] else w[..pos] + [x] + w[pos..|w| - 1]
  }

  /** Entry e goes to pos: slots before it are not after e, slots from it on
      come after. */
  ghost predicate Place(q: seq<nat>, w: seq<Slot>, e: nat, pos: nat) {
    && e < |q| && pos <= |w|
    && forall i :: 0 <= i < |w| ==> w[i].entry < |q| && if i < pos then q[w[i].entry] <= q[e] else q[e] < q[w[i].entry]
  }

  /** Entry e, with fingerprint fp, joins the entries s of its class. */
  method Offer(ghost ps: seq<Print>, ghost q: seq<nat>, w: seq<Slot>, ghost s: set<nat>, need: nat, e: nat, fp: Print)
    returns (v: seq<Slot>)
    requires OrdersPrints(ps, q) && e < |ps| && fp == ps[e] && e !in s && Kept(ps, q, w, s, need)
    ensures Kept(ps, q, v, s + {e}, need)
  {
    v := w;
    var pos: nat, ambiguous := |w|, false;
    while pos > 0
      invariant pos <= |w| && v == w && !ambiguous
      invariant forall i :: pos <= i < |w| ==> w[i].entry < |q| && q[e] < q[w[i].entry]
    {
      var c := ComparePrints(fp, w[pos - 1].fp.value);
      ComparePrintsAntisymmetric(fp, w[pos - 1].fp.value);
      if c == 0 && !fp.complete {
        v, ambiguous := Mark(w, pos - 1), true;
      }
      if c >= 0 { break; }
      pos := pos - 1;
    }
    PlaceFound(ps, q, w, s, e, pos);
    MarkedTwins(ps, q, w, v, s, need, e, pos, ambiguous);
    if pos >= need {
      LeftOut(ps, q, v, s, need, e, pos);
      return v;
    }
    ShiftedIn(ps, q, v, s, need, e, pos, ambiguous);
    v := Shift(v, pos, Slot(e, Some(fp), ambiguous), need);
  }

  lemma {:induction false} PlaceFound(ps: seq<Print>, q: seq<nat>, w: seq<Slot>, s: set<nat>, e: nat, pos: nat)
    requires |q| == |ps| && Sound(ps, q, w, s) && e < |q| && pos <= |w|
    requires forall i :: pos <= i < |w| ==> q[e] < q[w[i].entry]
    requires pos > 0 ==> q[w[pos - 1].entry] <= q[e]
    ensures Place(q, w, e, pos)
  {
  }

  /** After marking, the flags are right for the entries seen with e. */
  lemma {:induction false} MarkedTwins(ps: seq<Print>, q: seq<nat>, w: seq<Slot>, v: seq<Slot>, s: set<nat>, need: nat,
      e: nat, pos: nat, ambiguous: bool)
    requires OrdersPrints(ps, q) && e !in s && Kept(ps, q, w, s, need) && Place(q, w, e, pos)
    requires ambiguous == (pos > 0 && ps[w[pos - 1].entry] == ps[e] && !ps[e].complete)
    requires v == if ambiguous then Mark(w, pos - 1) else w
    ensures Sound(ps, q, v, s) && Filled(q, v, s, need) && Flagged(ps, v, s + {e}) && Place(q, v, e, pos)
  {
    MarkedSlots(w, v, pos, ambiguous);
    assert Sound(ps, q, w, s) && Filled(q, w, s, need) && Flagged(ps, w, s) && |q| == |ps|;
    var t := s + {e};
    hide *;
    SameEntriesKept(ps, q, w, v, s, need, e, pos);
    forall i | 0 <= i < |v| ensures v[i].entry < |ps| && (v[i].ambiguous <==> Twin(ps, t, v[i].entry)) {
      assert v[i].entry == w[i].entry;
      SoundAt(ps, q, w, s, i);
      MarkedTwin(ps, q, w, s, need, e, pos, ambiguous, i);
    }
    AllFlagged(ps, v, t);
  }

  lemma {:induction false} SoundAt(ps: seq<Print>, q: seq<nat>, w: seq<Slot>, s: set<nat>, i: nat)
    requires |q| == |ps| && Sound(ps, q, w, s) && i < |w|
    ensures w[i].entry in s && w[i].entry < |ps|
  {
  }

  lemma {:induction false} AllFlagged(ps: seq<Print>, w: seq<Slot>, s: set<nat>)
    requires forall i :: 0 <= i < |w| ==> w[i].entry < |ps| && (w[i].ambiguous <==> Twin(ps, s, w[i].entry))
    ensures Flagged(ps, w, s)
  {
  }

  lemma {:induction false} MarkedSlots(w: seq<Slot>, v: seq<Slot>, pos: nat, ambiguous: bool)
    requires pos <= |w| && (ambiguous ==> pos > 0) && v == if ambiguous then Mark(w, pos - 1) else w
    ensures |v| == |w|
    ensures forall i :: 0 <= i < |v| ==> v[i].entry == w[i].entry && v[i].fp == w[i].fp
    ensures forall i :: 0 <= i < |v| ==> v[i].ambiguous == (w[i].ambiguous || (ambiguous && i == pos - 1))
  {
  }

  /** The flag of slot i, marked when it is the one before e and a twin of e. */
  lemma {:induction false} MarkedTwin(
      ps: seq<Print>, q: seq<nat>, w: seq<Slot>, s: set<nat>, need: nat, e: nat, pos: nat, ambiguous: bool, i: nat)
    requires OrdersPrints(ps, q) && e !in s && Sound(ps, q, w, s) && Flagged(ps, w, s) && Place(q, w, e, pos) && i < |w|
    requires ambiguous == (pos > 0 && ps[w[pos - 1].entry] == ps[e] && !ps[e].complete)
    ensures (w[i].ambiguous || (ambiguous && i == pos - 1)) <==> Twin(ps, s + {e}, w[i].entry)
  {
    var x := w[i].entry;
    TwinGrows(ps, s, e, x);
    if ps[x] == ps[e] && !ps[e].complete {
      TwinBefore(ps, q, w, s, e, pos, i);
    }
  }

  /** A truncated twin of e stands right before e, or has a twin that does. */
  lemma {:induction false} TwinBefore(ps: seq<Print>, q: seq<nat>, w: seq<Slot>, s: set<nat>, e: nat, pos: nat, i: nat)
    requires OrdersPrints(ps, q) && e !in s && Sound(ps, q, w, s) && Place(q, w, e, pos) && i < |w|
    requires ps[w[i].entry] == ps[e] && !ps[e].complete
    ensures i < pos && ps[w[pos - 1].entry] == ps[e]
    ensures i < pos - 1 ==> Twin(ps, s, w[i].entry)
  {
    var x := w[i].entry;
    SameRank(ps, q, x, e);
    var y := w[pos - 1].entry;
    assert q[x] <= q[y] <= q[e];
    SameRank(ps, q, y, e);
    if i < pos - 1 {
      assert y in s && y != x;
    }
  }

  lemma {:induction false} SameRank(ps: seq<Print>, q: seq<nat>, x: nat, y: nat)
    requires OrdersPrints(ps, q) && x < |ps| && y < |ps|
    ensures q[x] == q[y] <==> ps[x] == ps[y]
  {
  }

  lemma {:induction false} SameEntriesKept(
      ps: seq<Print>, q: seq<nat>, w: seq<Slot>, v: seq<Slot>, s: set<nat>, need: nat, e: nat, pos: nat)
    requires |q| == |ps| && Sound(ps, q, w, s) && Filled(q, w, s, need) && Place(q, w, e, pos)
    requires |v| == |w| && forall i :: 0 <= i < |v| ==> v[i].entry == w[i].entry && v[i].fp == w[i].fp
    ensures Sound(ps, q, v, s) && Filled(q, v, s, need) && Place(q, v, e, pos)
  {
    forall x | x in s && x < |q| ensures Holds(v, x) || (|v| == need && NoneAfter(q, v, q[x])) {
      if Holds(w, x) {
        var i := FindHeld(w, x);
        HoldsAt(v, i);
      }
    }
  }

  lemma {:induction false} TwinGrows(ps: seq<Print>, s: set<nat>, e: nat, x: nat)
    requires x < |ps| && e < |ps| && x != e
    ensures Twin(ps, s + {e}, x) <==> Twin(ps, s, x) || (!ps[x].complete && ps[e] == ps[x])
  {
    if !ps[x].complete && ps[e] == ps[x] {
      assert e in s + {e};
    }
    if Twin(ps, s, x) {
      var y :| y in s && y < |ps| && y != x && ps[y] == ps[x];
      assert y in s + {e};
    }
  }

  lemma {:induction false} LeftOut(ps: seq<Print>, q: seq<nat>, v: seq<Slot>, s: set<nat>, need: nat, e: nat, pos: nat)
    requires |q| == |ps| && Sound(ps, q, v, s) && Filled(q, v, s, need) && Flagged(ps, v, s + {e})
    requires Place(q, v, e, pos) && pos >= need
    ensures Kept(ps, q, v, s + {e}, need)
  {
    assert NoneAfter(q, v, q[e]);
  }

  lemma {:induction false} ShiftedIn(ps: seq<Print>, q: seq<nat>, v: seq<Slot>, s: set<nat>, need: nat, e: nat,
      pos: nat, ambiguous: bool)
    requires OrdersPrints(ps, q) && e !in s && Sound(ps, q, v, s) && Filled(q, v, s, need) && Flagged(ps, v, s + {e})
    requires Place(q, v, e, pos) && pos < need
    requires ambiguous == (pos > 0 && ps[v[pos - 1].entry] == ps[e] && !ps[e].complete)
    ensures Kept(ps, q, Shift(v, pos, Slot(e, Some(ps[e]), ambiguous), need), s + {e}, need)
  {
    var x := Slot(e, Some(ps[e]), ambiguous);
    ShiftedSound(ps, q, v, s, need, e, pos, x);
    ShiftedFilled(q, v, s, need, e, pos, x);
    NewFlag(ps, q, v, s, need, e, pos, ambiguous);
  }

  lemma {:induction false} ShiftedSound(ps: seq<Print>, q: seq<nat>, v: seq<Slot>, s: set<nat>, need: nat, e: nat,
      pos: nat, x: Slot)
    requires |q| == |ps| && e !in s && Sound(ps, q, v, s) && |v| <= need && Place(q, v, e, pos) && pos < need
    requires x.entry == e && x.fp == Some(ps[e])
    ensures Sound(ps, q, Shift(v, pos, x, need), s + {e})
  {
  }

  lemma {:induction false} ShiftedFilled(q: seq<nat>, v: seq<Slot>, s: set<nat>, need: nat, e: nat, pos: nat, x: Slot)
    requires Filled(q, v, s, need) && Place(q, v, e, pos) && pos < need && x.entry == e
    requires forall i, j :: 0 <= i < j < |v| ==> q[v[i].entry] <= q[v[j].entry]
    ensures Filled(q, Shift(v, pos, x, need), s + {e}, need)
  {
    var u := Shift(v, pos, x, need);
    forall y | y in s + {e} && y < |q| ensures Holds(u, y) || (|u| == need && NoneAfter(q, u, q[y])) {
      if y == e {
        HoldsAt(u, pos);
      } else if Holds(v, y) {
        var i := FindHeld(v, y);
        if i < pos {
          HoldsAt(u, i);
        } else if i + 1 < |u| {
          HoldsAt(u, i + 1);
        } else {
          PushedOut(q, v, need, e, pos, x, y);
        }
      } else {
        PushedOut(q, v, need, e, pos, x, y);
      }
    }
  }

  /** After e went in, an entry y after every slot is still after every slot. */
  lemma {:induction false} PushedOut(q: seq<nat>, v: seq<Slot>, need: nat, e: nat, pos: nat, x: Slot, y: nat)
    requires Place(q, v, e, pos) && pos < need && |v| == need && x.entry == e && y < |q| && NoneAfter(q, v, q[y])
    ensures NoneAfter(q, Shift(v, pos, x, need), q[y])
  {
    assert q[e] < q[v[pos].entry];
  }

  /** e's own flag: a twin of e seen before is still kept next to it. */
  lemma {:induction false} NewFlag(ps: seq<Print>, q: seq<nat>, v: seq<Slot>, s: set<nat>, need: nat, e: nat, pos: nat,
      ambiguous: bool)
    requires OrdersPrints(ps, q) && e !in s && Sound(ps, q, v, s) && Filled(q, v, s, need)
    requires Place(q, v, e, pos) && pos < need
    requires ambiguous == (pos > 0 && ps[v[pos - 1].entry] == ps[e] && !ps[e].complete)
    ensures ambiguous <==> Twin(ps, s + {e}, e)
  {
    if ambiguous {
      assert v[pos - 1].entry in s + {e};
    }
    assert pos < |v| ==> q[e] < q[v[pos].entry];
    if Twin(ps, s + {e}, e) {
      var y :| y in s + {e} && y < |ps| && y != e && ps[y] == ps[e];
      if Holds(v, y) {
        var i := FindHeld(v, y);
        assert i < pos && q[v[i].entry] <= q[v[pos - 1].entry] <= q[e];
      }
    }
  }
}
