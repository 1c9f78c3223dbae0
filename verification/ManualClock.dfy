/** A clock that moves only when it is told to. */
module ManualClocks {
  import opened Options

  /** The time once the clock was advanced; it is never moved back. */
  function TimeAfter(now: int, ds: seq<int>): int {
    if ds == [] then now
    else
      var d := ds[|ds| - 1];
      TimeAfter(now, ds[..|ds| - 1]) + if d > 0 then d else 0
  }

  /** timers are those still pending, by number. due[t] is when timer t fires;
      channel[t] is its channel, which has room for one value. */
  class ManualClock {
    var now: int
    var timers: seq<nat>
    var due: seq<int>
    var channel: seq<Option<int>>

    ghost predicate Valid()
      reads this
    {
      && |channel| == |due|
      && (forall i :: 0 <= i < |timers| ==> timers[i] < |due| && due[timers[i]] > now && channel[timers[i]].None?)
      && (forall i, j :: 0 <= i < j < |timers| ==> timers[i] != timers[j])
    }

    constructor (start: int)
      ensures Valid() && now == start && timers == [] && due == []
    {
      now, timers, due, channel := start, [], [], [];
    }

    method NewTimer(d: int) returns (t: nat)
      requires Valid()
      modifies this
      ensures Valid() && t == |old(due)| && due == old(due) + [now + d] && now == old(now)
      ensures timers == old(timers) + if d > 0 then [t] else []
      ensures channel == old(channel) + [if d > 0 then None else Some(now)]
    {
      t := |due|;
      due := due + [now + d];
      if d <= 0 {
        channel := channel + [Some(now)];
        return;
      }
      channel := channel + [None];
      timers := timers + [t];
    }

    /** Moves on, and fires what has come due, the earliest first. No timer is
        sent a second value. */
    method Advance(d: int) returns (ghost fired: seq<nat>)
      requires Valid()
      modifies this
      ensures Valid() && due == old(due) && now == if d > 0 then old(now) + d else old(now)
      ensures d <= 0 ==> timers == old(timers) && channel == old(channel) && fired == []
      ensures forall t :: t in timers <==> t in old(timers) && due[t] > now
      ensures forall t :: 0 <= t < |due| ==>
                channel[t] == if t in old(timers) && due[t] <= now then Some(due[t]) else old(channel)[t]
      ensures SortedByDue(fired, due)
      ensures forall t :: t in fired <==> t in old(timers) && due[t] <= now
    {
      fired := [];
      if d <= 0 { return; }
      now := now + d;
      var sorted := SortByDue(timers, due);
      Distinct(timers, sorted);
      Divided(sorted, due, now);
      DividedDistinct(sorted, due, now);
      DividedSorted(sorted, due, now);
      timers, fired := Fire(sorted);
      hide Later, Arrived, SortedByDue;
      forall i | 0 <= i < |timers|
        ensures timers[i] < |due| && due[timers[i]] > now && channel[timers[i]].None?
      {
        var t := timers[i];
        assert t in timers && t in sorted && t in old(timers) && t !in fired;
        var j :| 0 <= j < |old(timers)| && old(timers)[j] == t;
      }
    }

    /** Sends the sorted timers that have come due their values, and keeps the
        others. */
    method Fire(sorted: seq<nat>) returns (kept: seq<nat>, ghost fired: seq<nat>)
      requires |channel| == |due| && (forall i :: 0 <= i < |sorted| ==> sorted[i] < |due|)
      modifies `channel
      ensures kept == Later(sorted, due, now) && fired == Arrived(sorted, due, now)
      ensures |channel| == |due|
      ensures forall t :: 0 <= t < |due| ==> channel[t] == if t in fired then Some(due[t]) else old(channel)[t]
    {
      kept, fired := [], [];
      for i := 0 to |sorted|
        invariant |channel| == |due| && kept == Later(sorted[..i], due, now) && fired == Arrived(sorted[..i], due, now)
        invariant forall t :: 0 <= t < |due| ==> channel[t] == if t in fired then Some(due[t]) else old(channel)[t]
      {
        var t := sorted[i];
        DividedSnoc(sorted, i, due, now);
        hide Later, Arrived;
        if due[t] > now {
          kept := kept + [t];
        } else {
          fired := fired + [t];
          channel := channel[t := Some(due[t])];
        }
      }
      assert sorted[..|sorted|] == sorted;
    }

    /** Cancels a timer and says whether it was pending. */
    method Stop(t: nat) returns (was: bool)
      requires Valid()
      modifies `timers
      ensures Valid() && was == (t in old(timers))
      ensures forall u :: u in timers <==> u in old(timers) && u != t
    {
      was := t in timers;
      if !was { return; }
      var i := 0;
      while timers[i] != t
        invariant 0 <= i < |timers| && t in timers[i..] && timers == old(timers)
        decreases |timers| - i
      {
        assert timers[i..] == [timers[i]] + timers[i + 1..];
        i := i + 1;
      }
      ghost var front, back := timers[..i], timers[i + 1..];
      assert timers == front + [t] + back;
      timers := timers[..i] + timers[i + 1..];
      assert t !in front && t !in back;
    }

    /** Takes the value of a timer that fired, if it is still there. */
    method Receive(t: nat) returns (v: Option<int>)
      requires Valid() && t < |due|
      modifies `channel
      ensures Valid() && v == old(channel)[t] && channel == old(channel)[t := None]
    {
      v := channel[t];
      channel := channel[t := None];
    }

    method Drive(ds: seq<int>)
      requires Valid()
      modifies this
      ensures Valid() && due == old(due) && now == TimeAfter(old(now), ds) >= old(now)
      ensures forall t :: t in timers <==> t in old(timers) && due[t] > now
      ensures forall t :: 0 <= t < |due| ==>
                channel[t] == if t in old(timers) && due[t] <= now then Some(due[t]) else old(channel)[t]
    {
      for i := 0 to |ds|
        invariant Valid() && due == old(due) && now == TimeAfter(old(now), ds[..i]) >= old(now)
        invariant forall t :: t in timers <==> t in old(timers) && due[t] > now
        invariant forall t :: 0 <= t < |due| ==>
                    channel[t] == if t in old(timers) && due[t] <= now then Some(due[t]) else old(channel)[t]
      {
        assert ds[..i + 1][..i] == ds[..i];
        ghost var fired := Advance(ds[i]);
      }
      assert ds[..|ds|] == ds;
    }
  }

  lemma {:induction false} Distinct(a: seq<nat>, b: seq<nat>)
    requires multiset(a) == multiset(b) && forall i, j :: 0 <= i < j < |a| ==> a[i] != a[j]
    ensures forall i, j :: 0 <= i < j < |b| ==> b[i] != b[j]
    ensures forall t :: t in a <==> t in b
  {
    forall t ensures t in a <==> t in b {
      assert t in a <==> multiset(a)[t] > 0;
      assert t in b <==> multiset(b)[t] > 0;
    }
    forall i, j | 0 <= i < j < |b| ensures b[i] != b[j] {
      if b[i] == b[j] { TwiceCounted(b, i, j); OnceCounted(a, b[i]); }
    }
  }

  lemma {:induction false} TwiceCounted(s: seq<nat>, i: nat, j: nat)
    requires i < j < |s| && s[i] == s[j]
    ensures multiset(s)[s[i]] >= 2
  {
    assert s == s[..j] + [s[j]] + s[j + 1..];
    assert s[i] in s[..j];
    assert multiset(s) == multiset(s[..j]) + multiset{s[j]} + multiset(s[j + 1..]);
  }

  lemma {:induction false} OnceCounted(s: seq<nat>, t: nat)
    requires forall i, j :: 0 <= i < j < |s| ==> s[i] != s[j]
    ensures multiset(s)[t] <= 1
  {
    if s != [] {
      var front, last := s[..|s| - 1], s[|s| - 1];
      assert s == front + [last];
      OnceCounted(front, t);
      if t == last { assert last !in front; }
    }
  }

  /** a is due no later than b. */
  ghost predicate NoLater(due: seq<int>, a: nat, b: nat) {
    a < |due| && b < |due| && due[a] <= due[b]
  }

  ghost predicate SortedByDue(s: seq<nat>, due: seq<int>) {
    && (forall i :: 0 <= i < |s| ==> s[i] < |due|)
    && forall i, j :: 0 <= i < j < |s| ==> NoLater(due, s[i], s[j])
  }

  /** Those still to come, and those that have. */
  function Later(s: seq<nat>, due: seq<int>, now: int): seq<nat>
    requires forall i :: 0 <= i < |s| ==> s[i] < |due|
  {
    if s == [] then []
    else Later(s[..|s| - 1], due, now) + if due[s[|s| - 1]] > now then [s[|s| - 1]] else []
  }

  function Arrived(s: seq<nat>, due: seq<int>, now: int): seq<nat>
    requires forall i :: 0 <= i < |s| ==> s[i] < |due|
  {
    if s == [] then []
    else Arrived(s[..|s| - 1], due, now) + if due[s[|s| - 1]] > now then [] else [s[|s| - 1]]
  }

  lemma {:induction false} DividedSnoc(s: seq<nat>, i: nat, due: seq<int>, now: int)
    requires i < |s| && forall j :: 0 <= j < |s| ==> s[j] < |due|
    ensures Later(s[..i + 1], due, now) == Later(s[..i], due, now) + if due[s[i]] > now then [s[i]] else []
    ensures Arrived(s[..i + 1], due, now) == Arrived(s[..i], due, now) + if due[s[i]] > now then [] else [s[i]]
  {
    assert s[..i + 1][..i] == s[..i];
  }

  /** Each timer is on the side its due time says. */
  lemma {:induction false} Divided(s: seq<nat>, due: seq<int>, now: int)
    requires forall i :: 0 <= i < |s| ==> s[i] < |due|
    ensures forall t :: t in Later(s, due, now) <==> t in s && due[t] > now
    ensures forall t :: t in Arrived(s, due, now) <==> t in s && due[t] <= now
  {
    if s != [] {
      var front, t := s[..|s| - 1], s[|s| - 1];
      Divided(front, due, now);
      assert forall x :: x in s <==> x in front || x == t by { assert s == front + [t]; }
    }
  }

  lemma {:induction false} DividedDistinct(s: seq<nat>, due: seq<int>, now: int)
    requires forall i :: 0 <= i < |s| ==> s[i] < |due|
    requires forall i, j :: 0 <= i < j < |s| ==> s[i] != s[j]
    ensures forall i, j :: 0 <= i < j < |Later(s, due, now)| ==> Later(s, due, now)[i] != Later(s, due, now)[j]
  {
    if s != [] {
      var front, t := s[..|s| - 1], s[|s| - 1];
      DividedDistinct(front, due, now);
      Divided(front, due, now);
      assert t !in front;
      var later := Later(front, due, now);
      assert Later(s, due, now) == later + if due[t] > now then [t] else [];
      assert t !in later;
      hide Later;
    }
  }

  lemma {:induction false} DividedSorted(s: seq<nat>, due: seq<int>, now: int)
    requires SortedByDue(s, due)
    ensures SortedByDue(Arrived(s, due, now), due)
  {
    if s != [] {
      var front, t := s[..|s| - 1], s[|s| - 1];
      DividedSorted(front, due, now);
      Divided(front, due, now);
      var arrived := Arrived(front, due, now);
      assert Arrived(s, due, now) == if due[t] > now then arrived else arrived + [t];
      forall i | 0 <= i < |arrived| ensures NoLater(due, arrived[i], t) {
        assert arrived[i] in front;
        var j :| 0 <= j < |front| && front[j] == arrived[i];
        assert NoLater(due, s[j], s[|s| - 1]);
      }
      hide *;
      LastSorted(arrived, t, due);
    }
  }

  lemma {:induction false} LastSorted(s: seq<nat>, t: nat, due: seq<int>)
    requires SortedByDue(s, due) && t < |due| && forall i :: 0 <= i < |s| ==> NoLater(due, s[i], t)
    ensures SortedByDue(s + [t], due)
  {
  }

  lemma {:induction false} InsertedAt(s: seq<nat>, k: nat, t: nat, r: seq<nat>)
    requires k <= |s| && r == s[..k] + [t] + s[k..]
    ensures |r| == |s| + 1 && multiset(r) == multiset(s) + multiset{t}
    ensures forall i :: 0 <= i < |r| ==> r[i] == if i < k then s[i] else if i == k then t else s[i - 1]
  {
    assert s == s[..k] + s[k..];
  }

  lemma {:induction false} StillSorted(s: seq<nat>, k: nat, t: nat, r: seq<nat>, due: seq<int>)
    requires SortedByDue(s, due) && t < |due| && k <= |s| && |r| == |s| + 1
    requires forall i :: 0 <= i < |r| ==> r[i] == if i < k then s[i] else if i == k then t else s[i - 1]
    requires (k > 0 ==> NoLater(due, s[k - 1], t)) && forall i :: k <= i < |s| ==> NoLater(due, t, s[i])
    ensures SortedByDue(r, due)
  {
    forall i | 0 <= i < k ensures NoLater(due, s[i], t) {
      if i < k - 1 { assert NoLater(due, s[i], s[k - 1]); }
    }
    forall i | 0 <= i < |r| ensures r[i] < |due| {
      if i > k { assert NoLater(due, t, s[i - 1]) && r[i] == s[i - 1]; }
      if i < k { assert NoLater(due, s[i], t) && r[i] == s[i]; }
    }
    hide NoLater;
    forall i, j | 0 <= i < j < |r| ensures NoLater(due, r[i], r[j]) {
      if j < k {
        assert NoLater(due, s[i], s[j]);
      } else if i > k {
        assert NoLater(due, s[i - 1], s[j - 1]);
      } else if i < k && j > k {
        assert NoLater(due, s[i], s[j - 1]);
      }
    }
  }

  /** Adds a timer after those due no later than it. */
  method Insert(s: seq<nat>, due: seq<int>, t: nat) returns (r: seq<nat>)
    requires SortedByDue(s, due) && t < |due|
    ensures SortedByDue(r, due) && multiset(r) == multiset(s) + multiset{t}
  {
    var k := FindPlace(s, due, t);
    r := s[..k] + [t] + s[k..];
    hide *;
    InsertedAt(s, k, t, r);
    StillSorted(s, k, t, r, due);
  }

  method FindPlace(s: seq<nat>, due: seq<int>, t: nat) returns (k: nat)
    requires SortedByDue(s, due) && t < |due|
    ensures k <= |s| && (k > 0 ==> NoLater(due, s[k - 1], t))
    ensures forall i :: k <= i < |s| ==> NoLater(due, t, s[i])
  {
    k := |s|;
    while k > 0 && due[s[k - 1]] > due[t]
      invariant 0 <= k <= |s|
      invariant forall i :: k <= i < |s| ==> NoLater(due, t, s[i])
    {
      k := k - 1;
    }
  }

  /** Stable: equal ones keep their order. */
  method SortByDue(timers: seq<nat>, due: seq<int>) returns (sorted: seq<nat>)
    requires forall i :: 0 <= i < |timers| ==> timers[i] < |due|
    ensures multiset(sorted) == multiset(timers) && SortedByDue(sorted, due)
  {
    sorted := [];
    for n := 0 to |timers|
      invariant multiset(sorted) == multiset(timers[..n]) && SortedByDue(sorted, due)
    {
      hide SortedByDue;
      assert timers[..n + 1] == timers[..n] + [timers[n]];
      sorted := Insert(sorted, due, timers[n]);
    }
    assert timers[..|timers|] == timers;
  }
}
