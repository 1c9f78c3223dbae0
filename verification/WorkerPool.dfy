/** The workers of a parallel run, in every interleaving: each claims a chunk of
    specs from the shared counter, runs them one by one, and stops when there
    are none left. */
module WorkerPools {
  import opened Options
  import opened Claims

  /** claim is the number of the worker's last claim; index the next spec of its
      chunk, or the one running. */
  datatype Phase = Ready | Between(claim: nat, index: nat, end: nat) | InSpec(claim: nat, index: nat,
      end: nat) | Stopped

  /** One spec begun, under one claim. */
  datatype Begun = Begun(claim: nat, index: nat)

  /** owner[q] made claim q, and done[q] is where it has got to. results[i] is
      the failure recorded for spec i, said[i] all that were reported. */
  datatype Pool = Pool(
    n: nat, chunk: nat, next: nat, workers: seq<Phase>, results: seq<Option<string>>,
    owner: seq<nat>, done: seq<nat>, begun: seq<Begun>, said: seq<seq<string>>)

  datatype Action = Claim(w: nat) | Begin(w: nat) | Report(w: nat, message: string) | Finish(w: nat) | EndChunk(w: nat)

  predicate Enabled(p: Pool, a: Action) {
    && a.w < |p.workers|
    && match a
       case Claim(w) => p.workers[w].Ready?
       case Begin(w) => p.workers[w].Between? && p.workers[w].index < p.workers[w].end
       case Report(w, _) => p.workers[w].InSpec?
       case Finish(w) => p.workers[w].InSpec?
       case EndChunk(w) => p.workers[w].Between? && p.workers[w].index >= p.workers[w].end
  }

  /** The first failure of a spec is kept. */
  function Recorded(r: Option<string>, message: string): Option<string> {
    if r.Some? then r else Some(message)
  }

  function Step(p: Pool, a: Action): Pool
    requires Enabled(p, a) && |p.results| == |p.said| == p.n
  {
    match a
    case Claim(w) =>
      var added := (p.next + p.chunk) % LIMIT;
      var start := (added - p.chunk) % LIMIT;
      var q := |p.owner|;
      p.(next := added, owner := p.owner + [w], done := p.done + [start],
         workers := p.workers[w := if start >= p.n then Stopped else Between(q, start, End(p.n, p.chunk, start))])
    case Begin(w) =>
      var ph := p.workers[w];
      p.(workers := p.workers[w := InSpec(ph.claim, ph.index, ph.end)],
         begun := p.begun + [Begun(ph.claim, ph.index)],
         done := if ph.claim < |p.done| then p.done[ph.claim := ph.index + 1] else p.done)
    case Report(w, message) =>
      var i := p.workers[w].index;
      if i < p.n then
        p.(results := p.results[i := Recorded(p.results[i], message)], said := p.said[i := p.said[i] + [message]])
      else p
    case Finish(w) =>
      var ph := p.workers[w];
      p.(workers := p.workers[w := Between(ph.claim, ph.index + 1, ph.end)])
    case EndChunk(w) => p.(workers := p.workers[w := Ready])
  }

  function Initial(n: nat, chunk: nat, workers: nat): Pool {
    Pool(n, chunk, 0, seq(workers, i => Ready), seq(n, i => None), [], [], [], seq(n, i => []))
  }

  // ---- What every step keeps ----

  ghost predicate Holds(ph: Phase, q: nat) {
    (ph.Between? || ph.InSpec?) && ph.claim == q
  }

  /** A worker in a chunk is where its claim has got to. */
  ghost predicate WorkerKept(p: Pool, w: nat)
    requires w < |p.workers| && |p.owner| == |p.done|
  {
    var ph := p.workers[w];
    ph.Between? || ph.InSpec? ==>
      && ph.claim < |p.owner| && p.owner[ph.claim] == w && Start(p.chunk, ph.claim) < p.n
      && ph.end == End(p.n, p.chunk, Start(p.chunk, ph.claim)) && Start(p.chunk, ph.claim) <= ph.index
      && p.done[ph.claim] == ph.index + (if ph.InSpec? then 1 else 0)
      && (ph.InSpec? ==> ph.index < ph.end)
  }

  /** A claim nobody is working on is finished. */
  ghost predicate ClaimKept(p: Pool, q: nat)
    requires q < |p.owner| && |p.owner| == |p.done|
  {
    && p.owner[q] < |p.workers| && Start(p.chunk, q) <= p.done[q] <= Upto(p.n, p.chunk, q)
    && (!Holds(p.workers[p.owner[q]], q) ==> p.done[q] == Upto(p.n, p.chunk, q))
  }

  ghost predicate ClaimsKept(p: Pool) {
    && |p.done| == |p.owner| && p.next == Start(p.chunk, |p.owner|)
    && (forall w :: 0 <= w < |p.workers| ==> WorkerKept(p, w))
    && (forall q :: 0 <= q < |p.owner| ==> ClaimKept(p, q))
  }

  /** The specs begun are those the claims have got to, each once for each. */
  ghost predicate BegunKept(p: Pool) {
    && |p.done| == |p.owner|
    && (forall i :: 0 <= i < |p.begun| ==>
          && p.begun[i].claim < |p.owner|
          && Start(p.chunk, p.begun[i].claim) <= p.begun[i].index < p.done[p.begun[i].claim])
    && (forall i, j :: 0 <= i < j < |p.begun| ==> p.begun[i] != p.begun[j])
    && (forall q: nat, x: nat :: q < |p.owner| && Start(p.chunk, q) <= x < p.done[q] ==> Begun(q, x) in p.begun)
  }

  function StoppedIn(workers: seq<Phase>): nat {
    if workers == [] then 0 else StoppedIn(workers[1..]) + if workers[0].Stopped? then 1 else 0
  }

  /** As many workers have stopped as claims found nothing. */
  ghost predicate StopsKept(p: Pool) {
    StoppedIn(p.workers) == Empty(p.n, p.chunk, |p.owner|)
  }

  /** The first failure reported is the one recorded. */
  ghost predicate ResultsKept(p: Pool) {
    && |p.results| == |p.said| == p.n
    && forall i :: 0 <= i < p.n ==> p.results[i] == if p.said[i] == [] then None else Some(p.said[i][0])
  }

  /** While the counter suffices, there is one claim a chunk and one a worker. */
  ghost predicate ClaimsFew(p: Pool)
    requires p.chunk > 0
  {
    CounterSuffices(p.n, p.chunk, |p.workers|) ==> |p.owner| <= Chunks(p.n, p.chunk) + |p.workers|
  }

  ghost predicate Kept(p: Pool) {
    && 0 < p.chunk < LIMIT && p.n < LIMIT && ClaimsKept(p) && BegunKept(p) && StopsKept(p) && ResultsKept(p)
    && ClaimsFew(p)
  }

  lemma {:induction false} NoneStopped(workers: seq<Phase>)
    requires forall i :: 0 <= i < |workers| ==> !workers[i].Stopped?
    ensures StoppedIn(workers) == 0
  {
    if workers != [] { NoneStopped(workers[1..]); }
  }

  lemma {:induction false} StartsKept(n: nat, chunk: nat, workers: nat)
    requires 0 < chunk < LIMIT && n < LIMIT
    ensures Kept(Initial(n, chunk, workers))
  {
    NoneStopped(Initial(n, chunk, workers).workers);
  }

  lemma {:induction false} OneChanged(workers: seq<Phase>, w: nat, ph: Phase)
    requires w < |workers|
    ensures StoppedIn(workers[w := ph])
            == StoppedIn(workers) + (if ph.Stopped? then 1 else 0) - (if workers[w].Stopped? then 1 else 0)
  {
    if w > 0 {
      assert workers[w := ph][1..] == workers[1..][w - 1 := ph];
      OneChanged(workers[1..], w - 1, ph);
    } else {
      assert workers[w := ph][1..] == workers[1..];
    }
  }

  lemma {:induction false} WrapsBack(next: nat, chunk: nat)
    requires next < LIMIT && chunk < LIMIT
    ensures ((next + chunk) % LIMIT - chunk) % LIMIT == next
  {
  }

  lemma {:induction false} OneMoreClaim(p: Pool, w: nat)
    requires Kept(p) && Enabled(p, Claim(w))
    ensures ClaimsFew(Step(p, Claim(w)))
  {
    AllCounted(p.workers);
    if CounterSuffices(p.n, p.chunk, |p.workers|) {
      RestFindNothing(p.n, p.chunk, |p.workers|, |p.workers|);
    }
    hide CounterSuffices, Chunks;
  }

  lemma {:induction false} StepFields(p: Pool, a: Action)
    requires Kept(p) && Enabled(p, a)
    ensures var r := Step(p, a); r.n == p.n && r.chunk == p.chunk && |r.workers| == |p.workers|
  {
  }

  lemma {:induction false} ClaimRecorded(p: Pool, w: nat)
    requires Kept(p) && Enabled(p, Claim(w))
    ensures ClaimsKept(Step(p, Claim(w))) && Step(p, Claim(w)).done == p.done + [Start(p.chunk, |p.owner|)]
  {
    var q, r := |p.owner|, Step(p, Claim(w));
    WrapsBack(p.next, p.chunk);
    assert r.next == Start(p.chunk, q + 1) && r.done == p.done + [p.next];
    hide Start, End, ClaimsFew, BegunKept, StopsKept, ResultsKept;
    forall v | 0 <= v < |r.workers| ensures WorkerKept(r, v) {
      assert WorkerKept(p, v);
    }
    forall k | 0 <= k < |r.owner| ensures ClaimKept(r, k) {
      if k < q { assert ClaimKept(p, k); }
    }
  }

  lemma {:induction false} ClaimKeeps(p: Pool, w: nat)
    requires Kept(p) && Enabled(p, Claim(w))
    ensures Kept(Step(p, Claim(w)))
  {
    var r := Step(p, Claim(w));
    OneMoreClaim(p, w);
    ClaimRecorded(p, w);
    WrapsBack(p.next, p.chunk);
    OneChanged(p.workers, w, r.workers[w]);
    hide Start, End, StoppedIn, ClaimsFew;
    assert BegunKept(r);
  }

  lemma {:induction false} BeginKeeps(p: Pool, w: nat)
    requires Kept(p) && Enabled(p, Begin(w))
    ensures Kept(Step(p, Begin(w)))
  {
    var r, ph := Step(p, Begin(w)), p.workers[w];
    assert WorkerKept(p, w) && ClaimKept(p, ph.claim);
    OneChanged(p.workers, w, r.workers[w]);
    hide Start, End, StoppedIn, ClaimsFew;
    assert ClaimsKept(r) by {
      forall v | 0 <= v < |r.workers| ensures WorkerKept(r, v) { assert WorkerKept(p, v); }
      forall k | 0 <= k < |r.owner| ensures ClaimKept(r, k) { assert ClaimKept(p, k); }
    }
    BegunOneMore(p, r, ph.claim, ph.index);
  }

  lemma {:induction false} BegunOneMore(p: Pool, r: Pool, q: nat, x: nat)
    requires BegunKept(p) && q < |p.owner| && p.done[q] == x && Start(p.chunk, q) <= x
    requires r.begun == p.begun + [Begun(q, x)] && r.done == p.done[q := x + 1] && r.owner == p.owner
    requires r.chunk == p.chunk
    ensures BegunKept(r)
  {
    hide Start;
    assert r.begun[|p.begun|] == Begun(q, x);
    forall k: nat, y: nat | k < |r.owner| && Start(r.chunk, k) <= y < r.done[k] ensures Begun(k, y) in r.begun {
      if y < p.done[k] { assert Begun(k, y) in p.begun; }
    }
  }

  lemma {:induction false} MovesKeep(p: Pool, a: Action)
    requires Kept(p) && Enabled(p, a) && (a.Finish? || a.EndChunk?)
    ensures Kept(Step(p, a))
  {
    var r, w := Step(p, a), a.w;
    var ph := p.workers[w];
    assert WorkerKept(p, w) && ClaimKept(p, ph.claim);
    OneChanged(p.workers, w, r.workers[w]);
    hide StoppedIn, CounterSuffices;
    assert ClaimsKept(r) by {
      forall v | 0 <= v < |r.workers| ensures WorkerKept(r, v) { assert WorkerKept(p, v); }
      forall k | 0 <= k < |r.owner| ensures ClaimKept(r, k) { assert ClaimKept(p, k); }
    }
    assert BegunKept(r);
  }

  lemma {:induction false} ReportKeeps(p: Pool, w: nat, message: string)
    requires Kept(p) && Enabled(p, Report(w, message))
    ensures Kept(Step(p, Report(w, message)))
  {
    var r := Step(p, Report(w, message));
    hide Start, End, StoppedIn, Upto, CounterSuffices;
    assert ClaimsKept(r) by {
      forall v | 0 <= v < |r.workers| ensures WorkerKept(r, v) { assert WorkerKept(p, v); }
      forall k | 0 <= k < |r.owner| ensures ClaimKept(r, k) { assert ClaimKept(p, k); }
    }
    assert BegunKept(r);
  }

  lemma {:induction false} StepKeeps(p: Pool, a: Action)
    requires Kept(p) && Enabled(p, a)
    ensures Kept(Step(p, a))
  {
    match a
    case Claim(w) => ClaimKeeps(p, w);
    case Begin(w) => BeginKeeps(p, w);
    case Report(w, message) => ReportKeeps(p, w, message);
    case Finish(_) => MovesKeep(p, a);
    case EndChunk(_) => MovesKeep(p, a);
  }

  // ---- Whole runs ----

  /** The actions are possible one after the other and lead from p to r. */
  ghost predicate Leads(p: Pool, actions: seq<Action>, r: Pool)
    decreases |actions|
  {
    if actions == [] then p == r
    else
      && Enabled(p, actions[0]) && |p.results| == |p.said| == p.n
      && Leads(Step(p, actions[0]), actions[1..], r)
  }

  lemma {:induction false} RunKeeps(p: Pool, actions: seq<Action>, r: Pool)
    requires Kept(p) && Leads(p, actions, r)
    ensures Kept(r) && r.n == p.n && r.chunk == p.chunk && |r.workers| == |p.workers|
    decreases |actions|
  {
    hide Kept, Step, Enabled;
    if actions != [] {
      StepKeeps(p, actions[0]);
      StepFields(p, actions[0]);
      RunKeeps(Step(p, actions[0]), actions[1..], r);
    }
  }

  ghost predicate AllStopped(p: Pool) {
    forall w :: 0 <= w < |p.workers| ==> p.workers[w].Stopped?
  }

  ghost predicate WasRun(p: Pool, x: nat) {
    exists i :: 0 <= i < |p.begun| && p.begun[i].index == x
  }

  /** Every spec was run once. */
  ghost predicate EachOnce(p: Pool) {
    && (forall x: nat :: x < p.n ==> WasRun(p, x))
    && (forall i, j :: 0 <= i < j < |p.begun| ==> p.begun[i].index != p.begun[j].index)
    && (forall i :: 0 <= i < |p.begun| ==> p.begun[i].index < p.n)
  }

  lemma {:induction false} AllCounted(workers: seq<Phase>)
    ensures StoppedIn(workers) <= |workers|
    ensures StoppedIn(workers) == |workers| <==> forall w :: 0 <= w < |workers| ==> workers[w].Stopped?
  {
    if workers != [] {
      AllCounted(workers[1..]);
      assert workers == [workers[0]] + workers[1..];
    }
  }

  /** Once all have stopped, what the claims run has been run. */
  lemma {:induction false} ClaimsDone(p: Pool, q: nat, x: nat)
    requires Kept(p) && AllStopped(p) && q < |p.owner| && Start(p.chunk, q) <= x < Upto(p.n, p.chunk, q)
    ensures Begun(q, x) in p.begun
  {
    assert ClaimKept(p, q);
    hide Start, Upto;
  }

  /** A claim that runs anything fills a chunk. */
  lemma {:induction false} RunsItsChunk(p: Pool, i: nat)
    requires Kept(p) && CounterSuffices(p.n, p.chunk, |p.workers|) && i < |p.begun|
    ensures var b := p.begun[i];
            b.claim < Chunks(p.n, p.chunk) && b.claim * p.chunk <= b.index < b.claim * p.chunk + p.chunk &&
                b.index < p.n
  {
    var b, m := p.begun[i], Chunks(p.n, p.chunk);
    assert ClaimKept(p, b.claim);
    hide Start, Chunks, Counter;
    StartIs(p.chunk, b.claim);
    if b.claim < m {
      ChunksEnd(p.n, p.chunk, b.claim);
    } else {
      assert Counter(b.claim, p.chunk) >= p.n;
      NothingThere(p.n, p.chunk, b.claim);
    }
  }

  lemma {:induction false} NothingThere(n: nat, c: nat, q: nat)
    requires Start(c, q) >= n
    ensures Upto(n, c, q) == Start(c, q)
  {
    hide Start;
  }

  lemma {:induction false} NoneTwice(p: Pool, i: nat, j: nat)
    requires Kept(p) && CounterSuffices(p.n, p.chunk, |p.workers|) && i < j < |p.begun|
    ensures p.begun[i].index != p.begun[j].index
  {
    RunsItsChunk(p, i);
    RunsItsChunk(p, j);
    var a, b := p.begun[i], p.begun[j];
    assert a != b;
    assert a.claim == b.claim && a.index == b.index ==> a == b;
    hide *;
    if a.index == b.index { OneChunk(a.claim, b.claim, a.index, p.chunk); }
  }

  lemma {:induction false} AllRun(p: Pool, x: nat)
    requires Kept(p) && AllStopped(p) && CounterSuffices(p.n, p.chunk, |p.workers|) && |p.workers| > 0 && x < p.n
    ensures WasRun(p, x)
  {
    var m, q := Chunks(p.n, p.chunk), ChunkOf(x, p.chunk);
    AllCounted(p.workers);
    if |p.owner| < m { ChunksFindSome(p.n, p.chunk, |p.owner|); }
    InItsChunk(x, p.n, p.chunk);
    ChunksEnd(p.n, p.chunk, q);
    ClaimsDone(p, q, x);
    var i :| 0 <= i < |p.begun| && p.begun[i] == Begun(q, x);
  }

  lemma {:induction false} OverlapRunTwice(p: Pool, q: nat, r: nat, x: nat)
    requires Kept(p) && AllStopped(p) && Overlap(p.n, p.chunk, q, r, x) && r < |p.owner|
    ensures !EachOnce(p)
  {
    ClaimsDone(p, q, x);
    ClaimsDone(p, r, x);
    hide *;
    var i :| 0 <= i < |p.begun| && p.begun[i] == Begun(q, x);
    var j :| 0 <= j < |p.begun| && p.begun[j] == Begun(r, x);
    TwoAlike(p, i, j, x);
  }

  lemma {:induction false} TwoAlike(p: Pool, i: nat, j: nat, x: nat)
    requires i < |p.begun| && j < |p.begun| && i != j && p.begun[i].index == p.begun[j].index
    ensures !EachOnce(p)
  {
  }

  lemma {:induction false} OnceAtTheEnd(p: Pool)
    requires Kept(p) && AllStopped(p) && |p.workers| > 0 && p.n > 0
    ensures EachOnce(p) <==> CounterSuffices(p.n, p.chunk, |p.workers|)
  {
    hide *;
    Sizes(p);
    if CounterSuffices(p.n, p.chunk, |p.workers|) {
      forall x: nat | x < p.n ensures WasRun(p, x) { AllRun(p, x); }
      forall i, j | 0 <= i < j < |p.begun| ensures p.begun[i].index != p.begun[j].index { NoneTwice(p, i, j); }
      forall i | 0 <= i < |p.begun| ensures p.begun[i].index < p.n { RunsItsChunk(p, i); }
      OnceIs(p);
    } else {
      var q, r, x := NotEnough(p.n, p.chunk, |p.workers|);
      if r >= |p.owner| {
        EmptyGrows(p.n, p.chunk, |p.owner|, r);
        AllStoppedCounted(p);
      }
      OverlapRunTwice(p, q, r, x);
    }
  }

  lemma {:induction false} OnceIs(p: Pool)
    requires forall x: nat :: x < p.n ==> WasRun(p, x)
    requires forall i, j :: 0 <= i < j < |p.begun| ==> p.begun[i].index != p.begun[j].index
    requires forall i :: 0 <= i < |p.begun| ==> p.begun[i].index < p.n
    ensures EachOnce(p)
  {
    hide WasRun;
  }

  lemma {:induction false} Sizes(p: Pool)
    requires Kept(p)
    ensures 0 < p.chunk < LIMIT && p.n < LIMIT
  {
  }

  lemma {:induction false} AllStoppedCounted(p: Pool)
    requires Kept(p) && AllStopped(p)
    ensures Empty(p.n, p.chunk, |p.owner|) == |p.workers|
  {
    AllCounted(p.workers);
  }

  /** The failures the actions report while spec x is run, in order. */
  ghost function Reports(p: Pool, actions: seq<Action>, r: Pool, x: nat): seq<string>
    requires Leads(p, actions, r)
    decreases |actions|
  {
    if actions == [] then []
    else
      var a := actions[0];
      (if a.Report? && p.workers[a.w].index == x then [a.message] else [])
      + Reports(Step(p, a), actions[1..], r, x)
  }

  lemma {:induction false} StepSays(p: Pool, a: Action, x: nat)
    requires Kept(p) && Enabled(p, a) && x < p.n
    ensures |Step(p, a).said| == p.n
    ensures Step(p, a).said[x]
            == p.said[x] + if a.Report? && p.workers[a.w].index == x then [a.message] else []
  {
    assert p.said[x] + [] == p.said[x];
  }

  lemma {:induction false} RunSays(p: Pool, actions: seq<Action>, r: Pool, x: nat)
    requires Kept(p) && Leads(p, actions, r) && x < p.n
    ensures x < |r.said| && r.said[x] == p.said[x] + Reports(p, actions, r, x)
    decreases |actions|
  {
    if actions == [] {
      assert p.said[x] + [] == p.said[x];
    } else {
      var a := actions[0];
      StepSays(p, a, x);
      StepKeeps(p, a);
      StepFields(p, a);
      RunSays(Step(p, a), actions[1..], r, x);
      var said := if a.Report? && p.workers[a.w].index == x then [a.message] else [];
      hide Kept, Step, Enabled;
      assert (p.said[x] + said) + Reports(Step(p, a), actions[1..], r, x)
          == p.said[x] + (said + Reports(Step(p, a), actions[1..], r, x));
    }
  }

  /** The result of every spec is the first failure reported while it ran, and
      nothing when none was, however the workers interleave. */
  lemma {:induction false} ResultsAreReported(n: nat, chunk: nat, workers: nat, actions: seq<Action>, r: Pool, x: nat)
    requires n < LIMIT && 0 < chunk < LIMIT && x < n && Leads(Initial(n, chunk, workers), actions, r)
    ensures x < |r.results|
    ensures var said := Reports(Initial(n, chunk, workers), actions, r, x);
            r.results[x] == if said == [] then None else Some(said[0])
  {
    var p := Initial(n, chunk, workers);
    StartsKept(n, chunk, workers);
    RunKeeps(p, actions, r);
    RunSays(p, actions, r, x);
    var said := Reports(p, actions, r, x);
    assert p.said[x] + said == said;
    assert ResultsKept(r);
    hide Kept, Leads, Reports;
  }

  /** In every interleaving that ends with all workers stopped, each spec was run
      exactly once if and only if the counter suffices; and each result is the
      first failure its spec reported. */
  lemma {:induction false} EveryInterleaving(n: nat, chunk: nat, workers: nat, actions: seq<Action>, r: Pool)
    requires 0 < n < LIMIT && 0 < chunk < LIMIT && 0 < workers
    requires Leads(Initial(n, chunk, workers), actions, r) && AllStopped(r)
    ensures EachOnce(r) <==> CounterSuffices(n, chunk, workers)
    ensures ResultsKept(r)
  {
    StartsKept(n, chunk, workers);
    RunKeeps(Initial(n, chunk, workers), actions, r);
    OnceAtTheEnd(r);
    hide Leads, EachOnce, CounterSuffices, ResultsKept, AllStopped;
  }

  // ---- Every run ends ----

  function WorkLeft(ph: Phase): nat {
    match ph
    case Between(_, index, end) => if index < end then 2 * (end - index) + 1 else 1
    case InSpec(_, index, end) => if index < end then 2 * (end - index) else 1
    case _ => 0
  }

  function AllWorkLeft(workers: seq<Phase>): nat {
    if workers == [] then 0 else WorkLeft(workers[0]) + AllWorkLeft(workers[1..])
  }

  lemma {:induction false} OneLess(workers: seq<Phase>, w: nat, ph: Phase)
    requires w < |workers|
    ensures AllWorkLeft(workers[w := ph]) == AllWorkLeft(workers) + WorkLeft(ph) - WorkLeft(workers[w])
  {
    hide WorkLeft;
    if w > 0 {
      assert workers[w := ph][1..] == workers[1..][w - 1 := ph];
      OneLess(workers[1..], w - 1, ph);
    } else {
      assert workers[w := ph][1..] == workers[1..];
    }
  }

  ghost function ClaimsLeft(p: Pool): nat
    requires Kept(p) && CounterSuffices(p.n, p.chunk, |p.workers|)
  {
    Chunks(p.n, p.chunk) + |p.workers| - |p.owner|
  }

  ghost function Times(a: nat, b: nat): nat {
    a * b
  }

  /** A bound on the steps still to come, not counting reports. */
  ghost function StepsLeft(p: Pool): nat
    requires Kept(p) && CounterSuffices(p.n, p.chunk, |p.workers|)
  {
    Times(ClaimsLeft(p), 2 * p.n + 2) + AllWorkLeft(p.workers)
  }

  lemma {:induction false} OneClaimLess(k: nat, n: nat)
    requires k > 0
    ensures Times(k - 1, 2 * n + 2) == Times(k, 2 * n + 2) - (2 * n + 2)
  {
  }

  lemma {:induction false} WorkChanges(p: Pool, a: Action)
    requires Kept(p) && Enabled(p, a)
    ensures var r := Step(p, a);
            && (a.Claim? ==>
                AllWorkLeft(r.workers) <= AllWorkLeft(p.workers) + 2 * p.n + 1 && |r.owner| == |p.owner| + 1)
            && (a.Report? ==> AllWorkLeft(r.workers) == AllWorkLeft(p.workers) && |r.owner| == |p.owner|)
            && (!a.Claim? && !a.Report? ==> AllWorkLeft(r.workers) < AllWorkLeft(p.workers) && |r.owner| == |p.owner|)
  {
    assert WorkerKept(p, a.w);
    if !a.Report? { OneLess(p.workers, a.w, Step(p, a).workers[a.w]); }
  }

  /** Every step but a report brings the end closer. */
  lemma {:induction false} StepsRunOut(p: Pool, a: Action)
    requires Kept(p) && Enabled(p, a) && CounterSuffices(p.n, p.chunk, |p.workers|)
    ensures var r := Step(p, a);
            && Kept(r) && CounterSuffices(r.n, r.chunk, |r.workers|)
            && StepsLeft(r) <= StepsLeft(p) && (!a.Report? ==> StepsLeft(r) < StepsLeft(p))
  {
    StepKeeps(p, a);
    StepFields(p, a);
    WorkChanges(p, a);
    var r := Step(p, a);
    assert ClaimsFew(r);
    hide CounterSuffices, Chunks, AllWorkLeft, Step, Enabled, ClaimsKept, BegunKept;
    hide Times;
    if a.Claim? { OneClaimLess(ClaimsLeft(p), p.n); }
  }

  /** A worker that has not stopped can always go on. */
  lemma {:induction false} NeverStuck(p: Pool) returns (a: Action)
    requires Kept(p) && !AllStopped(p)
    ensures Enabled(p, a) && !a.Report?
  {
    var w: nat :| w < |p.workers| && !p.workers[w].Stopped?;
    a := match p.workers[w]
      case Ready => Claim(w)
      case Between(_, index, end) => if index < end then Begin(w) else EndChunk(w)
      case _ => Finish(w);
  }

  // ---- Results ----

  /** The result of a spec is written only by the worker that claimed its chunk. */
  lemma {:induction false} OnlyTheClaimantWrites(p: Pool, a: Action, x: nat)
    requires Kept(p) && Enabled(p, a) && CounterSuffices(p.n, p.chunk, |p.workers|) && x < p.n
    requires Step(p, a).results[x] != p.results[x]
    ensures a.Report? && ChunkOf(x, p.chunk) < |p.owner| && p.owner[ChunkOf(x, p.chunk)] == a.w
  {
    var w := a.w;
    var ph := p.workers[w];
    assert WorkerKept(p, w) && ClaimKept(p, ph.claim);
    assert p.workers[w].InSpec? && ph.index == x;
    ClaimDone(p, ph.claim, x);
    hide Start, Upto, Chunks;
    var i :| 0 <= i < |p.begun| && p.begun[i] == Begun(ph.claim, x);
    RunsItsChunk(p, i);
    InItsChunk(x, p.n, p.chunk);
    OneChunk(ph.claim, ChunkOf(x, p.chunk), x, p.chunk);
  }

  lemma {:induction false} ClaimDone(p: Pool, q: nat, x: nat)
    requires Kept(p) && q < |p.owner| && Start(p.chunk, q) <= x < p.done[q]
    ensures Begun(q, x) in p.begun
  {
    hide Start;
  }

  /** The failed specs, in ascending order. */
  method ReportFailures(results: seq<Option<string>>) returns (reported: seq<(nat, string)>)
    ensures forall k :: 0 <= k < |reported| ==>
              && reported[k].0 < |results| && results[reported[k].0] == Some(reported[k].1)
    ensures forall j, k :: 0 <= j < k < |reported| ==> reported[j].0 < reported[k].0
    ensures forall i :: 0 <= i < |results| && results[i].Some? ==> (i, results[i].value) in reported
  {
    reported := [];
    for i := 0 to |results|
      invariant forall k :: 0 <= k < |reported| ==> reported[k].0 < i && results[reported[k].0] == Some(reported[k].1)
      invariant forall j, k :: 0 <= j < k < |reported| ==> reported[j].0 < reported[k].0
      invariant forall h :: 0 <= h < i && results[h].Some? ==> (h, results[h].value) in reported
    {
      if results[i].Some? { reported := reported + [(i, results[i].value)]; }
    }
  }

  // ---- The sizes a run begins with ----

  /** No more workers than specs, and at least one; if none are asked for, one for
      each processor. */
  method ClampWorkers(n: nat, workers: int, processors: nat) returns (w: nat)
    requires n > 0
    ensures 1 <= w <= n
    ensures 0 < workers <= n ==> w == workers
    ensures workers > n ==> w == n
    ensures workers <= 0 ==> w == if processors > n then n else if processors == 0 then 1 else processors
  {
    var k := workers;
    if k <= 0 { k := processors; }
    if k > n { k := n; }
    if k <= 0 { k := 1; }
    w := k;
  }

  /** A chunk size as the batched run converts it to 32 bits. */
  function ChunkSize(requested: int): (c: nat)
    ensures 0 < c < LIMIT
    ensures 0 < requested < LIMIT ==> c == requested
  {
    var c := requested % LIMIT;
    if c < 1 then 1 else c
  }

  /** No claim begins two specs, as in a run without chunks. */
  ghost predicate OneAtATime(p: Pool) {
    forall i, j :: 0 <= i < j < |p.begun| ==> p.begun[i].claim != p.begun[j].claim
  }

  ghost predicate AlwaysOneAtATime(n: nat, chunk: nat, workers: nat) {
    forall actions, r :: Leads(Initial(n, chunk, workers), actions, r) ==> OneAtATime(r)
  }

  lemma {:induction false} AtMostOne(n: nat, c: nat, q: nat)
    requires c == 1 || n == 1
    ensures Upto(n, c, q) <= Start(c, q) + 1
  {
    hide Start;
  }

  lemma {:induction false} ClaimsOnce(p: Pool)
    requires Kept(p) && (p.chunk == 1 || p.n == 1)
    ensures OneAtATime(p)
  {
    hide Start, Upto, ClaimsFew, StopsKept, ResultsKept;
    forall i, j | 0 <= i < j < |p.begun| ensures p.begun[i].claim != p.begun[j].claim {
      var a, b := p.begun[i], p.begun[j];
      assert a != b && ClaimKept(p, a.claim) && ClaimKept(p, b.claim);
      AtMostOne(p.n, p.chunk, a.claim);
      AtMostOne(p.n, p.chunk, b.claim);
    }
  }

  /** The first claim begins a second spec. */
  lemma {:induction false} ClaimsTwo(n: nat, c: nat, workers: nat) returns (actions: seq<Action>, r: Pool)
    requires 2 <= n < LIMIT && 2 <= c < LIMIT && 0 < workers
    ensures Leads(Initial(n, c, workers), actions, r) && !OneAtATime(r)
  {
    var p0 := Initial(n, c, workers);
    WrapsBack(0, c);
    var p1 := Step(p0, Claim(0));
    assert p1.workers[0] == Between(0, 0, End(n, c, 0)) && End(n, c, 0) >= 2;
    var p2 := Step(p1, Begin(0));
    var p3 := Step(p2, Finish(0));
    r := Step(p3, Begin(0));
    assert r.begun == [Begun(0, 0), Begun(0, 1)];
    hide Step;
    LeadsOn(p3, Begin(0), [], r);
    LeadsOn(p2, Finish(0), [Begin(0)], r);
    LeadsOn(p1, Begin(0), [Finish(0), Begin(0)], r);
    LeadsOn(p0, Claim(0), [Begin(0), Finish(0), Begin(0)], r);
    actions := [Claim(0)] + [Begin(0), Finish(0), Begin(0)];
    assert r.begun[0].claim == r.begun[1].claim;
  }

  lemma {:induction false} LeadsOn(p: Pool, a: Action, rest: seq<Action>, r: Pool)
    requires Enabled(p, a) && |p.results| == |p.said| == p.n && Leads(Step(p, a), rest, r)
    ensures Leads(p, [a] + rest, r)
  {
    assert ([a] + rest)[1..] == rest;
    hide Step, Enabled;
  }

  /** Whatever size is asked for, a batched run takes one spec at a time exactly
      when the size is 0 or 1 in its last 32 bits, or there is one spec only. */
  lemma {:induction false} SmallSizes(n: nat, requested: int, workers: nat)
    requires 0 < n < LIMIT && 0 < workers
    ensures AlwaysOneAtATime(n, ChunkSize(requested), workers) <==> requested % LIMIT <= 1 || n == 1
  {
    var c := ChunkSize(requested);
    hide OneAtATime, Leads;
    if c == 1 || n == 1 {
      forall actions, r | Leads(Initial(n, c, workers), actions, r) ensures OneAtATime(r) {
        StartsKept(n, c, workers);
        RunKeeps(Initial(n, c, workers), actions, r);
        ClaimsOnce(r);
      }
    } else {
      var actions, r := ClaimsTwo(n, c, workers);
    }
  }

  lemma {:induction false} BelowZero(k: nat)
    requires 0 < k < LIMIT
    ensures ChunkSize(-(k as int)) == LIMIT - k
  {
  }

  /** A negative size is no small one: while the counter has room for it, the first
      claim takes every spec, so that one worker runs them all. */
  lemma {:induction false} NegativeSizes(n: nat, k: nat, workers: nat, actions: seq<Action>, r: Pool)
    requires 0 < n && 0 < k && 0 < workers && n + workers * k <= LIMIT
    requires Leads(Initial(n, ChunkSize(-(k as int)), workers), actions, r)
    ensures forall i :: 0 <= i < |r.begun| ==> r.begun[i].claim == 0
    ensures AllStopped(r) ==> EachOnce(r)
  {
    MulMono(1, workers, k);
    BelowZero(k);
    OneHugeChunk(n, k);
    RoomBelowZero(n, k, workers);
    StartsKept(n, LIMIT - k, workers);
    RunKeeps(Initial(n, LIMIT - k, workers), actions, r);
    hide *;
    forall i | 0 <= i < |r.begun| ensures r.begun[i].claim == 0 {
      RunsItsChunk(r, i);
    }
    if AllStopped(r) { EveryInterleaving(n, LIMIT - k, workers, actions, r); }
  }

  /** Where the specs and a chunk for each worker and one more fit the counter,
      each spec is run once. */
  lemma {:induction false} RoomyRuns(n: nat, chunk: nat, workers: nat, actions: seq<Action>, r: Pool)
    requires 0 < n && 0 < chunk && 0 < workers && n + (workers + 1) * chunk <= LIMIT
    requires chunk < LIMIT && n < LIMIT
    requires Leads(Initial(n, chunk, workers), actions, r) && AllStopped(r)
    ensures EachOnce(r)
  {
    RoomyCounter(n, chunk, workers);
    EveryInterleaving(n, chunk, workers, actions, r);
    hide *;
  }
}
