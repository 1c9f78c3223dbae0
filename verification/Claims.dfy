/** Claiming specs from a shared counter of 32 bits, chunk by chunk. */
module Claims {
  const LIMIT: nat := 0x1_0000_0000

  /** What adding a chunk to the counter before claim q had left there. */
  function Start(c: nat, q: nat): (s: nat)
    ensures s < LIMIT
  {
    if q == 0 then 0 else (Start(c, q - 1) + c) % LIMIT
  }

  /** Where a chunk that starts at s ends; the sum may wrap around. */
  function End(n: nat, c: nat, s: nat): nat {
    var end := (s + c) % LIMIT;
    if end > n then n else end
  }

  /** The specs claim q runs are those from its start up to here. */
  function Upto(n: nat, c: nat, q: nat): (e: nat)
    ensures Start(c, q) <= e
  {
    var s := Start(c, q);
    if s < n && s < End(n, c, s) then End(n, c, s) else s
  }

  /** How many chunks n specs fill. */
  function Chunks(n: nat, c: nat): nat
    requires c > 0
    decreases n
  {
    if n == 0 then 0 else if n <= c then 1 else 1 + Chunks(n - c, c)
  }

  /** The chunk a spec is in. */
  function ChunkOf(x: nat, c: nat): nat
    requires c > 0
    decreases x
  {
    if x < c then 0 else 1 + ChunkOf(x - c, c)
  }

  /** The counter after q claims. */
  function Counter(q: nat, c: nat): nat {
    (q * c) % LIMIT
  }

  /** The claims that fill no chunk, one for each worker, find nothing to run;
      and the last chunk does not reach the end of the counter. */
  ghost predicate CounterSuffices(n: nat, c: nat, workers: nat)
    requires c > 0
  {
    Chunks(n, c) * c < LIMIT && Beyond(n, c, Chunks(n, c), workers)
  }

  ghost predicate Beyond(n: nat, c: nat, from: nat, workers: nat) {
    forall q: nat :: from <= q < from + workers ==> Counter(q, c) >= n
  }

  // ---- Arithmetic ----

  lemma {:induction false} MulStep(a: nat, c: nat)
    ensures (a + 1) * c == a * c + c
  {
  }

  lemma {:induction false} MulMono(a: nat, b: nat, c: nat)
    requires a <= b
    ensures a * c <= b * c
  {
  }

  lemma {:induction false} ModStep(x: nat, c: nat)
    ensures (x % LIMIT + c) % LIMIT == (x + c) % LIMIT
  {
  }

  /** The counter is a product taken in 32 bits. */
  lemma {:induction false} StartIs(c: nat, q: nat)
    ensures Start(c, q) == Counter(q, c)
  {
    if q > 0 {
      StartIs(c, q - 1);
      MulStep(q - 1, c);
      ModStep((q - 1) * c, c);
    }
  }

  lemma {:induction false} ChunksFit(n: nat, c: nat)
    requires c > 0
    ensures n <= Chunks(n, c) * c
    ensures n > 0 ==> Chunks(n, c) > 0 && (Chunks(n, c) - 1) * c < n
    decreases n
  {
    if n > c {
      var m := Chunks(n - c, c);
      ChunksFit(n - c, c);
      MulStep(m, c);
      MulStep(m - 1, c);
    }
  }

  lemma {:induction false} InItsChunk(x: nat, n: nat, c: nat)
    requires c > 0 && x < n
    ensures ChunkOf(x, c) < Chunks(n, c)
    ensures ChunkOf(x, c) * c <= x < ChunkOf(x, c) * c + c
    decreases x
  {
    if x >= c {
      InItsChunk(x - c, n - c, c);
      MulStep(ChunkOf(x - c, c), c);
    }
  }

  lemma {:induction false} OneChunk(p: nat, q: nat, x: nat, c: nat)
    requires p * c <= x < p * c + c && q * c <= x < q * c + c
    ensures p == q
  {
    if p < q {
      MulStep(p, c);
      MulMono(p + 1, q, c);
    } else if q < p {
      MulStep(q, c);
      MulMono(q + 1, p, c);
    }
  }

  // ---- The claims that fill chunks, and those after them ----

  /** The q-th chunk begins where its claim starts. */
  lemma {:induction false} ChunkStart(n: nat, c: nat, q: nat)
    requires 0 < c && n < LIMIT && q < Chunks(n, c)
    ensures Start(c, q) == q * c < n
  {
    assert n > 0;
    hide *;
    var m := Chunks(n, c);
    ChunksFit(n, c);
    StartIs(c, q);
    MulMono(q, m - 1, c);
    CounterSmall(q, c, q * c, n);
  }

  lemma {:induction false} CounterSmall(q: nat, c: nat, x: nat, n: nat)
    requires x == q * c && x < n < LIMIT
    ensures Counter(q, c) == x
  {
  }

  lemma {:induction false} UptoIs(n: nat, c: nat, q: nat)
    requires 0 < c && n < LIMIT && Start(c, q) < n && Start(c, q) + c < LIMIT
    ensures Upto(n, c, q) == if Start(c, q) + c > n then n else Start(c, q) + c
  {
    hide Start;
  }

  /** A claim runs just its chunk, as long as the sum does not wrap around. */
  lemma {:induction false} ChunksEnd(n: nat, c: nat, q: nat)
    requires 0 < c && n < LIMIT && q < Chunks(n, c) && Chunks(n, c) * c < LIMIT
    ensures Start(c, q) == q * c < n && Upto(n, c, q) == if q * c + c > n then n else q * c + c
  {
    MulStep(q, c);
    MulMono(q + 1, Chunks(n, c), c);
    ChunkStart(n, c, q);
    hide Start, Chunks;
    UptoIs(n, c, q);
  }

  /** The number of the first k claims that find nothing. */
  ghost function Empty(n: nat, c: nat, k: nat): nat {
    if k == 0 then 0 else Empty(n, c, k - 1) + if Start(c, k - 1) >= n then 1 else 0
  }

  lemma {:induction false} ChunksFindSome(n: nat, c: nat, k: nat)
    requires 0 < c && n < LIMIT && k <= Chunks(n, c)
    ensures Empty(n, c, k) == 0
  {
    if k > 0 {
      ChunksFindSome(n, c, k - 1);
      ChunkStart(n, c, k - 1);
    }
  }

  /** While the counter suffices, every claim after the chunks finds nothing. */
  lemma {:induction false} RestFindNothing(n: nat, c: nat, workers: nat, k: nat)
    requires 0 < c && n < LIMIT && CounterSuffices(n, c, workers) && k <= workers
    ensures Empty(n, c, Chunks(n, c) + k) == k
  {
    var m := Chunks(n, c);
    hide Chunks, Start, Counter;
    if k == 0 {
      ChunksFindSome(n, c, m);
    } else {
      RestFindNothing(n, c, workers, k - 1);
      StartIs(c, m + k - 1);
    }
  }

  lemma {:induction false} EmptyGrows(n: nat, c: nat, k: nat, l: nat)
    requires k <= l
    ensures Empty(n, c, k) <= Empty(n, c, l) <= Empty(n, c, k) + (l - k)
    decreases l
  {
    if k < l { EmptyGrows(n, c, k, l - 1); }
  }

  // ---- Without room on the counter, some spec is run twice ----

  /** From a claim that finds something, one that runs a spec follows before any
      that finds nothing. */
  lemma {:induction false} LeadsToRun(n: nat, c: nat, q: nat) returns (r: nat)
    requires 0 < c < LIMIT && n < LIMIT && Start(c, q) < n
    ensures q <= r && Start(c, r) < Upto(n, c, r) && Start(c, r) < n
    ensures Empty(n, c, r) == Empty(n, c, q) && Start(c, r) <= Start(c, q)
    decreases Start(c, q)
  {
    var s := Start(c, q);
    if s + c < LIMIT {
      r := q;
    } else {
      assert Start(c, q + 1) == s + c - LIMIT;
      r := LeadsToRun(n, c, q + 1);
    }
  }

  /** Two claims run one spec. */
  ghost predicate Overlap(n: nat, c: nat, q: nat, r: nat, x: nat) {
    q < r && Start(c, q) <= x < Upto(n, c, q) && Start(c, r) <= x < Upto(n, c, r)
  }

  /** A claim past the chunks that runs a spec runs one of an earlier chunk. */
  lemma {:induction false} RunsAgain(n: nat, c: nat, r: nat) returns (q: nat, x: nat)
    requires 0 < c && n < LIMIT && Chunks(n, c) * c < LIMIT && Chunks(n, c) <= r
    requires Start(c, r) < Upto(n, c, r) && Start(c, r) < n
    ensures Overlap(n, c, q, r, x) && x < n
  {
    x := Start(c, r);
    InItsChunk(x, n, c);
    q := ChunkOf(x, c);
    ChunksEnd(n, c, q);
  }

  lemma {:induction false} TwoChunks(n: nat, c: nat, m: nat)
    requires 0 < c < LIMIT && 0 < m && (m - 1) * c < n < LIMIT <= m * c
    ensures m >= 2 && c < n && Counter(m, c) == m * c - LIMIT < c
  {
    MulStep(m - 1, c);
    if m > 1 { MulMono(1, m - 1, c); }
  }

  /** The last chunk reaches the end of the counter: the next claim starts over
      in the first chunk. */
  lemma {:induction false} StartsOver(n: nat, c: nat)
    requires 0 < c < LIMIT && 0 < n < LIMIT && Chunks(n, c) * c >= LIMIT
    ensures Chunks(n, c) >= 2 && Start(c, Chunks(n, c)) < c < n
    ensures Start(c, 0) == 0 && Upto(n, c, 0) == c
  {
    var m := Chunks(n, c);
    ChunksFit(n, c);
    StartIs(c, m);
    assert Start(c, 0) == 0;
    hide Chunks, Start, Counter;
    TwoChunks(n, c, m);
    UptoIs(n, c, 0);
  }

  lemma {:induction false} FoundBeyond(n: nat, c: nat, m: nat, workers: nat) returns (q: nat)
    requires !Beyond(n, c, m, workers)
    ensures m <= q < m + workers && Start(c, q) < n
  {
    q :| m <= q < m + workers && Counter(q, c) < n;
    StartIs(c, q);
  }

  /** If the counter does not suffice, the claims before the workers have all
      stopped include two that run one spec. */
  lemma {:induction false} NotEnough(n: nat, c: nat, workers: nat) returns (q: nat, r: nat, x: nat)
    requires 0 < c < LIMIT && 0 < n < LIMIT && 0 < workers && !CounterSuffices(n, c, workers)
    ensures Overlap(n, c, q, r, x) && x < n && Empty(n, c, r) < workers
  {
    var m := Chunks(n, c);
    ChunksFindSome(n, c, m);
    hide Chunks, Start, Upto, Empty, Beyond;
    if m * c >= LIMIT {
      StartsOver(n, c);
      r := LeadsToRun(n, c, m);
      q, x := 0, Start(c, r);
    } else {
      var j := FoundBeyond(n, c, m, workers);
      EmptyGrows(n, c, m, j);
      r := LeadsToRun(n, c, j);
      q, x := RunsAgain(n, c, r);
    }
  }

  // ---- When the counter suffices ----

  /** One spec at a time: as long as specs and workers together fit 32 bits. */
  lemma {:induction false} SingleClaims(n: nat, workers: nat)
    requires 0 < workers && 0 < n < LIMIT
    ensures CounterSuffices(n, 1, workers) <==> n + workers <= LIMIT
  {
    SingleChunks(n);
    hide Chunks;
    if n + workers > LIMIT {
      assert Counter(LIMIT, 1) == 0;
      assert !Beyond(n, 1, n, workers);
    }
  }

  lemma {:induction false} SingleChunks(n: nat)
    ensures Chunks(n, 1) == n
  {
    if n > 1 { SingleChunks(n - 1); }
  }

  /** A bound that is enough for any chunk. */
  lemma {:induction false} RoomyCounter(n: nat, c: nat, workers: nat)
    requires 0 < c && n + (workers + 1) * c <= LIMIT
    ensures CounterSuffices(n, c, workers)
  {
    var m := Chunks(n, c);
    ChunksFit(n, c);
    MulMono(1, workers + 1, c);
    hide Chunks, Counter;
    forall q: nat | m <= q < m + workers ensures Counter(q, c) >= n {
      InRoom(n, c, workers, m, q);
    }
    if m > 0 { MulStep(m - 1, c); }
  }

  lemma {:induction false} InRoom(n: nat, c: nat, workers: nat, m: nat, q: nat)
    requires n <= m * c && (m > 0 ==> (m - 1) * c < n) && (m == 0 ==> n == 0) && 0 < c
    requires m <= q < m + workers && n + (workers + 1) * c <= LIMIT
    ensures Counter(q, c) >= n
  {
    MulMono(m, q, c);
    MulMono(q - m, workers, c);
    assert q * c == m * c + (q - m) * c;
    if m > 0 { MulStep(m - 1, c); }
    MulStep(workers, c);
  }

  // ---- Chunks of nearly 32 bits, as negative sizes give them ----

  /** Claims that add k less than the counter holds count down by k. */
  lemma {:induction false} CountsDown(k: nat, q: nat)
    requires 0 < k < LIMIT && 0 < q && q * k <= LIMIT
    ensures Counter(q, LIMIT - k) == LIMIT - q * k
  {
    StartIs(LIMIT - k, q);
    MulStep(q - 1, k);
    if q > 1 {
      CountsDown(k, q - 1);
      StartIs(LIMIT - k, q - 1);
    }
    var before := Start(LIMIT - k, q - 1);
    assert Start(LIMIT - k, q) == (before + (LIMIT - k)) % LIMIT;
    hide Counter, Start;
  }

  lemma {:induction false} OneHugeChunk(n: nat, k: nat)
    requires 0 < n && 0 < k && n + k <= LIMIT
    ensures Chunks(n, LIMIT - k) == 1
  {
  }

  /** Every claim after the first finds nothing as long as those of all workers
      stay above the specs. */
  lemma {:induction false} RoomBelowZero(n: nat, k: nat, workers: nat)
    requires 0 < n && 0 < k && 0 < workers && n + workers * k <= LIMIT
    ensures k < LIMIT && CounterSuffices(n, LIMIT - k, workers)
  {
    MulMono(1, workers, k);
    OneHugeChunk(n, k);
    hide Chunks, Counter;
    var c := LIMIT - k;
    forall q: nat | 1 <= q < 1 + workers ensures Counter(q, c) >= n {
      MulMono(q, workers, k);
      CountsDown(k, q);
    }
  }

  /** The first number of steps of k that goes beyond x. */
  lemma {:induction false} FirstBeyond(x: nat, k: nat) returns (q: nat)
    requires 0 < k
    ensures 0 < q && x < q * k <= x + k
    decreases x
  {
    if x < k {
      q := 1;
    } else {
      q := FirstBeyond(x - k, k);
      MulStep(q, k);
      q := q + 1;
    }
  }

  /** Where k is at most the number of specs, that is when the counter suffices. */
  lemma {:induction false} BelowZeroSuffices(n: nat, k: nat, workers: nat)
    requires 0 < k <= n && n + k <= LIMIT && 0 < workers
    ensures CounterSuffices(n, LIMIT - k, workers) <==> n + workers * k <= LIMIT
  {
    if n + workers * k <= LIMIT {
      RoomBelowZero(n, k, workers);
    } else {
      OneHugeChunk(n, k);
      hide Chunks, Counter;
      var q := FirstBeyond(LIMIT - n, k);
      if q > workers {
        MulMono(workers, q - 1, k);
        MulStep(q - 1, k);
      }
      CountsDown(k, q);
      assert Counter(q, LIMIT - k) < n;
    }
  }
}
