/** The worker: one acquisition, then chunks of bounded concurrency. */
module Worker {
  import opened Base
  import opened JobService

  function Smaller(a: nat, b: nat): nat {
    if a < b then a else b
  }

  /** The chunks of a batch from an offset on. */
  function ChunksFrom<T>(jobs: seq<T>, c: nat, offset: nat): seq<seq<T>>
    requires c > 0
    decreases |jobs| - offset
  {
    if offset >= |jobs| then []
    else [jobs[offset..Smaller(offset + c, |jobs|)]] + ChunksFrom(jobs, c, offset + c)
  }

  function Chunked<T>(jobs: seq<T>, c: nat): seq<seq<T>>
    requires c > 0
  {
    ChunksFrom(jobs, c, 0)
  }

  function ChunkTotal(n: nat, c: nat): nat
    requires c > 0
  {
    (n + c - 1) / c
  }

  function Flatten<T>(chunks: seq<seq<T>>): seq<T> {
    if chunks == [] then [] else chunks[0] + Flatten(chunks[1..])
  }

  function CountOk<T>(jobs: seq<T>, ok: T -> bool): nat {
    if jobs == [] then 0 else CountOk(jobs[..|jobs| - 1], ok) + if ok(jobs[|jobs| - 1]) then 1 else 0
  }

  /** A chunk is awaited as a whole. */
  function Slowest<T>(jobs: seq<T>, cost: T -> nat): (r: nat)
    ensures forall j :: j in jobs ==> cost(j) <= r
    ensures r == 0 || exists j :: j in jobs && cost(j) == r
  {
    if jobs == [] then 0
    else
      var rest := Slowest(jobs[..|jobs| - 1], cost);
      var last := cost(jobs[|jobs| - 1]);
      if rest < last then last else rest
  }

  /** When the last of these chunks ends. */
  function EndOf<T>(start: Time, cost: T -> nat, chunks: seq<seq<T>>): Time {
    if chunks == [] then start else EndOf(start, cost, chunks[..|chunks| - 1]) + Slowest(chunks[|chunks| - 1], cost)
  }

  lemma {:induction false} CountOkAppends<T>(a: seq<T>, b: seq<T>, ok: T -> bool)
    ensures CountOk(a + b, ok) == CountOk(a, ok) + CountOk(b, ok)
  {
    if b == [] {
      assert a + b == a;
    } else {
      assert (a + b)[..|a + b| - 1] == a + b[..|b| - 1];
      CountOkAppends(a, b[..|b| - 1], ok);
    }
  }

  /** The positions below n of executions that did not raise. */
  function OkUpTo<T>(jobs: seq<T>, ok: T -> bool, n: nat): set<nat>
    requires n <= |jobs|
  {
    set i: nat | i < n && ok(jobs[i])
  }

  lemma OkNext<T>(jobs: seq<T>, ok: T -> bool, n: nat)
    requires n < |jobs|
    ensures OkUpTo(jobs, ok, n + 1) == OkUpTo(jobs, ok, n) + if ok(jobs[n]) then {n} else {}
  {
  }

  lemma {:induction false} CountOkIs<T>(jobs: seq<T>, ok: T -> bool, n: nat)
    requires n <= |jobs|
    ensures CountOk(jobs[..n], ok) == |OkUpTo(jobs, ok, n)|
  {
    if n > 0 {
      CountOkIs(jobs, ok, n - 1);
      OkNext(jobs, ok, n - 1);
      assert jobs[..n][..n - 1] == jobs[..n - 1];
    }
  }

  lemma CountStep<T>(jobs: seq<T>, c: nat, offset: nat, ok: T -> bool)
    requires c > 0 && offset < |jobs|
    ensures var upto := Smaller(offset + c, |jobs|);
            CountOk(jobs[..upto], ok) == CountOk(jobs[..offset], ok) + CountOk(jobs[offset..upto], ok)
  {
    var upto := Smaller(offset + c, |jobs|);
    CountOkAppends(jobs[..offset], jobs[offset..upto], ok);
    assert jobs[..upto] == jobs[..offset] + jobs[offset..upto];
  }

  lemma Regroup<T>(a: seq<seq<T>>, b: seq<T>, rest: seq<seq<T>>)
    ensures a + ([b] + rest) == (a + [b]) + rest
  {
  }

  class AnalysisRuntimeWorker {
    const id: WorkerId
    const batchSize: nat
    const maxConcurrency: nat
    var stopping: bool

    constructor (id: WorkerId, batchSize: int, maxConcurrency: int)
      ensures this.id == id && !stopping
      ensures this.batchSize >= 1 && this.batchSize >= batchSize && this.maxConcurrency >= 1 && this.maxConcurrency >= maxConcurrency
    {
      this.id := id;
      this.batchSize := if batchSize < 1 then 1 else batchSize;
      this.maxConcurrency := if maxConcurrency < 1 then 1 else maxConcurrency;
      stopping := false;
    }

    method Stop()
      modifies this
      ensures stopping
    {
      stopping := true;
    }

    /** Executes the chunks of the batch one after another and counts the executions that did not raise. */
    method RunChunks<T>(jobs: seq<T>, ok: T -> bool) returns (processed: nat, chunks: seq<seq<T>>)
      requires maxConcurrency > 0
      ensures chunks == Chunked(jobs, maxConcurrency)
      ensures processed == CountOk(jobs, ok) == |OkUpTo(jobs, ok, |jobs|)|
    {
      processed, chunks := 0, [];
      var offset := 0;
      ghost var whole := Chunked(jobs, maxConcurrency);
      while offset < |jobs|
        invariant 0 <= offset
        invariant whole == chunks + ChunksFrom(jobs, maxConcurrency, offset)
        invariant processed == CountOk(jobs[..Smaller(offset, |jobs|)], ok)
        decreases |jobs| - offset
      {
        var batch := jobs[offset..Smaller(offset + maxConcurrency, |jobs|)];
        CountStep(jobs, maxConcurrency, offset, ok);
        Regroup(chunks, batch, ChunksFrom(jobs, maxConcurrency, offset + maxConcurrency));
        processed := processed + CountOk(batch, ok);
        chunks := chunks + [batch];
        offset := offset + maxConcurrency;
      }
      assert jobs[..|jobs|] == jobs;
      CountOkIs(jobs, ok, |jobs|);
    }

    /** One poll: nothing once stopping, else acquire in one transaction and execute what was acquired. */
    method RunOnce(store: JobStore, now: Time, timeout: nat, skip: set<JobId>, ok: Job -> bool)
      returns (processed: nat, chunks: seq<seq<Job>>)
      requires maxConcurrency > 0 && batchSize > 0 && Keyed(store.rows)
      modifies store
      ensures stopping ==> processed == 0 && chunks == [] && store.rows == old(store.rows)
      ensures !stopping ==>
                var mid := RecoverRows(old(store.rows), StaleSet(old(store.rows), now, timeout, skip), now);
                exists ids, jobs ::
                  && IsFirst(mid, AvailableSet(mid, now, skip), batchSize, ids)
                  && store.rows == AcquireRows(mid, ids, id, now)
                  && |jobs| == |ids|
                  && (forall i :: 0 <= i < |ids| ==> ids[i] in store.rows && jobs[i] == store.rows[ids[i]])
                  && chunks == Chunked(jobs, maxConcurrency)
                  && processed == CountOk(jobs, ok)
    {
      if stopping { return 0, []; }
      var jobs, stale, ids := store.AcquireAvailableJobs(batchSize, id, now, timeout, skip);
      processed, chunks := RunChunks(jobs, ok);
    }
  }

  lemma {:induction false} ChunksFromPartition<T>(jobs: seq<T>, c: nat, offset: nat)
    requires c > 0 && offset <= |jobs|
    ensures Flatten(ChunksFrom(jobs, c, offset)) == jobs[offset..]
    ensures forall k :: 0 <= k < |ChunksFrom(jobs, c, offset)| ==> 1 <= |ChunksFrom(jobs, c, offset)[k]| <= c
    ensures |ChunksFrom(jobs, c, offset)| == ChunkTotal(|jobs| - offset, c)
    decreases |jobs| - offset
  {
    if offset == |jobs| {
      DivIs(c - 1, c, 0);
    } else {
      var upto := Smaller(offset + c, |jobs|);
      ChunksFromPartition(jobs, c, upto);
      assert ChunksFrom(jobs, c, upto) == ChunksFrom(jobs, c, offset + c);
      assert ChunksFrom(jobs, c, offset)[1..] == ChunksFrom(jobs, c, offset + c);
      assert jobs[offset..] == jobs[offset..upto] + jobs[upto..];
      TotalStep(|jobs| - offset, c);
    }
  }

  /** Every job of the batch is executed exactly once, in order, at most c at a time, in the fewest chunks. */
  lemma ChunksPartition<T>(jobs: seq<T>, c: nat)
    requires c > 0
    ensures Flatten(Chunked(jobs, c)) == jobs
    ensures forall k :: 0 <= k < |Chunked(jobs, c)| ==> 1 <= |Chunked(jobs, c)[k]| <= c
    ensures |Chunked(jobs, c)| == ChunkTotal(|jobs|, c)
  {
    ChunksFromPartition(jobs, c, 0);
  }

  lemma {:induction false} ChunkFromIs<T>(jobs: seq<T>, c: nat, offset: nat, k: nat)
    requires c > 0 && k < |ChunksFrom(jobs, c, offset)|
    ensures offset + k * c < |jobs|
    ensures ChunksFrom(jobs, c, offset)[k] == jobs[offset + k * c..Smaller(offset + k * c + c, |jobs|)]
    decreases k
  {
    if k > 0 {
      ChunkFromIs(jobs, c, offset + c, k - 1);
      assert offset + c + (k - 1) * c == offset + k * c;
    }
  }

  /** Chunk k begins at k times the concurrency. */
  lemma ChunkIs<T>(jobs: seq<T>, c: nat, k: nat)
    requires c > 0 && k < |Chunked(jobs, c)|
    ensures k * c < |jobs| && Chunked(jobs, c)[k] == jobs[k * c..if k * c + c < |jobs| then k * c + c else |jobs|]
  {
    ChunkFromIs(jobs, c, 0, k);
  }

  lemma TotalStep(n: nat, c: nat)
    requires c > 0 && n > 0
    ensures ChunkTotal(n, c) == 1 + ChunkTotal(n - Smaller(c, n), c)
  {
    if n < c {
      DivIs(c - 1, c, 0);
      assert 2 * c == c + c;
      DivIs(n + c - 1, c, 1);
    } else {
      var q := ChunkTotal(n - c, c);
      assert n - c + c - 1 == q * c + (n - 1) % c;
      assert (q + 1) * c == q * c + c && (q + 2) * c == q * c + c + c;
      DivIs(n + c - 1, c, q + 1);
    }
  }

  lemma DivIs(m: nat, c: nat, q: nat)
    requires c > 0 && q * c <= m < (q + 1) * c
    ensures m / c == q
  {
    var d := m / c;
    assert m == d * c + m % c;
    assert d >= q by {
      if d < q { Monotone(d + 1, q, c); }
    }
    assert d <= q by {
      if d > q { Monotone(q + 1, d, c); }
    }
  }

  lemma Monotone(a: nat, b: nat, x: nat)
    requires a <= b
    ensures a * x <= b * x
  {
  }

  /** A chunk ends when its slowest execution does: none that begins with it ends later, and one ends just then. */
  lemma ChunkEnds<T>(start: Time, cost: T -> nat, chunks: seq<seq<T>>, k: nat)
    requires k < |chunks| && chunks[k] != []
    ensures var begin, end := EndOf(start, cost, chunks[..k]), EndOf(start, cost, chunks[..k + 1]);
      && (forall j :: j in chunks[k] ==> begin + cost(j) <= end)
      && (exists j :: j in chunks[k] && begin + cost(j) == end)
    ensures EndOf(start, cost, chunks[..0]) == start
  {
    assert chunks[..k + 1][..k] == chunks[..k];
    var slowest := Slowest(chunks[k], cost);
    if slowest == 0 { assert chunks[k][0] in chunks[k] && cost(chunks[k][0]) == 0; }
  }

  /** The first k chunks end within k execution times. */
  lemma {:induction false} ChunksEndInTime<T>(start: Time, cost: T -> nat, chunks: seq<seq<T>>, longest: nat, k: nat)
    requires k <= |chunks|
    requires forall i, j :: 0 <= i < |chunks| && j in chunks[i] ==> cost(j) <= longest
    ensures EndOf(start, cost, chunks[..k]) <= start + k * longest
  {
    if k > 0 {
      assert chunks[..k][..k - 1] == chunks[..k - 1];
      assert Slowest(chunks[k - 1], cost) <= longest;
      assert k * longest == (k - 1) * longest + longest;
      ChunksEndInTime(start, cost, chunks, longest, k - 1);
    }
  }

  lemma {:induction false} ChunkMembers<T>(jobs: seq<T>, c: nat, offset: nat, k: nat, j: T)
    requires c > 0 && k < |ChunksFrom(jobs, c, offset)| && j in ChunksFrom(jobs, c, offset)[k]
    ensures j in jobs
    decreases k
  {
    if k > 0 { ChunkMembers(jobs, c, offset + c, k - 1, j); }
  }

  /** If an execution takes at most longest, the chunks of the batch end before any deadline that is more than
      ceil(batch / concurrency) times longest away. */
  lemma BatchEndsInTime<T>(jobs: seq<T>, c: nat, start: Time, cost: T -> nat, longest: nat, deadline: Time, k: nat)
    requires c > 0 && k <= |Chunked(jobs, c)| && (forall j :: j in jobs ==> cost(j) <= longest)
    requires start + ChunkTotal(|jobs|, c) * longest < deadline
    ensures EndOf(start, cost, Chunked(jobs, c)[..k]) < deadline
  {
    forall i, j | 0 <= i < |Chunked(jobs, c)| && j in Chunked(jobs, c)[i] ensures cost(j) <= longest {
      ChunkMembers(jobs, c, 0, i, j);
    }
    ChunksPartition(jobs, c);
    ChunksEndInTime(start, cost, Chunked(jobs, c), longest, k);
    Monotone(k, ChunkTotal(|jobs|, c), longest);
  }
}
