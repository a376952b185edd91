/** What one step can do to one job, and the invariants of a job and its history that follow. */
module JobHistory {
  import opened Base
  import opened JobService
  import opened Executor
  import opened Runtime

  /** The ways a step changes a job. Reacquire is a recovery and an acquisition in one transaction. */
  datatype Move =
    | Stay
    | Recover(at: Time)
    | Acquire(at: Time, worker: WorkerId)
    | Reacquire(at: Time, worker: WorkerId)
    | Requeue(at: Time, charge: nat)
    | EndFailed(at: Time, error: ErrorClass, retryable: bool)
    | EndCompleted(at: Time, thread: Option<ThreadId>)

  predicate IsMove(timeout: nat, m: Move, a: Job, h: seq<Mark>, b: Job, h': seq<Mark>) {
    match m
    case Stay => b == a && h' == h
    case Recover(at) => IsStale(a, at, timeout) && b == RecoveredJob(a, at) && h' == h + [Recovered(at)]
    case Acquire(at, worker) => IsAvailable(a, at) && b == AcquiredJob(a, worker, at) && h' == h + [Acquired(at)]
    case Reacquire(at, worker) =>
      && IsStale(a, at, timeout)
      && b == AcquiredJob(RecoveredJob(a, at), worker, at)
      && h' == h + [Recovered(at)] + [Acquired(at)]
    case Requeue(at, charge) =>
      && a.status == Running && b == RequeuedJob(a, at + RETRY_DELAY_SECONDS, RetryableError, at)
      && h' == h + [Requeued(at, charge)]
      && 1 <= charge < a.maxAttempts && charge <= a.attempts && !Charged(h, charge)
    case EndFailed(at, error, retryable) =>
      a.status == Running && b == FailedJob(a, error, retryable, at) && h' == h + [Ended(at)]
    case EndCompleted(at, thread) =>
      && a.status == Running && b == CompletedJob(a, thread, at) && h' == h + [Ended(at)]
      && (thread.Some? <==> a.dream.None?)
  }

  predicate Charged(h: seq<Mark>, charge: nat) {
    exists i :: 0 <= i < |h| && h[i].Requeued? && h[i].charge == charge
  }

  // ---------------------------------------------------------------- the record

  predicate Terminal(job: Job) {
    job.status == Completed || job.status == Failed || job.status == Cancelled
  }

  predicate RecordOk(job: Job) {
    && (job.lockedAt.Some? <==> job.status == Running)
    && (job.lockedBy.Some? <==> job.status == Running)
    && (job.completedAt.Some? <==> job.status == Completed || job.status == Failed)
    && (job.startedAt.Some? <==> job.attempts >= 1)
    && (job.thread.Some? <==> job.status == Completed && job.dream.None?)
    && job.status != Cancelled
    && job.maxAttempts >= 1
  }

  /** What no later step changes. */
  predicate Preserves(a: Job, b: Job) {
    && b.id == a.id && b.session == a.session && b.dream == a.dream && b.mode == a.mode
    && b.maxAttempts == a.maxAttempts && b.createdAt == a.createdAt
    && a.attempts <= b.attempts
    && (a.startedAt.Some? ==> b.startedAt == a.startedAt)
    && (Terminal(a) ==> b == a)
  }

  lemma MoveKeepsRecord(timeout: nat, m: Move, a: Job, h: seq<Mark>, b: Job, h': seq<Mark>)
    requires IsMove(timeout, m, a, h, b, h') && RecordOk(a)
    ensures RecordOk(b) && Preserves(a, b)
  {
  }

  // ---------------------------------------------------------------- the history

  predicate Alternates(h: seq<Mark>) {
    && (forall i :: 0 <= i < |h| ==> (h[i].Acquired? <==> i % 2 == 0))
    && (forall i :: 0 <= i < |h| - 1 ==> !h[i].Ended?)
  }

  /** An acquisition follows either a requeue, by at least the retry delay, or a recovery of a lease that had run out. */
  predicate GapOk(timeout: nat, h: seq<Mark>, i: nat)
    requires 2 <= i < |h|
  {
    match h[i - 1]
    case Requeued(at, _) => h[i].at >= at + RETRY_DELAY_SECONDS
    case Recovered(at) => h[i].at >= at >= h[i - 2].at + timeout
    case _ => false
  }

  predicate Spaced(timeout: nat, h: seq<Mark>) {
    forall i :: 2 <= i < |h| && h[i].Acquired? ==> GapOk(timeout, h, i)
  }

  predicate ChargesOk(job: Job, h: seq<Mark>) {
    && (forall i :: 0 <= i < |h| && h[i].Requeued? ==> 1 <= h[i].charge < job.maxAttempts && h[i].charge <= job.attempts)
    && (forall i, k :: 0 <= i < k < |h| && h[i].Requeued? && h[k].Requeued? ==> h[i].charge != h[k].charge)
  }

  function CountAcquired(h: seq<Mark>): nat {
    if h == [] then 0 else CountAcquired(h[..|h| - 1]) + if h[|h| - 1].Acquired? then 1 else 0
  }

  function CountRecovered(h: seq<Mark>): nat {
    if h == [] then 0 else CountRecovered(h[..|h| - 1]) + if h[|h| - 1].Recovered? then 1 else 0
  }

  function CountRequeued(h: seq<Mark>): nat {
    if h == [] then 0 else CountRequeued(h[..|h| - 1]) + if h[|h| - 1].Requeued? then 1 else 0
  }

  /** The stored row agrees with the last history entry. */
  predicate Agrees(timeout: nat, job: Job, h: seq<Mark>) {
    if h == [] then job.status == Queued && job.attempts == 0
    else
      match h[|h| - 1]
      case Acquired(at) => job.status == Running && job.lockedAt == Some(at)
      case Recovered(at) =>
        job.status == Queued && job.availableAfter == at && |h| >= 2 && at >= h[|h| - 2].at + timeout
      case Requeued(at, _) => job.status == Queued && job.availableAfter == at + RETRY_DELAY_SECONDS && |h| >= 2
      case Ended(at) => (job.status == Completed || job.status == Failed) && job.completedAt == Some(at)
  }

  predicate HistoryFits(timeout: nat, job: Job, h: seq<Mark>) {
    && Alternates(h)
    && Spaced(timeout, h)
    && ChargesOk(job, h)
    && Agrees(timeout, job, h)
    && job.attempts == CountAcquired(h)
  }

  lemma CountsOfAppend(h: seq<Mark>, m: Mark)
    ensures CountAcquired(h + [m]) == CountAcquired(h) + if m.Acquired? then 1 else 0
    ensures CountRecovered(h + [m]) == CountRecovered(h) + if m.Recovered? then 1 else 0
    ensures CountRequeued(h + [m]) == CountRequeued(h) + if m.Requeued? then 1 else 0
  {
    assert (h + [m])[..|h|] == h;
  }

  /** Appending one entry: what must hold of it for the history to stay well formed. */
  lemma AppendFits(timeout: nat, a: Job, h: seq<Mark>, b: Job, m: Mark)
    requires HistoryFits(timeout, a, h)
    requires h != [] ==> !h[|h| - 1].Ended?
    requires m.Acquired? <==> |h| % 2 == 0
    requires b.maxAttempts == a.maxAttempts && b.attempts == a.attempts + if m.Acquired? then 1 else 0
    requires m.Requeued? ==> 1 <= m.charge < a.maxAttempts && m.charge <= a.attempts && !Charged(h, m.charge)
    requires m.Acquired? && |h| >= 2 ==> GapOk(timeout, h + [m], |h|)
    requires Agrees(timeout, b, h + [m])
    ensures HistoryFits(timeout, b, h + [m])
  {
    var h' := h + [m];
    CountsOfAppend(h, m);
    assert Spaced(timeout, h') by {
      forall i | 2 <= i < |h'| && h'[i].Acquired? ensures GapOk(timeout, h', i) {
        if i < |h| { assert GapOk(timeout, h, i); }
      }
    }
    assert ChargesOk(b, h') by {
      forall i, k | 0 <= i < k < |h'| && h'[i].Requeued? && h'[k].Requeued? ensures h'[i].charge != h'[k].charge {
        if k == |h| { assert h[i].Requeued?; }
      }
    }
  }

  /** Between events a job waits after an even number of entries and runs after an odd number. */
  lemma Parity(timeout: nat, job: Job, h: seq<Mark>)
    requires HistoryFits(timeout, job, h)
    ensures job.status == Running ==> |h| % 2 == 1 && h[|h| - 1].Acquired? && h[|h| - 1].at == job.lockedAt.value
    ensures job.status == Queued ==> |h| % 2 == 0 && (h != [] ==> !h[|h| - 1].Ended?)
  {
    if h != [] {
      assert h[|h| - 1].Acquired? <==> (|h| - 1) % 2 == 0;
    }
  }

  lemma RecoverFits(timeout: nat, a: Job, h: seq<Mark>, at: Time)
    requires HistoryFits(timeout, a, h) && IsStale(a, at, timeout)
    ensures HistoryFits(timeout, RecoveredJob(a, at), h + [Recovered(at)])
  {
    Parity(timeout, a, h);
    AppendFits(timeout, a, h, RecoveredJob(a, at), Recovered(at));
  }

  lemma AcquireFits(timeout: nat, a: Job, h: seq<Mark>, worker: WorkerId, at: Time)
    requires HistoryFits(timeout, a, h) && IsAvailable(a, at)
    ensures HistoryFits(timeout, AcquiredJob(a, worker, at), h + [Acquired(at)])
  {
    Parity(timeout, a, h);
    AppendFits(timeout, a, h, AcquiredJob(a, worker, at), Acquired(at));
  }

  lemma MoveKeepsHistory(timeout: nat, m: Move, a: Job, h: seq<Mark>, b: Job, h': seq<Mark>)
    requires IsMove(timeout, m, a, h, b, h') && HistoryFits(timeout, a, h)
    ensures HistoryFits(timeout, b, h')
    ensures h <= h'
  {
    Parity(timeout, a, h);
    match m
    case Stay =>
    case Recover(at) => RecoverFits(timeout, a, h, at);
    case Acquire(at, worker) => AcquireFits(timeout, a, h, worker, at);
    case Reacquire(at, worker) =>
      RecoverFits(timeout, a, h, at);
      AcquireFits(timeout, RecoveredJob(a, at), h + [Recovered(at)], worker, at);
    case Requeue(at, charge) => AppendFits(timeout, a, h, b, Requeued(at, charge));
    case EndFailed(at, _, _) => AppendFits(timeout, a, h, b, Ended(at));
    case EndCompleted(at, _) => AppendFits(timeout, a, h, b, Ended(at));
  }

  // ---------------------------------------------------------------- the budget

  function Charges(h: seq<Mark>): set<nat> {
    if h == [] then {}
    else Charges(h[..|h| - 1]) + if h[|h| - 1].Requeued? then {h[|h| - 1].charge} else {}
  }

  lemma {:induction false} ChargesAreCharged(h: seq<Mark>, c: nat)
    ensures c in Charges(h) <==> Charged(h, c)
  {
    if h != [] {
      var init := h[..|h| - 1];
      ChargesAreCharged(init, c);
      if i :| 0 <= i < |h| && h[i].Requeued? && h[i].charge == c {
        if i < |h| - 1 { assert init[i] == h[i]; }
      }
    }
  }

  lemma {:induction false} DistinctChargesCount(job: Job, h: seq<Mark>)
    requires ChargesOk(job, h)
    ensures |Charges(h)| == CountRequeued(h)
  {
    if h != [] {
      var init := h[..|h| - 1];
      assert ChargesOk(job, init);
      DistinctChargesCount(job, init);
      if h[|h| - 1].Requeued? {
        ChargesAreCharged(init, h[|h| - 1].charge);
      }
    }
  }

  lemma {:induction false} BoundedSet(s: set<nat>, n: nat)
    requires forall x :: x in s ==> 1 <= x <= n
    ensures |s| <= n
  {
    if n == 0 {
      assert s == {};
    } else {
      BoundedSet(s - {n}, n - 1);
    }
  }

  /** Requeues are bounded by the attempt limit because each is charged to its own attempt number below it. */
  lemma RequeuesBounded(job: Job, h: seq<Mark>)
    requires ChargesOk(job, h) && job.maxAttempts >= 1
    ensures CountRequeued(h) <= job.maxAttempts - 1
  {
    DistinctChargesCount(job, h);
    forall x | x in Charges(h) ensures 1 <= x <= job.maxAttempts - 1 { ChargesAreCharged(h, x); }
    BoundedSet(Charges(h), job.maxAttempts - 1);
  }

  lemma {:induction false} Balance(h: seq<Mark>)
    requires Alternates(h)
    ensures |h| % 2 == 0 && (h != [] ==> !h[|h| - 1].Ended?) ==> CountAcquired(h) == CountRequeued(h) + CountRecovered(h)
    ensures |h| % 2 == 1 || (h != [] && h[|h| - 1].Ended?) ==> CountAcquired(h) == CountRequeued(h) + CountRecovered(h) + 1
  {
    if h != [] {
      Balance(h[..|h| - 1]);
    }
  }

  /** The attempt budget: attempts are acquisitions, bounded by the limit plus the stale recoveries; every acquisition
      but the first is paid for by a requeue or a recovery. */
  lemma AttemptBudget(timeout: nat, job: Job, h: seq<Mark>)
    requires HistoryFits(timeout, job, h) && RecordOk(job)
    ensures job.attempts == CountAcquired(h) <= job.maxAttempts + CountRecovered(h)
    ensures job.status != Queued ==> job.attempts == 1 + CountRequeued(h) + CountRecovered(h)
    ensures job.status == Queued ==> job.attempts == CountRequeued(h) + CountRecovered(h) < job.maxAttempts + CountRecovered(h)
    ensures CountRequeued(h) < job.maxAttempts
  {
    Balance(h);
    Parity(timeout, job, h);
    RequeuesBounded(job, h);
  }

  lemma {:induction false} AcquiredIsHalf(h: seq<Mark>)
    requires Alternates(h)
    ensures CountAcquired(h) == (|h| + 1) / 2
  {
    if h != [] {
      AcquiredIsHalf(h[..|h| - 1]);
    }
  }

  /** So a job's history, over its whole life, has at most two entries per permitted acquisition. */
  lemma HistoryIsShort(timeout: nat, job: Job, h: seq<Mark>)
    requires HistoryFits(timeout, job, h) && RecordOk(job)
    ensures |h| <= 2 * (job.maxAttempts + CountRecovered(h))
  {
    AcquiredIsHalf(h);
    AttemptBudget(timeout, job, h);
  }

  // ---------------------------------------------------------------- the termination measure

  function Rank(job: Job): nat {
    match job.status
    case Running => 2
    case Queued => 1
    case _ => 0
  }

  predicate Less(a: (int, nat), b: (int, nat)) {
    a.0 < b.0 || (a.0 == b.0 && a.1 < b.1)
  }

  function Measure(job: Job): (int, nat) {
    (job.maxAttempts - job.attempts, Rank(job))
  }

  /** While a job has never been recovered, every move that changes it lowers the measure, which stays non-negative. */
  lemma MoveLowersMeasure(timeout: nat, m: Move, a: Job, h: seq<Mark>, b: Job, h': seq<Mark>)
    requires IsMove(timeout, m, a, h, b, h') && HistoryFits(timeout, a, h) && RecordOk(a)
    requires CountRecovered(h') == 0 && m != Stay
    ensures Less(Measure(b), Measure(a)) && Measure(b).0 >= 0
  {
    MoveKeepsRecord(timeout, m, a, h, b, h');
    MoveKeepsHistory(timeout, m, a, h, b, h');
    AttemptBudget(timeout, b, h');
    if m.Recover? { CountsOfAppend(h, Recovered(m.at)); }
    if m.Reacquire? {
      CountsOfAppend(h, Recovered(m.at));
      CountsOfAppend(h + [Recovered(m.at)], Acquired(m.at));
    }
  }
}
