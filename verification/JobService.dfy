/** The analysis_jobs table: rows, lifecycle transitions, recovery and acquisition. */
module JobService {
  import opened Base

  datatype JobStatus = Queued | Running | Completed | Failed | Cancelled

  datatype ErrorClass = RetryableError | NonRetryableError | StaleRunningRecovery

  datatype InvalidTransition = NotFound | WrongStatus(status: JobStatus)

  datatype Job = Job(
    id: JobId,
    session: SessionId,
    dream: Option<DreamId>,
    mode: Mode,
    maxAttempts: nat,
    createdAt: Time,
    status: JobStatus,
    attempts: nat,
    retryable: bool,
    lastError: Option<ErrorClass>,
    updatedAt: Time,
    availableAfter: Time,
    startedAt: Option<Time>,
    completedAt: Option<Time>,
    lockedBy: Option<WorkerId>,
    lockedAt: Option<Time>,
    thread: Option<ThreadId>
  )

  type Rows = map<JobId, Job>

  // ---------------------------------------------------------------- row transitions

  function NewJob(id: JobId, session: SessionId, dream: Option<DreamId>, mode: Mode, maxAttempts: int, now: Time): Job {
    Job(id, session, dream, mode, if maxAttempts < 1 then 1 else maxAttempts, now, Queued, 0, false, None, now, now,
        None, None, None, None, None)
  }

  function RecoveredJob(job: Job, at: Time): Job {
    job.(status := Queued, availableAfter := at, updatedAt := at, retryable := true,
         lastError := Some(StaleRunningRecovery), lockedBy := None, lockedAt := None)
  }

  function AcquiredJob(job: Job, worker: WorkerId, at: Time): Job {
    job.(status := Running, attempts := job.attempts + 1, updatedAt := at, lockedBy := Some(worker),
         lockedAt := Some(at), startedAt := if job.startedAt.None? then Some(at) else job.startedAt)
  }

  function CompletedJob(job: Job, thread: Option<ThreadId>, now: Time): Job {
    job.(status := Completed, thread := thread, completedAt := Some(now), updatedAt := now, retryable := false,
         lastError := None, lockedBy := None, lockedAt := None)
  }

  function FailedJob(job: Job, error: ErrorClass, retryable: bool, now: Time): Job {
    job.(status := Failed, completedAt := Some(now), updatedAt := now, retryable := retryable,
         lastError := Some(error), lockedBy := None, lockedAt := None)
  }

  function RequeuedJob(job: Job, availableAfter: Time, error: ErrorClass, now: Time): Job {
    job.(status := Queued, availableAfter := availableAfter, updatedAt := now, retryable := true,
         lastError := Some(error), lockedBy := None, lockedAt := None)
  }

  // ---------------------------------------------------------------- queries

  predicate Keyed(rows: Rows) {
    forall j :: j in rows ==> rows[j].id == j
  }

  predicate IsStale(job: Job, at: Time, timeout: nat) {
    job.status == Running && job.lockedAt.Some? && job.lockedAt.value as int <= at - timeout
  }

  predicate IsAvailable(job: Job, at: Time) {
    job.status == Queued && job.availableAfter <= at
  }

  /** Rows a recovery at time at locks: stale, and not locked by another transaction. */
  function StaleSet(rows: Rows, at: Time, timeout: nat, skip: set<JobId>): set<JobId> {
    set j | j in rows && IsStale(rows[j], at, timeout) && j !in skip
  }

  function AvailableSet(rows: Rows, at: Time, skip: set<JobId>): set<JobId> {
    set j | j in rows && IsAvailable(rows[j], at) && j !in skip
  }

  /** ORDER BY available_after, created_at, id. */
  predicate Before(a: Job, b: Job) {
    a.availableAfter < b.availableAfter
    || (a.availableAfter == b.availableAfter
        && (a.createdAt < b.createdAt || (a.createdAt == b.createdAt && a.id < b.id)))
  }

  /** Rows that became available earlier come first, among these the ones created earlier, then those with a smaller key. */
  predicate OlderFirst(a: Job, b: Job) {
    && a.availableAfter <= b.availableAfter
    && (a.availableAfter == b.availableAfter ==> a.createdAt <= b.createdAt)
    && (a.availableAfter == b.availableAfter && a.createdAt == b.createdAt ==> a.id < b.id)
  }

  predicate AllBefore(rows: Rows, ids: seq<JobId>, c: JobId)
    requires c in rows && forall i :: 0 <= i < |ids| ==> ids[i] in rows
  {
    forall i :: 0 <= i < |ids| ==> Before(rows[ids[i]], rows[c])
  }

  predicate Ordered(rows: Rows, ids: seq<JobId>)
    requires forall i :: 0 <= i < |ids| ==> ids[i] in rows
  {
    forall i, k :: 0 <= i < k < |ids| ==> Before(rows[ids[i]], rows[ids[k]])
  }

  /** ids is the answer to the ordered, limited query over the candidate rows. */
  predicate IsFirst(rows: Rows, cand: set<JobId>, limit: nat, ids: seq<JobId>)
    requires cand <= rows.Keys
  {
    && |ids| <= limit
    && (forall i :: 0 <= i < |ids| ==> ids[i] in cand)
    && Ordered(rows, ids)
    && (forall c :: c in cand && c !in ids ==> |ids| == limit && AllBefore(rows, ids, c))
  }

  function RecoverRows(rows: Rows, stale: set<JobId>, at: Time): Rows {
    map j | j in rows :: if j in stale then RecoveredJob(rows[j], at) else rows[j]
  }

  function AcquireRows(rows: Rows, ids: seq<JobId>, worker: WorkerId, at: Time): Rows {
    map j | j in rows :: if j in ids then AcquiredJob(rows[j], worker, at) else rows[j]
  }

  /** What a worker is given: the job running under its lock with one more attempt, everything that never changes kept. */
  predicate HandedOut(before: Job, job: Job, worker: WorkerId, at: Time) {
    && job.status == Running && job.attempts == before.attempts + 1
    && job.lockedBy == Some(worker) && job.lockedAt == Some(at) && job.updatedAt == at
    && job.startedAt == (if before.startedAt.Some? then before.startedAt else Some(at))
    && job.id == before.id && job.session == before.session && job.dream == before.dream && job.mode == before.mode
    && job.maxAttempts == before.maxAttempts && job.createdAt == before.createdAt
  }

  lemma AcquiredAreHandedOut(rows: Rows, stale: set<JobId>, ids: seq<JobId>, worker: WorkerId, at: Time)
    requires forall i :: 0 <= i < |ids| ==> ids[i] in rows
    ensures var after := AcquireRows(RecoverRows(rows, stale, at), ids, worker, at);
      forall i :: 0 <= i < |ids| ==> ids[i] in after && HandedOut(rows[ids[i]], after[ids[i]], worker, at)
  {
  }

  /** The ordered, limited query has one answer. */
  lemma {:induction false} FirstIsUnique(rows: Rows, cand: set<JobId>, limit: nat, a: seq<JobId>, b: seq<JobId>)
    requires cand <= rows.Keys && Keyed(rows)
    requires IsFirst(rows, cand, limit, a) && IsFirst(rows, cand, limit, b)
    ensures a == b
  {
    var n := if |a| <= |b| then |a| else |b|;
    FirstAgreeUpTo(rows, cand, limit, a, b, n);
    if |a| < |b| {
      NotIn(rows, b, n);
      assert false;
    }
    if |b| < |a| {
      NotIn(rows, a, n);
      assert false;
    }
  }

  lemma NotIn(rows: Rows, ids: seq<JobId>, n: nat)
    requires forall i :: 0 <= i < |ids| ==> ids[i] in rows
    requires Ordered(rows, ids) && n < |ids|
    ensures ids[n] !in ids[..n]
  {
    forall i | 0 <= i < n ensures ids[i] != ids[n] {
      assert Before(rows[ids[i]], rows[ids[n]]);
    }
  }

  lemma {:induction false} FirstAgreeUpTo(rows: Rows, cand: set<JobId>, limit: nat, a: seq<JobId>, b: seq<JobId>, n: nat)
    requires cand <= rows.Keys && Keyed(rows)
    requires IsFirst(rows, cand, limit, a) && IsFirst(rows, cand, limit, b)
    requires n <= |a| && n <= |b|
    ensures a[..n] == b[..n]
  {
    if n > 0 {
      FirstAgreeUpTo(rows, cand, limit, a, b, n - 1);
      NthNotLater(rows, cand, limit, a, b, n - 1);
      NthNotLater(rows, cand, limit, b, a, n - 1);
    }
  }

  lemma NthNotLater(rows: Rows, cand: set<JobId>, limit: nat, a: seq<JobId>, b: seq<JobId>, n: nat)
    requires cand <= rows.Keys && Keyed(rows)
    requires IsFirst(rows, cand, limit, a) && IsFirst(rows, cand, limit, b)
    requires n < |a| && n < |b| && a[..n] == b[..n]
    ensures a[n] == b[n] || Before(rows[a[n]], rows[b[n]])
  {
    var c := b[n];
    NotIn(rows, b, n);
    if c in a {
      var k :| 0 <= k < |a| && a[k] == c;
      assert k >= n by {
        forall i | 0 <= i < n ensures a[i] != c { assert a[i] == a[..n][i] == b[..n][i] == b[i]; }
      }
      if n < k { assert Before(rows[a[n]], rows[a[k]]); }
    } else {
      assert AllBefore(rows, a, c);
    }
  }

  lemma BeforeIsTotal(a: Job, b: Job)
    ensures a.id != b.id ==> Before(a, b) || Before(b, a)
  {
  }

  lemma BeforeIsTransitive(a: Job, b: Job, c: Job)
    ensures Before(a, b) && Before(b, c) ==> Before(a, c)
  {
  }

  /** The answer to the query takes the oldest rows, oldest first. */
  lemma FirstAreOldest(rows: Rows, cand: set<JobId>, limit: nat, ids: seq<JobId>)
    requires cand <= rows.Keys && IsFirst(rows, cand, limit, ids)
    ensures forall i, k :: 0 <= i < k < |ids| ==> OlderFirst(rows[ids[i]], rows[ids[k]])
    ensures forall c, j :: c in cand && c !in ids && j in ids ==> |ids| == limit && OlderFirst(rows[j], rows[c])
  {
    forall c, j | c in cand && c !in ids && j in ids ensures |ids| == limit && OlderFirst(rows[j], rows[c]) {
      assert AllBefore(rows, ids, c);
    }
  }

  /** Any nonempty set of rows has a row that is before all others. */
  lemma {:induction false} EarliestExists(rows: Rows, cand: set<JobId>)
    requires cand <= rows.Keys && Keyed(rows) && cand != {}
    ensures exists m :: m in cand && forall c :: c in cand && c != m ==> Before(rows[m], rows[c])
    decreases cand
  {
    var x :| x in cand;
    if cand != {x} {
      EarliestExists(rows, cand - {x});
      var m :| m in cand - {x} && forall c :: c in cand - {x} && c != m ==> Before(rows[m], rows[c]);
      var best := if Before(rows[x], rows[m]) then x else m;
      forall c | c in cand && c != best ensures Before(rows[best], rows[c]) {
        if c == x { BeforeIsTotal(rows[x], rows[m]); } else if c != m { BeforeIsTransitive(rows[x], rows[m], rows[c]); }
      }
    }
  }

  // ---------------------------------------------------------------- the service

  /** The jobs as one database transaction sees them; skip names rows other transactions hold locked. */
  class JobStore {
    var rows: Rows

    constructor ()
      ensures rows == map[]
    {
      rows := map[];
    }

    method CreateJob(id: JobId, session: SessionId, dream: Option<DreamId>, mode: Mode, maxAttempts: int, now: Time)
      returns (job: Job)
      requires id !in rows
      modifies this
      ensures rows == old(rows)[id := job]
      ensures job == NewJob(id, session, dream, mode, maxAttempts, now)
      ensures job.id == id && job.session == session && job.dream == dream && job.mode == mode
      ensures job.maxAttempts >= 1 && (maxAttempts >= 1 ==> job.maxAttempts == maxAttempts)
      ensures job.status == Queued && job.attempts == 0 && job.createdAt == job.updatedAt == job.availableAfter == now
      ensures job.startedAt == job.completedAt == job.lockedAt == None && job.lockedBy == None && job.thread == None
      ensures !job.retryable && job.lastError == None
    {
      job := NewJob(id, session, dream, mode, maxAttempts, now);
      rows := rows[id := job];
    }

    /** Requeues every stale running row that is not locked elsewhere. */
    method RecoverStale(at: Time, timeout: nat, skip: set<JobId>) returns (stale: set<JobId>)
      modifies this
      ensures stale == StaleSet(old(rows), at, timeout, skip)
      ensures rows == RecoverRows(old(rows), stale, at)
      ensures forall j :: j in stale <==>
        j in old(rows) && j !in skip && old(rows)[j].status == Running && old(rows)[j].lockedAt.Some?
        && old(rows)[j].lockedAt.value + timeout <= at
      ensures rows.Keys == old(rows).Keys && forall j :: j in rows ==>
        rows[j] == if j !in stale then old(rows)[j]
                   else old(rows)[j].(status := Queued, availableAfter := at, updatedAt := at, retryable := true,
                                      lastError := Some(StaleRunningRecovery), lockedBy := None, lockedAt := None)
    {
      stale := StaleSet(rows, at, timeout, skip);
      var todo := stale;
      while todo != {}
        invariant todo <= stale
        invariant rows == RecoverRows(old(rows), stale - todo, at)
        decreases todo
      {
        var j :| j in todo;
        rows := rows[j := RecoveredJob(rows[j], at)];
        todo := todo - {j};
      }
    }

    method SelectAvailable(at: Time, limit: nat, skip: set<JobId>) returns (ids: seq<JobId>)
      requires Keyed(rows)
      ensures IsFirst(rows, AvailableSet(rows, at, skip), limit, ids)
      ensures forall j :: j in ids ==> j in rows && j !in skip && rows[j].status == Queued && rows[j].availableAfter <= at
      ensures forall i, k :: 0 <= i < k < |ids| ==> OlderFirst(rows[ids[i]], rows[ids[k]])
      ensures forall c, j ::
        c in rows && c !in skip && rows[c].status == Queued && rows[c].availableAfter <= at && c !in ids && j in ids ==>
          |ids| == limit && OlderFirst(rows[j], rows[c])
    {
      var cand := AvailableSet(rows, at, skip);
      var rest := cand;
      ids := [];
      while rest != {} && |ids| < limit
        invariant |ids| <= limit && rest <= cand
        invariant forall c :: c in cand <==> c in ids || c in rest
        invariant forall i :: 0 <= i < |ids| ==> ids[i] in cand && ids[i] in rows
        invariant Ordered(rows, ids)
        invariant forall c :: c in rest ==> AllBefore(rows, ids, c)
        decreases rest
      {
        EarliestExists(rows, rest);
        var m :| m in rest && forall c :: c in rest && c != m ==> Before(rows[m], rows[c]);
        ids := ids + [m];
        rest := rest - {m};
      }
      FirstAreOldest(rows, cand, limit, ids);
    }

    method AcquireAvailableJobs(limit: int, worker: WorkerId, at: Time, timeout: nat, skip: set<JobId>)
      returns (jobs: seq<Job>, ghost stale: set<JobId>, ids: seq<JobId>)
      requires Keyed(rows)
      modifies this
      ensures limit <= 0 ==> jobs == [] && rows == old(rows)
      ensures limit > 0 ==>
                var mid := RecoverRows(old(rows), StaleSet(old(rows), at, timeout, skip), at);
                && IsFirst(mid, AvailableSet(mid, at, skip), limit, ids)
                && rows == AcquireRows(mid, ids, worker, at)
                && |jobs| == |ids|
                && (forall i :: 0 <= i < |ids| ==> ids[i] in rows && jobs[i] == rows[ids[i]])
      ensures limit > 0 ==> forall i :: 0 <= i < |ids| ==> ids[i] in old(rows) && HandedOut(old(rows)[ids[i]], jobs[i], worker, at)
    {
      jobs, stale, ids := [], {}, [];
      if limit <= 0 {
        return;
      }
      stale := RecoverStale(at, timeout, skip);
      ids := SelectAvailable(at, limit, skip);
      ghost var mid := rows;
      var n := 0;
      while n < |ids|
        invariant 0 <= n <= |ids|
        invariant rows == AcquireRows(mid, ids[..n], worker, at)
      {
        NotIn(mid, ids, n);
        rows := rows[ids[n] := AcquiredJob(rows[ids[n]], worker, at)];
        n := n + 1;
      }
      assert ids[..n] == ids;
      AcquiredAreHandedOut(old(rows), stale, ids, worker, at);
      jobs := seq(|ids|, i requires 0 <= i < |ids| && ids[i] in rows reads this => rows[ids[i]]);
    }

    method MarkCompleted(id: JobId, thread: Option<ThreadId>, now: Time) returns (r: Result<Job, InvalidTransition>)
      modifies this
      ensures r == Complete(old(rows), id, thread, now)
      ensures r.Ok? <==> id in old(rows) && old(rows)[id].status == Running
      ensures r.Ok? ==> r.value == old(rows)[id].(
        status := Completed, thread := thread, completedAt := Some(now), updatedAt := now, retryable := false,
        lastError := None, lockedBy := None, lockedAt := None)
      ensures rows == Store(old(rows), id, r)
    {
      if id !in rows { return Err(NotFound); }
      var job := rows[id];
      if job.status != Running { return Err(WrongStatus(job.status)); }
      job := job.(status := Completed, thread := thread, completedAt := Some(now), updatedAt := now);
      job := job.(retryable := false, lastError := None, lockedBy := None, lockedAt := None);
      rows := rows[id := job];
      r := Ok(job);
    }

    method MarkFailed(id: JobId, error: ErrorClass, retryable: bool, now: Time) returns (r: Result<Job, InvalidTransition>)
      modifies this
      ensures r == Fail(old(rows), id, error, retryable, now)
      ensures r.Ok? <==> id in old(rows) && old(rows)[id].status == Running
      ensures r.Ok? ==> r.value == old(rows)[id].(
        status := Failed, completedAt := Some(now), updatedAt := now, retryable := retryable, lastError := Some(error),
        lockedBy := None, lockedAt := None)
      ensures rows == Store(old(rows), id, r)
    {
      if id !in rows { return Err(NotFound); }
      var job := rows[id];
      if job.status != Running { return Err(WrongStatus(job.status)); }
      job := job.(status := Failed, completedAt := Some(now), updatedAt := now, retryable := retryable);
      job := job.(lastError := Some(error), lockedBy := None, lockedAt := None);
      rows := rows[id := job];
      r := Ok(job);
    }

    method Requeue(id: JobId, availableAfter: Time, error: ErrorClass, now: Time) returns (r: Result<Job, InvalidTransition>)
      modifies this
      ensures r == Delay(old(rows), id, availableAfter, error, now)
      ensures r.Ok? <==> id in old(rows) && old(rows)[id].status == Running
      ensures r.Ok? ==> r.value == old(rows)[id].(
        status := Queued, availableAfter := availableAfter, updatedAt := now, retryable := true, lastError := Some(error),
        lockedBy := None, lockedAt := None)
      ensures rows == Store(old(rows), id, r)
    {
      if id !in rows { return Err(NotFound); }
      var job := rows[id];
      if job.status != Running { return Err(WrongStatus(job.status)); }
      job := job.(status := Queued, availableAfter := availableAfter, updatedAt := now, retryable := true);
      job := job.(lastError := Some(error), lockedBy := None, lockedAt := None);
      rows := rows[id := job];
      r := Ok(job);
    }
  }

  // What the three lifecycle calls answer: only a running row may be completed, failed or
  // requeued. Nothing compares the lock owner with the caller.

  function Guard(rows: Rows, id: JobId, next: Job -> Job): Result<Job, InvalidTransition> {
    if id !in rows then Err(NotFound)
    else if rows[id].status != Running then Err(WrongStatus(rows[id].status))
    else Ok(next(rows[id]))
  }

  function Complete(rows: Rows, id: JobId, thread: Option<ThreadId>, now: Time): Result<Job, InvalidTransition> {
    Guard(rows, id, job => CompletedJob(job, thread, now))
  }

  function Fail(rows: Rows, id: JobId, error: ErrorClass, retryable: bool, now: Time): Result<Job, InvalidTransition> {
    Guard(rows, id, job => FailedJob(job, error, retryable, now))
  }

  function Delay(rows: Rows, id: JobId, availableAfter: Time, error: ErrorClass, now: Time): Result<Job, InvalidTransition> {
    Guard(rows, id, job => RequeuedJob(job, availableAfter, error, now))
  }

  function Store(rows: Rows, id: JobId, r: Result<Job, InvalidTransition>): Rows {
    if r.Ok? then rows[id := r.value] else rows
  }
}
