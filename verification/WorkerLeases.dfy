/** Workers whose batches fit the lease: their runs are timely, so each job has one execution at a time. */
module WorkerLeases {
  import opened Base
  import opened JobService
  import opened Runtime
  import opened RuntimeLeases
  import opened Worker

  /** A batch as a worker executes it: its jobs in order, the start of its first chunk, and the time each job takes. */
  datatype Batch = Batch(jobs: seq<JobId>, start: Time, cost: JobId -> nat)

  /** At time now the execution of a job is in its chunk or before it: the chunk has not ended. */
  predicate InItsChunk(b: Batch, c: nat, job: JobId, now: Time)
    requires c > 0
  {
    exists k :: 0 <= k < |Chunked(b.jobs, c)|
      && job in Chunked(b.jobs, c)[k] && now <= EndOf(b.start, b.cost, Chunked(b.jobs, c)[..k + 1])
  }

  /** A caller's check: ceil(batch / concurrency) executions of the longest kind end before the lease does. */
  predicate FitsLease(b: Batch, c: nat, longest: nat, acquired: Time, timeout: nat)
    requires c > 0
  {
    (forall j :: j in b.jobs ==> b.cost(j) <= longest) && b.start + ChunkTotal(|b.jobs|, c) * longest < acquired + timeout
  }

  /** Every live execution belongs to a batch that its worker runs chunk by chunk and that fits the lease. */
  predicate OnSchedule(cfg: Config, s: State, c: nat, longest: nat, plan: ExecId -> Batch)
    requires c > 0
  {
    forall x :: x in s.live && s.live[x].lockedAt.Some? ==>
      && InItsChunk(plan(x), c, x.job, s.now)
      && FitsLease(plan(x), c, longest, s.live[x].lockedAt.value, cfg.timeout)
  }

  lemma ScheduledIsTimely(cfg: Config, s: State, c: nat, longest: nat, plan: ExecId -> Batch)
    requires c > 0 && OnSchedule(cfg, s, c, longest, plan)
    ensures Timely(cfg, s)
  {
    forall x | x in s.live && s.live[x].lockedAt.Some? ensures s.now < s.live[x].lockedAt.value + cfg.timeout {
      var b := plan(x);
      var k :| 0 <= k < |Chunked(b.jobs, c)|
        && x.job in Chunked(b.jobs, c)[k] && s.now <= EndOf(b.start, b.cost, Chunked(b.jobs, c)[..k + 1]);
      BatchEndsInTime(b.jobs, c, b.start, b.cost, longest, s.live[x].lockedAt.value + cfg.timeout, k + 1);
    }
  }

  /** So in a run whose batches fit the lease, a job has one live execution at most, which holds its lock and can end it. */
  lemma ScheduledRunsAreSafe(
    cfg: Config, tr: seq<State>, evs: seq<Event>, i: nat, x: ExecId, c: nat, longest: nat, plan: ExecId -> Batch)
    requires c > 0 && IsRun(cfg, tr, evs) && i < |tr| && x in tr[i].live
    requires forall k :: 0 <= k < i ==> OnSchedule(cfg, tr[k], c, longest, plan)
    ensures forall y :: y in tr[i].live && y.job == x.job ==> y == x
    ensures Owns(tr[i], x, tr[i].live[x])
    ensures forall thread, now :: Complete(tr[i].world.rows, x.job, thread, now).Ok?
  {
    forall k | 0 <= k < i ensures Timely(cfg, tr[k]) { ScheduledIsTimely(cfg, tr[k], c, longest, plan); }
    LeaseSafety(cfg, tr, evs, i, x);
  }
}
