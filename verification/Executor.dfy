/** One execution of an acquired job: pipeline, thread, analysis row, job transition, delivery, transaction boundary. */
module Executor {
  import opened Base
  import opened JobService
  import opened Threads
  import opened LlmPolicy
  import opened Delivery

  const RETRY_DELAY_SECONDS: nat := 5

  /** The database tables an execution touches, and the outbox, which no rollback undoes. */
  datatype World = World(rows: Rows, tables: Tables, outbox: Outbox)

  /** An execution returns the updated job, or an exception escapes it. */
  datatype Execution = Returned(world: World, job: Job) | Escaped(outbox: Outbox)

  function Settle(w: World, id: JobId, r: Result<Job, InvalidTransition>): Execution {
    if r.Ok? then Returned(w.(rows := Store(w.rows, id, r)), r.value) else Escaped(w.outbox)
  }

  /** The retry decision reads the detached snapshot, not the stored row. */
  function AfterRetryable(w: World, job: Job, now: Time): Execution {
    if job.attempts < job.maxAttempts
    then Settle(w, job.id, Delay(w.rows, job.id, now + RETRY_DELAY_SECONDS, RetryableError, now))
    else Settle(w, job.id, Fail(w.rows, job.id, RetryableError, true, now))
  }

  function AfterTerminal(w: World, job: Job, now: Time): Execution {
    Settle(w, job.id, Fail(w.rows, job.id, NonRetryableError, false, now))
  }

  function AfterMemory(w: World, job: Job, now: Time): Execution {
    var r := Complete(w.rows, job.id, None, now);
    // A rejected completion is caught by the catch-all handler, which then tries to fail the job.
    if r.Ok? then Settle(w, job.id, r) else AfterTerminal(w, job, now)
  }

  /** Completes the job with the thread of the persisted row, then delivers. */
  function Publish(w: World, id: JobId, tables: Tables, row: Row, wire: Wire, now: Time): Execution {
    var completed := Complete(w.rows, id, Some(row.thread), now);
    if completed.Err? then Escaped(w.outbox)
    else
      var (outbox, sent) := Deliver(w.outbox, completed.value, row, Some(row.user), wire, now);
      if sent.Err? then Escaped(outbox)
      else Returned(World(Store(w.rows, id, completed), tables, outbox), completed.value)
  }

  function AfterAnalysis(w: World, job: Job, wire: Wire, now: Time, newThread: ThreadId, newRow: RowId): Execution {
    var resolved := Resolve(w.tables, job.session, job.mode, now, newThread);
    if resolved.Err? then AfterTerminal(w, job, now)
    else
      var (threads, thread) := resolved.value;
      var tables := w.tables.(threads := threads);
      var user := tables.sessions[job.session].user;
      var appended := Append(tables, thread, job.session, user, newRow, Some(job.id), now);
      if appended == Err(ValueFault) then AfterTerminal(w.(tables := tables), job, now)
      else if appended.Err? then Escaped(w.outbox)
      else
        Publish(w, job.id, appended.value, appended.value.rows[|appended.value.rows| - 1], wire, now)
  }

  function Execute(w: World, job: Job, outcome: Outcome, wire: Wire, now: Time, newThread: ThreadId, newRow: RowId): Execution {
    match outcome
    case Retryable => AfterRetryable(w, job, now)
    case Terminal => AfterTerminal(w, job, now)
    case Analysed => if job.dream.Some? then AfterMemory(w, job, now) else AfterAnalysis(w, job, wire, now, newThread, newRow)
  }

  /** The transaction around an execution: an escaped exception or a failed commit undoes the database part. */
  function Committed(w: World, e: Execution, commits: bool): World {
    match e
    case Returned(after, _) => if commits then after else w.(outbox := after.outbox)
    case Escaped(outbox) => w.(outbox := outbox)
  }

  // ---------------------------------------------------------------- stored rows, field by field

  predicate OthersStay(rows: Rows, rows': Rows, id: JobId) {
    rows'.Keys == rows.Keys && forall k :: k in rows && k != id ==> rows'[k] == rows[k]
  }

  /** Queued again, for five seconds later. */
  predicate IsRequeued(before: Job, after: Job, now: Time) {
    after == before.(status := Queued, availableAfter := now + 5, updatedAt := now, retryable := true,
                     lastError := Some(RetryableError), lockedBy := None, lockedAt := None)
  }

  predicate IsFailed(before: Job, after: Job, error: ErrorClass, retryable: bool, now: Time) {
    after == before.(status := Failed, completedAt := Some(now), updatedAt := now, retryable := retryable,
                     lastError := Some(error), lockedBy := None, lockedAt := None)
  }

  predicate IsCompleted(before: Job, after: Job, thread: Option<ThreadId>, now: Time) {
    after == before.(status := Completed, thread := thread, completedAt := Some(now), updatedAt := now, retryable := false,
                     lastError := None, lockedBy := None, lockedAt := None)
  }

  class AnalysisExecutor {
    const jobs: JobStore
    const delivery: DeliveryService
    var tables: Tables

    constructor (jobs: JobStore, delivery: DeliveryService, tables: Tables)
      ensures this.jobs == jobs && this.delivery == delivery && this.tables == tables
    {
      this.jobs, this.delivery, this.tables := jobs, delivery, tables;
    }

    function Current(): World
      reads this, jobs, delivery
    {
      World(jobs.rows, tables, delivery.Box())
    }

    /** r is what the specification returns, and the state is what it leaves. */
    ghost predicate Follows(e: Execution, r: Result<Job, ()>)
      reads this, jobs, delivery
    {
      match e
      case Returned(w, job) => r == Ok(job) && Current() == w
      case Escaped(outbox) => r == Err(()) && delivery.Box() == outbox
    }

    method HandleRetryableFailure(job: Job, now: Time) returns (r: Result<Job, ()>)
      modifies jobs
      ensures Follows(AfterRetryable(old(Current()), job, now), r)
      ensures r.Ok? <==> job.id in old(jobs.rows) && old(jobs.rows)[job.id].status == Running
      ensures r.Err? ==> jobs.rows == old(jobs.rows)
      ensures r.Ok? ==>
        && OthersStay(old(jobs.rows), jobs.rows, job.id)
        && if job.attempts < job.maxAttempts then IsRequeued(old(jobs.rows)[job.id], jobs.rows[job.id], now)
           else IsFailed(old(jobs.rows)[job.id], jobs.rows[job.id], RetryableError, true, now)
    {
      var updated;
      if job.attempts < job.maxAttempts {
        updated := jobs.Requeue(job.id, now + RETRY_DELAY_SECONDS, RetryableError, now);
      } else {
        updated := jobs.MarkFailed(job.id, RetryableError, true, now);
      }
      r := if updated.Ok? then Ok(updated.value) else Err(());
    }

    method HandleTerminalFailure(job: Job, now: Time) returns (r: Result<Job, ()>)
      modifies jobs
      ensures Follows(AfterTerminal(old(Current()), job, now), r)
      ensures r.Ok? <==> job.id in old(jobs.rows) && old(jobs.rows)[job.id].status == Running
      ensures r.Err? ==> jobs.rows == old(jobs.rows)
      ensures r.Ok? ==>
        && OthersStay(old(jobs.rows), jobs.rows, job.id)
        && IsFailed(old(jobs.rows)[job.id], jobs.rows[job.id], NonRetryableError, false, now)
    {
      var failed := jobs.MarkFailed(job.id, NonRetryableError, false, now);
      r := if failed.Ok? then Ok(failed.value) else Err(());
    }

    /** Assembly, binding and persistence of the analysis, then completion and delivery. */
    method ExecuteAnalysis(job: Job, wire: Wire, now: Time, newThread: ThreadId, newRow: RowId) returns (r: Result<Job, ()>)
      modifies this, jobs, delivery
      ensures Follows(AfterAnalysis(old(Current()), job, wire, now, newThread, newRow), r)
    {
      var resolved := Resolve(tables, job.session, job.mode, now, newThread);
      if resolved.Err? {
        r := HandleTerminalFailure(job, now);
        return;
      }
      var thread := resolved.value.1;
      tables := tables.(threads := resolved.value.0);
      var row := BuildRow(tables, thread, job.session, tables.sessions[job.session].user, newRow);
      var bound := WithJobId(row, job.id);
      var persisted :=
        match bound
        case Err(fault) => Err(fault)
        case Ok(b) => Persist(tables, thread, b, now);
      if persisted == Err(ValueFault) {
        r := HandleTerminalFailure(job, now);
        return;
      }
      if persisted.Err? { return Err(()); }
      tables := persisted.value;
      var completed := jobs.MarkCompleted(job.id, Some(thread), now);
      if completed.Err? { return Err(()); }
      var sent := delivery.DeliverCompletedAnalysis(completed.value, bound.value, Some(bound.value.user), wire, now);
      if sent.Err? { return Err(()); }
      return Ok(completed.value);
    }

    /** execute_analysis_job; loaded tells whether the inputs of the pipeline could be loaded at all. */
    method ExecuteAnalysisJob(job: Job, loaded: bool, llm: Provider, maxCalls: int, verdict: Verdict, wire: Wire, now: Time,
                              newThread: ThreadId, newRow: RowId)
      returns (r: Result<Job, ()>, outcome: Outcome)
      modifies this, jobs, delivery, llm
      ensures Follows(Execute(old(Current()), job, outcome, wire, now, newThread, newRow), r)
      ensures llm.calls - old(llm.calls) <= CallLimit(maxCalls) && llm.calls >= old(llm.calls)
      ensures !loaded ==> outcome == Terminal && llm.calls == old(llm.calls)
      ensures loaded ==> llm.calls > old(llm.calls) && outcome == Classify(llm.script(llm.calls - 1), verdict)
      ensures EndsAs(llm.script, old(llm.calls), llm.calls, CallLimit(maxCalls), loaded, verdict, outcome)
    {
      if loaded {
        var reply := GenerateWithRetry(llm, maxCalls);
        outcome := Classify(reply, verdict);
        ClassifyEnds(llm.script, old(llm.calls), llm.calls, CallLimit(maxCalls), verdict);
      } else {
        outcome := Terminal;
      }
      match outcome {
        case Retryable => r := HandleRetryableFailure(job, now);
        case Terminal => r := HandleTerminalFailure(job, now);
        case Analysed =>
          if job.dream.Some? {
            var completed := jobs.MarkCompleted(job.id, None, now);
            if completed.Ok? { return Ok(completed.value), outcome; }
            r := HandleTerminalFailure(job, now);
          } else {
            r := ExecuteAnalysis(job, wire, now, newThread, newRow);
          }
      }
    }

    /** The worker's transaction boundary around one job. */
    method RunInTransaction(job: Job, loaded: bool, llm: Provider, maxCalls: int, verdict: Verdict, wire: Wire, commits: bool,
                            now: Time, newThread: ThreadId, newRow: RowId)
      returns (ok: bool, outcome: Outcome)
      modifies this, jobs, delivery, llm
      ensures Current() == Committed(old(Current()), Execute(old(Current()), job, outcome, wire, now, newThread, newRow), commits)
      ensures llm.calls - old(llm.calls) <= CallLimit(maxCalls)
      ensures EndsAs(llm.script, old(llm.calls), llm.calls, CallLimit(maxCalls), loaded, verdict, outcome)
      ensures ok ==> commits
    {
      var rows, before := jobs.rows, tables;
      var r;
      r, outcome := ExecuteAnalysisJob(job, loaded, llm, maxCalls, verdict, wire, now, newThread, newRow);
      ok := r.Ok? && commits;
      if !ok {
        jobs.rows := rows;
        tables := before;
      }
    }
  }
}
