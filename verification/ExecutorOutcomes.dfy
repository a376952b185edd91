/** What each outcome of an execution leaves in the stored row, in the thread tables and in the outbox. */
module ExecutorOutcomes {
  import opened Base
  import opened JobService
  import opened Threads
  import opened LlmPolicy
  import opened Delivery
  import opened Executor
  import opened ExecutorProofs

  // ---------------------------------------------------------------- the stored row

  /** The transaction commits, and the stored row is running, so that it can be changed. */
  predicate Acts(w: World, job: Job, commits: bool) {
    commits && job.id in w.rows && w.rows[job.id].status == Running
  }

  /** An analysis job's session gets a thread: it is active, or still has an active thread. */
  predicate Resolvable(t: Tables, session: SessionId)
    requires session in t.sessions
  {
    t.sessions[session].status == SessionActive || exists u: ThreadId :: u in t.threads && IsActive(t.threads, session, u)
  }

  /** After transport errors the job is tried again while the snapshot has attempts left, and has failed for good after. */
  lemma RetryableEnds(w: World, job: Job, wire: Wire, commits: bool, now: Time, newThread: ThreadId, newRow: RowId)
    ensures var w' := Committed(w, Execute(w, job, Retryable, wire, now, newThread, newRow), commits);
      && w'.tables == w.tables && w'.outbox == w.outbox
      && (if Acts(w, job, commits) then
            && OthersStay(w.rows, w'.rows, job.id)
            && if job.attempts < job.maxAttempts then IsRequeued(w.rows[job.id], w'.rows[job.id], now)
               else IsFailed(w.rows[job.id], w'.rows[job.id], RetryableError, true, now)
          else w'.rows == w.rows)
  {
  }

  /** Any other error ends the job at once, whatever attempts are left. */
  lemma TerminalEnds(w: World, job: Job, wire: Wire, commits: bool, now: Time, newThread: ThreadId, newRow: RowId)
    ensures var w' := Committed(w, Execute(w, job, Terminal, wire, now, newThread, newRow), commits);
      && w'.tables == w.tables && w'.outbox == w.outbox
      && (if Acts(w, job, commits) then
            OthersStay(w.rows, w'.rows, job.id) && IsFailed(w.rows[job.id], w'.rows[job.id], NonRetryableError, false, now)
          else w'.rows == w.rows)
  {
  }

  /** A job for a dream's memory is completed without a thread. */
  lemma MemoryEnds(w: World, job: Job, wire: Wire, commits: bool, now: Time, newThread: ThreadId, newRow: RowId)
    requires job.dream.Some?
    ensures var w' := Committed(w, Execute(w, job, Analysed, wire, now, newThread, newRow), commits);
      && w'.tables == w.tables && w'.outbox == w.outbox
      && (if Acts(w, job, commits) then
            OthersStay(w.rows, w'.rows, job.id) && IsCompleted(w.rows[job.id], w'.rows[job.id], None, now)
          else w'.rows == w.rows)
  {
  }

  /** One analysis row more, the latest of its thread, bound to the job; earlier rows lose at most their latest flag. */
  predicate HasResult(w: World, w': World, job: Job, now: Time, newRow: RowId, thread: ThreadId)
    requires job.session in w.tables.sessions
  {
    var t, t' := w.tables, w'.tables;
    && |t'.rows| == |t.rows| + 1 && Extends(t.rows, t'.rows) && t'.sessions == t.sessions
    && t'.rows[|t.rows|]
         == Row(newRow, job.session, thread, t.sessions[job.session].user, true, CountIn(t.rows, thread), Some(job.id))
    && thread in t'.threads && t'.threads[thread].session == job.session && t'.threads[thread].status == Active
    && t'.threads[thread].lastAnalysis == Some(newRow) && t'.threads[thread].lastActivity == Some(now)
  }

  /** The thread the analysis continues or opens. */
  predicate PicksThread(t: Tables, job: Job, now: Time, newThread: ThreadId, thread: ThreadId)
    requires job.session in t.sessions
  {
    if Continues(t, job.session, job.mode, now) then IsActive(t.threads, job.session, thread) else thread == newThread
  }

  lemma ResolvableExactly(w: World, job: Job, now: Time, newThread: ThreadId, newRow: RowId)
    requires Ready(w, job, newThread, newRow)
    ensures var r := Resolve(w.tables, job.session, job.mode, now, newThread);
      && (r.Ok? <==> Resolvable(w.tables, job.session))
      && (r.Ok? ==> PicksThread(w.tables, job, now, newThread, r.value.1))
  {
    ResolveCorrect(w.tables, job.session, job.mode, now, newThread);
    if Resolve(w.tables, job.session, job.mode, now, newThread).Ok? { ActiveOfIsExact(w.tables.threads, job.session); }
  }

  /**
   * An accepted analysis completes its job in the thread it is stored in, unless the session gives no thread, which fails
   * the job, or Redis fails, which leaves everything to a later recovery.
   */
  lemma AnalysisEnds(w: World, job: Job, wire: Wire, commits: bool, now: Time, newThread: ThreadId, newRow: RowId)
    returns (thread: ThreadId)
    requires Ready(w, job, newThread, newRow) && job.dream.None? && (job.id in w.rows ==> w.rows[job.id].id == job.id)
    ensures var w' := Committed(w, Execute(w, job, Analysed, wire, now, newThread, newRow), commits);
      if !Acts(w, job, commits) then w'.rows == w.rows && w'.tables == w.tables
      else if !Resolvable(w.tables, job.session) then
        && w'.tables == w.tables && w'.outbox == w.outbox
        && OthersStay(w.rows, w'.rows, job.id) && IsFailed(w.rows[job.id], w'.rows[job.id], NonRetryableError, false, now)
      else if wire.RedisFails? then w'.rows == w.rows && w'.tables == w.tables
      else
        && OthersStay(w.rows, w'.rows, job.id) && IsCompleted(w.rows[job.id], w'.rows[job.id], Some(thread), now)
        && HasResult(w, w', job, now, newRow, thread) && PicksThread(w.tables, job, now, newThread, thread)
  {
    ResolvableExactly(w, job, now, newThread, newRow);
    thread := newThread;
    if Resolvable(w.tables, job.session) {
      thread := Resolve(w.tables, job.session, job.mode, now, newThread).value.1;
      AnalysisPublishes(w, job, wire, now, newThread, newRow);
      Published(w, job, wire, commits, now, newThread, newRow);
    }
  }

  /** What the publication of a resolved analysis leaves. */
  lemma Published(w: World, job: Job, wire: Wire, commits: bool, now: Time, newThread: ThreadId, newRow: RowId)
    requires Ready(w, job, newThread, newRow) && (job.id in w.rows ==> w.rows[job.id].id == job.id)
    requires Resolve(w.tables, job.session, job.mode, now, newThread).Ok?
    ensures var (threads, thread) := Resolve(w.tables, job.session, job.mode, now, newThread).value;
      var row := NewRow(w, job, threads, thread, newRow);
      var w' := Committed(w, Publish(w, job.id, Appended(w.tables.(threads := threads), thread, row, now), row, wire, now), commits);
      if !Acts(w, job, commits) || wire.RedisFails? then w'.rows == w.rows && w'.tables == w.tables
      else
        && OthersStay(w.rows, w'.rows, job.id) && IsCompleted(w.rows[job.id], w'.rows[job.id], Some(thread), now)
        && HasResult(w, w', job, now, newRow, thread)
  {
    var (threads, thread) := Resolve(w.tables, job.session, job.mode, now, newThread).value;
    var row := NewRow(w, job, threads, thread, newRow);
    ResolveLeavesOneActive(w.tables, job.session, job.mode, now, newThread);
    var tables := Appended(w.tables.(threads := threads), thread, row, now);
    assert IsActive(threads, job.session, thread);
    assert HasResult(w, w.(tables := tables), job, now, newRow, thread);
    var completed := Complete(w.rows, job.id, Some(thread), now);
    if completed.Ok? { DeliversExactly(w.outbox, completed.value, row, Some(row.user), wire, now); }
  }

  // ---------------------------------------------------------------- the outbox

  /** Whether an execution sends: an accepted analysis of a running job, with a thread, a working Redis and a free key. */
  predicate Sends(w: World, job: Job, outcome: Outcome, wire: Wire, now: Time)
    requires job.session in w.tables.sessions
  {
    && outcome == Analysed && job.dream.None? && job.id in w.rows && w.rows[job.id].status == Running
    && Resolvable(w.tables, job.session) && !wire.RedisFails?
    && (job.id !in w.outbox.keys || w.outbox.keys[job.id] <= now)
  }

  /** Exactly then, and then once, whether or not the transaction commits afterwards; its key is taken for a day. */
  lemma SendsExactly(w: World, job: Job, outcome: Outcome, wire: Wire, commits: bool, now: Time,
                     newThread: ThreadId, newRow: RowId)
    requires Ready(w, job, newThread, newRow) && (job.id in w.rows ==> w.rows[job.id].id == job.id)
    ensures var w' := Committed(w, Execute(w, job, outcome, wire, now, newThread, newRow), commits);
      && w'.outbox.sends == (if Sends(w, job, outcome, wire, now) then w.outbox.sends + [Send(job.id, now)] else w.outbox.sends)
      && (Sends(w, job, outcome, wire, now) ==> w'.outbox.keys == w.outbox.keys[job.id := now + 86400])
  {
    if outcome == Retryable {
      RetryableEnds(w, job, wire, commits, now, newThread, newRow);
    } else if outcome == Terminal {
      TerminalEnds(w, job, wire, commits, now, newThread, newRow);
    } else if job.dream.Some? {
      MemoryEnds(w, job, wire, commits, now, newThread, newRow);
    } else {
      AnalysisSends(w, job, wire, commits, now, newThread, newRow);
    }
  }

  lemma AnalysisSends(w: World, job: Job, wire: Wire, commits: bool, now: Time, newThread: ThreadId, newRow: RowId)
    requires Ready(w, job, newThread, newRow) && job.dream.None? && (job.id in w.rows ==> w.rows[job.id].id == job.id)
    ensures var w' := Committed(w, Execute(w, job, Analysed, wire, now, newThread, newRow), commits);
      && w'.outbox.sends == (if Sends(w, job, Analysed, wire, now) then w.outbox.sends + [Send(job.id, now)] else w.outbox.sends)
      && (Sends(w, job, Analysed, wire, now) ==> w'.outbox.keys == w.outbox.keys[job.id := now + 86400])
  {
    ResolvableExactly(w, job, now, newThread, newRow);
    if Resolvable(w.tables, job.session) {
      var (threads, thread) := Resolve(w.tables, job.session, job.mode, now, newThread).value;
      var row := NewRow(w, job, threads, thread, newRow);
      AnalysisPublishes(w, job, wire, now, newThread, newRow);
      var completed := Complete(w.rows, job.id, Some(thread), now);
      if completed.Ok? { DeliversExactly(w.outbox, completed.value, row, Some(row.user), wire, now); }
    }
  }

  // ---------------------------------------------------------------- from the provider's answers to the stored row

  /** The whole budget of calls went on transport errors. */
  predicate Exhausted(script: nat -> Reply, c: nat, d: nat, limit: nat) {
    d - c == limit && forall k :: c <= k < d ==> script(k) == TransportError
  }

  predicate AnswerAccepted(script: nat -> Reply, d: nat, verdict: Verdict) {
    d > 0 && script(d - 1) == Response && verdict == Accepted
  }

  /** What the provider says decides what a running analysis job becomes. */
  lemma ScriptDecides(
    w: World, job: Job, script: nat -> Reply, c: nat, d: nat, limit: nat, loaded: bool, verdict: Verdict, outcome: Outcome,
    wire: Wire, now: Time, newThread: ThreadId, newRow: RowId)
    requires Ready(w, job, newThread, newRow) && job.dream.None? && Acts(w, job, true) && w.rows[job.id].id == job.id
    requires EndsAs(script, c, d, limit, loaded, verdict, outcome)
    ensures var w' := Committed(w, Execute(w, job, outcome, wire, now, newThread, newRow), true);
      && job.id in w'.rows && var row, spent := w'.rows[job.id], loaded && Exhausted(script, c, d, limit);
      && (row.status == Queued <==> spent && job.attempts < job.maxAttempts)
      && (row.status == Queued ==> row.availableAfter == now + 5)
      && (row.status == Failed && row.lastError == Some(RetryableError) <==> spent && job.attempts >= job.maxAttempts)
      && (row.status == Completed <==>
            loaded && AnswerAccepted(script, d, verdict) && Resolvable(w.tables, job.session) && !wire.RedisFails?)
      && (row.status == Running <==>
            loaded && AnswerAccepted(script, d, verdict) && Resolvable(w.tables, job.session) && wire.RedisFails?)
      && (row.status == Failed || row.status == Queued || row.status == Completed || row == w.rows[job.id])
  {
    if outcome == Retryable {
      RetryableEnds(w, job, wire, true, now, newThread, newRow);
    } else if outcome == Terminal {
      TerminalEnds(w, job, wire, true, now, newThread, newRow);
    } else {
      var _ := AnalysisEnds(w, job, wire, true, now, newThread, newRow);
    }
  }
}
