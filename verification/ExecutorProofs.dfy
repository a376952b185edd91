/** What one execution and its transaction can do to the database and to the outbox. */
module ExecutorProofs {
  import opened Base
  import opened JobService
  import opened Threads
  import opened LlmPolicy
  import opened Delivery
  import opened Executor

  datatype Effect =
    | Nothing
    | Requeues
    | Fails(error: ErrorClass, retryable: bool)
    | CompletesMemory
    | CompletesAnalysis(thread: ThreadId)

  /** The world after a committed analysis: resolve, append one bound row, complete the job. */
  function NewRow(w: World, job: Job, threads: ThreadMap, thread: ThreadId, newRow: RowId): Row
    requires job.session in w.tables.sessions
  {
    Row(newRow, job.session, thread, w.tables.sessions[job.session].user, true, CountIn(w.tables.rows, thread), Some(job.id))
  }

  ghost predicate HasEffect(w: World, job: Job, now: Time, newThread: ThreadId, newRow: RowId, eff: Effect, w': World)
    requires job.session in w.tables.sessions
  {
    if eff == Nothing then w'.rows == w.rows && w'.tables == w.tables
    else
      && job.id in w.rows && w.rows[job.id].status == Running
      && var stored := w.rows[job.id];
         match eff
         case Requeues =>
           && job.attempts < job.maxAttempts
           && w'.rows == w.rows[job.id := RequeuedJob(stored, now + RETRY_DELAY_SECONDS, RetryableError, now)]
           && w'.tables == w.tables && w'.outbox == w.outbox
         case Fails(error, retryable) =>
           && w'.rows == w.rows[job.id := FailedJob(stored, error, retryable, now)]
           && w'.tables == w.tables && w'.outbox == w.outbox
         case CompletesMemory =>
           && job.dream.Some?
           && w'.rows == w.rows[job.id := CompletedJob(stored, None, now)]
           && w'.tables == w.tables && w'.outbox == w.outbox
         case CompletesAnalysis(thread) =>
           && job.dream.None?
           && w'.rows == w.rows[job.id := CompletedJob(stored, Some(thread), now)]
           && var resolved := Resolve(w.tables, job.session, job.mode, now, newThread);
              && resolved.Ok? && resolved.value.1 == thread
              && var t1 := w.tables.(threads := resolved.value.0);
                 w'.tables == Appended(t1, thread, NewRow(w, job, t1.threads, thread, newRow), now)
  }

  predicate Ready(w: World, job: Job, newThread: ThreadId, newRow: RowId) {
    && HistoryOk(w.tables)
    && job.session in w.tables.sessions
    && newThread !in w.tables.threads
    && (forall i :: 0 <= i < |w.tables.rows| ==> w.tables.rows[i].id != newRow)
  }

  /** Every execution requeues, fails or completes its own running job, or leaves the database as it was; only a
      completed analysis touches threads and analyses. */
  lemma ExecutionEffect(w: World, job: Job, outcome: Outcome, wire: Wire, commits: bool, now: Time,
                        newThread: ThreadId, newRow: RowId) returns (eff: Effect)
    requires Ready(w, job, newThread, newRow)
    ensures var w' := Committed(w, Execute(w, job, outcome, wire, now, newThread, newRow), commits);
            && HasEffect(w, job, now, newThread, newRow, eff, w')
            && (eff == Requeues ==> outcome == Retryable)
            && (eff.CompletesAnalysis? || eff == CompletesMemory ==> outcome == Analysed)
  {
    var e := Execute(w, job, outcome, wire, now, newThread, newRow);
    if e.Escaped? || !commits { return Nothing; }
    match outcome {
      case Retryable => eff := if job.attempts < job.maxAttempts then Requeues else Fails(RetryableError, true);
      case Terminal => eff := Fails(NonRetryableError, false);
      case Analysed =>
        if job.dream.Some? {
          eff := if Complete(w.rows, job.id, None, now).Ok? then CompletesMemory else Fails(NonRetryableError, false);
        } else {
          eff := AnalysisEffect(w, job, wire, now, newThread, newRow);
        }
    }
  }

  lemma AnalysisEffect(w: World, job: Job, wire: Wire, now: Time, newThread: ThreadId, newRow: RowId) returns (eff: Effect)
    requires Ready(w, job, newThread, newRow) && job.dream.None?
    requires AfterAnalysis(w, job, wire, now, newThread, newRow).Returned?
    ensures HasEffect(w, job, now, newThread, newRow, eff, AfterAnalysis(w, job, wire, now, newThread, newRow).world)
    ensures eff.CompletesAnalysis? || eff == Fails(NonRetryableError, false)
  {
    var resolved := Resolve(w.tables, job.session, job.mode, now, newThread);
    if resolved.Err? { return Fails(NonRetryableError, false); }
    var (threads, thread) := resolved.value;
    var t1 := w.tables.(threads := threads);
    ResolveLeavesOneActive(w.tables, job.session, job.mode, now, newThread);
    AppendSucceeds(t1, thread, job.session, t1.sessions[job.session].user, newRow, Some(job.id), now);
    eff := CompletesAnalysis(thread);
  }

  /** A returned analysis keeps the history invariant and adds exactly one row, bound to the job and its thread. */
  lemma CompletedAnalysisKeepsHistory(w: World, job: Job, now: Time, newThread: ThreadId, newRow: RowId, thread: ThreadId, w': World)
    requires Ready(w, job, newThread, newRow)
    requires HasEffect(w, job, now, newThread, newRow, CompletesAnalysis(thread), w')
    ensures HistoryOk(w'.tables) && Extends(w.tables.rows, w'.tables.rows) && w'.tables.sessions == w.tables.sessions
    ensures |w'.tables.rows| == |w.tables.rows| + 1
    ensures var row := w'.tables.rows[|w.tables.rows|]; row.job == Some(job.id) && row.thread == thread
  {
    ResolveLeavesOneActive(w.tables, job.session, job.mode, now, newThread);
    ResolveKeepsHistory(w.tables, job.session, job.mode, now, newThread);
    var t1 := w.tables.(threads := Resolve(w.tables, job.session, job.mode, now, newThread).value.0);
    AppendKeepsHistory(t1, thread, NewRow(w, job, t1.threads, thread, newRow), now);
  }

  /** What a ready analysis execution publishes. */
  lemma AnalysisPublishes(w: World, job: Job, wire: Wire, now: Time, newThread: ThreadId, newRow: RowId)
    requires Ready(w, job, newThread, newRow) && Resolve(w.tables, job.session, job.mode, now, newThread).Ok?
    ensures var (threads, thread) := Resolve(w.tables, job.session, job.mode, now, newThread).value;
            var row := NewRow(w, job, threads, thread, newRow);
            var published := Publish(w, job.id, Appended(w.tables.(threads := threads), thread, row, now), row, wire, now);
            AfterAnalysis(w, job, wire, now, newThread, newRow) == published
  {
    var (threads, thread) := Resolve(w.tables, job.session, job.mode, now, newThread).value;
    var t1 := w.tables.(threads := threads);
    ResolveLeavesOneActive(w.tables, job.session, job.mode, now, newThread);
    AppendSucceeds(t1, thread, job.session, t1.sessions[job.session].user, newRow, Some(job.id), now);
  }

  ghost predicate SendsGrow(w: World, job: Job, now: Time, w': World) {
    && SendsSpaced(w'.outbox.sends) && KeysGuard(w'.outbox)
    && (w'.outbox.sends == w.outbox.sends
        || (w'.outbox.sends == w.outbox.sends + [Send(job.id, now)]
            && job.dream.None? && job.id in w.rows && w.rows[job.id].status == Running && w.rows[job.id].id == job.id))
  }

  predicate SentIfCompleted(w: World, job: Job, w': World) {
    w'.outbox.sends != w.outbox.sends ==> job.id in w'.rows && w'.rows[job.id].status == Completed
  }

  lemma PublishSends(w: World, job: Job, tables: Tables, row: Row, wire: Wire, commits: bool, now: Time)
    requires job.dream.None? && SendsSpaced(w.outbox.sends) && KeysGuard(w.outbox)
    requires job.id in w.rows ==> w.rows[job.id].id == job.id
    ensures SendsGrow(w, job, now, Committed(w, Publish(w, job.id, tables, row, wire, now), commits))
    ensures commits ==> SentIfCompleted(w, job, Committed(w, Publish(w, job.id, tables, row, wire, now), commits))
  {
    var completed := Complete(w.rows, job.id, Some(row.thread), now);
    if completed.Ok? {
      DeliverKeepsSpacing(w.outbox, completed.value, row, Some(row.user), wire, now);
    }
  }

  /** Sends happen only in an execution that completed its running analysis job, and stay spaced. */
  lemma ExecutionSends(w: World, job: Job, outcome: Outcome, wire: Wire, commits: bool, now: Time,
                       newThread: ThreadId, newRow: RowId)
    requires Ready(w, job, newThread, newRow)
    requires job.id in w.rows ==> w.rows[job.id].id == job.id
    requires SendsSpaced(w.outbox.sends) && KeysGuard(w.outbox)
    ensures var w' := Committed(w, Execute(w, job, outcome, wire, now, newThread, newRow), commits);
            SendsGrow(w, job, now, w') && (w'.outbox.sends != w.outbox.sends ==> outcome == Analysed)
            && (commits ==> SentIfCompleted(w, job, w'))
  {
    if outcome == Analysed && job.dream.None? {
      var resolved := Resolve(w.tables, job.session, job.mode, now, newThread);
      if resolved.Ok? {
        var (threads, thread) := resolved.value;
        var row := NewRow(w, job, threads, thread, newRow);
        AnalysisPublishes(w, job, wire, now, newThread, newRow);
        PublishSends(w, job, Appended(w.tables.(threads := threads), thread, row, now), row, wire, commits, now);
      }
    }
  }

  /** A send that fails changes nothing about the job: everything ends as it does when the send works. */
  lemma SendFailureIsSwallowed(w: World, job: Job, outcome: Outcome, now: Time, newThread: ThreadId, newRow: RowId)
    requires Ready(w, job, newThread, newRow)
    ensures Execute(w, job, outcome, SendFails, now, newThread, newRow)
         == Execute(w, job, outcome, SendWorks, now, newThread, newRow)
  {
    if outcome == Analysed && job.dream.None? && Resolve(w.tables, job.session, job.mode, now, newThread).Ok? {
      AnalysisPublishes(w, job, SendFails, now, newThread, newRow);
      AnalysisPublishes(w, job, SendWorks, now, newThread, newRow);
    }
  }

  /** A failing Redis call, unlike a failing send, undoes the database part of an analysis execution. */
  lemma RedisFailureRollsBack(w: World, job: Job, keySet: bool, commits: bool, now: Time, newThread: ThreadId, newRow: RowId)
    requires Ready(w, job, newThread, newRow) && job.dream.None?
    requires job.id in w.rows ==> w.rows[job.id].id == job.id
    requires Resolve(w.tables, job.session, job.mode, now, newThread).Ok?
    ensures var w' := Committed(w, Execute(w, job, Analysed, RedisFails(keySet), now, newThread, newRow), commits);
            w'.rows == w.rows && w'.tables == w.tables && w'.outbox.sends == w.outbox.sends
  {
    AnalysisPublishes(w, job, RedisFails(keySet), now, newThread, newRow);
  }
}
