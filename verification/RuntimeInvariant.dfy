/** The inductive invariant of the runtime and its preservation by every event. */
module RuntimeInvariant {
  import opened Base
  import opened JobService
  import opened Threads
  import opened LlmPolicy
  import opened Delivery
  import opened Executor
  import opened ExecutorProofs
  import opened Runtime
  import opened JobHistory

  // ---------------------------------------------------------------- parts of the invariant

  predicate JobOk(cfg: Config, s: State, j: JobId)
    requires j in s.world.rows
  {
    && s.world.rows[j].id == j
    && s.world.rows[j].session in s.world.tables.sessions
    && j in s.marks
    && RecordOk(s.world.rows[j])
    && HistoryFits(cfg.timeout, s.world.rows[j], s.marks[j])
  }

  predicate JobsOk(cfg: Config, s: State) {
    && s.marks.Keys == s.world.rows.Keys
    && forall j :: j in s.world.rows ==> JobOk(cfg, s, j)
  }

  /** Open acquisitions still see the rows as they locked them. */
  predicate AcquisitionOk(cfg: Config, rows: Rows, a: Acquisition) {
    && (forall j :: j in a.recovered ==> j in rows && IsStale(rows[j], a.at, cfg.timeout))
    && (forall j :: j in Picked(a) ==> j in rows && IsAvailable(Midway(rows, a)[j], a.at))
    && (forall i, k :: 0 <= i < k < |Picked(a)| ==> Picked(a)[i] != Picked(a)[k])
    && |Picked(a)| <= a.limit
  }

  predicate Disjoint(open: map<TxId, Acquisition>) {
    forall t, u :: t in open && u in open && t != u ==> Held(open[t]) !! Held(open[u])
  }

  predicate OpenOk(cfg: Config, s: State) {
    && (forall t :: t in s.open ==> AcquisitionOk(cfg, s.world.rows, s.open[t]) && s.open[t].at <= s.now)
    && Disjoint(s.open)
  }

  /** A snapshot agrees with its row in what never changes, and its attempt number has not paid for a requeue yet. */
  predicate SnapshotOk(s: State, x: ExecId, snap: Job) {
    && x.job in s.world.rows && x.job in s.marks
    && snap.id == x.job && snap.attempts == x.attempt
    && 1 <= x.attempt <= s.world.rows[x.job].attempts
    && snap.maxAttempts == s.world.rows[x.job].maxAttempts
    && snap.session == s.world.rows[x.job].session
    && snap.dream == s.world.rows[x.job].dream
    && snap.mode == s.world.rows[x.job].mode
    && !Charged(s.marks[x.job], x.attempt)
  }

  predicate LiveOk(s: State) {
    forall x :: x in s.live ==> SnapshotOk(s, x, s.live[x]) && x !in s.spent
  }

  predicate SpentOk(cfg: Config, s: State) {
    forall x :: x in s.spent ==>
      && x.job in s.world.rows
      && 1 <= x.attempt <= s.world.rows[x.job].attempts
      && s.spent[x] <= CallLimit(cfg.llmAttempts)
  }

  /** A bound row belongs to a completed analysis job and lies in the job's thread. */
  predicate BindingOk(rows: Rows, row: Row) {
    row.job.Some? ==>
      && row.job.value in rows
      && rows[row.job.value].status == Completed
      && rows[row.job.value].dream.None?
      && rows[row.job.value].thread == Some(row.thread)
  }

  predicate IsBound(t: Tables, j: JobId) {
    exists i :: 0 <= i < |t.rows| && t.rows[i].job == Some(j)
  }

  predicate ResultsOk(s: State) {
    && HistoryOk(s.world.tables)
    && (forall i :: 0 <= i < |s.world.tables.rows| ==> BindingOk(s.world.rows, s.world.tables.rows[i]))
    && (forall i, k :: 0 <= i < k < |s.world.tables.rows| && s.world.tables.rows[i].job.Some? ==>
          s.world.tables.rows[i].job != s.world.tables.rows[k].job)
    && (forall j :: j in s.world.rows && s.world.rows[j].status == Completed && s.world.rows[j].dream.None? ==>
          IsBound(s.world.tables, j))
  }

  predicate SendOk(rows: Rows, j: JobId) {
    j in rows && rows[j].dream.None?
  }

  predicate OutboxOk(s: State) {
    && SendsSpaced(s.world.outbox.sends)
    && KeysGuard(s.world.outbox)
    && (forall i :: 0 <= i < |s.world.outbox.sends| ==> SendOk(s.world.rows, s.world.outbox.sends[i].job))
  }

  predicate Inv(cfg: Config, s: State) {
    && JobsOk(cfg, s)
    && OpenOk(cfg, s)
    && LiveOk(s)
    && SpentOk(cfg, s)
    && ResultsOk(s)
    && OutboxOk(s)
  }

  // ---------------------------------------------------------------- moves of one event

  /** Job j is still there and has moved in one of the listed ways. */
  ghost predicate JobMoved(cfg: Config, s: State, s': State, j: JobId)
    requires j in s.world.rows && j in s.marks
  {
    && j in s'.world.rows && j in s'.marks
    && exists m :: IsMove(cfg.timeout, m, s.world.rows[j], s.marks[j], s'.world.rows[j], s'.marks[j])
  }

  lemma CommitMove(cfg: Config, rows: Rows, marks: map<JobId, seq<Mark>>, a: Acquisition, j: JobId) returns (m: Move)
    requires AcquisitionOk(cfg, rows, a) && j in rows && j in marks
    ensures IsMove(cfg.timeout, m, rows[j], marks[j], CommittedRows(rows, a)[j], MarksOfCommit(marks, a)[j])
    ensures j !in Held(a) ==> m == Stay
    ensures j in Picked(a) ==> m == Acquire(a.at, a.worker) || m == Reacquire(a.at, a.worker)
    ensures j !in Picked(a) ==> m == Stay || m == Recover(a.at)
    ensures j in a.recovered <==> m.Recover? || m.Reacquire?
  {
    var mid := Midway(rows, a);
    assert marks[j] + [] + [] == marks[j];
    assert mid[j] == if j in a.recovered then RecoveredJob(rows[j], a.at) else rows[j];
    if j in a.recovered {
      m := if j in Picked(a) then Reacquire(a.at, a.worker) else Recover(a.at);
    } else {
      m := if j in Picked(a) then Acquire(a.at, a.worker) else Stay;
    }
  }

  predicate SnapshotReady(s: State, x: ExecId) {
    && x in s.live
    && SnapshotOk(s, x, s.live[x])
    && s.live[x].session in s.world.tables.sessions
  }

  lemma FinishMove(cfg: Config, s: State, x: ExecId, calls: nat, newThread: ThreadId, newRow: RowId, eff: Effect, w: World)
    returns (m: Move)
    requires SnapshotReady(s, x) && HasEffect(s.world, s.live[x], s.now, newThread, newRow, eff, w)
    ensures var s' := Finished(s, x, calls, w);
            && x.job in w.rows && x.job in s'.marks
            && IsMove(cfg.timeout, m, s.world.rows[x.job], s.marks[x.job], w.rows[x.job], s'.marks[x.job])
    ensures m == Stay || m == Requeue(s.now, x.attempt) || m.EndFailed? || m.EndCompleted?
    ensures m.EndCompleted? <==> eff.CompletesMemory? || eff.CompletesAnalysis?
    ensures m.Requeue? <==> eff == Requeues
    ensures m == Stay <==> eff == Nothing
    ensures m != Stay ==> s.world.rows[x.job].status == Running
  {
    assert s.marks[x.job] + [] == s.marks[x.job];
    match eff
    case Nothing => m := Stay;
    case Requeues => m := Requeue(s.now, x.attempt);
    case Fails(error, retryable) => m := EndFailed(s.now, error, retryable);
    case CompletesMemory => m := EndCompleted(s.now, None);
    case CompletesAnalysis(thread) => m := EndCompleted(s.now, Some(thread));
  }

  /** An ending execution touches no job but its own. */
  lemma FinishOthers(s: State, x: ExecId, calls: nat, newThread: ThreadId, newRow: RowId, eff: Effect, w: World)
    requires SnapshotReady(s, x) && HasEffect(s.world, s.live[x], s.now, newThread, newRow, eff, w)
    ensures w.rows.Keys == s.world.rows.Keys && w.tables.sessions == s.world.tables.sessions
    ensures forall k :: k in s.world.rows && k != x.job ==> w.rows[k] == s.world.rows[k]
    ensures forall k :: k in s.marks && k != x.job ==> Finished(s, x, calls, w).marks[k] == s.marks[k]
    ensures Finished(s, x, calls, w).marks.Keys == s.marks.Keys
  {
  }

  lemma LiveIsReady(cfg: Config, s: State, x: ExecId)
    requires JobsOk(cfg, s) && LiveOk(s) && x in s.live
    ensures SnapshotReady(s, x)
  {
    assert SnapshotOk(s, x, s.live[x]);
    assert JobOk(cfg, s, x.job);
  }

  /** What a Finish event does, as an effect. */
  lemma FinishEffect(cfg: Config, s: State, e: Event) returns (eff: Effect)
    requires JobsOk(cfg, s) && LiveOk(s) && HistoryOk(s.world.tables) && Enabled(cfg, s, e) && e.Finish?
    ensures SnapshotReady(s, e.exec)
    ensures HasEffect(s.world, s.live[e.exec], s.now, e.newThread, e.newRow, eff, WorldAfter(s, e))
    ensures eff == Requeues ==> e.outcome == Retryable
    ensures eff != Nothing ==> e.exec.job !in LockedRows(s.open)
  {
    LiveIsReady(cfg, s, e.exec);
    eff := ExecutionEffect(s.world, s.live[e.exec], e.outcome, e.wire, e.commits, s.now, e.newThread, e.newRow);
  }

  lemma MovedByFinish(cfg: Config, s: State, x: ExecId, calls: nat, newThread: ThreadId, newRow: RowId, eff: Effect, w: World, j: JobId)
    requires SnapshotReady(s, x) && HasEffect(s.world, s.live[x], s.now, newThread, newRow, eff, w)
    requires j in s.world.rows && j in s.marks
    ensures JobMoved(cfg, s, Finished(s, x, calls, w), j)
  {
    var s' := Finished(s, x, calls, w);
    FinishOthers(s, x, calls, newThread, newRow, eff, w);
    if j == x.job {
      var m := FinishMove(cfg, s, x, calls, newThread, newRow, eff, w);
    } else {
      assert IsMove(cfg.timeout, Stay, s.world.rows[j], s.marks[j], s'.world.rows[j], s'.marks[j]);
    }
  }

  lemma MovedByNothing(cfg: Config, s: State, s': State, j: JobId)
    requires j in s.world.rows && j in s.marks && j in s'.world.rows && j in s'.marks
    requires s'.world.rows[j] == s.world.rows[j] && s'.marks[j] == s.marks[j]
    ensures JobMoved(cfg, s, s', j)
  {
    assert IsMove(cfg.timeout, Stay, s.world.rows[j], s.marks[j], s'.world.rows[j], s'.marks[j]);
  }

  // ---------------------------------------------------------------- one step, component by component

  /** Lock table and clock. */
  predicate OpenStep(cfg: Config, s: State, e: Event, s': State) {
    && s'.now >= s.now
    && (e.Select? || e.Commit? ==> e.tx in s.open)
    && s'.open == match e
                  case Begin(tx, worker, limit) => AfterBegin(cfg, s, tx, worker, limit).open
                  case Select(tx, picked) => s.open[tx := s.open[tx].(picked := Some(picked))]
                  case Commit(tx) => s.open - {tx}
                  case Abort(tx) => s.open - {tx}
                  case _ => s.open
  }

  /** Executions. */
  predicate LiveStep(s: State, e: Event, s': State) {
    && (e.Commit? ==> e.tx in s.open)
    && s'.live == (match e
                   case Commit(tx) => s.live + Started(CommittedRows(s.world.rows, s.open[tx]), Picked(s.open[tx]))
                   case Finish(x, _, _, _, _, _, _) => s.live - {x}
                   case Crash(x, _) => s.live - {x}
                   case _ => s.live)
    && s'.spent == (match e
                    case Finish(x, _, calls, _, _, _, _) => s.spent[x := calls]
                    case Crash(x, calls) => s.spent[x := calls]
                    case _ => s.spent)
  }

  /** Jobs and their histories; eff is the effect of a Finish. */
  ghost predicate RowsStep(s: State, e: Event, eff: Effect, s': State) {
    if e.Finish? then
      && SnapshotReady(s, e.exec)
      && HasEffect(s.world, s.live[e.exec], s.now, e.newThread, e.newRow, eff, s'.world)
      && s'.marks == Finished(s, e.exec, e.calls, s'.world).marks
      && (eff != Nothing ==> e.exec.job !in LockedRows(s.open))
    else if e.Commit? then
      && e.tx in s.open
      && s'.world.rows == CommittedRows(s.world.rows, s.open[e.tx])
      && s'.marks == MarksOfCommit(s.marks, s.open[e.tx])
    else if e.Create? then
      && e.job !in s.world.rows
      && e.session in s.world.tables.sessions
      && s'.world.rows == s.world.rows[e.job := NewJob(e.job, e.session, e.dream, e.mode, e.maxAttempts, s.now)]
      && s'.marks == s.marks[e.job := []]
    else s'.world.rows == s.world.rows && s'.marks == s.marks
  }

  lemma StepOfOpen(cfg: Config, s: State, e: Event)
    requires Enabled(cfg, s, e)
    ensures OpenStep(cfg, s, e, After(cfg, s, e)) && LiveStep(s, e, After(cfg, s, e))
  {
  }

  lemma StepOfRows(cfg: Config, s: State, e: Event) returns (eff: Effect)
    requires JobsOk(cfg, s) && LiveOk(s) && HistoryOk(s.world.tables) && Enabled(cfg, s, e)
    ensures RowsStep(s, e, eff, After(cfg, s, e))
    ensures e.Finish? && eff == Requeues ==> e.outcome == Retryable
  {
    if e.Finish? {
      eff := FinishEffect(cfg, s, e);
    } else {
      eff := Nothing;
      OtherRows(cfg, s, e);
    }
  }

  lemma OtherRows(cfg: Config, s: State, e: Event)
    requires Enabled(cfg, s, e) && !e.Finish?
    ensures RowsStep(s, e, Nothing, After(cfg, s, e))
  {
  }

  /** Threads and analyses outside Finish: the history invariant holds, and at most one unbound row is added. */
  predicate TablesGrow(t: Tables, t': Tables) {
    && HistoryOk(t')
    && t.sessions.Keys <= t'.sessions.Keys
    && Extends(t.rows, t'.rows)
    && |t'.rows| <= |t.rows| + 1
    && (|t'.rows| > |t.rows| ==> t'.rows[|t.rows|].job == None)
  }

  lemma StepOfTables(cfg: Config, s: State, e: Event)
    requires HistoryOk(s.world.tables) && Enabled(cfg, s, e) && !e.Finish?
    ensures TablesGrow(s.world.tables, After(cfg, s, e).world.tables)
    ensures After(cfg, s, e).world.outbox == s.world.outbox
  {
    match e
    case AnalyseNow(session, mode, newThread, newRow) => AnalyseNowKeepsHistory(s, session, mode, newThread, newRow);
    case OpenSession(_, _) =>
      SessionsKeepHistory(s.world.tables, After(cfg, s, e).world.tables);
    case CloseSession(_) =>
      SessionsKeepHistory(s.world.tables, After(cfg, s, e).world.tables);
    case _ =>
  }

  lemma SessionsKeepHistory(t: Tables, t': Tables)
    requires HistoryOk(t) && t'.threads == t.threads && t'.rows == t.rows && t.sessions.Keys <= t'.sessions.Keys
    ensures HistoryOk(t')
  {
  }

  /** The synchronous path keeps the history invariant too. */
  lemma AnalyseNowKeepsHistory(s: State, session: SessionId, mode: Mode, newThread: ThreadId, newRow: RowId)
    requires HistoryOk(s.world.tables) && session in s.world.tables.sessions && FreshIds(s.world.tables, newThread, newRow)
    ensures TablesGrow(s.world.tables, AfterAnalyseNow(s, session, mode, newThread, newRow).world.tables)
    ensures AfterAnalyseNow(s, session, mode, newThread, newRow).world.outbox == s.world.outbox
  {
    var t := s.world.tables;
    var resolved := Resolve(t, session, mode, s.now, newThread);
    if resolved.Ok? {
      var (threads, thread) := resolved.value;
      var t1 := t.(threads := threads);
      var user := t.sessions[session].user;
      ResolveLeavesOneActive(t, session, mode, s.now, newThread);
      ResolveKeepsHistory(t, session, mode, s.now, newThread);
      AppendSucceeds(t1, thread, session, user, newRow, None, s.now);
      AppendKeepsHistory(t1, thread, Row(newRow, session, thread, user, true, CountIn(t.rows, thread), None), s.now);
    }
  }

  /** Every event moves every existing job in one of the listed ways, and drops none. */
  lemma EveryJobMoves(cfg: Config, s: State, e: Event, eff: Effect, s': State, j: JobId)
    requires OpenOk(cfg, s) && RowsStep(s, e, eff, s') && j in s.world.rows && j in s.marks
    ensures JobMoved(cfg, s, s', j)
  {
    if e.Commit? {
      assert AcquisitionOk(cfg, s.world.rows, s.open[e.tx]);
      var m := CommitMove(cfg, s.world.rows, s.marks, s.open[e.tx], j);
    } else if e.Finish? {
      MovedByFinish(cfg, s, e.exec, e.calls, e.newThread, e.newRow, eff, s'.world, j);
    } else {
      MovedByNothing(cfg, s, s', j);
    }
  }
}
