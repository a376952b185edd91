/** Every event keeps the runtime invariant. */
module RuntimeSteps {
  import opened Base
  import opened JobService
  import opened Threads
  import opened LlmPolicy
  import opened Delivery
  import opened ExecutorProofs
  import opened Runtime
  import opened JobHistory
  import opened RuntimeInvariant

  // ---------------------------------------------------------------- jobs

  lemma MovedJobIsOk(cfg: Config, s: State, s': State, j: JobId)
    requires j in s.world.rows && JobOk(cfg, s, j) && JobMoved(cfg, s, s', j)
    requires s.world.tables.sessions.Keys <= s'.world.tables.sessions.Keys
    ensures JobOk(cfg, s', j) && Preserves(s.world.rows[j], s'.world.rows[j]) && s.marks[j] <= s'.marks[j]
  {
    var m :| IsMove(cfg.timeout, m, s.world.rows[j], s.marks[j], s'.world.rows[j], s'.marks[j]);
    MoveKeepsRecord(cfg.timeout, m, s.world.rows[j], s.marks[j], s'.world.rows[j], s'.marks[j]);
    MoveKeepsHistory(cfg.timeout, m, s.world.rows[j], s.marks[j], s'.world.rows[j], s'.marks[j]);
  }

  /** Only Create adds a job; nothing deletes one. */
  lemma KeysOfStep(s: State, e: Event, eff: Effect, s': State)
    requires RowsStep(s, e, eff, s') && s.marks.Keys == s.world.rows.Keys
    ensures s'.world.rows.Keys == s.world.rows.Keys + (if e.Create? then {e.job} else {})
    ensures s'.marks.Keys == s'.world.rows.Keys
  {
    if e.Finish? {
      FinishOthers(s, e.exec, e.calls, e.newThread, e.newRow, eff, s'.world);
    }
  }

  lemma StepOfJob(cfg: Config, s: State, e: Event, eff: Effect, s': State, j: JobId)
    requires OpenOk(cfg, s) && RowsStep(s, e, eff, s') && j in s.world.rows && JobOk(cfg, s, j)
    requires s.world.tables.sessions.Keys <= s'.world.tables.sessions.Keys
    ensures JobMoved(cfg, s, s', j)
    ensures JobOk(cfg, s', j) && Preserves(s.world.rows[j], s'.world.rows[j]) && s.marks[j] <= s'.marks[j]
  {
    EveryJobMoves(cfg, s, e, eff, s', j);
    MovedJobIsOk(cfg, s, s', j);
  }

  lemma KeepsJobs(cfg: Config, s: State, e: Event, eff: Effect, s': State)
    requires JobsOk(cfg, s) && OpenOk(cfg, s) && RowsStep(s, e, eff, s')
    requires s.world.tables.sessions.Keys <= s'.world.tables.sessions.Keys
    ensures JobsOk(cfg, s')
  {
    KeysOfStep(s, e, eff, s');
    forall j | j in s'.world.rows ensures JobOk(cfg, s', j) {
      if j in s.world.rows {
        assert JobOk(cfg, s, j);
        StepOfJob(cfg, s, e, eff, s', j);
      } else {
        CreatedIsOk(cfg, s, e, eff, s', j);
      }
    }
  }

  lemma CreatedIsOk(cfg: Config, s: State, e: Event, eff: Effect, s': State, j: JobId)
    requires RowsStep(s, e, eff, s') && e.Create? && j == e.job
    requires s.world.tables.sessions.Keys <= s'.world.tables.sessions.Keys
    ensures j in s'.world.rows && JobOk(cfg, s', j)
  {
  }

  // ---------------------------------------------------------------- acquisitions

  lemma AcquisitionFrame(cfg: Config, rows: Rows, rows': Rows, a: Acquisition)
    requires AcquisitionOk(cfg, rows, a)
    requires forall j :: j in Held(a) ==> j in rows' && (j in rows ==> rows'[j] == rows[j])
    ensures AcquisitionOk(cfg, rows', a)
  {
    forall j | j in Picked(a) ensures j in rows' && IsAvailable(Midway(rows', a)[j], a.at) {
      assert j in Held(a);
    }
  }

  /** A row locked by an acquisition is changed by nobody but that acquisition. */
  lemma LockedRowIsStable(cfg: Config, s: State, e: Event, eff: Effect, s': State, t: TxId, j: JobId)
    requires OpenOk(cfg, s) && RowsStep(s, e, eff, s')
    requires t in s.open && j in Held(s.open[t]) && j in s.world.rows && j in s.marks && e != Commit(t)
    ensures j in s'.world.rows && s'.world.rows[j] == s.world.rows[j]
    ensures j in s'.marks && s'.marks[j] == s.marks[j]
  {
    if e.Commit? {
      assert AcquisitionOk(cfg, s.world.rows, s.open[e.tx]);
      assert Held(s.open[t]) !! Held(s.open[e.tx]);
      var m := CommitMove(cfg, s.world.rows, s.marks, s.open[e.tx], j);
    } else if e.Finish? {
      FinishOthers(s, e.exec, e.calls, e.newThread, e.newRow, eff, s'.world);
      assert j in LockedRows(s.open);
      if j == e.exec.job {
        var m := FinishMove(cfg, s, e.exec, e.calls, e.newThread, e.newRow, eff, s'.world);
      }
    }
  }

  lemma HeldAreRows(cfg: Config, rows: Rows, a: Acquisition)
    requires AcquisitionOk(cfg, rows, a)
    ensures Held(a) <= rows.Keys
  {
  }

  /** An acquisition that an event does not commit keeps its rows as it locked them. */
  lemma OpenStays(cfg: Config, s: State, e: Event, eff: Effect, s': State, t: TxId)
    requires OpenOk(cfg, s) && RowsStep(s, e, eff, s') && s.marks.Keys == s.world.rows.Keys
    requires t in s.open && e != Commit(t)
    ensures AcquisitionOk(cfg, s'.world.rows, s.open[t])
  {
    assert AcquisitionOk(cfg, s.world.rows, s.open[t]);
    HeldAreRows(cfg, s.world.rows, s.open[t]);
    forall j | j in Held(s.open[t]) ensures j in s'.world.rows && s'.world.rows[j] == s.world.rows[j] {
      LockedRowIsStable(cfg, s, e, eff, s', t, j);
    }
    AcquisitionFrame(cfg, s.world.rows, s'.world.rows, s.open[t]);
  }

  lemma BegunIsOk(cfg: Config, s: State, tx: TxId, worker: WorkerId, limit: nat)
    requires tx !in s.open
    ensures var a := AfterBegin(cfg, s, tx, worker, limit).open[tx];
            AcquisitionOk(cfg, s.world.rows, a) && (forall t :: t in s.open ==> Held(a) !! Held(s.open[t]))
  {
    var a := AfterBegin(cfg, s, tx, worker, limit).open[tx];
    forall t, j | t in s.open && j in Held(s.open[t]) ensures j !in Held(a) { assert j in LockedRows(s.open); }
  }

  lemma SelectedIsOk(cfg: Config, s: State, tx: TxId, picked: seq<JobId>)
    requires OpenOk(cfg, s) && Enabled(cfg, s, Select(tx, picked))
    ensures var a := s.open[tx].(picked := Some(picked));
            && AcquisitionOk(cfg, s.world.rows, a)
            && (forall t :: t in s.open && t != tx ==> Held(a) !! Held(s.open[t]))
  {
    var a := s.open[tx];
    assert AcquisitionOk(cfg, s.world.rows, a);
    var mid := Midway(s.world.rows, a);
    assert Midway(s.world.rows, a.(picked := Some(picked))) == mid;
    forall i, k | 0 <= i < k < |picked| ensures picked[i] != picked[k] { assert Before(mid[picked[i]], mid[picked[k]]); }
    forall t, j | t in s.open && t != tx && j in Held(s.open[t]) ensures j !in Held(a.(picked := Some(picked))) {
      assert Held(a) !! Held(s.open[t]);
      assert t in s.open - {tx};
      assert j in LockedRows(s.open - {tx});
    }
  }

  lemma KeepsOpen(cfg: Config, s: State, e: Event, eff: Effect, s': State)
    requires OpenOk(cfg, s) && RowsStep(s, e, eff, s') && OpenStep(cfg, s, e, s') && s.marks.Keys == s.world.rows.Keys
    requires (e.Begin? ==> e.tx !in s.open) && (e.Select? ==> Enabled(cfg, s, e))
    ensures OpenOk(cfg, s')
  {
    KeepsDisjoint(cfg, s, e, s');
    forall t | t in s'.open ensures AcquisitionOk(cfg, s'.world.rows, s'.open[t]) && s'.open[t].at <= s'.now {
      if e.Begin? && t == e.tx {
        BegunIsOk(cfg, s, e.tx, e.worker, e.limit);
      } else if e.Select? && t == e.tx {
        SelectedIsOk(cfg, s, e.tx, e.picked);
      } else {
        StaysOpen(cfg, s, e, s', t);
        OpenStays(cfg, s, e, eff, s', t);
      }
    }
  }

  lemma StaysOpen(cfg: Config, s: State, e: Event, s': State, t: TxId)
    requires OpenOk(cfg, s) && OpenStep(cfg, s, e, s') && t in s'.open && (e.Begin? || e.Select? ==> t != e.tx)
    ensures t in s.open && s'.open[t] == s.open[t] && e != Commit(t) && s.open[t].at <= s'.now
  {
  }

  lemma KeepsDisjoint(cfg: Config, s: State, e: Event, s': State)
    requires OpenOk(cfg, s) && OpenStep(cfg, s, e, s')
    requires (e.Begin? ==> e.tx !in s.open) && (e.Select? ==> Enabled(cfg, s, e))
    ensures Disjoint(s'.open)
  {
    if e.Begin? { BegunIsOk(cfg, s, e.tx, e.worker, e.limit); }
    if e.Select? { SelectedIsOk(cfg, s, e.tx, e.picked); }
  }

  // ---------------------------------------------------------------- executions

  lemma ChargedAppend(h: seq<Mark>, m: Mark, c: nat)
    ensures Charged(h + [m], c) <==> Charged(h, c) || (m.Requeued? && m.charge == c)
  {
    if Charged(h, c) {
      var i :| 0 <= i < |h| && h[i].Requeued? && h[i].charge == c;
      assert (h + [m])[i] == h[i];
    }
    if m.Requeued? && m.charge == c { assert (h + [m])[|h|] == m; }
  }

  /** A move charges at most the attempt number it names. */
  lemma MoveCharges(timeout: nat, m: Move, a: Job, h: seq<Mark>, b: Job, h': seq<Mark>, c: nat)
    requires IsMove(timeout, m, a, h, b, h') && !Charged(h, c) && (m.Requeue? ==> m.charge != c)
    ensures !Charged(h', c)
  {
    match m
    case Stay =>
    case Recover(at) => ChargedAppend(h, Recovered(at), c);
    case Acquire(at, _) => ChargedAppend(h, Acquired(at), c);
    case Reacquire(at, _) =>
      ChargedAppend(h, Recovered(at), c);
      ChargedAppend(h + [Recovered(at)], Acquired(at), c);
    case Requeue(at, charge) => ChargedAppend(h, Requeued(at, charge), c);
    case EndFailed(at, _, _) => ChargedAppend(h, Ended(at), c);
    case EndCompleted(at, _) => ChargedAppend(h, Ended(at), c);
  }

  /** No event charges the attempt number of an execution that stays live. */
  lemma StaysUncharged(cfg: Config, s: State, e: Event, eff: Effect, s': State, x: ExecId)
    requires OpenOk(cfg, s) && RowsStep(s, e, eff, s')
    requires x.job in s.world.rows && x.job in s.marks && !Charged(s.marks[x.job], x.attempt)
    requires e.Finish? ==> e.exec != x
    ensures x.job in s'.marks && !Charged(s'.marks[x.job], x.attempt)
  {
    var j := x.job;
    if e.Commit? {
      assert AcquisitionOk(cfg, s.world.rows, s.open[e.tx]);
      var m := CommitMove(cfg, s.world.rows, s.marks, s.open[e.tx], j);
      MoveCharges(cfg.timeout, m, s.world.rows[j], s.marks[j], s'.world.rows[j], s'.marks[j], x.attempt);
    } else if e.Finish? {
      FinishOthers(s, e.exec, e.calls, e.newThread, e.newRow, eff, s'.world);
      if e.exec.job == j {
        var m := FinishMove(cfg, s, e.exec, e.calls, e.newThread, e.newRow, eff, s'.world);
        MoveCharges(cfg.timeout, m, s.world.rows[j], s.marks[j], s'.world.rows[j], s'.marks[j], x.attempt);
      }
    }
  }

  lemma KeepsSnapshot(cfg: Config, s: State, e: Event, eff: Effect, s': State, x: ExecId)
    requires JobsOk(cfg, s) && OpenOk(cfg, s) && RowsStep(s, e, eff, s')
    requires s.world.tables.sessions.Keys <= s'.world.tables.sessions.Keys
    requires x in s.live && SnapshotOk(s, x, s.live[x]) && (e.Finish? ==> e.exec != x)
    ensures SnapshotOk(s', x, s.live[x])
  {
    assert JobOk(cfg, s, x.job);
    StaysUncharged(cfg, s, e, eff, s', x);
    StepOfJob(cfg, s, e, eff, s', x.job);
  }

  lemma NotChargedAbove(job: Job, h: seq<Mark>, c: nat)
    requires ChargesOk(job, h) && c > job.attempts
    ensures !Charged(h, c)
  {
  }

  /** A new execution has an attempt number that neither a requeue nor an earlier execution has used. */
  lemma StartedSnapshot(cfg: Config, s: State, e: Event, eff: Effect, s': State, x: ExecId)
    requires JobsOk(cfg, s) && OpenOk(cfg, s) && LiveOk(s) && SpentOk(cfg, s) && e.Commit? && RowsStep(s, e, eff, s')
    requires s.world.tables.sessions.Keys <= s'.world.tables.sessions.Keys
    requires x in Started(CommittedRows(s.world.rows, s.open[e.tx]), Picked(s.open[e.tx]))
    ensures SnapshotOk(s', x, Started(CommittedRows(s.world.rows, s.open[e.tx]), Picked(s.open[e.tx]))[x])
    ensures x !in s.spent && x !in s.live
  {
    var j := x.job;
    assert JobOk(cfg, s, j) && AcquisitionOk(cfg, s.world.rows, s.open[e.tx]);
    NotChargedAbove(s.world.rows[j], s.marks[j], x.attempt);
    StaysUncharged(cfg, s, e, eff, s', x);
    StepOfJob(cfg, s, e, eff, s', j);
    assert x in s.live ==> SnapshotOk(s, x, s.live[x]);
  }

  /** The executions that an event starts: those of a committed acquisition. */
  predicate Starts(s: State, e: Event, x: ExecId) {
    e.Commit? && e.tx in s.open && x in Started(CommittedRows(s.world.rows, s.open[e.tx]), Picked(s.open[e.tx]))
  }

  lemma StartedEntry(s: State, e: Event, s': State, x: ExecId)
    requires LiveStep(s, e, s') && Starts(s, e, x)
    ensures x in s'.live && s'.live[x] == Started(CommittedRows(s.world.rows, s.open[e.tx]), Picked(s.open[e.tx]))[x]
    ensures s'.spent == s.spent
  {
  }

  lemma StartedIsLive(cfg: Config, s: State, e: Event, eff: Effect, s': State, x: ExecId)
    requires JobsOk(cfg, s) && OpenOk(cfg, s) && LiveOk(s) && SpentOk(cfg, s)
    requires RowsStep(s, e, eff, s') && LiveStep(s, e, s') && Starts(s, e, x)
    requires s.world.tables.sessions.Keys <= s'.world.tables.sessions.Keys
    ensures x in s'.live && SnapshotOk(s', x, s'.live[x]) && x !in s'.spent
  {
    StartedEntry(s, e, s', x);
    StartedSnapshot(cfg, s, e, eff, s', x);
  }

  lemma OldStaysLive(cfg: Config, s: State, e: Event, eff: Effect, s': State, x: ExecId)
    requires JobsOk(cfg, s) && OpenOk(cfg, s) && LiveOk(s)
    requires RowsStep(s, e, eff, s') && LiveStep(s, e, s') && x in s'.live && !Starts(s, e, x)
    requires s.world.tables.sessions.Keys <= s'.world.tables.sessions.Keys
    ensures SnapshotOk(s', x, s'.live[x]) && x !in s'.spent
  {
    StaysLive(s, e, s', x);
    KeepsSnapshot(cfg, s, e, eff, s', x);
  }

  lemma IsLive(cfg: Config, s: State, e: Event, eff: Effect, s': State, x: ExecId)
    requires JobsOk(cfg, s) && OpenOk(cfg, s) && LiveOk(s) && SpentOk(cfg, s)
    requires RowsStep(s, e, eff, s') && LiveStep(s, e, s') && x in s'.live
    requires s.world.tables.sessions.Keys <= s'.world.tables.sessions.Keys
    ensures SnapshotOk(s', x, s'.live[x]) && x !in s'.spent
  {
    if Starts(s, e, x) { StartedIsLive(cfg, s, e, eff, s', x); } else { OldStaysLive(cfg, s, e, eff, s', x); }
  }

  lemma KeepsLive(cfg: Config, s: State, e: Event, eff: Effect, s': State)
    requires JobsOk(cfg, s) && OpenOk(cfg, s) && LiveOk(s) && SpentOk(cfg, s)
    requires RowsStep(s, e, eff, s') && LiveStep(s, e, s')
    requires s.world.tables.sessions.Keys <= s'.world.tables.sessions.Keys
    ensures LiveOk(s')
  {
    forall x | x in s'.live ensures SnapshotOk(s', x, s'.live[x]) && x !in s'.spent { IsLive(cfg, s, e, eff, s', x); }
  }

  /** An execution that an event does not start was live before it, with the same snapshot. */
  lemma StaysLive(s: State, e: Event, s': State, x: ExecId)
    requires LiveOk(s) && LiveStep(s, e, s') && x in s'.live && !Starts(s, e, x)
    ensures x in s.live && s'.live[x] == s.live[x] && SnapshotOk(s, x, s.live[x])
    ensures x !in s'.spent && (e.Finish? || e.Crash? ==> e.exec != x)
  {
  }

  lemma KeepsSpent(cfg: Config, s: State, e: Event, eff: Effect, s': State)
    requires JobsOk(cfg, s) && OpenOk(cfg, s) && LiveOk(s) && SpentOk(cfg, s)
    requires RowsStep(s, e, eff, s') && LiveStep(s, e, s')
    requires (e.Finish? || e.Crash?) ==> e.exec in s.live && e.calls <= CallLimit(cfg.llmAttempts)
    requires s.world.tables.sessions.Keys <= s'.world.tables.sessions.Keys
    ensures SpentOk(cfg, s')
  {
    forall x | x in s'.spent
      ensures x.job in s'.world.rows && 1 <= x.attempt <= s'.world.rows[x.job].attempts && s'.spent[x] <= CallLimit(cfg.llmAttempts)
    {
      SpentBefore(cfg, s, e, s', x);
      assert JobOk(cfg, s, x.job);
      StepOfJob(cfg, s, e, eff, s', x.job);
    }
  }

  lemma SpentBefore(cfg: Config, s: State, e: Event, s': State, x: ExecId)
    requires LiveOk(s) && SpentOk(cfg, s) && LiveStep(s, e, s') && x in s'.spent
    requires (e.Finish? || e.Crash?) ==> e.exec in s.live && e.calls <= CallLimit(cfg.llmAttempts)
    ensures x.job in s.world.rows && 1 <= x.attempt <= s.world.rows[x.job].attempts
    ensures s'.spent[x] <= CallLimit(cfg.llmAttempts)
  {
    if x in s.live { assert SnapshotOk(s, x, s.live[x]); }
  }

  // ---------------------------------------------------------------- results

  lemma BoundStays(t: Tables, t': Tables, j: JobId)
    requires Extends(t.rows, t'.rows) && IsBound(t, j)
    ensures IsBound(t', j)
  {
    var i :| 0 <= i < |t.rows| && t.rows[i].job == Some(j);
    assert t'.rows[i].job == Some(j);
  }

  /** A job becomes completed only when its own execution completes it. */
  lemma NewlyCompleted(cfg: Config, s: State, e: Event, eff: Effect, s': State, j: JobId)
    requires OpenOk(cfg, s) && RowsStep(s, e, eff, s') && s.marks.Keys == s.world.rows.Keys
    requires j in s'.world.rows && s'.world.rows[j].status == Completed
    requires j in s.world.rows ==> s.world.rows[j].status != Completed
    ensures e.Finish? && e.exec.job == j && (eff.CompletesAnalysis? || eff == CompletesMemory)
  {
    KeysOfStep(s, e, eff, s');
    if e.Commit? {
      assert AcquisitionOk(cfg, s.world.rows, s.open[e.tx]);
      var m := CommitMove(cfg, s.world.rows, s.marks, s.open[e.tx], j);
    } else if e.Finish? {
      FinishOthers(s, e.exec, e.calls, e.newThread, e.newRow, eff, s'.world);
    }
  }

  predicate BoundOnce(rows: seq<Row>) {
    forall i, k :: 0 <= i < k < |rows| && rows[i].job.Some? ==> rows[i].job != rows[k].job
  }

  /** Rows bound before stay bound to the same completed job. */
  lemma OldBindings(cfg: Config, s: State, e: Event, eff: Effect, s': State, i: nat)
    requires JobsOk(cfg, s) && OpenOk(cfg, s) && RowsStep(s, e, eff, s')
    requires s.world.tables.sessions.Keys <= s'.world.tables.sessions.Keys
    requires Extends(s.world.tables.rows, s'.world.tables.rows)
    requires i < |s.world.tables.rows| && BindingOk(s.world.rows, s.world.tables.rows[i])
    ensures BindingOk(s'.world.rows, s'.world.tables.rows[i])
  {
    var row := s.world.tables.rows[i];
    assert s'.world.tables.rows[i].job == row.job && s'.world.tables.rows[i].thread == row.thread;
    if row.job.Some? {
      assert JobOk(cfg, s, row.job.value);
      StepOfJob(cfg, s, e, eff, s', row.job.value);
    }
  }

  lemma BoundOnceAfter(before: seq<Row>, after: seq<Row>)
    requires BoundOnce(before) && Extends(before, after) && |after| <= |before| + 1
    requires |after| > |before| && after[|before|].job.Some? ==>
               forall i :: 0 <= i < |before| ==> before[i].job != after[|before|].job
    ensures BoundOnce(after)
  {
    forall i, k | 0 <= i < k < |after| && after[i].job.Some? ensures after[i].job != after[k].job {
      assert after[i].job == before[i].job;
      if k < |before| { assert after[k].job == before[k].job; }
    }
  }

  /** What an event adds to the analyses: at most one row, bound only if an execution completes its analysis. */
  predicate RowsGrow(s: State, e: Event, eff: Effect, s': State) {
    var rows, rows' := s.world.tables.rows, s'.world.tables.rows;
    && Extends(rows, rows') && |rows'| <= |rows| + 1
    && s.world.tables.sessions.Keys <= s'.world.tables.sessions.Keys
    && (|rows'| > |rows| && rows'[|rows|].job.Some? ==> e.Finish? && eff.CompletesAnalysis?)
    && (e.Finish? && eff.CompletesAnalysis? ==> |rows'| == |rows| + 1 && rows'[|rows|].job == Some(e.exec.job))
  }

  lemma StepGrowsRows(cfg: Config, s: State, e: Event, eff: Effect, s': State)
    requires HistoryOk(s.world.tables) && RowsStep(s, e, eff, s')
    requires !e.Finish? ==> TablesGrow(s.world.tables, s'.world.tables)
    requires e.Finish? ==> Ready(s.world, s.live[e.exec], e.newThread, e.newRow)
    ensures RowsGrow(s, e, eff, s') && HistoryOk(s'.world.tables)
  {
    if e.Finish? && eff.CompletesAnalysis? {
      CompletedAnalysisKeepsHistory(s.world, s.live[e.exec], s.now, e.newThread, e.newRow, eff.thread, s'.world);
    }
  }

  lemma NewBinding(cfg: Config, s: State, e: Event, eff: Effect, s': State)
    requires RowsStep(s, e, eff, s') && RowsGrow(s, e, eff, s') && |s'.world.tables.rows| > |s.world.tables.rows|
    requires e.Finish? ==> Ready(s.world, s.live[e.exec], e.newThread, e.newRow)
    ensures BindingOk(s'.world.rows, s'.world.tables.rows[|s.world.tables.rows|])
  {
    if e.Finish? && eff.CompletesAnalysis? {
      CompletedAnalysisKeepsHistory(s.world, s.live[e.exec], s.now, e.newThread, e.newRow, eff.thread, s'.world);
    }
  }

  /** The job that completes now was not completed, so no row was bound to it. */
  lemma StaysBoundOnce(s: State, e: Event, eff: Effect, s': State)
    requires ResultsOk(s) && RowsStep(s, e, eff, s') && RowsGrow(s, e, eff, s')
    ensures BoundOnce(s'.world.tables.rows)
  {
    var rows, rows' := s.world.tables.rows, s'.world.tables.rows;
    forall i | 0 <= i < |rows| && |rows'| > |rows| && rows'[|rows|].job.Some? ensures rows[i].job != rows'[|rows|].job {
      assert BindingOk(s.world.rows, rows[i]);
    }
    BoundOnceAfter(rows, rows');
  }

  lemma KeepsResults(cfg: Config, s: State, e: Event, eff: Effect, s': State)
    requires JobsOk(cfg, s) && OpenOk(cfg, s) && ResultsOk(s) && RowsStep(s, e, eff, s')
    requires !e.Finish? ==> TablesGrow(s.world.tables, s'.world.tables)
    requires e.Finish? ==> Ready(s.world, s.live[e.exec], e.newThread, e.newRow)
    ensures ResultsOk(s') && s.world.tables.sessions.Keys <= s'.world.tables.sessions.Keys
  {
    StepGrowsRows(cfg, s, e, eff, s');
    KeepsBindings(cfg, s, e, eff, s');
    StaysBoundOnce(s, e, eff, s');
    KeepsBound(cfg, s, e, eff, s');
  }

  lemma KeepsBindings(cfg: Config, s: State, e: Event, eff: Effect, s': State)
    requires JobsOk(cfg, s) && OpenOk(cfg, s) && ResultsOk(s) && RowsStep(s, e, eff, s') && RowsGrow(s, e, eff, s')
    requires e.Finish? ==> Ready(s.world, s.live[e.exec], e.newThread, e.newRow)
    ensures forall i :: 0 <= i < |s'.world.tables.rows| ==> BindingOk(s'.world.rows, s'.world.tables.rows[i])
  {
    var rows, rows' := s.world.tables.rows, s'.world.tables.rows;
    forall i | 0 <= i < |rows'| ensures BindingOk(s'.world.rows, rows'[i]) {
      if i < |rows| { OldBindings(cfg, s, e, eff, s', i); } else { NewBinding(cfg, s, e, eff, s'); }
    }
  }

  lemma KeepsBound(cfg: Config, s: State, e: Event, eff: Effect, s': State)
    requires JobsOk(cfg, s) && OpenOk(cfg, s) && ResultsOk(s) && RowsStep(s, e, eff, s') && RowsGrow(s, e, eff, s')
    ensures forall j :: j in s'.world.rows && s'.world.rows[j].status == Completed && s'.world.rows[j].dream.None? ==>
              IsBound(s'.world.tables, j)
  {
    forall j | j in s'.world.rows && s'.world.rows[j].status == Completed && s'.world.rows[j].dream.None?
      ensures IsBound(s'.world.tables, j)
    {
      BoundAfter(cfg, s, e, eff, s', j);
    }
  }

  lemma BoundAfter(cfg: Config, s: State, e: Event, eff: Effect, s': State, j: JobId)
    requires JobsOk(cfg, s) && OpenOk(cfg, s) && ResultsOk(s) && RowsStep(s, e, eff, s')
    requires s.world.tables.sessions.Keys <= s'.world.tables.sessions.Keys
    requires Extends(s.world.tables.rows, s'.world.tables.rows)
    requires e.Finish? && eff.CompletesAnalysis? ==>
               |s'.world.tables.rows| == |s.world.tables.rows| + 1
               && s'.world.tables.rows[|s.world.tables.rows|].job == Some(e.exec.job)
    requires j in s'.world.rows && s'.world.rows[j].status == Completed && s'.world.rows[j].dream.None?
    ensures IsBound(s'.world.tables, j)
  {
    if j in s.world.rows && s.world.rows[j].status == Completed {
      assert JobOk(cfg, s, j);
      StepOfJob(cfg, s, e, eff, s', j);
      BoundStays(s.world.tables, s'.world.tables, j);
    } else {
      NewlyCompleted(cfg, s, e, eff, s', j);
    }
  }

  // ---------------------------------------------------------------- outbox

  lemma KeepsSend(cfg: Config, s: State, e: Event, eff: Effect, s': State, j: JobId)
    requires JobsOk(cfg, s) && OpenOk(cfg, s) && RowsStep(s, e, eff, s') && SendOk(s.world.rows, j)
    requires s.world.tables.sessions.Keys <= s'.world.tables.sessions.Keys
    ensures SendOk(s'.world.rows, j)
  {
    assert JobOk(cfg, s, j);
    StepOfJob(cfg, s, e, eff, s', j);
  }

  /** Where the sends after a step come from. */
  lemma SendsBefore(s: State, e: Event, s': State, i: nat)
    requires OutboxOk(s) && i < |s'.world.outbox.sends|
    requires !e.Finish? ==> s'.world.outbox == s.world.outbox
    requires e.Finish? ==> SnapshotReady(s, e.exec) && SendsGrow(s.world, s.live[e.exec], s.now, s'.world)
    ensures SendOk(s.world.rows, s'.world.outbox.sends[i].job)
  {
    var before := s.world.outbox.sends;
    if i < |before| {
      assert s'.world.outbox.sends[i] == before[i];
      assert SendOk(s.world.rows, before[i].job);
    } else {
      assert e.Finish? && s'.world.outbox.sends[i] == Send(s.live[e.exec].id, s.now);
    }
  }

  lemma KeepsOutbox(cfg: Config, s: State, e: Event, eff: Effect, s': State)
    requires JobsOk(cfg, s) && OpenOk(cfg, s) && OutboxOk(s) && RowsStep(s, e, eff, s')
    requires s.world.tables.sessions.Keys <= s'.world.tables.sessions.Keys
    requires !e.Finish? ==> s'.world.outbox == s.world.outbox
    requires e.Finish? ==> SendsGrow(s.world, s.live[e.exec], s.now, s'.world)
    ensures OutboxOk(s')
  {
    forall i | 0 <= i < |s'.world.outbox.sends| ensures SendOk(s'.world.rows, s'.world.outbox.sends[i].job) {
      SendsBefore(s, e, s', i);
      KeepsSend(cfg, s, e, eff, s', s'.world.outbox.sends[i].job);
    }
  }

  // ---------------------------------------------------------------- the whole invariant

  lemma InitialInv(cfg: Config, s: State)
    requires Initial(s)
    ensures Inv(cfg, s)
  {
  }

  lemma FinishOutbox(cfg: Config, s: State, e: Event)
    requires Inv(cfg, s) && Enabled(cfg, s, e) && e.Finish?
    ensures Ready(s.world, s.live[e.exec], e.newThread, e.newRow)
    ensures SendsGrow(s.world, s.live[e.exec], s.now, WorldAfter(s, e))
    ensures WorldAfter(s, e).outbox.sends != s.world.outbox.sends ==> e.outcome == Analysed
    ensures e.commits ==> SentIfCompleted(s.world, s.live[e.exec], WorldAfter(s, e))
  {
    LiveIsReady(cfg, s, e.exec);
    assert JobOk(cfg, s, e.exec.job);
    ExecutionSends(s.world, s.live[e.exec], e.outcome, e.wire, e.commits, s.now, e.newThread, e.newRow);
  }

  /** Everything the preservation lemmas need about one event. */
  ghost predicate StepFacts(cfg: Config, s: State, e: Event, eff: Effect, s': State) {
    && OpenStep(cfg, s, e, s') && LiveStep(s, e, s') && RowsStep(s, e, eff, s')
    && (e.Begin? ==> e.tx !in s.open)
    && (e.Finish? || e.Crash? ==> e.exec in s.live && e.calls <= CallLimit(cfg.llmAttempts))
    && (!e.Finish? ==> TablesGrow(s.world.tables, s'.world.tables) && s'.world.outbox == s.world.outbox)
    && (e.Finish? ==> Ready(s.world, s.live[e.exec], e.newThread, e.newRow) && SendsGrow(s.world, s.live[e.exec], s.now, s'.world))
  }

  lemma FactsOfStep(cfg: Config, s: State, e: Event) returns (eff: Effect)
    requires Inv(cfg, s) && Enabled(cfg, s, e)
    ensures StepFacts(cfg, s, e, eff, After(cfg, s, e))
    ensures e.Finish? && eff == Requeues ==> e.outcome == Retryable
  {
    eff := StepOfRows(cfg, s, e);
    StepOfOpen(cfg, s, e);
    if e.Finish? { FinishOutbox(cfg, s, e); } else { StepOfTables(cfg, s, e); }
  }

  lemma FactsKeepInv(cfg: Config, s: State, e: Event, eff: Effect, s': State)
    requires Inv(cfg, s) && StepFacts(cfg, s, e, eff, s') && (e.Select? ==> Enabled(cfg, s, e))
    ensures Inv(cfg, s')
  {
    KeepsResults(cfg, s, e, eff, s');
    KeepsJobs(cfg, s, e, eff, s');
    KeepsOpen(cfg, s, e, eff, s');
    KeepsLive(cfg, s, e, eff, s');
    KeepsSpent(cfg, s, e, eff, s');
    KeepsOutbox(cfg, s, e, eff, s');
  }

  lemma StepKeepsInv(cfg: Config, s: State, e: Event)
    requires Inv(cfg, s) && Enabled(cfg, s, e)
    ensures Inv(cfg, After(cfg, s, e))
  {
    var eff := FactsOfStep(cfg, s, e);
    FactsKeepInv(cfg, s, e, eff, After(cfg, s, e));
  }

  /** The invariant holds in every state of every run. */
  lemma {:induction false} RunInv(cfg: Config, tr: seq<State>, evs: seq<Event>, i: nat)
    requires IsRun(cfg, tr, evs) && i < |tr|
    ensures Inv(cfg, tr[i])
  {
    if i == 0 {
      InitialInv(cfg, tr[0]);
    } else {
      RunInv(cfg, tr, evs, i - 1);
      assert StepAt(cfg, tr, evs, i - 1);
      StepKeepsInv(cfg, tr[i - 1], evs[i - 1]);
    }
  }
}
