/** Leases and row locks: timely runs have exclusive executions, and acquisitions never overlap. */
module RuntimeLeases {
  import opened Base
  import opened JobService
  import opened Threads
  import opened Delivery
  import opened Executor
  import opened ExecutorProofs
  import opened Runtime
  import opened JobHistory
  import opened RuntimeInvariant
  import opened RuntimeSteps
  import opened RuntimeTheorems

  // ---------------------------------------------------------------- leases

  /** No live execution has outlived its lease. */
  predicate Timely(cfg: Config, s: State) {
    forall x :: x in s.live && s.live[x].lockedAt.Some? ==> s.now < s.live[x].lockedAt.value + cfg.timeout
  }

  /** Each live execution still owns its running job. */
  predicate Owns(s: State, x: ExecId, snap: Job) {
    && x.job in s.world.rows
    && s.world.rows[x.job].status == Running
    && s.world.rows[x.job].attempts == x.attempt
    && s.world.rows[x.job].lockedBy == snap.lockedBy
    && s.world.rows[x.job].lockedAt == snap.lockedAt
    && snap.lockedAt.Some?
    && x.job !in LockedRows(s.open)
  }

  predicate LeaseOk(s: State) {
    forall x :: x in s.live ==> Owns(s, x, s.live[x])
  }

  predicate Unlocked(open: map<TxId, Acquisition>, j: JobId) {
    forall t :: t in open ==> j !in Held(open[t])
  }

  /** In a timely state no event but a new acquisition's commit locks or takes a row of a live execution. */
  lemma LiveStaysUnlocked(cfg: Config, s: State, e: Event, s': State, x: ExecId)
    requires LeaseOk(s) && Timely(cfg, s) && OpenStep(cfg, s, e, s') && (e.Select? ==> Enabled(cfg, s, e)) && x in s.live
    ensures Unlocked(s'.open, x.job)
  {
    assert Owns(s, x, s.live[x]);
    forall t | t in s'.open ensures x.job !in Held(s'.open[t]) {
      if e.Select? && t == e.tx {
        assert x.job !in Held(s.open[t]);
        assert Midway(s.world.rows, s.open[t])[x.job] == s.world.rows[x.job];
        assert x.job !in e.picked;
      } else if !(e.Begin? && t == e.tx) {
        assert s.open[t] == s'.open[t];
      }
    }
  }

  lemma StartedOwns(cfg: Config, s: State, e: Event, eff: Effect, s': State, x: ExecId)
    requires OpenOk(cfg, s) && e.Commit? && OpenStep(cfg, s, e, s') && RowsStep(s, e, eff, s')
    requires x in Started(CommittedRows(s.world.rows, s.open[e.tx]), Picked(s.open[e.tx]))
    ensures Owns(s', x, Started(CommittedRows(s.world.rows, s.open[e.tx]), Picked(s.open[e.tx]))[x])
  {
    var a := s.open[e.tx];
    assert AcquisitionOk(cfg, s.world.rows, a);
    assert x.job in Held(a);
    forall t | t in s'.open ensures x.job !in Held(s'.open[t]) {
      assert Held(s.open[t]) !! Held(a);
    }
  }

  /** The part of the job's row that an execution owns. */
  predicate OwnedRow(rows: Rows, x: ExecId, snap: Job) {
    && x.job in rows
    && rows[x.job].status == Running
    && rows[x.job].attempts == x.attempt
    && rows[x.job].lockedBy == snap.lockedBy
    && rows[x.job].lockedAt == snap.lockedAt
  }

  lemma CommitLeavesRow(cfg: Config, s: State, tx: TxId, x: ExecId)
    requires JobsOk(cfg, s) && OpenOk(cfg, s) && LeaseOk(s) && x in s.live && tx in s.open
    ensures OwnedRow(CommittedRows(s.world.rows, s.open[tx]), x, s.live[x])
  {
    assert Owns(s, x, s.live[x]);
    assert JobOk(cfg, s, x.job);
    assert AcquisitionOk(cfg, s.world.rows, s.open[tx]);
    assert x.job !in Held(s.open[tx]);
    var m := CommitMove(cfg, s.world.rows, s.marks, s.open[tx], x.job);
  }

  lemma FinishLeavesRow(cfg: Config, s: State, e: Event, eff: Effect, w: World, x: ExecId)
    requires LeaseOk(s) && LiveOk(s) && e.Finish? && SnapshotReady(s, e.exec) && x in s.live && e.exec != x
    requires HasEffect(s.world, s.live[e.exec], s.now, e.newThread, e.newRow, eff, w)
    ensures OwnedRow(w.rows, x, s.live[x])
  {
    assert Owns(s, x, s.live[x]) && Owns(s, e.exec, s.live[e.exec]);
    assert e.exec.job != x.job;
    FinishOthers(s, e.exec, e.calls, e.newThread, e.newRow, eff, w);
  }

  lemma StepLeavesRow(cfg: Config, s: State, e: Event, eff: Effect, s': State, x: ExecId)
    requires JobsOk(cfg, s) && OpenOk(cfg, s) && LiveOk(s) && LeaseOk(s) && RowsStep(s, e, eff, s')
    requires x in s.live && (e.Finish? ==> e.exec != x)
    ensures OwnedRow(s'.world.rows, x, s.live[x])
  {
    assert Owns(s, x, s.live[x]);
    if e.Commit? { CommitLeavesRow(cfg, s, e.tx, x); }
    if e.Finish? { FinishLeavesRow(cfg, s, e, eff, s'.world, x); }
  }

  /** An execution that stays live keeps its job: nobody else may touch it. */
  lemma StillOwns(cfg: Config, s: State, e: Event, eff: Effect, s': State, x: ExecId)
    requires JobsOk(cfg, s) && OpenOk(cfg, s) && LiveOk(s) && LeaseOk(s) && Timely(cfg, s)
    requires RowsStep(s, e, eff, s') && OpenStep(cfg, s, e, s') && (e.Select? ==> Enabled(cfg, s, e))
    requires x in s.live && (e.Finish? || e.Crash? ==> e.exec != x)
    ensures Owns(s', x, s.live[x])
  {
    assert Owns(s, x, s.live[x]);
    StepLeavesRow(cfg, s, e, eff, s', x);
    LiveStaysUnlocked(cfg, s, e, s', x);
  }

  lemma KeepsLease(cfg: Config, s: State, e: Event, eff: Effect, s': State)
    requires JobsOk(cfg, s) && OpenOk(cfg, s) && LiveOk(s) && LeaseOk(s) && Timely(cfg, s)
    requires StepFacts(cfg, s, e, eff, s') && (e.Select? ==> Enabled(cfg, s, e))
    ensures LeaseOk(s')
  {
    forall x | x in s'.live ensures Owns(s', x, s'.live[x]) { KeepsOwner(cfg, s, e, eff, s', x); }
  }

  lemma NewOwner(cfg: Config, s: State, e: Event, eff: Effect, s': State, x: ExecId)
    requires OpenOk(cfg, s) && OpenStep(cfg, s, e, s') && RowsStep(s, e, eff, s') && LiveStep(s, e, s') && Starts(s, e, x)
    ensures x in s'.live && Owns(s', x, s'.live[x])
  {
    StartedOwns(cfg, s, e, eff, s', x);
    StartedEntry(s, e, s', x);
  }

  lemma OldOwner(cfg: Config, s: State, e: Event, eff: Effect, s': State, x: ExecId)
    requires JobsOk(cfg, s) && OpenOk(cfg, s) && LiveOk(s) && LeaseOk(s) && Timely(cfg, s)
    requires StepFacts(cfg, s, e, eff, s') && (e.Select? ==> Enabled(cfg, s, e)) && x in s'.live && !Starts(s, e, x)
    ensures Owns(s', x, s'.live[x])
  {
    StaysLive(s, e, s', x);
    StillOwns(cfg, s, e, eff, s', x);
  }

  lemma KeepsOwner(cfg: Config, s: State, e: Event, eff: Effect, s': State, x: ExecId)
    requires JobsOk(cfg, s) && OpenOk(cfg, s) && LiveOk(s) && LeaseOk(s) && Timely(cfg, s)
    requires StepFacts(cfg, s, e, eff, s') && (e.Select? ==> Enabled(cfg, s, e)) && x in s'.live
    ensures Owns(s', x, s'.live[x])
  {
    if Starts(s, e, x) { NewOwner(cfg, s, e, eff, s', x); } else { OldOwner(cfg, s, e, eff, s', x); }
  }

  lemma StepKeepsLease(cfg: Config, tr: seq<State>, evs: seq<Event>, i: nat)
    requires IsRun(cfg, tr, evs) && i < |evs| && LeaseOk(tr[i]) && Timely(cfg, tr[i])
    ensures LeaseOk(tr[i + 1])
  {
    var eff := RunStep(cfg, tr, evs, i);
    KeepsLease(cfg, tr[i], evs[i], eff, tr[i + 1]);
  }

  lemma {:induction false} TimelyRunsKeepLeases(cfg: Config, tr: seq<State>, evs: seq<Event>, i: nat)
    requires IsRun(cfg, tr, evs) && i < |tr|
    requires forall k :: 0 <= k < i ==> Timely(cfg, tr[k])
    ensures LeaseOk(tr[i])
  {
    if i > 0 {
      TimelyRunsKeepLeases(cfg, tr, evs, i - 1);
      StepKeepsLease(cfg, tr, evs, i - 1);
    }
  }

  /** Lease safety: when executions end before their leases do, a job has at most one live execution, that execution
      holds the job's lock, and its completion, failure or requeue is neither blocked nor rejected. */
  lemma LeaseSafety(cfg: Config, tr: seq<State>, evs: seq<Event>, i: nat, x: ExecId)
    requires IsRun(cfg, tr, evs) && i < |tr| && (forall k :: 0 <= k < i ==> Timely(cfg, tr[k]))
    requires x in tr[i].live
    ensures forall y :: y in tr[i].live && y.job == x.job ==> y == x
    ensures Owns(tr[i], x, tr[i].live[x])
    ensures forall thread, now :: Complete(tr[i].world.rows, x.job, thread, now).Ok?
    ensures forall error, retryable, now :: Fail(tr[i].world.rows, x.job, error, retryable, now).Ok?
    ensures forall after, error, now :: Delay(tr[i].world.rows, x.job, after, error, now).Ok?
  {
    TimelyRunsKeepLeases(cfg, tr, evs, i);
    assert Owns(tr[i], x, tr[i].live[x]);
    forall y | y in tr[i].live && y.job == x.job ensures y == x { assert Owns(tr[i], y, tr[i].live[y]); }
  }

  /** Timely or not, a live execution holds its job exactly as long as nothing has followed its acquisition; what follows
      is a recovery, or the end that another execution of the job gave it. */
  lemma LeaseLostExactly(cfg: Config, tr: seq<State>, evs: seq<Event>, i: nat, x: ExecId)
    requires IsRun(cfg, tr, evs) && i < |tr| && x in tr[i].live
    ensures x.job in tr[i].world.rows && x.job in tr[i].marks
    ensures var job, h := tr[i].world.rows[x.job], tr[i].marks[x.job];
      && 1 <= x.attempt && 2 * x.attempt - 2 < |h| && h[2 * x.attempt - 2].Acquired?
      && (job.status == Running && job.attempts == x.attempt <==> |h| == 2 * x.attempt - 1)
      && (|h| != 2 * x.attempt - 1 ==>
            |h| >= 2 * x.attempt && var next := h[2 * x.attempt - 1];
            next.Recovered? || next.Ended? || (next.Requeued? && next.charge != x.attempt))
  {
    RunInv(cfg, tr, evs, i);
    assert SnapshotOk(tr[i], x, tr[i].live[x]);
    assert JobOk(cfg, tr[i], x.job);
    LostExactly(cfg.timeout, tr[i].world.rows[x.job], tr[i].marks[x.job], x.attempt);
  }

  lemma LostExactly(timeout: nat, job: Job, h: seq<Mark>, attempt: nat)
    requires HistoryFits(timeout, job, h) && 1 <= attempt <= job.attempts && !Charged(h, attempt)
    ensures 2 * attempt - 2 < |h| && h[2 * attempt - 2].Acquired?
    ensures job.status == Running && job.attempts == attempt <==> |h| == 2 * attempt - 1
    ensures |h| != 2 * attempt - 1 ==>
              |h| >= 2 * attempt && var next := h[2 * attempt - 1];
              next.Recovered? || next.Ended? || (next.Requeued? && next.charge != attempt)
  {
    RunningIsOdd(timeout, job, h);
    LostAt(h, attempt);
  }

  lemma RunningIsOdd(timeout: nat, job: Job, h: seq<Mark>)
    requires HistoryFits(timeout, job, h)
    ensures Alternates(h) && job.attempts == (|h| + 1) / 2 && (job.status == Running <==> |h| % 2 == 1)
  {
    AcquiredIsHalf(h);
    if h != [] { Parity(h, |h| - 1); }
  }

  lemma LostAt(h: seq<Mark>, attempt: nat)
    requires Alternates(h) && 1 <= attempt <= (|h| + 1) / 2 && !Charged(h, attempt)
    ensures 2 * attempt - 2 < |h| && h[2 * attempt - 2].Acquired?
    ensures |h| != 2 * attempt - 1 ==>
              |h| >= 2 * attempt && var next := h[2 * attempt - 1];
              next.Recovered? || next.Ended? || (next.Requeued? && next.charge != attempt)
  {
    Parity(h, 2 * attempt - 2);
    if |h| >= 2 * attempt {
      Parity(h, 2 * attempt - 1);
      NotCharged(h, attempt, 2 * attempt - 1);
    }
  }

  lemma Parity(h: seq<Mark>, k: nat)
    requires Alternates(h) && k < |h|
    ensures h[k].Acquired? <==> k % 2 == 0
  {
  }

  lemma NotCharged(h: seq<Mark>, attempt: nat, k: nat)
    requires !Charged(h, attempt) && k < |h|
    ensures h[k].Requeued? ==> h[k].charge != attempt
  {
  }

  /** The state of a table with one job and no open transaction. */
  predicate Alone(s: State, j: JobId) {
    s.open == map[] && s.world.rows.Keys == {j} && s.marks.Keys == {j}
  }

  predicate SameJob(a: Job, b: Job) {
    b.session == a.session && b.dream == a.dream && b.mode == a.mode && b.maxAttempts == a.maxAttempts
  }

  lemma BeginAlone(cfg: Config, s: State, worker: WorkerId, j: JobId)
    requires Alone(s, j) && (IsStale(s.world.rows[j], s.now, cfg.timeout) || IsAvailable(s.world.rows[j], s.now))
    ensures Enabled(cfg, s, Begin(0, worker, 1))
    ensures var s' := After(cfg, s, Begin(0, worker, 1)); var a := s'.open[0];
            && s' == s.(open := map[0 := a]) && a == Acquisition(worker, 1, s.now, a.recovered, None)
            && a.recovered == (if IsStale(s.world.rows[j], s.now, cfg.timeout) then {j} else {})
  {
  }

  lemma SelectAlone(cfg: Config, s: State, a: Acquisition, j: JobId)
    requires s.open == map[0 := a] && s.world.rows.Keys == {j} && a.picked.None? && a.limit == 1
    requires IsAvailable(Midway(s.world.rows, a)[j], a.at)
    ensures Enabled(cfg, s, Select(0, [j]))
  {
    assert s.open - {0} == map[];
    assert Candidates(s, 0) == {j};
  }

  lemma PickedAlone(cfg: Config, s: State, a: Acquisition, j: JobId) returns (s': State)
    requires s.open == map[0 := a] && Enabled(cfg, s, Select(0, [j]))
    ensures s' == After(cfg, s, Select(0, [j])) == s.(open := map[0 := a.(picked := Some([j]))])
  {
    s' := s.(open := map[0 := a.(picked := Some([j]))]);
    assert s'.open == s.open[0 := a.(picked := Some([j]))];
  }

  lemma CommitAlone(cfg: Config, s: State, a: Acquisition, j: JobId)
    requires s.open == map[0 := a] && s.world.rows.Keys == {j} && s.marks.Keys == {j} && a.picked == Some([j])
    ensures Enabled(cfg, s, Commit(0))
    ensures var s' := After(cfg, s, Commit(0)); var job := s'.world.rows[j];
            && Alone(s', j) && s'.now == s.now
            && job.status == Running && job.lockedAt == Some(a.at) && job.attempts == s.world.rows[j].attempts + 1
            && ExecId(j, job.attempts) in s'.live && s.live.Keys <= s'.live.Keys
            && s'.world == s.world.(rows := s'.world.rows) && SameJob(s.world.rows[j], job)
  {
    var rows := CommittedRows(s.world.rows, a);
    assert j in Picked(a);
    assert ExecId(j, rows[j].attempts) in Started(rows, Picked(a)) by { assert j in rows; }
  }

  /** A lone worker acquires the only job there is, available or stale. */
  lemma AcquireAlone(cfg: Config, s: State, worker: WorkerId, j: JobId) returns (s1: State, s2: State, s3: State)
    requires Alone(s, j) && (IsStale(s.world.rows[j], s.now, cfg.timeout) || IsAvailable(s.world.rows[j], s.now))
    ensures Enabled(cfg, s, Begin(0, worker, 1)) && s1 == After(cfg, s, Begin(0, worker, 1))
    ensures Enabled(cfg, s1, Select(0, [j])) && s2 == After(cfg, s1, Select(0, [j]))
    ensures Enabled(cfg, s2, Commit(0)) && s3 == After(cfg, s2, Commit(0))
    ensures Alone(s3, j) && s3.now == s.now && s.live.Keys <= s3.live.Keys
    ensures var job := s3.world.rows[j];
            && job.status == Running && job.lockedAt == Some(s.now) && job.attempts == s.world.rows[j].attempts + 1
            && ExecId(j, job.attempts) in s3.live
            && s3.world == s.world.(rows := s3.world.rows) && SameJob(s.world.rows[j], job)
  {
    BeginAlone(cfg, s, worker, j);
    s1 := After(cfg, s, Begin(0, worker, 1));
    var a := s1.open[0];
    SelectAlone(cfg, s1, a, j);
    s2 := PickedAlone(cfg, s1, a, j);
    CommitAlone(cfg, s2, a.(picked := Some([j])), j);
    s3 := After(cfg, s2, Commit(0));
  }

  lemma JoinRuns(cfg: Config, tr: seq<State>, evs: seq<Event>, e: Event, s: State) returns (tr': seq<State>, evs': seq<Event>)
    requires IsRun(cfg, tr, evs) && Enabled(cfg, tr[|evs|], e) && s == After(cfg, tr[|evs|], e)
    ensures tr' == tr + [s] && evs' == evs + [e] && IsRun(cfg, tr', evs')
  {
    tr', evs' := tr + [s], evs + [e];
    forall i | 0 <= i < |evs'| ensures StepAt(cfg, tr', evs', i) {
      if i < |evs| { assert StepAt(cfg, tr, evs, i); }
    }
  }

  lemma JoinThree(
    cfg: Config, tr: seq<State>, evs: seq<Event>, e1: Event, s1: State, e2: Event, s2: State, e3: Event, s3: State)
    returns (tr': seq<State>, evs': seq<Event>)
    requires IsRun(cfg, tr, evs) && Enabled(cfg, tr[|evs|], e1) && s1 == After(cfg, tr[|evs|], e1)
    requires Enabled(cfg, s1, e2) && s2 == After(cfg, s1, e2) && Enabled(cfg, s2, e3) && s3 == After(cfg, s2, e3)
    ensures IsRun(cfg, tr', evs') && tr <= tr' && evs <= evs' && |evs'| == |evs| + 3 && tr'[|evs'|] == s3
  {
    tr', evs' := JoinRuns(cfg, tr, evs, e1, s1);
    tr', evs' := JoinRuns(cfg, tr', evs', e2, s2);
    tr', evs' := JoinRuns(cfg, tr', evs', e3, s3);
  }

  /** A run continues with the acquisition of the only job there is. */
  lemma RunAcquires(cfg: Config, tr: seq<State>, evs: seq<Event>, worker: WorkerId, j: JobId)
    returns (tr': seq<State>, evs': seq<Event>)
    requires IsRun(cfg, tr, evs) && Alone(tr[|evs|], j)
    requires var s := tr[|evs|]; IsStale(s.world.rows[j], s.now, cfg.timeout) || IsAvailable(s.world.rows[j], s.now)
    ensures IsRun(cfg, tr', evs')
    ensures var s, s' := tr[|evs|], tr'[|evs'|];
            && Alone(s', j) && s'.now == s.now && s.live.Keys <= s'.live.Keys
            && s'.world.rows[j].status == Running && s'.world.rows[j].lockedAt == Some(s.now)
            && s'.world.rows[j].attempts == s.world.rows[j].attempts + 1
            && ExecId(j, s'.world.rows[j].attempts) in s'.live
            && s'.world == s.world.(rows := s'.world.rows) && SameJob(s.world.rows[j], s'.world.rows[j])
    ensures tr <= tr' && evs <= evs' && |evs'| == |evs| + 3
  {
    var s1, s2, s3 := AcquireAlone(cfg, tr[|evs|], worker, j);
    tr', evs' := JoinThree(cfg, tr, evs, Begin(0, worker, 1), s1, Select(0, [j]), s2, Commit(0), s3);
  }

  /** A run that ends with one new job, available. */
  lemma OneJobRun(cfg: Config, maxAttempts: nat) returns (tr: seq<State>, evs: seq<Event>)
    requires maxAttempts > 0
    ensures IsRun(cfg, tr, evs) && Alone(tr[|evs|], 5) && tr[|evs|].now == 0
    ensures tr[|evs|].world.rows[5] == NewJob(5, 7, None, Auto, maxAttempts, 0)
    ensures tr[|evs|].world.tables == Tables(map[7 := Session(1, SessionActive)], map[], [])
    ensures tr[|evs|].world.outbox == Outbox(map[], [])
  {
    var s0 := State(0, World(map[], Tables(map[], map[], []), Outbox(map[], [])), map[], map[], map[], map[]);
    var s1 := After(cfg, s0, OpenSession(7, 1));
    var s2 := After(cfg, s1, Create(5, 7, None, Auto, maxAttempts));
    tr, evs := JoinRuns(cfg, [s0], [], OpenSession(7, 1), s1);
    tr, evs := JoinRuns(cfg, tr, evs, Create(5, 7, None, Auto, maxAttempts), s2);
  }

  /** Without the timeliness condition it fails: here one job has two live executions, the first past its lease. */
  lemma LateExecutionOverlaps() returns (cfg: Config, tr: seq<State>, evs: seq<Event>)
    ensures IsRun(cfg, tr, evs)
    ensures ExecId(5, 1) in tr[|evs|].live && ExecId(5, 2) in tr[|evs|].live
  {
    cfg := Config(10, 1);
    tr, evs := OneJobRun(cfg, 1);
    tr, evs := RunAcquires(cfg, tr, evs, 1, 5);
    tr, evs := JoinRuns(cfg, tr, evs, Tick(10), After(cfg, tr[|evs|], Tick(10)));
    tr, evs := RunAcquires(cfg, tr, evs, 2, 5);
  }

  // ---------------------------------------------------------------- row locks

  /** Open acquisitions hold pairwise disjoint sets of jobs. */
  lemma AcquisitionsAreDisjoint(cfg: Config, tr: seq<State>, evs: seq<Event>, i: nat, t: TxId, u: TxId)
    requires IsRun(cfg, tr, evs) && i < |tr| && t in tr[i].open && u in tr[i].open && t != u
    ensures Held(tr[i].open[t]) !! Held(tr[i].open[u])
  {
    RunInv(cfg, tr, evs, i);
  }

  /** From s to s' acquisition t keeps its locks, and their rows keep their values. */
  predicate SameLocks(s: State, s': State, t: TxId) {
    && t in s.open && t in s'.open
    && Held(s.open[t]) <= Held(s'.open[t])
    && (forall j :: j in Held(s.open[t]) ==>
          j in s.world.rows && j in s'.world.rows && s'.world.rows[j] == s.world.rows[j])
    && s'.open[t].at == s.open[t].at && s'.open[t].recovered == s.open[t].recovered
    && (s.open[t].picked.Some? ==> s'.open[t] == s.open[t])
  }

  lemma SameLocksJoin(a: State, b: State, c: State, t: TxId)
    requires SameLocks(a, b, t) && SameLocks(b, c, t)
    ensures SameLocks(a, c, t)
  {
  }

  /** While an acquisition stays open its rows keep the values they were locked with, so that the commit writes what
      the queries saw; what it has already locked stays locked. */
  lemma {:induction false} LockedRowsAreStable(cfg: Config, tr: seq<State>, evs: seq<Event>, i: nat, k: nat, t: TxId)
    requires IsRun(cfg, tr, evs) && i <= k < |tr| && (forall n :: i <= n <= k ==> t in tr[n].open)
    ensures SameLocks(tr[i], tr[k], t)
  {
    if i == k {
      RunInv(cfg, tr, evs, i);
      assert AcquisitionOk(cfg, tr[i].world.rows, tr[i].open[t]);
      HeldAreRows(cfg, tr[i].world.rows, tr[i].open[t]);
    } else {
      LockedRowsAreStable(cfg, tr, evs, i, k - 1, t);
      StepKeepsLocked(cfg, tr, evs, k - 1, t);
      SameLocksJoin(tr[i], tr[k - 1], tr[k], t);
    }
  }

  lemma StepKeepsLocked(cfg: Config, tr: seq<State>, evs: seq<Event>, i: nat, t: TxId)
    requires IsRun(cfg, tr, evs) && i < |evs| && t in tr[i].open && t in tr[i + 1].open
    ensures SameLocks(tr[i], tr[i + 1], t)
  {
    var eff := RunStep(cfg, tr, evs, i);
    LockedThroughStep(cfg, tr[i], evs[i], eff, tr[i + 1], t);
  }

  lemma LockedThroughStep(cfg: Config, s: State, e: Event, eff: Effect, s': State, t: TxId)
    requires OpenOk(cfg, s) && RowsStep(s, e, eff, s') && OpenStep(cfg, s, e, s') && s.marks.Keys == s.world.rows.Keys
    requires (e.Begin? ==> e.tx !in s.open) && (e.Select? ==> s.open[e.tx].picked.None?)
    requires t in s.open && t in s'.open
    ensures SameLocks(s, s', t)
  {
    assert AcquisitionOk(cfg, s.world.rows, s.open[t]);
    HeldAreRows(cfg, s.world.rows, s.open[t]);
    forall j | j in Held(s.open[t]) ensures j in s'.world.rows && s'.world.rows[j] == s.world.rows[j] {
      LockedRowIsStable(cfg, s, e, eff, s', t, j);
    }
  }

  // ---------------------------------------------------------------- interleaved against atomic acquisition

  /** What transaction tx could select if transaction u, which has made its selection, had committed before. */
  function CandidatesAfter(s: State, tx: TxId, u: TxId): set<JobId>
    requires tx in s.open && u in s.open
  {
    AvailableSet(RecoverRows(CommittedRows(s.world.rows, s.open[u]), s.open[tx].recovered, s.open[tx].at), s.open[tx].at,
                 LockedRows(s.open - {tx, u}))
  }

  /** Rows that u recovered and left queued: committed they are available to tx, under lock they are skipped. */
  function Leftover(s: State, tx: TxId, u: TxId): set<JobId>
    requires tx in s.open && u in s.open
  {
    set j | j in s.open[u].recovered && j !in Picked(s.open[u]) && s.open[u].at <= s.open[tx].at
  }

  lemma CandidatesAfterCommit(cfg: Config, s: State, tx: TxId, u: TxId)
    requires OpenOk(cfg, s) && tx in s.open && u in s.open && tx != u && s.open[u].picked.Some?
    ensures CandidatesAfter(s, tx, u) == Candidates(s, tx) + Leftover(s, tx, u)
    ensures Candidates(s, tx) !! Leftover(s, tx, u)
    ensures var late := RecoverRows(CommittedRows(s.world.rows, s.open[u]), s.open[tx].recovered, s.open[tx].at);
            forall j :: j in Candidates(s, tx) ==> late[j] == Midway(s.world.rows, s.open[tx])[j]
  {
    var a, b := s.open[tx], s.open[u];
    assert AcquisitionOk(cfg, s.world.rows, b) && AcquisitionOk(cfg, s.world.rows, a);
    assert Held(a) !! Held(b);
    forall j ensures j in LockedRows(s.open - {tx}) <==> j in LockedRows(s.open - {tx, u}) || j in Held(b) {
      LocksWithout(s, tx, u, j);
    }
    var late := RecoverRows(CommittedRows(s.world.rows, b), a.recovered, a.at);
    var now := Midway(s.world.rows, a);
    forall j | j in s.world.rows && j !in Held(b) ensures late[j] == now[j] {
      assert CommittedRows(s.world.rows, b)[j] == s.world.rows[j];
    }
    forall j | j in Held(b) ensures j in CandidatesAfter(s, tx, u) <==> j in Leftover(s, tx, u) {
      HeldElsewhere(cfg, s, tx, u, j);
    }
  }

  lemma LocksWithout(s: State, tx: TxId, u: TxId, j: JobId)
    requires tx in s.open && u in s.open && tx != u
    ensures j in LockedRows(s.open - {tx}) <==> j in LockedRows(s.open - {tx, u}) || j in Held(s.open[u])
  {
    if j in LockedRows(s.open - {tx}) {
      var t :| t in s.open - {tx} && j in Held(s.open[t]);
      assert t != u ==> t in s.open - {tx, u};
    }
    if j in LockedRows(s.open - {tx, u}) {
      var t :| t in s.open - {tx, u} && j in Held(s.open[t]);
      assert t in s.open - {tx};
    }
    assert u in s.open - {tx};
  }

  /** A row of u that u picked is running after u's commit; one it only recovered is queued as of u's clock. */
  lemma HeldElsewhere(cfg: Config, s: State, tx: TxId, u: TxId, j: JobId)
    requires OpenOk(cfg, s) && tx in s.open && u in s.open && tx != u && j in Held(s.open[u])
    ensures j in CandidatesAfter(s, tx, u) <==> j in Leftover(s, tx, u)
  {
    var a, b := s.open[tx], s.open[u];
    assert AcquisitionOk(cfg, s.world.rows, b) && Held(a) !! Held(b);
    assert j !in LockedRows(s.open - {tx, u}) by {
      forall t | t in s.open - {tx, u} ensures j !in Held(s.open[t]) { assert Held(s.open[t]) !! Held(b); }
    }
  }

  /** Interleaved acquisition refines atomic acquisition exactly when the lock-skipping query misses nothing it should
      have returned: the rows it picked are the ones it would pick after the other acquisition's commit if and only if
      every row the other transaction recovered without picking ranks after a full batch. */
  lemma InterleavedIsAtomic(cfg: Config, s: State, tx: TxId, u: TxId, picked: seq<JobId>)
    requires OpenOk(cfg, s) && Enabled(cfg, s, Select(tx, picked)) && u in s.open && u != tx && s.open[u].picked.Some?
    ensures var late := RecoverRows(CommittedRows(s.world.rows, s.open[u]), s.open[tx].recovered, s.open[tx].at);
            && Leftover(s, tx, u) <= late.Keys && CandidatesAfter(s, tx, u) <= late.Keys && (forall i :: 0 <= i < |picked| ==> picked[i] in late)
            && (IsFirst(late, CandidatesAfter(s, tx, u), s.open[tx].limit, picked)
                <==> forall c :: c in Leftover(s, tx, u) ==> |picked| == s.open[tx].limit && AllBefore(late, picked, c))
  {
    var late := RecoverRows(CommittedRows(s.world.rows, s.open[u]), s.open[tx].recovered, s.open[tx].at);
    var now := Midway(s.world.rows, s.open[tx]);
    CandidatesAfterCommit(cfg, s, tx, u);
    forall i | 0 <= i < |picked| ensures picked[i] in Candidates(s, tx) && picked[i] in late && late[picked[i]] == now[picked[i]] {}
    assert Ordered(late, picked);
    forall c | c in Candidates(s, tx) && c !in picked ensures |picked| == s.open[tx].limit && AllBefore(late, picked, c) {
      assert AllBefore(now, picked, c);
    }
    forall c | c in Leftover(s, tx, u) ensures c !in picked && c in CandidatesAfter(s, tx, u) {}
  }
}
