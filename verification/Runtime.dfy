/** The runtime as a transition system: workers, acquisition transactions with row locks, executions, clock. */
module Runtime {
  import opened Base
  import opened JobService
  import opened Threads
  import opened LlmPolicy
  import opened Delivery
  import opened Executor

  datatype Config = Config(timeout: nat, llmAttempts: int)

  type TxId = nat

  /** One acquisition of a job, and so one execution: the job together with the attempt number it was given. */
  datatype ExecId = ExecId(job: JobId, attempt: nat)

  /** An acquisition transaction that has not committed. Its writes are invisible; its rows are locked. */
  datatype Acquisition = Acquisition(
    worker: WorkerId,
    limit: nat,
    at: Time,
    recovered: set<JobId>,
    picked: Option<seq<JobId>>
  )

  /** History of one job. A requeue is charged to the attempt number in the snapshot that caused it. */
  datatype Mark = Acquired(at: Time) | Recovered(at: Time) | Requeued(at: Time, charge: nat) | Ended(at: Time)

  datatype State = State(
    now: Time,
    world: World,
    open: map<TxId, Acquisition>,
    live: map<ExecId, Job>,        // detached snapshots of the jobs being executed
    marks: map<JobId, seq<Mark>>,  // history variable
    spent: map<ExecId, nat>        // history variable: provider calls of each ended execution
  )

  datatype Event =
    | Tick(d: nat)
    | OpenSession(session: SessionId, user: UserId)
    | CloseSession(session: SessionId)
    | AnalyseNow(session: SessionId, mode: Mode, newThread: ThreadId, newRow: RowId)
    | Create(job: JobId, session: SessionId, dream: Option<DreamId>, mode: Mode, maxAttempts: int)
    | Begin(tx: TxId, worker: WorkerId, limit: nat)
    | Select(tx: TxId, picked: seq<JobId>)
    | Commit(tx: TxId)
    | Abort(tx: TxId)
    | Finish(exec: ExecId, outcome: Outcome, calls: nat, wire: Wire, commits: bool, newThread: ThreadId, newRow: RowId)
    | Crash(exec: ExecId, calls: nat)

  // ---------------------------------------------------------------- locks

  function Picked(a: Acquisition): seq<JobId> {
    if a.picked.Some? then a.picked.value else []
  }

  function Held(a: Acquisition): set<JobId> {
    a.recovered + set j | j in Picked(a)
  }

  function LockedRows(open: map<TxId, Acquisition>): set<JobId> {
    set t, j | t in open && j in Held(open[t]) :: j
  }

  // ---------------------------------------------------------------- steps

  predicate FreshIds(t: Tables, newThread: ThreadId, newRow: RowId) {
    newThread !in t.threads && forall i :: 0 <= i < |t.rows| ==> t.rows[i].id != newRow
  }

  /** The job table as the transaction sees it after its own recovery. */
  function Midway(rows: Rows, a: Acquisition): Rows {
    RecoverRows(rows, a.recovered, a.at)
  }

  /** Rows the ordered query of transaction tx may return. */
  function Candidates(s: State, tx: TxId): set<JobId>
    requires tx in s.open
  {
    AvailableSet(Midway(s.world.rows, s.open[tx]), s.open[tx].at, LockedRows(s.open - {tx}))
  }

  predicate Enabled(cfg: Config, s: State, e: Event) {
    match e
    case Tick(_) => true
    case OpenSession(session, _) => session !in s.world.tables.sessions
    case CloseSession(session) => session in s.world.tables.sessions
    case AnalyseNow(session, _, newThread, newRow) =>
      session in s.world.tables.sessions && FreshIds(s.world.tables, newThread, newRow)
    case Create(job, session, _, _, _) => job !in s.world.rows && session in s.world.tables.sessions
    case Begin(tx, _, limit) => tx !in s.open && limit > 0
    case Select(tx, picked) =>
      && tx in s.open && s.open[tx].picked.None?
      && IsFirst(Midway(s.world.rows, s.open[tx]), Candidates(s, tx), s.open[tx].limit, picked)
    case Commit(tx) => tx in s.open && s.open[tx].picked.Some?
    case Abort(tx) => tx in s.open
    case Finish(exec, _, calls, _, _, newThread, newRow) =>
      && exec in s.live && exec.job in s.world.rows
      // A write to a locked row waits for the lock.
      && (exec.job in LockedRows(s.open) ==> s.world.rows[exec.job].status != Running)
      && calls <= CallLimit(cfg.llmAttempts)
      && FreshIds(s.world.tables, newThread, newRow)
    case Crash(exec, calls) => exec in s.live && calls <= CallLimit(cfg.llmAttempts)
  }

  function WithTables(s: State, tables: Tables): State {
    s.(world := s.world.(tables := tables))
  }

  function AfterAnalyseNow(s: State, session: SessionId, mode: Mode, newThread: ThreadId, newRow: RowId): State
    requires session in s.world.tables.sessions
  {
    var t := s.world.tables;
    var resolved := Resolve(t, session, mode, s.now, newThread);
    if resolved.Err? then s
    else
      var t1 := t.(threads := resolved.value.0);
      var appended := Append(t1, resolved.value.1, session, t.sessions[session].user, newRow, None, s.now);
      if appended.Err? then s else WithTables(s, appended.value)
  }

  function AfterBegin(cfg: Config, s: State, tx: TxId, worker: WorkerId, limit: nat): State {
    var stale := StaleSet(s.world.rows, s.now, cfg.timeout, LockedRows(s.open));
    s.(open := s.open[tx := Acquisition(worker, limit, s.now, stale, None)])
  }

  function MarksOfCommit(marks: map<JobId, seq<Mark>>, a: Acquisition): map<JobId, seq<Mark>> {
    map j | j in marks ::
      marks[j] + (if j in a.recovered then [Recovered(a.at)] else []) + (if j in Picked(a) then [Acquired(a.at)] else [])
  }

  function CommittedRows(rows: Rows, a: Acquisition): Rows {
    AcquireRows(Midway(rows, a), Picked(a), a.worker, a.at)
  }

  /** The snapshots handed to the worker's executions. */
  function Started(rows: Rows, ids: seq<JobId>): map<ExecId, Job> {
    map x | x in (set j | j in ids && j in rows :: ExecId(j, rows[j].attempts)) :: rows[x.job]
  }

  function AfterCommit(s: State, tx: TxId): State
    requires tx in s.open
  {
    var a := s.open[tx];
    var rows := CommittedRows(s.world.rows, a);
    s.(world := s.world.(rows := rows), open := s.open - {tx}, live := s.live + Started(rows, Picked(a)),
       marks := MarksOfCommit(s.marks, a))
  }

  /** What an execution did to the stored row, as a history entry. */
  function MarkOf(before: Job, after: Job, snapshot: Job, now: Time): seq<Mark> {
    if after == before then []
    else if after.status == Queued then [Requeued(now, snapshot.attempts)]
    else [Ended(now)]
  }

  function WorldAfter(s: State, e: Event): World
    requires e.Finish? && e.exec in s.live
  {
    Committed(s.world, Execute(s.world, s.live[e.exec], e.outcome, e.wire, s.now, e.newThread, e.newRow), e.commits)
  }

  /** Execution x ends with its transaction leaving world w behind. */
  function Finished(s: State, x: ExecId, calls: nat, w: World): State
    requires x in s.live && x.job in s.world.rows
  {
    var entry := if x.job in w.rows then MarkOf(s.world.rows[x.job], w.rows[x.job], s.live[x], s.now) else [];
    s.(world := w, live := s.live - {x}, spent := s.spent[x := calls],
       marks := map k | k in s.marks :: if k == x.job then s.marks[k] + entry else s.marks[k])
  }

  function After(cfg: Config, s: State, e: Event): State
    requires Enabled(cfg, s, e)
  {
    match e
    case Tick(d) => s.(now := s.now + d)
    case OpenSession(session, user) =>
      WithTables(s, s.world.tables.(sessions := s.world.tables.sessions[session := Session(user, SessionActive)]))
    case CloseSession(session) =>
      WithTables(s, s.world.tables.(sessions :=
        s.world.tables.sessions[session := s.world.tables.sessions[session].(status := SessionClosed)]))
    case AnalyseNow(session, mode, newThread, newRow) => AfterAnalyseNow(s, session, mode, newThread, newRow)
    case Create(job, session, dream, mode, maxAttempts) =>
      s.(world := s.world.(rows := s.world.rows[job := NewJob(job, session, dream, mode, maxAttempts, s.now)]),
         marks := s.marks[job := []])
    case Begin(tx, worker, limit) => AfterBegin(cfg, s, tx, worker, limit)
    case Select(tx, picked) => s.(open := s.open[tx := s.open[tx].(picked := Some(picked))])
    case Commit(tx) => AfterCommit(s, tx)
    case Abort(tx) => s.(open := s.open - {tx})
    case Finish(exec, _, calls, _, _, _, _) => Finished(s, exec, calls, WorldAfter(s, e))
    case Crash(exec, calls) => s.(live := s.live - {exec}, spent := s.spent[exec := calls])
  }

  // ---------------------------------------------------------------- runs

  predicate Initial(s: State) {
    s == State(s.now, World(map[], Tables(map[], map[], []), Outbox(map[], [])), map[], map[], map[], map[])
  }

  predicate StepAt(cfg: Config, tr: seq<State>, evs: seq<Event>, i: nat)
    requires i < |evs| && |tr| == |evs| + 1
  {
    Enabled(cfg, tr[i], evs[i]) && tr[i + 1] == After(cfg, tr[i], evs[i])
  }

  predicate IsRun(cfg: Config, tr: seq<State>, evs: seq<Event>) {
    && |tr| == |evs| + 1
    && Initial(tr[0])
    && forall i :: 0 <= i < |evs| ==> StepAt(cfg, tr, evs, i)
  }
}
