/** Analysis threads and their history: snapshots, the pure decision, the command list and its effect. */
module Threads {
  import opened Base

  datatype SessionStatus = SessionActive | SessionClosed

  datatype Session = Session(user: UserId, status: SessionStatus)

  datatype ThreadStatus = Active | Idle | Closed

  datatype Thread = Thread(
    session: SessionId,
    status: ThreadStatus,
    createdAt: Time,
    lastActivity: Option<Time>,
    lastAnalysis: Option<RowId>
  )

  /** A session_analyses row. The table is kept in insertion order. */
  datatype Row = Row(
    id: RowId,
    session: SessionId,
    thread: ThreadId,
    user: UserId,
    isLatest: bool,
    index: nat,
    job: Option<JobId>
  )

  type Sessions = map<SessionId, Session>
  type ThreadMap = map<ThreadId, Thread>

  datatype Tables = Tables(sessions: Sessions, threads: ThreadMap, rows: seq<Row>)

  datatype Fault = ValueFault | ConcurrencyFault

  // ---------------------------------------------------------------- snapshots

  datatype ThreadSnapshot = ThreadSnapshot(
    thread: Option<ThreadId>,
    status: Option<ThreadStatus>,
    lastActivity: Option<Time>,
    createdAt: Option<Time>
  )

  predicate IsActive(threads: ThreadMap, session: SessionId, t: ThreadId) {
    t in threads && threads[t].session == session && threads[t].status == Active
  }

  /** ORDER BY created_at DESC, id DESC LIMIT 1 among the active threads of the session. */
  predicate IsNewestActive(threads: ThreadMap, session: SessionId, t: ThreadId) {
    && IsActive(threads, session, t)
    && forall u: ThreadId :: u in threads && IsActive(threads, session, u) && u != t ==>
         threads[u].createdAt < threads[t].createdAt || (threads[u].createdAt == threads[t].createdAt && u < t)
  }

  function ActiveOf(threads: ThreadMap, session: SessionId): Option<ThreadId> {
    if exists t :: t in threads && IsNewestActive(threads, session, t) then
      var t :| t in threads && IsNewestActive(threads, session, t);
      Some(t)
    else None
  }

  function SnapshotOf(threads: ThreadMap, session: SessionId): ThreadSnapshot {
    var active := ActiveOf(threads, session);
    if active.None? then ThreadSnapshot(None, None, None, None)
    else
      var t := threads[active.value];
      ThreadSnapshot(active, Some(t.status), t.lastActivity, Some(t.createdAt))
  }

  // ---------------------------------------------------------------- decision

  datatype Action = DoContinue | DoCreate | DoMarkIdle | DoCloseAndCreate

  datatype Decision = Decision(action: Action, target: Option<ThreadId>)

  function ActivityAt(s: ThreadSnapshot): Option<Time> {
    if s.lastActivity.Some? then s.lastActivity else s.createdAt
  }

  predicate IsFresh(s: ThreadSnapshot, now: Time) {
    var activity := ActivityAt(s);
    activity.Some? && now - activity.value <= INACTIVITY_THRESHOLD
  }

  function Decide(session: SessionStatus, s: ThreadSnapshot, mode: Mode, now: Time): Decision {
    if session != SessionActive then Decision(DoCloseAndCreate, s.thread)
    else if s.thread.None? then Decision(DoCreate, None)
    else if s.status == Some(Closed) then Decision(DoCreate, s.thread)
    else if s.status == Some(Idle) then Decision(DoCreate, s.thread)
    else if !IsFresh(s, now) then Decision(DoMarkIdle, s.thread)
    else if mode == New then Decision(DoCreate, s.thread)
    else Decision(DoContinue, s.thread)
  }

  datatype CommandType = CmdContinue | CmdCreate | CmdMarkIdle | CmdClose

  datatype Command = Command(kind: CommandType, thread: Option<ThreadId>)

  function CommandTypes(action: Action): seq<CommandType> {
    match action
    case DoContinue => [CmdContinue]
    case DoCreate => [CmdCreate]
    case DoMarkIdle => [CmdMarkIdle, CmdCreate]
    case DoCloseAndCreate => [CmdClose, CmdCreate]
  }

  function Normalize(d: Decision): seq<Command> {
    var kinds := CommandTypes(d.action);
    seq(|kinds|, i requires 0 <= i < |kinds| => Command(kinds[i], if kinds[i] == CmdCreate then None else d.target))
  }

  // ---------------------------------------------------------------- transition

  /** Partial unique index: one active thread per session. */
  predicate OneActive(threads: ThreadMap) {
    forall t: ThreadId, u: ThreadId :: t in threads && u in threads ==>
      IsActive(threads, threads[t].session, t) && IsActive(threads, threads[t].session, u) ==> t == u
  }

  function SetStatus(threads: ThreadMap, t: ThreadId, status: ThreadStatus): ThreadMap {
    if t in threads then threads[t := threads[t].(status := status)] else threads
  }

  function IdleAll(threads: ThreadMap, session: SessionId): ThreadMap {
    map t | t in threads :: if IsActive(threads, session, t) then threads[t].(status := Idle) else threads[t]
  }

  function FreshThread(session: SessionId, now: Time): Thread {
    Thread(session, Active, now, None, None)
  }

  /** One command, and the thread resolved so far, when no other transaction commits meanwhile. */
  function ApplyCommand(threads: ThreadMap, c: Command, session: SessionId, now: Time, newId: ThreadId,
                        current: Option<ThreadId>): (r: Result<(ThreadMap, Option<ThreadId>), Fault>)
    requires current.Some? ==> current.value in threads
    ensures r.Ok? && r.value.1.Some? ==> r.value.1.value in r.value.0
  {
    match c.kind
    case CmdContinue =>
      if c.thread.None? then Err(ValueFault)
      else if c.thread.value !in threads then Err(ConcurrencyFault)
      else Ok((threads, c.thread))
    case CmdMarkIdle => if c.thread.None? then Err(ValueFault) else Ok((SetStatus(threads, c.thread.value, Idle), current))
    case CmdClose => if c.thread.None? then Err(ValueFault) else Ok((SetStatus(threads, c.thread.value, Closed), current))
    case CmdCreate => Ok((IdleAll(threads, session)[newId := FreshThread(session, now)], Some(newId)))
  }

  /** apply_transition_tx when no other transaction commits meanwhile. */
  function ApplyCommands(threads: ThreadMap, commands: seq<Command>, session: SessionId, now: Time, newId: ThreadId,
                         current: Option<ThreadId>): (r: Result<(ThreadMap, ThreadId), Fault>)
    requires current.Some? ==> current.value in threads
    ensures r.Ok? ==> r.value.1 in r.value.0
    decreases |commands|
  {
    if commands == [] then
      if current.None? then Err(ValueFault) else Ok((threads, current.value))
    else
      match ApplyCommand(threads, commands[0], session, now, newId, current)
      case Err(fault) => Err(fault)
      case Ok((after, thread)) => ApplyCommands(after, commands[1..], session, now, newId, thread)
  }

  /** Snapshot, decide, normalize, apply. The session must exist. */
  function Resolve(t: Tables, session: SessionId, mode: Mode, now: Time, newId: ThreadId): (r: Result<(ThreadMap, ThreadId), Fault>)
    ensures r.Ok? ==> r.value.1 in r.value.0 && session in t.sessions
  {
    if session !in t.sessions then Err(ValueFault)
    else
      var d := Decide(t.sessions[session].status, SnapshotOf(t.threads, session), mode, now);
      ApplyCommands(t.threads, Normalize(d), session, now, newId, None)
  }

  lemma ActiveOfIsTheActive(threads: ThreadMap, session: SessionId, t: ThreadId)
    requires OneActive(threads) && IsActive(threads, session, t)
    ensures ActiveOf(threads, session) == Some(t)
  {
    assert t in threads && IsNewestActive(threads, session, t);
  }

  /** Whether the existing active thread is kept. */
  predicate Continues(t: Tables, session: SessionId, mode: Mode, now: Time)
    requires session in t.sessions
  {
    var prev := ActiveOf(t.threads, session);
    && t.sessions[session].status == SessionActive
    && prev.Some?
    && mode != New
    && (var th := t.threads[prev.value];
        now - (if th.lastActivity.Some? then th.lastActivity.value else th.createdAt) <= INACTIVITY_THRESHOLD)
  }

  /** What resolution leaves behind, told without commands. */
  predicate Resolved(t: Tables, session: SessionId, mode: Mode, now: Time, newId: ThreadId, after: ThreadMap, got: ThreadId)
    requires session in t.sessions
  {
    var prev := ActiveOf(t.threads, session);
    if Continues(t, session, mode, now) then
      after == t.threads && Some(got) == prev
    else
      && got == newId
      && after.Keys == t.threads.Keys + {newId}
      && after[newId] == Thread(session, Active, now, None, None)
      && (forall u: ThreadId :: u in t.threads ==>
            after[u] == if prev == Some(u)
                        then t.threads[u].(status := if t.sessions[session].status == SessionActive then Idle else Closed)
                        else t.threads[u])
  }

  /** Resolution succeeds exactly for an active session or one that still has an active thread. */
  lemma ResolveCorrect(t: Tables, session: SessionId, mode: Mode, now: Time, newId: ThreadId)
    requires OneActive(t.threads) && newId !in t.threads && session in t.sessions
    ensures var r := Resolve(t, session, mode, now, newId);
            && (r.Ok? <==> t.sessions[session].status == SessionActive || exists u: ThreadId :: IsActive(t.threads, session, u))
            && (r.Err? ==> r.error == ValueFault)
            && (r.Ok? ==> Resolved(t, session, mode, now, newId, r.value.0, r.value.1))
  {
    ResolvesWhen(t, session, mode, now, newId);
    if Resolve(t, session, mode, now, newId).Ok? { ResolvedAs(t, session, mode, now, newId); }
  }

  lemma ActiveOfIsExact(threads: ThreadMap, session: SessionId)
    requires OneActive(threads)
    ensures forall u: ThreadId :: IsActive(threads, session, u) <==> ActiveOf(threads, session) == Some(u)
  {
    forall u: ThreadId | IsActive(threads, session, u) ensures ActiveOf(threads, session) == Some(u) {
      ActiveOfIsTheActive(threads, session, u);
    }
  }

  lemma ResolvesWhen(t: Tables, session: SessionId, mode: Mode, now: Time, newId: ThreadId)
    requires OneActive(t.threads) && newId !in t.threads && session in t.sessions
    ensures var r := Resolve(t, session, mode, now, newId);
            && (r.Ok? <==> t.sessions[session].status == SessionActive || exists u: ThreadId :: IsActive(t.threads, session, u))
            && (r.Err? ==> r.error == ValueFault)
  {
    ActiveOfIsExact(t.threads, session);
    var d := Decide(t.sessions[session].status, SnapshotOf(t.threads, session), mode, now);
    ApplyNormalized(t.threads, d, session, now, newId);
  }

  lemma ResolvedAs(t: Tables, session: SessionId, mode: Mode, now: Time, newId: ThreadId)
    requires OneActive(t.threads) && newId !in t.threads && session in t.sessions
    requires Resolve(t, session, mode, now, newId).Ok?
    ensures var (after, got) := Resolve(t, session, mode, now, newId).value; Resolved(t, session, mode, now, newId, after, got)
  {
    ActiveOfIsExact(t.threads, session);
    var d := Decide(t.sessions[session].status, SnapshotOf(t.threads, session), mode, now);
    ApplyNormalized(t.threads, d, session, now, newId);
  }

  /** The command list unrolled for each action. */
  lemma ApplyNormalized(threads: ThreadMap, d: Decision, session: SessionId, now: Time, newId: ThreadId)
    ensures var r := ApplyCommands(threads, Normalize(d), session, now, newId, None);
            match d.action
            case DoContinue =>
              r == if d.target.None? then Err(ValueFault)
                   else if d.target.value !in threads then Err(ConcurrencyFault) else Ok((threads, d.target.value))
            case DoCreate => r == Ok((IdleAll(threads, session)[newId := FreshThread(session, now)], newId))
            case DoMarkIdle =>
              r == if d.target.None? then Err(ValueFault)
                   else Ok((IdleAll(SetStatus(threads, d.target.value, Idle), session)[newId := FreshThread(session, now)], newId))
            case DoCloseAndCreate =>
              r == if d.target.None? then Err(ValueFault)
                   else Ok((IdleAll(SetStatus(threads, d.target.value, Closed), session)[newId := FreshThread(session, now)], newId))
  {
    var commands := Normalize(d);
    var create := [Command(CmdCreate, None)];
    assert create[1..] == [];
    match d.action
    case DoContinue => assert commands[1..] == [];
    case DoCreate => assert commands == create;
    case DoMarkIdle =>
      assert commands == [Command(CmdMarkIdle, d.target)] + create && commands[1..] == create;
    case DoCloseAndCreate =>
      assert commands == [Command(CmdClose, d.target)] + create && commands[1..] == create;
  }

  /** After resolution the returned thread is the one active thread of its session; other sessions keep theirs,
      and no idle or closed thread comes back. */
  lemma ResolveLeavesOneActive(t: Tables, session: SessionId, mode: Mode, now: Time, newId: ThreadId)
    requires OneActive(t.threads) && newId !in t.threads && session in t.sessions
    requires Resolve(t, session, mode, now, newId).Ok?
    ensures var (after, got) := Resolve(t, session, mode, now, newId).value;
            && OneActive(after)
            && (forall u: ThreadId :: IsActive(after, session, u) <==> u == got)
            && (forall u: ThreadId :: u in t.threads && t.threads[u].session != session ==> u in after && after[u] == t.threads[u])
            && (forall u: ThreadId :: u in t.threads && t.threads[u].status != Active ==> u in after && after[u] == t.threads[u])
            && (forall u: ThreadId :: u in after ==> u in t.threads || u == newId)
            && (forall u: ThreadId :: u in t.threads ==>
                  u in after && after[u].session == t.threads[u].session && after[u].lastAnalysis == t.threads[u].lastAnalysis)
            && got in after && after[got].session == session
  {
    ResolveCorrect(t, session, mode, now, newId);
    var prev := ActiveOf(t.threads, session);
    forall u: ThreadId | IsActive(t.threads, session, u) ensures prev == Some(u) {
      ActiveOfIsTheActive(t.threads, session, u);
    }
  }

  // ---------------------------------------------------------------- history

  function CountIn(rows: seq<Row>, thread: ThreadId): nat {
    if rows == [] then 0
    else CountIn(rows[..|rows| - 1], thread) + if rows[|rows| - 1].thread == thread then 1 else 0
  }

  function ClearLatest(rows: seq<Row>, thread: ThreadId): (r: seq<Row>)
    ensures |r| == |rows|
    ensures forall i :: 0 <= i < |rows| ==>
              r[i] == if rows[i].thread == thread then rows[i].(isLatest := false) else rows[i]
  {
    seq(|rows|, i requires 0 <= i < |rows| => if rows[i].thread == thread then rows[i].(isLatest := false) else rows[i])
  }

  /** build_session_analysis_row. */
  function BuildRow(t: Tables, thread: ThreadId, session: SessionId, user: UserId, id: RowId): Row {
    Row(id, session, thread, user, true, CountIn(t.rows, thread), None)
  }

  /** with_job_id: binds once, refuses another job. */
  function WithJobId(row: Row, job: JobId): Result<Row, Fault> {
    if row.job.Some? && row.job.value != job then Err(ValueFault) else Ok(row.(job := Some(job)))
  }

  /** Partial unique index: one latest row per thread. */
  predicate OneLatest(rows: seq<Row>) {
    forall i, k :: 0 <= i < k < |rows| && rows[i].thread == rows[k].thread ==> !(rows[i].isLatest && rows[k].isLatest)
  }

  /** persist_session_analysis_in_thread. */
  function Persist(t: Tables, thread: ThreadId, row: Row, now: Time): Result<Tables, Fault>
    requires thread in t.threads
  {
    if row.thread != thread then Err(ValueFault)
    else if row.session != t.threads[thread].session then Err(ValueFault)
    else
      var rows := ClearLatest(t.rows, thread) + [row];
      if !OneLatest(rows) then Err(ConcurrencyFault)
      else
        Ok(t.(rows := rows,
              threads := t.threads[thread := t.threads[thread].(lastAnalysis := Some(row.id), lastActivity := Some(now))]))
  }

  function Append(t: Tables, thread: ThreadId, session: SessionId, user: UserId, id: RowId, job: Option<JobId>, now: Time):
      Result<Tables, Fault>
    requires thread in t.threads
  {
    var row := BuildRow(t, thread, session, user, id);
    if job.None? then Persist(t, thread, row, now)
    else
      var bound := WithJobId(row, job.value);
      if bound.Err? then Err(bound.error) else Persist(t, thread, bound.value, now)
  }

  /** Row i is its thread's last row so far. */
  predicate IsLast(rows: seq<Row>, i: nat)
    requires i < |rows|
  {
    forall k :: i < k < |rows| ==> rows[k].thread != rows[i].thread
  }

  predicate DenseIndices(rows: seq<Row>) {
    forall i :: 0 <= i < |rows| ==> rows[i].index == CountIn(rows[..i], rows[i].thread)
  }

  predicate LatestIsLast(rows: seq<Row>) {
    forall i {:trigger IsLast(rows, i)} {:trigger rows[i].isLatest} :: 0 <= i < |rows| ==>
      (rows[i].isLatest <==> IsLast(rows, i))
  }

  predicate UniqueIds(rows: seq<Row>) {
    forall i, k :: 0 <= i < k < |rows| ==> rows[i].id != rows[k].id
  }

  predicate RowsBelong(t: Tables) {
    forall i :: 0 <= i < |t.rows| ==>
      t.rows[i].thread in t.threads && t.threads[t.rows[i].thread].session == t.rows[i].session
  }

  predicate NoRows(rows: seq<Row>, thread: ThreadId) {
    forall i :: 0 <= i < |rows| ==> rows[i].thread != thread
  }

  predicate PointsAt(threads: ThreadMap, row: Row) {
    row.thread in threads ==> threads[row.thread].lastAnalysis == Some(row.id)
  }

  predicate LastAnalysisPoints(t: Tables) {
    && (forall i {:trigger IsLast(t.rows, i)} :: 0 <= i < |t.rows| && IsLast(t.rows, i) ==> PointsAt(t.threads, t.rows[i]))
    && (forall th :: th in t.threads && NoRows(t.rows, th) ==> t.threads[th].lastAnalysis == None)
  }

  predicate ThreadsBelong(t: Tables) {
    forall th :: th in t.threads ==> t.threads[th].session in t.sessions
  }

  /** The history invariant but for the indices. */
  predicate Sound(t: Tables) {
    && OneActive(t.threads)
    && LatestIsLast(t.rows)
    && UniqueIds(t.rows)
    && RowsBelong(t)
    && LastAnalysisPoints(t)
    && ThreadsBelong(t)
  }

  /** The history invariant. */
  predicate HistoryOk(t: Tables) {
    Sound(t) && DenseIndices(t.rows)
  }

  /** Earlier rows keep everything but their latest flag. */
  predicate Extends(before: seq<Row>, after: seq<Row>) {
    |before| <= |after| && forall i :: 0 <= i < |before| ==> after[i].(isLatest := before[i].isLatest) == before[i]
  }

  lemma {:induction false} CountIgnoresFlags(a: seq<Row>, b: seq<Row>, thread: ThreadId)
    requires |a| == |b| && forall i :: 0 <= i < |a| ==> a[i].thread == b[i].thread
    ensures CountIn(a, thread) == CountIn(b, thread)
  {
    if a != [] {
      CountIgnoresFlags(a[..|a| - 1], b[..|b| - 1], thread);
    }
  }

  function Appended(t: Tables, thread: ThreadId, row: Row, now: Time): Tables
    requires thread in t.threads
  {
    t.(rows := ClearLatest(t.rows, thread) + [row],
       threads := t.threads[thread := t.threads[thread].(lastAnalysis := Some(row.id), lastActivity := Some(now))])
  }

  /** Appending to an existing thread never fails: the latest flag is free when the row arrives. */
  lemma AppendSucceeds(t: Tables, thread: ThreadId, session: SessionId, user: UserId, id: RowId, job: Option<JobId>, now: Time)
    requires LatestIsLast(t.rows) && thread in t.threads && t.threads[thread].session == session
    ensures Append(t, thread, session, user, id, job, now)
         == Ok(Appended(t, thread, Row(id, session, thread, user, true, CountIn(t.rows, thread), job), now))
  {
    PersistSucceeds(t, thread, Row(id, session, thread, user, true, CountIn(t.rows, thread), job), now);
  }

  /** Appending keeps the history invariant and rewrites nothing but latest flags. */
  lemma AppendKeepsHistory(t: Tables, thread: ThreadId, row: Row, now: Time)
    requires HistoryOk(t) && thread in t.threads && row.session == t.threads[thread].session
    requires row.thread == thread && row.isLatest && row.index == CountIn(t.rows, thread)
    requires forall i :: 0 <= i < |t.rows| ==> t.rows[i].id != row.id
    ensures HistoryOk(Appended(t, thread, row, now))
    ensures Extends(t.rows, Appended(t, thread, row, now).rows)
  {
    AppendKeepsSound(t, thread, row, now);
    DenseAfterAppend(t.rows, thread, row);
  }

  /** Whatever index the row carries, the rest of the invariant is kept. */
  lemma AppendKeepsSound(t: Tables, thread: ThreadId, row: Row, now: Time)
    requires Sound(t) && thread in t.threads && row.session == t.threads[thread].session
    requires row.thread == thread && row.isLatest
    requires forall i :: 0 <= i < |t.rows| ==> t.rows[i].id != row.id
    ensures Sound(Appended(t, thread, row, now))
    ensures Extends(t.rows, Appended(t, thread, row, now).rows)
  {
    var after := Appended(t, thread, row, now);
    AppendedGrew(t.rows, thread, row);
    assert LatestIsLast(after.rows) by { LatestAfterAppend(t.rows, thread, row); }
    assert LastAnalysisPoints(after) by { PointsAfterAppend(t, thread, after.threads[thread], after); }
    assert RowsBelong(after) && UniqueIds(after.rows) by { BelongAfterAppend(t, thread, after.threads[thread], after); }
    assert OneActive(after.threads) by { OneActiveAfterTouch(t.threads, thread, after.threads[thread]); }
  }

  lemma LatestAfterAppend(rows: seq<Row>, thread: ThreadId, row: Row)
    requires LatestIsLast(rows) && row.thread == thread && row.isLatest
    ensures LatestIsLast(ClearLatest(rows, thread) + [row])
  {
    var after := ClearLatest(rows, thread) + [row];
    forall i | 0 <= i < |rows| ensures after[i].isLatest <==> IsLast(after, i) {
      if rows[i].thread == thread {
        assert after[|rows|].thread == thread;
      } else {
        assert IsLast(rows, i) <==> IsLast(after, i) by {
          if IsLast(rows, i) {
            forall k | i < k < |after| ensures after[k].thread != after[i].thread {
              if k < |rows| { assert rows[k].thread == after[k].thread; }
            }
          }
          if IsLast(after, i) {
            forall k | i < k < |rows| ensures rows[k].thread != rows[i].thread { assert rows[k].thread == after[k].thread; }
          }
        }
      }
    }
  }

  lemma DenseAfterAppend(rows: seq<Row>, thread: ThreadId, row: Row)
    requires DenseIndices(rows) && row.thread == thread && row.index == CountIn(rows, thread)
    ensures DenseIndices(ClearLatest(rows, thread) + [row])
  {
    var after := ClearLatest(rows, thread) + [row];
    forall i | 0 <= i < |after| ensures after[i].index == CountIn(after[..i], after[i].thread) {
      CountIgnoresFlags(after[..i], rows[..i], after[i].thread);
      assert rows[..|rows|] == rows;
    }
  }

  lemma OneLatestFromLast(rows: seq<Row>)
    requires LatestIsLast(rows)
    ensures OneLatest(rows)
  {
    forall i, k | 0 <= i < k < |rows| && rows[i].thread == rows[k].thread ensures !rows[i].isLatest {
      assert !IsLast(rows, i);
    }
  }

  /** rows grew by one row of the given thread, and earlier rows kept their threads and ids. */
  predicate Grew(before: seq<Row>, after: seq<Row>, thread: ThreadId) {
    && |after| == |before| + 1
    && after[|before|].thread == thread
    && (forall i :: 0 <= i < |before| ==> after[i].thread == before[i].thread && after[i].id == before[i].id
                                          && after[i].session == before[i].session)
  }

  /** Build and persist are separate steps. A row built earlier keeps the indices dense exactly when its thread has gained
      no row since it was built. */
  lemma StaleRowBreaksDensity(t: Tables, thread: ThreadId, row: Row, now: Time)
    requires DenseIndices(t.rows) && thread in t.threads && row.thread == thread
    ensures DenseIndices(Appended(t, thread, row, now).rows) <==> row.index == CountIn(t.rows, thread)
  {
    var after := Appended(t, thread, row, now).rows;
    AppendedGrew(t.rows, thread, row);
    if row.index == CountIn(t.rows, thread) {
      DenseAfterAppend(t.rows, thread, row);
    }
    CountIgnoresFlags(after[..|t.rows|], t.rows, thread);
  }

  /** Persisting a well-formed row always succeeds: clearing first leaves the latest flag free. */
  lemma PersistSucceeds(t: Tables, thread: ThreadId, row: Row, now: Time)
    requires LatestIsLast(t.rows) && thread in t.threads && row.thread == thread && row.isLatest
    requires row.session == t.threads[thread].session
    ensures Persist(t, thread, row, now) == Ok(Appended(t, thread, row, now))
  {
    LatestAfterAppend(t.rows, thread, row);
    OneLatestFromLast(ClearLatest(t.rows, thread) + [row]);
  }

  /** Two rows built on one thread before either is stored: both inserts are accepted, and the index repeats. */
  lemma InterleavedBuildsCollide(t: Tables, thread: ThreadId, first: Row, second: Row, now: Time)
    requires HistoryOk(t) && thread in t.threads
    requires first == BuildRow(t, thread, t.threads[thread].session, first.user, first.id)
    requires second == BuildRow(t, thread, t.threads[thread].session, second.user, second.id)
    ensures var t1 := Appended(t, thread, first, now);
            && Persist(t, thread, first, now) == Ok(t1)
            && Persist(t1, thread, second, now) == Ok(Appended(t1, thread, second, now))
            && !DenseIndices(Appended(t1, thread, second, now).rows)
  {
    var t1 := Appended(t, thread, first, now);
    PersistSucceeds(t, thread, first, now);
    LatestAfterAppend(t.rows, thread, first);
    DenseAfterAppend(t.rows, thread, first);
    PersistSucceeds(t1, thread, second, now);
    CountIgnoresFlags(t1.rows[..|t.rows|], t.rows, thread);
    assert CountIn(t1.rows, thread) == CountIn(t.rows, thread) + 1;
    StaleRowBreaksDensity(t1, thread, second, now);
  }

  lemma AppendedGrew(rows: seq<Row>, thread: ThreadId, row: Row)
    requires row.thread == thread
    ensures var after := ClearLatest(rows, thread) + [row];
            Grew(rows, after, thread) && after[|rows|] == row && Extends(rows, after)
  {
  }

  lemma LastBefore(before: seq<Row>, after: seq<Row>, thread: ThreadId, i: nat)
    requires Grew(before, after, thread) && i < |before| && IsLast(after, i)
    ensures before[i].thread != thread && IsLast(before, i)
  {
    assert after[|before|].thread != after[i].thread;
    forall k | i < k < |before| ensures before[k].thread != before[i].thread {
      assert after[k].thread == before[k].thread;
    }
  }

  lemma PointsAfterAppend(t: Tables, thread: ThreadId, touched: Thread, after: Tables)
    requires LastAnalysisPoints(t) && thread in t.threads
    requires Grew(t.rows, after.rows, thread) && after.threads == t.threads[thread := touched]
    requires touched.lastAnalysis == Some(after.rows[|t.rows|].id)
    ensures LastAnalysisPoints(after)
  {
    forall i | 0 <= i < |after.rows| && IsLast(after.rows, i) ensures PointsAt(after.threads, after.rows[i]) {
      if i < |t.rows| {
        LastBefore(t.rows, after.rows, thread, i);
        assert PointsAt(t.threads, t.rows[i]);
      }
    }
    forall th | th in after.threads && NoRows(after.rows, th) ensures after.threads[th].lastAnalysis == None {
      assert th != thread;
      forall i | 0 <= i < |t.rows| ensures t.rows[i].thread != th { assert after.rows[i].thread == t.rows[i].thread; }
    }
  }

  lemma BelongAfterAppend(t: Tables, thread: ThreadId, touched: Thread, after: Tables)
    requires RowsBelong(t) && UniqueIds(t.rows) && thread in t.threads && touched.session == t.threads[thread].session
    requires Grew(t.rows, after.rows, thread) && after.threads == t.threads[thread := touched]
    requires after.rows[|t.rows|].session == touched.session
    requires forall i :: 0 <= i < |t.rows| ==> t.rows[i].id != after.rows[|t.rows|].id
    ensures RowsBelong(after) && UniqueIds(after.rows)
  {
  }

  /** Recording the analysis changes neither status nor session of any thread. */
  lemma OneActiveAfterTouch(threads: ThreadMap, thread: ThreadId, touched: Thread)
    requires OneActive(threads) && thread in threads
    requires touched.session == threads[thread].session && touched.status == threads[thread].status
    ensures OneActive(threads[thread := touched])
  {
    var after := threads[thread := touched];
    forall a: ThreadId, b: ThreadId | a in after && b in after
      && IsActive(after, after[a].session, a) && IsActive(after, after[a].session, b) ensures a == b
    {
      assert IsActive(threads, threads[a].session, a) && IsActive(threads, threads[a].session, b);
    }
  }

  lemma ResolveKeepsSound(t: Tables, session: SessionId, mode: Mode, now: Time, newId: ThreadId)
    requires Sound(t) && newId !in t.threads && session in t.sessions
    requires Resolve(t, session, mode, now, newId).Ok?
    ensures Sound(t.(threads := Resolve(t, session, mode, now, newId).value.0))
  {
    ResolveLeavesOneActive(t, session, mode, now, newId);
    ResolveCorrect(t, session, mode, now, newId);
    var after := t.(threads := Resolve(t, session, mode, now, newId).value.0);
    forall th | th in after.threads && NoRows(after.rows, th) ensures after.threads[th].lastAnalysis == None {
      if th in t.threads { assert after.threads[th].lastAnalysis == t.threads[th].lastAnalysis; }
    }
  }

  lemma ResolveKeepsHistory(t: Tables, session: SessionId, mode: Mode, now: Time, newId: ThreadId)
    requires HistoryOk(t) && newId !in t.threads && session in t.sessions
    requires Resolve(t, session, mode, now, newId).Ok?
    ensures HistoryOk(t.(threads := Resolve(t, session, mode, now, newId).value.0))
  {
    ResolveKeepsSound(t, session, mode, now, newId);
  }

  // What the invariant means for one thread.

  function IndicesOf(rows: seq<Row>, thread: ThreadId): seq<nat> {
    if rows == [] then []
    else
      var last := rows[|rows| - 1];
      IndicesOf(rows[..|rows| - 1], thread) + if last.thread == thread then [last.index] else []
  }

  /** In insertion order a thread's continuation indices are exactly 0, 1, ..., n-1. */
  lemma {:induction false} IndicesAreDense(rows: seq<Row>, thread: ThreadId)
    requires DenseIndices(rows)
    ensures IndicesOf(rows, thread) == seq(CountIn(rows, thread), i => i)
  {
    if rows != [] {
      var init := rows[..|rows| - 1];
      forall i | 0 <= i < |init| ensures init[i].index == CountIn(init[..i], init[i].thread) {
        assert init[..i] == rows[..i];
      }
      IndicesAreDense(init, thread);
    }
  }

  lemma {:induction false} LastRowOf(rows: seq<Row>, thread: ThreadId) returns (i: nat)
    requires CountIn(rows, thread) > 0
    ensures i < |rows| && rows[i].thread == thread && IsLast(rows, i)
  {
    var n := |rows| - 1;
    if rows[n].thread == thread {
      i := n;
    } else {
      i := LastRowOf(rows[..n], thread);
      assert forall k :: i < k < n ==> rows[..n][k] == rows[k];
    }
  }

  /** A thread with n > 0 analyses has exactly one latest row: the one with index n-1, which the thread points at. */
  lemma LatestRowOfThread(t: Tables, thread: ThreadId) returns (i: nat)
    requires HistoryOk(t) && CountIn(t.rows, thread) > 0
    ensures i < |t.rows| && t.rows[i].thread == thread && t.rows[i].isLatest
    ensures forall k :: 0 <= k < |t.rows| && t.rows[k].thread == thread && t.rows[k].isLatest ==> k == i
    ensures t.rows[i].index == CountIn(t.rows, thread) - 1
    ensures thread in t.threads && t.threads[thread].lastAnalysis == Some(t.rows[i].id)
  {
    i := LastRowOf(t.rows, thread);
    assert PointsAt(t.threads, t.rows[i]);
    OneLatestFromLast(t.rows);
    CountAfterLast(t.rows, thread, i, |t.rows|);
    assert t.rows[..|t.rows|] == t.rows;
  }

  lemma {:induction false} CountAfterLast(rows: seq<Row>, thread: ThreadId, i: nat, n: nat)
    requires i < n <= |rows| && rows[i].thread == thread && IsLast(rows, i)
    ensures CountIn(rows[..n], thread) == CountIn(rows[..i], thread) + 1
  {
    assert rows[..n][..n - 1] == rows[..n - 1];
    if i < n - 1 {
      CountAfterLast(rows, thread, i, n - 1);
    }
  }

  /**
   * Storing an analysis makes its thread fresh again: the next resolution of an active session that does not ask for a new
   * thread continues this one exactly if it comes at most 72 hours later.
   */
  lemma AnalysisRenewsThread(
    t: Tables, thread: ThreadId, row: Row, at: Time, mode: Mode, later: Time, newId: ThreadId)
    requires Sound(t) && IsActive(t.threads, row.session, thread) && row.thread == thread && row.isLatest
    requires t.sessions[row.session].status == SessionActive && newId !in t.threads && mode != New
    ensures var stored := Persist(t, thread, row, at);
      && stored.Ok? && var u := stored.value;
      && u.threads[thread].lastAnalysis == Some(row.id) && u.threads[thread].lastActivity == Some(at)
      && var r := Resolve(u, row.session, mode, later, newId);
      && r.Ok?
      && (later - at <= 259200 ==> r.value == (u.threads, thread))
      && (later - at > 259200 ==> r.value.1 == newId && thread in r.value.0 && r.value.0[thread].status == Idle)
  {
    PersistSucceeds(t, thread, row, at);
    var u := Persist(t, thread, row, at).value;
    OneActiveAfterTouch(t.threads, thread, u.threads[thread]);
    ActiveOfIsTheActive(u.threads, row.session, thread);
    ResolveCorrect(u, row.session, mode, later, newId);
  }
}
