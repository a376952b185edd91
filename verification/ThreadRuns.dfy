/** Runs in which building an analysis row and storing it are separate steps, with other transactions in between. */
module ThreadRuns {
  import opened Base
  import opened Threads

  /** A row that has been built and not stored; grown tells (for the proofs) whether its thread has gained a row since. */
  datatype Draft = Draft(row: Row, grown: bool)

  datatype State = State(tables: Tables, drafts: map<RowId, Draft>)

  datatype Event =
    | OpenSession(session: SessionId, user: UserId)
    | CloseSession(session: SessionId)
    | ResolveThread(session: SessionId, mode: Mode, newThread: ThreadId, now: Time)
    | Build(thread: ThreadId, id: RowId, job: Option<JobId>)
    | Store(id: RowId, now: Time)
    | Discard(id: RowId)

  predicate FreshRow(s: State, id: RowId) {
    id !in s.drafts && forall i :: 0 <= i < |s.tables.rows| ==> s.tables.rows[i].id != id
  }

  predicate Enabled(s: State, e: Event) {
    match e
    case OpenSession(session, _) => session !in s.tables.sessions
    case CloseSession(session) => session in s.tables.sessions
    case ResolveThread(session, _, newThread, _) => session in s.tables.sessions && newThread !in s.tables.threads
    case Build(thread, id, _) =>
      thread in s.tables.threads && s.tables.threads[thread].session in s.tables.sessions && FreshRow(s, id)
    case Store(id, _) => id in s.drafts && s.drafts[id].row.thread in s.tables.threads
    case Discard(id) => id in s.drafts
  }

  /** build_session_analysis_row, with the job bound where there is one. */
  function Drafted(t: Tables, thread: ThreadId, id: RowId, job: Option<JobId>): Row
    requires thread in t.threads && t.threads[thread].session in t.sessions
  {
    var session := t.threads[thread].session;
    BuildRow(t, thread, session, t.sessions[session].user, id).(job := job)
  }

  /** Every other draft of the thread that has just gained a row. */
  function Outdated(drafts: map<RowId, Draft>, thread: ThreadId): map<RowId, Draft> {
    map id | id in drafts :: if drafts[id].row.thread == thread then drafts[id].(grown := true) else drafts[id]
  }

  function AfterStore(s: State, id: RowId, now: Time): State
    requires id in s.drafts && s.drafts[id].row.thread in s.tables.threads
  {
    var row := s.drafts[id].row;
    var stored := Persist(s.tables, row.thread, row, now);
    if stored.Err? then s.(drafts := s.drafts - {id}) else State(stored.value, Outdated(s.drafts - {id}, row.thread))
  }

  function After(s: State, e: Event): State
    requires Enabled(s, e)
  {
    match e
    case OpenSession(session, user) =>
      s.(tables := s.tables.(sessions := s.tables.sessions[session := Session(user, SessionActive)]))
    case CloseSession(session) =>
      s.(tables := s.tables.(sessions :=
        s.tables.sessions[session := s.tables.sessions[session].(status := SessionClosed)]))
    case ResolveThread(session, mode, newThread, now) =>
      var resolved := Resolve(s.tables, session, mode, now, newThread);
      if resolved.Err? then s else s.(tables := s.tables.(threads := resolved.value.0))
    case Build(thread, id, job) => s.(drafts := s.drafts[id := Draft(Drafted(s.tables, thread, id, job), false)])
    case Store(id, now) => AfterStore(s, id, now)
    case Discard(id) => s.(drafts := s.drafts - {id})
  }

  predicate StepAt(tr: seq<State>, evs: seq<Event>, i: nat)
    requires i < |evs| && |tr| == |evs| + 1
  {
    Enabled(tr[i], evs[i]) && tr[i + 1] == After(tr[i], evs[i])
  }

  predicate IsRun(tr: seq<State>, evs: seq<Event>) {
    && |tr| == |evs| + 1
    && tr[0] == State(Tables(map[], map[], []), map[])
    && forall i :: 0 <= i < |evs| ==> StepAt(tr, evs, i)
  }

  // ---------------------------------------------------------------- invariants

  /** A draft fits its thread, and knows whether the thread has grown: its index is the count as of then. */
  predicate DraftOk(t: Tables, id: RowId, d: Draft) {
    && d.row.id == id && d.row.isLatest && d.row.thread in t.threads
    && d.row.session == t.threads[d.row.thread].session
    && d.row.index <= CountIn(t.rows, d.row.thread)
    && (d.grown <==> d.row.index < CountIn(t.rows, d.row.thread))
    && forall i :: 0 <= i < |t.rows| ==> t.rows[i].id != id
  }

  predicate Inv(s: State) {
    Sound(s.tables) && forall id :: id in s.drafts ==> DraftOk(s.tables, id, s.drafts[id])
  }

  lemma CountAfterAppend(rows: seq<Row>, thread: ThreadId, row: Row, other: ThreadId)
    requires row.thread == thread
    ensures CountIn(ClearLatest(rows, thread) + [row], other) == CountIn(rows, other) + if other == thread then 1 else 0
  {
    var after := ClearLatest(rows, thread) + [row];
    assert after[..|rows|] == ClearLatest(rows, thread);
    CountIgnoresFlags(ClearLatest(rows, thread), rows, other);
  }

  /** Storing never fails, keeps everything but the indices, and outdates the other drafts of the thread. */
  lemma StoreKeepsInv(s: State, id: RowId, now: Time)
    requires Inv(s) && Enabled(s, Store(id, now))
    ensures Persist(s.tables, s.drafts[id].row.thread, s.drafts[id].row, now)
         == Ok(Appended(s.tables, s.drafts[id].row.thread, s.drafts[id].row, now))
    ensures Inv(AfterStore(s, id, now)) && Extends(s.tables.rows, AfterStore(s, id, now).tables.rows)
  {
    var d := s.drafts[id];
    var thread := d.row.thread;
    assert DraftOk(s.tables, id, d);
    PersistSucceeds(s.tables, thread, d.row, now);
    AppendKeepsSound(s.tables, thread, d.row, now);
    var s' := AfterStore(s, id, now);
    forall k | k in s'.drafts ensures DraftOk(s'.tables, k, s'.drafts[k]) {
      assert DraftOk(s.tables, k, s.drafts[k]);
      CountAfterAppend(s.tables.rows, thread, d.row, s.drafts[k].row.thread);
      DraftStays(s, d.row, now, k);
    }
  }

  lemma DraftStays(s: State, row: Row, now: Time, k: RowId)
    requires row.thread in s.tables.threads && k in s.drafts && k != row.id
    requires DraftOk(s.tables, k, s.drafts[k])
    ensures var after := Appended(s.tables, row.thread, row, now);
      && s.drafts[k].row.thread in after.threads
      && after.threads[s.drafts[k].row.thread].session == s.drafts[k].row.session
      && forall i :: 0 <= i < |after.rows| ==> after.rows[i].id != k
  {
    var after := Appended(s.tables, row.thread, row, now);
    forall i | 0 <= i < |after.rows| ensures after.rows[i].id != k {
      if i < |s.tables.rows| { assert after.rows[i].id == s.tables.rows[i].id; }
    }
  }

  lemma ResolveKeepsInv(s: State, session: SessionId, mode: Mode, newThread: ThreadId, now: Time)
    requires Inv(s) && Enabled(s, ResolveThread(session, mode, newThread, now))
    ensures Inv(After(s, ResolveThread(session, mode, newThread, now)))
  {
    var resolved := Resolve(s.tables, session, mode, now, newThread);
    if resolved.Ok? {
      ResolveKeepsSound(s.tables, session, mode, now, newThread);
      ResolveLeavesOneActive(s.tables, session, mode, now, newThread);
      var t := s.tables.(threads := resolved.value.0);
      forall id | id in s.drafts ensures DraftOk(t, id, s.drafts[id]) { assert DraftOk(s.tables, id, s.drafts[id]); }
    }
  }

  lemma SessionsKeepSound(t: Tables, t': Tables)
    requires Sound(t) && t'.threads == t.threads && t'.rows == t.rows && t.sessions.Keys <= t'.sessions.Keys
    ensures Sound(t')
  {
  }

  lemma StepKeepsInv(s: State, e: Event)
    requires Inv(s) && Enabled(s, e)
    ensures Inv(After(s, e))
  {
    match e
    case OpenSession(_, _) => SessionsKeepInv(s, After(s, e));
    case CloseSession(_) => SessionsKeepInv(s, After(s, e));
    case ResolveThread(session, mode, newThread, now) => ResolveKeepsInv(s, session, mode, newThread, now);
    case Build(_, _, _) =>
    case Store(id, now) => StoreKeepsInv(s, id, now);
    case Discard(_) =>
  }

  lemma SessionsKeepInv(s: State, s': State)
    requires Inv(s) && s'.drafts == s.drafts && s'.tables.threads == s.tables.threads && s'.tables.rows == s.tables.rows
    requires s.tables.sessions.Keys <= s'.tables.sessions.Keys
    ensures Inv(s')
  {
    SessionsKeepSound(s.tables, s'.tables);
    forall id | id in s'.drafts ensures DraftOk(s'.tables, id, s'.drafts[id]) { assert DraftOk(s.tables, id, s.drafts[id]); }
  }

  lemma {:induction false} RunInv(tr: seq<State>, evs: seq<Event>, n: nat)
    requires IsRun(tr, evs) && n < |tr|
    ensures Inv(tr[n])
  {
    if n > 0 {
      RunInv(tr, evs, n - 1);
      assert StepAt(tr, evs, n - 1);
      StepKeepsInv(tr[n - 1], evs[n - 1]);
    }
  }

  // ---------------------------------------------------------------- main results

  /** However transactions interleave, one latest row, the thread's pointer, sessions and uniqueness are kept. */
  lemma RunIsSound(tr: seq<State>, evs: seq<Event>, n: nat)
    requires IsRun(tr, evs) && n < |tr|
    ensures Sound(tr[n].tables)
  {
    RunInv(tr, evs, n);
  }

  /** The event stores a row whose thread has gained another since the row was built. */
  predicate StoresOutdated(s: State, e: Event) {
    e.Store? && e.id in s.drafts && s.drafts[e.id].grown
  }

  lemma DensePrefix(rows: seq<Row>, thread: ThreadId, row: Row)
    requires DenseIndices(ClearLatest(rows, thread) + [row])
    ensures DenseIndices(rows)
  {
    var after := ClearLatest(rows, thread) + [row];
    forall i | 0 <= i < |rows| ensures rows[i].index == CountIn(rows[..i], rows[i].thread) {
      CountIgnoresFlags(after[..i], rows[..i], rows[i].thread);
      assert after[i].index == CountIn(after[..i], after[i].thread);
    }
  }

  /** A step keeps the indices dense exactly if they were and it does not store an outdated row. */
  lemma StepDense(s: State, e: Event)
    requires Inv(s) && Enabled(s, e)
    ensures DenseIndices(After(s, e).tables.rows) <==> DenseIndices(s.tables.rows) && !StoresOutdated(s, e)
  {
    if e.Store? {
      var row := s.drafts[e.id].row;
      assert DraftOk(s.tables, e.id, s.drafts[e.id]);
      StoreKeepsInv(s, e.id, e.now);
      if DenseIndices(s.tables.rows) {
        StaleRowBreaksDensity(s.tables, row.thread, row, e.now);
      } else if DenseIndices(After(s, e).tables.rows) {
        DensePrefix(s.tables.rows, row.thread, row);
      }
    } else {
      OtherRowsStay(s, e);
    }
  }

  lemma OtherRowsStay(s: State, e: Event)
    requires Enabled(s, e) && !e.Store?
    ensures After(s, e).tables.rows == s.tables.rows
  {
  }

  lemma RunStepDense(tr: seq<State>, evs: seq<Event>, i: nat)
    requires IsRun(tr, evs) && i < |evs|
    ensures DenseIndices(tr[i + 1].tables.rows) <==> DenseIndices(tr[i].tables.rows) && !StoresOutdated(tr[i], evs[i])
  {
    RunInv(tr, evs, i);
    assert StepAt(tr, evs, i);
    StepDense(tr[i], evs[i]);
  }

  /** In every run, each thread's indices are 0 to n-1 in insertion order if and only if no row was stored after its
      thread had grown since the row was built. */
  lemma {:induction false} DenseExactly(tr: seq<State>, evs: seq<Event>, n: nat)
    requires IsRun(tr, evs) && n < |tr|
    ensures DenseIndices(tr[n].tables.rows) <==> forall i :: 0 <= i < n ==> !StoresOutdated(tr[i], evs[i])
  {
    if n > 0 {
      DenseExactly(tr, evs, n - 1);
      RunStepDense(tr, evs, n - 1);
    }
  }

  // ---------------------------------------------------------------- a run in which the indices repeat

  lemma Goes(tr: seq<State>, evs: seq<Event>, e: Event) returns (tr': seq<State>, evs': seq<Event>)
    requires IsRun(tr, evs) && Enabled(tr[|evs|], e)
    ensures tr' == tr + [After(tr[|evs|], e)] && evs' == evs + [e] && IsRun(tr', evs')
  {
    tr', evs' := tr + [After(tr[|evs|], e)], evs + [e];
    forall i | 0 <= i < |evs'| ensures StepAt(tr', evs', i) {
      if i < |evs| { assert StepAt(tr, evs, i); }
    }
  }

  /** A session with one new thread. */
  lemma OneThread() returns (tr: seq<State>, evs: seq<Event>)
    ensures IsRun(tr, evs) && tr[|evs|].drafts == map[]
    ensures var t := tr[|evs|].tables;
      t.rows == [] && 1 in t.threads && t.threads[1].session == 7 && 7 in t.sessions
  {
    var s0 := State(Tables(map[], map[], []), map[]);
    tr, evs := Goes([s0], [], OpenSession(7, 1));
    var s := tr[|evs|];
    assert s.tables.sessions == map[7 := Session(1, SessionActive)] && s.tables.threads == map[];
    ResolveCorrect(s.tables, 7, Auto, 0, 1);
    ResolveLeavesOneActive(s.tables, 7, Auto, 0, 1);
    assert ActiveOf(s.tables.threads, 7) == None;
    tr, evs := Goes(tr, evs, ResolveThread(7, Auto, 1, 0));
  }

  /** Two rows are built before either is stored; both are stored, and the second repeats the index of the first. */
  lemma IndicesRepeat() returns (tr: seq<State>, evs: seq<Event>)
    ensures IsRun(tr, evs) && !DenseIndices(tr[|evs|].tables.rows)
  {
    tr, evs := OneThread();
    tr, evs := Goes(tr, evs, Build(1, 1, None));
    tr, evs := Goes(tr, evs, Build(1, 2, None));
    var s := tr[|evs|];
    RunInv(tr, evs, |evs|);
    StoreKeepsInv(s, 1, 0);
    tr, evs := Goes(tr, evs, Store(1, 0));
    var k := |evs|;
    tr, evs := Goes(tr, evs, Store(2, 0));
    assert StoresOutdated(tr[k], evs[k]);
    DenseExactly(tr, evs, |evs|);
  }
}
