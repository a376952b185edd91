/** The thread service inside one database transaction, with other transactions committing around it. */
module ThreadService {
  import opened Base
  import opened Threads

  /** The thread table as this transaction sees it: its own uncommitted rows over the committed ones. */
  function Overlay(committed: ThreadMap, pending: ThreadMap): ThreadMap {
    committed + pending
  }

  /** What other transactions may commit: they cannot touch the rows this one has written, uuids do not collide, and the
      unique index holds against committed rows and every version this transaction has written: its current rows
      and those its savepoint would bring back. */
  predicate Admissible(committed: ThreadMap, saved: ThreadMap, pending: ThreadMap, newId: ThreadId, next: ThreadMap) {
    && (forall t :: t in pending ==> (t in next <==> t in committed) && (t in committed ==> next[t] == committed[t]))
    && newId !in next
    && OneActive(next)
    && OneActive(Overlay(next, pending))
    && OneActive(Overlay(next, saved))
  }

  datatype Resolution = Resolution(thread: ThreadId, mode: Mode)

  function ModeOf(a: Action): Mode {
    if a == DoContinue then Continue else New
  }

  predicate CreateIsLast(commands: seq<Command>) {
    forall i :: 0 <= i < |commands| && commands[i].kind == CmdCreate ==> i == |commands| - 1
  }

  /** The method's outcome and the table it leaves are what the sequential function gives; a failure leaves no claim on
      the table, which the savepoint restores. */
  predicate Agrees<T(==)>(spec: Result<(ThreadMap, T), Fault>, view: ThreadMap, r: Result<T, Fault>) {
    match r
    case Ok(value) => spec == Ok((view, value))
    case Err(fault) => spec == Err(fault)
  }

  /** The thread a command yields: the one CREATE or CONTINUE stands for, or the one before. */
  function NextThread(c: Command, thread: Option<ThreadId>, newId: ThreadId): Option<ThreadId> {
    if c.kind == CmdCreate then Some(newId) else if c.kind == CmdContinue then c.thread else thread
  }

  function ThreadAfter(commands: seq<Command>, n: nat, newId: ThreadId): Option<ThreadId>
    requires n <= |commands|
  {
    if n == 0 then None else NextThread(commands[n - 1], ThreadAfter(commands, n - 1, newId), newId)
  }

  /** The first n commands have yielded this thread; a created one is in place, and nothing else has the new key. */
  predicate Yielded(commands: seq<Command>, n: nat, session: SessionId, newId: ThreadId, now: Time,
                    view: ThreadMap, created: bool, thread: Option<ThreadId>)
    requires n <= |commands|
  {
    && (created ==> n == |commands| > 0 && commands[n - 1].kind == CmdCreate
                    && newId in view && view[newId] == FreshThread(session, now))
    && (thread == Some(newId) ==> created)
    && thread == ThreadAfter(commands, n, newId)
  }

  /** A resolution is what the decision asks for, and a created thread is in place. */
  predicate Carries(d: Decision, session: SessionId, newId: ThreadId, now: Time, view: ThreadMap, created: bool, r: Resolution) {
    && r.mode == ModeOf(d.action)
    && (r.mode == New ==> r.thread == newId && created && newId in view && view[newId] == FreshThread(session, now))
    && (r.mode == Continue ==> d.target == Some(r.thread))
  }

  /** A transition that only continues or only creates a thread. */
  predicate Lone(commands: seq<Command>) {
    |commands| == 1 && (commands[0].kind == CmdCreate || (commands[0].kind == CmdContinue && commands[0].thread.Some?))
  }

  predicate NoContinue(commands: seq<Command>) {
    forall i :: 0 <= i < |commands| ==> commands[i].kind != CmdContinue
  }

  /** Between two committed tables a thread of the session, not written by this transaction, has become active. */
  predicate Appeared(session: SessionId, pending: ThreadMap, before: ThreadMap, after: ThreadMap) {
    exists t: ThreadId :: t in after && t !in pending && IsActive(after, session, t) && !IsActive(before, session, t)
  }

  lemma WhoAppeared(session: SessionId, pending: ThreadMap, before: ThreadMap, after: ThreadMap) returns (t: ThreadId)
    requires Appeared(session, pending, before, after)
    ensures IsActive(after, session, t) && !IsActive(before, session, t)
  {
    t :| t in after && t !in pending && IsActive(after, session, t) && !IsActive(before, session, t);
  }

  /** The rows a transaction has written once it has idled the active threads it sees. */
  function IdledRows(view: ThreadMap, pending: ThreadMap, session: SessionId): ThreadMap {
    pending + map t | t in view && IsActive(view, session, t) :: view[t].(status := Idle)
  }

  predicate HasActive(threads: ThreadMap, session: SessionId) {
    exists t: ThreadId :: t in threads && IsActive(threads, session, t)
  }

  /** After idling, an active thread is in the way exactly if it has appeared since. */
  lemma ConflictIsNewcomer(before: ThreadMap, after: ThreadMap, pending: ThreadMap, session: SessionId)
    ensures HasActive(Overlay(after, IdledRows(Overlay(before, pending), pending, session)), session)
       <==> Appeared(session, pending, before, after)
  {
    var view := Overlay(before, pending);
    var idled := IdledRows(view, pending, session);
    var now := Overlay(after, idled);
    forall t: ThreadId
      ensures t in now && IsActive(now, session, t)
         <==> t in after && t !in pending && IsActive(after, session, t) && !IsActive(before, session, t)
    {
      assert t !in pending ==> (IsActive(view, session, t) <==> IsActive(before, session, t));
      assert t in idled <==> t in pending || IsActive(view, session, t);
    }
  }

  /** The result carries out the decision taken on a view: a created thread is in place and active; a continued one was
      active in that view and exists. */
  predicate Fulfils(base: ThreadMap, d: Decision, session: SessionId, newId: ThreadId, now: Time, view: ThreadMap,
                    created: bool, r: Resolution)
  {
    && Carries(d, session, newId, now, view, created, r)
    && r.thread in view
    && (r.mode == New ==> IsActive(view, session, r.thread))
    && (r.mode == Continue ==> IsActive(base, session, r.thread))
  }

  /** A round: the interleaving point of its snapshot, the view there, and the decision taken on it. */
  datatype Round = Round(at: nat, base: ThreadMap, decision: Decision)

  /** The decision is that of the state machine on the view and on the session's status as it was queried. */
  predicate Snapped(round: Round, seen: seq<ThreadMap>, pending: ThreadMap, session: SessionId, status: Option<SessionStatus>,
                    mode: Mode, now: Time)
  {
    && round.at < |seen|
    && round.base == Overlay(seen[round.at], pending)
    && (status.Some? ==> round.decision == Decide(status.value, SnapshotOf(round.base, session), mode, now))
  }

  /** A thread of the session that was not active before the last interleaving point is active after it. */
  predicate BecameActive(seen: seq<ThreadMap>, at: nat, session: SessionId, t: ThreadId) {
    0 < at < |seen| && IsActive(seen[at], session, t) && !IsActive(seen[at - 1], session, t)
  }

  /** A conflict: the interleaving point at which it was met, and the thread that caused it. */
  datatype Conflict = Conflict(at: nat, thread: ThreadId)

  /** The thread the round was to continue is gone, or another thread of the session has become active since the round
      idled the ones it saw. */
  predicate FailedBy(round: Round, c: Conflict, seen: seq<ThreadMap>, pending: ThreadMap, session: SessionId) {
    && round.at < c.at < |seen|
    && (round.decision.action == DoContinue ==>
          c.at == round.at + 1 && round.decision.target == Some(c.thread) && c.thread !in Overlay(seen[c.at], pending))
    && (round.decision.action != DoContinue ==>
          BecameActive(seen, c.at, session, c.thread))
    && (round.decision.action == DoCreate ==> c.at == round.at + 2)
  }

  /** A creating round fails exactly if a thread of the session has become active between its two statements. */
  predicate Blocked(round: Round, seen: seq<ThreadMap>, pending: ThreadMap, session: SessionId) {
    && round.decision.action == DoCreate && round.at + 2 < |seen|
    && Appeared(session, pending, seen[round.at + 1], seen[round.at + 2])
  }

  /** What is known of a round stays known as more tables are committed. */
  lemma RoundStays(round: Round, c: Conflict, seen: seq<ThreadMap>, later: seq<ThreadMap>, pending: ThreadMap, session: SessionId,
                   status: Option<SessionStatus>, mode: Mode, now: Time)
    requires seen <= later && FailedBy(round, c, seen, pending, session)
    requires Snapped(round, seen, pending, session, status, mode, now)
    ensures FailedBy(round, c, later, pending, session) && Snapped(round, later, pending, session, status, mode, now)
    ensures later[round.at] == seen[round.at] && later[round.at + 1] == seen[round.at + 1]
  {
    assert later[c.at] == seen[c.at] && later[c.at - 1] == seen[c.at - 1];
  }

  /** The outcome of the commands from number n on. */
  function RestOf(threads: ThreadMap, commands: seq<Command>, n: nat, session: SessionId, now: Time, newId: ThreadId,
                  thread: Option<ThreadId>): Result<(ThreadMap, ThreadId), Fault>
    requires n <= |commands| && (thread.Some? ==> thread.value in threads)
    decreases |commands| - n
  {
    if n == |commands| then
      if thread.None? then Err(ValueFault) else Ok((threads, thread.value))
    else
      match ApplyCommand(threads, commands[n], session, now, newId, thread)
      case Err(fault) => Err(fault)
      case Ok((after, next)) => RestOf(after, commands, n + 1, session, now, newId, next)
  }

  lemma {:induction false} RestIsRest(threads: ThreadMap, commands: seq<Command>, n: nat, session: SessionId, now: Time,
                                      newId: ThreadId, thread: Option<ThreadId>)
    requires n <= |commands| && (thread.Some? ==> thread.value in threads)
    ensures RestOf(threads, commands, n, session, now, newId, thread)
         == ApplyCommands(threads, commands[n..], session, now, newId, thread)
    decreases |commands| - n
  {
    if n < |commands| {
      assert commands[n..][1..] == commands[n + 1..];
      var applied := ApplyCommand(threads, commands[n], session, now, newId, thread);
      if applied.Ok? { RestIsRest(applied.value.0, commands, n + 1, session, now, newId, applied.value.1); }
    }
  }

  lemma AllIsRest(threads: ThreadMap, commands: seq<Command>, session: SessionId, now: Time, newId: ThreadId)
    ensures RestOf(threads, commands, 0, session, now, newId, None) == ApplyCommands(threads, commands, session, now, newId, None)
  {
    RestIsRest(threads, commands, 0, session, now, newId, None);
    assert commands[0..] == commands;
  }

  lemma IndexContinues(rows: seq<Row>, row: Row)
    requires DenseIndices(rows) && row.index == CountIn(rows, row.thread)
    ensures IndicesOf(rows + [row], row.thread) == seq(CountIn(rows, row.thread) + 1, i => i)
  {
    IndicesAreDense(rows, row.thread);
    assert (rows + [row])[..|rows|] == rows;
  }

  class ThreadDb {
    // What other transactions commit at each interleaving point of this one; None when nobody commits.
    const others: nat -> Option<ThreadMap>
    // The session table a query finds after so many interleaving points; this transaction does not write it.
    const sessions: nat -> Sessions
    var point: nat
    var committed: ThreadMap
    var pending: ThreadMap
    var saved: ThreadMap  // pending at the last savepoint
    var rows: seq<Row>
    ghost var seen: seq<ThreadMap>  // the committed table after each interleaving point

    constructor (others: nat -> Option<ThreadMap>, sessions: nat -> Sessions, threads: ThreadMap, rows: seq<Row>)
      ensures this.others == others && this.sessions == sessions && point == 0 && seen == [threads]
      ensures committed == threads && pending == saved == map[] && this.rows == rows
    {
      this.others, this.sessions, point := others, sessions, 0;
      committed, pending, saved, this.rows := threads, map[], map[], rows;
      seen := [threads];
    }

    function StatusAt(p: nat, session: SessionId): Option<SessionStatus> {
      if session in sessions(p) then Some(sessions(p)[session].status) else None
    }

    function View(): ThreadMap
      reads this
    {
      Overlay(committed, pending)
    }

    function Visible(): Tables
      reads this
    {
      Tables(sessions(point), View(), rows)
    }

    ghost predicate Valid(newId: ThreadId)
      reads this
    {
      |seen| == point + 1 && seen[point] == committed &&
      OneActive(committed) && OneActive(View()) && OneActive(Overlay(committed, saved)) && newId !in committed
    }

    ghost predicate Undisturbed() {
      forall n :: others(n) == None && sessions(n) == sessions(0)
    }

    /** The committed table after interleaving point p. */
    function Admitted(p: nat, committed: ThreadMap, saved: ThreadMap, pending: ThreadMap, newId: ThreadId): ThreadMap {
      if others(p).Some? && Admissible(committed, saved, pending, newId, others(p).value) then others(p).value else committed
    }

    /** An interleaving point: another transaction may commit here. */
    method Interleave(newId: ThreadId)
      requires Valid(newId)
      modifies this`committed, this`point, this`seen
      ensures Valid(newId)
      ensures point == old(point) + 1 && seen == old(seen) + [committed]
      ensures committed == Admitted(old(point), old(committed), saved, pending, newId)
      ensures forall t :: t in pending ==> (t in committed <==> t in old(committed))
    {
      var next := others(point);
      if next.Some? && Admissible(committed, saved, pending, newId, next.value) {
        committed := next.value;
      }
      point := point + 1;
      seen := seen + [committed];
    }

    /** What a lone CREATE command sees: others may commit before it idles the active threads, and before it inserts. */
    predicate SeenByCreate(at: nat, seen: seq<ThreadMap>, saved: ThreadMap, pending: ThreadMap, session: SessionId, newId: ThreadId) {
      && at + 2 < |seen|
      && seen[at + 1] == Admitted(at, seen[at], saved, pending, newId)
      && seen[at + 2]
           == Admitted(at + 1, seen[at + 1], saved, IdledRows(Overlay(seen[at + 1], pending), pending, session), newId)
    }

    /** What CONTINUE and CREATE have seen since the given point, and whether they succeed: CONTINUE if the thread exists when
        it runs, CREATE if no thread of the session has become active before its insert. */
    ghost predicate Executed(c: Command, start: nat, written: ThreadMap, session: SessionId, newId: ThreadId, ok: bool)
      reads this
    {
      && (c.kind == CmdContinue && c.thread.Some? ==>
            && point == start + 1 < |seen| && pending == written
            && seen[start + 1] == Admitted(start, seen[start], saved, written, newId)
            && (ok <==> c.thread.value in View()))
      && (c.kind == CmdCreate ==>
            && point == start + 2 && SeenByCreate(start, seen, saved, written, session, newId)
            && (ok <==> !Appeared(session, written, seen[start + 1], seen[start + 2])))
    }

    method MarkIdle(t: ThreadId)
      modifies this`pending
      ensures View() == SetStatus(old(View()), t, Idle) && pending.Keys <= old(pending).Keys + old(View()).Keys
      ensures OneActive(old(View())) ==> OneActive(View())
    {
      if OneActive(View()) { RetiringKeepsOneActive(View(), t, Idle); }
      if t in View() {
        pending := pending[t := View()[t].(status := Idle)];
      }
    }

    method CloseThread(t: ThreadId)
      modifies this`pending
      ensures View() == SetStatus(old(View()), t, Closed) && pending.Keys <= old(pending).Keys + old(View()).Keys
      ensures OneActive(old(View())) ==> OneActive(View())
    {
      if OneActive(View()) { RetiringKeepsOneActive(View(), t, Closed); }
      if t in View() {
        pending := pending[t := View()[t].(status := Closed)];
      }
    }

    /** UPDATE ... SET status = idle WHERE session and active. */
    method IdleActive(session: SessionId)
      modifies this`pending
      ensures View() == IdleAll(old(View()), session) && pending.Keys <= old(pending).Keys + old(View()).Keys
      ensures pending == IdledRows(old(View()), old(pending), session)
    {
      var view := View();
      pending := pending + map t | t in view && IsActive(view, session, t) :: view[t].(status := Idle);
    }

    /** INSERT of an active thread; the unique index refuses it if the session has one already. */
    method InsertThread(session: SessionId, newId: ThreadId, now: Time) returns (ok: bool)
      requires newId !in View() && OneActive(View())
      modifies this`pending
      ensures ok <==> !HasActive(old(View()), session)
      ensures ok ==> View() == old(View())[newId := FreshThread(session, now)] && newId in pending && OneActive(View())
      ensures !ok ==> pending == old(pending)
    {
      var view := View();
      if HasActive(view, session) {
        return false;
      }
      InsertKeepsOneActive(view, session, newId, now);
      pending := pending[newId := FreshThread(session, now)];
      assert View() == view[newId := FreshThread(session, now)];
      return true;
    }

    /** Idles the active threads it sees, then inserts; the insert fails if another active thread has appeared. */
    method CreateThread(session: SessionId, newId: ThreadId, now: Time)
      returns (r: Result<ThreadId, Fault>, ghost newcomer: ThreadId)
      requires Valid(newId) && newId !in pending
      modifies this
      ensures Valid(newId) && saved == old(saved) && rows == old(rows)
      ensures r == Ok(newId) || r == Err(ConcurrencyFault)
      ensures r.Ok? ==> newId in pending && View()[newId] == FreshThread(session, now)
      ensures r.Err? ==> newId !in pending
      // The insert comes one interleaving point after the update, and fails exactly for what has been committed between.
      ensures point == old(point) + 1 && old(seen) <= seen
      ensures r.Err? <==> Appeared(session, old(pending), old(seen)[old(point)], seen[point])
      ensures seen[point] == Admitted(old(point), old(committed), saved, IdledRows(old(View()), old(pending), session), newId)
      ensures r.Err? ==> BecameActive(seen, point, session, newcomer)
      ensures Undisturbed() ==> r.Ok? && committed == old(committed)
      ensures Undisturbed() ==> View() == IdleAll(old(View()), session)[newId := FreshThread(session, now)]
    {
      IdleKeepsOneActive(View(), session);
      IdleActive(session);
      Interleave(newId);
      ConflictIsNewcomer(old(committed), committed, old(pending), session);
      var ok := InsertThread(session, newId, now);
      newcomer := newId;
      if !ok { newcomer := WhoAppeared(session, old(pending), old(committed), committed); }
      return if ok then Ok(newId) else Err(ConcurrencyFault), newcomer;
    }

    /** One command; CONTINUE only checks that the thread still exists. */
    method Execute(c: Command, session: SessionId, newId: ThreadId, now: Time, thread: Option<ThreadId>)
      returns (r: Result<Option<ThreadId>, Fault>, ghost newcomer: ThreadId)
      requires Valid(newId) && newId !in pending
      modifies this
      ensures Valid(newId) && saved == old(saved) && rows == old(rows)
      ensures r.Ok? ==> r.value == NextThread(c, thread, newId)
      ensures r.Ok? && c.kind == CmdContinue ==> c.thread.Some? && c.thread != Some(newId)
      ensures r.Ok? && c.kind != CmdCreate ==> newId !in pending
      ensures r.Ok? && c.kind == CmdCreate ==> newId in pending && View()[newId] == FreshThread(session, now)
      ensures point > old(point) && old(seen) <= seen
      ensures Executed(c, old(point), old(pending), session, newId, r.Ok?)
      ensures (c.kind == CmdContinue && c.thread.Some?) || c.kind == CmdCreate ==> r.Ok? || r.error == ConcurrencyFault
      ensures c.kind != CmdContinue && r == Err(ConcurrencyFault) ==> BecameActive(seen, point, session, newcomer)
      ensures Undisturbed() && (thread.Some? ==> thread.value in old(View())) ==>
                committed == old(committed) && Agrees(ApplyCommand(old(View()), c, session, now, newId, thread), View(), r)
    {
      newcomer := newId;
      Interleave(newId);
      if c.kind == CmdCreate {
        var created;
        created, newcomer := CreateThread(session, newId, now);
        return if created.Err? then Err(created.error) else Ok(Some(created.value)), newcomer;
      }
      if c.thread.None? { return Err(ValueFault), newcomer; }
      r := Ok(thread);
      match c.kind {
        case CmdContinue => r := if c.thread.value in View() then Ok(c.thread) else Err(ConcurrencyFault);
        case CmdMarkIdle => MarkIdle(c.thread.value);
        case CmdClose => CloseThread(c.thread.value);
      }
    }

    /** The next command of a list. */
    method Step(commands: seq<Command>, n: nat, session: SessionId, newId: ThreadId, now: Time, thread: Option<ThreadId>)
      returns (r: Result<Option<ThreadId>, Fault>, ghost newcomer: ThreadId)
      requires n < |commands| && CreateIsLast(commands)
      requires Valid(newId) && newId !in pending && Yielded(commands, n, session, newId, now, View(), false, thread)
      modifies this
      ensures Valid(newId) && saved == old(saved) && rows == old(rows)
      ensures point > old(point) && old(seen) <= seen
      ensures r.Ok? ==> Yielded(commands, n + 1, session, newId, now, View(), newId in pending, r.value)
      ensures r.Ok? && Lone(commands) ==> r.value.Some?
      ensures Executed(commands[n], old(point), old(pending), session, newId, r.Ok?)
      ensures Lone(commands) ==> r.Ok? || r.error == ConcurrencyFault
      ensures NoContinue(commands) && r == Err(ConcurrencyFault) ==> BecameActive(seen, point, session, newcomer)
      ensures Undisturbed() && (thread.Some? ==> thread.value in old(View())) ==>
                && committed == old(committed) && (r.Ok? && r.value.Some? ==> r.value.value in View())
                && var spec := RestOf(old(View()), commands, n, session, now, newId, thread);
                   match r
                   case Ok(next) =>
                     (next.Some? ==> next.value in View()) && spec == RestOf(View(), commands, n + 1, session, now, newId, next)
                   case Err(fault) => spec == Err(fault)
    {
      r, newcomer := Execute(commands[n], session, newId, now, thread);
    }

    /** Executes the command list. */
    method ApplyTransition(commands: seq<Command>, session: SessionId, newId: ThreadId, now: Time)
      returns (r: Result<ThreadId, Fault>, ghost newcomer: ThreadId)
      requires Valid(newId) && newId !in pending
      requires CreateIsLast(commands)
      modifies this
      ensures Valid(newId) && saved == old(saved) && rows == old(rows)
      ensures r.Ok? ==> Yielded(commands, |commands|, session, newId, now, View(), newId in pending, Some(r.value))
      ensures old(seen) <= seen && (commands != [] ==> point > old(point))
      ensures Lone(commands) ==>
                && Executed(commands[0], old(point), old(pending), session, newId, r.Ok?)
                && (r.Ok? || r.error == ConcurrencyFault)
      ensures NoContinue(commands) && r == Err(ConcurrencyFault) ==> BecameActive(seen, point, session, newcomer)
      ensures Undisturbed() ==>
                committed == old(committed) && Agrees(RestOf(old(View()), commands, 0, session, now, newId, None), View(), r)
    {
      var thread: Option<ThreadId> := None;
      var n := 0;
      newcomer := newId;
      ghost var start, before, written := point, committed, pending;
      ghost var spec := RestOf(View(), commands, 0, session, now, newId, None);
      while n < |commands|
        invariant 0 <= n <= |commands|
        invariant Valid(newId) && saved == old(saved) && rows == old(rows)
        invariant Yielded(commands, n, session, newId, now, View(), newId in pending, thread)
        invariant old(seen) <= seen && (n > 0 ==> point > start)
        invariant n == 0 ==> point == start && pending == written
        invariant Lone(commands) && n == 1 ==> thread.Some? && Executed(commands[0], start, written, session, newId, true)
        invariant Undisturbed() ==> committed == before && (thread.Some? ==> thread.value in View())
        invariant Undisturbed() ==> RestOf(View(), commands, n, session, now, newId, thread) == spec
      {
        var done;
        done, newcomer := Step(commands, n, session, newId, now, thread);
        if done.Err? { return Err(done.error), newcomer; }
        thread := done.value;
        n := n + 1;
      }
      if thread.None? { return Err(ValueFault), newcomer; }
      return Ok(thread.value), newcomer;
    }

    /** A continuing round runs its command at the next point, and sees there what was committed in between. */
    predicate ContinuesAt(round: Round, seen: seq<ThreadMap>, pending: ThreadMap, newId: ThreadId) {
      round.decision.action == DoContinue ==>
        round.at + 1 < |seen| && seen[round.at + 1] == Admitted(round.at, seen[round.at], pending, pending, newId)
    }

    /** A creating round sees what is committed up to its insert. */
    predicate CreatesAt(round: Round, seen: seq<ThreadMap>, pending: ThreadMap, session: SessionId, newId: ThreadId) {
      round.decision.action == DoCreate ==> SeenByCreate(round.at, seen, pending, pending, session, newId)
    }

    predicate RanAt(round: Round, seen: seq<ThreadMap>, pending: ThreadMap, session: SessionId, newId: ThreadId) {
      ContinuesAt(round, seen, pending, newId) && CreatesAt(round, seen, pending, session, newId)
    }

    lemma RunStays(round: Round, seen: seq<ThreadMap>, later: seq<ThreadMap>, pending: ThreadMap, session: SessionId, newId: ThreadId)
      requires RanAt(round, seen, pending, session, newId) && seen <= later
      ensures RanAt(round, later, pending, session, newId)
    {
      assert forall i :: 0 <= i < |seen| ==> later[i] == seen[i];
    }

    /** The commands of a round's decision inside a savepoint, which a failure rolls back to. */
    method ApplyNested(d: Decision, ghost round: Round, session: SessionId, newId: ThreadId, now: Time)
      returns (r: Result<ThreadId, Fault>, ghost conflict: Conflict)
      requires Valid(newId) && newId !in pending && (d.action == DoContinue ==> d.target.Some?)
      requires round == Round(point, View(), d)
      modifies this
      ensures Valid(newId) && rows == old(rows)
      ensures point > old(point) && old(seen) <= seen
      ensures r.Err? ==> pending == old(pending) == saved
      ensures r.Ok? ==> Yielded(Normalize(d), |Normalize(d)|, session, newId, now, View(), newId in pending, Some(r.value))
      ensures RanAt(round, seen, old(pending), session, newId)
      ensures r == Err(ConcurrencyFault) ==> conflict.at == point && FailedBy(round, conflict, seen, pending, session)
      ensures d.action == DoContinue ==>
                && point == old(point) + 1 && pending == old(pending)
                && (r.Ok? <==> d.target.value in View()) && (r.Err? ==> r.error == ConcurrencyFault)
      ensures d.action == DoCreate ==> (r == Err(ConcurrencyFault) <==> Blocked(round, seen, old(pending), session))
      ensures Undisturbed() ==>
                && committed == old(committed)
                && var spec := RestOf(old(View()), Normalize(d), 0, session, now, newId, None);
                   (r.Ok? ==> spec == Ok((View(), r.value))) && (r.Err? ==> spec == Err(r.error))
    {
      NormalizedShape(d, newId);
      saved := pending;
      ghost var newcomer;
      r, newcomer := ApplyTransition(Normalize(d), session, newId, now);
      conflict := Conflict(point, if d.action == DoContinue then d.target.value else newcomer);
      if r.Err? { pending := saved; }
    }

    /** The result carries out the decision of the round. */
    predicate Carried(round: Round, session: SessionId, newId: ThreadId, now: Time, r: Resolution)
      reads this
    {
      Fulfils(round.base, round.decision, session, newId, now, View(), newId in pending, r)
    }

    /** The two snapshot queries and the decision; an unknown session raises. */
    method Snapshot(session: SessionId, mode: Mode, newId: ThreadId, now: Time) returns (r: Result<Decision, Fault>, ghost round: Round)
      requires Valid(newId)
      modifies this`committed, this`point, this`seen
      ensures Valid(newId) && point == old(point) + 1 && old(seen) <= seen && round.at == point && round.base == View()
      ensures seen[point] == Admitted(old(point), old(committed), saved, pending, newId)
      ensures Snapped(round, seen, pending, session, StatusAt(point, session), mode, now)
      ensures if StatusAt(point, session).None? then r == Err(ValueFault) else r == Ok(round.decision)
      ensures r.Err? ==> round.decision.action == DoMarkIdle
      ensures Undisturbed() ==> committed == old(committed)
    {
      Interleave(newId);
      round := Round(point, View(), Decision(DoMarkIdle, None));
      if session !in sessions(point) { return Err(ValueFault), round; }
      var decision := Decide(sessions(point)[session].status, SnapshotOf(View(), session), mode, now);
      r, round := Ok(decision), Round(point, View(), decision);
    }

    /** Carries out the decision of a round right after its snapshot. */
    method Carry(decision: Decision, ghost round: Round, ghost status: SessionStatus, session: SessionId, mode: Mode,
                 newId: ThreadId, now: Time)
      returns (r: Result<Resolution, Fault>, ghost conflict: Conflict)
      requires Valid(newId) && newId !in pending
      requires round == Round(point, View(), decision) && decision == Decide(status, SnapshotOf(View(), session), mode, now)
      modifies this
      ensures Valid(newId) && rows == old(rows)
      ensures point > old(point) && old(seen) <= seen
      ensures r.Err? ==> pending == old(pending) == saved
      ensures r.Ok? ==> Carried(round, session, newId, now, r.value)
      ensures r.Ok? && r.value.mode == Continue ==> pending == old(pending) && point == round.at + 1
      ensures decision.action == DoContinue && r.Err? ==> r.error == ConcurrencyFault
      ensures r == Err(ConcurrencyFault) ==> conflict.at == point && FailedBy(round, conflict, seen, pending, session)
      ensures RanAt(round, seen, old(pending), session, newId)
      ensures round.decision.action == DoCreate && r != Err(ConcurrencyFault) ==> !Blocked(round, seen, old(pending), session)
      ensures Undisturbed() ==>
                && committed == old(committed)
                && var spec := RestOf(old(View()), Normalize(decision), 0, session, now, newId, None);
                   (r.Ok? ==> spec == Ok((View(), r.value.thread))) && (r.Err? ==> spec == Err(r.error))
    {
      DecisionIsConsistent(View(), session, status, mode, now);
      var applied;
      applied, conflict := ApplyNested(decision, round, session, newId, now);
      if applied.Err? { return Err(applied.error), conflict; }
      YieldedFulfils(round.base, session, status, mode, newId, now, View(), newId in pending, applied.value);
      return Ok(Resolution(applied.value, ModeOf(decision.action))), conflict;
    }

    /** One round: snapshot, decide, apply under a savepoint. */
    method Attempt(session: SessionId, mode: Mode, newId: ThreadId, now: Time)
      returns (r: Result<Resolution, Fault>, ghost round: Round, ghost conflict: Conflict)
      requires Valid(newId) && newId !in pending
      modifies this
      ensures Valid(newId) && rows == old(rows)
      ensures r.Err? ==> pending == old(pending)
      ensures point > old(point) && old(seen) <= seen && round.at == old(point) + 1
      ensures seen[round.at] == Admitted(old(point), old(committed), old(saved), old(pending), newId)
      ensures Snapped(round, seen, old(pending), session, StatusAt(round.at, session), mode, now)
      ensures StatusAt(round.at, session).None? ==> r == Err(ValueFault)
      ensures r.Ok? ==> Carried(round, session, newId, now, r.value)
      ensures r.Ok? && r.value.mode == Continue ==> pending == old(pending) && point == round.at + 1
      ensures round.decision.action == DoContinue && r.Err? ==> r.error == ConcurrencyFault
      ensures r == Err(ConcurrencyFault) ==> conflict.at == point && FailedBy(round, conflict, seen, old(pending), session)
      ensures r == Err(ConcurrencyFault) ==> pending == saved
      ensures RanAt(round, seen, old(pending), session, newId)
      ensures round.decision.action == DoCreate && r != Err(ConcurrencyFault) ==> !Blocked(round, seen, old(pending), session)
      ensures Undisturbed() ==>
                var spec := Resolve(old(Visible()), session, mode, now, newId);
                && committed == old(committed)
                && (r.Ok? ==> spec == Ok((View(), r.value.thread)))
                && (r.Err? ==> spec == Err(r.error) && r.error != ConcurrencyFault)
    {
      conflict := Conflict(0, newId);
      if Undisturbed() && session in sessions(point) { UndisturbedRound(Visible(), session, mode, now, newId); }
      var decision;
      decision, round := Snapshot(session, mode, newId, now);
      if decision.Err? { return Err(decision.error), round, conflict; }
      r, conflict := Carry(decision.value, round, sessions(point)[session].status, session, mode, newId, now);
    }

    /** Bounded re-resolve: one more round, on a new snapshot, after a concurrency fault. last is the round that decides the
        outcome: the only one, or the second if there are two; conflict is what ended the first, final what ended last. */
    method ResolveThreadForAnalysis(session: SessionId, mode: Mode, newId: ThreadId, now: Time)
      returns (r: Result<Resolution, Fault>, ghost twice: bool, ghost first: Round, ghost last: Round,
               ghost conflict: Conflict, ghost final: Conflict)
      requires Valid(newId) && newId !in pending
      modifies this
      ensures Valid(newId) && rows == old(rows) && old(seen) <= seen
      // The first round decides on the state at the call.
      ensures Snapped(first, seen, old(pending), session, StatusAt(first.at, session), mode, now)
      ensures first.at == old(point) + 1 && seen[first.at] == Admitted(old(point), old(committed), old(saved), old(pending), newId)
      // A second round follows a conflict of the first, and decides on what is committed right after that conflict.
      ensures Snapped(last, seen, old(pending), session, StatusAt(last.at, session), mode, now)
      ensures !twice ==> last == first
      ensures twice ==> FailedBy(first, conflict, seen, old(pending), session) && last.at == conflict.at + 1
      ensures twice ==> seen[last.at] == Admitted(conflict.at, seen[conflict.at], old(pending), old(pending), newId)
      // A second conflict is given up on; a failure leaves none of this transaction's own writes behind.
      ensures StatusAt(last.at, session).None? ==> r == Err(ValueFault)
      ensures r == Err(ConcurrencyFault) ==> twice && FailedBy(last, final, seen, old(pending), session)
      ensures r.Err? ==> pending == old(pending)
      ensures last.decision.action == DoContinue && r.Err? ==> r.error == ConcurrencyFault
      // Success carries out the decision of the last round.
      ensures r.Ok? ==> Carried(last, session, newId, now, r.value)
      // A continued thread is looked up one point after the snapshot, a thread inserted two after it.
      ensures RanAt(first, seen, old(pending), session, newId) && RanAt(last, seen, old(pending), session, newId)
      // If a thread of the session has become active before its insert, a creating round is repeated.
      ensures !twice ==> !Blocked(first, seen, old(pending), session)
      ensures r.Ok? && r.value.mode == Continue ==> pending == old(pending) && point == last.at + 1
      // Undisturbed, this is the sequential specification, in one round.
      ensures Undisturbed() ==>
                var spec := Resolve(old(Visible()), session, mode, now, newId);
                && (r.Ok? ==> spec == Ok((View(), r.value.thread)))
                && (r.Err? ==> spec == Err(r.error) && View() == old(View()))
                && !twice
    {
      var reresolveUsed := false;
      twice, first, conflict := false, Round(0, map[], Decision(DoCreate, None)), Conflict(0, 0);
      last, final := first, conflict;
      while true
        invariant Valid(newId) && newId !in pending && rows == old(rows)
        invariant pending == old(pending) && old(seen) <= seen && twice == reresolveUsed
        invariant twice ==> saved == pending
        invariant !twice ==> point == old(point) && committed == old(committed) && saved == old(saved)
        invariant twice ==> Snapped(first, seen, old(pending), session, StatusAt(first.at, session), mode, now)
        invariant twice ==> FailedBy(first, conflict, seen, old(pending), session) && conflict.at == point
        invariant twice ==> first.at == old(point) + 1 && RanAt(first, seen, old(pending), session, newId)
        invariant twice ==> seen[first.at] == Admitted(old(point), old(committed), old(saved), old(pending), newId)
        invariant Undisturbed() ==> !twice
        decreases !reresolveUsed
      {
        ghost var before := seen;
        r, last, final := Attempt(session, mode, newId, now);
        if twice {
          RoundStays(first, conflict, before, seen, old(pending), session, StatusAt(first.at, session), mode, now);
          RunStays(first, before, seen, old(pending), session, newId);
        } else {
          first := last;
        }
        if r != Err(ConcurrencyFault) || reresolveUsed { return; }
        reresolveUsed, twice, conflict := true, true, final;
      }
    }

    /** Whether another transaction's commit at point p takes the activity of thread t away. */
    predicate Retires(p: nat, committed: ThreadMap, pending: ThreadMap, newId: ThreadId, session: SessionId, t: ThreadId) {
      && t !in pending && others(p).Some?
      && Admissible(committed, pending, pending, newId, others(p).value)
      && !IsActive(others(p).value, session, t)
    }

    /** CONTINUE checks existence alone: the thread it returns is still active exactly if the commit between the snapshot
        and the command, if there is one, did not retire it. */
    lemma ContinuedUnlessRetired(round: Round, session: SessionId, status: SessionStatus, mode: Mode, newId: ThreadId, now: Time,
                                 t: ThreadId)
      requires Valid(newId) && point == round.at + 1
      requires Snapped(round, seen, pending, session, Some(status), mode, now) && ContinuesAt(round, seen, pending, newId)
      requires round.decision == Decision(DoContinue, Some(t)) && t in View()
      ensures IsActive(View(), session, t) <==> !Retires(round.at, seen[round.at], pending, newId, session, t)
    {
      DecisionIsConsistent(round.base, session, status, mode, now);
    }

    /** Assembly phase: the row is not stored, but would continue its thread's indices and keep the history if it were. */
    method BuildSessionAnalysisRow(thread: ThreadId, session: SessionId, user: UserId, id: RowId) returns (row: Row)
      ensures row.id == id && row.thread == thread && row.session == session && row.user == user && row.job == None
      ensures row.isLatest && row.index == CountIn(rows, thread)
      ensures DenseIndices(rows) ==> IndicesOf(rows + [row], thread) == seq(CountIn(rows, thread) + 1, i => i)
      ensures FitsHistory(thread, session, id) ==> forall now :: Persist(Visible(), thread, row, now).Ok?
                                                             && HistoryOk(Persist(Visible(), thread, row, now).value)
    {
      row := Row(id, session, thread, user, true, CountIn(rows, thread), None);
      if DenseIndices(rows) { IndexContinues(rows, row); }
      if FitsHistory(thread, session, id) {
        forall now: Time ensures Persist(Visible(), thread, row, now).Ok? && HistoryOk(Persist(Visible(), thread, row, now).value) {
          PersistSucceeds(Visible(), thread, row, now);
          AppendKeepsHistory(Visible(), thread, row, now);
        }
      }
    }

    /** A sound history, to whose thread and session a row with a new key can be added. */
    predicate FitsHistory(thread: ThreadId, session: SessionId, id: RowId)
      reads this
    {
      && HistoryOk(Visible()) && thread in View() && View()[thread].session == session
      && forall i :: 0 <= i < |rows| ==> rows[i].id != id
    }

    /** Persistence phase: clear the latest flag, insert under the unique index, point the thread at the row. */
    method PersistSessionAnalysis(thread: ThreadId, row: Row, now: Time) returns (r: Result<(), Fault>)
      requires thread in View()
      modifies this`rows, this`pending
      ensures match Persist(old(Visible()), thread, row, now)
              case Ok(t) => r == Ok(()) && Visible() == t
              case Err(fault) => r == Err(fault)
    {
      if row.thread != thread { return Err(ValueFault); }
      if row.session != View()[thread].session { return Err(ValueFault); }
      rows := ClearLatest(rows, thread);
      if !OneLatest(rows + [row]) { return Err(ConcurrencyFault); }
      rows := rows + [row];
      var updated := View()[thread].(lastAnalysis := Some(row.id));
      pending := pending[thread := updated.(lastActivity := Some(now))];
      return Ok(());
    }
  }

  // One active thread, which another transaction idles between the snapshot and the CONTINUE command.

  const ONE_ACTIVE := Tables(map[7 := Session(1, SessionActive)], map[1 := Thread(7, Active, 0, None, None)], [])

  const ONE_IDLE: ThreadMap := map[1 := Thread(7, Idle, 0, None, None)]

  function IdleAtOne(p: nat): Option<ThreadMap> {
    if p == 1 then Some(ONE_IDLE) else None
  }

  lemma OneActiveContinues()
    ensures Decide(SessionActive, SnapshotOf(ONE_ACTIVE.threads, 7), Auto, 0) == Decision(DoContinue, Some(1))
  {
    ActiveOfIsTheActive(ONE_ACTIVE.threads, 7, 1);
  }

  lemma NothingPending(threads: ThreadMap)
    ensures Overlay(threads, map[]) == threads
  {
  }

  lemma IdlingIsAdmissible()
    ensures Admissible(ONE_ACTIVE.threads, map[], map[], 2, ONE_IDLE)
  {
    NothingPending(ONE_IDLE);
    assert OneActive(ONE_IDLE);
  }

  /** So a resolution can return an idle thread to continue. */
  method ContinueReturnsIdleThread() returns (db: ThreadDb, r: Result<Resolution, Fault>)
    ensures r == Ok(Resolution(1, Continue)) && 1 in db.View() && db.View()[1].status == Idle
  {
    db := new ThreadDb(IdleAtOne, _ => ONE_ACTIVE.sessions, ONE_ACTIVE.threads, ONE_ACTIVE.rows);
    NothingPending(ONE_ACTIVE.threads);
    ghost var twice, first, last, conflict, final;
    r, twice, first, last, conflict, final := db.ResolveThreadForAnalysis(7, Auto, 2, 0);
    OneActiveContinues();
    assert db.seen[1] == ONE_ACTIVE.threads && first.base == ONE_ACTIVE.threads;
    IdlingIsAdmissible();
    assert db.seen[2] == ONE_IDLE;
    NothingPending(ONE_IDLE);
    assert !twice;
    assert db.View() == ONE_IDLE;
  }

  // No thread; another transaction commits an active one between the first round's two statements.

  function OneAtTwo(p: nat): Option<ThreadMap> {
    if p == 2 then Some(ONE_ACTIVE.threads) else None
  }

  lemma NothingToContinue()
    ensures Decide(SessionActive, SnapshotOf(map[], 7), Auto, 0).action == DoCreate
  {
  }

  lemma AppearingIsAdmissible()
    ensures Admissible(map[], map[], map[], 2, ONE_ACTIVE.threads) && Appeared(7, map[], map[], ONE_ACTIVE.threads)
  {
    NothingPending(ONE_ACTIVE.threads);
    assert OneActive(ONE_ACTIVE.threads);
    assert IsActive(ONE_ACTIVE.threads, 7, 1) && !IsActive(map[], 7, 1);
  }

  /** So a second round happens, and continues the thread that was in the way of the first. */
  method SecondRoundContinues() returns (db: ThreadDb, r: Result<Resolution, Fault>, ghost twice: bool)
    ensures twice && r == Ok(Resolution(1, Continue)) && 1 in db.View() && db.View()[1].status == Active
  {
    db := new ThreadDb(OneAtTwo, _ => ONE_ACTIVE.sessions, map[], []);
    NothingPending(map[]);
    ghost var first, last, conflict, final;
    r, twice, first, last, conflict, final := db.ResolveThreadForAnalysis(7, Auto, 2, 0);
    NothingToContinue();
    AppearingIsAdmissible();
    assert db.seen[2] == map[] && IdledRows(Overlay(map[], map[]), map[], 7) == map[];
    assert db.seen[3] == ONE_ACTIVE.threads && Blocked(first, db.seen, map[], 7);
    OneActiveContinues();
    NothingPending(ONE_ACTIVE.threads);
    assert conflict.at == 3 && last.base == ONE_ACTIVE.threads;
    assert db.seen[5] == ONE_ACTIVE.threads;
  }

  /** Every template creates last, continues alone, and yields a thread by exactly one of the two. */
  lemma NormalizedShape(d: Decision, newId: ThreadId)
    ensures CreateIsLast(Normalize(d))
    ensures forall i: nat, t: ThreadId :: i < |Normalize(d)| && Normalize(d)[i] == Command(CmdContinue, Some(t)) ==>
              d.action == DoContinue && d.target == Some(t)
    ensures d.action != DoContinue ==> forall i :: 0 <= i < |Normalize(d)| ==> Normalize(d)[i].kind != CmdContinue
    ensures d.action == DoContinue ==> Normalize(d) == [Command(CmdContinue, d.target)]
    ensures ThreadAfter(Normalize(d), |Normalize(d)|, newId) == if d.action == DoContinue then d.target else Some(newId)
  {
  }

  /** A decision targets only an active thread, and continues only with a target. */
  lemma DecisionIsConsistent(threads: ThreadMap, session: SessionId, status: SessionStatus, mode: Mode, now: Time)
    ensures var d := Decide(status, SnapshotOf(threads, session), mode, now);
            && (d.target.Some? ==> IsActive(threads, session, d.target.value))
            && (d.action == DoContinue ==> d.target.Some?)
  {
  }

  lemma YieldedCarries(d: Decision, session: SessionId, newId: ThreadId, now: Time, view: ThreadMap, created: bool, thread: ThreadId)
    requires Yielded(Normalize(d), |Normalize(d)|, session, newId, now, view, created, Some(thread))
    ensures Carries(d, session, newId, now, view, created, Resolution(thread, ModeOf(d.action)))
  {
    NormalizedShape(d, newId);
  }

  lemma YieldedFulfils(base: ThreadMap, session: SessionId, status: SessionStatus, mode: Mode, newId: ThreadId, now: Time,
                       view: ThreadMap, created: bool, thread: ThreadId)
    requires var commands := Normalize(Decide(status, SnapshotOf(base, session), mode, now));
      && Yielded(commands, |commands|, session, newId, now, view, created, Some(thread))
      && (Lone(commands) && commands[0].kind == CmdContinue ==> thread in view)
    ensures var d := Decide(status, SnapshotOf(base, session), mode, now);
      Fulfils(base, d, session, newId, now, view, created, Resolution(thread, ModeOf(d.action)))
  {
    var d := Decide(status, SnapshotOf(base, session), mode, now);
    NormalizedShape(d, newId);
    DecisionIsConsistent(base, session, status, mode, now);
    YieldedCarries(d, session, newId, now, view, created, thread);
  }

  lemma UndisturbedNeverConflicts(t: Tables, session: SessionId, mode: Mode, now: Time, newId: ThreadId)
    requires OneActive(t.threads) && newId !in t.threads && session in t.sessions
    ensures Resolve(t, session, mode, now, newId) != Err(ConcurrencyFault)
  {
    ResolveCorrect(t, session, mode, now, newId);
  }

  lemma UndisturbedRound(t: Tables, session: SessionId, mode: Mode, now: Time, newId: ThreadId)
    requires OneActive(t.threads) && newId !in t.threads && session in t.sessions
    ensures var d := Decide(t.sessions[session].status, SnapshotOf(t.threads, session), mode, now);
      Resolve(t, session, mode, now, newId) == RestOf(t.threads, Normalize(d), 0, session, now, newId, None)
    ensures Resolve(t, session, mode, now, newId) != Err(ConcurrencyFault)
  {
    var d := Decide(t.sessions[session].status, SnapshotOf(t.threads, session), mode, now);
    AllIsRest(t.threads, Normalize(d), session, now, newId);
    UndisturbedNeverConflicts(t, session, mode, now, newId);
  }

  lemma RetiringKeepsOneActive(threads: ThreadMap, t: ThreadId, status: ThreadStatus)
    requires OneActive(threads) && status != Active
    ensures OneActive(SetStatus(threads, t, status))
  {
    var after := SetStatus(threads, t, status);
    forall u: ThreadId, v: ThreadId | u in after && v in after && IsActive(after, after[u].session, u) && IsActive(after, after[u].session, v)
      ensures u == v
    {
      assert IsActive(threads, threads[u].session, u) && IsActive(threads, threads[u].session, v);
    }
  }

  lemma IdleKeepsOneActive(threads: ThreadMap, session: SessionId)
    requires OneActive(threads)
    ensures OneActive(IdleAll(threads, session))
    ensures forall t :: !IsActive(IdleAll(threads, session), session, t)
  {
    var after := IdleAll(threads, session);
    forall t: ThreadId, u: ThreadId | t in after && u in after && IsActive(after, after[t].session, t) && IsActive(after, after[t].session, u)
      ensures t == u
    {
      assert IsActive(threads, threads[t].session, t) && IsActive(threads, threads[t].session, u);
    }
  }

  lemma InsertKeepsOneActive(threads: ThreadMap, session: SessionId, newId: ThreadId, now: Time)
    requires OneActive(threads) && newId !in threads
    requires forall t :: t in threads ==> !IsActive(threads, session, t)
    ensures OneActive(threads[newId := FreshThread(session, now)])
  {
    var after := threads[newId := FreshThread(session, now)];
    forall t: ThreadId, u: ThreadId | t in after && u in after && IsActive(after, after[t].session, t) && IsActive(after, after[t].session, u)
      ensures t == u
    {
      if t in threads && u in threads {
        assert IsActive(threads, threads[t].session, t) && IsActive(threads, threads[t].session, u);
      }
    }
  }
}
