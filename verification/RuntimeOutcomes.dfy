/** What the end of an execution does in a run: the retry, the result and the delivery. */
module RuntimeOutcomes {
  import opened Base
  import opened JobService
  import opened Threads
  import opened LlmPolicy
  import opened Delivery
  import opened Executor
  import opened ExecutorProofs
  import opened ExecutorOutcomes
  import opened Runtime
  import opened RuntimeInvariant
  import opened RuntimeSteps
  import opened RuntimeLeases

  /** The end of an execution finds its session, a sound history, and a snapshot that agrees with the stored job. */
  lemma FinishIsReady(cfg: Config, tr: seq<State>, evs: seq<Event>, i: nat)
    requires IsRun(cfg, tr, evs) && i < |evs| && evs[i].Finish?
    ensures var s, e, x := tr[i], evs[i], evs[i].exec;
      && x in s.live && x.job in s.world.rows && s.world.rows[x.job].id == x.job
      && Ready(s.world, s.live[x], e.newThread, e.newRow)
      && s.live[x].id == x.job && s.live[x].attempts == x.attempt
      && s.live[x].maxAttempts == s.world.rows[x.job].maxAttempts && s.live[x].dream == s.world.rows[x.job].dream
      && s.live[x].session == s.world.rows[x.job].session && s.live[x].mode == s.world.rows[x.job].mode
      && tr[i + 1].world == WorldAfter(s, e)
  {
    RunInv(cfg, tr, evs, i);
    assert StepAt(cfg, tr, evs, i);
    LiveIsReady(cfg, tr[i], evs[i].exec);
    assert JobOk(cfg, tr[i], evs[i].exec.job);
  }

  /**
   * In every run an execution that commits leaves its running job as its outcome says. After transport errors it is queued
   * again for five seconds later exactly if its attempt number is below the limit, and failed for good otherwise.
   */
  lemma FinishDecides(cfg: Config, tr: seq<State>, evs: seq<Event>, i: nat) returns (thread: ThreadId)
    requires IsRun(cfg, tr, evs) && i < |evs| && evs[i].Finish? && evs[i].commits
    requires evs[i].exec.job in tr[i].world.rows && tr[i].world.rows[evs[i].exec.job].status == Running
    ensures var s, e, j := tr[i], evs[i], evs[i].exec.job;
      && j in tr[i + 1].world.rows && s.world.rows[j].session in s.world.tables.sessions
      && var stored, after := s.world.rows[j], tr[i + 1].world.rows[j];
      match e.outcome
      case Retryable =>
        if e.exec.attempt < stored.maxAttempts then IsRequeued(stored, after, s.now)
        else IsFailed(stored, after, RetryableError, true, s.now)
      case Terminal => IsFailed(stored, after, NonRetryableError, false, s.now)
      case Analysed =>
        if stored.dream.Some? then IsCompleted(stored, after, None, s.now)
        else if !Resolvable(s.world.tables, stored.session) then IsFailed(stored, after, NonRetryableError, false, s.now)
        else if e.wire.RedisFails? then after == stored
        else
          && IsCompleted(stored, after, Some(thread), s.now)
          && HasResult(s.world, tr[i + 1].world, stored, s.now, e.newRow, thread)
          && PicksThread(s.world.tables, stored, s.now, e.newThread, thread)
  {
    FinishIsReady(cfg, tr, evs, i);
    var w, e, job := tr[i].world, evs[i], tr[i].live[evs[i].exec];
    thread := e.newThread;
    match e.outcome {
      case Retryable => RetryableEnds(w, job, e.wire, true, tr[i].now, e.newThread, e.newRow);
      case Terminal => TerminalEnds(w, job, e.wire, true, tr[i].now, e.newThread, e.newRow);
      case Analysed =>
        if job.dream.Some? {
          MemoryEnds(w, job, e.wire, true, tr[i].now, e.newThread, e.newRow);
        } else {
          thread := AnalysisEnds(w, job, e.wire, true, tr[i].now, e.newThread, e.newRow);
        }
    }
  }

  /** In timely runs the stored attempts decide: a job is tried again while it has attempts left. */
  lemma TimelyRetries(cfg: Config, tr: seq<State>, evs: seq<Event>, i: nat)
    requires IsRun(cfg, tr, evs) && i < |evs| && (forall k :: 0 <= k < i ==> Timely(cfg, tr[k]))
    requires evs[i].Finish? && evs[i].commits && evs[i].outcome == Retryable
    ensures var j := evs[i].exec.job;
      && j in tr[i].world.rows && j in tr[i + 1].world.rows
      && var stored, after := tr[i].world.rows[j], tr[i + 1].world.rows[j];
      && stored.status == Running
      && (after.status == Queued && after.availableAfter == tr[i].now + 5 <==> stored.attempts < stored.maxAttempts)
      && (after.status == Failed && after.lastError == Some(RetryableError) <==> stored.attempts >= stored.maxAttempts)
  {
    FinishIsReady(cfg, tr, evs, i);
    TimelyRunsKeepLeases(cfg, tr, evs, i);
    assert Owns(tr[i], evs[i].exec, tr[i].live[evs[i].exec]);
    var _ := FinishDecides(cfg, tr, evs, i);
  }

  /** In every run an execution sends exactly if it accepts an analysis for its running job and the job's key is free. */
  lemma FinishSends(cfg: Config, tr: seq<State>, evs: seq<Event>, i: nat)
    requires IsRun(cfg, tr, evs) && i < |evs| && evs[i].Finish?
    ensures var s, e := tr[i], evs[i];
      && e.exec in s.live && s.live[e.exec].session in s.world.tables.sessions
      && tr[i + 1].world.outbox.sends
           == (if Sends(s.world, s.live[e.exec], e.outcome, e.wire, s.now) then s.world.outbox.sends + [Send(e.exec.job, s.now)]
               else s.world.outbox.sends)
  {
    FinishIsReady(cfg, tr, evs, i);
    var e := evs[i];
    SendsExactly(tr[i].world, tr[i].live[e.exec], e.outcome, e.wire, e.commits, tr[i].now, e.newThread, e.newRow);
  }

  /** So an analysis that completes its job while the key is free is sent, once. */
  lemma CompletionIsSent(cfg: Config, tr: seq<State>, evs: seq<Event>, i: nat, j: JobId)
    requires IsRun(cfg, tr, evs) && i < |evs| && j in tr[i].world.rows && j in tr[i + 1].world.rows
    requires tr[i].world.rows[j].status != Completed && tr[i + 1].world.rows[j].status == Completed
    requires tr[i].world.rows[j].dream.None? && (j in tr[i].world.outbox.keys ==> tr[i].world.outbox.keys[j] <= tr[i].now)
    ensures tr[i + 1].world.outbox.sends == tr[i].world.outbox.sends + [Send(j, tr[i].now)]
  {
    CompletedByFinish(cfg, tr, evs, i, j);
    FinishIsReady(cfg, tr, evs, i);
    FinishSends(cfg, tr, evs, i);
    var _ := FinishDecides(cfg, tr, evs, i);
  }

  lemma UncommittedStays(s: State, e: Event)
    requires e.Finish? && e.exec in s.live
    ensures !e.commits ==> WorldAfter(s, e).rows == s.world.rows
  {
  }

  lemma CompletedByFinish(cfg: Config, tr: seq<State>, evs: seq<Event>, i: nat, j: JobId)
    requires IsRun(cfg, tr, evs) && i < |evs| && j in tr[i].world.rows && j in tr[i + 1].world.rows
    requires tr[i].world.rows[j].status != Completed && tr[i + 1].world.rows[j].status == Completed
    requires tr[i].world.rows[j].dream.None?
    ensures evs[i].Finish? && evs[i].exec.job == j && evs[i].commits && tr[i].world.rows[j].status == Running
    ensures evs[i].outcome == Analysed
  {
    RunInv(cfg, tr, evs, i);
    assert StepAt(cfg, tr, evs, i);
    var eff := StepOfRows(cfg, tr[i], evs[i]);
    NewlyCompleted(cfg, tr[i], evs[i], eff, tr[i + 1], j);
    FinishIsReady(cfg, tr, evs, i);
    UncommittedStays(tr[i], evs[i]);
    if evs[i].outcome != Analysed { var _ := FinishDecides(cfg, tr, evs, i); }
  }

  // ---------------------------------------------------------------- a run with a retry

  lemma RunFinishes(cfg: Config, tr: seq<State>, evs: seq<Event>, e: Event) returns (tr': seq<State>, evs': seq<Event>)
    requires IsRun(cfg, tr, evs) && e.Finish? && Enabled(cfg, tr[|evs|], e)
    ensures IsRun(cfg, tr', evs') && evs' == evs + [e] && tr <= tr' && |tr'| == |tr| + 1
    ensures tr'[|evs'|] == After(cfg, tr[|evs|], e)
  {
    tr', evs' := JoinRuns(cfg, tr, evs, e, After(cfg, tr[|evs|], e));
  }

  /** The job's first execution ends in a transport error, and five seconds later a second one has begun. */
  lemma FirstFails(cfg: Config, tr: seq<State>, evs: seq<Event>) returns (tr': seq<State>, evs': seq<Event>)
    requires IsRun(cfg, tr, evs) && Alone(tr[|evs|], 5) && tr[|evs|].now == 0 && ExecId(5, 1) in tr[|evs|].live
    requires var job := tr[|evs|].world.rows[5]; job.status == Running && job.attempts == 1 && job.maxAttempts == 2
    requires tr[|evs|].world.tables == Tables(map[7 := Session(1, SessionActive)], map[], [])
    ensures IsRun(cfg, tr', evs') && evs' == evs + [Finish(ExecId(5, 1), Retryable, 1, SendWorks, true, 1, 1)]
    ensures tr <= tr' && Alone(tr'[|evs'|], 5) && tr'[|evs'|].now == 0
    ensures IsRequeued(tr[|evs|].world.rows[5], tr'[|evs'|].world.rows[5], 0)
    ensures tr'[|evs'|].world == tr[|evs|].world.(rows := tr'[|evs'|].world.rows)
  {
    var e, s := Finish(ExecId(5, 1), Retryable, 1, SendWorks, true, 1, 1), tr[|evs|];
    AloneMayFinish(cfg, s, e);
    tr', evs' := RunFinishes(cfg, tr, evs, e);
    assert evs'[|evs|] == e && tr'[|evs|] == s;
    var _ := FinishDecides(cfg, tr', evs', |evs|);
    FinishIsReady(cfg, tr', evs', |evs|);
    RetryableEnds(s.world, s.live[e.exec], e.wire, true, s.now, 1, 1);
  }

  /**
   * A run in which a job ends its first execution with a transport error, is queued again for five seconds later, is
   * acquired then, and is completed and sent by its second execution.
   */
  lemma RetriedRun() returns (cfg: Config, tr: seq<State>, evs: seq<Event>, failed: nat)
    ensures IsRun(cfg, tr, evs) && failed + 5 < |evs| && |evs| == failed + 6
    ensures evs[failed] == Finish(ExecId(5, 1), Retryable, 1, SendWorks, true, 1, 1)
    ensures 5 in tr[failed + 1].world.rows && tr[failed + 1].world.rows[5].status == Queued
    ensures tr[failed + 1].world.rows[5].availableAfter == tr[failed].now + 5
    ensures evs[failed + 1] == Tick(5)
    ensures 5 in tr[failed + 5].world.rows && ExecId(5, 2) in tr[failed + 5].live
    ensures tr[failed + 5].world.rows[5].status == Running && tr[failed + 5].world.rows[5].attempts == 2
    ensures 5 in tr[|evs|].world.rows && tr[|evs|].world.rows[5].status == Completed
    ensures tr[|evs|].world.outbox.sends == [Send(5, 5)]
  {
    cfg := Config(10, 1);
    tr, evs := OneJobRun(cfg, 2);
    tr, evs := RunAcquires(cfg, tr, evs, 1, 5);
    failed := |evs|;
    tr, evs := FirstFails(cfg, tr, evs);
    tr, evs := SecondBegins(cfg, tr, evs);
    tr, evs := SecondSucceeds(cfg, tr, evs);
  }

  lemma SecondBegins(cfg: Config, tr: seq<State>, evs: seq<Event>) returns (tr': seq<State>, evs': seq<Event>)
    requires IsRun(cfg, tr, evs) && Alone(tr[|evs|], 5) && tr[|evs|].now == 0
    requires var job := tr[|evs|].world.rows[5];
      job.status == Queued && job.availableAfter == 5 && job.attempts == 1 && job.maxAttempts == 2
    ensures IsRun(cfg, tr', evs') && |evs'| == |evs| + 4 && tr <= tr' && evs <= evs' && evs'[|evs|] == Tick(5)
    ensures var s := tr'[|evs'|];
      && Alone(s, 5) && s.now == 5 && ExecId(5, 2) in s.live
      && s.world.rows[5].status == Running && s.world.rows[5].attempts == 2 && SameJob(tr[|evs|].world.rows[5], s.world.rows[5])
      && s.world == tr[|evs|].world.(rows := s.world.rows)
  {
    tr', evs' := JoinRuns(cfg, tr, evs, Tick(5), After(cfg, tr[|evs|], Tick(5)));
    tr', evs' := RunAcquires(cfg, tr', evs', 2, 5);
  }

  lemma AloneMayFinish(cfg: Config, s: State, e: Event)
    requires Alone(s, 5) && e.Finish? && e.exec in s.live && e.exec.job == 5 && e.calls <= 1
    requires s.world.tables.threads == map[] && s.world.tables.rows == []
    ensures Enabled(cfg, s, e)
  {
    assert LockedRows(s.open) == {};
  }

  lemma SecondSucceeds(cfg: Config, tr: seq<State>, evs: seq<Event>) returns (tr': seq<State>, evs': seq<Event>)
    requires IsRun(cfg, tr, evs) && Alone(tr[|evs|], 5) && tr[|evs|].now == 5 && ExecId(5, 2) in tr[|evs|].live
    requires tr[|evs|].world.rows[5].status == Running && tr[|evs|].world.rows[5].dream.None?
    requires tr[|evs|].world.tables == Tables(map[7 := Session(1, SessionActive)], map[], [])
    requires tr[|evs|].world.outbox == Outbox(map[], []) && tr[|evs|].world.rows[5].session == 7
    ensures IsRun(cfg, tr', evs') && |evs'| == |evs| + 1 && tr <= tr' && evs <= evs'
    ensures 5 in tr'[|evs'|].world.rows && tr'[|evs'|].world.rows[5].status == Completed
    ensures tr'[|evs'|].world.outbox.sends == [Send(5, 5)]
  {
    var e := Finish(ExecId(5, 2), Analysed, 1, SendWorks, true, 1, 1);
    AloneMayFinish(cfg, tr[|evs|], e);
    tr', evs' := RunFinishes(cfg, tr, evs, e);
    SecondIsSent(cfg, tr', evs', |evs|);
  }

  lemma SecondIsSent(cfg: Config, tr: seq<State>, evs: seq<Event>, i: nat)
    requires IsRun(cfg, tr, evs) && i < |evs| && evs[i] == Finish(ExecId(5, 2), Analysed, 1, SendWorks, true, 1, 1)
    requires 5 in tr[i].world.rows && tr[i].now == 5
    requires tr[i].world.rows[5].status == Running && tr[i].world.rows[5].dream.None? && tr[i].world.rows[5].session == 7
    requires tr[i].world.tables == Tables(map[7 := Session(1, SessionActive)], map[], [])
    requires tr[i].world.outbox == Outbox(map[], [])
    ensures 5 in tr[i + 1].world.rows && tr[i + 1].world.rows[5].status == Completed
    ensures tr[i + 1].world.outbox.sends == [Send(5, 5)]
  {
    var _ := FinishDecides(cfg, tr, evs, i);
    CompletionIsSent(cfg, tr, evs, i, 5);
  }
}
