/** What holds in every run of the runtime: any number of workers, late executions, crashes and rollbacks included. */
module RuntimeTheorems {
  import opened Base
  import opened JobService
  import opened Threads
  import opened LlmPolicy
  import opened Delivery
  import opened Executor
  import opened ExecutorProofs
  import opened Runtime
  import opened JobHistory
  import opened RuntimeInvariant
  import opened RuntimeSteps

  // ---------------------------------------------------------------- steps inside a run

  lemma RunStep(cfg: Config, tr: seq<State>, evs: seq<Event>, i: nat) returns (eff: Effect)
    requires IsRun(cfg, tr, evs) && i < |evs|
    ensures Inv(cfg, tr[i]) && Inv(cfg, tr[i + 1]) && Enabled(cfg, tr[i], evs[i]) && tr[i + 1] == After(cfg, tr[i], evs[i])
    ensures StepFacts(cfg, tr[i], evs[i], eff, tr[i + 1])
    ensures evs[i].Finish? && eff == Requeues ==> evs[i].outcome == Retryable
  {
    RunInv(cfg, tr, evs, i);
    RunInv(cfg, tr, evs, i + 1);
    assert StepAt(cfg, tr, evs, i);
    eff := FactsOfStep(cfg, tr[i], evs[i]);
  }

  lemma SessionsGrow(cfg: Config, s: State, e: Event, eff: Effect, s': State)
    requires StepFacts(cfg, s, e, eff, s')
    ensures s.world.tables.sessions.Keys <= s'.world.tables.sessions.Keys
  {
    if e.Finish? { FinishOthers(s, e.exec, e.calls, e.newThread, e.newRow, eff, s'.world); }
  }

  lemma RunMoves(cfg: Config, tr: seq<State>, evs: seq<Event>, i: nat, j: JobId)
    requires IsRun(cfg, tr, evs) && i < |evs| && j in tr[i].world.rows
    ensures Inv(cfg, tr[i]) && JobOk(cfg, tr[i], j) && JobMoved(cfg, tr[i], tr[i + 1], j)
    ensures JobOk(cfg, tr[i + 1], j)
    ensures Preserves(tr[i].world.rows[j], tr[i + 1].world.rows[j]) && tr[i].marks[j] <= tr[i + 1].marks[j]
  {
    var eff := RunStep(cfg, tr, evs, i);
    assert JobOk(cfg, tr[i], j);
    SessionsGrow(cfg, tr[i], evs[i], eff, tr[i + 1]);
    StepOfJob(cfg, tr[i], evs[i], eff, tr[i + 1], j);
  }

  // ---------------------------------------------------------------- the job record

  /** In every reachable state every job record is well formed. */
  lemma RecordInvariant(cfg: Config, tr: seq<State>, evs: seq<Event>, i: nat, j: JobId)
    requires IsRun(cfg, tr, evs) && i < |tr| && j in tr[i].world.rows
    ensures RecordOk(tr[i].world.rows[j])
  {
    RunInv(cfg, tr, evs, i);
    assert JobOk(cfg, tr[i], j);
  }

  lemma PreservesTwice(a: Job, b: Job, c: Job)
    requires Preserves(a, b) && Preserves(b, c)
    ensures Preserves(a, c)
  {
  }

  lemma StepAdvances(cfg: Config, tr: seq<State>, evs: seq<Event>, k: nat, j: JobId)
    requires IsRun(cfg, tr, evs) && k < |evs| && j in tr[k].world.rows
    ensures j in tr[k + 1].world.rows && j in tr[k].marks && j in tr[k + 1].marks
    ensures Preserves(tr[k].world.rows[j], tr[k + 1].world.rows[j]) && tr[k].marks[j] <= tr[k + 1].marks[j]
  {
    RunMoves(cfg, tr, evs, k, j);
  }

  /** Terminal records are frozen, started_at is set once, attempts never fall, and the history only grows. */
  lemma {:induction false} RecordsOnlyAdvance(cfg: Config, tr: seq<State>, evs: seq<Event>, i: nat, k: nat, j: JobId)
    requires IsRun(cfg, tr, evs) && i <= k < |tr| && j in tr[i].world.rows
    ensures j in tr[k].world.rows && j in tr[i].marks && j in tr[k].marks
    ensures Preserves(tr[i].world.rows[j], tr[k].world.rows[j]) && tr[i].marks[j] <= tr[k].marks[j]
  {
    if i == k {
      RunInv(cfg, tr, evs, i);
      assert JobOk(cfg, tr[i], j);
    } else {
      RecordsOnlyAdvance(cfg, tr, evs, i, k - 1, j);
      StepAdvances(cfg, tr, evs, k - 1, j);
      PreservesTwice(tr[i].world.rows[j], tr[k - 1].world.rows[j], tr[k].world.rows[j]);
    }
  }

  // ---------------------------------------------------------------- attempts

  /** Attempts are acquisitions; they never exceed the limit plus the stale recoveries; requeues stay below the limit
      because each is charged to a snapshot's attempt number below the limit, and no number is charged twice. */
  lemma RunAttemptBudget(cfg: Config, tr: seq<State>, evs: seq<Event>, i: nat, j: JobId)
    requires IsRun(cfg, tr, evs) && i < |tr| && j in tr[i].world.rows
    ensures j in tr[i].marks
    ensures var job := tr[i].world.rows[j]; var h := tr[i].marks[j];
            && job.attempts == CountAcquired(h) <= job.maxAttempts + CountRecovered(h)
            && (job.status != Queued ==> job.attempts == 1 + CountRequeued(h) + CountRecovered(h))
            && CountRequeued(h) < job.maxAttempts
            && (forall a :: 0 <= a < |h| && h[a].Requeued? ==> 1 <= h[a].charge < job.maxAttempts)
            && (forall a, b :: 0 <= a < b < |h| && h[a].Requeued? && h[b].Requeued? ==> h[a].charge != h[b].charge)
  {
    RunInv(cfg, tr, evs, i);
    assert JobOk(cfg, tr[i], j);
    AttemptBudget(cfg.timeout, tr[i].world.rows[j], tr[i].marks[j]);
  }

  /** Consecutive acquisitions are separated by a requeue and the retry delay, or by a recovery and the whole timeout. */
  lemma AcquisitionsAreSpaced(cfg: Config, tr: seq<State>, evs: seq<Event>, i: nat, j: JobId, n: nat)
    requires IsRun(cfg, tr, evs) && i < |tr| && j in tr[i].world.rows
    requires j in tr[i].marks && n < |tr[i].marks[j]| && tr[i].marks[j][n].Acquired?
    ensures var h := tr[i].marks[j];
            n == 0
            || (n >= 2 && h[n - 2].Acquired?
                && ((h[n - 1].Requeued? && h[n].at >= h[n - 1].at + RETRY_DELAY_SECONDS)
                    || (h[n - 1].Recovered? && h[n].at >= h[n - 2].at + cfg.timeout)))
  {
    RunInv(cfg, tr, evs, i);
    assert JobOk(cfg, tr[i], j);
    SpacedAt(cfg.timeout, tr[i].marks[j], n);
  }

  lemma SpacedAt(timeout: nat, h: seq<Mark>, n: nat)
    requires Alternates(h) && Spaced(timeout, h) && n < |h| && h[n].Acquired?
    ensures n == 0
            || (n >= 2 && h[n - 2].Acquired?
                && ((h[n - 1].Requeued? && h[n].at >= h[n - 1].at + RETRY_DELAY_SECONDS)
                    || (h[n - 1].Recovered? && h[n].at >= h[n - 2].at + timeout)))
  {
    assert n % 2 == 0;
    if n >= 2 {
      assert h[n - 2].Acquired? <==> (n - 2) % 2 == 0;
      assert GapOk(timeout, h, n);
    }
  }

  /** Whatever happens, a job's history has at most two entries per permitted acquisition. */
  lemma HistoriesAreBounded(cfg: Config, tr: seq<State>, evs: seq<Event>, i: nat, j: JobId)
    requires IsRun(cfg, tr, evs) && i < |tr| && j in tr[i].world.rows
    ensures j in tr[i].marks
    ensures |tr[i].marks[j]| <= 2 * (tr[i].world.rows[j].maxAttempts + CountRecovered(tr[i].marks[j]))
  {
    RunInv(cfg, tr, evs, i);
    assert JobOk(cfg, tr[i], j);
    HistoryIsShort(cfg.timeout, tr[i].world.rows[j], tr[i].marks[j]);
  }

  /** Without stale recovery every change of a job lowers a well-founded measure. */
  lemma ProgressWithoutRecovery(cfg: Config, tr: seq<State>, evs: seq<Event>, i: nat, j: JobId)
    requires IsRun(cfg, tr, evs) && i < |evs| && j in tr[i].world.rows
    requires j in tr[i + 1].marks && CountRecovered(tr[i + 1].marks[j]) == 0
    ensures j in tr[i + 1].world.rows
    ensures var a, b := tr[i].world.rows[j], tr[i + 1].world.rows[j];
            b == a || (Less(Measure(b), Measure(a)) && Measure(b).0 >= 0)
  {
    RunMoves(cfg, tr, evs, i, j);
    var s, s' := tr[i], tr[i + 1];
    var m :| IsMove(cfg.timeout, m, s.world.rows[j], s.marks[j], s'.world.rows[j], s'.marks[j]);
    if m != Stay {
      MoveLowersMeasure(cfg.timeout, m, s.world.rows[j], s.marks[j], s'.world.rows[j], s'.marks[j]);
    }
  }

  // ---------------------------------------------------------------- results

  function BoundCount(rows: seq<Row>, j: JobId): nat {
    if rows == [] then 0 else BoundCount(rows[..|rows| - 1], j) + if rows[|rows| - 1].job == Some(j) then 1 else 0
  }

  lemma {:induction false} CountOfBound(rows: seq<Row>, j: JobId)
    requires BoundOnce(rows)
    ensures BoundCount(rows, j) == if exists i :: 0 <= i < |rows| && rows[i].job == Some(j) then 1 else 0
  {
    if rows != [] {
      var n := |rows| - 1;
      var init := rows[..n];
      assert BoundOnce(init);
      CountOfBound(init, j);
      if i :| 0 <= i < n && rows[i].job == Some(j) { assert init[i].job == Some(j); }
      if rows[n].job == Some(j) {
        forall i | 0 <= i < n ensures init[i].job != Some(j) { assert init[i] == rows[i]; }
      }
    }
  }

  /** Exactly one result under at-least-once execution: one committed row is bound to a completed analysis job, none to
      any other job, and the row lies in the thread the job names. */
  lemma ExactlyOneResult(cfg: Config, tr: seq<State>, evs: seq<Event>, i: nat, j: JobId)
    requires IsRun(cfg, tr, evs) && i < |tr| && j in tr[i].world.rows
    ensures var job := tr[i].world.rows[j]; var rows := tr[i].world.tables.rows;
            && BoundCount(rows, j) == (if job.status == Completed && job.dream.None? then 1 else 0)
            && (forall n :: 0 <= n < |rows| && rows[n].job == Some(j) ==> job.thread == Some(rows[n].thread))
  {
    RunInv(cfg, tr, evs, i);
    var rows := tr[i].world.tables.rows;
    CountOfBound(rows, j);
    forall n | 0 <= n < |rows| && rows[n].job == Some(j)
      ensures tr[i].world.rows[j].thread == Some(rows[n].thread) && tr[i].world.rows[j].status == Completed
              && tr[i].world.rows[j].dream.None?
    {
      assert BindingOk(tr[i].world.rows, rows[n]);
    }
  }

  /** An execution that does not complete its job (requeued, failed, rejected, rolled back or crashed) leaves threads and
      analyses as they were. */
  lemma OnlyCompletionTouchesThreads(cfg: Config, tr: seq<State>, evs: seq<Event>, i: nat)
    requires IsRun(cfg, tr, evs) && i < |evs| && (evs[i].Finish? || evs[i].Crash?)
    ensures var j := evs[i].exec.job; var s, s' := tr[i], tr[i + 1];
            && j in s.world.rows && j in s'.world.rows
            && (s'.world.tables == s.world.tables
                || (s.world.rows[j].status == Running && s'.world.rows[j].status == Completed && s'.world.rows[j].dream.None?))
  {
    var eff := RunStep(cfg, tr, evs, i);
    assert SnapshotOk(tr[i], evs[i].exec, tr[i].live[evs[i].exec]);
    RunMoves(cfg, tr, evs, i, evs[i].exec.job);
  }

  /** The thread history is sound in every reachable state. */
  lemma RunHistory(cfg: Config, tr: seq<State>, evs: seq<Event>, i: nat)
    requires IsRun(cfg, tr, evs) && i < |tr|
    ensures HistoryOk(tr[i].world.tables)
  {
    RunInv(cfg, tr, evs, i);
  }

  lemma {:induction false} ChainExtends(versions: seq<seq<Row>>, i: nat, k: nat)
    requires i <= k < |versions|
    requires forall n :: 0 <= n < |versions| - 1 ==> Extends(versions[n], versions[n + 1])
    ensures Extends(versions[i], versions[k])
  {
    if i < k {
      ChainExtends(versions, i, k - 1);
      assert Extends(versions[k - 1], versions[k - 1 + 1]);
      ExtendsIsTransitive(versions[i], versions[k - 1], versions[k]);
    }
  }

  /** Analyses are append-only: a committed row changes at most its latest flag, ever. */
  lemma AnalysesAreAppendOnly(cfg: Config, tr: seq<State>, evs: seq<Event>, i: nat, k: nat)
    requires IsRun(cfg, tr, evs) && i <= k < |tr|
    ensures Extends(tr[i].world.tables.rows, tr[k].world.tables.rows)
  {
    var versions := seq(|tr|, n requires 0 <= n < |tr| => tr[n].world.tables.rows);
    forall n | 0 <= n < |versions| - 1 ensures Extends(versions[n], versions[n + 1]) { RunStepExtends(cfg, tr, evs, n); }
    ChainExtends(versions, i, k);
  }

  lemma StepExtends(cfg: Config, s: State, e: Event, eff: Effect, s': State)
    requires StepFacts(cfg, s, e, eff, s')
    ensures Extends(s.world.tables.rows, s'.world.tables.rows)
  {
    if e.Finish? && eff.CompletesAnalysis? {
      CompletedAnalysisKeepsHistory(s.world, s.live[e.exec], s.now, e.newThread, e.newRow, eff.thread, s'.world);
    }
  }

  lemma RunStepExtends(cfg: Config, tr: seq<State>, evs: seq<Event>, i: nat)
    requires IsRun(cfg, tr, evs) && i < |evs|
    ensures Extends(tr[i].world.tables.rows, tr[i + 1].world.tables.rows)
  {
    var eff := RunStep(cfg, tr, evs, i);
    StepExtends(cfg, tr[i], evs[i], eff, tr[i + 1]);
  }

  lemma ExtendsIsTransitive(a: seq<Row>, b: seq<Row>, c: seq<Row>)
    requires Extends(a, b) && Extends(b, c)
    ensures Extends(a, c)
  {
    forall i | 0 <= i < |a| ensures c[i].(isLatest := a[i].isLatest) == a[i] {
      assert b[i].(isLatest := a[i].isLatest) == a[i] && c[i].(isLatest := b[i].isLatest) == b[i];
    }
  }

  // ---------------------------------------------------------------- provider calls

  /** Provider calls of the ended executions of job j with attempt numbers 1..n. */
  function TotalCalls(spent: map<ExecId, nat>, j: JobId, n: nat): nat {
    if n == 0 then 0
    else TotalCalls(spent, j, n - 1) + if ExecId(j, n) in spent then spent[ExecId(j, n)] else 0
  }

  /** Live executions of job j with attempt numbers 1..n. */
  function LiveCount(live: map<ExecId, Job>, j: JobId, n: nat): nat {
    if n == 0 then 0 else LiveCount(live, j, n - 1) + if ExecId(j, n) in live then 1 else 0
  }

  /** Each attempt number belongs to one execution, ended or live. */
  lemma {:induction false} TotalIsBounded(cfg: Config, s: State, j: JobId, n: nat)
    requires SpentOk(cfg, s) && LiveOk(s)
    ensures TotalCalls(s.spent, j, n) + LiveCount(s.live, j, n) * CallLimit(cfg.llmAttempts) <= n * CallLimit(cfg.llmAttempts)
  {
    if n > 0 {
      var limit, before := CallLimit(cfg.llmAttempts), LiveCount(s.live, j, n - 1);
      TotalIsBounded(cfg, s, j, n - 1);
      assert n * limit == (n - 1) * limit + limit && (before + 1) * limit == before * limit + limit;
      assert ExecId(j, n) in s.spent ==> s.spent[ExecId(j, n)] <= limit;
    }
  }

  lemma ProductGrows(a: nat, b: nat, c: nat)
    requires a <= b
    ensures a * c <= b * c
  {
  }

  /** Over a job's whole life the provider is called at most (limit + recoveries) * call limit times, even if every live
      execution still makes all the calls it may; no execution of the job escapes the count. */
  lemma ProviderCallBound(cfg: Config, tr: seq<State>, evs: seq<Event>, i: nat, j: JobId)
    requires IsRun(cfg, tr, evs) && i < |tr| && j in tr[i].world.rows
    ensures j in tr[i].marks
    ensures var job := tr[i].world.rows[j]; var s := tr[i];
            && (forall x :: x in s.spent && x.job == j ==> 1 <= x.attempt <= job.attempts)
            && (forall x :: x in s.live && x.job == j ==> 1 <= x.attempt <= job.attempts && x !in s.spent)
            && TotalCalls(s.spent, j, job.attempts) + LiveCount(s.live, j, job.attempts) * CallLimit(cfg.llmAttempts)
               <= (job.maxAttempts + CountRecovered(s.marks[j])) * CallLimit(cfg.llmAttempts)
  {
    var s := tr[i];
    RunInv(cfg, tr, evs, i);
    RunAttemptBudget(cfg, tr, evs, i, j);
    TotalIsBounded(cfg, s, j, s.world.rows[j].attempts);
    ProductGrows(s.world.rows[j].attempts, s.world.rows[j].maxAttempts + CountRecovered(s.marks[j]), CallLimit(cfg.llmAttempts));
    forall x | x in s.live && x.job == j ensures 1 <= x.attempt <= s.world.rows[j].attempts && x !in s.spent {
      assert SnapshotOk(s, x, s.live[x]);
    }
  }

  lemma StepKeepsSpent(cfg: Config, s: State, e: Event, eff: Effect, s': State, x: ExecId)
    requires LiveOk(s) && StepFacts(cfg, s, e, eff, s') && x in s.spent
    ensures x in s'.spent && s'.spent[x] == s.spent[x]
  {
    assert e.Finish? || e.Crash? ==> e.exec !in s.spent;
  }

  lemma RunStepKeepsSpent(cfg: Config, tr: seq<State>, evs: seq<Event>, i: nat, x: ExecId)
    requires IsRun(cfg, tr, evs) && i < |evs| && x in tr[i].spent
    ensures x in tr[i + 1].spent && tr[i + 1].spent[x] == tr[i].spent[x]
  {
    var eff := RunStep(cfg, tr, evs, i);
    StepKeepsSpent(cfg, tr[i], evs[i], eff, tr[i + 1], x);
  }

  /** A recorded execution is never recorded again: its call count stays. */
  lemma {:induction false} SpentIsWriteOnce(cfg: Config, tr: seq<State>, evs: seq<Event>, i: nat, k: nat, x: ExecId)
    requires IsRun(cfg, tr, evs) && i <= k < |tr| && x in tr[i].spent
    ensures x in tr[k].spent && tr[k].spent[x] == tr[i].spent[x]
  {
    if i < k {
      SpentIsWriteOnce(cfg, tr, evs, i, k - 1, x);
      RunStepKeepsSpent(cfg, tr, evs, k - 1, x);
    }
  }

  // ---------------------------------------------------------------- delivery

  /** Across workers, re-executions and rolled-back commits, two send attempts for one job are at least a day apart, and
      no send concerns a dream memory job. */
  lemma DeliveryAtMostOncePerDay(cfg: Config, tr: seq<State>, evs: seq<Event>, i: nat, a: nat, b: nat)
    requires IsRun(cfg, tr, evs) && i < |tr| && a < b < |tr[i].world.outbox.sends|
    ensures var sends := tr[i].world.outbox.sends;
            && (sends[a].job == sends[b].job ==> sends[b].at >= sends[a].at + 86400)
            && sends[b].job in tr[i].world.rows && tr[i].world.rows[sends[b].job].dream.None?
  {
    RunInv(cfg, tr, evs, i);
  }

  /** A send happens only inside an execution that completed its own running analysis job. */
  lemma SendsOnlyOnCompletion(cfg: Config, tr: seq<State>, evs: seq<Event>, i: nat)
    requires IsRun(cfg, tr, evs) && i < |evs| && tr[i + 1].world.outbox.sends != tr[i].world.outbox.sends
    ensures evs[i].Finish? && evs[i].outcome == Analysed
    ensures var j := evs[i].exec.job; var s := tr[i];
            && tr[i + 1].world.outbox.sends == s.world.outbox.sends + [Send(j, s.now)]
            && j in s.world.rows && s.world.rows[j].status == Running && s.world.rows[j].dream.None?
            && (evs[i].commits ==> j in tr[i + 1].world.rows && tr[i + 1].world.rows[j].status == Completed)
  {
    var eff := RunStep(cfg, tr, evs, i);
    var e, s := evs[i], tr[i];
    assert e.Finish?;
    FinishOutbox(cfg, s, e);
    LiveIsReady(cfg, s, e.exec);
  }
}
