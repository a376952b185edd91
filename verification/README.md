# Verified model of the dream-analysis backend

The backend takes dream texts from users, groups them in sessions and analyses each session with a language model. This
project models the parts of it that carry state or parse text, and proves what they promise. `dafny verify dfyconfig.toml`
checks everything.

## What is modelled

**The analysis-job runtime** (`JobService`, `LlmPolicy`, `Delivery`, `Executor`, `ExecutorProofs`, `ExecutorOutcomes`,
`Runtime`, `JobHistory`, `RuntimeInvariant`, `RuntimeSteps`, `RuntimeTheorems`, `RuntimeOutcomes`, `RuntimeLeases`,
`RuntimeAtomic`, `Worker`, `WorkerLeases`). The services are classes whose methods change the job table, the thread tables
and the outbox step by step, as the code does; each is proved against a specification function, and what the functions come
to is proved over the stored fields. `Runtime` puts these specifications into a transition system: any number of workers open and commit
acquisition transactions with row locks, executions hold detached job snapshots, finish with any outcome, crash or roll
back, and the clock moves. `JobHistory` records every acquisition, recovery, requeue and end of a job; the theorems are
about every run, including runs in which a worker acts after its lease has expired.

**Analysis threads** (`Threads`, `ThreadService`, `ThreadRuns`). Snapshot, decision, command list and the append of
analyses are functions; `ThreadDb` is the transaction that runs them, with other transactions committing threads and
sessions at every interleaving point, a savepoint and one bounded re-resolve. `ThreadRuns` is a transition system of its own in which
resolving a thread, building a row and storing it are separate steps of any number of transactions.

**Prompts** (`Text`, `PromptValidation`, `PromptCompiler`, `PromptLayout`, `PromptSections`, `PromptLog`, `PromptProofs`,
`PromptTheorems`, `PromptReadBack`, `PromptFaults`, `PromptContractV2`). The compiler prints an intermediate representation,
the validator finds the sections again and parses them line by line. The methods with the code's loops are proved equal to
functions over strings, and the theorems say which prompts the validator accepts, what it reports of the others, and that
what is stored can be read back from what is printed.

**Session summary** (`Summary`) and **ingress** (`DialoguePolicy`, `Ingress`, `IngressRuns`): counting and ranking loops
against a specification that does not mention them; the two-stage classifier of messages, the writes of one message, and
conservation over runs of messages.

`Base` holds identifiers and result types.

## Assumptions

- The last read, check and write of a job row and the commit of its transaction are one step. A database error rolls the
  whole transaction back. A write to a row that another transaction has locked waits.
- In the job runtime (`Executor`, `Runtime` and what is built on them) no other transaction touches the thread tables between
  the resolution of an execution and its commit; what happens when one does is the subject of `ThreadService` and `ThreadRuns`.
- PostgreSQL, Redis and all workers share one clock and one stale timeout. Setting the delivery key and sending happen at
  the same instant. Keys and uuids given to new rows are fresh.
- A call of the language model is a success, a transport error, a terminal error or an unexpected error; parsing and
  checking its answer is one verdict.
- `str.lower`, the crisis patterns and the word tokenizer are parameters. Of `lower` it is assumed that it moves no white
  space. Uuids and dates are printed by functions assumed to give non-empty single lines without `#`.
- `PromptProofs.ContractOk` lists what a prompt contract and the lines of its asset must satisfy together: six headings that
  begin with `#` and are not contained in earlier ones, fixed lines without `#` that hold the required lines, the eight field
  labels. Version 2 of the contract does so with every asset whose lines meet `PromptContractV2.AssetOk`.
- One message of a user is handled at a time, and its two looks at the session see two clock values.

## Findings

- Stale running jobs are recovered on every acquisition (services/runtime/analysis_job_service.py:117-147), although
  docs/progress/active/async-runtime-layer.md:107 says they are not. The model follows the code.
- Completing, failing and requeueing check only that the job is running, not who holds the lock. So an execution past its
  lease can overlap the next one (`RuntimeLeases.LateExecutionOverlaps`); attempts, results, provider calls and deliveries
  stay bounded all the same.
- An acquisition that runs among others does not always commit what one atomic acquisition would: rows that become stale
  or available after its queries are missed, such as those another transaction has recovered but not picked
  (`RuntimeAtomic.CommitIsAtomicExactly` gives the exact condition in every run, `RuntimeAtomic.LeftoverIsMissed` a run
  whose outcome no order of two atomic acquisitions has).
- Resolving a thread in a closed session without an active thread raises, and the job ends failed
  (`Threads.ResolveCorrect`).
- CONTINUE checks that the thread exists, not that it is still active, so a resolution can return a thread that another
  transaction has idled or closed since the snapshot (`ThreadService.ThreadDb.ContinuedUnlessRetired` says exactly when,
  `ThreadService.ContinueReturnsIdleThread` is a case).
- Two analysis rows built on one thread before either is stored repeat a continuation index; both inserts are accepted
  (`Threads.InterleavedBuildsCollide`). `ThreadRuns.DenseExactly` says in which runs this happens, `ThreadRuns.IndicesRepeat`
  is one.
- A dream whose text has a line break makes the validator reject the whole prompt (`PromptTheorems.LineBreakRejects`), unless
  it is the last dream and its text has both a blank line and a line that begins with `timestamp: `. Such a text can imitate
  the end of its entry and another entry; then the prompt is accepted (`PromptTheorems.ForgedDreamPasses`) and is the prompt
  of a representation with one dream more (`PromptTheorems.ForgedPrompt`).
- The prompt is also rejected for a count that says there are no dreams when there are some, and for a text sample whose
  lines after the first add a field or whose first line is empty and not made up for by a later one. The validator does not
  compare the count with the number of dreams beyond that.
- The check for required field names in the validator never decides: the comparison of the order covers it
  (`PromptSections.OrderDecides`).
- A dream is stored in another session than its conversation turns if the session goes stale between the two looks at it
  (`IngressRuns.SameSessionExactly`; `IngressRuns.DreamAndTurnsPart` is such a run).
- One branch of the dialogue policy engine is never reached through the router (`DialoguePolicy.UnusedReasons`).

## Model

| member | source | states |
|---|---|---|
| JobService.JobStore.CreateJob | services/runtime/analysis_job_service.py:24-51 | a new row is queued, available at once, unlocked, never started, with at least one attempt allowed and as many as asked for; no other row changes |
| JobService.JobStore.RecoverStale | services/runtime/analysis_job_service.py:117-147 | exactly the running rows whose lock is at least the timeout old and that nobody else holds are requeued; all others stay |
| JobService.JobStore.SelectAvailable | services/runtime/analysis_job_service.py:69-83 | the rows found are the first `limit` free queued rows, oldest first: none left out became available, was created or is numbered before one found |
| JobService.FirstIsUnique | services/runtime/analysis_job_service.py:69-83 | that answer is unique, so the specification fixes which jobs are acquired and in which order |
| JobService.EarliestExists | services/runtime/analysis_job_service.py:69-83 | among any non-empty set of rows one precedes all others in the acquisition order |
| JobService.JobStore.AcquireAvailableJobs | services/runtime/analysis_job_service.py:54-114 | recovery first, then the first `limit` available rows including just recovered ones, each set running with one more attempt, a lock and its first start time; a limit of zero or less does nothing |
| JobService.JobStore.MarkCompleted | services/runtime/analysis_job_service.py:171-193 | only a running row is completed, whoever holds its lock; otherwise the error names what was found and nothing changes |
| JobService.JobStore.MarkFailed | services/runtime/analysis_job_service.py:196-219 | only a running row is failed; otherwise the error names what was found and nothing changes |
| JobService.JobStore.Requeue | services/runtime/analysis_job_service.py:222-245 | only a running row goes back to the queue with its delay; otherwise the error names what was found and nothing changes |
| LlmPolicy.GenerateWithRetry | services/analysis_policy_service.py:12-48 | the calls made are transport errors up to the last, which is one only if the budget is spent, and its answer is returned or raised; the two raise statements after the loop are dead |
| LlmPolicy.StopIsUnique | services/analysis_policy_service.py:20-48 | the provider's answers determine the number of calls |
| LlmPolicy.CallLimit | services/analysis_policy_service.py:18-20 | at least one call is allowed, and as many as the setting says |
| Delivery.DeliveryService.AcquireDeliveryLock | services/notifications/delivery_lock_service.py:16-24 | the key is taken exactly if it is absent or expired, then for 86400 seconds; a failing call reports an error whether or not it set the key |
| Delivery.DeliveryService.DeliverCompletedAnalysis | services/notifications/analysis_delivery_service.py:29-118 | one send is attempted if and only if the job is completed, the row is bound to it, Redis works, the key is absent or expired, and there is a chat; it answers true if and only if that send worked, and raises if and only if Redis does; the key is taken for a day |
| Delivery.DeliversExactly | services/notifications/analysis_delivery_service.py:37-106 | the same of the specification |
| Delivery.DeliverKeepsSpacing | services/notifications/analysis_delivery_service.py:37-106 | one delivery keeps any two sends for a job a day apart and every past send guarded by its key, and sends only for a completed job with its bound row |
| Executor.AnalysisExecutor.HandleRetryableFailure | services/runtime/analysis_runtime_executor.py:163-189 | a running row is queued again for five seconds later if and only if the detached snapshot has attempts left, and failed as retryable otherwise; any other row makes it raise |
| Executor.AnalysisExecutor.HandleTerminalFailure | services/runtime/analysis_runtime_executor.py:192-207 | a terminal error fails the running row for good, whatever attempts are left, or raises if it is not running |
| Executor.AnalysisExecutor.ExecuteAnalysis | services/runtime/analysis_runtime_executor.py:31-48 | resolve, build, bind, persist, complete and deliver, with the exception each step raises turned into failure of the job or rollback |
| Executor.AnalysisExecutor.ExecuteAnalysisJob | services/runtime/analysis_runtime_executor.py:82-129 | the outcome is retryable if and only if all permitted calls were made and were transport errors, an analysis if and only if the last answer is a response that is accepted, and terminal otherwise; inputs that cannot be loaded cost no call; what it leaves behind is what the outcome says |
| LlmPolicy.EndIsUnique | services/analysis_orchestrator.py:56-98 | the provider's answers and the verdict decide the number of calls and the outcome |
| Executor.AnalysisExecutor.RunInTransaction | services/runtime/analysis_runtime_worker.py:78-117 | an escaped exception or failed commit undoes every database write but not what Redis and Telegram have seen |
| ExecutorProofs.ExecutionEffect | services/runtime/analysis_runtime_executor.py:82-207 | every execution requeues, fails or completes its own running job or changes no table, and only a completed analysis touches threads and analyses |
| ExecutorOutcomes.RetryableEnds | services/runtime/analysis_runtime_executor.py:163-189 | what the stored row is after transport errors, field by field, if the transaction commits; nothing else changes |
| ExecutorOutcomes.TerminalEnds | services/runtime/analysis_runtime_executor.py:192-207 | the same after any other error |
| ExecutorOutcomes.MemoryEnds | services/runtime/analysis_runtime_executor.py:104-109 | the same for a dream's memory |
| ExecutorOutcomes.AnalysisEnds | services/runtime/analysis_runtime_executor.py:107-129 | an accepted analysis adds its bound row to a thread of its session and completes the job there, unless the session gives no thread, which fails the job, or Redis fails, which leaves rows and tables alone; one of these exactly |
| ExecutorOutcomes.ScriptDecides | services/analysis_orchestrator.py:56-98 | for every script of the provider what a running job becomes: queued again, failed as retryable, failed for good, completed, or left running |
| ExecutorOutcomes.SendsExactly | services/runtime/analysis_runtime_executor.py:120-129 | an execution sends, once, if and only if it accepts an analysis of a running job whose session gives a thread, Redis works and the job's key is free, whether or not its transaction commits |
| ExecutorProofs.AnalysisPublishes | services/analysis_orchestrator.py:98-122 | after a successful resolution building, binding and persisting cannot fail, so the only open question is the job's status |
| ExecutorProofs.CompletedAnalysisKeepsHistory | services/runtime/analysis_runtime_executor.py:31-48 | a completed analysis keeps the thread history invariant and adds exactly one row, bound to the job |
| ExecutorProofs.ExecutionSends | services/runtime/analysis_runtime_executor.py:120-160 | an execution sends at most once, only when it completed its own running analysis job, and keeps sends spaced |
| ExecutorProofs.SendFailureIsSwallowed | services/notifications/analysis_delivery_service.py:83-106 | a failing send and a working one leave the same tables and keys |
| ExecutorProofs.RedisFailureRollsBack | services/notifications/analysis_delivery_service.py:60-68 | a failing lock call undoes the job transition, the thread and the analysis, and nothing is sent |
| JobHistory.MoveKeepsRecord | services/runtime/analysis_job_service.py:84-245 | every way a job can move keeps lock fields set exactly when running, completed_at exactly when finished, started_at exactly from the first attempt on and for ever, thread_id only when completed, and freezes finished jobs |
| JobHistory.MoveKeepsHistory | services/runtime/analysis_job_service.py:84-245 | every move keeps the history alternating between acquisitions and what ends them, spaced, charged once per attempt number and in agreement with the row |
| JobHistory.RequeuesBounded | services/runtime/analysis_runtime_executor.py:169-179 | because each requeue is charged to its own attempt number below the limit, there are fewer requeues than attempts allowed |
| JobHistory.AttemptBudget | services/runtime/analysis_job_service.py:84-91 | attempts are acquisitions, at most the limit plus the recoveries, and each but the first is paid for by a requeue or a recovery |
| JobHistory.HistoryIsShort | services/runtime/analysis_runtime_executor.py:163-207 | a job's whole life has at most two history entries per permitted acquisition |
| JobHistory.MoveLowersMeasure | services/runtime/analysis_runtime_executor.py:163-207 | without recovery every move lowers (limit minus attempts, rank of the status) |
| RuntimeSteps.FactsKeepInv | services/runtime/analysis_runtime_worker.py:48-117 | every event of the transition system keeps the whole runtime invariant |
| RuntimeSteps.RunInv | services/runtime/analysis_runtime_worker.py:48-117 | the runtime invariant holds in every state of every run |
| RuntimeSteps.LockedRowIsStable | services/runtime/analysis_job_service.py:65-92 | a row locked by an open acquisition is changed by nobody but that acquisition |
| RuntimeTheorems.RecordInvariant | services/runtime/analysis_job_service.py:34-245 | in every reachable state every job record is well formed |
| RuntimeTheorems.RecordsOnlyAdvance | services/runtime/analysis_job_service.py:34-245 | between any two states of a run finished records are frozen, started_at and the immutable fields stay, attempts never fall and histories only grow |
| RuntimeTheorems.RunAttemptBudget | services/runtime/analysis_runtime_executor.py:163-189 | in every run, late executions included: attempts equal acquisitions and stay within limit plus recoveries; requeues are charged to distinct snapshot attempts below the limit |
| RuntimeTheorems.AcquisitionsAreSpaced | services/runtime/analysis_job_service.py:117-145 | two consecutive acquisitions are separated by a requeue and its five seconds or by a recovery and the whole timeout |
| RuntimeTheorems.HistoriesAreBounded | services/runtime/analysis_runtime_executor.py:163-207 | in every run a job's history is at most twice limit plus recoveries long |
| RuntimeTheorems.ProgressWithoutRecovery | services/runtime/analysis_runtime_executor.py:163-207 | in a run without recoveries of a job each change of it lowers a well-founded measure, so it ends |
| RuntimeTheorems.ExactlyOneResult | services/runtime/analysis_runtime_executor.py:102-129 | in every reachable state the committed analyses bound to a job number one if it is a completed analysis job and none otherwise, and lie in the job's thread |
| RuntimeTheorems.OnlyCompletionTouchesThreads | services/runtime/analysis_runtime_worker.py:78-117 | an execution that is requeued, failed, rejected, rolled back or crashed leaves threads and analyses as they were |
| RuntimeTheorems.RunHistory | services/analysis_thread_service.py:77-178 | the thread history invariant holds in every state the job runtime and synchronous analyses reach, each of which resolves, builds and stores with no other transaction in between |
| RuntimeTheorems.AnalysesAreAppendOnly | services/analysis_thread_service.py:86-91 | over any stretch of a run a stored analysis changes at most its latest flag |
| RuntimeTheorems.ProviderCallBound | services/analysis_policy_service.py:20-48 | over a job's whole life the calls made by ended executions and those its live executions may still make are together at most (limit plus recoveries) times the call limit, and no execution escapes the count |
| RuntimeTheorems.SpentIsWriteOnce | services/analysis_policy_service.py:20-48 | the number of calls of an ended execution never changes afterwards |
| RuntimeTheorems.DeliveryAtMostOncePerDay | services/notifications/analysis_delivery_service.py:37-106 | across workers, re-executions and rollbacks two sends for one job are at least 86400 seconds apart, and none is for a job with a dream |
| RuntimeTheorems.SendsOnlyOnCompletion | services/runtime/analysis_runtime_executor.py:120-160 | a send happens only inside an execution of a running analysis job without a dream, one at a time, and if that execution commits the job is completed |
| RuntimeOutcomes.FinishDecides | services/runtime/analysis_runtime_executor.py:82-207 | in every run an execution that commits leaves its running job as its outcome says, field by field; it is queued again exactly if its attempt number is below the stored limit |
| RuntimeOutcomes.TimelyRetries | services/runtime/analysis_runtime_executor.py:163-189 | in timely runs the stored attempts decide: a job is tried again while it has attempts left |
| RuntimeOutcomes.FinishSends | services/notifications/analysis_delivery_service.py:29-118 | in every run the end of an execution adds exactly one send or none, by the condition above |
| RuntimeOutcomes.CompletionIsSent | services/runtime/analysis_runtime_executor.py:117-129 | a step of a run that completes an analysis job while its key is free adds exactly one send, for that job |
| RuntimeOutcomes.RetriedRun | services/runtime/analysis_runtime_executor.py:163-189 | a run in which a job fails by a transport error, is queued again, is acquired five seconds later, and is completed and sent |
| RuntimeLeases.TimelyRunsKeepLeases | services/runtime/analysis_job_service.py:117-145 | if no execution outlives its lease, every live execution still owns its running, unlocked job |
| RuntimeLeases.LeaseSafety | services/runtime/analysis_job_service.py:171-245 | then a job has at most one live execution and its completion, failure or requeue is never rejected |
| RuntimeLeases.LateExecutionOverlaps | services/runtime/analysis_job_service.py:117-145 | a run in which a late execution and its successor are live together, so the condition is needed |
| RuntimeLeases.LeaseLostExactly | services/runtime/analysis_job_service.py:171-245 | in every run, timely or not, a live execution holds its job exactly as long as nothing follows its acquisition in the job's history; what follows is a recovery, an end, or a requeue charged to another execution |
| RuntimeLeases.AcquisitionsAreDisjoint | services/runtime/analysis_job_service.py:65-92 | open acquisitions hold pairwise disjoint sets of jobs |
| RuntimeLeases.LockedRowsAreStable | services/runtime/analysis_job_service.py:65-92 | while an acquisition stays open its locks stay and the rows under them keep the values its queries saw |
| RuntimeLeases.CandidatesAfterCommit | services/runtime/analysis_job_service.py:69-83 | at a selection, against one other acquisition: what could be picked after the other's commit is what can be picked now and, disjoint from it, the rows the other recovered without picking |
| RuntimeLeases.InterleavedIsAtomic | services/runtime/analysis_job_service.py:65-92 | the case of one other acquisition that has made its selection, told in its rows: those picked under locks are those picked after the other's commit if and only if every such leftover ranks behind a full batch |
| RuntimeAtomic.FirstExactly | services/runtime/analysis_job_service.py:69-83 | rows picked earlier are still the ordered, limited answer if and only if what has become available since ranks behind a full batch |
| RuntimeAtomic.CommitIsAtomicExactly | services/runtime/analysis_job_service.py:65-92 | in every run, beside any number of open transactions: an acquisition commits what one atomic acquisition at that moment would leave if and only if that would recover no further row and every row available to it only since its selection ranks behind a full batch |
| RuntimeAtomic.RunIsAtomicExactly | services/runtime/analysis_job_service.py:65-92 | every acquisition a run commits has a selection earlier in it, and all of them commit what one atomic acquisition at that moment would leave if and only if each has recovered all that is stale and selected what is first when it commits |
| RuntimeAtomic.BothAreTaken | services/runtime/analysis_job_service.py:54-114 | two atomic acquisitions for one row each, one after the other, take both of two rows that are stale or available |
| RuntimeAtomic.LeftoverIsMissed | services/runtime/analysis_job_service.py:65-92 | a run in which it does not: an acquisition commits nothing although a row recovered by another is there to be taken, and neither order of two atomic acquisitions has this outcome |
| Worker.AnalysisRuntimeWorker.constructor | services/runtime/analysis_runtime_worker.py:21-37 | batch size and concurrency are at least one and at least what was asked for |
| Worker.AnalysisRuntimeWorker.Stop | services/runtime/analysis_runtime_worker.py:39-40 | the worker is marked as stopping |
| Worker.AnalysisRuntimeWorker.RunChunks | services/runtime/analysis_runtime_worker.py:71-76 | the batch is cut at multiples of the concurrency, and the answer is the number of executions that did not raise |
| Worker.AnalysisRuntimeWorker.RunOnce | services/runtime/analysis_runtime_worker.py:48-76 | a stopping worker touches nothing; otherwise exactly the jobs acquired in this poll are executed, in order |
| Worker.ChunksPartition | services/runtime/analysis_runtime_worker.py:71-76 | every acquired job is in exactly one chunk, in order, no chunk is empty or exceeds the concurrency, and there are ceil(n / concurrency) of them |
| Worker.ChunkIs | services/runtime/analysis_runtime_worker.py:71-73 | chunk k is the jobs from k times the concurrency on |
| Worker.ChunkEnds | services/runtime/analysis_runtime_worker.py:73 | a chunk ends just when the slowest execution that begins with it does |
| Worker.BatchEndsInTime | services/runtime/analysis_runtime_worker.py:71-76 | started chunk by chunk, a batch ends before any deadline more than ceil(batch / concurrency) times the longest execution away |
| WorkerLeases.ScheduledIsTimely | services/runtime/analysis_runtime_worker.py:48-76 | if every live execution is in a batch whose ceil(batch / concurrency) times the longest execution ends before the lease, no live execution has outlived its lease |
| WorkerLeases.ScheduledRunsAreSafe | services/runtime/analysis_runtime_worker.py:48-76 | so in a run of such batches a job has one live execution at most, which owns the job and can complete it |
| Threads.ResolveCorrect | services/analysis_state_machine_service.py:23-119 | resolution succeeds exactly for an active session or one with an active thread; then the old active thread is kept, idled or closed and a new one made as freshness, mode and session status say, and nothing else changes |
| Threads.ResolveLeavesOneActive | services/analysis_thread_service.py:29-45 | the returned thread is the one active thread of its session, other sessions are untouched, and no idle or closed thread comes back |
| Threads.ApplyNormalized | services/analysis_state_machine_service.py:98-119 | the command list of each decision has the effect of that decision, or the fault its missing target causes |
| Threads.AppendSucceeds | services/analysis_thread_service.py:136-178 | appending to an existing thread of the session never conflicts with the unique index |
| Threads.AppendKeepsHistory | services/analysis_thread_service.py:136-178 | appending keeps dense indices, one latest row, last_analysis_id and matching sessions, and rewrites only latest flags |
| Threads.AppendKeepsSound | services/analysis_thread_service.py:158-178 | whatever index a stored row carries, one latest row, last_analysis_id, unique keys and matching sessions are kept |
| Threads.ResolveKeepsHistory | services/analysis_thread_service.py:94-133 | resolving keeps the history invariant |
| Threads.IndicesAreDense | services/analysis_thread_service.py:77-83 | under the invariant a thread's continuation indices are 0 to n-1 in insertion order |
| Threads.LatestRowOfThread | services/analysis_thread_service.py:86-91 | a thread with analyses has exactly one latest row: the one with index n-1, at which the thread points |
| Threads.StaleRowBreaksDensity | services/analysis_thread_service.py:136-155 | a row built earlier keeps the indices dense if and only if its thread has gained no row since |
| Threads.PersistSucceeds | services/analysis_thread_service.py:158-178 | persisting a row of the thread and its session always succeeds, whatever its index |
| Threads.AnalysisRenewsThread | services/analysis_thread_service.py:158-178 | a stored analysis makes its thread fresh again: the next resolution continues it if and only if it comes at most 72 hours later, and otherwise idles it |
| Threads.InterleavedBuildsCollide | services/analysis_thread_service.py:136-178 | two rows built before either is stored are both accepted and the index repeats |
| ThreadService.ThreadDb.MarkIdle | services/analysis_thread_service.py:61-66 | idling changes one thread's status and keeps at most one active thread a session |
| ThreadService.ThreadDb.CloseThread | services/analysis_thread_service.py:69-74 | closing changes one thread's status and keeps at most one active thread a session |
| ThreadService.ThreadDb.InsertThread | db/models/analysis_thread_model.py:52-58 | the insert is accepted exactly if the session has no active thread in view |
| ThreadService.ThreadDb.CreateThread | services/analysis_thread_service.py:29-45 | a fresh thread is inserted after idling the active ones, and a conflict is reported exactly if a thread of the session has become active between the two statements |
| ThreadService.ThreadDb.Execute | services/analysis_thread_service.py:103-131 | one command against what others have committed when it runs: CONTINUE succeeds exactly if the thread exists then, CREATE exactly if no thread of the session has become active between its two statements, and the thread yielded is the one the command stands for |
| ThreadService.ThreadDb.ApplyTransition | services/analysis_thread_service.py:94-133 | the thread returned is the one the last CREATE or CONTINUE stands for, and a created one is in place; a lone command succeeds exactly as above; undisturbed the result is that of the sequential commands |
| ThreadService.ThreadDb.Attempt | services/analysis_continuation_service.py:57-75 | one round: it decides on the session's status and the threads committed at its own snapshot, and raises for an unknown session; success carries that decision out on an existing thread, a new one being active; failure restores the transaction's writes and names the thread in conflict; a creating round fails exactly if a thread has appeared |
| ThreadService.ThreadDb.ResolveThreadForAnalysis | services/analysis_continuation_service.py:50-75 | each round decides on the session's status and the threads committed at its own snapshot, the first on the state at the call; a second one follows a conflict of the first only, decides on what is committed right after it, and follows whenever a creating first round met a newcomer; a second conflict is given up on; success carries out the last decision on an existing thread with at most one active thread a session, failure leaves none of its own writes |
| ThreadService.ThreadDb.ContinuedUnlessRetired | services/analysis_thread_service.py:104-112 | a continued thread is still active if and only if the commit between snapshot and command, if there is one, did not retire it |
| ThreadService.ContinueReturnsIdleThread | services/analysis_thread_service.py:104-112 | a resolution that returns, to be continued, a thread that is idle |
| ThreadService.SecondRoundContinues | services/analysis_continuation_service.py:57-75 | a resolution whose first round meets a thread that became active between its two statements, and whose second continues that thread |
| ThreadService.ConflictIsNewcomer | services/analysis_thread_service.py:29-44 | after idling, the insert meets an active thread exactly if one has appeared since |
| ThreadService.ThreadDb.BuildSessionAnalysisRow | services/analysis_thread_service.py:136-155 | the row built is the latest, with the number of its thread's analyses as its index; where those before are dense it continues them, and, stored at once on a sound history, it is accepted and keeps the whole invariant |
| ThreadService.ThreadDb.PersistSessionAnalysis | services/analysis_thread_service.py:158-178 | a row of another thread or session is refused; otherwise the latest flag moves to it and the thread points at it |
| ThreadService.NormalizedShape | services/analysis_state_machine_service.py:98-119 | every command list creates last, continues only its decision's target, and yields that target or the new thread |
| ThreadService.DecisionIsConsistent | services/analysis_state_machine_service.py:23-95 | a decision targets only the session's active thread and continues only with a target |
| ThreadService.UndisturbedNeverConflicts | services/analysis_continuation_service.py:57-75 | without other transactions resolution never meets the conflict that triggers a second round |
| ThreadRuns.StoreKeepsInv | services/analysis_thread_service.py:158-178 | storing a built row never fails, changes no earlier row but its latest flag, and makes exactly the other rows built on its thread outdated |
| ThreadRuns.RunIsSound | services/analysis_thread_service.py:77-178 | in every run in which resolving, building and storing interleave, all of the history invariant but the indices holds |
| ThreadRuns.DenseExactly | services/analysis_thread_service.py:77-178 | in every such run the continuation indices are dense if and only if no row was stored after its thread had gained another since the row was built |
| ThreadRuns.IndicesRepeat | services/analysis_thread_service.py:136-178 | a run in which two rows get the same index |
| PromptValidation.ParseFieldLines | services/prompts/validation.py:26-32 | the fields of the lines, the last value winning for a repeated label |
| PromptValidation.ValidateFieldSection | services/prompts/validation.py:42-64 | first missing required labels, then any other order of labels is reported; the same code serves the summary section |
| PromptSections.OrderDecides | services/prompts/validation.py:94-116 | a field section passes if and only if its labels, read in order, are the expected ones, so the required-name loop never decides |
| PromptSections.OpenSection | services/prompts/validation.py:94-116 | a printed section whose last value is any text at all reads as its labels if and only if the value's later lines hold no field, or make up for its empty first line |
| PromptSections.FoldedReads | services/prompts/validation.py:26-32 | where lines break only at carriage returns before a space, that is if and only if the first line is not empty |
| PromptValidation.ValidateDreamSection | services/prompts/validation.py:67-91 | the placeholder for no dreams, or the first fault of the first faulty block with its number |
| PromptValidation.ValidateFixedSection | services/prompts/validation.py:119-127 | a fault exactly if some required line does not occur in the section |
| PromptValidation.ExtractBodies | services/prompts/validation.py:18-23 | either every section body is found between its heading and the next, or the missing heading raises |
| PromptValidation.ValidatePromptStructure | services/prompts/validation.py:142-209 | prefix, presence and order of headings are checked first and end the check; otherwise the faults of the six sections in order, or the exception a bad dream_count raises |
| PromptSections.ParseLabelled | services/prompts/validation.py:9-32 | a printed field line parses back to its label and value, unless the value is empty |
| PromptLog.MarkerMatches | services/prompts/validation.py:74-82 | a printed dream marker matches a number if and only if it was printed with it |
| PromptLog.BlockAccepted | services/prompts/validation.py:73-90 | one printed dream, taken as one block, is an entry if and only if it has its number, its text is one line and its timestamp is not blank |
| PromptLog.BlocksFound | services/prompts/validation.py:73 | a printed log is cut into the blocks of its dreams, one dream after the other, however many each has |
| PromptLog.LogAccepted | services/prompts/validation.py:67-91 | whatever its texts, a printed dream log passes if and only if the count is zero exactly for no dreams and the dreams read as entries numbered from 1 |
| PromptLog.SequenceLog | services/prompts/validation.py:73-90 | dreams numbered in sequence read as entries if and only if each but the last is one line and dated, and the last one reads as entries from its number on |
| PromptLog.TellingReads | services/prompts/validation.py:73-90 | a dream whose text has no blank line, or no line that begins as a timestamp line does, reads as entries if and only if it is the one entry it should be |
| PromptLog.TellingLog | services/prompts/validation.py:67-91 | a log of such dreams reads as entries if and only if each dream is numbered, one line and dated |
| PromptLog.ForgedReads | services/prompts/validation.py:73-90 | a text that imitates the end of its entry and another entry reads as two entries |
| PromptLog.ForgedLog | services/prompts/compiler.py:136-147 | its log is that of the two dreams it imitates |
| Text.TwoLines | services/prompts/validation.py:75-77 | a text followed by a last line splits into two lines if and only if the text has no break, or ends in the carriage return that joins the newline |
| Text.SplitAcross | services/prompts/validation.py:73 | a text that ends in no newline is split by itself, whatever follows it after a blank line |
| Text.SplitBlocks | services/prompts/validation.py:73 | blocks without blank lines, separated by blank lines, are split into themselves |
| Text.SplitJoin | services/prompts/validation.py:28 | joined single lines are split into themselves |
| Text.PyIntOfSigned | services/prompts/validation.py:186 | int() reads back every printed integer |
| PromptLayout.BodyAt | services/prompts/validation.py:18-23 | if no line before a heading contains it, the body extracted is exactly the lines printed under it |
| PromptCompiler.RenderCompiledPrompt | services/prompts/compiler.py:118-167 | the list built up section by section is the prefix, a blank line and six headed parts, joined by newlines |
| PromptProofs.RenderedValidates | services/prompts/validation.py:142-209 | whatever the dream texts and the sample, a rendered prompt passes if and only if the three context texts are not empty, the sample reads as one field, the count is zero exactly for no dreams and the dreams read as entries; without a text that has both a blank line and a timestamp line that means every dream is numbered, one line and dated; the validator never raises on it |
| PromptProofs.BadLogIsRejected | services/prompts/validation.py:67-91 | a faulty dream log is reported whatever the other sections hold |
| PromptContractV2.HeadingsApart | services/prompts/contracts.py:70-98 | no heading of version 2 occurs inside an earlier one |
| PromptContractV2.ContractFits | services/prompts/contracts.py:70-132 | version 2 of the contract meets every assumption of the theorems with every asset that holds its required lines and no `#` |
| PromptTheorems.AcceptedExactly | services/prompts/validation.py:142-209 | the verdict on an arbitrary prompt told without the order in which faults are looked for: no fault is masked by an earlier one, dream blocks are numbered 1 to n, and the required-name checks drop out |
| PromptFaults.ReportsExactly | services/prompts/validation.py:142-209 | which codes are reported of any prompt: a fault of the headings alone, else every fault of the six sections under its own code and nothing else, in the order of the sections |
| PromptFaults.DreamErrorIs | services/prompts/validation.py:67-91 | the dream log's code names the first block that is not its entry, and the first thing wrong with it |
| PromptTheorems.RoundTrip | services/prompts/validation.py:18-91 | the validator's own extraction, field parsing and block splitting give back exactly the five context fields, the dreams verbatim and in order, and the three summary fields |
| PromptTheorems.NothingIsLost | services/prompts/compiler.py:118-167 | two representations with the same prompt have the same context, the same dreams and the same printed summary |
| PromptReadBack.StoredReadsBack | services/prompts/compiler.py:79-167 | from stored data to the prompt and back: label by label the fields are the stored identifiers, count, dates, duration, word lists and sample, and the log is the stored dreams by creation time and key |
| PromptReadBack.ListReadsBack | services/prompts/compiler.py:69-72 | a printed list gives its words back, in order |
| PromptReadBack.DurationShows | services/prompts/compiler.py:58-66 | a printed duration says hours, minutes below sixty and seconds below sixty that add up to it, and `N/A` stands exactly for none and for negative ones |
| PromptReadBack.DurationIsUnique | services/prompts/compiler.py:58-66 | no text shows two durations |
| PromptTheorems.SortIsOrdered | services/prompts/compiler.py:75-76 | dreams are sorted by creation time and key |
| PromptTheorems.CompileIgnoresOrder | services/prompts/compiler.py:79-115 | any two orders of the same dreams compile to the same representation and so the same prompt |
| PromptTheorems.DurationIsPlain | services/prompts/compiler.py:58-66 | a printed duration is a non-empty single line, for every duration and for none |
| PromptTheorems.CompiledValidates | services/prompts/compiler.py:79-167 | a prompt built from stored data passes if and only if its summary counts dreams when there are some, its sample reads as one field, every dream but the last is told in one line and the last reads as entries; unless the last text has both a blank line and a timestamp line, every dream is told in one line |
| PromptTheorems.LineBreakRejects | services/prompts/validation.py:73-77 | a dream with a line break in its text makes the validator reject the prompt, whatever the summary, unless it is the last and its text has both a blank line and a timestamp line |
| PromptTheorems.ForgedDreamPasses | services/prompts/validation.py:73-90 | a last dream whose text imitates the end of its entry and another entry is accepted, though it is not told in one line |
| PromptTheorems.ForgedPrompt | services/prompts/compiler.py:118-167 | its prompt is that of a representation with one dream more |
| Summary.CountWords | services/session_summary_service.py:119 | each word is counted as often as it occurs |
| Summary.CollectTokens | services/session_summary_service.py:112-117 | the loop over dreams gives every word's total and the number of dreams that have it |
| Summary.RankWords | services/session_summary_service.py:93-97 | every counted word once, strictly by falling count and then alphabetically |
| Summary.KeySymbols | services/session_summary_service.py:128 | at most ten words that occur, strictly ranked, fewer only if there are no more, and every word left out ranks behind every word listed |
| Summary.RecurringWords | services/session_summary_service.py:129-131 | exactly the words in two dreams or more, strictly ranked by their total |
| Summary.BuildSessionSummary | services/session_summary_service.py:100-133 | an unknown session is an error; otherwise the dream count, at most ten words by falling number of occurrences and then alphabetically, none left out more frequent, the words in two dreams or more in the same order, and the text sample of the session's own dreams |
| Summary.SampleIs | services/session_summary_service.py:120-121 | the sample is what fits in 1000 characters of the first five texts joined by spaces |
| Summary.LessExactly | services/session_summary_service.py:93-97 | words compare by their first different character, a proper prefix first |
| Summary.RankingIsUnique | services/session_summary_service.py:93-97 | which words are listed determines the list |
| Summary.TopIsUnique | services/session_summary_service.py:128 | the specification of the key symbols has one solution |
| Summary.SumIgnoresOrder | services/session_summary_service.py:112-119 | no total depends on the order of the dreams |
| Summary.SymbolsIgnoreOrder | services/session_summary_service.py:93-133 | both lists are the same for any permutation of the dreams |
| Summary.SummaryIgnoresOrder | services/session_summary_service.py:100-133 | the stored rows determine the whole summary in whatever order the table holds them |
| Summary.SampleOfOneLiners | services/session_summary_service.py:120-121 | the sample of one-line dreams breaks only at carriage returns before a space, and begins with an empty line only if the first dream is a lone carriage return |
| Summary.BuiltPromptValidates | services/session_summary_service.py:100-133 | summarised, compiled and rendered, a session's dreams give a prompt that passes if and only if all but the last are told in one line, the last reads as entries and their sample reads as one field; unless the last text has both a blank line and a timestamp line, if and only if each is told in one line and the earliest is not a lone carriage return |
| DialoguePolicy.WordsOfSpaced | services/dialogue_policy/router.py:56-80 | splitting what was joined by single spaces gives the same words, so normalising twice counts the same |
| DialoguePolicy.BothCountsAgree | services/dialogue_policy/router.py:56-80 | the token counts of classification and of the policy input agree |
| DialoguePolicy.RoutesAre | services/dialogue_policy/engine.py:17-86 | for every text and session state each of the five routes is taken if and only if crisis signal, continuation prefix, number of words and context say so; a new dream does not depend on the session |
| DialoguePolicy.DecisionsAre | services/dialogue_policy/engine.py:17-86 | the whole decision, with session action and reason, as a table over crisis signal, number of words, continuation prefix and session state |
| DialoguePolicy.UnusedReasons | services/dialogue_policy/engine.py:63-86 | one reason never arises through the router, and the default reason only in an idle session |
| Ingress.RawActive | services/session_service.py:49-58 | an active session of the user if there is one, none only if there is none |
| Ingress.GetOrCreate | services/session_service.py:61-93 | the session used is active and the user's, and no session is removed or changes hands |
| Ingress.IngressDb.EnsureActiveSession | services/session_service.py:61-77 | a fresh session is returned; a stale one is closed and not returned |
| Ingress.IngressDb.CreateSession | services/session_service.py:80-85 | one new active session is added |
| Ingress.IngressDb.GetOrCreateActiveSession | services/session_service.py:88-93 | the fresh session or, after closing a stale one, a new one |
| Ingress.IngressDb.UpdateSessionActivity | services/session_service.py:33-38 | only the activity time of one session changes |
| Ingress.IngressDb.RegisterIncomingDream | services/dream_intake.py:22-36 | one dream and one queued job for it, in the session found at the second look |
| Ingress.IngressDb.Answer | services/ingress/ingress_service.py:49-106 | a canned answer writes two turns, one trace and the session's activity, and neither dream nor job |
| Ingress.IngressDb.Converse | services/ingress/ingress_service.py:108-173 | a dream or a dialogue turn and its reply; without a reply the call fails |
| Ingress.IngressDb.ProcessIncomingMessage | services/ingress/ingress_service.py:23-173 | the policy is evaluated once and decides which tables grow, and by what; the last turn, which is also what is sent, is the safety text for a crisis signal, the clarification for an unclear message of a user without a session, and the dialogue reply otherwise |
| Ingress.IngressDb.HandleRequest | db/db_setup.py:37-50 | a failed message leaves all tables as they were |
| IngressRuns.RunConserves | services/ingress/ingress_service.py:23-173 | after any run: dream and job i are those of the i-th committed dream message; turns 2k and 2k+1 are the exchange on the k-th answered message in one session and carry its dream's key and its kind, and the reply is the safety text for a crisis signal, the clarification for an unclear first message of its user, and the dialogue reply for any other; each committed message has one trace with its whole decision, which names the session, dream, job and kind of its exchange or, unanswered, none; a user has one active session from the first answered message on, last active when the last one began |
| IngressRuns.SessionOpensExactly | services/session_service.py:61-93 | an answered message opens a session if and only if it is its user's first, or more than 72 hours have passed since the last one began; otherwise it goes to the active one |
| IngressRuns.RolledBackExactly | services/ingress/ingress_service.py:145-162 | a message is rolled back if and only if it needs a dialogue reply and there is none, and then changes nothing |
| IngressRuns.SameSessionExactly | services/dream_intake.py:22-36 | a dream lands in the session of its turns if and only if that session is still fresh at the second look |
| IngressRuns.DreamAndTurnsPart | services/dream_intake.py:22-36 | a run of two messages after which the second dream and the turns that tell it are in different sessions |
| IngressRuns.SteadyRunsShareSessions | services/dream_intake.py:22-36 | if no session goes stale between the two looks, every dream of the run is in the session in which it was told |

## Left out

- Executor.AnalysisExecutor.ExecuteAnalysis: no other transaction commits between resolution, build and persist; `ThreadService` and `ThreadRuns` model that, for threads and analyses alone.
- Executor.AnalysisExecutor.ExecuteAnalysisJob: the dream memory row and the upsert of the session summary that an execution writes are not tables of the model.
- RuntimeTheorems.RunHistory: over runs in which a thread is resolved and its row built and stored in one step; `ThreadRuns.DenseExactly` is the statement for separate steps.
- RuntimeLeases.InterleavedIsAtomic: a special case, one other transaction that has made its selection, of what `RuntimeAtomic.CommitIsAtomicExactly` says of any number, over runs; so is RuntimeLeases.CandidatesAfterCommit.
- ThreadRuns.StoreKeepsInv: storing is one step; two inserts that wait for each other under the unique index, of which PostgreSQL refuses the second, are not modelled.
- PromptReadBack.StoredReadsBack: under the conditions of PromptTheorems.RoundTrip, for word lists whose words have no comma; a comma inside a listed word would divide it.
- PromptTheorems.RoundTrip: for representations the validator accepts whose timestamps end in no white space and whose dream texts and sample are single lines; a text that ends in a carriage return is accepted but read back without it.
- PromptProofs.RenderedValidates: no value may contain a heading printed after it; headings inside dream texts can imitate other sections and are not described. The same holds for PromptTheorems.CompiledValidates and Summary.BuiltPromptValidates.
- Text.PyIntOfSigned: `int()` and `\d` are modelled for ASCII digits; other decimal digits, and the length limit Python puts on conversions, are not.
- ThreadService.ThreadDb.Interleave: other transactions commit whole tables of sessions, and of threads that respect the unique index and the rows this transaction has written; real isolation levels, and rows an ORM keeps without reading them again, are not modelled.
- LlmPolicy.GenerateWithRetry: the answers are a fixed infinite script of the provider; delays and error texts are not modelled.
- Ingress.RawActive: of active sessions created at the same instant it takes the last one, where the query may take any; users have at most one (`IngressRuns.RunConserves`).
- PromptContractV2.ContractFits: the asset is a parameter; reading services/prompts/assets and cutting it into lines are not modelled.
- `validate_prompt_safety` beyond the structure: anchors, forbidden phrases and placeholders in the controlled text.
- `attach_analysis`, which moves analyses between threads and breaks dense indices; the runtime does not use it.
- `save_session_summary`.
- The `cancelled` status of jobs: nothing writes it.
- Reading settings, logging, metrics, the test mode that shortens executions, provider and model names, error messages.
- HTTP routes, the Telegram bot, the admin interface, migrations, journal reads, prompt versions, pagination.
- Provider adapters, JSON extraction and the schemas of answers, the rewriting of reflections, the dialogue prompt.
- The second prompt compiler in services/prompt_compiler.py.
