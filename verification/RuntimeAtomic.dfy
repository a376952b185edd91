/** Whether an acquisition that ran among others commits what one atomic acquisition would have. */
module RuntimeAtomic {
  import opened Base
  import opened JobService
  import opened Threads
  import opened Delivery
  import opened Executor
  import opened Runtime
  import opened RuntimeInvariant
  import opened RuntimeSteps
  import opened RuntimeLeases

  // ---------------------------------------------------------------- one atomic acquisition

  /** The rows an acquisition with tx's clock would recover now. */
  function StaleNow(cfg: Config, s: State, tx: TxId): set<JobId>
    requires tx in s.open
  {
    StaleSet(s.world.rows, s.open[tx].at, cfg.timeout, LockedRows(s.open - {tx}))
  }

  /** The table after that recovery. */
  function RecoveredNow(cfg: Config, s: State, tx: TxId): Rows
    requires tx in s.open
  {
    RecoverRows(s.world.rows, StaleNow(cfg, s, tx), s.open[tx].at)
  }

  /** The rows it would find available. */
  function AvailableNow(cfg: Config, s: State, tx: TxId): set<JobId>
    requires tx in s.open
  {
    AvailableSet(RecoveredNow(cfg, s, tx), s.open[tx].at, LockedRows(s.open - {tx}))
  }

  /** An atomic acquisition with tx's clock, batch limit and worker, beside the other open transactions, leaves rows. */
  ghost predicate AtomicallyLeaves(cfg: Config, s: State, tx: TxId, rows: Rows)
    requires tx in s.open
  {
    exists ids ::
      && IsFirst(RecoveredNow(cfg, s, tx), AvailableNow(cfg, s, tx), s.open[tx].limit, ids)
      && rows == AcquireRows(RecoveredNow(cfg, s, tx), ids, s.open[tx].worker, s.open[tx].at)
  }

  /** Rows available in s that were not among tx's candidates when it selected, in state chosen, or not with that record. */
  function Newcomers(cfg: Config, chosen: State, s: State, tx: TxId): set<JobId>
    requires tx in chosen.open && tx in s.open
  {
    set j | j in AvailableNow(cfg, s, tx) && j !in Picked(s.open[tx])
            && !(j in Candidates(chosen, tx) && Midway(chosen.world.rows, chosen.open[tx])[j] == RecoveredNow(cfg, s, tx)[j])
  }

  /** Every newcomer ranks behind a full batch. */
  predicate NewcomersRankBehind(cfg: Config, chosen: State, s: State, tx: TxId)
    requires tx in chosen.open && tx in s.open
    requires forall j :: j in Picked(s.open[tx]) ==> j in s.world.rows
  {
    forall c :: c in Newcomers(cfg, chosen, s, tx) ==>
      |Picked(s.open[tx])| == s.open[tx].limit && AllBefore(RecoveredNow(cfg, s, tx), Picked(s.open[tx]), c)
  }

  // ---------------------------------------------------------------- from selection to commit

  /** Transaction tx selected in state chosen and is about to commit in s, its locked rows unchanged. */
  predicate Pending(cfg: Config, chosen: State, s: State, tx: TxId) {
    && OpenOk(cfg, chosen) && OpenOk(cfg, s) && tx in chosen.open && tx in s.open && s.open[tx].picked.Some?
    && IsFirst(Midway(chosen.world.rows, chosen.open[tx]), Candidates(chosen, tx), chosen.open[tx].limit, Picked(s.open[tx]))
    && s.open[tx] == chosen.open[tx].(picked := s.open[tx].picked)
    && forall j :: j in Held(s.open[tx]) ==>
         j in chosen.world.rows && j in s.world.rows && s.world.rows[j] == chosen.world.rows[j]
  }

  /** The rows tx recovered are still stale for an atomic acquisition, and no lock of another hides them. */
  lemma StillStale(cfg: Config, chosen: State, s: State, tx: TxId)
    requires Pending(cfg, chosen, s, tx)
    ensures s.open[tx].recovered <= StaleNow(cfg, s, tx)
  {
    var a := s.open[tx];
    assert AcquisitionOk(cfg, s.world.rows, a);
    forall j | j in a.recovered ensures j !in LockedRows(s.open - {tx}) { NotLockedByOthers(cfg, s, tx, j); }
  }

  lemma NotLockedByOthers(cfg: Config, s: State, tx: TxId, j: JobId)
    requires OpenOk(cfg, s) && tx in s.open && j in Held(s.open[tx])
    ensures j !in LockedRows(s.open - {tx})
  {
    forall t | t in s.open - {tx} ensures j !in Held(s.open[t]) { assert Held(s.open[t]) !! Held(s.open[tx]); }
  }

  /** A picked row is recovered now if it was then, and queued all along if it was not. */
  lemma PickedRow(cfg: Config, rows: Rows, a: Acquisition, skip: set<JobId>, j: JobId)
    requires AcquisitionOk(cfg, rows, a) && j in Picked(a) && j !in skip
    requires a.recovered <= StaleSet(rows, a.at, cfg.timeout, skip)
    ensures var late := RecoverRows(rows, StaleSet(rows, a.at, cfg.timeout, skip), a.at);
      j in late && late[j] == Midway(rows, a)[j] && IsAvailable(late[j], a.at)
  {
    assert IsAvailable(Midway(rows, a)[j], a.at);
    assert j !in a.recovered ==> rows[j].status == Queued;
  }

  /** The rows tx picked are still available, with the records it saw. */
  lemma StillAvailable(cfg: Config, chosen: State, s: State, tx: TxId, j: JobId)
    requires Pending(cfg, chosen, s, tx) && j in Picked(s.open[tx])
    ensures j in AvailableNow(cfg, s, tx) && j in Candidates(chosen, tx)
    ensures RecoveredNow(cfg, s, tx)[j] == Midway(chosen.world.rows, chosen.open[tx])[j]
  {
    var a := s.open[tx];
    assert j in Held(a);
    NotLockedByOthers(cfg, s, tx, j);
    StillStale(cfg, chosen, s, tx);
    PickedRow(cfg, s.world.rows, a, LockedRows(s.open - {tx}), j);
  }

  /** So the batch is still ordered and still among the available rows. */
  lemma BatchStands(cfg: Config, chosen: State, s: State, tx: TxId)
    requires Pending(cfg, chosen, s, tx)
    ensures forall j :: j in Picked(s.open[tx]) ==> j in AvailableNow(cfg, s, tx) && j in RecoveredNow(cfg, s, tx)
    ensures forall j :: j in Picked(s.open[tx]) ==>
              j in chosen.world.rows && RecoveredNow(cfg, s, tx)[j] == Midway(chosen.world.rows, chosen.open[tx])[j]
  {
    forall j | j in Picked(s.open[tx])
      ensures j in AvailableNow(cfg, s, tx) && j in RecoveredNow(cfg, s, tx) && j in chosen.world.rows
      ensures RecoveredNow(cfg, s, tx)[j] == Midway(chosen.world.rows, chosen.open[tx])[j]
    {
      StillAvailable(cfg, chosen, s, tx, j);
    }
  }

  lemma OrderedAlike(early: Rows, late: Rows, ids: seq<JobId>)
    requires forall j :: j in ids ==> j in early && j in late && late[j] == early[j]
    requires Ordered(early, ids)
    ensures Ordered(late, ids)
  {
    forall i, k | 0 <= i < k < |ids| ensures Before(late[ids[i]], late[ids[k]]) {
      assert ids[i] in ids && ids[k] in ids && Before(early[ids[i]], early[ids[k]]);
    }
  }

  lemma BehindAlike(early: Rows, late: Rows, ids: seq<JobId>, c: JobId)
    requires forall j :: j in ids ==> j in early && j in late && late[j] == early[j]
    requires c in early && c in late && late[c] == early[c] && AllBefore(early, ids, c)
    ensures AllBefore(late, ids, c)
  {
    forall i | 0 <= i < |ids| ensures Before(late[ids[i]], late[c]) { assert ids[i] in ids; }
  }

  /** The first rows of a query stay the first of a later one exactly if what is new among its rows ranks behind them. */
  lemma FirstAmongNewcomers(
    early: Rows, was: set<JobId>, late: Rows, cand: set<JobId>, limit: nat, ids: seq<JobId>, added: set<JobId>)
    requires was <= early.Keys && cand <= late.Keys && IsFirst(early, was, limit, ids)
    requires forall j :: j in ids ==> j in cand && j in early && late[j] == early[j]
    requires forall c :: c in added <==> c in cand && c !in ids && !(c in was && early[c] == late[c])
    ensures IsFirst(late, cand, limit, ids) <==> forall c :: c in added ==> |ids| == limit && AllBefore(late, ids, c)
  {
    OrderedAlike(early, late, ids);
    forall c | c in cand && c !in ids && c !in added ensures |ids| == limit && AllBefore(late, ids, c) {
      BehindAlike(early, late, ids, c);
    }
  }

  /** What was picked under locks is what an atomic acquisition would pick now exactly if newcomers rank behind it. */
  lemma FirstExactly(cfg: Config, chosen: State, s: State, tx: TxId)
    requires Pending(cfg, chosen, s, tx)
    ensures IsFirst(RecoveredNow(cfg, s, tx), AvailableNow(cfg, s, tx), s.open[tx].limit, Picked(s.open[tx]))
       <==> NewcomersRankBehind(cfg, chosen, s, tx)
  {
    BatchStands(cfg, chosen, s, tx);
    FirstAmongNewcomers(Midway(chosen.world.rows, chosen.open[tx]), Candidates(chosen, tx), RecoveredNow(cfg, s, tx),
                        AvailableNow(cfg, s, tx), s.open[tx].limit, Picked(s.open[tx]), Newcomers(cfg, chosen, s, tx));
  }

  // ---------------------------------------------------------------- the commit

  /** A row outside the recovery that an atomic acquisition would recover betrays the difference. */
  lemma SameRecovery(cfg: Config, s: State, tx: TxId, ids: seq<JobId>, j: JobId)
    requires tx in s.open && j in StaleNow(cfg, s, tx) && j !in s.open[tx].recovered
    requires AcquisitionOk(cfg, s.world.rows, s.open[tx])
    ensures CommittedRows(s.world.rows, s.open[tx])[j]
         != AcquireRows(RecoveredNow(cfg, s, tx), ids, s.open[tx].worker, s.open[tx].at)[j]
  {
    var a := s.open[tx];
    var committed, late := CommittedRows(s.world.rows, a), RecoveredNow(cfg, s, tx);
    assert j !in Picked(a);
    assert committed[j] == s.world.rows[j] && committed[j].status == Running;
    assert late[j] == RecoveredJob(s.world.rows[j], a.at);
  }

  lemma SameBatch(rows: Rows, a: seq<JobId>, b: seq<JobId>, worker: WorkerId, at: Time)
    requires AcquireRows(rows, a, worker, at) == AcquireRows(rows, b, worker, at)
    requires forall j :: j in a || j in b ==> j in rows && rows[j].status == Queued
    ensures forall j :: j in a <==> j in b
  {
    forall j: JobId ensures j in a <==> j in b {
      if j in rows { assert AcquireRows(rows, a, worker, at)[j] == AcquireRows(rows, b, worker, at)[j]; }
    }
  }

  lemma SameLength(rows: Rows, a: seq<JobId>, b: seq<JobId>)
    requires forall j :: j in a <==> j in b
    requires forall j :: j in a ==> j in rows
    requires Ordered(rows, a) && Ordered(rows, b)
    ensures |a| == |b|
  {
    OrderedIsDistinct(rows, a);
    OrderedIsDistinct(rows, b);
    SizeOfDistinct(a);
    SizeOfDistinct(b);
    assert (set j: JobId | j in a) == (set j: JobId | j in b);
  }

  lemma OrderedIsDistinct(rows: Rows, ids: seq<JobId>)
    requires (forall j :: j in ids ==> j in rows) && Ordered(rows, ids)
    ensures Distinct(ids)
  {
    forall i, k | 0 <= i < k < |ids| ensures ids[i] != ids[k] {
      assert ids[i] in rows && ids[k] in rows;
      assert Before(rows[ids[i]], rows[ids[k]]);
    }
  }

  predicate Distinct(ids: seq<JobId>) {
    forall i, k :: 0 <= i < k < |ids| ==> ids[i] != ids[k]
  }

  lemma {:induction false} SizeOfDistinct(ids: seq<JobId>)
    requires Distinct(ids)
    ensures |set j: JobId | j in ids| == |ids|
  {
    if ids != [] {
      SizeOfDistinct(ids[1..]);
      var rest := set j: JobId | j in ids[1..];
      assert ids[0] !in rest;
      assert (set j: JobId | j in ids) == rest + {ids[0]};
    }
  }

  /** If an atomic acquisition would leave what tx commits, then it would pick tx's batch. */
  lemma BatchIsFirst(cfg: Config, chosen: State, s: State, tx: TxId, ids: seq<JobId>)
    requires Pending(cfg, chosen, s, tx) && StaleNow(cfg, s, tx) == s.open[tx].recovered
    requires IsFirst(RecoveredNow(cfg, s, tx), AvailableNow(cfg, s, tx), s.open[tx].limit, ids)
    requires CommittedRows(s.world.rows, s.open[tx])
          == AcquireRows(RecoveredNow(cfg, s, tx), ids, s.open[tx].worker, s.open[tx].at)
    ensures NewcomersRankBehind(cfg, chosen, s, tx)
  {
    var picked, late := Picked(s.open[tx]), RecoveredNow(cfg, s, tx);
    BatchStands(cfg, chosen, s, tx);
    OrderedAlike(Midway(chosen.world.rows, chosen.open[tx]), late, picked);
    SameBatch(late, picked, ids, s.open[tx].worker, s.open[tx].at);
    SameLength(late, picked, ids);
    forall c | c in Newcomers(cfg, chosen, s, tx) ensures |picked| == s.open[tx].limit && AllBefore(late, picked, c) {
      assert c !in ids;
      assert AllBefore(late, ids, c);
    }
  }

  /** tx commits what an atomic acquisition would exactly if that would recover no further row and newcomers rank behind. */
  lemma PendingExactly(cfg: Config, chosen: State, s: State, tx: TxId)
    requires Pending(cfg, chosen, s, tx)
    ensures AtomicallyLeaves(cfg, s, tx, CommittedRows(s.world.rows, s.open[tx]))
       <==> StaleNow(cfg, s, tx) == s.open[tx].recovered && NewcomersRankBehind(cfg, chosen, s, tx)
  {
    var a, rows := s.open[tx], CommittedRows(s.world.rows, s.open[tx]);
    StillStale(cfg, chosen, s, tx);
    FirstExactly(cfg, chosen, s, tx);
    if ids :| IsFirst(RecoveredNow(cfg, s, tx), AvailableNow(cfg, s, tx), a.limit, ids)
              && rows == AcquireRows(RecoveredNow(cfg, s, tx), ids, a.worker, a.at) {
      forall j | j in StaleNow(cfg, s, tx) ensures j in a.recovered {
        if j !in a.recovered { SameRecovery(cfg, s, tx, ids, j); }
      }
      BatchIsFirst(cfg, chosen, s, tx, ids);
    }
  }

  // ---------------------------------------------------------------- over runs

  lemma SelectionStands(cfg: Config, tr: seq<State>, evs: seq<Event>, i: nat, k: nat, tx: TxId, picked: seq<JobId>)
    requires IsRun(cfg, tr, evs) && i < k < |tr| && evs[i] == Select(tx, picked)
    requires forall n :: i <= n <= k ==> tx in tr[n].open
    ensures Pending(cfg, tr[i], tr[k], tx) && Picked(tr[k].open[tx]) == picked
  {
    RunInv(cfg, tr, evs, i);
    RunInv(cfg, tr, evs, k);
    assert StepAt(cfg, tr, evs, i);
    SelectStep(cfg, tr[i], tx, picked);
    LockedRowsAreStable(cfg, tr, evs, i + 1, k, tx);
  }

  lemma SelectStep(cfg: Config, s: State, tx: TxId, picked: seq<JobId>)
    requires Enabled(cfg, s, Select(tx, picked))
    ensures After(cfg, s, Select(tx, picked)).world == s.world
    ensures After(cfg, s, Select(tx, picked)).open[tx] == s.open[tx].(picked := Some(picked))
  {
  }

  /**
   * In every run, with any number of other workers: what an acquisition commits is what one atomic acquisition at that
   * moment would have left, if and only if no row has become stale for it and every row that has become available to it
   * since its selection ranks behind a full batch.
   */
  lemma CommitIsAtomicExactly(cfg: Config, tr: seq<State>, evs: seq<Event>, i: nat, k: nat, tx: TxId, picked: seq<JobId>)
    requires IsRun(cfg, tr, evs) && i < k < |evs| && evs[i] == Select(tx, picked) && evs[k] == Commit(tx)
    requires forall n :: i <= n <= k ==> tx in tr[n].open
    ensures tx in tr[i].open && tx in tr[k].open && forall j :: j in Picked(tr[k].open[tx]) ==> j in tr[k].world.rows
    ensures AtomicallyLeaves(cfg, tr[k], tx, tr[k + 1].world.rows)
       <==> StaleNow(cfg, tr[k], tx) == tr[k].open[tx].recovered && NewcomersRankBehind(cfg, tr[i], tr[k], tx)
  {
    SelectionStands(cfg, tr, evs, i, k, tx, picked);
    assert StepAt(cfg, tr, evs, k);
    CommitStep(cfg, tr[k], tx);
    PendingExactly(cfg, tr[i], tr[k], tx);
  }

  lemma CommitStep(cfg: Config, s: State, tx: TxId)
    requires Enabled(cfg, s, Commit(tx))
    ensures After(cfg, s, Commit(tx)).world.rows == CommittedRows(s.world.rows, s.open[tx])
  {
  }

  /** Where the open acquisition tx made its selection. */
  function ChosenAt(evs: seq<Event>, k: nat, tx: TxId): Option<nat>
    requires k <= |evs|
  {
    if k == 0 then None
    else if evs[k - 1].Select? && evs[k - 1].tx == tx then Some(k - 1)
    else ChosenAt(evs, k - 1, tx)
  }

  lemma ChosenStep(cfg: Config, s: State, e: Event, tx: TxId)
    requires Enabled(cfg, s, e) && tx in After(cfg, s, e).open && After(cfg, s, e).open[tx].picked.Some?
    requires !(e.Select? && e.tx == tx)
    ensures tx in s.open && s.open[tx] == After(cfg, s, e).open[tx]
  {
    StepOfOpen(cfg, s, e);
  }

  lemma {:induction false} ChosenBefore(cfg: Config, tr: seq<State>, evs: seq<Event>, k: nat, tx: TxId)
    requires IsRun(cfg, tr, evs) && k < |tr| && tx in tr[k].open && tr[k].open[tx].picked.Some?
    ensures ChosenAt(evs, k, tx).Some?
    ensures var i := ChosenAt(evs, k, tx).value;
      && i < k && evs[i] == Select(tx, Picked(tr[k].open[tx]))
      && forall n :: i <= n <= k ==> tx in tr[n].open
  {
    assert k > 0 ==> StepAt(cfg, tr, evs, k - 1);
    if !(evs[k - 1].Select? && evs[k - 1].tx == tx) {
      ChosenStep(cfg, tr[k - 1], evs[k - 1], tx);
      ChosenBefore(cfg, tr, evs, k - 1, tx);
    }
  }

  /** The acquisition committed at step k has recovered all that is stale and selected what is first at that moment. */
  predicate UpToDate(cfg: Config, tr: seq<State>, evs: seq<Event>, k: nat)
    requires k < |evs| < |tr| && evs[k].Commit?
  {
    var tx, i := evs[k].tx, ChosenAt(evs, k, evs[k].tx);
    && i.Some? && i.value < |tr| && tx in tr[i.value].open && tx in tr[k].open
    && (forall j :: j in Picked(tr[k].open[tx]) ==> j in tr[k].world.rows)
    && StaleNow(cfg, tr[k], tx) == tr[k].open[tx].recovered
    && NewcomersRankBehind(cfg, tr[i.value], tr[k], tx)
  }

  ghost predicate CommitsAtomically(cfg: Config, tr: seq<State>, evs: seq<Event>, k: nat)
    requires k < |evs| < |tr| && evs[k].Commit?
  {
    evs[k].tx in tr[k].open && AtomicallyLeaves(cfg, tr[k], evs[k].tx, tr[k + 1].world.rows)
  }

  lemma StepIsAtomicExactly(cfg: Config, tr: seq<State>, evs: seq<Event>, k: nat)
    requires IsRun(cfg, tr, evs) && k < |evs| && evs[k].Commit?
    ensures CommitsAtomically(cfg, tr, evs, k) <==> UpToDate(cfg, tr, evs, k)
  {
    var tx := evs[k].tx;
    assert StepAt(cfg, tr, evs, k);
    ChosenBefore(cfg, tr, evs, k, tx);
    CommitIsAtomicExactly(cfg, tr, evs, ChosenAt(evs, k, tx).value, k, tx, Picked(tr[k].open[tx]));
  }

  /** So a whole run acquires as if atomically exactly if every acquisition in it is up to date when it commits. */
  lemma RunIsAtomicExactly(cfg: Config, tr: seq<State>, evs: seq<Event>)
    requires IsRun(cfg, tr, evs)
    ensures (forall k :: 0 <= k < |evs| && evs[k].Commit? ==> CommitsAtomically(cfg, tr, evs, k))
       <==> (forall k :: 0 <= k < |evs| && evs[k].Commit? ==> UpToDate(cfg, tr, evs, k))
  {
    forall k | 0 <= k < |evs| && evs[k].Commit?
      ensures CommitsAtomically(cfg, tr, evs, k) <==> UpToDate(cfg, tr, evs, k)
    {
      StepIsAtomicExactly(cfg, tr, evs, k);
    }
  }

  // ---------------------------------------------------------------- two acquisitions in a row

  /** One atomic acquisition with nothing locked leads from rows to after. */
  ghost predicate Atomically(rows: Rows, timeout: nat, at: Time, worker: WorkerId, limit: nat, after: Rows) {
    var mid := RecoverRows(rows, StaleSet(rows, at, timeout, {}), at);
    exists ids :: IsFirst(mid, AvailableSet(mid, at, {}), limit, ids) && after == AcquireRows(mid, ids, worker, at)
  }

  /** One and then another, each for one row. */
  ghost predicate Serially(rows: Rows, timeout: nat, at: Time, first: WorkerId, second: WorkerId, after: Rows) {
    exists mid :: Atomically(rows, timeout, at, first, 1, mid) && Atomically(mid, timeout, at, second, 1, after)
  }

  predicate Ready(job: Job, at: Time, timeout: nat) {
    IsStale(job, at, timeout) || IsAvailable(job, at)
  }

  predicate Busy(job: Job, at: Time) {
    job.status == Running && job.lockedAt == Some(at)
  }

  /** An acquisition for one row takes one of the two rows that are ready, or the one that is. */
  lemma OneIsTaken(rows: Rows, timeout: nat, at: Time, worker: WorkerId, after: Rows) returns (taken: JobId)
    requires timeout > 0 && rows.Keys == {1, 2} && Atomically(rows, timeout, at, worker, 1, after)
    requires forall j :: j in rows ==> Ready(rows[j], at, timeout) || Busy(rows[j], at)
    ensures after.Keys == {1, 2} && forall j :: j in after ==> IsAvailable(after[j], at) || Busy(after[j], at)
    ensures forall j :: j in rows && Busy(rows[j], at) ==> Busy(after[j], at)
    ensures Ready(rows[1], at, timeout) || Ready(rows[2], at, timeout) ==>
              taken in rows && Ready(rows[taken], at, timeout) && Busy(after[taken], at)
  {
    taken := 0;
    var mid := RecoverRows(rows, StaleSet(rows, at, timeout, {}), at);
    var ids :| IsFirst(mid, AvailableSet(mid, at, {}), 1, ids) && after == AcquireRows(mid, ids, worker, at);
    forall j | j in rows ensures IsAvailable(mid[j], at) <==> Ready(rows[j], at, timeout) { }
    if j :| j in rows && Ready(rows[j], at, timeout) {
      assert j in AvailableSet(mid, at, {});
      assert |ids| == 1;
      taken := ids[0];
      assert taken in AvailableSet(mid, at, {}) && Busy(after[taken], at);
    }
  }

  lemma OtherIsTaken(rows: Rows, timeout: nat, at: Time, worker: WorkerId, after: Rows, j: JobId)
    requires timeout > 0 && rows.Keys == {1, 2} && Atomically(rows, timeout, at, worker, 1, after)
    requires forall i :: i in rows ==> IsAvailable(rows[i], at) || Busy(rows[i], at)
    requires j in rows && Busy(rows[j], at)
    ensures after.Keys == {1, 2} && forall i :: i in after ==> Busy(after[i], at)
  {
    var taken := OneIsTaken(rows, timeout, at, worker, after);
    if IsAvailable(rows[3 - j], at) { assert Ready(rows[3 - j], at, timeout) && taken == 3 - j; }
  }

  lemma OneThenOther(rows: Rows, timeout: nat, at: Time, first: WorkerId, second: WorkerId, mid: Rows, after: Rows)
    requires timeout > 0 && rows.Keys == {1, 2} && Ready(rows[1], at, timeout) && Ready(rows[2], at, timeout)
    requires Atomically(rows, timeout, at, first, 1, mid) && Atomically(mid, timeout, at, second, 1, after)
    ensures after.Keys == {1, 2} && forall j :: j in after ==> Busy(after[j], at)
  {
    var taken := OneIsTaken(rows, timeout, at, first, mid);
    OtherIsTaken(mid, timeout, at, second, after, taken);
  }

  /** In either order, two acquisitions for one row each take both of two rows that are ready. */
  lemma BothAreTaken(rows: Rows, timeout: nat, at: Time, first: WorkerId, second: WorkerId, after: Rows)
    requires timeout > 0 && rows.Keys == {1, 2} && Serially(rows, timeout, at, first, second, after)
    requires Ready(rows[1], at, timeout) && Ready(rows[2], at, timeout)
    ensures after.Keys == {1, 2} && forall j :: j in after ==> Busy(after[j], at)
  {
    var mid :| Atomically(rows, timeout, at, first, 1, mid) && Atomically(mid, timeout, at, second, 1, after);
    OneThenOther(rows, timeout, at, first, second, mid, after);
  }

  // ---------------------------------------------------------------- a run in which the condition fails

  // Two jobs of one worker go stale. Transaction 0 recovers both and picks one; transaction 1, which begins before that is
  // committed, sees neither.

  function Created(j: JobId): Job {
    NewJob(j, 7, None, Auto, 1, 0)
  }

  function FirstRun(j: JobId): Job {
    AcquiredJob(Created(j), 9, 0)
  }

  function Recovered(j: JobId): Job {
    RecoveredJob(FirstRun(j), 10)
  }

  /** The run goes on from state s of run tr to tr'. */
  predicate Continues(cfg: Config, tr: seq<State>, evs: seq<Event>, e: Event, tr': seq<State>, evs': seq<Event>) {
    IsRun(cfg, tr', evs') && evs' == evs + [e] && |tr'| == |tr| + 1 && tr <= tr'
  }

  lemma RunBegins(cfg: Config, tr: seq<State>, evs: seq<Event>, tx: TxId, worker: WorkerId, limit: nat, stale: set<JobId>)
    returns (tr': seq<State>, evs': seq<Event>)
    requires IsRun(cfg, tr, evs) && tx !in tr[|evs|].open && limit > 0
    requires var s := tr[|evs|]; stale == StaleSet(s.world.rows, s.now, cfg.timeout, LockedRows(s.open))
    ensures Continues(cfg, tr, evs, Begin(tx, worker, limit), tr', evs')
    ensures var s := tr[|evs|];
      tr'[|evs'|] == s.(open := s.open[tx := Acquisition(worker, limit, s.now, stale, None)])
  {
    tr', evs' := JoinRuns(cfg, tr, evs, Begin(tx, worker, limit), After(cfg, tr[|evs|], Begin(tx, worker, limit)));
  }

  lemma RunSelects(cfg: Config, tr: seq<State>, evs: seq<Event>, tx: TxId, picked: seq<JobId>, mid: Rows, cand: set<JobId>)
    returns (tr': seq<State>, evs': seq<Event>)
    requires IsRun(cfg, tr, evs) && tx in tr[|evs|].open && tr[|evs|].open[tx].picked.None?
    requires var s := tr[|evs|];
      mid == Midway(s.world.rows, s.open[tx]) && cand == Candidates(s, tx) && IsFirst(mid, cand, s.open[tx].limit, picked)
    ensures Continues(cfg, tr, evs, Select(tx, picked), tr', evs')
    ensures var s := tr[|evs|]; tr'[|evs'|] == s.(open := s.open[tx := s.open[tx].(picked := Some(picked))])
  {
    tr', evs' := JoinRuns(cfg, tr, evs, Select(tx, picked), After(cfg, tr[|evs|], Select(tx, picked)));
  }

  lemma RunCommits(cfg: Config, tr: seq<State>, evs: seq<Event>, tx: TxId) returns (tr': seq<State>, evs': seq<Event>)
    requires IsRun(cfg, tr, evs) && tx in tr[|evs|].open && tr[|evs|].open[tx].picked.Some?
    ensures Continues(cfg, tr, evs, Commit(tx), tr', evs')
    ensures var s, s' := tr[|evs|], tr'[|evs'|];
      s'.now == s.now && s'.open == s.open - {tx} && s'.world.rows == CommittedRows(s.world.rows, s.open[tx])
  {
    tr', evs' := JoinRuns(cfg, tr, evs, Commit(tx), After(cfg, tr[|evs|], Commit(tx)));
  }

  lemma NoLocks()
    ensures LockedRows(map[]) == {}
  {
  }

  /** A state with the two given rows, the given acquisitions and the given clock. */
  predicate Scene(s: State, a: Job, b: Job, open: map<TxId, Acquisition>, now: Time) {
    s.world.rows == map[1 := a, 2 := b] && s.open == open && s.now == now
  }

  const BOTH := Acquisition(9, 2, 0, {}, None)
  const GREEDY := Acquisition(1, 1, 10, {1, 2}, None)
  const WAITING := Acquisition(2, 1, 10, {}, None)

  lemma TwoJobsQueued(cfg: Config) returns (tr: seq<State>, evs: seq<Event>)
    ensures IsRun(cfg, tr, evs) && Scene(tr[|evs|], Created(1), Created(2), map[], 0)
  {
    var s0 := State(0, World(map[], Tables(map[], map[], []), Outbox(map[], [])), map[], map[], map[], map[]);
    var s1 := After(cfg, s0, OpenSession(7, 1));
    var s2 := After(cfg, s1, Create(1, 7, None, Auto, 1));
    var s3 := After(cfg, s2, Create(2, 7, None, Auto, 1));
    tr, evs := JoinRuns(cfg, [s0], [], OpenSession(7, 1), s1);
    tr, evs := JoinRuns(cfg, tr, evs, Create(1, 7, None, Auto, 1), s2);
    tr, evs := JoinRuns(cfg, tr, evs, Create(2, 7, None, Auto, 1), s3);
  }

  lemma BothAreFirst(s: State)
    requires Scene(s, Created(1), Created(2), map[0 := BOTH], 0)
    ensures Midway(s.world.rows, BOTH) == s.world.rows && Candidates(s, 0) == {1, 2}
    ensures IsFirst(s.world.rows, {1, 2}, 2, [1, 2])
  {
    assert s.open - {0} == map[];
    NoLocks();
  }

  /** One worker acquires both at time 0, and the clock moves to 10. */
  lemma TwoJobsStale(cfg: Config) returns (tr: seq<State>, evs: seq<Event>)
    requires cfg.timeout == 10
    ensures IsRun(cfg, tr, evs) && Scene(tr[|evs|], FirstRun(1), FirstRun(2), map[], 10)
  {
    tr, evs := TwoJobsQueued(cfg);
    NoLocks();
    tr, evs := RunBegins(cfg, tr, evs, 0, 9, 2, {});
    var s := tr[|evs|];
    assert s.open == map[0 := BOTH];
    BothAreFirst(s);
    tr, evs := RunSelects(cfg, tr, evs, 0, [1, 2], s.world.rows, {1, 2});
    tr, evs := RunCommits(cfg, tr, evs, 0);
    assert tr[|evs|].world.rows == map[1 := FirstRun(1), 2 := FirstRun(2)];
    assert tr[|evs|].open == map[];
    tr, evs := RunTicks(cfg, tr, evs, 10);
  }

  lemma RunTicks(cfg: Config, tr: seq<State>, evs: seq<Event>, d: nat) returns (tr': seq<State>, evs': seq<Event>)
    requires IsRun(cfg, tr, evs)
    ensures Continues(cfg, tr, evs, Tick(d), tr', evs') && tr'[|evs'|] == tr[|evs|].(now := tr[|evs|].now + d)
  {
    tr', evs' := JoinRuns(cfg, tr, evs, Tick(d), After(cfg, tr[|evs|], Tick(d)));
  }

  lemma RecoverBoth(rows: Rows, a: Acquisition)
    requires rows == map[1 := FirstRun(1), 2 := FirstRun(2)] && a.recovered == {1, 2} && a.at == 10
    ensures var mid := map[1 := Recovered(1), 2 := Recovered(2)];
      Midway(rows, a) == mid && AvailableSet(mid, 10, {}) == {1, 2} && IsFirst(mid, {1, 2}, 1, [1])
  {
  }

  lemma GreedyCommits(rows: Rows)
    requires rows == map[1 := FirstRun(1), 2 := FirstRun(2)]
    ensures CommittedRows(rows, GREEDY.(picked := Some([1]))) == map[1 := AcquiredJob(Recovered(1), 1, 10), 2 := Recovered(2)]
  {
    RecoverBoth(rows, GREEDY.(picked := Some([1])));
  }

  /** Transaction 0 recovers both rows and picks the first. */
  lemma GreedySelects(cfg: Config, tr: seq<State>, evs: seq<Event>) returns (tr': seq<State>, evs': seq<Event>)
    requires cfg.timeout == 10 && IsRun(cfg, tr, evs) && Scene(tr[|evs|], FirstRun(1), FirstRun(2), map[], 10)
    ensures IsRun(cfg, tr', evs') && tr <= tr' && evs' == evs + [Begin(0, 1, 1), Select(0, [1])]
    ensures Scene(tr'[|evs'|], FirstRun(1), FirstRun(2), map[0 := GREEDY.(picked := Some([1]))], 10)
  {
    NoLocks();
    tr', evs' := RunBegins(cfg, tr, evs, 0, 1, 1, {1, 2});
    var s := tr'[|evs'|];
    assert s.open == map[0 := GREEDY] && s.open - {0} == map[];
    RecoverBoth(s.world.rows, GREEDY);
    tr', evs' := RunSelects(cfg, tr', evs', 0, [1], map[1 := Recovered(1), 2 := Recovered(2)], {1, 2});
    assert tr'[|evs'|].open == map[0 := GREEDY.(picked := Some([1]))];
  }

  lemma BothLocked(rows: Rows, open: map<TxId, Acquisition>)
    requires open == map[0 := GREEDY.(picked := Some([1]))]
    ensures LockedRows(open) == {1, 2}
  {
    assert Held(open[0]) == {1, 2};
    forall j: JobId ensures j in LockedRows(open) <==> j in {1, 2} { assert 0 in open && (j in {1, 2} ==> j in Held(open[0])); }
  }

  /** Transaction 1 finds both rows locked. */
  lemma WaitingSelects(cfg: Config, tr: seq<State>, evs: seq<Event>) returns (tr': seq<State>, evs': seq<Event>)
    requires cfg.timeout == 10 && IsRun(cfg, tr, evs)
    requires Scene(tr[|evs|], FirstRun(1), FirstRun(2), map[0 := GREEDY.(picked := Some([1]))], 10)
    ensures IsRun(cfg, tr', evs') && tr <= tr' && evs' == evs + [Begin(1, 2, 1), Select(1, [])] && 1 in tr'[|evs| + 1].open
    ensures Candidates(tr'[|evs| + 1], 1) == {}
    ensures Scene(tr'[|evs'|], FirstRun(1), FirstRun(2),
                  map[0 := GREEDY.(picked := Some([1])), 1 := WAITING.(picked := Some([]))], 10)
  {
    BothLocked(tr[|evs|].world.rows, tr[|evs|].open);
    tr', evs' := RunBegins(cfg, tr, evs, 1, 2, 1, {});
    var s := tr'[|evs'|];
    assert s.open - {1} == tr[|evs|].open;
    assert Candidates(s, 1) == {};
    tr', evs' := RunSelects(cfg, tr', evs', 1, [], Midway(s.world.rows, s.open[1]), {});
  }

  lemma SecondIsAvailable(cfg: Config, s: State)
    requires cfg.timeout == 10
    requires Scene(s, AcquiredJob(Recovered(1), 1, 10), Recovered(2), map[1 := WAITING.(picked := Some([]))], 10)
    ensures 2 in AvailableNow(cfg, s, 1)
  {
    assert s.open - {1} == map[];
    NoLocks();
    assert StaleNow(cfg, s, 1) == {};
    assert RecoveredNow(cfg, s, 1)[2] == Recovered(2);
  }

  /** Once transaction 0 has committed, the second row is there for transaction 1, which commits nothing. */
  lemma BothCommit(cfg: Config, tr: seq<State>, evs: seq<Event>) returns (tr': seq<State>, evs': seq<Event>)
    requires cfg.timeout == 10 && IsRun(cfg, tr, evs)
    requires Scene(tr[|evs|], FirstRun(1), FirstRun(2),
                   map[0 := GREEDY.(picked := Some([1])), 1 := WAITING.(picked := Some([]))], 10)
    ensures IsRun(cfg, tr', evs') && evs' == evs + [Commit(0), Commit(1)] && tr <= tr'
    ensures var s := tr'[|evs| + 1];
      1 in s.open && s.open[1] == WAITING.(picked := Some([])) && 2 in AvailableNow(cfg, s, 1)
    ensures 2 in tr'[|evs'|].world.rows && tr'[|evs'|].world.rows[2].status == Queued
  {
    GreedyCommits(tr[|evs|].world.rows);
    tr', evs' := RunCommits(cfg, tr, evs, 0);
    var s := tr'[|evs'|];
    assert s.open == map[1 := WAITING.(picked := Some([]))];
    SecondIsAvailable(cfg, s);
    tr', evs' := RunCommits(cfg, tr', evs', 1);
  }

  lemma ContendedRun(cfg: Config) returns (tr: seq<State>, evs: seq<Event>, start: nat)
    requires cfg.timeout == 10
    ensures IsRun(cfg, tr, evs) && |evs| == start + 6
    ensures evs[start..] == [Begin(0, 1, 1), Select(0, [1]), Begin(1, 2, 1), Select(1, []), Commit(0), Commit(1)]
    ensures Scene(tr[start], FirstRun(1), FirstRun(2), map[], 10)
    ensures forall n :: start + 3 <= n <= start + 5 ==> 1 in tr[n].open
    ensures Candidates(tr[start + 3], 1) == {} && 2 in AvailableNow(cfg, tr[start + 5], 1)
    ensures tr[start + 5].open[1] == WAITING.(picked := Some([]))
    ensures 2 in tr[|evs|].world.rows && tr[|evs|].world.rows[2].status == Queued
  {
    tr, evs := TwoJobsStale(cfg);
    start := |evs|;
    tr, evs := GreedySelects(cfg, tr, evs);
    tr, evs := WaitingSelects(cfg, tr, evs);
    tr, evs := BothCommit(cfg, tr, evs);
  }

  /**
   * A run in which an acquisition with a batch of one commits nothing although a row is available to it: one atomic
   * acquisition would have taken it, and no order of two atomic ones leaves what this run does.
   */
  lemma LeftoverIsMissed() returns (cfg: Config, tr: seq<State>, evs: seq<Event>, start: nat)
    ensures IsRun(cfg, tr, evs) && |evs| == start + 6
    ensures evs[start..] == [Begin(0, 1, 1), Select(0, [1]), Begin(1, 2, 1), Select(1, []), Commit(0), Commit(1)]
    ensures var s := tr[|evs| - 1];
      && 1 in s.open && s.open[1].limit == 1 && Picked(s.open[1]) == [] && 2 in AvailableNow(cfg, s, 1)
      && !AtomicallyLeaves(cfg, s, 1, tr[|evs|].world.rows)
    ensures var before, after := tr[start].world.rows, tr[|evs|].world.rows;
      && tr[start].open == map[] && tr[start].now == 10
      && !Serially(before, cfg.timeout, 10, 1, 2, after) && !Serially(before, cfg.timeout, 10, 2, 1, after)
  {
    cfg := Config(10, 1);
    tr, evs, start := ContendedRun(cfg);
    assert evs[start + 3] == evs[start..][3] && evs[start + 5] == evs[start..][5];
    CommitIsAtomicExactly(cfg, tr, evs, start + 3, start + 5, 1, []);
    assert 2 in Newcomers(cfg, tr[start + 3], tr[start + 5], 1);
    NotSerial(tr[start].world.rows, 1, 2, tr[|evs|].world.rows);
    NotSerial(tr[start].world.rows, 2, 1, tr[|evs|].world.rows);
  }

  lemma NotSerial(rows: Rows, first: WorkerId, second: WorkerId, after: Rows)
    requires rows == map[1 := FirstRun(1), 2 := FirstRun(2)] && 2 in after && after[2].status == Queued
    ensures !Serially(rows, 10, 10, first, second, after)
  {
    if Serially(rows, 10, 10, first, second, after) { BothAreTaken(rows, 10, 10, first, second, after); }
  }
}
