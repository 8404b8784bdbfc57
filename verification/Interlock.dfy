/** Validation and rental do not own the same account unless a late write reopens a job or revives a rental, and
    a requested re-validation is not lost. */
module Interlock {
  import opened Rows
  import opened Transitions
  import opened JobQueue
  import opened Protocol
  import Custody

  // ---- The queue on its own ---------------------------------------------------------------------

  predicate OneLiveJob(jobs: seq<Job>) {
    forall i, j :: 0 <= i < j < |jobs| && Live(jobs[i]) && Live(jobs[j]) ==> jobs[i].account != jobs[j].account
  }

  /** A job that keeps the account off the market: a running one, or a device login from its creation on. */
  predicate Owns(job: Job) { Live(job) && (job.status.Running? || job.kind.DeviceAuth?) }

  /** Nothing in `jobs'` owns an account that the same row did not own in `jobs`. */
  predicate NoNewOwner(jobs: seq<Job>, jobs': seq<Job>) {
    forall k :: 0 <= k < |jobs'| && Owns(jobs'[k]) ==> k < |jobs| && Owns(jobs[k]) && jobs[k].account == jobs'[k].account
  }

  lemma EnqueueKeeps(jobs: seq<Job>, a: AccountId, priority: Priority, kind: JobKind)
    requires OneLiveJob(jobs)
    ensures OneLiveJob(Enqueued(jobs, a, priority, kind))
    ensures !kind.DeviceAuth? ==> NoNewOwner(jobs, Enqueued(jobs, a, priority, kind))
  {
  }

  lemma ExclusiveKeeps(jobs: seq<Job>, a: AccountId, priority: Priority, kind: JobKind)
    requires OneLiveJob(jobs)
    ensures OneLiveJob(JobQueue.Exclusive(jobs, a, priority, kind))
    ensures forall k :: 0 <= k < |jobs| && Live(JobQueue.Exclusive(jobs, a, priority, kind)[k]) ==>
              JobQueue.Exclusive(jobs, a, priority, kind)[k] == jobs[k] && jobs[k].account != a
  {
  }

  /** Rows rewritten one by one, none revived and none moved to another account. */
  predicate OnlyRetires(jobs: seq<Job>, jobs': seq<Job>) {
    |jobs'| == |jobs| && forall k :: 0 <= k < |jobs| ==> jobs'[k].account == jobs[k].account && (Live(jobs'[k]) ==> Live(jobs[k]))
  }

  lemma RewrittenKeeps(jobs: seq<Job>, jobs': seq<Job>)
    requires OneLiveJob(jobs) && OnlyRetires(jobs, jobs')
    ensures OneLiveJob(jobs')
  {
  }

  // ---- Who may start holding an account ---------------------------------------------------------

  /** The rental still runs on the account or has reserved one; a rental that waits for its logout, or was
      revived, holds its account without being able to do anything with it but log out. */
  predicate HoldsFirmly(r: Rental, a: AccountId) { Holds(r, a) && (r.status.Active? || r.target.Some?) }

  /** A transaction makes its rental hold no account except those it held and those without a check; the late
      write that revives a rental is the exception, and even that rental does not hold firmly. */
  ghost predicate HoldsUnchecked(s: State, a: Action, touch: Touch) {
    touch.Rows? && touch.rows.rental.Some? ==>
      forall x :: Holds(touch.rows.rental.value, x) && Checked(s.db, x) ==>
        && (Revives(s, a) || (touch.o in s.db.rentals && Holds(s.db.rentals[touch.o], x)))
        && (HoldsFirmly(touch.rows.rental.value, x) ==> touch.o in s.db.rentals && HoldsFirmly(s.db.rentals[touch.o], x))
  }

  lemma EndingHolds(s: State, a: Action)
    requires Enabled(s, a) && Ending(a)
    ensures HoldsUnchecked(s, a, RevokingRows(s, a))
  {
  }

  lemma RevokingHolds(s: State, a: Action)
    requires Enabled(s, a) && Revoking(a)
    ensures HoldsUnchecked(s, a, RevokingRows(s, a))
  {
    if Ending(a) {
      EndingHolds(s, a);
    }
  }

  lemma BoundingHolds(s: State, a: Action)
    requires Enabled(s, a) && Bounding(a)
    ensures HoldsUnchecked(s, a, DeliveringRows(s, a))
  {
  }

  lemma DeliveringHolds(s: State, a: Action)
    requires Enabled(s, a) && Delivering(a)
    ensures HoldsUnchecked(s, a, DeliveringRows(s, a))
  {
    if Bounding(a) {
      BoundingHolds(s, a);
    }
  }

  lemma RecordingHolds(s: State, a: Action)
    requires Enabled(s, a) && Recording(a)
    ensures HoldsUnchecked(s, a, RecordingRows(s, a))
  {
  }

  lemma RememberingHolds(s: State, a: Action)
    requires Custody.Inv(s) && Enabled(s, a) && Remembering(a)
    ensures HoldsUnchecked(s, a, RememberingRows(s, a))
  {
    if a.CheckWrite? {
      assert Custody.RentalOk(s, s.workers[a.w].order);
    }
  }

  lemma StepHolds(s: State, a: Action)
    requires Custody.Inv(s) && Enabled(s, a)
    ensures HoldsUnchecked(s, a, Touched(s, a))
  {
    if Revoking(a) {
      RevokingHolds(s, a);
    } else if Delivering(a) {
      DeliveringHolds(s, a);
    } else if Remembering(a) {
      RememberingHolds(s, a);
    } else if Recording(a) {
      RecordingHolds(s, a);
    }
  }

  ghost predicate FirmlyBusy(db: Tables, a: AccountId) {
    exists o :: o in db.rentals && HoldsFirmly(db.rentals[o], a)
  }

  /** No account with a live job becomes held, unless a rental is revived, and none becomes firmly held. */
  lemma BusyOnlyWhenUnchecked(s: State, t: State, a: Action, touch: Touch, x: AccountId)
    requires WritesOnly(s, t, a, touch) && HoldsUnchecked(s, a, touch) && Checked(s.db, x)
    ensures !Busy(s.db, x) && !Revives(s, a) ==> !Busy(t.db, x)
    ensures !FirmlyBusy(s.db, x) ==> !FirmlyBusy(t.db, x)
  {
  }

  // ---- Job rows and the workers that look them up by id ------------------------------------------

  /** Job rows are never dropped, moved to another account or given another kind. */
  predicate RowsStay(jobs: seq<Job>, jobs': seq<Job>) {
    |jobs| <= |jobs'| && forall k :: 0 <= k < |jobs| ==> jobs'[k].account == jobs[k].account && jobs'[k].kind == jobs[k].kind
  }

  /** The device login's poll works on a device login. */
  predicate PollsDevice(jobs: seq<Job>, worker: Worker) {
    worker.Poller? ==> worker.job < |jobs| && jobs[worker.job].kind.DeviceAuth?
  }

  ghost predicate Addressed(s: State) { forall w :: w in s.workers ==> PollsDevice(s.db.jobs, s.workers[w]) }

  /** No poller is started, and the rows stay. */
  ghost predicate NoPollers(s: State, t: State) {
    forall w :: w in t.workers && t.workers[w].Poller? ==> w in s.workers && t.workers[w] == s.workers[w]
  }

  lemma EnqueuedStays(jobs: seq<Job>, a: AccountId, priority: Priority, kind: JobKind)
    ensures RowsStay(jobs, Enqueued(jobs, a, priority, kind))
  {
  }

  lemma EndingJobs(s: State, a: Action)
    requires Enabled(s, a) && Ending(a)
    ensures RowsStay(s.db.jobs, RevokingStep(s, a).db.jobs) && NoPollers(s, RevokingStep(s, a))
  {
    EnqueuedStays(s.db.jobs, s.workers[a.w].claim.account, RefreshRecover, RecoverRefresh);
  }

  lemma RevokingJobs(s: State, a: Action)
    requires Enabled(s, a) && Revoking(a)
    ensures RowsStay(s.db.jobs, RevokingStep(s, a).db.jobs) && NoPollers(s, RevokingStep(s, a))
  {
    if Ending(a) {
      EndingJobs(s, a);
    } else {
      assert RevokingStep(s, a).db.jobs == s.db.jobs;
    }
  }

  lemma MovedJobs(s: State, a: Action)
    requires Enabled(s, a) && a.ReachBoundaryAgain?
    ensures DeliveringStep(s, a).db.jobs == s.db.jobs && NoPollers(s, DeliveringStep(s, a))
  {
  }

  lemma BoundingJobs(s: State, a: Action)
    requires Enabled(s, a) && a.ReachBoundary?
    ensures DeliveringStep(s, a).db.jobs == s.db.jobs && NoPollers(s, DeliveringStep(s, a))
  {
  }

  lemma DeliveringJobs(s: State, a: Action)
    requires Enabled(s, a) && Delivering(a)
    ensures DeliveringStep(s, a).db.jobs == s.db.jobs && NoPollers(s, DeliveringStep(s, a))
  {
    if a.ReachBoundary? {
      BoundingJobs(s, a);
    } else if a.ReachBoundaryAgain? {
      MovedJobs(s, a);
    }
  }

  lemma QueueingJobs(s: State, a: Action)
    requires Enabled(s, a) && Queueing(a)
    ensures RowsStay(s.db.jobs, QueueingStep(s, a).db.jobs) && NoPollers(s, QueueingStep(s, a))
  {
    QueueingIsQuiet(s, a);
  }

  lemma RecordingJobs(s: State, a: Action)
    requires Enabled(s, a) && Recording(a)
    ensures RowsStay(s.db.jobs, RecordingStep(s, a).db.jobs) && NoPollers(s, RecordingStep(s, a))
  {
    if a.ExpirySettle? {
      EnqueuedStays(s.db.jobs, s.workers[a.w].claim.account, RefreshRecover, RecoverRefresh);
    } else {
      assert RecordingStep(s, a).db.jobs == s.db.jobs;
    }
  }

  lemma RememberingJobs(s: State, a: Action)
    requires Enabled(s, a) && Remembering(a)
    ensures RowsStay(s.db.jobs, RememberingStep(s, a).db.jobs)
    ensures !a.PollRead? ==> NoPollers(s, RememberingStep(s, a))
  {
    if !a.PollWrite? && !a.CancelWrite? {
      assert RememberingStep(s, a).db.jobs == s.db.jobs;
    }
  }

  lemma StepJobs(s: State, a: Action)
    requires Enabled(s, a) && !a.PollRead?
    ensures RowsStay(s.db.jobs, Step(s, a).db.jobs) && NoPollers(s, Step(s, a))
  {
    if Revoking(a) {
      RevokingJobs(s, a);
    } else if Delivering(a) {
      DeliveringJobs(s, a);
    } else if Queueing(a) {
      QueueingJobs(s, a);
    } else if Remembering(a) {
      RememberingJobs(s, a);
    } else {
      RecordingJobs(s, a);
    }
  }

  lemma AddressedFrom(s: State, t: State)
    requires Addressed(s) && RowsStay(s.db.jobs, t.db.jobs) && NoPollers(s, t)
    ensures Addressed(t)
  {
    forall w | w in t.workers
      ensures PollsDevice(t.db.jobs, t.workers[w])
    {
      assert t.workers[w].Poller? ==> PollsDevice(s.db.jobs, s.workers[w]);
    }
  }

  lemma PollReadAddresses(s: State, w: WorkerId, k: JobId)
    requires Addressed(s) && Enabled(s, PollRead(w, k))
    ensures Addressed(Enter(s, w, Poller(k)))
  {
    var t := Enter(s, w, Poller(k));
    forall v | v in t.workers
      ensures PollsDevice(t.db.jobs, t.workers[v])
    {
      assert v != w ==> PollsDevice(s.db.jobs, s.workers[v]);
    }
  }

  lemma StepAddresses(s: State, a: Action)
    requires Addressed(s) && Enabled(s, a)
    ensures Addressed(Step(s, a))
  {
    if a.PollRead? {
      PollReadAddresses(s, a.w, a.k);
    } else {
      StepJobs(s, a);
      AddressedFrom(s, Step(s, a));
    }
  }

  // ---- The invariant ----------------------------------------------------------------------------

  /** Holds as long as no late write reopens a job that was closed meanwhile. */
  ghost predicate Interlocked(s: State) {
    && OneLiveJob(s.db.jobs)
    && forall k :: 0 <= k < |s.db.jobs| && Owns(s.db.jobs[k]) ==> !FirmlyBusy(s.db, s.db.jobs[k].account)
  }

  /** Holds as long as no late write revives an ended rental either. */
  ghost predicate Apart(s: State) {
    forall k :: 0 <= k < |s.db.jobs| && Owns(s.db.jobs[k]) ==> !Busy(s.db, s.db.jobs[k].account)
  }

  /** Actions outside the queue's own only ever enqueue ordinary checks. */
  ghost predicate EnqueuesOnly(s: State, t: State) { OneLiveJob(t.db.jobs) && NoNewOwner(s.db.jobs, t.db.jobs) }

  lemma RevokingEnqueues(s: State, a: Action)
    requires Enabled(s, a) && Revoking(a) && OneLiveJob(s.db.jobs)
    ensures EnqueuesOnly(s, RevokingStep(s, a))
  {
    if a.RefundFinish? || a.ReplaceFinish? {
      EnqueueKeeps(s.db.jobs, s.workers[a.w].claim.account, RefreshRecover, RecoverRefresh);
    } else {
      assert RevokingStep(s, a).db.jobs == s.db.jobs;
    }
  }

  lemma DeliveringEnqueues(s: State, a: Action)
    requires Enabled(s, a) && Delivering(a) && OneLiveJob(s.db.jobs)
    ensures EnqueuesOnly(s, DeliveringStep(s, a))
  {
    assert DeliveringStep(s, a).db.jobs == s.db.jobs;
  }

  lemma RecordingEnqueues(s: State, a: Action)
    requires Enabled(s, a) && Recording(a) && OneLiveJob(s.db.jobs)
    ensures EnqueuesOnly(s, RecordingStep(s, a))
  {
    if a.ExpirySettle? {
      EnqueueKeeps(s.db.jobs, s.workers[a.w].claim.account, RefreshRecover, RecoverRefresh);
    } else {
      assert RecordingStep(s, a).db.jobs == s.db.jobs;
    }
  }

  lemma LateJobWrite(s: State, a: Action)
    requires Addressed(s) && Enabled(s, a) && (a.PollWrite? || a.CancelWrite?) && !Reopens(s, a) && OneLiveJob(s.db.jobs)
    ensures EnqueuesOnly(s, RememberingStep(s, a))
  {
    assert PollsDevice(s.db.jobs, s.workers[a.w]);
    RewrittenKeeps(s.db.jobs, RememberingStep(s, a).db.jobs);
  }

  /** A late write to a job that is still live makes no new owner: a poll has a device login, which owned its
      account already, and a cancelled check returns to the queue. */
  lemma RememberingEnqueues(s: State, a: Action)
    requires Addressed(s) && Enabled(s, a) && Remembering(a) && !Reopens(s, a) && OneLiveJob(s.db.jobs)
    ensures EnqueuesOnly(s, RememberingStep(s, a))
  {
    if a.PollWrite? || a.CancelWrite? {
      LateJobWrite(s, a);
    } else {
      assert RememberingStep(s, a).db.jobs == s.db.jobs;
    }
  }

  lemma StepEnqueues(s: State, a: Action)
    requires Addressed(s) && Enabled(s, a) && !Queueing(a) && !Reopens(s, a) && OneLiveJob(s.db.jobs)
    ensures EnqueuesOnly(s, Step(s, a))
  {
    if Revoking(a) {
      RevokingEnqueues(s, a);
    } else if Delivering(a) {
      DeliveringEnqueues(s, a);
    } else if Remembering(a) {
      RememberingEnqueues(s, a);
    } else {
      RecordingEnqueues(s, a);
    }
  }

  lemma OwnerIsChecked(db: Tables, k: JobId)
    requires k < |db.jobs| && Owns(db.jobs[k])
    ensures Checked(db, db.jobs[k].account)
  {
    assert LiveFor(db.jobs[k], db.jobs[k].account);
  }

  lemma InterlockFrom(s: State, t: State, a: Action, touch: Touch)
    requires Interlocked(s) && EnqueuesOnly(s, t) && WritesOnly(s, t, a, touch) && HoldsUnchecked(s, a, touch)
    ensures Interlocked(t)
    ensures Apart(s) && !Revives(s, a) ==> Apart(t)
  {
    forall k | 0 <= k < |t.db.jobs| && Owns(t.db.jobs[k])
      ensures !FirmlyBusy(t.db, t.db.jobs[k].account)
      ensures Apart(s) && !Revives(s, a) ==> !Busy(t.db, t.db.jobs[k].account)
    {
      OwnerIsChecked(s.db, k);
      BusyOnlyWhenUnchecked(s, t, a, touch, s.db.jobs[k].account);
    }
  }

  /** No row becomes an owner unless its account is free, and no account gets a second live job. */
  predicate OnlyFreeOwners(jobs: seq<Job>, jobs': seq<Job>, free: AccountId -> bool) {
    OneLiveJob(jobs')
    && forall k :: 0 <= k < |jobs'| && Owns(jobs'[k]) ==>
         (k < |jobs| && Owns(jobs[k]) && jobs[k].account == jobs'[k].account) || free(jobs'[k].account)
  }

  lemma EnqueueingKeeps(s: State, a: Action)
    requires OneLiveJob(s.db.jobs) && Enabled(s, a) && (a.JobEnqueue? || a.JobExclusive?)
    ensures OnlyFreeOwners(s.db.jobs, QueueingStep(s, a).db.jobs, (x: AccountId) => !Busy(s.db, x))
  {
    if a.JobEnqueue? {
      EnqueueKeeps(s.db.jobs, a.a, a.priority, a.kind);
    } else if !Conflicts(s.db.jobs, a.a, a.now) {
      ExclusiveKeeps(s.db.jobs, a.a, a.priority, a.kind);
    }
  }

  /** The end of a job may meet any row; it closes it. */
  lemma RewritingKeeps(s: State, a: Action)
    requires OneLiveJob(s.db.jobs) && Enabled(s, a) && Queueing(a) && !a.JobEnqueue? && !a.JobExclusive?
    ensures OnlyFreeOwners(s.db.jobs, QueueingStep(s, a).db.jobs, (x: AccountId) => !Busy(s.db, x))
  {
    assert OnlyRetires(s.db.jobs, QueueingStep(s, a).db.jobs);
    RewrittenKeeps(s.db.jobs, QueueingStep(s, a).db.jobs);
  }

  lemma SameHolders(db: Tables, db': Tables)
    requires db'.rentals == db.rentals
    ensures forall x :: Busy(db', x) == Busy(db, x) && FirmlyBusy(db', x) == FirmlyBusy(db, x)
    ensures forall x :: FirmlyBusy(db, x) ==> Busy(db, x)
  {
  }

  lemma QueueingKeeps(s: State, a: Action)
    requires Interlocked(s) && Enabled(s, a) && Queueing(a)
    ensures Interlocked(QueueingStep(s, a))
    ensures Apart(s) ==> Apart(QueueingStep(s, a))
  {
    QueueingIsQuiet(s, a);
    if a.JobEnqueue? || a.JobExclusive? {
      EnqueueingKeeps(s, a);
    } else {
      RewritingKeeps(s, a);
    }
    SameHolders(s.db, QueueingStep(s, a).db);
  }

  lemma ElsewhereKeeps(s: State, a: Action)
    requires Custody.Inv(s) && Addressed(s) && Interlocked(s) && Enabled(s, a) && !Queueing(a) && !Reopens(s, a)
    ensures Interlocked(Step(s, a))
    ensures Apart(s) && !Revives(s, a) ==> Apart(Step(s, a))
  {
    TouchedIsWritten(s, a);
    StepHolds(s, a);
    StepEnqueues(s, a);
    InterlockFrom(s, Step(s, a), a, Touched(s, a));
  }

  lemma StepKeeps(s: State, a: Action)
    requires Custody.Inv(s) && Addressed(s) && Interlocked(s) && Enabled(s, a) && !Reopens(s, a)
    ensures Interlocked(Step(s, a))
    ensures Apart(s) && !Revives(s, a) ==> Apart(Step(s, a))
  {
    if Queueing(a) {
      assert Step(s, a) == QueueingStep(s, a);
      QueueingKeeps(s, a);
    } else {
      ElsewhereKeeps(s, a);
    }
  }

  // ---- What breaks it ---------------------------------------------------------------------------

  ghost predicate OtherLive(jobs: seq<Job>, k: JobId)
    requires k < |jobs|
  {
    exists j :: 0 <= j < |jobs| && j != k && LiveFor(jobs[j], jobs[k].account)
  }

  /** The write reopens a closed job of an account that has another live job by now. */
  ghost predicate ReopensSecond(s: State, a: Action) { Reopens(s, a) && OtherLive(s.db.jobs, s.workers[a.w].job) }

  /** The write makes a closed job own its account again. */
  predicate ReopensOwner(s: State, a: Action) {
    Reopens(s, a) && (a.PollWrite? || s.db.jobs[s.workers[a.w].job].kind.DeviceAuth?)
  }

  ghost predicate ReopensBusy(s: State, a: Action) {
    ReopensOwner(s, a) && Busy(s.db, s.db.jobs[s.workers[a.w].job].account)
  }

  ghost predicate ReopensFirmlyBusy(s: State, a: Action) {
    ReopensOwner(s, a) && FirmlyBusy(s.db, s.db.jobs[s.workers[a.w].job].account)
  }

  ghost predicate Owned(jobs: seq<Job>, a: AccountId) {
    exists k :: 0 <= k < |jobs| && Owns(jobs[k]) && jobs[k].account == a
  }

  /** The write brings the rental back on an account that a check owns by now. */
  ghost predicate RevivesOwned(s: State, a: Action) {
    Revives(s, a) && Owned(s.db.jobs, s.db.rentals[s.workers[a.w].order].account)
  }

  /** The exact condition: an action gives an account a second live job if and only if it is the write of a
      cancelled check or of a poll to a job that was closed since it was looked up, while the account has
      another live job. */
  lemma SecondJobExactly(s: State, a: Action)
    requires Addressed(s) && OneLiveJob(s.db.jobs) && Enabled(s, a)
    ensures OneLiveJob(Step(s, a).db.jobs) <==> !ReopensSecond(s, a)
  {
    if Reopens(s, a) {
      ReopenedJobs(s, a);
    } else {
      StaysSingle(s, a);
    }
  }

  lemma ReopenedJobs(s: State, a: Action)
    requires OneLiveJob(s.db.jobs) && Enabled(s, a) && Reopens(s, a)
    ensures OneLiveJob(Step(s, a).db.jobs) <==> !OtherLive(s.db.jobs, s.workers[a.w].job)
  {
    assert Step(s, a) == RememberingStep(s, a);
    ReopenedTwice(s.db.jobs, RememberingStep(s, a).db.jobs, s.workers[a.w].job);
  }

  lemma StaysSingle(s: State, a: Action)
    requires Addressed(s) && OneLiveJob(s.db.jobs) && Enabled(s, a) && !Reopens(s, a)
    ensures OneLiveJob(Step(s, a).db.jobs)
  {
    if a.JobEnqueue? || a.JobExclusive? {
      EnqueueingKeeps(s, a);
    } else if Queueing(a) {
      RewritingKeeps(s, a);
    } else {
      StepEnqueues(s, a);
    }
  }

  lemma ReopenedTwice(jobs: seq<Job>, jobs': seq<Job>, k: JobId)
    requires OneLiveJob(jobs) && k < |jobs| == |jobs'| && !Live(jobs[k]) && Live(jobs'[k]) && jobs'[k].account == jobs[k].account
    requires forall j :: 0 <= j < |jobs| && j != k ==> jobs'[j] == jobs[j]
    ensures OneLiveJob(jobs') <==> !OtherLive(jobs, k)
  {
    if OtherLive(jobs, k) {
      var j :| 0 <= j < |jobs| && j != k && LiveFor(jobs[j], jobs[k].account);
      assert jobs'[j] == jobs[j];
      if j < k {
        assert jobs'[j].account == jobs'[k].account;
      } else {
        assert jobs'[k].account == jobs'[j].account;
      }
    } else {
      forall i, j | 0 <= i < j < |jobs'| && Live(jobs'[i]) && Live(jobs'[j])
        ensures jobs'[i].account != jobs'[j].account
      {
        assert i != k ==> jobs'[i] == jobs[i];
        assert j != k ==> jobs'[j] == jobs[j];
        assert i == k ==> !LiveFor(jobs[j], jobs[k].account);
        assert j == k ==> !LiveFor(jobs[i], jobs[k].account);
      }
    }
  }

  lemma RevivedApart(db: Tables, db': Tables, o: OrderId)
    requires o in db.rentals && db'.jobs == db.jobs && db.rentals[o].target.None?
    requires db'.rentals == db.rentals[o := db.rentals[o].(status := ExpiryPending)]
    requires forall k :: 0 <= k < |db.jobs| && Owns(db.jobs[k]) ==> !Busy(db, db.jobs[k].account)
    ensures (forall k :: 0 <= k < |db.jobs| && Owns(db.jobs[k]) ==> !Busy(db', db.jobs[k].account))
            <==> !Owned(db.jobs, db.rentals[o].account)
  {
    var a := db.rentals[o].account;
    assert Holds(db'.rentals[o], a);
    forall k | 0 <= k < |db.jobs| && Owns(db.jobs[k])
      ensures Busy(db', db.jobs[k].account) <==> db.jobs[k].account == a
    {
      assert !Busy(db, db.jobs[k].account);
    }
  }

  /** Job `k` comes back to life: the old owners are as they were. */
  predicate Reopened(db: Tables, db': Tables, k: JobId)
    requires k < |db.jobs|
  {
    && !Owns(db.jobs[k]) && db'.rentals == db.rentals && |db'.jobs| == |db.jobs| && db'.jobs[k].account == db.jobs[k].account
    && forall j :: 0 <= j < |db.jobs| && j != k ==> db'.jobs[j] == db.jobs[j]
  }

  lemma ReopenedRow(s: State, a: Action)
    requires Enabled(s, a) && Reopens(s, a)
    ensures var k, t := s.workers[a.w].job, Step(s, a);
            && Reopened(s.db, t.db, k) && (Owns(t.db.jobs[k]) <==> ReopensOwner(s, a))
  {
    assert Step(s, a) == RememberingStep(s, a);
  }

  /** The exact condition: an action puts a check and a rental on one account if and only if it revives an ended
      rental on an account that a check owns by now, or reopens a device login, or polls a closed job, of an
      account that a rental holds by now. */
  lemma ApartExactly(s: State, a: Action)
    requires Custody.Inv(s) && Addressed(s) && OneLiveJob(s.db.jobs) && Apart(s) && Enabled(s, a)
    ensures Apart(Step(s, a)) <==> !RevivesOwned(s, a) && !ReopensBusy(s, a)
  {
    if Revives(s, a) {
      RevivingIsApart(s, a);
    } else if Reopens(s, a) {
      ReopeningIsApart(s, a);
    } else {
      SameHolders(s.db, s.db);
      StepKeeps(s, a);
    }
  }

  lemma RevivingIsApart(s: State, a: Action)
    requires Custody.Inv(s) && Apart(s) && Enabled(s, a) && Revives(s, a)
    ensures Apart(Step(s, a)) <==> !RevivesOwned(s, a)
  {
    var o := s.workers[a.w].order;
    assert Custody.RentalOk(s, o);
    assert Step(s, a) == RememberingStep(s, a);
    RevivedApart(s.db, RememberingStep(s, a).db, o);
  }

  lemma ReopeningIsApart(s: State, a: Action)
    requires Apart(s) && Enabled(s, a) && Reopens(s, a)
    ensures Apart(Step(s, a)) <==> !ReopensBusy(s, a)
  {
    ReopenedRow(s, a);
    ReopenedApart(s, Step(s, a), s.workers[a.w].job);
  }

  lemma ReopenedApart(s: State, t: State, k: JobId)
    requires k < |s.db.jobs| && Reopened(s.db, t.db, k)
    ensures Apart(s) ==> (Apart(t) <==> !(Owns(t.db.jobs[k]) && Busy(s.db, s.db.jobs[k].account)))
  {
    SameHolders(s.db, t.db);
  }

  lemma ReopenedFirm(s: State, t: State, k: JobId)
    requires k < |s.db.jobs| && Reopened(s.db, t.db, k) && Interlocked(s) && OneLiveJob(t.db.jobs)
    ensures Interlocked(t) <==> !(Owns(t.db.jobs[k]) && FirmlyBusy(s.db, s.db.jobs[k].account))
  {
    SameHolders(s.db, t.db);
  }

  /** The same for rentals that run or have reserved an account: only reopened jobs can break it. */
  lemma InterlockedExactly(s: State, a: Action)
    requires Custody.Inv(s) && Addressed(s) && Interlocked(s) && Enabled(s, a)
    ensures Interlocked(Step(s, a)) <==> !ReopensSecond(s, a) && !ReopensFirmlyBusy(s, a)
  {
    SecondJobExactly(s, a);
    if Reopens(s, a) {
      if OneLiveJob(Step(s, a).db.jobs) {
        ReopenedRow(s, a);
        ReopenedFirm(s, Step(s, a), s.workers[a.w].job);
      }
    } else {
      StepKeeps(s, a);
    }
  }

  // ---- Over whole runs --------------------------------------------------------------------------

  lemma {:induction false} RunAddresses(states: seq<State>, actions: seq<Action>, n: nat)
    requires IsRun(states, actions) && n <= |actions|
    ensures Addressed(states[n])
  {
    if n > 0 {
      RunAddresses(states, actions, n - 1);
      StepAddresses(states[n - 1], actions[n - 1]);
    }
  }

  ghost predicate AlwaysSingle(states: seq<State>, n: nat)
    requires n < |states|
  {
    forall i :: 0 <= i <= n ==> OneLiveJob(states[i].db.jobs)
  }

  ghost predicate NoSecond(states: seq<State>, actions: seq<Action>, n: nat)
    requires n <= |actions| && n <= |states|
  {
    forall i :: 0 <= i < n ==> !ReopensSecond(states[i], actions[i])
  }

  /** An account has at most one live job in every state of a run, whatever enqueued, superseded, recovered or
      failed the jobs, if and only if no write of the run reopens a closed job beside a live one. */
  lemma {:induction false} OneJobPerAccount(states: seq<State>, actions: seq<Action>, n: nat)
    requires IsRun(states, actions) && n <= |actions|
    ensures AlwaysSingle(states, n) <==> NoSecond(states, actions, n)
  {
    if n > 0 {
      OneJobPerAccount(states, actions, n - 1);
      assert NoSecond(states, actions, n) <==> NoSecond(states, actions, n - 1) && !ReopensSecond(states[n - 1], actions[n - 1]);
      assert AlwaysSingle(states, n) <==> AlwaysSingle(states, n - 1) && OneLiveJob(states[n].db.jobs);
      if AlwaysSingle(states, n - 1) {
        RunAddresses(states, actions, n - 1);
        SecondJobExactly(states[n - 1], actions[n - 1]);
      }
    }
  }

  /** One live job for each account, and no check on an account that a rental holds. */
  ghost predicate Sound(s: State) { OneLiveJob(s.db.jobs) && Apart(s) }

  /** The writes that break it. */
  ghost predicate Disturbs(s: State, a: Action) { ReopensSecond(s, a) || ReopensBusy(s, a) || RevivesOwned(s, a) }

  lemma SoundExactly(s: State, a: Action)
    requires Custody.Inv(s) && Addressed(s) && Sound(s) && Enabled(s, a)
    ensures Sound(Step(s, a)) <==> !Disturbs(s, a)
  {
    SecondJobExactly(s, a);
    ApartExactly(s, a);
  }

  ghost predicate AlwaysSound(states: seq<State>, n: nat)
    requires n < |states|
  {
    forall i :: 0 <= i <= n ==> Sound(states[i])
  }

  ghost predicate NoneDisturbs(states: seq<State>, actions: seq<Action>, n: nat)
    requires n <= |actions| && n <= |states|
  {
    forall i :: 0 <= i < n ==> !Disturbs(states[i], actions[i])
  }

  lemma SoundStep(states: seq<State>, actions: seq<Action>, n: nat)
    requires IsRun(states, actions) && n < |actions| && Sound(states[n])
    ensures Sound(states[n + 1]) <==> !Disturbs(states[n], actions[n])
  {
    RunAddresses(states, actions, n);
    Custody.RunKeeps(states, actions, n);
    SoundExactly(states[n], actions[n]);
  }

  /** In every state of a run no account has two live jobs, no check runs on an account that a rental occupies or
      that a replacement has reserved, and a device login that was handed out owns its account until it ends,
      whether it is running or not, if and only if no write of the run reopens a closed job beside a live one,
      reopens an owner of an account that is held, or revives a rental under a check. */
  lemma {:induction false} NoCheckOfHeldAccount(states: seq<State>, actions: seq<Action>, n: nat)
    requires IsRun(states, actions) && n <= |actions|
    ensures AlwaysSound(states, n) <==> NoneDisturbs(states, actions, n)
  {
    if n > 0 {
      NoCheckOfHeldAccount(states, actions, n - 1);
      assert NoneDisturbs(states, actions, n) <==> NoneDisturbs(states, actions, n - 1) && !Disturbs(states[n - 1], actions[n - 1]);
      assert AlwaysSound(states, n) <==> AlwaysSound(states, n - 1) && Sound(states[n]);
      if AlwaysSound(states, n - 1) {
        SoundStep(states, actions, n - 1);
      }
    }
  }

  /** No worker of the run reopened a job beside a live one or an owner of an account that a rental runs on. */
  ghost predicate NoneReopened(states: seq<State>, actions: seq<Action>, n: nat)
    requires n <= |actions| && n <= |states|
  {
    forall i :: 0 <= i < n ==> !ReopensSecond(states[i], actions[i]) && !ReopensFirmlyBusy(states[i], actions[i])
  }

  lemma {:induction false} RunKeeps(states: seq<State>, actions: seq<Action>, n: nat)
    requires IsRun(states, actions) && n <= |actions| && NoneReopened(states, actions, n)
    ensures Interlocked(states[n])
  {
    if n > 0 {
      RunKeeps(states, actions, n - 1);
      Custody.RunKeeps(states, actions, n - 1);
      RunAddresses(states, actions, n - 1);
      InterlockedExactly(states[n - 1], actions[n - 1]);
    }
  }

  /** Hence the result a running check writes to its account row never breaks the discipline under which
      released accounts are clean, whatever that result is, revived rentals or not. */
  lemma ChecksAreDisciplined(states: seq<State>, actions: seq<Action>, n: nat, k: JobId, row: Account)
    requires IsRun(states, actions) && n <= |actions| && NoneReopened(states, actions, n)
    requires k < |states[n].db.jobs| && states[n].db.jobs[k].status.Running?
    ensures Disciplined(states[n], AccountWrite(states[n].db.jobs[k].account, row))
  {
    RunKeeps(states, actions, n);
    var db, a := states[n].db, states[n].db.jobs[k].account;
    assert Owns(db.jobs[k]) && !FirmlyBusy(db, a);
    assert forall o :: o in db.rentals ==> !HoldsFirmly(db.rentals[o], a);
  }

  // ---- Requested re-validation (refresh_worker.py, account_device_auth.py) -----------------------

  /** A job kind whose run ends in a validation of the stored credentials.  A recovery does so only if the
      account has recovery attempts `left`; else the worker fails it unrun. */
  predicate Validating(kind: JobKind, left: bool) { kind.FullValidation? || (kind.RecoverRefresh? && left) }

  ghost predicate WillRevalidate(jobs: seq<Job>, a: AccountId, left: bool) {
    exists k :: 0 <= k < |jobs| && LiveFor(jobs[k], a) && Validating(jobs[k].kind, left)
  }

  /** The end of job `k`: its row is closed, a limit check that lost its token adds a recovery, and the
      requested follow-up is enqueued. */
  function HandedOn(jobs: seq<Job>, k: JobId, ok: bool, recover: bool): seq<Job>
    requires k < |jobs|
  {
    var a := jobs[k].account;
    var closed := Finished(jobs, k, ok);
    Enqueued(if recover then Enqueued(closed, a, RefreshRecover, RecoverRefresh) else closed, a, ManualCheck, FullValidation)
  }

  /** The end of a job in plain values: its row is closed; a recovery is queued if it lost its token, and then a full
      validation if one was requested. */
  ghost predicate Concludes(jobs: seq<Job>, mid: seq<Job>, after: seq<Job>, k: JobId, ok: bool, recover: bool, requested: bool)
    requires k < |jobs|
  {
    var a, closed := jobs[k].account, jobs[k := jobs[k].(status := if ok then Done else JobFailed)];
    && (if recover then Queues(closed, mid, a, RefreshRecover, RecoverRefresh) else mid == closed)
    && (if requested then Queues(mid, after, a, ManualCheck, FullValidation) else after == mid)
  }

  lemma HandedOnLaw(jobs: seq<Job>, k: JobId, ok: bool, recover: bool)
    requires k < |jobs|
    ensures exists mid :: Concludes(jobs, mid, HandedOn(jobs, k, ok, recover), k, ok, recover, true)
  {
    var a, closed := jobs[k].account, Finished(jobs, k, ok);
    var mid := if recover then Enqueued(closed, a, RefreshRecover, RecoverRefresh) else closed;
    EnqueuedLaw(closed, a, RefreshRecover, RecoverRefresh);
    EnqueuedLaw(mid, a, ManualCheck, FullValidation);
    assert Concludes(jobs, mid, HandedOn(jobs, k, ok, recover), k, ok, recover, true);
  }

  /** A job the follow-up cannot displace: it runs, or it waits and is as urgent as what is queued first. */
  ghost predicate Stays(job: Job, recover: bool) {
    || job.status == Running
    || (job.status == Queued && (job.priority == New || job.priority == RefreshRecover || (job.priority == ManualCheck && !recover)))
  }

  ghost predicate OtherStays(jobs: seq<Job>, k: JobId, recover: bool)
    requires k < |jobs|
  {
    exists j :: 0 <= j < |jobs| && j != k && jobs[j].account == jobs[k].account && Stays(jobs[j], recover)
  }

  /** The flag may be cleared exactly when the job that survives validates: another job of the account that the
      follow-up cannot displace, else the recovery if one was added, else the follow-up itself. */
  lemma RerunExactly(jobs: seq<Job>, k: JobId, ok: bool, recover: bool, left: bool)
    requires OneLiveJob(jobs) && k < |jobs|
    ensures WillRevalidate(HandedOn(jobs, k, ok, recover), jobs[k].account, left)
            <==> if OtherStays(jobs, k, recover)
                 then forall j :: 0 <= j < |jobs| && j != k && jobs[j].account == jobs[k].account && Stays(jobs[j], recover) ==>
                        Validating(jobs[j].kind, left)
                 else recover ==> left
  {
    var a, closed := jobs[k].account, Finished(jobs, k, ok);
    assert OneLiveJob(closed);
    var j := FirstLive(closed, a, 0);
    FollowedUp(closed, a, recover, left);
    if j < |closed| {
      assert closed[j] == jobs[j] && j != k;
      assert forall i :: 0 <= i < |jobs| && i != k && LiveFor(jobs[i], a) ==> LiveFor(closed[i], a) && i == j;
    } else {
      forall i | 0 <= i < |jobs| && i != k && jobs[i].account == a
        ensures !Live(jobs[i])
      {
        assert closed[i] == jobs[i] && !LiveFor(closed[i], a);
      }
    }
  }

  lemma FollowedUp(jobs: seq<Job>, a: AccountId, recover: bool, left: bool)
    requires OneLiveJob(jobs)
    ensures var first := if recover then Enqueued(jobs, a, RefreshRecover, RecoverRefresh) else jobs;
            var j := FirstLive(jobs, a, 0);
            WillRevalidate(Enqueued(first, a, ManualCheck, FullValidation), a, left)
            <==> if j < |jobs| && Stays(jobs[j], recover) then Validating(jobs[j].kind, left) else recover ==> left
  {
    if recover {
      EnqueuedOne(jobs, a, RefreshRecover, RecoverRefresh, left);
      var first := Enqueued(jobs, a, RefreshRecover, RecoverRefresh);
      EnqueueKeeps(jobs, a, RefreshRecover, RecoverRefresh);
      EnqueuedOne(first, a, ManualCheck, FullValidation, left);
    } else {
      EnqueuedOne(jobs, a, ManualCheck, FullValidation, left);
    }
  }

  /** After `Enqueued` the account has one live job, the old one or the new one. */
  lemma EnqueuedOne(jobs: seq<Job>, a: AccountId, priority: Priority, kind: JobKind, left: bool)
    requires OneLiveJob(jobs)
    ensures var jobs' := Enqueued(jobs, a, priority, kind);
            var j, l := FirstLive(jobs, a, 0), FirstLive(jobs', a, 0);
            && l < |jobs'|
            && jobs'[l] == (if j < |jobs| && (jobs[j].status.Running? || Urgency(priority) >= Urgency(jobs[j].priority))
                            then jobs[j] else NewJob(a, priority, kind))
            && (WillRevalidate(jobs', a, left) <==> Validating(jobs'[l].kind, left))
  {
    var jobs' := Enqueued(jobs, a, priority, kind);
    EnqueueKeeps(jobs, a, priority, kind);
    var j, l := FirstLive(jobs, a, 0), FirstLive(jobs', a, 0);
    var m := if j < |jobs| && (jobs[j].status.Running? || Urgency(priority) >= Urgency(jobs[j].priority)) then j else |jobs|;
    assert LiveFor(jobs'[m], a);
    assert l == m;
  }

  /** In every run without reopened jobs, a worker whose job is still live, that is whose lease nobody took over,
      may clear the request: the account is left with a live job that validates it.  That includes the recovery
      that is failed unrun because its attempts are used up; a recovery that is added must have attempts left. */
  lemma RerunIsHonoured(states: seq<State>, actions: seq<Action>, n: nat, k: JobId, ok: bool, recover: bool, left: bool)
    requires IsRun(states, actions) && n <= |actions| && NoneReopened(states, actions, n)
    requires k < |states[n].db.jobs| && Live(states[n].db.jobs[k]) && (recover ==> left)
    ensures WillRevalidate(HandedOn(states[n].db.jobs, k, ok, recover), states[n].db.jobs[k].account, left)
  {
    RunKeeps(states, actions, n);
    RerunExactly(states[n].db.jobs, k, ok, recover, left);
  }

  /** The account fields that the end of a check writes. */
  class CheckedAccount {
    const id: AccountId
    var status: AccountStatus
    var override: Option<AccountStatus>
    var rerunRequested: bool

    constructor (id: AccountId, status: AccountStatus, override: Option<AccountStatus>, rerunRequested: bool)
      ensures this.id == id && this.status == status && this.override == override && this.rerunRequested == rerunRequested
    {
      this.id, this.status, this.override, this.rerunRequested := id, status, override, rerunRequested;
    }

    /** A credential update that raced the check is handed to one follow-up, and the account stays off
        sale until that follow-up has passed. */
    method EnqueueRequestedRerun(queue: CheckJobQueue)
      modifies this`status, this`rerunRequested, queue
      ensures !rerunRequested && override == old(override)
      ensures queue.jobs == if old(rerunRequested) then Enqueued(old(queue.jobs), id, ManualCheck, FullValidation) else old(queue.jobs)
      ensures if old(rerunRequested) then Queues(old(queue.jobs), queue.jobs, id, ManualCheck, FullValidation)
              else queue.jobs == old(queue.jobs)
      ensures status == if !old(rerunRequested) then old(status) else if override.Some? then override.value else PendingValidation
    {
      if !rerunRequested {
        return;
      }
      rerunRequested := false;
      status := if override.Some? then override.value else PendingValidation;
      var _ := queue.Enqueue(id, ManualCheck, FullValidation);
    }

    /** The end of the job `k` of this account. */
    method Conclude(queue: CheckJobQueue, k: JobId, ok: bool, recover: bool)
      requires k < |queue.jobs| && queue.jobs[k].account == id
      modifies this`status, this`rerunRequested, queue
      ensures !rerunRequested && override == old(override)
      ensures status == if !old(rerunRequested) then old(status) else if override.Some? then override.value else PendingValidation
      ensures exists mid :: Concludes(old(queue.jobs), mid, queue.jobs, k, ok, recover, old(rerunRequested))
      ensures old(rerunRequested) ==> queue.jobs == HandedOn(old(queue.jobs), k, ok, recover)
      ensures old(rerunRequested) && old(OneLiveJob(queue.jobs) && Live(queue.jobs[k])) ==>
                forall left: bool :: (recover ==> left) ==> WillRevalidate(queue.jobs, id, left)
    {
      if OneLiveJob(queue.jobs) {
        RerunExactly(queue.jobs, k, ok, recover, true);
        RerunExactly(queue.jobs, k, ok, recover, false);
      }
      queue.MarkFinished(k, ok);
      if recover {
        var _ := queue.Enqueue(id, RefreshRecover, RecoverRefresh);
      }
      ghost var mid := queue.jobs;
      EnqueueRequestedRerun(queue);
      assert Concludes(old(queue.jobs), mid, queue.jobs, k, ok, recover, old(rerunRequested));
    }
  }
}
