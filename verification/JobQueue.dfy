/** The queue of account checks (backend/app/check_job_queue.py).

    The job table is append-only and ids are handed out in order, so a job's id is its index. */
module JobQueue {
  import opened Rows

  datatype Priority = New | RefreshRecover | ManualCheck | Scheduled | LimitCheck | OtherPriority
  datatype JobKind = FullValidation | RecoverRefresh | MeasureLimits | DeviceAuth
  datatype JobStatus = Queued | Running | Done | JobFailed
  datatype Job = Job(account: AccountId, priority: Priority, kind: JobKind, status: JobStatus, startedAt: Option<Time>)

  const RUNNING_LEASE: int := 20 * MINUTE

  function Urgency(p: Priority): nat {
    match p
    case New => 0
    case RefreshRecover => 0
    case ManualCheck => 1
    case Scheduled => 2
    case LimitCheck => 3
    case OtherPriority => 9
  }

  /** New accounts and refresh recoveries go first, then manual checks, scheduled checks and limit checks, then
      anything else. */
  ghost predicate MoreUrgent(p: Priority, q: Priority) {
    || (p in {New, RefreshRecover} && q !in {New, RefreshRecover})
    || (p == ManualCheck && q in {Scheduled, LimitCheck, OtherPriority})
    || (p == Scheduled && q in {LimitCheck, OtherPriority})
    || (p == LimitCheck && q == OtherPriority)
  }

  lemma UrgencyLaw(p: Priority, q: Priority)
    ensures Urgency(p) < Urgency(q) <==> MoreUrgent(p, q)
  {
  }

  predicate Live(job: Job) { job.status.Queued? || job.status.Running? }

  predicate LiveFor(job: Job, a: AccountId) { Live(job) && job.account == a }

  function NewJob(a: AccountId, priority: Priority, kind: JobKind): Job { Job(a, priority, kind, Queued, None) }

  /** Least id from `from` on of a live job of the account, or the table's length. */
  function FirstLive(jobs: seq<Job>, a: AccountId, from: nat): (k: nat)
    requires from <= |jobs|
    ensures from <= k <= |jobs|
    ensures k < |jobs| ==> LiveFor(jobs[k], a)
    ensures forall i :: from <= i < k ==> !LiveFor(jobs[i], a)
    decreases |jobs| - from
  {
    if from == |jobs| || LiveFor(jobs[from], a) then from else FirstLive(jobs, a, from + 1)
  }

  function Enqueued(jobs: seq<Job>, a: AccountId, priority: Priority, kind: JobKind): seq<Job> {
    var k := FirstLive(jobs, a, 0);
    if k == |jobs| then jobs + [NewJob(a, priority, kind)]
    else if jobs[k].status.Running? || Urgency(priority) >= Urgency(jobs[k].priority) then jobs
    else jobs[k := jobs[k].(status := Done)] + [NewJob(a, priority, kind)]
  }

  predicate FreshlyRunning(job: Job, now: Time) {
    job.status.Running? && job.startedAt.Some? && job.startedAt.value > now - RUNNING_LEASE
  }

  predicate Conflicts(jobs: seq<Job>, a: AccountId, now: Time) {
    exists k :: 0 <= k < |jobs| && LiveFor(jobs[k], a) && FreshlyRunning(jobs[k], now)
  }

  function Retired(job: Job, a: AccountId): Job {
    if !LiveFor(job, a) then job
    else if job.status.Running? then job.(status := JobFailed)
    else job.(status := Done)
  }

  function Requeued(job: Job): Job { job.(status := Queued, startedAt := None) }

  predicate StaleRunning(job: Job, kinds: set<JobKind>, cutoff: Time) {
    job.status.Running? && job.kind in kinds && (job.startedAt.None? || job.startedAt.value <= cutoff)
  }

  /** `edit` applied to every row, the rows another transaction has locked excepted. */
  function Edited(jobs: seq<Job>, locked: set<nat>, edit: Job -> Job): (r: seq<Job>)
    ensures |r| == |jobs|
    ensures forall k :: 0 <= k < |jobs| ==> r[k] == if k in locked then jobs[k] else edit(jobs[k])
  {
    seq(|jobs|, k requires 0 <= k < |jobs| => if k in locked then jobs[k] else edit(jobs[k]))
  }

  function Recovered(jobs: seq<Job>, locked: set<nat>, kinds: set<JobKind>, cutoff: Time): seq<Job> {
    Edited(jobs, locked, (job: Job) => if StaleRunning(job, kinds, cutoff) then Requeued(job) else job)
  }

  function AllFailed(jobs: seq<Job>, locked: set<nat>, kinds: set<JobKind>): seq<Job> {
    Edited(jobs, locked, (job: Job) => if Live(job) && job.kind in kinds then job.(status := JobFailed) else job)
  }

  function Exclusive(jobs: seq<Job>, a: AccountId, priority: Priority, kind: JobKind): seq<Job> {
    Edited(jobs, {}, (job: Job) => Retired(job, a)) + [NewJob(a, priority, kind)]
  }

  function Started(jobs: seq<Job>, k: nat, now: Time): seq<Job>
    requires k < |jobs|
  {
    jobs[k := jobs[k].(status := Running, startedAt := Some(now))]
  }

  function Finished(jobs: seq<Job>, k: nat, ok: bool): seq<Job>
    requires k < |jobs|
  {
    jobs[k := jobs[k].(status := if ok then Done else JobFailed)]
  }

  /** A worker's cancellation returns its job only if the row still says running. */
  function ReturnedOnCancel(jobs: seq<Job>, k: nat): seq<Job>
    requires k < |jobs|
  {
    if jobs[k].status.Running? then jobs[k := Requeued(jobs[k])] else jobs
  }

  // ---- The worker's choice ----------------------------------------------------------------------

  /** A job the statement of a worker can return; `hidden` are the accounts it excludes. */
  predicate Startable(job: Job, kinds: set<JobKind>, hidden: set<AccountId>) {
    job.status.Queued? && job.kind in kinds && job.account !in hidden
  }

  ghost predicate Waits(job: Job, kinds: set<JobKind>, hidden: set<AccountId>) {
    job.status == Queued && job.kind in kinds && job.account !in hidden
  }

  /** The most urgent waiting job, the oldest among equally urgent ones, or the table's length if none waits. */
  ghost predicate IsNext(jobs: seq<Job>, kinds: set<JobKind>, hidden: set<AccountId>, k: nat) {
    && k <= |jobs|
    && (k < |jobs| ==> Waits(jobs[k], kinds, hidden))
    && forall j :: 0 <= j < |jobs| && Waits(jobs[j], kinds, hidden) ==>
         k < |jobs| && !MoreUrgent(jobs[j].priority, jobs[k].priority) && (MoreUrgent(jobs[k].priority, jobs[j].priority) || k <= j)
  }

  // ---- What the writes promise, row by row ------------------------------------------------------

  ghost predicate Unfinished(job: Job, a: AccountId) { job.account == a && (job.status == Queued || job.status == Running) }

  /** `k` is the oldest live job of the account. */
  ghost predicate Oldest(jobs: seq<Job>, a: AccountId, k: nat) {
    k < |jobs| && Unfinished(jobs[k], a) && forall i :: 0 <= i < k ==> !Unfinished(jobs[i], a)
  }

  /** A job is added unless the oldest live one of the account runs or is as urgent; a less urgent one that
      waits is closed as done. */
  ghost predicate Queues(jobs: seq<Job>, after: seq<Job>, a: AccountId, priority: Priority, kind: JobKind) {
    && ((forall i :: 0 <= i < |jobs| ==> !Unfinished(jobs[i], a)) ==> after == jobs + [Job(a, priority, kind, Queued, None)])
    && (forall k: nat :: Oldest(jobs, a, k) ==>
          after == if jobs[k].status == Queued && MoreUrgent(priority, jobs[k].priority)
                   then jobs[k := jobs[k].(status := Done)] + [Job(a, priority, kind, Queued, None)]
                   else jobs)
  }

  lemma EnqueuedLaw(jobs: seq<Job>, a: AccountId, priority: Priority, kind: JobKind)
    ensures Queues(jobs, Enqueued(jobs, a, priority, kind), a, priority, kind)
  {
    var k := FirstLive(jobs, a, 0);
    forall j: nat | Oldest(jobs, a, j)
      ensures j == k
    {
      assert LiveFor(jobs[j], a);
    }
    assert forall i :: 0 <= i < |jobs| ==> (Unfinished(jobs[i], a) <==> LiveFor(jobs[i], a));
  }

  ghost function ChangedBefore(jobs: seq<Job>, after: seq<Job>, k: nat): set<nat>
    requires k <= |jobs| == |after|
  {
    set i: nat | i < k && after[i] != jobs[i]
  }

  /** Jobs that run since `cutoff` or longer, or with no start on record, wait again. */
  ghost predicate Recovers(jobs: seq<Job>, after: seq<Job>, locked: set<nat>, kinds: set<JobKind>, cutoff: Time) {
    && |after| == |jobs|
    && forall k :: 0 <= k < |jobs| ==>
         after[k] == if k !in locked && jobs[k].status == Running && jobs[k].kind in kinds
                        && (jobs[k].startedAt.None? || jobs[k].startedAt.value <= cutoff)
                     then Job(jobs[k].account, jobs[k].priority, jobs[k].kind, Queued, None)
                     else jobs[k]
  }

  lemma RecoveredLaw(jobs: seq<Job>, locked: set<nat>, kinds: set<JobKind>, cutoff: Time)
    ensures Recovers(jobs, Recovered(jobs, locked, kinds, cutoff), locked, kinds, cutoff)
  {
  }

  ghost predicate Fails(jobs: seq<Job>, after: seq<Job>, locked: set<nat>, kinds: set<JobKind>) {
    && |after| == |jobs|
    && forall k :: 0 <= k < |jobs| ==>
         after[k] == if k !in locked && (jobs[k].status == Queued || jobs[k].status == Running) && jobs[k].kind in kinds
                     then Job(jobs[k].account, jobs[k].priority, jobs[k].kind, JobFailed, jobs[k].startedAt)
                     else jobs[k]
  }

  lemma AllFailedLaw(jobs: seq<Job>, locked: set<nat>, kinds: set<JobKind>)
    ensures Fails(jobs, AllFailed(jobs, locked, kinds), locked, kinds)
  {
  }

  /** A job of the account runs for less than twenty minutes. */
  ghost predicate Leased(jobs: seq<Job>, a: AccountId, now: Time) {
    exists k :: 0 <= k < |jobs| && jobs[k].account == a && jobs[k].status == Running
                && jobs[k].startedAt.Some? && now < jobs[k].startedAt.value + 1_200_000_000
  }

  lemma ConflictsLaw(jobs: seq<Job>, a: AccountId, now: Time)
    ensures Conflicts(jobs, a, now) <==> Leased(jobs, a, now)
  {
  }

  /** The account's running jobs fail, its waiting jobs are done, and one job is added. */
  ghost predicate TakesOver(jobs: seq<Job>, after: seq<Job>, a: AccountId, priority: Priority, kind: JobKind) {
    && |after| == |jobs| + 1 && after[|jobs|] == Job(a, priority, kind, Queued, None)
    && forall k :: 0 <= k < |jobs| ==>
         after[k] == if jobs[k].account == a && jobs[k].status == Running then jobs[k].(status := JobFailed)
                     else if jobs[k].account == a && jobs[k].status == Queued then jobs[k].(status := Done)
                     else jobs[k]
  }

  lemma ExclusiveLaw(jobs: seq<Job>, a: AccountId, priority: Priority, kind: JobKind)
    ensures TakesOver(jobs, Exclusive(jobs, a, priority, kind), a, priority, kind)
  {
  }

  /** Starting, ending and returning one job. */
  lemma OneJobLaw(jobs: seq<Job>, k: nat, now: Time, ok: bool)
    requires k < |jobs|
    ensures var job := jobs[k];
            && Started(jobs, k, now) == jobs[k := Job(job.account, job.priority, job.kind, Running, Some(now))]
            && Finished(jobs, k, ok) == jobs[k := Job(job.account, job.priority, job.kind, if ok then Done else JobFailed, job.startedAt)]
            && ReturnedOnCancel(jobs, k) == if job.status == Running
                                            then jobs[k := Job(job.account, job.priority, job.kind, Queued, None)] else jobs
  {
  }

  class CheckJobQueue {
    var jobs: seq<Job>

    constructor ()
      ensures jobs == []
    {
      jobs := [];
    }

    method Enqueue(a: AccountId, priority: Priority, kind: JobKind) returns (id: nat)
      modifies this
      ensures jobs == Enqueued(old(jobs), a, priority, kind)
      ensures Queues(old(jobs), jobs, a, priority, kind)
      ensures id < |jobs| && Unfinished(jobs[id], a)
      ensures if jobs == old(jobs) then Oldest(jobs, a, id) else id == |old(jobs)| == |jobs| - 1
      ensures jobs[id].status == Queued ==> !MoreUrgent(priority, jobs[id].priority)
    {
      EnqueuedLaw(jobs, a, priority, kind);
      var existing := FirstLive(jobs, a, 0);
      if existing < |jobs| {
        if jobs[existing].status == Running {
          return existing;
        }
        if Urgency(priority) < Urgency(jobs[existing].priority) {
          jobs := jobs[existing := jobs[existing].(status := Done)];
        } else {
          return existing;
        }
      }
      id := |jobs|;
      jobs := jobs + [NewJob(a, priority, kind)];
    }

    /** `cutoff` is the start of the application at start-up and one worker lease ago afterwards. */
    method RecoverStaleRunning(locked: set<nat>, kinds: set<JobKind>, cutoff: Time) returns (count: nat)
      modifies this
      ensures jobs == Recovered(old(jobs), locked, kinds, cutoff)
      ensures Recovers(old(jobs), jobs, locked, kinds, cutoff)
      ensures |jobs| == |old(jobs)| && count == |ChangedBefore(old(jobs), jobs, |jobs|)|
    {
      count := 0;
      for k := 0 to |jobs|
        invariant |jobs| == |old(jobs)|
        invariant forall i :: 0 <= i < k ==> jobs[i] == Recovered(old(jobs), locked, kinds, cutoff)[i]
        invariant forall i :: k <= i < |jobs| ==> jobs[i] == old(jobs)[i]
        invariant count == |ChangedBefore(old(jobs), jobs, k)|
      {
        ghost var before := ChangedBefore(old(jobs), jobs, k);
        if k !in locked && StaleRunning(jobs[k], kinds, cutoff) {
          jobs := jobs[k := Requeued(jobs[k])];
          count := count + 1;
          assert ChangedBefore(old(jobs), jobs, k + 1) == before + {k};
        } else {
          assert ChangedBefore(old(jobs), jobs, k + 1) == before;
        }
      }
      assert jobs == Recovered(old(jobs), locked, kinds, cutoff);
    }

    method FailActiveJobs(locked: set<nat>, kinds: set<JobKind>) returns (accounts: set<AccountId>)
      modifies this
      ensures jobs == AllFailed(old(jobs), locked, kinds)
      ensures Fails(old(jobs), jobs, locked, kinds)
      ensures forall a :: a in accounts <==> exists k :: 0 <= k < |jobs| && jobs[k] != old(jobs)[k] && jobs[k].account == a
    {
      accounts := {};
      for k := 0 to |jobs|
        invariant |jobs| == |old(jobs)|
        invariant forall i :: 0 <= i < k ==> jobs[i] == AllFailed(old(jobs), locked, kinds)[i]
        invariant forall i :: k <= i < |jobs| ==> jobs[i] == old(jobs)[i]
        invariant forall i :: 0 <= i < k && jobs[i] != old(jobs)[i] ==> jobs[i].account in accounts
        invariant forall a :: a in accounts ==> exists i :: 0 <= i < k && jobs[i] != old(jobs)[i] && jobs[i].account == a
      {
        ghost var before := jobs;
        if k !in locked && Live(jobs[k]) && jobs[k].kind in kinds {
          accounts := accounts + {jobs[k].account};
          jobs := jobs[k := jobs[k].(status := JobFailed)];
          assert jobs[k] != old(jobs)[k];
        }
        assert forall i :: 0 <= i < k && before[i] != old(jobs)[i] ==> jobs[i] != old(jobs)[i] && jobs[i].account == before[i].account;
      }
      assert jobs == AllFailed(old(jobs), locked, kinds);
    }

    /** Two passes over the account's live jobs: a live lease refuses before any row is changed. */
    method EnqueueExclusive(a: AccountId, priority: Priority, kind: JobKind, now: Time) returns (conflict: bool)
      modifies this
      ensures conflict == Conflicts(old(jobs), a, now)
      ensures jobs == if conflict then old(jobs) else Exclusive(old(jobs), a, priority, kind)
      ensures conflict <==> Leased(old(jobs), a, now)
      ensures if conflict then jobs == old(jobs) else TakesOver(old(jobs), jobs, a, priority, kind)
    {
      ConflictsLaw(jobs, a, now);
      ExclusiveLaw(jobs, a, priority, kind);
      for k := 0 to |jobs|
        invariant jobs == old(jobs)
        invariant forall i :: 0 <= i < k ==> !(LiveFor(jobs[i], a) && FreshlyRunning(jobs[i], now))
      {
        if LiveFor(jobs[k], a) && FreshlyRunning(jobs[k], now) {
          return true;
        }
      }
      for k := 0 to |jobs|
        invariant |jobs| == |old(jobs)|
        invariant forall i :: 0 <= i < k ==> jobs[i] == Retired(old(jobs)[i], a)
        invariant forall i :: k <= i < |jobs| ==> jobs[i] == old(jobs)[i]
      {
        if LiveFor(jobs[k], a) {
          if jobs[k].status == Running {
            jobs := jobs[k := jobs[k].(status := JobFailed)];
          } else {
            jobs := jobs[k := jobs[k].(status := Done)];
          }
        }
      }
      jobs := jobs + [NewJob(a, priority, kind)];
      assert jobs == Exclusive(old(jobs), a, priority, kind);
      return false;
    }

    method MarkFinished(k: nat, ok: bool)
      requires k < |jobs|
      modifies this
      ensures jobs == Finished(old(jobs), k, ok)
      ensures jobs == old(jobs)[k := old(jobs)[k].(status := if ok then Done else JobFailed)]
    {
      jobs := jobs[k := jobs[k].(status := if ok then Done else JobFailed)];
    }

    method RequeueCancelled(k: nat)
      requires k < |jobs|
      modifies this
      ensures jobs == ReturnedOnCancel(old(jobs), k)
      ensures jobs == if old(jobs)[k].status == Running
                      then old(jobs)[k := old(jobs)[k].(status := Queued, startedAt := None)] else old(jobs)
    {
      if jobs[k].status == Running {
        jobs := jobs[k := Requeued(jobs[k])];
      }
    }

    method FirstPending(kinds: set<JobKind>, hidden: set<AccountId>) returns (k: nat)
      ensures IsNext(jobs, kinds, hidden, k)
    {
      k := |jobs|;
      for i := 0 to |jobs|
        invariant k == |jobs| || (k < i && Waits(jobs[k], kinds, hidden))
        invariant forall j :: 0 <= j < i && Waits(jobs[j], kinds, hidden) ==>
                    k < |jobs| && !MoreUrgent(jobs[j].priority, jobs[k].priority) && (MoreUrgent(jobs[k].priority, jobs[j].priority) || k <= j)
      {
        if Startable(jobs[i], kinds, hidden) && (k == |jobs| || Urgency(jobs[i].priority) < Urgency(jobs[k].priority)) {
          k := i;
        }
      }
    }

    /** The worker's select-and-recheck loop.  The k-th statement hides the accounts it saw occupied, reserved
        or locked, `seen(k)`; `lost(k, j)` says that the k-th recheck, under the account lock, finds job j
        taken or its account busy. */
    method FetchNextPending(kinds: set<JobKind>, seen: nat -> set<AccountId>, lost: (nat, nat) -> bool)
      returns (k: nat, turn: nat, rejected: set<AccountId>)
      ensures IsNext(jobs, kinds, seen(turn) + rejected, k)
      ensures k < |jobs| ==> !lost(turn, k)
      ensures |rejected| == turn
      ensures forall a :: a in rejected ==> exists t: nat, j: nat :: t < turn && j < |jobs| && jobs[j].account == a && lost(t, j)
    {
      rejected, turn := {}, 0;
      ghost var accounts := set j | 0 <= j < |jobs| :: jobs[j].account;
      while true
        invariant |rejected| == turn && rejected <= accounts
        invariant forall a :: a in rejected ==> exists t: nat, j: nat :: t < turn && j < |jobs| && jobs[j].account == a && lost(t, j)
        decreases accounts - rejected
      {
        k := FirstPending(kinds, seen(turn) + rejected);
        if k == |jobs| || !lost(turn, k) {
          return;
        }
        rejected := rejected + {jobs[k].account};
        turn := turn + 1;
      }
    }
  }
}
