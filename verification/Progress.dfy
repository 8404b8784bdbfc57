/** No worker is ever stuck: whatever the others do, each of them can take its next step. */
module Progress {
  import opened Rows
  import opened Transitions
  import opened JobQueue
  import opened Protocol
  import opened ProtocolLaws

  /** What the worker will look up is there. */
  predicate Placed(db: Tables, worker: Worker) {
    match worker
    case Revoker(kind, claim, stage) => claim.order in db.orders && (stage.Recorded? ==> kind.Expiry?)
    case Notifier(o, _) => o in db.orders
    case Courier(o, _) => o in db.orders
    case SaleReader(o, _) => o in db.orders
    case Retrier(o, _) => o in db.orders
    case Operator(o, _) => o in db.orders
    case Commander(o, _, _) => o in db.orders && o in db.rentals
    case Canceller(k) => k < |db.jobs|
    case Poller(k) => k < |db.jobs|
  }

  ghost predicate AllPlaced(s: State) { forall w :: w in s.workers ==> Placed(s.db, s.workers[w]) }

  /** Rows are added and never dropped. */
  ghost predicate Grows(db: Tables, after: Tables) {
    db.orders.Keys <= after.orders.Keys && db.rentals.Keys <= after.rentals.Keys && |db.jobs| <= |after.jobs|
  }

  /** At most one worker is new or has moved on, and what it looks up is there. */
  ghost predicate Advances(s: State, t: State) {
    && Grows(s.db, t.db)
    && forall w :: w in t.workers ==> (w in s.workers && t.workers[w] == s.workers[w]) || Placed(t.db, t.workers[w])
  }

  lemma AdvancesPlaced(s: State, t: State)
    requires AllPlaced(s) && Advances(s, t)
    ensures AllPlaced(t)
  {
    forall w | w in t.workers
      ensures Placed(t.db, t.workers[w])
    {
      if w in s.workers && t.workers[w] == s.workers[w] {
        assert Placed(s.db, s.workers[w]);
      }
    }
  }

  lemma EndingAdvances(s: State, a: Action)
    requires Enabled(s, a) && Ending(a)
    ensures Advances(s, RevokingStep(s, a))
  {
  }

  lemma RevokingAdvances(s: State, a: Action)
    requires Enabled(s, a) && Revoking(a) && AllPlaced(s)
    ensures Advances(s, RevokingStep(s, a))
  {
    if Ending(a) {
      EndingAdvances(s, a);
    }
  }

  lemma BoundingAdvances(s: State, a: Action)
    requires Enabled(s, a) && Bounding(a)
    ensures Advances(s, DeliveringStep(s, a))
  {
    if a.ReachBoundary? {
      FirstBoundaryAdvances(s, a);
    }
  }

  lemma FirstBoundaryAdvances(s: State, a: Action)
    requires Enabled(s, a) && a.ReachBoundary?
    ensures Advances(s, DeliveringStep(s, a))
  {
  }

  lemma DeliveringAdvances(s: State, a: Action)
    requires Enabled(s, a) && Delivering(a)
    ensures Advances(s, DeliveringStep(s, a))
  {
    if Bounding(a) {
      BoundingAdvances(s, a);
    }
  }

  lemma QueueingAdvances(s: State, a: Action)
    requires Enabled(s, a) && Queueing(a)
    ensures Advances(s, QueueingStep(s, a))
  {
    QueueingIsQuiet(s, a);
  }

  lemma EnterAdvances(s: State, w: WorkerId, worker: Worker)
    requires Placed(s.db, worker)
    ensures Advances(s, Enter(s, w, worker)) && Advances(s, Leave(s, w))
  {
  }

  lemma ReadingAdvances(s: State, a: Action)
    requires Enabled(s, a) && Reading(a)
    ensures Advances(s, RememberingStep(s, a))
  {
    match a
    case PreviewRead(w, o) => EnterAdvances(s, w, SaleReader(o, s.db.orders[o].status));
    case RetryPick(w, o, _) => EnterAdvances(s, w, Retrier(o, None));
    case RetryFound(w) => EnterAdvances(s, w, Retrier(s.workers[w].order, Some(s.db.orders[s.workers[w].order].status)));
    case CheckRead(w, o) => EnterAdvances(s, w, Commander(o, s.db.rentals[o], None));
    case CheckDecide(w, now) => EnterAdvances(s, w, Commander(s.workers[w].order, s.workers[w].read, Some(now)));
    case PollRead(w, k) => EnterAdvances(s, w, Poller(k));
    case CancelRead(w, k) => EnterAdvances(s, w, Canceller(k));
  }

  lemma OrderWriteAdvances(s: State, a: Action)
    requires Enabled(s, a) && (a.PreviewWrite? || a.RetryComplete? || a.CheckWrite?)
    ensures Advances(s, RememberingStep(s, a))
  {
  }

  lemma RememberingAdvances(s: State, a: Action)
    requires Enabled(s, a) && Remembering(a)
    ensures Advances(s, RememberingStep(s, a))
  {
    if Reading(a) {
      ReadingAdvances(s, a);
    } else if a.PreviewWrite? || a.RetryComplete? || a.CheckWrite? {
      OrderWriteAdvances(s, a);
    }
  }

  lemma NotifyingAdvances(s: State, a: Action)
    requires Enabled(s, a) && (a.NotifyStart? || a.NotifyFinish?)
    ensures Advances(s, RecordingStep(s, a))
  {
  }

  lemma OperatorAdvances(s: State, a: Action)
    requires Enabled(s, a) && a.RetryByOperator?
    ensures Advances(s, RecordingStep(s, a))
  {
  }

  lemma RecordingAdvances(s: State, a: Action)
    requires Enabled(s, a) && Recording(a) && AllPlaced(s)
    ensures Advances(s, RecordingStep(s, a))
  {
    if a.NotifyStart? || a.NotifyFinish? {
      NotifyingAdvances(s, a);
    } else if a.RetryByOperator? {
      OperatorAdvances(s, a);
    }
  }

  lemma StepAdvances(s: State, a: Action)
    requires Enabled(s, a) && AllPlaced(s)
    ensures Advances(s, Step(s, a))
  {
    if Revoking(a) {
      RevokingAdvances(s, a);
    } else if Delivering(a) {
      DeliveringAdvances(s, a);
    } else if Queueing(a) {
      QueueingAdvances(s, a);
    } else if Remembering(a) {
      RememberingAdvances(s, a);
    } else {
      RecordingAdvances(s, a);
    }
  }

  lemma {:induction false} RunPlaced(states: seq<State>, actions: seq<Action>, n: nat)
    requires IsRun(states, actions) && n <= |actions|
    ensures AllPlaced(states[n])
  {
    if n > 0 {
      RunPlaced(states, actions, n - 1);
      StepAdvances(states[n - 1], actions[n - 1]);
      AdvancesPlaced(states[n - 1], states[n]);
    }
  }

  /** The steps with which a worker goes on. */
  ghost predicate GoesOn(a: Action, w: WorkerId) {
    match a
    case Kick(v, _, _) => v == w
    case ExpirySettle(v, _) => v == w
    case RefundFinish(v) => v == w
    case ExpiryFinish(v) => v == w
    case ReplaceFinish(v, _, _, _, _) => v == w
    case NotifyFinish(v, _, _) => v == w
    case ReachBoundary(v, _, _, _, _) => v == w
    case ReachBoundaryAgain(v, _, _, _) => v == w
    case Disclose(v, _, _, _, _) => v == w
    case PreviewWrite(v, _) => v == w
    case RetryFound(v) => v == w
    case RetryComplete(v) => v == w
    case OperatorStart(v, _, _) => v == w
    case CheckDecide(v, _) => v == w
    case CheckWrite(v) => v == w
    case CancelWrite(v) => v == w
    case PollWrite(v, _) => v == w
    case _ => false
  }

  /** The scheduler waits for the delivery it started. */
  ghost predicate Waits(s: State, w: WorkerId)
    requires w in s.workers
  {
    && s.workers[w].Retrier? && s.workers[w].found.None?
    && !(s.workers[w].order in s.db.rentals && s.db.rentals[s.workers[w].order].delivery == Sent)
  }

  lemma {:induction false} FreshTime(stamps: set<(OrderId, Time)>, o: OrderId) returns (t: Time)
    ensures forall u :: (o, u) in stamps ==> u < t
  {
    t := 0;
    if stamps != {} {
      var stamp :| stamp in stamps;
      t := FreshTime(stamps - {stamp}, o);
      if stamp.1 >= t {
        t := stamp.1 + 1;
      }
    }
  }

  /** The next step of the worker, at a time that is no stamp of its order yet. */
  function Next(worker: Worker, w: WorkerId, t: Time): Action {
    match worker
    case Revoker(kind, _, ClaimHeld) => Kick(w, true, true)
    case Revoker(kind, _, Recorded(_)) => ExpiryFinish(w)
    case Revoker(Expiry, _, Kicked(_)) => ExpirySettle(w, true)
    case Revoker(Refund, _, Kicked(_)) => RefundFinish(w)
    case Revoker(Replacement, _, Kicked(_)) => ReplaceFinish(w, true, 0, t, t)
    case Notifier(_, _) => NotifyFinish(w, true, t)
    case Courier(_, Claimed(_)) => ReachBoundary(w, true, true, [], t)
    case Courier(_, Relocated(_, _)) => ReachBoundaryAgain(w, true, true, t)
    case Courier(_, AtBoundary(_, _)) => Disclose(w, true, true, Accepted, t)
    case SaleReader(_, _) => PreviewWrite(w, Paid)
    case Retrier(_, None) => RetryFound(w)
    case Retrier(_, Some(_)) => RetryComplete(w)
    case Operator(_, _) => OperatorStart(w, true, t)
    case Commander(_, _, None) => CheckDecide(w, t)
    case Commander(_, _, Some(_)) => CheckWrite(w)
    case Canceller(_) => CancelWrite(w)
    case Poller(_) => PollWrite(w, t)
  }

  ghost function OrderOf(worker: Worker): OrderId {
    match worker
    case Revoker(_, claim, _) => claim.order
    case Courier(o, _) => o
    case Operator(o, _) => o
    case _ => 0
  }

  lemma NextIsEnabled(s: State, w: WorkerId, t: Time)
    requires w in s.workers && Placed(s.db, s.workers[w]) && !Waits(s, w)
    requires FreshStamp(s, OrderOf(s.workers[w]), t)
    ensures Enabled(s, Next(s.workers[w], w, t)) && GoesOn(Next(s.workers[w], w, t), w)
  {
  }

  /** In every reachable state every worker can go on, the scheduler excepted while its delivery is under way. */
  lemma NeverStuck(states: seq<State>, actions: seq<Action>, n: nat, w: WorkerId)
    requires IsRun(states, actions) && n <= |actions| && w in states[n].workers && !Waits(states[n], w)
    ensures exists a :: Enabled(states[n], a) && GoesOn(a, w)
  {
    RunPlaced(states, actions, n);
    var s := states[n];
    var o := OrderOf(s.workers[w]);
    var t := FreshTime(s.stamps, o);
    assert FreshStamp(s, o, t);
    NextIsEnabled(s, w, t);
  }

  /** The transactions of worker `w` on the order that begin with what is stored. */
  ghost predicate Begins(a: Action, w: WorkerId, o: OrderId, now: Time, later: Time) {
    match a
    case Close(p) => p == o
    case PreviewRead(v, p) => v == w && p == o
    case RefundStart(v, p, _, t) => v == w && p == o && t == now
    case ExpiryStart(v, p, _, t) => v == w && p == o && t == now
    case ReplaceStart(v, p, _, _, _, _, t, u) => v == w && p == o && t == now && u == later
    case NotifyStart(v, p, _, t) => v == w && p == o && t == now
    case Release(p, _, _, _, _) => p == o
    case SendCode(p, _, _, _) => p == o
    case DeliveryStart(v, p, _, t) => v == w && p == o && t == now
    case RetryByOperator(v, p, _, _) => v == w && p == o
    case Allocate(v, p, _, _, t) => v == w && p == o && t == now
    case CheckRead(v, p) => v == w && p == o
    case AccountWrite(_, _) => true
    case Crash(_) => true
    case _ => false
  }

  /** Any of them may begin at any time that is no stamp of the order yet, whatever else is going on, the first
      allocation exactly while there is no rental, and the check of a command exactly while there is one. */
  lemma MayBegin(s: State, a: Action, w: WorkerId, o: OrderId, now: Time, later: Time)
    requires o in s.db.orders && w !in s.workers && (o, now) !in s.stamps && (o, later) !in s.stamps && now <= later
    requires Begins(a, w, o, now, later)
    ensures Enabled(s, a) <==> (a.Allocate? ==> o !in s.db.rentals) && (a.CheckRead? ==> o in s.db.rentals)
  {
  }

  /** A check begins exactly if its job waits, is no device login, and no rental occupies its account or has it
      reserved; a device login is polled exactly while it waits, and a running check can be cancelled. */
  lemma ChecksMayBegin(s: State, a: Action)
    requires (a.JobStart? || a.PollRead? || a.CancelRead?) && a.k < |s.db.jobs| && (a.JobStart? || a.w !in s.workers)
    ensures var job := s.db.jobs[a.k];
            Enabled(s, a) <==>
              if a.JobStart? then
                && job.status == Queued && job.kind != DeviceAuth
                && forall o :: o in s.db.rentals ==> !Keeps(s.db, o, job.account) && s.db.rentals[o].target != Some(job.account)
              else if a.PollRead? then job.status == Queued && job.kind == DeviceAuth
              else job.status == Running && job.kind != DeviceAuth
  {
    forall o | o in s.db.rentals
      ensures Holds(s.db.rentals[o], s.db.jobs[a.k].account)
              <==> Keeps(s.db, o, s.db.jobs[a.k].account) || s.db.rentals[o].target == Some(s.db.jobs[a.k].account)
    {
    }
  }

  /** The queue takes a job, a result, a recovery and a failure at any time, a device login only for an account that no
      rental holds. */
  lemma QueueIsOpen(s: State, a: Action)
    requires Queueing(a) && !a.JobStart? && (a.JobFinish? ==> a.k < |s.db.jobs|)
    requires a.JobExclusive? ==> a.kind != DeviceAuth || forall o :: o in s.db.rentals ==> !Keeps(s.db, o, a.a) && s.db.rentals[o].target != Some(a.a)
    ensures Enabled(s, a) <==> !(a.JobEnqueue? && a.kind == DeviceAuth)
  {
    if a.JobExclusive? {
      forall o | o in s.db.rentals
        ensures Holds(s.db.rentals[o], a.a) <==> Keeps(s.db, o, a.a) || s.db.rentals[o].target == Some(a.a)
      {
      }
    }
  }
}
