/** Ownership of the one lease that refund, expiry, expiry notification and replacement share. */
module Leases {
  import opened Rows
  import opened Transitions
  import opened Protocol
  import Custody

  /** The clock reading an action compares leases with. */
  function Clock(a: Action): Option<Time> {
    match a
    case RefundStart(_, _, _, now) => Some(now)
    case ExpiryStart(_, _, _, now) => Some(now)
    case ReplaceStart(_, _, _, _, _, _, now, _) => Some(now)
    case NotifyStart(_, _, _, now) => Some(now)
    case Release(_, _, _, _, now) => Some(now)
    case _ => None
  }

  /** The stamp a claim made by this action carries. */
  function ClaimStamp(a: Action): Option<Time> {
    match a
    case RefundStart(_, _, _, now) => Some(now)
    case ExpiryStart(_, _, _, now) => Some(now)
    case ReplaceStart(_, _, _, _, _, _, _, later) => Some(later)
    case NotifyStart(_, _, _, now) => Some(now)
    case _ => None
  }

  /** The order and stamp of the lease a worker believes it owns. */
  function ClaimOf(worker: Worker): Option<(OrderId, Time)> {
    match worker
    case Revoker(_, claim, _) => Some((claim.order, claim.at))
    case Notifier(o, at) => Some((o, at))
    case _ => None
  }

  predicate Finishing(a: Action) { a.RefundFinish? || a.ExpiryFinish? || a.ReplaceFinish? || a.NotifyFinish? }

  /** The finishing worker still sees its own stamp, and a replacement its own target as well. */
  ghost predicate Owns(s: State, a: Action, r: Rental)
    requires Enabled(s, a) && Finishing(a)
  {
    match s.workers[a.w]
    case Revoker(kind, claim, _) => r.lease == Some(claim.at) && (kind.Replacement? ==> claim.target.Some? && r.target == claim.target)
    case Notifier(_, at) => r.lease == Some(at)
    case _ => false
  }

  // ---- One action -------------------------------------------------------------------------------

  /** A lease is taken only when it is empty or at least five minutes old, and its stamp is the taker's. */
  ghost predicate TakenProperly(x: Locked, y: Locked, a: Action)
    requires x.rental.Some? && y.rental.Some?
  {
    y.rental.value.lease.Some? && y.rental.value.lease != x.rental.value.lease ==>
      && y.rental.value.lease == ClaimStamp(a)
      && (x.rental.value.lease.None? || x.rental.value.lease.value <= y.rental.value.lease.value - REVOKE_LEASE)
  }

  /** A refund that finds the rental already closed drops whatever the row still carries. */
  predicate LateRefund(x: Locked, a: Action) { a.RefundStart? && x.rental.Some? && !Occupying(x.rental.value.status) }

  predicate NotLiveFor(x: Locked, a: Action)
    requires x.rental.Some?
  {
    Clock(a).Some? && !LeaseLive(x.rental.value.lease, Clock(a).value)
  }

  /** A stored lease or reservation disappears only by its owner, once stale, or by a late refund. */
  ghost predicate DroppedProperly(s: State, x: Locked, y: Locked, a: Action)
    requires Enabled(s, a) && x.rental.Some? && y.rental.Some?
  {
    var r, r' := x.rental.value, y.rental.value;
    && (r.lease.Some? && r'.lease != r.lease ==> (Finishing(a) && Owns(s, a, r)) || NotLiveFor(x, a) || LateRefund(x, a))
    && (r.target.Some? && r'.target != r.target ==>
        || (a.ReplaceFinish? && Owns(s, a, r))
        || (a.Release? && a.seenLease == r.lease && Some(a.seenTarget) == r.target && NotLiveFor(x, a))
        || (Custody.Claims(a) && NotLiveFor(x, a))
        || LateRefund(x, a))
  }

  /** How a transaction treats the lease and the reservation of its rental. */
  ghost predicate TouchProper(s: State, a: Action, touch: Touch)
    requires Enabled(s, a)
  {
    touch.Rows? && touch.o in s.db.rentals && touch.o in s.db.orders ==>
      && touch.rows.rental.Some?
      && TakenProperly(Load(s.db, touch.o), touch.rows, a)
      && DroppedProperly(s, Load(s.db, touch.o), touch.rows, a)
  }

  lemma EndingLeases(s: State, a: Action)
    requires Enabled(s, a) && Ending(a)
    ensures TouchProper(s, a, RevokingRows(s, a))
  {
  }

  lemma RevokingLeases(s: State, a: Action)
    requires Enabled(s, a) && Revoking(a)
    ensures TouchProper(s, a, RevokingRows(s, a))
  {
    if Ending(a) {
      EndingLeases(s, a);
    }
  }

  lemma BoundaryLeases(s: State, a: Action)
    requires Enabled(s, a) && Bounding(a)
    ensures TouchProper(s, a, DeliveringRows(s, a))
  {
  }

  lemma DeliveringLeases(s: State, a: Action)
    requires Enabled(s, a) && Delivering(a)
    ensures TouchProper(s, a, DeliveringRows(s, a))
  {
    if Bounding(a) {
      BoundaryLeases(s, a);
    }
  }

  lemma RecordingLeases(s: State, a: Action)
    requires Enabled(s, a) && Recording(a)
    ensures TouchProper(s, a, RecordingRows(s, a))
  {
  }

  lemma RememberingLeases(s: State, a: Action)
    requires Enabled(s, a) && Remembering(a)
    ensures TouchProper(s, a, RememberingRows(s, a))
  {
  }

  lemma StepLeases(s: State, a: Action)
    requires Enabled(s, a)
    ensures TouchProper(s, a, Touched(s, a))
  {
    if Revoking(a) {
      RevokingLeases(s, a);
    } else if Delivering(a) {
      DeliveringLeases(s, a);
    } else if Remembering(a) {
      RememberingLeases(s, a);
    } else if Recording(a) {
      RecordingLeases(s, a);
    }
  }

  lemma DisciplineFrom(s: State, t: State, a: Action, touch: Touch, o: OrderId)
    requires Enabled(s, a) && WritesOnly(s, t, a, touch) && TouchProper(s, a, touch) && o in s.db.rentals && o in s.db.orders
    ensures o in t.db.rentals
    ensures var x := Load(s.db, o);
            var y := x.(rental := Some(t.db.rentals[o]));
            TakenProperly(x, y, a) && DroppedProperly(s, x, y, a)
  {
  }

  /** Any action, any order: how its lease and its reservation may change. */
  lemma LeaseDiscipline(s: State, a: Action, o: OrderId)
    requires Enabled(s, a) && o in s.db.rentals && o in s.db.orders
    ensures o in Step(s, a).db.rentals
    ensures var x, r' := Load(s.db, o), Step(s, a).db.rentals[o];
            var y := x.(rental := Some(r'));
            TakenProperly(x, y, a) && DroppedProperly(s, x, y, a)
  {
    TouchedIsWritten(s, a);
    StepLeases(s, a);
    DisciplineFrom(s, Step(s, a), a, Touched(s, a), o);
  }

  lemma StaleEnding(s: State, a: Action)
    requires Enabled(s, a) && Ending(a) && s.workers[a.w].Revoker?
    requires var o := s.workers[a.w].claim.order; o !in s.db.rentals || !Owns(s, a, s.db.rentals[o])
    ensures RevokingStep(s, a).db == s.db
  {
    var o := s.workers[a.w].claim.order;
    assert Store(s.db, o, Load(s.db, o)) == s.db;
  }

  lemma StaleNotifier(s: State, a: Action)
    requires Enabled(s, a) && a.NotifyFinish?
    requires var o := s.workers[a.w].order; o !in s.db.rentals || !Owns(s, a, s.db.rentals[o])
    ensures RecordingStep(s, a).db == s.db
  {
    var o := s.workers[a.w].order;
    assert Store(s.db, o, Load(s.db, o)) == s.db;
  }

  /** A finalizer that no longer sees its claim changes no order, rental, account or job. */
  lemma StaleFinalizerIsHarmless(s: State, a: Action)
    requires Enabled(s, a) && Finishing(a)
    requires ClaimOf(s.workers[a.w]).Some?
    requires var o := ClaimOf(s.workers[a.w]).value.0; o !in s.db.rentals || !Owns(s, a, s.db.rentals[o])
    ensures Step(s, a).db == s.db
  {
    if a.NotifyFinish? {
      StaleNotifier(s, a);
      assert Step(s, a) == RecordingStep(s, a);
    } else {
      StaleEnding(s, a);
      assert Step(s, a) == RevokingStep(s, a);
    }
  }

  // ---- Over whole runs --------------------------------------------------------------------------

  /** No two workers hold claims with the same stamp on the same order. */
  ghost predicate DistinctClaims(s: State) {
    && (forall w :: w in s.workers && ClaimOf(s.workers[w]).Some? ==> ClaimOf(s.workers[w]).value in s.stamps)
    && (forall v, w :: v in s.workers && w in s.workers && v != w && ClaimOf(s.workers[v]).Some? ==>
          ClaimOf(s.workers[v]) != ClaimOf(s.workers[w]))
  }

  /** A worker's claim after the action is the one it had, or the one the action just made. */
  ghost predicate ClaimTraced(s: State, t: State, a: Action, w: WorkerId)
    requires w in t.workers
  {
    ClaimOf(t.workers[w]).Some? ==>
      || (w in s.workers && ClaimOf(s.workers[w]) == ClaimOf(t.workers[w]))
      || (ClaimStamp(a).Some? && w == a.w && ClaimOf(t.workers[w]) == Some((a.o, ClaimStamp(a).value)) && FreshStamp(s, a.o, ClaimStamp(a).value))
  }

  ghost predicate ClaimsTraced(s: State, t: State, a: Action) {
    && s.stamps <= t.stamps && (ClaimStamp(a).Some? ==> (a.o, ClaimStamp(a).value) in t.stamps)
    && forall w :: w in t.workers ==> ClaimTraced(s, t, a, w)
  }

  lemma EndingClaims(s: State, a: Action)
    requires Enabled(s, a) && Ending(a)
    ensures ClaimsTraced(s, RevokingStep(s, a), a)
  {
  }

  lemma RevokingClaims(s: State, a: Action)
    requires Enabled(s, a) && Revoking(a)
    ensures ClaimsTraced(s, RevokingStep(s, a), a)
  {
    if Ending(a) {
      EndingClaims(s, a);
    }
  }

  lemma BoundaryClaims(s: State, a: Action)
    requires Enabled(s, a) && Bounding(a)
    ensures ClaimsTraced(s, DeliveringStep(s, a), a)
  {
  }

  lemma DeliveringClaims(s: State, a: Action)
    requires Enabled(s, a) && Delivering(a)
    ensures ClaimsTraced(s, DeliveringStep(s, a), a)
  {
    if Bounding(a) {
      BoundaryClaims(s, a);
    }
  }

  lemma RecordingClaims(s: State, a: Action)
    requires Enabled(s, a) && Recording(a)
    ensures ClaimsTraced(s, RecordingStep(s, a), a)
  {
  }

  lemma OperatorClaims(s: State, a: Action)
    requires Enabled(s, a) && a.OperatorStart?
    ensures ClaimsTraced(s, RememberingStep(s, a), a)
  {
  }

  lemma RememberingClaims(s: State, a: Action)
    requires Enabled(s, a) && Remembering(a)
    ensures ClaimsTraced(s, RememberingStep(s, a), a)
  {
    if a.OperatorStart? {
      OperatorClaims(s, a);
    }
  }

  lemma StepClaims(s: State, a: Action)
    requires Enabled(s, a)
    ensures ClaimsTraced(s, Step(s, a), a)
  {
    if Revoking(a) {
      RevokingClaims(s, a);
    } else if Delivering(a) {
      DeliveringClaims(s, a);
    } else if Queueing(a) {
      QueueingIsQuiet(s, a);
    } else if Remembering(a) {
      RememberingClaims(s, a);
    } else {
      RecordingClaims(s, a);
    }
  }

  lemma TracedStayDistinct(s: State, t: State, a: Action)
    requires DistinctClaims(s) && ClaimsTraced(s, t, a)
    ensures DistinctClaims(t)
  {
  }

  lemma ClaimsStayDistinct(s: State, a: Action)
    requires DistinctClaims(s) && Enabled(s, a)
    ensures DistinctClaims(Step(s, a))
  {
    StepClaims(s, a);
    TracedStayDistinct(s, Step(s, a), a);
  }

  lemma {:induction false} RunClaimsDistinct(states: seq<State>, actions: seq<Action>, n: nat)
    requires IsRun(states, actions) && n <= |actions|
    ensures DistinctClaims(states[n])
  {
    if n > 0 {
      RunClaimsDistinct(states, actions, n - 1);
      ClaimsStayDistinct(states[n - 1], actions[n - 1]);
    }
  }

  /** At every moment at most one of all workers owns the lease that is stored on a rental. */
  lemma OneOwner(states: seq<State>, actions: seq<Action>, n: nat, o: OrderId, v: WorkerId, w: WorkerId)
    requires IsRun(states, actions) && n <= |actions|
    requires o in states[n].db.rentals && states[n].db.rentals[o].lease.Some?
    requires v in states[n].workers && ClaimOf(states[n].workers[v]) == Some((o, states[n].db.rentals[o].lease.value))
    requires w in states[n].workers && ClaimOf(states[n].workers[w]) == Some((o, states[n].db.rentals[o].lease.value))
    ensures v == w
  {
    RunClaimsDistinct(states, actions, n);
  }
}
