/** Runs of one delivery with operator retries: numbers repeat, a confirmed delivery is sent again, and the
    limit of the attempts gives way. */
module Retries {
  import opened Rows
  import opened Transitions
  import opened Protocol
  import opened Schedules
  import Backoff

  const ROUND: int := 120 * MINUTE

  /** Every courier reaches its send boundary within five minutes of its own claim. */
  predicate InTime(s: State, a: Action) {
    a.ReachBoundary? && a.w in s.workers && s.workers[a.w].Courier? && s.workers[a.w].courier.Claimed? ==>
      s.workers[a.w].courier.at <= a.now < s.workers[a.w].courier.at + DELIVERY_LEASE
  }

  ghost predicate Timely(r: Run) {
    Valid(r) && forall i :: 0 <= i < |r.actions| ==> InTime(r.states[i], r.actions[i])
  }

  lemma On(r: Run, a: Action, t: State) returns (r': Run)
    requires Timely(r) && Leads(Last(r), a, t) && InTime(Last(r), a)
    ensures Timely(r') && Last(r') == t && r' == Run(r.states + [t], r.actions + [a])
  {
    r' := Then(r, a, t);
    forall i | 0 <= i < |r'.actions|
      ensures InTime(r'.states[i], r'.actions[i])
    {
      if i < |r.actions| {
        assert r'.states[i] == r.states[i] && r'.actions[i] == r.actions[i];
      }
    }
  }

  /** The welcome delivery of `o` on account 1, with `n` counted attempts and time left for more. */
  ghost predicate Running(s: State, o: OrderId, n: nat, t: Time) {
    && o in s.db.orders && o in s.db.rentals && StatusIs(s, o, Pending) && 1 in s.db.accounts && s.db.accounts[1] == OPEN
    && (forall x: Time :: (o, x) in s.stamps ==> x < t)
    && var r := s.db.rentals[o];
    && r.account == 1 && r.tier == 0 && r.status.Active? && r.template.Welcome? && r.attempts == n
    && (n > 0 ==> r.expiresAt >= 50 * ROUND) && r.minutes == 6000 && 0 <= t <= 40 * ROUND
  }

  /** No courier is at work; the last send failed, or the attempts are used up. */
  ghost predicate Idle(s: State, o: OrderId, n: nat, t: Time) {
    && Running(s, o, n, t) && s.workers == map[]
    && var r := s.db.rentals[o];
    if n < DELIVERY_MAX_ATTEMPTS then r.delivery.Failed? && (r.nextAttempt.Some? ==> r.nextAttempt.value <= t) else r.delivery.Manual?
  }

  /** Courier 0 owns the claim it made at `t`. */
  ghost predicate UnderWay(s: State, o: OrderId, n: nat, t: Time) {
    Running(s, o, n, t + 1) && s.workers == map[0 := Courier(o, Claimed(t))] && s.db.rentals[o].delivery.Sending?
  }

  function ClaimedRental(r: Rental, now: Time): Rental { r.(delivery := Sending, sendingSince := Some(now), nextAttempt := None) }

  function CourierStarted(s: State, w: WorkerId, o: OrderId, now: Time): State
    requires o in s.db.rentals
  {
    Enter(Stamp(s.(db := s.db.(rentals := s.db.rentals[o := ClaimedRental(s.db.rentals[o], now)])), o, now), w, Courier(o, Claimed(now)))
  }

  /** A delivery that failed and is due, or whose claim is five minutes old, may be claimed. */
  lemma StartLeads(s: State, w: WorkerId, o: OrderId, n: nat, now: Time)
    requires Running(s, o, n, now) && n < DELIVERY_MAX_ATTEMPTS && w !in s.workers
    requires var r := s.db.rentals[o];
             && (r.nextAttempt.Some? ==> r.nextAttempt.value <= now)
             && (r.delivery.Failed? || (r.delivery.Sending? && r.sendingSince.Some? && r.sendingSince.value <= now - DELIVERY_LEASE))
    ensures Leads(s, DeliveryStart(w, o, true, now), CourierStarted(s, w, o, now))
  {
    SameAccounts(s.db, o, ClaimedRental(s.db.rentals[o], now));
    assert ClaimDelivery(Load(s.db, o), true, now) == (WithRental(Load(s.db, o), ClaimedRental(s.db.rentals[o], now)), true);
  }

  lemma FailedRow(s: State, o: OrderId, n: nat, t: Time)
    requires UnderWay(s, o, n, t) && n < DELIVERY_MAX_ATTEMPTS && t <= 30 * ROUND
    ensures var s1 := BoundedState(s, 0, o, t + 1);
            && Sendable(s, o, 1, t + 1) && Sendable(s1, o, 1, t + 1) && s1.db.rentals[o].attempts == n + 1
            && Idle(SentState(s1, 0, o, n + 1, Errored, t + 1), o, n + 1, t + ROUND)
  {
    var s2 := SentState(BoundedState(s, 0, o, t + 1), 0, o, n + 1, Errored, t + 1);
    assert s2.workers == map[];
  }

  /** The claimed attempt is counted, made, and fails. */
  lemma Fail(r: Run, o: OrderId, n: nat, t: Time) returns (r': Run)
    requires Timely(r) && UnderWay(Last(r), o, n, t) && n < DELIVERY_MAX_ATTEMPTS && t <= 30 * ROUND
    ensures Timely(r') && Idle(Last(r'), o, n + 1, t + ROUND)
    ensures Last(r').log == Last(r).log + [Credentials(o, 1, Welcome, n + 1)] && Last(r').lowered == Last(r).lowered
  {
    var s := Last(r);
    FailedRow(s, o, n, t);
    BoundaryBounds(s, 0, o, 1, t, t + 1);
    var s1 := BoundedState(s, 0, o, t + 1);
    var r1 := On(r, ReachBoundary(0, true, true, [], t + 1), s1);
    DiscloseSends(s1, 0, o, 1, n + 1, Errored, t + 1);
    r' := On(r1, Disclose(0, true, true, Errored, t + 1), SentState(s1, 0, o, n + 1, Errored, t + 1));
  }

  lemma Retry(r: Run, o: OrderId, n: nat, t: Time) returns (r': Run)
    requires Timely(r) && Idle(Last(r), o, n, t) && 0 < n < DELIVERY_MAX_ATTEMPTS && t <= 30 * ROUND
    ensures Timely(r') && Idle(Last(r'), o, n + 1, t + ROUND)
    ensures Last(r').log == Last(r).log + [Credentials(o, 1, Welcome, n + 1)] && Last(r').lowered == Last(r).lowered
  {
    var s := Last(r);
    StartLeads(s, 0, o, n, t);
    var r1 := On(r, DeliveryStart(0, o, true, t), CourierStarted(s, 0, o, t));
    r' := Fail(r1, o, n, t);
  }

  predicate Counted(log: seq<Event>, o: OrderId, n: nat) {
    |log| == n && forall i :: 0 <= i < n ==> log[i] == Credentials(o, 1, Welcome, i + 1)
  }

  lemma FirstClaim(o: OrderId) returns (r: Run)
    ensures Timely(r) && UnderWay(Last(r), o, 0, 0) && Last(r).log == [] && Last(r).lowered == {}
  {
    var s := Ordered(Opening(), o, 6000);
    var r0 := Begin(Opening());
    LongOrderLeads(o);
    var r1 := On(r0, NewOrder(o, Paid, 6000, 0), s);
    FreeAccount(s.db, 1);
    AllocateOpens(s, 0, o, 1, 0);
    r := On(r1, Allocate(0, o, true, [1], 0),
            Enter(Stamp(s.(db := s.db.(rentals := s.db.rentals[o := Provisional(s, o, 1, 0)])), o, 0), 0, Courier(o, Claimed(0))));
  }

  lemma LongOrderLeads(o: OrderId)
    ensures Leads(Opening(), NewOrder(o, Paid, 6000, 0), Ordered(Opening(), o, 6000))
  {
  }

  lemma FirstFailure(o: OrderId) returns (r: Run)
    ensures Timely(r) && Idle(Last(r), o, 1, ROUND) && Counted(Last(r).log, o, 1) && Last(r).lowered == {}
  {
    var claimed := FirstClaim(o);
    r := Fail(claimed, o, 0, 0);
  }

  /** `n` failed sends, one every two hours, numbered from one. */
  lemma Failures(o: OrderId, n: nat) returns (r: Run)
    requires 1 <= n <= DELIVERY_MAX_ATTEMPTS
    ensures Timely(r) && Idle(Last(r), o, n, n * ROUND) && Counted(Last(r).log, o, n) && Last(r).lowered == {}
  {
    if n == 1 {
      r := FirstFailure(o);
    } else {
      var before := Failures(o, n - 1);
      r := Retry(before, o, n - 1, (n - 1) * ROUND);
    }
  }

  function ResetRental(r: Rental): Rental {
    r.(delivery := Failed, attempts := Backoff.Min(r.attempts, DELIVERY_MAX_ATTEMPTS - 1), sendingSince := None, nextAttempt := None)
  }

  function ResetState(s: State, w: WorkerId, o: OrderId): State
    requires o in s.db.rentals
  {
    var r := s.db.rentals[o];
    Enter(s.(db := s.db.(rentals := s.db.rentals[o := ResetRental(r)]),
             lowered := if r.attempts >= DELIVERY_MAX_ATTEMPTS then s.lowered + {o} else s.lowered), w, Operator(o, ResetRental(r)))
  }

  lemma ResetLeads(s: State, w: WorkerId, o: OrderId, n: nat, t: Time)
    requires Running(s, o, n, t) && (s.db.rentals[o].delivery.Manual? || s.db.rentals[o].delivery.Failed?) && w !in s.workers
    ensures Leads(s, RetryByOperator(w, o, true, t), ResetState(s, w, o))
  {
    SameAccounts(s.db, o, ResetRental(s.db.rentals[o]));
  }

  lemma ResetOn(r: Run, w: WorkerId, o: OrderId, n: nat, t: Time) returns (r': Run)
    requires Timely(r) && Running(Last(r), o, n, t) && w !in Last(r).workers
    requires Last(r).db.rentals[o].delivery.Manual? || Last(r).db.rentals[o].delivery.Failed?
    ensures Timely(r') && Last(r') == ResetState(Last(r), w, o)
  {
    ResetLeads(Last(r), w, o, n, t);
    r' := On(r, RetryByOperator(w, o, true, t), ResetState(Last(r), w, o));
  }

  /** The operator claims the delivery on the strength of the row as it was at the reset. */
  lemma OperatorLeads(s: State, w: WorkerId, o: OrderId, n: nat, read: Rental, now: Time)
    requires Running(s, o, n, now) && s.db.rentals[o].nextAttempt.None? && w in s.workers && s.workers[w] == Operator(o, read)
    requires read.status.Active? && read.delivery.Failed? && read.attempts < DELIVERY_MAX_ATTEMPTS
             && read.nextAttempt.None? && read.sendingSince.None?
    ensures Leads(s, OperatorStart(w, true, now), CourierStarted(s, w, o, now))
  {
    SameAccounts(s.db, o, ClaimedRental(s.db.rentals[o], now));
    assert ClaimRemembered(Load(s.db, o), read, true, now) == (WithRental(Load(s.db, o), ClaimedRental(s.db.rentals[o], now)), true);
  }

  /** Six sends fail, an operator retries, the next send fails as well: two messages with credentials carry the
      number six. */
  lemma NumberSixTwice(o: OrderId) returns (r: Run)
    ensures Timely(r) && o in Last(r).lowered
    ensures |Last(r).log| == 7 && Last(r).log[5] == Credentials(o, 1, Welcome, 6) && Last(r).log[6] == Credentials(o, 1, Welcome, 6)
  {
    var six := Failures(o, 6);
    var s, t := Last(six), 6 * ROUND;
    var s1 := ResetState(s, 0, o);
    var r1 := ResetOn(six, 0, o, 6, t);
    OperatorLeads(s1, 0, o, 5, ResetRental(s.db.rentals[o]), t);
    var r2 := On(r1, OperatorStart(0, true, t), CourierStarted(s1, 0, o, t));
    ResetUnderWay(s, o, t);
    r := Fail(r2, o, 5, t);
  }

  lemma ResetUnderWay(s: State, o: OrderId, t: Time)
    requires Idle(s, o, 6, t) && t <= 30 * ROUND
    ensures UnderWay(CourierStarted(ResetState(s, 0, o), 0, o, t), o, 5, t)
  {
  }

  // ---- A confirmed delivery that is sent again --------------------------------------------------

  /** The operator has reset the delivery and not claimed it yet, when courier 0 claims it. */
  ghost predicate Reset(s: State, o: OrderId, t: Time) {
    && Running(s, o, 1, t) && s.db.rentals[o].delivery.Failed? && s.db.rentals[o].nextAttempt.None?
    && s.workers == map[5 := Operator(o, s.db.rentals[o])] && s.db.rentals[o].sendingSince.None?
  }

  lemma ResetFirst(o: OrderId) returns (r: Run)
    ensures Timely(r) && Reset(Last(r), o, ROUND) && Counted(Last(r).log, o, 1)
  {
    var one := FirstFailure(o);
    r := ResetOn(one, 5, o, 1, ROUND);
  }

  /** Courier 0 sends, and the marketplace confirms. */
  ghost predicate Confirmed(s: State, o: OrderId, read: Rental, t: Time) {
    && Running(s, o, 2, t + 2) && s.db.rentals[o].delivery.Sent? && s.db.rentals[o].nextAttempt.None?
    && s.workers == map[5 := Operator(o, read)]
    && read.status.Active? && read.delivery.Failed? && read.attempts == 1 && read.nextAttempt.None? && read.sendingSince.None?
  }

  lemma ConfirmedRow(s: State, o: OrderId, t: Time)
    requires Reset(s, o, t) && t <= 30 * ROUND
    ensures var s1 := CourierStarted(s, 0, o, t);
            var s2 := BoundedState(s1, 0, o, t + 1);
            && Sendable(s1, o, 1, t + 1) && FreshStamp(s1, o, t + 1) && Sendable(s2, o, 1, t + 1) && s2.db.rentals[o].attempts == 2
            && Confirmed(SentState(s2, 0, o, 2, Accepted, t + 1), o, s.db.rentals[o], t)
  {
    var s3 := SentState(BoundedState(CourierStarted(s, 0, o, t), 0, o, t + 1), 0, o, 2, Accepted, t + 1);
    assert s3.workers == s.workers;
  }

  lemma Confirm(o: OrderId) returns (r: Run, read: Rental)
    ensures Timely(r) && Confirmed(Last(r), o, read, ROUND) && Counted(Last(r).log, o, 2)
  {
    var before := ResetFirst(o);
    var s, t := Last(before), ROUND;
    read := s.db.rentals[o];
    ConfirmedRow(s, o, t);
    StartLeads(s, 0, o, 1, t);
    var s1 := CourierStarted(s, 0, o, t);
    var r1 := On(before, DeliveryStart(0, o, true, t), s1);
    BoundaryBounds(s1, 0, o, 1, t, t + 1);
    var s2 := BoundedState(s1, 0, o, t + 1);
    var r2 := On(r1, ReachBoundary(0, true, true, [], t + 1), s2);
    DiscloseSends(s2, 0, o, 1, 2, Accepted, t + 1);
    r := On(r2, Disclose(0, true, true, Accepted, t + 1), SentState(s2, 0, o, 2, Accepted, t + 1));
  }

  lemma AgainRow(s: State, o: OrderId, read: Rental, t: Time)
    requires Confirmed(s, o, read, t) && t <= 30 * ROUND
    ensures var s1 := CourierStarted(s, 5, o, t + 2);
            var s2 := BoundedState(s1, 5, o, t + 3);
            Sendable(s1, o, 1, t + 3) && FreshStamp(s1, o, t + 3) && Sendable(s2, o, 1, t + 3) && s2.db.rentals[o].attempts == 3
  {
  }

  /** Another courier delivers between the operator's reset and the operator's own claim; the operator's session
      still holds the row as it was at the reset, takes the confirmed delivery for a failed one, and the
      credentials are sent once more. */
  lemma ConfirmedIsSentAgain(o: OrderId) returns (r: Run, i: nat)
    ensures Timely(r) && i < |r.actions| && r.actions[i].OperatorStart?
    ensures o in r.states[i].db.rentals && r.states[i].db.rentals[o].delivery.Sent?
    ensures |r.states[i].log| == 2 && Last(r).log == r.states[i].log + [Credentials(o, 1, Welcome, 3)]
  {
    var before, read := Confirm(o);
    var s, t := Last(before), ROUND;
    i := |before.actions|;
    AgainRow(s, o, read, t);
    OperatorLeads(s, 5, o, 2, read, t + 2);
    var s1 := CourierStarted(s, 5, o, t + 2);
    var r1 := On(before, OperatorStart(5, true, t + 2), s1);
    BoundaryBounds(s1, 5, o, 1, t + 2, t + 3);
    var s2 := BoundedState(s1, 5, o, t + 3);
    var r2 := On(r1, ReachBoundary(5, true, true, [], t + 3), s2);
    DiscloseSends(s2, 5, o, 1, 3, Accepted, t + 3);
    r := On(r2, Disclose(5, true, true, Accepted, t + 3), SentState(s2, 5, o, 3, Accepted, t + 3));
  }

  /** The same claim, for which the order has no exact provenance any more. */
  lemma UnverifiedLeads(s: State, w: WorkerId, o: OrderId, n: nat, read: Rental, now: Time)
    requires Running(s, o, n, now) && w in s.workers && s.workers[w] == Operator(o, read)
    requires read.delivery.Failed? && read.nextAttempt.None?
    ensures Leads(s, OperatorStart(w, false, now),
                  Leave(Stamp(s.(db := s.db.(rentals := s.db.rentals[o := s.db.rentals[o].(delivery := Manual)])), o, now), w))
  {
    SameAccounts(s.db, o, s.db.rentals[o].(delivery := Manual));
    assert ClaimRemembered(Load(s.db, o), read, false, now) == (WithRental(Load(s.db, o), s.db.rentals[o].(delivery := Manual)), false);
  }

  /** Or the order is found unverified at the operator's claim: the quarantine tests the row of the reset, and the
      confirmed delivery is put down as one for the operator. */
  lemma ConfirmedGoesManual(o: OrderId) returns (r: Run, i: nat)
    ensures Timely(r) && i + 1 == |r.actions| && r.actions[i].OperatorStart?
    ensures o in r.states[i].db.rentals && r.states[i].db.rentals[o].delivery.Sent?
    ensures o in Last(r).db.rentals && Last(r).db.rentals[o].delivery.Manual?
  {
    var before, read := Confirm(o);
    var s, t := Last(before), ROUND;
    i := |before.actions|;
    UnverifiedLeads(s, 5, o, 2, read, t + 2);
    r := On(before, OperatorStart(5, false, t + 2),
            Leave(Stamp(s.(db := s.db.(rentals := s.db.rentals[o := s.db.rentals[o].(delivery := Manual)])), o, t + 2), 5));
  }

  // ---- A seventh attempt ------------------------------------------------------------------------

  /** A courier that finds its account not eligible hands the delivery to the operator. */
  lemma HandOver(s: State, w: WorkerId, o: OrderId, n: nat, now: Time)
    requires Running(s, o, n, now) && s.db.rentals[o].delivery.Sending? && n > 0
    requires w in s.workers && s.workers[w] == Courier(o, AtBoundary(1, n))
    ensures Leads(s, Disclose(w, true, false, Accepted, now), HandedOver(s, w, o))
  {
    var r := s.db.rentals[o];
    SameAccounts(s.db, o, NeedsOperator(r));
    assert Send(Load(s.db, o), true, false, 1, n, Accepted, now) == (WithRental(Load(s.db, o), NeedsOperator(r)), false);
  }

  function HandedOver(s: State, w: WorkerId, o: OrderId): State
    requires o in s.db.rentals
  {
    Leave(s.(db := s.db.(rentals := s.db.rentals[o := NeedsOperator(s.db.rentals[o])])), w)
  }

  /** Courier 0 has counted attempt five at `t + 1` and stalls. */
  ghost predicate Stalled(s: State, o: OrderId, t: Time) {
    && Running(s, o, 5, t + 2) && s.workers == map[0 := Courier(o, AtBoundary(1, 5))]
    && s.db.rentals[o].delivery.Sending? && s.db.rentals[o].sendingSince == Some(t + 1) && s.db.rentals[o].nextAttempt.None?
  }

  lemma CountedRow(s: State, o: OrderId, t: Time)
    requires UnderWay(s, o, 4, t) && s.db.rentals[o].nextAttempt.None?
    ensures Sendable(s, o, 1, t + 1) && (t < 39 * ROUND ==> Stalled(BoundedState(s, 0, o, t + 1), o, t))
  {
    assert BoundedState(s, 0, o, t + 1).workers == map[0 := Courier(o, AtBoundary(1, 5))];
  }

  lemma Stall(o: OrderId) returns (r: Run)
    ensures Timely(r) && Stalled(Last(r), o, 4 * ROUND)
  {
    var four := Failures(o, 4);
    var s, t := Last(four), 4 * ROUND;
    StartLeads(s, 0, o, 4, t);
    var s1 := CourierStarted(s, 0, o, t);
    var r1 := On(four, DeliveryStart(0, o, true, t), s1);
    CountedRow(s1, o, t);
    BoundaryBounds(s1, 0, o, 1, t, t + 1);
    r := On(r1, ReachBoundary(0, true, true, [], t + 1), BoundedState(s1, 0, o, t + 1));
  }

  /** Courier 1 has taken the delivery over at `u`, five minutes later. */
  ghost predicate TakenOver(s: State, o: OrderId, u: Time) {
    && Running(s, o, 5, u + 1) && s.db.rentals[o].delivery.Sending?
    && s.workers == map[0 := Courier(o, AtBoundary(1, 5)), 1 := Courier(o, Claimed(u))]
  }

  lemma TakeOver(o: OrderId) returns (r: Run, u: Time)
    ensures Timely(r) && TakenOver(Last(r), o, u) && u <= 5 * ROUND
  {
    var before := Stall(o);
    var s := Last(before);
    u := 4 * ROUND + 1 + DELIVERY_LEASE;
    TakenOverRow(s, o, 4 * ROUND);
    StartLeads(s, 1, o, 5, u);
    r := On(before, DeliveryStart(1, o, true, u), CourierStarted(s, 1, o, u));
  }

  lemma TakenOverRow(s: State, o: OrderId, t: Time)
    requires Stalled(s, o, t) && t < 30 * ROUND
    ensures var u := t + 1 + DELIVERY_LEASE; Running(s, o, 5, u) && TakenOver(CourierStarted(s, 1, o, u), o, u)
  {
  }

  /** Courier 0 has woken up and given the delivery to the operator. */
  ghost predicate Handed(s: State, o: OrderId, u: Time) {
    && Running(s, o, 5, u + 2) && s.db.rentals[o].delivery.Manual?
    && s.workers == map[1 := Courier(o, Claimed(u))] && 2 !in s.workers
  }

  lemma HandedRow(s: State, o: OrderId, u: Time)
    requires TakenOver(s, o, u) && u < 30 * ROUND
    ensures Running(s, o, 5, u + 1) && Handed(HandedOver(s, 0, o), o, u)
  {
    assert HandedOver(s, 0, o).workers == map[1 := Courier(o, Claimed(u))];
  }

  lemma WakeUp(o: OrderId) returns (r: Run, u: Time)
    ensures Timely(r) && Handed(Last(r), o, u) && u <= 5 * ROUND
  {
    var before;
    before, u := TakeOver(o);
    var s := Last(before);
    HandedRow(s, o, u);
    HandOver(s, 0, o, 5, u + 1);
    r := On(before, Disclose(0, true, false, Accepted, u + 1), HandedOver(s, 0, o));
  }

  /** The operator has retried. */
  ghost predicate Retried(s: State, o: OrderId, u: Time) {
    && Running(s, o, 5, u + 3) && s.db.rentals[o] == ResetRental(s.db.rentals[o])
    && s.workers == map[1 := Courier(o, Claimed(u)), 2 := Operator(o, s.db.rentals[o])]
  }

  lemma RetriedRow(s: State, o: OrderId, u: Time)
    requires Handed(s, o, u) && u < 30 * ROUND
    ensures Retried(ResetState(s, 2, o), o, u)
  {
  }

  lemma OperatorRetries(o: OrderId) returns (r: Run, u: Time)
    ensures Timely(r) && Retried(Last(r), o, u) && u <= 5 * ROUND
  {
    var before;
    before, u := WakeUp(o);
    RetriedRow(Last(before), o, u);
    r := ResetOn(before, 2, o, 5, u + 2);
  }

  /** The operator, as courier 2, is let in beside courier 1. */
  ghost predicate Beside(s: State, o: OrderId, u: Time) {
    && Running(s, o, 5, u + 4) && s.db.rentals[o].delivery.Sending?
    && s.workers == map[1 := Courier(o, Claimed(u)), 2 := Courier(o, Claimed(u + 3))]
  }

  lemma LetIn(o: OrderId) returns (r: Run, u: Time)
    ensures Timely(r) && Beside(Last(r), o, u) && u <= 5 * ROUND
  {
    var before;
    before, u := OperatorRetries(o);
    var s := Last(before);
    OperatorLeads(s, 2, o, 5, s.db.rentals[o], u + 3);
    r := On(before, OperatorStart(2, true, u + 3), CourierStarted(s, 2, o, u + 3));
  }

  /** Courier 2 has counted attempt six. */
  ghost predicate Sixth(s: State, o: OrderId, u: Time) {
    && Sendable(s, o, 1, u + 5) && FreshStamp(s, o, u + 5) && s.db.rentals[o].attempts == 6
    && 1 in s.workers && s.workers[1] == Courier(o, Claimed(u))
  }

  lemma SixthRow(s: State, o: OrderId, u: Time)
    requires Beside(s, o, u) && u < 30 * ROUND
    ensures Sendable(s, o, 1, u + 4) && FreshStamp(s, o, u + 4) && Sixth(BoundedState(s, 2, o, u + 4), o, u)
  {
  }

  lemma SixthAttempt(o: OrderId) returns (r: Run, u: Time)
    ensures Timely(r) && Sixth(Last(r), o, u)
  {
    var before;
    before, u := LetIn(o);
    var s := Last(before);
    SixthRow(s, o, u);
    BoundaryBounds(s, 2, o, 1, u + 3, u + 4);
    r := On(before, ReachBoundary(2, true, true, [], u + 4), BoundedState(s, 2, o, u + 4));
  }

  /** A run in which every courier reaches its boundary within five minutes of its own claim, and the seventh
      attempt of a delivery is counted all the same.  The scheduler and an operator retry exclude each other in one
      process, so couriers 0 and 1 are two replays of the sale's callback, which runs outside that lock; only
      courier 2 is the operator's. */
  lemma SeventhAttempt(o: OrderId) returns (r: Run)
    ensures Timely(r) && o in Last(r).db.rentals && Last(r).db.rentals[o].attempts == 7
  {
    var before, u := SixthAttempt(o);
    var s := Last(before);
    BoundaryBounds(s, 1, o, 1, u, u + 5);
    r := On(before, ReachBoundary(1, true, true, [], u + 5), BoundedState(s, 1, o, u + 5));
  }
}
