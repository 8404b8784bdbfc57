/** The attempt limit of a credential delivery, and where it gives way. */
module Attempts {
  import opened Rows
  import opened Transitions
  import opened Protocol
  import Custody
  import Deliveries

  /** Every courier reaches its send boundary while its own claim is still the one stored, and the operator claims
      the delivery while no attempt was counted since the reset. */
  ghost predicate Prompt(s: State, a: Action) {
    && (a.OperatorStart? && a.w in s.workers && s.workers[a.w].Operator? && s.workers[a.w].order in s.db.rentals ==>
          s.db.rentals[s.workers[a.w].order].attempts == s.workers[a.w].read.attempts)
    && ((a.ReachBoundary? || a.ReachBoundaryAgain?) && CourierIn(s, a.w) && !s.workers[a.w].courier.AtBoundary? ==>
      var o := s.workers[a.w].order;
      o in s.db.rentals && s.db.rentals[o].sendingSince == Some(s.workers[a.w].courier.at))
  }

  predicate ClaimStored(r: Rental, worker: Worker, o: OrderId) {
    worker.Courier? && worker.order == o && !worker.courier.AtBoundary? && r.sendingSince == Some(worker.courier.at)
  }

  /** The limit holds, and whoever owns the stored claim has an attempt left. */
  ghost predicate LimitOk(s: State, o: OrderId)
    requires o in s.db.rentals
  {
    && s.db.rentals[o].attempts <= DELIVERY_MAX_ATTEMPTS
    && forall w :: w in s.workers && ClaimStored(s.db.rentals[o], s.workers[w], o) ==>
         s.db.rentals[o].attempts < DELIVERY_MAX_ATTEMPTS
  }

  ghost predicate Limited(s: State) {
    forall o :: o in s.db.rentals ==> LimitOk(s, o)
  }

  /** What a transaction may do to the count and to the stored claim. */
  predicate Counting(r: Rental, r': Rental, claimed: Option<Time>) {
    if r'.sendingSince == r.sendingSince then r'.attempts == r.attempts || r'.attempts < DELIVERY_MAX_ATTEMPTS
    else if r'.sendingSince.None? then r'.attempts <= DELIVERY_MAX_ATTEMPTS
    else
      && claimed == r'.sendingSince
      && r'.attempts <= DELIVERY_MAX_ATTEMPTS
  }

  /** The time an action stores as the claim of a delivery. */
  function ClaimTime(a: Action): Option<Time> {
    match a
    case ReplaceFinish(_, _, _, _, stamp) => Some(stamp)
    case Allocate(_, _, _, _, now) => Some(now)
    case DeliveryStart(_, _, _, now) => Some(now)
    case OperatorStart(_, _, now) => Some(now)
    case ReachBoundary(_, _, _, _, now) => Some(now)
    case ReachBoundaryAgain(_, _, _, now) => Some(now)
    case _ => None
  }

  ghost predicate TouchCounts(s: State, a: Action, touch: Touch) {
    touch.Rows? && touch.rows.rental.Some? ==>
      if touch.o in s.db.rentals then Counting(s.db.rentals[touch.o], touch.rows.rental.value, ClaimTime(a))
      else touch.rows.rental.value.attempts == 0
  }

  lemma RevokingCounts(s: State, a: Action)
    requires Enabled(s, a) && Revoking(a)
    ensures TouchCounts(s, a, RevokingRows(s, a))
  {
  }

  lemma BoundaryCounts(s: State, a: Action)
    requires Enabled(s, a) && Bounding(a)
    requires var o := s.workers[a.w].order;
             o in s.db.rentals && s.db.rentals[o].attempts < DELIVERY_MAX_ATTEMPTS && s.db.rentals[o].sendingSince != Some(a.now)
    ensures TouchCounts(s, a, DeliveringRows(s, a))
  {
  }

  lemma SendCounts(s: State, a: Action)
    requires Enabled(s, a) && Delivering(a) && !a.ReachBoundary? && !a.ReachBoundaryAgain?
    ensures TouchCounts(s, a, DeliveringRows(s, a))
  {
  }

  lemma DeliveringCounts(s: State, a: Action)
    requires Enabled(s, a) && Delivering(a)
    requires Custody.Inv(s) && Limited(s) && Prompt(s, a)
    ensures TouchCounts(s, a, DeliveringRows(s, a))
  {
    if Bounding(a) {
      assert Custody.WorkerOk(s, s.workers[a.w]);
      assert LimitOk(s, s.workers[a.w].order);
      assert ClaimStored(s.db.rentals[s.workers[a.w].order], s.workers[a.w], s.workers[a.w].order);
      BoundaryCounts(s, a);
    } else {
      SendCounts(s, a);
    }
  }

  lemma RecordingCounts(s: State, a: Action)
    requires Enabled(s, a) && Recording(a)
    ensures TouchCounts(s, a, RecordingRows(s, a))
  {
  }

  lemma RememberingCounts(s: State, a: Action)
    requires Enabled(s, a) && Remembering(a)
    requires Custody.Inv(s) && Prompt(s, a)
    ensures TouchCounts(s, a, RememberingRows(s, a))
  {
    if a.OperatorStart? {
      assert Custody.WorkerOk(s, s.workers[a.w]);
    }
  }

  /** A courier of the new state that was not there before, or not at the same stage. */
  ghost predicate Arrives(s: State, t: State, a: Action, v: WorkerId)
    requires v in t.workers
  {
    match t.workers[v]
    case Courier(o, Claimed(at)) =>
      ClaimTime(a) == Some(at) && o in t.db.rentals && t.db.rentals[o].attempts < DELIVERY_MAX_ATTEMPTS
    case Courier(o, Relocated(at, _)) =>
      v in s.workers && s.workers[v] == Courier(o, Claimed(at)) && o in s.db.rentals && o in t.db.rentals
      && t.db.rentals[o].attempts == s.db.rentals[o].attempts && t.db.rentals[o].sendingSince == s.db.rentals[o].sendingSince
    case _ => true
  }

  ghost predicate Arrivals(s: State, t: State, a: Action) {
    forall v :: v in t.workers ==> (v in s.workers && t.workers[v] == s.workers[v]) || Arrives(s, t, a, v)
  }

  lemma RevokingArrivals(s: State, a: Action)
    requires Enabled(s, a) && Revoking(a)
    ensures Arrivals(s, RevokingStep(s, a), a)
  {
  }

  lemma BoundaryArrivals(s: State, a: Action)
    requires Enabled(s, a) && Bounding(a) && s.workers[a.w].order in s.db.rentals
    ensures Arrivals(s, DeliveringStep(s, a), a)
  {
  }

  lemma SendArrivals(s: State, a: Action)
    requires Enabled(s, a) && Delivering(a) && !a.ReachBoundary? && !a.ReachBoundaryAgain?
    ensures Arrivals(s, DeliveringStep(s, a), a)
  {
  }

  lemma DeliveringArrivals(s: State, a: Action)
    requires Enabled(s, a) && Delivering(a) && Custody.Inv(s)
    ensures Arrivals(s, DeliveringStep(s, a), a)
  {
    if Bounding(a) {
      assert Custody.WorkerOk(s, s.workers[a.w]);
      BoundaryArrivals(s, a);
    } else {
      SendArrivals(s, a);
    }
  }

  lemma RecordingArrivals(s: State, a: Action)
    requires Enabled(s, a) && Recording(a)
    ensures Arrivals(s, RecordingStep(s, a), a)
  {
  }

  lemma OperatorArrivals(s: State, a: Action)
    requires Enabled(s, a) && a.OperatorStart? && s.workers[a.w].order in s.db.rentals
    requires s.db.rentals[s.workers[a.w].order].attempts < DELIVERY_MAX_ATTEMPTS
    ensures Arrivals(s, RememberingStep(s, a), a)
  {
  }

  lemma RememberingArrivals(s: State, a: Action)
    requires Enabled(s, a) && Remembering(a)
    requires Custody.Inv(s) && Prompt(s, a)
    ensures Arrivals(s, RememberingStep(s, a), a)
  {
    if a.OperatorStart? {
      assert Custody.WorkerOk(s, s.workers[a.w]);
      OperatorArrivals(s, a);
    }
  }

  /** The claim an action stores is not one that a courier of the order already holds. */
  ghost predicate ClaimIsFresh(s: State, a: Action, touch: Touch) {
    touch.Rows? && ClaimTime(a).Some? ==> FreshStamp(s, touch.o, ClaimTime(a).value)
  }

  lemma ClaimsAreFresh(s: State, a: Action)
    requires Enabled(s, a)
    ensures ClaimIsFresh(s, a, Touched(s, a))
  {
  }

  /** One order after the action: the bound, and then the claims. */
  lemma BoundKept(s: State, t: State, a: Action, touch: Touch, o: OrderId)
    requires Limited(s) && WritesOnly(s, t, a, touch) && TouchCounts(s, a, touch) && o in t.db.rentals
    ensures t.db.rentals[o].attempts <= DELIVERY_MAX_ATTEMPTS
  {
  }

  lemma OldClaimKept(s: State, t: State, a: Action, touch: Touch, o: OrderId, w: WorkerId)
    requires Custody.Inv(s) && Limited(s) && WritesOnly(s, t, a, touch) && TouchCounts(s, a, touch) && ClaimIsFresh(s, a, touch)
    requires o in t.db.rentals && w in s.workers && ClaimStored(t.db.rentals[o], s.workers[w], o)
    ensures t.db.rentals[o].attempts < DELIVERY_MAX_ATTEMPTS
  {
  }

  lemma NewClaimKept(s: State, t: State, a: Action, o: OrderId, w: WorkerId)
    requires Limited(s) && o in t.db.rentals && w in t.workers && ClaimStored(t.db.rentals[o], t.workers[w], o)
    requires Arrives(s, t, a, w)
    ensures t.db.rentals[o].attempts < DELIVERY_MAX_ATTEMPTS
  {
  }

  lemma OrderKeeps(s: State, t: State, a: Action, touch: Touch, o: OrderId)
    requires Custody.Inv(s) && Limited(s) && WritesOnly(s, t, a, touch)
    requires TouchCounts(s, a, touch) && Arrivals(s, t, a) && ClaimIsFresh(s, a, touch)
    requires o in t.db.rentals
    ensures LimitOk(t, o)
  {
    BoundKept(s, t, a, touch, o);
    forall w | w in t.workers && ClaimStored(t.db.rentals[o], t.workers[w], o)
      ensures t.db.rentals[o].attempts < DELIVERY_MAX_ATTEMPTS
    {
      if w in s.workers && t.workers[w] == s.workers[w] {
        OldClaimKept(s, t, a, touch, o, w);
      } else {
        NewClaimKept(s, t, a, o, w);
      }
    }
  }

  lemma StepCounts(s: State, a: Action)
    requires Custody.Inv(s) && Limited(s) && Enabled(s, a) && Prompt(s, a)
    ensures TouchCounts(s, a, Touched(s, a)) && Arrivals(s, Step(s, a), a)
  {
    if Revoking(a) {
      RevokingCounts(s, a);
      RevokingArrivals(s, a);
    } else if Delivering(a) {
      DeliveringCounts(s, a);
      DeliveringArrivals(s, a);
    } else if Queueing(a) {
      QueueingIsQuiet(s, a);
    } else if Remembering(a) {
      RememberingCounts(s, a);
      RememberingArrivals(s, a);
    } else {
      RecordingCounts(s, a);
      RecordingArrivals(s, a);
    }
  }

  lemma StepKeeps(s: State, a: Action)
    requires Custody.Inv(s) && Limited(s) && Enabled(s, a) && Prompt(s, a)
    ensures Limited(Step(s, a))
  {
    TouchedIsWritten(s, a);
    ClaimsAreFresh(s, a);
    StepCounts(s, a);
    forall o | o in Step(s, a).db.rentals
      ensures LimitOk(Step(s, a), o)
    {
      OrderKeeps(s, Step(s, a), a, Touched(s, a), o);
    }
  }

  lemma {:induction false} RunKeeps(states: seq<State>, actions: seq<Action>, n: nat)
    requires IsRun(states, actions) && n <= |actions|
    requires forall i :: 0 <= i < n ==> Prompt(states[i], actions[i])
    ensures Limited(states[n])
  {
    if n > 0 {
      RunKeeps(states, actions, n - 1);
      Custody.RunKeeps(states, actions, n - 1);
      StepKeeps(states[n - 1], actions[n - 1]);
    }
  }

  /** No delivery is attempted more than six times, in any run in which every courier still owns the stored
      claim when it reaches its send boundary. */
  lemma AttemptLimit(states: seq<State>, actions: seq<Action>, n: nat, o: OrderId)
    requires IsRun(states, actions) && n <= |actions|
    requires forall i :: 0 <= i < n ==> Prompt(states[i], actions[i])
    requires o in states[n].db.rentals
    ensures states[n].db.rentals[o].attempts <= DELIVERY_MAX_ATTEMPTS
  {
    RunKeeps(states, actions, n);
    assert LimitOk(states[n], o);
  }

  // ---- The exact condition ----------------------------------------------------------------------

  /** What the boundary that a courier reaches answers. */
  ghost function AnswerOf(s: State, a: Action): BoundaryAnswer
    requires Enabled(s, a) && Bounding(a)
  {
    var o := s.workers[a.w].order;
    match a
    case ReachBoundary(w, verified, limitsOk, candidates, now) =>
      var current := if o in s.db.rentals then Some(s.db.rentals[o].account) else None;
      Boundary(Load(s.db, o), verified, limitsOk, Pick(s.db, candidates, current), now).1
    case ReachBoundaryAgain(w, verified, limitsOk, now) =>
      BoundaryAfterMove(Load(s.db, o), verified, limitsOk, s.workers[w].courier.account, now).1
  }

  /** A courier is let through to its send although the attempts are used up: the boundary does not look at the
      count again. */
  ghost predicate PassesLimit(s: State, a: Action, o: OrderId) {
    && Enabled(s, a) && Bounding(a) && s.workers[a.w].order == o && o in s.db.rentals
    && s.db.rentals[o].attempts == DELIVERY_MAX_ATTEMPTS && AnswerOf(s, a).Bound?
  }

  /** Only a boundary counts an attempt; everything else leaves the count or lowers it. */
  ghost predicate TouchAttempts(s: State, a: Action, touch: Touch)
    requires Enabled(s, a)
  {
    touch.Rows? && touch.rows.rental.Some? ==>
      if touch.o !in s.db.rentals then touch.rows.rental.value.attempts == 0
      else if Bounding(a) then
        touch.o == s.workers[a.w].order
        && touch.rows.rental.value.attempts == s.db.rentals[touch.o].attempts + (if AnswerOf(s, a).Bound? then 1 else 0)
      else touch.rows.rental.value.attempts <= s.db.rentals[touch.o].attempts
  }

  lemma RevokingAttempts(s: State, a: Action)
    requires Enabled(s, a) && Revoking(a)
    ensures TouchAttempts(s, a, RevokingRows(s, a))
  {
  }

  lemma BoundingAttempts(s: State, a: Action)
    requires Enabled(s, a) && Bounding(a)
    ensures TouchAttempts(s, a, DeliveringRows(s, a))
  {
  }

  lemma SendAttempts(s: State, a: Action)
    requires Enabled(s, a) && Delivering(a) && !Bounding(a)
    ensures TouchAttempts(s, a, DeliveringRows(s, a))
  {
  }

  lemma RecordingAttempts(s: State, a: Action)
    requires Enabled(s, a) && Recording(a)
    ensures TouchAttempts(s, a, RecordingRows(s, a))
  {
  }

  lemma RememberingAttempts(s: State, a: Action)
    requires Enabled(s, a) && Remembering(a)
    ensures TouchAttempts(s, a, RememberingRows(s, a))
  {
  }

  lemma StepAttempts(s: State, a: Action)
    requires Enabled(s, a)
    ensures TouchAttempts(s, a, Touched(s, a))
  {
    if Revoking(a) {
      RevokingAttempts(s, a);
    } else if Bounding(a) {
      BoundingAttempts(s, a);
    } else if Delivering(a) {
      SendAttempts(s, a);
    } else if Remembering(a) {
      RememberingAttempts(s, a);
    } else if Recording(a) {
      RecordingAttempts(s, a);
    }
  }

  predicate WithinLimit(s: State, o: OrderId) { o in s.db.rentals ==> s.db.rentals[o].attempts <= DELIVERY_MAX_ATTEMPTS }

  /** The touched order's new count is past the limit exactly if `passes`. */
  predicate TouchPasses(s: State, touch: Touch, o: OrderId, passes: bool) {
    && (touch.Rows? && touch.o == o && touch.rows.rental.Some? ==> (touch.rows.rental.value.attempts > DELIVERY_MAX_ATTEMPTS <==> passes))
    && (passes ==> touch.Rows? && touch.o == o && touch.rows.rental.Some?)
  }

  lemma PassesExactly(s: State, a: Action, touch: Touch, o: OrderId)
    requires Enabled(s, a) && TouchAttempts(s, a, touch) && WithinLimit(s, o)
    requires Bounding(a) && s.workers[a.w].order in s.db.rentals ==>
               touch.Rows? && touch.o == s.workers[a.w].order && touch.rows.rental.Some?
    ensures TouchPasses(s, touch, o, PassesLimit(s, a, o))
  {
  }

  lemma LimitFrom(s: State, t: State, a: Action, touch: Touch, o: OrderId, passes: bool)
    requires WritesOnly(s, t, a, touch) && TouchPasses(s, touch, o, passes) && WithinLimit(s, o)
    ensures WithinLimit(t, o) <==> !passes
  {
  }

  lemma BoundingKeepsRental(s: State, a: Action)
    requires Enabled(s, a) && Bounding(a) && s.workers[a.w].order in s.db.rentals
    ensures DeliveringRows(s, a).Rows? && DeliveringRows(s, a).o == s.workers[a.w].order && DeliveringRows(s, a).rows.rental.Some?
  {
  }

  lemma StepPasses(s: State, a: Action, o: OrderId)
    requires Enabled(s, a) && WithinLimit(s, o)
    ensures TouchPasses(s, Touched(s, a), o, PassesLimit(s, a, o))
  {
    StepAttempts(s, a);
    if Bounding(a) && s.workers[a.w].order in s.db.rentals {
      BoundingKeepsRental(s, a);
    }
    PassesExactly(s, a, Touched(s, a), o);
  }

  /** The exact condition: an action takes the count of a delivery past six if and only if it is a courier of that
      order reaching a boundary that lets it through although six attempts were counted. */
  lemma LimitExactly(s: State, a: Action, o: OrderId)
    requires Enabled(s, a) && WithinLimit(s, o)
    ensures WithinLimit(Step(s, a), o) <==> !PassesLimit(s, a, o)
  {
    TouchedIsWritten(s, a);
    StepPasses(s, a, o);
    LimitFrom(s, Step(s, a), a, Touched(s, a), o, PassesLimit(s, a, o));
  }

  ghost predicate AlwaysWithin(states: seq<State>, n: nat, o: OrderId)
    requires n < |states|
  {
    forall i :: 0 <= i <= n ==> WithinLimit(states[i], o)
  }

  ghost predicate NonePasses(states: seq<State>, actions: seq<Action>, n: nat, o: OrderId)
    requires n <= |actions| && n <= |states|
  {
    forall i :: 0 <= i < n ==> !PassesLimit(states[i], actions[i], o)
  }

  /** Over whole runs: the count of a delivery stays within six if and only if no boundary lets a courier through
      at six. */
  lemma {:induction false} LimitOverRun(states: seq<State>, actions: seq<Action>, n: nat, o: OrderId)
    requires IsRun(states, actions) && n <= |actions|
    ensures AlwaysWithin(states, n, o) <==> NonePasses(states, actions, n, o)
  {
    if n > 0 {
      LimitOverRun(states, actions, n - 1, o);
      assert NonePasses(states, actions, n, o) <==> NonePasses(states, actions, n - 1, o) && !PassesLimit(states[n - 1], actions[n - 1], o);
      assert AlwaysWithin(states, n, o) <==> AlwaysWithin(states, n - 1, o) && WithinLimit(states[n], o);
      if AlwaysWithin(states, n - 1, o) {
        LimitExactly(states[n - 1], actions[n - 1], o);
      }
    }
  }

  /** Being within the five minutes of one's own claim is not enough: a late courier that finds the account
      ineligible hands the delivery to the operator, whose retry opens a second claim beside the first. */
  lemma LeaseTimeIsNotEnough(x: Locked, t: Time) returns (seventh: BoundaryAnswer)
    requires x.rental.Some? && x.account.Some? && Fulfillable(x.order.status)
    requires OpenForSale(x.account.value) && x.account.value.tier == x.rental.value.tier
    requires var r := x.rental.value;
             && r.status.Active? && r.template.Welcome? && r.delivery.Sending? && r.attempts == 5
             && r.sendingSince == Some(t - DELIVERY_LEASE) && r.nextAttempt.None?
             && r.expiresAt > t + 3 * MINUTE
    ensures var (claimed, first) := ClaimDelivery(x, true, t);
            var late := Send(claimed, true, false, x.rental.value.account, 5, Accepted, t + 1).0;
            var (reset, _) := OperatorRetry(late, true, t + 2);
            var (again, second) := ClaimDelivery(reset, true, t + 3);
            var (bounded, sixth) := Boundary(again, true, true, None, t + 4);
            && first && second && sixth == Bound(x.rental.value.account, 6)
            && seventh == Boundary(bounded, true, true, None, t + 5).1
            && seventh == Bound(x.rental.value.account, 7)
            && t + 5 < t + DELIVERY_LEASE
  {
    var claimed := ClaimDelivery(x, true, t).0;
    var late := Send(claimed, true, false, x.rental.value.account, 5, Accepted, t + 1).0;
    assert late.rental == Some(NeedsOperator(claimed.rental.value));
    var again := ClaimDelivery(OperatorRetry(late, true, t + 2).0, true, t + 3).0;
    var bounded := Boundary(again, true, true, None, t + 4).0;
    seventh := Boundary(bounded, true, true, None, t + 5).1;
  }

  /** The numbers of the welcome sends of `o` so far are all smaller than `k`. */
  ghost predicate NumbersBelow(log: seq<Event>, o: OrderId, k: nat) {
    forall i :: 0 <= i < |log| && Deliveries.IsWelcome(log[i], o) ==> log[i].attempt < k
  }

  /** The row side of a retry, the claim after it, and the boundary after that. */
  lemma RetriedNumber(x: Locked, limitsOk: bool, pick: Option<AccountId>, t0: Time, t1: Time, t2: Time)
    requires x.rental.Some? && t0 <= t1
    ensures var (reset, wasReset) := OperatorRetry(x, true, t0);
            var (claimed, owns) := ClaimDelivery(reset, true, t1);
            var answer := Boundary(claimed, true, limitsOk, pick, t2).1;
            && (wasReset ==> owns)
            && (wasReset && answer.Bound? ==>
                  answer.attempt == if x.rental.value.attempts < DELIVERY_MAX_ATTEMPTS then x.rental.value.attempts + 1 else DELIVERY_MAX_ATTEMPTS)
  {
  }

  lemma NumbersCounted(s: State, o: OrderId)
    requires Deliveries.DInv(s) && o in s.db.rentals && s.db.rentals[o].template.Welcome?
    ensures o !in s.lowered ==> NumbersBelow(s.log, o, s.db.rentals[o].attempts + 1)
    ensures o in s.lowered ==> s.db.rentals[o].attempts >= DELIVERY_MAX_ATTEMPTS - 1
  {
    assert Deliveries.WelcomeOk(s, o);
  }

  /** In every run: an operator retry lets the delivery be claimed again, and the number of the next attempt is
      larger than those of all sends made so far if and only if none of them had used up the attempts. */
  lemma RetriedNumberIsNew(states: seq<State>, actions: seq<Action>, n: nat, o: OrderId,
                           limitsOk: bool, pick: Option<AccountId>, t0: Time, t1: Time, t2: Time)
    requires IsRun(states, actions) && n <= |actions| && t0 <= t1
    requires o in states[n].db.orders && o in states[n].db.rentals && states[n].db.rentals[o].template.Welcome?
    ensures var (reset, wasReset) := OperatorRetry(Load(states[n].db, o), true, t0);
            var (claimed, owns) := ClaimDelivery(reset, true, t1);
            var answer := Boundary(claimed, true, limitsOk, pick, t2).1;
            && (wasReset ==> owns)
            && (wasReset && answer.Bound? ==>
                  (NumbersBelow(states[n].log, o, answer.attempt) <==> NumbersBelow(states[n].log, o, DELIVERY_MAX_ATTEMPTS)))
  {
    Deliveries.RunKeeps(states, actions, n);
    RetriedNumber(Load(states[n].db, o), limitsOk, pick, t0, t1, t2);
    NumbersCounted(states[n], o);
  }
}
