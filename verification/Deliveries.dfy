/** The sends of one welcome delivery: one account, and attempt numbers that tell them apart. */
module Deliveries {
  import opened Rows
  import opened Transitions
  import opened Protocol

  predicate IsWelcome(e: Event, o: OrderId) { e.Credentials? && e.order == o && e.template.Welcome? }

  predicate BoundOn(worker: Worker, o: OrderId) { worker.Courier? && worker.order == o && worker.courier.AtBoundary? }

  /** An attempt number may repeat only if it is at least the maximum and an operator turned the counter back. */
  predicate Distinct(s: State, o: OrderId, k: nat, l: nat) {
    k != l || (o in s.lowered && k >= DELIVERY_MAX_ATTEMPTS)
  }

  predicate Counted(s: State, o: OrderId, k: nat)
    requires o in s.db.rentals
  {
    k <= s.db.rentals[o].attempts || o in s.lowered
  }

  /** The sends so far disclosed the current account under counted numbers. */
  ghost predicate SentCounted(s: State, o: OrderId)
    requires o in s.db.rentals
  {
    forall i :: 0 <= i < |s.log| && IsWelcome(s.log[i], o) ==>
      s.log[i].account == s.db.rentals[o].account && 1 <= s.log[i].attempt && Counted(s, o, s.log[i].attempt)
  }

  /** So will the couriers that are about to send. */
  ghost predicate BoundCounted(s: State, o: OrderId)
    requires o in s.db.rentals
  {
    forall w :: w in s.workers && BoundOn(s.workers[w], o) ==>
      && s.workers[w].courier.account == s.db.rentals[o].account
      && 1 <= s.workers[w].courier.attempt && Counted(s, o, s.workers[w].courier.attempt)
  }

  ghost predicate BoundDistinct(s: State, o: OrderId) {
    forall v, w :: v in s.workers && w in s.workers && v != w && BoundOn(s.workers[v], o) && BoundOn(s.workers[w], o) ==>
      Distinct(s, o, s.workers[v].courier.attempt, s.workers[w].courier.attempt)
  }

  ghost predicate BoundUnsent(s: State, o: OrderId) {
    forall w, i :: w in s.workers && BoundOn(s.workers[w], o) && 0 <= i < |s.log| && IsWelcome(s.log[i], o) ==>
      Distinct(s, o, s.workers[w].courier.attempt, s.log[i].attempt)
  }

  /** The welcome delivery of `o` while no replacement has taken over. */
  ghost predicate WelcomeOk(s: State, o: OrderId)
    requires o in s.db.rentals
  {
    s.db.rentals[o].template.Welcome? ==>
      && (o in s.lowered ==> s.db.rentals[o].attempts >= DELIVERY_MAX_ATTEMPTS - 1)
      && SentCounted(s, o) && BoundCounted(s, o) && BoundDistinct(s, o) && BoundUnsent(s, o)
  }

  /** A later number that is not larger: the earlier one had used up the attempts, an operator turned the counter
      back, and the later one is at most one below the limit. */
  predicate TurnedNumbers(s: State, o: OrderId, k: nat, l: nat) {
    o in s.lowered && k >= DELIVERY_MAX_ATTEMPTS && l >= DELIVERY_MAX_ATTEMPTS - 1
  }

  /** Two welcome sends of one order, in the order they were made. */
  predicate SendsOrdered(s: State, i: nat, j: nat, o: OrderId)
    requires i < j < |s.log|
  {
    IsWelcome(s.log[i], o) && IsWelcome(s.log[j], o) ==>
      && s.log[i].account == s.log[j].account
      && (s.log[i].attempt < s.log[j].attempt || TurnedNumbers(s, o, s.log[i].attempt, s.log[j].attempt))
      && Distinct(s, o, s.log[i].attempt, s.log[j].attempt)
  }

  ghost predicate DInv(s: State) {
    && (forall o :: o in s.lowered ==> o in s.db.rentals)
    && (forall i, o :: 0 <= i < |s.log| && IsWelcome(s.log[i], o) ==> o in s.db.rentals)
    && (forall w :: w in s.workers && s.workers[w].Courier? ==> s.workers[w].order in s.db.rentals)
    && (forall o :: o in s.db.rentals ==> WelcomeOk(s, o))
    && (forall i, j, o :: 0 <= i < j < |s.log| ==> SendsOrdered(s, i, j, o))
  }

  // ---- Actions that leave the delivery alone ----------------------------------------------------

  /** Account, template and attempt counter as before, or the delivery handed over to a replacement. */
  predicate SameDelivery(r: Rental, r': Rental) {
    r'.template.ReplaceSuccess? || (r'.template == r.template && r'.account == r.account && r'.attempts == r.attempts)
  }

  predicate Counts(a: Action) {
    a.Allocate? || a.ReachBoundary? || a.ReachBoundaryAgain? || a.Disclose? || a.RetryByOperator?
  }

  /** Rows of the touched order when the action does not count an attempt. */
  ghost predicate DeliveryUntouched(s: State, touch: Touch) {
    touch.Rows? ==>
      && (touch.o in s.db.rentals ==> touch.rows.rental.Some? && SameDelivery(s.db.rentals[touch.o], touch.rows.rental.value))
      && (touch.o !in s.db.rentals ==> touch.rows.rental.None?)
  }

  /** Nothing that matters to the welcome delivery was said, and no courier reached a boundary. */
  ghost predicate Quiet(s: State, t: State) {
    && t.lowered == s.lowered
    && (t.log == s.log || exists e :: t.log == s.log + [e] && !e.Credentials?)
    && (forall w :: w in t.workers && t.workers[w].Courier? ==>
          if t.workers[w].courier.AtBoundary? then w in s.workers && s.workers[w] == t.workers[w]
          else t.workers[w].order in t.db.rentals)
  }

  lemma RevokingUntouched(s: State, a: Action)
    requires Enabled(s, a) && Revoking(a)
    ensures DeliveryUntouched(s, RevokingRows(s, a))
  {
  }

  lemma FinishingQuiet(s: State, a: Action)
    requires DInv(s) && Enabled(s, a) && Ending(a)
    ensures Quiet(s, RevokingStep(s, a))
  {
    assert RevokingStep(s, a).log == s.log;
  }

  lemma KickQuiet(s: State, a: Action)
    requires DInv(s) && Enabled(s, a) && a.Kick?
    ensures Quiet(s, RevokingStep(s, a))
  {
    assert RevokingStep(s, a).log == s.log || RevokingStep(s, a).log == s.log + [LoggedOut(s.workers[a.w].claim.account)];
  }

  lemma RevokingQuiet(s: State, a: Action)
    requires DInv(s) && Enabled(s, a) && Revoking(a)
    ensures Quiet(s, RevokingStep(s, a))
  {
    if Ending(a) {
      FinishingQuiet(s, a);
    } else if a.Kick? {
      KickQuiet(s, a);
    } else {
      assert RevokingStep(s, a).log == s.log;
    }
  }

  lemma DeliveringUntouched(s: State, a: Action)
    requires Enabled(s, a) && (a.SendCode? || a.DeliveryStart?)
    ensures DeliveryUntouched(s, DeliveringRows(s, a))
  {
  }

  lemma DeliveringQuiet(s: State, a: Action)
    requires DInv(s) && Enabled(s, a) && (a.SendCode? || a.DeliveryStart?)
    ensures Quiet(s, DeliveringStep(s, a))
  {
    if a.SendCode? {
      assert DeliveringStep(s, a).log == s.log || DeliveringStep(s, a).log == s.log + [Code(a.o, a.account)];
    }
  }

  lemma RecordingUntouched(s: State, a: Action)
    requires Enabled(s, a) && Recording(a) && !a.RetryByOperator?
    ensures DeliveryUntouched(s, RecordingRows(s, a))
  {
  }

  lemma RecordingQuiet(s: State, a: Action)
    requires DInv(s) && Enabled(s, a) && Recording(a) && !a.RetryByOperator?
    ensures Quiet(s, RecordingStep(s, a))
  {
  }

  lemma RememberingUntouched(s: State, a: Action)
    requires Enabled(s, a) && Remembering(a)
    ensures DeliveryUntouched(s, RememberingRows(s, a))
  {
  }

  lemma OperatorQuiet(s: State, a: Action)
    requires DInv(s) && Enabled(s, a) && a.OperatorStart?
    ensures Quiet(s, RememberingStep(s, a))
  {
  }

  lemma RememberingQuiet(s: State, a: Action)
    requires DInv(s) && Enabled(s, a) && Remembering(a)
    ensures Quiet(s, RememberingStep(s, a))
  {
    if a.OperatorStart? {
      OperatorQuiet(s, a);
    }
  }

  /** The invariant survives whatever neither counts nor sends. */
  lemma QuietKeeps(s: State, t: State, a: Action, touch: Touch)
    requires DInv(s) && Quiet(s, t) && WritesOnly(s, t, a, touch) && DeliveryUntouched(s, touch)
    ensures DInv(t)
  {
    forall o | o in t.db.rentals
      ensures WelcomeOk(t, o)
    {
      assert WelcomeOk(s, o);
    }
    forall i, j, o | 0 <= i < j < |t.log|
      ensures SendsOrdered(t, i, j, o)
    {
      if j < |s.log| {
        assert SendsOrdered(s, i, j, o);
      }
    }
  }

  // ---- Actions that count or send ---------------------------------------------------------------

  lemma AllocateKeeps(s: State, w: WorkerId, o: OrderId, verified: bool, candidates: seq<AccountId>, now: Time)
    requires DInv(s) && MayStart(s, w, o, now) && o !in s.db.rentals
    ensures DInv(FirstAllocation(s, w, o, verified, candidates, now))
  {
    var t := FirstAllocation(s, w, o, verified, candidates, now);
    forall p | p in t.db.rentals
      ensures WelcomeOk(t, p)
    {
      if p in s.db.rentals {
        assert WelcomeOk(s, p);
      }
    }
    forall i, j, p | 0 <= i < j < |t.log|
      ensures SendsOrdered(t, i, j, p)
    {
      assert SendsOrdered(s, i, j, p);
    }
  }

  /** A courier counts the attempt it is about to make, stops, or moves a delivery that was never attempted. */
  ghost predicate CountsOnce(s: State, t: State, w: WorkerId, o: OrderId) {
    && o in s.db.rentals && w in s.workers && s.workers[w].Courier? && !s.workers[w].courier.AtBoundary?
    && t.lowered == s.lowered && t.log == s.log
    && t.db.rentals.Keys == s.db.rentals.Keys
    && (forall p :: p in s.db.rentals && p != o ==> t.db.rentals[p] == s.db.rentals[p])
    && (forall v :: v in t.workers && v != w ==> v in s.workers && t.workers[v] == s.workers[v])
    && (w in t.workers ==> t.workers[w].Courier? && t.workers[w].order == o)
    && var r, r' := s.db.rentals[o], t.db.rentals[o];
    && r'.template == r.template
    && if w in t.workers && t.workers[w].courier.AtBoundary?
       then r'.account == r.account && r'.attempts == r.attempts + 1
            && t.workers[w].courier == AtBoundary(r.account, r.attempts + 1)
       else r'.attempts == r.attempts && (r'.account == r.account || (r.attempts == 0 && r.template.Welcome?))
  }

  lemma CountsOnceAtOrder(s: State, t: State, w: WorkerId, o: OrderId)
    requires o in s.db.rentals && WelcomeOk(s, o) && CountsOnce(s, t, w, o)
    ensures WelcomeOk(t, o)
  {
  }

  lemma CountsOnceElsewhere(s: State, t: State, w: WorkerId, o: OrderId, p: OrderId)
    requires CountsOnce(s, t, w, o) && p != o && p in s.db.rentals && WelcomeOk(s, p)
    ensures WelcomeOk(t, p)
  {
  }

  lemma CountsOnceKeeps(s: State, t: State, w: WorkerId, o: OrderId)
    requires DInv(s) && CountsOnce(s, t, w, o)
    ensures DInv(t)
  {
    forall p | p in t.db.rentals
      ensures WelcomeOk(t, p)
    {
      if p == o {
        CountsOnceAtOrder(s, t, w, o);
      } else {
        CountsOnceElsewhere(s, t, w, o, p);
      }
    }
    forall i, j, p | 0 <= i < j < |t.log|
      ensures SendsOrdered(t, i, j, p)
    {
      assert SendsOrdered(s, i, j, p);
    }
  }

  /** The row side of a boundary. */
  predicate RowCounted(r: Rental, y: Locked, answer: BoundaryAnswer) {
    && y.rental.Some? && y.rental.value.template == r.template
    && match answer
       case Bound(a, k) => y.rental.value.account == a == r.account && y.rental.value.attempts == k == r.attempts + 1
       case Moved(a) => y.rental.value.attempts == r.attempts == 0 && r.template.Welcome?
       case Stop => y.rental.value.attempts == r.attempts && y.rental.value.account == r.account
  }

  lemma BoundaryRowCounted(x: Locked, verified: bool, limitsOk: bool, pick: Option<AccountId>, now: Time)
    requires x.rental.Some?
    ensures var (y, answer) := Boundary(x, verified, limitsOk, pick, now); RowCounted(x.rental.value, y, answer)
  {
  }

  lemma BoundaryCountsOnce(s: State, w: WorkerId, verified: bool, limitsOk: bool, candidates: seq<AccountId>, now: Time)
    requires DInv(s) && CourierIn(s, w) && s.workers[w].courier.Claimed?
    ensures CountsOnce(s, ToBoundary(s, w, verified, limitsOk, candidates, now), w, s.workers[w].order)
  {
    var o := s.workers[w].order;
    var pick := Pick(s.db, candidates, Some(s.db.rentals[o].account));
    var (y, answer) := Boundary(Load(s.db, o), verified, limitsOk, pick, now);
    BoundaryRowCounted(Load(s.db, o), verified, limitsOk, pick, now);
    assert ToBoundary(s, w, verified, limitsOk, candidates, now)
        == CourierAfter(Stamp(Commit(s, o, y), o, now), w, o, s.workers[w].courier.at, answer);
  }

  lemma BoundaryAgainCountsOnce(s: State, w: WorkerId, verified: bool, limitsOk: bool, now: Time)
    requires DInv(s) && CourierIn(s, w) && s.workers[w].courier.Relocated?
    ensures CountsOnce(s, ToBoundaryAgain(s, w, verified, limitsOk, now), w, s.workers[w].order)
  {
  }

  /** A send uses up its courier; it carries the current count and the current account. */
  lemma DiscloseAtOrder(s: State, t: State, w: WorkerId, o: OrderId, sent: bool)
    requires o in s.db.rentals && WelcomeOk(s, o) && w in s.workers && BoundOn(s.workers[w], o)
    requires t.workers == s.workers - {w} && t.lowered == s.lowered && o in t.db.rentals
    requires SameDelivery(s.db.rentals[o], t.db.rentals[o]) && t.db.rentals[o].template == s.db.rentals[o].template
    requires var stage := s.workers[w].courier;
             t.log == if sent then s.log + [Credentials(o, stage.account, s.db.rentals[o].template, stage.attempt)] else s.log
    ensures WelcomeOk(t, o)
  {
  }

  lemma SendRow(x: Locked, verified: bool, limitsOk: bool, expected: AccountId, attempt: nat, outcome: SendOutcome, now: Time)
    requires x.rental.Some?
    ensures var (y, sent) := Send(x, verified, limitsOk, expected, attempt, outcome, now);
            var r := x.rental.value;
            && y.rental.Some? && SameDelivery(r, y.rental.value) && y.rental.value.template == r.template
            && (sent ==> r.account == expected && r.attempts == attempt)
  {
  }

  lemma DiscloseKeeps(s: State, w: WorkerId, verified: bool, limitsOk: bool, outcome: SendOutcome, now: Time)
    requires DInv(s) && CourierIn(s, w) && s.workers[w].courier.AtBoundary?
    ensures DInv(SendNow(s, w, verified, limitsOk, outcome, now))
  {
    var t := SendNow(s, w, verified, limitsOk, outcome, now);
    var o, stage := s.workers[w].order, s.workers[w].courier;
    var x := Load(s.db, o);
    var (y, sent) := Send(x, verified, limitsOk, stage.account, stage.attempt, outcome, now);
    SendRow(x, verified, limitsOk, stage.account, stage.attempt, outcome, now);
    var e := Credentials(o, stage.account, s.db.rentals[o].template, stage.attempt);
    assert t.log == if sent then s.log + [e] else s.log;
    assert t.db.rentals == s.db.rentals[o := y.rental.value];
    forall p | p in t.db.rentals
      ensures WelcomeOk(t, p)
    {
      assert WelcomeOk(s, p);
      if p == o {
        DiscloseAtOrder(s, t, w, o, sent);
      }
    }
    forall i, j, p | 0 <= i < j < |t.log|
      ensures SendsOrdered(t, i, j, p)
    {
      if j < |s.log| {
        assert SendsOrdered(s, i, j, p);
      } else {
        assert WelcomeOk(s, o);
      }
    }
  }

  lemma RetryAtOrder(s: State, t: State, o: OrderId)
    requires o in s.db.rentals && WelcomeOk(s, o) && o in t.db.rentals
    requires t.log == s.log && t.workers == s.workers && TurnedBack(s, t, o)
    ensures WelcomeOk(t, o)
  {
  }

  /** The counter as it was, or turned back to one below the maximum. */
  predicate TurnedBack(s: State, t: State, o: OrderId)
    requires o in s.db.rentals && o in t.db.rentals
  {
    && t.db.rentals[o].template == s.db.rentals[o].template && t.db.rentals[o].account == s.db.rentals[o].account
    && if t.db.rentals[o].attempts == s.db.rentals[o].attempts
       then t.lowered == s.lowered
       else t.lowered == s.lowered + {o} && t.db.rentals[o].attempts == DELIVERY_MAX_ATTEMPTS - 1
  }

  lemma RetryEverywhere(s: State, t: State, o: OrderId)
    requires DInv(s) && o in s.db.rentals && o in t.db.rentals && TurnedBack(s, t, o)
    requires t.log == s.log && t.workers == s.workers && t.db.rentals == s.db.rentals[o := t.db.rentals[o]]
    ensures DInv(t)
  {
    forall p | p in t.db.rentals
      ensures WelcomeOk(t, p)
    {
      assert WelcomeOk(s, p);
      if p == o {
        RetryAtOrder(s, t, o);
      }
    }
    forall i, j, p | 0 <= i < j < |t.log|
      ensures SendsOrdered(t, i, j, p)
    {
      assert SendsOrdered(s, i, j, p);
    }
  }

  lemma RetryTurnsBack(s: State, o: OrderId, verified: bool, now: Time)
    requires DInv(s) && o in s.db.orders && o in s.db.rentals
    ensures var t := RetryNow(s, o, verified, now);
            && o in t.db.rentals && t.db.rentals == s.db.rentals[o := t.db.rentals[o]] && TurnedBack(s, t, o)
            && t.log == s.log && t.workers == s.workers
  {
  }

  lemma RetryKeeps(s: State, w: WorkerId, o: OrderId, verified: bool, now: Time)
    requires DInv(s) && o in s.db.orders && w !in s.workers
    ensures DInv(OperatorResets(s, w, o, verified, now))
  {
    var t := RetryNow(s, o, verified, now);
    if o in s.db.rentals {
      RetryTurnsBack(s, o, verified, now);
      RetryEverywhere(s, t, o);
    } else {
      SameDeliveries(s, t);
    }
    var (x, reset) := OperatorRetry(Load(s.db, o), verified, now);
    if reset {
      OperatorEnters(t, w, Operator(o, x.rental.value));
    }
  }

  lemma OperatorEnters(t: State, w: WorkerId, worker: Worker)
    requires DInv(t) && w !in t.workers && !worker.Courier?
    ensures DInv(Enter(t, w, worker))
  {
    var u := Enter(t, w, worker);
    forall p | p in u.db.rentals
      ensures WelcomeOk(u, p)
    {
      assert WelcomeOk(t, p);
    }
    forall i, j, p | 0 <= i < j < |u.log|
      ensures SendsOrdered(u, i, j, p)
    {
      assert SendsOrdered(t, i, j, p);
    }
  }

  lemma SameDeliveries(s: State, t: State)
    requires DInv(s) && t.log == s.log && t.workers == s.workers && t.lowered == s.lowered && t.db.rentals == s.db.rentals
    ensures DInv(t)
  {
    forall p | p in t.db.rentals
      ensures WelcomeOk(t, p)
    {
      assert WelcomeOk(s, p);
    }
    forall i, j, p | 0 <= i < j < |t.log|
      ensures SendsOrdered(t, i, j, p)
    {
      assert SendsOrdered(s, i, j, p);
    }
  }

  lemma QuietStep(s: State, a: Action)
    requires DInv(s) && Enabled(s, a) && !Counts(a)
    ensures Quiet(s, Step(s, a)) && DeliveryUntouched(s, Touched(s, a))
  {
    if Revoking(a) {
      RevokingUntouched(s, a);
      RevokingQuiet(s, a);
    } else if Delivering(a) {
      DeliveringUntouched(s, a);
      DeliveringQuiet(s, a);
    } else if Queueing(a) {
      QueueingIsQuiet(s, a);
    } else if Remembering(a) {
      RememberingUntouched(s, a);
      RememberingQuiet(s, a);
    } else {
      RecordingUntouched(s, a);
      RecordingQuiet(s, a);
    }
  }

  lemma CountingKeeps(s: State, a: Action)
    requires DInv(s) && Enabled(s, a) && Counts(a)
    ensures DInv(Step(s, a))
  {
    if a.Allocate? {
      AllocateKeeps(s, a.w, a.o, a.verified, a.candidates, a.now);
    } else if a.ReachBoundary? {
      BoundaryCountsOnce(s, a.w, a.verified, a.limitsOk, a.candidates, a.now);
      CountsOnceKeeps(s, ToBoundary(s, a.w, a.verified, a.limitsOk, a.candidates, a.now), a.w, s.workers[a.w].order);
    } else if a.ReachBoundaryAgain? {
      BoundaryAgainCountsOnce(s, a.w, a.verified, a.limitsOk, a.now);
      CountsOnceKeeps(s, ToBoundaryAgain(s, a.w, a.verified, a.limitsOk, a.now), a.w, s.workers[a.w].order);
    } else if a.Disclose? {
      DiscloseKeeps(s, a.w, a.verified, a.limitsOk, a.outcome, a.now);
    } else {
      RetryKeeps(s, a.w, a.o, a.verified, a.now);
    }
  }

  lemma StepKeeps(s: State, a: Action)
    requires DInv(s) && Enabled(s, a)
    ensures DInv(Step(s, a))
  {
    if Counts(a) {
      CountingKeeps(s, a);
    } else {
      TouchedIsWritten(s, a);
      QuietStep(s, a);
      QuietKeeps(s, Step(s, a), a, Touched(s, a));
    }
  }

  lemma {:induction false} RunKeeps(states: seq<State>, actions: seq<Action>, n: nat)
    requires IsRun(states, actions) && n <= |actions|
    ensures DInv(states[n])
  {
    if n > 0 {
      RunKeeps(states, actions, n - 1);
      StepKeeps(states[n - 1], actions[n - 1]);
    }
  }

  /** The action is an operator retry that finds the attempts used up. */
  predicate TurnsBack(s: State, a: Action, o: OrderId) {
    a.RetryByOperator? && a.o == o && o in s.db.orders && o in s.db.rentals
    && OperatorRetry(Load(s.db, o), a.verified, a.now).1 && s.db.rentals[o].attempts >= DELIVERY_MAX_ATTEMPTS
  }

  lemma CountingLowers(s: State, a: Action)
    requires DInv(s) && Enabled(s, a) && Counts(a) && !a.RetryByOperator?
    ensures DeliveringStep(s, a).lowered == s.lowered
  {
    if a.ReachBoundary? {
      BoundaryCountsOnce(s, a.w, a.verified, a.limitsOk, a.candidates, a.now);
    } else if a.ReachBoundaryAgain? {
      BoundaryAgainCountsOnce(s, a.w, a.verified, a.limitsOk, a.now);
    }
  }

  lemma QuietLowers(s: State, a: Action)
    requires DInv(s) && Enabled(s, a) && !Counts(a)
    ensures Step(s, a).lowered == s.lowered
  {
    QuietStep(s, a);
  }

  lemma RetryLowers(s: State, a: Action, o: OrderId)
    requires Enabled(s, a) && a.RetryByOperator?
    ensures o in Step(s, a).lowered <==> o in s.lowered || TurnsBack(s, a, o)
  {
    assert Step(s, a) == OperatorResets(s, a.w, a.o, a.verified, a.now);
  }

  lemma OthersLower(s: State, a: Action)
    requires DInv(s) && Enabled(s, a) && !a.RetryByOperator?
    ensures Step(s, a).lowered == s.lowered
  {
    if Counts(a) {
      CountingLowers(s, a);
      assert Step(s, a) == DeliveringStep(s, a);
    } else {
      QuietLowers(s, a);
    }
  }

  lemma LoweredStep(s: State, a: Action, o: OrderId)
    requires DInv(s) && Enabled(s, a)
    ensures o in Step(s, a).lowered <==> o in s.lowered || TurnsBack(s, a, o)
  {
    if a.RetryByOperator? {
      RetryLowers(s, a, o);
    } else {
      OthersLower(s, a);
    }
  }

  /** The mark is exactly the history: an operator retry found the attempts of the order used up. */
  lemma {:induction false} LoweredExactly(states: seq<State>, actions: seq<Action>, n: nat, o: OrderId)
    requires IsRun(states, actions) && n <= |actions|
    ensures o in states[n].lowered <==> exists i :: 0 <= i < n && TurnsBack(states[i], actions[i], o)
  {
    if n > 0 {
      LoweredExactly(states, actions, n - 1, o);
      RunKeeps(states, actions, n - 1);
      LoweredStep(states[n - 1], actions[n - 1], o);
    }
  }

  /** All sends of one welcome delivery, across crashes, overlapping couriers, reallocations and operator
      retries: they disclose one account, and later sends carry larger attempt numbers, except that after an
      operator retry of used-up attempts a send numbered six or more may be followed by one numbered five or
      more; only numbers of at least six repeat. */
  lemma WelcomeSends(states: seq<State>, actions: seq<Action>, n: nat, i: nat, j: nat, o: OrderId)
    requires IsRun(states, actions) && n <= |actions| && i < j < |states[n].log|
    requires IsWelcome(states[n].log[i], o) && IsWelcome(states[n].log[j], o)
    ensures var first, second := states[n].log[i], states[n].log[j];
            && first.account == second.account
            && (first.attempt < second.attempt || TurnedNumbers(states[n], o, first.attempt, second.attempt))
            && (first.attempt == second.attempt ==> first.attempt >= DELIVERY_MAX_ATTEMPTS)
  {
    RunKeeps(states, actions, n);
    assert SendsOrdered(states[n], i, j, o);
  }
}
