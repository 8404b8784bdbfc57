/** Runs from a fresh installation that show which promises give way, and to what. */
module Schedules {
  import opened Rows
  import opened Transitions
  import opened JobQueue
  import opened Protocol
  import Custody

  datatype Run = Run(states: seq<State>, actions: seq<Action>)

  ghost predicate Valid(r: Run) { IsRun(r.states, r.actions) }

  ghost function Last(r: Run): State
    requires Valid(r)
  {
    r.states[|r.actions|]
  }

  ghost predicate Extends(r: Run, r': Run) { Valid(r') && r.states <= r'.states && r.actions <= r'.actions }

  lemma Begin(s: State) returns (r: Run)
    requires Initial(s)
    ensures Valid(r) && r == Run([s], [])
  {
    r := Run([s], []);
  }

  ghost predicate Leads(s: State, a: Action, t: State) { Enabled(s, a) && Step(s, a) == t }

  lemma Then(r: Run, a: Action, t: State) returns (r': Run)
    requires Valid(r) && Leads(Last(r), a, t)
    ensures Extends(r, r') && r' == Run(r.states + [t], r.actions + [a]) && Last(r') == t
  {
    r' := Run(r.states + [t], r.actions + [a]);
    forall i | 0 <= i < |r'.actions|
      ensures Enabled(r'.states[i], r'.actions[i]) && r'.states[i + 1] == Step(r'.states[i], r'.actions[i])
    {
      if i < |r.actions| {
        assert r'.states[i] == r.states[i] && r'.states[i + 1] == r.states[i + 1] && r'.actions[i] == r.actions[i];
      }
    }
  }

  // ---- Selling one rental -----------------------------------------------------------------------

  const OPEN: Account := Account(Sellable, None, 0)

  /** The rental of `a` after its first message was accepted at `t`. */
  function SoldRental(a: AccountId, minutes: nat, t: Time): Rental {
    Rental(a, 0, minutes, Active, t, t + minutes * MINUTE, None, None, None, 0, Sent, Welcome, Some(t), None, 1)
  }

  predicate ReadyToSell(s: State, w: WorkerId, o: OrderId, a: AccountId, t: Time) {
    && o in s.db.orders && o !in s.db.rentals && Fulfillable(s.db.orders[o].status)
    && s.db.orders[o].tier == 0 && s.db.orders[o].minutes > 2
    && w !in s.workers && FreshStamp(s, o, t) && FreshStamp(s, o, t + 1)
    && a in s.db.accounts && s.db.accounts[a] == OPEN
  }

  /** The state with the rental of `o` replaced and the stamps of one delivery used. */
  function WithDelivery(s: State, o: OrderId, r: Rental, t: Time, said: seq<Event>): State {
    s.(db := s.db.(rentals := s.db.rentals[o := r]), stamps := s.stamps + {(o, t), (o, t + 1)}, log := s.log + said)
  }

  lemma PicksOnly(db: Tables, a: AccountId)
    requires Allocatable(db, a)
    ensures Pick(db, [a], None) == Some(a)
  {
  }

  lemma AllocateOpens(s: State, w: WorkerId, o: OrderId, a: AccountId, t: Time)
    requires ReadyToSell(s, w, o, a, t) && Allocatable(s.db, a)
    ensures Leads(s, Allocate(w, o, true, [a], t),
                  Enter(Stamp(s.(db := s.db.(rentals := s.db.rentals[o := Provisional(s, o, a, t)])), o, t), w, Courier(o, Claimed(t))))
  {
    PicksOnly(s.db, a);
  }

  function Provisional(s: State, o: OrderId, a: AccountId, t: Time): Rental
    requires o in s.db.orders
  {
    var m := s.db.orders[o].minutes;
    Rental(a, 0, m, Active, t, t + m * MINUTE, None, None, None, 0, Sending, Welcome, Some(t), None, 0)
  }

  /** The rental of `o` is running on the open account `a` and claimed by a courier. */
  predicate Sendable(s: State, o: OrderId, a: AccountId, now: Time) {
    && o in s.db.orders && o in s.db.rentals && Fulfillable(s.db.orders[o].status)
    && a in s.db.accounts && s.db.accounts[a] == OPEN
    && var r := s.db.rentals[o];
    && r.account == a && r.tier == 0 && r.status.Active? && r.delivery.Sending? && r.template.Welcome?
    && (r.attempts > 0 ==> r.expiresAt > now + REPLACEMENT_MIN_REMAINING)
  }

  lemma SameAccounts(db: Tables, o: OrderId, r: Rental)
    requires o in db.rentals && o in db.orders && db.rentals[o].account in db.accounts
    ensures Store(db, o, WithRental(Load(db, o), r)) == db.(rentals := db.rentals[o := r])
  {
    var db' := Store(db, o, WithRental(Load(db, o), r));
    assert db'.orders == db.orders && db'.accounts == db.accounts;
  }

  function BoundedState(s: State, w: WorkerId, o: OrderId, now: Time): State
    requires o in s.db.rentals
  {
    var r := s.db.rentals[o];
    Enter(Stamp(s.(db := s.db.(rentals := s.db.rentals[o := Bounded(r, now)])), o, now), w,
          Courier(o, AtBoundary(r.account, r.attempts + 1)))
  }

  lemma BoundaryBounds(s: State, w: WorkerId, o: OrderId, a: AccountId, at: Time, now: Time)
    requires Sendable(s, o, a, now) && w in s.workers && s.workers[w] == Courier(o, Claimed(at)) && FreshStamp(s, o, now)
    ensures Leads(s, ReachBoundary(w, true, true, [], now), BoundedState(s, w, o, now))
  {
    SameAccounts(s.db, o, Bounded(s.db.rentals[o], now));
    var pick := Pick(s.db, [], Some(a));
    assert Boundary(Load(s.db, o), true, true, pick, now)
        == (WithRental(Load(s.db, o), Bounded(s.db.rentals[o], now)), Bound(a, s.db.rentals[o].attempts + 1));
  }

  function AfterSend(r: Rental, attempt: nat, outcome: SendOutcome, now: Time): Rental {
    match outcome
    case Accepted => Delivered(r, attempt, now)
    case Errored => RetryLater(r, now)
    case Crashed => r
  }

  function SentState(s: State, w: WorkerId, o: OrderId, k: nat, outcome: SendOutcome, now: Time): State
    requires o in s.db.rentals
  {
    var r := s.db.rentals[o];
    s.(db := s.db.(rentals := s.db.rentals[o := AfterSend(r, k, outcome, now)]),
       workers := s.workers - {w}, log := s.log + [Credentials(o, r.account, Welcome, k)])
  }

  lemma DiscloseSends(s: State, w: WorkerId, o: OrderId, a: AccountId, k: nat, outcome: SendOutcome, now: Time)
    requires Sendable(s, o, a, now) && w in s.workers && s.workers[w] == Courier(o, AtBoundary(a, k)) && s.db.rentals[o].attempts == k > 0
    ensures Leads(s, Disclose(w, true, true, outcome, now), SentState(s, w, o, k, outcome, now))
  {
    var r := s.db.rentals[o];
    SameAccounts(s.db, o, AfterSend(r, k, outcome, now));
    SameAccounts(s.db, o, r);
    assert Load(s.db, o) == WithRental(Load(s.db, o), r);
    assert Send(Load(s.db, o), true, true, a, k, outcome, now) == (WithRental(Load(s.db, o), AfterSend(r, k, outcome, now)), true);
  }

  lemma SellLeads(s: State, w: WorkerId, o: OrderId, a: AccountId, t: Time) returns (s1: State, s2: State)
    requires ReadyToSell(s, w, o, a, t) && Allocatable(s.db, a)
    ensures Leads(s, Allocate(w, o, true, [a], t), s1)
    ensures Leads(s1, ReachBoundary(w, true, true, [], t + 1), s2)
    ensures Leads(s2, Disclose(w, true, true, Accepted, t + 1),
                  WithDelivery(s, o, SoldRental(a, s.db.orders[o].minutes, t + 1), t, [Credentials(o, a, Welcome, 1)]))
  {
    var m := s.db.orders[o].minutes;
    var counted := SoldRental(a, m, t + 1).(delivery := Sending);
    AllocateOpens(s, w, o, a, t);
    s1 := Enter(Stamp(s.(db := s.db.(rentals := s.db.rentals[o := Provisional(s, o, a, t)])), o, t), w, Courier(o, Claimed(t)));
    BoundaryBounds(s1, w, o, a, t, t + 1);
    s2 := Enter(s.(db := s.db.(rentals := s.db.rentals[o := counted]), stamps := s.stamps + {(o, t), (o, t + 1)}),
                w, Courier(o, AtBoundary(a, 1)));
    BoundaryTo(s, w, o, a, t, s1, s2);
    LastSellStep(s, w, o, a, t, s2);
  }

  lemma LastSellStep(s: State, w: WorkerId, o: OrderId, a: AccountId, t: Time, s2: State)
    requires ReadyToSell(s, w, o, a, t)
    requires s2 == Enter(s.(db := s.db.(rentals := s.db.rentals[o := SoldRental(a, s.db.orders[o].minutes, t + 1).(delivery := Sending)]),
                            stamps := s.stamps + {(o, t), (o, t + 1)}), w, Courier(o, AtBoundary(a, 1)))
    ensures Leads(s2, Disclose(w, true, true, Accepted, t + 1),
                  WithDelivery(s, o, SoldRental(a, s.db.orders[o].minutes, t + 1), t, [Credentials(o, a, Welcome, 1)]))
  {
    DiscloseSends(s2, w, o, a, 1, Accepted, t + 1);
    DiscloseTo(s, w, o, a, t, s2);
  }

  lemma BoundaryTo(s: State, w: WorkerId, o: OrderId, a: AccountId, t: Time, s1: State, s2: State)
    requires o in s.db.orders
    requires s1 == Enter(Stamp(s.(db := s.db.(rentals := s.db.rentals[o := Provisional(s, o, a, t)])), o, t), w, Courier(o, Claimed(t)))
    requires s2 == Enter(s.(db := s.db.(rentals := s.db.rentals[o := SoldRental(a, s.db.orders[o].minutes, t + 1).(delivery := Sending)]),
                            stamps := s.stamps + {(o, t), (o, t + 1)}), w, Courier(o, AtBoundary(a, 1)))
    ensures s2 == BoundedState(s1, w, o, t + 1)
  {
    assert s1.db.rentals[o := Bounded(s1.db.rentals[o], t + 1)] == s2.db.rentals;
    assert s1.stamps + {(o, t + 1)} == s2.stamps;
    assert s1.workers[w := Courier(o, AtBoundary(a, 1))] == s2.workers;
  }

  lemma DiscloseTo(s: State, w: WorkerId, o: OrderId, a: AccountId, t: Time, s2: State)
    requires o in s.db.orders && w !in s.workers
    requires s2 == Enter(s.(db := s.db.(rentals := s.db.rentals[o := SoldRental(a, s.db.orders[o].minutes, t + 1).(delivery := Sending)]),
                            stamps := s.stamps + {(o, t), (o, t + 1)}), w, Courier(o, AtBoundary(a, 1)))
    ensures SentState(s2, w, o, 1, Accepted, t + 1)
         == WithDelivery(s, o, SoldRental(a, s.db.orders[o].minutes, t + 1), t, [Credentials(o, a, Welcome, 1)])
  {
    var sold := SoldRental(a, s.db.orders[o].minutes, t + 1);
    assert s2.db.rentals[o := sold] == s.db.rentals[o := sold];
    assert s2.workers - {w} == s.workers;
  }

  lemma Sell(r: Run, w: WorkerId, o: OrderId, a: AccountId, t: Time) returns (r': Run)
    requires Valid(r) && ReadyToSell(Last(r), w, o, a, t) && Allocatable(Last(r).db, a)
    ensures Extends(r, r')
    ensures Last(r') == WithDelivery(Last(r), o, SoldRental(a, Last(r).db.orders[o].minutes, t + 1), t, [Credentials(o, a, Welcome, 1)])
  {
    var s := Last(r);
    var s1, s2 := SellLeads(s, w, o, a, t);
    var r1 := Then(r, Allocate(w, o, true, [a], t), s1);
    var r2 := Then(r1, ReachBoundary(w, true, true, [], t + 1), s2);
    r' := Then(r2, Disclose(w, true, true, Accepted, t + 1),
               WithDelivery(s, o, SoldRental(a, s.db.orders[o].minutes, t + 1), t, [Credentials(o, a, Welcome, 1)]));
  }

  // ---- A refund that is left --------------------------------------------------------------------

  /** A fresh installation with two open accounts. */
  function Opening(): State {
    State(Tables(map[], map[], map[1 := OPEN, 2 := OPEN], []), map[], [], {}, {}, true)
  }

  function Ordered(s: State, o: OrderId, minutes: nat): State {
    s.(db := s.db.(orders := s.db.orders[o := Order(Pending, minutes, 0)]))
  }

  lemma FreeAccount(db: Tables, a: AccountId)
    requires a in db.accounts && db.accounts[a] == OPEN && db.jobs == []
    requires forall o :: o in db.rentals ==> db.rentals[o].account != a && db.rentals[o].target != Some(a)
    ensures Allocatable(db, a)
  {
  }

  predicate StatusIs(s: State, o: OrderId, status: OrderStatus) {
    o in s.db.orders && s.db.orders[o].status == status
  }

  lemma OrderLeads(o: OrderId)
    ensures Leads(Opening(), NewOrder(o, Paid, 60, 0), Ordered(Opening(), o, 60))
  {
  }

  /** A status read earlier, and the refund of an order that has no rental. */
  lemma ReadLeads(s: State, w: WorkerId, o: OrderId)
    requires w !in s.workers && o in s.db.orders
    ensures Leads(s, PreviewRead(w, o), Enter(s, w, SaleReader(o, s.db.orders[o].status)))
  {
  }

  function WithStatus(s: State, o: OrderId, status: OrderStatus): State
    requires o in s.db.orders
  {
    s.(db := s.db.(orders := s.db.orders[o := s.db.orders[o].(status := status)]))
  }

  lemma RefundLeads(s: State, w: WorkerId, o: OrderId, now: Time)
    requires MayStart(s, w, o, now) && o !in s.db.rentals && !s.db.orders[o].status.Refunded?
    ensures Leads(s, RefundStart(w, o, true, now), Stamp(WithStatus(s, o, Refunded), o, now))
  {
  }

  lemma WriteLeads(s: State, w: WorkerId, o: OrderId)
    requires w in s.workers && s.workers[w] == SaleReader(o, Pending) && RefundedIn(s, o)
    ensures Leads(s, PreviewWrite(w, RemoteCompleted), Leave(WithStatus(s, o, Completed).(orderly := false), w))
  {
  }

  /** The sale list reads the order as pending, the refund finishes, the sale list writes completed. */
  lemma PreviewRun(o: OrderId) returns (run: Run)
    ensures Valid(run) && |run.actions| == 4 && run.actions[3].PreviewWrite?
    ensures StatusIs(run.states[3], o, Refunded) && run.states[3].log == []
    ensures Last(run) == State(Tables(map[o := Order(Completed, 60, 0)], map[], map[1 := OPEN, 2 := OPEN], []),
                               map[], [], {(o, 0)}, {}, false)
  {
    var s1 := Ordered(Opening(), o, 60);
    OrderLeads(o);
    var r0 := Begin(Opening());
    var r1 := Then(r0, NewOrder(o, Paid, 60, 0), s1);
    var s2 := Enter(s1, 0, SaleReader(o, Pending));
    ReadLeads(s1, 0, o);
    var r2 := Then(r1, PreviewRead(0, o), s2);
    var s3 := Stamp(WithStatus(s2, o, Refunded), o, 0);
    RefundLeads(s2, 1, o, 0);
    var r3 := Then(r2, RefundStart(1, o, true, 0), s3);
    WriteLeads(s3, 0, o);
    run := Then(r3, PreviewWrite(0, RemoteCompleted), Leave(WithStatus(s3, o, Completed).(orderly := false), 0));
    assert Last(run).workers == map[];
    assert Last(run).db.orders == map[o := Order(Completed, 60, 0)];
  }

  /** The finished refund is gone: the order is given an account and credentials afterwards. */
  lemma PreviewUndoesRefund(o: OrderId) returns (run: Run)
    ensures Valid(run) && |run.actions| > 4 && run.actions[3].PreviewWrite?
    ensures StatusIs(run.states[3], o, Refunded) && StatusIs(run.states[4], o, Completed)
    ensures run.states[3].log == [] && Last(run).log == [Credentials(o, 1, Welcome, 1)]
  {
    var late := PreviewRun(o);
    var s4 := Last(late);
    FreeAccount(s4.db, 1);
    run := Sell(late, 0, o, 1, 1);
  }

  /** A refund of a running rental takes its lease and the account off sale. */
  function ClaimedState(s: State, w: WorkerId, o: OrderId, now: Time): State
    requires o in s.db.orders && o in s.db.rentals && s.db.rentals[o].account in s.db.accounts
  {
    var r := s.db.rentals[o];
    var row := s.db.accounts[r.account].(status := Maintenance);
    Enter(Stamp(s.(db := s.db.(orders := s.db.orders[o := s.db.orders[o].(status := RefundPending)],
                               rentals := s.db.rentals[o := r.(target := None, lease := Some(now))],
                               accounts := s.db.accounts[r.account := row])), o, now),
          w, Revoker(Refund, Claim(o, r.account, now, None), ClaimHeld))
  }

  lemma ClaimLeads(s: State, w: WorkerId, o: OrderId, now: Time)
    requires MayStart(s, w, o, now) && o in s.db.rentals && s.db.rentals[o].account in s.db.accounts
    requires !InRefund(s.db.orders[o].status) && Occupying(s.db.rentals[o].status) && s.db.rentals[o].lease.None?
    ensures Leads(s, RefundStart(w, o, true, now), ClaimedState(s, w, o, now))
  {
  }

  lemma PickLeads(s: State, w: WorkerId, o: OrderId, now: Time)
    requires w !in s.workers && NeedsDelivery(s.db, o, now)
    ensures Leads(s, RetryPick(w, o, now), Enter(s, w, Retrier(o, None)))
  {
  }

  lemma FoundLeads(s: State, w: WorkerId, o: OrderId)
    requires w in s.workers && s.workers[w] == Retrier(o, None) && o in s.db.orders && DeliveredNow(s.db, o)
    ensures Leads(s, RetryFound(w), Enter(s, w, Retrier(o, Some(s.db.orders[o].status))))
  {
  }

  lemma CompleteLeads(s: State, w: WorkerId, o: OrderId)
    requires w in s.workers && s.workers[w] == Retrier(o, Some(Pending)) && RefundedIn(s, o)
    ensures Leads(s, RetryComplete(w), Leave(WithStatus(s, o, Completed).(orderly := false), w))
  {
  }

  /** The logout of the claimed refund succeeds; its end finds the order completed and only drops the lease. */
  lemma LostLeads(s: State, v: WorkerId, o: OrderId, at: Time)
    requires v in s.workers && o in s.db.rentals && StatusIs(s, o, Completed) && s.db.rentals[o].lease == Some(at)
    requires s.workers[v] == Revoker(Refund, Claim(o, s.db.rentals[o].account, at, None), Kicked(true))
    requires s.db.rentals[o].account in s.db.accounts
    ensures Leads(s, RefundFinish(v), Leave(s.(db := s.db.(rentals := s.db.rentals[o := s.db.rentals[o].(lease := None)])), v))
  {
    SameAccounts(s.db, o, s.db.rentals[o].(lease := None));
  }

  lemma KickLeads(s: State, v: WorkerId)
    requires v in s.workers && s.workers[v].Revoker? && s.workers[v].stage.ClaimHeld?
    ensures Leads(s, Kick(v, true, true), Enter(Say(s, LoggedOut(s.workers[v].claim.account)), v, s.workers[v].(stage := Kicked(true))))
  {
  }

  /** The scheduler picked the order and it was delivered. */
  function Picked(o: OrderId): State {
    WithDelivery(Enter(Ordered(Opening(), o, 60), 9, Retrier(o, None)), o, SoldRental(1, 60, 1), 0, [Credentials(o, 1, Welcome, 1)])
  }

  lemma PickedRun(o: OrderId) returns (run: Run)
    ensures Valid(run) && Last(run) == Picked(o)
  {
    var s1 := Ordered(Opening(), o, 60);
    OrderLeads(o);
    var r0 := Begin(Opening());
    var r1 := Then(r0, NewOrder(o, Paid, 60, 0), s1);
    PickLeads(s1, 9, o, 0);
    var s2 := Enter(s1, 9, Retrier(o, None));
    var r2 := Then(r1, RetryPick(9, o, 0), s2);
    FreeAccount(s2.db, 1);
    run := Sell(r2, 0, o, 1, 0);
  }

  /** It read the order as pending; then the buyer is refunded. */
  lemma SchedulerRun(o: OrderId) returns (run: Run, s: State)
    ensures s == Enter(Picked(o), 9, Retrier(o, Some(Pending)))
    ensures Valid(run) && Last(run) == ClaimedState(s, 1, o, 5)
  {
    var r := PickedRun(o);
    FoundLeads(Picked(o), 9, o);
    s := Enter(Picked(o), 9, Retrier(o, Some(Pending)));
    var r1 := Then(r, RetryFound(9), s);
    ClaimLeads(s, 1, o, 5);
    run := Then(r1, RefundStart(1, o, true, 5), ClaimedState(s, 1, o, 5));
  }

  /** The completed order of `SchedulerRun`, and the worker of its refund after the logout. */
  function CompletedState(o: OrderId): State {
    var s := ClaimedState(Enter(Picked(o), 9, Retrier(o, Some(Pending))), 1, o, 5);
    var t := Leave(WithStatus(s, o, Completed).(orderly := false), 9);
    Enter(Say(t, LoggedOut(1)), 1, Revoker(Refund, Claim(o, 1, 5, None), Kicked(true)))
  }

  lemma CompletedRun(o: OrderId) returns (run: Run, i: nat)
    ensures Valid(run) && Last(run) == CompletedState(o) && i + 2 == |run.actions| && run.actions[i].RetryComplete?
    ensures StatusIs(run.states[i], o, RefundPending) && StatusIs(run.states[i + 1], o, Completed)
  {
    var r, s := SchedulerRun(o);
    i := |r.actions|;
    var s1 := Last(r);
    CompleteLeads(s1, 9, o);
    var s2 := Leave(WithStatus(s1, o, Completed).(orderly := false), 9);
    var r1 := Then(r, RetryComplete(9), s2);
    KickLeads(s2, 1);
    run := Then(r1, Kick(1, true, true), CompletedState(o));
  }

  /** The scheduler records the completion it had read before, and the refund is lost: after the logout its end
      finds a completed order, and the rental of the refunded buyer stays active. */
  lemma SchedulerUndoesRefund(o: OrderId) returns (run: Run, i: nat)
    ensures Valid(run) && i < |run.actions| && run.actions[i].RetryComplete?
    ensures StatusIs(run.states[i], o, RefundPending) && StatusIs(run.states[i + 1], o, Completed)
    ensures run.actions[|run.actions| - 1].RefundFinish? && StatusIs(Last(run), o, Completed)
    ensures o in Last(run).db.rentals && Last(run).db.rentals[o].status.Active? && Last(run).db.rentals[o].lease.None?
  {
    var r;
    r, i := CompletedRun(o);
    var s := CompletedState(o);
    LostLeads(s, 1, o, 5);
    run := Then(r, RefundFinish(1), Leave(s.(db := s.db.(rentals := s.db.rentals[o := s.db.rentals[o].(lease := None)])), 1));
  }

  // ---- A code that outlives its rental ----------------------------------------------------------

  lemma CodeLeads(s: State, o: OrderId, a: AccountId, now: Time)
    requires o in s.db.orders && o in s.db.rentals && a in s.db.accounts && s.db.accounts[a] == OPEN && !InRefund(s.db.orders[o].status)
    requires var r := s.db.rentals[o]; r.account == a && r.status.Active? && r.delivery.Sent? && r.expiresAt > now
    ensures Leads(s, SendCode(o, true, a, now), Say(s, Code(o, a)))
  {
    SameAccounts(s.db, o, s.db.rentals[o]);
    assert Load(s.db, o) == WithRental(Load(s.db, o), s.db.rentals[o]);
    assert CodeAuthorization(Load(s.db, o), true, a, now) == (Load(s.db, o), true);
    assert s.db.rentals[o := s.db.rentals[o]] == s.db.rentals;
  }

  /** A second refund event finds the lease of the first one live: it marks order and account and leaves. */
  function BusyState(s: State, o: OrderId, now: Time): State
    requires o in s.db.orders && o in s.db.rentals && s.db.rentals[o].account in s.db.accounts
  {
    var a := s.db.rentals[o].account;
    Stamp(s.(db := s.db.(orders := s.db.orders[o := s.db.orders[o].(status := RefundPending)],
                         accounts := s.db.accounts[a := s.db.accounts[a].(status := Maintenance)])), o, now)
  }

  lemma BusyLeads(s: State, w: WorkerId, o: OrderId, now: Time)
    requires MayStart(s, w, o, now) && o in s.db.rentals && s.db.rentals[o].account in s.db.accounts
    requires !InRefund(s.db.orders[o].status) && Occupying(s.db.rentals[o].status) && LeaseLive(s.db.rentals[o].lease, now)
    ensures Leads(s, RefundStart(w, o, true, now), BusyState(s, o, now))
  {
    assert s.db.rentals[o := s.db.rentals[o]] == s.db.rentals;
  }

  lemma FreedFacts(s: State, v: WorkerId, o: OrderId, a: AccountId, at: Time)
    requires v in s.workers && s.workers[v] == Revoker(Refund, Claim(o, a, at, None), Kicked(true))
    requires StatusIs(s, o, RefundPending) && o in s.db.rentals && a in s.db.accounts
    requires s.db.rentals[o].account == a && s.db.rentals[o].lease == Some(at) && Occupying(s.db.rentals[o].status)
    requires forall p :: p in s.db.rentals ==> p == o
    ensures Enabled(s, RefundFinish(v)) && Step(s, RefundFinish(v)).log == s.log && !Occupied(Step(s, RefundFinish(v)).db, a)
  {
  }

  /** The account of a code that was sent after the last logout. */
  lemma CodeIsOut(log: seq<Event>, o: OrderId, a: AccountId)
    ensures !Custody.Clean(log + [Code(o, a)], a)
  {
    assert (log + [Code(o, a)])[|log|] == Code(o, a);
  }

  /** The completed order's account is back on sale and a code was sent. */
  function CodeOutState(o: OrderId): State {
    var s := CompletedState(o);
    Say(s.(db := s.db.(accounts := s.db.accounts[1 := OPEN])), Code(o, 1))
  }

  lemma CodeOutRun(o: OrderId) returns (run: Run)
    ensures Valid(run) && Last(run) == CodeOutState(o)
  {
    var r, _ := CompletedRun(o);
    var s := CompletedState(o);
    BackOnSaleLeads(s, 1);
    var s1 := s.(db := s.db.(accounts := s.db.accounts[1 := OPEN]));
    var r1 := Then(r, AccountWrite(1, OPEN), s1);
    CodeLeads(s1, o, 1, 10);
    run := Then(r1, SendCode(o, true, 1, 10), CodeOutState(o));
  }

  lemma CodeOutFacts(o: OrderId)
    ensures var s := CodeOutState(o);
            && MayStart(s, 2, o, 20) && StatusIs(s, o, Completed) && o in s.db.rentals && 1 in s.db.accounts
            && s.db.rentals[o].account == 1 && Occupying(s.db.rentals[o].status) && s.db.rentals[o].lease == Some(5)
            && 1 in s.workers && s.workers[1] == Revoker(Refund, Claim(o, 1, 5, None), Kicked(true))
            && (forall p :: p in s.db.rentals ==> p == o) && !Custody.Clean(s.log, 1)
  {
    CodeIsOut(CompletedState(o).log, o, 1);
  }

  /** What the discipline on late completions excludes: the refund has logged the account out, the scheduler
      completes the order, the account goes back on sale, the buyer fetches a code, a second refund event restores
      the pending refund, and the first one frees the account with the code still out. */
  lemma LateCompletionLeaks(o: OrderId) returns (run: Run)
    ensures Valid(run) && |run.actions| > 0 && run.actions[|run.actions| - 1].RefundFinish?
    ensures !Occupied(Last(run).db, 1) && !Custody.Clean(Last(run).log, 1)
  {
    var r := CodeOutRun(o);
    CodeOutFacts(o);
    BusyLeads(CodeOutState(o), 2, o, 20);
    var s := BusyState(CodeOutState(o), o, 20);
    var r1 := Then(r, RefundStart(2, o, true, 20), s);
    FreedFacts(s, 1, o, 1, 5);
    run := Then(r1, RefundFinish(1), Step(s, RefundFinish(1)));
  }

  // ---- An ended rental that comes back ----------------------------------------------------------

  /** The rental of `o` was delivered on `a`, is due, and nothing else goes on. */
  predicate Due(s: State, o: OrderId, a: AccountId, now: Time) {
    && o in s.db.orders && o in s.db.rentals && StatusIs(s, o, Pending) && s.workers == map[] && s.db.jobs == []
    && a in s.db.accounts && FreshStamp(s, o, now)
    && var r := s.db.rentals[o];
    && r.account == a && r.status.Active? && r.delivery.Sent? && r.lease.None? && r.target.None? && r.attempts > 0 && r.expiresAt <= now
  }

  /** The expiry has ended the rental; the command's first check still remembers it as running. */
  function EndedState(s: State, o: OrderId, a: AccountId, now: Time): State
    requires o in s.db.rentals && a in s.db.accounts
  {
    var r := s.db.rentals[o];
    State(s.db.(rentals := s.db.rentals[o := r.(status := Expired)],
                accounts := s.db.accounts[a := s.db.accounts[a].(status := Maintenance)],
                jobs := [NewJob(a, RefreshRecover, RecoverRefresh)]),
          map[3 := Commander(o, r, Some(now))], s.log + [LoggedOut(a)], s.stamps + {(o, now)}, s.lowered, s.orderly)
  }

  lemma CheckLeads(s: State, o: OrderId, a: AccountId, now: Time)
    requires Due(s, o, a, now)
    ensures var r := s.db.rentals[o];
            && Leads(s, CheckRead(3, o), Enter(s, 3, Commander(o, r, None)))
            && Leads(Enter(s, 3, Commander(o, r, None)), CheckDecide(3, now), Enter(s, 3, Commander(o, r, Some(now))))
  {
    var r := s.db.rentals[o];
    var s1 := Enter(s, 3, Commander(o, r, None));
    assert DecidesExpiry(s1.db.orders[o], r, now);
    assert Enter(s1, 3, Commander(o, r, Some(now))) == Enter(s, 3, Commander(o, r, Some(now)));
  }

  /** After the expiry's claim: closed, leased, off sale. */
  function ClosingState(s: State, o: OrderId, a: AccountId, now: Time, log: seq<Event>, stage: Stage, jobs: seq<Job>): State
    requires o in s.db.rentals && a in s.db.accounts
  {
    var r := s.db.rentals[o];
    State(s.db.(rentals := s.db.rentals[o := r.(status := ExpiryPending, lease := Some(now))],
                accounts := s.db.accounts[a := s.db.accounts[a].(status := Maintenance)], jobs := jobs),
          map[3 := Commander(o, r, Some(now)), 4 := Revoker(Expiry, Claim(o, a, now, None), stage)],
          log, s.stamps + {(o, now)}, s.lowered, s.orderly)
  }

  lemma ClosingLeads(s: State, o: OrderId, a: AccountId, now: Time)
    requires Due(s, o, a, now)
    ensures Leads(Enter(s, 3, Commander(o, s.db.rentals[o], Some(now))), ExpiryStart(4, o, true, now),
                  ClosingState(s, o, a, now, s.log, ClaimHeld, []))
  {
    var s1 := Enter(s, 3, Commander(o, s.db.rentals[o], Some(now)));
    var t := StartExpiry(s1, 4, o, true, now);
    assert t.db.orders == s.db.orders;
    assert t.workers == map[3 := Commander(o, s.db.rentals[o], Some(now)), 4 := Revoker(Expiry, Claim(o, a, now, None), ClaimHeld)];
  }

  lemma LoggedOutLeads(s: State, o: OrderId, a: AccountId, now: Time)
    requires Due(s, o, a, now)
    ensures Leads(ClosingState(s, o, a, now, s.log, ClaimHeld, []), Kick(4, true, true),
                  ClosingState(s, o, a, now, s.log + [LoggedOut(a)], Kicked(true), []))
  {
    var t := LogOut(ClosingState(s, o, a, now, s.log, ClaimHeld, []), 4, true, true);
    assert t.workers == map[3 := Commander(o, s.db.rentals[o], Some(now)), 4 := Revoker(Expiry, Claim(o, a, now, None), Kicked(true))];
  }

  lemma SettledLeads(s: State, o: OrderId, a: AccountId, now: Time, log: seq<Event>)
    requires Due(s, o, a, now)
    ensures Leads(ClosingState(s, o, a, now, log, Kicked(true), []), ExpirySettle(4, true),
                  ClosingState(s, o, a, now, log, Recorded(true), [NewJob(a, RefreshRecover, RecoverRefresh)]))
  {
    var s1 := ClosingState(s, o, a, now, log, Kicked(true), []);
    var t := SettleExpiry(s1, 4, true);
    assert t.db.accounts == s1.db.accounts;
    assert Enqueued([], a, RefreshRecover, RecoverRefresh) == [NewJob(a, RefreshRecover, RecoverRefresh)];
    assert t.workers == map[3 := Commander(o, s.db.rentals[o], Some(now)), 4 := Revoker(Expiry, Claim(o, a, now, None), Recorded(true))];
  }

  lemma EndedLeads(s: State, o: OrderId, a: AccountId, now: Time)
    requires Due(s, o, a, now)
    ensures Leads(ClosingState(s, o, a, now, s.log + [LoggedOut(a)], Recorded(true), [NewJob(a, RefreshRecover, RecoverRefresh)]),
                  ExpiryFinish(4), EndedState(s, o, a, now))
  {
    var s1 := ClosingState(s, o, a, now, s.log + [LoggedOut(a)], Recorded(true), [NewJob(a, RefreshRecover, RecoverRefresh)]);
    SameAccounts(s1.db, o, s.db.rentals[o].(status := Expired));
    assert s1.db.rentals[o := s.db.rentals[o].(status := Expired)] == s.db.rentals[o := s.db.rentals[o].(status := Expired)];
    assert FinishExpiry(s1, 4).workers == map[3 := Commander(o, s.db.rentals[o], Some(now))];
  }

  lemma BeginExpiry(r: Run, o: OrderId, a: AccountId, now: Time) returns (r': Run)
    requires Valid(r) && Due(Last(r), o, a, now)
    ensures Extends(r, r') && Last(r') == ClosingState(Last(r), o, a, now, Last(r).log, ClaimHeld, [])
  {
    var s := Last(r);
    CheckLeads(s, o, a, now);
    var r1 := Then(r, CheckRead(3, o), Enter(s, 3, Commander(o, s.db.rentals[o], None)));
    var r2 := Then(r1, CheckDecide(3, now), Enter(s, 3, Commander(o, s.db.rentals[o], Some(now))));
    ClosingLeads(s, o, a, now);
    r' := Then(r2, ExpiryStart(4, o, true, now), ClosingState(s, o, a, now, s.log, ClaimHeld, []));
  }

  lemma EndExpiry(r: Run, s: State, o: OrderId, a: AccountId, now: Time) returns (r': Run)
    requires Due(s, o, a, now) && Valid(r) && Last(r) == ClosingState(s, o, a, now, s.log, ClaimHeld, [])
    ensures Extends(r, r') && Last(r') == EndedState(s, o, a, now)
  {
    var jobs := [NewJob(a, RefreshRecover, RecoverRefresh)];
    LoggedOutLeads(s, o, a, now);
    var r1 := Then(r, Kick(4, true, true), ClosingState(s, o, a, now, s.log + [LoggedOut(a)], Kicked(true), []));
    SettledLeads(s, o, a, now, s.log + [LoggedOut(a)]);
    var r2 := Then(r1, ExpirySettle(4, true), ClosingState(s, o, a, now, s.log + [LoggedOut(a)], Recorded(true), jobs));
    EndedLeads(s, o, a, now);
    r' := Then(r2, ExpiryFinish(4), EndedState(s, o, a, now));
  }

  /** A command reads the rental and decides to close it; before it writes, the expiry runs to its end. */
  lemma Expire(r: Run, o: OrderId, a: AccountId, now: Time) returns (r': Run)
    requires Valid(r) && Due(Last(r), o, a, now)
    ensures Extends(r, r') && Last(r') == EndedState(Last(r), o, a, now)
  {
    var r1 := BeginExpiry(r, o, a, now);
    r' := EndExpiry(r1, Last(r), o, a, now);
  }

  const LATER: Time := 61 * MINUTE

  /** One order for an hour on account 1 and one for ten hours on account 2, both delivered. */
  function TwoSold(o: OrderId, p: OrderId): State
    requires o != p
  {
    State(Tables(map[o := Order(Pending, 60, 0), p := Order(Pending, 600, 0)],
                 map[o := SoldRental(1, 60, 1), p := SoldRental(2, 600, 1)],
                 map[1 := OPEN, 2 := OPEN], []),
          map[], [Credentials(o, 1, Welcome, 1), Credentials(p, 2, Welcome, 1)], {(o, 0), (o, 1), (p, 0), (p, 1)}, {}, true)
  }

  lemma SecondOrder(s: State, p: OrderId)
    requires p !in s.db.orders && p !in s.db.rentals
    ensures Leads(s, NewOrder(p, Paid, 600, 0), Ordered(s, p, 600))
  {
  }

  lemma SellTwo(o: OrderId, p: OrderId) returns (run: Run)
    requires o != p
    ensures Valid(run) && Last(run) == TwoSold(o, p)
  {
    var s1 := Ordered(Opening(), o, 60);
    OrderLeads(o);
    var r0 := Begin(Opening());
    var r1 := Then(r0, NewOrder(o, Paid, 60, 0), s1);
    FreeAccount(s1.db, 1);
    var r2 := Sell(r1, 0, o, 1, 0);
    var s2 := Last(r2);
    SecondOrder(s2, p);
    var r3 := Then(r2, NewOrder(p, Paid, 600, 0), Ordered(s2, p, 600));
    FreeAccount(Last(r3).db, 2);
    run := Sell(r3, 0, p, 2, 0);
    SoldBoth(o, p, s2, Last(run));
  }

  lemma SoldBoth(o: OrderId, p: OrderId, s2: State, s4: State)
    requires o != p
    requires s2 == WithDelivery(Ordered(Opening(), o, 60), o, SoldRental(1, 60, 1), 0, [Credentials(o, 1, Welcome, 1)])
    requires s4 == WithDelivery(Ordered(s2, p, 600), p, SoldRental(2, 600, 1), 0, [Credentials(p, 2, Welcome, 1)])
    ensures s4 == TwoSold(o, p)
  {
    var t := TwoSold(o, p);
    assert s4.db.orders == t.db.orders && s4.db.rentals == t.db.rentals;
    assert s4.stamps == t.stamps && s4.log == t.log;
  }

  lemma ReviveLeads(s: State, w: WorkerId, o: OrderId, read: Rental, now: Time)
    requires w in s.workers && s.workers[w] == Commander(o, read, Some(now)) && o in s.db.orders && o in s.db.rentals
    requires s.db.rentals[o].account in s.db.accounts && !Taken(s.db, o, s.db.rentals[o].account)
    ensures Leads(s, CheckWrite(w), Leave(s.(db := s.db.(rentals := s.db.rentals[o := s.db.rentals[o].(status := ExpiryPending)])), w))
  {
    SameAccounts(s.db, o, s.db.rentals[o].(status := ExpiryPending));
  }

  lemma StartLeads(s: State, k: JobId, now: Time)
    requires k < |s.db.jobs| && s.db.jobs[k].status.Queued? && !s.db.jobs[k].kind.DeviceAuth? && !Busy(s.db, s.db.jobs[k].account)
    ensures Leads(s, JobStart(k, now), OnJobs(s, Started(s.db.jobs, k, now)))
  {
  }

  /** An expired rental comes back on an account whose recovery check is running. */
  lemma RevivedUnderCheck(o: OrderId, p: OrderId) returns (run: Run, i: nat)
    requires o != p
    ensures Valid(run) && i + 1 == |run.actions| && Revives(run.states[i], run.actions[i])
    ensures o in run.states[i].db.rentals && run.states[i].db.rentals[o].status.Expired?
    ensures o in Last(run).db.rentals && Occupies(Last(run).db.rentals[o], 1)
    ensures |Last(run).db.jobs| == 1 && Last(run).db.jobs[0].status.Running? && Last(run).db.jobs[0].account == 1
  {
    var sold := SellTwo(o, p);
    var ended := Expire(sold, o, 1, LATER);
    var s := Last(ended);
    StartLeads(s, 0, LATER);
    var s1 := OnJobs(s, Started(s.db.jobs, 0, LATER));
    var r1 := Then(ended, JobStart(0, LATER), s1);
    ReviveLeads(s1, 3, o, SoldRental(1, 60, 1), LATER);
    i := |r1.actions|;
    run := Then(r1, CheckWrite(3), Leave(s1.(db := s1.db.(rentals := s1.db.rentals[o := s1.db.rentals[o].(status := ExpiryPending)])), 3));
  }

  lemma RecoveredLeads(s: State, a: AccountId)
    requires |s.db.jobs| == 1 && a in s.db.accounts
    ensures Leads(s, JobFinish(0, true), OnJobs(s, [s.db.jobs[0].(status := Done)]))
  {
  }

  lemma BackOnSaleLeads(s: State, a: AccountId)
    requires forall o :: o in s.db.rentals && Occupies(s.db.rentals[o], a) ==> s.db.rentals[o].target.None?
    ensures Leads(s, AccountWrite(a, OPEN), s.(db := s.db.(accounts := s.db.accounts[a := OPEN])))
  {
  }

  /** A replacement reserves the account `a` for the running rental of `p`. */
  predicate Replaceable(s: State, p: OrderId, b: AccountId, a: AccountId, now: Time) {
    && p in s.db.orders && p in s.db.rentals && !InRefund(s.db.orders[p].status) && 5 !in s.workers && FreshStamp(s, p, now)
    && a in s.db.accounts && b in s.db.accounts && a != b && s.db.accounts[a] == OPEN
    && var r := s.db.rentals[p];
    && r.account == b && r.status.Active? && r.delivery.Sent? && r.attempts > 0 && r.lease.None? && r.target.None? && r.replacements == 0
    && r.expiresAt > now + REPLACEMENT_MIN_REMAINING
  }

  function ReservedState(s: State, p: OrderId, b: AccountId, a: AccountId, now: Time): State
    requires p in s.db.rentals && b in s.db.accounts
  {
    Enter(Stamp(s.(db := s.db.(rentals := s.db.rentals[p := s.db.rentals[p].(lease := Some(now), target := Some(a))],
                               accounts := s.db.accounts[b := s.db.accounts[b].(status := Maintenance)])), p, now),
          5, Revoker(Replacement, Claim(p, b, now, Some(a)), ClaimHeld))
  }

  lemma ReservedRows(x: Locked, a: AccountId, now: Time)
    requires x.rental.Some? && x.account.Some? && !InRefund(x.order.status) && x.rental.value.account != a
    requires var r := x.rental.value;
             && r.status.Active? && r.delivery.Sent? && r.attempts > 0 && r.lease.None? && r.target.None? && r.replacements == 0
             && r.expiresAt > now + REPLACEMENT_MIN_REMAINING
    ensures ReplaceClaim(x, true, x.rental.value.account, Some(a), 1, now, now)
         == (WithAccountStatus(WithRental(x, x.rental.value.(lease := Some(now), target := Some(a))), Maintenance), true)
  {
  }

  lemma ReservedLeads(s: State, p: OrderId, b: AccountId, a: AccountId, now: Time)
    requires Replaceable(s, p, b, a, now) && Allocatable(ReleasedTables(s.db, p), a)
    ensures Leads(s, ReplaceStart(5, p, true, b, [a], 1, now, now), ReservedState(s, p, b, a, now))
  {
    ReservedRows(Load(s.db, p), a, now);
    assert Pick(ReleasedTables(s.db, p), [a], Some(b)) == Some(a);
  }

  /** The state in which the account of the expired rental is back on sale. */
  function BackOnSale(o: OrderId, p: OrderId): State
    requires o != p
  {
    var s := EndedState(TwoSold(o, p), o, 1, LATER);
    s.(db := s.db.(accounts := s.db.accounts[1 := OPEN], jobs := [NewJob(1, RefreshRecover, RecoverRefresh).(status := Done)]))
  }

  lemma BackOnSaleRun(o: OrderId, p: OrderId) returns (run: Run)
    requires o != p
    ensures Valid(run) && Last(run) == BackOnSale(o, p)
  {
    var sold := SellTwo(o, p);
    var ended := Expire(sold, o, 1, LATER);
    var s := Last(ended);
    RecoveredLeads(s, 1);
    var s1 := OnJobs(s, [s.db.jobs[0].(status := Done)]);
    var r1 := Then(ended, JobFinish(0, true), s1);
    BackOnSaleLeads(s1, 1);
    run := Then(r1, AccountWrite(1, OPEN), s1.(db := s1.db.(accounts := s1.db.accounts[1 := OPEN])));
  }

  lemma BackIsFree(o: OrderId, p: OrderId)
    requires o != p
    ensures Replaceable(BackOnSale(o, p), p, 2, 1, LATER) && Allocatable(ReleasedTables(BackOnSale(o, p).db, p), 1)
  {
  }

  /** An expired rental comes back on an account that has been promised to the replacement of another buyer. */
  lemma RevivedOnPromised(o: OrderId, p: OrderId) returns (run: Run, i: nat)
    requires o != p
    ensures Valid(run) && i + 1 == |run.actions| && Revives(run.states[i], run.actions[i])
    ensures o in Last(run).db.rentals && Occupies(Last(run).db.rentals[o], 1)
    ensures p in Last(run).db.rentals && Last(run).db.rentals[p].target == Some(1)
  {
    var back := BackOnSaleRun(o, p);
    var s := BackOnSale(o, p);
    BackIsFree(o, p);
    ReservedLeads(s, p, 2, 1, LATER);
    var s1 := ReservedState(s, p, 2, 1, LATER);
    var r1 := Then(back, ReplaceStart(5, p, true, 2, [1], 1, LATER, LATER), s1);
    ReviveLeads(s1, 3, o, SoldRental(1, 60, 1), LATER);
    i := |r1.actions|;
    run := Then(r1, CheckWrite(3), Leave(s1.(db := s1.db.(rentals := s1.db.rentals[o := s1.db.rentals[o].(status := ExpiryPending)])), 3));
  }

  // ---- An account write between logout and switch -----------------------------------------------

  /** One order for ten hours, delivered on account 1. */
  function LongSold(o: OrderId): State {
    WithDelivery(Ordered(Opening(), o, 600), o, SoldRental(1, 600, 1), 0, [Credentials(o, 1, Welcome, 1)])
  }

  lemma LongSoldRun(o: OrderId) returns (run: Run)
    ensures Valid(run) && Last(run) == LongSold(o)
  {
    SecondOrder(Opening(), o);
    var r0 := Begin(Opening());
    var s0 := Ordered(Opening(), o, 600);
    var r1 := Then(r0, NewOrder(o, Paid, 600, 0), s0);
    FreeAccount(s0.db, 1);
    run := Sell(r1, 0, o, 1, 0);
  }

  /** A replacement has reserved account 2. */
  lemma ReservedRun(o: OrderId) returns (run: Run)
    ensures o in LongSold(o).db.rentals && 1 in LongSold(o).db.accounts
    ensures Valid(run) && Last(run) == ReservedState(LongSold(o), o, 1, 2, LATER)
  {
    var r := LongSoldRun(o);
    var s := LongSold(o);
    FreeAccount(ReleasedTables(s.db, o), 2);
    ReservedLeads(s, o, 1, 2, LATER);
    run := Then(r, ReplaceStart(5, o, true, 1, [2], 1, LATER, LATER), ReservedState(s, o, 1, 2, LATER));
  }

  lemma LoggedOutRun(o: OrderId) returns (run: Run)
    ensures Valid(run) && RevokerAt(Last(run), 5, Replacement) && Last(run).workers[5] == Revoker(Replacement, Claim(o, 1, LATER, Some(2)), Kicked(true))
    ensures FreshStamp(Last(run), o, LATER + 1) && !Taken(Last(run).db, o, 2)
    ensures Custody.ReadyToSwitch(Load(Last(run).db, o), Claim(o, 1, LATER, Some(2)), RowOf(Last(run).db.accounts, 2), 1, LATER)
  {
    var r := ReservedRun(o);
    var s1 := Last(r);
    KickLeads(s1, 5);
    run := Then(r, Kick(5, true, true), Enter(Say(s1, LoggedOut(1)), 5, s1.workers[5].(stage := Kicked(true))));
  }

  /** What the discipline on account rows excludes, from a fresh installation on. */
  lemma AccountWriteLeaks(o: OrderId) returns (run: Run)
    ensures Valid(run) && |run.actions| > 0 && run.actions[|run.actions| - 1].ReplaceFinish?
    ensures !Occupied(Last(run).db, 1) && !Custody.Clean(Last(run).log, 1)
  {
    var r := LoggedOutRun(o);
    var s := Last(r);
    Custody.RunKeeps(r.states, r.actions, |r.actions|);
    Custody.UndisciplinedWriteLeaks(s, 5, OPEN, 1, LATER, LATER + 1);
    run := LeakRun(r, o);
  }

  /** The steps of the leak do not depend on whether the run has been disciplined. */
  lemma CodeWhatever(s: State, o: OrderId, b: bool)
    requires o in s.db.orders
    ensures Leads(s.(orderly := b), SendCode(o, true, 1, LATER), SayCode(s, o, true, 1, LATER).(orderly := b))
    ensures SayCode(s, o, true, 1, LATER).workers == s.workers && SayCode(s, o, true, 1, LATER).stamps == s.stamps
    ensures o in SayCode(s, o, true, 1, LATER).db.orders
  {
  }

  lemma FinishWhatever(s: State, o: OrderId, b: bool)
    requires RevokerAt(s, 5, Replacement) && s.workers[5].stage.Kicked? && s.workers[5].claim.order == o && FreshStamp(s, o, LATER + 1)
    ensures Leads(s.(orderly := b), ReplaceFinish(5, true, 1, LATER, LATER + 1),
                  FinishReplacement(s, 5, true, 1, LATER, LATER + 1).(orderly := b))
  {
  }

  lemma WriteWhatever(s: State) returns (b: bool)
    ensures Leads(s, AccountWrite(1, OPEN), s.(db := s.db.(accounts := s.db.accounts[1 := OPEN]), orderly := b))
  {
    b := s.orderly && Disciplined(s, AccountWrite(1, OPEN));
  }

  lemma LeakRun(r: Run, o: OrderId) returns (run: Run)
    requires Valid(r) && o in Last(r).db.orders && RevokerAt(Last(r), 5, Replacement)
    requires Last(r).workers[5] == Revoker(Replacement, Claim(o, 1, LATER, Some(2)), Kicked(true)) && FreshStamp(Last(r), o, LATER + 1)
    ensures Valid(run) && |run.actions| == |r.actions| + 3 && run.actions[|run.actions| - 1].ReplaceFinish?
    ensures var s := Last(r);
            var s1 := s.(db := s.db.(accounts := s.db.accounts[1 := OPEN]));
            var s2 := SayCode(s1, o, true, 1, LATER);
            RevokerAt(s2, 5, Replacement) && s2.workers == s.workers
            && Last(run).db == FinishReplacement(s2, 5, true, 1, LATER, LATER + 1).db
            && Last(run).log == FinishReplacement(s2, 5, true, 1, LATER, LATER + 1).log
  {
    var s := Last(r);
    var b := WriteWhatever(s);
    var s1 := s.(db := s.db.(accounts := s.db.accounts[1 := OPEN]));
    var r1 := Then(r, AccountWrite(1, OPEN), s1.(orderly := b));
    CodeWhatever(s1, o, b);
    var s2 := SayCode(s1, o, true, 1, LATER);
    var r2 := Then(r1, SendCode(o, true, 1, LATER), s2.(orderly := b));
    FinishWhatever(s2, o, b);
    run := Then(r2, ReplaceFinish(5, true, 1, LATER, LATER + 1),
                FinishReplacement(s2, 5, true, 1, LATER, LATER + 1).(orderly := b));
  }

  // ---- A notification that loses its lease ------------------------------------------------------

  /** The expired rental of `o` is leased for its notification. */
  function NotifyingState(s: State, w: WorkerId, o: OrderId, now: Time): State
    requires o in s.db.rentals
  {
    Enter(Stamp(s.(db := s.db.(rentals := s.db.rentals[o := s.db.rentals[o].(lease := Some(now))])), o, now), w, Notifier(o, now))
  }

  lemma NotifyLeads(s: State, w: WorkerId, o: OrderId, now: Time)
    requires MayStart(s, w, o, now) && o in s.db.rentals && s.db.rentals[o].account in s.db.accounts
    requires !InRefund(s.db.orders[o].status) && s.db.rentals[o].status.Expired? && s.db.rentals[o].lease.None? && s.db.rentals[o].notifiedAt.None?
    ensures Leads(s, NotifyStart(w, o, true, now), NotifyingState(s, w, o, now))
  {
    SameAccounts(s.db, o, s.db.rentals[o].(lease := Some(now)));
  }

  lemma LateRefundFacts(s: State, w: WorkerId, o: OrderId, now: Time)
    requires MayStart(s, w, o, now) && o in s.db.rentals && !InRefund(s.db.orders[o].status) && s.db.rentals[o].status.Expired?
    ensures var a := RefundStart(w, o, true, now);
            Enabled(s, a) && o in Step(s, a).db.rentals && Step(s, a).db.rentals[o].lease.None? && Step(s, a).workers == s.workers
  {
  }

  /** A refund of the expired rental drops the lease of a notification that is under way. */
  lemma LateRefundDropsLease(o: OrderId, p: OrderId) returns (run: Run, i: nat)
    requires o != p
    ensures Valid(run) && i + 1 == |run.actions| && run.actions[i].RefundStart? && run.actions[i].o == o
    ensures o in run.states[i].db.rentals && LeaseLive(run.states[i].db.rentals[o].lease, run.actions[i].now)
    ensures 6 in Last(run).workers && Last(run).workers[6] == Notifier(o, LATER + 1)
    ensures o in Last(run).db.rentals && Last(run).db.rentals[o].lease.None?
  {
    var sold := SellTwo(o, p);
    var ended := Expire(sold, o, 1, LATER);
    var s := Last(ended);
    NotifyLeads(s, 6, o, LATER + 1);
    var s1 := NotifyingState(s, 6, o, LATER + 1);
    var r1 := Then(ended, NotifyStart(6, o, true, LATER + 1), s1);
    LateRefundFacts(s1, 7, o, LATER + 2);
    i := |r1.actions|;
    run := Then(r1, RefundStart(7, o, true, LATER + 2), Step(s1, RefundStart(7, o, true, LATER + 2)));
  }

  // ---- A closed job that comes back -------------------------------------------------------------

  function Queue(jobs: seq<Job>, workers: map<WorkerId, Worker>): State {
    Opening().(db := Opening().db.(jobs := jobs), workers := workers)
  }

  lemma QueueLeads(jobs: seq<Job>, workers: map<WorkerId, Worker>, a: AccountId)
    requires FirstLive(jobs, a, 0) == |jobs|
    ensures Leads(Queue(jobs, workers), JobEnqueue(a, Scheduled, FullValidation),
                  Queue(jobs + [NewJob(a, Scheduled, FullValidation)], workers))
  {
  }

  function RunningJob(now: Time): Job { NewJob(1, Scheduled, FullValidation).(status := JobStatus.Running, startedAt := Some(now)) }

  lemma LookUpLeads(now: Time)
    ensures Leads(Queue([NewJob(1, Scheduled, FullValidation)], map[]), JobStart(0, now), Queue([RunningJob(now)], map[]))
    ensures Leads(Queue([RunningJob(now)], map[]), CancelRead(0, 0), Queue([RunningJob(now)], map[0 := Canceller(0)]))
  {
  }

  lemma ReturnLeads(now: Time)
    ensures var job, failed := NewJob(1, Scheduled, FullValidation), RunningJob(now).(status := JobFailed);
            && Leads(Queue([RunningJob(now)], map[0 := Canceller(0)]), JobFail({}, {FullValidation}), Queue([failed], map[0 := Canceller(0)]))
            && Leads(Queue([failed, job], map[0 := Canceller(0)]), CancelWrite(0), Queue([job, job], map[]))
  {
    var job, failed := NewJob(1, Scheduled, FullValidation), RunningJob(now).(status := JobFailed);
    assert map[0 := Canceller(0)] - {0} == map[];
    assert [failed, job][0 := Requeued(failed)] == [job, job];
    assert AllFailed([RunningJob(now)], {}, {FullValidation}) == [failed];
  }

  /** A cancelled worker looks its job up while it runs; the job is failed and the account is queued again before
      the worker returns the job: the account has two live jobs. */
  lemma CancelledTwice() returns (run: Run, i: nat)
    ensures Valid(run) && i + 1 == |run.actions| && Reopens(run.states[i], run.actions[i])
    ensures |Last(run).db.jobs| == 2 && LiveFor(Last(run).db.jobs[0], 1) && LiveFor(Last(run).db.jobs[1], 1)
  {
    var job := NewJob(1, Scheduled, FullValidation);
    var running := RunningJob(0);
    var failed := running.(status := JobFailed);
    var r0 := Begin(Opening());
    assert Opening() == Queue([], map[]);
    QueueLeads([], map[], 1);
    LookUpLeads(0);
    ReturnLeads(0);
    var r1 := Then(r0, JobEnqueue(1, Scheduled, FullValidation), Queue([job], map[]));
    var r2 := Then(r1, JobStart(0, 0), Queue([running], map[]));
    var r3 := Then(r2, CancelRead(0, 0), Queue([running], map[0 := Canceller(0)]));
    var r4 := Then(r3, JobFail({}, {FullValidation}), Queue([failed], map[0 := Canceller(0)]));
    QueueLeads([failed], map[0 := Canceller(0)], 1);
    var r5 := Then(r4, JobEnqueue(1, Scheduled, FullValidation), Queue([failed, job], map[0 := Canceller(0)]));
    i := |r5.actions|;
    run := Then(r5, CancelWrite(0), Queue([job, job], map[]));
  }
}
