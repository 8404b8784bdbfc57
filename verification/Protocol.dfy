/** The order, rental and account protocol as a state machine.

    A state holds the database tables, the workers between two of their transactions, and a history of
    what left the building.  An action is one stretch of code between two commits, run by any number of
    workers in any order; the clock readings, the oracles and the crash points are the action's
    arguments, so a sequence of actions is one interleaved run. */
module Protocol {
  import opened Rows
  import opened Transitions
  import opened JobQueue
  import Pool

  type WorkerId = nat
  type JobId = nat

  datatype Tables = Tables(
    orders: map<OrderId, Order>,
    rentals: map<OrderId, Rental>,
    accounts: map<AccountId, Account>,
    jobs: seq<Job>)

  datatype RevokeKind = Refund | Expiry | Replacement
  datatype Stage = ClaimHeld | Kicked(success: bool) | Recorded(success: bool)
  datatype CourierStage = Claimed(at: Time) | Relocated(at: Time, account: AccountId) | AtBoundary(account: AccountId, attempt: nat)

  /** A worker between two commits: exactly what its coroutine remembers.  The last six work on rows as
      they read them earlier, without a lock that still holds: the sale list's preview, the scheduler's retry, the
      operator's retry, the first check of a buyer command, and the two writers of a job they looked up by id. */
  datatype Worker =
    | Revoker(kind: RevokeKind, claim: Claim, stage: Stage)
    | Notifier(order: OrderId, at: Time)
    | Courier(order: OrderId, courier: CourierStage)
    | SaleReader(order: OrderId, seen: OrderStatus)
    | Retrier(order: OrderId, found: Option<OrderStatus>)
    | Operator(order: OrderId, read: Rental)
    | Commander(order: OrderId, read: Rental, due: Option<Time>)
    | Canceller(job: JobId)
    | Poller(job: JobId)

  /** What left the building: an account-wide logout, a message with credentials, a login code. */
  datatype Event =
    | LoggedOut(account: AccountId)
    | Credentials(order: OrderId, account: AccountId, template: Template, attempt: nat)
    | Code(order: OrderId, account: AccountId)

  /** `stamps` are the timestamps used as identities so far, `lowered` the orders whose attempt counter an
      operator retry turned back; `orderly` says that every action so far was `Disciplined`. */
  datatype State = State(
    db: Tables,
    workers: map<WorkerId, Worker>,
    log: seq<Event>,
    stamps: set<(OrderId, Time)>,
    lowered: set<OrderId>,
    orderly: bool)

  predicate Discloses(e: Event, a: AccountId) {
    match e
    case LoggedOut(_) => false
    case Credentials(_, account, _, _) => account == a
    case Code(_, account) => account == a
  }

  predicate DisclosedFor(e: Event, o: OrderId) {
    match e
    case LoggedOut(_) => false
    case Credentials(order, _, _, _) => order == o
    case Code(order, _) => order == o
  }

  // ---- Occupancy (account_occupancy.py, account_pool.py) ----------------------------------------

  ghost predicate Busy(db: Tables, a: AccountId) {
    exists o :: o in db.rentals && Holds(db.rentals[o], a)
  }

  ghost predicate Occupied(db: Tables, a: AccountId) {
    exists o :: o in db.rentals && Occupies(db.rentals[o], a)
  }

  /** A rental other than that of `o` occupies the account: the partial unique index on rentals refuses a
      second one. */
  ghost predicate Taken(db: Tables, o: OrderId, a: AccountId) {
    exists p :: p in db.rentals && p != o && Occupies(db.rentals[p], a)
  }

  ghost predicate Checked(db: Tables, a: AccountId) {
    exists k :: 0 <= k < |db.jobs| && LiveFor(db.jobs[k], a)
  }

  ghost predicate Allocatable(db: Tables, a: AccountId) {
    a in db.accounts && OpenForSale(db.accounts[a]) && !Busy(db, a) && !Checked(db, a)
  }

  /** The pool's answer among the rows of its statement. */
  ghost function Pick(db: Tables, candidates: seq<AccountId>, excluded: Option<AccountId>): (r: Option<AccountId>)
    ensures r.Some? ==> Allocatable(db, r.value) && r != excluded
  {
    Pool.FirstFree(candidates, (a: AccountId) => !Allocatable(db, a) || excluded == Some(a))
  }

  // ---- Reading and writing the locked rows ------------------------------------------------------

  function RowOf<T>(table: map<nat, T>, key: nat): Option<T> {
    if key in table then Some(table[key]) else None
  }

  function Load(db: Tables, o: OrderId): Locked
    requires o in db.orders
  {
    Locked(db.orders[o], RowOf(db.rentals, o),
           if o in db.rentals then RowOf(db.accounts, db.rentals[o].account) else None)
  }

  function Store(db: Tables, o: OrderId, x: Locked): Tables {
    db.(orders := db.orders[o := x.order],
        rentals := if x.rental.Some? then db.rentals[o := x.rental.value] else db.rentals,
        accounts := if o in db.rentals && x.account.Some? then db.accounts[db.rentals[o].account := x.account.value]
                    else db.accounts)
  }

  function ReleasedTables(db: Tables, o: OrderId): Tables {
    if o in db.rentals then db.(rentals := db.rentals[o := Released(db.rentals[o])]) else db
  }

  function WithJobs(db: Tables, jobs: seq<Job>): Tables { db.(jobs := jobs) }

  function WithRecovery(db: Tables, a: AccountId): Tables {
    WithJobs(db, Enqueued(db.jobs, a, RefreshRecover, RecoverRefresh))
  }

  function Commit(s: State, o: OrderId, x: Locked): State { s.(db := Store(s.db, o, x)) }

  function Stamp(s: State, o: OrderId, at: Time): State { s.(stamps := s.stamps + {(o, at)}) }

  function Enter(s: State, w: WorkerId, worker: Worker): State { s.(workers := s.workers[w := worker]) }

  function Leave(s: State, w: WorkerId): State { s.(workers := s.workers - {w}) }

  function Say(s: State, e: Event): State { s.(log := s.log + [e]) }

  // ---- Actions ----------------------------------------------------------------------------------

  datatype Action =
    // orders
    | NewOrder(o: OrderId, remote: RemoteStatus, minutes: nat, tier: nat)
    | Close(o: OrderId)
    | PreviewRead(w: WorkerId, o: OrderId)
    | PreviewWrite(w: WorkerId, remote: RemoteStatus)
    | RetryPick(w: WorkerId, o: OrderId, now: Time)
    | RetryFound(w: WorkerId)
    | RetryComplete(w: WorkerId)
    // refund, expiry, replacement: claim, logout, finalize
    | RefundStart(w: WorkerId, o: OrderId, verified: bool, now: Time)
    | ExpiryStart(w: WorkerId, o: OrderId, verified: bool, now: Time)
    | ReplaceStart(w: WorkerId, o: OrderId, found: bool, account: AccountId, candidates: seq<AccountId>, limit: nat, now: Time, later: Time)
    | Kick(w: WorkerId, effect: bool, success: bool)
    | ExpirySettle(w: WorkerId, kept: bool)
    | RefundFinish(w: WorkerId)
    | ExpiryFinish(w: WorkerId)
    | ReplaceFinish(w: WorkerId, found: bool, limit: nat, now: Time, stamp: Time)
    // expiry notification, stale reservations, buyer commands
    | NotifyStart(w: WorkerId, o: OrderId, verified: bool, now: Time)
    | NotifyFinish(w: WorkerId, delivered: bool, now: Time)
    | Release(o: OrderId, expected: Option<AccountId>, seenLease: Option<Time>, seenTarget: AccountId, now: Time)
    | CheckRead(w: WorkerId, o: OrderId)
    | CheckDecide(w: WorkerId, now: Time)
    | CheckWrite(w: WorkerId)
    | SendCode(o: OrderId, found: bool, account: AccountId, now: Time)
    // credential delivery
    | Allocate(w: WorkerId, o: OrderId, verified: bool, candidates: seq<AccountId>, now: Time)
    | DeliveryStart(w: WorkerId, o: OrderId, verified: bool, now: Time)
    | ReachBoundary(w: WorkerId, verified: bool, limitsOk: bool, candidates: seq<AccountId>, now: Time)
    | ReachBoundaryAgain(w: WorkerId, verified: bool, limitsOk: bool, now: Time)
    | Disclose(w: WorkerId, verified: bool, limitsOk: bool, outcome: SendOutcome, now: Time)
    | RetryByOperator(w: WorkerId, o: OrderId, verified: bool, now: Time)
    | OperatorStart(w: WorkerId, verified: bool, now: Time)
    // accounts and checks
    | AccountWrite(a: AccountId, row: Account)
    | JobEnqueue(a: AccountId, priority: Priority, kind: JobKind)
    | JobExclusive(a: AccountId, priority: Priority, kind: JobKind, now: Time)
    | JobStart(k: JobId, now: Time)
    | PollRead(w: WorkerId, k: JobId)
    | PollWrite(w: WorkerId, now: Time)
    | JobFinish(k: JobId, ok: bool)
    | CancelRead(w: WorkerId, k: JobId)
    | CancelWrite(w: WorkerId)
    | JobRecover(locked: set<nat>, kinds: set<JobKind>, cutoff: Time)
    | JobFail(locked: set<nat>, kinds: set<JobKind>)
    | Crash(w: WorkerId)

  predicate RevokerAt(s: State, w: WorkerId, kind: RevokeKind) {
    w in s.workers && s.workers[w].Revoker? && s.workers[w].kind == kind && s.workers[w].claim.order in s.db.orders
  }

  predicate CourierIn(s: State, w: WorkerId) {
    w in s.workers && s.workers[w].Courier? && s.workers[w].order in s.db.orders
  }

  predicate RetrierIn(s: State, w: WorkerId) {
    w in s.workers && s.workers[w].Retrier? && s.workers[w].order in s.db.orders
  }

  predicate CommanderIn(s: State, w: WorkerId) {
    w in s.workers && s.workers[w].Commander? && s.workers[w].order in s.db.orders && s.workers[w].order in s.db.rentals
  }

  /** The scheduler's query for orders to fulfil: no rental yet, or one whose delivery failed or stalled. */
  predicate NeedsDelivery(db: Tables, o: OrderId, now: Time) {
    && o in db.orders && Fulfillable(db.orders[o].status)
    && (o in db.rentals ==>
          var r := db.rentals[o];
          r.status.Active?
          && ((r.delivery.Failed? && r.attempts < DELIVERY_MAX_ATTEMPTS && (r.nextAttempt.Some? ==> r.nextAttempt.value <= now))
              || (r.delivery.Sending? && r.sendingSince.Some? && r.sendingSince.value <= now - DELIVERY_LEASE)))
  }

  predicate DeliveredNow(db: Tables, o: OrderId) { o in db.rentals && db.rentals[o].delivery.Sent? }

  predicate FreshStamp(s: State, o: OrderId, at: Time) { (o, at) !in s.stamps }

  predicate MayStart(s: State, w: WorkerId, o: OrderId, at: Time) {
    o in s.db.orders && w !in s.workers && FreshStamp(s, o, at)
  }

  ghost predicate Enabled(s: State, a: Action) {
    match a
    case NewOrder(o, _, _, _) => o !in s.db.orders && o !in s.db.rentals
    case Close(o) => o in s.db.orders
    case PreviewRead(w, o) => w !in s.workers && o in s.db.orders
    case PreviewWrite(w, _) => w in s.workers && s.workers[w].SaleReader? && s.workers[w].order in s.db.orders
    case RetryPick(w, o, now) => w !in s.workers && NeedsDelivery(s.db, o, now)
    case RetryFound(w) => RetrierIn(s, w) && s.workers[w].found.None? && DeliveredNow(s.db, s.workers[w].order)
    case RetryComplete(w) => RetrierIn(s, w) && s.workers[w].found.Some?
    case RefundStart(w, o, _, now) => MayStart(s, w, o, now)
    case ExpiryStart(w, o, _, now) => MayStart(s, w, o, now)
    case ReplaceStart(w, o, _, _, _, _, now, later) => MayStart(s, w, o, later) && now <= later
    case Kick(w, effect, success) => w in s.workers && s.workers[w].Revoker? && s.workers[w].stage.ClaimHeld? && (success ==> effect)
    case ExpirySettle(w, _) => RevokerAt(s, w, Expiry) && s.workers[w].stage.Kicked?
    case RefundFinish(w) => RevokerAt(s, w, Refund) && s.workers[w].stage.Kicked?
    case ExpiryFinish(w) => RevokerAt(s, w, Expiry) && s.workers[w].stage.Recorded?
    case ReplaceFinish(w, _, _, _, stamp) =>
      RevokerAt(s, w, Replacement) && s.workers[w].stage.Kicked? && FreshStamp(s, s.workers[w].claim.order, stamp)
    case NotifyStart(w, o, _, now) => MayStart(s, w, o, now)
    case NotifyFinish(w, _, _) => w in s.workers && s.workers[w].Notifier? && s.workers[w].order in s.db.orders
    case Release(o, _, _, _, _) => o in s.db.orders
    case CheckRead(w, o) => w !in s.workers && o in s.db.orders && o in s.db.rentals
    case CheckDecide(w, _) => CommanderIn(s, w) && s.workers[w].due.None?
    case CheckWrite(w) => CommanderIn(s, w) && s.workers[w].due.Some?
    case SendCode(o, _, _, _) => o in s.db.orders
    case Allocate(w, o, _, _, now) => MayStart(s, w, o, now) && o !in s.db.rentals
    case DeliveryStart(w, o, _, now) => MayStart(s, w, o, now)
    case ReachBoundary(w, _, _, _, now) => CourierIn(s, w) && s.workers[w].courier.Claimed? && FreshStamp(s, s.workers[w].order, now)
    case ReachBoundaryAgain(w, _, _, now) => CourierIn(s, w) && s.workers[w].courier.Relocated? && FreshStamp(s, s.workers[w].order, now)
    case Disclose(w, _, _, _, _) => CourierIn(s, w) && s.workers[w].courier.AtBoundary?
    case RetryByOperator(w, o, _, _) => w !in s.workers && o in s.db.orders
    case OperatorStart(w, _, now) =>
      w in s.workers && s.workers[w].Operator? && s.workers[w].order in s.db.orders && FreshStamp(s, s.workers[w].order, now)
    case AccountWrite(_, _) => true
    case JobEnqueue(_, _, kind) => !kind.DeviceAuth?
    case JobExclusive(a, _, kind, _) => kind.DeviceAuth? ==> !Busy(s.db, a)
    case JobStart(k, _) => k < |s.db.jobs| && s.db.jobs[k].status.Queued? && !s.db.jobs[k].kind.DeviceAuth? && !Busy(s.db, s.db.jobs[k].account)
    case PollRead(w, k) => w !in s.workers && k < |s.db.jobs| && s.db.jobs[k].status.Queued? && s.db.jobs[k].kind.DeviceAuth?
    case PollWrite(w, _) => w in s.workers && s.workers[w].Poller? && s.workers[w].job < |s.db.jobs|
    case JobFinish(k, _) => k < |s.db.jobs|
    case CancelRead(w, k) => w !in s.workers && k < |s.db.jobs| && s.db.jobs[k].status.Running? && !s.db.jobs[k].kind.DeviceAuth?
    case CancelWrite(w) => w in s.workers && s.workers[w].Canceller? && s.workers[w].job < |s.db.jobs|
    case JobRecover(_, _, _) => true
    case JobFail(_, _) => true
    case Crash(w) => true
  }

  function RevokerFor(kind: RevokeKind, o: OrderId, r: Rental, at: Time): Worker {
    Revoker(kind, Claim(o, r.account, at, r.target), ClaimHeld)
  }

  function StartRefund(s: State, w: WorkerId, o: OrderId, verified: bool, now: Time): State
    requires o in s.db.orders
  {
    var (x, answer) := RefundClaim(Load(s.db, o), verified, now);
    var t := Stamp(Commit(s, o, x), o, now);
    if answer.RefundClaimed? then Enter(t, w, RevokerFor(Refund, o, x.rental.value, now)) else t
  }

  function StartExpiry(s: State, w: WorkerId, o: OrderId, verified: bool, now: Time): State
    requires o in s.db.orders
  {
    var (x, claimed) := ExpiryClaim(Load(s.db, o), verified, now);
    var t := Stamp(Commit(s, o, x), o, now);
    if claimed then Enter(t, w, RevokerFor(Expiry, o, x.rental.value, now)) else t
  }

  ghost function StartReplacement(s: State, w: WorkerId, o: OrderId, found: bool, account: AccountId,
                                  candidates: seq<AccountId>, limit: nat, now: Time, later: Time): State
    requires o in s.db.orders
  {
    var pick := Pick(ReleasedTables(s.db, o), candidates, Some(account));
    var (x, claimed) := ReplaceClaim(Load(s.db, o), found, account, pick, limit, now, later);
    var t := Stamp(Commit(s, o, x), o, later);
    if claimed then Enter(t, w, RevokerFor(Replacement, o, x.rental.value, later)) else t
  }

  function LogOut(s: State, w: WorkerId, effect: bool, success: bool): State
    requires w in s.workers && s.workers[w].Revoker?
  {
    var worker := s.workers[w];
    var t := if effect then Say(s, LoggedOut(worker.claim.account)) else s;
    Enter(t, w, worker.(stage := Kicked(success)))
  }

  /** The expiry worker's commit after the logout; a failed logout may have rolled its write back. */
  function SettleExpiry(s: State, w: WorkerId, kept: bool): State
    requires w in s.workers && s.workers[w].Revoker? && s.workers[w].stage.Kicked?
  {
    var worker := s.workers[w];
    var a := worker.claim.account;
    var ok := worker.stage.success;
    var db := if (kept || ok) && a in s.db.accounts
              then s.db.(accounts := s.db.accounts[a := s.db.accounts[a].(status := Maintenance)]) else s.db;
    Enter(s.(db := if ok then WithRecovery(db, a) else db), w, worker.(stage := Recorded(ok)))
  }

  function FinishRefund(s: State, w: WorkerId): State
    requires RevokerAt(s, w, Refund) && s.workers[w].stage.Kicked?
  {
    var worker := s.workers[w];
    var (x, enqueue) := RefundFinalize(Load(s.db, worker.claim.order), worker.claim, worker.stage.success);
    var db := Store(s.db, worker.claim.order, x);
    Leave(s.(db := if enqueue then WithRecovery(db, worker.claim.account) else db), w)
  }

  function FinishExpiry(s: State, w: WorkerId): State
    requires RevokerAt(s, w, Expiry) && s.workers[w].stage.Recorded?
  {
    var worker := s.workers[w];
    Leave(Commit(s, worker.claim.order, ExpiryFinalize(Load(s.db, worker.claim.order), worker.claim, worker.stage.success)), w)
  }

  /** A switch to an account that another rental occupies by now violates the unique index: the whole
      transaction is rolled back. */
  ghost function Switch(s: State, w: WorkerId, found: bool, limit: nat, now: Time, stamp: Time): (Locked, bool)
    requires RevokerAt(s, w, Replacement) && s.workers[w].stage.Kicked?
  {
    var worker := s.workers[w];
    var o := worker.claim.order;
    var target := if worker.claim.target.Some? then RowOf(s.db.accounts, worker.claim.target.value) else None;
    var (x, switched) :=
      ReplaceFinalize(Load(s.db, o), worker.claim, found, worker.stage.success, target, limit, now, stamp);
    if switched && x.rental.Some? && Taken(s.db, o, x.rental.value.account) then (Load(s.db, o), false) else (x, switched)
  }

  ghost function FinishReplacement(s: State, w: WorkerId, found: bool, limit: nat, now: Time, stamp: Time): State
    requires RevokerAt(s, w, Replacement) && s.workers[w].stage.Kicked?
  {
    var worker := s.workers[w];
    var o := worker.claim.order;
    var (x, switched) := Switch(s, w, found, limit, now, stamp);
    var db := Store(s.db, o, x);
    var t := Stamp(s, o, stamp);
    if switched then Enter(t.(db := WithRecovery(db, worker.claim.account)), w, Courier(o, Claimed(stamp)))
    else Leave(t.(db := db), w)
  }

  function StartNotification(s: State, w: WorkerId, o: OrderId, verified: bool, now: Time): State
    requires o in s.db.orders
  {
    var (x, claimed) := NotifyClaim(Load(s.db, o), verified, now);
    var t := Stamp(Commit(s, o, x), o, now);
    if claimed then Enter(t, w, Notifier(o, now)) else t
  }

  function SayCode(s: State, o: OrderId, found: bool, account: AccountId, now: Time): State
    requires o in s.db.orders
  {
    var (x, authorized) := CodeAuthorization(Load(s.db, o), found, account, now);
    var t := Commit(s, o, x);
    if authorized then Say(t, Code(o, account)) else t
  }

  ghost function FirstAllocation(s: State, w: WorkerId, o: OrderId, verified: bool, candidates: seq<AccountId>, now: Time): State
    requires o in s.db.orders
  {
    var rental := AllocateRental(s.db.orders[o], verified, Pick(s.db, candidates, None), now);
    var t := Stamp(s, o, now);
    if rental.None? then t
    else Enter(t.(db := s.db.(rentals := s.db.rentals[o := rental.value])), w, Courier(o, Claimed(now)))
  }

  function StartDelivery(s: State, w: WorkerId, o: OrderId, verified: bool, now: Time): State
    requires o in s.db.orders
  {
    var (x, claimed) := ClaimDelivery(Load(s.db, o), verified, now);
    var t := Stamp(Commit(s, o, x), o, now);
    if claimed then Enter(t, w, Courier(o, Claimed(now))) else t
  }

  function CourierAfter(s: State, w: WorkerId, o: OrderId, at: Time, answer: BoundaryAnswer): State {
    match answer
    case Stop => Leave(s, w)
    case Moved(a) => Enter(s, w, Courier(o, Relocated(at, a)))
    case Bound(a, attempt) => Enter(s, w, Courier(o, AtBoundary(a, attempt)))
  }

  ghost function ToBoundary(s: State, w: WorkerId, verified: bool, limitsOk: bool, candidates: seq<AccountId>, now: Time): State
    requires CourierIn(s, w) && s.workers[w].courier.Claimed?
  {
    var o := s.workers[w].order;
    var current := if o in s.db.rentals then Some(s.db.rentals[o].account) else None;
    var (x, answer) := Boundary(Load(s.db, o), verified, limitsOk, Pick(s.db, candidates, current), now);
    CourierAfter(Stamp(Commit(s, o, x), o, now), w, o, s.workers[w].courier.at, answer)
  }

  function ToBoundaryAgain(s: State, w: WorkerId, verified: bool, limitsOk: bool, now: Time): State
    requires CourierIn(s, w) && s.workers[w].courier.Relocated?
  {
    var o := s.workers[w].order;
    var (x, answer) := BoundaryAfterMove(Load(s.db, o), verified, limitsOk, s.workers[w].courier.account, now);
    CourierAfter(Stamp(Commit(s, o, x), o, now), w, o, s.workers[w].courier.at, answer)
  }

  function SendNow(s: State, w: WorkerId, verified: bool, limitsOk: bool, outcome: SendOutcome, now: Time): State
    requires CourierIn(s, w) && s.workers[w].courier.AtBoundary?
  {
    var o := s.workers[w].order;
    var stage := s.workers[w].courier;
    var (x, sent) := Send(Load(s.db, o), verified, limitsOk, stage.account, stage.attempt, outcome, now);
    var t := Leave(Commit(s, o, x), w);
    if sent then Say(t, Credentials(o, stage.account, x.rental.value.template, stage.attempt)) else t
  }

  function RetryNow(s: State, o: OrderId, verified: bool, now: Time): State
    requires o in s.db.orders
  {
    var (x, reset) := OperatorRetry(Load(s.db, o), verified, now);
    var t := Commit(s, o, x);
    if reset && s.db.rentals[o].attempts >= DELIVERY_MAX_ATTEMPTS then t.(lowered := t.lowered + {o}) else t
  }

  function OperatorResets(s: State, w: WorkerId, o: OrderId, verified: bool, now: Time): State
    requires o in s.db.orders
  {
    var (x, reset) := OperatorRetry(Load(s.db, o), verified, now);
    var t := RetryNow(s, o, verified, now);
    if reset then Enter(t, w, Operator(o, x.rental.value)) else t
  }

  function OperatorClaims(s: State, w: WorkerId, verified: bool, now: Time): State
    requires w in s.workers && s.workers[w].Operator? && s.workers[w].order in s.db.orders
  {
    var o := s.workers[w].order;
    var (x, claimed) := ClaimRemembered(Load(s.db, o), s.workers[w].read, verified, now);
    var t := Stamp(Commit(s, o, x), o, now);
    if claimed then Enter(t, w, Courier(o, Claimed(now))) else Leave(t, w)
  }

  /** The late write of a command's first check: the status alone, on the row as it is now.  The unique index
      rolls it back if the account is occupied again. */
  ghost function Closed(db: Tables, o: OrderId): Locked
    requires o in db.orders && o in db.rentals
  {
    if Taken(db, o, db.rentals[o].account) then Load(db, o)
    else WithRental(Load(db, o), db.rentals[o].(status := ExpiryPending))
  }

  function OnJobs(s: State, jobs: seq<Job>): State { s.(db := WithJobs(s.db, jobs)) }

  /** A write of an order's status by a worker that read the status earlier. */
  predicate LateStatus(s: State, a: Action) {
    (a.PreviewWrite? && a.w in s.workers && s.workers[a.w].SaleReader?)
    || (a.RetryComplete? && a.w in s.workers && s.workers[a.w].Retrier? && s.workers[a.w].found.Some?)
  }

  /** The late write sets a status outside refund: the preview completes an order it read as pending, the
      scheduler completes an order it did not read as completed. */
  predicate WritesCompleted(s: State, a: Action)
    requires LateStatus(s, a)
  {
    if a.PreviewWrite? then s.workers[a.w].seen.Pending? && a.remote.RemoteCompleted?
    else !s.workers[a.w].found.value.Completed?
  }

  /** The preview stages a refund of an order it did not read as being in refund. */
  predicate WritesRefundPending(s: State, a: Action)
    requires LateStatus(s, a)
  {
    a.PreviewWrite? && a.remote.RemoteRefunded? && !InRefund(s.workers[a.w].seen)
  }

  /** The writes that the cleanliness theorems exclude: putting an account back on sale while its rental has a
      replacement reserved, and a late completion of an order that is in refund by now. */
  ghost predicate Disciplined(s: State, a: Action) {
    match a
    case PreviewWrite(w, _) => LateStatus(s, a) && WritesCompleted(s, a) ==> !RefundedIn(s, s.workers[w].order)
    case RetryComplete(w) => LateStatus(s, a) && WritesCompleted(s, a) ==> !RefundedIn(s, s.workers[w].order)
    case AccountWrite(account, row) =>
      row.status.Sellable? ==>
        forall o :: o in s.db.rentals && Occupies(s.db.rentals[o], account) ==> s.db.rentals[o].target.None?
    case _ => true
  }

  predicate RefundedIn(s: State, o: OrderId) { o in s.db.orders && InRefund(s.db.orders[o].status) }

  /** The late write of a command's first check meets a rental that has ended meanwhile, and whose account
      nobody occupies. */
  ghost predicate Revives(s: State, a: Action) {
    a.CheckWrite? && CommanderIn(s, a.w)
    && var o := s.workers[a.w].order;
    !Occupying(s.db.rentals[o].status) && !Taken(s.db, o, s.db.rentals[o].account)
  }

  /** The late write to a job meets a row that was closed meanwhile. */
  predicate Reopens(s: State, a: Action) {
    (a.CancelWrite? || a.PollWrite?) && a.w in s.workers && (s.workers[a.w].Canceller? || s.workers[a.w].Poller?)
    && s.workers[a.w].job < |s.db.jobs| && !Live(s.db.jobs[s.workers[a.w].job])
  }

  predicate Revoking(a: Action) {
    a.RefundStart? || a.ExpiryStart? || a.ReplaceStart? || a.Kick? || a.RefundFinish? || a.ExpiryFinish? || a.ReplaceFinish?
  }

  predicate Ending(a: Action) { a.RefundFinish? || a.ExpiryFinish? || a.ReplaceFinish? }

  predicate Bounding(a: Action) { a.ReachBoundary? || a.ReachBoundaryAgain? }

  predicate Delivering(a: Action) {
    a.SendCode? || a.Allocate? || a.DeliveryStart? || a.ReachBoundary? || a.ReachBoundaryAgain? || a.Disclose?
  }

  predicate Queueing(a: Action) {
    a.JobEnqueue? || a.JobExclusive? || a.JobStart? || a.JobFinish? || a.JobRecover? || a.JobFail?
  }

  /** Reads without a row lock, and the writes that rest on them. */
  predicate Remembering(a: Action) {
    || a.PreviewRead? || a.PreviewWrite? || a.RetryPick? || a.RetryFound? || a.RetryComplete?
    || a.OperatorStart? || a.CheckRead? || a.CheckDecide? || a.CheckWrite?
    || a.PollRead? || a.PollWrite? || a.CancelRead? || a.CancelWrite?
  }

  predicate Recording(a: Action) { !Revoking(a) && !Delivering(a) && !Queueing(a) && !Remembering(a) }

  ghost function RevokingStep(s: State, a: Action): State
    requires Revoking(a) && Enabled(s, a)
  {
    match a
    case RefundStart(w, o, verified, now) => StartRefund(s, w, o, verified, now)
    case ExpiryStart(w, o, verified, now) => StartExpiry(s, w, o, verified, now)
    case ReplaceStart(w, o, found, account, candidates, limit, now, later) =>
      StartReplacement(s, w, o, found, account, candidates, limit, now, later)
    case Kick(w, effect, success) => LogOut(s, w, effect, success)
    case RefundFinish(w) => FinishRefund(s, w)
    case ExpiryFinish(w) => FinishExpiry(s, w)
    case ReplaceFinish(w, found, limit, now, stamp) => FinishReplacement(s, w, found, limit, now, stamp)
  }

  ghost function DeliveringStep(s: State, a: Action): State
    requires Delivering(a) && Enabled(s, a)
  {
    match a
    case SendCode(o, found, account, now) => SayCode(s, o, found, account, now)
    case Allocate(w, o, verified, candidates, now) => FirstAllocation(s, w, o, verified, candidates, now)
    case DeliveryStart(w, o, verified, now) => StartDelivery(s, w, o, verified, now)
    case ReachBoundary(w, verified, limitsOk, candidates, now) => ToBoundary(s, w, verified, limitsOk, candidates, now)
    case ReachBoundaryAgain(w, verified, limitsOk, now) => ToBoundaryAgain(s, w, verified, limitsOk, now)
    case Disclose(w, verified, limitsOk, outcome, now) => SendNow(s, w, verified, limitsOk, outcome, now)
  }

  ghost function QueueingStep(s: State, a: Action): State
    requires Queueing(a) && Enabled(s, a)
  {
    match a
    case JobEnqueue(a, priority, kind) => OnJobs(s, Enqueued(s.db.jobs, a, priority, kind))
    case JobExclusive(a, priority, kind, now) =>
      if Conflicts(s.db.jobs, a, now) then s else OnJobs(s, Exclusive(s.db.jobs, a, priority, kind))
    case JobStart(k, now) => OnJobs(s, Started(s.db.jobs, k, now))
    case JobFinish(k, ok) => OnJobs(s, Finished(s.db.jobs, k, ok))
    case JobRecover(locked, kinds, cutoff) => OnJobs(s, Recovered(s.db.jobs, locked, kinds, cutoff))
    case JobFail(locked, kinds) => OnJobs(s, AllFailed(s.db.jobs, locked, kinds))
  }

  ghost function RememberingStep(s: State, a: Action): State
    requires Remembering(a) && Enabled(s, a)
  {
    match a
    case PreviewRead(w, o) => Enter(s, w, SaleReader(o, s.db.orders[o].status))
    case PreviewWrite(w, remote) =>
      var o := s.workers[w].order;
      Leave(s.(db := s.db.(orders := s.db.orders[o := StageOver(s.db.orders[o], s.workers[w].seen, remote)]),
               orderly := s.orderly && Disciplined(s, a)), w)
    case RetryPick(w, o, now) => Enter(s, w, Retrier(o, None))
    case RetryFound(w) => Enter(s, w, Retrier(s.workers[w].order, Some(s.db.orders[s.workers[w].order].status)))
    case RetryComplete(w) =>
      var o := s.workers[w].order;
      Leave(s.(db := s.db.(orders := s.db.orders[o := Flushed(s.db.orders[o], s.workers[w].found.value, Completed)]),
               orderly := s.orderly && Disciplined(s, a)), w)
    case OperatorStart(w, verified, now) => OperatorClaims(s, w, verified, now)
    case CheckRead(w, o) => Enter(s, w, Commander(o, s.db.rentals[o], None))
    case CheckDecide(w, now) =>
      var o, read := s.workers[w].order, s.workers[w].read;
      if DecidesExpiry(s.db.orders[o], read, now) then Enter(s, w, Commander(o, read, Some(now))) else Leave(s, w)
    case CheckWrite(w) => Leave(Commit(s, s.workers[w].order, Closed(s.db, s.workers[w].order)), w)
    case PollRead(w, k) => Enter(s, w, Poller(k))
    case PollWrite(w, now) => Leave(OnJobs(s, Started(s.db.jobs, s.workers[w].job, now)), w)
    case CancelRead(w, k) => Enter(s, w, Canceller(k))
    case CancelWrite(w) =>
      var k := s.workers[w].job;
      Leave(OnJobs(s, s.db.jobs[k := Requeued(s.db.jobs[k])]), w)
  }

  ghost function RecordingStep(s: State, a: Action): State
    requires Recording(a) && Enabled(s, a)
  {
    match a
    case NewOrder(o, remote, minutes, tier) =>
      s.(db := s.db.(orders := s.db.orders[o := Order(NewOrderStatus(remote), minutes, tier)]))
    case Close(o) => s.(db := s.db.(orders := s.db.orders[o := CloseSale(s.db.orders[o]).0]))
    case ExpirySettle(w, kept) => SettleExpiry(s, w, kept)
    case NotifyStart(w, o, verified, now) => StartNotification(s, w, o, verified, now)
    case NotifyFinish(w, delivered, now) =>
      var o := s.workers[w].order;
      Leave(Commit(s, o, NotifyFinalize(Load(s.db, o), s.workers[w].at, delivered, now)), w)
    case Release(o, expected, seenLease, seenTarget, now) =>
      Commit(s, o, ReleaseReservation(Load(s.db, o), expected, seenLease, seenTarget, now).0)
    case RetryByOperator(w, o, verified, now) => OperatorResets(s, w, o, verified, now)
    case AccountWrite(account, row) =>
      s.(db := s.db.(accounts := s.db.accounts[account := row]), orderly := s.orderly && Disciplined(s, a))
    case Crash(w) => Leave(s, w)
  }

  ghost function Step(s: State, a: Action): State
    requires Enabled(s, a)
  {
    if Revoking(a) then RevokingStep(s, a)
    else if Delivering(a) then DeliveringStep(s, a)
    else if Queueing(a) then QueueingStep(s, a)
    else if Remembering(a) then RememberingStep(s, a)
    else RecordingStep(s, a)
  }

  // ---- The rows an action writes ----------------------------------------------------------------

  datatype Touch = Nothing | Rows(o: OrderId, rows: Locked)

  ghost function RevokingRows(s: State, a: Action): Touch
    requires Enabled(s, a) && Revoking(a)
  {
    match a
    case RefundStart(w, o, verified, now) => Rows(o, RefundClaim(Load(s.db, o), verified, now).0)
    case ExpiryStart(w, o, verified, now) => Rows(o, ExpiryClaim(Load(s.db, o), verified, now).0)
    case ReplaceStart(w, o, found, account, candidates, limit, now, later) =>
      Rows(o, ReplaceClaim(Load(s.db, o), found, account, Pick(ReleasedTables(s.db, o), candidates, Some(account)), limit, now, later).0)
    case Kick(w, effect, success) => Nothing
    case RefundFinish(w) =>
      var worker := s.workers[w];
      Rows(worker.claim.order, RefundFinalize(Load(s.db, worker.claim.order), worker.claim, worker.stage.success).0)
    case ExpiryFinish(w) =>
      var worker := s.workers[w];
      Rows(worker.claim.order, ExpiryFinalize(Load(s.db, worker.claim.order), worker.claim, worker.stage.success))
    case ReplaceFinish(w, found, limit, now, stamp) =>
      Rows(s.workers[w].claim.order, Switch(s, w, found, limit, now, stamp).0)
  }

  ghost function DeliveringRows(s: State, a: Action): Touch
    requires Enabled(s, a) && Delivering(a)
  {
    match a
    case SendCode(o, found, account, now) => Rows(o, CodeAuthorization(Load(s.db, o), found, account, now).0)
    case Allocate(w, o, verified, candidates, now) =>
      Rows(o, Load(s.db, o).(rental := AllocateRental(s.db.orders[o], verified, Pick(s.db, candidates, None), now)))
    case DeliveryStart(w, o, verified, now) => Rows(o, ClaimDelivery(Load(s.db, o), verified, now).0)
    case ReachBoundary(w, verified, limitsOk, candidates, now) =>
      var o := s.workers[w].order;
      var current := if o in s.db.rentals then Some(s.db.rentals[o].account) else None;
      Rows(o, Boundary(Load(s.db, o), verified, limitsOk, Pick(s.db, candidates, current), now).0)
    case ReachBoundaryAgain(w, verified, limitsOk, now) =>
      var o := s.workers[w].order;
      Rows(o, BoundaryAfterMove(Load(s.db, o), verified, limitsOk, s.workers[w].courier.account, now).0)
    case Disclose(w, verified, limitsOk, outcome, now) =>
      var o, stage := s.workers[w].order, s.workers[w].courier;
      Rows(o, Send(Load(s.db, o), verified, limitsOk, stage.account, stage.attempt, outcome, now).0)
  }

  ghost function RecordingRows(s: State, a: Action): Touch
    requires Enabled(s, a) && Recording(a)
  {
    match a
    case Close(o) => Rows(o, Load(s.db, o).(order := CloseSale(s.db.orders[o]).0))
    case NotifyStart(w, o, verified, now) => Rows(o, NotifyClaim(Load(s.db, o), verified, now).0)
    case NotifyFinish(w, delivered, now) =>
      Rows(s.workers[w].order, NotifyFinalize(Load(s.db, s.workers[w].order), s.workers[w].at, delivered, now))
    case Release(o, expected, seenLease, seenTarget, now) =>
      Rows(o, ReleaseReservation(Load(s.db, o), expected, seenLease, seenTarget, now).0)
    case RetryByOperator(w, o, verified, now) => Rows(o, OperatorRetry(Load(s.db, o), verified, now).0)
    case _ => Nothing
  }

  ghost function RememberingRows(s: State, a: Action): Touch
    requires Enabled(s, a) && Remembering(a)
  {
    match a
    case PreviewWrite(w, remote) =>
      var o := s.workers[w].order;
      Rows(o, Load(s.db, o).(order := StageOver(s.db.orders[o], s.workers[w].seen, remote)))
    case RetryComplete(w) =>
      var o := s.workers[w].order;
      Rows(o, Load(s.db, o).(order := Flushed(s.db.orders[o], s.workers[w].found.value, Completed)))
    case OperatorStart(w, verified, now) =>
      Rows(s.workers[w].order, ClaimRemembered(Load(s.db, s.workers[w].order), s.workers[w].read, verified, now).0)
    case CheckWrite(w) => Rows(s.workers[w].order, Closed(s.db, s.workers[w].order))
    case _ => Nothing
  }

  /** The rows of the one order an action writes, as its transition function gives them. */
  ghost function Touched(s: State, a: Action): Touch
    requires Enabled(s, a)
  {
    if Revoking(a) then RevokingRows(s, a)
    else if Delivering(a) then DeliveringRows(s, a)
    else if Queueing(a) then Nothing
    else if Remembering(a) then RememberingRows(s, a)
    else RecordingRows(s, a)
  }

  /** `touch` is all that the action did to orders and rentals; a new order is the one other addition. */
  ghost predicate WritesOnly(s: State, t: State, a: Action, touch: Touch) {
    match touch
    case Rows(o, y) => o in s.db.orders && t.db.orders == Store(s.db, o, y).orders && t.db.rentals == Store(s.db, o, y).rentals
    case Nothing =>
      && t.db.rentals == s.db.rentals
      && (forall p :: p in s.db.orders ==> p in t.db.orders && t.db.orders[p] == s.db.orders[p])
      && (forall p :: p in t.db.orders && p !in s.db.orders ==> a.NewOrder? && a.o == p)
  }

  lemma RevokingIsWritten(s: State, a: Action)
    requires Enabled(s, a) && Revoking(a)
    ensures WritesOnly(s, RevokingStep(s, a), a, RevokingRows(s, a))
  {
  }

  lemma BoundaryIsWritten(s: State, a: Action)
    requires Enabled(s, a) && Bounding(a)
    ensures WritesOnly(s, DeliveringStep(s, a), a, DeliveringRows(s, a))
  {
  }

  lemma DeliveringIsWritten(s: State, a: Action)
    requires Enabled(s, a) && Delivering(a)
    ensures WritesOnly(s, DeliveringStep(s, a), a, DeliveringRows(s, a))
  {
    if Bounding(a) {
      BoundaryIsWritten(s, a);
    }
  }

  lemma RecordingIsWritten(s: State, a: Action)
    requires Enabled(s, a) && Recording(a)
    ensures WritesOnly(s, RecordingStep(s, a), a, RecordingRows(s, a))
  {
  }

  lemma LateStatusIsWritten(s: State, a: Action)
    requires Enabled(s, a) && (a.PreviewWrite? || a.RetryComplete?)
    ensures WritesOnly(s, RememberingStep(s, a), a, RememberingRows(s, a))
  {
  }

  lemma RememberingIsWritten(s: State, a: Action)
    requires Enabled(s, a) && Remembering(a)
    ensures WritesOnly(s, RememberingStep(s, a), a, RememberingRows(s, a))
  {
    if a.PreviewWrite? || a.RetryComplete? {
      LateStatusIsWritten(s, a);
    }
  }

  /** The queue's own actions change nothing but jobs. */
  lemma QueueingIsQuiet(s: State, a: Action)
    requires Enabled(s, a) && Queueing(a)
    ensures QueueingStep(s, a) == OnJobs(s, QueueingStep(s, a).db.jobs)
  {
  }

  lemma TouchedIsWritten(s: State, a: Action)
    requires Enabled(s, a)
    ensures WritesOnly(s, Step(s, a), a, Touched(s, a))
  {
    if Revoking(a) {
      RevokingIsWritten(s, a);
    } else if Delivering(a) {
      DeliveringIsWritten(s, a);
    } else if Queueing(a) {
      QueueingIsQuiet(s, a);
    } else if Remembering(a) {
      RememberingIsWritten(s, a);
    } else {
      RecordingIsWritten(s, a);
    }
  }

  // ---- Runs -------------------------------------------------------------------------------------

  /** A fresh installation: accounts and orders may exist, nothing is rented and nothing was sent. */
  predicate Initial(s: State) {
    s.db.rentals == map[] && s.db.jobs == [] && s.workers == map[] && s.log == [] && s.stamps == {} && s.lowered == {} && s.orderly
  }

  /** `states` are the states of the run that performs `actions` one after the other. */
  ghost predicate IsRun(states: seq<State>, actions: seq<Action>) {
    |states| == |actions| + 1 && Initial(states[0])
    && forall i :: 0 <= i < |actions| ==> Enabled(states[i], actions[i]) && states[i + 1] == Step(states[i], actions[i])
  }
}
