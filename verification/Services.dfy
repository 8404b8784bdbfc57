/** The transactions as the services run them: rows are objects whose fields are assigned one by one
    while the row locks are held.  Each method is proved to do to its rows exactly what the function of
    the same stretch in `Transitions` says, and what the next caller can rely on: who may claim what until
    when, what may no longer happen, and that a repeated call finds nothing left to do. */
module Services {
  import opened Rows
  import opened Transitions
  import opened RowLaws
  import Backoff

  class OrderRow {
    var status: OrderStatus
    const minutes: nat
    const tier: nat

    constructor (value: Order)
      ensures Value() == value
    {
      status, minutes, tier := value.status, value.minutes, value.tier;
    }

    function Value(): Order
      reads this
    {
      Order(status, minutes, tier)
    }
  }

  class AccountRow {
    var status: AccountStatus
    var override: Option<AccountStatus>
    var tier: nat

    constructor (value: Account)
      ensures Value() == value
    {
      status, override, tier := value.status, value.override, value.tier;
    }

    function Value(): Account
      reads this
    {
      Account(status, override, tier)
    }
  }

  class RentalRow {
    var account: AccountId
    const tier: nat
    const minutes: nat
    var status: RentalStatus
    var startedAt: Time
    var expiresAt: Time
    var lease: Option<Time>
    var target: Option<AccountId>
    var notifiedAt: Option<Time>
    var replacements: nat
    var delivery: DeliveryStatus
    var template: Template
    var sendingSince: Option<Time>
    var nextAttempt: Option<Time>
    var attempts: nat

    constructor (value: Rental)
      ensures Value() == value
    {
      account, tier, minutes, status := value.account, value.tier, value.minutes, value.status;
      startedAt, expiresAt := value.startedAt, value.expiresAt;
      lease, target, notifiedAt := value.lease, value.target, value.notifiedAt;
      replacements, delivery, template := value.replacements, value.delivery, value.template;
      sendingSince, nextAttempt, attempts := value.sendingSince, value.nextAttempt, value.attempts;
    }

    function Value(): Rental
      reads this
    {
      Rental(account, tier, minutes, status, startedAt, expiresAt, lease, target, notifiedAt,
             replacements, delivery, template, sendingSince, nextAttempt, attempts)
    }
  }

  function View(order: OrderRow, rental: RentalRow?, account: AccountRow?): Locked
    reads order, rental, account
  {
    Locked(order.Value(),
           if rental == null then None else Some(rental.Value()),
           if account == null then None else Some(account.Value()))
  }

  // ---- What the next caller can rely on ---------------------------------------------------------

  /** For five minutes from `since` on, no worker whatsoever can take the shared lease of the rental. */
  ghost predicate LeaseIsSafe(x: Locked, since: Time) {
    && (forall verified, t :: t < since + REVOKE_LEASE ==> !RefundClaim(x, verified, t).1.RefundClaimed?)
    && (forall verified, t :: t < since + REVOKE_LEASE ==> !ExpiryClaim(x, verified, t).1)
    && (forall verified, t :: t < since + REVOKE_LEASE ==> !NotifyClaim(x, verified, t).1)
    && (forall found, a, pick, limit, t, later :: t < since + REVOKE_LEASE ==> !ReplaceClaim(x, found, a, pick, limit, t, later).1)
  }

  lemma LeasedIsSafe(x: Locked, since: Time)
    requires x.rental.Some? && x.rental.value.lease == Some(since)
    ensures LeaseIsSafe(x, since)
  {
  }

  /** The rows authorize no code, for any account and at any time. */
  ghost predicate NoCodes(x: Locked) { forall found, a, t :: !CodeAuthorization(x, found, a, t).1 }

  lemma ClosedSendsNoCodes(x: Locked)
    requires x.rental.Some?
    requires InRefund(x.order.status) || !x.rental.value.status.Active? || (x.account.Some? ==> !OpenForSale(x.account.value))
    ensures NoCodes(x)
  {
  }

  /** No worker can claim the delivery before `t0`, whatever the other rows say. */
  ghost predicate ClaimIsSafe(r: Rental, t0: Time) {
    forall x: Locked, verified, t :: x.rental == Some(r) && t < t0 ==> !ClaimDelivery(x, verified, t).1
  }

  /** Nor at any later time. */
  ghost predicate NeverClaimed(r: Rental) {
    forall x: Locked, verified, t :: x.rental == Some(r) ==> !ClaimDelivery(x, verified, t).1
  }

  lemma SettledIsNeverClaimed(r: Rental)
    requires r.delivery.Sent? || r.delivery.Manual? || !r.status.Active?
    ensures NeverClaimed(r)
  {
  }

  /** No code is sent for the rental, whatever the other rows say. */
  ghost predicate NotYetDisclosed(r: Rental) {
    forall x: Locked, found, a, t :: x.rental == Some(r) ==> !CodeAuthorization(x, found, a, t).1
  }

  predicate SameDates(r: Rental, r': Rental) {
    r'.startedAt == r.startedAt && r'.expiresAt == r.expiresAt && r'.minutes == r.minutes
  }

  /** Lease, reservation and life of the rental are left alone. */
  predicate SameCustody(r: Rental, r': Rental) {
    r'.status == r.status && r'.lease == r.lease && r'.target == r.target && r'.notifiedAt == r.notifiedAt && r'.tier == r.tier
  }

  // ---- order_processor.py -----------------------------------------------------------------------

  method ProcessSaleClosedTransition(order: OrderRow) returns (transitioned: bool)
    modifies order
    ensures (order.Value(), transitioned) == CloseSale(old(order.Value()))
    ensures ClosesOnce(old(order.Value()), order.Value(), transitioned)
    ensures InRefund(old(order.status)) <==> InRefund(order.status)
    ensures CloseSale(order.Value()) == (order.Value(), false)
  {
    if order.status == Refunded || order.status == RefundPending {
      return false;
    }
    transitioned := order.status != Completed;
    order.status := Completed;
  }

  method ClaimRefundRevoke(order: OrderRow, rental: RentalRow?, account: AccountRow?, verified: bool, now: Time)
    returns (answer: RefundAnswer)
    modifies order, rental, account
    ensures (View(order, rental, account), answer) == RefundClaim(old(View(order, rental, account)), verified, now)
    ensures RefundClaims(old(View(order, rental, account)), View(order, rental, account), answer, verified, now)
    ensures answer.Unverified? || InRefund(order.status)
    ensures answer.RefundClaimed? ==> LeaseIsSafe(View(order, rental, account), now)
    ensures !answer.Unverified? ==> NoCodes(View(order, rental, account))
    ensures answer.Settled? ==> RefundClaim(View(order, rental, account), verified, now) == (View(order, rental, account), Settled)
  {
    RefundClaimLaw(View(order, rental, account), verified, now);
    if order.status == Refunded {
      return Settled;
    }
    if !verified {
      return Unverified;
    }
    if rental == null {
      order.status := Refunded;
      return Settled;
    }
    if rental.status != Active && rental.status != ExpiryPending {
      order.status := Refunded;
      rental.status := RentalRefunded;
      rental.target := None;
      rental.lease := None;
      return Settled;
    }
    order.status := RefundPending;
    if account != null {
      account.status := Maintenance;
    }
    var existing := rental.lease;
    if existing.Some? && existing.value > now - REVOKE_LEASE {
      return LeaseBusy;
    }
    rental.target := None;
    rental.lease := Some(now);
    return RefundClaimed;
  }

  method FinalizeRefundRevoke(order: OrderRow, rental: RentalRow?, account: AccountRow?, claim: Claim, kicked: bool)
    returns (enqueueRecovery: bool)
    modifies order, rental
    ensures (View(order, rental, account), enqueueRecovery) == RefundFinalize(old(View(order, rental, account)), claim, kicked)
    ensures RefundEnds(old(View(order, rental, account)), View(order, rental, account), enqueueRecovery, claim, kicked)
    ensures rental == null || old(rental.lease) != Some(claim.at) ==> View(order, rental, account) == old(View(order, rental, account))
    ensures enqueueRecovery <==> old(order.status) == RefundPending && order.status == Refunded
    ensures forall again :: RefundFinalize(View(order, rental, account), claim, again) == (View(order, rental, account), false)
  {
    RefundFinalizeLaw(View(order, rental, account), claim, kicked);
    enqueueRecovery := false;
    if rental == null {
      return;
    }
    var ownsClaim := rental.lease == Some(claim.at);
    var stateMatches :=
      ownsClaim
      && rental.account == claim.account
      && (rental.status == Active || rental.status == ExpiryPending)
      && order.status == RefundPending;
    if ownsClaim {
      rental.lease := None;
    }
    if kicked && stateMatches {
      rental.status := RentalRefunded;
      order.status := Refunded;
      enqueueRecovery := true;
    }
  }

  // ---- sale_registry.py, app_lifecycle.py -------------------------------------------------------

  method ReconcileLocalOrderStatus(order: OrderRow, remote: RemoteStatus)
    modifies order
    ensures order.Value() == StageRemoteStatus(old(order.Value()), remote)
    ensures StagesForward(old(order.Value()), order.Value(), remote)
    ensures InRefund(old(order.status)) ==> order.status == old(order.status)
    ensures StageRemoteStatus(order.Value(), remote) == order.Value()
    ensures order.status == Pending ==> old(order.status) == Pending && remote != RemoteCompleted && remote != RemoteRefunded
  {
    if remote == RemoteRefunded && order.status != Refunded && order.status != RefundPending {
      order.status := RefundPending;
    } else if remote == RemoteCompleted && order.status == Pending {
      order.status := Completed;
    }
  }

  method RetryRentalDelivery(order: OrderRow, rental: RentalRow?, account: AccountRow?, verified: bool, now: Time)
    returns (reset: bool)
    modifies rental
    ensures (View(order, rental, account), reset) == OperatorRetry(old(View(order, rental, account)), verified, now)
    ensures OperatorResets(old(View(order, rental, account)), View(order, rental, account), reset, verified, now)
    ensures !reset ==> View(order, rental, account) == old(View(order, rental, account))
    ensures reset ==> rental != null && forall t :: ClaimDelivery(View(order, rental, account), true, t).1
    ensures reset ==> rental.attempts <= old(rental.attempts) && SameDates(old(rental.Value()), rental.Value())
                      && SameCustody(old(rental.Value()), rental.Value())
  {
    OperatorRetryLaw(View(order, rental, account), verified, now);
    if rental == null || !verified || (order.status != Pending && order.status != Completed) {
      return false;
    }
    if rental.status != Active || rental.delivery == Sent {
      return false;
    }
    if rental.delivery == Sending && rental.sendingSince.Some? && rental.sendingSince.value > now - DELIVERY_LEASE {
      return false;
    }
    var previousAttempts := rental.attempts;
    rental.delivery := Failed;
    if previousAttempts > 0 {
      rental.attempts := if previousAttempts < DELIVERY_MAX_ATTEMPTS - 1 then previousAttempts else DELIVERY_MAX_ATTEMPTS - 1;
    } else {
      rental.attempts := 0;
    }
    rental.sendingSince := None;
    rental.nextAttempt := None;
    return true;
  }

  // ---- rental_expiry.py -------------------------------------------------------------------------

  method ClaimOverdue(order: OrderRow, rental: RentalRow?, account: AccountRow?, verified: bool, now: Time)
    returns (claimed: bool)
    modifies rental, account
    ensures (View(order, rental, account), claimed) == ExpiryClaim(old(View(order, rental, account)), verified, now)
    ensures ExpiryClaims(old(View(order, rental, account)), View(order, rental, account), claimed, verified, now)
    ensures !claimed ==> View(order, rental, account) == old(View(order, rental, account))
    ensures claimed ==> rental != null && rental.target.None? && NeverClaimed(rental.Value())
    ensures claimed ==> LeaseIsSafe(View(order, rental, account), now) && NoCodes(View(order, rental, account))
  {
    ExpiryClaimLaw(View(order, rental, account), verified, now);
    if order.status == RefundPending || order.status == Refunded || !verified || rental == null {
      return false;
    }
    var claimIsLive := rental.lease.Some? && rental.lease.value > now - REVOKE_LEASE;
    var initialDeliveryPending :=
      rental.template == Welcome && rental.delivery != Sent && rental.attempts == 0;
    if (rental.status != Active && rental.status != ExpiryPending)
       || rental.expiresAt > now
       || initialDeliveryPending
       || claimIsLive
    {
      return false;
    }
    rental.target := None;
    rental.status := ExpiryPending;
    rental.lease := Some(now);
    if account != null {
      account.status := Maintenance;
    }
    LeasedIsSafe(View(order, rental, account), now);
    ClosedSendsNoCodes(View(order, rental, account));
    SettledIsNeverClaimed(rental.Value());
    return true;
  }

  method FinalizeRevoke(order: OrderRow, rental: RentalRow?, account: AccountRow?, claim: Claim, kicked: bool)
    modifies rental
    ensures View(order, rental, account) == ExpiryFinalize(old(View(order, rental, account)), claim, kicked)
    ensures ExpiryEnds(old(View(order, rental, account)), View(order, rental, account), claim, kicked)
    ensures rental == null || old(rental.lease) != Some(claim.at) ==> View(order, rental, account) == old(View(order, rental, account))
    ensures rental != null && rental.status != old(rental.status) ==> kicked && rental.status == Expired && rental.lease.None?
    ensures rental != null && old(rental.lease) == Some(claim.at) && old(rental.status) == ExpiryPending && old(rental.account) == claim.account ==>
              forall again :: ExpiryFinalize(View(order, rental, account), claim, again) == View(order, rental, account)
  {
    ExpiryFinalizeLaw(View(order, rental, account), claim, kicked);
    var ownsClaim := rental != null && rental.lease == Some(claim.at);
    if rental != null && (order.status == RefundPending || order.status == Refunded) {
      if ownsClaim {
        rental.lease := None;
      }
      return;
    }
    if rental == null || rental.account != claim.account || rental.status != ExpiryPending || !ownsClaim {
      return;
    }
    rental.lease := None;
    if kicked {
      rental.status := Expired;
    }
  }

  method ClaimExpiryNotification(order: OrderRow, rental: RentalRow?, account: AccountRow?, verified: bool, now: Time)
    returns (claimed: bool)
    modifies rental
    ensures (View(order, rental, account), claimed) == NotifyClaim(old(View(order, rental, account)), verified, now)
    ensures NotifyClaims(old(View(order, rental, account)), View(order, rental, account), claimed, verified, now)
    ensures claimed ==> LeaseIsSafe(View(order, rental, account), now)
    ensures !claimed && View(order, rental, account) != old(View(order, rental, account)) ==>
              InRefund(order.status) && forall v, t :: NotifyClaim(View(order, rental, account), v, t) == (View(order, rental, account), false)
  {
    NotifyClaimLaw(View(order, rental, account), verified, now);
    if !verified || rental == null || rental.status != Expired || rental.notifiedAt.Some? {
      return false;
    }
    if order.status == RefundPending || order.status == Refunded {
      rental.notifiedAt := Some(now);
      return false;
    }
    if rental.lease.Some? && rental.lease.value > now - REVOKE_LEASE {
      return false;
    }
    rental.lease := Some(now);
    return true;
  }

  method FinalizeExpiryNotification(order: OrderRow, rental: RentalRow?, account: AccountRow?, at: Time,
                                    delivered: bool, now: Time)
    modifies rental
    ensures View(order, rental, account) == NotifyFinalize(old(View(order, rental, account)), at, delivered, now)
    ensures NotifyEnds(old(View(order, rental, account)), View(order, rental, account), at, delivered, now)
    ensures rental == null || old(rental.lease) != Some(at) ==> View(order, rental, account) == old(View(order, rental, account))
    ensures rental != null && old(rental.lease) == Some(at) && delivered ==>
              forall v, t :: NotifyClaim(View(order, rental, account), v, t) == (View(order, rental, account), false)
  {
    NotifyFinalizeLaw(View(order, rental, account), at, delivered, now);
    if rental == null || rental.lease != Some(at) {
      return;
    }
    rental.lease := None;
    if delivered {
      rental.notifiedAt := Some(now);
    }
  }

  method ReleaseStaleReservation(order: OrderRow, rental: RentalRow?, account: AccountRow?, expected: Option<AccountId>,
                                 seenLease: Option<Time>, seenTarget: AccountId, now: Time)
    returns (released: bool)
    modifies rental
    ensures (View(order, rental, account), released)
         == ReleaseReservation(old(View(order, rental, account)), expected, seenLease, seenTarget, now)
    ensures ReleasesReservation(old(View(order, rental, account)), View(order, rental, account), released, expected, seenLease, seenTarget, now)
    ensures !released ==> View(order, rental, account) == old(View(order, rental, account))
    ensures released ==> rental != null && rental.lease.None? && rental.target.None? && rental.account == old(rental.account)
                         && rental.status == old(rental.status) && SameDates(old(rental.Value()), rental.Value())
    ensures released ==> forall e, t :: !ReleaseReservation(View(order, rental, account), e, seenLease, seenTarget, t).1
    ensures released && old(rental.lease).Some? ==> now >= old(rental.lease).value + REVOKE_LEASE
  {
    ReleaseLaw(View(order, rental, account), expected, seenLease, seenTarget, now);
    if rental == null {
      return false;
    }
    var ownsObservation := rental.target == Some(seenTarget) && rental.lease == seenLease;
    var claimIsLive := rental.lease.Some? && rental.lease.value > now - REVOKE_LEASE;
    if !ownsObservation || claimIsLive || (expected.Some? && rental.account != expected.value) {
      return false;
    }
    rental.lease := None;
    rental.target := None;
    return true;
  }

  // ---- command_handlers.py ----------------------------------------------------------------------

  method ExpireRentalIfDue(order: OrderRow, rental: RentalRow, account: AccountRow?, now: Time)
    returns (denied: bool)
    modifies rental
    ensures (View(order, rental, account), denied)
         == ExpireIfDue(old(View(order, rental, account)), old(rental.Value()), now)
    ensures ExpiresIfDue(old(View(order, rental, account)), View(order, rental, account), denied, old(rental.Value()), now)
    ensures denied ==> forall t :: t >= now ==> ExpireIfDue(View(order, rental, account), rental.Value(), t).1
    ensures rental.status != old(rental.status) ==>
              old(rental.status) == Active && rental.expiresAt <= now && (!Unsent(rental.Value()) || rental.delivery == Sent)
  {
    ExpireIfDueLaw(View(order, rental, account), rental.Value(), now);
    if rental.template == Welcome && rental.delivery != Sent && rental.attempts == 0 {
      return false;
    }
    if order.status == RefundPending || order.status == Refunded {
      return true;
    }
    if rental.status != Active || rental.expiresAt > now {
      return rental.status != Active;
    }
    rental.status := ExpiryPending;
    return true;
  }

  method RentalAccessDenial(order: OrderRow, rental: RentalRow?, account: AccountRow?, now: Time)
    returns (denied: bool)
    modifies rental
    ensures (View(order, rental, account), denied) == AccessCheck(old(View(order, rental, account)), now)
    ensures ChecksAccess(old(View(order, rental, account)), View(order, rental, account), denied, now)
    ensures denied <==> !(rental != null && rental.delivery == Sent && rental.status == Active && rental.expiresAt > now && !InRefund(order.status))
    ensures denied ==> forall t :: t >= now ==> AccessCheck(View(order, rental, account), t).1
  {
    AccessLaw(View(order, rental, account), now);
    if rental == null || rental.delivery != Sent {
      return true;
    }
    denied := ExpireRentalIfDue(order, rental, account, now);
  }

  method AuthorizeCode(order: OrderRow, rental: RentalRow?, account: AccountRow?, found: bool, expected: AccountId, now: Time)
    returns (authorized: bool)
    modifies rental
    ensures (View(order, rental, account), authorized)
         == CodeAuthorization(old(View(order, rental, account)), found, expected, now)
    ensures AuthorizesCode(old(View(order, rental, account)), View(order, rental, account), authorized, found, expected, now)
    ensures authorized <==> found && rental != null && rental.account == expected
                            && rental.delivery == Sent && rental.status == Active && rental.expiresAt > now && !InRefund(order.status)
                            && account != null && OpenForSale(account.Value())
    ensures authorized ==> View(order, rental, account) == old(View(order, rental, account))
  {
    CodeLaw(View(order, rental, account), found, expected, now);
    if !found || rental == null || rental.account != expected {
      return false;
    }
    var denied := RentalAccessDenial(order, rental, account, now);
    authorized := !denied && account != null && account.status == Sellable && account.override.None?;
  }

  method ClaimReplacementRevoke(order: OrderRow, rental: RentalRow?, account: AccountRow?, found: bool,
                                expected: AccountId, pick: Option<AccountId>, limit: nat, now: Time, later: Time)
    returns (claimed: bool)
    modifies rental, account
    ensures (View(order, rental, account), claimed)
         == ReplaceClaim(old(View(order, rental, account)), found, expected, pick, limit, now, later)
    ensures ReplaceClaims(old(View(order, rental, account)), View(order, rental, account), claimed, found, expected, pick, limit, now, later)
    ensures claimed ==> rental != null && pick.Some? && Holds(rental.Value(), expected) && Holds(rental.Value(), pick.value)
    ensures claimed ==> LeaseIsSafe(View(order, rental, account), later) && NoCodes(View(order, rental, account))
    ensures rental != null ==> SameDates(old(rental.Value()), rental.Value()) && rental.replacements == old(rental.replacements)
  {
    ReplaceClaimLaw(View(order, rental, account), found, expected, pick, limit, now, later);
    if !found || rental == null || rental.account != expected {
      return false;
    }
    var denied := RentalAccessDenial(order, rental, account, now);
    if denied || rental.expiresAt - now <= REPLACEMENT_MIN_REMAINING || rental.replacements >= limit {
      return false;
    }
    var stored := rental.lease;
    if stored.Some? && stored.value > now - REVOKE_LEASE {
      return false;
    }
    if stored.Some? || rental.target.Some? {
      rental.lease := None;
      rental.target := None;
    }
    if account == null || pick.None? || pick.value == rental.account {
      return false;
    }
    denied := RentalAccessDenial(order, rental, account, later);
    if denied || rental.expiresAt - later <= REPLACEMENT_MIN_REMAINING || rental.replacements >= limit {
      return false;
    }
    account.status := Maintenance;
    rental.lease := Some(later);
    rental.target := pick;
    LeasedIsSafe(View(order, rental, account), later);
    ClosedSendsNoCodes(View(order, rental, account));
    return true;
  }

  method TargetStillSellable(targetAccount: AccountRow?, tier: nat) returns (ok: bool)
    ensures ok <==> targetAccount != null && targetAccount.status == Sellable && targetAccount.override.None? && targetAccount.tier == tier
  {
    ok := targetAccount != null && targetAccount.status == Sellable && targetAccount.override.None? && targetAccount.tier == tier;
  }

  method SwitchAccount(rental: RentalRow, target: AccountId, stamp: Time)
    modifies rental
    ensures rental.Value() == old(rental.Value()).(
              account := target, replacements := old(rental.replacements) + 1, delivery := Sending,
              template := ReplaceSuccess, sendingSince := Some(stamp), nextAttempt := None, attempts := 0)
    ensures SameDates(old(rental.Value()), rental.Value()) && SameCustody(old(rental.Value()), rental.Value())
    ensures forall t, u :: SameDates(rental.Value(), Delivered(Bounded(rental.Value(), t), 1, u))
    ensures ClaimIsSafe(rental.Value(), stamp + DELIVERY_LEASE) && NotYetDisclosed(rental.Value())
  {
    rental.account := target;
    rental.replacements := rental.replacements + 1;
    rental.delivery := Sending;
    rental.template := ReplaceSuccess;
    rental.sendingSince := Some(stamp);
    rental.nextAttempt := None;
    rental.attempts := 0;
  }

  method FinalizeReplacement(order: OrderRow, rental: RentalRow?, account: AccountRow?, targetAccount: AccountRow?,
                             claim: Claim, found: bool, kicked: bool, limit: nat, now: Time, stamp: Time)
    returns (switched: bool)
    requires claim.target.Some?
    modifies rental
    ensures (View(order, rental, account), switched)
         == ReplaceFinalize(old(View(order, rental, account)), claim, found, kicked,
                            if targetAccount == null then None else Some(targetAccount.Value()), limit, now, stamp)
    ensures ReplaceEnds(old(View(order, rental, account)), View(order, rental, account), switched, claim, found, kicked,
                        if targetAccount == null then None else Some(targetAccount.Value()), limit, now, stamp)
    ensures rental == null || old(rental.lease) != Some(claim.at) || old(rental.target) != claim.target ==>
              View(order, rental, account) == old(View(order, rental, account)) && !switched
    ensures rental != null ==> SameDates(old(rental.Value()), rental.Value())
    ensures switched ==> kicked && rental != null && rental.account == claim.target.value && rental.target.None? && rental.lease.None?
                         && rental.replacements == old(rental.replacements) + 1 <= limit && !Unsent(rental.Value())
    ensures !switched && rental != null ==> rental.account == old(rental.account) && rental.replacements == old(rental.replacements)
  {
    ReplaceFinalizeLaw(View(order, rental, account), claim, found, kicked,
                       if targetAccount == null then None else Some(targetAccount.Value()), limit, now, stamp);
    if rental == null {
      return false;
    }
    var ownsTimestamp := rental.lease == Some(claim.at);
    var targetMatches := rental.target == claim.target;
    if !ownsTimestamp || !targetMatches {
      return false;
    }
    rental.lease := None;
    rental.target := None;
    ghost var y := View(order, rental, account);
    assert y == WithRental(old(View(order, rental, account)), Released(old(rental.Value())));
    if !found || rental.account != claim.account || !kicked {
      return false;
    }
    var sellable := TargetStillSellable(targetAccount, rental.tier);
    if !sellable || order.status == RefundPending || order.status == Refunded {
      return false;
    }
    var denied := RentalAccessDenial(order, rental, account, now);
    assert (View(order, rental, account), denied) == AccessCheck(y, now);
    if denied || rental.expiresAt - now <= REPLACEMENT_MIN_REMAINING || rental.replacements >= limit {
      return false;
    }
    SwitchAccount(rental, claim.target.value, stamp);
    return true;
  }

  // ---- rental_service.py ------------------------------------------------------------------------

  method FulfillNewOrder(order: OrderRow, verified: bool, pick: Option<AccountId>, now: Time)
    returns (rental: RentalRow?)
    ensures rental != null ==> fresh(rental)
    ensures (if rental == null then None else Some(rental.Value())) == AllocateRental(order.Value(), verified, pick, now)
    ensures rental != null <==> verified && OutsideRefund(order.Value()) && pick.Some?
    ensures rental != null ==> Allocates(order.Value(), pick.value, rental.Value(), now)
    ensures rental != null ==> ClaimIsSafe(rental.Value(), now + DELIVERY_LEASE)
    ensures rental != null ==> forall x: Locked, v, t :: x.rental == Some(rental.Value()) ==> !ExpiryClaim(x, v, t).1
  {
    if !verified {
      return null;
    }
    if order.status != Pending && order.status != Completed {
      return null;
    }
    if pick.None? {
      return null;
    }
    rental := new RentalRow(Rental(
      pick.value, order.tier, order.minutes, Active, now, now + order.minutes * MINUTE,
      None, None, None, 0, Sending, Welcome, Some(now), None, 0));
  }

  method QuarantineUnverifiedRental(rental: RentalRow)
    modifies rental
    ensures rental.Value() == Quarantined(old(rental.Value()))
    ensures GoesManual(old(rental.Value()), rental.Value())
    ensures NeverClaimed(rental.Value())
    ensures rental.delivery == Sent <==> old(rental.delivery) == Sent
    ensures SameDates(old(rental.Value()), rental.Value()) && SameCustody(old(rental.Value()), rental.Value())
    ensures rental.account == old(rental.account) && rental.attempts == old(rental.attempts)
  {
    if rental.delivery != Sent {
      rental.delivery := Manual;
    }
    rental.nextAttempt := None;
  }

  method ClaimExistingDelivery(order: OrderRow, rental: RentalRow?, account: AccountRow?, verified: bool, now: Time)
    returns (claimed: bool)
    modifies rental
    ensures (View(order, rental, account), claimed) == ClaimDelivery(old(View(order, rental, account)), verified, now)
    ensures ClaimsDelivery(old(View(order, rental, account)), View(order, rental, account), claimed, verified, now)
    ensures claimed ==> rental != null && ClaimIsSafe(rental.Value(), now + DELIVERY_LEASE)
    ensures claimed ==> rental.attempts == old(rental.attempts) < DELIVERY_MAX_ATTEMPTS && SameDates(old(rental.Value()), rental.Value())
    ensures !verified && rental != null ==> NeverClaimed(rental.Value())
  {
    ClaimDeliveryLaw(View(order, rental, account), verified, now);
    if rental == null {
      return false;
    }
    if !verified {
      QuarantineUnverifiedRental(rental);
      return false;
    }
    if (order.status != Pending && order.status != Completed)
       || rental.status != Active
       || rental.delivery == Sent
       || rental.delivery == Manual
       || rental.attempts >= DELIVERY_MAX_ATTEMPTS
    {
      return false;
    }
    if rental.nextAttempt.Some? && rental.nextAttempt.value > now {
      return false;
    }
    if rental.delivery == Sending && rental.sendingSince.Some? && rental.sendingSince.value > now - DELIVERY_LEASE {
      return false;
    }
    rental.delivery := Sending;
    rental.sendingSince := Some(now);
    rental.nextAttempt := None;
    return true;
  }

  method CheckEligible(rental: RentalRow, account: AccountRow?, limitsOk: bool, now: Time) returns (ok: bool)
    ensures forall order: OrderRow ::
              ok == StillEligible(View(order, rental, account), rental.Value(), limitsOk, now)
    ensures ok <==> limitsOk && account != null && account.status == Sellable && account.override.None? && account.tier == rental.tier
                    && ((rental.template == Welcome && rental.attempts == 0) || rental.expiresAt - now > 120_000_000)
  {
    if account == null {
      return false;
    }
    if rental.template != Welcome || rental.attempts != 0 {
      if rental.expiresAt - now <= REPLACEMENT_MIN_REMAINING {
        return false;
      }
    }
    return limitsOk && account.status == Sellable && account.override.None? && account.tier == rental.tier;
  }

  /** From the checked row locks to the commit that counts the attempt. */
  method CommitBoundary(rental: RentalRow, now: Time) returns (attempt: nat)
    modifies rental
    ensures rental.Value() == Bounded(old(rental.Value()), now)
    ensures Counted(old(rental.Value()), rental.Value(), now)
    ensures attempt == rental.attempts == old(rental.attempts) + 1 && !Unsent(rental.Value())
    ensures old(Unsent(rental.Value())) ==> rental.startedAt == now && rental.expiresAt == now + rental.minutes * MINUTE
    ensures !old(Unsent(rental.Value())) ==> SameDates(old(rental.Value()), rental.Value())
    ensures SameCustody(old(rental.Value()), rental.Value()) && rental.account == old(rental.account)
    ensures rental.delivery == Sending && rental.nextAttempt == old(rental.nextAttempt) ==> ClaimIsSafe(rental.Value(), now + DELIVERY_LEASE)
  {
    BoundedLaw(rental.Value(), now);
    attempt := rental.attempts + 1;
    rental.attempts := attempt;
    rental.sendingSince := Some(now);
    if rental.template == Welcome && attempt == 1 {
      rental.startedAt := now;
      rental.expiresAt := now + rental.minutes * MINUTE;
    }
  }

  method DeliverToBoundary(order: OrderRow, rental: RentalRow?, account: AccountRow?, verified: bool, limitsOk: bool,
                           pick: Option<AccountId>, now: Time)
    returns (answer: BoundaryAnswer)
    modifies rental
    ensures (View(order, rental, account), answer)
         == Boundary(old(View(order, rental, account)), verified, limitsOk, pick, now)
    ensures Binds(old(View(order, rental, account)), View(order, rental, account), answer, verified, limitsOk, pick, now)
    ensures answer.Bound? ==> rental != null && account != null && OpenForSale(account.Value()) && Fulfillable(order.status)
                              && rental.status == Active && rental.attempts == answer.attempt && rental.account == answer.account
                              && ClaimIsSafe(rental.Value(), now + DELIVERY_LEASE)
    ensures answer.Moved? ==> rental != null && Unsent(rental.Value()) && rental.account == answer.account != old(rental.account)
    ensures rental != null && !answer.Moved? ==> rental.account == old(rental.account)
    ensures rental != null && answer.Stop? ==> rental.delivery != Sending && rental.attempts == old(rental.attempts)
                                               && SameDates(old(rental.Value()), rental.Value())
  {
    BoundaryLaw(View(order, rental, account), verified, limitsOk, pick, now);
    if rental == null {
      return Stop;
    }
    if !verified {
      QuarantineUnverifiedRental(rental);
      return Stop;
    }
    if (order.status != Pending && order.status != Completed) || rental.status != Active || rental.delivery != Sending {
      if rental.delivery == Sending {
        rental.delivery := Failed;
        rental.nextAttempt := None;
      }
      return Stop;
    }
    if account == null {
      rental.delivery := Manual;
      rental.nextAttempt := None;
      return Stop;
    }
    var eligible := CheckEligible(rental, account, limitsOk, now);
    assert eligible == StillEligible(View(order, rental, account), rental.Value(), limitsOk, now);
    if !eligible && rental.template == Welcome && rental.attempts == 0 {
      if pick.Some? && pick.value != rental.account {
        rental.account := pick.value;
        return Moved(pick.value);
      }
    }
    if !eligible {
      rental.delivery := Manual;
      rental.nextAttempt := None;
      return Stop;
    }
    var attempt := CommitBoundary(rental, now);
    return Bound(rental.account, attempt);
  }

  method DeliverToBoundaryAfterMove(order: OrderRow, rental: RentalRow?, account: AccountRow?, verified: bool, limitsOk: bool,
                                    expected: AccountId, now: Time)
    returns (answer: BoundaryAnswer)
    modifies rental
    ensures (View(order, rental, account), answer)
         == BoundaryAfterMove(old(View(order, rental, account)), verified, limitsOk, expected, now)
    ensures BindsMoved(old(View(order, rental, account)), View(order, rental, account), answer, verified, limitsOk, expected, now)
    ensures !answer.Moved?
    ensures rental != null ==> rental.account == old(rental.account)
    ensures answer.Bound? ==> rental != null && rental.account == expected && account != null && OpenForSale(account.Value())
                              && Fulfillable(order.status) && rental.attempts == answer.attempt
                              && ClaimIsSafe(rental.Value(), now + DELIVERY_LEASE)
  {
    BoundaryAfterMoveLaw(View(order, rental, account), verified, limitsOk, expected, now);
    if rental == null {
      return Stop;
    }
    if !verified {
      QuarantineUnverifiedRental(rental);
      return Stop;
    }
    if (order.status != Pending && order.status != Completed) || rental.status != Active || rental.delivery != Sending
       || rental.account != expected
    {
      if rental.delivery == Sending {
        rental.delivery := Failed;
        rental.nextAttempt := None;
      }
      return Stop;
    }
    if account == null {
      return Stop;
    }
    var eligible := CheckEligible(rental, account, limitsOk, now);
    assert eligible == StillEligible(View(order, rental, account), rental.Value(), limitsOk, now);
    if !eligible {
      rental.delivery := Manual;
      rental.nextAttempt := None;
      return Stop;
    }
    var attempt := CommitBoundary(rental, now);
    return Bound(rental.account, attempt);
  }

  method ScheduleDeliveryRetry(rental: RentalRow, now: Time)
    modifies rental
    ensures rental.Value() == RetryLater(old(rental.Value()), now)
    ensures RetriesLater(old(rental.Value()), rental.Value(), now)
    ensures rental.attempts == old(rental.attempts) && SameDates(old(rental.Value()), rental.Value())
            && SameCustody(old(rental.Value()), rental.Value())
    ensures rental.attempts >= DELIVERY_MAX_ATTEMPTS ==> NeverClaimed(rental.Value())
    ensures rental.attempts < DELIVERY_MAX_ATTEMPTS ==> rental.nextAttempt.Some? && now < rental.nextAttempt.value
    ensures rental.attempts < DELIVERY_MAX_ATTEMPTS ==>
              forall x: Locked, t :: x.rental == Some(rental.Value()) && Fulfillable(x.order.status) && rental.status == Active ==>
                (ClaimDelivery(x, true, t).1 <==> t >= rental.nextAttempt.value)
  {
    RetryLaterLaw(rental.Value(), now);
    if rental.attempts >= DELIVERY_MAX_ATTEMPTS {
      rental.delivery := Manual;
      rental.nextAttempt := None;
      return;
    }
    var delay := Backoff.DeliveryRetrySeconds(rental.attempts);
    rental.delivery := Failed;
    rental.nextAttempt := Some(now + delay * SECOND);
  }

  /** What a send stands for: the rows it was made under, the claim it gives up, and the dates. */
  ghost predicate SendIsSound(x: Locked, y: Locked, sent: bool, expected: AccountId, attempt: nat, outcome: SendOutcome)
    requires x.rental.Some? ==> y.rental.Some?
  {
    && (sent ==> x.rental.Some? && y.rental.value.account == expected && y.rental.value.attempts == attempt
                 && Fulfillable(y.order.status) && y.rental.value.status.Active? && y.account.Some? && OpenForSale(y.account.value))
    && (!sent && x.rental.Some? ==> !y.rental.value.delivery.Sending? && SameDates(x.rental.value, y.rental.value))
    && (sent && outcome.Accepted? ==> y.rental.value.delivery.Sent? && NeverClaimed(y.rental.value))
    && (sent && attempt != 1 ==> SameDates(x.rental.value, y.rental.value))
  }

  lemma SendsSoundly(x: Locked, verified: bool, limitsOk: bool, expected: AccountId, attempt: nat, outcome: SendOutcome, now: Time)
    ensures var (y, sent) := Send(x, verified, limitsOk, expected, attempt, outcome, now);
            (x.rental.Some? ==> y.rental.Some?) && SendIsSound(x, y, sent, expected, attempt, outcome)
  {
  }

  method SendCredentials(order: OrderRow, rental: RentalRow?, account: AccountRow?, verified: bool, limitsOk: bool,
                         expected: AccountId, attempt: nat, outcome: SendOutcome, now: Time)
    returns (sent: bool)
    modifies rental
    ensures (View(order, rental, account), sent)
         == Send(old(View(order, rental, account)), verified, limitsOk, expected, attempt, outcome, now)
    ensures Sends(old(View(order, rental, account)), View(order, rental, account), sent, verified, limitsOk, expected, attempt, outcome, now)
    ensures SendIsSound(old(View(order, rental, account)), View(order, rental, account), sent, expected, attempt, outcome)
  {
    SendLaw(View(order, rental, account), verified, limitsOk, expected, attempt, outcome, now);
    SendsSoundly(View(order, rental, account), verified, limitsOk, expected, attempt, outcome, now);
    if rental == null {
      return false;
    }
    if !verified {
      QuarantineUnverifiedRental(rental);
      return false;
    }
    if (order.status != Pending && order.status != Completed) || rental.status != Active || rental.delivery != Sending
       || rental.account != expected || rental.attempts != attempt
    {
      if rental.delivery == Sending {
        rental.delivery := Failed;
        rental.nextAttempt := None;
      }
      return false;
    }
    var eligible := CheckEligible(rental, account, limitsOk, now);
    assert eligible == StillEligible(View(order, rental, account), rental.Value(), limitsOk, now);
    if !eligible {
      rental.delivery := Manual;
      rental.nextAttempt := None;
      return false;
    }
    sent := true;
    if outcome == Errored {
      ScheduleDeliveryRetry(rental, now);
    } else if outcome == Accepted {
      rental.delivery := Sent;
      rental.nextAttempt := None;
      if rental.template == Welcome && attempt == 1 {
        rental.startedAt := now;
        rental.expiresAt := now + rental.minutes * MINUTE;
      }
    }
  }
}
