/** The database rows that order delivery, expiry, refund and replacement share
    (backend/app/models/rental.py, backend/app/models/account.py).

    A rental is keyed by its order: `order_id` is UNIQUE and never reassigned. */
module Rows {
  datatype Option<+T> = None | Some(value: T)

  type OrderId = nat
  type AccountId = nat
  type Time = int            // microseconds, the resolution of the stored timestamps

  const SECOND: int := 1_000_000
  const MINUTE: int := 60 * SECOND
  const REVOKE_LEASE: int := 5 * MINUTE
  const DELIVERY_LEASE: int := 5 * MINUTE
  const REPLACEMENT_MIN_REMAINING: int := 2 * MINUTE
  const DELIVERY_MAX_ATTEMPTS: nat := 6

  datatype OrderStatus = Pending | Completed | RefundPending | Refunded
  datatype RentalStatus = Active | ExpiryPending | Expired | RentalRefunded
  datatype AccountStatus = Sellable | Maintenance | PendingValidation | ValidationFailed | Paused
  datatype DeliveryStatus = Sending | Sent | Failed | Manual
  datatype Template = Welcome | ReplaceSuccess

  datatype Order = Order(status: OrderStatus, minutes: nat, tier: nat)

  /** `status == Sellable` is the stored string "active"; `override` is `operator_status_override`. */
  datatype Account = Account(status: AccountStatus, override: Option<AccountStatus>, tier: nat)

  /** `lease` is `expiry_revoke_started_at`, the one lease that refund, expiry, expiry notification and
      replacement share; `target` is `replacement_target_account_id`. */
  datatype Rental = Rental(
    account: AccountId,
    tier: nat,
    minutes: nat,
    status: RentalStatus,
    startedAt: Time,
    expiresAt: Time,
    lease: Option<Time>,
    target: Option<AccountId>,
    notifiedAt: Option<Time>,
    replacements: nat,
    delivery: DeliveryStatus,
    template: Template,
    sendingSince: Option<Time>,
    nextAttempt: Option<Time>,
    attempts: nat)

  /** What a worker remembers of a lease it took; `at` is its identity. */
  datatype Claim = Claim(order: OrderId, account: AccountId, at: Time, target: Option<AccountId>)

  /** The rows one transaction locks, in the order Order, Rental, Account. */
  datatype Locked = Locked(order: Order, rental: Option<Rental>, account: Option<Account>)

  predicate Fulfillable(status: OrderStatus) { status.Pending? || status.Completed? }

  predicate InRefund(status: OrderStatus) { status.RefundPending? || status.Refunded? }

  /** OCCUPYING_RENTAL_STATUSES: an expired rental owns its account until the logout is confirmed. */
  predicate Occupying(status: RentalStatus) { status.Active? || status.ExpiryPending? }

  /** A rental's life: active, then waiting for its expiry, then expired or refunded; a refund may end any of
      them, and nothing follows a refund. */
  ghost predicate Onward(before: RentalStatus, after: RentalStatus) {
    || before == after
    || before == Active
    || (before == ExpiryPending && (after == Expired || after == RentalRefunded))
    || (before == Expired && after == RentalRefunded)
  }

  predicate LeaseLive(lease: Option<Time>, now: Time) { lease.Some? && lease.value > now - REVOKE_LEASE }

  predicate Occupies(r: Rental, a: AccountId) { Occupying(r.status) && r.account == a }

  /** The account this rental occupies or has reserved for its replacement. */
  predicate Holds(r: Rental, a: AccountId) { Occupies(r, a) || r.target == Some(a) }

  predicate Unsent(r: Rental) { r.template.Welcome? && r.attempts == 0 }

  predicate OpenForSale(account: Account) { account.status.Sellable? && account.override.None? }
}
