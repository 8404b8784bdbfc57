/** What each transaction does to the rows it has locked.

    One function is one stretch of code between two commits.  Facts the stretch reads from tables that
    are not modelled (the exact bot-sale provenance, the measured limits, the buyer of the chat) and the
    account the pool picked are inputs. */
module Transitions {
  import opened Rows
  import Backoff

  function WithAccountStatus(x: Locked, status: AccountStatus): Locked {
    match x.account
    case None => x
    case Some(a) => x.(account := Some(a.(status := status)))
  }

  function WithRental(x: Locked, r: Rental): Locked { x.(rental := Some(r)) }

  // ---- Order status -----------------------------------------------------------------------------

  datatype RemoteStatus = Paid | RemoteCompleted | RemoteRefunded | Unknown

  function NewOrderStatus(remote: RemoteStatus): OrderStatus {
    match remote
    case RemoteRefunded => Refunded
    case RemoteCompleted => Completed
    case _ => Pending
  }

  /** Close callback; the flag says whether this call made the transition. */
  function CloseSale(order: Order): (Order, bool) {
    if InRefund(order.status) then (order, false)
    else (order.(status := Completed), !order.status.Completed?)
  }

  /** Terminal state seen in the seller's sale list. */
  function StageRemoteStatus(order: Order, remote: RemoteStatus): Order {
    if remote.RemoteRefunded? && !InRefund(order.status) then order.(status := RefundPending)
    else if remote.RemoteCompleted? && order.status.Pending? then order.(status := Completed)
    else order
  }

  /** A service that read the status as `seen` without a row lock and then set it to `wanted`: the column is
      written if the value it read changed, whatever is stored by then. */
  function Flushed(order: Order, seen: OrderStatus, wanted: OrderStatus): Order {
    if wanted == seen then order else order.(status := wanted)
  }

  /** What `StageRemoteStatus` decides on a row read as `seen`, written to the row as it is now. */
  function StageOver(order: Order, seen: OrderStatus, remote: RemoteStatus): Order {
    Flushed(order, seen, StageRemoteStatus(order.(status := seen), remote).status)
  }

  // ---- Refund -----------------------------------------------------------------------------------

  datatype RefundAnswer = Unverified | Settled | LeaseBusy | RefundClaimed

  function RefundClaim(x: Locked, verified: bool, now: Time): (Locked, RefundAnswer) {
    if x.order.status.Refunded? then (x, Settled)
    else if !verified then (x, Unverified)
    else if x.rental.None? then (x.(order := x.order.(status := Refunded)), Settled)
    else
      var r := x.rental.value;
      if !Occupying(r.status) then
        (x.(order := x.order.(status := Refunded),
            rental := Some(r.(status := RentalRefunded, target := None, lease := None))), Settled)
      else
        var y := WithAccountStatus(x.(order := x.order.(status := RefundPending)), Maintenance);
        if LeaseLive(r.lease, now) then (y, LeaseBusy)
        else (WithRental(y, r.(target := None, lease := Some(now))), RefundClaimed)
  }

  /** The flag says whether a recovery validation of the freed account is enqueued. */
  function RefundFinalize(x: Locked, claim: Claim, kicked: bool): (Locked, bool) {
    if x.rental.None? || x.rental.value.lease != Some(claim.at) then (x, false)
    else
      var r := x.rental.value.(lease := None);
      if kicked && r.account == claim.account && Occupying(r.status) && x.order.status.RefundPending? then
        (Locked(x.order.(status := Refunded), Some(r.(status := RentalRefunded)), x.account), true)
      else
        (WithRental(x, r), false)
  }

  // ---- Expiry -----------------------------------------------------------------------------------

  function ExpiryClaim(x: Locked, verified: bool, now: Time): (Locked, bool) {
    if InRefund(x.order.status) || !verified || x.rental.None? then (x, false)
    else
      var r := x.rental.value;
      if !Occupying(r.status)
         || r.expiresAt > now
         || (Unsent(r) && !r.delivery.Sent?)
         || LeaseLive(r.lease, now)
      then (x, false)
      else
        var r' := r.(target := None, status := ExpiryPending, lease := Some(now));
        (WithAccountStatus(WithRental(x, r'), Maintenance), true)
  }

  function ExpiryFinalize(x: Locked, claim: Claim, kicked: bool): Locked {
    if x.rental.None? then x
    else
      var r := x.rental.value;
      if r.lease != Some(claim.at) then x
      else if InRefund(x.order.status) then WithRental(x, r.(lease := None))
      else if r.account != claim.account || !r.status.ExpiryPending? then x
      else WithRental(x, r.(lease := None, status := if kicked then Expired else r.status))
  }

  function NotifyClaim(x: Locked, verified: bool, now: Time): (Locked, bool) {
    if !verified || x.rental.None? then (x, false)
    else
      var r := x.rental.value;
      if !r.status.Expired? || r.notifiedAt.Some? then (x, false)
      else if InRefund(x.order.status) then (WithRental(x, r.(notifiedAt := Some(now))), false)
      else if LeaseLive(r.lease, now) then (x, false)
      else (WithRental(x, r.(lease := Some(now))), true)
  }

  function NotifyFinalize(x: Locked, at: Time, delivered: bool, now: Time): Locked {
    if x.rental.None? || x.rental.value.lease != Some(at) then x
    else
      var r := x.rental.value;
      WithRental(x, r.(lease := None, notifiedAt := if delivered then Some(now) else r.notifiedAt))
  }

  // ---- Authorization of a buyer command ---------------------------------------------------------

  /** The flag says that access is denied; a rental found overdue is closed on the spot. */
  function ExpireIfDue(x: Locked, r: Rental, now: Time): (Locked, bool) {
    if Unsent(r) && !r.delivery.Sent? then (x, false)
    else if InRefund(x.order.status) then (x, true)
    else if !r.status.Active? || r.expiresAt > now then (x, !r.status.Active?)
    else (WithRental(x, r.(status := ExpiryPending)), true)
  }

  function AccessCheck(x: Locked, now: Time): (Locked, bool) {
    if x.rental.None? || !x.rental.value.delivery.Sent? then (x, true)
    else ExpireIfDue(x, x.rental.value, now)
  }

  /** The check on a row read without a lock decides to close the rental. */
  predicate DecidesExpiry(order: Order, read: Rental, now: Time) {
    AccessCheck(Locked(order, Some(read), None), now).0.rental != Some(read)
  }

  /** Whether a code may be sent for `account` in the transaction that holds the row locks. */
  function CodeAuthorization(x: Locked, found: bool, account: AccountId, now: Time): (Locked, bool) {
    if !found || x.rental.None? || x.rental.value.account != account then (x, false)
    else
      var (y, denied) := AccessCheck(x, now);
      (y, !denied && y.account.Some? && OpenForSale(y.account.value))
  }

  // ---- Replacement ------------------------------------------------------------------------------

  predicate TooShortToReplace(r: Rental, now: Time) { r.expiresAt - now <= REPLACEMENT_MIN_REMAINING }

  function Released(r: Rental): Rental { r.(lease := None, target := None) }

  /** Release of a reservation whose exact lease and target the caller saw earlier.  The scheduled task
      passes no account, the command handler the account it resolved. */
  function ReleaseReservation(x: Locked, account: Option<AccountId>, seenLease: Option<Time>,
                              seenTarget: AccountId, now: Time): (Locked, bool)
  {
    if x.rental.None? then (x, false)
    else
      var r := x.rental.value;
      if (account.Some? && r.account != account.value)
         || r.target != Some(seenTarget)
         || r.lease != seenLease
         || LeaseLive(r.lease, now)
      then (x, false)
      else (WithRental(x, Released(r)), true)
  }

  /** `pick` is what the pool returned after the stale reservation was flushed; `later` is the second
      clock reading, taken after the pool query. */
  function ReplaceClaim(x: Locked, found: bool, account: AccountId, pick: Option<AccountId>,
                        limit: nat, now: Time, later: Time): (Locked, bool)
  {
    if !found || x.rental.None? || x.rental.value.account != account then (x, false)
    else
      var (y, denied) := AccessCheck(x, now);
      var r := y.rental.value;
      if denied || TooShortToReplace(r, now) || r.replacements >= limit || LeaseLive(r.lease, now)
      then (y, false)
      else
        var z := WithRental(y, Released(r));
        if z.account.None? || pick.None? || pick.value == r.account then (z, false)
        else
          var (w, deniedLater) := AccessCheck(z, later);
          if deniedLater || TooShortToReplace(r, later) then (w, false)
          else
            (WithAccountStatus(WithRental(w, Released(r).(lease := Some(later), target := pick)), Maintenance), true)
  }

  /** `target` is the locked row of the promised account.  The flag says that the rental was switched. */
  function ReplaceFinalize(x: Locked, claim: Claim, found: bool, kicked: bool, target: Option<Account>,
                           limit: nat, now: Time, stamp: Time): (Locked, bool)
  {
    if x.rental.None? then (x, false)
    else
      var r := x.rental.value;
      if claim.target.None? || r.lease != Some(claim.at) || r.target != claim.target then (x, false)
      else
        var y := WithRental(x, Released(r));
        if !found || r.account != claim.account || !kicked
           || target.None? || !OpenForSale(target.value) || target.value.tier != r.tier
           || InRefund(x.order.status)
        then (y, false)
        else
          var (z, denied) := AccessCheck(y, now);
          if denied || TooShortToReplace(r, now) || r.replacements >= limit then (z, false)
          else
            (WithRental(z, Released(r).(
              account := claim.target.value,
              replacements := r.replacements + 1,
              delivery := Sending,
              template := ReplaceSuccess,
              sendingSince := Some(stamp),
              nextAttempt := None,
              attempts := 0)), true)
  }

  // ---- Credential delivery ----------------------------------------------------------------------

  function Quarantined(r: Rental): Rental {
    r.(delivery := if r.delivery.Sent? then Sent else Manual, nextAttempt := None)
  }

  /** First allocation of an order that has no rental yet. */
  function AllocateRental(order: Order, verified: bool, pick: Option<AccountId>, now: Time): Option<Rental> {
    if !verified || !Fulfillable(order.status) || pick.None? then None
    else Some(Rental(
      pick.value, order.tier, order.minutes, Active, now, now + order.minutes * MINUTE,
      None, None, None, 0, Sending, Welcome, Some(now), None, 0))
  }

  /** The flag says that the caller now owns the delivery claim. */
  function ClaimDelivery(x: Locked, verified: bool, now: Time): (Locked, bool) {
    if x.rental.None? then (x, false)
    else
      var r := x.rental.value;
      if !verified then (WithRental(x, Quarantined(r)), false)
      else if !Fulfillable(x.order.status)
              || !r.status.Active?
              || r.delivery.Sent?
              || r.delivery.Manual?
              || r.attempts >= DELIVERY_MAX_ATTEMPTS
              || (r.nextAttempt.Some? && r.nextAttempt.value > now)
              || (r.delivery.Sending? && r.sendingSince.Some? && r.sendingSince.value > now - DELIVERY_LEASE)
      then (x, false)
      else (WithRental(x, r.(delivery := Sending, sendingSince := Some(now), nextAttempt := None)), true)
  }

  predicate Deliverable(x: Locked, r: Rental) {
    Fulfillable(x.order.status) && r.status.Active? && r.delivery.Sending?
  }

  function StopSending(r: Rental): Rental {
    if r.delivery.Sending? then r.(delivery := Failed, nextAttempt := None) else r
  }

  function NeedsOperator(r: Rental): Rental { r.(delivery := Manual, nextAttempt := None) }

  /** `limitsOk` stands for the measured limits, route health and subscription deadline. */
  predicate StillEligible(x: Locked, r: Rental, limitsOk: bool, now: Time) {
    limitsOk && x.account.Some? && OpenForSale(x.account.value) && x.account.value.tier == r.tier
    && (Unsent(r) || r.expiresAt - now > REPLACEMENT_MIN_REMAINING)
  }

  /** The durable boundary before a send: the attempt is counted first. */
  function Bounded(r: Rental, now: Time): Rental {
    var counted := r.(attempts := r.attempts + 1, sendingSince := Some(now));
    if r.template.Welcome? && counted.attempts == 1
    then counted.(startedAt := now, expiresAt := now + r.minutes * MINUTE)
    else counted
  }

  datatype BoundaryAnswer = Stop | Moved(account: AccountId) | Bound(account: AccountId, attempt: nat)

  /** `pick` is what the pool returned, the current account excluded. */
  function Boundary(x: Locked, verified: bool, limitsOk: bool, pick: Option<AccountId>, now: Time): (Locked, BoundaryAnswer) {
    if x.rental.None? then (x, Stop)
    else
      var r := x.rental.value;
      if !verified then (WithRental(x, Quarantined(r)), Stop)
      else if !Deliverable(x, r) then (WithRental(x, StopSending(r)), Stop)
      else if x.account.None? then (WithRental(x, NeedsOperator(r)), Stop)
      else if StillEligible(x, r, limitsOk, now) then
        (WithRental(x, Bounded(r, now)), Bound(r.account, r.attempts + 1))
      else if Unsent(r) && pick.Some? && pick.value != r.account then
        (WithRental(x, r.(account := pick.value)), Moved(pick.value))
      else (WithRental(x, NeedsOperator(r)), Stop)
  }

  /** The same boundary after a reallocation; there is no second reallocation. */
  function BoundaryAfterMove(x: Locked, verified: bool, limitsOk: bool, expected: AccountId, now: Time): (Locked, BoundaryAnswer) {
    if x.rental.None? then (x, Stop)
    else
      var r := x.rental.value;
      if !verified then (WithRental(x, Quarantined(r)), Stop)
      else if !Deliverable(x, r) || r.account != expected then (WithRental(x, StopSending(r)), Stop)
      else if x.account.None? then (x, Stop)
      else if StillEligible(x, r, limitsOk, now) then
        (WithRental(x, Bounded(r, now)), Bound(r.account, r.attempts + 1))
      else (WithRental(x, NeedsOperator(r)), Stop)
  }

  /** Crashed: the process died after the gateway call and before the commit. */
  datatype SendOutcome = Accepted | Errored | Crashed

  function RetryLater(r: Rental, now: Time): Rental {
    if r.attempts >= DELIVERY_MAX_ATTEMPTS then NeedsOperator(r)
    else r.(delivery := Failed, nextAttempt := Some(now + Backoff.DeliveryRetrySeconds(r.attempts) * SECOND))
  }

  function Delivered(r: Rental, attempt: nat, now: Time): Rental {
    var sent := r.(delivery := Sent, nextAttempt := None);
    if r.template.Welcome? && attempt == 1
    then sent.(startedAt := now, expiresAt := now + r.minutes * MINUTE)
    else sent
  }

  /** Last re-authorization and the send itself, under the row locks.  The flag says that the gateway
      was called with the credentials of `expected`. */
  function Send(x: Locked, verified: bool, limitsOk: bool, expected: AccountId, attempt: nat,
                outcome: SendOutcome, now: Time): (Locked, bool)
  {
    if x.rental.None? then (x, false)
    else
      var r := x.rental.value;
      if !verified then (WithRental(x, Quarantined(r)), false)
      else if !Deliverable(x, r) || r.account != expected || r.attempts != attempt then
        (WithRental(x, StopSending(r)), false)
      else if !StillEligible(x, r, limitsOk, now) then (WithRental(x, NeedsOperator(r)), false)
      else
        match outcome
        case Accepted => (WithRental(x, Delivered(r, attempt, now)), true)
        case Errored => (WithRental(x, RetryLater(r, now)), true)
        case Crashed => (x, true)
  }

  /** The operator's explicit retry; the flag says that the claim was reset. */
  function OperatorRetry(x: Locked, verified: bool, now: Time): (Locked, bool) {
    if x.rental.None? || !verified || !Fulfillable(x.order.status) then (x, false)
    else
      var r := x.rental.value;
      if !r.status.Active?
         || r.delivery.Sent?
         || (r.delivery.Sending? && r.sendingSince.Some? && r.sendingSince.value > now - DELIVERY_LEASE)
      then (x, false)
      else
        (WithRental(x, r.(
          delivery := Failed,
          attempts := Backoff.Min(r.attempts, DELIVERY_MAX_ATTEMPTS - 1),
          sendingSince := None,
          nextAttempt := None)), true)
  }

  function Kept<T(==)>(stored: T, read: T, wanted: T): T { if wanted == read then stored else wanted }

  /** The operator's own claim after the reset decides on the row as it was at the reset, `read`, since the
      session still holds that object: only the columns it changes are written to the row as it is now. */
  function ClaimRemembered(x: Locked, read: Rental, verified: bool, now: Time): (Locked, bool) {
    if x.rental.None? then (x, false)
    else
      var r := x.rental.value;
      var (y, claimed) := ClaimDelivery(x.(rental := Some(read)), verified, now);
      if y.rental.None? then (x, false)
      else
        var wanted := y.rental.value;
        (WithRental(x, r.(delivery := Kept(r.delivery, read.delivery, wanted.delivery),
                          sendingSince := Kept(r.sendingSince, read.sendingSince, wanted.sendingSince),
                          nextAttempt := Kept(r.nextAttempt, read.nextAttempt, wanted.nextAttempt))), claimed)
  }
}
