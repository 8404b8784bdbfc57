/** What each transaction promises about the rows it has locked, in the plain values of their columns.

    `Transitions` follows the code branch by branch.  A law here says when the transaction acts, in both
    directions, and every column it leaves behind; it names none of the conditions, constants and row updates
    that the code shares.  Times are microseconds. */
module RowLaws {
  import opened Rows
  import opened Transitions
  import Backoff

  // ---- Conditions -------------------------------------------------------------------------------

  ghost predicate OutsideRefund(order: Order) { order.status == Pending || order.status == Completed }

  ghost predicate Running(r: Rental) { r.status == Active || r.status == ExpiryPending }

  /** No lease, or one that is at least five minutes old. */
  ghost predicate FreeOfLease(r: Rental, now: Time) { r.lease.None? || r.lease.value + 300_000_000 <= now }

  /** Not a first delivery that is still to be attempted. */
  ghost predicate Begun(r: Rental) { r.template == ReplaceSuccess || r.attempts > 0 || r.delivery == Sent }

  ghost predicate MoreThanTwoMinutes(r: Rental, now: Time) { r.expiresAt - now > 120_000_000 }

  /** A delivered rental that runs outside refund: the buyer's commands act on it until its term ends. */
  ghost predicate InUse(x: Locked) {
    x.rental.Some? && x.rental.value.delivery == Sent && x.rental.value.status == Active && OutsideRefund(x.order)
  }

  ghost predicate OnSale(account: Option<Account>, tier: nat) {
    account.Some? && account.value.status == Sellable && account.value.override.None? && account.value.tier == tier
  }

  ghost function InMaintenance(account: Option<Account>): Option<Account> {
    if account.None? then None else Some(account.value.(status := Maintenance))
  }

  // ---- Order status -----------------------------------------------------------------------------

  /** An order outside refund ends completed, and only the call that completes a pending one reports it. */
  ghost predicate ClosesOnce(x: Order, y: Order, moved: bool) {
    && y == x.(status := if x.status == RefundPending then RefundPending else if x.status == Refunded then Refunded else Completed)
    && (moved <==> x.status == Pending)
  }

  lemma CloseSaleLaw(x: Order)
    ensures ClosesOnce(x, CloseSale(x).0, CloseSale(x).1)
  {
  }

  /** The two forward moves of the seller's list: into refund from outside, and from pending to completed. */
  ghost predicate StagesForward(x: Order, y: Order, remote: RemoteStatus) {
    && y == x.(status := y.status)
    && (y.status == RefundPending <==> x.status == RefundPending || (remote == RemoteRefunded && x.status != Refunded))
    && (y.status == Refunded <==> x.status == Refunded)
    && (y.status == Pending <==> x.status == Pending && (remote == Paid || remote == Unknown))
  }

  lemma StageLaw(x: Order, remote: RemoteStatus)
    ensures StagesForward(x, StageRemoteStatus(x, remote), remote)
  {
  }

  /** A late write ends in refund-pending if the list says refunded and the status read was outside refund, in
      completed if the list says completed and the status read was pending; otherwise nothing is written. */
  lemma StageOverLaw(x: Order, seen: OrderStatus, remote: RemoteStatus)
    ensures StageOver(x, seen, remote) ==
            if remote == RemoteRefunded && (seen == Pending || seen == Completed) then x.(status := RefundPending)
            else if remote == RemoteCompleted && seen == Pending then x.(status := Completed)
            else x
  {
  }

  lemma NewOrderLaw(remote: RemoteStatus)
    ensures NewOrderStatus(remote) == Refunded <==> remote == RemoteRefunded
    ensures NewOrderStatus(remote) == Completed <==> remote == RemoteCompleted
    ensures NewOrderStatus(remote) == Pending <==> remote == Paid || remote == Unknown
  {
  }

  // ---- Refund -----------------------------------------------------------------------------------

  ghost predicate RefundClaims(x: Locked, y: Locked, answer: RefundAnswer, verified: bool, now: Time) {
    var refunds := verified && x.order.status != Refunded;
    var running := x.rental.Some? && Running(x.rental.value);
    && (answer == Unverified <==> !verified && x.order.status != Refunded)
    && (answer == Settled <==> x.order.status == Refunded || (verified && !running))
    && (answer == LeaseBusy <==> refunds && running && !FreeOfLease(x.rental.value, now))
    && (answer == RefundClaimed <==> refunds && running && FreeOfLease(x.rental.value, now))
    && y.order == x.order.(status := if !refunds then x.order.status else if running then RefundPending else Refunded)
    && y.account == (if refunds && running then InMaintenance(x.account) else x.account)
    && y.rental == if answer == RefundClaimed then Some(x.rental.value.(lease := Some(now), target := None))
                   else if refunds && x.rental.Some? && !running
                   then Some(x.rental.value.(status := RentalRefunded, lease := None, target := None))
                   else x.rental
  }

  lemma RefundClaimLaw(x: Locked, verified: bool, now: Time)
    ensures RefundClaims(x, RefundClaim(x, verified, now).0, RefundClaim(x, verified, now).1, verified, now)
  {
  }

  /** The refund ends rental and order exactly under its own lease, after a logout of the account the rental
      still has; its lease is given up in any case. */
  ghost predicate RefundEnds(x: Locked, y: Locked, enqueued: bool, claim: Claim, kicked: bool) {
    var own := x.rental.Some? && x.rental.value.lease == Some(claim.at);
    && (enqueued <==> own && kicked && x.rental.value.account == claim.account && Running(x.rental.value)
                      && x.order.status == RefundPending)
    && y.order == x.order.(status := if enqueued then Refunded else x.order.status)
    && y.account == x.account
    && y.rental == if own then Some(x.rental.value.(lease := None, status := if enqueued then RentalRefunded else x.rental.value.status))
                   else x.rental
  }

  lemma RefundFinalizeLaw(x: Locked, claim: Claim, kicked: bool)
    ensures RefundEnds(x, RefundFinalize(x, claim, kicked).0, RefundFinalize(x, claim, kicked).1, claim, kicked)
  {
  }

  // ---- Expiry -----------------------------------------------------------------------------------

  /** The worker claims every verified running rental whose term is over, once its first delivery was
      attempted, unless the order is in refund or another worker holds the lease. */
  ghost predicate Overdue(x: Locked, verified: bool, now: Time) {
    && verified && OutsideRefund(x.order) && x.rental.Some?
    && Running(x.rental.value) && x.rental.value.expiresAt <= now && Begun(x.rental.value) && FreeOfLease(x.rental.value, now)
  }

  ghost predicate ExpiryClaims(x: Locked, y: Locked, claimed: bool, verified: bool, now: Time) {
    && (claimed <==> Overdue(x, verified, now))
    && y == if claimed
            then Locked(x.order, Some(x.rental.value.(status := ExpiryPending, lease := Some(now), target := None)), InMaintenance(x.account))
            else x
  }

  lemma ExpiryClaimLaw(x: Locked, verified: bool, now: Time)
    ensures ExpiryClaims(x, ExpiryClaim(x, verified, now).0, ExpiryClaim(x, verified, now).1, verified, now)
  {
  }

  /** Its own lease is given up in a refund, and on the claimed account of a rental that still waits for its
      expiry; there the rental expires if the logout succeeded. */
  ghost predicate ExpiryEnds(x: Locked, y: Locked, claim: Claim, kicked: bool) {
    var own := x.rental.Some? && x.rental.value.lease == Some(claim.at);
    var ends := own && OutsideRefund(x.order) && x.rental.value.account == claim.account && x.rental.value.status == ExpiryPending;
    && y.order == x.order && y.account == x.account
    && y.rental == if own && (ends || !OutsideRefund(x.order))
                   then Some(x.rental.value.(lease := None, status := if ends && kicked then Expired else x.rental.value.status))
                   else x.rental
  }

  lemma ExpiryFinalizeLaw(x: Locked, claim: Claim, kicked: bool)
    ensures ExpiryEnds(x, ExpiryFinalize(x, claim, kicked), claim, kicked)
  {
  }

  /** One notification per expired rental; in refund it is marked as given without being claimed. */
  ghost predicate NotifyClaims(x: Locked, y: Locked, claimed: bool, verified: bool, now: Time) {
    var waits := verified && x.rental.Some? && x.rental.value.status == Expired && x.rental.value.notifiedAt.None?;
    && (claimed <==> waits && OutsideRefund(x.order) && FreeOfLease(x.rental.value, now))
    && y.order == x.order && y.account == x.account
    && y.rental == if claimed then Some(x.rental.value.(lease := Some(now)))
                   else if waits && !OutsideRefund(x.order) then Some(x.rental.value.(notifiedAt := Some(now)))
                   else x.rental
  }

  lemma NotifyClaimLaw(x: Locked, verified: bool, now: Time)
    ensures NotifyClaims(x, NotifyClaim(x, verified, now).0, NotifyClaim(x, verified, now).1, verified, now)
  {
  }

  ghost predicate NotifyEnds(x: Locked, y: Locked, at: Time, delivered: bool, now: Time) {
    y == if x.rental.Some? && x.rental.value.lease == Some(at)
         then x.(rental := Some(x.rental.value.(lease := None, notifiedAt := if delivered then Some(now) else x.rental.value.notifiedAt)))
         else x
  }

  lemma NotifyFinalizeLaw(x: Locked, at: Time, delivered: bool, now: Time)
    ensures NotifyEnds(x, NotifyFinalize(x, at, delivered, now), at, delivered, now)
  {
  }

  // ---- Buyer commands ---------------------------------------------------------------------------

  /** A first delivery that was not attempted denies nothing; any other rental is denied unless it runs
      outside refund before its end, and one that ran until then is closed. */
  ghost predicate ExpiresIfDue(x: Locked, y: Locked, denied: bool, r: Rental, now: Time) {
    && (denied <==> Begun(r) && !(OutsideRefund(x.order) && r.status == Active && r.expiresAt > now))
    && y == if Begun(r) && OutsideRefund(x.order) && r.status == Active && r.expiresAt <= now
            then x.(rental := Some(r.(status := ExpiryPending))) else x
  }

  lemma ExpireIfDueLaw(x: Locked, r: Rental, now: Time)
    ensures ExpiresIfDue(x, ExpireIfDue(x, r, now).0, ExpireIfDue(x, r, now).1, r, now)
  {
  }

  /** Access lasts until the end of the term; the first check after it closes the rental. */
  ghost predicate ChecksAccess(x: Locked, y: Locked, denied: bool, now: Time) {
    && (denied <==> !(InUse(x) && x.rental.value.expiresAt > now))
    && y == if InUse(x) && x.rental.value.expiresAt <= now then x.(rental := Some(x.rental.value.(status := ExpiryPending))) else x
  }

  lemma AccessLaw(x: Locked, now: Time)
    ensures ChecksAccess(x, AccessCheck(x, now).0, AccessCheck(x, now).1, now)
  {
  }

  lemma DecidesExpiryLaw(order: Order, read: Rental, now: Time)
    ensures DecidesExpiry(order, read, now)
            <==> read.delivery == Sent && read.status == Active && OutsideRefund(order) && read.expiresAt <= now
  {
  }

  ghost predicate AuthorizesCode(x: Locked, y: Locked, authorized: bool, found: bool, account: AccountId, now: Time) {
    var own := found && x.rental.Some? && x.rental.value.account == account;
    && (authorized <==> own && InUse(x) && x.rental.value.expiresAt > now
                        && x.account.Some? && x.account.value.status == Sellable && x.account.value.override.None?)
    && y == if own && InUse(x) && x.rental.value.expiresAt <= now then x.(rental := Some(x.rental.value.(status := ExpiryPending))) else x
  }

  lemma CodeLaw(x: Locked, found: bool, account: AccountId, now: Time)
    ensures AuthorizesCode(x, CodeAuthorization(x, found, account, now).0, CodeAuthorization(x, found, account, now).1, found, account, now)
  {
  }

  // ---- Replacement ------------------------------------------------------------------------------

  ghost predicate ReleasesReservation(x: Locked, y: Locked, released: bool, account: Option<AccountId>,
                                      seenLease: Option<Time>, seenTarget: AccountId, now: Time)
  {
    && (released <==>
          && x.rental.Some? && (account == None || account == Some(x.rental.value.account))
          && x.rental.value.target == Some(seenTarget) && x.rental.value.lease == seenLease && FreeOfLease(x.rental.value, now))
    && y == if released then x.(rental := Some(x.rental.value.(lease := None, target := None))) else x
  }

  lemma ReleaseLaw(x: Locked, account: Option<AccountId>, seenLease: Option<Time>, seenTarget: AccountId, now: Time)
    ensures var (y, released) := ReleaseReservation(x, account, seenLease, seenTarget, now);
            ReleasesReservation(x, y, released, account, seenLease, seenTarget, now)
  {
  }

  /** The rental may be replaced at `now`: in use, more than two minutes left, replacements left, no lease. */
  ghost predicate Replaceable(x: Locked, limit: nat, now: Time) {
    InUse(x) && MoreThanTwoMinutes(x.rental.value, now) && x.rental.value.replacements < limit && FreeOfLease(x.rental.value, now)
  }

  /** The replacement is claimed exactly if all that holds at the first clock reading, the pool picked another
      account, and the term still has more than two minutes at the second reading. */
  ghost predicate ReplaceClaims(x: Locked, y: Locked, claimed: bool, found: bool, account: AccountId, pick: Option<AccountId>,
                                limit: nat, now: Time, later: Time)
  {
    var own := found && x.rental.Some? && x.rental.value.account == account;
    var picked := own && Replaceable(x, limit, now) && x.account.Some? && pick.Some? && pick != Some(x.rental.value.account);
    && (claimed <==> picked && MoreThanTwoMinutes(x.rental.value, later))
    && y.order == x.order
    && y.account == (if claimed then InMaintenance(x.account) else x.account)
    && y.rental == if claimed then Some(x.rental.value.(lease := Some(later), target := pick))
                   else if own && Replaceable(x, limit, now)
                   then Some(x.rental.value.(lease := None, target := None,
                                             status := if picked && x.rental.value.expiresAt <= later then ExpiryPending else Active))
                   else if own && InUse(x) && x.rental.value.expiresAt <= now then Some(x.rental.value.(status := ExpiryPending))
                   else x.rental
  }

  lemma ReplaceClaimLaw(x: Locked, found: bool, account: AccountId, pick: Option<AccountId>, limit: nat, now: Time, later: Time)
    ensures var (y, claimed) := ReplaceClaim(x, found, account, pick, limit, now, later);
            ReplaceClaims(x, y, claimed, found, account, pick, limit, now, later)
  {
  }

  /** The claim is the worker's own, the logout worked, and the promised account can still be sold. */
  ghost predicate MaySwitch(x: Locked, claim: Claim, found: bool, kicked: bool, target: Option<Account>) {
    && x.rental.Some? && claim.target.Some? && x.rental.value.lease == Some(claim.at) && x.rental.value.target == claim.target
    && found && kicked && x.rental.value.account == claim.account && OnSale(target, x.rental.value.tier)
  }

  ghost predicate ReplaceEnds(x: Locked, y: Locked, switched: bool, claim: Claim, found: bool, kicked: bool,
                              target: Option<Account>, limit: nat, now: Time, stamp: Time)
  {
    var own := x.rental.Some? && claim.target.Some? && x.rental.value.lease == Some(claim.at) && x.rental.value.target == claim.target;
    && (switched <==> MaySwitch(x, claim, found, kicked, target) && InUse(x)
                      && MoreThanTwoMinutes(x.rental.value, now) && x.rental.value.replacements < limit)
    && y.order == x.order && y.account == x.account
    && y.rental == if switched
                   then Some(x.rental.value.(
                          account := claim.target.value, replacements := x.rental.value.replacements + 1, lease := None, target := None,
                          delivery := Sending, template := ReplaceSuccess, sendingSince := Some(stamp), nextAttempt := None, attempts := 0))
                   else if own
                   then Some(x.rental.value.(
                          lease := None, target := None,
                          status := if MaySwitch(x, claim, found, kicked, target) && InUse(x) && x.rental.value.expiresAt <= now
                                    then ExpiryPending else x.rental.value.status))
                   else x.rental
  }

  lemma ReplaceFinalizeLaw(x: Locked, claim: Claim, found: bool, kicked: bool, target: Option<Account>, limit: nat, now: Time, stamp: Time)
    ensures var (y, switched) := ReplaceFinalize(x, claim, found, kicked, target, limit, now, stamp);
            ReplaceEnds(x, y, switched, claim, found, kicked, target, limit, now, stamp)
  {
  }

  // ---- Credential delivery ----------------------------------------------------------------------

  /** The first rental of an order runs for the bought minutes from its allocation on and awaits its first
      delivery. */
  ghost predicate Allocates(order: Order, account: AccountId, r: Rental, now: Time) {
    && r.account == account && r.tier == order.tier && r.minutes == order.minutes
    && r.status == Active && r.startedAt == now && r.expiresAt == now + order.minutes * 60_000_000
    && r.lease.None? && r.target.None? && r.notifiedAt.None? && r.replacements == 0
    && r.delivery == Sending && r.template == Welcome && r.sendingSince == Some(now) && r.nextAttempt.None? && r.attempts == 0
  }

  lemma AllocateLaw(order: Order, verified: bool, pick: Option<AccountId>, now: Time)
    ensures var r := AllocateRental(order, verified, pick, now);
            && (r.Some? <==> verified && OutsideRefund(order) && pick.Some?)
            && (r.Some? ==> Allocates(order, pick.value, r.value, now))
  {
  }

  /** The delivery of an unverified rental goes to an operator for good, unless it was delivered. */
  ghost predicate GoesManual(r: Rental, r': Rental) {
    r' == r.(delivery := if r.delivery == Sent then Sent else Manual, nextAttempt := None)
  }

  lemma QuarantineLaw(r: Rental)
    ensures GoesManual(r, Quarantined(r))
  {
  }

  /** An undelivered rental is claimed while attempts are left, its retry is due, and nobody else sends. */
  ghost predicate DeliveryDue(x: Locked, now: Time) {
    && x.rental.Some? && OutsideRefund(x.order) && x.rental.value.status == Active
    && (x.rental.value.delivery == Sending || x.rental.value.delivery == Failed) && x.rental.value.attempts < 6
    && (x.rental.value.nextAttempt.None? || x.rental.value.nextAttempt.value <= now)
    && (x.rental.value.delivery == Failed || x.rental.value.sendingSince.None? || x.rental.value.sendingSince.value + 300_000_000 <= now)
  }

  ghost predicate ClaimsDelivery(x: Locked, y: Locked, claimed: bool, verified: bool, now: Time) {
    && (claimed <==> verified && DeliveryDue(x, now))
    && y.order == x.order && y.account == x.account && (y.rental.Some? <==> x.rental.Some?)
    && (x.rental.Some? && !verified ==> GoesManual(x.rental.value, y.rental.value))
    && (x.rental.Some? && verified ==>
          y.rental.value == if claimed then x.rental.value.(delivery := Sending, sendingSince := Some(now), nextAttempt := None)
                            else x.rental.value)
  }

  lemma ClaimDeliveryLaw(x: Locked, verified: bool, now: Time)
    ensures ClaimsDelivery(x, ClaimDelivery(x, verified, now).0, ClaimDelivery(x, verified, now).1, verified, now)
  {
  }

  /** Credentials may go out: the account is on sale in the rental's tier and passes the measured limits, and
      unless nothing was attempted yet more than two minutes of the term are left. */
  ghost predicate MaySend(x: Locked, limitsOk: bool, now: Time) {
    && x.rental.Some? && limitsOk && OnSale(x.account, x.rental.value.tier)
    && ((x.rental.value.template == Welcome && x.rental.value.attempts == 0) || MoreThanTwoMinutes(x.rental.value, now))
  }

  lemma EligibleLaw(x: Locked, limitsOk: bool, now: Time)
    requires x.rental.Some?
    ensures StillEligible(x, x.rental.value, limitsOk, now) <==> MaySend(x, limitsOk, now)
  {
  }

  /** The claim of the delivery still stands. */
  ghost predicate AwaitsSend(x: Locked) {
    x.rental.Some? && OutsideRefund(x.order) && x.rental.value.status == Active && x.rental.value.delivery == Sending
  }

  /** What is left of a delivery that was not sent: quarantined if unverified, retryable if its claim does not
      stand any more, an operator's otherwise. */
  ghost predicate GivesUp(r: Rental, r': Rental, verified: bool, stands: bool) {
    && (!verified ==> GoesManual(r, r'))
    && (verified && !stands ==> r' == if r.delivery == Sending then r.(delivery := Failed, nextAttempt := None) else r)
    && (verified && stands ==> r' == r.(delivery := Manual, nextAttempt := None))
  }

  /** The first send of a welcome message starts the term of the bought minutes. */
  ghost predicate TermOf(r: Rental, r': Rental, first: bool, now: Time) {
    && r'.startedAt == (if first then now else r.startedAt)
    && r'.expiresAt == (if first then now + r.minutes * 60_000_000 else r.expiresAt)
  }

  /** The attempt is counted before its message leaves. */
  ghost predicate Counted(r: Rental, r': Rental, now: Time) {
    && TermOf(r, r', r.template == Welcome && r.attempts == 0, now)
    && r' == r.(attempts := r.attempts + 1, sendingSince := Some(now), startedAt := r'.startedAt, expiresAt := r'.expiresAt)
  }

  lemma BoundedLaw(r: Rental, now: Time)
    ensures Counted(r, Bounded(r, now), now)
  {
  }

  /** The attempt is bound exactly if the claim stands and the credentials may go out; an account that may not
      is exchanged exactly if nothing was attempted and the pool picked another one. */
  ghost predicate Binds(x: Locked, y: Locked, answer: BoundaryAnswer, verified: bool, limitsOk: bool, pick: Option<AccountId>, now: Time) {
    && (answer.Bound? <==> verified && AwaitsSend(x) && MaySend(x, limitsOk, now))
    && (answer.Moved? <==> verified && AwaitsSend(x) && x.account.Some? && !MaySend(x, limitsOk, now)
                           && x.rental.value.template == Welcome && x.rental.value.attempts == 0
                           && pick.Some? && pick != Some(x.rental.value.account))
    && y.order == x.order && y.account == x.account && (y.rental.Some? <==> x.rental.Some?)
    && (answer.Bound? ==> answer.account == x.rental.value.account && answer.attempt == x.rental.value.attempts + 1
                          && Counted(x.rental.value, y.rental.value, now))
    && (answer.Moved? ==> Some(answer.account) == pick && y.rental.value == x.rental.value.(account := answer.account))
    && (answer.Stop? && x.rental.Some? ==> GivesUp(x.rental.value, y.rental.value, verified, AwaitsSend(x)))
  }

  lemma BoundaryLaw(x: Locked, verified: bool, limitsOk: bool, pick: Option<AccountId>, now: Time)
    ensures var (y, answer) := Boundary(x, verified, limitsOk, pick, now);
            Binds(x, y, answer, verified, limitsOk, pick, now)
  {
  }

  /** After an exchange there is no second one, and the account has to be the exchanged one; a vanished account
      leaves the claim to its lease. */
  ghost predicate BindsMoved(x: Locked, y: Locked, answer: BoundaryAnswer, verified: bool, limitsOk: bool, expected: AccountId, now: Time) {
    var stands := AwaitsSend(x) && x.rental.value.account == expected;
    && (answer.Bound? <==> verified && stands && MaySend(x, limitsOk, now))
    && !answer.Moved?
    && y.order == x.order && y.account == x.account && (y.rental.Some? <==> x.rental.Some?)
    && (answer.Bound? ==> answer.account == expected && answer.attempt == x.rental.value.attempts + 1
                          && Counted(x.rental.value, y.rental.value, now))
    && (answer.Stop? && x.rental.Some? && (!verified || !stands || x.account.Some?) ==>
          GivesUp(x.rental.value, y.rental.value, verified, stands))
    && (answer.Stop? && verified && stands && x.account.None? ==> y == x)
  }

  lemma BoundaryAfterMoveLaw(x: Locked, verified: bool, limitsOk: bool, expected: AccountId, now: Time)
    ensures var (y, answer) := BoundaryAfterMove(x, verified, limitsOk, expected, now);
            BindsMoved(x, y, answer, verified, limitsOk, expected, now)
  {
  }

  /** The waiting times after the attempts one to five: a minute, doubled each time.  The sixth is the last. */
  ghost predicate RetriesLater(r: Rental, r': Rental, now: Time) {
    if r.attempts < 6
    then r' == r.(delivery := Failed, nextAttempt := Some(now + [60, 60, 120, 240, 480, 960][r.attempts] * 1_000_000))
    else r' == r.(delivery := Manual, nextAttempt := None)
  }

  lemma RetryLaterLaw(r: Rental, now: Time)
    ensures RetriesLater(r, RetryLater(r, now), now)
  {
    if r.attempts < 6 {
      Doublings();
      assert [60, 60, 120, 240, 480, 960][r.attempts] == Backoff.DeliveryRetrySeconds(r.attempts);
    }
  }

  lemma Doublings()
    ensures Backoff.DeliveryRetrySeconds(0) == 60 && Backoff.DeliveryRetrySeconds(1) == 60 && Backoff.DeliveryRetrySeconds(2) == 120
    ensures Backoff.DeliveryRetrySeconds(3) == 240 && Backoff.DeliveryRetrySeconds(4) == 480 && Backoff.DeliveryRetrySeconds(5) == 960
  {
    assert Backoff.Pow2(2) == 4;
    assert Backoff.Pow2(3) == 8;
    assert Backoff.Pow2(4) == 16;
  }

  ghost predicate SentNow(r: Rental, r': Rental, attempt: nat, now: Time) {
    && TermOf(r, r', r.template == Welcome && attempt == 1, now)
    && r' == r.(delivery := Sent, nextAttempt := None, startedAt := r'.startedAt, expiresAt := r'.expiresAt)
  }

  /** The message leaves exactly if the bound attempt still stands on its account and may go out; the rows then
      record what the gateway answered, and nothing if the process died first. */
  ghost predicate Sends(x: Locked, y: Locked, sent: bool, verified: bool, limitsOk: bool, expected: AccountId, attempt: nat,
                        outcome: SendOutcome, now: Time)
  {
    var stands := AwaitsSend(x) && x.rental.value.account == expected && x.rental.value.attempts == attempt;
    && (sent <==> verified && stands && MaySend(x, limitsOk, now))
    && y.order == x.order && y.account == x.account && (y.rental.Some? <==> x.rental.Some?)
    && (sent && outcome == Accepted ==> SentNow(x.rental.value, y.rental.value, attempt, now))
    && (sent && outcome == Errored ==> RetriesLater(x.rental.value, y.rental.value, now))
    && (sent && outcome == Crashed ==> y == x)
    && (!sent && x.rental.Some? ==> GivesUp(x.rental.value, y.rental.value, verified, stands))
  }

  lemma SendLaw(x: Locked, verified: bool, limitsOk: bool, expected: AccountId, attempt: nat, outcome: SendOutcome, now: Time)
    ensures var (y, sent) := Send(x, verified, limitsOk, expected, attempt, outcome, now);
            Sends(x, y, sent, verified, limitsOk, expected, attempt, outcome, now)
  {
    if x.rental.Some? {
      RetryLaterLaw(x.rental.value, now);
    }
  }

  /** An undelivered running rental that nobody sends is given back with at least one attempt left. */
  ghost predicate OperatorResets(x: Locked, y: Locked, reset: bool, verified: bool, now: Time) {
    && (reset <==>
          && verified && x.rental.Some? && OutsideRefund(x.order) && x.rental.value.status == Active && x.rental.value.delivery != Sent
          && (x.rental.value.delivery != Sending || x.rental.value.sendingSince.None?
              || x.rental.value.sendingSince.value + 300_000_000 <= now))
    && y == if reset
            then x.(rental := Some(x.rental.value.(
                   delivery := Failed, attempts := if x.rental.value.attempts <= 5 then x.rental.value.attempts else 5,
                   sendingSince := None, nextAttempt := None)))
            else x
  }

  lemma OperatorRetryLaw(x: Locked, verified: bool, now: Time)
    ensures OperatorResets(x, OperatorRetry(x, verified, now).0, OperatorRetry(x, verified, now).1, verified, now)
  {
  }

  /** The operator's claim is decided on the row `read` as of the reset, and writes of its three columns those
      that differ from `read`. */
  ghost predicate ClaimsOnMemory(x: Locked, y: Locked, claimed: bool, read: Rental, verified: bool, now: Time) {
    var sending := verified && DeliveryDue(x.(rental := Some(read)), now);
    var quarantined := !verified;
    && (claimed <==> x.rental.Some? && sending)
    && y.order == x.order && y.account == x.account && (y.rental.Some? <==> x.rental.Some?)
    && (x.rental.Some? ==>
          var r, r' := x.rental.value, y.rental.value;
          && r' == r.(delivery := r'.delivery, sendingSince := r'.sendingSince, nextAttempt := r'.nextAttempt)
          && r'.delivery == (if sending && read.delivery != Sending then Sending
                             else if quarantined && read.delivery != Sent && read.delivery != Manual then Manual else r.delivery)
          && r'.sendingSince == (if sending && read.sendingSince != Some(now) then Some(now) else r.sendingSince)
          && r'.nextAttempt == (if (sending || quarantined) && read.nextAttempt.Some? then None else r.nextAttempt))
  }

  lemma ClaimRememberedLaw(x: Locked, read: Rental, verified: bool, now: Time)
    ensures ClaimsOnMemory(x, ClaimRemembered(x, read, verified, now).0, ClaimRemembered(x, read, verified, now).1, read, verified, now)
  {
  }
}
