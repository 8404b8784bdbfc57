# Verification of the rental bot

A Dafny 4.11 model of the bot that rents out accounts through a marketplace, with proofs. It follows the
transactions of the Python services: rows are changed step by step between commits, and everything the
services cannot control (the marketplace, logouts, clocks, crashes, the interleaving of workers) is an input.

`dafny verify dfyconfig.toml` checks the whole project.

## What is modelled

**The order, rental and account protocol.** `Rows` holds the database rows, `Transitions` says what every
stretch between two commits does to the rows it has locked, and `Services` holds those stretches as methods
on row objects, proved equal to `Transitions` branch by branch and with what the next caller can rely on.
`RowLaws` says in the plain values of the columns, in both directions, when each transaction acts and what it
leaves behind; every method of `Services` promises its law.
`Protocol` is the state machine: tables, workers between two of their commits, and a history of every logout,
message with credentials and login code. Its 41 actions cover delivery, expiry, refund, replacement, code
disclosure, operator retry, account writes and the check jobs; a run is any sequence of them by any number of
workers, and a worker may die between any two. Where the code decides on a row it read without a lock, or kept
in its session, the read and the write are two actions and the worker remembers what it read. `ProtocolLaws`
says for every action all that it changes, again in plain values, and `Progress` that no worker is ever stuck. `Custody`,
`Releases`, `Refunds`, `Leases`, `Deliveries`, `Confirmations`, `Attempts`, `PaidTerm` and `Interlock` prove the
global laws; `Schedules` and `Retries` hold runs from a fresh installation that show where a law needs its
condition.

**The queue and the pool.** `JobQueue` is the table of account checks with its loops, the worker's choice
among them, `Pool` the select-and-recheck loop of the allocation.

**One-time codes.** `Otp` is the durable claim before a send, one per rental and time step (the T of section
4.2 of RFC 6238), with the lookup loop over the audit rows.

**Lots.** `CapacityLoop` is the dirty-flag protocol around the reconciliation task and the gateway swap,
`Publication` the crash recovery of a new offer, `Reconciler` the loops of one reconciliation, `Eligibility` the
SQL conditions, with three truth values, that decide whether an account can be sold, and `Templates` the format
strings of an offer, parser included.

**Sales and chats.** `Sales` merges sale statuses and backfills the history, `ChatMerge` rebinds and merges
buyer chats, `Unread` is the unread counter under overlapping events and readings, `Backoff` is the retry arithmetic and the allocation headroom.

## Results about the code

Some promises hold only under a condition, or not quite. The code is modelled as it is; the condition or the
counterexample is proved.

- Two services write the status of an order they read without a lock: the sale list
  (`backend/app/services/sale_registry.py:743-788`) and the scheduler's retry
  (`backend/app/app_lifecycle.py:1075-1081`). Exactly those late writes take an order out of refund, and the
  sale list's also turns a finished refund back into a pending one (`Refunds.RefundIsAbsorbing`). Both happen:
  `Schedules.PreviewUndoesRefund`, `Schedules.SchedulerUndoesRefund`.
- The first check of a buyer command writes `expiry_pending` to a rental it read without a lock
  (`backend/app/services/command_handlers.py:328-351`). Exactly that write can bring an ended rental back
  (`Refunds.RentalMovesForward`). The unique index still excludes double occupation, and released accounts stay
  clean, but the account may be under check or promised to another buyer. `Interlock.ApartExactly` and
  `Custody.PromiseBrokenExactly` say exactly when, `Schedules.RevivedUnderCheck` and
  `Schedules.RevivedOnPromised` are the runs.
- A cancelled check and a device poll write to a job they looked up without a lock. Exactly those writes can give
  an account a second live job (`Interlock.SecondJobExactly`, `Schedules.CancelledTwice`).
- An operator retry claims the delivery on the row its session still holds from the reset. A delivery that was
  confirmed in between is sent again (`Retries.ConfirmedIsSentAgain`), or put down as manual if the order is no
  longer verified (`Retries.ConfirmedGoesManual`). Besides the switch of a replacement nothing else takes a
  confirmation away (`Confirmations.SentExactly`).
- Accounts are released clean as long as no late write completes an order in refund and nothing puts an account
  back on sale while its rental has a replacement reserved. Either lets a code escape
  (`Schedules.LateCompletionLeaks`, `Schedules.AccountWriteLeaks`). A running check cannot do the latter
  (`Interlock.ChecksAreDisciplined`); nothing stops a check whose lease went stale long ago. Without any
  discipline, exactly the ends of an occupation that meet a disclosure after the last logout leave an account
  unclean (`Releases.ReleaseExactly`).
- An operator retry at the sixth attempt turns the counter back to five, so number six is used again
  (`Retries.NumberSixTwice`); the next number is new exactly when no send was numbered six or more
  (`Attempts.RetriedNumberIsNew`). Reaching the send boundary within one's five minutes does not bound the
  attempts by six (`Retries.SeventhAttempt`); still owning the stored claim does, if
  the operator claims before another attempt is counted (`Attempts.AttemptLimit`). The limit is passed exactly
  where a boundary lets a courier through at six, which it does not test (`Attempts.LimitExactly`).
- A refund of a rental that is already closed drops a notification lease that may be live
  (`Leases.LeaseDiscipline`, `Schedules.LateRefundDropsLease`).
- The inbox reads a conversation without a lock and writes its unread counter later, so overlapping messages and
  readings leave it wrong. `Unread.CountsExactly` says exactly when; `Unread.ReadingLosesOne`,
  `Unread.EventsLoseOne` and `Unread.ReadingLeavesOne` are runs.
- A follow-up validation can be blocked by a job that another worker started after this one's lease went stale,
  or by a recovery whose attempts are used up (`Interlock.RerunExactly`).
- A shutdown that cancels a reconciliation leaves the flag down, so a restart in the same process does not
  repeat it (`CapacityLoop.NoLostRequest`).
- An offer left active by a death between its activation and the commit stays active if its account
  is gone by the next run, until a run refreshes the stock (`Reconciler.MirroredExactly`).
- A Free account with a subscription deadline counts for a lot but is never handed out
  (`Eligibility.CapacityExactly`).
- The guard on parts of a day looks for `{days}` and does not see `{days:}`, which the validation accepts
  (`Templates.ColonDaysEscapes`). An accepted template is safe exactly when it spells `{days}` or fits the three
  longest catalog rows (`Templates.EnoughExactly`).

## Model

| member | source | states |
|---|---|---|
| Custody.ExclusiveCustody | backend/app/services/account_pool.py:139-194 | In every state of every interleaved run an account is occupied by at most one rental and promised to at most one replacement, and it is not both at once unless the late write of a command check revived an ended rental on an account promised elsewhere |
| Custody.PromiseBrokenExactly | backend/app/models/rental.py:103-117 | For every state that separates occupied from promised accounts and every action: the separation is lost if and only if the action revives a rental on an account that is promised to another one by now |
| Custody.SeparateOverRun | backend/app/models/rental.py:103-117 | Over whole runs occupied and promised accounts stay apart throughout if and only if no write of the run revives a rental on an account promised elsewhere |
| Custody.CleanRelease | backend/app/services/order_processor.py:298-332 | In every run of disciplined actions an account that no rental occupies was logged out after every disclosure that was ever made of it |
| Custody.FirstDisclosureIsPrivate | backend/app/services/rental_service.py:351-362 | In every run of disciplined actions an occupying rental whose delivery was never attempted holds an account that every former holder has been logged out of |
| Custody.StepKeeps | backend/app/services/command_handlers.py:1653-1758 | Every one of the 41 actions, in any order and with any oracle answers, keeps the custody and cleanliness invariant, and every one that revives no ended rental keeps occupied and promised accounts apart |
| Custody.OneOrderKeeps | backend/app/services/rental_service.py:148-213 | A transaction keeps the invariant of all orders if it changes its own rows lawfully, lands on an account that no other rental occupies, and frees only clean ones |
| Custody.GrantedIsClean | backend/app/services/account_pool.py:212-239 | An account that the pool grants is held by no other rental, one promised earlier is promised to no other, and either is clean unless another rental occupies it by now |
| Custody.FinishRefundKeeps | backend/app/services/order_processor.py:270-347 | A refund frees its account only after a logout that no later disclosure follows |
| Custody.FinishExpiryKeeps | backend/app/services/rental_expiry.py:596-627 | An expiry frees its account only after a logout that no later disclosure follows |
| Custody.FinishReplacementKeeps | backend/app/services/command_handlers.py:1836-1917 | A replacement releases the old account clean and moves to exactly the promised one, or is rolled back by the unique index if that one is occupied by now |
| Custody.ToBoundaryKeeps | backend/app/services/rental_service.py:351-410 | A reallocation leaves an account only when no send was attempted, and takes one that nobody holds |
| Custody.UndisciplinedWriteLeaks | backend/app/services/command_handlers.py:1850-1917 | From every state between a replacement logout and its switch, an account write that puts the old account back on sale lets one more code out, and the account is released with that code outstanding |
| Releases.ReleaseExactly | backend/app/services/order_processor.py:298-332 | For every state and action, disciplined or not: an unoccupied account that is not clean appears if and only if the action ends the occupation of an account that was disclosed since its last logout |
| Releases.ReleaseOverRun | backend/app/services/command_handlers.py:1836-1917 | Over whole runs, disciplined or not: unoccupied accounts are clean throughout if and only if no refund, expiry, replacement or moved delivery of the run ends the occupation of an account that was disclosed since its last logout |
| Refunds.RefundIsAbsorbing | backend/app/services/sale_registry.py:767-788 | For every state and action: an order leaves refund if and only if the action is a preview that completes an order it read as pending, or the scheduler completing an order it did not read as completed; a finished refund is lost exactly to those or to a preview that stages the refund of an order it did not read as being in refund |
| Refunds.RefundHolds | backend/app/services/order_processor.py:324-332 | Over whole runs without such late writes to the order, whatever else is duplicated or reordered: in refund for good, refunded for good, and no code or credentials for that order afterwards |
| Refunds.NothingSaidInRefund | backend/app/services/rental_service.py:464-478 | No action sends a code or credentials for an order that is in refund |
| Refunds.RentalMovesForward | backend/app/services/command_handlers.py:318-352 | For every state and action: a rental moves backwards in active < expiry_pending < expired < refunded if and only if the action is the late write of a command check that finds the rental ended and its account not occupied; no rental is ever dropped |
| Refunds.RentalLife | backend/app/services/order_processor.py:184-268 | Over whole runs in which no late write revives the rental it only moves forward |
| Schedules.PreviewUndoesRefund | backend/app/services/sale_registry.py:743-788 | A run from a fresh installation in which the sale list reads an order as pending, the refund finishes, the sale list writes completed, and credentials are sent for the refunded order |
| Schedules.SchedulerUndoesRefund | backend/app/app_lifecycle.py:1027-1090 | A run from a fresh installation in which the scheduler completes an order that went into refund after it read it, and the refund ends with the rental still active |
| Schedules.LateCompletionLeaks | backend/app/services/order_processor.py:236-268 | A run from a fresh installation in which a late completion between the logout and the end of a refund lets a code out, a second refund event restores the pending refund, and the first one frees the account with the code outstanding |
| Schedules.AccountWriteLeaks | backend/app/services/command_handlers.py:1850-1917 | A run from a fresh installation in which an account put back on sale between logout and switch of a replacement is released with a code outstanding |
| Schedules.LateRefundDropsLease | backend/app/services/order_processor.py:212-224 | A run from a fresh installation in which the refund of an expired rental drops the live lease of its notification |
| Schedules.RevivedUnderCheck | backend/app/services/command_handlers.py:1292-1306 | A run from a fresh installation in which an expired rental comes back on an account whose recovery check is running |
| Schedules.RevivedOnPromised | backend/app/services/command_handlers.py:642-655 | A run from a fresh installation in which an expired rental comes back on an account that is promised to the replacement of another buyer |
| Schedules.CancelledTwice | backend/app/refresh_worker.py:376-394 | A run from a fresh installation in which a cancelled worker returns a job that was failed meanwhile, and the account has two live jobs |
| Retries.NumberSixTwice | backend/app/services/rental_service.py:759-777 | A run from a fresh installation in which two messages with credentials carry the number six |
| Retries.ConfirmedIsSentAgain | backend/app/app_lifecycle.py:1256-1267 | A run from a fresh installation in which another courier delivers between the reset and the claim of an operator retry, whose session still holds the failed row, so that the confirmed delivery is sent once more |
| Retries.ConfirmedGoesManual | backend/app/services/rental_service.py:579-585 | A run from a fresh installation in which an operator claim that finds the order unverified writes manual over a confirmed delivery |
| Confirmations.SentExactly | backend/app/services/rental_service.py:113-127 | For every reachable state and action: a confirmed delivery stops being one if and only if an operator claims on the row as it was at the reset, or finds the order unverified there, or a replacement switches the rental to a new account |
| Confirmations.SentHolds | backend/app/app_lifecycle.py:1256-1267 | Over whole runs a confirmed delivery stays confirmed as long as neither happens to its order |
| Retries.SeventhAttempt | backend/app/services/rental_service.py:252-284 | A run from a fresh installation in which every courier reaches its boundary within five minutes of its own claim and attempt seven is counted |
| Leases.LeaseDiscipline | backend/app/services/rental_expiry.py:524-551 | For every action and order: the shared lease is taken only when empty or at least five minutes old and under the stamp of the taker, and a lease or reservation disappears only by its exact owner, when stale, or by a late refund of a closed rental |
| Leases.StaleFinalizerIsHarmless | backend/app/services/command_handlers.py:1787-1849 | A finalizer that no longer sees its exact timestamp (and, for a replacement, its target) changes no order, rental, account or job |
| Leases.OneOwner | backend/app/services/order_processor.py:291-322 | At every moment of every run at most one worker owns the lease stored on a rental |
| Leases.ClaimsStayDistinct | backend/app/services/order_processor.py:242-268 | Claims of different workers keep different timestamps, so the timestamp identifies the claim |
| Deliveries.WelcomeSends | backend/app/services/rental_service.py:351-410 | All sends of one welcome delivery, across crashes, overlapping couriers, reallocations and operator retries, disclose one account; a later send carries a larger number unless an operator retry turned a used-up counter back, the earlier number was at least six and the later at least five; only numbers of at least six repeat |
| Deliveries.LoweredExactly | backend/app/app_lifecycle.py:1228-1242 | The order is marked as turned back if and only if an operator retry of the run found its attempts used up |
| Deliveries.StepKeeps | backend/app/services/rental_service.py:426-478 | Every action keeps the account and the numbering of the sends made and about to be made |
| Attempts.AttemptLimit | backend/app/services/rental_service.py:252-284 | In every run in which each courier still owns the stored claim at its send boundary, and the operator claims before another attempt is counted, no delivery is attempted more than six times |
| Attempts.LimitExactly | backend/app/services/rental_service.py:426-439 | For every state and action: a count within six is taken past six if and only if a courier of that order reaches a boundary that lets it through although six attempts were counted |
| Attempts.LimitOverRun | backend/app/services/rental_service.py:252-284 | Over whole runs the count of a delivery stays within six throughout if and only if no boundary lets a courier through at six |
| Attempts.LeaseTimeIsNotEnough | backend/app/app_lifecycle.py:1228-1242 | A family of schedules in which every claimant acts within its own five minutes and the seventh attempt is made all the same |
| Attempts.RetriedNumberIsNew | backend/app/app_lifecycle.py:1228-1242 | In every run, after an operator retry the next attempt number exceeds the numbers of all logged sends of the delivery if and only if none of those is six or more |
| PaidTerm.PaidTermConserved | backend/app/services/rental_service.py:430-437 | In every state expires_at == started_at + the bought duration, and once attempt 1 was sent, attempt 2 counted or a replacement made, retries, operator retries, replacements and crashes leave both dates alone |
| PaidTerm.TermIsFrozen | backend/app/services/rental_service.py:566-574 | Once attempt 1 was sent, or attempt 2 was counted even if the send of attempt 1 died, or a replacement was made, no action moves the start or the end of the term |
| PaidTerm.UnsentIsNotExpired | backend/app/services/rental_expiry.py:110-121 | A rental whose welcome message was never attempted is moved to expiry_pending neither by the expiry worker nor by a buyer command nor by the late write of a command check |
| Protocol.TouchedIsWritten | backend/app/services/rental_service.py:286-410 | What an action does to orders and rentals is exactly the row function of its transaction on its one order |
| ProtocolLaws.StepLaw | backend/app/services/rental_service.py:286-410 | Every one of the 41 actions does in every state what its law says, in plain columns: which rows of its one order it writes and when, which worker is entered, moved or left, which logout, message or code leaves, which recovery check is queued, and that nothing else changes |
| ProtocolLaws.CredentialsInTerm | backend/app/services/rental_service.py:601-686 | In every run credentials leave if and only if the courier is verified, its attempt and account still stand on an active sending rental outside refund, the account is on sale in the tier and within its limits, and more than two minutes of the term are left |
| ProtocolLaws.CodeInTerm | backend/app/services/command_handlers.py:818-891 | In every state a code leaves if and only if the rental is the expected, delivered, active one of an order outside refund before the end of its term and its account is on sale |
| ProtocolLaws.FirstFreeLaw | backend/app/services/account_pool.py:110-159 | The pool answers with the first candidate that is on sale, held by and promised to no rental, and without a live check |
| ProtocolLaws.SchedulerPicks | backend/app/app_lifecycle.py:991-1030 | The scheduler picks exactly the orders outside refund without a rental, or whose active rental failed and is due with attempts left, or has been sending for five minutes |
| Progress.NeverStuck | backend/app/services/order_processor.py:270-347 | In every reachable state every worker can take its next step whatever the others did, the scheduler excepted while the delivery it started is under way |
| Progress.MayBegin | backend/app/services/rental_service.py:112-284 | Every transaction on a known order may begin in every state at a fresh time, whatever else is going on, the first allocation exactly while there is no rental |
| Progress.ChecksMayBegin | backend/app/check_job_queue.py:67-137 | A check begins if and only if its job waits, is no device login, and no rental occupies its account or has it reserved |
| RowLaws.StageOverLaw | backend/app/services/sale_registry.py:743-788 | A late write of the sale list ends in refund_pending or completed exactly by the status it read, whatever is stored by then |
| RowLaws.ClaimRememberedLaw | backend/app/app_lifecycle.py:1242-1267 | The operator claims if and only if the row as of the reset was claimable, and of its three columns writes exactly those that differ from what was read |
| RowLaws.DecidesExpiryLaw | backend/app/services/command_handlers.py:318-352 | A command decides to close the rental it read if and only if that was delivered, active and due outside refund |
| Services.ProcessSaleClosedTransition | backend/app/services/order_processor.py:125-141 | An order outside refund ends completed, one in refund stays as it is, and exactly the close of a pending order reports a transition; the refund pair is neither entered nor left, and a repeated close changes nothing and reports no transition |
| Services.ClaimRefundRevoke | backend/app/services/order_processor.py:174-268 | In plain columns which of the four answers is given when, both ways, and all rows after it: a running rental is claimed exactly under verified provenance without a lease younger than five minutes, an ended one is settled and refunded; unless provenance is refused the order is in refund and no code can be authorized at any later time; a claim keeps every other worker from the shared lease for five minutes; a settled refund stays settled when repeated |
| Services.FinalizeRefundRevoke | backend/app/services/order_processor.py:270-347 | Rental and order are refunded exactly under the own lease, after a logout, on the claimed account, while the order waits for its refund; the own lease goes in any case; without its own stamp nothing changes; a recovery check is asked for exactly when the order went from refund_pending to refunded; a second end with the same claim does nothing |
| Services.ReconcileLocalOrderStatus | backend/app/services/sale_registry.py:767-788 | The order ends in refund_pending exactly if it was or the list says refunded before the refund is finished, and stays pending exactly if the list says neither; on the object as it was read: never moves it out of refund or back to pending, and repeating it changes nothing; when the object is stale, Refunds.RefundIsAbsorbing says what its write does |
| Services.RetryRentalDelivery | backend/app/app_lifecycle.py:1193-1242 | The claim is reset exactly for a verified, undelivered, active rental outside refund that nobody has been sending for less than five minutes, with the count cut to five; a refusal changes nothing; after a reset the delivery can be claimed at any time, dates, lease and reservation are untouched and the count is not higher |
| Services.ClaimOverdue | backend/app/services/rental_expiry.py:481-563 | The worker claims if and only if provenance is verified, the order is outside refund, the rental is active or waits for its expiry, its term is over, it is a replacement or was attempted or delivered, and no lease is younger than five minutes; a claim sets expiry_pending, the lease and maintenance and drops the reservation, a refusal changes nothing; after a claim nobody else gets the shared lease for five minutes, no code is ever authorized on the rows and no delivery can be claimed |
| Services.FinalizeRevoke | backend/app/services/rental_expiry.py:565-627 | The rental expires exactly under the own lease, outside refund, on the claimed account and after a logout, and when the own lease is dropped without that is stated both ways; without its own stamp nothing changes; the status moves only to expired, only after a logout and with the lease released; repeating it does nothing |
| Services.ClaimExpiryNotification | backend/app/services/rental_expiry.py:362-424 | A notification is claimed exactly for a verified expired rental without one, outside refund, without a lease younger than five minutes; after a claim nobody else gets the lease for five minutes; a rental marked without a message, which happens only in refund, can never be notified |
| Services.FinalizeExpiryNotification | backend/app/services/rental_expiry.py:426-479 | Exactly the own stamp is released, and the time recorded if the message was delivered; without its own stamp nothing changes; after a delivered notification no worker can ever claim another |
| Services.ReleaseStaleReservation | backend/app/services/rental_expiry.py:307-348 | Released exactly if target, lease and account are the ones observed and the lease is at least five minutes old; a refusal changes nothing; a release happens at least five minutes after the lease, drops lease and reservation only, and cannot be repeated on the same observation |
| Services.ExpireRentalIfDue | backend/app/services/command_handlers.py:318-352 | Denied exactly for a begun rental that is not active, is due, or is in refund; closed exactly if it was active and due outside refund; access once denied is denied at every later time on the rows it leaves; the status moves only for a due rental that was delivered or attempted |
| Services.RentalAccessDenial | backend/app/services/command_handlers.py:354-367 | The rental is closed exactly if it was delivered, active and due outside refund; denied if and only if the rental is missing, not delivered, not active, due, or its order is in refund; denied for good on the rows it leaves |
| Services.AuthorizeCode | backend/app/services/command_handlers.py:818-848 | In plain columns when a code is authorized and when the rental is closed instead; authorized if and only if the rental is the expected, delivered, running one of an order outside refund and the account is on sale without an override; an authorization changes no row |
| Services.ClaimReplacementRevoke | backend/app/services/command_handlers.py:1585-1758 | The replacement is claimed if and only if the rental is the expected one, delivered and active outside refund, more than two minutes of the term are left at both clock readings, replacements are left, no lease is younger than five minutes, and the pool picked another account; the rows after every outcome are stated, the overdue rental that is closed and the stale reservation that is dropped included; after a claim the rental holds both accounts, nobody else gets the lease for five minutes and no code can be authorized |
| Services.SwitchAccount | backend/app/services/command_handlers.py:1916-1927 | The paid dates survive the switch and every later boundary and delivery of the new account, status, lease and reservation are untouched, nobody can claim the new delivery for five minutes and no code is sent before it is delivered |
| Services.FinalizeReplacement | backend/app/services/command_handlers.py:1760-1927 | The rental is switched if and only if stamp and target are the own ones, the command was found, the logout worked on the account it still has, the target is on sale in its tier, the order is outside refund, the rental is delivered and active with more than two minutes left, and replacements are left; the rows after a switch, a release and a stranger are stated; a switch lands on the promised account and uses up one replacement, and the dates stay in any case |
| Services.FulfillNewOrder | backend/app/services/rental_service.py:112-213 | A rental is created if and only if provenance is verified, the order is pending or completed and the pool picked an account; it runs the bought minutes from now; the new rental is the picked account, never sent, safe from other claimants for five minutes, and cannot be expired by any expiry claim |
| Services.QuarantineUnverifiedRental | backend/app/services/rental_service.py:579-585 | Manual unless it was delivered, and no retry date; no worker that reads the row as it is can ever claim the delivery again, whatever the other rows say; a rental delivered on the row as read stays delivered, and account, count, dates, lease and reservation are untouched; on a row read before, Confirmations.SentExactly says what its write does |
| Services.ClaimExistingDelivery | backend/app/services/rental_service.py:252-284 | Claimed if and only if verified, active, outside refund, undelivered and not manual, with less than six attempts, no retry date in the future and nobody sending for less than five minutes; a claim is safe from every other claimant for five minutes, has an attempt left and leaves the dates; an unverified delivery can never be claimed again |
| Services.CommitBoundary | backend/app/services/rental_service.py:426-439 | The attempt is counted and dated, and all else but the dates of a first welcome message stays; exactly a rental that was never sent starts its full bought term now, any other keeps its dates; from here on the rental counts as attempted, and a running claim is safe for five more minutes |
| Services.DeliverToBoundary | backend/app/services/rental_service.py:311-439 | An attempt is bound if and only if provenance is verified, the order is outside refund, the rental is active and sending, its account is on sale in its tier and within its limits, and nothing was attempted before or more than two minutes of the term are left; the account is exchanged if and only if that fails, nothing was attempted and the pool picked another one; what every other case leaves behind is stated; a bound claim is safe for five minutes |
| Services.DeliverToBoundaryAfterMove | backend/app/services/rental_service.py:366-439 | The same if and only if after an exchange, on the account it was exchanged for; there is no second exchange, and a vanished account leaves the rows alone |
| Services.SendCredentials | backend/app/services/rental_service.py:460-575 | The message is sent if and only if provenance is verified, the bound attempt and account still stand on an active sending rental outside refund, the account is on sale in the tier and within its limits, and more than two minutes of the term are left (or nothing was ever counted); what the rows record for each answer of the gateway is stated; what is not sent gives its claim up, and a confirmed delivery can never be claimed by a worker that reads the row as it is |
| Services.ScheduleDeliveryRetry | backend/app/services/rental_service.py:759-777 | Retried after 1, 2, 4, 8 and 16 minutes, then given to an operator; count, dates and custody stay; with the attempts used up no worker can claim the delivery again, else it can be claimed exactly from the backoff date on, which lies in the future |
| JobQueue.FirstLive | backend/app/check_job_queue.py:309-320 | Finds the oldest live job of the account and reports none only if there is none |
| JobQueue.UrgencyLaw | backend/app/check_job_queue.py:13-13 | The numbers of the priorities order them as named: new and refresh recovery, manual, scheduled, limit check, anything else |
| JobQueue.CheckJobQueue.Enqueue | backend/app/check_job_queue.py:31-65 | A job is added if the account has no live one, or if its oldest live one waits and is less urgent by the named order of the priorities, which is then closed; else the oldest live one is returned and nothing changes |
| JobQueue.CheckJobQueue.RecoverStaleRunning | backend/app/check_job_queue.py:139-176 | Row by row: exactly the unlocked running jobs of the kinds that started by the cutoff, or have no start on record, wait again, and the answer is their number |
| JobQueue.CheckJobQueue.FailActiveJobs | backend/app/check_job_queue.py:178-204 | Row by row: exactly the unlocked live jobs of the kinds fail, and exactly their accounts are reported |
| JobQueue.CheckJobQueue.EnqueueExclusive | backend/app/check_job_queue.py:206-271 | Refuses before writing anything if and only if a job of the account has run for less than twenty minutes; else running jobs of the account fail, waiting ones are done, and the new one is added |
| JobQueue.CheckJobQueue.RequeueCancelled | backend/app/refresh_worker.py:376-394 | A cancelled worker returns its job only if it still reads it as running; Interlock.SecondJobExactly says what happens if the job is closed before it writes |
| JobQueue.CheckJobQueue.FetchNextPending | backend/app/check_job_queue.py:67-137 | The worker loop ends, gives up an account only after a failed recheck under its lock, and returns the most urgent, then oldest, waiting job that survives, by the named order of the priorities, or none only if every waiting job was given up |
| JobQueue.CheckJobQueue.FirstPending | backend/app/check_job_queue.py:78-98 | The statement returns the most urgent, then oldest waiting job: new accounts and refresh recoveries, then manual, scheduled and limit checks |
| Pool.Acquire | backend/app/services/account_pool.py:175-194 | The select-and-recheck loop ends after at most one statement per account, rejects only on a failed recheck, and answers with the first row of its last statement that was not rejected, or with none only if all were |
| Pool.QuietAnswer | backend/app/services/account_pool.py:175-194 | While nobody else commits, the answer is the first candidate in order without a conflict |
| Interlock.OneJobPerAccount | backend/app/check_job_queue.py:31-65 | Over whole runs of enqueues, exclusive enqueues, recoveries, failures, finishes, cancellations and device logins every account has at most one live job throughout if and only if no write of the run reopens a closed job beside a live one |
| Interlock.SecondJobExactly | backend/app/refresh_worker.py:376-394 | For every action: an account gets a second live job if and only if a cancelled worker or a device poll writes to a job that was closed since it was read while another job of the account is live |
| Interlock.ApartExactly | backend/app/services/account_device_auth.py:339-350 | For every action: a check and a rental come to own one account if and only if the action revives an ended rental under a check, or reopens a device login or polls a closed job of an account that is held |
| Interlock.NoCheckOfHeldAccount | backend/app/check_job_queue.py:67-137 | Over whole runs no account has two live jobs, no check runs on an account that a rental occupies or a replacement has reserved, and a pending device login keeps its account free, throughout, if and only if no write of the run reopens a closed job beside a live one, reopens an owner of a held account, or revives a rental under a check |
| Interlock.ChecksAreDisciplined | backend/app/refresh_worker.py:59-190 | In every run in which no write reopens a job beside a live one or an owner of an account that a rental runs on or reserved, revived rentals or not, the result that a running check writes to its account never breaks the discipline under which released accounts are clean |
| Interlock.BusyOnlyWhenUnchecked | backend/app/services/account_pool.py:139-147 | No transaction makes a rental hold an account that has a live job, unless it revives an ended rental; and none at all makes a rental run on or reserve such an account |
| Interlock.RerunExactly | backend/app/refresh_worker.py:256-282 | Clearing the request for another validation leaves a live job that will validate if and only if the job that survives does: another job that cannot be displaced, else the added recovery if it has attempts left, else the follow-up |
| Interlock.RerunIsHonoured | backend/app/refresh_worker.py:191-282 | In every run without such reopened jobs a worker whose job is still live, a recovery failed for used-up attempts included, may clear the request, provided a recovery it adds has attempts left |
| Interlock.CheckedAccount.EnqueueRequestedRerun | backend/app/refresh_worker.py:256-282 | Status and queue after it in plain values; the flag is cleared, the follow-up is enqueued, and the account is off sale unless the operator decided otherwise |
| Interlock.CheckedAccount.Conclude | backend/app/services/account_device_auth.py:485-510 | The job is closed, the recovery queued if the token was lost, the validation if it was requested, in this order; the end of a check with its own lease hands a requested re-validation on |
| Interlock.HandedOnLaw | backend/app/refresh_worker.py:191-282 | The end of a job in plain rows: closed, then the recovery, then the requested validation, each queued by the law of the queue |
| Otp.OneCodePerStep | backend/app/services/command_handlers.py:792-891 | Over all concurrent commands and crash points each time step is disclosed at most once per rental, and every code sent belongs to a step that was claimed before; that and when codes are sent is SentExactly |
| Otp.SentExactly | backend/app/services/command_handlers.py:838-891 | For every state and action: a code leaves if and only if the action is an authorized send by a handler whose claimed 30-second step contains both clock readings, and then it is the code of exactly that step and claim; the handler goes on to record whether the gateway accepted, unless it died |
| Otp.RecordedExactly | backend/app/services/command_handlers.py:871-892 | The row that ends a command says sent if the gateway accepted and uncertain if it did not, and is there exactly if it was committed |
| Otp.ClaimedExactly | backend/app/services/command_handlers.py:751-814 | In every reachable state a claim is committed if and only if it is authorized and no claim of the rental for the step was committed before, at whatever time, so the margin of the lookup hides none |
| Otp.LookupExactly | backend/app/services/command_handlers.py:522-585 | In every run the lookup finds a claim if and only if the step was claimed; it reports it as sent if and only if an outcome was recorded and the gateway had accepted that code, as uncertain if and only if one was recorded and it had not, and as open if and only if none was recorded |
| Otp.OneClaimPerStep | backend/app/services/command_handlers.py:751-763 | There is at most one durable claim per rental and time step |
| Otp.SendKeeps | backend/app/services/command_handlers.py:838-852 | A code generated between two readings of the claimed step belongs to it |
| Otp.AuditTrail.ClaimForWindow | backend/app/services/command_handlers.py:522-585 | The lookup returns the latest claim of the rental for the step with its last outcome, and none only if there is no claim |
| Otp.AuditTrail.CommitClaim | backend/app/services/command_handlers.py:751-814 | The row that is written and when, in plain columns; a claim is committed exactly when authorized and no earlier claim of the step exists, whatever came of it |
| CapacityLoop.NoLostRequest | backend/app/app_lifecycle.py:287-359 | Outside shutdown and swap, a raised flag with a gateway has a live task; a lowered flag means that a reconciliation started after the last accepted request is in flight, has succeeded, or was cut off by a shutdown |
| CapacityLoop.OneLoop | backend/app/app_lifecycle.py:302-307 | There is never more than one loop task |
| CapacityLoop.StepLaw | backend/app/app_lifecycle.py:215-359 | Every action in every state, field by field: a request raises the flag and starts a task exactly if there is a gateway and no live one, the loop lowers it exactly if it starts a reconciliation, a failure raises it again, the end of a loop or swap asks again |
| CapacityLoop.NeverStuck | backend/app/app_lifecycle.py:215-359 | In every state requests may come, every task can go on from where it is suspended, a gateway swap can end either way and a shutdown can run through to the next start |
| CapacityLoop.CloseKeeps | backend/app/app_lifecycle.py:350-359 | The cleanup of the loop closes the race with a late request |
| CapacityLoop.InstallKeeps | backend/app/app_lifecycle.py:215-222 | A new gateway wakes the loop for whoever asked without one |
| CapacityLoop.CancelKeeps | backend/app/app_lifecycle.py:268-276 | A cancelled loop, started or not, leaves no second task and no false promise |
| CapacityLoop.AppLifecycle.RequestCapacityReconcile | backend/app/app_lifecycle.py:287-307 | Field by field; marks the request and starts a task only if there is a gateway and no live task |
| CapacityLoop.AppLifecycle.TurnLoop | backend/app/app_lifecycle.py:319-328 | Lowers the flag and starts a reconciliation exactly if the flag is up, the application runs on and there is a gateway; from the loop condition to the next await |
| CapacityLoop.AppLifecycle.CloseLoop | backend/app/app_lifecycle.py:350-359 | Field by field; forgets itself, and starts a successor if the flag is up |
| CapacityLoop.AppLifecycle.ReconcileRaised | backend/app/app_lifecycle.py:331-345 | Field by field; a failure raises the flag again |
| CapacityLoop.AppLifecycle.FinishSwap | backend/app/app_lifecycle.py:215-222 | Field by field; the end of a gateway swap asks again for whoever is waiting |
| Publication.Seller.PublishPeriodically | backend/app/services/lot_auto_manager.py:126-135 | However many attempts die wherever, one that gets through leaves exactly one active offer with the lot's marker, bound to the lot, the oldest one if there was any |
| Publication.Seller.PublishPendingLot | backend/app/services/lot_auto_manager.py:280-296 | At every stopping point no offer is active without a committed binding, offers without the marker are untouched, and a tidy market stays tidy |
| Publication.Seller.BindInactive | backend/app/services/lot_sync.py:124-166 | The inactive offer is saved with title, price and marker of the lot and its id committed, nothing becomes active, a failure changes no lot, with the same guarantees at every stopping point |
| Publication.Seller.ActivateBound | backend/app/services/lot_sync.py:284-305 | Exactly the bound offer is activated unless the call was refused, and the lot is on sale exactly if call and commit succeeded |
| Publication.Seller.RecoverUncommittedOffer | backend/app/services/lot_sync.py:168-236 | Adopts the lowest of the unclaimed lookalikes with the marker, leaves none of the others and no other offer is deleted; deletes only offers with the exact marker, never the lowest, and adopts the lowest; an unreadable description or unconfirmed deletion stops it |
| Publication.Seller.FindMatches | backend/app/services/lot_sync.py:182-216 | Stops exactly at an unreadable unclaimed lookalike; finds exactly the unclaimed offers that look like the lot and carry its marker, lowest id first |
| Publication.Seller.DeleteDuplicates | backend/app/services/lot_sync.py:223-234 | Succeeds exactly if every deletion is confirmed; removes all matches but the first, or stops with the first still there |
| Publication.AfterSave | backend/app/services/lot_sync.py:151-166 | Saving the inactive offer, new or adopted, breaks nothing even if the process dies next |
| Publication.KeptThrough | backend/app/services/lot_auto_manager.py:280-296 | What stopped attempts keep one by one they keep together |
| Reconciler.OnSaleExactly | backend/app/services/lot_auto_manager.py:94-206 | After one run with a node a non-deleted automatic lot is on sale if and only if its configuration is in the loaded matrix, has an account, renders, and no operator had paused it |
| Reconciler.SecondRunIsQuiet | backend/app/services/lot_auto_manager.py:112-206 | A second run on unchanged inputs writes nothing and reports only none |
| Reconciler.RunSettles | backend/app/services/lot_auto_manager.py:58-224 | A run leaves nothing for the next one to do and keeps its own assumptions |
| Reconciler.RunLaw | backend/app/services/lot_auto_manager.py:58-224 | What a run makes of a lot that was there before: the catalog pass, the marker pass, the orphan pass and the row of its configuration, in this order and in plain columns |
| Reconciler.MirroredExactly | backend/app/services/lot_auto_manager.py:154-206 | After a run the remote offer is active exactly when the lot is on sale, unless it was left active by a death between activation and commit and the run skips the lot |
| Reconciler.LotAutoManager.Run | backend/app/services/lot_auto_manager.py:58-224 | The loops make of every lot what its configuration demands, create exactly the missing sellable lots, and report each action |
| Reconciler.LotAutoManager.PauseCatalogInvalid | backend/app/services/lot_auto_manager.py:350-393 | The lot after the pass in plain columns; pauses and reports exactly the lots on sale whose catalog rows forbid it |
| Reconciler.LotAutoManager.SyncMissingMarkers | backend/app/services/lot_auto_manager.py:298-348 | The lot after the pass in plain columns; marks and reports exactly the published supported lots without a marker |
| Reconciler.LotAutoManager.PauseOrphans | backend/app/services/lot_auto_manager.py:97-110 | The lot after the pass in plain columns; pauses and reports exactly the automatic lots on sale without a matrix row |
| Reconciler.LotAutoManager.FindLot | backend/app/services/lot_auto_manager.py:438-448 | Finds the non-deleted automatic lot of a configuration or proves that there is none |
| Reconciler.LotAutoManager.ReconcileLot | backend/app/services/lot_auto_manager.py:137-206 | Status, reason, binding, marker, content and remote activity by the row, and the report, in plain columns; every branch for a lot that exists: state, contents, remote activity and report |
| Reconciler.LotAutoManager.ReconcileMatrices | backend/app/services/lot_auto_manager.py:112-206 | Each lot is treated once by the row of its configuration, and each sellable configuration ends with one lot |
| ChatMerge.Inbox.RebindBuyerChat | backend/app/services/sale_registry.py:1562-1742 | Refuses a chat of another buyer without writing; else merges the proven chats of the buyer: no message without source id is lost, every source id survives exactly once, chat ids stay unique, sales, orders and rentals end on the chat, counters are exact |
| ChatMerge.Inbox.MoveMessages | backend/app/services/sale_registry.py:1655-1676 | Moves a conversation message by message and drops only second copies of a source id |
| ChatMerge.Inbox.MergeOthers | backend/app/services/sale_registry.py:1640-1676 | Exactly the other proven conversations of the buyer are merged |
| ChatMerge.Inbox.TakeChat | backend/app/services/sale_registry.py:1595-1639 | The chat id goes to the proven holder, else to the most recently active conversation of the buyer, else to a new one; an unproven holder is quarantined |
| ChatMerge.Inbox.CountUnread | backend/app/services/sale_registry.py:1688-1692 | Counts the unread incoming messages |
| ChatMerge.Inbox.LatestOf | backend/app/services/sale_registry.py:1679-1701 | Finds the latest message by time and id |
| ChatMerge.Inbox.PointSales | backend/app/services/sale_registry.py:1703-1740 | Row by row; exactly the managed sales, bound orders and rentals of the buyer are pointed to the chat |
| ChatMerge.MergedMore | backend/app/services/sale_registry.py:1655-1676 | Merging one more conversation conserves what merging the earlier ones conserved |
| ChatMerge.StillCounted | backend/app/services/sale_registry.py:1679-1692 | A rebinding keeps the counters of all conversations exact |
| ChatMerge.Inbox.RecordEvent | backend/app/services/chat_service.py:85-153 | Message, echo and summary in plain columns; a repeated event adds nothing, an echo completes the pending reply, anything else is added; if the counters were exact they stay so if and only if nothing was added, the message is the seller's, or the counter read before is still the stored one |
| ChatMerge.Inbox.MarkRead | backend/app/services/chat_service.py:286-299 | Exactly the messages that the statement found become read; if the counters were exact they stay so if and only if nothing unread was missed, or, with a counter read as zero, nothing unread was marked |
| Unread.CountsExactly | backend/app/services/chat_service.py:85-153 | For every state of overlapping events, readings and replies: a counter stops being the number of unread messages if and only if an event commits the successor of a counter that changed since it was read, or a reading clears the counter although something unread was not marked, or leaves the counter it read as zero although something unread was marked |
| Unread.CountedOverRun | backend/app/services/chat_service.py:286-299 | Over whole runs every counter is exact throughout if and only if no commit of the run does that |
| Unread.StepLaw | backend/app/services/chat_service.py:85-153 | Every action in every state: a reading remembers the stored counter, the statement marks exactly the unread incoming messages of the conversation, and the commits write what was remembered |
| Unread.EventAlone | backend/app/services/chat_service.py:149-153 | An event that commits right after its reading keeps the counter exact |
| Unread.ReadingAlone | backend/app/services/chat_service.py:286-299 | A reading that nothing overlaps keeps the counter exact |
| Unread.ReadingLosesOne | backend/app/api/routers/chats.py:72-82 | A run in which a message recorded between the statement and the counter of a reading stays unread with a counter of zero |
| Unread.EventsLoseOne | backend/app/services/chat_service.py:85-153 | A run in which two overlapping events leave two unread messages and a counter of one |
| Unread.ReadingLeavesOne | backend/app/services/chat_service.py:286-299 | A run in which a reading that saw a counter of zero marks a message and leaves a counter of one |
| ChatMerge.Inbox.CreateOutgoingPending | backend/app/services/chat_service.py:301-320 | The stored reply and the summary in plain columns; a reply waits as pending and does not count as unread |
| Eligibility.PoolExactly | backend/app/services/account_pool.py:110-159 | Per account: the pool offers it if and only if it counts for the lot and is not a Free account with a deadline, and both are stated in plain columns as in OfferedExactly and CountedExactly |
| Eligibility.CapacityExactly | backend/app/services/lot_auto_manager.py:450-524 | Lot capacity and pool candidates agree if and only if capacity does not rest on Free accounts with a deadline alone; capacity and candidate are stated in plain columns |
| Eligibility.CapacityIffCandidate | backend/app/services/lot_auto_manager.py:421-436 | Under the matrix filter and without such accounts a lot has capacity if and only if the pool has a candidate, that is an account that is healthy, idle, freshly measured and within the scope in plain columns |
| Eligibility.PickPassesDelivery | backend/app/services/rental_service.py:601-686 | Whatever the pool picks passes the re-check before delivery at the same instant, in plain columns on either side |
| Eligibility.OfferedExactly | backend/app/services/account_pool.py:110-159 | The pool offers an account if and only if it is active without override on a healthy route, of the sold tier which is active and sellable, Free without a deadline or paid with a trusted one past term and headroom, measured within half the duration but at least within five minutes and at most within an hour with refresh and window fine, without rental, reservation or check, and its one verified long window has at least the minimum for Codex, or a percentage at most the ceiling for any limit |
| Eligibility.CountedExactly | backend/app/services/lot_auto_manager.py:450-524 | The lot counts an account if and only if the same holds in plain columns, where a Free account may also have a trusted deadline |
| Eligibility.AllowedExactly | backend/app/services/rental_service.py:601-686 | The re-check passes if and only if the same holds in plain columns, without asking for rental, reservation and check |
| Eligibility.ObservedExactly | backend/app/services/limit_eligibility.py:51-102 | The long window is observed if and only if exactly one of the two windows is the one of the plan with a percentage from 0 to 100 |
| Eligibility.KeepsAll | backend/app/services/limit_eligibility.py:105-139 | A row is kept if and only if every condition is true, not merely not false |
| Backoff.SaturationIsExact | backend/app/app_lifecycle.py:59-77 | Saturating the exponent changes no delay if and only if the saturated power reaches the maximum |
| Backoff.PoliciesAreExact | backend/app/services/sale_registry.py:799-808 | For every stored counter the saturated delays of orders, sales, notifications and deliveries are min(base * 2^(n-1), max) |
| Backoff.DelaysInSeconds | backend/app/services/delivery_policy.py:14-21 | For every stored counter the waits in seconds: 60 doubled up to 3600 for deliveries and orders, 300 doubled up to 86400 for sales, 60 doubled up to 86400 for notifications |
| Backoff.HeadroomOfSix | backend/app/services/delivery_policy.py:24-41 | For the six attempts the headroom is 2400 seconds, 1860 of them waits |
| Backoff.DelayNeverShrinks | backend/app/services/delivery_policy.py:14-21 | Later attempts never wait less |
| Backoff.LastAttemptFits | backend/app/services/delivery_policy.py:24-41 | For any maximum number of attempts, with every retry within one poll of being due and every send within its timeout, the last attempt ends within the headroom minus the safety margin |
| Backoff.HeadroomIsTight | backend/app/services/delivery_policy.py:24-41 | Some schedule reaches that bound |
| Backoff.RetryColumns.DeferOrder | backend/app/app_lifecycle.py:59-77 | Counts the failure and dates the retry by the unsaturated law |
| Backoff.RetryColumns.DeferSale | backend/app/services/sale_registry.py:1041-1069 | The same for sales, profiles and pages, a negative counter counting as none |
| Templates.AcceptedIsEnough | backend/app/services/lot_templates.py:257-277 | For every plan name up to 120 characters, every legal duration and percentage, an accepted template renders within the limits if and only if the guard on parts of a day does not refuse it, provided it has no {days:} |
| Templates.EnoughExactly | backend/app/services/lot_auto_manager.py:611-622 | An accepted template renders for every legal plan, duration and percentage that the guard lets through if and only if it spells {days}, so that the guard refuses every part of a day, or renders for the three longest catalog rows |
| Templates.RendersExactly | backend/app/services/lot_templates.py:317-357 | A valid content renders for every legal catalog row if and only if it renders for the three longest ones, whose deprecated days value has thirteen characters |
| Templates.ColonDaysEscapes | backend/app/services/lot_auto_manager.py:611-622 | Every description of 3990 plain characters followed by {days:} is accepted, passes the guard, and overflows for half an hour |
| Templates.AcceptedRenders | backend/app/services/lot_templates.py:317-357 | A content accepted against the maximal values renders for all values that are no longer |
| Templates.GuardSees | backend/app/services/lot_auto_manager.py:611-622 | Every use of the deprecated field in a valid content is spelled {days} or {days:} |
| Templates.ValidateContent | backend/app/services/lot_templates.py:211-254 | In plain field names; accepts exactly the well-formed contents with known bare fields, titles with plan, condition and term, and returns the fields used |
| Templates.ParsesBack | backend/app/services/lot_templates.py:211-254 | Round trip: every sequence of characters and fields, with conversion and specification or not, that is written out as a format string is read back by the parser |
| Templates.FilledInOrder | backend/app/services/lot_templates.py:317-357 | A content is filled in part by part in order |
| Templates.LimitsLaw | backend/app/services/lot_templates.py:257-277 | Accepted if and only if well formed and, with the maximal values, at most 255 characters for a title and 4000 for a description |
| Templates.OfferShows | backend/app/services/lot_auto_manager.py:605-694 | An offer is rendered if and only if the guard lets it through and all four texts fit, and then each text is the content of its own field filled in with the values of its own language |
| Templates.SubstitutionTable | backend/app/services/lot_auto_manager.py:623-694 | The value of every field in both languages |
| Templates.DurationReads | backend/app/services/durations.py:13-43 | A duration is written as its days, hours and minutes with the right plural, those that are zero left out |
| Templates.LegacyDaysRead | backend/app/services/durations.py:46-58 | The deprecated value is the number of days rounded half up to ten places, without trailing zeros and point |
| Templates.DigitsReadBack | backend/app/services/durations.py:46-58 | The decimal digits of a number stand for it |
| Templates.DurationFits | backend/app/services/durations.py:13-43 | No legal duration is written longer than the maximal value, in either language |
| Templates.LegacyWholeDays | backend/app/services/durations.py:46-58 | For whole days the deprecated value is their number |
| Templates.LegacyHalfHour | backend/app/services/durations.py:46-58 | For half an hour it has twelve characters, two more than the maximal value |
| Templates.ValueFits | backend/app/services/lot_auto_manager.py:623-694 | Every substituted value, the condition included, is no longer than its maximum |
| Templates.NoneBeatsResolved | backend/app/services/lot_templates.py:303-314 | No applicable template beats the resolved one |
| Templates.ResolutionIsUnique | backend/app/services/lot_templates.py:280-314 | The order of the rows does not matter |
| Templates.IdsDecide | backend/app/services/lot_templates.py:303-314 | Of two templates with different ids exactly one beats the other |
| Templates.BeatsLaw | backend/app/services/lot_templates.py:303-314 | More of tier and scope named, then the tier, then an operator over the system, then the older id |
| Sales.OrderDoesNotMatter | backend/app/services/sale_registry.py:71-83 | Late, duplicated and reordered status events end in the same status |
| Sales.MostAdvancedWins | backend/app/services/sale_registry.py:63-83 | The stored status is the most advanced one ever seen in the order unknown, paid, completed, refunded: it is one of those seen, none of those is further, and it is refunded if and only if a refund was seen |
| Sales.MergeLaw | backend/app/services/sale_registry.py:63-83 | An event overwrites the stored status unless that is further in this order; a status without a place in it overwrites and is overwritten |
| Sales.SyncState.Cycle | backend/app/services/sale_registry.py:271-311 | A cycle advances the stored cursor only past pages it read, by the whole budget if nothing fails and the history has no loop; it stops earlier exactly at a failing page, which it reports and does not count, or at the end of the history |
| Sales.CompleteReadsAll | backend/app/services/sale_registry.py:309-311 | When the backfill calls itself complete no page was skipped, whatever failed and however often it was resumed |

## Left out

- Protocol.TouchedIsWritten: a stretch between two commits is one action, except where it decides on a row it does not hold locked, and a transaction that is rolled back did not happen; lock waiting, deadlocks, and SKIP LOCKED as anything but a free choice are not modelled, nor is the process-wide lock that keeps the scheduler and an operator retry from overlapping.
- ProtocolLaws.SchedulerPicks: the order's own retry date and the provenance in that query are free choices.
- Services.ClaimRefundRevoke: order, rental and account are distinct row objects found by their keys; how the rows are found, and two objects for one row, are not modelled.
- Services.DeliverToBoundary: provenance of the sale, measured limits, route health and the missing duration row are inputs; `Eligibility` models the limits and deadlines on their own.
- Services.SendCredentials: that a confirmed delivery is never claimed is about claims that read the row as it is; the operator claim that still holds an older row is `Retries.ConfirmedIsSentAgain`.
- Services.RetryRentalDelivery: the remote status check before the row locks is not modelled, and a refund it finds is the refund action.
- Services.AuthorizeCode: in the protocol a code is sent in the transaction that authorizes it; the claim before it is `Otp`, where authorization is an input.
- Leases.OneOwner: timestamps used as claims of one order are taken to be distinct, as the code takes them to be.
- Custody.CleanRelease: `revoke_rental`, operator edits of rental status and the deletion of accounts are excluded actions, since they end a rental without a logout.
- Attempts.AttemptLimit: the condition is that the claim is still stored, not the five minutes, because of `Retries.SeventhAttempt`; and that the operator claims before another attempt is counted, since its session holds an older row; the exact condition is `Attempts.LimitExactly`.
- Pool.Acquire: the order of the rows is that of the statement and is not derived from the sort keys.
- Templates.ParsesBack: field names with brackets and specifications with nested fields, which validation refuses, are parsed but not part of the round trip.
- Otp.OneCodePerStep: the clock does not run backwards, and the e-mail code that may accompany a time-based code is not modelled.
- CapacityLoop.NoLostRequest: the delays between retries and the contents of a reconciliation are not modelled here.
- Publication.Seller.PublishPeriodically: titles and price stay what they were and nobody else edits or deletes the marked offers; titles are taken as already normalized and the listing as complete.
- Reconciler.LotAutoManager.Run: every remote call succeeds, configuration keys identify lots, a matrix row meets no manual or deleted lot and lots on sale were published; the forced refresh of all published offers is not modelled.
- ChatMerge.Inbox.RebindBuyerChat: one atomic step, which locks its conversations but not their messages; which sales prove a conversation is a flag of the sale; profile fields and the redaction of codes in texts are not modelled.
- Unread.CountsExactly: the recount of a rebinding and the copies of a source id that the unique constraint rolls back are not among its actions.
- Eligibility.PickPassesDelivery: the three tests read the same rows at the same instant, and the re-check of a delivery that was attempted before is not part of it.
- Templates.AcceptedIsEnough: a description with `{days:}` is excluded for parts of a day; the exact condition is `Templates.EnoughExactly`. The wording of the bundled template is not modelled, only that it is accepted and does not use the deprecated field.
- Sales.SyncState.Cycle: the remote history does not change between cycles.
- The marketplace client, the browser logout, mailboxes, the messenger and the provider's HTTP interface are oracles that succeed, fail or time out.
- Encryption, sessions, keys, OAuth, proxy key files and the marker's regular expression: a marker is an opaque token.
- Retries of order notifications and the recovery of missed sales: their backoff is modelled, the rest adds easy members.
- API routers, migrations, schemas, message wording, logging, the front end, and audit rows other than code claims.
