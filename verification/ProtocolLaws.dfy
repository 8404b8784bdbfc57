/** What every action of the protocol does to every part of the state, by the laws of the rows and of the queue.

    Each law is a relation between the state before and the state after, and lists all that changed: which rows,
    which worker was entered or left, what left the building, which jobs were queued. */
module ProtocolLaws {
  import opened Rows
  import opened Transitions
  import opened JobQueue
  import opened Protocol
  import Law = RowLaws

  // ---- Tables -----------------------------------------------------------------------------------

  ghost function Stored(db: Tables, o: OrderId): Locked
    requires o in db.orders
  {
    Locked(db.orders[o],
           if o in db.rentals then Some(db.rentals[o]) else None,
           if o in db.rentals && db.rentals[o].account in db.accounts then Some(db.accounts[db.rentals[o].account]) else None)
  }

  /** The rows `y` replace those of the order; no other order, rental or account is written. */
  ghost predicate Writes(db: Tables, after: Tables, o: OrderId, y: Locked) {
    && after.orders == db.orders[o := y.order]
    && after.rentals == (if y.rental.Some? then db.rentals[o := y.rental.value] else db.rentals)
    && after.accounts == (if o in db.rentals && y.account.Some? then db.accounts[db.rentals[o].account := y.account.value] else db.accounts)
  }

  /** The rental of `o` occupies its account. */
  ghost predicate Keeps(db: Tables, o: OrderId, a: AccountId) {
    o in db.rentals && (db.rentals[o].status == Active || db.rentals[o].status == ExpiryPending) && db.rentals[o].account == a
  }

  /** On sale, occupied by and promised to no rental, and under no check. */
  ghost predicate Free(db: Tables, a: AccountId) {
    && a in db.accounts && db.accounts[a].status == Sellable && db.accounts[a].override.None?
    && (forall o :: o in db.rentals ==> !Keeps(db, o, a) && db.rentals[o].target != Some(a))
    && (forall k :: 0 <= k < |db.jobs| && db.jobs[k].account == a ==> db.jobs[k].status == Done || db.jobs[k].status == JobFailed)
  }

  /** The first candidate that is free and not excluded. */
  ghost predicate Picks(db: Tables, candidates: seq<AccountId>, excluded: Option<AccountId>, pick: Option<AccountId>) {
    match pick
    case None => forall i :: 0 <= i < |candidates| ==> !Free(db, candidates[i]) || excluded == Some(candidates[i])
    case Some(a) =>
      exists i :: 0 <= i < |candidates| && candidates[i] == a && Free(db, a) && excluded != Some(a)
                  && forall j :: 0 <= j < i ==> !Free(db, candidates[j]) || excluded == Some(candidates[j])
  }

  lemma FreeLaw(db: Tables, a: AccountId)
    ensures Allocatable(db, a) <==> Free(db, a)
  {
    if Free(db, a) {
      assert forall o :: o in db.rentals ==> !Keeps(db, o, a);
    }
    if Allocatable(db, a) {
      forall o | o in db.rentals
        ensures !Keeps(db, o, a) && db.rentals[o].target != Some(a)
      {
        assert !Holds(db.rentals[o], a);
      }
      forall k | 0 <= k < |db.jobs| && db.jobs[k].account == a
        ensures db.jobs[k].status == Done || db.jobs[k].status == JobFailed
      {
        assert !LiveFor(db.jobs[k], a);
      }
    }
  }

  lemma {:induction false} FirstFreeLaw(db: Tables, candidates: seq<AccountId>, excluded: Option<AccountId>)
    ensures Picks(db, candidates, excluded, Pick(db, candidates, excluded))
  {
    if candidates != [] {
      var rest := candidates[1..];
      FirstFreeLaw(db, rest, excluded);
      FreeLaw(db, candidates[0]);
      var pick := Pick(db, candidates, excluded);
      if Free(db, candidates[0]) && excluded != Some(candidates[0]) {
        assert pick == Some(candidates[0]);
      } else {
        assert pick == Pick(db, rest, excluded);
        if pick.None? {
          forall i | 0 <= i < |candidates|
            ensures !Free(db, candidates[i]) || excluded == Some(candidates[i])
          {
            if i > 0 {
              assert candidates[i] == rest[i - 1];
            }
          }
        } else {
          var i :| 0 <= i < |rest| && rest[i] == pick.value && Free(db, pick.value)
                   && forall j :: 0 <= j < i ==> !Free(db, rest[j]) || excluded == Some(rest[j]);
          assert candidates[i + 1] == pick.value;
          assert forall j :: 0 < j < i + 1 ==> candidates[j] == rest[j - 1];
        }
      }
    }
  }

  lemma StoredLaw(db: Tables, o: OrderId, y: Locked)
    requires o in db.orders
    ensures Load(db, o) == Stored(db, o) && Writes(db, Store(db, o, y), o, y) && Store(db, o, y).jobs == db.jobs
  {
  }

  // ---- Refund, expiry, replacement --------------------------------------------------------------

  ghost predicate StartsRefund(s: State, t: State, w: WorkerId, o: OrderId, verified: bool, now: Time)
    requires o in s.db.orders
  {
    exists y, answer ::
      && Law.RefundClaims(Stored(s.db, o), y, answer, verified, now) && Writes(s.db, t.db, o, y)
      && t == s.(db := t.db, stamps := s.stamps + {(o, now)},
                 workers := if answer == RefundClaimed
                            then s.workers[w := Revoker(Refund, Claim(o, s.db.rentals[o].account, now, None), ClaimHeld)] else s.workers)
      && t.db.jobs == s.db.jobs
  }

  lemma StartRefundLaw(s: State, w: WorkerId, o: OrderId, verified: bool, now: Time)
    requires o in s.db.orders
    ensures StartsRefund(s, StartRefund(s, w, o, verified, now), w, o, verified, now)
  {
    var (y, answer) := RefundClaim(Stored(s.db, o), verified, now);
    StoredLaw(s.db, o, y);
    Law.RefundClaimLaw(Stored(s.db, o), verified, now);
    assert Law.RefundClaims(Stored(s.db, o), y, answer, verified, now);
  }

  ghost predicate StartsExpiry(s: State, t: State, w: WorkerId, o: OrderId, verified: bool, now: Time)
    requires o in s.db.orders
  {
    exists y, claimed ::
      && Law.ExpiryClaims(Stored(s.db, o), y, claimed, verified, now) && Writes(s.db, t.db, o, y)
      && t == s.(db := t.db, stamps := s.stamps + {(o, now)},
                 workers := if claimed
                            then s.workers[w := Revoker(Expiry, Claim(o, s.db.rentals[o].account, now, None), ClaimHeld)] else s.workers)
      && t.db.jobs == s.db.jobs
  }

  lemma StartExpiryLaw(s: State, w: WorkerId, o: OrderId, verified: bool, now: Time)
    requires o in s.db.orders
    ensures StartsExpiry(s, StartExpiry(s, w, o, verified, now), w, o, verified, now)
  {
    var (y, claimed) := ExpiryClaim(Stored(s.db, o), verified, now);
    StoredLaw(s.db, o, y);
    Law.ExpiryClaimLaw(Stored(s.db, o), verified, now);
    assert Law.ExpiryClaims(Stored(s.db, o), y, claimed, verified, now);
  }

  /** The pool is asked after the rental's own reservation was given up, and for another account. */
  ghost function Unreserved(db: Tables, o: OrderId): Tables {
    if o in db.rentals then db.(rentals := db.rentals[o := db.rentals[o].(lease := None, target := None)]) else db
  }

  ghost predicate StartsReplacement(s: State, t: State, w: WorkerId, o: OrderId, found: bool, account: AccountId,
                                    candidates: seq<AccountId>, limit: nat, now: Time, later: Time)
    requires o in s.db.orders
  {
    exists pick, y, claimed ::
      && Picks(Unreserved(s.db, o), candidates, Some(account), pick)
      && Law.ReplaceClaims(Stored(s.db, o), y, claimed, found, account, pick, limit, now, later) && Writes(s.db, t.db, o, y)
      && t == s.(db := t.db, stamps := s.stamps + {(o, later)},
                 workers := if claimed then s.workers[w := Revoker(Replacement, Claim(o, account, later, pick), ClaimHeld)] else s.workers)
      && t.db.jobs == s.db.jobs
  }

  lemma StartReplacementLaw(s: State, w: WorkerId, o: OrderId, found: bool, account: AccountId,
                            candidates: seq<AccountId>, limit: nat, now: Time, later: Time)
    requires o in s.db.orders
    ensures StartsReplacement(s, StartReplacement(s, w, o, found, account, candidates, limit, now, later),
                              w, o, found, account, candidates, limit, now, later)
  {
    var pick := Pick(ReleasedTables(s.db, o), candidates, Some(account));
    FirstFreeLaw(Unreserved(s.db, o), candidates, Some(account));
    var (y, claimed) := ReplaceClaim(Stored(s.db, o), found, account, pick, limit, now, later);
    StoredLaw(s.db, o, y);
    Law.ReplaceClaimLaw(Stored(s.db, o), found, account, pick, limit, now, later);
    assert Law.ReplaceClaims(Stored(s.db, o), y, claimed, found, account, pick, limit, now, later);
  }

  /** A logout that took effect is an event of the claimed account; the worker remembers what it was told. */
  lemma LogOutLaw(s: State, w: WorkerId, effect: bool, success: bool)
    requires w in s.workers && s.workers[w].Revoker?
    ensures LogOut(s, w, effect, success)
            == s.(log := if effect then s.log + [LoggedOut(s.workers[w].claim.account)] else s.log,
                  workers := s.workers[w := Revoker(s.workers[w].kind, s.workers[w].claim, Kicked(success))])
  {
  }

  ghost predicate QueuesRecovery(jobs: seq<Job>, after: seq<Job>, a: AccountId, wanted: bool) {
    if wanted then Queues(jobs, after, a, RefreshRecover, RecoverRefresh) else after == jobs
  }

  lemma RecoveryLaw(db: Tables, a: AccountId)
    ensures WithRecovery(db, a) == db.(jobs := WithRecovery(db, a).jobs)
    ensures QueuesRecovery(db.jobs, WithRecovery(db, a).jobs, a, true)
  {
    EnqueuedLaw(db.jobs, a, RefreshRecover, RecoverRefresh);
  }

  /** After a successful logout the account goes to maintenance and a recovery check is queued; after a failed
      one the row is written if the transaction was kept. */
  ghost predicate SettlesExpiry(s: State, t: State, w: WorkerId, kept: bool)
    requires w in s.workers && s.workers[w].Revoker? && s.workers[w].stage.Kicked?
  {
    var a, success := s.workers[w].claim.account, s.workers[w].stage.success;
    && t == s.(db := t.db, workers := s.workers[w := Revoker(s.workers[w].kind, s.workers[w].claim, Recorded(success))])
    && t.db.orders == s.db.orders && t.db.rentals == s.db.rentals
    && t.db.accounts == (if (kept || success) && a in s.db.accounts then s.db.accounts[a := s.db.accounts[a].(status := Maintenance)]
                         else s.db.accounts)
    && QueuesRecovery(s.db.jobs, t.db.jobs, a, success)
  }

  lemma SettleExpiryLaw(s: State, w: WorkerId, kept: bool)
    requires w in s.workers && s.workers[w].Revoker? && s.workers[w].stage.Kicked?
    ensures SettlesExpiry(s, SettleExpiry(s, w, kept), w, kept)
  {
    RecoveryLaw(s.db, s.workers[w].claim.account);
  }

  ghost predicate EndsRefund(s: State, t: State, w: WorkerId)
    requires RevokerAt(s, w, Refund) && s.workers[w].stage.Kicked?
  {
    var claim := s.workers[w].claim;
    exists y, ended ::
      && Law.RefundEnds(Stored(s.db, claim.order), y, ended, claim, s.workers[w].stage.success) && Writes(s.db, t.db, claim.order, y)
      && t == s.(db := t.db, workers := s.workers - {w})
      && QueuesRecovery(s.db.jobs, t.db.jobs, claim.account, ended)
  }

  lemma FinishRefundLaw(s: State, w: WorkerId)
    requires RevokerAt(s, w, Refund) && s.workers[w].stage.Kicked?
    ensures EndsRefund(s, FinishRefund(s, w), w)
  {
    var claim, success := s.workers[w].claim, s.workers[w].stage.success;
    var (y, ended) := RefundFinalize(Stored(s.db, claim.order), claim, success);
    StoredLaw(s.db, claim.order, y);
    RecoveryLaw(Store(s.db, claim.order, y), claim.account);
    Law.RefundFinalizeLaw(Stored(s.db, claim.order), claim, success);
    assert Law.RefundEnds(Stored(s.db, claim.order), y, ended, claim, success);
  }

  ghost predicate EndsExpiry(s: State, t: State, w: WorkerId)
    requires RevokerAt(s, w, Expiry) && s.workers[w].stage.Recorded?
  {
    var claim := s.workers[w].claim;
    exists y ::
      && Law.ExpiryEnds(Stored(s.db, claim.order), y, claim, s.workers[w].stage.success) && Writes(s.db, t.db, claim.order, y)
      && t == s.(db := t.db, workers := s.workers - {w}) && t.db.jobs == s.db.jobs
  }

  lemma FinishExpiryLaw(s: State, w: WorkerId)
    requires RevokerAt(s, w, Expiry) && s.workers[w].stage.Recorded?
    ensures EndsExpiry(s, FinishExpiry(s, w), w)
  {
    var claim, success := s.workers[w].claim, s.workers[w].stage.success;
    var y := ExpiryFinalize(Stored(s.db, claim.order), claim, success);
    StoredLaw(s.db, claim.order, y);
    Law.ExpiryFinalizeLaw(Stored(s.db, claim.order), claim, success);
    assert Law.ExpiryEnds(Stored(s.db, claim.order), y, claim, success);
  }

  /** A switch to an account that another rental occupies is rolled back as a whole.  A switch that stays queues
      a recovery check of the account left behind, and the worker goes on to deliver the new one. */
  ghost predicate EndsReplacementBy(s: State, t: State, w: WorkerId, y: Locked, switched: bool,
                                    found: bool, limit: nat, now: Time, stamp: Time)
    requires RevokerAt(s, w, Replacement) && s.workers[w].stage.Kicked?
  {
    var claim := s.workers[w].claim;
    var target := if claim.target.Some? && claim.target.value in s.db.accounts then Some(s.db.accounts[claim.target.value]) else None;
    && Law.ReplaceEnds(Stored(s.db, claim.order), y, switched, claim, found, s.workers[w].stage.success, target, limit, now, stamp)
    && var clash := switched && exists p :: p in s.db.rentals && p != claim.order && Keeps(s.db, p, claim.target.value);
    && Writes(s.db, t.db, claim.order, if clash then Stored(s.db, claim.order) else y)
    && t == s.(db := t.db, stamps := s.stamps + {(claim.order, stamp)},
               workers := if switched && !clash then s.workers[w := Courier(claim.order, Claimed(stamp))] else s.workers - {w})
    && QueuesRecovery(s.db.jobs, t.db.jobs, claim.account, switched && !clash)
  }

  ghost predicate EndsReplacement(s: State, t: State, w: WorkerId, found: bool, limit: nat, now: Time, stamp: Time)
    requires RevokerAt(s, w, Replacement) && s.workers[w].stage.Kicked?
  {
    exists y, switched :: EndsReplacementBy(s, t, w, y, switched, found, limit, now, stamp)
  }

  lemma TakenLaw(db: Tables, o: OrderId, a: AccountId)
    ensures Taken(db, o, a) <==> exists p :: p in db.rentals && p != o && Keeps(db, p, a)
  {
    if p :| p in db.rentals && p != o && Keeps(db, p, a) {
      assert Occupies(db.rentals[p], a);
    }
    if Taken(db, o, a) {
      var p :| p in db.rentals && p != o && Occupies(db.rentals[p], a);
      assert Keeps(db, p, a);
    }
  }

  lemma FinishReplacementLaw(s: State, w: WorkerId, found: bool, limit: nat, now: Time, stamp: Time)
    requires RevokerAt(s, w, Replacement) && s.workers[w].stage.Kicked?
    ensures EndsReplacement(s, FinishReplacement(s, w, found, limit, now, stamp), w, found, limit, now, stamp)
  {
    var claim, success := s.workers[w].claim, s.workers[w].stage.success;
    var o := claim.order;
    var target := if claim.target.Some? then RowOf(s.db.accounts, claim.target.value) else None;
    var (y, switched) := ReplaceFinalize(Stored(s.db, o), claim, found, success, target, limit, now, stamp);
    Law.ReplaceFinalizeLaw(Stored(s.db, o), claim, found, success, target, limit, now, stamp);
    assert Law.ReplaceEnds(Stored(s.db, o), y, switched, claim, found, success, target, limit, now, stamp);
    if switched {
      TakenLaw(s.db, o, claim.target.value);
    }
    var x := Switch(s, w, found, limit, now, stamp).0;
    StoredLaw(s.db, o, x);
    RecoveryLaw(Store(s.db, o, x), claim.account);
    assert EndsReplacementBy(s, FinishReplacement(s, w, found, limit, now, stamp), w, y, switched, found, limit, now, stamp);
  }

  ghost predicate Revokes(s: State, t: State, a: Action)
    requires Revoking(a) && Enabled(s, a)
  {
    match a
    case RefundStart(w, o, verified, now) => StartsRefund(s, t, w, o, verified, now)
    case ExpiryStart(w, o, verified, now) => StartsExpiry(s, t, w, o, verified, now)
    case ReplaceStart(w, o, found, account, candidates, limit, now, later) =>
      StartsReplacement(s, t, w, o, found, account, candidates, limit, now, later)
    case Kick(w, effect, success) =>
      t == s.(log := if effect then s.log + [LoggedOut(s.workers[w].claim.account)] else s.log,
              workers := s.workers[w := Revoker(s.workers[w].kind, s.workers[w].claim, Kicked(success))])
    case RefundFinish(w) => EndsRefund(s, t, w)
    case ExpiryFinish(w) => EndsExpiry(s, t, w)
    case ReplaceFinish(w, found, limit, now, stamp) => EndsReplacement(s, t, w, found, limit, now, stamp)
  }

  /** A claim enters its worker, a logout is recorded, and a worker that ends releases, moves and queues what
      its own transaction decided, and nothing else. */
  lemma RevokingLaw(s: State, a: Action)
    requires Enabled(s, a) && Revoking(a)
    ensures Revokes(s, RevokingStep(s, a), a)
  {
    match a
    case RefundStart(w, o, verified, now) => StartRefundLaw(s, w, o, verified, now);
    case ExpiryStart(w, o, verified, now) => StartExpiryLaw(s, w, o, verified, now);
    case ReplaceStart(w, o, found, account, candidates, limit, now, later) =>
      StartReplacementLaw(s, w, o, found, account, candidates, limit, now, later);
    case Kick(w, effect, success) => LogOutLaw(s, w, effect, success);
    case RefundFinish(w) => FinishRefundLaw(s, w);
    case ExpiryFinish(w) => FinishExpiryLaw(s, w);
    case ReplaceFinish(w, found, limit, now, stamp) => FinishReplacementLaw(s, w, found, limit, now, stamp);
  }

  // ---- Codes and credentials --------------------------------------------------------------------

  ghost predicate SaysCode(s: State, t: State, o: OrderId, found: bool, account: AccountId, now: Time)
    requires o in s.db.orders
  {
    exists y, authorized ::
      && Law.AuthorizesCode(Stored(s.db, o), y, authorized, found, account, now) && Writes(s.db, t.db, o, y)
      && t == s.(db := t.db, log := if authorized then s.log + [Code(o, account)] else s.log) && t.db.jobs == s.db.jobs
  }

  lemma SayCodeLaw(s: State, o: OrderId, found: bool, account: AccountId, now: Time)
    requires o in s.db.orders
    ensures SaysCode(s, SayCode(s, o, found, account, now), o, found, account, now)
  {
    var (y, authorized) := CodeAuthorization(Stored(s.db, o), found, account, now);
    StoredLaw(s.db, o, y);
    Law.CodeLaw(Stored(s.db, o), found, account, now);
    assert Law.AuthorizesCode(Stored(s.db, o), y, authorized, found, account, now);
  }

  /** A verified fulfillable order gets its rental exactly if the pool has an account. */
  ghost predicate AllocatesFirst(s: State, t: State, w: WorkerId, o: OrderId, verified: bool, candidates: seq<AccountId>, now: Time)
    requires o in s.db.orders
  {
    exists pick ::
      && Picks(s.db, candidates, None, pick)
      && var served := verified && Law.OutsideRefund(s.db.orders[o]) && pick.Some?;
      && t == s.(db := t.db, stamps := s.stamps + {(o, now)}, workers := if served then s.workers[w := Courier(o, Claimed(now))] else s.workers)
      && t.db == s.db.(rentals := t.db.rentals)
      && (served ==> o in t.db.rentals && t.db.rentals == s.db.rentals[o := t.db.rentals[o]]
                        && Law.Allocates(s.db.orders[o], pick.value, t.db.rentals[o], now))
      && (!served ==> t.db.rentals == s.db.rentals)
  }

  lemma FirstAllocationLaw(s: State, w: WorkerId, o: OrderId, verified: bool, candidates: seq<AccountId>, now: Time)
    requires o in s.db.orders
    ensures AllocatesFirst(s, FirstAllocation(s, w, o, verified, candidates, now), w, o, verified, candidates, now)
  {
    FirstFreeLaw(s.db, candidates, None);
    Law.AllocateLaw(s.db.orders[o], verified, Pick(s.db, candidates, None), now);
    assert Picks(s.db, candidates, None, Pick(s.db, candidates, None));
  }

  ghost predicate StartsDelivery(s: State, t: State, w: WorkerId, o: OrderId, verified: bool, now: Time)
    requires o in s.db.orders
  {
    exists y, claimed ::
      && Law.ClaimsDelivery(Stored(s.db, o), y, claimed, verified, now) && Writes(s.db, t.db, o, y)
      && t == s.(db := t.db, stamps := s.stamps + {(o, now)}, workers := if claimed then s.workers[w := Courier(o, Claimed(now))] else s.workers)
      && t.db.jobs == s.db.jobs
  }

  lemma StartDeliveryLaw(s: State, w: WorkerId, o: OrderId, verified: bool, now: Time)
    requires o in s.db.orders
    ensures StartsDelivery(s, StartDelivery(s, w, o, verified, now), w, o, verified, now)
  {
    var (y, claimed) := ClaimDelivery(Stored(s.db, o), verified, now);
    StoredLaw(s.db, o, y);
    Law.ClaimDeliveryLaw(Stored(s.db, o), verified, now);
    assert Law.ClaimsDelivery(Stored(s.db, o), y, claimed, verified, now);
  }

  /** The courier goes on to the boundary of its attempt, to the exchanged account, or ends. */
  ghost function WorkersAfter(s: State, w: WorkerId, o: OrderId, at: Time, answer: BoundaryAnswer): map<WorkerId, Worker> {
    if answer.Bound? then s.workers[w := Courier(o, AtBoundary(answer.account, answer.attempt))]
    else if answer.Moved? then s.workers[w := Courier(o, Relocated(at, answer.account))]
    else s.workers - {w}
  }

  ghost predicate ReachesBoundary(s: State, t: State, w: WorkerId, verified: bool, limitsOk: bool, candidates: seq<AccountId>, now: Time)
    requires CourierIn(s, w) && s.workers[w].courier.Claimed?
  {
    var o := s.workers[w].order;
    exists pick, y, answer ::
      && Picks(s.db, candidates, if o in s.db.rentals then Some(s.db.rentals[o].account) else None, pick)
      && Law.Binds(Stored(s.db, o), y, answer, verified, limitsOk, pick, now) && Writes(s.db, t.db, o, y)
      && t == s.(db := t.db, stamps := s.stamps + {(o, now)}, workers := WorkersAfter(s, w, o, s.workers[w].courier.at, answer))
      && t.db.jobs == s.db.jobs
  }

  lemma ToBoundaryLaw(s: State, w: WorkerId, verified: bool, limitsOk: bool, candidates: seq<AccountId>, now: Time)
    requires CourierIn(s, w) && s.workers[w].courier.Claimed?
    ensures ReachesBoundary(s, ToBoundary(s, w, verified, limitsOk, candidates, now), w, verified, limitsOk, candidates, now)
  {
    var o := s.workers[w].order;
    var current := if o in s.db.rentals then Some(s.db.rentals[o].account) else None;
    var pick := Pick(s.db, candidates, current);
    FirstFreeLaw(s.db, candidates, current);
    var (y, answer) := Boundary(Stored(s.db, o), verified, limitsOk, pick, now);
    StoredLaw(s.db, o, y);
    Law.BoundaryLaw(Stored(s.db, o), verified, limitsOk, pick, now);
    assert Law.Binds(Stored(s.db, o), y, answer, verified, limitsOk, pick, now);
  }

  ghost predicate ReachesBoundaryAgain(s: State, t: State, w: WorkerId, verified: bool, limitsOk: bool, now: Time)
    requires CourierIn(s, w) && s.workers[w].courier.Relocated?
  {
    var o := s.workers[w].order;
    exists y, answer ::
      && Law.BindsMoved(Stored(s.db, o), y, answer, verified, limitsOk, s.workers[w].courier.account, now) && Writes(s.db, t.db, o, y)
      && t == s.(db := t.db, stamps := s.stamps + {(o, now)}, workers := WorkersAfter(s, w, o, s.workers[w].courier.at, answer))
      && t.db.jobs == s.db.jobs
  }

  lemma ToBoundaryAgainLaw(s: State, w: WorkerId, verified: bool, limitsOk: bool, now: Time)
    requires CourierIn(s, w) && s.workers[w].courier.Relocated?
    ensures ReachesBoundaryAgain(s, ToBoundaryAgain(s, w, verified, limitsOk, now), w, verified, limitsOk, now)
  {
    var o, expected := s.workers[w].order, s.workers[w].courier.account;
    var (y, answer) := BoundaryAfterMove(Stored(s.db, o), verified, limitsOk, expected, now);
    StoredLaw(s.db, o, y);
    Law.BoundaryAfterMoveLaw(Stored(s.db, o), verified, limitsOk, expected, now);
    assert Law.BindsMoved(Stored(s.db, o), y, answer, verified, limitsOk, expected, now);
  }

  /** Credentials leave the building exactly when the law of the send says so, with the account, the template and
      the number of the bound attempt. */
  ghost predicate SendsCredentials(s: State, t: State, w: WorkerId, verified: bool, limitsOk: bool, outcome: SendOutcome, now: Time)
    requires CourierIn(s, w) && s.workers[w].courier.AtBoundary?
  {
    var o, stage := s.workers[w].order, s.workers[w].courier;
    exists y, sent ::
      && Law.Sends(Stored(s.db, o), y, sent, verified, limitsOk, stage.account, stage.attempt, outcome, now) && Writes(s.db, t.db, o, y)
      && t == s.(db := t.db, workers := s.workers - {w},
                 log := if sent then s.log + [Credentials(o, stage.account, s.db.rentals[o].template, stage.attempt)] else s.log)
      && t.db.jobs == s.db.jobs
  }

  lemma SendNowLaw(s: State, w: WorkerId, verified: bool, limitsOk: bool, outcome: SendOutcome, now: Time)
    requires CourierIn(s, w) && s.workers[w].courier.AtBoundary?
    ensures SendsCredentials(s, SendNow(s, w, verified, limitsOk, outcome, now), w, verified, limitsOk, outcome, now)
  {
    var o, stage := s.workers[w].order, s.workers[w].courier;
    var (y, sent) := Send(Stored(s.db, o), verified, limitsOk, stage.account, stage.attempt, outcome, now);
    StoredLaw(s.db, o, y);
    Law.SendLaw(Stored(s.db, o), verified, limitsOk, stage.account, stage.attempt, outcome, now);
    assert Law.Sends(Stored(s.db, o), y, sent, verified, limitsOk, stage.account, stage.attempt, outcome, now);
  }

  ghost predicate Delivers(s: State, t: State, a: Action)
    requires Delivering(a) && Enabled(s, a)
  {
    match a
    case SendCode(o, found, account, now) => SaysCode(s, t, o, found, account, now)
    case Allocate(w, o, verified, candidates, now) => AllocatesFirst(s, t, w, o, verified, candidates, now)
    case DeliveryStart(w, o, verified, now) => StartsDelivery(s, t, w, o, verified, now)
    case ReachBoundary(w, verified, limitsOk, candidates, now) => ReachesBoundary(s, t, w, verified, limitsOk, candidates, now)
    case ReachBoundaryAgain(w, verified, limitsOk, now) => ReachesBoundaryAgain(s, t, w, verified, limitsOk, now)
    case Disclose(w, verified, limitsOk, outcome, now) => SendsCredentials(s, t, w, verified, limitsOk, outcome, now)
  }

  lemma DeliveringLaw(s: State, a: Action)
    requires Enabled(s, a) && Delivering(a)
    ensures Delivers(s, DeliveringStep(s, a), a)
  {
    match a
    case SendCode(o, found, account, now) => SayCodeLaw(s, o, found, account, now);
    case Allocate(w, o, verified, candidates, now) => FirstAllocationLaw(s, w, o, verified, candidates, now);
    case DeliveryStart(w, o, verified, now) => StartDeliveryLaw(s, w, o, verified, now);
    case ReachBoundary(w, verified, limitsOk, candidates, now) => ToBoundaryLaw(s, w, verified, limitsOk, candidates, now);
    case ReachBoundaryAgain(w, verified, limitsOk, now) => ToBoundaryAgainLaw(s, w, verified, limitsOk, now);
    case Disclose(w, verified, limitsOk, outcome, now) => SendNowLaw(s, w, verified, limitsOk, outcome, now);
  }

  // ---- The queue --------------------------------------------------------------------------------

  ghost predicate QueuesJobs(jobs: seq<Job>, after: seq<Job>, a: Action)
    requires Queueing(a) && (a.JobStart? ==> a.k < |jobs|) && (a.JobFinish? ==> a.k < |jobs|)
  {
    match a
    case JobEnqueue(account, priority, kind) => Queues(jobs, after, account, priority, kind)
    case JobExclusive(account, priority, kind, now) =>
      if Leased(jobs, account, now) then after == jobs else TakesOver(jobs, after, account, priority, kind)
    case JobStart(k, now) => after == jobs[k := jobs[k].(status := Running, startedAt := Some(now))]
    case JobFinish(k, ok) => after == jobs[k := jobs[k].(status := if ok then Done else JobFailed)]
    case JobRecover(locked, kinds, cutoff) => Recovers(jobs, after, locked, kinds, cutoff)
    case JobFail(locked, kinds) => Fails(jobs, after, locked, kinds)
  }

  lemma QueueingLaw(s: State, a: Action)
    requires Enabled(s, a) && Queueing(a)
    ensures QueueingStep(s, a) == s.(db := s.db.(jobs := QueueingStep(s, a).db.jobs))
    ensures QueuesJobs(s.db.jobs, QueueingStep(s, a).db.jobs, a)
  {
    var jobs := s.db.jobs;
    match a
    case JobEnqueue(account, priority, kind) => EnqueuedLaw(jobs, account, priority, kind);
    case JobExclusive(account, priority, kind, now) =>
      ConflictsLaw(jobs, account, now);
      ExclusiveLaw(jobs, account, priority, kind);
    case JobStart(k, now) => OneJobLaw(jobs, k, now, true);
    case JobFinish(k, ok) => OneJobLaw(jobs, k, 0, ok);
    case JobRecover(locked, kinds, cutoff) => RecoveredLaw(jobs, locked, kinds, cutoff);
    case JobFail(locked, kinds) => AllFailedLaw(jobs, locked, kinds);
  }

  // ---- Reads without a lock and the writes that rest on them --------------------------------------

  /** The status of one order as a late writer leaves it. */
  ghost predicate LateWrites(s: State, t: State, a: Action)
    requires Enabled(s, a) && (a.PreviewWrite? || a.RetryComplete?)
  {
    var o := s.workers[a.w].order;
    var status := s.db.orders[o].status;
    && t == s.(db := t.db, workers := s.workers - {a.w}, orderly := s.orderly && Disciplined(s, a))
    && t.db == s.db.(orders := s.db.orders[o := s.db.orders[o].(status :=
         if a.RetryComplete? then (if s.workers[a.w].found == Some(Completed) then status else Completed)
         else if a.remote == RemoteRefunded && (s.workers[a.w].seen == Pending || s.workers[a.w].seen == Completed) then RefundPending
         else if a.remote == RemoteCompleted && s.workers[a.w].seen == Pending then Completed
         else status)])
  }

  lemma LateWriteLaw(s: State, a: Action)
    requires Enabled(s, a) && (a.PreviewWrite? || a.RetryComplete?)
    ensures LateWrites(s, RememberingStep(s, a), a)
  {
    if a.PreviewWrite? {
      Law.StageOverLaw(s.db.orders[s.workers[a.w].order], s.workers[a.w].seen, a.remote);
    }
  }

  ghost predicate ClaimsForOperator(s: State, t: State, w: WorkerId, verified: bool, now: Time)
    requires w in s.workers && s.workers[w].Operator? && s.workers[w].order in s.db.orders
  {
    var o := s.workers[w].order;
    exists y, claimed ::
      && Law.ClaimsOnMemory(Stored(s.db, o), y, claimed, s.workers[w].read, verified, now) && Writes(s.db, t.db, o, y)
      && t == s.(db := t.db, stamps := s.stamps + {(o, now)},
                 workers := if claimed then s.workers[w := Courier(o, Claimed(now))] else s.workers - {w})
      && t.db.jobs == s.db.jobs
  }

  lemma OperatorClaimsLaw(s: State, w: WorkerId, verified: bool, now: Time)
    requires w in s.workers && s.workers[w].Operator? && s.workers[w].order in s.db.orders
    ensures ClaimsForOperator(s, OperatorClaims(s, w, verified, now), w, verified, now)
  {
    var o, read := s.workers[w].order, s.workers[w].read;
    var (y, claimed) := ClaimRemembered(Stored(s.db, o), read, verified, now);
    StoredLaw(s.db, o, y);
    Law.ClaimRememberedLaw(Stored(s.db, o), read, verified, now);
    assert Law.ClaimsOnMemory(Stored(s.db, o), y, claimed, read, verified, now);
  }

  /** The late write of a command sets the status alone, and is rolled back if another rental occupies the
      account by now. */
  ghost predicate ClosesLate(s: State, t: State, w: WorkerId)
    requires CommanderIn(s, w)
  {
    var o := s.workers[w].order;
    var r := s.db.rentals[o];
    && t == s.(db := t.db, workers := s.workers - {w})
    && t.db == s.db.(rentals := if exists p :: p in s.db.rentals && p != o && Keeps(s.db, p, r.account) then s.db.rentals
                                else s.db.rentals[o := r.(status := ExpiryPending)])
  }

  lemma CheckWriteLaw(s: State, w: WorkerId)
    requires CommanderIn(s, w) && s.workers[w].due.Some?
    ensures ClosesLate(s, RememberingStep(s, CheckWrite(w)), w)
  {
    var o := s.workers[w].order;
    TakenLaw(s.db, o, s.db.rentals[o].account);
    StoredLaw(s.db, o, Closed(s.db, o));
    assert s.db.rentals[o := s.db.rentals[o]] == s.db.rentals;
    assert RememberingStep(s, CheckWrite(w)).db.accounts == s.db.accounts;
  }

  predicate Reading(a: Action) {
    a.PreviewRead? || a.RetryPick? || a.RetryFound? || a.CheckRead? || a.CheckDecide? || a.PollRead? || a.CancelRead?
  }

  /** The reads enter a worker with what it saw; a command that saw no overdue rental ends there. */
  ghost predicate Reads(s: State, t: State, a: Action)
    requires Reading(a) && Enabled(s, a)
  {
    match a
    case PreviewRead(w, o) => t == s.(workers := s.workers[w := SaleReader(o, s.db.orders[o].status)])
    case RetryPick(w, o, _) => t == s.(workers := s.workers[w := Retrier(o, None)])
    case RetryFound(w) =>
      t == s.(workers := s.workers[w := Retrier(s.workers[w].order, Some(s.db.orders[s.workers[w].order].status))])
    case CheckRead(w, o) => t == s.(workers := s.workers[w := Commander(o, s.db.rentals[o], None)])
    case CheckDecide(w, now) =>
      var o, read := s.workers[w].order, s.workers[w].read;
      t == s.(workers := if read.delivery == Sent && read.status == Active && Law.OutsideRefund(s.db.orders[o]) && read.expiresAt <= now
                         then s.workers[w := Commander(o, read, Some(now))] else s.workers - {w})
    case PollRead(w, k) => t == s.(workers := s.workers[w := Poller(k)])
    case CancelRead(w, k) => t == s.(workers := s.workers[w := Canceller(k)])
  }

  lemma ReadingLaw(s: State, a: Action)
    requires Enabled(s, a) && Reading(a)
    ensures Reads(s, Step(s, a), a)
  {
    if a.CheckDecide? {
      Law.DecidesExpiryLaw(s.db.orders[s.workers[a.w].order], s.workers[a.w].read, a.now);
    }
  }

  ghost predicate WritesLate(s: State, t: State, a: Action)
    requires Remembering(a) && !Reading(a) && Enabled(s, a)
  {
    match a
    case PreviewWrite(_, _) => LateWrites(s, t, a)
    case RetryComplete(_) => LateWrites(s, t, a)
    case OperatorStart(w, verified, now) => ClaimsForOperator(s, t, w, verified, now)
    case CheckWrite(w) => ClosesLate(s, t, w)
    case PollWrite(w, now) =>
      var k := s.workers[w].job;
      t == s.(workers := s.workers - {w}, db := s.db.(jobs := s.db.jobs[k := s.db.jobs[k].(status := Running, startedAt := Some(now))]))
    case CancelWrite(w) =>
      var k := s.workers[w].job;
      t == s.(workers := s.workers - {w}, db := s.db.(jobs := s.db.jobs[k := s.db.jobs[k].(status := Queued, startedAt := None)]))
  }

  lemma WritingLateLaw(s: State, a: Action)
    requires Enabled(s, a) && Remembering(a) && !Reading(a)
    ensures WritesLate(s, Step(s, a), a)
  {
    if a.PreviewWrite? || a.RetryComplete? {
      LateWriteLaw(s, a);
    } else if a.OperatorStart? {
      OperatorClaimsLaw(s, a.w, a.verified, a.now);
    } else if a.CheckWrite? {
      CheckWriteLaw(s, a.w);
    }
  }

  // ---- The other actions ------------------------------------------------------------------------

  ghost predicate StartsNotification(s: State, t: State, w: WorkerId, o: OrderId, verified: bool, now: Time)
    requires o in s.db.orders
  {
    exists y, claimed ::
      && Law.NotifyClaims(Stored(s.db, o), y, claimed, verified, now) && Writes(s.db, t.db, o, y)
      && t == s.(db := t.db, stamps := s.stamps + {(o, now)}, workers := if claimed then s.workers[w := Notifier(o, now)] else s.workers)
      && t.db.jobs == s.db.jobs
  }

  lemma StartNotificationLaw(s: State, w: WorkerId, o: OrderId, verified: bool, now: Time)
    requires o in s.db.orders
    ensures StartsNotification(s, StartNotification(s, w, o, verified, now), w, o, verified, now)
  {
    var (y, claimed) := NotifyClaim(Stored(s.db, o), verified, now);
    StoredLaw(s.db, o, y);
    Law.NotifyClaimLaw(Stored(s.db, o), verified, now);
    assert Law.NotifyClaims(Stored(s.db, o), y, claimed, verified, now);
  }

  ghost predicate EndsNotification(s: State, t: State, w: WorkerId, delivered: bool, now: Time)
    requires w in s.workers && s.workers[w].Notifier? && s.workers[w].order in s.db.orders
  {
    var o := s.workers[w].order;
    exists y ::
      && Law.NotifyEnds(Stored(s.db, o), y, s.workers[w].at, delivered, now) && Writes(s.db, t.db, o, y)
      && t == s.(db := t.db, workers := s.workers - {w}) && t.db.jobs == s.db.jobs
  }

  lemma NotifyFinishLaw(s: State, w: WorkerId, delivered: bool, now: Time)
    requires Enabled(s, NotifyFinish(w, delivered, now))
    ensures EndsNotification(s, RecordingStep(s, NotifyFinish(w, delivered, now)), w, delivered, now)
  {
    var o, at := s.workers[w].order, s.workers[w].at;
    var y := NotifyFinalize(Stored(s.db, o), at, delivered, now);
    StoredLaw(s.db, o, y);
    Law.NotifyFinalizeLaw(Stored(s.db, o), at, delivered, now);
    assert Law.NotifyEnds(Stored(s.db, o), y, at, delivered, now);
  }

  ghost predicate Releases(s: State, t: State, o: OrderId, expected: Option<AccountId>, seenLease: Option<Time>,
                           seenTarget: AccountId, now: Time)
    requires o in s.db.orders
  {
    exists y, released ::
      && Law.ReleasesReservation(Stored(s.db, o), y, released, expected, seenLease, seenTarget, now) && Writes(s.db, t.db, o, y)
      && t == s.(db := t.db) && t.db.jobs == s.db.jobs
  }

  lemma ReleaseStepLaw(s: State, o: OrderId, expected: Option<AccountId>, seenLease: Option<Time>, seenTarget: AccountId, now: Time)
    requires Enabled(s, Release(o, expected, seenLease, seenTarget, now))
    ensures Releases(s, RecordingStep(s, Release(o, expected, seenLease, seenTarget, now)), o, expected, seenLease, seenTarget, now)
  {
    var (y, released) := ReleaseReservation(Stored(s.db, o), expected, seenLease, seenTarget, now);
    StoredLaw(s.db, o, y);
    Law.ReleaseLaw(Stored(s.db, o), expected, seenLease, seenTarget, now);
    assert Law.ReleasesReservation(Stored(s.db, o), y, released, expected, seenLease, seenTarget, now);
  }

  /** A reset enters the operator's session with the row as the reset left it; one that met six or more
      attempts marks the order as turned back. */
  ghost predicate ResetsForOperator(s: State, t: State, w: WorkerId, o: OrderId, verified: bool, now: Time)
    requires o in s.db.orders
  {
    exists y, reset ::
      && Law.OperatorResets(Stored(s.db, o), y, reset, verified, now) && Writes(s.db, t.db, o, y)
      && t == s.(db := t.db, workers := if reset then s.workers[w := Operator(o, y.rental.value)] else s.workers,
                 lowered := if reset && s.db.rentals[o].attempts >= 6 then s.lowered + {o} else s.lowered)
      && t.db.jobs == s.db.jobs
  }

  lemma OperatorResetsLaw(s: State, w: WorkerId, o: OrderId, verified: bool, now: Time)
    requires o in s.db.orders
    ensures ResetsForOperator(s, OperatorResets(s, w, o, verified, now), w, o, verified, now)
  {
    var (y, reset) := OperatorRetry(Stored(s.db, o), verified, now);
    StoredLaw(s.db, o, y);
    Law.OperatorRetryLaw(Stored(s.db, o), verified, now);
    assert Law.OperatorResets(Stored(s.db, o), y, reset, verified, now);
  }

  ghost predicate Records(s: State, t: State, a: Action)
    requires Recording(a) && Enabled(s, a)
  {
    match a
    case NewOrder(o, remote, minutes, tier) =>
      t == s.(db := s.db.(orders := s.db.orders[o := Order(
        if remote == RemoteRefunded then Refunded else if remote == RemoteCompleted then Completed else Pending, minutes, tier)]))
    case Close(o) =>
      t == s.(db := s.db.(orders := s.db.orders[o := s.db.orders[o].(status :=
        if s.db.orders[o].status == RefundPending then RefundPending else if s.db.orders[o].status == Refunded then Refunded else Completed)]))
    case ExpirySettle(w, kept) => SettlesExpiry(s, t, w, kept)
    case NotifyStart(w, o, verified, now) => StartsNotification(s, t, w, o, verified, now)
    case NotifyFinish(w, delivered, now) => EndsNotification(s, t, w, delivered, now)
    case Release(o, expected, seenLease, seenTarget, now) => Releases(s, t, o, expected, seenLease, seenTarget, now)
    case RetryByOperator(w, o, verified, now) => ResetsForOperator(s, t, w, o, verified, now)
    case AccountWrite(account, row) =>
      t == s.(db := s.db.(accounts := s.db.accounts[account := row]), orderly := s.orderly && Disciplined(s, a))
    case Crash(w) => t == s.(workers := s.workers - {w})
  }

  lemma RecordingLaw(s: State, a: Action)
    requires Enabled(s, a) && Recording(a)
    ensures Records(s, RecordingStep(s, a), a)
  {
    match a
    case ExpirySettle(w, kept) => SettleExpiryLaw(s, w, kept);
    case NotifyStart(w, o, verified, now) => StartNotificationLaw(s, w, o, verified, now);
    case NotifyFinish(w, delivered, now) => NotifyFinishLaw(s, w, delivered, now);
    case Release(o, expected, seenLease, seenTarget, now) => ReleaseStepLaw(s, o, expected, seenLease, seenTarget, now);
    case RetryByOperator(w, o, verified, now) => OperatorResetsLaw(s, w, o, verified, now);
    case NewOrder(_, remote, _, _) => Law.NewOrderLaw(remote);
    case Close(o) => Law.CloseSaleLaw(s.db.orders[o]);
    case _ =>
  }

  // ---- The whole protocol -----------------------------------------------------------------------

  ghost predicate Follows(s: State, t: State, a: Action)
    requires Enabled(s, a)
  {
    if Revoking(a) then Revokes(s, t, a)
    else if Delivering(a) then Delivers(s, t, a)
    else if Queueing(a) then t == s.(db := s.db.(jobs := t.db.jobs)) && QueuesJobs(s.db.jobs, t.db.jobs, a)
    else if Reading(a) then Reads(s, t, a)
    else if Remembering(a) then WritesLate(s, t, a)
    else Records(s, t, a)
  }

  lemma RevokingFollows(s: State, a: Action)
    requires Enabled(s, a) && (Revoking(a) || Delivering(a))
    ensures Follows(s, Step(s, a), a)
  {
    if Revoking(a) {
      RevokingLaw(s, a);
    } else {
      DeliveringLaw(s, a);
    }
  }

  lemma RecordingFollows(s: State, a: Action)
    requires Enabled(s, a) && Recording(a)
    ensures Follows(s, Step(s, a), a)
  {
    RecordingLaw(s, a);
  }

  /** In every state every action does what its law says. */
  lemma StepLaw(s: State, a: Action)
    requires Enabled(s, a)
    ensures Follows(s, Step(s, a), a)
  {
    if Revoking(a) || Delivering(a) {
      RevokingFollows(s, a);
    } else if Queueing(a) {
      QueueingLaw(s, a);
    } else if Reading(a) {
      ReadingLaw(s, a);
    } else if Remembering(a) {
      WritingLateLaw(s, a);
    } else {
      RecordingFollows(s, a);
    }
  }

  /** Which orders the scheduler picks: those without a rental, with a failed delivery that is due, or with one that
      stalled for five minutes. */
  lemma SchedulerPicks(db: Tables, o: OrderId, now: Time)
    ensures NeedsDelivery(db, o, now) <==>
              && o in db.orders && Law.OutsideRefund(db.orders[o])
              && (o in db.rentals ==>
                    var r := db.rentals[o];
                    r.status == Active
                    && ((r.delivery == Failed && r.attempts < 6 && (r.nextAttempt == None || r.nextAttempt.value <= now))
                        || (r.delivery == Sending && r.sendingSince.Some? && r.sendingSince.value + 300_000_000 <= now)))
  {
  }

  /** An account is disclosed by credentials and codes of it, and for the order they are sent for. */
  lemma DisclosureLaw(e: Event, a: AccountId, o: OrderId)
    ensures Discloses(e, a) <==> (e.Credentials? || e.Code?) && e.account == a
    ensures DisclosedFor(e, o) <==> (e.Credentials? || e.Code?) && e.order == o
  {
  }

  // ---- What leaves the building, over runs --------------------------------------------------------

  /** A courier at its boundary has counted an attempt. */
  ghost predicate CountedFirst(s: State) {
    forall w :: w in s.workers && s.workers[w].Courier? && s.workers[w].courier.AtBoundary? ==> s.workers[w].courier.attempt > 0
  }

  lemma RevokingCounts(s: State, a: Action)
    requires Enabled(s, a) && Revoking(a) && CountedFirst(s)
    ensures CountedFirst(RevokingStep(s, a))
  {
  }

  lemma DeliveringCounts(s: State, a: Action)
    requires Enabled(s, a) && Delivering(a) && CountedFirst(s)
    ensures CountedFirst(DeliveringStep(s, a))
  {
  }

  lemma RememberingCounts(s: State, a: Action)
    requires Enabled(s, a) && Remembering(a) && CountedFirst(s)
    ensures CountedFirst(RememberingStep(s, a))
  {
  }

  lemma RecordingCounts(s: State, a: Action)
    requires Enabled(s, a) && Recording(a) && CountedFirst(s)
    ensures CountedFirst(RecordingStep(s, a))
  {
  }

  lemma CountsFirst(s: State, a: Action)
    requires Enabled(s, a) && CountedFirst(s)
    ensures CountedFirst(Step(s, a))
  {
    if Revoking(a) {
      RevokingCounts(s, a);
    } else if Delivering(a) {
      DeliveringCounts(s, a);
    } else if Queueing(a) {
      QueueingLaw(s, a);
    } else if Remembering(a) {
      RememberingCounts(s, a);
    } else {
      RecordingCounts(s, a);
    }
  }

  lemma {:induction false} AlwaysCounted(states: seq<State>, actions: seq<Action>, n: nat)
    requires IsRun(states, actions) && n <= |actions|
    ensures CountedFirst(states[n])
  {
    if n > 0 {
      AlwaysCounted(states, actions, n - 1);
      CountsFirst(states[n - 1], actions[n - 1]);
    }
  }

  /** What an action adds to the history. */
  ghost predicate Says(s: State, a: Action, e: Event)
    requires Enabled(s, a)
  {
    Step(s, a).log == s.log + [e]
  }

  /** The rental of the order is in use on an account on sale of its tier, with more than `left` of its term to go. */
  ghost predicate InTerm(db: Tables, o: OrderId, a: AccountId, now: Time, left: Time) {
    && o in db.orders && Law.OutsideRefund(db.orders[o])
    && o in db.rentals && db.rentals[o].account == a && db.rentals[o].status == Active && db.rentals[o].expiresAt - now > left
    && a in db.accounts && db.accounts[a].status == Sellable && db.accounts[a].override.None?
  }

  /** In every run, credentials leave exactly for a verified courier whose attempt still stands, on an account
      on sale that passes its limits, and with more than two minutes of the running term left. */
  lemma CredentialsInTerm(states: seq<State>, actions: seq<Action>, i: nat)
    requires IsRun(states, actions) && i < |actions| && actions[i].Disclose?
    ensures var s, a := states[i], actions[i];
            var o, stage := s.workers[a.w].order, s.workers[a.w].courier;
            (exists e :: Says(s, a, e))
            <==> a.verified && a.limitsOk && InTerm(s.db, o, stage.account, a.now, 120_000_000)
                 && s.db.rentals[o].delivery == Sending && s.db.rentals[o].attempts == stage.attempt
                 && s.db.accounts[stage.account].tier == s.db.rentals[o].tier
  {
    AlwaysCounted(states, actions, i);
    DiscloseInTerm(states[i], actions[i]);
  }

  lemma DiscloseInTerm(s: State, a: Action)
    requires Enabled(s, a) && a.Disclose? && CountedFirst(s)
    ensures var o, stage := s.workers[a.w].order, s.workers[a.w].courier;
            (exists e :: Says(s, a, e))
            <==> a.verified && a.limitsOk && InTerm(s.db, o, stage.account, a.now, 120_000_000)
                 && s.db.rentals[o].delivery == Sending && s.db.rentals[o].attempts == stage.attempt
                 && s.db.accounts[stage.account].tier == s.db.rentals[o].tier
  {
    var o, stage := s.workers[a.w].order, s.workers[a.w].courier;
    SendNowLaw(s, a.w, a.verified, a.limitsOk, a.outcome, a.now);
    var t := Step(s, a);
    var y, sent :|
      && Law.Sends(Stored(s.db, o), y, sent, a.verified, a.limitsOk, stage.account, stage.attempt, a.outcome, a.now)
      && Writes(s.db, t.db, o, y)
      && t == s.(db := t.db, workers := s.workers - {a.w},
                 log := if sent then s.log + [Credentials(o, stage.account, s.db.rentals[o].template, stage.attempt)] else s.log)
      && t.db.jobs == s.db.jobs;
    if sent {
      assert Says(s, a, Credentials(o, stage.account, s.db.rentals[o].template, stage.attempt));
    } else {
      assert |t.log| == |s.log|;
    }
  }

  /** Codes leave exactly for the buyer of a delivered rental before the end of its term. */
  lemma CodeInTerm(s: State, a: Action)
    requires Enabled(s, a) && a.SendCode?
    ensures (exists e :: Says(s, a, e)) <==> a.found && InTerm(s.db, a.o, a.account, a.now, 0) && s.db.rentals[a.o].delivery == Sent
  {
    SayCodeLaw(s, a.o, a.found, a.account, a.now);
    var t := Step(s, a);
    var y, authorized :|
      && Law.AuthorizesCode(Stored(s.db, a.o), y, authorized, a.found, a.account, a.now) && Writes(s.db, t.db, a.o, y)
      && t == s.(db := t.db, log := if authorized then s.log + [Code(a.o, a.account)] else s.log) && t.db.jobs == s.db.jobs;
    if authorized {
      assert Says(s, a, Code(a.o, a.account));
    } else {
      assert |t.log| == |s.log|;
    }
  }
}
