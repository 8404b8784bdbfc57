/** Who holds an account, and what its former holders can still do with it.

    Exclusive custody: an account is occupied by at most one rental and promised to at most one replacement,
    and not both as long as no ended rental is revived.  Clean release: an account that no rental occupies
    was logged out after everything that was ever disclosed of it. */
module Custody {
  import opened Rows
  import opened Transitions
  import opened JobQueue
  import opened Protocol

  // ---- Cleanliness of an account ----------------------------------------------------------------

  /** Every disclosure of the account is followed by a logout of it. */
  ghost predicate Clean(log: seq<Event>, a: AccountId) {
    forall i :: 0 <= i < |log| && Discloses(log[i], a) ==> exists j :: i < j < |log| && log[j] == LoggedOut(a)
  }

  lemma CleanAfter(log: seq<Event>, e: Event, a: AccountId)
    ensures e == LoggedOut(a) ==> Clean(log + [e], a)
    ensures Clean(log, a) && !Discloses(e, a) ==> Clean(log + [e], a)
  {
    var log' := log + [e];
    if e == LoggedOut(a) || (Clean(log, a) && !Discloses(e, a)) {
      forall i | 0 <= i < |log'| && Discloses(log'[i], a)
        ensures exists j :: i < j < |log'| && log'[j] == LoggedOut(a)
      {
        if e == LoggedOut(a) {
          assert log'[|log|] == LoggedOut(a);
        } else {
          var j :| i < j < |log| && log[j] == LoggedOut(a);
          assert log'[j] == LoggedOut(a);
        }
      }
    }
  }

  // ---- The invariant ----------------------------------------------------------------------------

  /** Two rentals never occupy the same account, and two replacements are never promised the same one. */
  ghost predicate Exclusive(db: Tables) {
    && (forall o, p, a :: o in db.rentals && p in db.rentals && o != p && Occupies(db.rentals[o], a) ==> !Occupies(db.rentals[p], a))
    && (forall o, p :: o in db.rentals && p in db.rentals && o != p && db.rentals[o].target.Some? ==>
          db.rentals[o].target != db.rentals[p].target)
  }

  /** No account is occupied by one rental and promised to another. */
  ghost predicate Separate(db: Tables) {
    forall o, p :: o in db.rentals && p in db.rentals && o != p && Occupying(db.rentals[o].status) ==>
      db.rentals[p].target != Some(db.rentals[o].account)
  }

  predicate SellableNow(db: Tables, a: AccountId) { a in db.accounts && db.accounts[a].status.Sellable? }

  /** What holds of the rows of one order at every commit. */
  predicate RowOk(x: Locked) {
    x.rental.Some? ==>
      var r := x.rental.value;
      && r.expiresAt == r.startedAt + r.minutes * MINUTE
      && (r.delivery.Sent? ==> r.attempts > 0)
      && (r.target.Some? ==> !Unsent(r))
      && (!Occupying(r.status) ==> r.target.None?)
      && r.target != Some(r.account)
  }

  /** While a replacement is reserved the account it replaces is not on sale, so no secret of it is sent. */
  predicate ReservedOffSale(x: Locked) {
    x.rental.Some? && x.rental.value.target.Some? && Occupying(x.rental.value.status) && x.account.Some? ==>
      !x.account.value.status.Sellable?
  }

  ghost predicate RentalOk(s: State, o: OrderId)
    requires o in s.db.rentals
  {
    && o in s.db.orders
    && RowOk(Load(s.db, o))
    && (s.orderly ==> ReservedOffSale(Load(s.db, o)))
    && (s.orderly && Occupying(s.db.rentals[o].status) && s.db.rentals[o].attempts == 0 ==>
          Clean(s.log, s.db.rentals[o].account))
  }

  predicate LoggedOutByNow(stage: Stage) { (stage.Kicked? || stage.Recorded?) && stage.success }

  /** The rental still occupies the account the claim named. */
  predicate StillOn(r: Rental, claim: Claim) { Occupying(r.status) && r.account == claim.account }

  ghost predicate WorkerOk(s: State, worker: Worker) {
    match worker
    case Revoker(kind, claim, stage) =>
      && claim.order in s.db.orders && claim.order in s.db.rentals && (claim.order, claim.at) in s.stamps
      && var r := s.db.rentals[claim.order];
      && (s.orderly && kind.Refund? ==> InRefund(s.db.orders[claim.order].status))
      && (kind.Expiry? ==> !r.status.Active?)
      && (!kind.Replacement? && r.lease == Some(claim.at) ==> r.target.None?)
      && (s.orderly && LoggedOutByNow(stage) && StillOn(r, claim)
          && (kind.Replacement? ==> claim.target.Some? && r.lease == Some(claim.at) && r.target == claim.target)
          ==> Clean(s.log, claim.account))
    case Notifier(o, at) => o in s.db.orders && (o, at) in s.stamps
    case Courier(o, stage) =>
      && o in s.db.orders && o in s.db.rentals
      && (stage.AtBoundary? ==> stage.attempt >= 1)
      && (!stage.AtBoundary? ==> (o, stage.at) in s.stamps)
    case Operator(o, read) =>
      o in s.db.orders && o in s.db.rentals && read.delivery.Failed? && read.attempts < DELIVERY_MAX_ATTEMPTS
    case Commander(o, read, due) =>
      && o in s.db.orders && o in s.db.rentals
      && (read.delivery.Sent? ==> !Unsent(s.db.rentals[o]))
      && (due.Some? ==> read.delivery.Sent? && read.status.Active? && read.expiresAt <= due.value)
    case _ => true
  }

  ghost predicate Inv(s: State) {
    && Exclusive(s.db)
    && (forall o :: o in s.db.rentals ==> RentalOk(s, o))
    && (forall w :: w in s.workers ==> WorkerOk(s, s.workers[w]))
    && (s.orderly ==> forall a :: !Occupied(s.db, a) ==> Clean(s.log, a))
  }

  // ---- One order at a time ----------------------------------------------------------------------

  /** A claim is dated by a new stamp; an account is granted by the pool. */
  datatype Grant = Grant(stamp: Option<Time>, account: Option<AccountId>)

  predicate Frees(x: Locked, y: Locked)
    requires x.rental.Some? && y.rental.Some?
  {
    Occupying(x.rental.value.status) && !(Occupying(y.rental.value.status) && y.rental.value.account == x.rental.value.account)
  }

  /** What a transaction may do to the rows of an order that has a rental. */
  predicate RowEvolves(x: Locked, y: Locked, g: Grant)
    requires x.rental.Some?
  {
    && RowOk(y) && y.rental.Some? && (ReservedOffSale(x) ==> ReservedOffSale(y))
    && (y.account == x.account || y.account == WithAccountStatus(x, Maintenance).account)
    && (InRefund(x.order.status) ==> InRefund(y.order.status))
    && var r, r' := x.rental.value, y.rental.value;
    && (r'.status.Active? ==> r.status.Active?)
    && (Occupying(r'.status) ==> Occupying(r.status))
    && (r'.target.None? || r'.target == r.target || r'.target == g.account)
    && (r'.lease.Some? && r'.target.Some? ==> (r'.lease == r.lease && r'.target == r.target) || r'.lease == g.stamp)
    && (r'.account != r.account ==>
        Occupying(r.status) && r'.target.None? && (Some(r'.account) == g.account || Some(r'.account) == r.target))
    && (Unsent(r') ==> Unsent(r))
    && (r'.account == r.account && r'.attempts == 0 ==> r.attempts == 0)
  }

  ghost predicate GrantOk(s: State, o: OrderId, g: Grant) {
    && (g.stamp.Some? ==> FreshStamp(s, o, g.stamp.value))
    && (g.account.Some? ==> !Busy(ReleasedTables(s.db, o), g.account.value))
  }

  /** A rental that changes its account lands on one that no other rental occupies. */
  ghost predicate LandsFree(s: State, o: OrderId, y: Locked)
    requires o in s.db.rentals
  {
    y.rental.Some? && y.rental.value.account != s.db.rentals[o].account ==> !Taken(s.db, o, y.rental.value.account)
  }

  /** `t` differs from `s` in the rows of `o`, as `Store` writes them, and in the jobs. */
  predicate Wrote(s: State, t: State, o: OrderId, y: Locked)
    requires o in s.db.orders
  {
    && t.log == s.log && t.orderly == s.orderly && s.stamps <= t.stamps
    && var db := Store(s.db, o, y);
    t.db.orders == db.orders && t.db.rentals == db.rentals && t.db.accounts == db.accounts
  }

  /** An account the pool grants is held by no other rental, an account promised to a replacement is promised
      to no other; either is clean unless another rental occupies it by now. */
  lemma GrantedIsClean(s: State, o: OrderId, g: Grant, a: AccountId)
    requires Inv(s) && o in s.db.rentals && GrantOk(s, o, g)
    requires Some(a) == g.account || Some(a) == s.db.rentals[o].target
    ensures s.orderly && !Occupies(s.db.rentals[o], a) && !Taken(s.db, o, a) ==> Clean(s.log, a)
    ensures forall p :: p in s.db.rentals && p != o ==> s.db.rentals[p].target != Some(a)
    ensures Some(a) == g.account || Separate(s.db) ==> forall p :: p in s.db.rentals && p != o ==> !Holds(s.db.rentals[p], a)
  {
    assert RentalOk(s, o);
    forall p | p in s.db.rentals && p != o
      ensures s.db.rentals[p].target != Some(a)
      ensures Some(a) == g.account || Separate(s.db) ==> !Holds(s.db.rentals[p], a)
    {
      assert ReleasedTables(s.db, o).rentals[p] == s.db.rentals[p];
    }
  }

  lemma ExclusiveKept(s: State, t: State, o: OrderId, y: Locked, g: Grant)
    requires Inv(s) && o in s.db.rentals && RentalOk(s, o) && GrantOk(s, o, g)
    requires Wrote(s, t, o, y) && RowEvolves(Load(s.db, o), y, g) && LandsFree(s, o, y)
    ensures Exclusive(t.db)
    ensures Separate(s.db) ==> Separate(t.db)
  {
    var r, r' := s.db.rentals[o], y.rental.value;
    if r'.target.Some? {
      GrantedIsClean(s, o, g, r'.target.value);
    }
    if r'.account != r.account {
      GrantedIsClean(s, o, g, r'.account);
    }
  }

  lemma RowsKept(s: State, t: State, o: OrderId, y: Locked, g: Grant)
    requires Inv(s) && o in s.db.rentals && RentalOk(s, o) && GrantOk(s, o, g)
    requires Wrote(s, t, o, y) && RowEvolves(Load(s.db, o), y, g) && LandsFree(s, o, y)
    ensures forall p :: p in t.db.rentals ==> RentalOk(t, p)
  {
    forall p | p in t.db.rentals
      ensures RentalOk(t, p)
    {
      if p != o {
        assert RentalOk(s, p);
      } else {
        var r, r' := s.db.rentals[o], y.rental.value;
        if r'.account != r.account {
          GrantedIsClean(s, o, g, r'.account);
        }
      }
    }
  }

  lemma WorkersKept(s: State, t: State, o: OrderId, y: Locked, g: Grant)
    requires Inv(s) && o in s.db.rentals && RentalOk(s, o) && GrantOk(s, o, g)
    requires Wrote(s, t, o, y) && RowEvolves(Load(s.db, o), y, g) && LandsFree(s, o, y)
    ensures forall w :: w in s.workers ==> WorkerOk(t, s.workers[w])
  {
    var r, r' := s.db.rentals[o], y.rental.value;
    if r'.account != r.account {
      GrantedIsClean(s, o, g, r'.account);
    }
    forall w | w in s.workers
      ensures WorkerOk(t, s.workers[w])
    {
      assert WorkerOk(s, s.workers[w]);
    }
  }

  lemma FreeKept(s: State, t: State, o: OrderId, y: Locked)
    requires Inv(s) && o in s.db.rentals && Wrote(s, t, o, y) && y.rental.Some?
    requires s.orderly && Frees(Load(s.db, o), y) ==> Clean(s.log, s.db.rentals[o].account)
    ensures t.orderly ==> forall a :: !Occupied(t.db, a) ==> Clean(t.log, a)
  {
    forall a | t.orderly && !Occupied(t.db, a)
      ensures Clean(t.log, a)
    {
      if Occupied(s.db, a) {
        var p :| p in s.db.rentals && Occupies(s.db.rentals[p], a);
        assert p in t.db.rentals;
      }
    }
  }

  /** The invariant after the action, and no promise broken by it. */
  ghost predicate Keeps(s: State, t: State) { Inv(t) && (Separate(s.db) ==> Separate(t.db)) }

  /** Every transaction on an order with a rental keeps the invariant, provided that it lands on an account that
      no other rental occupies, that an account it frees is clean and that the worker it leaves behind is fine. */
  lemma OneOrderKeeps(s: State, t: State, o: OrderId, y: Locked, g: Grant)
    requires Inv(s) && o in s.db.rentals && RentalOk(s, o) && GrantOk(s, o, g)
    requires Wrote(s, t, o, y) && RowEvolves(Load(s.db, o), y, g) && LandsFree(s, o, y)
    requires s.orderly && Frees(Load(s.db, o), y) ==> Clean(s.log, s.db.rentals[o].account)
    requires forall v :: v in t.workers ==> (v in s.workers && t.workers[v] == s.workers[v]) || WorkerOk(t, t.workers[v])
    ensures Keeps(s, t)
  {
    ExclusiveKept(s, t, o, y, g);
    RowsKept(s, t, o, y, g);
    WorkersKept(s, t, o, y, g);
    FreeKept(s, t, o, y);
  }

  /** The same for an order without a rental: only its status moves. */
  lemma NoRentalKeeps(s: State, t: State, o: OrderId)
    requires Inv(s) && o in s.db.orders && o !in s.db.rentals
    requires t.log == s.log && t.orderly == s.orderly && s.stamps <= t.stamps && t.db.rentals == s.db.rentals && t.db.accounts == s.db.accounts
    requires s.db.orders.Keys <= t.db.orders.Keys && forall p :: p in s.db.orders && p != o ==> t.db.orders[p] == s.db.orders[p]
    requires forall v :: v in t.workers ==> v in s.workers && t.workers[v] == s.workers[v]
    ensures Keeps(s, t)
  {
    forall p | p in t.db.rentals
      ensures RentalOk(t, p)
    {
      assert RentalOk(s, p);
    }
    forall w | w in t.workers
      ensures WorkerOk(t, t.workers[w])
    {
      assert WorkerOk(s, s.workers[w]);
    }
    assert forall a :: Occupied(t.db, a) == Occupied(s.db, a);
  }

  // ---- Every action keeps the invariant ---------------------------------------------------------

  lemma StartRefundKeeps(s: State, w: WorkerId, o: OrderId, verified: bool, now: Time)
    requires Inv(s) && MayStart(s, w, o, now)
    ensures Keeps(s, StartRefund(s, w, o, verified, now))
  {
    var x, t := Load(s.db, o), StartRefund(s, w, o, verified, now);
    if o !in s.db.rentals {
      NoRentalKeeps(s, t, o);
    } else {
      assert RentalOk(s, o);
      var y := RefundClaim(x, verified, now).0;
      var g := Grant(Some(now), None);
      RefundClaimRows(x, verified, now);
      OneOrderKeeps(s, t, o, y, g);
    }
  }

  lemma StartExpiryKeeps(s: State, w: WorkerId, o: OrderId, verified: bool, now: Time)
    requires Inv(s) && MayStart(s, w, o, now)
    ensures Keeps(s, StartExpiry(s, w, o, verified, now))
  {
    var x, t := Load(s.db, o), StartExpiry(s, w, o, verified, now);
    if o !in s.db.rentals {
      NoRentalKeeps(s, t, o);
    } else {
      assert RentalOk(s, o);
      var y := ExpiryClaim(x, verified, now).0;
      var g := Grant(Some(now), None);
      assert RowEvolves(x, y, g);
      OneOrderKeeps(s, t, o, y, g);
    }
  }

  lemma ReplaceClaimRows(x: Locked, found: bool, account: AccountId, pick: Option<AccountId>, limit: nat, now: Time, later: Time)
    requires x.rental.Some? && RowOk(x)
    ensures RowEvolves(x, ReplaceClaim(x, found, account, pick, limit, now, later).0, Grant(Some(later), pick))
    ensures !Frees(x, ReplaceClaim(x, found, account, pick, limit, now, later).0)
  {
  }

  lemma BoundaryRows(x: Locked, verified: bool, limitsOk: bool, pick: Option<AccountId>, now: Time)
    requires x.rental.Some? && RowOk(x)
    ensures RowEvolves(x, Boundary(x, verified, limitsOk, pick, now).0, Grant(Some(now), pick))
    ensures Frees(x, Boundary(x, verified, limitsOk, pick, now).0) ==> Unsent(x.rental.value)
    ensures var answer := Boundary(x, verified, limitsOk, pick, now).1; answer.Bound? ==> answer.attempt >= 1
  {
  }

  lemma ReplaceFinalizeRows(x: Locked, claim: Claim, found: bool, kicked: bool, target: Option<Account>, limit: nat, now: Time, stamp: Time)
    requires x.rental.Some? && RowOk(x)
    ensures RowEvolves(x, x, Grant(None, None)) && !Frees(x, x)
    ensures var (y, switched) := ReplaceFinalize(x, claim, found, kicked, target, limit, now, stamp);
            && RowEvolves(x, y, Grant(None, None))
            && (Frees(x, y) ==> kicked && StillOn(x.rental.value, claim) && claim.target.Some?
                                && x.rental.value.lease == Some(claim.at) && x.rental.value.target == claim.target)
            && (switched <==> y.rental.value.account != x.rental.value.account)
  {
  }

  lemma RefundClaimRows(x: Locked, verified: bool, now: Time)
    requires x.rental.Some? && RowOk(x)
    ensures var (y, answer) := RefundClaim(x, verified, now);
            && RowEvolves(x, y, Grant(Some(now), None)) && !Frees(x, y) && y.rental.value.account == x.rental.value.account
            && (answer.RefundClaimed? ==> y.rental.value.target.None? && InRefund(y.order.status))
  {
  }

  lemma BoundaryAgainRows(x: Locked, verified: bool, limitsOk: bool, expected: AccountId, now: Time)
    requires x.rental.Some? && RowOk(x)
    ensures var (y, answer) := BoundaryAfterMove(x, verified, limitsOk, expected, now);
            && RowEvolves(x, y, Grant(Some(now), None)) && !Frees(x, y) && y.rental.value.account == x.rental.value.account
            && (answer.Bound? ==> answer.attempt >= 1)
  {
  }

  lemma SendRows(x: Locked, verified: bool, limitsOk: bool, expected: AccountId, attempt: nat, outcome: SendOutcome, now: Time)
    requires x.rental.Some? && RowOk(x) && attempt >= 1
    ensures var (y, sent) := Send(x, verified, limitsOk, expected, attempt, outcome, now);
            && RowEvolves(x, y, Grant(None, None)) && !Frees(x, y) && y.rental.value.account == x.rental.value.account
            && (sent ==> y.rental.value.status.Active? && y.rental.value.account == expected && y.rental.value.attempts > 0
                         && y.order == x.order && y.account == x.account && !InRefund(x.order.status)
                         && x.account.Some? && x.account.value.status.Sellable?)
  {
  }

  lemma StartReplacementKeeps(s: State, w: WorkerId, o: OrderId, found: bool, account: AccountId,
                              candidates: seq<AccountId>, limit: nat, now: Time, later: Time)
    requires Inv(s) && MayStart(s, w, o, later)
    ensures Keeps(s, StartReplacement(s, w, o, found, account, candidates, limit, now, later))
  {
    var x, t := Load(s.db, o), StartReplacement(s, w, o, found, account, candidates, limit, now, later);
    if o !in s.db.rentals {
      NoRentalKeeps(s, t, o);
    } else {
      assert RentalOk(s, o);
      var pick := Pick(ReleasedTables(s.db, o), candidates, Some(account));
      var y := ReplaceClaim(x, found, account, pick, limit, now, later).0;
      var g := Grant(Some(later), pick);
      ReplaceClaimRows(x, found, account, pick, limit, now, later);
      OneOrderKeeps(s, t, o, y, g);
    }
  }

  lemma FinishRefundKeeps(s: State, w: WorkerId)
    requires Inv(s) && RevokerAt(s, w, Refund) && s.workers[w].stage.Kicked?
    ensures Keeps(s, FinishRefund(s, w))
  {
    var worker := s.workers[w];
    var o := worker.claim.order;
    assert WorkerOk(s, worker) && RentalOk(s, o);
    var x := Load(s.db, o);
    var y := RefundFinalize(x, worker.claim, worker.stage.success).0;
    var g := Grant(None, None);
    assert RowEvolves(x, y, g);
    OneOrderKeeps(s, FinishRefund(s, w), o, y, g);
  }

  lemma FinishExpiryKeeps(s: State, w: WorkerId)
    requires Inv(s) && RevokerAt(s, w, Expiry) && s.workers[w].stage.Recorded?
    ensures Keeps(s, FinishExpiry(s, w))
  {
    var worker := s.workers[w];
    var o := worker.claim.order;
    assert WorkerOk(s, worker) && RentalOk(s, o);
    var x := Load(s.db, o);
    var y := ExpiryFinalize(x, worker.claim, worker.stage.success);
    var g := Grant(None, None);
    assert RowEvolves(x, y, g);
    OneOrderKeeps(s, FinishExpiry(s, w), o, y, g);
  }

  /** The state a replacement's end leaves behind. */
  lemma ReplacementLeaves(s: State, w: WorkerId, found: bool, limit: nat, now: Time, stamp: Time)
    requires RevokerAt(s, w, Replacement) && s.workers[w].stage.Kicked? && WorkerOk(s, s.workers[w])
    ensures var o, t := s.workers[w].claim.order, FinishReplacement(s, w, found, limit, now, stamp);
            && Wrote(s, t, o, Switch(s, w, found, limit, now, stamp).0)
            && forall v :: v in t.workers ==> (v in s.workers && t.workers[v] == s.workers[v]) || WorkerOk(t, t.workers[v])
  {
  }

  lemma FinishReplacementKeeps(s: State, w: WorkerId, found: bool, limit: nat, now: Time, stamp: Time)
    requires Inv(s) && RevokerAt(s, w, Replacement) && s.workers[w].stage.Kicked?
    requires FreshStamp(s, s.workers[w].claim.order, stamp)
    ensures Keeps(s, FinishReplacement(s, w, found, limit, now, stamp))
  {
    var worker := s.workers[w];
    var o := worker.claim.order;
    assert WorkerOk(s, worker) && RentalOk(s, o);
    var x := Load(s.db, o);
    var y := Switch(s, w, found, limit, now, stamp).0;
    var target := if worker.claim.target.Some? then RowOf(s.db.accounts, worker.claim.target.value) else None;
    ReplaceFinalizeRows(x, worker.claim, found, worker.stage.success, target, limit, now, stamp);
    ReplacementLeaves(s, w, found, limit, now, stamp);
    OneOrderKeeps(s, FinishReplacement(s, w, found, limit, now, stamp), o, y, Grant(None, None));
  }

  lemma StartNotificationKeeps(s: State, w: WorkerId, o: OrderId, verified: bool, now: Time)
    requires Inv(s) && MayStart(s, w, o, now)
    ensures Keeps(s, StartNotification(s, w, o, verified, now))
  {
    var x, t := Load(s.db, o), StartNotification(s, w, o, verified, now);
    if o !in s.db.rentals {
      NoRentalKeeps(s, t, o);
    } else {
      assert RentalOk(s, o);
      var y := NotifyClaim(x, verified, now).0;
      var g := Grant(Some(now), None);
      assert RowEvolves(x, y, g);
      OneOrderKeeps(s, t, o, y, g);
    }
  }

  /** Transactions that neither take nor finish an account-wide logout. */
  lemma PlainCommitKeeps(s: State, o: OrderId, y: Locked)
    requires Inv(s) && o in s.db.orders
    requires o !in s.db.rentals ==> y == Load(s.db, o)
    requires o in s.db.rentals && RowOk(Load(s.db, o)) ==>
               RowEvolves(Load(s.db, o), y, Grant(None, None)) && !Frees(Load(s.db, o), y)
    ensures Keeps(s, Commit(s, o, y))
  {
    if o !in s.db.rentals {
      NoRentalKeeps(s, Commit(s, o, y), o);
    } else {
      assert RentalOk(s, o);
      OneOrderKeeps(s, Commit(s, o, y), o, y, Grant(None, None));
    }
  }

  /** A first rental holds an account that nobody holds; nothing else changes. */
  ghost predicate Allocated(s: State, t: State, o: OrderId, r: Rental) {
    && o in s.db.orders && o !in s.db.rentals
    && t.log == s.log && t.orderly == s.orderly && s.stamps <= t.stamps
    && t.db == s.db.(rentals := s.db.rentals[o := r])
    && !Busy(s.db, r.account) && r.target.None? && r.lease.None? && Unsent(r) && r.status.Active? && !r.delivery.Sent?
    && r.expiresAt == r.startedAt + r.minutes * MINUTE
  }

  lemma AllocatedRows(s: State, t: State, o: OrderId, r: Rental)
    requires Inv(s) && Allocated(s, t, o, r)
    ensures Exclusive(t.db) && (Separate(s.db) ==> Separate(t.db))
    ensures forall p :: p in t.db.rentals ==> RentalOk(t, p)
  {
    assert !Occupied(s.db, r.account);
    forall p | p in s.db.rentals
      ensures !Holds(s.db.rentals[p], r.account) && RentalOk(s, p)
    {
    }
  }

  lemma AllocatedElsewhere(s: State, t: State, o: OrderId, r: Rental)
    requires Inv(s) && Allocated(s, t, o, r)
    ensures forall w :: w in s.workers ==> WorkerOk(t, s.workers[w])
    ensures t.orderly ==> forall a :: !Occupied(t.db, a) ==> Clean(t.log, a)
  {
    forall w | w in s.workers
      ensures WorkerOk(t, s.workers[w])
    {
      assert WorkerOk(s, s.workers[w]);
    }
    forall a | t.orderly && !Occupied(t.db, a)
      ensures Clean(t.log, a)
    {
      assert forall p :: p in s.db.rentals ==> t.db.rentals[p] == s.db.rentals[p];
      assert !Occupied(s.db, a);
    }
  }

  lemma FirstAllocationKeeps(s: State, w: WorkerId, o: OrderId, verified: bool, candidates: seq<AccountId>, now: Time)
    requires Inv(s) && MayStart(s, w, o, now) && o !in s.db.rentals
    ensures Keeps(s, FirstAllocation(s, w, o, verified, candidates, now))
  {
    var t := FirstAllocation(s, w, o, verified, candidates, now);
    var rental := AllocateRental(s.db.orders[o], verified, Pick(s.db, candidates, None), now);
    if rental.None? {
      NoRentalKeeps(s, t, o);
    } else {
      AllocatedRows(s, t, o, rental.value);
      AllocatedElsewhere(s, t, o, rental.value);
    }
  }

  lemma StartDeliveryKeeps(s: State, w: WorkerId, o: OrderId, verified: bool, now: Time)
    requires Inv(s) && MayStart(s, w, o, now)
    ensures Keeps(s, StartDelivery(s, w, o, verified, now))
  {
    var x, t := Load(s.db, o), StartDelivery(s, w, o, verified, now);
    if o !in s.db.rentals {
      NoRentalKeeps(s, t, o);
    } else {
      assert RentalOk(s, o);
      var y := ClaimDelivery(x, verified, now).0;
      var g := Grant(Some(now), None);
      assert RowEvolves(x, y, g);
      OneOrderKeeps(s, t, o, y, g);
    }
  }

  /** The state a boundary leaves behind. */
  lemma BoundaryLeaves(s: State, w: WorkerId, o: OrderId, y: Locked, answer: BoundaryAnswer, now: Time)
    requires CourierIn(s, w) && !s.workers[w].courier.AtBoundary? && s.workers[w].order == o && WorkerOk(s, s.workers[w])
    requires y.rental.Some? && (answer.Bound? ==> answer.attempt >= 1)
    ensures var t := CourierAfter(Stamp(Commit(s, o, y), o, now), w, o, s.workers[w].courier.at, answer);
            && Wrote(s, t, o, y)
            && forall v :: v in t.workers ==> (v in s.workers && t.workers[v] == s.workers[v]) || WorkerOk(t, t.workers[v])
  {
  }

  lemma ToBoundaryKeeps(s: State, w: WorkerId, verified: bool, limitsOk: bool, candidates: seq<AccountId>, now: Time)
    requires Inv(s) && CourierIn(s, w) && s.workers[w].courier.Claimed? && FreshStamp(s, s.workers[w].order, now)
    ensures Keeps(s, ToBoundary(s, w, verified, limitsOk, candidates, now))
  {
    var o := s.workers[w].order;
    assert WorkerOk(s, s.workers[w]) && RentalOk(s, o);
    var x := Load(s.db, o);
    var pick := Pick(s.db, candidates, Some(s.db.rentals[o].account));
    var (y, answer) := Boundary(x, verified, limitsOk, pick, now);
    BoundaryRows(x, verified, limitsOk, pick, now);
    if pick.Some? {
      ReleasedStaysFree(s.db, o, pick.value);
      assert !Taken(s.db, o, pick.value);
    }
    BoundaryLeaves(s, w, o, y, answer, now);
    OneOrderKeeps(s, CourierAfter(Stamp(Commit(s, o, y), o, now), w, o, s.workers[w].courier.at, answer), o, y, Grant(Some(now), pick));
  }

  lemma ReleasedStaysFree(db: Tables, o: OrderId, a: AccountId)
    requires !Busy(db, a)
    ensures !Busy(ReleasedTables(db, o), a)
  {
  }

  lemma ToBoundaryAgainKeeps(s: State, w: WorkerId, verified: bool, limitsOk: bool, now: Time)
    requires Inv(s) && CourierIn(s, w) && s.workers[w].courier.Relocated? && FreshStamp(s, s.workers[w].order, now)
    ensures Keeps(s, ToBoundaryAgain(s, w, verified, limitsOk, now))
  {
    var o := s.workers[w].order;
    assert WorkerOk(s, s.workers[w]) && RentalOk(s, o);
    var x := Load(s.db, o);
    var (y, answer) := BoundaryAfterMove(x, verified, limitsOk, s.workers[w].courier.account, now);
    BoundaryAgainRows(x, verified, limitsOk, s.workers[w].courier.account, now);
    BoundaryLeaves(s, w, o, y, answer, now);
    OneOrderKeeps(s, CourierAfter(Stamp(Commit(s, o, y), o, now), w, o, s.workers[w].courier.at, answer), o, y, Grant(Some(now), None));
  }

  /** A secret leaves the building: only the occupying rental can be the one that sends it. */
  lemma SayKeeps(s: State, e: Event, o: OrderId, a: AccountId)
    requires Inv(s) && o in s.db.orders && o in s.db.rentals
    requires Discloses(e, a) && forall b :: b != a ==> !Discloses(e, b)
    requires s.db.rentals[o].status.Active? && s.db.rentals[o].account == a && s.db.rentals[o].attempts > 0
    requires !InRefund(s.db.orders[o].status) && SellableNow(s.db, a)
    ensures Keeps(s, Say(s, e))
  {
    var t := Say(s, e);
    forall b
      ensures b != a && Clean(s.log, b) ==> Clean(t.log, b)
    {
      CleanAfter(s.log, e, b);
    }
    assert Occupies(s.db.rentals[o], a);
    forall p | p in t.db.rentals
      ensures RentalOk(t, p)
    {
      assert RentalOk(s, p);
      assert p != o ==> !Occupies(s.db.rentals[p], a);
    }
    forall w | w in t.workers
      ensures WorkerOk(t, t.workers[w])
    {
      var worker := s.workers[w];
      assert WorkerOk(s, worker);
      if worker.Revoker? && worker.claim.account == a && worker.claim.order != o {
        assert !Occupies(s.db.rentals[worker.claim.order], a);
      }
      assert RentalOk(s, o);
    }
    forall b | t.orderly && !Occupied(t.db, b)
      ensures Clean(t.log, b)
    {
      assert !Occupied(s.db, b);
    }
  }

  lemma SendNowKeeps(s: State, w: WorkerId, verified: bool, limitsOk: bool, outcome: SendOutcome, now: Time)
    requires Inv(s) && CourierIn(s, w) && s.workers[w].courier.AtBoundary?
    ensures Keeps(s, SendNow(s, w, verified, limitsOk, outcome, now))
  {
    var o, stage := s.workers[w].order, s.workers[w].courier;
    assert WorkerOk(s, s.workers[w]) && RentalOk(s, o);
    var x := Load(s.db, o);
    var (y, sent) := Send(x, verified, limitsOk, stage.account, stage.attempt, outcome, now);
    SendRows(x, verified, limitsOk, stage.account, stage.attempt, outcome, now);
    var t := Leave(Commit(s, o, y), w);
    OneOrderKeeps(s, t, o, y, Grant(None, None));
    if sent {
      SayKeeps(t, Credentials(o, stage.account, y.rental.value.template, stage.attempt), o, stage.account);
    }
  }

  lemma SayCodeKeeps(s: State, o: OrderId, found: bool, account: AccountId, now: Time)
    requires Inv(s) && o in s.db.orders
    ensures Keeps(s, SayCode(s, o, found, account, now))
  {
    var (y, authorized) := CodeAuthorization(Load(s.db, o), found, account, now);
    PlainCommitKeeps(s, o, y);
    if authorized {
      assert RentalOk(s, o);
      SayKeeps(Commit(s, o, y), Code(o, account), o, account);
    }
  }

  lemma LogOutKeeps(s: State, w: WorkerId, effect: bool, success: bool)
    requires Inv(s) && w in s.workers && s.workers[w].Revoker? && s.workers[w].stage.ClaimHeld? && (success ==> effect)
    ensures Keeps(s, LogOut(s, w, effect, success))
  {
    var t := LogOut(s, w, effect, success);
    var account := s.workers[w].claim.account;
    assert WorkerOk(s, s.workers[w]);
    forall b
      ensures Clean(s.log, b) ==> Clean(t.log, b)
      ensures effect ==> Clean(t.log, account)
    {
      CleanAfter(s.log, LoggedOut(account), b);
      CleanAfter(s.log, LoggedOut(account), account);
    }
    forall p | p in t.db.rentals
      ensures RentalOk(t, p)
    {
      assert RentalOk(s, p);
    }
    forall v | v in t.workers
      ensures WorkerOk(t, t.workers[v])
    {
      assert WorkerOk(s, s.workers[v]);
    }
    forall b | t.orderly && !Occupied(t.db, b)
      ensures Clean(t.log, b)
    {
      assert !Occupied(s.db, b);
    }
  }

  /** Account rows and jobs may change under the invariant unless a reserved rental's account goes back on sale. */
  lemma AccountsKeep(s: State, t: State)
    requires Inv(s)
    requires t.log == s.log && t.stamps == s.stamps && (t.orderly ==> s.orderly) && t.db.orders == s.db.orders && t.db.rentals == s.db.rentals
    requires forall v :: v in t.workers ==> WorkerOk(s, t.workers[v])
    requires forall o :: t.orderly && o in s.db.rentals && Occupying(s.db.rentals[o].status) && s.db.rentals[o].target.Some?
                         && SellableNow(t.db, s.db.rentals[o].account)
                         ==> SellableNow(s.db, s.db.rentals[o].account)
    ensures Keeps(s, t)
  {
    forall p | p in t.db.rentals
      ensures RentalOk(t, p)
    {
      assert RentalOk(s, p);
    }
    forall w | w in t.workers
      ensures WorkerOk(t, t.workers[w])
    {
      assert WorkerOk(s, t.workers[w]);
    }
    assert forall a :: Occupied(t.db, a) == Occupied(s.db, a);
  }

  /** An order row on its own: its status only moves into the refund pair or stays out of it. */
  lemma OrderRowKeeps(s: State, o: OrderId, row: Order, orderly: bool)
    requires Inv(s) && (orderly ==> s.orderly)
    requires orderly && o in s.db.orders && InRefund(s.db.orders[o].status) ==> InRefund(row.status)
    requires o !in s.db.orders ==> o !in s.db.rentals
    ensures Keeps(s, s.(db := s.db.(orders := s.db.orders[o := row]), orderly := orderly))
  {
    var t := s.(db := s.db.(orders := s.db.orders[o := row]), orderly := orderly);
    forall p | p in t.db.rentals
      ensures RentalOk(t, p)
    {
      assert RentalOk(s, p);
    }
    forall w | w in t.workers
      ensures WorkerOk(t, t.workers[w])
    {
      assert WorkerOk(s, s.workers[w]);
    }
    assert forall a :: Occupied(t.db, a) == Occupied(s.db, a);
  }

  lemma NotifyFinishKeeps(s: State, w: WorkerId, delivered: bool, now: Time)
    requires Inv(s) && Enabled(s, NotifyFinish(w, delivered, now))
    ensures Keeps(s, RecordingStep(s, NotifyFinish(w, delivered, now)))
  {
    var o := s.workers[w].order;
    var y := NotifyFinalize(Load(s.db, o), s.workers[w].at, delivered, now);
    PlainCommitKeeps(s, o, y);
    CrashKeeps(Commit(s, o, y), w);
  }

  lemma ReleaseKeeps(s: State, o: OrderId, expected: Option<AccountId>, seenLease: Option<Time>, seenTarget: AccountId, now: Time)
    requires Inv(s) && o in s.db.orders
    ensures Keeps(s, Commit(s, o, ReleaseReservation(Load(s.db, o), expected, seenLease, seenTarget, now).0))
  {
    PlainCommitKeeps(s, o, ReleaseReservation(Load(s.db, o), expected, seenLease, seenTarget, now).0);
  }

  lemma ResetRows(x: Locked, verified: bool, now: Time)
    requires x.rental.Some? && RowOk(x)
    ensures var (y, reset) := OperatorRetry(x, verified, now);
            && RowEvolves(x, y, Grant(None, None)) && !Frees(x, y) && y.rental.value.account == x.rental.value.account
            && (reset ==> y.rental.value.delivery.Failed? && y.rental.value.attempts < DELIVERY_MAX_ATTEMPTS)
  {
  }

  lemma OperatorEnters(t: State, w: WorkerId, o: OrderId, read: Rental)
    requires Inv(t) && o in t.db.orders && o in t.db.rentals && read.delivery.Failed? && read.attempts < DELIVERY_MAX_ATTEMPTS
    ensures Keeps(t, Enter(t, w, Operator(o, read)))
  {
    AccountsKeep(t, Enter(t, w, Operator(o, read)));
  }

  lemma RetryNowKeeps(s: State, w: WorkerId, o: OrderId, verified: bool, now: Time)
    requires Inv(s) && o in s.db.orders
    ensures Keeps(s, OperatorResets(s, w, o, verified, now))
  {
    var (y, reset) := OperatorRetry(Load(s.db, o), verified, now);
    if o in s.db.rentals {
      assert RentalOk(s, o);
      ResetRows(Load(s.db, o), verified, now);
    }
    PlainCommitKeeps(s, o, y);
    AccountsKeep(Commit(s, o, y), RetryNow(s, o, verified, now));
    if reset {
      OperatorEnters(RetryNow(s, o, verified, now), w, o, y.rental.value);
    }
  }

  lemma RememberedRows(x: Locked, read: Rental, verified: bool, now: Time)
    requires x.rental.Some? && RowOk(x) && read.delivery.Failed?
    ensures var y := ClaimRemembered(x, read, verified, now).0;
            RowEvolves(x, y, Grant(None, None)) && !Frees(x, y) && y.rental.value.account == x.rental.value.account
  {
  }

  lemma OperatorLeaves(s: State, w: WorkerId, verified: bool, now: Time)
    requires Enabled(s, OperatorStart(w, verified, now)) && WorkerOk(s, s.workers[w])
    ensures var o, t := s.workers[w].order, OperatorClaims(s, w, verified, now);
            && Wrote(s, t, o, ClaimRemembered(Load(s.db, o), s.workers[w].read, verified, now).0)
            && forall v :: v in t.workers ==> (v in s.workers && t.workers[v] == s.workers[v]) || WorkerOk(t, t.workers[v])
  {
  }

  lemma OperatorStartKeeps(s: State, w: WorkerId, verified: bool, now: Time)
    requires Inv(s) && Enabled(s, OperatorStart(w, verified, now))
    ensures Keeps(s, OperatorClaims(s, w, verified, now))
  {
    var o := s.workers[w].order;
    assert WorkerOk(s, s.workers[w]) && RentalOk(s, o);
    var y := ClaimRemembered(Load(s.db, o), s.workers[w].read, verified, now).0;
    RememberedRows(Load(s.db, o), s.workers[w].read, verified, now);
    OperatorLeaves(s, w, verified, now);
    OneOrderKeeps(s, OperatorClaims(s, w, verified, now), o, y, Grant(None, None));
  }

  lemma SettleExpiryKeeps(s: State, w: WorkerId, kept: bool)
    requires Inv(s) && RevokerAt(s, w, Expiry) && s.workers[w].stage.Kicked?
    ensures Keeps(s, SettleExpiry(s, w, kept))
  {
    assert WorkerOk(s, s.workers[w]);
    AccountsKeep(s, SettleExpiry(s, w, kept));
  }

  lemma CrashKeeps(s: State, w: WorkerId)
    requires Inv(s)
    ensures Keeps(s, Leave(s, w))
  {
  }

  lemma AccountWriteKeeps(s: State, account: AccountId, row: Account)
    requires Inv(s)
    ensures Keeps(s, RecordingStep(s, AccountWrite(account, row)))
  {
    AccountsKeep(s, RecordingStep(s, AccountWrite(account, row)));
  }

  predicate Claims(a: Action) { a.RefundStart? || a.ExpiryStart? || a.ReplaceStart? }

  lemma RevokingKeeps(s: State, a: Action)
    requires Inv(s) && Enabled(s, a) && Revoking(a)
    ensures Keeps(s, RevokingStep(s, a))
  {
    match a
    case RefundStart(w, o, verified, now) => StartRefundKeeps(s, w, o, verified, now);
    case ExpiryStart(w, o, verified, now) => StartExpiryKeeps(s, w, o, verified, now);
    case ReplaceStart(w, o, found, account, candidates, limit, now, later) =>
      StartReplacementKeeps(s, w, o, found, account, candidates, limit, now, later);
    case Kick(w, effect, success) => LogOutKeeps(s, w, effect, success);
    case RefundFinish(w) => FinishRefundKeeps(s, w);
    case ExpiryFinish(w) => FinishExpiryKeeps(s, w);
    case ReplaceFinish(w, found, limit, now, stamp) => FinishReplacementKeeps(s, w, found, limit, now, stamp);
  }

  lemma DeliveringKeeps(s: State, a: Action)
    requires Inv(s) && Enabled(s, a) && Delivering(a)
    ensures Keeps(s, DeliveringStep(s, a))
  {
    match a
    case SendCode(o, found, account, now) => SayCodeKeeps(s, o, found, account, now);
    case Allocate(w, o, verified, candidates, now) => FirstAllocationKeeps(s, w, o, verified, candidates, now);
    case DeliveryStart(w, o, verified, now) => StartDeliveryKeeps(s, w, o, verified, now);
    case ReachBoundary(w, verified, limitsOk, candidates, now) => ToBoundaryKeeps(s, w, verified, limitsOk, candidates, now);
    case ReachBoundaryAgain(w, verified, limitsOk, now) => ToBoundaryAgainKeeps(s, w, verified, limitsOk, now);
    case Disclose(w, verified, limitsOk, outcome, now) => SendNowKeeps(s, w, verified, limitsOk, outcome, now);
  }

  /** A late status write. */
  lemma LateStatusKeeps(s: State, a: Action)
    requires Inv(s) && Enabled(s, a) && (a.PreviewWrite? || a.RetryComplete?)
    ensures Keeps(s, RememberingStep(s, a))
  {
    var t := RememberingStep(s, a);
    var o := s.workers[a.w].order;
    OrderRowKeeps(s, o, t.db.orders[o], t.orderly);
    CrashKeeps(s.(db := t.db, orderly := t.orderly), a.w);
  }

  lemma CheckReadKeeps(s: State, a: Action)
    requires Inv(s) && Enabled(s, a) && (a.CheckRead? || a.CheckDecide?)
    ensures Keeps(s, RememberingStep(s, a))
  {
    if a.CheckRead? {
      assert RentalOk(s, a.o);
    } else {
      assert WorkerOk(s, s.workers[a.w]);
    }
    AccountsKeep(s, RememberingStep(s, a));
  }

  /** Reads, and writes to jobs. */
  lemma StatusesKeep(s: State, a: Action)
    requires Inv(s) && Enabled(s, a) && Remembering(a) && !a.CheckWrite?
    ensures Keeps(s, RememberingStep(s, a))
  {
    if a.PreviewWrite? || a.RetryComplete? {
      LateStatusKeeps(s, a);
    } else if a.OperatorStart? {
      OperatorStartKeeps(s, a.w, a.verified, a.now);
    } else if a.CheckRead? || a.CheckDecide? {
      CheckReadKeeps(s, a);
    } else {
      AccountsKeep(s, RememberingStep(s, a));
    }
  }

  /** The rental that comes back was ended, so it had no reservation, and its account was clean. */
  lemma RevivedKeeps(s: State, o: OrderId)
    requires Inv(s) && o in s.db.orders && o in s.db.rentals && !Occupying(s.db.rentals[o].status)
    requires !Taken(s.db, o, s.db.rentals[o].account)
    ensures Inv(Commit(s, o, Closed(s.db, o)))
  {
    var t := Commit(s, o, Closed(s.db, o));
    var a := s.db.rentals[o].account;
    assert RentalOk(s, o);
    assert !Occupied(s.db, a);
    forall p | p in t.db.rentals
      ensures RentalOk(t, p)
    {
      assert RentalOk(s, p);
    }
    forall w | w in t.workers
      ensures WorkerOk(t, t.workers[w])
    {
      assert WorkerOk(s, s.workers[w]);
    }
    forall b | t.orderly && !Occupied(t.db, b)
      ensures Clean(t.log, b)
    {
      forall p | p in s.db.rentals
        ensures !Occupies(s.db.rentals[p], b)
      {
        assert !Occupies(t.db.rentals[p], b);
      }
      assert !Occupied(s.db, b);
    }
  }

  /** The late write of a command's first check: the one step that can break a promise. */
  lemma CheckWriteKeeps(s: State, w: WorkerId)
    requires Inv(s) && Enabled(s, CheckWrite(w))
    ensures Inv(RememberingStep(s, CheckWrite(w)))
    ensures !Revives(s, CheckWrite(w)) ==> Keeps(s, RememberingStep(s, CheckWrite(w)))
  {
    var o := s.workers[w].order;
    var y := Closed(s.db, o);
    if Revives(s, CheckWrite(w)) {
      RevivedKeeps(s, o);
    } else {
      PlainCommitKeeps(s, o, y);
    }
    CrashKeeps(Commit(s, o, y), w);
  }

  lemma RecordingKeeps(s: State, a: Action)
    requires Inv(s) && Enabled(s, a) && Recording(a)
    ensures Keeps(s, RecordingStep(s, a))
  {
    match a
    case NotifyStart(w, o, verified, now) => StartNotificationKeeps(s, w, o, verified, now);
    case NotifyFinish(w, delivered, now) => NotifyFinishKeeps(s, w, delivered, now);
    case Release(o, expected, seenLease, seenTarget, now) => ReleaseKeeps(s, o, expected, seenLease, seenTarget, now);
    case RetryByOperator(w, o, verified, now) => RetryNowKeeps(s, w, o, verified, now);
    case ExpirySettle(w, kept) => SettleExpiryKeeps(s, w, kept);
    case NewOrder(o, remote, minutes, tier) => OrderRowKeeps(s, o, Order(NewOrderStatus(remote), minutes, tier), s.orderly);
    case Close(o) => OrderRowKeeps(s, o, CloseSale(s.db.orders[o]).0, s.orderly);
    case AccountWrite(account, row) => AccountWriteKeeps(s, account, row);
    case Crash(w) => CrashKeeps(s, w);
  }

  /** One action, whatever it is. */
  lemma StepKeeps(s: State, a: Action)
    requires Inv(s) && Enabled(s, a)
    ensures Inv(Step(s, a))
    ensures Separate(s.db) && !Revives(s, a) ==> Separate(Step(s, a).db)
  {
    if Revoking(a) {
      RevokingKeeps(s, a);
    } else if Delivering(a) {
      DeliveringKeeps(s, a);
    } else if Queueing(a) {
      QueueingIsQuiet(s, a);
      AccountsKeep(s, QueueingStep(s, a));
    } else if Remembering(a) {
      if a.CheckWrite? {
        CheckWriteKeeps(s, a.w);
      } else {
        StatusesKeep(s, a);
      }
    } else {
      RecordingKeeps(s, a);
    }
  }

  // ---- Over whole runs --------------------------------------------------------------------------

  lemma {:induction false} RunKeeps(states: seq<State>, actions: seq<Action>, n: nat)
    requires IsRun(states, actions) && n <= |actions|
    ensures Inv(states[n])
  {
    if n > 0 {
      RunKeeps(states, actions, n - 1);
      StepKeeps(states[n - 1], actions[n - 1]);
    }
  }

  lemma {:induction false} RunOrderly(states: seq<State>, actions: seq<Action>, n: nat)
    requires IsRun(states, actions) && n <= |actions|
    requires forall i :: 0 <= i < n ==> Disciplined(states[i], actions[i])
    ensures states[n].orderly
  {
    if n > 0 {
      RunOrderly(states, actions, n - 1);
      StepOrderly(states[n - 1], actions[n - 1]);
    }
  }

  lemma RevokingOrderly(s: State, a: Action)
    requires Enabled(s, a) && Revoking(a)
    ensures RevokingStep(s, a).orderly == s.orderly
  {
  }

  lemma DeliveringOrderly(s: State, a: Action)
    requires Enabled(s, a) && Delivering(a)
    ensures DeliveringStep(s, a).orderly == s.orderly
  {
  }

  lemma OthersOrderly(s: State, a: Action)
    requires Enabled(s, a) && s.orderly && Disciplined(s, a)
    ensures Remembering(a) ==> RememberingStep(s, a).orderly
    ensures Recording(a) ==> RecordingStep(s, a).orderly
  {
  }

  lemma StepOrderly(s: State, a: Action)
    requires Enabled(s, a) && s.orderly && Disciplined(s, a)
    ensures Step(s, a).orderly
  {
    if Revoking(a) {
      RevokingOrderly(s, a);
    } else if Delivering(a) {
      DeliveringOrderly(s, a);
    } else if Queueing(a) {
      QueueingIsQuiet(s, a);
    } else {
      OthersOrderly(s, a);
    }
  }

  /** The account is promised to the replacement of another rental than that of `o`. */
  ghost predicate PromisedElsewhere(db: Tables, o: OrderId, a: AccountId) {
    exists p :: p in db.rentals && p != o && db.rentals[p].target == Some(a)
  }

  /** The write revives a rental whose account was promised to another one meanwhile. */
  ghost predicate BreaksPromise(s: State, a: Action) {
    Revives(s, a) && PromisedElsewhere(s.db, s.workers[a.w].order, s.db.rentals[s.workers[a.w].order].account)
  }

  lemma RevivedSeparates(db: Tables, db': Tables, o: OrderId)
    requires Separate(db) && o in db.rentals && db.rentals[o].target.None?
    requires db'.rentals == db.rentals[o := db.rentals[o].(status := ExpiryPending)]
    ensures Separate(db') <==> !PromisedElsewhere(db, o, db.rentals[o].account)
  {
    if p :| p in db.rentals && p != o && db.rentals[p].target == Some(db.rentals[o].account) {
      assert db'.rentals[p].target == Some(db'.rentals[o].account);
    }
  }

  /** The exact condition: an action makes an account occupied and promised at once if and only if it revives a
      rental whose account was promised to another one meanwhile. */
  lemma PromiseBrokenExactly(s: State, a: Action)
    requires Inv(s) && Separate(s.db) && Enabled(s, a)
    ensures Separate(Step(s, a).db) <==> !BreaksPromise(s, a)
  {
    StepKeeps(s, a);
    if Revives(s, a) {
      var o := s.workers[a.w].order;
      assert RentalOk(s, o);
      assert Step(s, a).db.rentals == s.db.rentals[o := s.db.rentals[o].(status := ExpiryPending)];
      RevivedSeparates(s.db, Step(s, a).db, o);
    }
  }

  ghost predicate AlwaysSeparate(states: seq<State>, n: nat)
    requires n < |states|
  {
    forall i :: 0 <= i <= n ==> Separate(states[i].db)
  }

  ghost predicate NoneBreaks(states: seq<State>, actions: seq<Action>, n: nat)
    requires n <= |actions| && n <= |states|
  {
    forall i :: 0 <= i < n ==> !BreaksPromise(states[i], actions[i])
  }

  lemma {:induction false} SeparateOverRun(states: seq<State>, actions: seq<Action>, n: nat)
    requires IsRun(states, actions) && n <= |actions|
    ensures AlwaysSeparate(states, n) <==> NoneBreaks(states, actions, n)
  {
    if n > 0 {
      SeparateOverRun(states, actions, n - 1);
      assert NoneBreaks(states, actions, n) <==> NoneBreaks(states, actions, n - 1) && !BreaksPromise(states[n - 1], actions[n - 1]);
      assert AlwaysSeparate(states, n) <==> AlwaysSeparate(states, n - 1) && Separate(states[n].db);
      if AlwaysSeparate(states, n - 1) {
        RunKeeps(states, actions, n - 1);
        PromiseBrokenExactly(states[n - 1], actions[n - 1]);
      }
    }
  }

  /** In every state of every run an account is occupied by at most one rental and promised to at most one
      replacement; and it is never both at once, provided that no late write revived a rental on a promised one. */
  lemma ExclusiveCustody(states: seq<State>, actions: seq<Action>, n: nat, o: OrderId, p: OrderId)
    requires IsRun(states, actions) && n <= |actions|
    requires o in states[n].db.rentals && p in states[n].db.rentals
    ensures var r, q := states[n].db.rentals[o], states[n].db.rentals[p];
            && (o != p && Occupying(r.status) && Occupying(q.status) ==> r.account != q.account)
            && (o != p && r.target.Some? ==> r.target != q.target)
            && ((o == p || NoneBreaks(states, actions, n)) && Occupying(r.status) ==> q.target != Some(r.account))
  {
    RunKeeps(states, actions, n);
    if NoneBreaks(states, actions, n) {
      SeparateOverRun(states, actions, n);
      assert Separate(states[n].db);
    }
    assert RentalOk(states[n], o);
    var r, q := states[n].db.rentals[o], states[n].db.rentals[p];
    assert Occupying(r.status) ==> Occupies(r, r.account);
    assert Occupying(q.status) ==> Occupies(q, q.account);
  }

  /** In every run of disciplined actions, an account that no rental occupies is safe to give away: it was
      logged out after everything that was ever disclosed of it. */
  lemma CleanRelease(states: seq<State>, actions: seq<Action>, n: nat, a: AccountId)
    requires IsRun(states, actions) && n <= |actions|
    requires forall i :: 0 <= i < n ==> Disciplined(states[i], actions[i])
    requires !Occupied(states[n].db, a)
    ensures Clean(states[n].log, a)
  {
    RunOrderly(states, actions, n);
    RunKeeps(states, actions, n);
  }

  /** Consequently a buyer who is sent the first secret of an account is the only one who can use it. */
  lemma FirstDisclosureIsPrivate(states: seq<State>, actions: seq<Action>, n: nat, o: OrderId)
    requires IsRun(states, actions) && n <= |actions|
    requires forall i :: 0 <= i < n ==> Disciplined(states[i], actions[i])
    requires o in states[n].db.rentals && Occupying(states[n].db.rentals[o].status) && states[n].db.rentals[o].attempts == 0
    ensures Clean(states[n].log, states[n].db.rentals[o].account)
  {
    RunOrderly(states, actions, n);
    RunKeeps(states, actions, n);
    assert RentalOk(states[n], o);
  }

  /** A replacement whose logout succeeded and that is about to switch to a sellable target. */
  predicate ReadyToSwitch(x: Locked, claim: Claim, target: Option<Account>, limit: nat, now: Time) {
    && x.rental.Some? && claim.target.Some? && target.Some?
    && var r := x.rental.value;
    && r.account == claim.account && r.lease == Some(claim.at) && r.target == claim.target && r.delivery.Sent? && r.attempts > 0
    && r.status.Active? && r.expiresAt > now + REPLACEMENT_MIN_REMAINING && r.replacements < limit
    && !InRefund(x.order.status) && OpenForSale(target.value) && target.value.tier == r.tier
  }

  lemma LeakRows(x: Locked, claim: Claim, target: Option<Account>, limit: nat, now: Time, stamp: Time)
    requires ReadyToSwitch(x, claim, target, limit, now) && x.account.Some? && OpenForSale(x.account.value)
    ensures CodeAuthorization(x, true, claim.account, now) == (x, true)
    ensures var (y, switched) := ReplaceFinalize(x, claim, true, true, target, limit, now, stamp);
            switched && y.rental.Some? && Some(y.rental.value.account) == claim.target
  {
  }

  lemma LeakedState(s: State, t: State, o: OrderId, y: Locked, a: AccountId)
    requires Exclusive(s.db) && o in s.db.rentals && o in s.db.orders && Occupies(s.db.rentals[o], a)
    requires t.log == s.log + [Code(o, a)] && y.rental.Some? && t.db.rentals == s.db.rentals[o := y.rental.value]
    requires y.rental.value.account != a
    ensures !Occupied(t.db, a) && !Clean(t.log, a)
  {
    assert t.log[|s.log|] == Code(o, a);
    forall p | p in t.db.rentals
      ensures !Occupies(t.db.rentals[p], a)
    {
      assert p != o ==> t.db.rentals[p] == s.db.rentals[p] && !Occupies(s.db.rentals[p], a);
    }
  }

  lemma LeakedCode(s: State, o: OrderId, a: AccountId, now: Time)
    requires o in s.db.orders && CodeAuthorization(Load(s.db, o), true, a, now) == (Load(s.db, o), true)
    ensures SayCode(s, o, true, a, now) == Say(s, Code(o, a))
  {
  }

  lemma LeakedSwitch(s: State, w: WorkerId, y: Locked, limit: nat, now: Time, stamp: Time)
    requires RevokerAt(s, w, Replacement) && s.workers[w].stage == Kicked(true) && s.workers[w].claim.target.Some?
    requires ReplaceFinalize(Load(s.db, s.workers[w].claim.order), s.workers[w].claim, true, true,
                             RowOf(s.db.accounts, s.workers[w].claim.target.value), limit, now, stamp) == (y, true)
    requires y.rental.Some? && !Taken(s.db, s.workers[w].claim.order, y.rental.value.account)
    ensures var t := FinishReplacement(s, w, true, limit, now, stamp);
            t.log == s.log && t.db.rentals == Store(s.db, s.workers[w].claim.order, y).rentals
  {
  }

  /** What the discipline on account rows excludes.  Between the logout and the switch of a replacement, a
      write that puts the account back on sale lets the buyer fetch one more code, and the account is
      released with that code still out. */
  lemma UndisciplinedWriteLeaks(s: State, w: WorkerId, row: Account, limit: nat, now: Time, stamp: Time)
    requires Inv(s) && RevokerAt(s, w, Replacement) && s.workers[w].stage == Kicked(true) && OpenForSale(row)
    requires var claim := s.workers[w].claim;
             && claim.target.Some? && claim.target != Some(claim.account) && FreshStamp(s, claim.order, stamp)
             && ReadyToSwitch(Load(s.db, claim.order), claim, RowOf(s.db.accounts, claim.target.value), limit, now)
             && !Taken(s.db, claim.order, claim.target.value)
    ensures var claim := s.workers[w].claim;
            var s1 := s.(db := s.db.(accounts := s.db.accounts[claim.account := row]));
            var s2 := SayCode(s1, claim.order, true, claim.account, now);
            && RevokerAt(s2, w, Replacement) && s2.workers[w].stage.Kicked?
            && var t := FinishReplacement(s2, w, true, limit, now, stamp);
               !Occupied(t.db, claim.account) && !Clean(t.log, claim.account)
  {
    var claim := s.workers[w].claim;
    var o, a := claim.order, claim.account;
    var target := RowOf(s.db.accounts, claim.target.value);
    var s1 := s.(db := s.db.(accounts := s.db.accounts[a := row]));
    var x := Load(s1.db, o);
    assert x == Load(s.db, o).(account := Some(row));
    LeakRows(x, claim, target, limit, now, stamp);
    LeakedCode(s1, o, a, now);
    var s2 := Say(s1, Code(o, a));
    var y := ReplaceFinalize(x, claim, true, true, target, limit, now, stamp).0;
    LeakedSwitch(s2, w, y, limit, now, stamp);
    assert Occupies(s.db.rentals[o], a);
    LeakedState(s, FinishReplacement(s2, w, true, limit, now, stamp), o, y, a);
  }
}
