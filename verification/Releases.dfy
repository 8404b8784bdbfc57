/** Exactly which actions release an account that is not clean. */
module Releases {
  import opened Rows
  import opened Transitions
  import opened Protocol
  import opened Custody
  import Refunds

  /** Every account that no rental occupies was logged out after everything that was disclosed of it. */
  ghost predicate ReleasedClean(s: State) { forall x :: !Occupied(s.db, x) ==> Clean(s.log, x) }

  /** The action ends the occupation of the account of `o`: the end of a refund or of an expiry that finishes it, a
      replacement that switches, or a first delivery that is moved. */
  ghost predicate FreesNow(s: State, a: Action, o: OrderId)
    requires Enabled(s, a)
  {
    o in s.db.rentals
    && match a
       case RefundFinish(w) =>
         o == s.workers[w].claim.order && RefundFinalize(Load(s.db, o), s.workers[w].claim, s.workers[w].stage.success).1
       case ExpiryFinish(w) =>
         o == s.workers[w].claim.order && s.workers[w].stage.success && s.db.rentals[o].lease == Some(s.workers[w].claim.at)
         && !InRefund(s.db.orders[o].status) && s.db.rentals[o].account == s.workers[w].claim.account && s.db.rentals[o].status.ExpiryPending?
       case ReplaceFinish(w, found, limit, now, stamp) =>
         o == s.workers[w].claim.order && Switch(s, w, found, limit, now, stamp).1
       case ReachBoundary(w, verified, limitsOk, candidates, now) =>
         o == s.workers[w].order
         && Boundary(Load(s.db, o), verified, limitsOk, Pick(s.db, candidates, Some(s.db.rentals[o].account)), now).1.Moved?
       case _ => false
  }

  /** The account it ends the occupation of was disclosed since its last logout. */
  ghost predicate ReleasesUnclean(s: State, a: Action)
    requires Enabled(s, a)
  {
    exists o :: FreesNow(s, a, o) && !Clean(s.log, s.db.rentals[o].account)
  }

  ghost predicate TouchFrees(s: State, a: Action, touch: Touch)
    requires Enabled(s, a)
  {
    && (touch.Rows? && touch.o in s.db.rentals && touch.o in s.db.orders ==>
          touch.rows.rental.Some? && (Frees(Load(s.db, touch.o), touch.rows) <==> FreesNow(s, a, touch.o)))
    && (forall o :: FreesNow(s, a, o) ==> touch.Rows? && touch.o == o && o in s.db.orders)
  }

  lemma SwitchingFrees(s: State, a: Action)
    requires Inv(s) && Enabled(s, a) && a.ReplaceFinish?
    ensures TouchFrees(s, a, RevokingRows(s, a))
  {
    var o := s.workers[a.w].claim.order;
    assert WorkerOk(s, s.workers[a.w]) && RentalOk(s, o);
  }

  lemma EndingFrees(s: State, a: Action)
    requires Inv(s) && Enabled(s, a) && Ending(a)
    ensures TouchFrees(s, a, RevokingRows(s, a))
  {
    if a.ReplaceFinish? {
      SwitchingFrees(s, a);
    }
  }

  lemma RevokingFrees(s: State, a: Action)
    requires Inv(s) && Enabled(s, a) && Revoking(a)
    ensures TouchFrees(s, a, RevokingRows(s, a))
  {
    if Ending(a) {
      EndingFrees(s, a);
    }
  }

  lemma MovingFrees(s: State, a: Action)
    requires Enabled(s, a) && a.ReachBoundary?
    ensures TouchFrees(s, a, DeliveringRows(s, a))
  {
  }

  lemma DeliveringFrees(s: State, a: Action)
    requires Enabled(s, a) && Delivering(a)
    ensures TouchFrees(s, a, DeliveringRows(s, a))
  {
    if a.ReachBoundary? {
      MovingFrees(s, a);
    }
  }

  lemma RecordingFrees(s: State, a: Action)
    requires Enabled(s, a) && Recording(a)
    ensures TouchFrees(s, a, RecordingRows(s, a))
  {
  }

  lemma RememberingFrees(s: State, a: Action)
    requires Enabled(s, a) && Remembering(a)
    ensures TouchFrees(s, a, RememberingRows(s, a))
  {
  }

  lemma StepFrees(s: State, a: Action)
    requires Inv(s) && Enabled(s, a)
    ensures TouchFrees(s, a, Touched(s, a))
  {
    if Revoking(a) {
      RevokingFrees(s, a);
    } else if Delivering(a) {
      DeliveringFrees(s, a);
    } else if Remembering(a) {
      RememberingFrees(s, a);
    } else if Recording(a) {
      RecordingFrees(s, a);
    }
  }

  /** What is disclosed is disclosed of an account that is occupied afterwards; a release says nothing. */
  ghost predicate SaysOfOccupied(s: State, t: State, a: Action)
    requires Enabled(s, a)
  {
    && (t.log == s.log || exists e :: t.log == s.log + [e] && forall x :: Discloses(e, x) ==> Occupied(t.db, x))
    && ((exists o :: FreesNow(s, a, o)) ==> t.log == s.log)
  }

  lemma RevokingSaysOf(s: State, a: Action)
    requires Enabled(s, a) && Revoking(a)
    ensures SaysOfOccupied(s, RevokingStep(s, a), a)
  {
    if a.Kick? {
      assert forall x :: !Discloses(LoggedOut(s.workers[a.w].claim.account), x);
      assert RevokingStep(s, a).log == s.log || RevokingStep(s, a).log == s.log + [LoggedOut(s.workers[a.w].claim.account)];
    } else {
      assert RevokingStep(s, a).log == s.log;
    }
  }

  lemma SendCodeSaysOf(s: State, a: Action)
    requires Enabled(s, a) && a.SendCode?
    ensures SaysOfOccupied(s, DeliveringStep(s, a), a)
  {
    var t := DeliveringStep(s, a);
    if t.log != s.log {
      assert t.log == s.log + [Code(a.o, a.account)];
      assert Occupies(t.db.rentals[a.o], a.account);
    }
  }

  lemma DiscloseSaysOf(s: State, a: Action)
    requires Inv(s) && Enabled(s, a) && a.Disclose?
    ensures SaysOfOccupied(s, DeliveringStep(s, a), a)
  {
    var t, o, stage := DeliveringStep(s, a), s.workers[a.w].order, s.workers[a.w].courier;
    assert WorkerOk(s, s.workers[a.w]) && RentalOk(s, o);
    SendRows(Load(s.db, o), a.verified, a.limitsOk, stage.account, stage.attempt, a.outcome, a.now);
    if t.log != s.log {
      assert Occupies(t.db.rentals[o], stage.account);
      assert t.log == s.log + [t.log[|s.log|]];
    }
  }

  lemma DeliveringSaysOf(s: State, a: Action)
    requires Inv(s) && Enabled(s, a) && Delivering(a)
    ensures SaysOfOccupied(s, DeliveringStep(s, a), a)
  {
    if a.SendCode? {
      SendCodeSaysOf(s, a);
    } else if a.Disclose? {
      DiscloseSaysOf(s, a);
    } else {
      assert DeliveringStep(s, a).log == s.log;
    }
  }

  lemma StepSaysOf(s: State, a: Action)
    requires Inv(s) && Enabled(s, a)
    ensures SaysOfOccupied(s, Step(s, a), a)
  {
    if Revoking(a) {
      RevokingSaysOf(s, a);
    } else if Delivering(a) {
      DeliveringSaysOf(s, a);
    } else if Queueing(a) {
      QueueingIsQuiet(s, a);
    } else if Remembering(a) {
      Refunds.RememberingSays(s, a);
    } else {
      Refunds.RecordingSays(s, a);
    }
  }

  lemma StaysClean(s: State, t: State, a: Action, x: AccountId)
    requires Enabled(s, a) && SaysOfOccupied(s, t, a) && !Occupied(t.db, x) && Clean(s.log, x)
    ensures Clean(t.log, x)
  {
    if t.log != s.log {
      var e :| t.log == s.log + [e] && forall y :: Discloses(e, y) ==> Occupied(t.db, y);
      CleanAfter(s.log, e, x);
    }
  }

  /** The rental that occupied an account no rental occupies any more is the one that freed it. */
  lemma FreedByTouch(s: State, t: State, a: Action, touch: Touch, x: AccountId) returns (o: OrderId)
    requires Enabled(s, a) && WritesOnly(s, t, a, touch) && TouchFrees(s, a, touch) && Inv(s)
    requires Occupied(s.db, x) && !Occupied(t.db, x)
    ensures FreesNow(s, a, o) && s.db.rentals[o].account == x
  {
    o :| o in s.db.rentals && Occupies(s.db.rentals[o], x);
    assert RentalOk(s, o);
    assert o in t.db.rentals && !Occupies(t.db.rentals[o], x);
  }

  lemma FreedIsUnoccupied(s: State, t: State, a: Action, touch: Touch, o: OrderId)
    requires Enabled(s, a) && WritesOnly(s, t, a, touch) && TouchFrees(s, a, touch) && Inv(s) && FreesNow(s, a, o)
    ensures !Occupied(t.db, s.db.rentals[o].account)
  {
    var x := s.db.rentals[o].account;
    assert RentalOk(s, o) && Occupies(s.db.rentals[o], x);
    forall p | p in t.db.rentals
      ensures !Occupies(t.db.rentals[p], x)
    {
      if p != o {
        assert p in s.db.rentals && t.db.rentals[p] == s.db.rentals[p] && !Occupies(s.db.rentals[p], x);
      }
    }
  }

  lemma ReleaseFrom(s: State, t: State, a: Action, touch: Touch)
    requires Inv(s) && ReleasedClean(s) && Enabled(s, a)
    requires WritesOnly(s, t, a, touch) && TouchFrees(s, a, touch) && SaysOfOccupied(s, t, a)
    ensures ReleasedClean(t) <==> !ReleasesUnclean(s, a)
  {
    if ReleasesUnclean(s, a) {
      var o :| FreesNow(s, a, o) && !Clean(s.log, s.db.rentals[o].account);
      FreedIsUnoccupied(s, t, a, touch, o);
      assert t.log == s.log;
    } else {
      forall x | !Occupied(t.db, x)
        ensures Clean(t.log, x)
      {
        if Occupied(s.db, x) {
          var o := FreedByTouch(s, t, a, touch, x);
          assert Clean(s.log, s.db.rentals[o].account);
        }
        StaysClean(s, t, a, x);
      }
    }
  }

  /** The exact condition: an action leaves an unoccupied account that is not clean if and only if it ends the
      occupation of an account that was disclosed since its last logout. */
  lemma ReleaseExactly(s: State, a: Action)
    requires Inv(s) && ReleasedClean(s) && Enabled(s, a)
    ensures ReleasedClean(Step(s, a)) <==> !ReleasesUnclean(s, a)
  {
    TouchedIsWritten(s, a);
    StepFrees(s, a);
    StepSaysOf(s, a);
    ReleaseFrom(s, Step(s, a), a, Touched(s, a));
  }

  ghost predicate AlwaysReleasedClean(states: seq<State>, n: nat)
    requires n < |states|
  {
    forall i :: 0 <= i <= n ==> ReleasedClean(states[i])
  }

  ghost predicate NoneReleasesUnclean(states: seq<State>, actions: seq<Action>, n: nat)
    requires n <= |actions| && n <= |states| && forall i :: 0 <= i < n ==> Enabled(states[i], actions[i])
  {
    forall i :: 0 <= i < n ==> !ReleasesUnclean(states[i], actions[i])
  }

  /** Over whole runs, disciplined or not: unoccupied accounts are clean throughout if and only if no action of the
      run ends the occupation of an account that was disclosed since its last logout. */
  lemma {:induction false} ReleaseOverRun(states: seq<State>, actions: seq<Action>, n: nat)
    requires IsRun(states, actions) && n <= |actions|
    ensures AlwaysReleasedClean(states, n) <==> NoneReleasesUnclean(states, actions, n)
  {
    if n > 0 {
      ReleaseOverRun(states, actions, n - 1);
      assert NoneReleasesUnclean(states, actions, n)
          <==> NoneReleasesUnclean(states, actions, n - 1) && !ReleasesUnclean(states[n - 1], actions[n - 1]);
      assert AlwaysReleasedClean(states, n) <==> AlwaysReleasedClean(states, n - 1) && ReleasedClean(states[n]);
      if AlwaysReleasedClean(states, n - 1) {
        RunKeeps(states, actions, n - 1);
        ReleaseExactly(states[n - 1], actions[n - 1]);
      }
    }
  }
}
