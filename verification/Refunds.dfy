/** A refund is absorbing, and a rental's life only moves forward. */
module Refunds {
  import opened Rows
  import opened Transitions
  import opened Protocol

  /** What a late status write stores, given the status it meets: completed, refund pending, or nothing. */
  predicate StatusMoves(s: State, a: Action, before: OrderStatus, after: OrderStatus) {
    if LateStatus(s, a) then
      after == if WritesCompleted(s, a) then Completed else if WritesRefundPending(s, a) then RefundPending else before
    else (InRefund(before) ==> InRefund(after)) && (before.Refunded? ==> after.Refunded?)
  }

  /** A rental's status never falls back, the late write of a command's first check excepted. */
  ghost predicate LifeMoves(s: State, a: Action, before: RentalStatus, after: RentalStatus) {
    if Revives(s, a) then after.ExpiryPending? else Onward(before, after)
  }

  /** The step that a transaction takes on the rows of one order. */
  ghost predicate TouchMoves(s: State, a: Action, touch: Touch) {
    && (touch.Rows? ==>
          && touch.o in s.db.orders && StatusMoves(s, a, s.db.orders[touch.o].status, touch.rows.order.status)
          && (touch.o in s.db.rentals ==>
                touch.rows.rental.Some? && LifeMoves(s, a, s.db.rentals[touch.o].status, touch.rows.rental.value.status)))
    && (LateStatus(s, a) || Revives(s, a) ==> touch.Rows? && touch.o == s.workers[a.w].order)
  }

  lemma RevokingMoves(s: State, a: Action)
    requires Enabled(s, a) && Revoking(a)
    ensures TouchMoves(s, a, RevokingRows(s, a))
  {
  }

  lemma DeliveringMoves(s: State, a: Action)
    requires Enabled(s, a) && Delivering(a)
    ensures TouchMoves(s, a, DeliveringRows(s, a))
  {
  }

  lemma RecordingMoves(s: State, a: Action)
    requires Enabled(s, a) && Recording(a)
    ensures TouchMoves(s, a, RecordingRows(s, a))
  {
  }

  lemma RememberingMoves(s: State, a: Action)
    requires Enabled(s, a) && Remembering(a)
    ensures TouchMoves(s, a, RememberingRows(s, a))
  {
  }

  lemma StepMoves(s: State, a: Action)
    requires Enabled(s, a)
    ensures TouchMoves(s, a, Touched(s, a))
  {
    if Revoking(a) {
      RevokingMoves(s, a);
    } else if Delivering(a) {
      DeliveringMoves(s, a);
    } else if Remembering(a) {
      RememberingMoves(s, a);
    } else if Recording(a) {
      RecordingMoves(s, a);
    }
  }

  /** What an action can add to the log. */
  ghost predicate SaysLawfully(s: State, t: State) {
    t.log == s.log
    || (|t.log| == |s.log| + 1 && s.log == t.log[..|s.log|]
        && forall o :: RefundedIn(s, o) ==> !DisclosedFor(t.log[|s.log|], o))
  }

  lemma RevokingSays(s: State, a: Action)
    requires Enabled(s, a) && Revoking(a)
    ensures SaysLawfully(s, RevokingStep(s, a))
  {
  }

  lemma DeliveringSays(s: State, a: Action)
    requires Enabled(s, a) && Delivering(a)
    ensures SaysLawfully(s, DeliveringStep(s, a))
  {
    if !a.Disclose? && !a.SendCode? {
      assert DeliveringStep(s, a).log == s.log;
    }
  }

  lemma RecordingSays(s: State, a: Action)
    requires Enabled(s, a) && Recording(a)
    ensures RecordingStep(s, a).log == s.log
  {
  }

  lemma RememberingSays(s: State, a: Action)
    requires Enabled(s, a) && Remembering(a)
    ensures RememberingStep(s, a).log == s.log
  {
  }

  lemma StepSays(s: State, a: Action)
    requires Enabled(s, a)
    ensures SaysLawfully(s, Step(s, a))
  {
    if Revoking(a) {
      RevokingSays(s, a);
    } else if Delivering(a) {
      DeliveringSays(s, a);
    } else if Queueing(a) {
      QueueingIsQuiet(s, a);
    } else if Remembering(a) {
      RememberingSays(s, a);
    } else {
      RecordingSays(s, a);
    }
  }

  lemma SaidFrom(s: State, t: State, o: OrderId)
    requires SaysLawfully(s, t) && RefundedIn(s, o)
    ensures s.log <= t.log
    ensures forall k :: |s.log| <= k < |t.log| ==> !DisclosedFor(t.log[k], o)
  {
  }

  /** A code or credentials leave only for an order that is not in refund. */
  lemma NothingSaidInRefund(s: State, a: Action, o: OrderId)
    requires Enabled(s, a) && RefundedIn(s, o)
    ensures s.log <= Step(s, a).log
    ensures forall k :: |s.log| <= k < |Step(s, a).log| ==> !DisclosedFor(Step(s, a).log[k], o)
  {
    StepSays(s, a);
    SaidFrom(s, Step(s, a), o);
  }

  /** The two late writes that take an order out of refund. */
  predicate LeavesRefund(s: State, a: Action, o: OrderId) {
    LateStatus(s, a) && s.workers[a.w].order == o && WritesCompleted(s, a)
  }

  /** The one late write that turns a finished refund back into a pending one. */
  predicate ReopensRefund(s: State, a: Action, o: OrderId) {
    LateStatus(s, a) && s.workers[a.w].order == o && WritesRefundPending(s, a)
  }

  lemma OrderMoves(s: State, t: State, a: Action, touch: Touch, o: OrderId)
    requires WritesOnly(s, t, a, touch) && TouchMoves(s, a, touch) && RefundedIn(s, o)
    ensures RefundedIn(t, o) <==> !LeavesRefund(s, a, o)
    ensures s.db.orders[o].status.Refunded? ==>
              (t.db.orders[o].status.Refunded? <==> !LeavesRefund(s, a, o) && !ReopensRefund(s, a, o))
  {
  }

  /** An action takes an order out of refund exactly when it is one of two writes that rest on a status read
      earlier: the preview's completion of an order it read as pending, and the scheduler's completion of an
      order it did not read as completed.  A finished refund is lost exactly to those, or to a preview that
      stages the refund of an order it did not read as being in refund. */
  lemma RefundIsAbsorbing(s: State, a: Action, o: OrderId)
    requires Enabled(s, a) && RefundedIn(s, o)
    ensures RefundedIn(Step(s, a), o) <==> !LeavesRefund(s, a, o)
    ensures s.db.orders[o].status.Refunded? ==>
              (Step(s, a).db.orders[o].status.Refunded? <==> !LeavesRefund(s, a, o) && !ReopensRefund(s, a, o))
  {
    TouchedIsWritten(s, a);
    StepMoves(s, a);
    OrderMoves(s, Step(s, a), a, Touched(s, a), o);
  }

  lemma RentalMoves(s: State, t: State, a: Action, touch: Touch, o: OrderId)
    requires WritesOnly(s, t, a, touch) && TouchMoves(s, a, touch) && o in s.db.rentals
    ensures o in t.db.rentals
    ensures Onward(s.db.rentals[o].status, t.db.rentals[o].status) <==> !(Revives(s, a) && s.workers[a.w].order == o)
  {
  }

  /** An action moves a rental backwards in active < expiry_pending < expired < refunded exactly when it is the
      late write of a command's first check that finds the rental ended and its account not occupied. */
  lemma RentalMovesForward(s: State, a: Action, o: OrderId)
    requires Enabled(s, a) && o in s.db.rentals
    ensures o in Step(s, a).db.rentals
    ensures Onward(s.db.rentals[o].status, Step(s, a).db.rentals[o].status)
            <==> !(Revives(s, a) && s.workers[a.w].order == o)
  {
    TouchedIsWritten(s, a);
    StepMoves(s, a);
    RentalMoves(s, Step(s, a), a, Touched(s, a), o);
  }

  /** Over a whole run: from the moment an order is in refund it stays there and no secret is sent for it,
      whatever else happens, as long as no late write completes it; and a finished refund stays finished as
      long as no late preview stages it again. */
  lemma {:induction false} RefundHolds(states: seq<State>, actions: seq<Action>, i: nat, j: nat, o: OrderId)
    requires IsRun(states, actions) && i <= j <= |actions|
    requires RefundedIn(states[i], o)
    requires forall k :: i <= k < j ==> !LeavesRefund(states[k], actions[k], o)
    ensures RefundedIn(states[j], o)
    ensures states[i].db.orders[o].status.Refunded? && (forall k :: i <= k < j ==> !ReopensRefund(states[k], actions[k], o))
            ==> states[j].db.orders[o].status.Refunded?
    ensures states[i].log <= states[j].log
    ensures forall k :: |states[i].log| <= k < |states[j].log| ==> !DisclosedFor(states[j].log[k], o)
  {
    if i < j {
      RefundHolds(states, actions, i, j - 1, o);
      RefundIsAbsorbing(states[j - 1], actions[j - 1], o);
      NothingSaidInRefund(states[j - 1], actions[j - 1], o);
    }
  }

  lemma {:induction false} RentalLife(states: seq<State>, actions: seq<Action>, i: nat, j: nat, o: OrderId)
    requires IsRun(states, actions) && i <= j <= |actions| && o in states[i].db.rentals
    requires forall k :: i <= k < j ==> !(Revives(states[k], actions[k]) && states[k].workers[actions[k].w].order == o)
    ensures o in states[j].db.rentals
    ensures Onward(states[i].db.rentals[o].status, states[j].db.rentals[o].status)
  {
    if i < j {
      RentalLife(states, actions, i, j - 1, o);
      RentalMovesForward(states[j - 1], actions[j - 1], o);
    }
  }
}
