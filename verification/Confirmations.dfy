/** When a confirmed delivery stops being one. */
module Confirmations {
  import opened Rows
  import opened Transitions
  import opened Protocol
  import Custody

  predicate SentIn(db: Tables, o: OrderId) { o in db.rentals && db.rentals[o].delivery.Sent? }

  /** The operator's own claim, made on the row as it was at the reset, takes the delivery over or hands it to the
      operator. */
  predicate Overwrites(s: State, a: Action, o: OrderId) {
    && a.OperatorStart? && a.w in s.workers && s.workers[a.w].Operator? && s.workers[a.w].order == o && o in s.db.orders
    && (!a.verified || ClaimDelivery(Load(s.db, o).(rental := Some(s.workers[a.w].read)), true, a.now).1)
  }

  /** A replacement switches to its new account, whose credentials have to be delivered. */
  ghost predicate Switches(s: State, a: Action, o: OrderId) {
    && a.ReplaceFinish? && RevokerAt(s, a.w, Replacement) && s.workers[a.w].stage.Kicked? && s.workers[a.w].claim.order == o
    && Switch(s, a.w, a.found, a.limit, a.now, a.stamp).1
  }

  /** How a transaction treats a confirmed delivery. */
  ghost predicate TouchSent(s: State, a: Action, touch: Touch) {
    && (touch.Rows? && SentIn(s.db, touch.o) ==>
          touch.rows.rental.Some?
          && (touch.rows.rental.value.delivery.Sent? <==> !Overwrites(s, a, touch.o) && !Switches(s, a, touch.o)))
    && (forall o :: Overwrites(s, a, o) || Switches(s, a, o) ==> touch.Rows? && touch.o == o)
  }

  lemma RevokingSent(s: State, a: Action)
    requires Enabled(s, a) && Revoking(a)
    ensures TouchSent(s, a, RevokingRows(s, a))
  {
  }

  lemma DeliveringSent(s: State, a: Action)
    requires Enabled(s, a) && Delivering(a)
    ensures TouchSent(s, a, DeliveringRows(s, a))
  {
  }

  lemma RecordingSent(s: State, a: Action)
    requires Enabled(s, a) && Recording(a)
    ensures TouchSent(s, a, RecordingRows(s, a))
  {
  }

  lemma RememberedSent(x: Locked, read: Rental, verified: bool, now: Time)
    requires x.rental.Some? && x.rental.value.delivery.Sent? && read.delivery.Failed?
    ensures var y := ClaimRemembered(x, read, verified, now).0;
            y.rental.Some?
            && (y.rental.value.delivery.Sent? <==> verified && !ClaimDelivery(x.(rental := Some(read)), true, now).1)
  {
  }

  lemma RememberingSent(s: State, a: Action)
    requires Custody.Inv(s) && Enabled(s, a) && Remembering(a)
    ensures TouchSent(s, a, RememberingRows(s, a))
  {
    if a.OperatorStart? {
      assert Custody.WorkerOk(s, s.workers[a.w]);
      var o := s.workers[a.w].order;
      if SentIn(s.db, o) {
        RememberedSent(Load(s.db, o), s.workers[a.w].read, a.verified, a.now);
      }
    }
  }

  lemma StepSent(s: State, a: Action)
    requires Custody.Inv(s) && Enabled(s, a)
    ensures TouchSent(s, a, Touched(s, a))
  {
    if Revoking(a) {
      RevokingSent(s, a);
    } else if Delivering(a) {
      DeliveringSent(s, a);
    } else if Remembering(a) {
      RememberingSent(s, a);
    } else if Recording(a) {
      RecordingSent(s, a);
    }
  }

  lemma SentFrom(s: State, t: State, a: Action, touch: Touch, o: OrderId)
    requires WritesOnly(s, t, a, touch) && TouchSent(s, a, touch) && SentIn(s.db, o)
    ensures SentIn(t.db, o) <==> !Overwrites(s, a, o) && !Switches(s, a, o)
  {
  }

  /** The exact condition: an action takes the confirmation of a delivery away if and only if it is an operator's
      claim on the row as it was at the reset, which claims the delivery or finds it unverified, or a replacement
      that switches the rental to a new account. */
  lemma SentExactly(s: State, a: Action, o: OrderId)
    requires Custody.Inv(s) && Enabled(s, a) && SentIn(s.db, o)
    ensures SentIn(Step(s, a).db, o) <==> !Overwrites(s, a, o) && !Switches(s, a, o)
  {
    TouchedIsWritten(s, a);
    StepSent(s, a);
    SentFrom(s, Step(s, a), a, Touched(s, a), o);
  }

  /** Over whole runs: a confirmed delivery stays confirmed as long as no operator claim overwrites it and no
      replacement succeeds it. */
  lemma {:induction false} SentHolds(states: seq<State>, actions: seq<Action>, i: nat, j: nat, o: OrderId)
    requires IsRun(states, actions) && i <= j <= |actions| && SentIn(states[i].db, o)
    requires forall k :: i <= k < j ==> !Overwrites(states[k], actions[k], o) && !Switches(states[k], actions[k], o)
    ensures SentIn(states[j].db, o)
  {
    if i < j {
      SentHolds(states, actions, i, j - 1, o);
      Custody.RunKeeps(states, actions, j - 1);
      SentExactly(states[j - 1], actions[j - 1], o);
    }
  }
}
