/** The paid term: always the bought length, started by the first send, never extended afterwards. */
module PaidTerm {
  import opened Rows
  import opened Transitions
  import opened Protocol
  import Custody
  import Deliveries
  import Refunds

  predicate SameTerm(r: Rental, r': Rental) { r'.startedAt == r.startedAt && r'.expiresAt == r.expiresAt }

  /** The first welcome attempt is over: it was made, a second one was counted, or a replacement took over. */
  ghost predicate FirstSendMade(s: State, o: OrderId)
    requires o in s.db.rentals
  {
    s.db.rentals[o].template.ReplaceSuccess? || s.db.rentals[o].attempts >= 2
    || exists i :: 0 <= i < |s.log| && Deliveries.IsWelcome(s.log[i], o) && s.log[i].attempt == 1
  }

  /** The only transactions that may date the term: the boundary before attempt 1 and the end of attempt 1. */
  ghost predicate DatesTerm(s: State, a: Action, r: Rental)
    requires Enabled(s, a)
  {
    r.template.Welcome? &&
    (((a.ReachBoundary? || a.ReachBoundaryAgain?) && r.attempts == 0)
     || (a.Disclose? && s.workers[a.w].courier.attempt == 1 == r.attempts))
  }

  ghost predicate TermKept(s: State, a: Action, touch: Touch)
    requires Enabled(s, a)
  {
    touch.Rows? && touch.o in s.db.rentals ==>
      && touch.rows.rental.Some?
      && var r, r' := s.db.rentals[touch.o], touch.rows.rental.value;
      && r'.minutes == r.minutes
      && (r.template.ReplaceSuccess? ==> r'.template.ReplaceSuccess?)
      && (!SameTerm(r, r') ==> DatesTerm(s, a, r))
      && (r.attempts >= 2 ==> r'.attempts >= 2 || r'.template.ReplaceSuccess?)
      && (Unsent(r) && r.status.Active? && (r.delivery.Sent? ==> r.attempts > 0) && !a.CheckWrite? ==> !r'.status.ExpiryPending?)
  }

  lemma EndingKeepsTerm(s: State, a: Action)
    requires Enabled(s, a) && Ending(a)
    ensures TermKept(s, a, RevokingRows(s, a))
  {
  }

  lemma RevokingKeepsTerm(s: State, a: Action)
    requires Enabled(s, a) && Revoking(a)
    ensures TermKept(s, a, RevokingRows(s, a))
  {
    if Ending(a) {
      EndingKeepsTerm(s, a);
    }
  }

  lemma MovedKeepsTerm(s: State, a: Action)
    requires Enabled(s, a) && a.ReachBoundaryAgain?
    ensures TermKept(s, a, DeliveringRows(s, a))
  {
  }

  lemma BoundingKeepsTerm(s: State, a: Action)
    requires Enabled(s, a) && Bounding(a)
    ensures TermKept(s, a, DeliveringRows(s, a))
  {
    if a.ReachBoundaryAgain? {
      MovedKeepsTerm(s, a);
    }
  }

  lemma DeliveringKeepsTerm(s: State, a: Action)
    requires Enabled(s, a) && Delivering(a)
    ensures TermKept(s, a, DeliveringRows(s, a))
    ensures a.Disclose? ==> DeliveringRows(s, a).o == s.workers[a.w].order
  {
    if Bounding(a) {
      BoundingKeepsTerm(s, a);
    }
  }

  lemma RecordingKeepsTerm(s: State, a: Action)
    requires Enabled(s, a) && Recording(a)
    ensures TermKept(s, a, RecordingRows(s, a))
  {
  }

  lemma RememberingKeepsTerm(s: State, a: Action)
    requires Enabled(s, a) && Remembering(a)
    ensures TermKept(s, a, RememberingRows(s, a))
  {
  }

  lemma TouchKeepsTerm(s: State, a: Action)
    requires Enabled(s, a)
    ensures TermKept(s, a, Touched(s, a))
    ensures a.Disclose? ==> Touched(s, a).Rows? && Touched(s, a).o == s.workers[a.w].order
  {
    if Revoking(a) {
      RevokingKeepsTerm(s, a);
    } else if Delivering(a) {
      DeliveringKeepsTerm(s, a);
    } else if Remembering(a) {
      RememberingKeepsTerm(s, a);
    } else if Recording(a) {
      RecordingKeepsTerm(s, a);
    }
  }

  /** Once the first welcome attempt is over no boundary and no end of an attempt may date the term any more. */
  lemma NothingDates(s: State, a: Action, o: OrderId)
    requires Deliveries.DInv(s) && Enabled(s, a) && o in s.db.rentals && FirstSendMade(s, o)
    ensures (a.Disclose? && s.workers[a.w].order != o) || !DatesTerm(s, a, s.db.rentals[o])
  {
    assert Deliveries.WelcomeOk(s, o);
    if s.db.rentals[o].template.Welcome? && s.db.rentals[o].attempts < 2 {
      var i :| 0 <= i < |s.log| && Deliveries.IsWelcome(s.log[i], o) && s.log[i].attempt == 1;
      assert Deliveries.Counted(s, o, s.log[i].attempt);
      if a.Disclose? && s.workers[a.w].order == o {
        assert Deliveries.BoundOn(s.workers[a.w], o);
        assert Deliveries.Distinct(s, o, s.workers[a.w].courier.attempt, s.log[i].attempt);
      }
    }
  }

  lemma FrozenFrom(s: State, t: State, a: Action, touch: Touch, o: OrderId)
    requires Enabled(s, a) && WritesOnly(s, t, a, touch) && TermKept(s, a, touch) && o in s.db.rentals
    requires a.Disclose? ==> touch.Rows? && touch.o == s.workers[a.w].order
    requires (a.Disclose? && s.workers[a.w].order != o) || !DatesTerm(s, a, s.db.rentals[o])
    ensures o in t.db.rentals && SameTerm(s.db.rentals[o], t.db.rentals[o])
    ensures t.db.rentals[o].template.ReplaceSuccess? || s.db.rentals[o].template.Welcome?
    ensures s.db.rentals[o].attempts >= 2 ==> t.db.rentals[o].attempts >= 2 || t.db.rentals[o].template.ReplaceSuccess?
  {
  }

  /** Once the first welcome attempt is over, its send made or not, no action moves the start or the end of the
      term. */
  lemma TermIsFrozen(s: State, a: Action, o: OrderId)
    requires Deliveries.DInv(s) && Enabled(s, a) && o in s.db.rentals && FirstSendMade(s, o)
    ensures o in Step(s, a).db.rentals && SameTerm(s.db.rentals[o], Step(s, a).db.rentals[o])
    ensures Step(s, a).db.rentals[o].template.ReplaceSuccess? || s.db.rentals[o].template.Welcome?
    ensures s.db.rentals[o].attempts >= 2 ==>
              Step(s, a).db.rentals[o].attempts >= 2 || Step(s, a).db.rentals[o].template.ReplaceSuccess?
  {
    TouchedIsWritten(s, a);
    TouchKeepsTerm(s, a);
    NothingDates(s, a, o);
    FrozenFrom(s, Step(s, a), a, Touched(s, a), o);
  }

  lemma MinutesFrom(s: State, t: State, a: Action, touch: Touch, o: OrderId)
    requires Enabled(s, a) && WritesOnly(s, t, a, touch) && TermKept(s, a, touch) && o in s.db.rentals
    ensures o in t.db.rentals && t.db.rentals[o].minutes == s.db.rentals[o].minutes
  {
  }

  lemma FirstSendStays(s: State, t: State, o: OrderId)
    requires Refunds.SaysLawfully(s, t) && o in s.db.rentals && o in t.db.rentals && FirstSendMade(s, o)
    requires t.db.rentals[o].template.ReplaceSuccess? || s.db.rentals[o].template.Welcome?
    requires s.db.rentals[o].attempts >= 2 ==> t.db.rentals[o].attempts >= 2 || t.db.rentals[o].template.ReplaceSuccess?
    ensures FirstSendMade(t, o)
  {
  }

  /** One action: the bought length stays, and a term that has started stays where it is. */
  lemma TermStep(s: State, a: Action, o: OrderId)
    requires Deliveries.DInv(s) && Enabled(s, a) && o in s.db.rentals
    ensures o in Step(s, a).db.rentals && Step(s, a).db.rentals[o].minutes == s.db.rentals[o].minutes
    ensures FirstSendMade(s, o) ==> SameTerm(s.db.rentals[o], Step(s, a).db.rentals[o]) && FirstSendMade(Step(s, a), o)
  {
    TouchedIsWritten(s, a);
    TouchKeepsTerm(s, a);
    MinutesFrom(s, Step(s, a), a, Touched(s, a), o);
    if FirstSendMade(s, o) {
      TermIsFrozen(s, a, o);
      Refunds.StepSays(s, a);
      FirstSendStays(s, Step(s, a), o);
    }
  }

  /** The term of `o` has not changed between two states, as far as it must not. */
  ghost predicate TermKeptBetween(s: State, t: State, o: OrderId)
    requires o in s.db.rentals
  {
    && o in t.db.rentals && t.db.rentals[o].minutes == s.db.rentals[o].minutes
    && (FirstSendMade(s, o) ==> SameTerm(s.db.rentals[o], t.db.rentals[o]) && FirstSendMade(t, o))
  }

  lemma {:induction false} TermOverRun(states: seq<State>, actions: seq<Action>, i: nat, j: nat, o: OrderId)
    requires IsRun(states, actions) && i <= j <= |actions| && o in states[i].db.rentals
    ensures TermKeptBetween(states[i], states[j], o)
  {
    if i < j {
      TermOverRun(states, actions, i, j - 1, o);
      Deliveries.RunKeeps(states, actions, j - 1);
      TermStep(states[j - 1], actions[j - 1], o);
    }
  }

  lemma TermHasLength(s: State, o: OrderId)
    requires Custody.Inv(s) && o in s.db.rentals
    ensures s.db.rentals[o].expiresAt - s.db.rentals[o].startedAt == s.db.rentals[o].minutes * MINUTE
  {
  }

  /** Over whole runs: the term always has the bought length, and once the first welcome attempt is over neither
      retries, nor operator retries, nor replacements, nor crashes move it. */
  lemma PaidTermConserved(states: seq<State>, actions: seq<Action>, i: nat, j: nat, o: OrderId)
    requires IsRun(states, actions) && i <= j <= |actions| && o in states[i].db.rentals
    ensures TermKeptBetween(states[i], states[j], o)
    ensures states[j].db.rentals[o].expiresAt - states[j].db.rentals[o].startedAt == states[i].db.rentals[o].minutes * MINUTE
  {
    TermOverRun(states, actions, i, j, o);
    Custody.RunKeeps(states, actions, j);
    TermHasLength(states[j], o);
  }

  /** A rental whose welcome message was never attempted is not closed for being overdue: not by the expiry
      worker, not by a buyer's command, and not by the late write of a command's first check either, since that
      check had read the rental as delivered. */
  lemma UnsentIsNotExpired(states: seq<State>, actions: seq<Action>, n: nat, o: OrderId)
    requires IsRun(states, actions) && n < |actions| && o in states[n].db.rentals
    requires Unsent(states[n].db.rentals[o]) && states[n].db.rentals[o].status.Active?
    ensures o in states[n + 1].db.rentals && !states[n + 1].db.rentals[o].status.ExpiryPending?
  {
    Custody.RunKeeps(states, actions, n);
    assert Custody.RentalOk(states[n], o);
    TouchedIsWritten(states[n], actions[n]);
    TouchKeepsTerm(states[n], actions[n]);
    if actions[n].CheckWrite? {
      assert Custody.WorkerOk(states[n], states[n].workers[actions[n].w]);
    }
  }
}
