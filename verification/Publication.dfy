/** Crash-safe publication of automatic lots (backend/app/services/lot_sync.py, lot_auto_manager.py).

    The marketplace keeps what reached it; the database keeps what was committed; everything else is lost
    when the process dies.  The fate of every remote call and of every commit is an input, so one call of
    `PublishPendingLot` is an attempt that may stop at any point, and a retry is another call. */
module Publication {
  import opened Rows

  type OfferId = nat
  type LotId = nat
  type Token = nat

  /** `token` is the marker that both descriptions carry exactly, if there is one. */
  datatype Offer = Offer(token: Option<Token>, title: string, cents: int, active: bool)

  datatype LotState = OnSale | PublishPending

  /** The committed row; titles and price are what the lot is offered under. */
  datatype Lot = Lot(token: Token, titleRu: string, titleEn: string, cents: int, bound: Option<OfferId>, state: LotState)

  /** Of a remote call: done and answered, refused without effect, done but the answer was lost. */
  datatype Fate = Answered | Refused | Lost

  // ---- The marketplace --------------------------------------------------------------------------

  predicate TitleStartsWith(shown: string, title: string) { title != "" && title <= shown }

  /** Title and price only bound the set of offers whose descriptions are read. */
  predicate LooksLike(offer: Offer, lot: Lot) {
    (TitleStartsWith(offer.title, lot.titleRu) || TitleStartsWith(offer.title, lot.titleEn))
    && -1 <= offer.cents - lot.cents <= 1
  }

  predicate Marked(offers: map<OfferId, Offer>, o: OfferId, token: Token) { o in offers && offers[o].token == Some(token) }

  predicate BoundElsewhere(lots: map<LotId, Lot>, l: LotId, o: OfferId) {
    exists m :: m in lots && m != l && lots[m].bound == Some(o)
  }

  // ---- What every commit and every crash keeps --------------------------------------------------

  /** Tokens tell lots apart, a binding points at an own offer, and nothing is on sale without a binding. */
  ghost predicate Safe(offers: map<OfferId, Offer>, lots: map<LotId, Lot>) {
    && (forall l, m :: l in lots && m in lots && l != m ==> lots[l].token != lots[m].token)
    && (forall l :: l in lots && lots[l].bound.Some? ==> Marked(offers, lots[l].bound.value, lots[l].token))
    && (forall l, o :: l in lots && Marked(offers, o, lots[l].token) && offers[o].active ==> lots[l].bound == Some(o))
  }

  /** The offers of the lot still look like it, or are down to the one it is bound to. */
  ghost predicate Tidy(offers: map<OfferId, Offer>, lot: Lot) {
    forall o: OfferId :: Marked(offers, o, lot.token) ==> if lot.bound.Some? then lot.bound == Some(o) else LooksLike(offers[o], lot)
  }

  /** Offers without the lot's marker are neither adopted nor changed nor deleted, and none appears. */
  ghost predicate ForeignUntouched(before: map<OfferId, Offer>, after: map<OfferId, Offer>, token: Token) {
    && (forall o :: o in before && !Marked(before, o, token) ==> o in after && after[o] == before[o])
    && (forall o :: o in after && !Marked(after, o, token) ==> o in before && after[o] == before[o])
  }

  ghost predicate LeastMarked(offers: map<OfferId, Offer>, token: Token, o: OfferId) {
    Marked(offers, o, token) && forall p: OfferId :: Marked(offers, p, token) ==> o <= p
  }

  predicate Ascending(s: seq<OfferId>) { forall i, j :: 0 <= i < j < |s| ==> s[i] < s[j] }

  function Inserted(s: seq<OfferId>, o: OfferId): (r: seq<OfferId>)
    requires Ascending(s) && o !in s
    ensures Ascending(r) && (forall p :: p in r <==> p == o || p in s)
  {
    if s == [] || o < s[0] then [o] + s
    else
      var rest := Inserted(s[1..], o);
      assert forall i :: 0 <= i < |s[1..]| ==> s[1..][i] == s[i + 1];
      assert forall p :: p in s[1..] ==> s[0] < p;
      assert forall p :: p in rest ==> s[0] < p;
      assert forall i :: 0 <= i < |rest| ==> rest[i] in rest;
      [s[0]] + rest
  }

  predicate Adoptable(offers: map<OfferId, Offer>, lots: map<LotId, Lot>, l: LotId, o: OfferId)
    requires l in lots
  {
    Marked(offers, o, lots[l].token) && LooksLike(offers[o], lots[l]) && !BoundElsewhere(lots, l, o)
  }

  /** The title shows one of the lot's titles, the price is the lot's up to a cent, the descriptions carry the lot's
      marker, and no other lot is bound to it. */
  ghost predicate OwnUnclaimed(offers: map<OfferId, Offer>, lots: map<LotId, Lot>, l: LotId, o: OfferId)
    requires l in lots
  {
    && o in offers && offers[o].token == Some(lots[l].token)
    && ((lots[l].titleRu != "" && lots[l].titleRu <= offers[o].title) || (lots[l].titleEn != "" && lots[l].titleEn <= offers[o].title))
    && (offers[o].cents == lots[l].cents - 1 || offers[o].cents == lots[l].cents || offers[o].cents == lots[l].cents + 1)
    && forall m :: m in lots && lots[m].bound == Some(o) ==> m == l
  }

  lemma AdoptableLaw(offers: map<OfferId, Offer>, lots: map<LotId, Lot>, l: LotId, o: OfferId)
    requires l in lots
    ensures Adoptable(offers, lots, l, o) <==> OwnUnclaimed(offers, lots, l, o)
  {
  }

  /** Only offers with the marker went, and what is left is as it was. */
  ghost predicate Thinned(before: map<OfferId, Offer>, after: map<OfferId, Offer>, token: Token) {
    && (forall o :: o in after ==> o in before && after[o] == before[o])
    && (forall o :: o in before && !Marked(before, o, token) ==> o in after)
  }

  /** In a tidy market the matches of an unbound lot are all the offers with its marker. */
  lemma MatchesAreMarked(offers: map<OfferId, Offer>, lots: map<LotId, Lot>, l: LotId, matches: seq<OfferId>)
    requires Safe(offers, lots) && l in lots && lots[l].bound.None? && Tidy(offers, lots[l])
    requires Ascending(matches) && forall o :: o in matches <==> Adoptable(offers, lots, l, o)
    ensures forall o :: o in matches <==> Marked(offers, o, lots[l].token)
    ensures matches != [] ==> LeastMarked(offers, lots[l].token, matches[0])
  {
  }

  lemma FirstIsLeast(matches: seq<OfferId>)
    requires Ascending(matches) && matches != []
    ensures forall o :: o in matches ==> matches[0] <= o && (o == matches[0] || o in matches[1..])
    ensures forall o :: o in matches[1..] ==> o in matches && o != matches[0]
  {
    assert matches == [matches[0]] + matches[1..];
  }

  lemma LeastStaysLeast(before: map<OfferId, Offer>, after: map<OfferId, Offer>, token: Token)
    requires Thinned(before, after, token)
    ensures forall o: OfferId :: LeastMarked(before, token, o) && o in after ==> LeastMarked(after, token, o)
  {
    forall o: OfferId, p: OfferId | LeastMarked(before, token, o) && o in after && Marked(after, p, token)
      ensures o <= p
    {
      assert Marked(before, p, token);
    }
  }

  /** What an attempt keeps of the market it found, wherever it stops. */
  ghost predicate Kept(before: map<OfferId, Offer>, lots: map<LotId, Lot>,
                       after: map<OfferId, Offer>, lots': map<LotId, Lot>, l: LotId)
    requires l in lots && l in lots'
  {
    && Safe(after, lots') && ForeignUntouched(before, after, lots[l].token)
    && lots' == lots[l := lots[l].(bound := lots'[l].bound, state := lots'[l].state)]
    && (lots[l].bound.Some? ==> lots'[l].bound == lots[l].bound)
    && (Tidy(before, lots[l]) ==> Tidy(after, lots'[l]) && LeastKept(before, after, lots[l].token))
  }

  ghost predicate LeastKept(before: map<OfferId, Offer>, after: map<OfferId, Offer>, token: Token) {
    forall o: OfferId :: LeastMarked(before, token, o) ==> LeastMarked(after, token, o)
  }

  /** Attempts that stopped one after the other keep what each of them keeps. */
  lemma KeptThrough(before: map<OfferId, Offer>, lots: map<LotId, Lot>, mid: map<OfferId, Offer>, lots1: map<LotId, Lot>,
                    after: map<OfferId, Offer>, lots2: map<LotId, Lot>, l: LotId)
    requires l in lots && l in lots1 && l in lots2
    requires Kept(before, lots, mid, lots1, l) && Kept(mid, lots1, after, lots2, l)
    ensures Kept(before, lots, after, lots2, l)
  {
  }

  lemma AfterRecovery(before: map<OfferId, Offer>, lots: map<LotId, Lot>, after: map<OfferId, Offer>, l: LotId)
    requires Safe(before, lots) && l in lots && lots[l].bound.None? && Thinned(before, after, lots[l].token)
    requires Tidy(before, lots[l]) ==> LeastKept(before, after, lots[l].token)
    ensures Kept(before, lots, after, lots, l)
  {
  }

  lemma AfterSave(before: map<OfferId, Offer>, lots: map<LotId, Lot>, after: map<OfferId, Offer>, l: LotId, o: OfferId, shown: string)
    requires l in lots && Kept(before, lots, after, lots, l)
    requires o in after ==> Marked(after, o, lots[l].token)
    requires o !in after ==> o !in before && (Tidy(before, lots[l]) ==> forall p: OfferId :: !Marked(after, p, lots[l].token))
    requires lots[l].bound.Some? ==> lots[l].bound == Some(o)
    requires LooksLike(Offer(None, shown, lots[l].cents, false), lots[l])
    ensures Kept(before, lots, after[o := Offer(Some(lots[l].token), shown, lots[l].cents, false)], lots, l)
  {
  }

  lemma AfterCommit(before: map<OfferId, Offer>, lots: map<LotId, Lot>, after: map<OfferId, Offer>, l: LotId, o: OfferId)
    requires l in lots && Kept(before, lots, after, lots, l) && Marked(after, o, lots[l].token) && !after[o].active
    requires lots[l].bound.Some? ==> lots[l].bound == Some(o)
    requires Tidy(before, lots[l]) ==> forall p: OfferId :: Marked(after, p, lots[l].token) ==> p == o
    ensures Kept(before, lots, after, lots[l := lots[l].(bound := Some(o))], l)
  {
  }

  /** The save of the inactive offer `o`, and the commit that binds it, keep what the recovery kept. */
  lemma BindingKept(before: map<OfferId, Offer>, lots: map<LotId, Lot>, mid: map<OfferId, Offer>, l: LotId, o: OfferId, shown: string)
    requires l in lots && Kept(before, lots, mid, lots, l)
    requires o in mid ==> Marked(mid, o, lots[l].token)
    requires o !in mid ==> o !in before
    requires Tidy(before, lots[l]) ==> forall p: OfferId :: Marked(mid, p, lots[l].token) ==> p == o
    requires lots[l].bound.Some? ==> lots[l].bound == Some(o)
    requires LooksLike(Offer(None, shown, lots[l].cents, false), lots[l])
    ensures var saved := mid[o := Offer(Some(lots[l].token), shown, lots[l].cents, false)];
            Kept(before, lots, saved, lots, l) && Kept(before, lots, saved, lots[l := lots[l].(bound := Some(o))], l)
  {
    AfterSave(before, lots, mid, l, o, shown);
    var saved := mid[o := Offer(Some(lots[l].token), shown, lots[l].cents, false)];
    assert forall p: OfferId :: Marked(saved, p, lots[l].token) ==> p == o || Marked(mid, p, lots[l].token);
    AfterCommit(before, lots, saved, l, o);
  }

  lemma AfterActivation(before: map<OfferId, Offer>, lots: map<LotId, Lot>,
                        after: map<OfferId, Offer>, lots': map<LotId, Lot>, l: LotId, state: LotState)
    requires l in lots && l in lots' && Kept(before, lots, after, lots', l) && lots'[l].bound.Some?
    requires lots'[l].bound.value in after
    ensures var o := lots'[l].bound.value;
            Kept(before, lots, after[o := after[o].(active := true)], lots'[l := lots'[l].(state := state)], l)
  {
    ActivationSafe(after, lots', l, state);
  }

  lemma ActivationSafe(offers: map<OfferId, Offer>, lots: map<LotId, Lot>, l: LotId, state: LotState)
    requires Safe(offers, lots) && l in lots && lots[l].bound.Some? && lots[l].bound.value in offers
    ensures var o := lots[l].bound.value;
            Safe(offers[o := offers[o].(active := true)], lots[l := lots[l].(state := state)])
  {
  }

  /** What the environment does to one attempt; `newId` is what the marketplace would call a new offer and
      `shown` the title it would show in the seller's list. */
  datatype Attempt = Attempt(
    readable: OfferId -> bool, deletes: nat -> Fate, newId: OfferId, shown: string,
    save: Fate, commits: bool, activate: Fate, commitsAgain: bool)
  {
    ghost predicate Good() {
      && (forall o :: readable(o)) && (forall k :: deletes(k).Answered?)
      && save.Answered? && commits && activate.Answered? && commitsAgain
    }
  }

  /** The lot is on sale under exactly one offer, the one it is bound to. */
  ghost predicate Published(offers: map<OfferId, Offer>, lot: Lot) {
    && lot.state.OnSale? && lot.bound.Some? && Marked(offers, lot.bound.value, lot.token) && offers[lot.bound.value].active
    && forall o: OfferId :: Marked(offers, o, lot.token) ==> lot.bound == Some(o)
  }

  /** If there were offers with the marker before, the lot is bound to the oldest of them. */
  ghost predicate OldestBound(before: map<OfferId, Offer>, lot: Lot) {
    forall o: OfferId :: LeastMarked(before, lot.token, o) ==> lot.bound == Some(o)
  }

  lemma OldestIsBound(before: map<OfferId, Offer>, lots: map<LotId, Lot>, after: map<OfferId, Offer>, lots': map<LotId, Lot>, l: LotId)
    requires l in lots && l in lots' && Kept(before, lots, after, lots', l) && lots'[l].bound.Some?
    ensures Tidy(before, lots[l]) ==> OldestBound(before, lots'[l])
  {
  }

  /** The ids that the attempts from `k` on would give to new offers. */
  predicate Unused(attempts: seq<Attempt>, k: nat, taken: set<OfferId>) {
    forall i :: k <= i < |attempts| ==> attempts[i].newId !in taken
  }

  lemma StillUnused(attempts: seq<Attempt>, k: nat, taken: set<OfferId>, taken': set<OfferId>)
    requires k < |attempts| && Unused(attempts, k, taken) && taken' <= taken + {attempts[k].newId}
    requires forall i, j :: 0 <= i < j < |attempts| ==> attempts[i].newId != attempts[j].newId
    ensures Unused(attempts, k + 1, taken')
  {
  }

  class Seller {
    var offers: map<OfferId, Offer>
    var lots: map<LotId, Lot>

    constructor (offers: map<OfferId, Offer>, lots: map<LotId, Lot>)
      ensures this.offers == offers && this.lots == lots
    {
      this.offers, this.lots := offers, lots;
    }

    // ---- Remote calls ---------------------------------------------------------------------------

    /** The gateway deletes an offer only if it still carries the expected marker. */
    method DeleteOffer(o: OfferId, expected: Token, fate: Fate) returns (ok: bool)
      modifies this`offers
      ensures offers == if fate.Refused? || !Marked(old(offers), o, expected) then old(offers) else old(offers) - {o}
      ensures ok <==> fate.Answered? && Marked(old(offers), o, expected)
    {
      if fate.Refused? || !Marked(offers, o, expected) {
        return false;
      }
      offers := offers - {o};
      ok := fate.Answered?;
    }

    /** `target` is the offer to overwrite; `newId` is the id a new offer gets, `shown` the preview title. */
    method SaveOffer(target: Option<OfferId>, newId: OfferId, lot: Lot, shown: string, active: bool, fate: Fate)
      returns (id: Option<OfferId>)
      requires target.Some? ==> target.value in offers
      modifies this`offers
      ensures var o := if target.Some? then target.value else newId;
              && offers == (if fate.Refused? then old(offers) else old(offers)[o := Offer(Some(lot.token), shown, lot.cents, active)])
              && id == (if fate.Answered? then Some(o) else None)
    {
      var o := if target.Some? then target.value else newId;
      if fate.Refused? {
        return None;
      }
      offers := offers[o := Offer(Some(lot.token), shown, lot.cents, active)];
      id := if fate.Answered? then Some(o) else None;
    }

    method SetOfferActive(o: OfferId, fate: Fate) returns (ok: bool)
      requires o in offers
      modifies this`offers
      ensures offers == if fate.Refused? then old(offers) else old(offers)[o := old(offers)[o].(active := true)]
      ensures ok == fate.Answered?
    {
      if fate.Refused? {
        return false;
      }
      offers := offers[o := offers[o].(active := true)];
      ok := fate.Answered?;
    }

    // ---- Recovery of offers whose binding was never committed -------------------------------------

    /** The offers that carry the lot's marker among those that look like it, lowest id first; None when a
        description could not be read. */
    method FindMatches(l: LotId, readable: OfferId -> bool) returns (r: Option<seq<OfferId>>)
      requires l in lots
      ensures r.Some? ==> Ascending(r.value)
      ensures r.Some? ==> forall o :: o in r.value <==> Adoptable(offers, lots, l, o)
      ensures r.Some? ==> forall o :: o in r.value <==> OwnUnclaimed(offers, lots, l, o)
      ensures r.None? <==> exists o :: o in offers && !readable(o) && LooksLike(offers[o], lots[l]) && !BoundElsewhere(lots, l, o)
    {
      forall o
        ensures Adoptable(offers, lots, l, o) <==> OwnUnclaimed(offers, lots, l, o)
      {
        AdoptableLaw(offers, lots, l, o);
      }
      var matches: seq<OfferId> := [];
      var rest := offers.Keys;
      while rest != {}
        invariant rest <= offers.Keys
        invariant Ascending(matches)
        invariant forall o :: o in matches <==> o !in rest && Adoptable(offers, lots, l, o)
        invariant forall o :: o in offers && o !in rest && LooksLike(offers[o], lots[l]) && !BoundElsewhere(lots, l, o) ==> readable(o)
      {
        var o :| o in rest;
        rest := rest - {o};
        if BoundElsewhere(lots, l, o) || !LooksLike(offers[o], lots[l]) {
          continue;
        }
        if !readable(o) {
          return None;
        }
        if offers[o].token == Some(lots[l].token) {
          matches := Inserted(matches, o);
        }
      }
      r := Some(matches);
    }

    /** Deletes all matches but the first, and stops at the first deletion that is not confirmed. */
    method DeleteDuplicates(token: Token, matches: seq<OfferId>, deletes: nat -> Fate) returns (ok: bool)
      requires |matches| > 0 && Ascending(matches) && forall k :: 0 <= k < |matches| ==> Marked(offers, matches[k], token)
      modifies this`offers
      ensures Thinned(old(offers), offers, token) && matches[0] in offers
      ensures ok ==> forall o :: o in old(offers) && o !in matches[1..] <==> o in offers
      ensures forall o :: o in old(offers) && o !in matches[1..] ==> o in offers
      ensures ok <==> forall k :: 1 <= k < |matches| ==> deletes(k).Answered?
      ensures forall k: nat :: 1 <= k < |matches| && (forall i :: 1 <= i <= k ==> deletes(i).Answered?) ==> matches[k] !in offers
    {
      for k := 1 to |matches|
        invariant Thinned(old(offers), offers, token)
        invariant forall i :: 1 <= i < k ==> deletes(i).Answered?
        invariant forall o :: o in offers <==> o in old(offers) && o !in matches[1..k]
      {
        assert matches[1..k + 1] == matches[1..k] + [matches[k]];
        assert matches[k] !in matches[1..k] && matches[0] !in matches[1..k + 1];
        var changed := DeleteOffer(matches[k], token, deletes(k));
        if !changed {
          assert matches[0] in offers;
          return false;
        }
      }
      assert matches[1..|matches|] == matches[1..] && matches[0] !in matches[1..];
      return true;
    }

    /** Keeps the lowest match and deletes the others; `found` is the offer to adopt, if any. */
    method RecoverUncommittedOffer(l: LotId, env: Attempt) returns (ok: bool, found: Option<OfferId>)
      requires Safe(offers, lots) && l in lots && lots[l].bound.None?
      modifies this`offers
      ensures Thinned(old(offers), offers, lots[l].token)
      ensures Tidy(old(offers), lots[l]) ==> LeastKept(old(offers), offers, lots[l].token)
      ensures ok && found.Some? ==> Marked(offers, found.value, lots[l].token)
      ensures ok && Tidy(old(offers), lots[l]) ==> forall o: OfferId :: Marked(offers, o, lots[l].token) <==> found == Some(o)
      ensures ok && found.None? ==> offers == old(offers) && forall o :: !OwnUnclaimed(offers, lots, l, o)
      ensures ok && found.Some? ==>
                OwnUnclaimed(old(offers), lots, l, found.value)
                && forall o :: OwnUnclaimed(old(offers), lots, l, o) ==> found.value <= o && (o in offers ==> o == found.value)
      ensures forall o :: o in old(offers) && !OwnUnclaimed(old(offers), lots, l, o) ==> o in offers
      ensures env.Good() ==> ok
    {
      var answer := FindMatches(l, env.readable);
      if answer.None? {
        return false, None;
      }
      var matches := answer.value;
      if Tidy(offers, lots[l]) {
        MatchesAreMarked(offers, lots, l, matches);
      }
      if matches == [] {
        return true, None;
      }
      assert forall k :: 0 <= k < |matches| ==> Adoptable(offers, lots, l, matches[k]);
      ok := DeleteDuplicates(lots[l].token, matches, env.deletes);
      LeastStaysLeast(old(offers), offers, lots[l].token);
      FirstIsLeast(matches);
      found := if ok then Some(matches[0]) else None;
    }

    // ---- Publication ----------------------------------------------------------------------------

    /** The full save of the inactive offer and the commit of its id. */
    method SaveInactive(l: LotId, target: Option<OfferId>, env: Attempt) returns (ok: bool)
      requires l in lots && (target.Some? ==> target.value in offers)
      modifies this
      ensures ok <==> env.save.Answered? && env.commits
      ensures var o := if target.Some? then target.value else env.newId;
              && offers == (if env.save.Refused? then old(offers)
                            else old(offers)[o := Offer(Some(old(lots)[l].token), env.shown, old(lots)[l].cents, false)])
              && lots == (if ok then old(lots)[l := old(lots)[l].(bound := Some(o))] else old(lots))
    {
      var id := SaveOffer(target, env.newId, lots[l], env.shown, false, env.save);
      if id.None? || !env.commits {
        return false;
      }
      lots := lots[l := lots[l].(bound := id)];
      return true;
    }

    /** The offer to save is the bound one, else the one that is recovered, else a new one. */
    method BindInactive(l: LotId, env: Attempt) returns (ok: bool)
      requires Safe(offers, lots) && l in lots && lots[l].state.PublishPending?
      requires env.newId !in offers && LooksLike(Offer(None, env.shown, lots[l].cents, false), lots[l])
      modifies this
      ensures l in lots && Kept(old(offers), old(lots), offers, lots, l) && lots[l].state.PublishPending?
      ensures offers.Keys <= old(offers).Keys + {env.newId}
      ensures ok ==> lots[l].bound.Some? && env.save.Answered? && env.commits
      ensures ok ==> lots[l].bound.value in offers
                     && offers[lots[l].bound.value] == Offer(Some(lots[l].token), env.shown, lots[l].cents, false)
      ensures !ok ==> lots == old(lots)
      ensures forall o :: o in offers && offers[o].active ==> o in old(offers) && old(offers)[o].active
      ensures env.Good() ==> ok
    {
      var lot, target := lots[l], lots[l].bound;
      if target.None? {
        var recovered;
        recovered, target := RecoverUncommittedOffer(l, env);
        AfterRecovery(old(offers), lots, offers, l);
        if !recovered {
          return false;
        }
      }
      BindingKept(old(offers), lots, offers, l, if target.Some? then target.value else env.newId, env.shown);
      ok := SaveInactive(l, target, env);
    }

    /** The activation of the bound offer and its commit. */
    method ActivateBound(l: LotId, env: Attempt) returns (ok: bool)
      requires Safe(offers, lots) && l in lots && lots[l].state.PublishPending? && lots[l].bound.Some?
      modifies this
      ensures l in lots && Kept(old(offers), old(lots), offers, lots, l) && lots[l].bound.Some?
      ensures offers.Keys == old(offers).Keys
      ensures if ok then lots[l].state.OnSale? && offers[lots[l].bound.value].active else lots[l].state.PublishPending?
      ensures ok <==> env.activate.Answered? && env.commitsAgain
      ensures var o := old(lots[l].bound.value);
              offers == if env.activate.Refused? then old(offers) else old(offers)[o := old(offers)[o].(active := true)]
      ensures lots == if ok then old(lots)[l := old(lots)[l].(state := OnSale)] else old(lots)
      ensures env.Good() ==> ok
    {
      assert Kept(offers, lots, offers, lots, l);
      AfterActivation(offers, lots, offers, lots, l, PublishPending);
      AfterActivation(offers, lots, offers, lots, l, OnSale);
      var activated := SetOfferActive(lots[l].bound.value, env.activate);
      if !activated || !env.commitsAgain {
        return false;
      }
      lots := lots[l := lots[l].(state := OnSale)];
      return true;
    }

    /** One attempt: nothing is activated before the id of the offer is committed. */
    method PublishPendingLot(l: LotId, env: Attempt) returns (ok: bool)
      requires Safe(offers, lots) && l in lots && lots[l].state.PublishPending?
      requires env.newId !in offers && LooksLike(Offer(None, env.shown, lots[l].cents, false), lots[l])
      modifies this
      ensures l in lots && Kept(old(offers), old(lots), offers, lots, l)
      ensures offers.Keys <= old(offers).Keys + {env.newId}
      ensures ok ==> lots[l].bound.Some?
      ensures ok && old(Tidy(offers, lots[l])) ==> Published(offers, lots[l])
      ensures ok ==> lots[l].bound.value in offers
                     && offers[lots[l].bound.value] == Offer(Some(lots[l].token), env.shown, lots[l].cents, true)
      ensures ok ==> lots[l].state.OnSale?
      ensures !ok ==> lots[l].state.PublishPending?
      ensures env.Good() ==> ok
    {
      ok := BindInactive(l, env);
      if ok {
        ghost var mid, lots1 := offers, lots;
        ok := ActivateBound(l, env);
        KeptThrough(old(offers), old(lots), mid, lots1, offers, lots, l);
      }
    }

    /** The periodic reconciliation tries again after every crash.  Whatever the failed attempts left behind,
        one attempt that gets through leaves exactly one offer, the oldest one if there was any. */
    method PublishPeriodically(l: LotId, attempts: seq<Attempt>) returns (ok: bool)
      requires Safe(offers, lots) && l in lots && lots[l].state.PublishPending?
      requires forall i :: 0 <= i < |attempts| ==>
                 attempts[i].newId !in offers && LooksLike(Offer(None, attempts[i].shown, lots[l].cents, false), lots[l])
      requires forall i, j :: 0 <= i < j < |attempts| ==> attempts[i].newId != attempts[j].newId
      modifies this
      ensures l in lots && Kept(old(offers), old(lots), offers, lots, l)
      ensures ok && old(Tidy(offers, lots[l])) ==> Published(offers, lots[l]) && OldestBound(old(offers), lots[l])
      ensures (exists k :: 0 <= k < |attempts| && attempts[k].Good()) ==> ok
    {
      for k := 0 to |attempts|
        invariant l in lots && lots[l].state.PublishPending? && Kept(old(offers), old(lots), offers, lots, l)
        invariant Unused(attempts, k, offers.Keys)
        invariant forall i :: 0 <= i < k ==> !attempts[i].Good()
      {
        ghost var mid, lots1 := offers, lots;
        ok := PublishPendingLot(l, attempts[k]);
        StillUnused(attempts, k, mid.Keys, offers.Keys);
        KeptThrough(old(offers), old(lots), mid, lots1, offers, lots, l);
        if ok {
          OldestIsBound(old(offers), old(lots), offers, lots, l);
          return;
        }
      }
      ok := false;
    }
  }
}
