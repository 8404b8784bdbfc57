/** The imported sale list: statuses that survive late events, and the history backfill
    (backend/app/services/sale_registry.py). */
module Sales {
  import opened Rows

  // ---- Sale status ------------------------------------------------------------------------------

  /** `Other` is a status this version does not know. */
  datatype SaleStatus = UnknownSale | PaidSale | CompletedSale | RefundedSale | Other(name: string)

  function SaleRank(s: SaleStatus): Option<nat> {
    match s
    case UnknownSale => Some(0)
    case PaidSale => Some(1)
    case CompletedSale => Some(2)
    case RefundedSale => Some(3)
    case Other(_) => None
  }

  function MergeSaleStatus(current: SaleStatus, incoming: SaleStatus): SaleStatus {
    if SaleRank(current).Some? && SaleRank(incoming).Some? && SaleRank(incoming).value < SaleRank(current).value
    then current else incoming
  }

  function MergedStatus(current: SaleStatus, events: seq<SaleStatus>): SaleStatus
    decreases |events|
  {
    if events == [] then current else MergedStatus(MergeSaleStatus(current, events[0]), events[1..])
  }

  /** Unknown, paid, completed, refunded: each is further along than those before it. */
  ghost predicate Further(s: SaleStatus, t: SaleStatus) {
    || (s == RefundedSale && (t == CompletedSale || t == PaidSale || t == UnknownSale))
    || (s == CompletedSale && (t == PaidSale || t == UnknownSale))
    || (s == PaidSale && t == UnknownSale)
  }

  ghost predicate Known(s: SaleStatus) { s == UnknownSale || s == PaidSale || s == CompletedSale || s == RefundedSale }

  /** An event overwrites the stored status unless it falls behind it; a status this version does not know
      overwrites and is overwritten. */
  lemma MergeLaw(current: SaleStatus, incoming: SaleStatus)
    ensures MergeSaleStatus(current, incoming) == if Further(current, incoming) then current else incoming
  {
  }

  /** Late, duplicated and reordered events do not matter: whatever their order, the stored status is the
      most advanced one that was ever seen. */
  lemma {:induction false} MostAdvancedWins(current: SaleStatus, events: seq<SaleStatus>)
    requires Known(current) && forall e :: e in events ==> Known(e)
    ensures var final := MergedStatus(current, events);
            && (final == current || final in events) && Known(final)
            && !Further(current, final) && forall e :: e in events ==> !Further(e, final)
    ensures MergedStatus(current, events) == RefundedSale <==> current == RefundedSale || RefundedSale in events
    ensures MergedStatus(current, events) == UnknownSale <==> current == UnknownSale && forall e :: e in events ==> e == UnknownSale
    decreases |events|
  {
    if events != [] {
      var merged := MergeSaleStatus(current, events[0]);
      MergeLaw(current, events[0]);
      assert forall e :: e in events <==> e == events[0] || e in events[1..];
      MostAdvancedWins(merged, events[1..]);
    }
  }

  lemma OrderDoesNotMatter(current: SaleStatus, events: seq<SaleStatus>, others: seq<SaleStatus>)
    requires Known(current) && (forall e :: e in events ==> Known(e)) && (forall e :: e in events <==> e in others)
    ensures MergedStatus(current, events) == MergedStatus(current, others)
  {
    MostAdvancedWins(current, events);
    MostAdvancedWins(current, others);
  }

  // ---- History backfill -------------------------------------------------------------------------

  type Cursor = nat
  type Pages = Cursor -> Option<Cursor>

  /** The k-th cursor of the history that starts after the newest page. */
  function Nth(next: Pages, head: Option<Cursor>, k: nat): Option<Cursor> {
    if k == 0 then head
    else
      var before := Nth(next, head, k - 1);
      if before.None? then None else next(before.value)
  }

  lemma {:induction false} EndsForGood(next: Pages, head: Option<Cursor>, k: nat, j: nat)
    requires k <= j && Nth(next, head, k).None?
    ensures Nth(next, head, j).None?
  {
    if k < j {
      EndsForGood(next, head, k, j - 1);
    }
  }

  predicate ReadUpTo(next: Pages, head: Option<Cursor>, fetched: set<Cursor>, k: nat) {
    forall j :: 0 <= j < k && Nth(next, head, j).Some? ==> Nth(next, head, j).value in fetched
  }

  /** The history never returns to a cursor. */
  ghost predicate Acyclic(next: Pages, head: Option<Cursor>) {
    forall i: nat, j: nat :: i < j && Nth(next, head, i).Some? ==> Nth(next, head, i) != Nth(next, head, j)
  }

  function Budget(historyPages: int): nat { if historyPages < 1 then 0 else historyPages - 1 }

  /** The persisted progress of the backfill; `fetched` is every history page that was ever imported. */
  class SyncState {
    var cursor: Option<Cursor>
    var complete: bool
    ghost var fetched: set<Cursor>

    constructor ()
      ensures cursor.None? && !complete && fetched == {}
    {
      cursor, complete, fetched := None, false, {};
    }

    /** Everything before position `k` was read, and the stored cursor is the one at `k`. */
    ghost predicate Position(next: Pages, head: Option<Cursor>, k: nat)
      reads this
    {
      && ReadUpTo(next, head, fetched, k)
      && (if complete then Nth(next, head, k).None? else if cursor.Some? then cursor == Nth(next, head, k) else k == 0)
    }

    /** One synchronization: at most `historyPages - 1` history pages; `fails(i)` says that the i-th request
        of this cycle fails. */
    method Cycle(next: Pages, head: Option<Cursor>, historyPages: int, fails: nat -> bool, ghost k: nat)
      returns (errors: nat, ghost k': nat)
      requires Position(next, head, k)
      modifies this
      ensures Position(next, head, k') && k <= k' && old(fetched) <= fetched
      ensures old(complete) ==> complete && errors == 0 && k' == k && cursor == old(cursor) && fetched == old(fetched)
      ensures k' == k || k' - k <= historyPages - 1
      ensures errors <= 1 && ((forall i :: !fails(i)) ==> errors == 0)
      ensures (forall i :: !fails(i)) && Acyclic(next, head) && !old(complete) ==>
                complete || k' == k + (if historyPages < 1 then 0 else historyPages - 1)
      ensures Acyclic(next, head) && !old(complete) ==>
                (errors == 1 <==> k' - k < historyPages - 1 && Nth(next, head, k').Some? && fails(k' - k))
                && (errors == 0 ==> k' - k >= historyPages - 1 || Nth(next, head, k').None?)
                && (forall c :: c in fetched ==> c in old(fetched) || exists j: nat :: k <= j < k' && Nth(next, head, j) == Some(c))
    {
      errors, k' := 0, k;
      if complete {
        return;
      }
      var position := if cursor.Some? then cursor else head;
      var seen: set<Cursor> := {};
      var remaining := Budget(historyPages);
      ghost var stuck := false;
      while position.Some? && remaining > 0
        invariant k <= k' && position == Nth(next, head, k') && ReadUpTo(next, head, fetched, k') && old(fetched) <= fetched
        invariant remaining == Budget(historyPages) - (k' - k) && errors == 0
        invariant forall c :: c in fetched ==> c in old(fetched) || exists j: nat :: k <= j < k' && Nth(next, head, j) == Some(c)
        invariant forall c :: c in seen ==> exists j: nat :: j < k' && Nth(next, head, j) == Some(c)
        decreases remaining
      {
        if position.value in seen {
          stuck := true;
          break;
        }
        seen := seen + {position.value};
        if fails(Budget(historyPages) - remaining) {
          errors := 1;
          break;
        }
        fetched := fetched + {position.value};
        var following := next(position.value);
        if following == position {
          assert Nth(next, head, k' + 1) == following;
          stuck := true;
          break;
        }
        assert Nth(next, head, k') == position;
        position := following;
        remaining := remaining - 1;
        k' := k' + 1;
      }
      assert stuck ==> !Acyclic(next, head);
      cursor := position;
      complete := cursor.None?;
    }
  }

  /** Once the backfill calls itself complete, no page of the history was skipped, whatever failed and however
      often it was resumed. */
  lemma CompleteReadsAll(next: Pages, head: Option<Cursor>, fetched: set<Cursor>, k: nat, j: nat)
    requires ReadUpTo(next, head, fetched, k) && Nth(next, head, k).None?
    ensures Nth(next, head, j).Some? ==> Nth(next, head, j).value in fetched
  {
    if j >= k {
      EndsForGood(next, head, k, j);
    }
  }
}
