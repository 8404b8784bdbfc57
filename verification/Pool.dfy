/** The select-and-recheck loop of the account pool
    (backend/app/services/account_pool.py).

    Every turn runs a fresh statement, so it sees its own snapshot: `rows(k)` lists, in the statement's
    order, the unlocked rows the k-th statement can return before the rejected ones are removed, and
    `conflict(k, a)` is what the k-th recheck finds once the row of account `a` is locked. */
module Pool {
  import opened Rows

  /** First candidate without a conflict. */
  ghost function FirstFree(candidates: seq<AccountId>, conflict: AccountId -> bool): (r: Option<AccountId>)
    ensures r.None? <==> forall a :: a in candidates ==> conflict(a)
    ensures r.Some? ==> r.value in candidates && !conflict(r.value)
  {
    if candidates == [] then None
    else if conflict(candidates[0]) then FirstFree(candidates[1..], conflict)
    else Some(candidates[0])
  }

  lemma {:induction false} FirstFreeAt(candidates: seq<AccountId>, conflict: AccountId -> bool, i: nat)
    requires i < |candidates| && !conflict(candidates[i])
    requires forall j :: 0 <= j < i ==> conflict(candidates[j])
    ensures FirstFree(candidates, conflict) == Some(candidates[i])
  {
    if i > 0 {
      FirstFreeAt(candidates[1..], conflict, i - 1);
    }
  }

  /** No other transaction commits between the statements. */
  ghost predicate Quiet(rows: nat -> seq<AccountId>, conflict: (nat, AccountId) -> bool) {
    forall k, a :: rows(k) == rows(0) && conflict(k, a) == conflict(0, a)
  }

  /** The first row of the statement that is not excluded, as an index. */
  method FirstRow(rows: seq<AccountId>, rejected: set<AccountId>) returns (i: nat)
    ensures i <= |rows|
    ensures i < |rows| ==> rows[i] !in rejected
    ensures forall j :: 0 <= j < i ==> rows[j] in rejected
  {
    i := 0;
    while i < |rows| && rows[i] in rejected
      invariant i <= |rows|
      invariant forall j :: 0 <= j < i ==> rows[j] in rejected
    {
      i := i + 1;
    }
  }

  /** The rejected accounts and the statement whose recheck rejected each of them. */
  ghost predicate Rejections(rows: nat -> seq<AccountId>, conflict: (nat, AccountId) -> bool,
                             rejectedAt: map<AccountId, nat>, turn: nat)
  {
    && |rejectedAt| == turn
    && forall a :: a in rejectedAt ==> rejectedAt[a] < turn && a in rows(rejectedAt[a]) && conflict(rejectedAt[a], a)
  }

  /** The answer comes from the last statement: its first row that was not rejected, if any. */
  ghost predicate Answers(rows: nat -> seq<AccountId>, conflict: (nat, AccountId) -> bool,
                          rejectedAt: map<AccountId, nat>, turn: nat, account: Option<AccountId>)
  {
    match account
    case None => forall a :: a in rows(turn) ==> a in rejectedAt
    case Some(c) =>
      !conflict(turn, c) && c !in rejectedAt
      && exists i :: 0 <= i < |rows(turn)| && rows(turn)[i] == c && forall j :: 0 <= j < i ==> rows(turn)[j] in rejectedAt
  }

  /** While nobody else commits, the loop returns the first candidate without a conflict. */
  lemma QuietAnswer(rows: nat -> seq<AccountId>, conflict: (nat, AccountId) -> bool,
                    rejectedAt: map<AccountId, nat>, turn: nat, account: Option<AccountId>)
    requires Rejections(rows, conflict, rejectedAt, turn) && Answers(rows, conflict, rejectedAt, turn, account)
    requires Quiet(rows, conflict)
    ensures account == FirstFree(rows(0), (a: AccountId) => conflict(0, a))
  {
    var clash := (a: AccountId) => conflict(0, a);
    assert rows(turn) == rows(0);
    forall a | a in rejectedAt
      ensures clash(a)
    {
      assert conflict(rejectedAt[a], a);
    }
    if account.Some? {
      assert conflict(turn, account.value) == conflict(0, account.value);
      var i :| 0 <= i < |rows(turn)| && rows(turn)[i] == account.value && forall j :: 0 <= j < i ==> rows(turn)[j] in rejectedAt;
      FirstFreeAt(rows(0), clash, i);
    }
  }

  /** A busy account costs one statement each, so the loop ends. */
  method Acquire(rows: nat -> seq<AccountId>, conflict: (nat, AccountId) -> bool, ghost accounts: set<AccountId>)
    returns (account: Option<AccountId>, turn: nat, ghost rejectedAt: map<AccountId, nat>)
    requires forall k, a :: a in rows(k) ==> a in accounts
    ensures Rejections(rows, conflict, rejectedAt, turn)
    ensures Answers(rows, conflict, rejectedAt, turn, account)
    ensures turn <= |accounts|
  {
    var rejected: set<AccountId> := {};
    turn, rejectedAt := 0, map[];
    while true
      invariant Rejections(rows, conflict, rejectedAt, turn)
      invariant rejectedAt.Keys == rejected
      invariant rejected <= accounts
      invariant turn == |rejected|
      decreases accounts - rejected
    {
      var statement := rows(turn);
      var i := FirstRow(statement, rejected);
      Bounded(rejected, accounts);
      if i == |statement| {
        return None, turn, rejectedAt;
      }
      var candidate := statement[i];
      if conflict(turn, candidate) {
        rejected := rejected + {candidate};
        rejectedAt := rejectedAt[candidate := turn];
        turn := turn + 1;
        assert |rejectedAt| == |rejectedAt.Keys|;
        continue;
      }
      return Some(candidate), turn, rejectedAt;
    }
  }

  lemma Bounded(rejected: set<AccountId>, accounts: set<AccountId>)
    requires rejected <= accounts
    ensures |rejected| <= |accounts|
  {
    if rejected != {} {
      var a :| a in rejected;
      Bounded(rejected - {a}, accounts - {a});
    }
  }
}
