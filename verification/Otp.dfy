/** One-time codes are claimed durably before they are sent (CodeHandler in
    backend/app/services/command_handlers.py).

    A time step is the T of section 4.2 of RFC 6238.  The audit table is append-only and ids are handed out
    in order, so a row's id is its index. */
module Otp {
  import opened Rows

  const STEP: int := 30 * SECOND
  const LOOKUP_MARGIN: int := SECOND

  type RentalId = nat
  type ClaimId = nat

  datatype EventKind = OtpClaimed | OtpSent | OtpUncertain | OtherEvent

  /** `claim` and `window` are the parts of the metadata that the lookup reads; either may be absent. */
  datatype Audit = Audit(rental: RentalId, kind: EventKind, at: Time, claim: Option<ClaimId>, window: Option<int>)

  datatype ClaimStatus = ClaimOpen | ClaimSent | ClaimUncertain
  datatype WindowClaim = WindowClaim(claim: ClaimId, status: ClaimStatus)

  function StepOf(t: Time): int { t / STEP }

  // ---- The lookup -------------------------------------------------------------------------------

  predicate Selected(row: Audit, rental: RentalId, window: int) {
    row.rental == rental && row.at >= window * STEP - LOOKUP_MARGIN && !row.kind.OtherEvent? && row.claim.Some?
  }

  predicate ClaimsWindow(row: Audit, rental: RentalId, window: int) {
    Selected(row, rental, window) && row.kind.OtpClaimed? && row.window == Some(window)
  }

  predicate Concludes(row: Audit, rental: RentalId, window: int, claim: ClaimId) {
    Selected(row, rental, window) && !row.kind.OtpClaimed? && row.claim == Some(claim)
  }

  /** What the rows from `from` on say about a claim: its last outcome, if any. */
  function StatusAfter(rows: seq<Audit>, rental: RentalId, window: int, claim: ClaimId, from: nat): ClaimStatus
    requires from <= |rows|
    decreases |rows|
  {
    if from == |rows| then ClaimOpen
    else
      var last := rows[|rows| - 1];
      if Concludes(last, rental, window, claim) then (if last.kind.OtpSent? then ClaimSent else ClaimUncertain)
      else StatusAfter(rows[..|rows| - 1], rental, window, claim, from)
  }

  predicate LatestClaimAt(rows: seq<Audit>, rental: RentalId, window: int, i: nat) {
    && i < |rows| && ClaimsWindow(rows[i], rental, window)
    && forall j :: i < j < |rows| ==> !ClaimsWindow(rows[j], rental, window)
  }

  /** The durable outcome of the latest claim of the rental for one time step. */
  ghost predicate IsClaimForWindow(rows: seq<Audit>, rental: RentalId, window: int, r: Option<WindowClaim>) {
    match r
    case None => forall i :: 0 <= i < |rows| ==> !ClaimsWindow(rows[i], rental, window)
    case Some(c) => exists i: nat :: LatestClaimAt(rows, rental, window, i) && rows[i].claim == Some(c.claim)
                                && c.status == StatusAfter(rows, rental, window, c.claim, i + 1)
  }

  /** A claim of the step is on record that is not dated more than a second before the step began. */
  ghost predicate Recalled(rows: seq<Audit>, rental: RentalId, step: int) {
    exists i :: 0 <= i < |rows| && rows[i].rental == rental && rows[i].kind == OtpClaimed && rows[i].window == Some(step)
                && rows[i].claim.Some? && rows[i].at >= step * 30_000_000 - 1_000_000
  }

  lemma UnclaimedLaw(rows: seq<Audit>, rental: RentalId, step: int)
    ensures Unclaimed(rows, rental, step) <==> !Recalled(rows, rental, step)
  {
    if !Unclaimed(rows, rental, step) {
      var i :| 0 <= i < |rows| && ClaimsWindow(rows[i], rental, step);
      assert rows[i].rental == rental;
    }
    if Recalled(rows, rental, step) {
      var i :| 0 <= i < |rows| && rows[i].rental == rental && rows[i].kind == OtpClaimed && rows[i].window == Some(step)
               && rows[i].claim.Some? && rows[i].at >= step * 30_000_000 - 1_000_000;
      assert ClaimsWindow(rows[i], rental, step);
    }
  }

  class AuditTrail {
    var rows: seq<Audit>

    constructor ()
      ensures rows == []
    {
      rows := [];
    }

    method ClaimForWindow(rental: RentalId, window: int) returns (r: Option<WindowClaim>)
      ensures IsClaimForWindow(rows, rental, window, r)
    {
      var claims: map<ClaimId, WindowClaim> := map[];
      var latest: Option<ClaimId> := None;
      ghost var at: nat := 0;
      for k := 0 to |rows|
        invariant latest.None? ==> forall i :: 0 <= i < k ==> !ClaimsWindow(rows[i], rental, window)
        invariant latest.Some? ==> latest.value in claims && claims[latest.value].claim == latest.value
        invariant latest.Some? ==> at < k && LatestClaimAt(rows[..k], rental, window, at) && rows[at].claim == latest
        invariant latest.Some? ==> claims[latest.value].status == StatusAfter(rows[..k], rental, window, latest.value, at + 1)
      {
        var row := rows[k];
        assert rows[..k + 1][..k] == rows[..k];
        if !Selected(row, rental, window) {
          continue;
        }
        var claim := row.claim.value;
        if row.kind.OtpClaimed? {
          if row.window != Some(window) {
            continue;
          }
          claims := claims[claim := WindowClaim(claim, ClaimOpen)];
          latest := Some(claim);
          at := k;
          continue;
        }
        if claim !in claims {
          continue;
        }
        claims := claims[claim := WindowClaim(claim, if row.kind.OtpSent? then ClaimSent else ClaimUncertain)];
      }
      assert rows[..|rows|] == rows;
      r := if latest.Some? then Some(claims[latest.value]) else None;
    }

    /** The commit before any secret leaves: an earlier claim of the step refuses, whatever came of it. */
    method CommitClaim(rental: RentalId, authorized: bool, id: ClaimId, t1: Time, t2: Time) returns (held: bool)
      modifies this
      ensures held == (authorized && Unclaimed(old(rows), rental, StepOf(t1)))
      ensures rows == if held then old(rows) + [ClaimRow(rental, id, t1, t2)] else old(rows)
      ensures held <==> authorized && !Recalled(old(rows), rental, t1 / 30_000_000)
      ensures held ==> rows == old(rows) + [Audit(rental, OtpClaimed, t2, Some(id), Some(t1 / 30_000_000))]
      ensures !held ==> rows == old(rows)
    {
      UnclaimedLaw(rows, rental, StepOf(t1));
      var current := ClaimForWindow(rental, StepOf(t1));
      held := current.None? && authorized;
      if held {
        rows := rows + [ClaimRow(rental, id, t1, t2)];
      }
    }
  }

  function ClaimRow(rental: RentalId, id: ClaimId, t1: Time, t2: Time): Audit {
    Audit(rental, OtpClaimed, t2, Some(id), Some(StepOf(t1)))
  }

  // ---- The protocol -----------------------------------------------------------------------------

  type HandlerId = nat

  /** A handler between two commits. */
  datatype Handler =
    | Holding(rental: RentalId, claim: ClaimId, window: int)
    | Recording(rental: RentalId, claim: ClaimId, accepted: bool)

  /** A code that reached the gateway: the time step it belongs to and the claim it was sent under. */
  datatype SentCode = SentCode(rental: RentalId, step: int, claim: ClaimId)

  datatype State = State(
    rows: seq<Audit>,
    handlers: map<HandlerId, Handler>,
    sent: seq<SentCode>,
    clock: Time,
    nextClaim: ClaimId)

  datatype Outcome = Accepted | Errored | Died

  /** `authorized` sums up everything else a handler tests under the row locks: identity, access, rate limit,
      remaining term, account.  `t1 <= t2 <= t3` are its clock readings. */
  datatype Action =
    | ClaimNow(h: HandlerId, rental: RentalId, authorized: bool, t1: Time, t2: Time)
    | SendNow(h: HandlerId, authorized: bool, outcome: Outcome, t1: Time, t2: Time, t3: Time)
    | Record(h: HandlerId, persisted: bool, t1: Time)
    | OtherRow(row: Audit)
    | Crash(h: HandlerId)

  predicate Enabled(s: State, a: Action) {
    match a
    case ClaimNow(h, _, _, t1, t2) => h !in s.handlers && s.clock <= t1 <= t2
    case SendNow(h, _, _, t1, t2, t3) => h in s.handlers && s.handlers[h].Holding? && s.clock <= t1 <= t2 <= t3
    case Record(h, _, t1) => h in s.handlers && s.handlers[h].Recording? && s.clock <= t1
    case OtherRow(row) => row.kind.OtherEvent?
    case Crash(_) => true
  }

  predicate Unclaimed(rows: seq<Audit>, rental: RentalId, window: int) {
    forall i :: 0 <= i < |rows| ==> !ClaimsWindow(rows[i], rental, window)
  }

  /** Under the rental's row lock: the step is read, its claim looked up, and a new claim committed. */
  function ClaimStep(s: State, h: HandlerId, rental: RentalId, authorized: bool, t1: Time, t2: Time): State {
    var window := StepOf(t1);
    var ticked := s.(clock := t2);
    if !authorized || !Unclaimed(s.rows, rental, window) then ticked
    else ticked.(
      rows := s.rows + [ClaimRow(rental, s.nextClaim, t1, t2)],
      handlers := s.handlers[h := Holding(rental, s.nextClaim, window)],
      nextClaim := s.nextClaim + 1)
  }

  /** Under the row locks again: the step is read, the code is generated at `t2`, the step is read again,
      and only then is the code sent. */
  function SendStep(s: State, h: HandlerId, authorized: bool, outcome: Outcome, t1: Time, t2: Time, t3: Time): State
    requires h in s.handlers && s.handlers[h].Holding?
  {
    var held := s.handlers[h];
    var left := s.(clock := t3, handlers := s.handlers - {h});
    if !authorized || StepOf(t1) != held.window || StepOf(t3) != held.window then left
    else
      var told := left.(sent := s.sent + [SentCode(held.rental, StepOf(t2), held.claim)]);
      if outcome.Died? then told
      else told.(handlers := s.handlers[h := Recording(held.rental, held.claim, outcome.Accepted?)])
  }

  function RecordStep(s: State, h: HandlerId, persisted: bool, t1: Time): State
    requires h in s.handlers && s.handlers[h].Recording?
  {
    var held := s.handlers[h];
    var row := Audit(held.rental, if held.accepted then OtpSent else OtpUncertain, t1, Some(held.claim), None);
    s.(clock := t1, handlers := s.handlers - {h}, rows := if persisted then s.rows + [row] else s.rows)
  }

  function Step(s: State, a: Action): State
    requires Enabled(s, a)
  {
    match a
    case ClaimNow(h, rental, authorized, t1, t2) => ClaimStep(s, h, rental, authorized, t1, t2)
    case SendNow(h, authorized, outcome, t1, t2, t3) => SendStep(s, h, authorized, outcome, t1, t2, t3)
    case Record(h, persisted, t1) => RecordStep(s, h, persisted, t1)
    case OtherRow(row) => s.(rows := s.rows + [row])
    case Crash(h) => s.(handlers := s.handlers - {h})
  }

  predicate Initial(s: State) { s.rows == [] && s.handlers == map[] && s.sent == [] }

  predicate IsRun(states: seq<State>, actions: seq<Action>) {
    |states| == |actions| + 1 && Initial(states[0])
    && forall i :: 0 <= i < |actions| ==> Enabled(states[i], actions[i]) && states[i + 1] == Step(states[i], actions[i])
  }

  // ---- What a step does, in plain values --------------------------------------------------------

  /** The instant lies in the 30-second step. */
  ghost predicate InStep(t: Time, step: int) { step * 30_000_000 <= t < (step + 1) * 30_000_000 }

  lemma StepLaw(t: Time, step: int)
    ensures StepOf(t) == step <==> InStep(t, step)
  {
  }

  ghost predicate ClaimedBefore(rows: seq<Audit>, rental: RentalId, step: int) {
    exists i :: 0 <= i < |rows| && rows[i].kind == OtpClaimed && rows[i].rental == rental && rows[i].window == Some(step)
  }

  /** The handler holds a claim of the step that both of its readings show, and is authorized. */
  ghost predicate SendsNow(s: State, a: Action) {
    && a.SendNow? && a.authorized && a.h in s.handlers && s.handlers[a.h].Holding?
    && InStep(a.t1, s.handlers[a.h].window) && InStep(a.t3, s.handlers[a.h].window)
  }

  /** A code leaves exactly then, and it is the code of the claimed step; the handler goes on to record what the
      gateway answered unless it died. */
  lemma SentExactly(s: State, a: Action)
    requires Enabled(s, a)
    ensures Step(s, a).sent == if SendsNow(s, a)
                               then s.sent + [SentCode(s.handlers[a.h].rental, s.handlers[a.h].window, s.handlers[a.h].claim)]
                               else s.sent
    ensures a.SendNow? ==>
              Step(s, a).handlers == if SendsNow(s, a) && a.outcome != Died
                                     then s.handlers[a.h := Recording(s.handlers[a.h].rental, s.handlers[a.h].claim, a.outcome == Accepted)]
                                     else s.handlers - {a.h}
    ensures a.SendNow? ==> Step(s, a).rows == s.rows && Step(s, a).clock == a.t3 && Step(s, a).nextClaim == s.nextClaim
  {
    if a.SendNow? {
      StepLaw(a.t1, s.handlers[a.h].window);
      StepLaw(a.t2, s.handlers[a.h].window);
      StepLaw(a.t3, s.handlers[a.h].window);
    }
  }

  /** The row that ends a command says sent exactly if the gateway accepted. */
  lemma RecordedExactly(s: State, a: Action)
    requires Enabled(s, a) && a.Record?
    ensures var held := s.handlers[a.h];
            Step(s, a) == s.(clock := a.t1, handlers := s.handlers - {a.h},
                             rows := if a.persisted && held.accepted then s.rows + [Audit(held.rental, OtpSent, a.t1, Some(held.claim), None)]
                                     else if a.persisted then s.rows + [Audit(held.rental, OtpUncertain, a.t1, Some(held.claim), None)]
                                     else s.rows)
  {
  }

  /** Other rows are added as they are, and a handler that dies takes nothing along. */
  lemma OtherwiseExactly(s: State, a: Action)
    requires Enabled(s, a) && (a.OtherRow? || a.Crash?)
    ensures Step(s, a) == if a.OtherRow? then s.(rows := s.rows + [a.row]) else s.(handlers := s.handlers - {a.h})
  {
  }

  /** Nothing blocks a handler: it can claim, send and record at any later time, whatever it is answered. */
  lemma NeverBlocked(s: State, h: HandlerId, rental: RentalId, authorized: bool, outcome: Outcome, t: Time, u: Time)
    requires s.clock <= t <= u
    ensures if h !in s.handlers then Enabled(s, ClaimNow(h, rental, authorized, t, u))
            else if s.handlers[h].Holding? then Enabled(s, SendNow(h, authorized, outcome, t, t, u)) && Enabled(s, SendNow(h, authorized, outcome, t, u, u))
            else Enabled(s, Record(h, authorized, t))
  {
  }

  // ---- The invariant ----------------------------------------------------------------------------

  predicate IsClaim(row: Audit) { row.kind.OtpClaimed? }

  /** Claims carry their number and a time inside or after their step, and no two are for one step. */
  predicate ClaimsOk(s: State) {
    && (forall i :: 0 <= i < |s.rows| && IsClaim(s.rows[i]) ==>
          s.rows[i].claim.Some? && s.rows[i].claim.value < s.nextClaim
          && s.rows[i].window.Some? && s.rows[i].at >= s.rows[i].window.value * STEP)
    && (forall i, j :: 0 <= i < j < |s.rows| && IsClaim(s.rows[i]) && IsClaim(s.rows[j]) ==>
          s.rows[i].claim != s.rows[j].claim
          && (s.rows[i].rental == s.rows[j].rental ==> s.rows[i].window != s.rows[j].window))
  }

  /** Every holder owns a committed claim that nobody else holds and under which nothing was sent. */
  ghost predicate HoldersOk(s: State) {
    && (forall h :: h in s.handlers && s.handlers[h].Holding? ==>
          && s.handlers[h].claim < s.nextClaim
          && Committed(s.rows, s.handlers[h].rental, s.handlers[h].window, s.handlers[h].claim)
          && forall k :: 0 <= k < |s.sent| ==> s.sent[k].claim != s.handlers[h].claim)
    && (forall g, h :: g in s.handlers && h in s.handlers && g != h && s.handlers[g].Holding? && s.handlers[h].Holding? ==>
          s.handlers[g].claim != s.handlers[h].claim)
  }

  ghost predicate Committed(rows: seq<Audit>, rental: RentalId, window: int, claim: ClaimId) {
    exists i :: 0 <= i < |rows| && IsClaim(rows[i]) && rows[i].rental == rental && rows[i].window == Some(window)
                && rows[i].claim == Some(claim)
  }

  ghost predicate SentOk(s: State) {
    && (forall k :: 0 <= k < |s.sent| ==>
          s.sent[k].claim < s.nextClaim && Committed(s.rows, s.sent[k].rental, s.sent[k].step, s.sent[k].claim))
    && (forall k, l :: 0 <= k < l < |s.sent| ==> s.sent[k].claim != s.sent[l].claim)
  }

  ghost predicate Inv(s: State) { ClaimsOk(s) && HoldersOk(s) && SentOk(s) }

  /** The lookup's margin hides no claim: in every reachable state a new claim is committed exactly if the step
      was not claimed before, at whatever time. */
  lemma ClaimedExactly(s: State, a: Action)
    requires Enabled(s, a) && Inv(s) && a.ClaimNow?
    ensures var step := a.t1 / 30_000_000;
            InStep(a.t1, step) &&
            Step(s, a) == if a.authorized && !ClaimedBefore(s.rows, a.rental, step)
                          then State(s.rows + [Audit(a.rental, OtpClaimed, a.t2, Some(s.nextClaim), Some(step))],
                                     s.handlers[a.h := Holding(a.rental, s.nextClaim, step)], s.sent, a.t2, s.nextClaim + 1)
                          else s.(clock := a.t2)
  {
    var step := StepOf(a.t1);
    if ClaimedBefore(s.rows, a.rental, step) {
      var i :| 0 <= i < |s.rows| && s.rows[i].kind == OtpClaimed && s.rows[i].rental == a.rental && s.rows[i].window == Some(step);
      assert IsClaim(s.rows[i]);
      assert ClaimsWindow(s.rows[i], a.rental, step);
    }
  }

  lemma StillCommitted(rows: seq<Audit>, row: Audit, rental: RentalId, window: int, claim: ClaimId)
    requires Committed(rows, rental, window, claim)
    ensures Committed(rows + [row], rental, window, claim)
  {
    var i :| 0 <= i < |rows| && IsClaim(rows[i]) && rows[i].rental == rental && rows[i].window == Some(window)
             && rows[i].claim == Some(claim);
    assert (rows + [row])[i] == rows[i];
  }

  lemma AppendKeeps(s: State, row: Audit)
    requires HoldersOk(s) && SentOk(s)
    ensures HoldersOk(s.(rows := s.rows + [row])) && SentOk(s.(rows := s.rows + [row]))
  {
    forall rental, window, claim | Committed(s.rows, rental, window, claim)
      ensures Committed(s.rows + [row], rental, window, claim)
    {
      StillCommitted(s.rows, row, rental, window, claim);
    }
  }

  lemma ClaimKeeps(s: State, h: HandlerId, rental: RentalId, t1: Time, t2: Time)
    requires Inv(s) && Enabled(s, ClaimNow(h, rental, true, t1, t2)) && Unclaimed(s.rows, rental, StepOf(t1))
    ensures Inv(ClaimStep(s, h, rental, true, t1, t2))
  {
    var window, t := StepOf(t1), ClaimStep(s, h, rental, true, t1, t2);
    AppendKeeps(s, t.rows[|s.rows|]);
    assert t.rows[|s.rows|].at >= window * STEP;
    forall i | 0 <= i < |s.rows| && IsClaim(s.rows[i]) && s.rows[i].rental == rental
      ensures s.rows[i].window != Some(window)
    {
      assert !ClaimsWindow(s.rows[i], rental, window);
    }
    assert ClaimsOk(t);
    assert Committed(t.rows, rental, window, s.nextClaim) by {
      assert t.rows[|s.rows|].claim == Some(s.nextClaim);
    }
  }

  lemma SendKeeps(s: State, h: HandlerId, outcome: Outcome, t1: Time, t2: Time, t3: Time)
    requires Inv(s) && Enabled(s, SendNow(h, true, outcome, t1, t2, t3))
    requires StepOf(t1) == StepOf(t3) == s.handlers[h].window
    ensures Inv(SendStep(s, h, true, outcome, t1, t2, t3))
  {
    assert StepOf(t2) == s.handlers[h].window;
  }

  lemma StepKeeps(s: State, a: Action)
    requires Inv(s) && Enabled(s, a)
    ensures Inv(Step(s, a))
  {
    if a.ClaimNow? && a.authorized && Unclaimed(s.rows, a.rental, StepOf(a.t1)) {
      ClaimKeeps(s, a.h, a.rental, a.t1, a.t2);
    } else if a.SendNow? && a.authorized && StepOf(a.t1) == StepOf(a.t3) == s.handlers[a.h].window {
      SendKeeps(s, a.h, a.outcome, a.t1, a.t2, a.t3);
    } else if a.Record? && a.persisted {
      AppendKeeps(s, Step(s, a).rows[|s.rows|]);
    } else if a.OtherRow? {
      AppendKeeps(s, a.row);
    }
  }

  lemma {:induction false} RunKeeps(states: seq<State>, actions: seq<Action>, n: nat)
    requires IsRun(states, actions) && n <= |actions|
    ensures Inv(states[n])
  {
    if n > 0 {
      RunKeeps(states, actions, n - 1);
      StepKeeps(states[n - 1], actions[n - 1]);
    }
  }

  /** Over all concurrent commands and crash points, a rental has at most one durable claim for a time step. */
  lemma OneClaimPerStep(states: seq<State>, actions: seq<Action>, n: nat, i: nat, j: nat)
    requires IsRun(states, actions) && n <= |actions| && i < |states[n].rows| && j < |states[n].rows|
    requires IsClaim(states[n].rows[i]) && IsClaim(states[n].rows[j])
    requires states[n].rows[i].rental == states[n].rows[j].rental && states[n].rows[i].window == states[n].rows[j].window
    ensures i == j
  {
    RunKeeps(states, actions, n);
  }

  /** Each time step is disclosed at most once per rental, and every code sent has a committed claim of its
      own step behind it. */
  lemma OneCodePerStep(states: seq<State>, actions: seq<Action>, n: nat, k: nat, l: nat)
    requires IsRun(states, actions) && n <= |actions| && k < |states[n].sent| && l < |states[n].sent|
    ensures Committed(states[n].rows, states[n].sent[k].rental, states[n].sent[k].step, states[n].sent[k].claim)
    ensures ClaimedBefore(states[n].rows, states[n].sent[k].rental, states[n].sent[k].step)
    ensures states[n].sent[k].rental == states[n].sent[l].rental && states[n].sent[k].step == states[n].sent[l].step ==> k == l
  {
    RunKeeps(states, actions, n);
  }

  // ---- What is recorded, over runs --------------------------------------------------------------

  predicate IsOutcome(row: Audit) { row.kind.OtpSent? || row.kind.OtpUncertain? }

  /** A claim of the rental before row `j`. */
  ghost predicate ClaimedAt(rows: seq<Audit>, rental: RentalId, claim: ClaimId, j: nat) {
    exists i :: 0 <= i < j && i < |rows| && IsClaim(rows[i]) && rows[i].rental == rental && rows[i].claim == Some(claim)
  }

  /** No claim is of a step that has not begun; an outcome follows a claim of its own rental. */
  ghost predicate OutcomeRowsOk(rows: seq<Audit>, clock: Time) {
    && (forall i :: 0 <= i < |rows| && IsClaim(rows[i]) && rows[i].window.Some? ==> rows[i].window.value * STEP <= clock)
    && (forall j :: 0 <= j < |rows| && IsOutcome(rows[j]) ==>
          rows[j].claim.Some? && ClaimedAt(rows, rows[j].rental, rows[j].claim.value, j))
    && (forall i, j :: 0 <= i < j < |rows| && IsClaim(rows[i]) && rows[i].window.Some? && IsOutcome(rows[j]) ==>
          rows[j].at >= rows[i].window.value * STEP)
  }

  ghost predicate RecordersOk(rows: seq<Audit>, handlers: map<HandlerId, Handler>) {
    forall h :: h in handlers && handlers[h].Recording? ==> ClaimedAt(rows, handlers[h].rental, handlers[h].claim, |rows|)
  }

  ghost predicate OutcomesOk(s: State) { OutcomeRowsOk(s.rows, s.clock) && RecordersOk(s.rows, s.handlers) }

  lemma StillClaimed(rows: seq<Audit>, row: Audit, rental: RentalId, claim: ClaimId, j: nat)
    requires ClaimedAt(rows, rental, claim, j)
    ensures ClaimedAt(rows + [row], rental, claim, j) && ClaimedAt(rows + [row], rental, claim, |rows| + 1)
  {
    var i :| 0 <= i < j && i < |rows| && IsClaim(rows[i]) && rows[i].rental == rental && rows[i].claim == Some(claim);
    assert (rows + [row])[i] == rows[i];
  }

  lemma AppendKeepsOutcomes(s: State, row: Audit, t: Time)
    requires OutcomesOk(s) && t >= s.clock
    requires IsClaim(row) && row.window.Some? ==> row.window.value * STEP <= t
    requires IsOutcome(row) ==> row.at >= s.clock && row.claim.Some? && ClaimedAt(s.rows, row.rental, row.claim.value, |s.rows|)
    ensures OutcomesOk(s.(rows := s.rows + [row], clock := t))
  {
    var rows := s.rows + [row];
    forall rental, claim, j: nat | ClaimedAt(s.rows, rental, claim, j)
      ensures ClaimedAt(rows, rental, claim, j) && ClaimedAt(rows, rental, claim, |rows|)
    {
      StillClaimed(s.rows, row, rental, claim, j);
    }
    forall j | 0 <= j < |rows| && IsOutcome(rows[j])
      ensures rows[j].claim.Some? && ClaimedAt(rows, rows[j].rental, rows[j].claim.value, j)
    {
      if j < |s.rows| {
        assert rows[j] == s.rows[j];
      }
    }
  }

  lemma ClaimKeepsOutcomes(s: State, a: Action)
    requires Enabled(s, a) && Inv(s) && OutcomesOk(s) && a.ClaimNow?
    ensures OutcomesOk(Step(s, a))
  {
    AppendKeepsOutcomes(s, ClaimRow(a.rental, s.nextClaim, a.t1, a.t2), a.t2);
  }

  lemma SendKeepsOutcomes(s: State, a: Action)
    requires Enabled(s, a) && HoldersOk(s) && OutcomesOk(s) && a.SendNow?
    ensures OutcomesOk(Step(s, a))
  {
    var held, t := s.handlers[a.h], Step(s, a);
    SentExactly(s, a);
    var i :| 0 <= i < |s.rows| && IsClaim(s.rows[i]) && s.rows[i].rental == held.rental && s.rows[i].window == Some(held.window)
             && s.rows[i].claim == Some(held.claim);
    assert ClaimedAt(s.rows, held.rental, held.claim, |s.rows|);
    assert RecordersOk(s.rows, t.handlers);
    LaterKeeps(s.rows, s.clock, t.clock);
  }

  lemma LaterKeeps(rows: seq<Audit>, clock: Time, later: Time)
    requires OutcomeRowsOk(rows, clock) && clock <= later
    ensures OutcomeRowsOk(rows, later)
  {
  }

  lemma OutcomesKept(s: State, a: Action)
    requires Enabled(s, a) && Inv(s) && OutcomesOk(s)
    ensures OutcomesOk(Step(s, a))
  {
    match a
    case ClaimNow(_, _, _, _, _) => ClaimKeepsOutcomes(s, a);
    case SendNow(_, _, _, _, _, _) => SendKeepsOutcomes(s, a);
    case Record(_, persisted, t1) =>
      if persisted {
        AppendKeepsOutcomes(s, Step(s, a).rows[|s.rows|], t1);
      }
    case OtherRow(row) => AppendKeepsOutcomes(s, row, s.clock);
    case Crash(_) =>
  }

  lemma {:induction false} OutcomesAlways(states: seq<State>, actions: seq<Action>, n: nat)
    requires IsRun(states, actions) && n <= |actions|
    ensures Inv(states[n]) && OutcomesOk(states[n])
  {
    RunKeeps(states, actions, n);
    if n > 0 {
      OutcomesAlways(states, actions, n - 1);
      OutcomesKept(states[n - 1], actions[n - 1]);
    }
  }

  /** Before state `n` of the run the code of the claim was sent, and this is what the gateway answered. */
  ghost predicate SentWith(states: seq<State>, actions: seq<Action>, n: nat, claim: ClaimId, outcome: Outcome)
    requires IsRun(states, actions) && n <= |actions|
  {
    exists m :: 0 <= m < n && SendsNow(states[m], actions[m]) && states[m].handlers[actions[m].h].claim == claim
                && actions[m].outcome == outcome
  }

  lemma {:induction false} NeverSentAgain(states: seq<State>, actions: seq<Action>, m: nat, n: nat)
    requires IsRun(states, actions) && m < n <= |actions| && SendsNow(states[m], actions[m])
    ensures exists k :: 0 <= k < |states[n].sent| && states[n].sent[k].claim == states[m].handlers[actions[m].h].claim
  {
    SentExactly(states[n - 1], actions[n - 1]);
    if m + 1 == n {
      assert states[n].sent[|states[m].sent|].claim == states[m].handlers[actions[m].h].claim;
    } else {
      NeverSentAgain(states, actions, m, n - 1);
      var k :| 0 <= k < |states[n - 1].sent| && states[n - 1].sent[k].claim == states[m].handlers[actions[m].h].claim;
      assert states[n].sent[k] == states[n - 1].sent[k];
    }
  }

  lemma OneAnswer(states: seq<State>, actions: seq<Action>, n: nat, claim: ClaimId, first: Outcome, second: Outcome)
    requires IsRun(states, actions) && n <= |actions|
    requires SentWith(states, actions, n, claim, first) && SentWith(states, actions, n, claim, second)
    ensures first == second
  {
    var i :| 0 <= i < n && SendsNow(states[i], actions[i]) && states[i].handlers[actions[i].h].claim == claim && actions[i].outcome == first;
    var j :| 0 <= j < n && SendsNow(states[j], actions[j]) && states[j].handlers[actions[j].h].claim == claim && actions[j].outcome == second;
    RunKeeps(states, actions, i);
    RunKeeps(states, actions, j);
    if i < j {
      NeverSentAgain(states, actions, i, j);
    } else if j < i {
      NeverSentAgain(states, actions, j, i);
    }
  }

  function AnswerOf(accepted: bool): Outcome { if accepted then Accepted else Errored }

  /** What handlers remember and rows record is what the gateway answered. */
  lemma {:induction false} AnswersAreTrue(states: seq<State>, actions: seq<Action>, n: nat)
    requires IsRun(states, actions) && n <= |actions|
    ensures forall h :: h in states[n].handlers && states[n].handlers[h].Recording? ==>
              SentWith(states, actions, n, states[n].handlers[h].claim, AnswerOf(states[n].handlers[h].accepted))
    ensures forall j :: 0 <= j < |states[n].rows| && IsOutcome(states[n].rows[j]) ==>
              states[n].rows[j].claim.Some?
              && SentWith(states, actions, n, states[n].rows[j].claim.value, AnswerOf(states[n].rows[j].kind.OtpSent?))
  {
    if n > 0 {
      var s, a := states[n - 1], actions[n - 1];
      AnswersAreTrue(states, actions, n - 1);
      forall claim, outcome | SentWith(states, actions, n - 1, claim, outcome)
        ensures SentWith(states, actions, n, claim, outcome)
      {
      }
      if a.SendNow? {
        SentExactly(s, a);
        assert SendsNow(s, a) ==> SentWith(states, actions, n, s.handlers[a.h].claim, a.outcome);
      } else if a.Record? {
        RecordedExactly(s, a);
      }
    }
  }

  /** The claim has a recorded outcome. */
  ghost predicate Concluded(rows: seq<Audit>, claim: ClaimId) {
    exists j :: 0 <= j < |rows| && IsOutcome(rows[j]) && rows[j].claim == Some(claim)
  }

  /** `StatusAfter` is the kind that all later outcomes of the claim share, if there is one. */
  lemma {:induction false} StatusIsOutcome(rows: seq<Audit>, rental: RentalId, window: int, claim: ClaimId, from: nat, sent: bool)
    requires from <= |rows|
    requires forall j :: 0 <= j < |rows| && IsOutcome(rows[j]) && rows[j].claim == Some(claim) ==>
               from <= j && Concludes(rows[j], rental, window, claim) && rows[j].kind.OtpSent? == sent
    ensures StatusAfter(rows, rental, window, claim, from)
            == if Concluded(rows, claim) then (if sent then ClaimSent else ClaimUncertain) else ClaimOpen
    decreases |rows|
  {
    if from < |rows| {
      var last, before := rows[|rows| - 1], rows[..|rows| - 1];
      assert forall j :: 0 <= j < |before| ==> before[j] == rows[j];
      if Concludes(last, rental, window, claim) {
        assert IsOutcome(rows[|rows| - 1]);
      } else {
        StatusIsOutcome(before, rental, window, claim, from, sent);
        if Concluded(rows, claim) {
          var j :| 0 <= j < |rows| && IsOutcome(rows[j]) && rows[j].claim == Some(claim);
          assert before[j] == rows[j];
        }
        if Concluded(before, claim) {
          var j :| 0 <= j < |before| && IsOutcome(before[j]) && before[j].claim == Some(claim);
          assert rows[j] == before[j];
        }
      }
    }
  }

  lemma StatusIsAnswer(states: seq<State>, actions: seq<Action>, n: nat, rental: RentalId, window: int, claim: ClaimId, i: nat)
    requires IsRun(states, actions) && n <= |actions| && i < |states[n].rows|
    requires ClaimsWindow(states[n].rows[i], rental, window) && states[n].rows[i].claim == Some(claim)
    ensures var rows := states[n].rows;
            var status := StatusAfter(rows, rental, window, claim, i + 1);
            && (status == ClaimSent <==> Concluded(rows, claim) && SentWith(states, actions, n, claim, Accepted))
            && (status == ClaimUncertain <==> Concluded(rows, claim) && SentWith(states, actions, n, claim, Errored))
            && (status == ClaimOpen <==> !Concluded(rows, claim))
  {
    var s := states[n];
    OutcomesAlways(states, actions, n);
    OutcomesFollow(s, rental, window, claim, i);
    if Concluded(s.rows, claim) {
      var j :| 0 <= j < |s.rows| && IsOutcome(s.rows[j]) && s.rows[j].claim == Some(claim);
      var sent := s.rows[j].kind.OtpSent?;
      SameAnswer(states, actions, n, claim, sent, j);
      NotBoth(states, actions, n, claim, sent);
      StatusIsOutcome(s.rows, rental, window, claim, i + 1, sent);
    } else {
      StatusIsOutcome(s.rows, rental, window, claim, i + 1, true);
    }
  }

  lemma NotBoth(states: seq<State>, actions: seq<Action>, n: nat, claim: ClaimId, sent: bool)
    requires IsRun(states, actions) && n <= |actions| && SentWith(states, actions, n, claim, AnswerOf(sent))
    ensures SentWith(states, actions, n, claim, Accepted) <==> sent
    ensures SentWith(states, actions, n, claim, Errored) <==> !sent
  {
    if SentWith(states, actions, n, claim, AnswerOf(!sent)) {
      OneAnswer(states, actions, n, claim, AnswerOf(!sent), AnswerOf(sent));
    }
  }

  lemma SameAnswer(states: seq<State>, actions: seq<Action>, n: nat, claim: ClaimId, sent: bool, j: nat)
    requires IsRun(states, actions) && n <= |actions| && j < |states[n].rows|
    requires IsOutcome(states[n].rows[j]) && states[n].rows[j].claim == Some(claim) && states[n].rows[j].kind.OtpSent? == sent
    ensures SentWith(states, actions, n, claim, AnswerOf(sent))
    ensures forall k :: 0 <= k < |states[n].rows| && IsOutcome(states[n].rows[k]) && states[n].rows[k].claim == Some(claim) ==>
              states[n].rows[k].kind.OtpSent? == sent
  {
    AnswersAreTrue(states, actions, n);
    var rows := states[n].rows;
    forall k | 0 <= k < |rows| && IsOutcome(rows[k]) && rows[k].claim == Some(claim)
      ensures rows[k].kind.OtpSent? == sent
    {
      OneAnswer(states, actions, n, claim, AnswerOf(rows[k].kind.OtpSent?), AnswerOf(sent));
    }
  }

  /** In every run the lookup of a step finds a claim exactly if the step was claimed, and reports it as sent
      exactly if an outcome was recorded and the gateway had accepted the code, as uncertain exactly if an outcome
      was recorded and the gateway had not, and as open exactly if nothing was recorded. */
  lemma LookupExactly(states: seq<State>, actions: seq<Action>, n: nat, rental: RentalId, window: int, r: Option<WindowClaim>)
    requires IsRun(states, actions) && n <= |actions| && IsClaimForWindow(states[n].rows, rental, window, r)
    ensures r.Some? <==> ClaimedBefore(states[n].rows, rental, window)
    ensures r.Some? ==>
              var rows, claim := states[n].rows, r.value.claim;
              && (r.value.status == ClaimSent <==> Concluded(rows, claim) && SentWith(states, actions, n, claim, Accepted))
              && (r.value.status == ClaimUncertain <==> Concluded(rows, claim) && SentWith(states, actions, n, claim, Errored))
              && (r.value.status == ClaimOpen <==> !Concluded(rows, claim))
  {
    var s := states[n];
    OutcomesAlways(states, actions, n);
    if ClaimedBefore(s.rows, rental, window) {
      var i :| 0 <= i < |s.rows| && s.rows[i].kind == OtpClaimed && s.rows[i].rental == rental && s.rows[i].window == Some(window);
      assert IsClaim(s.rows[i]);
      assert ClaimsWindow(s.rows[i], rental, window);
    }
    if r.Some? {
      var claim := r.value.claim;
      var i: nat :| LatestClaimAt(s.rows, rental, window, i) && s.rows[i].claim == Some(claim)
                    && r.value.status == StatusAfter(s.rows, rental, window, claim, i + 1);
      StatusIsAnswer(states, actions, n, rental, window, claim, i);
    }
  }

  /** Every outcome of the claim in row `i` lies behind that row and is seen by the lookup. */
  lemma OutcomesFollow(s: State, rental: RentalId, window: int, claim: ClaimId, i: nat)
    requires Inv(s) && OutcomesOk(s) && i < |s.rows| && ClaimsWindow(s.rows[i], rental, window) && s.rows[i].claim == Some(claim)
    ensures forall j :: 0 <= j < |s.rows| && IsOutcome(s.rows[j]) && s.rows[j].claim == Some(claim) ==>
              i < j && Concludes(s.rows[j], rental, window, claim)
  {
    forall j | 0 <= j < |s.rows| && IsOutcome(s.rows[j]) && s.rows[j].claim == Some(claim)
      ensures i < j && Concludes(s.rows[j], rental, window, claim)
    {
      var k :| 0 <= k < j && k < |s.rows| && IsClaim(s.rows[k]) && s.rows[k].rental == s.rows[j].rental && s.rows[k].claim == Some(claim);
      assert IsClaim(s.rows[i]);
      assert k == i;
      assert s.rows[j].at >= window * STEP;
    }
  }
}
