/** Whether an account can be sold: the pool query, the lot's capacity test and the re-check before delivery
    (backend/app/services/account_pool.py, lot_auto_manager.py, rental_service.py, limit_eligibility.py,
    subscription_eligibility.py).

    The three are SQL statements, so their conditions have three truth values, and a row is selected only
    when its condition is true, not when it is unknown. */
module Eligibility {
  import opened Rows
  import Backoff

  // ---- SQL conditions ---------------------------------------------------------------------------

  datatype Truth = Yes | No | Unknown

  function Of(b: bool): Truth { if b then Yes else No }

  function And(a: Truth, b: Truth): Truth { if a.No? || b.No? then No else if a.Yes? && b.Yes? then Yes else Unknown }

  function Or(a: Truth, b: Truth): Truth { if a.Yes? || b.Yes? then Yes else if a.No? && b.No? then No else Unknown }

  function Not(a: Truth): Truth {
    match a
    case Yes => No
    case No => Yes
    case Unknown => Unknown
  }

  lemma TruthTables(a: Truth, b: Truth)
    ensures (And(a, b) == Yes <==> a == Yes && b == Yes) && (And(a, b) == No <==> a == No || b == No)
    ensures (Or(a, b) == Yes <==> a == Yes || b == Yes) && (Or(a, b) == No <==> a == No && b == No)
    ensures (Not(a) == Yes <==> a == No) && (Not(a) == No <==> a == Yes)
  {
  }

  function AtLeast(a: Option<int>, b: int): Truth { if a.None? then Unknown else Of(a.value >= b) }

  function AtMost(a: Option<int>, b: int): Truth { if a.None? then Unknown else Of(a.value <= b) }

  function Equals<T(==)>(a: Option<T>, b: T): Truth { if a.None? then Unknown else Of(a.value == b) }

  function EqualColumns(a: Option<int>, b: Option<int>): Truth { if a.None? || b.None? then Unknown else Of(a.value == b.value) }

  function IsNull<T>(a: Option<T>): Truth { Of(a.None?) }

  function All(conditions: seq<Truth>): Truth {
    if conditions == [] then Yes else And(conditions[0], All(conditions[1..]))
  }

  /** A WHERE clause keeps the row. */
  predicate Keeps(conditions: seq<Truth>) { All(conditions).Yes? }

  lemma {:induction false} KeepsAll(conditions: seq<Truth>)
    ensures Keeps(conditions) <==> forall k :: 0 <= k < |conditions| ==> conditions[k].Yes?
  {
    if conditions != [] {
      KeepsAll(conditions[1..]);
      assert forall k :: 0 < k < |conditions| ==> conditions[k] == conditions[1..][k - 1];
    }
  }

  lemma KeepsBoth(a: seq<Truth>, b: seq<Truth>)
    ensures Keeps(a + b) <==> Keeps(a) && Keeps(b)
  {
    KeepsAll(a);
    KeepsAll(b);
    KeepsAll(a + b);
    if Keeps(a + b) {
      assert forall k :: 0 <= k < |a| ==> (a + b)[k] == a[k];
      assert forall k :: 0 <= k < |b| ==> (a + b)[|a| + k] == b[k];
    }
  }

  lemma KeepsParts(a: seq<Truth>, b: seq<Truth>, c: seq<Truth>, d: seq<Truth>, e: seq<Truth>)
    ensures Keeps(a + b + c + d + e) <==> Keeps(a) && Keeps(b) && Keeps(c) && Keeps(d) && Keeps(e)
  {
    KeepsBoth(a + b + c + d, e);
    KeepsBoth(a + b + c, d);
    KeepsBoth(a + b, c);
    KeepsBoth(a, b);
  }

  lemma Keeps2(a: Truth, b: Truth)
    ensures Keeps([a, b]) <==> a.Yes? && b.Yes?
  {
    KeepsAll([a, b]);
    assert [a, b][0] == a && [a, b][1] == b;
  }

  lemma Keeps3(a: Truth, b: Truth, c: Truth)
    ensures Keeps([a, b, c]) <==> a.Yes? && b.Yes? && c.Yes?
  {
    KeepsAll([a, b, c]);
    assert [a, b, c][0] == a && [a, b, c][1] == b && [a, b, c][2] == c;
  }

  lemma Keeps4(a: Truth, b: Truth, c: Truth, d: Truth)
    ensures Keeps([a, b, c, d]) <==> a.Yes? && b.Yes? && c.Yes? && d.Yes?
  {
    KeepsAll([a, b, c, d]);
    assert [a, b, c, d][0] == a && [a, b, c, d][1] == b && [a, b, c, d][2] == c && [a, b, c, d][3] == d;
  }

  // ---- Rows -------------------------------------------------------------------------------------

  const SEVEN_DAYS: int := 7 * 24 * 60 * 60
  const THIRTY_DAYS: int := 30 * 24 * 60 * 60

  datatype TierCode = Free | Paid(name: string)
  datatype Tier = Tier(id: nat, code: Option<TierCode>, active: bool, sellable: bool, supported: bool)
  datatype ScopeCode = AnyLimit | Codex | OtherScope
  datatype Scope = Scope(code: ScopeCode, enabled: bool)

  datatype Limits = Limits(
    primaryPct: Option<int>, primaryWindow: Option<int>, secondaryPct: Option<int>, secondaryWindow: Option<int>,
    expectedWindow: Option<int>, windowOk: bool, measuredAt: Option<Time>, refreshOk: bool)

  /** An account with its joined rows; `source` is a trusted one if present, as the table constraint says. */
  datatype Row = Row(
    id: AccountId, account: Account, tier: Option<Tier>, expiresAt: Option<Time>, source: Option<string>,
    routeHealthy: bool, limits: Option<Limits>, rentals: nat, reserved: bool, checked: bool)

  const TRUSTED: set<string> := {"accounts_check", "id_token"}

  /** What is being sold; the matrix row, the order and the rental carry the same values. */
  datatype Terms = Terms(tierId: nat, minutes: nat, minPct: Option<int>, longPct: Option<int>)

  // ---- Shared conditions ------------------------------------------------------------------------

  /** Shorter rentals need fresher measurements. */
  function Freshness(minutes: nat): int {
    Backoff.Min(60 * MINUTE, Backoff.Max(5 * MINUTE, minutes * 30 * SECOND))
  }

  function Matches(limits: Limits, window: Option<int>, pct: Option<int>): bool {
    Keeps([
      Of(limits.windowOk), Not(IsNull(limits.expectedWindow)),
      Or(Equals(limits.expectedWindow, SEVEN_DAYS), Equals(limits.expectedWindow, THIRTY_DAYS)),
      Not(IsNull(window)), EqualColumns(window, limits.expectedWindow),
      Not(IsNull(pct)), AtLeast(pct, 0), AtMost(pct, 100)])
  }

  /** The one verified observation of the long window. */
  function ObservedLong(limits: Limits): Option<int> {
    var primary := Matches(limits, limits.primaryWindow, limits.primaryPct);
    var secondary := Matches(limits, limits.secondaryWindow, limits.secondaryPct);
    if primary && !secondary then limits.primaryPct
    else if secondary && !primary then limits.secondaryPct
    else None
  }

  function ScopeConditions(limits: Limits, scope: ScopeCode, terms: Terms): seq<Truth> {
    match scope
    case AnyLimit =>
      [Not(IsNull(ObservedLong(limits)))] + (if terms.longPct.Some? then [AtMost(ObservedLong(limits), terms.longPct.value)] else [])
    case Codex => if terms.minPct.None? then [No] else [AtLeast(ObservedLong(limits), terms.minPct.value)]
    case OtherScope => [No]
  }

  function TrustedUntil(row: Row, until: Time): Truth {
    And(if row.source.None? then Unknown else Of(row.source.value in TRUSTED), AtLeast(row.expiresAt, until))
  }

  function OpenConditions(row: Row): seq<Truth> {
    [Of(row.account.status.Sellable?), IsNull(row.account.override), Of(row.routeHealthy)]
  }

  function MeasuredConditions(limits: Limits, minutes: nat, now: Time): seq<Truth> {
    [AtLeast(limits.measuredAt, now - Freshness(minutes)), Of(limits.refreshOk), Of(limits.windowOk)]
  }

  /** An inner join that finds nothing drops the row; `tier` is the account's own tier row. */
  predicate Joined(row: Row) { row.limits.Some? && row.tier.Some? }

  function RequiredUntil(minutes: nat, now: Time, headroom: int): Time { now + minutes * MINUTE + headroom }

  // ---- The three tests --------------------------------------------------------------------------

  predicate PoolOffers(row: Row, scope: ScopeCode, terms: Terms, now: Time, headroom: int) {
    Joined(row) &&
    var tier, limits := row.tier.value, row.limits.value;
    var paid := And(Not(Equals(tier.code, Free)), TrustedUntil(row, RequiredUntil(terms.minutes, now, headroom)));
    var free := And(Equals(tier.code, Free), IsNull(row.expiresAt));
    Keeps(
      OpenConditions(row)
      + [Of(tier.id == terms.tierId), Of(tier.active), Of(tier.sellable), Or(paid, free)]
      + MeasuredConditions(limits, terms.minutes, now)
      + [Of(row.rentals < 1), Of(!row.reserved), Of(!row.checked)]
      + ScopeConditions(limits, scope, terms))
  }

  /** The tests of a tier, a scope and a duration that the matrix query passes. */
  predicate OnMatrix(tier: Tier, scope: Scope) {
    tier.active && tier.sellable && tier.code.Some? && tier.supported && scope.enabled && !scope.code.OtherScope?
  }

  function ExpiryCondition(row: Row, tier: Tier, until: Time): Truth {
    if tier.code == Some(Free) then Or(TrustedUntil(row, until), IsNull(row.expiresAt)) else TrustedUntil(row, until)
  }

  predicate CapacityCounts(row: Row, tier: Tier, scope: Scope, terms: Terms, now: Time, headroom: int) {
    && tier.sellable && scope.enabled && !scope.code.OtherScope?
    && row.limits.Some?
    && var limits := row.limits.value;
    Keeps(
      OpenConditions(row)
      + [if row.tier.None? then Unknown else Of(row.tier.value.id == terms.tierId),
         ExpiryCondition(row, tier, RequiredUntil(terms.minutes, now, headroom))]
      + MeasuredConditions(limits, terms.minutes, now)
      + [Of(row.rentals < 1), Of(!row.reserved), Of(!row.checked)]
      + ScopeConditions(limits, scope.code, terms))
  }

  /** For a welcome delivery that was not attempted yet. */
  predicate DeliveryAllows(row: Row, tier: Tier, scope: Scope, terms: Terms, now: Time, headroom: int) {
    && tier.active && tier.sellable && scope.enabled && !scope.code.OtherScope?
    && Joined(row)
    && var limits := row.limits.value;
    Keeps(
      OpenConditions(row)
      + [Of(row.tier.value.id == terms.tierId), Of(row.tier.value.active), Of(row.tier.value.sellable),
         ExpiryCondition(row, tier, RequiredUntil(terms.minutes, now, headroom))]
      + MeasuredConditions(limits, terms.minutes, now)
      + ScopeConditions(limits, scope.code, terms))
  }

  // ---- The same in plain values -----------------------------------------------------------------

  /** The observation is present exactly when one of the two windows, and only one, is the plan's long window
      with a percentage; then it is that percentage. */
  lemma ObservedExactly(limits: Limits, pct: int)
    ensures ObservedLong(limits) == Some(pct) <==>
              && limits.windowOk && (limits.expectedWindow == Some(SEVEN_DAYS) || limits.expectedWindow == Some(THIRTY_DAYS))
              && IsLong(limits, limits.primaryWindow, limits.primaryPct) != IsLong(limits, limits.secondaryWindow, limits.secondaryPct)
              && Some(pct) == if IsLong(limits, limits.primaryWindow, limits.primaryPct) then limits.primaryPct else limits.secondaryPct
  {
    MatchesExactly(limits, limits.primaryWindow, limits.primaryPct);
    MatchesExactly(limits, limits.secondaryWindow, limits.secondaryPct);
  }

  predicate IsLong(limits: Limits, window: Option<int>, pct: Option<int>) {
    window == limits.expectedWindow && pct.Some? && 0 <= pct.value <= 100
  }

  lemma MatchesExactly(limits: Limits, window: Option<int>, pct: Option<int>)
    ensures Matches(limits, window, pct) <==>
              && limits.windowOk && (limits.expectedWindow == Some(SEVEN_DAYS) || limits.expectedWindow == Some(THIRTY_DAYS))
              && IsLong(limits, window, pct)
  {
    var expected := Or(Equals(limits.expectedWindow, SEVEN_DAYS), Equals(limits.expectedWindow, THIRTY_DAYS));
    var first := [Of(limits.windowOk), Not(IsNull(limits.expectedWindow)), expected, Not(IsNull(window))];
    var second := [EqualColumns(window, limits.expectedWindow), Not(IsNull(pct)), AtLeast(pct, 0), AtMost(pct, 100)];
    KeepsBoth(first, second);
    Keeps4(first[0], first[1], first[2], first[3]);
    Keeps4(second[0], second[1], second[2], second[3]);
    assert first + second == [first[0], first[1], first[2], first[3], second[0], second[1], second[2], second[3]];
  }

  /** The verified percentage of the plan's long window, seven or thirty days: exactly one of the two measured
      windows is that long and has a percentage from 0 to 100. */
  ghost predicate LongPercentage(limits: Limits, pct: int) {
    && limits.windowOk && (limits.expectedWindow == Some(604_800) || limits.expectedWindow == Some(2_592_000))
    && var first := limits.primaryWindow == limits.expectedWindow && limits.primaryPct.Some? && 0 <= limits.primaryPct.value <= 100;
    var second := limits.secondaryWindow == limits.expectedWindow && limits.secondaryPct.Some? && 0 <= limits.secondaryPct.value <= 100;
    (first && !second && limits.primaryPct == Some(pct)) || (second && !first && limits.secondaryPct == Some(pct))
  }

  /** A Codex lot needs at least the minimum left; any other limit has at most the ceiling, if there is one. */
  ghost predicate WithinScope(limits: Limits, scope: ScopeCode, terms: Terms) {
    || (scope == Codex && terms.minPct.Some? && exists pct :: LongPercentage(limits, pct) && terms.minPct.value <= pct)
    || (scope == AnyLimit && exists pct :: LongPercentage(limits, pct) && (terms.longPct.Some? ==> pct <= terms.longPct.value))
  }

  /** Measured within half the rental's duration, but at least within five minutes and at most within an hour. */
  ghost predicate MeasuredRecently(limits: Limits, minutes: nat, now: Time) {
    && limits.refreshOk && limits.windowOk && limits.measuredAt.Some?
    && limits.measuredAt.value >= now - 3_600_000_000
    && (limits.measuredAt.value >= now - 300_000_000 || limits.measuredAt.value >= now - minutes * 30_000_000)
  }

  /** A trusted subscription deadline at or after `until`. */
  ghost predicate LastsUntil(row: Row, until: Time) {
    (row.source == Some("accounts_check") || row.source == Some("id_token")) && row.expiresAt.Some? && row.expiresAt.value >= until
  }

  ghost predicate Healthy(row: Row) { row.account.status == Sellable && row.account.override.None? && row.routeHealthy }

  ghost predicate Idle(row: Row) { row.rentals == 0 && !row.reserved && !row.checked }

  /** What the pool hands out: a healthy, idle account of the sold tier, freshly measured and within the scope,
      that is Free without a deadline or paid past the end of the rental and the headroom. */
  ghost predicate Offered(row: Row, scope: ScopeCode, terms: Terms, now: Time, headroom: int) {
    && Healthy(row) && Idle(row)
    && row.tier.Some? && row.tier.value.id == terms.tierId && row.tier.value.active && row.tier.value.sellable
    && ((row.tier.value.code == Some(Free) && row.expiresAt.None?)
        || (row.tier.value.code.Some? && row.tier.value.code != Some(Free) && LastsUntil(row, now + terms.minutes * 60_000_000 + headroom)))
    && row.limits.Some? && MeasuredRecently(row.limits.value, terms.minutes, now) && WithinScope(row.limits.value, scope, terms)
  }

  /** What makes a lot available: the same, where a Free account may also have such a deadline. */
  ghost predicate Counted(row: Row, tier: Tier, scope: Scope, terms: Terms, now: Time, headroom: int) {
    && tier.sellable && scope.enabled && Healthy(row) && Idle(row)
    && row.tier.Some? && row.tier.value.id == terms.tierId
    && ((tier.code == Some(Free) && row.expiresAt.None?) || LastsUntil(row, now + terms.minutes * 60_000_000 + headroom))
    && row.limits.Some? && MeasuredRecently(row.limits.value, terms.minutes, now) && WithinScope(row.limits.value, scope.code, terms)
  }

  /** What the re-check lets a first delivery go out with: it asks nothing about the account's own rental. */
  ghost predicate Allowed(row: Row, tier: Tier, scope: Scope, terms: Terms, now: Time, headroom: int) {
    && tier.active && tier.sellable && scope.enabled && Healthy(row)
    && row.tier.Some? && row.tier.value.id == terms.tierId && row.tier.value.active && row.tier.value.sellable
    && ((tier.code == Some(Free) && row.expiresAt.None?) || LastsUntil(row, now + terms.minutes * 60_000_000 + headroom))
    && row.limits.Some? && MeasuredRecently(row.limits.value, terms.minutes, now) && WithinScope(row.limits.value, scope.code, terms)
  }

  lemma ObservedIsLong(limits: Limits, pct: int)
    ensures ObservedLong(limits) == Some(pct) <==> LongPercentage(limits, pct)
  {
    ObservedExactly(limits, pct);
  }

  lemma ScopeLaw(limits: Limits, scope: ScopeCode, terms: Terms)
    ensures Keeps(ScopeConditions(limits, scope, terms)) <==> WithinScope(limits, scope, terms)
  {
    var conditions, observed := ScopeConditions(limits, scope, terms), ObservedLong(limits);
    KeepsAll(conditions);
    forall pct
      ensures LongPercentage(limits, pct) <==> observed == Some(pct)
    {
      ObservedIsLong(limits, pct);
    }
    if scope.AnyLimit? && terms.longPct.Some? {
      assert conditions == [Not(IsNull(observed)), AtMost(observed, terms.longPct.value)];
      Keeps2(Not(IsNull(observed)), AtMost(observed, terms.longPct.value));
    } else if scope.AnyLimit? {
      assert conditions == [Not(IsNull(observed))];
    }
    if observed.Some? {
      assert LongPercentage(limits, observed.value);
    }
  }

  lemma MeasuredLaw(limits: Limits, minutes: nat, now: Time)
    ensures Keeps(MeasuredConditions(limits, minutes, now)) <==> MeasuredRecently(limits, minutes, now)
  {
    Keeps3(AtLeast(limits.measuredAt, now - Freshness(minutes)), Of(limits.refreshOk), Of(limits.windowOk));
  }

  lemma OpenLaw(row: Row)
    ensures Keeps(OpenConditions(row)) <==> Healthy(row)
    ensures Keeps([Of(row.rentals < 1), Of(!row.reserved), Of(!row.checked)]) <==> Idle(row)
  {
    Keeps3(Of(row.account.status.Sellable?), IsNull(row.account.override), Of(row.routeHealthy));
    Keeps3(Of(row.rentals < 1), Of(!row.reserved), Of(!row.checked));
  }

  lemma DeadlineLaw(row: Row, tier: Tier, until: Time)
    ensures TrustedUntil(row, until).Yes? <==> LastsUntil(row, until)
    ensures ExpiryCondition(row, tier, until).Yes? <==> (tier.code == Some(Free) && row.expiresAt.None?) || LastsUntil(row, until)
  {
  }

  lemma OfferedExactly(row: Row, scope: ScopeCode, terms: Terms, now: Time, headroom: int)
    ensures PoolOffers(row, scope, terms, now, headroom) <==> Offered(row, scope, terms, now, headroom)
  {
    if Joined(row) {
      var until, limits, own := RequiredUntil(terms.minutes, now, headroom), row.limits.value, row.tier.value;
      var paid := And(Not(Equals(own.code, Free)), TrustedUntil(row, until));
      var gratis := And(Equals(own.code, Free), IsNull(row.expiresAt));
      KeepsParts(OpenConditions(row), [Of(own.id == terms.tierId), Of(own.active), Of(own.sellable), Or(paid, gratis)],
                 MeasuredConditions(limits, terms.minutes, now), [Of(row.rentals < 1), Of(!row.reserved), Of(!row.checked)],
                 ScopeConditions(limits, scope, terms));
      Keeps4(Of(own.id == terms.tierId), Of(own.active), Of(own.sellable), Or(paid, gratis));
      OpenLaw(row);
      MeasuredLaw(limits, terms.minutes, now);
      ScopeLaw(limits, scope, terms);
      DeadlineLaw(row, own, until);
    }
  }

  lemma CountedExactly(row: Row, tier: Tier, scope: Scope, terms: Terms, now: Time, headroom: int)
    ensures CapacityCounts(row, tier, scope, terms, now, headroom) <==> Counted(row, tier, scope, terms, now, headroom)
  {
    if row.limits.Some? {
      var until, limits := RequiredUntil(terms.minutes, now, headroom), row.limits.value;
      var same := if row.tier.None? then Unknown else Of(row.tier.value.id == terms.tierId);
      KeepsParts(OpenConditions(row), [same, ExpiryCondition(row, tier, until)],
                 MeasuredConditions(limits, terms.minutes, now), [Of(row.rentals < 1), Of(!row.reserved), Of(!row.checked)],
                 ScopeConditions(limits, scope.code, terms));
      Keeps2(same, ExpiryCondition(row, tier, until));
      OpenLaw(row);
      MeasuredLaw(limits, terms.minutes, now);
      ScopeLaw(limits, scope.code, terms);
      DeadlineLaw(row, tier, until);
    }
  }

  lemma AllowedExactly(row: Row, tier: Tier, scope: Scope, terms: Terms, now: Time, headroom: int)
    ensures DeliveryAllows(row, tier, scope, terms, now, headroom) <==> Allowed(row, tier, scope, terms, now, headroom)
  {
    if Joined(row) {
      var until, limits, own := RequiredUntil(terms.minutes, now, headroom), row.limits.value, row.tier.value;
      var expiry := ExpiryCondition(row, tier, until);
      var catalog := [Of(own.id == terms.tierId), Of(own.active), Of(own.sellable), expiry];
      var middle := MeasuredConditions(limits, terms.minutes, now);
      KeepsBoth(OpenConditions(row) + catalog + middle, ScopeConditions(limits, scope.code, terms));
      KeepsBoth(OpenConditions(row) + catalog, middle);
      KeepsBoth(OpenConditions(row), catalog);
      Keeps4(Of(own.id == terms.tierId), Of(own.active), Of(own.sellable), expiry);
      OpenLaw(row);
      MeasuredLaw(limits, terms.minutes, now);
      ScopeLaw(limits, scope.code, terms);
      DeadlineLaw(row, tier, until);
    }
  }

  // ---- How they agree ---------------------------------------------------------------------------

  /** The account's tier row is the row that the terms name. */
  predicate SameTier(row: Row, tier: Tier, terms: Terms) {
    tier.id == terms.tierId && (row.tier.Some? && row.tier.value.id == tier.id ==> row.tier.value == tier)
  }

  /** A Free account with a subscription deadline, which only the pool query turns away. */
  predicate FreeWithDeadline(row: Row) { row.tier.Some? && row.tier.value.code == Some(Free) && row.expiresAt.Some? }

  /** The pool hands out exactly the accounts that make the lot available, Free accounts with a deadline
      excepted, whose trusted deadline counts for the lot and disqualifies them in the pool. */
  lemma PoolExactly(row: Row, tier: Tier, scope: Scope, terms: Terms, now: Time, headroom: int)
    requires OnMatrix(tier, scope) && SameTier(row, tier, terms)
    ensures PoolOffers(row, scope.code, terms, now, headroom)
            <==> CapacityCounts(row, tier, scope, terms, now, headroom) && !FreeWithDeadline(row)
    ensures PoolOffers(row, scope.code, terms, now, headroom) <==> Offered(row, scope.code, terms, now, headroom)
    ensures CapacityCounts(row, tier, scope, terms, now, headroom) <==> Counted(row, tier, scope, terms, now, headroom)
  {
    OfferedExactly(row, scope.code, terms, now, headroom);
    CountedExactly(row, tier, scope, terms, now, headroom);
  }

  ghost predicate HasCapacity(rows: seq<Row>, tier: Tier, scope: Scope, terms: Terms, now: Time, headroom: int) {
    exists r :: r in rows && CapacityCounts(r, tier, scope, terms, now, headroom)
  }

  ghost predicate HasCandidate(rows: seq<Row>, scope: Scope, terms: Terms, now: Time, headroom: int) {
    exists r :: r in rows && PoolOffers(r, scope.code, terms, now, headroom)
  }

  /** Under the matrix filter a lot has capacity exactly when the pool query has a candidate, unless all the
      accounts that give it capacity are Free accounts with a deadline. */
  lemma CapacityExactly(rows: seq<Row>, tier: Tier, scope: Scope, terms: Terms, now: Time, headroom: int)
    requires OnMatrix(tier, scope) && forall r :: r in rows ==> SameTier(r, tier, terms)
    ensures (HasCapacity(rows, tier, scope, terms, now, headroom) <==> HasCandidate(rows, scope, terms, now, headroom))
            <==> (HasCapacity(rows, tier, scope, terms, now, headroom) ==>
                    exists r :: r in rows && CapacityCounts(r, tier, scope, terms, now, headroom) && !FreeWithDeadline(r))
    ensures HasCapacity(rows, tier, scope, terms, now, headroom)
            <==> exists r :: r in rows && Counted(r, tier, scope, terms, now, headroom)
    ensures HasCandidate(rows, scope, terms, now, headroom)
            <==> exists r :: r in rows && Offered(r, scope.code, terms, now, headroom)
  {
    forall r | r in rows
      ensures PoolOffers(r, scope.code, terms, now, headroom)
              <==> CapacityCounts(r, tier, scope, terms, now, headroom) && !FreeWithDeadline(r)
      ensures PoolOffers(r, scope.code, terms, now, headroom) <==> Offered(r, scope.code, terms, now, headroom)
      ensures CapacityCounts(r, tier, scope, terms, now, headroom) <==> Counted(r, tier, scope, terms, now, headroom)
    {
      PoolExactly(r, tier, scope, terms, now, headroom);
    }
  }

  /** In particular the two agree while no Free account carries a deadline. */
  lemma CapacityIffCandidate(rows: seq<Row>, tier: Tier, scope: Scope, terms: Terms, now: Time, headroom: int)
    requires OnMatrix(tier, scope) && forall r :: r in rows ==> SameTier(r, tier, terms) && !FreeWithDeadline(r)
    ensures HasCapacity(rows, tier, scope, terms, now, headroom) <==> HasCandidate(rows, scope, terms, now, headroom)
    ensures HasCapacity(rows, tier, scope, terms, now, headroom)
            <==> exists r :: r in rows && Offered(r, scope.code, terms, now, headroom)
    ensures HasCandidate(rows, scope, terms, now, headroom)
            <==> exists r :: r in rows && Counted(r, tier, scope, terms, now, headroom)
  {
    CapacityExactly(rows, tier, scope, terms, now, headroom);
  }

  /** Whatever the pool picks passes the re-check before delivery at the same instant. */
  lemma PickPassesDelivery(row: Row, tier: Tier, scope: Scope, terms: Terms, now: Time, headroom: int)
    requires scope.enabled && SameTier(row, tier, terms)
    ensures PoolOffers(row, scope.code, terms, now, headroom) ==> DeliveryAllows(row, tier, scope, terms, now, headroom)
    ensures Offered(row, scope.code, terms, now, headroom) ==> DeliveryAllows(row, tier, scope, terms, now, headroom)
    ensures PoolOffers(row, scope.code, terms, now, headroom) ==> Allowed(row, tier, scope, terms, now, headroom)
  {
    OfferedExactly(row, scope.code, terms, now, headroom);
    AllowedExactly(row, tier, scope, terms, now, headroom);
  }
}
