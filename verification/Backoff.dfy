/** Retry backoff shared by delivery, order, sale and notification retries, and the allocation
    headroom derived from it (backend/app/services/delivery_policy.py). */
module Backoff {
  import opened Rows

  const DELIVERY_BASE_SECONDS: nat := 60
  const DELIVERY_MAX_SECONDS: nat := 60 * 60
  const SEND_TIMEOUT_SECONDS: nat := 30
  const POLL_SECONDS: nat := 60
  const SAFETY_SECONDS: nat := 60

  function Pow2(n: nat): (r: nat)
    ensures r > 0
  {
    if n == 0 then 1 else 2 * Pow2(n - 1)
  }

  function Min(a: int, b: int): int { if a <= b then a else b }

  function Max(a: int, b: int): int { if a >= b then a else b }

  /** Seconds to wait after the failed 1-based `attempt`. */
  function DeliveryRetrySeconds(attempt: int): nat {
    Min(DELIVERY_BASE_SECONDS * Pow2(Max(0, attempt - 1)), DELIVERY_MAX_SECONDS)
  }

  // ---- Saturated exponents ----------------------------------------------------------------------

  /** `cap` saturates the exponent before the power is taken, so a corrupted counter stays harmless. */
  datatype Policy = Policy(base: nat, cap: nat, max: nat)

  const ORDER_RETRY := Policy(60, 6, 60 * 60)
  const SALE_RETRY := Policy(5 * 60, 12, 24 * 60 * 60)
  const CONFIRMATION_RETRY := Policy(60, 12, 24 * 60 * 60)

  /** Seconds after the 1-based `attempt`, as the code computes them. */
  function Delay(p: Policy, attempt: int): int {
    Min(p.base * Pow2(Min(p.cap, Max(0, attempt - 1))), p.max)
  }

  /** The delay without saturation. */
  function TrueDelay(p: Policy, attempt: int): int { Min(p.base * Pow2(Max(0, attempt - 1)), p.max) }

  lemma {:induction false} Pow2Grows(m: nat, n: nat)
    requires m <= n
    ensures Pow2(m) <= Pow2(n)
  {
    if m < n {
      Pow2Grows(m, n - 1);
    }
  }

  lemma ScaledGrows(base: nat, x: nat, y: nat)
    requires x <= y
    ensures base * x <= base * y
  {
  }

  /** Saturating changes no delay exactly when the saturated power already reaches the maximum. */
  lemma SaturationIsExact(p: Policy)
    requires p.base > 0
    ensures (forall n: int :: Delay(p, n) == TrueDelay(p, n)) <==> p.base * Pow2(p.cap) >= p.max
  {
    if p.base * Pow2(p.cap) >= p.max {
      forall n: int
        ensures Delay(p, n) == TrueDelay(p, n)
      {
        var exponent := Max(0, n - 1);
        if exponent > p.cap {
          Pow2Grows(p.cap, exponent);
          ScaledGrows(p.base, Pow2(p.cap), Pow2(exponent));
        }
      }
    } else {
      assert Pow2(p.cap + 1) == 2 * Pow2(p.cap);
      assert p.base * Pow2(p.cap + 1) == 2 * (p.base * Pow2(p.cap));
      assert p.base * Pow2(p.cap) > 0 by {
        ScaledGrows(Pow2(p.cap), 1, p.base);
      }
      assert Delay(p, p.cap + 2) != TrueDelay(p, p.cap + 2);
    }
  }

  /** Every policy of the code is saturated late enough, for every stored counter. */
  lemma PoliciesAreExact(n: int)
    ensures Delay(ORDER_RETRY, n) == TrueDelay(ORDER_RETRY, n)
    ensures Delay(SALE_RETRY, n) == TrueDelay(SALE_RETRY, n)
    ensures Delay(CONFIRMATION_RETRY, n) == TrueDelay(CONFIRMATION_RETRY, n)
    ensures DeliveryRetrySeconds(n) == TrueDelay(ORDER_RETRY, n)
  {
    Powers();
    SaturationIsExact(ORDER_RETRY);
    SaturationIsExact(SALE_RETRY);
    SaturationIsExact(CONFIRMATION_RETRY);
  }

  lemma Powers()
    ensures Pow2(6) == 64 && Pow2(12) == 4096
  {
  }

  /** The waits in seconds: orders and notifications of an expiry double from a minute, sales from five minutes, up to
      an hour and a day. */
  ghost function OrderSeconds(n: int): int { if n <= 1 then 60 else if n <= 6 then [120, 240, 480, 960, 1920][n - 2] else 3600 }

  ghost function SaleSeconds(n: int): int {
    if n <= 1 then 300 else if n <= 9 then [600, 1200, 2400, 4800, 9600, 19_200, 38_400, 76_800][n - 2] else 86_400
  }

  ghost function ConfirmationSeconds(n: int): int {
    if n <= 1 then 60
    else if n <= 11 then [120, 240, 480, 960, 1920, 3840, 7680, 15_360, 30_720, 61_440][n - 2]
    else 86_400
  }

  lemma OrderSecondsLaw(n: int)
    ensures TrueDelay(ORDER_RETRY, n) == OrderSeconds(n)
  {
    Doublings();
    if n >= 7 {
      Pow2Grows(6, n - 1);
    }
  }

  lemma SaleSecondsLaw(n: int)
    ensures TrueDelay(SALE_RETRY, n) == SaleSeconds(n)
  {
    Doublings();
    if n >= 10 {
      Pow2Grows(9, n - 1);
    }
  }

  lemma ConfirmationSecondsLaw(n: int)
    ensures TrueDelay(CONFIRMATION_RETRY, n) == ConfirmationSeconds(n)
  {
    Doublings();
    if n >= 12 {
      Pow2Grows(11, n - 1);
    }
  }

  lemma Doublings()
    ensures Pow2(0) == 1 && Pow2(1) == 2 && Pow2(2) == 4 && Pow2(3) == 8 && Pow2(4) == 16 && Pow2(5) == 32 && Pow2(6) == 64
    ensures Pow2(7) == 128 && Pow2(8) == 256 && Pow2(9) == 512 && Pow2(10) == 1024 && Pow2(11) == 2048
  {
  }

  /** The four policies of the code wait these many seconds, whatever counter is stored. */
  lemma DelaysInSeconds(n: int)
    ensures Delay(ORDER_RETRY, n) == DeliveryRetrySeconds(n) == OrderSeconds(n)
    ensures Delay(SALE_RETRY, n) == SaleSeconds(n) && Delay(CONFIRMATION_RETRY, n) == ConfirmationSeconds(n)
  {
    PoliciesAreExact(n);
    OrderSecondsLaw(n);
    SaleSecondsLaw(n);
    ConfirmationSecondsLaw(n);
  }

  /** Later attempts never wait less. */
  lemma DelayNeverShrinks(p: Policy, m: int, n: int)
    requires m <= n
    ensures Delay(p, m) <= Delay(p, n) && TrueDelay(p, m) <= TrueDelay(p, n)
  {
    Pow2Grows(Min(p.cap, Max(0, m - 1)), Min(p.cap, Max(0, n - 1)));
    ScaledGrows(p.base, Pow2(Min(p.cap, Max(0, m - 1))), Pow2(Min(p.cap, Max(0, n - 1))));
    Pow2Grows(Max(0, m - 1), Max(0, n - 1));
    ScaledGrows(p.base, Pow2(Max(0, m - 1)), Pow2(Max(0, n - 1)));
  }

  /** The retry columns of an order or a sale. */
  class RetryColumns {
    var attempts: int
    var nextAttempt: Option<Time>

    constructor (attempts: int)
      ensures this.attempts == attempts && nextAttempt.None?
    {
      this.attempts, nextAttempt := attempts, None;
    }

    method DeferOrder(now: Time)
      modifies this
      ensures attempts == old(attempts) + 1
      ensures nextAttempt == Some(now + TrueDelay(ORDER_RETRY, attempts) * SECOND)
      ensures nextAttempt == Some(now + OrderSeconds(attempts) * 1_000_000)
    {
      attempts := attempts + 1;
      var exponent := Min(ORDER_RETRY.cap, Max(0, attempts - 1));
      nextAttempt := Some(now + Min(ORDER_RETRY.base * Pow2(exponent), ORDER_RETRY.max) * SECOND);
      DelaysInSeconds(attempts);
      PoliciesAreExact(attempts);
    }

    /** Sales, buyer profiles and result pages: a negative counter counts as none. */
    method DeferSale(now: Time)
      modifies this
      ensures attempts == (if old(attempts) < 0 then 0 else old(attempts)) + 1
      ensures nextAttempt == Some(now + TrueDelay(SALE_RETRY, attempts) * SECOND)
      ensures nextAttempt == Some(now + SaleSeconds(attempts) * 1_000_000)
    {
      attempts := Max(0, attempts) + 1;
      var exponent := Min(SALE_RETRY.cap, attempts - 1);
      nextAttempt := Some(now + Min(SALE_RETRY.base * Pow2(exponent), SALE_RETRY.max) * SECOND);
      DelaysInSeconds(attempts);
      PoliciesAreExact(attempts);
    }
  }

  // ---- Allocation headroom ----------------------------------------------------------------------

  /** The delays after attempts 1 to n - 1. */
  function DelaySum(n: nat): nat { if n <= 1 then 0 else DelaySum(n - 1) + DeliveryRetrySeconds(n - 1) }

  /** How much longer than the term a subscription must last, for at most `n` attempts. */
  function Headroom(n: nat): int
    requires n > 0
  {
    DelaySum(n) + n * SEND_TIMEOUT_SECONDS + (n - 1) * POLL_SECONDS + SAFETY_SECONDS
  }

  /** For the six attempts of a delivery: the waits of 31 minutes, six timeouts, five polls and the margin, forty
      minutes in all. */
  lemma HeadroomOfSix()
    ensures DelaySum(6) == 1860 && Headroom(6) == 2400
  {
    Doublings();
    assert DelaySum(3) == 180;
    assert DelaySum(4) == 420;
    assert DelaySum(5) == 900;
  }

  /** Attempt k + 1 runs from `starts[k]` to `ends[k]`, in seconds after the allocation: the first starts at
      once, a retry at the latest one poll after it is due, and a send is cut off at its timeout. */
  predicate OnTime(starts: seq<int>, ends: seq<int>) {
    && |starts| == |ends| > 0
    && starts[0] == 0
    && (forall k :: 0 <= k < |starts| ==> starts[k] <= ends[k] <= starts[k] + SEND_TIMEOUT_SECONDS)
    && forall k {:trigger starts[k]} :: 0 < k < |starts| ==> starts[k] <= ends[k - 1] + DeliveryRetrySeconds(k) + POLL_SECONDS
  }

  /** Whatever the maximum number of attempts is, the last one ends within the headroom, the safety margin
      not even touched. */
  lemma {:induction false} LastAttemptFits(starts: seq<int>, ends: seq<int>)
    requires OnTime(starts, ends)
    ensures ends[|ends| - 1] <= Headroom(|ends|) - SAFETY_SECONDS
  {
    var n := |ends|;
    if n > 1 {
      LastAttemptFits(starts[..n - 1], ends[..n - 1]);
    }
  }

  /** The latest schedule the rules allow. */
  function LatestStart(k: nat): int {
    if k == 0 then 0 else LatestStart(k - 1) + SEND_TIMEOUT_SECONDS + DeliveryRetrySeconds(k) + POLL_SECONDS
  }

  lemma {:induction false} LatestStartIs(k: nat)
    ensures LatestStart(k) == DelaySum(k + 1) + k * SEND_TIMEOUT_SECONDS + k * POLL_SECONDS
  {
    if k > 0 {
      LatestStartIs(k - 1);
    }
  }

  /** The bound is reached, so a smaller headroom would not do. */
  lemma HeadroomIsTight(n: nat) returns (starts: seq<int>, ends: seq<int>)
    requires n > 0
    ensures OnTime(starts, ends) && |ends| == n && ends[n - 1] == Headroom(n) - SAFETY_SECONDS
  {
    starts := seq(n, k requires 0 <= k < n => LatestStart(k));
    ends := seq(n, k requires 0 <= k < n => LatestStart(k) + SEND_TIMEOUT_SECONDS);
    LatestStartIs(n - 1);
  }
}
