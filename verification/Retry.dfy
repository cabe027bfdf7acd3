/** Attempt budget, capped full-jitter backoff and the Retry-After policy. */
module Retry {
  import opened Prelude

  /** Counts the provider calls started for one request. */
  class AttemptBudget {
    const maxTotal: nat
    var started: nat

    constructor (maxTotal: nat)
      ensures this.maxTotal == Max(maxTotal, 1) && started == 0
    {
      this.maxTotal := Max(maxTotal, 1);
      started := 0;
    }

    function Remaining(): (left: nat)
      reads this
      ensures left == 0 <==> maxTotal <= started
      ensures left > 0 ==> started + left == maxTotal
    {
      Since(maxTotal, started)
    }

    method TryStart() returns (ok: bool)
      modifies this
      ensures ok <==> old(Remaining()) > 0
      ensures started == if ok then old(started) + 1 else old(started)
      ensures ok ==> Remaining() == old(Remaining()) - 1
    {
      if started >= maxTotal {
        ok := false;
      } else {
        started := started + 1;
        ok := true;
      }
    }
  }

  // ----- backoff window ----------------------------------------------------------------

  function Pow2(e: nat): (p: nat)
    ensures p >= 1
  {
    if e == 0 then 1 else 2 * Pow2(e - 1)
  }

  /** u64 arithmetic that clamps at the maximum. */
  function SaturatingPow2(e: nat): nat {
    Min(Pow2(e), U64_MAX)
  }

  function SaturatingMul(a: nat, b: nat): nat {
    Min(a * b, U64_MAX)
  }

  /** The window the code computes for retry `k` and a cap in milliseconds. */
  function Window(k: nat, capMs: nat): nat {
    Min(SaturatingMul(1000, SaturatingPow2(Since(k, 1))), capMs)
  }

  /** Full jitter over `0..=window` from a raw u64 sample; no sample means no delay. */
  function Jitter(window: nat, raw: Option<nat>): nat {
    if window == 0 || raw.None? then 0 else raw.value % Min(window + 1, U64_MAX)
  }

  function JitteredBackoffMs(k: nat, capMs: nat, raw: Option<nat>): nat {
    Jitter(Window(k, capMs), raw)
  }

  /** The saturating u64 computation is the mathematical window, for every retry and cap. */
  lemma WindowIsExact(k: nat, capMs: nat)
    requires 1 <= k && capMs <= U64_MAX
    ensures Window(k, capMs) == Min(1000 * Pow2(k - 1), capMs)
  {
  }

  /** The window starts at a second and doubles with each retry, up to the cap. */
  lemma {:induction false} WindowDoubles(k: nat, capMs: nat)
    requires 1 <= k && capMs <= U64_MAX
    ensures Window(1, capMs) == Min(1000, capMs)
    ensures Window(k + 1, capMs) == Min(2 * Window(k, capMs), capMs)
  {
    WindowIsExact(1, capMs);
    WindowIsExact(k, capMs);
    WindowIsExact(k + 1, capMs);
    assert Pow2(k) == 2 * Pow2(k - 1);
    assert Pow2(0) == 1;
  }

  lemma {:induction false} Pow2Monotone(a: nat, b: nat)
    requires a <= b
    ensures Pow2(a) <= Pow2(b)
  {
    if a < b {
      Pow2Monotone(a, b - 1);
    }
  }

  lemma {:induction false} WindowGrows(j: nat, k: nat, capMs: nat)
    requires j <= k
    ensures Window(j, capMs) <= Window(k, capMs)
  {
    Pow2Monotone(Since(j, 1), Since(k, 1));
  }

  lemma RemainderRange(x: nat, n: nat)
    requires 0 < n
    ensures 0 <= x % n < n && (x < n ==> x % n == x)
  {
  }

  lemma JitterRange(window: nat, raw: Option<nat>, delay: nat)
    ensures Jitter(window, raw) <= window
    ensures delay <= window && delay < U64_MAX ==> Jitter(window, Some(delay)) == delay
  {
    var span := Min(window + 1, U64_MAX);
    RemainderRange(delay, span);
    if raw.Some? {
      RemainderRange(raw.value, span);
    }
  }

  /** Every sample lies in the mathematical window, and every delay of the window can be sampled,
      except that a window of 2^64-1 leaves its last value out. */
  lemma JitterCoversTheWindow(k: nat, capMs: nat, raw: Option<nat>, delay: nat)
    requires 1 <= k && capMs <= U64_MAX
    ensures JitteredBackoffMs(k, capMs, raw) <= Min(1000 * Pow2(k - 1), capMs)
    ensures delay <= Min(1000 * Pow2(k - 1), capMs) && delay < U64_MAX ==>
              JitteredBackoffMs(k, capMs, Some(delay)) == delay
  {
    WindowIsExact(k, capMs);
    JitterRange(Window(k, capMs), raw, delay);
  }

  // ----- waiting before a retry --------------------------------------------------------

  datatype RetryDelay = Immediate | Sleep(delay: nat, providerMinimum: bool)

  datatype DelayError = DelayPastDeadline | ProviderDelayCannotFit(retryAfter: nat)

  datatype DelayResult = Wait(duration: nat) | NoWait(error: DelayError)

  /** Delays and the cap are durations; the cap is clamped to u64 milliseconds first. */
  function PlanRetryDelay(k: nat, backoffCap: nat, provider: Option<nat>, raw: Option<nat>): RetryDelay {
    match provider
    case Some(delay) => if delay == 0 then Immediate else Sleep(delay, true)
    case None =>
      var delay := Millis(JitteredBackoffMs(k, WholeMillis(backoffCap), raw));
      if delay == 0 then Immediate else Sleep(delay, false)
  }

  function EvaluateRetryDelay(planned: RetryDelay, remaining: nat): DelayResult {
    match planned
    case Immediate => Wait(0)
    case Sleep(delay, providerMinimum) =>
      if delay <= remaining then Wait(delay)
      else if providerMinimum then NoWait(ProviderDelayCannotFit(delay))
      else NoWait(DelayPastDeadline)
  }

  predicate ProviderMinimumCannotFit(provider: Option<nat>, remaining: nat) {
    && provider.Some? && provider.value != 0
    && var verdict := EvaluateRetryDelay(Sleep(provider.value, true), remaining);
       verdict.NoWait? && verdict.error.ProviderDelayCannotFit?
  }

  /** A provider minimum is waited for in full or not at all, whatever the cap and the jitter; it
      is given up exactly when it exceeds the time left, and `ProviderMinimumCannotFit` agrees. */
  lemma ProviderMinimumNeverShortened(k: nat, backoffCap: nat, hint: nat, raw: Option<nat>, remaining: nat)
    ensures var verdict := EvaluateRetryDelay(PlanRetryDelay(k, backoffCap, Some(hint), raw), remaining);
            && (hint <= remaining ==> verdict == Wait(hint))
            && (remaining < hint ==> verdict == NoWait(ProviderDelayCannotFit(hint)))
            && (ProviderMinimumCannotFit(Some(hint), remaining) <==> verdict.NoWait?)
  {
  }

  lemma BackoffDelayBounded(k: nat, backoffCap: nat, raw: Option<nat>)
    requires 1 <= k
    ensures var planned := PlanRetryDelay(k, backoffCap, None, raw);
            planned.Sleep? ==> !planned.providerMinimum && 0 < planned.delay <= backoffCap && planned.delay <= Millis(1000 * Pow2(k - 1))
  {
    JitterCoversTheWindow(k, WholeMillis(backoffCap), raw, 0);
  }

  /** Without a provider minimum the wait never exceeds the cap or the time left, and giving up
      is never blamed on the provider. */
  lemma BackoffStaysWithinCap(k: nat, backoffCap: nat, raw: Option<nat>, remaining: nat)
    requires 1 <= k
    ensures match EvaluateRetryDelay(PlanRetryDelay(k, backoffCap, None, raw), remaining)
            case Wait(d) => d <= backoffCap && d <= remaining && d <= Millis(1000 * Pow2(k - 1))
            case NoWait(e) => e.DelayPastDeadline?
  {
    BackoffDelayBounded(k, backoffCap, raw);
  }
}
