// When a failed provider attempt may be tried again, and after which delay
// (src/agent/retry.rs:12-63). Delays are reals: rounding is not modelled.
module Retries {
  import opened Common

  datatype Mode =
    | Normal(maxRetries: nat, codes: set<nat>)
    | Always

  datatype RetryPolicy = RetryPolicy(mode: Mode, initialDelay: real, maxDelay: real, jitter: real)

  // The ranges that a policy is built with (src/provider/retry.rs:43-71).
  predicate WellFormed(p: RetryPolicy) {
    0.0 < p.initialDelay <= p.maxDelay && 0.0 <= p.jitter <= 1.0
  }

  datatype ProviderError = ProviderError(code: nat, retryAfter: Option<real>)

  predicate WellFormedError(e: ProviderError) {
    e.retryAfter.Some? ==> 0.0 < e.retryAfter.value
  }

  datatype RetryDecision =
    | RetryIn(delay: real)
    | NeedsSample
    | Stop

  predicate Eligible(p: RetryPolicy, e: ProviderError, retry: nat) {
    p.mode.Always? || (retry <= p.mode.maxRetries && e.code in p.mode.codes)
  }

  function Power2(n: nat): (r: real)
    ensures r >= 1.0
  {
    if n == 0 then 1.0 else 2.0 * Power2(n - 1)
  }

  function Times(a: real, b: real): real {
    a * b
  }

  function RealMin(a: real, b: real): real {
    if a < b then a else b
  }

  function Clamp(x: real, low: real, high: real): real {
    if x < low then low else if high < x then high else x
  }

  const MAX_EXPONENT: nat := 1024

  // The delay before jitter: doubled with every retry up to the ceiling.
  function BaseDelay(p: RetryPolicy, retry: nat): real {
    var exponent := if retry == 0 then 0 else if retry - 1 < MAX_EXPONENT then retry - 1 else MAX_EXPONENT;
    RealMin(Times(p.initialDelay, Power2(exponent)), p.maxDelay)
  }

  function Decide(p: RetryPolicy, e: ProviderError, retry: nat, sample: Option<real>): RetryDecision {
    if !Eligible(p, e, retry) then Stop
    else if e.retryAfter.Some? && e.retryAfter.value <= p.maxDelay then RetryIn(e.retryAfter.value)
    else if e.retryAfter.Some? && p.mode.Normal? then Stop
    else if sample.None? then NeedsSample
    else RetryIn(Clamp(Times(BaseDelay(p, retry), Factor(p, sample.value)), 0.0, p.maxDelay))
  }

  // A retry waits at most the ceiling of its policy, and only a policy without a bound of
  // its own goes beyond its retries or its codes. The delay that a provider asks for is kept
  // where it is within the ceiling; a policy with a bound gives up on a longer one, and a
  // policy without asks for a sample instead.
  lemma RetryIsBounded(p: RetryPolicy, e: ProviderError, retry: nat, sample: Option<real>)
    requires WellFormed(p) && WellFormedError(e)
    ensures
      var decision := Decide(p, e, retry, sample);
      && (decision.RetryIn? ==> 0.0 <= decision.delay <= p.maxDelay)
      && (!decision.Stop? && p.mode.Normal? ==> retry <= p.mode.maxRetries && e.code in p.mode.codes)
      && (decision.Stop? <==>
            p.mode.Normal? &&
            (retry > p.mode.maxRetries || e.code !in p.mode.codes || (e.retryAfter.Some? && e.retryAfter.value > p.maxDelay)))
      && (!decision.Stop? && e.retryAfter.Some? && e.retryAfter.value <= p.maxDelay ==> decision == RetryIn(e.retryAfter.value))
      && (decision.NeedsSample? <==>
            !decision.Stop? && sample.None? && !(e.retryAfter.Some? && e.retryAfter.value <= p.maxDelay))
  {
  }

  // Deciding without a sample and then with one never contradicts itself: a sample
  // is asked for at most once, and it only fills in the delay.
  lemma SampleDecidesOnce(p: RetryPolicy, e: ProviderError, retry: nat, sample: real)
    ensures
      var first := Decide(p, e, retry, None);
      var second := Decide(p, e, retry, Some(sample));
      && !second.NeedsSample?
      && (first.NeedsSample? ==> second.RetryIn?)
      && (!first.NeedsSample? ==> second == first)
  {
  }

  // The factor that a sample turns into.
  function Factor(p: RetryPolicy, sample: real): real {
    1.0 - p.jitter + 2.0 * p.jitter * sample
  }

  lemma FactorInRange(p: RetryPolicy, sample: real)
    requires WellFormed(p) && 0.0 <= sample <= 1.0
    ensures 0.0 <= 1.0 - p.jitter <= Factor(p, sample) <= 1.0 + p.jitter
    ensures 2.0 * sample == 1.0 ==> Factor(p, sample) == 1.0
    ensures sample == 0.0 ==> Factor(p, sample) == 1.0 - p.jitter
    ensures sample == 1.0 ==> Factor(p, sample) == 1.0 + p.jitter
  {
    Scaled(p.jitter, 2.0 * sample);
    assert 2.0 * p.jitter * sample == p.jitter * (2.0 * sample);
  }

  // Jitter moves the delay by at most its ratio, in both directions, and a sample
  // in the middle leaves it where it was.
  lemma JitterIsProportional(p: RetryPolicy, e: ProviderError, retry: nat, sample: real)
    requires WellFormed(p) && 0.0 <= sample <= 1.0 && Decide(p, e, retry, None).NeedsSample?
    ensures
      var delay := Decide(p, e, retry, Some(sample)).delay;
      var base := BaseDelay(p, retry);
      && RealMin(Times(base, 1.0 - p.jitter), p.maxDelay) <= delay <= RealMin(Times(base, 1.0 + p.jitter), p.maxDelay)
      && (2.0 * sample == 1.0 ==> delay == base)
      && (sample == 0.0 ==> delay == RealMin(Times(base, 1.0 - p.jitter), p.maxDelay))
      && (sample == 1.0 ==> delay == RealMin(Times(base, 1.0 + p.jitter), p.maxDelay))
  {
    hide BaseDelay, Factor, Times;
    var base := BaseDelay(p, retry);
    BaseIsPositive(p, retry);
    FactorInRange(p, sample);
    var factor := Factor(p, sample);
    Between(base, 1.0 - p.jitter, factor);
    Between(base, factor, 1.0 + p.jitter);
    ClampedBetween(Times(base, 1.0 - p.jitter), Times(base, factor), Times(base, 1.0 + p.jitter), p.maxDelay);
    TimesOne(base);
  }

  lemma ClampedBetween(low: real, x: real, high: real, maximum: real)
    requires 0.0 <= low <= x <= high && 0.0 < maximum
    ensures RealMin(low, maximum) <= Clamp(x, 0.0, maximum) <= RealMin(high, maximum)
  {
  }

  lemma Scaled(jitter: real, x: real)
    requires 0.0 <= jitter && 0.0 <= x <= 2.0
    ensures 0.0 <= jitter * x <= 2.0 * jitter
  {
  }

  lemma Between(base: real, low: real, high: real)
    requires 0.0 <= base && 0.0 <= low <= high
    ensures 0.0 <= Times(base, low) <= Times(base, high)
  {
  }

  lemma TimesOne(base: real)
    ensures Times(base, 1.0) == base
  {
  }

  lemma BaseIsPositive(p: RetryPolicy, retry: nat)
    requires WellFormed(p)
    ensures 0.0 < BaseDelay(p, retry) <= p.maxDelay
  {
    var exponent := if retry == 0 then 0 else if retry - 1 < MAX_EXPONENT then retry - 1 else MAX_EXPONENT;
    Between(p.initialDelay, 1.0, Power2(exponent));
  }

  // The first retry waits the initial delay and every further one twice as long as the one
  // before, up to the ceiling; after the largest exponent the delay stays.
  lemma DelaysDouble(p: RetryPolicy, retry: nat)
    requires WellFormed(p)
    ensures BaseDelay(p, 1) == p.initialDelay
    ensures 1 <= retry <= MAX_EXPONENT ==> BaseDelay(p, retry + 1) == RealMin(2.0 * BaseDelay(p, retry), p.maxDelay)
    ensures retry > MAX_EXPONENT ==> BaseDelay(p, retry + 1) == BaseDelay(p, retry)
  {
    assert Power2(0) == 1.0;
    if 1 <= retry <= MAX_EXPONENT {
      assert Power2(retry) == 2.0 * Power2(retry - 1);
      Between(p.initialDelay, 1.0, Power2(retry - 1));
      DoubledTimes(p.initialDelay, Power2(retry - 1));
    }
  }

  lemma DoubledTimes(a: real, b: real)
    ensures Times(a, 2.0 * b) == 2.0 * Times(a, b)
  {
  }

  // Delays never shrink from one retry to the next.
  lemma {:induction false} DelaysGrow(p: RetryPolicy, retry: nat, later: nat)
    requires WellFormed(p) && retry <= later
    ensures BaseDelay(p, retry) <= BaseDelay(p, later)
    decreases later - retry
  {
    if retry < later {
      DelaysGrow(p, retry + 1, later);
      if 1 <= retry <= MAX_EXPONENT {
        assert Power2(retry) == 2.0 * Power2(retry - 1);
        Between(p.initialDelay, Power2(retry - 1), Power2(retry));
      }
    }
  }
}
