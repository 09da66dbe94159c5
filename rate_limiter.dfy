/** The standalone rate-limit classifier of src/rate_limiter.rs: usage counters fed by `update_usage`,
    a rounded percentage per dimension, and the critical/warning/resume ladder of `check_limits`. */
module Limiter {
  import opened Common
  import opened Configuration

  /** The three usage counters (the `last_check` timestamp takes part in no decision and is left out). */
  datatype UsageStats = UsageStats(requestsUsed: u32, tokensUsed: u32, inputTokensUsed: u32)

  /** `UsageStats::default()`: every counter at zero. */
  function DefaultUsage(): (u: UsageStats)
    ensures u.requestsUsed == 0 && u.tokensUsed == 0 && u.inputTokensUsed == 0
  {
    UsageStats(0, 0, 0)
  }

  /** The rounded percentage before the final `as u32`: `(used*100)/limit`, plus one when the
      remainder reaches `limit/2`. Computed in `u64`, where `used*100 + 1 < 2^39` never overflows. */
  function RoundedPercent(used: u32, limit: u32): nat
    requires limit > 0
  {
    var percent := (used * 100) / limit;
    var remainder := (used * 100) % limit;
    if remainder >= limit / 2 then percent + 1 else percent
  }

  /** `calculate_usage_percent`: 0 for a zero limit, otherwise the rounded percentage truncated to `u32`. */
  function CalculateUsagePercent(used: u32, limit: u32): (r: u32)
    ensures limit == 0 ==> r == 0
    ensures limit > 0 && (used * 100) / limit + 1 < U32_LIMIT ==>
      (r == (used * 100) / limit + 1 <==> (used * 100) % limit >= limit / 2)
    ensures limit > 0 && (used * 100) / limit + 1 < U32_LIMIT ==>
      (r == (used * 100) / limit <==> (used * 100) % limit < limit / 2)
  {
    if limit == 0 then 0 else AsU32(RoundedPercent(used, limit))
  }

  /** No truncation happens: the rounded percentage fits in a `u32`. */
  predicate Fits(used: u32, limit: u32) {
    limit > 0 && (used * 100) / limit + 1 < U32_LIMIT
  }

  /** An independent closed form: the result is `floor((100*used + ceil(limit/2)) / limit)`, i.e. the
      percentage is rounded up as soon as the remainder reaches `floor(limit/2)`. */
  lemma PercentClosedForm(used: u32, limit: u32)
    requires Fits(used, limit)
    ensures CalculateUsagePercent(used, limit) == (used * 100 + (limit - limit / 2)) / limit
  {
    var n := used * 100;
    var q, rem := n / limit, n % limit;
    var h := limit - limit / 2;
    assert n == q * limit + rem;
    if rem >= limit / 2 {
      // n + h = (q + 1) * limit + (rem - limit/2), with 0 <= rem - limit/2 < limit
      assert n + h == (q + 1) * limit + (rem - limit / 2);
      DivisionOf(n + h, limit, q + 1, rem - limit / 2);
    } else {
      assert n + h == q * limit + (rem + h);
      DivisionOf(n + h, limit, q, rem + h);
    }
  }

  /** Euclidean division is determined by quotient and remainder. */
  lemma DivisionOf(n: nat, d: nat, q: nat, r: nat)
    requires d > 0 && r < d && n == q * d + r
    ensures n / d == q
  {
    var q', r' := n / d, n % d;
    assert n == q' * d + r';
    if q' < q {
      assert q' * d + d <= q * d by { MulMono(q' + 1, q, d); }
    } else if q' > q {
      assert q * d + d <= q' * d by { MulMono(q + 1, q', d); }
    }
  }

  lemma MulMono(a: nat, b: nat, d: nat)
    requires a <= b
    ensures a * d <= b * d
  {
  }

  /** What the rounding means: the rounded value is the floor of `100*used/limit` or one more, and
      `r*limit` is within `ceil(limit/2)` of `100*used`. */
  lemma PercentBracket(used: u32, limit: u32)
    requires Fits(used, limit)
    ensures (used * 100) / limit <= CalculateUsagePercent(used, limit) <= (used * 100) / limit + 1
    ensures var r := CalculateUsagePercent(used, limit);
      r * limit <= used * 100 + (limit - limit / 2) < (r + 1) * limit
  {
    PercentClosedForm(used, limit);
    var m := used * 100 + (limit - limit / 2);
    assert m == (m / limit) * limit + m % limit;
  }

  /** An exact multiple gives the exact percentage whenever the limit is at least 2. */
  lemma ExactMultipleIsExact(used: u32, limit: u32, k: nat)
    requires limit >= 2 && used * 100 == k * limit && k + 1 < U32_LIMIT
    ensures CalculateUsagePercent(used, limit) == k
  {
    DivisionOf(used * 100, limit, k, 0);
  }

  /** With a limit of 1 the remainder 0 always reaches `1/2 == 0`, so one is always added:
      zero usage already reads as 1%. */
  lemma LimitOneAddsOne(used: u32)
    requires used * 100 + 1 < U32_LIMIT
    ensures CalculateUsagePercent(used, 1) == used * 100 + 1
    ensures CalculateUsagePercent(0, 1) == 1
  {
  }

  /** The final `as u32` keeps only the low 32 bits: 42949673 requests against a limit of 1 is
      4294967301 % before the cast and reads as 5 %, so the caller proceeds far over its limit. */
  lemma TruncationHidesOveruse()
    ensures CalculateUsagePercent(42949673, 1) == 5
    ensures CheckVerdict(RateLimits(Some(1), None, None), Thresholds(30, 50, 25), BackoffConfig(5, 60),
                         UsageStats(42949673, 0, 0)) == Verdict(true, 5, true)
  {
    assert RoundedPercent(42949673, 1) == 4294967301;
  }

  /** More usage never reads as a lower percentage (as long as nothing is truncated). */
  lemma PercentMonotonic(used1: u32, used2: u32, limit: u32)
    requires used1 <= used2 && Fits(used2, limit)
    ensures CalculateUsagePercent(used1, limit) <= CalculateUsagePercent(used2, limit)
  {
    assert (used1 * 100) / limit <= (used2 * 100) / limit by { DivMono(used1 * 100, used2 * 100, limit); }
    assert Fits(used1, limit);
    PercentClosedForm(used1, limit);
    PercentClosedForm(used2, limit);
    DivMono(used1 * 100 + (limit - limit / 2), used2 * 100 + (limit - limit / 2), limit);
  }

  lemma DivMono(a: nat, b: nat, d: nat)
    requires a <= b && d > 0
    ensures a / d <= b / d
  {
    if a / d > b / d {
      assert a == (a / d) * d + a % d;
      assert b == (b / d) * d + b % d;
      MulMono(b / d + 1, a / d, d);
    }
  }

  /** The percentage of one dimension: an unset limit contributes 0. */
  function DimensionPercent(used: u32, limit: Option<u32>): u32 {
    if limit.Some? then CalculateUsagePercent(used, limit.value) else 0
  }

  function Max(a: nat, b: nat): nat { if a >= b then a else b }

  /** The largest of the three per-dimension percentages (`a.max(b).max(c)`). */
  function MaxPercent(limits: RateLimits, usage: UsageStats): (m: u32)
    ensures m >= DimensionPercent(usage.requestsUsed, limits.requestsPerMinute)
    ensures m >= DimensionPercent(usage.tokensUsed, limits.tokensPerMinute)
    ensures m >= DimensionPercent(usage.inputTokensUsed, limits.inputTokensPerMinute)
    ensures m == DimensionPercent(usage.requestsUsed, limits.requestsPerMinute)
         || m == DimensionPercent(usage.tokensUsed, limits.tokensPerMinute)
         || m == DimensionPercent(usage.inputTokensUsed, limits.inputTokensPerMinute)
  {
    Max(Max(DimensionPercent(usage.requestsUsed, limits.requestsPerMinute),
            DimensionPercent(usage.tokensUsed, limits.tokensPerMinute)),
        DimensionPercent(usage.inputTokensUsed, limits.inputTokensPerMinute))
  }

  /** No dimension has a limit. */
  predicate NoLimits(limits: RateLimits) {
    limits.requestsPerMinute.None? && limits.tokensPerMinute.None? && limits.inputTokensPerMinute.None?
  }

  /** What one classification decides: may the caller proceed, how long to back off, and
      whether the usage counters are cleared. */
  datatype Verdict = Verdict(proceed: bool, backoffSeconds: u32, resetUsage: bool)

  /** The threshold ladder shared by both rate limiters: critical first, then warning, then resume.
      Usage exactly at a threshold counts as reaching it. */
  function Classify(maxPercent: nat, t: Thresholds, b: BackoffConfig): (v: Verdict)
    ensures v.proceed <==> maxPercent < t.critical
    ensures v.backoffSeconds == if maxPercent >= t.critical then b.maxSeconds else b.minSeconds
    ensures v.resetUsage <==> maxPercent < t.critical && maxPercent < t.warning && maxPercent <= t.resume
  {
    if maxPercent >= t.critical then Verdict(false, b.maxSeconds, false)
    else if maxPercent >= t.warning then Verdict(true, b.minSeconds, false)
    else if maxPercent <= t.resume then Verdict(true, b.minSeconds, true)
    else Verdict(true, b.minSeconds, false)
  }

  /** The decision `check_limits` takes for the given counters. */
  function CheckVerdict(limits: RateLimits, t: Thresholds, b: BackoffConfig, usage: UsageStats): (v: Verdict)
    ensures NoLimits(limits) ==> v == Verdict(true, b.minSeconds, false)
    ensures !v.proceed <==> !NoLimits(limits) && MaxPercent(limits, usage) >= t.critical
    ensures v.backoffSeconds == (if v.proceed then b.minSeconds else b.maxSeconds)
    ensures v.resetUsage <==>
      !NoLimits(limits) && MaxPercent(limits, usage) < t.warning && MaxPercent(limits, usage) < t.critical
      && MaxPercent(limits, usage) <= t.resume
  {
    if NoLimits(limits) then Verdict(true, b.minSeconds, false)
    else Classify(MaxPercent(limits, usage), t, b)
  }

  /** The decision is memoryless: it depends on the counters only through the maximum percentage,
      whatever was decided before. */
  lemma VerdictDependsOnlyOnMaxPercent(limits: RateLimits, t: Thresholds, b: BackoffConfig, u1: UsageStats, u2: UsageStats)
    requires MaxPercent(limits, u1) == MaxPercent(limits, u2)
    ensures CheckVerdict(limits, t, b, u1) == CheckVerdict(limits, t, b, u2)
  {
  }

  /** `get_backoff_duration` treats an unset limit as limit 0; it agrees with `check_limits` on the
      same counters as soon as one limit is set. */
  lemma BackoffMatchesCheck(rl: RateLimiter)
    requires !NoLimits(rl.limits)
    ensures rl.GetBackoffDuration() == CheckVerdict(rl.limits, rl.thresholds, rl.backoff, rl.usage).backoffSeconds
  {
    assert rl.UnwrappedMaxPercent() == MaxPercent(rl.limits, rl.usage);
  }

  /** With no limit set and a critical threshold of 0, the two disagree: `check_limits` returns the
      minimum backoff while `get_backoff_duration` returns the maximum. */
  lemma BackoffDivergesWithoutLimits(rl: RateLimiter)
    requires NoLimits(rl.limits) && rl.thresholds.critical == 0
    ensures rl.GetBackoffDuration() == rl.backoff.maxSeconds
    ensures CheckVerdict(rl.limits, rl.thresholds, rl.backoff, rl.usage).backoffSeconds == rl.backoff.minSeconds
  {
  }

  class RateLimiter {
    var limits: RateLimits
    var thresholds: Thresholds
    var backoff: BackoffConfig
    var usage: UsageStats

    /** `RateLimiter::new`: the given configuration and all-zero usage. */
    constructor New(limits: RateLimits, thresholds: Thresholds, backoff: BackoffConfig)
      ensures this.limits == limits && this.thresholds == thresholds && this.backoff == backoff
      ensures usage == DefaultUsage()
    {
      this.limits := limits;
      this.thresholds := thresholds;
      this.backoff := backoff;
      usage := DefaultUsage();
    }

    /** `check_limits`: classifies the current counters and clears them when usage is at or below resume. */
    method CheckLimits() returns (proceed: bool, backoffSeconds: u32)
      modifies this`usage
      ensures var v := CheckVerdict(limits, thresholds, backoff, old(usage));
        && proceed == v.proceed && backoffSeconds == v.backoffSeconds
        && usage == (if v.resetUsage then DefaultUsage() else old(usage))
    {
      if limits.requestsPerMinute.None? && limits.tokensPerMinute.None? && limits.inputTokensPerMinute.None? {
        return true, backoff.minSeconds;
      }

      var requestsPercent := 0;
      if limits.requestsPerMinute.Some? {
        requestsPercent := CalculateUsagePercent(usage.requestsUsed, limits.requestsPerMinute.value);
      }
      var tokensPercent := 0;
      if limits.tokensPerMinute.Some? {
        tokensPercent := CalculateUsagePercent(usage.tokensUsed, limits.tokensPerMinute.value);
      }
      var inputTokensPercent := 0;
      if limits.inputTokensPerMinute.Some? {
        inputTokensPercent := CalculateUsagePercent(usage.inputTokensUsed, limits.inputTokensPerMinute.value);
      }

      var maxPercent := Max(Max(requestsPercent, tokensPercent), inputTokensPercent);
      assert maxPercent == MaxPercent(limits, usage);

      if maxPercent >= thresholds.critical {
        return false, backoff.maxSeconds;
      }
      if maxPercent >= thresholds.warning {
        return true, backoff.minSeconds;
      }
      if maxPercent <= thresholds.resume {
        ResetUsageStats();
      }
      return true, backoff.minSeconds;
    }

    /** `update_usage`: overwrites exactly the three counters. */
    method UpdateUsage(requests: u32, tokens: u32, inputTokens: u32)
      modifies this`usage
      ensures usage == UsageStats(requests, tokens, inputTokens)
    {
      usage := usage.(requestsUsed := requests, tokensUsed := tokens, inputTokensUsed := inputTokens);
    }

    /** `reset_usage_stats`: all three counters back to zero. */
    method ResetUsageStats()
      modifies this`usage
      ensures usage == DefaultUsage()
    {
      usage := DefaultUsage();
    }

    /** The maximum rounded percentage with every unset limit read as 0. */
    function UnwrappedMaxPercent(): nat
      reads this
    {
      Max(Max(CalculateUsagePercent(usage.requestsUsed, limits.requestsPerMinute.UnwrapOr(0)),
              CalculateUsagePercent(usage.tokensUsed, limits.tokensPerMinute.UnwrapOr(0))),
          CalculateUsagePercent(usage.inputTokensUsed, limits.inputTokensPerMinute.UnwrapOr(0)))
    }

    /** `get_backoff_duration`: the maximum backoff iff the maximum percentage reaches critical. */
    function GetBackoffDuration(): (secs: u32)
      reads this
      ensures secs == backoff.maxSeconds || secs == backoff.minSeconds
      ensures UnwrappedMaxPercent() >= thresholds.critical ==> secs == backoff.maxSeconds
      ensures UnwrappedMaxPercent() < thresholds.critical ==> secs == backoff.minSeconds
    {
      if UnwrappedMaxPercent() >= thresholds.critical then backoff.maxSeconds else backoff.minSeconds
    }
  }

  /** The resume test of tests/rate_limiter_test.rs: critical at 60%, then proceeding with the minimum
      backoff as soon as usage drops to 20% (no hysteresis is kept), which also clears the counters. */
  method ResumeScenario() returns (first: bool, second: bool, backoffAfter: u32, usageAfter: UsageStats)
    ensures !first && second && backoffAfter == 5 && usageAfter == DefaultUsage()
  {
    var rl := new RateLimiter.New(RateLimits(Some(100), Some(1000), Some(500)),
                                  Thresholds(30, 50, 25), BackoffConfig(5, 60));
    rl.UpdateUsage(60, 600, 300);
    var b;
    first, b := rl.CheckLimits();
    rl.UpdateUsage(20, 200, 100);
    second, backoffAfter := rl.CheckLimits();
    usageAfter := rl.usage;
  }
}
