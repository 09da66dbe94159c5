/** The provider-fed rate limiter of src/providers/rate_limiter.rs: each `check_limits` takes a fresh
    usage snapshot from the provider, computes a floored percentage per dimension and applies the same
    critical/warning/resume ladder as the standalone limiter. The provider is not a field here: the
    result of its `get_rate_limits` call is passed to `CheckLimits`. */
module ProviderRateLimiter {
  import opened Common
  import opened Configuration
  import opened Providers
  import Limiter
  import TestUtils

  /** `calculate_usage_percent`: 0 for a zero limit, otherwise `floor(100*used/limit)` computed in
      `u64` (`used*100 < 2^39` never overflows) and truncated to `u32`. */
  function CalculateUsagePercent(used: u32, limit: u32): (r: u32)
    ensures limit == 0 ==> r == 0
    ensures limit > 0 && (used * 100) / limit < U32_LIMIT ==> r * limit <= used * 100 < (r + 1) * limit
  {
    if limit == 0 then 0
    else
      var n := used * 100;
      assert n == (n / limit) * limit + n % limit;
      AsU32(n / limit)
  }

  /** Whenever the rounded percentage of the standalone limiter fits in a `u32`, the floored one is
      never above it and at most one below it, and one below exactly when the remainder reaches `limit/2`. */
  lemma FlooredVersusRounded(used: u32, limit: u32)
    requires Limiter.Fits(used, limit)
    ensures CalculateUsagePercent(used, limit) <= Limiter.CalculateUsagePercent(used, limit) <= CalculateUsagePercent(used, limit) + 1
    ensures Limiter.CalculateUsagePercent(used, limit) == CalculateUsagePercent(used, limit) + 1
      <==> (used * 100) % limit >= limit / 2
  {
    var n := used * 100;
    var q := n / limit;
    assert n == q * limit + n % limit;
    Limiter.DivisionOf(n, limit, q, n % limit);
    assert CalculateUsagePercent(used, limit) == q;
  }

  /** The floored percentage does not decrease as usage grows. */
  lemma PercentMonotonic(used1: u32, used2: u32, limit: u32)
    requires used1 <= used2 && limit > 0 && (used2 * 100) / limit < U32_LIMIT
    ensures CalculateUsagePercent(used1, limit) <= CalculateUsagePercent(used2, limit)
  {
    Limiter.MulMono(used1, used2, 100);
    Limiter.DivMono(used1 * 100, used2 * 100, limit);
  }

  /** The usage counters taken from a provider snapshot (`UsageStats::new`). */
  function Snapshot(info: RateLimitInfo): (u: Limiter.UsageStats)
    ensures u.requestsUsed == info.requestsUsed && u.tokensUsed == info.tokensUsed
    ensures u.inputTokensUsed == info.inputTokensUsed
  {
    Limiter.UsageStats(info.requestsUsed, info.tokensUsed, info.inputTokensUsed)
  }

  /** The floored percentage of one dimension: an unset limit contributes 0 (`map_or(0, ..)`). */
  function DimensionPercent(used: u32, limit: Option<u32>): u32 {
    if limit.Some? then CalculateUsagePercent(used, limit.value) else 0
  }

  /** The largest of the three floored percentages. */
  function MaxPercent(limits: RateLimits, usage: Limiter.UsageStats): (m: u32)
    ensures m >= DimensionPercent(usage.requestsUsed, limits.requestsPerMinute)
    ensures m >= DimensionPercent(usage.tokensUsed, limits.tokensPerMinute)
    ensures m >= DimensionPercent(usage.inputTokensUsed, limits.inputTokensPerMinute)
    ensures m == DimensionPercent(usage.requestsUsed, limits.requestsPerMinute)
         || m == DimensionPercent(usage.tokensUsed, limits.tokensPerMinute)
         || m == DimensionPercent(usage.inputTokensUsed, limits.inputTokensPerMinute)
  {
    Limiter.Max(Limiter.Max(DimensionPercent(usage.requestsUsed, limits.requestsPerMinute),
                            DimensionPercent(usage.tokensUsed, limits.tokensPerMinute)),
                DimensionPercent(usage.inputTokensUsed, limits.inputTokensPerMinute))
  }

  /** The decision `check_limits` takes for a provider snapshot. */
  function CheckVerdict(limits: RateLimits, t: Thresholds, b: BackoffConfig, info: RateLimitInfo): (v: Limiter.Verdict)
    ensures Limiter.NoLimits(limits) ==> v == Limiter.Verdict(true, b.minSeconds, false)
    ensures !v.proceed <==> !Limiter.NoLimits(limits) && MaxPercent(limits, Snapshot(info)) >= t.critical
    ensures v.backoffSeconds == (if v.proceed then b.minSeconds else b.maxSeconds)
    ensures v.resetUsage <==>
      !Limiter.NoLimits(limits) && MaxPercent(limits, Snapshot(info)) < t.warning
      && MaxPercent(limits, Snapshot(info)) < t.critical && MaxPercent(limits, Snapshot(info)) <= t.resume
  {
    if Limiter.NoLimits(limits) then Limiter.Verdict(true, b.minSeconds, false)
    else Limiter.Classify(MaxPercent(limits, Snapshot(info)), t, b)
  }

  /** Every set limit is large enough that no rounded percentage is truncated. */
  predicate AllFit(limits: RateLimits, usage: Limiter.UsageStats) {
    && (limits.requestsPerMinute.Some? ==> Limiter.Fits(usage.requestsUsed, limits.requestsPerMinute.value))
    && (limits.tokensPerMinute.Some? ==> Limiter.Fits(usage.tokensUsed, limits.tokensPerMinute.value))
    && (limits.inputTokensPerMinute.Some? ==> Limiter.Fits(usage.inputTokensUsed, limits.inputTokensPerMinute.value))
  }

  /** Flooring makes this limiter never stricter than the standalone one on the same counters: the
      maximum percentage is at most the rounded maximum, so whenever the standalone limiter lets the
      caller proceed, so does this one. */
  lemma FlooredNeverStricter(limits: RateLimits, t: Thresholds, b: BackoffConfig, info: RateLimitInfo)
    requires AllFit(limits, Snapshot(info))
    ensures MaxPercent(limits, Snapshot(info)) <= Limiter.MaxPercent(limits, Snapshot(info))
    ensures Limiter.CheckVerdict(limits, t, b, Snapshot(info)).proceed ==> CheckVerdict(limits, t, b, info).proceed
  {
    var u := Snapshot(info);
    if limits.requestsPerMinute.Some? { FlooredVersusRounded(u.requestsUsed, limits.requestsPerMinute.value); }
    if limits.tokensPerMinute.Some? { FlooredVersusRounded(u.tokensUsed, limits.tokensPerMinute.value); }
    if limits.inputTokensPerMinute.Some? { FlooredVersusRounded(u.inputTokensUsed, limits.inputTokensPerMinute.value); }
  }

  /** The two limiters do disagree: 99 requests against a limit of 200 is 49% floored and 50% rounded,
      so with a critical threshold of 50 only the standalone limiter blocks. */
  lemma RoundingDecidesAtCritical()
    ensures var limits := RateLimits(Some(200), None, None);
      var t := Thresholds(30, 50, 25);
      var b := BackoffConfig(5, 60);
      var info := RateLimitInfo(99, 0, 0);
      && CheckVerdict(limits, t, b, info) == Limiter.Verdict(true, 5, false)
      && Limiter.CheckVerdict(limits, t, b, Snapshot(info)) == Limiter.Verdict(false, 60, false)
  {
    assert CalculateUsagePercent(99, 200) == 49;
    assert Limiter.CalculateUsagePercent(99, 200) == 50;
  }

  /** Without the no-truncation premise `FlooredNeverStricter` fails: 1030792151 requests against a
      limit of 8 is 12884901887.5 %, which the standalone limiter rounds to 3·2^32 and truncates to 0 %,
      while the floored 12884901887 truncates to 4294967295 %. Only the provider-fed limiter blocks. */
  lemma TruncationMakesFlooredStricter()
    ensures var limits := RateLimits(Some(8), None, None);
      var t := Thresholds(30, 50, 25);
      var b := BackoffConfig(5, 60);
      var info := RateLimitInfo(1030792151, 0, 0);
      && Limiter.CheckVerdict(limits, t, b, Snapshot(info)).proceed
      && !CheckVerdict(limits, t, b, info).proceed
  {
    assert Limiter.RoundedPercent(1030792151, 8) == 12884901888;
    assert Limiter.CalculateUsagePercent(1030792151, 8) == 0;
    assert CalculateUsagePercent(1030792151, 8) == 4294967295;
  }

  /** The floored percentage wraps too: 42949673 requests against a limit of 1 is 4294967300 %
      and reads as 4 %. */
  lemma TruncationHidesOveruse()
    ensures CalculateUsagePercent(42949673, 1) == 4
    ensures CheckVerdict(RateLimits(Some(1), None, None), Thresholds(30, 50, 25), BackoffConfig(5, 60),
                         RateLimitInfo(42949673, 0, 0)) == Limiter.Verdict(true, 5, true)
  {
    assert CalculateUsagePercent(42949673, 1) == 4;
  }

  class RateLimiter {
    var limits: RateLimits
    var thresholds: Thresholds
    var backoff: BackoffConfig
    var usage: Limiter.UsageStats

    /** `RateLimiter::new` without the provider: the given configuration and all-zero usage. */
    constructor New(limits: RateLimits, thresholds: Thresholds, backoff: BackoffConfig)
      ensures this.limits == limits && this.thresholds == thresholds && this.backoff == backoff
      ensures usage == Limiter.DefaultUsage()
    {
      this.limits := limits;
      this.thresholds := thresholds;
      this.backoff := backoff;
      usage := Limiter.DefaultUsage();
    }

    /** `check_limits`, given what the provider's `get_rate_limits` returned. A provider error is passed
        on untouched; with no limit set the caller proceeds and the counters are not refreshed;
        otherwise the counters become the snapshot, or zero when usage is at or below resume. */
    method CheckLimits(rateInfo: Result<RateLimitInfo>) returns (r: Result<(bool, u32)>)
      modifies this`usage
      ensures rateInfo.Err? ==> r == Err(rateInfo.error) && usage == old(usage)
      ensures rateInfo.Ok? ==> var v := CheckVerdict(limits, thresholds, backoff, rateInfo.value);
        && r == Ok((v.proceed, v.backoffSeconds))
        && usage == (if Limiter.NoLimits(limits) then old(usage)
                     else if v.resetUsage then Limiter.DefaultUsage()
                     else Snapshot(rateInfo.value))
    {
      if rateInfo.Err? {
        return Err(rateInfo.error);
      }
      var info := rateInfo.value;
      if limits.requestsPerMinute.None? && limits.tokensPerMinute.None? && limits.inputTokensPerMinute.None? {
        return Ok((true, backoff.minSeconds));
      }

      usage := Limiter.UsageStats(info.requestsUsed, info.tokensUsed, info.inputTokensUsed);

      var requestsPercent := 0;
      if limits.requestsPerMinute.Some? {
        requestsPercent := CalculateUsagePercent(usage.requestsUsed, limits.requestsPerMinute.value);
      }
      var tokensPercent := 0;
      if limits.tokensPerMinute.Some? {
        tokensPercent := CalculateUsagePercent(usage.tokensUsed, limits.tokensPerMinute.value);
      }
      var inputTokensPercent := 0;
      if limits.inputTokensPerMinute.Some? {
        inputTokensPercent := CalculateUsagePercent(usage.inputTokensUsed, limits.inputTokensPerMinute.value);
      }

      var maxPercent := Limiter.Max(Limiter.Max(requestsPercent, tokensPercent), inputTokensPercent);
      assert maxPercent == MaxPercent(limits, Snapshot(info));

      if maxPercent >= thresholds.critical {
        return Ok((false, backoff.maxSeconds));
      } else if maxPercent >= thresholds.warning {
        return Ok((true, backoff.minSeconds));
      } else if maxPercent <= thresholds.resume {
        usage := Limiter.DefaultUsage();
        return Ok((true, backoff.minSeconds));
      } else {
        return Ok((true, backoff.minSeconds));
      }
    }
  }

  /** One round of the tests in src/providers/rate_limiter.rs: set the mock's response, ask the mock,
      and hand its answer to the limiter. The scenarios below use limits 100/1000/500 per minute,
      thresholds 30/50/25 and a backoff of 5..60 seconds. */
  method CheckWith(rl: RateLimiter, mock: TestUtils.MockProvider, info: RateLimitInfo) returns (r: Result<(bool, u32)>)
    modifies rl`usage, mock`calls, mock`defaultResponse
    ensures mock.calls == old(mock.calls) + [TestUtils.GET_RATE_LIMITS]
    ensures mock.defaultResponse == Some(info)
    ensures r == Ok((CheckVerdict(rl.limits, rl.thresholds, rl.backoff, info).proceed,
                     CheckVerdict(rl.limits, rl.thresholds, rl.backoff, info).backoffSeconds))
    ensures rl.usage == (if Limiter.NoLimits(rl.limits) then old(rl.usage)
                         else if CheckVerdict(rl.limits, rl.thresholds, rl.backoff, info).resetUsage then Limiter.DefaultUsage()
                         else Snapshot(info))
  {
    mock.SetResponse(info);
    var reported := mock.GetRateLimits();
    r := rl.CheckLimits(reported);
  }

  /** `test_basic_thresholds`: 10% and 30% proceed with 5 seconds, 50% blocks with 60 seconds. */
  method BasicThresholdsScenario() returns (normal: Result<(bool, u32)>, warning: Result<(bool, u32)>, critical: Result<(bool, u32)>)
    ensures normal == Ok((true, 5)) && warning == Ok((true, 5)) && critical == Ok((false, 60))
  {
    var rl := new RateLimiter.New(RateLimits(Some(100), Some(1000), Some(500)), Thresholds(30, 50, 25), BackoffConfig(5, 60));
    var mock := new TestUtils.MockProvider.New();
    normal := CheckWith(rl, mock, RateLimitInfo(10, 100, 50));
    warning := CheckWith(rl, mock, RateLimitInfo(30, 300, 150));
    critical := CheckWith(rl, mock, RateLimitInfo(50, 500, 250));
  }

  /** `test_mixed_usage`: one dimension at or above critical is enough to block. */
  method MixedUsageScenario() returns (requestsHigh: Result<(bool, u32)>, tokensHigh: Result<(bool, u32)>)
    ensures requestsHigh == Ok((false, 60)) && tokensHigh == Ok((false, 60))
  {
    var rl := new RateLimiter.New(RateLimits(Some(100), Some(1000), Some(500)), Thresholds(30, 50, 25), BackoffConfig(5, 60));
    var mock := new TestUtils.MockProvider.New();
    requestsHigh := CheckWith(rl, mock, RateLimitInfo(60, 200, 100));
    tokensHigh := CheckWith(rl, mock, RateLimitInfo(20, 800, 100));
  }

  /** `test_no_limits`: without limits any usage proceeds with the minimum backoff. */
  method NoLimitsScenario() returns (r: Result<(bool, u32)>, usageAfter: Limiter.UsageStats)
    ensures r == Ok((true, 5)) && usageAfter == Limiter.DefaultUsage()
  {
    var rl := new RateLimiter.New(RateLimits(None, None, None), Thresholds(30, 50, 25), BackoffConfig(5, 60));
    var mock := new TestUtils.MockProvider.New();
    r := CheckWith(rl, mock, RateLimitInfo(1000, 10000, 5000));
    usageAfter := rl.usage;
  }

  /** `test_resume_threshold`: blocked at 60%, then proceeding with 5 seconds at 20%, which is at or
      below resume and so also clears the counters; the mock saw two provider calls. */
  method ResumeScenario() returns (blocked: Result<(bool, u32)>, resumed: Result<(bool, u32)>, usageAfter: Limiter.UsageStats, log: seq<string>)
    ensures blocked == Ok((false, 60)) && resumed == Ok((true, 5))
    ensures usageAfter == Limiter.DefaultUsage()
    ensures log == ["get_rate_limits", "get_rate_limits"]
  {
    var rl := new RateLimiter.New(RateLimits(Some(100), Some(1000), Some(500)), Thresholds(30, 50, 25), BackoffConfig(5, 60));
    var mock := new TestUtils.MockProvider.New();
    blocked := CheckWith(rl, mock, RateLimitInfo(60, 600, 300));
    mock.SetResponse(RateLimitInfo(20, 200, 100));
    var reported := mock.GetRateLimits();
    resumed := rl.CheckLimits(reported);
    usageAfter := rl.usage;
    log := mock.GetCalls();
  }

  /** A provider failure is reported as is and leaves the counters alone. */
  method ProviderErrorScenario(message: string) returns (r: Result<(bool, u32)>, usageAfter: Limiter.UsageStats)
    ensures r == Err(message) && usageAfter == Limiter.DefaultUsage()
  {
    var rl := new RateLimiter.New(RateLimits(Some(100), Some(1000), Some(500)), Thresholds(30, 50, 25), BackoffConfig(5, 60));
    r := rl.CheckLimits(Err(message));
    usageAfter := rl.usage;
  }
}
