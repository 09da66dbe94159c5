/** The recording mock provider of src/test_utils.rs: every provider call is logged by name, and
    `get_rate_limits` answers with the default response. The mutex-guarded fields are plain fields here. */
module TestUtils {
  import opened Common
  import opened Providers

  const GET_RATE_LIMITS: string := "get_rate_limits"
  const GET_RATE_LIMITS_CONFIG: string := "get_rate_limits_config"

  class MockProvider {
    var calls: seq<string>
    var responses: map<string, RateLimitInfo>
    var defaultResponse: Option<RateLimitInfo>

    /** `MockProvider::new`: no calls yet, and an all-zero default response. */
    constructor New()
      ensures calls == [] && responses == map[] && defaultResponse == Some(ZeroUsage())
    {
      calls, responses, defaultResponse := [], map[], Some(ZeroUsage());
    }

    /** `MockProvider::default()` (derived): no calls and no default response. */
    constructor Default()
      ensures calls == [] && responses == map[] && defaultResponse == None
    {
      calls, responses, defaultResponse := [], map[], None;
    }

    /** `set_response`: replaces the default response and nothing else. */
    method SetResponse(info: RateLimitInfo)
      modifies this`defaultResponse
      ensures defaultResponse == Some(info)
    {
      defaultResponse := Some(info);
    }

    /** `get_calls`: a copy of the call log, oldest first. */
    method GetCalls() returns (log: seq<string>)
      ensures log == calls
    {
      log := calls;
    }

    /** `get_rate_limits`: logs the call and never fails; it reports the default response, or zeros
        when there is none. The `responses` map is never consulted. */
    method GetRateLimits() returns (r: Result<RateLimitInfo>)
      modifies this`calls
      ensures calls == old(calls) + [GET_RATE_LIMITS]
      ensures r.Ok?
      ensures defaultResponse.Some? ==> r.value == defaultResponse.value
      ensures defaultResponse.None? ==> r.value == ZeroUsage()
    {
      calls := calls + [GET_RATE_LIMITS];
      r := Ok(defaultResponse.UnwrapOr(ZeroUsage()));
    }

    /** `get_rate_limits_config`: logs the call and reports the fixed limits 100/1000/500. */
    method GetRateLimitsConfig() returns (r: Result<RateLimitsConfig>)
      modifies this`calls
      ensures calls == old(calls) + [GET_RATE_LIMITS_CONFIG]
      ensures r == Ok(RateLimitsConfig(Some(100), Some(1000), Some(500)))
    {
      calls := calls + [GET_RATE_LIMITS_CONFIG];
      r := Ok(RateLimitsConfig(Some(100), Some(1000), Some(500)));
    }
  }

  /** A recorded session: the call log keeps the order of the calls, the latest `set_response`
      wins, and a mock with no default response reports zeros. */
  method CallLogScenario(info: RateLimitInfo) returns (log: seq<string>, reported: Result<RateLimitInfo>, fallback: Result<RateLimitInfo>)
    ensures log == ["get_rate_limits", "get_rate_limits_config", "get_rate_limits"]
    ensures reported == Ok(info)
    ensures fallback == Ok(RateLimitInfo(0, 0, 0))
  {
    var m := new MockProvider.New();
    var first := m.GetRateLimits();
    var cfg := m.GetRateLimitsConfig();
    m.SetResponse(RateLimitInfo(1, 2, 3));
    m.SetResponse(info);
    reported := m.GetRateLimits();
    log := m.GetCalls();
    var d := new MockProvider.Default();
    fallback := d.GetRateLimits();
  }
}
