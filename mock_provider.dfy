/** The mock provider of src/providers/mock.rs: public usage counters that tests overwrite. */
module MockProviders {
  import opened Common
  import opened ProviderConfigs
  import opened Providers

  class MockProvider {
    var requestsUsed: u32
    var tokensUsed: u32
    var inputTokensUsed: u32
    const config: MockConfig

    constructor Init(config: MockConfig)
      ensures this.config == config
      ensures requestsUsed == 0 && tokensUsed == 0 && inputTokensUsed == 0
    {
      this.config := config;
      requestsUsed, tokensUsed, inputTokensUsed := 0, 0, 0;
    }

    /** `MockProvider::new`: only a mock configuration is accepted; the counters start at zero. */
    static method New(api: ApiConfig) returns (r: Result<MockProvider>)
      ensures r.Ok? <==> api.providerConfig.Mock?
      ensures r.Ok? ==> fresh(r.value) && r.value.config == api.providerConfig.mock
      ensures r.Ok? ==> r.value.GetRateLimits() == Ok(ZeroUsage())
      ensures r.Err? ==> r.error == "Invalid provider configuration"
    {
      if api.providerConfig.Mock? {
        var p := new MockProvider.Init(api.providerConfig.mock);
        r := Ok(p);
      } else {
        r := Err("Invalid provider configuration");
      }
    }

    /** `set_usage`: overwrites exactly the three counters, which `get_rate_limits` then reports. */
    method SetUsage(requests: u32, tokens: u32, inputTokens: u32)
      modifies this
      ensures requestsUsed == requests && tokensUsed == tokens && inputTokensUsed == inputTokens
      ensures GetRateLimits() == Ok(RateLimitInfo(requests, tokens, inputTokens))
    {
      requestsUsed := requests;
      tokensUsed := tokens;
      inputTokensUsed := inputTokens;
    }

    /** `get_rate_limits`: the current counters. */
    function GetRateLimits(): (r: Result<RateLimitInfo>)
      reads this
      ensures r.Ok? && r.value == RateLimitInfo(requestsUsed, tokensUsed, inputTokensUsed)
    {
      Ok(RateLimitInfo(requestsUsed, tokensUsed, inputTokensUsed))
    }

    /** `get_rate_limits_config`: the configured mock limits, all of them set. */
    function GetRateLimitsConfig(): (r: Result<RateLimitsConfig>)
      ensures r.Ok? && r.value.requestsPerMinute == Some(config.requestsPerMinute)
      ensures r.Ok? && r.value.tokensPerMinute == Some(config.tokensPerMinute)
      ensures r.Ok? && r.value.inputTokensPerMinute == Some(config.inputTokensPerMinute)
    {
      Ok(RateLimitsConfig(Some(config.requestsPerMinute), Some(config.tokensPerMinute), Some(config.inputTokensPerMinute)))
    }
  }

  /** The tests of src/providers/mock.rs: construction from a mock configuration, rejection of any
      other variant, and `set_usage` followed by `get_rate_limits`. */
  method MockScenario() returns (initial: Result<RateLimitInfo>, afterSet: Result<RateLimitInfo>, rejected: Result<MockProvider>)
    ensures initial == Ok(RateLimitInfo(0, 0, 0))
    ensures afterSet == Ok(RateLimitInfo(10, 100, 50))
    ensures rejected == Err("Invalid provider configuration")
  {
    var made := MockProvider.New(ApiConfig(Mock(DefaultMockConfig()), None, None, map[]));
    var p := made.value;
    initial := p.GetRateLimits();
    p.SetUsage(10, 100, 50);
    afterSet := p.GetRateLimits();
    rejected := MockProvider.New(ApiConfig(Anthropic(DefaultAnthropicConfig()), Some("test_key"), None, map[]));
  }
}
