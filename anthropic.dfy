/** The Anthropic provider of src/providers/anthropic.rs. It is never mutated, so it is a value. */
module AnthropicProviders {
  import opened Common
  import opened ProviderConfigs
  import opened Providers

  const DEFAULT_BASE_URL: string := "https://api.anthropic.com/v1"

  datatype AnthropicProvider = AnthropicProvider(
    apiKey: string,
    baseUrl: string,
    config: AnthropicConfig,
    requestsUsed: u32,
    tokensUsed: u32,
    inputTokensUsed: u32)
  {
    /** `get_rate_limits`: the provider's own counters. */
    function GetRateLimits(): (r: Result<RateLimitInfo>)
      ensures r.Ok? && r.value == RateLimitInfo(requestsUsed, tokensUsed, inputTokensUsed)
    {
      Ok(RateLimitInfo(requestsUsed, tokensUsed, inputTokensUsed))
    }

    /** `get_rate_limits_config`: Anthropic's fixed default limits. */
    function GetRateLimitsConfig(): (r: Result<RateLimitsConfig>)
      ensures r == Ok(RateLimitsConfig(Some(10000), Some(100000), Some(50000)))
    {
      Ok(RateLimitsConfig(Some(10000), Some(100_000), Some(50000)))
    }
  }

  /** `AnthropicProvider::new`: the API key is checked first, then the variant. */
  function New(config: ApiConfig): (r: Result<AnthropicProvider>)
    ensures config.apiKey.None? ==> r == Err("API key is required for Anthropic")
    ensures config.apiKey.Some? && !config.providerConfig.Anthropic? ==> r == Err("Invalid provider configuration")
    ensures r.Ok? <==> config.apiKey.Some? && config.providerConfig.Anthropic?
    ensures r.Ok? ==>
      && r.value.apiKey == config.apiKey.value
      && r.value.baseUrl == (if config.baseUrl.Some? then config.baseUrl.value else DEFAULT_BASE_URL)
      && r.value.config == config.providerConfig.anthropic
      && r.value.GetRateLimits() == Ok(ZeroUsage())
  {
    if config.apiKey.None? then Err("API key is required for Anthropic")
    else
      var baseUrl := config.baseUrl.UnwrapOr(DEFAULT_BASE_URL);
      match config.providerConfig
      case Anthropic(cfg) => Ok(AnthropicProvider(config.apiKey.value, baseUrl, cfg, 0, 0, 0))
      case _ => Err("Invalid provider configuration")
  }

  /** The tests of src/providers/anthropic.rs: a default Anthropic configuration with a key builds a
      provider on the default URL with claude-2/1000 and zero usage; the error texts for a missing key
      and for a wrong variant. */
  lemma ConstructorScenarios(key: string)
    ensures var r := New(ApiConfig(Anthropic(DefaultAnthropicConfig()), Some(key), None, map[]));
      && r.Ok? && r.value.apiKey == key && r.value.baseUrl == "https://api.anthropic.com/v1"
      && r.value.config.model == "claude-2" && r.value.config.maxTokens == 1000
      && r.value.GetRateLimits() == Ok(RateLimitInfo(0, 0, 0))
    ensures New(ApiConfig(Anthropic(DefaultAnthropicConfig()), None, None, map[])) == Err("API key is required for Anthropic")
    ensures New(ApiConfig(OpenAI(DefaultOpenAIConfig()), Some(key), None, map[])) == Err("Invalid provider configuration")
  {
  }
}
