/** The OpenAI provider of src/providers/openai.rs. It is never mutated, so it is a value. */
module OpenAIProviders {
  import opened Common
  import opened ProviderConfigs
  import opened Providers

  const DEFAULT_BASE_URL: string := "https://api.openai.com/v1"

  datatype OpenAIProvider = OpenAIProvider(
    apiKey: string,
    baseUrl: string,
    config: OpenAIConfig,
    requestsUsed: u32,
    tokensUsed: u32,
    inputTokensUsed: u32)
  {
    /** `get_rate_limits`: the provider's own counters. */
    function GetRateLimits(): (r: Result<RateLimitInfo>)
      ensures r.Ok? && r.value == RateLimitInfo(requestsUsed, tokensUsed, inputTokensUsed)
    {
      Ok(RateLimitInfo(requestsUsed, tokensUsed, inputTokensUsed))
    }

    /** `get_rate_limits_config`: OpenAI's fixed default limits. */
    function GetRateLimitsConfig(): (r: Result<RateLimitsConfig>)
      ensures r == Ok(RateLimitsConfig(Some(3500), Some(90000), Some(45000)))
    {
      Ok(RateLimitsConfig(Some(3500), Some(90000), Some(45000)))
    }
  }

  /** `OpenAIProvider::new`: the API key is checked first, then the variant. */
  function New(config: ApiConfig): (r: Result<OpenAIProvider>)
    ensures config.apiKey.None? ==> r == Err("API key is required for OpenAI provider")
    ensures config.apiKey.Some? && !config.providerConfig.OpenAI? ==> r == Err("Invalid provider configuration")
    ensures r.Ok? <==> config.apiKey.Some? && config.providerConfig.OpenAI?
    ensures r.Ok? ==>
      && r.value.apiKey == config.apiKey.value
      && r.value.baseUrl == (if config.baseUrl.Some? then config.baseUrl.value else DEFAULT_BASE_URL)
      && r.value.config == config.providerConfig.openai
      && r.value.GetRateLimits() == Ok(ZeroUsage())
  {
    if config.apiKey.None? then Err("API key is required for OpenAI provider")
    else
      var baseUrl := config.baseUrl.UnwrapOr(DEFAULT_BASE_URL);
      match config.providerConfig
      case OpenAI(cfg) => Ok(OpenAIProvider(config.apiKey.value, baseUrl, cfg, 0, 0, 0))
      case _ => Err("Invalid provider configuration")
  }
}
