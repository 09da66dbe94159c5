/** The values the providers of src/providers/ exchange with their callers. */
module Providers {
  import opened Common
  import opened ProviderConfigs

  /** `RateLimitInfo`: a usage snapshot as reported by a provider. */
  datatype RateLimitInfo = RateLimitInfo(requestsUsed: u32, tokensUsed: u32, inputTokensUsed: u32)

  /** `RateLimitsConfig`: the per-minute limits a provider declares. */
  datatype RateLimitsConfig = RateLimitsConfig(
    requestsPerMinute: Option<u32>,
    tokensPerMinute: Option<u32>,
    inputTokensPerMinute: Option<u32>)

  /** The API configuration the provider constructors read; no constructor looks at `parameters`. */
  datatype ApiConfig = ApiConfig(
    providerConfig: ProviderConfig,
    apiKey: Option<string>,
    baseUrl: Option<string>,
    parameters: map<string, Value>)

  /** The all-zero snapshot. */
  function ZeroUsage(): RateLimitInfo { RateLimitInfo(0, 0, 0) }
}
