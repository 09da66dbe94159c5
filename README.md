# strainer: rate-limit core in Dafny

strainer is a command-line tool. It watches how much of an LLM provider's per-minute quota a process is
using and tells the caller to proceed or to back off. This project models the core of that tool:

- **Configuration** (`config.dfy`): the configuration record with its defaults, `merge` (which
  updates a `Config` in place) and `validate`.
- **Provider configuration** (`provider_config.dfy`): the Anthropic/OpenAI/Mock variants with their
  defaults, their `validate` and `Display`. It also covers the flat tagged-map encoding that their
  hand-written `Serialize`/`Deserialize` produce and read. A round trip is proved for every variant;
  for the mock the round trip is lossy.
- **Standalone rate limiter** (`rate_limiter.dfy`): usage counters fed by `update_usage`, a
  *rounded* percentage per dimension, and the critical/warning/resume ladder of `check_limits`. It
  also covers `get_backoff_duration`.
- **Provider-fed rate limiter** (`provider_rate_limiter.dfy`): the same ladder applied to a snapshot
  that a provider supplies, with a *floored* percentage. When no percentage is truncated to `u32`, it is
  proved never to be stricter than the standalone limiter. Concrete inputs show the two disagree,
  both with truncation and without it.
- **Providers** (`providers.dfy`, `anthropic.dfy`, `openai.dfy`, `mock_provider.dfy`): their
  constructors, which check the API key and then the configuration variant, and their
  `get_rate_limits` / `get_rate_limits_config`.
- **Test mock** (`test_utils.dfy`): the recording mock provider that logs every call.

Rust's `u8`/`u32` are subset types of `nat`. The final `as u32` cast of a percentage is written out as
reduction modulo 2^32 (`Common.AsU32`). Every operation that mutates state keeps its source form as a
class whose methods have `modifies` clauses. `Config.Merge` is proved against the pure function
`Configuration.Merged`. The two `CheckLimits` methods are proved against `Limiter.CheckVerdict` and
`ProviderRateLimiter.CheckVerdict`. The lemmas are stated about those functions. The simple setters
(`UpdateUsage`, `ResetUsageStats`, `SetUsage`, `SetResponse`) and the recording mock's getters state
their whole new state directly.

The Rust files do not agree with each other in several places:

- The three provider constructors import `crate::config::ApiConfig`. The Anthropic and OpenAI
  constructors read its `api_key`, `base_url` and `provider_config`; the mock constructor reads only
  `provider_config`. Their tests also set a `parameters` field.
- The `ApiConfig` in `src/config.rs` has neither `provider_config` nor `parameters`. It has
  `provider: String` and `provider_specific` instead, and `create_provider` (src/providers/mod.rs:36)
  reads `provider`.
- The `Provider` trait in src/providers/mod.rs declares only `get_rate_limits`, but the providers
  also implement `get_rate_limits_config` and `as_any`. That file declares no `RateLimitsConfig`.
- src/bin/strainer.rs:134 calls a three-argument `RateLimiter::new` (thresholds, backoff,
  provider). The constructor in src/providers/rate_limiter.rs takes four arguments.
- tests/provider_test.rs builds an `OpenAIConfig` with a `temperature` field and expects a
  temperature of 2.5 to fail validation. It also builds a `MockConfig` from `parameters` alone.
  src/providers/config.rs has no `temperature` and gives `MockConfig` three counters. The model
  follows src/providers/config.rs, so `ProviderConfigs.Validate` never looks at a temperature.

The model keeps both `ApiConfig` shapes: `Configuration.ApiConfig` for `src/config.rs`, and
`Providers.ApiConfig` for the fields the providers and their tests use. It follows
src/providers/rate_limiter.rs for the limiter's constructor, without the provider argument.

## Model

| member | source | states |
|---|---|---|
| Common.AsU32 | src/rate_limiter.rs:160-163 | the `as u32` cast: identity below 2^32, and always congruent to its input modulo 2^32 |
| Configuration.DefaultValues | src/config.rs:40-158 | the `Default` values: thresholds 30/50/25 (resume < warning < critical), backoff 5..60 s, pause only on critical, provider "anthropic" with no key and no base URL, no rate limits, logging info/text |
| Configuration.Merged | src/config.rs:289-346 | `merge`: `Some` options in `other` win and `None` keeps the old value; a non-empty provider name wins; provider-specific maps are united with `other` winning on shared keys; thresholds, backoff and logging are taken only when they differ from the default constant; both process flags come from `other` |
| Configuration.Config.Merge | src/config.rs:289-346 | the in-place `merge` leaves exactly `Merged(old state, other)` |
| Configuration.Config.Default | src/config.rs:6-20 | `Config::default()` holds the default configuration |
| Configuration.MergeIdempotent | src/config.rs:289-346 | merging the same configuration twice equals merging it once |
| Configuration.MergeDefaultsIntoDefaults | tests/config_test.rs:672-682 | defaults merged into defaults stay the defaults, with no API key |
| Configuration.MergeCannotRestoreDefaults | src/config.rs:316-345 | an `other` that explicitly holds default thresholds, backoff and logging cannot reset a non-default value in `self` |
| Configuration.MergeDefaultScenario | tests/config_test.rs:672-682 | after default-into-default merging the API key is still absent, so validation fails with "API key is required" |
| Configuration.Validate | src/config.rs:355-382 | passes iff (provider is "mock" or a key is set), requests_per_minute is not 0, warning < critical and resume < warning; each failure gives its own message, checked in the source's order |
| Configuration.ValidateIgnoresTokenLimits | src/config.rs:362-367 | only requests_per_minute is validated; the token limits never change the outcome |
| Configuration.ValidateDefaults | src/config.rs:355-382 | the defaults fail only for lack of a key; with a key, or as the mock provider, they pass |
| ProviderConfigs.DefaultsValidate | src/providers/config.rs:33-112 | the default provider is Anthropic claude-2/1000 and OpenAI defaults to gpt-4/2000; both validate; the derived mock default has no parameters and all three counters at 0, unlike the serde defaults 100/1000/500 |
| ProviderConfigs.Name | src/providers/config.rs:23-31 | `Display` gives "anthropic", "openai" or "mock", each exactly for its variant |
| ProviderConfigs.Validate | src/providers/config.rs:179-203 | a mock always passes; otherwise max_tokens = 0 fails first, then an empty model; it passes iff max_tokens > 0 and the model is non-empty |
| ProviderConfigs.EncodeParameters | src/providers/config.rs:216-233 | a parameter map is written as an object of the same keys, each holding its string |
| ProviderConfigs.DecodeParameters | src/providers/config.rs:41-57 | reading parameters succeeds iff the value is an object whose every value is a string, and it keeps the keys and strings |
| ProviderConfigs.ParametersRoundTrip | src/providers/config.rs:216-233 | decoding an encoded parameter map gives it back |
| ProviderConfigs.StringField | src/providers/config.rs:41-57 | a defaulted string field: absent means the default; present must be a string |
| ProviderConfigs.U32Field | src/providers/config.rs:41-57 | a defaulted `u32` field: absent means the default; present must be an integer in 0..2^32 |
| ProviderConfigs.ParametersField | src/providers/config.rs:53-55 | an absent `parameters` field reads as the empty map; a present one must be an object of strings, and reads as the same keys holding the same strings |
| ProviderConfigs.DecodeAnthropic | src/providers/config.rs:40-75 | reading an Anthropic config succeeds iff each present field has its type; an absent model or max_tokens reads as claude-2 or 1000; the parameters are exactly those `ParametersField` reads, so a present parameters object keeps every key and string; unknown fields are ignored |
| ProviderConfigs.DecodeOpenAI | src/providers/config.rs:78-112 | reading an OpenAI config succeeds iff each present field has its type; an absent model or max_tokens reads as gpt-4 or 2000; the parameters are exactly those `ParametersField` reads |
| ProviderConfigs.DecodeMock | src/providers/config.rs:141-168 | reading a mock config succeeds iff each present field has its type; absent limits read as 100/1000/500; the parameters are exactly those `ParametersField` reads |
| ProviderConfigs.DeserializeBareTag | src/providers/config.rs:254-287 | a map holding only the tag gives the variant's serde defaults: claude-2/1000, gpt-4/2000, or a mock with 100/1000/500 |
| ProviderConfigs.WithParameters | src/providers/config.rs:216-218 | the `parameters` entry is added iff the map is non-empty, and leaves the other entries alone |
| ProviderConfigs.ModelEntries | src/providers/config.rs:212-215 | an Anthropic/OpenAI map has exactly the entries type, model and max_tokens, holding the tag, the model and the number |
| ProviderConfigs.Serialize | src/providers/config.rs:205-238 | the map holds a "type" tag equal to the `Display` name; `parameters` appears iff non-empty; model variants hold exactly type/model/max_tokens (plus parameters); a mock holds only type (plus parameters) |
| ProviderConfigs.Deserialize | src/providers/config.rs:240-293 | a missing tag, a non-string tag and an unknown provider name each give their own error; a known tag succeeds iff the rest decodes as that variant (`DecodeAnthropic`, `DecodeOpenAI`, `DecodeMock`), giving that value; any success has a tag equal to the result's name |
| ProviderConfigs.ParametersFieldFrom | src/providers/config.rs:216-233 | the `parameters` entry as `serialize` writes it decodes to the original map |
| ProviderConfigs.RoundTripAnthropic | src/providers/config.rs:205-293 | deserialize(serialize(Anthropic c)) = Anthropic c |
| ProviderConfigs.RoundTripOpenAI | src/providers/config.rs:205-293 | deserialize(serialize(OpenAI c)) = OpenAI c |
| ProviderConfigs.RoundTripMock | src/providers/config.rs:143-168 | a mock comes back with its parameters, but its limits become the serde defaults 100/1000/500, because they are never written |
| ProviderConfigs.MockRoundTripIsLossy | src/providers/config.rs:229-234 | the round trip does not return the derived default mock |
| Limiter.CalculateUsagePercent | src/rate_limiter.rs:143-163 | 0 for a zero limit; otherwise, when nothing is truncated, the floor of 100·used/limit plus one exactly when the remainder reaches floor(limit/2) |
| Limiter.PercentClosedForm | src/rate_limiter.rs:143-163 | an independent closed form: (100·used + ceil(limit/2)) div limit |
| Limiter.PercentBracket | src/rate_limiter.rs:143-163 | when nothing is truncated, the rounded percentage is floor(100·used/limit) or one more, and r·limit lies within ceil(limit/2) of 100·used |
| Limiter.ExactMultipleIsExact | src/rate_limiter.rs:154-158 | for limits of at least 2, an exact percentage is not rounded up |
| Limiter.LimitOneAddsOne | src/rate_limiter.rs:154-158 | with limit 1 the remainder always reaches limit/2 = 0, so even zero usage reads as 1 % |
| Limiter.TruncationHidesOveruse | src/rate_limiter.rs:154-162 | the `as u32` wrap is visible: 42949673 requests against limit 1 reads as 5 % and the caller proceeds (and its counters are reset) |
| Limiter.PercentMonotonic | src/rate_limiter.rs:143-163 | when the larger usage is not truncated, the percentage grows with usage (without that premise it can drop, see `Limiter.TruncationHidesOveruse`) |
| Limiter.DefaultUsage | src/rate_limiter.rs:14-23 | `UsageStats::default()`: every counter is zero |
| Limiter.MaxPercent | src/rate_limiter.rs:63-91 | the maximum is at least each dimension's percentage and equals one of them; an unset limit counts as 0 |
| Limiter.Classify | src/rate_limiter.rs:93-125 | proceed iff below critical; the maximum backoff iff at or above critical; counters are reset iff below critical, below warning and at or below resume |
| Limiter.CheckVerdict | src/rate_limiter.rs:47-126 | with no limit set: proceed with the minimum backoff and no reset; otherwise blocked iff the maximum percentage reaches critical, with the reset condition of the ladder |
| Limiter.VerdictDependsOnlyOnMaxPercent | src/rate_limiter.rs:47-126 | the decision depends on the counters only through the maximum percentage, so there is no hysteresis |
| Limiter.RateLimiter.New | src/rate_limiter.rs:37-44 | `new` stores the configuration and starts from zero usage |
| Limiter.RateLimiter.CheckLimits | src/rate_limiter.rs:47-126 | returns the `CheckVerdict` decision and clears the counters exactly when it decides a reset |
| Limiter.RateLimiter.UpdateUsage | src/rate_limiter.rs:129-134 | overwrites exactly the three counters |
| Limiter.RateLimiter.ResetUsageStats | src/rate_limiter.rs:137-139 | all counters back to zero |
| Limiter.RateLimiter.GetBackoffDuration | src/rate_limiter.rs:166-186 | the maximum backoff iff the maximum percentage, with unset limits read as 0, reaches critical; the minimum otherwise |
| Limiter.BackoffMatchesCheck | src/rate_limiter.rs:166-186 | once a limit is set, `get_backoff_duration` agrees with the backoff `check_limits` returns |
| Limiter.BackoffDivergesWithoutLimits | src/rate_limiter.rs:166-186 | with no limit and a critical threshold of 0 they disagree: maximum versus minimum backoff |
| Limiter.ResumeScenario | tests/rate_limiter_test.rs:75-89 | blocked at 60 %, then proceeding with 5 s at 20 %, which also clears the counters |
| ProviderRateLimiter.CalculateUsagePercent | src/providers/rate_limiter.rs:68-79 | 0 for a zero limit; otherwise, when nothing is truncated, the r with r·limit ≤ 100·used < (r+1)·limit |
| ProviderRateLimiter.FlooredVersusRounded | src/providers/rate_limiter.rs:68-79 | the floored percentage is at most the standalone rounded one and at most one below it, and one below exactly when the remainder reaches limit/2 |
| ProviderRateLimiter.PercentMonotonic | src/providers/rate_limiter.rs:68-79 | when the larger quotient fits in a `u32`, the floored percentage grows with usage |
| ProviderRateLimiter.Snapshot | src/providers/rate_limiter.rs:26-35 | `UsageStats::new`: the counters are those of the provider's snapshot |
| ProviderRateLimiter.MaxPercent | src/providers/rate_limiter.rs:118-140 | the maximum is at least each dimension's percentage and equals one of them; an unset limit counts as 0 |
| ProviderRateLimiter.CheckVerdict | src/providers/rate_limiter.rs:100-173 | with no limit set: proceed with the minimum backoff; otherwise blocked iff the maximum floored percentage reaches critical, with the reset condition of the ladder |
| ProviderRateLimiter.FlooredNeverStricter | src/providers/rate_limiter.rs:68-79 | when nothing is truncated, the floored maximum is at most the rounded maximum, so this limiter lets the caller proceed whenever the standalone one does |
| ProviderRateLimiter.TruncationMakesFlooredStricter | src/providers/rate_limiter.rs:68-79 | under truncation the comparison fails: 1030792151 requests against limit 8 reads 0 % rounded (proceed) and 4294967295 % floored (blocked) |
| ProviderRateLimiter.TruncationHidesOveruse | src/providers/rate_limiter.rs:68-79 | the floored percentage wraps too: 42949673 requests against limit 1 reads as 4 % and the caller proceeds |
| ProviderRateLimiter.RoundingDecidesAtCritical | src/providers/rate_limiter.rs:68-79 | 99 of 200 requests proceeds here (49 %) and is blocked by the standalone limiter (50 %) |
| ProviderRateLimiter.RateLimiter.New | src/providers/rate_limiter.rs:50-63 | `new` stores the configuration and starts from zero usage |
| ProviderRateLimiter.RateLimiter.CheckLimits | src/providers/rate_limiter.rs:96-174 | a provider error is passed on and the counters are kept; with no limit the caller proceeds and the counters are not refreshed; otherwise it returns the `CheckVerdict` decision, and the counters become the snapshot, or zero when a reset is decided |
| ProviderRateLimiter.CheckWith | src/providers/rate_limiter.rs:239-411 | one test round: the mock logs one `get_rate_limits` call and the limiter decides on the response that was set |
| ProviderRateLimiter.BasicThresholdsScenario | src/providers/rate_limiter.rs:239-294 | 10 % and 30 % proceed with 5 s; 50 % is blocked with 60 s |
| ProviderRateLimiter.MixedUsageScenario | src/providers/rate_limiter.rs:297-335 | one dimension at or above critical is enough to block with 60 s |
| ProviderRateLimiter.NoLimitsScenario | src/providers/rate_limiter.rs:338-371 | with no limits, the test's usage 1000/10000/5000 proceeds with 5 s and the counters stay zero (the all-inputs fact is `ProviderRateLimiter.CheckVerdict`'s no-limit ensures with `RateLimiter.CheckLimits`) |
| ProviderRateLimiter.ResumeScenario | src/providers/rate_limiter.rs:374-411 | blocked at 60 %, then proceeding with 5 s at 20 %, which clears the counters; the mock logged two calls |
| ProviderRateLimiter.ProviderErrorScenario | src/providers/rate_limiter.rs:96-98 | a provider error is returned as is, and the counters stay zero |
| AnthropicProviders.AnthropicProvider.GetRateLimits | src/providers/anthropic.rs:55-61 | reports the provider's own three counters and never fails |
| AnthropicProviders.AnthropicProvider.GetRateLimitsConfig | src/providers/anthropic.rs:63-69 | Anthropic's fixed limits 10000/100000/50000 |
| AnthropicProviders.New | src/providers/anthropic.rs:27-51 | a missing key fails first with "API key is required for Anthropic", then any non-Anthropic variant fails with "Invalid provider configuration"; success iff a key is set and the variant is Anthropic, and then the key and configuration are kept, the base URL defaults to https://api.anthropic.com/v1, and usage starts at zero |
| AnthropicProviders.ConstructorScenarios | src/providers/anthropic.rs:83-131 | the default Anthropic configuration with a key gives claude-2/1000 on the default URL with zero usage; the two error texts |
| OpenAIProviders.OpenAIProvider.GetRateLimits | src/providers/openai.rs:43-49 | reports the provider's own three counters and never fails |
| OpenAIProviders.OpenAIProvider.GetRateLimitsConfig | src/providers/openai.rs:51-57 | OpenAI's fixed limits 3500/90000/45000 |
| OpenAIProviders.New | src/providers/openai.rs:17-39 | a missing key fails first with "API key is required for OpenAI provider", then any non-OpenAI variant fails with "Invalid provider configuration"; success iff a key is set and the variant is OpenAI, with the base URL defaulting to https://api.openai.com/v1 and usage starting at zero |
| MockProviders.MockProvider.Init | src/providers/mock.rs:29-34 | the configuration is kept and the counters start at zero |
| MockProviders.MockProvider.New | src/providers/mock.rs:23-35 | succeeds iff the variant is Mock, with a fresh provider holding that configuration and zero usage; otherwise fails with "Invalid provider configuration" |
| MockProviders.MockProvider.SetUsage | src/providers/mock.rs:38-42 | overwrites exactly the three counters, which `get_rate_limits` then reports |
| MockProviders.MockProvider.GetRateLimits | src/providers/mock.rs:46-52 | reports the current counters and never fails |
| MockProviders.MockProvider.GetRateLimitsConfig | src/providers/mock.rs:54-60 | the configured mock limits, all of them set |
| MockProviders.MockScenario | src/providers/mock.rs:74-134 | zero usage after `new`, 10/100/50 after `set_usage`, and rejection of an Anthropic configuration |
| TestUtils.MockProvider.New | src/test_utils.rs:19-29 | `new`: no calls logged, no per-name responses, and an all-zero default response |
| TestUtils.MockProvider.Default | src/test_utils.rs:9-14 | the derived default: no calls, no responses, no default response |
| TestUtils.MockProvider.SetResponse | src/test_utils.rs:36-38 | replaces the default response and nothing else |
| TestUtils.MockProvider.GetCalls | src/test_utils.rs:50-52 | the call log, oldest first |
| TestUtils.MockProvider.GetRateLimits | src/test_utils.rs:56-71 | appends "get_rate_limits" to the log; never fails; reports the default response, or zeros without one; per-name responses are never consulted |
| TestUtils.MockProvider.GetRateLimitsConfig | src/test_utils.rs:73-83 | appends "get_rate_limits_config" to the log and reports 100/1000/500 |
| TestUtils.CallLogScenario | src/test_utils.rs:36-83 | the log keeps the calls in order, the latest response set wins, and a mock without a default response reports zeros |

## Left out

- `Config::from_file`, `from_env` and `load` (file and environment I/O, TOML parsing, parsing of environment values) are not modelled; `merge` takes their result as an ordinary value.
- The `Instant` timestamp `last_check` of both `UsageStats` types and all `tracing` log output take part in no decision, so they are dropped. `Duration` is modelled as whole seconds.
- The `Provider` trait, `as_any`/downcasting and `create_provider` need dynamic dispatch, which is not modelled. The provider-fed limiter therefore receives the result of the provider's `get_rate_limits` call as a parameter instead of holding a boxed provider, and its constructor takes the three configuration values only.
- Interior mutability of the test mock (`Arc<Mutex<..>>`, poisoned-lock panics) is not modelled; its guarded values are plain fields.
- `ProviderConfigs.Deserialize` reads a finished JSON object. Duplicate keys, where the later one wins while reading, are therefore not modelled. Its errors for a bad field value are generic texts, not serde_json's exact messages.
- `Common.Value` has no floating-point numbers and no arrays. So `provider_specific` cannot hold such JSON values, and inputs the source rejects (a float or an array given for `max_tokens` or `parameters`) cannot be expressed. Floating-point numbers are out of scope, and no field the model decodes accepts an array.
- `Limiter.CalculateUsagePercent` and `ProviderRateLimiter.CalculateUsagePercent`: the rounding lemmas assume no truncation (`Fits`); in the truncated case only the modulo-2^32 relation of `Common.AsU32` is stated.
- `process.rs` is not part of this model: its SIGSTOP/SIGCONT/SIGKILL wrappers (`pause`, `resume`, `terminate`), `is_running` and the `Command::spawn` of `from_command` are operating-system calls.
- The source keeps no hysteresis state and no token budget, so there is nothing of either to model; `Limiter.VerdictDependsOnlyOnMaxPercent` shows the decision is memoryless.
- The command-line front ends (`cli.rs`, `main.rs`, `bin/strainer.rs`) and `init.rs` are not part of this model.
