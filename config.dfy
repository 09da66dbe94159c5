/** The application configuration of src/config.rs: default values, `merge` and `validate`. */
module Configuration {
  import opened Common

  datatype RateLimits = RateLimits(
    requestsPerMinute: Option<u32>,
    tokensPerMinute: Option<u32>,
    inputTokensPerMinute: Option<u32>)

  datatype Thresholds = Thresholds(warning: u8, critical: u8, resume: u8)

  datatype BackoffConfig = BackoffConfig(minSeconds: u32, maxSeconds: u32)

  datatype ProcessConfig = ProcessConfig(pauseOnWarning: bool, pauseOnCritical: bool)

  datatype ApiConfig = ApiConfig(
    provider: string,
    apiKey: Option<string>,
    baseUrl: Option<string>,
    providerSpecific: map<string, Value>)

  datatype LoggingConfig = LoggingConfig(level: string, format: string)

  /** The value of a `Config`: what `Clone` copies and what `merge` receives as `other`. */
  datatype ConfigData = ConfigData(
    limits: RateLimits,
    thresholds: Thresholds,
    backoff: BackoffConfig,
    process: ProcessConfig,
    api: ApiConfig,
    logging: LoggingConfig)

  // The `default_*` functions of src/config.rs.
  const DEFAULT_WARNING_THRESHOLD: u8 := 30
  const DEFAULT_CRITICAL_THRESHOLD: u8 := 50
  const DEFAULT_RESUME_THRESHOLD: u8 := 25
  const DEFAULT_MIN_BACKOFF: u32 := 5
  const DEFAULT_MAX_BACKOFF: u32 := 60
  const DEFAULT_PAUSE_ON_CRITICAL: bool := true
  const DEFAULT_API_PROVIDER: string := "anthropic"
  const DEFAULT_LOG_LEVEL: string := "info"
  const DEFAULT_LOG_FORMAT: string := "text"

  // The `Default` implementations.
  function DefaultRateLimits(): RateLimits { RateLimits(None, None, None) }

  function DefaultThresholds(): Thresholds {
    Thresholds(DEFAULT_WARNING_THRESHOLD, DEFAULT_CRITICAL_THRESHOLD, DEFAULT_RESUME_THRESHOLD)
  }

  function DefaultBackoffConfig(): BackoffConfig { BackoffConfig(DEFAULT_MIN_BACKOFF, DEFAULT_MAX_BACKOFF) }

  function DefaultProcessConfig(): ProcessConfig { ProcessConfig(false, DEFAULT_PAUSE_ON_CRITICAL) }

  function DefaultApiConfig(): ApiConfig { ApiConfig(DEFAULT_API_PROVIDER, None, None, map[]) }

  function DefaultLoggingConfig(): LoggingConfig { LoggingConfig(DEFAULT_LOG_LEVEL, DEFAULT_LOG_FORMAT) }

  function DefaultConfig(): ConfigData {
    ConfigData(DefaultRateLimits(), DefaultThresholds(), DefaultBackoffConfig(),
               DefaultProcessConfig(), DefaultApiConfig(), DefaultLoggingConfig())
  }

  /** The values `Config::default()` starts from, and the ordering they satisfy. */
  lemma DefaultValues()
    ensures var d := DefaultConfig();
      && d.thresholds.warning == 30 && d.thresholds.critical == 50 && d.thresholds.resume == 25
      && d.thresholds.resume < d.thresholds.warning < d.thresholds.critical
      && d.backoff.minSeconds == 5 && d.backoff.maxSeconds == 60
      && d.backoff.minSeconds <= d.backoff.maxSeconds
      && !d.process.pauseOnWarning && d.process.pauseOnCritical
      && d.api.provider == "anthropic" && d.api.apiKey == None && d.api.baseUrl == None
      && d.api.providerSpecific == map[]
      && d.limits == RateLimits(None, None, None)
      && d.logging == LoggingConfig("info", "text")
  {
  }

  /** The value `merge` gives `self` after merging `other` into it. */
  function Merged(self: ConfigData, other: ConfigData): (r: ConfigData)
    // Optional fields: `Some` in `other` wins, `None` keeps `self`.
    ensures other.api.apiKey.Some? ==> r.api.apiKey == other.api.apiKey
    ensures other.api.apiKey.None? ==> r.api.apiKey == self.api.apiKey
    ensures other.api.baseUrl.Some? ==> r.api.baseUrl == other.api.baseUrl
    ensures other.api.baseUrl.None? ==> r.api.baseUrl == self.api.baseUrl
    ensures other.limits.requestsPerMinute.Some? ==> r.limits.requestsPerMinute == other.limits.requestsPerMinute
    ensures other.limits.requestsPerMinute.None? ==> r.limits.requestsPerMinute == self.limits.requestsPerMinute
    ensures other.limits.tokensPerMinute.Some? ==> r.limits.tokensPerMinute == other.limits.tokensPerMinute
    ensures other.limits.tokensPerMinute.None? ==> r.limits.tokensPerMinute == self.limits.tokensPerMinute
    ensures other.limits.inputTokensPerMinute.Some? ==> r.limits.inputTokensPerMinute == other.limits.inputTokensPerMinute
    ensures other.limits.inputTokensPerMinute.None? ==> r.limits.inputTokensPerMinute == self.limits.inputTokensPerMinute
    // The provider name is taken iff it is non-empty.
    ensures r.api.provider == if other.api.provider != "" then other.api.provider else self.api.provider
    // provider_specific: union of both maps, other's entries win on shared keys.
    ensures r.api.providerSpecific.Keys == self.api.providerSpecific.Keys + other.api.providerSpecific.Keys
    ensures forall k :: k in other.api.providerSpecific ==> r.api.providerSpecific[k] == other.api.providerSpecific[k]
    ensures forall k :: k in self.api.providerSpecific && k !in other.api.providerSpecific ==>
      r.api.providerSpecific[k] == self.api.providerSpecific[k]
    // Thresholds, backoff and logging: other's value is taken only when it is not the default constant.
    ensures r.thresholds.warning == if other.thresholds.warning == DEFAULT_WARNING_THRESHOLD then self.thresholds.warning else other.thresholds.warning
    ensures r.thresholds.critical == if other.thresholds.critical == DEFAULT_CRITICAL_THRESHOLD then self.thresholds.critical else other.thresholds.critical
    ensures r.thresholds.resume == if other.thresholds.resume == DEFAULT_RESUME_THRESHOLD then self.thresholds.resume else other.thresholds.resume
    ensures r.backoff.minSeconds == if other.backoff.minSeconds == DEFAULT_MIN_BACKOFF then self.backoff.minSeconds else other.backoff.minSeconds
    ensures r.backoff.maxSeconds == if other.backoff.maxSeconds == DEFAULT_MAX_BACKOFF then self.backoff.maxSeconds else other.backoff.maxSeconds
    ensures r.logging.level == if other.logging.level == DEFAULT_LOG_LEVEL then self.logging.level else other.logging.level
    ensures r.logging.format == if other.logging.format == DEFAULT_LOG_FORMAT then self.logging.format else other.logging.format
    // Both process flags always come from other.
    ensures r.process == other.process
  {
    ConfigData(
      MergedLimits(self.limits, other.limits),
      MergedThresholds(self.thresholds, other.thresholds),
      MergedBackoff(self.backoff, other.backoff),
      other.process,
      MergedApi(self.api, other.api),
      MergedLogging(self.logging, other.logging))
  }

  function MergedLimits(mine: RateLimits, theirs: RateLimits): RateLimits {
    RateLimits(
      OverrideIfSome(mine.requestsPerMinute, theirs.requestsPerMinute),
      OverrideIfSome(mine.tokensPerMinute, theirs.tokensPerMinute),
      OverrideIfSome(mine.inputTokensPerMinute, theirs.inputTokensPerMinute))
  }

  function MergedThresholds(mine: Thresholds, theirs: Thresholds): Thresholds {
    Thresholds(
      OverrideIfNotDefault(mine.warning, theirs.warning, DEFAULT_WARNING_THRESHOLD),
      OverrideIfNotDefault(mine.critical, theirs.critical, DEFAULT_CRITICAL_THRESHOLD),
      OverrideIfNotDefault(mine.resume, theirs.resume, DEFAULT_RESUME_THRESHOLD))
  }

  function MergedBackoff(mine: BackoffConfig, theirs: BackoffConfig): BackoffConfig {
    BackoffConfig(
      OverrideIfNotDefault(mine.minSeconds, theirs.minSeconds, DEFAULT_MIN_BACKOFF),
      OverrideIfNotDefault(mine.maxSeconds, theirs.maxSeconds, DEFAULT_MAX_BACKOFF))
  }

  function MergedApi(mine: ApiConfig, theirs: ApiConfig): ApiConfig {
    ApiConfig(
      if theirs.provider != "" then theirs.provider else mine.provider,
      OverrideIfSome(mine.apiKey, theirs.apiKey),
      OverrideIfSome(mine.baseUrl, theirs.baseUrl),
      mine.providerSpecific + theirs.providerSpecific)
  }

  function MergedLogging(mine: LoggingConfig, theirs: LoggingConfig): LoggingConfig {
    LoggingConfig(
      OverrideIfNotDefault(mine.level, theirs.level, DEFAULT_LOG_LEVEL),
      OverrideIfNotDefault(mine.format, theirs.format, DEFAULT_LOG_FORMAT))
  }

  function OverrideIfSome<T>(mine: Option<T>, theirs: Option<T>): Option<T> {
    if theirs.Some? then theirs else mine
  }

  function OverrideIfNotDefault<T(==)>(mine: T, theirs: T, default: T): T {
    if theirs != default then theirs else mine
  }

  /** Merging the same configuration a second time changes nothing. */
  lemma MergeIdempotent(self: ConfigData, other: ConfigData)
    ensures Merged(Merged(self, other), other) == Merged(self, other)
  {
    var once := Merged(self, other);
    var twice := Merged(once, other);
    assert twice.api.providerSpecific == once.api.providerSpecific;
    assert twice.api == once.api;
  }

  /** Merging defaults into defaults leaves the defaults, in particular no API key. */
  lemma MergeDefaultsIntoDefaults()
    ensures Merged(DefaultConfig(), DefaultConfig()) == DefaultConfig()
    ensures Merged(DefaultConfig(), DefaultConfig()).api.apiKey == None
  {
    assert DefaultConfig().api.providerSpecific + DefaultConfig().api.providerSpecific == map[];
  }

  /** The quirk of the default-constant test: an `other` that explicitly sets a field back to its
      default cannot undo a non-default value already in `self`. */
  lemma MergeCannotRestoreDefaults(self: ConfigData, other: ConfigData)
    requires other.thresholds == DefaultThresholds() && other.backoff == DefaultBackoffConfig()
    requires other.logging == DefaultLoggingConfig()
    ensures var r := Merged(self, other);
      r.thresholds == self.thresholds && r.backoff == self.backoff && r.logging == self.logging
  {
  }

  /** `Config::validate`: the checks in the order the source performs them. */
  function Validate(c: ConfigData): (r: Outcome)
    ensures r.Pass? <==>
      && (c.api.provider == "mock" || c.api.apiKey.Some?)
      && c.limits.requestsPerMinute != Some(0)
      && c.thresholds.warning < c.thresholds.critical
      && c.thresholds.resume < c.thresholds.warning
    ensures c.api.provider != "mock" && c.api.apiKey.None? ==> r == Fail("API key is required")
    ensures (c.api.provider == "mock" || c.api.apiKey.Some?) && c.limits.requestsPerMinute == Some(0) ==>
      r == Fail("requests_per_minute must be greater than 0")
    ensures ((c.api.provider == "mock" || c.api.apiKey.Some?) && c.limits.requestsPerMinute != Some(0)
             && c.thresholds.warning >= c.thresholds.critical) ==>
      r == Fail("warning threshold must be less than critical threshold")
    ensures ((c.api.provider == "mock" || c.api.apiKey.Some?) && c.limits.requestsPerMinute != Some(0)
             && c.thresholds.warning < c.thresholds.critical && c.thresholds.resume >= c.thresholds.warning) ==>
      r == Fail("resume threshold must be less than warning threshold")
  {
    if c.api.provider != "mock" && c.api.apiKey.None? then
      Fail("API key is required")
    else if c.limits.requestsPerMinute.Some? && c.limits.requestsPerMinute.value == 0 then
      Fail("requests_per_minute must be greater than 0")
    else if c.thresholds.warning >= c.thresholds.critical then
      Fail("warning threshold must be less than critical threshold")
    else if c.thresholds.resume >= c.thresholds.warning then
      Fail("resume threshold must be less than warning threshold")
    else
      Pass
  }

  /** Token limits are never looked at by `validate`. */
  lemma ValidateIgnoresTokenLimits(c: ConfigData, tokens: Option<u32>, inputTokens: Option<u32>)
    ensures Validate(c.(limits := c.limits.(tokensPerMinute := tokens, inputTokensPerMinute := inputTokens)))
         == Validate(c)
  {
  }

  /** The defaults fail validation only for lack of an API key; with a key, or as the mock provider, they pass. */
  lemma ValidateDefaults(key: string)
    ensures Validate(DefaultConfig()) == Fail("API key is required")
    ensures Validate(DefaultConfig().(api := DefaultApiConfig().(apiKey := Some(key)))) == Pass
    ensures Validate(DefaultConfig().(api := DefaultApiConfig().(provider := "mock"))) == Pass
  {
  }

  /** The configuration `Config` that `merge` updates in place. */
  class Config {
    var limits: RateLimits
    var thresholds: Thresholds
    var backoff: BackoffConfig
    var process: ProcessConfig
    var api: ApiConfig
    var logging: LoggingConfig

    /** The current value of every field. */
    function Data(): ConfigData
      reads this
    {
      ConfigData(limits, thresholds, backoff, process, api, logging)
    }

    /** `Config::default()`. */
    constructor Default()
      ensures Data() == DefaultConfig()
    {
      limits := DefaultRateLimits();
      thresholds := DefaultThresholds();
      backoff := DefaultBackoffConfig();
      process := DefaultProcessConfig();
      api := DefaultApiConfig();
      logging := DefaultLoggingConfig();
    }

    /** `Config::merge`: overrides this configuration field by field with `other`. */
    method Merge(other: ConfigData)
      modifies this
      ensures Data() == Merged(old(Data()), other)
    {
      MergeApi(other.api);
      MergeLimits(other.limits);
      MergeThresholds(other.thresholds);
      MergeBackoff(other.backoff);
      process := process.(pauseOnWarning := other.process.pauseOnWarning);
      process := process.(pauseOnCritical := other.process.pauseOnCritical);
      MergeLogging(other.logging);
    }

    method MergeApi(other: ApiConfig)
      modifies this`api
      ensures api == MergedApi(old(api), other)
    {
      if other.apiKey.Some? {
        api := api.(apiKey := other.apiKey);
      }
      if other.baseUrl.Some? {
        api := api.(baseUrl := other.baseUrl);
      }
      if other.provider != "" {
        api := api.(provider := other.provider);
      }
      api := api.(providerSpecific := api.providerSpecific + other.providerSpecific);
    }

    method MergeLimits(other: RateLimits)
      modifies this`limits
      ensures limits == MergedLimits(old(limits), other)
    {
      if other.requestsPerMinute.Some? {
        limits := limits.(requestsPerMinute := other.requestsPerMinute);
      }
      if other.tokensPerMinute.Some? {
        limits := limits.(tokensPerMinute := other.tokensPerMinute);
      }
      if other.inputTokensPerMinute.Some? {
        limits := limits.(inputTokensPerMinute := other.inputTokensPerMinute);
      }
    }

    method MergeThresholds(other: Thresholds)
      modifies this`thresholds
      ensures thresholds == MergedThresholds(old(thresholds), other)
    {
      if other.warning != DEFAULT_WARNING_THRESHOLD {
        thresholds := thresholds.(warning := other.warning);
      }
      if other.critical != DEFAULT_CRITICAL_THRESHOLD {
        thresholds := thresholds.(critical := other.critical);
      }
      if other.resume != DEFAULT_RESUME_THRESHOLD {
        thresholds := thresholds.(resume := other.resume);
      }
    }

    method MergeBackoff(other: BackoffConfig)
      modifies this`backoff
      ensures backoff == MergedBackoff(old(backoff), other)
    {
      if other.minSeconds != DEFAULT_MIN_BACKOFF {
        backoff := backoff.(minSeconds := other.minSeconds);
      }
      if other.maxSeconds != DEFAULT_MAX_BACKOFF {
        backoff := backoff.(maxSeconds := other.maxSeconds);
      }
    }

    method MergeLogging(other: LoggingConfig)
      modifies this`logging
      ensures logging == MergedLogging(old(logging), other)
    {
      if other.level != DEFAULT_LOG_LEVEL {
        logging := logging.(level := other.level);
      }
      if other.format != DEFAULT_LOG_FORMAT {
        logging := logging.(format := other.format);
      }
    }
  }

  /** The merge test of tests/config_test.rs: a default config merged with another default keeps no API key. */
  method MergeDefaultScenario() returns (apiKey: Option<string>, verdict: Outcome)
    ensures apiKey == None
    ensures verdict == Fail("API key is required")
  {
    var base := new Config.Default();
    base.Merge(DefaultConfig());
    apiKey := base.api.apiKey;
    verdict := Validate(base.Data());
  }
}
