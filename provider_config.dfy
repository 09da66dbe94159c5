/** The provider configuration of src/providers/config.rs: its variants and defaults, `validate`,
    `Display`, and the flat tagged-map encoding its `Serialize`/`Deserialize` implementations use. */
module ProviderConfigs {
  import opened Common

  datatype AnthropicConfig = AnthropicConfig(model: string, maxTokens: u32, parameters: map<string, string>)

  datatype OpenAIConfig = OpenAIConfig(model: string, maxTokens: u32, parameters: map<string, string>)

  datatype MockConfig = MockConfig(
    parameters: map<string, string>,
    requestsPerMinute: u32,
    tokensPerMinute: u32,
    inputTokensPerMinute: u32)

  datatype ProviderConfig =
    | Anthropic(anthropic: AnthropicConfig)
    | OpenAI(openai: OpenAIConfig)
    | Mock(mock: MockConfig)

  const DEFAULT_ANTHROPIC_MODEL: string := "claude-2"
  const DEFAULT_ANTHROPIC_MAX_TOKENS: u32 := 1000
  const DEFAULT_OPENAI_MODEL: string := "gpt-4"
  const DEFAULT_OPENAI_MAX_TOKENS: u32 := 2000
  // The serde defaults of the mock counters (not those of the derived `MockConfig::default()`).
  const DEFAULT_MOCK_REQUESTS: u32 := 100
  const DEFAULT_MOCK_TOKENS: u32 := 1000
  const DEFAULT_MOCK_INPUT_TOKENS: u32 := 500

  function DefaultAnthropicConfig(): AnthropicConfig {
    AnthropicConfig(DEFAULT_ANTHROPIC_MODEL, DEFAULT_ANTHROPIC_MAX_TOKENS, map[])
  }

  function DefaultOpenAIConfig(): OpenAIConfig {
    OpenAIConfig(DEFAULT_OPENAI_MODEL, DEFAULT_OPENAI_MAX_TOKENS, map[])
  }

  /** The derived `MockConfig::default()`: every counter 0. */
  function DefaultMockConfig(): MockConfig { MockConfig(map[], 0, 0, 0) }

  /** `ProviderConfig::default()`. */
  function DefaultProviderConfig(): ProviderConfig { Anthropic(DefaultAnthropicConfig()) }

  /** The defaults: Anthropic with claude-2/1000, OpenAI with gpt-4/2000, all of which validate;
      the derived mock default has zero counters, unlike the serde defaults 100/1000/500. */
  lemma DefaultsValidate()
    ensures DefaultProviderConfig() == Anthropic(AnthropicConfig("claude-2", 1000, map[]))
    ensures DefaultOpenAIConfig() == OpenAIConfig("gpt-4", 2000, map[])
    ensures Validate(DefaultProviderConfig()) == Pass && Validate(OpenAI(DefaultOpenAIConfig())) == Pass
    ensures DefaultMockConfig() == MockConfig(map[], 0, 0, 0)
    ensures DefaultMockConfig().requestsPerMinute == 0 != DEFAULT_MOCK_REQUESTS
    ensures DefaultMockConfig().tokensPerMinute == 0 != DEFAULT_MOCK_TOKENS
    ensures DefaultMockConfig().inputTokensPerMinute == 0 != DEFAULT_MOCK_INPUT_TOKENS
  {
  }

  /** `Display for ProviderConfig`: the lower-case provider name. */
  function Name(c: ProviderConfig): (s: string)
    ensures s == "anthropic" <==> c.Anthropic?
    ensures s == "openai" <==> c.OpenAI?
    ensures s == "mock" <==> c.Mock?
  {
    match c
    case Anthropic(_) => "anthropic"
    case OpenAI(_) => "openai"
    case Mock(_) => "mock"
  }

  /** `ProviderConfig::validate`: `max_tokens` is checked before `model`; a mock always validates. */
  function Validate(c: ProviderConfig): (r: Outcome)
    ensures c.Mock? ==> r == Pass
    ensures !c.Mock? && MaxTokens(c) == 0 ==> r == Fail("max_tokens must be greater than 0")
    ensures !c.Mock? && MaxTokens(c) != 0 && Model(c) == "" ==> r == Fail("model must not be empty")
    ensures r.Pass? <==> c.Mock? || (MaxTokens(c) > 0 && Model(c) != "")
  {
    match c
    case Anthropic(cfg) =>
      if cfg.maxTokens == 0 then Fail("max_tokens must be greater than 0")
      else if |cfg.model| == 0 then Fail("model must not be empty")
      else Pass
    case OpenAI(cfg) =>
      if cfg.maxTokens == 0 then Fail("max_tokens must be greater than 0")
      else if |cfg.model| == 0 then Fail("model must not be empty")
      else Pass
    case Mock(_) => Pass
  }

  function MaxTokens(c: ProviderConfig): u32
    requires !c.Mock?
  {
    if c.Anthropic? then c.anthropic.maxTokens else c.openai.maxTokens
  }

  function Model(c: ProviderConfig): string
    requires !c.Mock?
  {
    if c.Anthropic? then c.anthropic.model else c.openai.model
  }

  // ---- The flat map encoding ----

  /** A `HashMap<String, String>` as a JSON object of strings. */
  function EncodeParameters(p: map<string, string>): (v: Value)
    ensures v.Obj? && v.fields.Keys == p.Keys
    ensures forall k :: k in p ==> v.fields[k] == Str(p[k])
  {
    Obj(map k | k in p :: Str(p[k]))
  }

  predicate AllStrings(fields: map<string, Value>) {
    forall k :: k in fields ==> fields[k].Str?
  }

  /** Reading a `HashMap<String, String>` back: an object whose every value is a string. */
  function DecodeParameters(v: Value): (r: Result<map<string, string>>)
    ensures r.Ok? <==> v.Obj? && AllStrings(v.fields)
    ensures r.Ok? ==> r.value.Keys == v.fields.Keys && forall k :: k in r.value ==> v.fields[k] == Str(r.value[k])
  {
    if v.Obj? && AllStrings(v.fields) then Ok(map k | k in v.fields :: v.fields[k].s)
    else Err("invalid type: expected a map of strings")
  }

  lemma ParametersRoundTrip(p: map<string, string>)
    ensures DecodeParameters(EncodeParameters(p)) == Ok(p)
  {
    var r := DecodeParameters(EncodeParameters(p));
    assert r.Ok?;
    assert r.value == p;
  }

  /** A string field with a serde default: absent means the default, present must be a string. */
  function StringField(obj: map<string, Value>, key: string, default: string): (r: Result<string>)
    ensures key !in obj ==> r == Ok(default)
    ensures key in obj ==> (r.Ok? <==> obj[key].Str?) && (r.Ok? ==> obj[key] == Str(r.value))
  {
    if key !in obj then Ok(default)
    else if obj[key].Str? then Ok(obj[key].s)
    else Err("invalid type for field `" + key + "`: expected a string")
  }

  /** A `u32` field with a serde default: absent means the default, present must be an integer in range. */
  function U32Field(obj: map<string, Value>, key: string, default: u32): (r: Result<u32>)
    ensures key !in obj ==> r == Ok(default)
    ensures key in obj ==> (r.Ok? <==> obj[key].Num? && 0 <= obj[key].n < U32_LIMIT)
    ensures key in obj && r.Ok? ==> obj[key] == Num(r.value)
  {
    if key !in obj then Ok(default)
    else if obj[key].Num? && 0 <= obj[key].n < U32_LIMIT then Ok(obj[key].n as u32)
    else Err("invalid value for field `" + key + "`: expected u32")
  }

  /** A present string field holds a string. */
  predicate StringOrAbsent(obj: map<string, Value>, key: string) {
    key in obj ==> obj[key].Str?
  }

  /** A present `u32` field holds an integer in 0..2^32. */
  predicate U32OrAbsent(obj: map<string, Value>, key: string) {
    key in obj ==> obj[key].Num? && 0 <= obj[key].n < U32_LIMIT
  }

  /** A present `parameters` field holds an object of strings. */
  predicate ParametersOrAbsent(obj: map<string, Value>) {
    "parameters" in obj ==> obj["parameters"].Obj? && AllStrings(obj["parameters"].fields)
  }

  /** The `parameters` field, empty when absent (`#[serde(default)]`). */
  function ParametersField(obj: map<string, Value>): (r: Result<map<string, string>>)
    ensures r.Ok? <==> ParametersOrAbsent(obj)
    ensures "parameters" !in obj ==> r == Ok(map[])
    ensures "parameters" in obj && r.Ok? ==> r.value.Keys == obj["parameters"].fields.Keys
    ensures "parameters" in obj && r.Ok? ==> forall k :: k in r.value ==> obj["parameters"].fields[k] == Str(r.value[k])
  {
    if "parameters" !in obj then Ok(map[]) else DecodeParameters(obj["parameters"])
  }

  /** The derived `Deserialize` of `AnthropicConfig`: every field is optional with its serde default,
      a present field must have its type, and unknown fields are ignored. */
  function DecodeAnthropic(obj: map<string, Value>): (r: Result<AnthropicConfig>)
    ensures r.Ok? <==> StringOrAbsent(obj, "model") && U32OrAbsent(obj, "max_tokens") && ParametersOrAbsent(obj)
    ensures r.Ok? ==> r.value.model == if "model" in obj then obj["model"].s else DEFAULT_ANTHROPIC_MODEL
    ensures r.Ok? ==> r.value.maxTokens == if "max_tokens" in obj then obj["max_tokens"].n else DEFAULT_ANTHROPIC_MAX_TOKENS
    ensures r.Ok? && "parameters" !in obj ==> r.value.parameters == map[]
    ensures r.Ok? ==> ParametersField(obj).Ok? && r.value.parameters == ParametersField(obj).value
  {
    var model := StringField(obj, "model", DEFAULT_ANTHROPIC_MODEL);
    var maxTokens := U32Field(obj, "max_tokens", DEFAULT_ANTHROPIC_MAX_TOKENS);
    var parameters := ParametersField(obj);
    if model.Err? then Err(model.error)
    else if maxTokens.Err? then Err(maxTokens.error)
    else if parameters.Err? then Err(parameters.error)
    else Ok(AnthropicConfig(model.value, maxTokens.value, parameters.value))
  }

  /** The derived `Deserialize` of `OpenAIConfig`, with the OpenAI defaults. */
  function DecodeOpenAI(obj: map<string, Value>): (r: Result<OpenAIConfig>)
    ensures r.Ok? <==> StringOrAbsent(obj, "model") && U32OrAbsent(obj, "max_tokens") && ParametersOrAbsent(obj)
    ensures r.Ok? ==> r.value.model == if "model" in obj then obj["model"].s else DEFAULT_OPENAI_MODEL
    ensures r.Ok? ==> r.value.maxTokens == if "max_tokens" in obj then obj["max_tokens"].n else DEFAULT_OPENAI_MAX_TOKENS
    ensures r.Ok? && "parameters" !in obj ==> r.value.parameters == map[]
    ensures r.Ok? ==> ParametersField(obj).Ok? && r.value.parameters == ParametersField(obj).value
  {
    var model := StringField(obj, "model", DEFAULT_OPENAI_MODEL);
    var maxTokens := U32Field(obj, "max_tokens", DEFAULT_OPENAI_MAX_TOKENS);
    var parameters := ParametersField(obj);
    if model.Err? then Err(model.error)
    else if maxTokens.Err? then Err(maxTokens.error)
    else if parameters.Err? then Err(parameters.error)
    else Ok(OpenAIConfig(model.value, maxTokens.value, parameters.value))
  }

  /** The derived `Deserialize` of `MockConfig`: absent counters take the serde defaults 100/1000/500. */
  function DecodeMock(obj: map<string, Value>): (r: Result<MockConfig>)
    ensures r.Ok? <==> (ParametersOrAbsent(obj) && U32OrAbsent(obj, "requests_per_minute")
                        && U32OrAbsent(obj, "tokens_per_minute") && U32OrAbsent(obj, "input_tokens_per_minute"))
    ensures r.Ok? ==> (r.value.requestsPerMinute ==
                       if "requests_per_minute" in obj then obj["requests_per_minute"].n else DEFAULT_MOCK_REQUESTS)
    ensures r.Ok? ==> (r.value.tokensPerMinute ==
                       if "tokens_per_minute" in obj then obj["tokens_per_minute"].n else DEFAULT_MOCK_TOKENS)
    ensures r.Ok? ==> (r.value.inputTokensPerMinute ==
                       if "input_tokens_per_minute" in obj then obj["input_tokens_per_minute"].n else DEFAULT_MOCK_INPUT_TOKENS)
    ensures r.Ok? && "parameters" !in obj ==> r.value.parameters == map[]
    ensures r.Ok? ==> ParametersField(obj).Ok? && r.value.parameters == ParametersField(obj).value
  {
    var parameters := ParametersField(obj);
    var requests := U32Field(obj, "requests_per_minute", DEFAULT_MOCK_REQUESTS);
    var tokens := U32Field(obj, "tokens_per_minute", DEFAULT_MOCK_TOKENS);
    var inputTokens := U32Field(obj, "input_tokens_per_minute", DEFAULT_MOCK_INPUT_TOKENS);
    if parameters.Err? then Err(parameters.error)
    else if requests.Err? then Err(requests.error)
    else if tokens.Err? then Err(tokens.error)
    else if inputTokens.Err? then Err(inputTokens.error)
    else Ok(MockConfig(parameters.value, requests.value, tokens.value, inputTokens.value))
  }

  /** The optional `parameters` entry: written only when the map is non-empty. */
  function WithParameters(m: map<string, Value>, p: map<string, string>): (r: map<string, Value>)
    requires "parameters" !in m
    ensures r.Keys == m.Keys + (if |p| == 0 then {} else {"parameters"})
    ensures forall k :: k in m ==> r[k] == m[k]
    ensures |p| != 0 ==> r["parameters"] == EncodeParameters(p)
  {
    if |p| == 0 then m else m["parameters" := EncodeParameters(p)]
  }

  /** The fixed entries `serialize` writes for the Anthropic and OpenAI variants. */
  function ModelEntries(tag: string, model: string, maxTokens: u32): (m: map<string, Value>)
    ensures m.Keys == {"type", "model", "max_tokens"}
    ensures m["type"] == Str(tag) && m["model"] == Str(model) && m["max_tokens"] == Num(maxTokens)
  {
    map["type" := Str(tag), "model" := Str(model), "max_tokens" := Num(maxTokens)]
  }

  /** `Serialize for ProviderConfig`: a flat map with a `"type"` tag. */
  function Serialize(c: ProviderConfig): (m: map<string, Value>)
    ensures "type" in m && m["type"] == Str(Name(c))
    ensures "parameters" in m <==> |Parameters(c)| != 0
    ensures "parameters" in m ==> m["parameters"] == EncodeParameters(Parameters(c))
    ensures !c.Mock? ==> m.Keys == {"type", "model", "max_tokens"} + (if |Parameters(c)| == 0 then {} else {"parameters"})
    ensures !c.Mock? ==> m["model"] == Str(Model(c)) && m["max_tokens"] == Num(MaxTokens(c))
    ensures c.Mock? ==> m.Keys == {"type"} + (if |Parameters(c)| == 0 then {} else {"parameters"})
  {
    match c
    case Anthropic(cfg) => WithParameters(ModelEntries("anthropic", cfg.model, cfg.maxTokens), cfg.parameters)
    case OpenAI(cfg) => WithParameters(ModelEntries("openai", cfg.model, cfg.maxTokens), cfg.parameters)
    case Mock(cfg) => WithParameters(map["type" := Str("mock")], cfg.parameters)
  }

  function Parameters(c: ProviderConfig): map<string, string> {
    match c
    case Anthropic(cfg) => cfg.parameters
    case OpenAI(cfg) => cfg.parameters
    case Mock(cfg) => cfg.parameters
  }

  /** `Deserialize for ProviderConfig`: removes `"type"` and decodes the rest as the named variant. */
  function Deserialize(m: map<string, Value>): (r: Result<ProviderConfig>)
    ensures "type" !in m ==> r == Err("missing field `type`")
    ensures "type" in m && !m["type"].Str? ==> r == Err("type field is not a string")
    ensures "type" in m && m["type"].Str? && m["type"].s !in {"anthropic", "openai", "mock"} ==>
      r == Err("unknown provider type: " + m["type"].s)
    ensures r.Ok? ==> "type" in m && m["type"] == Str(Name(r.value))
    // A known tag decodes the remaining entries as that variant.
    ensures "type" in m && m["type"] == Str("anthropic") ==>
      (r.Ok? <==> DecodeAnthropic(m - {"type"}).Ok?) && (r.Ok? ==> r.value == Anthropic(DecodeAnthropic(m - {"type"}).value))
    ensures "type" in m && m["type"] == Str("openai") ==>
      (r.Ok? <==> DecodeOpenAI(m - {"type"}).Ok?) && (r.Ok? ==> r.value == OpenAI(DecodeOpenAI(m - {"type"}).value))
    ensures "type" in m && m["type"] == Str("mock") ==>
      (r.Ok? <==> DecodeMock(m - {"type"}).Ok?) && (r.Ok? ==> r.value == Mock(DecodeMock(m - {"type"}).value))
  {
    if "type" !in m then Err("missing field `type`")
    else
      var typeValue := m["type"];
      var rest := m - {"type"};
      if !typeValue.Str? then Err("type field is not a string")
      else if typeValue.s == "anthropic" then
        var cfg := DecodeAnthropic(rest);
        if cfg.Ok? then Ok(Anthropic(cfg.value)) else Err(cfg.error)
      else if typeValue.s == "openai" then
        var cfg := DecodeOpenAI(rest);
        if cfg.Ok? then Ok(OpenAI(cfg.value)) else Err(cfg.error)
      else if typeValue.s == "mock" then
        var cfg := DecodeMock(rest);
        if cfg.Ok? then Ok(Mock(cfg.value)) else Err(cfg.error)
      else Err("unknown provider type: " + typeValue.s)
  }

  /** `parameters` decodes to `p` from any map that holds exactly what `serialize` writes for it. */
  lemma ParametersFieldFrom(obj: map<string, Value>, p: map<string, string>)
    requires "parameters" in obj <==> |p| != 0
    requires "parameters" in obj ==> obj["parameters"] == EncodeParameters(p)
    ensures ParametersField(obj) == Ok(p)
  {
    if |p| == 0 {
      assert p == map[];
    } else {
      ParametersRoundTrip(p);
    }
  }

  /** Anthropic values survive the round trip through the map encoding. */
  lemma RoundTripAnthropic(cfg: AnthropicConfig)
    ensures Deserialize(Serialize(Anthropic(cfg))) == Ok(Anthropic(cfg))
  {
    var rest := Serialize(Anthropic(cfg)) - {"type"};
    ParametersFieldFrom(rest, cfg.parameters);
    assert DecodeAnthropic(rest) == Ok(cfg);
  }

  /** OpenAI values survive the round trip through the map encoding. */
  lemma RoundTripOpenAI(cfg: OpenAIConfig)
    ensures Deserialize(Serialize(OpenAI(cfg))) == Ok(OpenAI(cfg))
  {
    var rest := Serialize(OpenAI(cfg)) - {"type"};
    ParametersFieldFrom(rest, cfg.parameters);
    assert DecodeOpenAI(rest) == Ok(cfg);
  }

  /** A mock keeps its variant and parameters through the round trip, but its counters are not
      written, so they come back as the serde defaults 100/1000/500. */
  lemma RoundTripMock(cfg: MockConfig)
    ensures Deserialize(Serialize(Mock(cfg))) ==
      Ok(Mock(MockConfig(cfg.parameters, DEFAULT_MOCK_REQUESTS, DEFAULT_MOCK_TOKENS, DEFAULT_MOCK_INPUT_TOKENS)))
  {
    var rest := Serialize(Mock(cfg)) - {"type"};
    ParametersFieldFrom(rest, cfg.parameters);
    assert "requests_per_minute" !in rest && "tokens_per_minute" !in rest && "input_tokens_per_minute" !in rest;
  }

  /** The round trip is not the identity on mocks: the derived default mock does not come back. */
  lemma MockRoundTripIsLossy()
    ensures Deserialize(Serialize(Mock(DefaultMockConfig()))) != Ok(Mock(DefaultMockConfig()))
  {
    RoundTripMock(DefaultMockConfig());
  }

  /** A bare tag decodes to the variant's serde defaults: claude-2/1000, gpt-4/2000, and a mock with
      limits 100/1000/500, all without parameters. */
  lemma DeserializeBareTag()
    ensures Deserialize(map["type" := Str("anthropic")]) == Ok(Anthropic(DefaultAnthropicConfig()))
    ensures Deserialize(map["type" := Str("openai")]) == Ok(OpenAI(DefaultOpenAIConfig()))
    ensures Deserialize(map["type" := Str("mock")]) ==
      Ok(Mock(MockConfig(map[], DEFAULT_MOCK_REQUESTS, DEFAULT_MOCK_TOKENS, DEFAULT_MOCK_INPUT_TOKENS)))
  {
    var empty: map<string, Value> := map[];
    assert map["type" := Str("anthropic")] - {"type"} == empty;
    assert map["type" := Str("openai")] - {"type"} == empty;
    assert map["type" := Str("mock")] - {"type"} == empty;
  }
}
