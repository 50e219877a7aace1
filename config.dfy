/** Application settings: the two normalising validators, the numeric
    bounds, the defaults, and the environment predicates. */
module Config {
  import opened Outcomes
  import opened PyText

  const ALLOWED_ENVIRONMENTS: seq<string> := ["development", "staging", "production"]
  const VALID_LOG_LEVELS: seq<string> := ["DEBUG", "INFO", "WARNING", "ERROR", "CRITICAL"]
  const APP_ENV_ERROR := "app_env must be one of ['development', 'staging', 'production']"
  const LOG_LEVEL_ERROR := "log_level must be one of ['DEBUG', 'INFO', 'WARNING', 'ERROR', 'CRITICAL']"

  /** The fields that carry a rule, in declaration order: `app_env`,
      `qwen_api_key`, `llm_temperature`, `llm_max_tokens`, `llm_timeout`,
      `rate_limit_per_minute`, `log_level`. */
  datatype Field = AppEnv | QwenApiKey | LlmTemperature | LlmMaxTokens | LlmTimeout | RateLimitPerMinute | LogLevel

  const DEFAULT_APP_ENV := "development"
  const DEFAULT_API_BASE := "https://dashscope.aliyuncs.com/compatible-mode/v1"
  const DEFAULT_MODEL := "qwen-turbo"
  const DEFAULT_TEMPERATURE: real := 0.3
  const DEFAULT_MAX_TOKENS := 2000
  const DEFAULT_TIMEOUT_MS := 30000
  const DEFAULT_RATE_LIMIT := 60
  const DEFAULT_LOG_LEVEL := "INFO"

  /** The validated settings the service reads. */
  datatype Settings = Settings(
    appEnv: string,
    qwenApiKey: string,
    qwenApiBase: string,
    qwenModel: string,
    llmTemperature: real,
    llmMaxTokens: int,
    llmTimeout: int,          // milliseconds
    rateLimitPerMinute: int,
    logLevel: string)

  /** The values supplied for each field; `None` where none was supplied. */
  datatype SettingsInput = SettingsInput(
    appEnv: Option<string>,
    qwenApiKey: Option<string>,
    qwenApiBase: Option<string>,
    qwenModel: Option<string>,
    llmTemperature: Option<real>,
    llmMaxTokens: Option<int>,
    llmTimeout: Option<int>,
    rateLimitPerMinute: Option<int>,
    logLevel: Option<string>)

  /** `validate_app_env`: accepted when its lower-case form is an allowed
      environment, and stored lower-cased. */
  function ValidateAppEnv(v: string): (r: Result<string, string>)
    ensures r.Success? <==> Lower(v) in ALLOWED_ENVIRONMENTS
    ensures r.Success? ==> r.value == Lower(v) && r.value in ALLOWED_ENVIRONMENTS
    ensures r.Failure? ==> r.error == APP_ENV_ERROR
  {
    if Lower(v) !in ALLOWED_ENVIRONMENTS then Failure(APP_ENV_ERROR) else Success(Lower(v))
  }

  /** `validate_log_level`: accepted when its upper-case form is a logging
      level, and stored upper-cased. */
  function ValidateLogLevel(v: string): (r: Result<string, string>)
    ensures r.Success? <==> Upper(v) in VALID_LOG_LEVELS
    ensures r.Success? ==> r.value == Upper(v) && r.value in VALID_LOG_LEVELS
    ensures r.Failure? ==> r.error == LOG_LEVEL_ERROR
  {
    if Upper(v) !in VALID_LOG_LEVELS then Failure(LOG_LEVEL_ERROR) else Success(Upper(v))
  }

  /** Validating an already normalised environment changes nothing. */
  lemma {:induction false} ValidateAppEnvIdempotent(v: string)
    requires ValidateAppEnv(v).Success?
    ensures ValidateAppEnv(ValidateAppEnv(v).value) == ValidateAppEnv(v)
  {
    LowerIdempotent(v);
  }

  /** Validating an already normalised level changes nothing. */
  lemma {:induction false} ValidateLogLevelIdempotent(v: string)
    requires ValidateLogLevel(v).Success?
    ensures ValidateLogLevel(ValidateLogLevel(v).value) == ValidateLogLevel(v)
  {
    UpperIdempotent(v);
  }

  /** Everything a loaded settings record satisfies. */
  predicate Valid(s: Settings)
  {
    && s.appEnv in ALLOWED_ENVIRONMENTS
    && s.logLevel in VALID_LOG_LEVELS
    && 0.0 <= s.llmTemperature <= 2.0
    && s.llmMaxTokens > 0
    && s.llmTimeout > 0
    && s.rateLimitPerMinute > 0
  }

  function StringOr(v: Option<string>, default: string): string
  {
    if v.Some? then v.value else default
  }

  function IntOr(v: Option<int>, default: int): int
  {
    if v.Some? then v.value else default
  }

  /** Whether the supplied value of field `f` fails its check (the API key
      is required; defaults are not checked). */
  predicate Fails(input: SettingsInput, f: Field)
  {
    match f
    case AppEnv => input.appEnv.Some? && ValidateAppEnv(input.appEnv.value).Failure?
    case QwenApiKey => input.qwenApiKey.None?
    case LlmTemperature => input.llmTemperature.Some? && !(0.0 <= input.llmTemperature.value <= 2.0)
    case LlmMaxTokens => input.llmMaxTokens.Some? && input.llmMaxTokens.value <= 0
    case LlmTimeout => input.llmTimeout.Some? && input.llmTimeout.value <= 0
    case RateLimitPerMinute => input.rateLimitPerMinute.Some? && input.rateLimitPerMinute.value <= 0
    case LogLevel => input.logLevel.Some? && ValidateLogLevel(input.logLevel.value).Failure?
  }

  /** Every field with a rule, in declaration order. */
  const FIELDS: seq<Field> := [AppEnv, QwenApiKey, LlmTemperature, LlmMaxTokens, LlmTimeout, RateLimitPerMinute, LogLevel]

  /** `FIELDS` lists every field. */
  lemma {:induction false} AllFieldsListed()
    ensures forall f: Field :: f in FIELDS
  {
    forall f: Field ensures f in FIELDS {
      var i := if f.AppEnv? then 0 else if f.QwenApiKey? then 1 else if f.LlmTemperature? then 2
        else if f.LlmMaxTokens? then 3 else if f.LlmTimeout? then 4 else if f.RateLimitPerMinute? then 5 else 6;
      assert FIELDS[i] == f;
    }
  }

  /** The fields among `fs` that fail their check, in the order of `fs`. */
  function FailingAmong(input: SettingsInput, fs: seq<Field>): (failing: seq<Field>)
    ensures forall f :: f in failing <==> f in fs && Fails(input, f)
  {
    if fs == [] then []
    else (if Fails(input, fs[0]) then [fs[0]] else []) + FailingAmong(input, fs[1..])
  }

  /** The supplied fields that fail their check, in declaration order. */
  function InvalidFields(input: SettingsInput): (fields: seq<Field>)
    ensures forall f :: f in fields <==> Fails(input, f)
  {
    AllFieldsListed();
    FailingAmong(input, FIELDS)
  }

  /** `Settings()`: every field validated, normalised or defaulted; on any
      failure, the list of the fields that failed. */
  function LoadSettings(input: SettingsInput): (r: Result<Settings, seq<Field>>)
    ensures r.Success? <==> InvalidFields(input) == []
    ensures r.Failure? ==> r.error == InvalidFields(input)
    ensures r.Success? ==> Valid(r.value)
    ensures r.Failure? ==> r.error != []
    ensures input.qwenApiKey.None? ==> r.Failure?
    ensures r.Success? ==> r.value.qwenApiKey == input.qwenApiKey.value
    ensures r.Success? ==>
      r.value.qwenApiBase == (if input.qwenApiBase.Some? then input.qwenApiBase.value else DEFAULT_API_BASE)
    ensures r.Success? ==>
      r.value.qwenModel == (if input.qwenModel.Some? then input.qwenModel.value else DEFAULT_MODEL)
    ensures r.Success? ==>
      r.value.llmTemperature == (if input.llmTemperature.Some? then input.llmTemperature.value else DEFAULT_TEMPERATURE)
    ensures r.Success? ==>
      r.value.llmMaxTokens == (if input.llmMaxTokens.Some? then input.llmMaxTokens.value else DEFAULT_MAX_TOKENS)
    ensures r.Success? ==>
      r.value.llmTimeout == (if input.llmTimeout.Some? then input.llmTimeout.value else DEFAULT_TIMEOUT_MS)
    ensures r.Success? ==>
      r.value.rateLimitPerMinute ==
        (if input.rateLimitPerMinute.Some? then input.rateLimitPerMinute.value else DEFAULT_RATE_LIMIT)
    ensures r.Success? && input.appEnv.None? ==> r.value.appEnv == DEFAULT_APP_ENV
    ensures r.Success? && input.logLevel.None? ==> r.value.logLevel == DEFAULT_LOG_LEVEL
    ensures r.Success? && input.appEnv.Some? ==> r.value.appEnv == Lower(input.appEnv.value)
    ensures r.Success? && input.logLevel.Some? ==> r.value.logLevel == Upper(input.logLevel.value)
    ensures input.llmMaxTokens.Some? && input.llmMaxTokens.value <= 0 ==> r.Failure?
    ensures input.llmTimeout.Some? && input.llmTimeout.value <= 0 ==> r.Failure?
    ensures input.rateLimitPerMinute.Some? && input.rateLimitPerMinute.value <= 0 ==> r.Failure?
    ensures input.llmTemperature.Some? && !(0.0 <= input.llmTemperature.value <= 2.0) ==> r.Failure?
    ensures input.appEnv.Some? && ValidateAppEnv(input.appEnv.value).Failure? ==> r.Failure?
    ensures input.logLevel.Some? && ValidateLogLevel(input.logLevel.value).Failure? ==> r.Failure?
  {
    var errors := InvalidFields(input);
    assert && (Fails(input, AppEnv) <==> AppEnv in errors)
           && (Fails(input, QwenApiKey) <==> QwenApiKey in errors)
           && (Fails(input, LlmTemperature) <==> LlmTemperature in errors)
           && (Fails(input, LlmMaxTokens) <==> LlmMaxTokens in errors)
           && (Fails(input, LlmTimeout) <==> LlmTimeout in errors)
           && (Fails(input, RateLimitPerMinute) <==> RateLimitPerMinute in errors)
           && (Fails(input, LogLevel) <==> LogLevel in errors);
    if errors != [] then Failure(errors)
    else
      Success(Settings(
        appEnv := if input.appEnv.Some? then ValidateAppEnv(input.appEnv.value).value else DEFAULT_APP_ENV,
        qwenApiKey := input.qwenApiKey.value,
        qwenApiBase := StringOr(input.qwenApiBase, DEFAULT_API_BASE),
        qwenModel := StringOr(input.qwenModel, DEFAULT_MODEL),
        llmTemperature := if input.llmTemperature.Some? then input.llmTemperature.value else DEFAULT_TEMPERATURE,
        llmMaxTokens := IntOr(input.llmMaxTokens, DEFAULT_MAX_TOKENS),
        llmTimeout := IntOr(input.llmTimeout, DEFAULT_TIMEOUT_MS),
        rateLimitPerMinute := IntOr(input.rateLimitPerMinute, DEFAULT_RATE_LIMIT),
        logLevel := if input.logLevel.Some? then ValidateLogLevel(input.logLevel.value).value else DEFAULT_LOG_LEVEL))
  }

  /** `is_development` */
  predicate IsDevelopment(s: Settings) { s.appEnv == "development" }

  /** `is_production` */
  predicate IsProduction(s: Settings) { s.appEnv == "production" }

  /** A loaded settings record names exactly one environment. */
  lemma {:induction false} EnvironmentExclusive(s: Settings)
    requires Valid(s)
    ensures !(IsDevelopment(s) && IsProduction(s))
    ensures IsDevelopment(s) || IsProduction(s) || s.appEnv == "staging"
  {
  }
}
