/**
 * What every LLM provider shares: the provider enumeration, the
 * configuration record with its defaults, the configuration summary, the
 * API-key lookup (configuration first, then the environment) and the keyword
 * arguments handed to the chat client.
 */
module ProviderBase {
  import opened Wrappers
  import opened Errors

  /** `ProviderType`, whose values are the lower-case names. */
  datatype ProviderType = OpenAI | Anthropic
  {
    /** The enum member's `.value`. */
    function Value(): string
    {
      match this
      case OpenAI => "openai"
      case Anthropic => "anthropic"
    }

    /** `str()` of the enum member, as used in error messages. */
    function Name(): string
    {
      match this
      case OpenAI => "ProviderType.OPENAI"
      case Anthropic => "ProviderType.ANTHROPIC"
    }
  }

  /** `ProviderType(s)`: the member whose value is exactly `s`, or `None` for the `ValueError`. */
  function ParseValue(s: string): (p: Option<ProviderType>)
    ensures p.Some? <==> s == "openai" || s == "anthropic"
    ensures p.Some? ==> p.value.Value() == s
  {
    if s == "openai" then Some(OpenAI)
    else if s == "anthropic" then Some(Anthropic)
    else None
  }

  /** Every member is recovered from its value, and distinct members have distinct values. */
  lemma ValueRoundTrip(p: ProviderType, q: ProviderType)
    ensures ParseValue(p.Value()) == Some(p)
    ensures p.Value() == q.Value() ==> p == q
  {
  }

  /** A value in `extra_params` (any JSON-like scalar) or in the client's keyword arguments. */
  datatype Setting = Text(s: string) | Real(x: real) | Integer(i: int) | Flag(b: bool)

  /**
   * `LLMConfig` after `__post_init__`: `extra_params` is always a dictionary,
   * never `None`.
   */
  datatype LLMConfig = LLMConfig(
    provider: ProviderType,
    model: string,
    apiKey: Option<string>,
    temperature: real,
    maxTokens: Option<int>,
    timeout: int,
    maxRetries: int,
    extraParams: map<string, Setting>)

  /** The dataclass constructor with its defaults, followed by `__post_init__`. */
  function NewLLMConfig(provider: ProviderType, model: string, apiKey: Option<string> := None,
                        temperature: real := 0.1, maxTokens: Option<int> := None, timeout: int := 30,
                        maxRetries: int := 2, extraParams: Option<map<string, Setting>> := None): (c: LLMConfig)
    ensures c.provider == provider && c.model == model && c.apiKey == apiKey
    ensures c.temperature == temperature && c.maxTokens == maxTokens
    ensures c.timeout == timeout && c.maxRetries == maxRetries
    ensures extraParams.None? ==> c.extraParams == map[]
    ensures extraParams.Some? ==> c.extraParams == extraParams.value
  {
    LLMConfig(provider, model, apiKey, temperature, maxTokens, timeout, maxRetries,
              if extraParams.Some? then extraParams.value else map[])
  }

  /** A configuration given only a provider and a model takes the documented defaults. */
  lemma NewLLMConfigDefaults(provider: ProviderType, model: string)
    ensures NewLLMConfig(provider, model) == LLMConfig(provider, model, None, 0.1, None, 30, 2, map[])
  {
  }

  /** The dictionary `get_config_summary` returns. */
  datatype ConfigSummary = ConfigSummary(
    provider: string, model: string, temperature: real, maxTokens: Option<int>, timeout: int, maxRetries: int)

  /** `LLMProvider.get_config_summary`: the configuration without its key and extra parameters. */
  function GetConfigSummary(c: LLMConfig): (s: ConfigSummary)
    ensures ParseValue(s.provider) == Some(c.provider)
    ensures s.model == c.model && s.temperature == c.temperature && s.maxTokens == c.maxTokens
    ensures s.timeout == c.timeout && s.maxRetries == c.maxRetries
  {
    ValueRoundTrip(c.provider, c.provider);
    ConfigSummary(c.provider.Value(), c.model, c.temperature, c.maxTokens, c.timeout, c.maxRetries)
  }

  /** The summary never exposes the API key or the extra parameters: configurations differing only there summarise alike. */
  lemma SummaryHidesSecrets(c: LLMConfig, apiKey: Option<string>, extras: map<string, Setting>)
    ensures GetConfigSummary(c.(apiKey := apiKey, extraParams := extras)) == GetConfigSummary(c)
  {
  }

  /** Environment variables, passed in explicitly. */
  type Env = map<string, string>

  /** `os.getenv(name)`. */
  function GetEnv(env: Env, name: string): Option<string>
  {
    if name in env then Some(env[name]) else None
  }

  /** Python truthiness of an optional string: present and non-empty. */
  predicate Truthy(s: Option<string>)
  {
    s.Some? && s.value != ""
  }

  /** `config.api_key or os.getenv(variable)`: a non-empty configured key wins, otherwise the environment's. */
  function ResolveApiKey(c: LLMConfig, env: Env, variable: string): (key: Option<string>)
    ensures Truthy(c.apiKey) ==> key == c.apiKey
    ensures !Truthy(c.apiKey) ==> key == GetEnv(env, variable)
  {
    if Truthy(c.apiKey) then c.apiKey else GetEnv(env, variable)
  }

  /** A usable key exists exactly when the configured key or the environment variable is non-empty. */
  lemma ResolveApiKeyTruthy(c: LLMConfig, env: Env, variable: string)
    ensures Truthy(ResolveApiKey(c, env, variable)) <==> Truthy(c.apiKey) || (variable in env && env[variable] != "")
  {
  }

  /** The keyword arguments every client receives before the optional ones. */
  function BaseKwargs(c: LLMConfig, keyName: string, key: string): map<string, Setting>
  {
    map["model" := Text(c.model), "temperature" := Real(c.temperature), "timeout" := Integer(c.timeout),
        "max_retries" := Integer(c.maxRetries), keyName := Text(key)]
  }

  /** Python truthiness of `max_tokens`: present and non-zero. */
  predicate HasMaxTokens(c: LLMConfig)
  {
    c.maxTokens.Some? && c.maxTokens.value != 0
  }

  /**
   * The client's keyword arguments: the base ones, `max_tokens` when set,
   * then `extra_params` applied last.
   */
  function ClientKwargs(c: LLMConfig, keyName: string, key: string): map<string, Setting>
  {
    var withTokens := if HasMaxTokens(c) then BaseKwargs(c, keyName, key)["max_tokens" := Integer(c.maxTokens.value)]
                      else BaseKwargs(c, keyName, key);
    withTokens + c.extraParams
  }

  /** The keys are the base ones, `max_tokens` exactly when set, and the extra parameters' keys. */
  lemma ClientKwargsKeys(c: LLMConfig, keyName: string, key: string)
    ensures ClientKwargs(c, keyName, key).Keys ==
      {"model", "temperature", "timeout", "max_retries", keyName}
      + (if HasMaxTokens(c) then {"max_tokens"} else {}) + c.extraParams.Keys
  {
  }

  /** Extra parameters override everything; other keys carry the configuration's values. */
  lemma ClientKwargsValues(c: LLMConfig, keyName: string, key: string)
    requires keyName == "api_key" || keyName == "anthropic_api_key"
    ensures forall k :: k in c.extraParams ==> ClientKwargs(c, keyName, key)[k] == c.extraParams[k]
    ensures keyName !in c.extraParams ==> ClientKwargs(c, keyName, key)[keyName] == Text(key)
    ensures "model" !in c.extraParams ==> ClientKwargs(c, keyName, key)["model"] == Text(c.model)
    ensures "temperature" !in c.extraParams ==>
      ClientKwargs(c, keyName, key)["temperature"] == Real(c.temperature)
    ensures HasMaxTokens(c) && "max_tokens" !in c.extraParams ==>
      ClientKwargs(c, keyName, key)["max_tokens"] == Integer(c.maxTokens.value)
    ensures "timeout" !in c.extraParams ==> ClientKwargs(c, keyName, key)["timeout"] == Integer(c.timeout)
    ensures "max_retries" !in c.extraParams ==> ClientKwargs(c, keyName, key)["max_retries"] == Integer(c.maxRetries)
  {
  }

  /**
   * The in-place assembly shared by both providers' `_initialize_client`:
   * the literal dictionary, then `max_tokens`, then `update(extra_params)`.
   */
  method BuildClientKwargs(c: LLMConfig, keyName: string, key: string) returns (kwargs: map<string, Setting>)
    ensures kwargs == ClientKwargs(c, keyName, key)
  {
    kwargs := map["model" := Text(c.model), "temperature" := Real(c.temperature), "timeout" := Integer(c.timeout),
                  "max_retries" := Integer(c.maxRetries), keyName := Text(key)];
    if c.maxTokens.Some? && c.maxTokens.value != 0 {
      kwargs := kwargs["max_tokens" := Integer(c.maxTokens.value)];
    }
    if c.extraParams != map[] {
      kwargs := kwargs + c.extraParams;
    } else {
      assert kwargs + c.extraParams == kwargs;
    }
  }

  /** The chat client a provider constructs: which library class, with which keyword arguments. */
  datatype ChatClient = ChatClient(kind: ProviderType, kwargs: map<string, Setting>)

  /**
   * `validate_api_key`, written the same way in both providers: the key
   * resolved from the config or from `variable` is present and non-empty.
   */
  function KeyAvailable(c: LLMConfig, env: Env, variable: string): (ok: bool)
    ensures ok <==> Truthy(c.apiKey) || (variable in env && env[variable] != "")
  {
    ResolveApiKeyTruthy(c, env, variable);
    var key := ResolveApiKey(c, env, variable);
    key.Some? && |key.value| > 0
  }

  /**
   * `_initialize_client`, written the same way in both providers: without a
   * usable key a `ValueError` with the provider's message; otherwise a client
   * of class `kind` given the key under `keyArgument`.
   */
  method InitializeChatClient(kind: ProviderType, c: LLMConfig, env: Env, variable: string, keyArgument: string,
                              missingKey: string) returns (r: Result<ChatClient, Error>)
    ensures r.Success? <==> KeyAvailable(c, env, variable)
    ensures r.Failure? ==> r.error == ValueError(missingKey)
    ensures r.Success? ==> r.value == ChatClient(kind, ClientKwargs(c, keyArgument, ResolveApiKey(c, env, variable).value))
  {
    var key := ResolveApiKey(c, env, variable);
    if !Truthy(key) {
      return Failure(ValueError(missingKey));
    }
    var kwargs := BuildClientKwargs(c, keyArgument, key.value);
    r := Success(ChatClient(kind, kwargs));
  }

  /** What `get_model_info` reports. */
  datatype ModelInfo = ModelInfo(provider: string, model: string, supportsFunctions: bool,
                                 contextWindow: nat, pricingTier: string)
}
