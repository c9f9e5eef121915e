/**
 * A provider object: its kind (the concrete provider class), its
 * configuration, and the chat client it creates on first use and caches.
 */
module Providers {
  import opened Wrappers
  import opened Errors
  import opened ProviderBase
  import OpenAIModels
  import AnthropicModels

  /** The environment variable each provider reads its key from. */
  function ApiKeyVariable(kind: ProviderType): string
  {
    match kind
    case OpenAI => OpenAIModels.ApiKeyVariable
    case Anthropic => AnthropicModels.ApiKeyVariable
  }

  /** The keyword under which each provider passes the key to its client. */
  function KeyArgument(kind: ProviderType): string
  {
    match kind
    case OpenAI => OpenAIModels.KeyArgument
    case Anthropic => AnthropicModels.KeyArgument
  }

  /** The message of each provider's missing-key `ValueError`. */
  function MissingKeyMessage(kind: ProviderType): string
  {
    match kind
    case OpenAI => OpenAIModels.MissingKeyMessage
    case Anthropic => AnthropicModels.MissingKeyMessage
  }

  class LLMProvider {
    /** Which concrete provider class this object is. */
    const kind: ProviderType
    const config: LLMConfig
    /** `_client`, `None` until the client is first requested. */
    var cachedClient: Option<ChatClient>
    /** How many times `_initialize_client` has run. */
    ghost var initialisations: nat

    /** `LLMProvider.__init__`, reached only after the concrete class has checked the provider type. */
    constructor (kind: ProviderType, config: LLMConfig)
      requires config.provider == kind
      ensures this.kind == kind && this.config == config
      ensures cachedClient == None && initialisations == 0
    {
      this.kind := kind;
      this.config := config;
      cachedClient := None;
      initialisations := 0;
    }

    /** The concrete class's `validate_api_key`. */
    function ValidateApiKey(env: Env): (ok: bool)
      ensures ok <==> Truthy(config.apiKey) || (ApiKeyVariable(kind) in env && env[ApiKeyVariable(kind)] != "")
    {
      KeyAvailable(config, env, ApiKeyVariable(kind))
    }

    /** The concrete class's `get_model_info`. */
    function GetModelInfo(): (info: ModelInfo)
      ensures info.model == config.model && info.supportsFunctions
      ensures kind == OpenAI ==> info.provider == "OpenAI" && info.contextWindow == OpenAIModels.ContextWindow(config.model)
      ensures kind == OpenAI ==> info.pricingTier == OpenAIModels.PricingTier(config.model)
      ensures kind == Anthropic ==> info.provider == "Anthropic" && info.contextWindow == AnthropicModels.ContextWindow(config.model)
      ensures kind == Anthropic ==> info.pricingTier == AnthropicModels.PricingTier(config.model)
    {
      match kind
      case OpenAI => OpenAIModels.GetModelInfo(config)
      case Anthropic => AnthropicModels.GetModelInfo(config)
    }

    /** The concrete class's `_initialize_client`. */
    method InitializeClient(env: Env) returns (r: Result<ChatClient, Error>)
      ensures r.Success? <==> ValidateApiKey(env)
      ensures r.Success? ==>
        r.value == ChatClient(kind, ClientKwargs(config, KeyArgument(kind), ResolveApiKey(config, env, ApiKeyVariable(kind)).value))
      ensures r.Failure? ==> r.error == ValueError(MissingKeyMessage(kind))
    {
      r := InitializeChatClient(kind, config, env, ApiKeyVariable(kind), KeyArgument(kind), MissingKeyMessage(kind));
    }

    /**
     * The `client` property: the cached client if there is one; otherwise
     * one initialisation, whose client is cached when it succeeds.
     */
    method Client(env: Env) returns (r: Result<ChatClient, Error>)
      modifies this
      ensures old(cachedClient).Some? ==>
        r == Success(old(cachedClient).value) && cachedClient == old(cachedClient) && initialisations == old(initialisations)
      ensures old(cachedClient).None? ==> initialisations == old(initialisations) + 1 && (r.Success? <==> ValidateApiKey(env))
      ensures old(cachedClient).None? && r.Success? ==> cachedClient == Some(r.value)
      ensures old(cachedClient).None? && r.Success? ==>
        r.value == ChatClient(kind, ClientKwargs(config, KeyArgument(kind), ResolveApiKey(config, env, ApiKeyVariable(kind)).value))
      ensures old(cachedClient).None? && r.Failure? ==> cachedClient == None && r.error == ValueError(MissingKeyMessage(kind))
    {
      if cachedClient.Some? {
        return Success(cachedClient.value);
      }
      initialisations := initialisations + 1;
      r := InitializeClient(env);
      if r.Success? {
        cachedClient := Some(r.value);
      }
    }
  }

  /**
   * Asking a fresh provider for its client twice initialises it once: the
   * second request returns the first one's client, whatever the environment
   * says by then.
   */
  method ClientIsCached(p: LLMProvider, env: Env, later: Env) returns (first: Result<ChatClient, Error>, second: Result<ChatClient, Error>)
    requires p.cachedClient == None
    modifies p
    ensures first.Success? ==> second == first && p.initialisations == old(p.initialisations) + 1
    ensures first.Failure? ==> p.initialisations == old(p.initialisations) + 2
  {
    first := p.Client(env);
    second := p.Client(later);
  }

  /**
   * The concrete classes' constructors: `OpenAIProvider(config)` when `kind`
   * is OpenAI, `AnthropicProvider(config)` when it is Anthropic. A
   * configuration for the other provider is refused.
   */
  method NewProvider(kind: ProviderType, config: LLMConfig) returns (r: Result<LLMProvider, Error>)
    ensures config.provider != kind ==> r == Failure(ValueError("Invalid provider type: " + config.provider.Name()))
    ensures config.provider == kind ==>
      r.Success? && fresh(r.value) && r.value.kind == kind && r.value.config == config && r.value.cachedClient == None
  {
    if config.provider != kind {
      return Failure(ValueError("Invalid provider type: " + config.provider.Name()));
    }
    var p := new LLMProvider(kind, config);
    r := Success(p);
  }
}
