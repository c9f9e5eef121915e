/**
 * Choosing and building a provider: parsing the provider name, the default
 * model per provider, reading the choice from the environment, and the
 * catalogue of available providers.
 */
module ProviderFactory {
  import opened Wrappers
  import opened Errors
  import opened Text
  import opened ProviderBase
  import opened Providers
  import OpenAIModels
  import AnthropicModels

  /** `DEFAULT_MODELS`. */
  function DefaultModel(p: ProviderType): string
  {
    match p
    case OpenAI => "gpt-4o-mini"
    case Anthropic => "claude-3-5-sonnet-20241022"
  }

  /** `API_KEY_ENV_VARS`: the variable each provider's client reads its key from. */
  function ApiKeyEnvVar(p: ProviderType): (v: string)
    ensures v == ApiKeyVariable(p)
  {
    match p
    case OpenAI => "OPENAI_API_KEY"
    case Anthropic => "ANTHROPIC_API_KEY"
  }

  /** The `provider_type` argument: a name, or an enum member. */
  datatype ProviderChoice = Named(name: string) | Member(p: ProviderType)

  const SupportedValues: string := "['openai', 'anthropic']"

  /** The first step of `create_provider`: a name is lower-cased and looked up among the enum values. */
  function ResolveProviderType(choice: ProviderChoice): (r: Result<ProviderType, Error>)
    ensures choice.Member? ==> r == Success(choice.p)
    ensures choice.Named? ==> (r.Success? <==> ToLower(choice.name) == "openai" || ToLower(choice.name) == "anthropic")
    ensures choice.Named? && r.Success? ==> r.value.Value() == ToLower(choice.name)
    ensures r.Failure? ==> r.error == ValueError("Unsupported provider: " + choice.name + ". Supported: " + SupportedValues)
  {
    match choice
    case Member(p) => Success(p)
    case Named(name) =>
      match ParseValue(ToLower(name))
      case Some(p) => Success(p)
      case None => Failure(ValueError("Unsupported provider: " + name + ". Supported: " + SupportedValues))
  }

  /** Names are matched regardless of letter case: "OpenAI" and "ANTHROPIC" are accepted. */
  lemma ResolveIgnoresCase()
    ensures ResolveProviderType(Named("OpenAI")) == Success(OpenAI)
    ensures ResolveProviderType(Named("ANTHROPIC")) == Success(Anthropic)
    ensures ResolveProviderType(Named("gemini")).Failure?
  {
    assert ToLower("OpenAI") == "openai";
    assert ToLower("ANTHROPIC") == "anthropic";
    assert ToLower("gemini") == "gemini";
  }

  /** Every member's value resolves back to the member. */
  lemma ResolveValue(p: ProviderType)
    ensures ResolveProviderType(Named(p.Value())) == Success(p)
  {
    match p
    case OpenAI => assert ToLower("openai") == "openai";
    case Anthropic => assert ToLower("anthropic") == "anthropic";
  }

  /**
   * The configuration `create_provider` builds: the resolved provider, the
   * given model or the provider's default, and the remaining settings
   * passed on to `LLMConfig`.
   */
  function CreateConfig(choice: ProviderChoice, model: Option<string>, apiKey: Option<string>,
                        temperature: real, maxTokens: Option<int>, timeout: int, maxRetries: int,
                        extraParams: Option<map<string, Setting>>): (r: Result<LLMConfig, Error>)
    ensures r.Success? <==> ResolveProviderType(choice).Success?
    ensures r.Failure? ==> r.error == ResolveProviderType(choice).error
    ensures r.Success? ==> r.value.provider == ResolveProviderType(choice).value
    ensures r.Success? && model.Some? ==> r.value.model == model.value
    ensures r.Success? && model.None? ==> r.value.model == DefaultModel(r.value.provider)
    ensures r.Success? ==> r.value.apiKey == apiKey && r.value.temperature == temperature && r.value.timeout == timeout
    ensures r.Success? ==> r.value.maxTokens == maxTokens && r.value.maxRetries == maxRetries
    ensures r.Success? ==> r.value.extraParams == if extraParams.Some? then extraParams.value else map[]
  {
    match ResolveProviderType(choice)
    case Failure(e) => Failure(e)
    case Success(p) =>
      var m := if model.Some? then model.value else DefaultModel(p);
      Success(NewLLMConfig(p, m, apiKey, temperature, maxTokens, timeout, maxRetries, extraParams))
  }

  /**
   * `create_provider`: resolve the provider, fill in the default model, and
   * construct the matching provider class with the resulting configuration.
   */
  method CreateProvider(choice: ProviderChoice, model: Option<string> := None, apiKey: Option<string> := None,
                        temperature: real := 0.1, maxTokens: Option<int> := None, timeout: int := 30,
                        maxRetries: int := 2, extraParams: Option<map<string, Setting>> := None)
    returns (r: Result<LLMProvider, Error>)
    ensures var c := CreateConfig(choice, model, apiKey, temperature, maxTokens, timeout, maxRetries, extraParams);
      && (c.Failure? ==> r == Failure(c.error))
      && (c.Success? ==> r.Success? && fresh(r.value) && r.value.kind == c.value.provider
                         && r.value.config == c.value && r.value.cachedClient == None)
  {
    var c := CreateConfig(choice, model, apiKey, temperature, maxTokens, timeout, maxRetries, extraParams);
    if c.Failure? {
      return Failure(c.error);
    }
    r := NewProvider(c.value.provider, c.value);
  }

  /** The configuration `create_provider_from_env` asks for: the provider named in the environment ("openai" if unset) and the model named there, if any. */
  function EnvChoice(env: Env, providerVar: string, modelVar: string): (choice: (ProviderChoice, Option<string>))
    ensures providerVar !in env ==> choice.0 == Named("openai")
    ensures providerVar in env ==> choice.0 == Named(env[providerVar])
    ensures choice.1 == GetEnv(env, modelVar)
  {
    (Named(if providerVar in env then env[providerVar] else "openai"), GetEnv(env, modelVar))
  }

  /** `create_provider_from_env`: `create_provider` with the choice read from the environment. */
  method CreateProviderFromEnv(env: Env, providerVar: string := "DGI_LLM_PROVIDER", modelVar: string := "DGI_LLM_MODEL",
                               apiKey: Option<string> := None, temperature: real := 0.1, maxTokens: Option<int> := None,
                               timeout: int := 30, maxRetries: int := 2, extraParams: Option<map<string, Setting>> := None)
    returns (r: Result<LLMProvider, Error>)
    ensures var (choice, model) := EnvChoice(env, providerVar, modelVar);
      var c := CreateConfig(choice, model, apiKey, temperature, maxTokens, timeout, maxRetries, extraParams);
      && (c.Failure? ==> r == Failure(c.error))
      && (c.Success? ==> r.Success? && fresh(r.value) && r.value.kind == c.value.provider
                         && r.value.config == c.value && r.value.cachedClient == None)
  {
    var (choice, model) := EnvChoice(env, providerVar, modelVar);
    r := CreateProvider(choice, model, apiKey, temperature, maxTokens, timeout, maxRetries, extraParams);
  }

  /** With neither variable set, the environment selects OpenAI with its default model, gpt-4o-mini. */
  lemma EmptyEnvSelectsOpenAI(providerVar: string, modelVar: string)
    ensures var (choice, model) := EnvChoice(map[], providerVar, modelVar);
      CreateConfig(choice, model, None, 0.1, None, 30, 2, None)
        == Success(LLMConfig(OpenAI, "gpt-4o-mini", None, 0.1, None, 30, 2, map[]))
  {
    ResolveValue(OpenAI);
  }

  /** Naming only the provider in the environment gives that provider's default model. */
  lemma EnvProviderDefaultsModel(env: Env, p: ProviderType)
    requires "DGI_LLM_PROVIDER" in env && env["DGI_LLM_PROVIDER"] == p.Value() && "DGI_LLM_MODEL" !in env
    ensures var (choice, model) := EnvChoice(env, "DGI_LLM_PROVIDER", "DGI_LLM_MODEL");
      var c := CreateConfig(choice, model, None, 0.1, None, 30, 2, None);
      c.Success? && c.value.provider == p && c.value.model == DefaultModel(p)
  {
    ResolveValue(p);
  }

  /** One entry of `get_available_providers`. */
  datatype ProviderEntry = ProviderEntry(
    defaultModel: string, apiKeyEnv: string, supportedModels: seq<string>, capabilities: map<string, bool>)

  const Capabilities: map<string, bool> := map["function_calling" := true, "streaming" := true, "vision" := true]

  /** `get_available_providers`, keyed by provider value. */
  function AvailableProviders(): map<string, ProviderEntry>
  {
    map[
      "openai" := ProviderEntry(DefaultModel(OpenAI), ApiKeyEnvVar(OpenAI),
        ["gpt-4o", "gpt-4o-mini", "gpt-4-turbo", "gpt-4", "gpt-3.5-turbo"], Capabilities),
      "anthropic" := ProviderEntry(DefaultModel(Anthropic), ApiKeyEnvVar(Anthropic),
        ["claude-3-5-sonnet-20241022", "claude-3-5-sonnet-20240620", "claude-3-5-haiku-20241022",
         "claude-3-opus-20240229", "claude-3-sonnet-20240229", "claude-3-haiku-20240307"], Capabilities)]
  }

  /**
   * The catalogue lists exactly the provider values; each entry reports that
   * provider's default model and key variable, and lists its default model
   * among the supported ones.
   */
  lemma AvailableProvidersAgree(p: ProviderType)
    ensures AvailableProviders().Keys == {OpenAI.Value(), Anthropic.Value()}
    ensures p.Value() in AvailableProviders()
    ensures AvailableProviders()[p.Value()].defaultModel == DefaultModel(p)
    ensures AvailableProviders()[p.Value()].apiKeyEnv == ApiKeyEnvVar(p)
    ensures DefaultModel(p) in AvailableProviders()[p.Value()].supportedModels
  {
  }

  /** Every supported OpenAI model has its own entry in the context-window table, so none falls back to 4096. */
  lemma SupportedOpenAIModelsHaveWindows(i: nat)
    requires i < |AvailableProviders()["openai"].supportedModels|
    ensures AvailableProviders()["openai"].supportedModels[i] in OpenAIModels.ContextWindows
    ensures OpenAIModels.ContextWindow(AvailableProviders()["openai"].supportedModels[i]) > 4096
  {
  }

  /** Every supported Anthropic model, listed in the window table or not, has the 200000-token window. */
  lemma SupportedAnthropicModelsHaveLargeWindow(i: nat)
    requires i < |AvailableProviders()["anthropic"].supportedModels|
    ensures AnthropicModels.ContextWindow(AvailableProviders()["anthropic"].supportedModels[i]) == 200000
  {
  }

  /** A provider created with defaults reports its default model's window and tier: 128000 and low-cost for OpenAI, 200000 and standard for Anthropic. */
  lemma DefaultModelInfo()
    ensures OpenAIModels.GetModelInfo(NewLLMConfig(OpenAI, DefaultModel(OpenAI)))
      == ModelInfo("OpenAI", "gpt-4o-mini", true, 128000, "low-cost")
    ensures AnthropicModels.GetModelInfo(NewLLMConfig(Anthropic, DefaultModel(Anthropic)))
      == ModelInfo("Anthropic", "claude-3-5-sonnet-20241022", true, 200000, "standard")
  {
    OpenAIModels.PricingTierGpt4o();
    AnthropicModels.PricingTierExamples();
  }
}
