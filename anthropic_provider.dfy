/**
 * The Anthropic provider's decision tables: context window and pricing tier
 * by model name, the API-key check, and the client's keyword arguments.
 */
module AnthropicModels {
  import opened Wrappers
  import opened Errors
  import opened Text
  import opened ProviderBase

  const ApiKeyVariable: string := "ANTHROPIC_API_KEY"

  const ContextWindows: map<string, nat> := map[
    "claude-3-5-sonnet-20241022" := 200000, "claude-3-5-haiku-20241022" := 200000,
    "claude-3-opus-20240229" := 200000, "claude-3-sonnet-20240229" := 200000,
    "claude-3-haiku-20240307" := 200000, "claude-2.1" := 200000,
    "claude-2.0" := 100000, "claude-instant-1.2" := 100000]

  /** `_get_context_window`: the table's entry, 200000 for a model it does not list. */
  function ContextWindow(model: string): nat
  {
    if model in ContextWindows then ContextWindows[model] else 200000
  }

  /** Only the two older models have the smaller window of 100000; every other name, listed or not, gets 200000. */
  lemma ContextWindowTwoSizes(model: string)
    ensures ContextWindow(model) == 100000 <==> model == "claude-2.0" || model == "claude-instant-1.2"
    ensures ContextWindow(model) != 100000 ==> ContextWindow(model) == 200000
  {
  }

  /** `_get_pricing_tier`: the first of "haiku", "sonnet", "opus" the name mentions decides. */
  function PricingTier(model: string): string
  {
    if Contains(model, "haiku") then "low-cost"
    else if Contains(model, "sonnet") then "standard"
    else if Contains(model, "opus") then "premium"
    else "standard"
  }

  /**
   * Each tier characterised: low-cost exactly for names mentioning "haiku";
   * premium exactly for names mentioning "opus" but neither "haiku" nor
   * "sonnet"; standard for all the rest.
   */
  lemma PricingTierRules(model: string)
    ensures PricingTier(model) == "low-cost" <==> Contains(model, "haiku")
    ensures PricingTier(model) == "premium" <==>
      !Contains(model, "haiku") && !Contains(model, "sonnet") && Contains(model, "opus")
    ensures PricingTier(model) == "standard" <==>
      !Contains(model, "haiku") && (Contains(model, "sonnet") || !Contains(model, "opus"))
  {
  }

  /** The Claude 3 families: haiku is low-cost, sonnet standard, opus premium. */
  lemma PricingTierExamples()
    ensures PricingTier("claude-3-5-haiku-20241022") == "low-cost"
    ensures PricingTier("claude-3-5-sonnet-20241022") == "standard"
    ensures PricingTier("claude-3-opus-20240229") == "premium"
  {
    assert OccursAt("claude-3-5-haiku-20241022", "haiku", 11);
    MissingCharNotContained("claude-3-5-sonnet-20241022", "haiku", 0);
    assert OccursAt("claude-3-5-sonnet-20241022", "sonnet", 11);
    MissingCharNotContained("claude-3-opus-20240229", "haiku", 0);
    MissingCharNotContained("claude-3-opus-20240229", "sonnet", 2);
    assert OccursAt("claude-3-opus-20240229", "opus", 9);
  }

  const MissingKeyMessage: string :=
    "Anthropic API key is required. Set ANTHROPIC_API_KEY environment variable or provide api_key in config."

  /** `_initialize_client` passes the key to `ChatAnthropic` as `anthropic_api_key`. */
  const KeyArgument: string := "anthropic_api_key"

  /** `get_model_info`. */
  function GetModelInfo(c: LLMConfig): (info: ModelInfo)
    ensures info.provider == "Anthropic" && info.model == c.model && info.supportsFunctions
    ensures info.contextWindow == ContextWindow(c.model) && info.pricingTier == PricingTier(c.model)
    ensures info.contextWindow == 100000 || info.contextWindow == 200000
  {
    ContextWindowTwoSizes(c.model);
    ModelInfo("Anthropic", c.model, true, ContextWindow(c.model), PricingTier(c.model))
  }
}
