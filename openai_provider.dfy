/**
 * The OpenAI provider's decision tables: context window and pricing tier by
 * model name, the API-key check, and the client's keyword arguments.
 */
module OpenAIModels {
  import opened Wrappers
  import opened Errors
  import opened Text
  import opened ProviderBase

  const ApiKeyVariable: string := "OPENAI_API_KEY"

  const ContextWindows: map<string, nat> := map[
    "gpt-4" := 8192, "gpt-4-turbo" := 128000, "gpt-4o" := 128000, "gpt-4o-mini" := 128000,
    "gpt-3.5-turbo" := 16385, "gpt-3.5-turbo-16k" := 16385]

  /** `_get_context_window`: the table's entry, 4096 for a model it does not list. */
  function ContextWindow(model: string): nat
  {
    if model in ContextWindows then ContextWindows[model] else 4096
  }

  /** The fallback is the smallest window: every listed model has at least 4096 tokens, and only unlisted ones get exactly that. */
  lemma ContextWindowAtLeastFallback(model: string)
    ensures ContextWindow(model) >= 4096
    ensures ContextWindow(model) == 4096 <==> model !in ContextWindows
  {
  }

  /** `_get_pricing_tier`, branch for branch. */
  function PricingTier(model: string): string
  {
    if Contains(model, "mini") || Contains(model, "3.5") then
      if model == "gpt-3.5-turbo" then "standard" else "low-cost"
    else if Contains(model, "4o") then "medium-cost"
    else if model == "gpt-4-turbo" || model == "gpt-4" then "premium"
    else "premium"
  }

  /**
   * The tiers as flat rules: exactly `gpt-3.5-turbo` is standard; any other
   * name mentioning "mini" or "3.5" is low-cost; otherwise a name mentioning
   * "4o" is medium-cost; everything else is premium.
   */
  lemma PricingTierRules(model: string)
    ensures model == "gpt-3.5-turbo" ==> PricingTier(model) == "standard"
    ensures model != "gpt-3.5-turbo" && (Contains(model, "mini") || Contains(model, "3.5")) ==>
      PricingTier(model) == "low-cost"
    ensures !Contains(model, "mini") && !Contains(model, "3.5") && Contains(model, "4o") ==>
      PricingTier(model) == "medium-cost"
    ensures !Contains(model, "mini") && !Contains(model, "3.5") && !Contains(model, "4o") ==>
      PricingTier(model) == "premium"
  {
    if model == "gpt-3.5-turbo" {
      assert OccursAt(model, "3.5", 4);
    }
  }

  /** The mini model is low-cost and gpt-4o medium-cost. */
  lemma PricingTierGpt4o()
    ensures PricingTier("gpt-4o-mini") == "low-cost"
    ensures PricingTier("gpt-4o") == "medium-cost"
  {
    assert OccursAt("gpt-4o-mini", "mini", 7);
    MissingCharNotContained("gpt-4o", "mini", 0);
    MissingCharNotContained("gpt-4o", "3.5", 1);
    assert OccursAt("gpt-4o", "4o", 4);
  }

  /** gpt-4 and gpt-4-turbo are premium; "4o" does not occur in gpt-4-turbo, though both its characters do. */
  lemma PricingTierGpt4()
    ensures PricingTier("gpt-4") == "premium" && PricingTier("gpt-4-turbo") == "premium"
  {
    MissingCharNotContained("gpt-4", "mini", 0);
    MissingCharNotContained("gpt-4", "3.5", 1);
    MissingCharNotContained("gpt-4", "4o", 1);
    MissingCharNotContained("gpt-4-turbo", "mini", 0);
    MissingCharNotContained("gpt-4-turbo", "3.5", 1);
    PairAbsentNotContained("gpt-4-turbo", "4o");
  }

  /** gpt-3.5-turbo is standard, but its 16k variant is low-cost. */
  lemma PricingTierGpt35()
    ensures PricingTier("gpt-3.5-turbo") == "standard" && PricingTier("gpt-3.5-turbo-16k") == "low-cost"
  {
    assert OccursAt("gpt-3.5-turbo", "3.5", 4);
    assert OccursAt("gpt-3.5-turbo-16k", "3.5", 4);
  }

  const MissingKeyMessage: string :=
    "OpenAI API key is required. Set OPENAI_API_KEY environment variable or provide api_key in config."

  /** `_initialize_client` passes the key to `ChatOpenAI` as `api_key`. */
  const KeyArgument: string := "api_key"

  /** `get_model_info`. */
  function GetModelInfo(c: LLMConfig): (info: ModelInfo)
    ensures info.provider == "OpenAI" && info.model == c.model && info.supportsFunctions
    ensures info.contextWindow == ContextWindow(c.model) && info.pricingTier == PricingTier(c.model)
    ensures info.contextWindow >= 4096
  {
    ContextWindowAtLeastFallback(c.model);
    ModelInfo("OpenAI", c.model, true, ContextWindow(c.model), PricingTier(c.model))
  }
}
