/** src/services/providers/types.ts: the model catalogue entries and the models.dev payload. */
module ProviderTypes {
  import opened Wrappers
  import opened ApiKeys

  /** The OpenAI `reasoningEffort` values. */
  datatype ReasoningEffort = EffortLow | EffortMedium | EffortHigh | EffortXHigh

  /** `providerOptions`: OpenAI reasoning effort or Anthropic extended thinking with a budget. */
  datatype ProviderOptions =
    | OpenAiReasoning(reasoningEffort: ReasoningEffort)
    | AnthropicThinking(budgetTokens: nat)

  /** `ModelInfo`; `provider` is a `ChatProviderName` (OpenAI or Anthropic). */
  datatype ModelInfo = ModelInfo(
    id: string,
    baseModelId: Option<string>,
    modelLabel: string,
    provider: Provider,
    providerLabel: string,
    sortOrder: int,
    providerOptions: Option<ProviderOptions>,
    maxOutputTokens: Option<nat>)

  /** `ProviderInfo`. */
  datatype ProviderInfo = ProviderInfo(id: Provider, providerLabel: string)

  /** `ModelsDevModel`; an absent `reasoning` is `false`. */
  datatype DevModel = DevModel(id: string, name: string, reasoning: bool)

  /** `ModelsDevProvider`: `models` is `None` when it is missing or not an object; otherwise it
      holds `Object.values(models)` in property order. */
  datatype DevProvider = DevProvider(models: Option<seq<DevModel>>)

  /** The two providers of `ModelsDevApiResponse` that are read. */
  datatype DevResponse = DevResponse(openai: Option<DevProvider>, anthropic: Option<DevProvider>)
}
