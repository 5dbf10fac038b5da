/** src/providers.ts: the static model list, `provider:model` ids and `resolveModel`'s guards. */
module LegacyProviders {
  import opened Wrappers
  import opened JsString
  import opened ConfigTypes
  import LegacyConfig
  import opened Sorting

  /** `ModelInfo`. */
  datatype ModelInfo = ModelInfo(id: string, modelLabel: string, provider: string, providerLabel: string)

  /** `MODEL_LIST`. */
  const ModelList: seq<ModelInfo> := [
    ModelInfo("openai:gpt-4.1", "GPT-4.1", "openai", "OpenAI"),
    ModelInfo("openai:gpt-4.1-mini", "GPT-4.1 Mini", "openai", "OpenAI"),
    ModelInfo("openai:gpt-4.1-nano", "GPT-4.1 Nano", "openai", "OpenAI"),
    ModelInfo("openai:gpt-4o", "GPT-4o", "openai", "OpenAI"),
    ModelInfo("openai:gpt-4o-mini", "GPT-4o Mini", "openai", "OpenAI"),
    ModelInfo("openai:o3-mini", "o3-mini", "openai", "OpenAI"),
    ModelInfo("anthropic:claude-sonnet-4-20250514", "Claude Sonnet 4", "anthropic", "Anthropic"),
    ModelInfo("anthropic:claude-3-5-haiku-20241022", "Claude 3.5 Haiku", "anthropic", "Anthropic"),
    ModelInfo("deepseek:deepseek-chat", "DeepSeek Chat (V3)", "deepseek", "DeepSeek"),
    ModelInfo("deepseek:deepseek-reasoner", "DeepSeek Reasoner (R1)", "deepseek", "DeepSeek"),
    ModelInfo("deepinfra:meta-llama/Llama-3.3-70B-Instruct", "Llama 3.3 70B", "deepinfra", "DeepInfra"),
    ModelInfo("deepinfra:mistralai/Mistral-Small-24B-Instruct-2501", "Mistral Small 24B", "deepinfra", "DeepInfra"),
    ModelInfo("deepinfra:Qwen/Qwen2.5-72B-Instruct", "Qwen 2.5 72B", "deepinfra", "DeepInfra"),
    ModelInfo("kimi:moonshot-v1-8k", "Moonshot V1 8K", "kimi", "Kimi (Moonshot)"),
    ModelInfo("kimi:moonshot-v1-32k", "Moonshot V1 32K", "kimi", "Kimi (Moonshot)")
  ]

  /** The providers `resolveModel` can build a model for. */
  const KnownProviders: set<string> := {"openai", "anthropic", "deepseek", "deepinfra", "kimi"}

  /** The model handle `resolveModel` builds: which client, for which model name, with which key. */
  datatype ModelHandle = ModelHandle(provider: string, modelName: string, apiKey: string)

  /** `providerName` of `resolveModel`: the text before the first ':'. */
  function ProviderName(modelId: string): string {
    Split(modelId, ':')[0]
  }

  /** `modelParts.join(':')`: everything after the first ':'. */
  function ModelName(modelId: string): string {
    Join(Split(modelId, ':')[1..], ":")
  }

  /** The two halves of an id put back together give the id: colons inside model names survive. */
  lemma ModelIdRoundTrip(modelId: string)
    ensures ':' in modelId ==> modelId == ProviderName(modelId) + ":" + ModelName(modelId)
    ensures ':' !in modelId ==> ProviderName(modelId) == modelId && ModelName(modelId) == ""
    ensures ':' !in ProviderName(modelId)
  {
    SplitHeadTail(modelId, ':');
    if ':' !in modelId {
      assert Before(modelId, ':') == modelId;
    }
  }

  /** `resolveModel(modelId, config)`: the API key is checked before the provider name. */
  function ResolveModel(modelId: string, config: AppConfig, env: Env): (r: Result<ModelHandle>)
    ensures !Truthy(LegacyConfig.GetApiKey(ProviderName(modelId), config, env)) ==>
      r == Err("No API key configured for provider \"" + ProviderName(modelId) + "\". Run taichat and use /config to set it up.")
    ensures Truthy(LegacyConfig.GetApiKey(ProviderName(modelId), config, env)) && ProviderName(modelId) !in KnownProviders ==>
      r == Err("Unknown provider: " + ProviderName(modelId))
    ensures r.Ok? <==> Truthy(LegacyConfig.GetApiKey(ProviderName(modelId), config, env)) && ProviderName(modelId) in KnownProviders
    ensures r.Ok? ==> r.value == ModelHandle(ProviderName(modelId), ModelName(modelId),
                                             LegacyConfig.GetApiKey(ProviderName(modelId), config, env).value)
  {
    var providerName := ProviderName(modelId);
    var modelName := ModelName(modelId);
    var apiKey := LegacyConfig.GetApiKey(providerName, config, env);
    if !Truthy(apiKey) then
      Err("No API key configured for provider \"" + providerName + "\". Run taichat and use /config to set it up.")
    else if providerName in KnownProviders then
      Ok(ModelHandle(providerName, modelName, apiKey.value))
    else
      Err("Unknown provider: " + providerName)
  }

  /** `getAvailableModels(config)`: the listed models whose provider has a key, in list order. */
  function GetAvailableModels(config: AppConfig, env: Env): (r: seq<ModelInfo>)
    ensures forall m :: m in r <==> m in ModelList && Truthy(LegacyConfig.GetApiKey(m.provider, config, env))
    ensures IsSubsequence(r, ModelList)
  {
    Filter(ModelList, config, env)
  }

  function Filter(models: seq<ModelInfo>, config: AppConfig, env: Env): (r: seq<ModelInfo>)
    ensures forall m :: m in r <==> m in models && Truthy(LegacyConfig.GetApiKey(m.provider, config, env))
    ensures IsSubsequence(r, models)
  {
    if models == [] then []
    else
      var rest := Filter(models[1..], config, env);
      if Truthy(LegacyConfig.GetApiKey(models[0].provider, config, env)) then [models[0]] + rest else rest
  }

  /** The position of the first listed model with that id (`find`). */
  function FindIndex(models: seq<ModelInfo>, modelId: string): (k: Option<nat>)
    ensures k.Some? ==> k.value < |models| && models[k.value].id == modelId
    ensures k.Some? ==> forall j :: 0 <= j < k.value ==> models[j].id != modelId
    ensures k.None? <==> forall i :: 0 <= i < |models| ==> models[i].id != modelId
  {
    if models == [] then None
    else if models[0].id == modelId then Some(0)
    else match FindIndex(models[1..], modelId)
      case Some(k) => Some(k + 1)
      case None => None
  }

  /** `MODEL_LIST.find((m) => m.id === modelId)`. */
  function Find(models: seq<ModelInfo>, modelId: string): (m: Option<ModelInfo>)
    ensures m.Some? <==> FindIndex(models, modelId).Some?
    ensures m.Some? ==> m.value == models[FindIndex(models, modelId).value]
  {
    match FindIndex(models, modelId)
    case Some(k) => Some(models[k])
    case None => None
  }

  /** `getModelLabel(modelId)`. */
  function GetModelLabel(modelId: string): (text: string)
    ensures Find(ModelList, modelId).None? ==> text == modelId
    ensures Find(ModelList, modelId).Some? ==>
      text == Find(ModelList, modelId).value.modelLabel + " (" + Find(ModelList, modelId).value.providerLabel + ")"
  {
    match Find(ModelList, modelId)
    case Some(info) => info.modelLabel + " (" + info.providerLabel + ")"
    case None => modelId
  }

  /** `getProviderFromModelId(modelId)`: the prefix before the first ':', or the whole id. */
  function GetProviderFromModelId(modelId: string): (p: string)
    ensures p <= modelId && ':' !in p
    ensures ':' in modelId ==> modelId[|p|] == ':'
    ensures ':' !in modelId ==> p == modelId
  {
    ModelIdRoundTrip(modelId);
    Split(modelId, ':')[0]
  }
}
