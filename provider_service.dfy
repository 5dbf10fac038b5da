/**
 * src/services/providers/index.ts: `AiProviderService`, listing, labelling and resolving models
 * of the catalogue. The catalogue (`modelList()`: the synced models or the fallback list) and the
 * provider list are parameters.
 */
module ProviderService {
  import opened Wrappers
  import opened ConfigTypes
  import opened ApiKeys
  import opened Sorting
  import opened ProviderTypes

  /** The comparator `a.sortOrder - b.sortOrder` does not put `b` first. */
  predicate BySortOrder(a: ModelInfo, b: ModelInfo) {
    a.sortOrder <= b.sortOrder
  }

  /** The provider's API key is present and non-empty (`!!apiKeys.get(provider, config)`). */
  predicate HasKey(provider: Provider, config: AppConfig, env: Env) {
    Truthy(ApiKeys.Get(provider, config, env))
  }

  /** `sortModels(models)`: a sorted copy. */
  function SortModels(models: seq<ModelInfo>): (r: seq<ModelInfo>)
    ensures multiset(r) == multiset(models)
    ensures Sorted(r, BySortOrder)
  {
    assert TotalPreorder(BySortOrder);
    SortSorted(models, BySortOrder);
    Sort(models, BySortOrder)
  }

  /** `models.filter(keep)`. */
  function Filter<T(!new)>(items: seq<T>, keep: T -> bool): (r: seq<T>)
    ensures forall x :: x in r <==> x in items && keep(x)
    ensures forall x :: multiset(r)[x] == (if keep(x) then multiset(items)[x] else 0)
    ensures IsSubsequence(r, items)
  {
    if items == [] then []
    else
      assert items == [items[0]] + items[1..];
      var rest := Filter(items[1..], keep);
      if keep(items[0]) then [items[0]] + rest else rest
  }

  /** Two sequences with the same multiset have the same elements. */
  lemma SameElements(a: seq<ModelInfo>, b: seq<ModelInfo>)
    requires multiset(a) == multiset(b)
    ensures forall m :: m in a <==> m in b
  {
    forall m ensures m in a <==> m in b {
      assert m in a <==> m in multiset(a);
      assert m in b <==> m in multiset(b);
    }
  }

  /** `listAll()`: the whole catalogue by ascending `sortOrder`. */
  function ListAll(modelList: seq<ModelInfo>): (r: seq<ModelInfo>)
    ensures multiset(r) == multiset(modelList)
    ensures Sorted(r, BySortOrder)
  {
    SortModels(modelList)
  }

  /** `listAvailable(config)`: exactly the models whose provider has a key, sorted. */
  function ListAvailable(modelList: seq<ModelInfo>, config: AppConfig, env: Env): (r: seq<ModelInfo>)
    ensures forall m :: m in r <==> m in modelList && HasKey(m.provider, config, env)
    ensures forall m :: multiset(r)[m] == (if HasKey(m.provider, config, env) then multiset(modelList)[m] else 0)
    ensures Sorted(r, BySortOrder)
  {
    var kept := Filter(modelList, (m: ModelInfo) => HasKey(m.provider, config, env));
    var r := SortModels(kept);
    SameElements(kept, r);
    r
  }

  /** `listAvailableProviders(config)`: the providers with a key, in list order. */
  function ListAvailableProviders(providerList: seq<ProviderInfo>, config: AppConfig, env: Env): (r: seq<ProviderInfo>)
    ensures forall p :: p in r <==> p in providerList && HasKey(p.id, config, env)
    ensures IsSubsequence(r, providerList)
  {
    Filter(providerList, (p: ProviderInfo) => HasKey(p.id, config, env))
  }

  /** `listByProvider(provider, config)`: exactly that provider's models, if it has a key, sorted. */
  function ListByProvider(modelList: seq<ModelInfo>, provider: Provider, config: AppConfig, env: Env): (r: seq<ModelInfo>)
    ensures forall m :: m in r <==> m in modelList && m.provider == provider && HasKey(m.provider, config, env)
    ensures forall m :: multiset(r)[m] ==
                        (if m.provider == provider && HasKey(m.provider, config, env) then multiset(modelList)[m] else 0)
    ensures Sorted(r, BySortOrder)
  {
    var kept := Filter(modelList, (m: ModelInfo) => m.provider == provider && HasKey(m.provider, config, env));
    var r := SortModels(kept);
    SameElements(kept, r);
    r
  }

  /** The position of the first model with that id (`modelList().find(...)`). */
  function FindModel(modelList: seq<ModelInfo>, modelId: string): (k: Option<nat>)
    ensures k.Some? ==> k.value < |modelList| && modelList[k.value].id == modelId
    ensures k.Some? ==> forall j :: 0 <= j < k.value ==> modelList[j].id != modelId
    ensures k.None? <==> forall i :: 0 <= i < |modelList| ==> modelList[i].id != modelId
  {
    if modelList == [] then None
    else if modelList[0].id == modelId then Some(0)
    else match FindModel(modelList[1..], modelId)
      case Some(k) => Some(k + 1)
      case None => None
  }

  /** `label(modelId)`. */
  function Label(modelList: seq<ModelInfo>, modelId: string): (text: string)
    ensures (forall i :: 0 <= i < |modelList| ==> modelList[i].id != modelId) ==> text == modelId
    ensures forall k :: 0 <= k < |modelList| && modelList[k].id == modelId &&
                        (forall j :: 0 <= j < k ==> modelList[j].id != modelId) ==>
      text == modelList[k].modelLabel + " (" + modelList[k].providerLabel + ")"
  {
    match FindModel(modelList, modelId)
    case Some(k) => modelList[k].modelLabel + " (" + modelList[k].providerLabel + ")"
    case None => modelId
  }

  /** The default settings the wrapper middleware applies. */
  datatype Settings = Settings(maxOutputTokens: Option<nat>, providerOptions: Option<ProviderOptions>)

  /** What `getModel` hands to the SDK: the providers registered (those with a key), the id looked
      up in the registry, and the settings wrapper if there is one. */
  datatype LanguageModel = LanguageModel(registered: set<Provider>, registryModelId: string, settings: Option<Settings>)

  /** `model.maxOutputTokens` is truthy. */
  predicate HasTokenCap(m: ModelInfo) {
    m.maxOutputTokens.Some? && m.maxOutputTokens.value != 0
  }

  /** The registered providers: OpenAI and Anthropic, each when its key is present. */
  function Registered(config: AppConfig, env: Env): (r: set<Provider>)
    ensures OpenAi in r <==> HasKey(OpenAi, config, env)
    ensures Anthropic in r <==> HasKey(Anthropic, config, env)
    ensures Exa !in r
  {
    (if HasKey(OpenAi, config, env) then {OpenAi} else {}) + (if HasKey(Anthropic, config, env) then {Anthropic} else {})
  }

  /** `getModel(modelId, config)`; a thrown error is `Err`. */
  function GetModel(modelList: seq<ModelInfo>, modelId: string, config: AppConfig, env: Env): (r: Result<LanguageModel>)
    ensures FindModel(modelList, modelId).None? ==> r == Err("Unknown model \"" + modelId + "\".")
    ensures FindModel(modelList, modelId).Some? ==>
      var m := modelList[FindModel(modelList, modelId).value];
      && (!HasKey(m.provider, config, env) ==>
            r == Err("No API key configured for provider \"" + ProviderKey(m.provider) + "\". Run taichat and use /config to set it up."))
      && (HasKey(m.provider, config, env) ==>
            && r.Ok?
            && r.value.registered == Registered(config, env)
            && r.value.registryModelId == (if m.baseModelId.Some? then m.baseModelId.value else m.id)
            && (r.value.settings.Some? <==> m.providerOptions.Some? || HasTokenCap(m))
            && (r.value.settings.Some? ==>
                  && (r.value.settings.value.maxOutputTokens.Some? <==> HasTokenCap(m))
                  && (HasTokenCap(m) ==> r.value.settings.value.maxOutputTokens == m.maxOutputTokens)
                  && r.value.settings.value.providerOptions == m.providerOptions))
  {
    match FindModel(modelList, modelId)
    case None => Err("Unknown model \"" + modelId + "\".")
    case Some(k) =>
      var model := modelList[k];
      if !HasKey(model.provider, config, env) then
        Err("No API key configured for provider \"" + ProviderKey(model.provider) + "\". Run taichat and use /config to set it up.")
      else
        var registryModelId := model.baseModelId.GetOr(model.id);
        var settings :=
          if model.providerOptions.Some? || HasTokenCap(model) then
            Some(Settings(if HasTokenCap(model) then model.maxOutputTokens else None, model.providerOptions))
          else None;
        Ok(LanguageModel(Registered(config, env), registryModelId, settings))
  }

  /** A model that can be resolved is listed as available. */
  lemma ResolvableIsAvailable(modelList: seq<ModelInfo>, modelId: string, config: AppConfig, env: Env)
    requires GetModel(modelList, modelId, config, env).Ok?
    ensures exists m :: m in ListAvailable(modelList, config, env) && m.id == modelId
  {
    var k := FindModel(modelList, modelId).value;
    assert modelList[k] in modelList;
    assert modelList[k] in ListAvailable(modelList, config, env);
  }
}
