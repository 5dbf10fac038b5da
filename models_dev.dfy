/**
 * src/services/providers/models-dev.ts: expanding the models.dev payload into the catalogue. Each
 * provider's models are sorted by name and emitted as a base entry, followed, for a reasoning
 * model, by its reasoning variants; `sortOrder` counts the entries from 1 across both providers.
 */
module ModelsDev {
  import opened Wrappers
  import opened JsString
  import opened ApiKeys
  import opened Sorting
  import opened ProviderTypes

  /** One row of `OPENAI_REASONING_VARIANTS` or `ANTHROPIC_THINKING_VARIANTS`. */
  datatype VariantSpec = VariantSpec(suffix: string, labelSuffix: string, options: ProviderOptions, maxOutputTokens: Option<nat>)

  const OpenAiVariantSpecs: seq<VariantSpec> := [
    VariantSpec("minimal", "Minimal", OpenAiReasoning(EffortLow), Some(4000)),
    VariantSpec("low", "Low", OpenAiReasoning(EffortLow), None),
    VariantSpec("medium", "Medium", OpenAiReasoning(EffortMedium), None),
    VariantSpec("high", "High", OpenAiReasoning(EffortHigh), None),
    VariantSpec("extra-high", "Extra High", OpenAiReasoning(EffortXHigh), Some(100000))
  ]

  const AnthropicVariantSpecs: seq<VariantSpec> := [
    VariantSpec("thinking-low", "Thinking Low", AnthropicThinking(8000), None),
    VariantSpec("thinking-medium", "Thinking Medium", AnthropicThinking(16000), None),
    VariantSpec("thinking-high", "Thinking High", AnthropicThinking(32000), None)
  ]

  /** The variant table of a provider (`providerId === 'openai' ? ... : ...`). */
  function VariantSpecs(provider: Provider): seq<VariantSpec> {
    if provider == OpenAi then OpenAiVariantSpecs else AnthropicVariantSpecs
  }

  /** `a.name.localeCompare(b.name)` does not put `b` first. */
  predicate NameLe(a: DevModel, b: DevModel) {
    CodeUnitLe(a.name, b.name)
  }

  lemma NameLeIsTotalPreorder()
    ensures TotalPreorder(NameLe)
  {
    forall a: DevModel, b: DevModel ensures NameLe(a, b) || NameLe(b, a) {
      CodeUnitLeTotal(a.name, b.name);
    }
    forall a: DevModel, b: DevModel, c: DevModel | NameLe(a, b) && NameLe(b, c) ensures NameLe(a, c) {
      CodeUnitLeTransitive(a.name, b.name, c.name);
    }
  }

  /** The base entry of a models.dev model: `${providerId}:${model.id}`, labelled with its name. */
  function BaseEntry(m: DevModel, provider: Provider, providerLabel: string, sortOrder: int): ModelInfo {
    ModelInfo(ProviderKey(provider) + ":" + m.id, None, m.name, provider, providerLabel, sortOrder, None, None)
  }

  /** The entry of one variant row for a base entry. */
  function Variant(base: ModelInfo, spec: VariantSpec, provider: Provider, sortOrder: int): ModelInfo {
    ModelInfo(base.id + ":" + spec.suffix, Some(base.id), base.modelLabel + " " + spec.labelSuffix,
              provider, base.providerLabel, sortOrder, Some(spec.options), spec.maxOutputTokens)
  }

  /** `toOpenAiVariants(base, start)` / `toAnthropicVariants(base, start)`: the table mapped with
      the row index. */
  function Variants(base: ModelInfo, specs: seq<VariantSpec>, provider: Provider, startSortOrder: int): (vs: seq<ModelInfo>)
    ensures |vs| == |specs|
    ensures forall k :: 0 <= k < |specs| ==> vs[k] == Variant(base, specs[k], provider, startSortOrder + k)
    decreases |specs|
  {
    if specs == [] then []
    else [Variant(base, specs[0], provider, startSortOrder)] + Variants(base, specs[1..], provider, startSortOrder + 1)
  }

  /** The entries one model contributes: its base entry, then its variants if it reasons. */
  function ModelEntries(m: DevModel, provider: Provider, providerLabel: string, sortOrder: int): seq<ModelInfo> {
    var base := BaseEntry(m, provider, providerLabel, sortOrder);
    [base] + (if m.reasoning then Variants(base, VariantSpecs(provider), provider, sortOrder + 1) else [])
  }

  /** The entries of the first `n` models, emitted one after another from `startSortOrder`. */
  function ProviderEntries(models: seq<DevModel>, n: nat, provider: Provider, providerLabel: string, startSortOrder: int)
    : seq<ModelInfo>
    requires n <= |models|
  {
    if n == 0 then []
    else
      var before := ProviderEntries(models, n - 1, provider, providerLabel, startSortOrder);
      before + ModelEntries(models[n - 1], provider, providerLabel, startSortOrder + |before|)
  }

  lemma ProviderEntriesNext(models: seq<DevModel>, i: nat, provider: Provider, providerLabel: string, startSortOrder: int)
    requires i < |models|
    ensures var before := ProviderEntries(models, i, provider, providerLabel, startSortOrder);
      ProviderEntries(models, i + 1, provider, providerLabel, startSortOrder) ==
        before + ModelEntries(models[i], provider, providerLabel, startSortOrder + |before|)
  {
  }

  lemma ProviderEntriesLast(models: seq<DevModel>, n: nat, provider: Provider, providerLabel: string, startSortOrder: int)
    requires 0 < n <= |models|
    ensures var before := ProviderEntries(models, n - 1, provider, providerLabel, startSortOrder);
      ProviderEntries(models, n, provider, providerLabel, startSortOrder) ==
        before + ModelEntries(models[n - 1], provider, providerLabel, startSortOrder + |before|)
  {
  }

  /** What `appendProviderModels` appends: nothing for a missing provider or `models`, otherwise
      the entries of the models sorted by name. */
  function Section(provider: Option<DevProvider>, providerId: Provider, providerLabel: string, startSortOrder: int): seq<ModelInfo> {
    if provider.None? || provider.value.models.None? then []
    else
      var sorted := Sort(provider.value.models.value, NameLe);
      ProviderEntries(sorted, |sorted|, providerId, providerLabel, startSortOrder)
  }

  /** The body of the loop over the sorted models: push the base entry and, for a reasoning
      model, its variants. */
  method AppendModel(output: seq<ModelInfo>, model: DevModel, providerId: Provider, providerLabel: string, startSortOrder: int)
    returns (extended: seq<ModelInfo>, sortOrder: int)
    ensures extended == output + ModelEntries(model, providerId, providerLabel, startSortOrder)
    ensures sortOrder == startSortOrder + |ModelEntries(model, providerId, providerLabel, startSortOrder)|
  {
    var baseModel := BaseEntry(model, providerId, providerLabel, startSortOrder);
    extended := output + [baseModel];
    sortOrder := startSortOrder + 1;
    if !model.reasoning {
      return;
    }
    var variants := Variants(baseModel, VariantSpecs(providerId), providerId, sortOrder);
    extended := extended + variants;
    sortOrder := sortOrder + |variants|;
  }

  /** `appendProviderModels(output, provider, providerId, providerLabel, startSortOrder)`. */
  method AppendProviderModels(output: seq<ModelInfo>, provider: Option<DevProvider>, providerId: Provider,
                              providerLabel: string, startSortOrder: int)
    returns (extended: seq<ModelInfo>, sortOrder: int)
    ensures extended == output + Section(provider, providerId, providerLabel, startSortOrder)
    ensures sortOrder == startSortOrder + |Section(provider, providerId, providerLabel, startSortOrder)|
  {
    if provider.None? || provider.value.models.None? {
      return output, startSortOrder;
    }
    var sortedModels := Sort(provider.value.models.value, NameLe);
    extended, sortOrder := AppendModels(output, sortedModels, providerId, providerLabel, startSortOrder);
  }

  lemma ConcatAssociative(a: seq<ModelInfo>, b: seq<ModelInfo>, c: seq<ModelInfo>)
    ensures (a + b) + c == a + (b + c)
  {
  }

  /** The `for (const model of sortedModels)` loop. */
  method AppendModels(output: seq<ModelInfo>, sortedModels: seq<DevModel>, providerId: Provider,
                      providerLabel: string, startSortOrder: int)
    returns (extended: seq<ModelInfo>, sortOrder: int)
    ensures extended == output + ProviderEntries(sortedModels, |sortedModels|, providerId, providerLabel, startSortOrder)
    ensures sortOrder == startSortOrder + |ProviderEntries(sortedModels, |sortedModels|, providerId, providerLabel, startSortOrder)|
  {
    extended := output;
    sortOrder := startSortOrder;
    for i := 0 to |sortedModels|
      invariant extended == output + ProviderEntries(sortedModels, i, providerId, providerLabel, startSortOrder)
      invariant sortOrder == startSortOrder + |ProviderEntries(sortedModels, i, providerId, providerLabel, startSortOrder)|
    {
      ghost var before := ProviderEntries(sortedModels, i, providerId, providerLabel, startSortOrder);
      ghost var entries := ModelEntries(sortedModels[i], providerId, providerLabel, sortOrder);
      ProviderEntriesNext(sortedModels, i, providerId, providerLabel, startSortOrder);
      ConcatAssociative(output, before, entries);
      extended, sortOrder := AppendModel(extended, sortedModels[i], providerId, providerLabel, sortOrder);
    }
  }

  /** `toModelList(data)`: the OpenAI section from 1, then the Anthropic section. */
  method ToModelList(data: DevResponse) returns (models: seq<ModelInfo>)
    ensures models == Catalogue(data)
  {
    var sortOrder := 1;
    models := [];
    models, sortOrder := AppendProviderModels(models, data.openai, OpenAi, "OpenAI", sortOrder);
    models, sortOrder := AppendProviderModels(models, data.anthropic, Anthropic, "Anthropic", sortOrder);
  }

  /** The catalogue `toModelList` builds. */
  function Catalogue(data: DevResponse): seq<ModelInfo> {
    var openai := Section(data.openai, OpenAi, "OpenAI", 1);
    openai + Section(data.anthropic, Anthropic, "Anthropic", 1 + |openai|)
  }

  /** The entries are numbered consecutively from `start`. */
  ghost predicate NumberedFrom(es: seq<ModelInfo>, start: int) {
    forall k :: 0 <= k < |es| ==> es[k].sortOrder == start + k
  }

  /** All entries are of `provider`. */
  ghost predicate OfProvider(es: seq<ModelInfo>, provider: Provider) {
    forall k :: 0 <= k < |es| ==> es[k].provider == provider
  }

  /** Within one model's entries the sort orders count up from the base entry's, and every entry
      is of that provider. */
  lemma ModelEntriesFacts(m: DevModel, provider: Provider, providerLabel: string, sortOrder: int)
    ensures NumberedFrom(ModelEntries(m, provider, providerLabel, sortOrder), sortOrder)
    ensures OfProvider(ModelEntries(m, provider, providerLabel, sortOrder), provider)
  {
    var base := BaseEntry(m, provider, providerLabel, sortOrder);
    var vs := if m.reasoning then Variants(base, VariantSpecs(provider), provider, sortOrder + 1) else [];
    var es := [base] + vs;
    forall k | 0 <= k < |es| ensures es[k].sortOrder == sortOrder + k && es[k].provider == provider {
      if k > 0 {
        assert es[k] == vs[k - 1];
      }
    }
  }

  /** A run's entries have consecutive sort orders from the start. */
  lemma {:induction false} ProviderEntriesNumbered(models: seq<DevModel>, n: nat, provider: Provider, providerLabel: string,
                                                  startSortOrder: int)
    requires n <= |models|
    ensures NumberedFrom(ProviderEntries(models, n, provider, providerLabel, startSortOrder), startSortOrder)
    decreases n
  {
    if n != 0 {
      ProviderEntriesNumbered(models, n - 1, provider, providerLabel, startSortOrder);
      NumberedStep(models, n, provider, providerLabel, startSortOrder);
    }
  }

  lemma NumberedStep(models: seq<DevModel>, n: nat, provider: Provider, providerLabel: string, startSortOrder: int)
    requires 0 < n <= |models|
    requires NumberedFrom(ProviderEntries(models, n - 1, provider, providerLabel, startSortOrder), startSortOrder)
    ensures NumberedFrom(ProviderEntries(models, n, provider, providerLabel, startSortOrder), startSortOrder)
  {
    var before := ProviderEntries(models, n - 1, provider, providerLabel, startSortOrder);
    ProviderEntriesLast(models, n, provider, providerLabel, startSortOrder);
    NumberedAfter(before, models[n - 1], provider, providerLabel, startSortOrder, startSortOrder + |before|,
                  ProviderEntries(models, n, provider, providerLabel, startSortOrder));
  }

  /** All of a run's entries are of the provider. */
  lemma {:induction false} ProviderEntriesOfProvider(models: seq<DevModel>, n: nat, provider: Provider, providerLabel: string,
                                                    startSortOrder: int)
    requires n <= |models|
    ensures OfProvider(ProviderEntries(models, n, provider, providerLabel, startSortOrder), provider)
    decreases n
  {
    if n != 0 {
      ProviderEntriesOfProvider(models, n - 1, provider, providerLabel, startSortOrder);
      OfProviderStep(models, n, provider, providerLabel, startSortOrder);
    }
  }

  lemma OfProviderStep(models: seq<DevModel>, n: nat, provider: Provider, providerLabel: string, startSortOrder: int)
    requires 0 < n <= |models|
    requires OfProvider(ProviderEntries(models, n - 1, provider, providerLabel, startSortOrder), provider)
    ensures OfProvider(ProviderEntries(models, n, provider, providerLabel, startSortOrder), provider)
  {
    var before := ProviderEntries(models, n - 1, provider, providerLabel, startSortOrder);
    ProviderEntriesLast(models, n, provider, providerLabel, startSortOrder);
    OfProviderAfter(before, models[n - 1], provider, providerLabel, startSortOrder + |before|,
                    ProviderEntries(models, n, provider, providerLabel, startSortOrder));
  }

  /** One model's entries after a numbered run keep the run numbered. */
  lemma NumberedAfter(before: seq<ModelInfo>, m: DevModel, provider: Provider, providerLabel: string,
                      start: int, sortOrder: int, r: seq<ModelInfo>)
    requires NumberedFrom(before, start) && sortOrder == start + |before|
    requires r == before + ModelEntries(m, provider, providerLabel, sortOrder)
    ensures NumberedFrom(r, start)
  {
    ModelEntriesFacts(m, provider, providerLabel, sortOrder);
    NumberedAppend(before, ModelEntries(m, provider, providerLabel, sortOrder), r, start);
  }

  /** One model's entries after a run of the provider's entries: still all of that provider. */
  lemma OfProviderAfter(before: seq<ModelInfo>, m: DevModel, provider: Provider, providerLabel: string,
                        sortOrder: int, r: seq<ModelInfo>)
    requires OfProvider(before, provider)
    requires r == before + ModelEntries(m, provider, providerLabel, sortOrder)
    ensures OfProvider(r, provider)
  {
    ModelEntriesFacts(m, provider, providerLabel, sortOrder);
    OfProviderAppend(before, ModelEntries(m, provider, providerLabel, sortOrder), r, provider);
  }

  lemma NumberedAppend(a: seq<ModelInfo>, b: seq<ModelInfo>, r: seq<ModelInfo>, start: int)
    requires NumberedFrom(a, start) && NumberedFrom(b, start + |a|)
    requires r == a + b
    ensures NumberedFrom(r, start)
  {
    forall k | 0 <= k < |r| ensures r[k].sortOrder == start + k {
      if k >= |a| {
        assert r[k] == b[k - |a|];
      } else {
        assert r[k] == a[k];
      }
    }
  }

  lemma OfProviderAppend(a: seq<ModelInfo>, b: seq<ModelInfo>, r: seq<ModelInfo>, provider: Provider)
    requires OfProvider(a, provider) && OfProvider(b, provider)
    requires r == a + b
    ensures OfProvider(r, provider)
  {
    forall k | 0 <= k < |r| ensures r[k].provider == provider {
      if k >= |a| {
        assert r[k] == b[k - |a|];
      } else {
        assert r[k] == a[k];
      }
    }
  }

  /** `sortOrder` is the position plus one, with no gaps, across both providers. */
  lemma CatalogueSortOrderIsGapFree(data: DevResponse)
    ensures forall k :: 0 <= k < |Catalogue(data)| ==> Catalogue(data)[k].sortOrder == k + 1
  {
    CatalogueSections(data);
  }

  /** All OpenAI entries come before all Anthropic entries, and there are no others. */
  lemma CatalogueOpenAiFirst(data: DevResponse)
    ensures var c := Catalogue(data);
      && (forall k :: 0 <= k < |c| ==> c[k].provider == OpenAi || c[k].provider == Anthropic)
      && (forall i, j :: 0 <= i < j < |c| && c[i].provider == Anthropic ==> c[j].provider == Anthropic)
  {
    CatalogueSections(data);
  }

  /** The catalogue is an OpenAI part followed by an Anthropic part, numbered from 1. */
  lemma CatalogueSections(data: DevResponse)
    ensures var n := |Section(data.openai, OpenAi, "OpenAI", 1)|;
      && n <= |Catalogue(data)|
      && forall k :: 0 <= k < |Catalogue(data)| ==>
           Catalogue(data)[k].sortOrder == k + 1 && Catalogue(data)[k].provider == (if k < n then OpenAi else Anthropic)
  {
    var openai := Section(data.openai, OpenAi, "OpenAI", 1);
    var anthropic := Section(data.anthropic, Anthropic, "Anthropic", 1 + |openai|);
    SectionFacts(data.openai, OpenAi, "OpenAI", 1);
    SectionFacts(data.anthropic, Anthropic, "Anthropic", 1 + |openai|);
    TwoSections(openai, anthropic);
  }

  lemma TwoSections(a: seq<ModelInfo>, b: seq<ModelInfo>)
    requires NumberedFrom(a, 1) && OfProvider(a, OpenAi)
    requires NumberedFrom(b, 1 + |a|) && OfProvider(b, Anthropic)
    ensures forall k :: 0 <= k < |a + b| ==>
      (a + b)[k].sortOrder == k + 1 && (a + b)[k].provider == (if k < |a| then OpenAi else Anthropic)
  {
    forall k | 0 <= k < |a + b|
      ensures (a + b)[k].sortOrder == k + 1 && (a + b)[k].provider == (if k < |a| then OpenAi else Anthropic)
    {
      if k < |a| {
        assert (a + b)[k] == a[k];
      } else {
        assert (a + b)[k] == b[k - |a|];
      }
    }
  }

  lemma SectionFacts(provider: Option<DevProvider>, providerId: Provider, providerLabel: string, startSortOrder: int)
    ensures NumberedFrom(Section(provider, providerId, providerLabel, startSortOrder), startSortOrder)
    ensures OfProvider(Section(provider, providerId, providerLabel, startSortOrder), providerId)
  {
    if provider.Some? && provider.value.models.Some? {
      var sorted := Sort(provider.value.models.value, NameLe);
      ProviderEntriesNumbered(sorted, |sorted|, providerId, providerLabel, startSortOrder);
      ProviderEntriesOfProvider(sorted, |sorted|, providerId, providerLabel, startSortOrder);
    }
  }

  /** A model contributes its base entry first, then exactly five OpenAI or three Anthropic
      variants if it reasons and none otherwise. */
  lemma ModelEntriesShape(m: DevModel, provider: Provider, providerLabel: string, sortOrder: int)
    requires provider == OpenAi || provider == Anthropic
    ensures var es := ModelEntries(m, provider, providerLabel, sortOrder);
      && es[0] == BaseEntry(m, provider, providerLabel, sortOrder)
      && |es| == 1 + (if !m.reasoning then 0 else if provider == OpenAi then 5 else 3)
      && forall k :: 1 <= k < |es| ==>
           es[k].baseModelId == Some(es[0].id) && es[k].id == es[0].id + ":" + VariantSpecs(provider)[k - 1].suffix
  {
  }

  /** The entries whose `maxOutputTokens` is set. */
  ghost predicate TokenCapRule(e: ModelInfo) {
    e.maxOutputTokens.Some? ==>
      && e.provider == OpenAi && e.baseModelId.Some?
      && ((e.id == e.baseModelId.value + ":minimal" && e.maxOutputTokens == Some(4000)) ||
          (e.id == e.baseModelId.value + ":extra-high" && e.maxOutputTokens == Some(100000)))
  }

  ghost predicate AllTokenCapRule(es: seq<ModelInfo>) {
    forall k :: 0 <= k < |es| ==> TokenCapRule(es[k])
  }

  /** Only two rows of the variant tables set `maxOutputTokens`, both OpenAI's. */
  lemma SpecTokenCap(provider: Provider, j: nat)
    requires j < |VariantSpecs(provider)|
    ensures var spec := VariantSpecs(provider)[j];
      spec.maxOutputTokens.Some? ==>
        && provider == OpenAi
        && ((spec.suffix == "minimal" && spec.maxOutputTokens == Some(4000)) ||
            (spec.suffix == "extra-high" && spec.maxOutputTokens == Some(100000)))
  {
    if provider == OpenAi {
      assert j < 5;
    }
  }

  lemma ModelEntriesTokenCap(m: DevModel, provider: Provider, providerLabel: string, sortOrder: int)
    ensures AllTokenCapRule(ModelEntries(m, provider, providerLabel, sortOrder))
  {
    var base := BaseEntry(m, provider, providerLabel, sortOrder);
    var es := ModelEntries(m, provider, providerLabel, sortOrder);
    forall k | 0 <= k < |es| ensures TokenCapRule(es[k]) {
      if k > 0 {
        SpecTokenCap(provider, k - 1);
        assert es[k] == Variant(base, VariantSpecs(provider)[k - 1], provider, sortOrder + k);
      }
    }
  }

  /** Only the OpenAI `minimal` (4000) and `extra-high` (100000) variants set `maxOutputTokens`. */
  lemma {:induction false} MaxOutputTokensOnlyOnTwoVariants(models: seq<DevModel>, n: nat, provider: Provider,
                                                           providerLabel: string, startSortOrder: int)
    requires n <= |models|
    ensures AllTokenCapRule(ProviderEntries(models, n, provider, providerLabel, startSortOrder))
    decreases n
  {
    if n != 0 {
      MaxOutputTokensOnlyOnTwoVariants(models, n - 1, provider, providerLabel, startSortOrder);
      TokenCapStep(models, n, provider, providerLabel, startSortOrder);
    }
  }

  lemma TokenCapStep(models: seq<DevModel>, n: nat, provider: Provider, providerLabel: string, startSortOrder: int)
    requires 0 < n <= |models|
    requires AllTokenCapRule(ProviderEntries(models, n - 1, provider, providerLabel, startSortOrder))
    ensures AllTokenCapRule(ProviderEntries(models, n, provider, providerLabel, startSortOrder))
  {
    var before := ProviderEntries(models, n - 1, provider, providerLabel, startSortOrder);
    ProviderEntriesLast(models, n, provider, providerLabel, startSortOrder);
    TokenCapAfter(before, models[n - 1], provider, providerLabel, startSortOrder + |before|,
                  ProviderEntries(models, n, provider, providerLabel, startSortOrder));
  }

  /** One model's entries after a run that keeps the rule: the rule still holds. */
  lemma TokenCapAfter(before: seq<ModelInfo>, m: DevModel, provider: Provider, providerLabel: string,
                      sortOrder: int, r: seq<ModelInfo>)
    requires AllTokenCapRule(before)
    requires r == before + ModelEntries(m, provider, providerLabel, sortOrder)
    ensures AllTokenCapRule(r)
  {
    ModelEntriesTokenCap(m, provider, providerLabel, sortOrder);
    AllTokenCapRuleAppend(before, ModelEntries(m, provider, providerLabel, sortOrder), r);
  }

  lemma AllTokenCapRuleAppend(a: seq<ModelInfo>, b: seq<ModelInfo>, r: seq<ModelInfo>)
    requires AllTokenCapRule(a) && AllTokenCapRule(b)
    requires r == a + b
    ensures AllTokenCapRule(r)
  {
    forall k | 0 <= k < |r| ensures TokenCapRule(r[k]) {
      if k < |a| {
        assert r[k] == a[k];
      } else {
        assert r[k] == b[k - |a|];
      }
    }
  }

  /** The base models of a section are in name order. */
  lemma SectionModelsAreSortedByName(models: seq<DevModel>)
    ensures Sorted(Sort(models, NameLe), NameLe)
    ensures multiset(Sort(models, NameLe)) == multiset(models)
  {
    NameLeIsTotalPreorder();
    SortSorted(models, NameLe);
  }
}
