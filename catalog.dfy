/**
 * The static model catalog and the helpers that decide which models can
 * be selected with the stored API keys.
 */
module Catalog {
  import opened Wrappers
  import opened Types

  datatype ModelDefinition = ModelDefinition(
    id: string,
    name: string,
    providerId: string,
    isFree: bool,
    contextWindow: Option<nat>,
    description: Option<string>)

  /** `AVAILABLE_MODELS`, in catalog order: the four free Groq-hosted models, then the paid ones. */
  const AvailableModels: seq<ModelDefinition> := FreeModels + PaidModels

  const FreeModels: seq<ModelDefinition> := [
    ModelDefinition("llama-3.3-70b-versatile", "Llama 3.3 70B", "groq", true, Some(128000), Some("Meta's latest, most capable open model")),
    ModelDefinition("llama-3.1-8b-instant", "Llama 3.1 8B", "groq", true, Some(128000), Some("Fast, lightweight model for quick tasks")),
    ModelDefinition("mixtral-8x7b-32768", "Mixtral 8x7B", "groq", true, Some(32768), Some("Mistral's powerful MoE model")),
    ModelDefinition("gemma2-9b-it", "Gemma 2 9B", "groq", true, Some(8192), Some("Google's efficient open model"))
  ]

  const PaidModels: seq<ModelDefinition> := [
    ModelDefinition("gpt-4o", "GPT-4o", "openai", false, Some(128000), Some("OpenAI's flagship multimodal model")),
    ModelDefinition("gpt-4o-mini", "GPT-4o Mini", "openai", false, Some(128000), Some("Fast and affordable")),
    ModelDefinition("gpt-4-turbo", "GPT-4 Turbo", "openai", false, Some(128000), Some("High intelligence model")),
    ModelDefinition("gpt-3.5-turbo", "GPT-3.5 Turbo", "openai", false, Some(16385), Some("Fast and cost-effective")),
    ModelDefinition("claude-3-5-sonnet-20241022", "Claude 3.5 Sonnet", "anthropic", false, Some(200000), Some("Anthropic's balanced flagship")),
    ModelDefinition("claude-3-opus-20240229", "Claude 3 Opus", "anthropic", false, Some(200000), Some("Most capable Claude model")),
    ModelDefinition("claude-3-haiku-20240307", "Claude 3 Haiku", "anthropic", false, Some(200000), Some("Fast and compact")),
    ModelDefinition("deepseek-chat", "DeepSeek V3", "deepseek", false, Some(64000), Some("DeepSeek's flagship chat model")),
    ModelDefinition("deepseek-reasoner", "DeepSeek R1", "deepseek", false, Some(64000), Some("Advanced reasoning model")),
    ModelDefinition("o3-mini", "OpenAI o3-mini", "openai", false, Some(128000), Some("OpenAI's latest reasoning model")),
    ModelDefinition("gpt-5-preview", "GPT-5 Preview", "openai", false, Some(1000000), Some("Next-gen intelligence")),
    ModelDefinition("gemini-3-pro-exp", "Gemini 3 Pro (Exp)", "gemini", false, Some(10000000), Some("2026 Era Experimental Release")),
    ModelDefinition("claude-4-sonnet-preview", "Claude 4 Sonnet", "anthropic", false, Some(500000), Some("Ultra-advanced reasoning"))
  ]

  /** `!!apiKeys[providerId]`: a key is stored for the provider and it is not the empty string. */
  predicate Selectable(apiKeys: map<string, string>, model: ModelDefinition)
  {
    model.isFree || HasKey(apiKeys, model.providerId)
  }

  /** The filter of `getAvailableModels`, over any list of definitions. */
  function SelectableAmong(models: seq<ModelDefinition>, apiKeys: map<string, string>): seq<ModelDefinition>
  {
    if models == [] then []
    else if Selectable(apiKeys, models[0]) then [models[0]] + SelectableAmong(models[1..], apiKeys)
    else SelectableAmong(models[1..], apiKeys)
  }

  /** `getAvailableModels(apiKeys)`. */
  function GetAvailableModels(apiKeys: map<string, string>): seq<ModelDefinition>
  {
    SelectableAmong(AvailableModels, apiKeys)
  }

  /** `getModelById(modelId)`: the first catalog entry with that id. */
  function GetModelById(modelId: string): Option<ModelDefinition>
  {
    FirstWithId(AvailableModels, modelId)
  }

  function FirstWithId(models: seq<ModelDefinition>, modelId: string): (found: Option<ModelDefinition>)
    ensures found.Some? ==> found.value in models && found.value.id == modelId
    ensures found.None? <==> forall k :: 0 <= k < |models| ==> models[k].id != modelId
    ensures found.Some? ==> (exists k :: 0 <= k < |models| && models[k] == found.value
                                       && (forall j :: 0 <= j < k ==> models[j].id != modelId))
  {
    if models == [] then None
    else if models[0].id == modelId then Some(models[0])
    else
      var found := FirstWithId(models[1..], modelId);
      assert found.Some? ==> (exists k :: 1 <= k < |models| && models[k] == found.value
                                          && (forall j :: 0 <= j < k ==> models[j].id != modelId)) by {
        if found.Some? {
          var k' :| 0 <= k' < |models[1..]| && models[1..][k'] == found.value
                    && (forall j :: 0 <= j < k' ==> models[1..][j].id != modelId);
          assert models[k' + 1] == found.value;
          forall j | 0 <= j < k' + 1 ensures models[j].id != modelId {
            if j > 0 { assert models[j] == models[1..][j - 1]; }
          }
        }
      }
      found
  }

  const DefaultTemperature: real := 0.7

  /** `createModelConfig(model, temperature = 0.7)`; None stands for an omitted argument. */
  function CreateModelConfig(model: ModelDefinition, temperature: Option<real>): (config: ModelConfig)
    ensures config.provider == model.providerId && config.modelId == model.id
    ensures config.temperature == Some(if temperature.Some? then temperature.value else DefaultTemperature)
    ensures config.apiKey.None? && config.baseUrl.None?
  {
    ModelConfig(model.providerId, model.id, Some(if temperature.Some? then temperature.value else DefaultTemperature), None, None)
  }

  // ----------------------------------------------------------------- lemmas

  /** `xs` keeps some elements of `ys`, in their order. */
  predicate Subsequence<T(==)>(xs: seq<T>, ys: seq<T>)
    decreases |ys|
  {
    xs == [] || (ys != [] && ((xs[0] == ys[0] && Subsequence(xs[1..], ys[1..])) || Subsequence(xs, ys[1..])))
  }

  /** A model is offered iff it is in the list and is free or its provider has a non-empty key. */
  lemma {:induction false} SelectableMembers(models: seq<ModelDefinition>, apiKeys: map<string, string>, m: ModelDefinition)
    ensures m in SelectableAmong(models, apiKeys) <==> m in models && Selectable(apiKeys, m)
    decreases |models|
  {
    if models != [] {
      SelectableMembers(models[1..], apiKeys, m);
      assert models == [models[0]] + models[1..];
    }
  }

  /** The offered models keep catalog order. */
  lemma {:induction false} SelectableInOrder(models: seq<ModelDefinition>, apiKeys: map<string, string>)
    ensures Subsequence(SelectableAmong(models, apiKeys), models)
    decreases |models|
  {
    if models != [] {
      SelectableInOrder(models[1..], apiKeys);
      var rest := SelectableAmong(models[1..], apiKeys);
      if Selectable(apiKeys, models[0]) {
        assert ([models[0]] + rest)[1..] == rest;
      }
    }
  }

  /** getAvailableModels: free models always; a paid model exactly when its provider's key is non-empty; catalog order. */
  lemma AvailableModelsSpec(apiKeys: map<string, string>, m: ModelDefinition)
    ensures m in AvailableModels && m.isFree ==> m in GetAvailableModels(apiKeys)
    ensures m in AvailableModels && !m.isFree ==>
      (m in GetAvailableModels(apiKeys) <==> m.providerId in apiKeys && apiKeys[m.providerId] != "")
    ensures m in GetAvailableModels(apiKeys) ==> m in AvailableModels
    ensures Subsequence(GetAvailableModels(apiKeys), AvailableModels)
  {
    SelectableMembers(AvailableModels, apiKeys, m);
    SelectableInOrder(AvailableModels, apiKeys);
  }

  /** Adding keys never removes a model. */
  lemma AvailableMonotone(apiKeys: map<string, string>, more: map<string, string>, m: ModelDefinition)
    requires forall p :: HasKey(apiKeys, p) ==> HasKey(more, p)
    requires m in GetAvailableModels(apiKeys)
    ensures m in GetAvailableModels(more)
  {
    SelectableMembers(AvailableModels, apiKeys, m);
    SelectableMembers(AvailableModels, more, m);
  }

  /** With no keys stored, exactly the four free Groq-hosted models are offered. */
  lemma NoKeysOnlyFree()
    ensures GetAvailableModels(map[]) == AvailableModels[..4]
    ensures forall m :: m in GetAvailableModels(map[]) ==> m.isFree
  {
    SelectableAppend(FreeModels, PaidModels, map[]);
    FreeModelsAreFree();
    FreeAlwaysKept(FreeModels, map[]);
    PaidModelsArePaid();
    PaidOnlyWithoutKeys(PaidModels);
    assert GetAvailableModels(map[]) == FreeModels;
    assert AvailableModels[..4] == FreeModels;
  }

  lemma FreeModelsAreFree()
    ensures forall k :: 0 <= k < |FreeModels| ==> FreeModels[k].isFree
  {
  }

  lemma PaidModelsArePaid()
    ensures forall m :: m in PaidModels ==> !m.isFree
  {
    forall m | m in PaidModels
      ensures !m.isFree
    {
      var k :| 0 <= k < |PaidModels| && PaidModels[k] == m;
      assert !PaidModels[k].isFree;
    }
  }

  lemma {:induction false} SelectableAppend(a: seq<ModelDefinition>, b: seq<ModelDefinition>, apiKeys: map<string, string>)
    ensures SelectableAmong(a + b, apiKeys) == SelectableAmong(a, apiKeys) + SelectableAmong(b, apiKeys)
    decreases |a|
  {
    if a == [] {
      assert a + b == b;
    } else {
      assert (a + b)[1..] == a[1..] + b;
      SelectableAppend(a[1..], b, apiKeys);
    }
  }

  lemma {:induction false} FreeAlwaysKept(models: seq<ModelDefinition>, apiKeys: map<string, string>)
    requires forall k :: 0 <= k < |models| ==> models[k].isFree
    ensures SelectableAmong(models, apiKeys) == models
    decreases |models|
  {
    if models != [] {
      assert forall k :: 0 <= k < |models[1..]| ==> models[1..][k] == models[k + 1];
      FreeAlwaysKept(models[1..], apiKeys);
    }
  }

  lemma {:induction false} PaidOnlyWithoutKeys(models: seq<ModelDefinition>)
    requires forall m :: m in models ==> !m.isFree
    ensures SelectableAmong(models, map[]) == []
    decreases |models|
  {
    if models != [] {
      assert models[0] in models;
      assert forall m :: m in models[1..] ==> m in models;
      PaidOnlyWithoutKeys(models[1..]);
    }
  }

  /** No two catalog entries share an id. */
  lemma CatalogIdsDistinct()
    ensures forall i, j :: 0 <= i < j < |AvailableModels| ==> AvailableModels[i].id != AvailableModels[j].id
  {
  }

  /** `getModelById` finds every catalog entry by its own id, and nothing for an unknown id. */
  lemma ModelByIdFindsEntry(m: ModelDefinition, unknown: string)
    requires m in AvailableModels
    requires forall k :: 0 <= k < |AvailableModels| ==> AvailableModels[k].id != unknown
    ensures GetModelById(m.id) == Some(m)
    ensures GetModelById(unknown) == None
  {
    CatalogIdsDistinct();
    var found := GetModelById(m.id);
    var i :| 0 <= i < |AvailableModels| && AvailableModels[i] == m;
    var j :| 0 <= j < |AvailableModels| && AvailableModels[j] == found.value;
    assert i == j;
  }
}
