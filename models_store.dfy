/**
 * `src/store/models.ts`: the list of models a run can be asked of. Each action
 * replaces the list with a mapped or filtered copy; persistence is left out.
 */
module ModelsStore {
  import opened Wrappers
  import opened Types

  /** A `Partial<ModelSettings>`: `Some(v)` is a key that is present, with the value `v`. */
  datatype ModelPatch = ModelPatch(
    id: Option<string>,
    labelText: Option<string>,
    provider: Option<ProviderName>,
    temperature: Option<Option<real>>,
    maxTokens: Option<Option<int>>,
    enabled: Option<bool>)

  function Seed(id: string, labelText: string, provider: ProviderName): ModelSettings {
    ModelSettings(id, labelText, provider, Some(0.7), None, false)
  }

  /** Lines 15-63: two models of each of three providers, all switched off. */
  const SeedModels: seq<ModelSettings> := [
    Seed("gpt-4o-mini", "GPT-4o Mini", OpenAI),
    Seed("gpt-4o", "GPT-4o", OpenAI),
    Seed("claude-3-5-sonnet-20241022", "Claude 3.5 Sonnet", Anthropic),
    Seed("claude-3-haiku-20240307", "Claude 3 Haiku", Anthropic),
    Seed("deepseek-chat", "DeepSeek Chat", DeepSeek),
    Seed("deepseek-coder", "DeepSeek Coder", DeepSeek)
  ]

  /** The seed list holds six models, none enabled, each at temperature 0.7. */
  lemma SeedModelsDisabled()
    ensures |SeedModels| == 6
    ensures forall k :: 0 <= k < |SeedModels| ==> !SeedModels[k].enabled && SeedModels[k].temperature == Some(0.7)
    ensures Enabled(SeedModels) == []
  {
    EnabledNone(SeedModels);
  }

  /** `{ ...model, ...updates }`. */
  function Merge(m: ModelSettings, p: ModelPatch): (r: ModelSettings)
    ensures r.id == p.id.GetOr(m.id) && r.enabled == p.enabled.GetOr(m.enabled)
    ensures p == ModelPatch(None, None, None, None, None, None) ==> r == m
  {
    ModelSettings(p.id.GetOr(m.id), p.labelText.GetOr(m.labelText), p.provider.GetOr(m.provider),
                  p.temperature.GetOr(m.temperature), p.maxTokens.GetOr(m.maxTokens), p.enabled.GetOr(m.enabled))
  }

  /** Lines 73-78: the patch merged into every model with the id; the rest, the length and the order kept. */
  function UpdateWhere(models: seq<ModelSettings>, id: string, updates: ModelPatch): (r: seq<ModelSettings>)
    ensures |r| == |models|
    ensures forall k :: 0 <= k < |models| ==> r[k] == if models[k].id == id then Merge(models[k], updates) else models[k]
  {
    if models == [] then []
    else UpdateWhere(models[..|models| - 1], id, updates)
           + [if models[|models| - 1].id == id then Merge(models[|models| - 1], updates) else models[|models| - 1]]
  }

  function Flip(m: ModelSettings): ModelSettings {
    m.(enabled := !m.enabled)
  }

  /** Lines 83-88: `enabled` flipped on every model with the id, and nothing else changed. */
  function ToggleWhere(models: seq<ModelSettings>, id: string): (r: seq<ModelSettings>)
    ensures |r| == |models|
    ensures forall k :: 0 <= k < |models| ==>
      r[k] == if models[k].id == id then models[k].(enabled := !models[k].enabled) else models[k]
  {
    if models == [] then []
    else ToggleWhere(models[..|models| - 1], id) + [if models[|models| - 1].id == id then Flip(models[|models| - 1]) else models[|models| - 1]]
  }

  /** Toggling the same id twice gives the list back. */
  lemma ToggleTwice(models: seq<ModelSettings>, id: string)
    ensures ToggleWhere(ToggleWhere(models, id), id) == models
  {
    var once := ToggleWhere(models, id);
    var twice := ToggleWhere(once, id);
    forall k | 0 <= k < |models|
      ensures twice[k] == models[k]
    {
      assert once[k].id == models[k].id;
    }
  }

  /** `models.filter(keep)`, keeping the order. */
  function Filter(models: seq<ModelSettings>, keep: ModelSettings -> bool): (r: seq<ModelSettings>)
    ensures |r| <= |models|
    ensures forall k :: 0 <= k < |r| ==> keep(r[k]) && r[k] in models
  {
    if models == [] then []
    else
      var rest := Filter(models[..|models| - 1], keep);
      var last := models[|models| - 1];
      assert forall m :: m in models[..|models| - 1] ==> m in models;
      rest + (if keep(last) then [last] else [])
  }

  /** Every model that passes is kept: the filter loses nothing it should keep. */
  lemma {:induction false} FilterKeepsAll(models: seq<ModelSettings>, keep: ModelSettings -> bool, k: nat)
    requires k < |models| && keep(models[k])
    ensures models[k] in Filter(models, keep)
  {
    var init := models[..|models| - 1];
    if k < |models| - 1 {
      FilterKeepsAll(init, keep, k);
      assert init[k] == models[k];
    }
  }

  /** Filtering one list after another is filtering them joined: the order is kept. */
  lemma {:induction false} FilterAppend(a: seq<ModelSettings>, b: seq<ModelSettings>, keep: ModelSettings -> bool)
    ensures Filter(a + b, keep) == Filter(a, keep) + Filter(b, keep)
  {
    if b != [] {
      FilterAppend(a, b[..|b| - 1], keep);
      assert (a + b)[..|a + b| - 1] == a + b[..|b| - 1];
    } else {
      assert a + b == a;
    }
  }

  /** Lines 79-82: every model with the id removed. */
  function Delete(models: seq<ModelSettings>, id: string): (r: seq<ModelSettings>)
    ensures forall k :: 0 <= k < |r| ==> r[k].id != id
  {
    Filter(models, (m: ModelSettings) => m.id != id)
  }

  /** Line 89: the enabled models, in list order. */
  function Enabled(models: seq<ModelSettings>): (r: seq<ModelSettings>)
    ensures forall k :: 0 <= k < |r| ==> r[k].enabled && r[k] in models
  {
    Filter(models, (m: ModelSettings) => m.enabled)
  }

  /** Lines 90-91: the models of one provider, in list order. */
  function ByProvider(models: seq<ModelSettings>, provider: ProviderName): (r: seq<ModelSettings>)
    ensures forall k :: 0 <= k < |r| ==> r[k].provider == provider && r[k] in models
  {
    Filter(models, (m: ModelSettings) => m.provider == provider)
  }

  lemma {:induction false} EnabledNone(models: seq<ModelSettings>)
    requires forall k :: 0 <= k < |models| ==> !models[k].enabled
    ensures Enabled(models) == []
  {
    if models != [] {
      var init := models[..|models| - 1];
      assert forall k :: 0 <= k < |init| ==> init[k] == models[k];
      EnabledNone(init);
    }
  }

  /** Deleting an id after adding a model with it removes the added model along with every older one. */
  lemma AddThenDelete(models: seq<ModelSettings>, model: ModelSettings)
    ensures Delete(models + [model], model.id) == Delete(models, model.id)
  {
    var keep := (m: ModelSettings) => m.id != model.id;
    FilterAppend(models, [model], keep);
    assert Filter([model], keep) == [] by {
      assert [model][..0] == [];
    }
  }

  class Store {
    var models: seq<ModelSettings>

    /** Line 68. */
    constructor ()
      ensures models == SeedModels
    {
      models := SeedModels;
    }

    /** Lines 69-72: appended at the end, with no check for a model with the same id. */
    method AddModel(model: ModelSettings)
      modifies this
      ensures models == old(models) + [model]
    {
      models := models + [model];
    }

    method UpdateModel(id: string, updates: ModelPatch)
      modifies this
      ensures models == UpdateWhere(old(models), id, updates)
    {
      models := UpdateWhere(models, id, updates);
    }

    method DeleteModel(id: string)
      modifies this
      ensures models == Delete(old(models), id)
    {
      models := Delete(models, id);
    }

    method ToggleModel(id: string)
      modifies this
      ensures models == ToggleWhere(old(models), id)
    {
      models := ToggleWhere(models, id);
    }

    function GetEnabledModels(): (r: seq<ModelSettings>)
      reads this
      ensures r == Enabled(models)
    {
      Enabled(models)
    }

    function GetModelsByProvider(provider: ProviderName): (r: seq<ModelSettings>)
      reads this
      ensures r == ByProvider(models, provider)
    {
      ByProvider(models, provider)
    }
  }
}
