/**
 * `src/store/providers.ts`: the key and transport of each provider. The one
 * action merges a partial entry into one provider's settings; persistence is
 * left out.
 */
module ProvidersStore {
  import opened Wrappers
  import opened Types

  /** A `Partial<ProviderSettings>`: `Some(v)` is a key that is present, with the value `v`. */
  datatype SettingsPatch = SettingsPatch(apiKey: Option<string>, baseUrl: Option<Option<string>>, transport: Option<Option<Transport>>)

  /** Lines 14-17: no key, the direct transport. */
  const DefaultSettings := ProviderSettings("", None, Some(Direct))

  /** Lines 22-27: every provider starts from the default settings. */
  function Initial(): (providers: map<ProviderName, ProviderSettings>)
    ensures providers.Keys == Names
    ensures forall p: ProviderName :: p in providers && providers[p] == DefaultSettings
  {
    EveryProviderListed();
    map[OpenAI := DefaultSettings, Anthropic := DefaultSettings, DeepSeek := DefaultSettings,
        OpenAICompatible := DefaultSettings]
  }

  const Names: set<ProviderName> := {OpenAI, Anthropic, DeepSeek, OpenAICompatible}

  lemma EveryProviderListed()
    ensures forall p: ProviderName :: p in Names
  {
    forall p: ProviderName
      ensures p in Names
    {
      match p
      case OpenAI =>
      case Anthropic =>
      case DeepSeek =>
      case OpenAICompatible =>
    }
  }

  /** `{ ...current, ...settings }`: the keys present overwrite, the absent ones keep their value. */
  function Merge(s: ProviderSettings, p: SettingsPatch): (r: ProviderSettings)
    ensures p.apiKey.Some? ==> r.apiKey == p.apiKey.value
    ensures p.apiKey.None? ==> r.apiKey == s.apiKey
    ensures p.baseUrl.Some? ==> r.baseUrl == p.baseUrl.value
    ensures p.baseUrl.None? ==> r.baseUrl == s.baseUrl
    ensures p.transport.Some? ==> r.transport == p.transport.value
    ensures p.transport.None? ==> r.transport == s.transport
  {
    ProviderSettings(p.apiKey.GetOr(s.apiKey), p.baseUrl.GetOr(s.baseUrl), p.transport.GetOr(s.transport))
  }

  /** Lines 28-34: only the named provider's entry changes. */
  function SetSettings(providers: map<ProviderName, ProviderSettings>, provider: ProviderName, settings: SettingsPatch)
    : (r: map<ProviderName, ProviderSettings>)
    requires provider in providers
    ensures r.Keys == providers.Keys
    ensures r[provider] == Merge(providers[provider], settings)
    ensures forall q :: q in providers && q != provider ==> r[q] == providers[q]
  {
    providers[provider := Merge(providers[provider], settings)]
  }

  /** Applying the same partial settings twice gives the state applying them once gives. */
  lemma SetSettingsIdempotent(providers: map<ProviderName, ProviderSettings>, provider: ProviderName, settings: SettingsPatch)
    requires provider in providers
    ensures SetSettings(SetSettings(providers, provider, settings), provider, settings) == SetSettings(providers, provider, settings)
  {
    var once := SetSettings(providers, provider, settings);
    assert Merge(once[provider], settings) == once[provider];
  }

  /** Settings given to two different providers do not interfere: the order does not matter. */
  lemma SetSettingsCommute(providers: map<ProviderName, ProviderSettings>, p: ProviderName, a: SettingsPatch,
                           q: ProviderName, b: SettingsPatch)
    requires p in providers && q in providers && p != q
    ensures SetSettings(SetSettings(providers, p, a), q, b) == SetSettings(SetSettings(providers, q, b), p, a)
  {
  }

  class Store {
    var providers: map<ProviderName, ProviderSettings>

    /** Every provider has an entry, from the start and after any update. */
    predicate Valid()
      reads this
    {
      forall p: ProviderName :: p in providers
    }

    /** Lines 21-27. */
    constructor ()
      ensures Valid() && providers == Initial()
    {
      providers := Initial();
    }

    method SetProviderSettings(provider: ProviderName, settings: SettingsPatch)
      requires Valid()
      modifies this
      ensures Valid() && providers == SetSettings(old(providers), provider, settings)
    {
      providers := providers[provider := Merge(providers[provider], settings)];
    }

    /** Line 35: the entry stored for the provider. */
    function GetProviderSettings(provider: ProviderName): (s: ProviderSettings)
      requires Valid()
      reads this
      ensures s == providers[provider]
    {
      providers[provider]
    }
  }
}
