/**
 * config/ai-providers.ts: the table of free services and the process-wide "active provider"
 * that `setActiveProvider` switches between enabled entries of that table.
 */
module AiProviders {
  import opened Wrappers
  import opened Seqs

  datatype ProviderConfig = ProviderConfig(
    name: string,
    apiKey: Option<string>,
    baseUrl: Option<string>,
    model: Option<string>,
    enabled: bool)

  /** `FREE_AI_PROVIDERS`: five entries, all enabled. */
  const FreeAiProviders: seq<ProviderConfig> := [
    ProviderConfig("OpenRouter", None, Some("https://openrouter.ai/api/v1"), Some("openrouter/auto"), true),
    ProviderConfig("HuggingFace", None, Some("https://api-inference.huggingface.co/models"),
                   Some("mistralai/Mistral-7B-Instruct-v0.1"), true),
    ProviderConfig("Ollama", None, Some("http://localhost:11434/api"), Some("llama3"), true),
    ProviderConfig("Anthropic Claude (Free tier)", None, Some("https://api.anthropic.com/v1"),
                   Some("claude-3-haiku-20240307"), true),
    ProviderConfig("Google Gemini (Free tier)", None, Some("https://generativelanguage.googleapis.com/v1beta"),
                   Some("gemini-pro"), true)
  ]

  /** `MOCK_PROVIDER`. */
  const MockProvider: ProviderConfig := ProviderConfig("Mock Provider", None, None, None, true)

  /** `table.find(p => p.enabled)`. */
  function FirstEnabled(table: seq<ProviderConfig>): Option<ProviderConfig> {
    Find((p: ProviderConfig) => p.enabled, table)
  }

  /** `table.find(p => p.name === name && p.enabled)`. */
  function FindEnabledNamed(table: seq<ProviderConfig>, name: string): Option<ProviderConfig> {
    Find((p: ProviderConfig) => p.name == name && p.enabled, table)
  }

  /** The initial active provider: the first enabled entry, or the first entry when none is enabled. */
  function InitialActive(table: seq<ProviderConfig>): (r: ProviderConfig)
    requires |table| > 0
    ensures r in table
    ensures (exists i :: 0 <= i < |table| && table[i].enabled) ==>
              r.enabled && exists i :: 0 <= i < |table| && table[i] == r && forall j :: 0 <= j < i ==> !table[j].enabled
    ensures (forall i :: 0 <= i < |table| ==> !table[i].enabled) ==> r == table[0]
  {
    FirstEnabled(table).GetOr(table[0])
  }

  /** `initializeProvider`: the first enabled entry, or the mock provider when none is enabled. */
  function InitializeProvider(table: seq<ProviderConfig>): (r: ProviderConfig)
    ensures r.enabled
    ensures r == MockProvider || r in table
    ensures (forall i :: 0 <= i < |table| ==> !table[i].enabled) ==> r == MockProvider
    ensures (exists i :: 0 <= i < |table| && table[i].enabled) ==>
              exists i :: 0 <= i < |table| && table[i] == r && forall j :: 0 <= j < i ==> !table[j].enabled
    ensures r == MockProvider && MockProvider !in table ==> forall i :: 0 <= i < |table| ==> !table[i].enabled
  {
    FirstEnabled(table).GetOr(MockProvider)
  }

  /** Whenever some entry is enabled, initialization picks the provider that starts out active. */
  lemma InitializeAgreesWithInitial(table: seq<ProviderConfig>)
    requires exists i :: 0 <= i < |table| && table[i].enabled
    ensures InitializeProvider(table) == InitialActive(table)
  {
  }

  /** For the shipped table both are the OpenRouter entry. */
  lemma ShippedDefaults()
    ensures InitialActive(FreeAiProviders) == FreeAiProviders[0]
    ensures InitializeProvider(FreeAiProviders).name == "OpenRouter"
  {
    assert FreeAiProviders[0].enabled;
  }

  /** The state `setActiveProvider(name)` leaves behind, from active provider `active`. */
  function SetActiveStep(table: seq<ProviderConfig>, active: ProviderConfig, name: string): (r: ProviderConfig)
    ensures (exists i :: 0 <= i < |table| && table[i].name == name && table[i].enabled) ==>
              r.name == name && r.enabled && r in table
    ensures (forall i :: 0 <= i < |table| ==> !(table[i].name == name && table[i].enabled)) ==> r == active
  {
    FindEnabledNamed(table, name).GetOr(active)
  }

  /** Switching to the same name twice leaves the state switching once leaves. */
  lemma SetActiveIdempotent(table: seq<ProviderConfig>, active: ProviderConfig, name: string)
    ensures SetActiveStep(table, SetActiveStep(table, active, name), name) == SetActiveStep(table, active, name)
  {
  }

  /** The mock provider is not in the table, so it can never be made active by name. */
  lemma MockIsNotSelectable(active: ProviderConfig)
    ensures SetActiveStep(FreeAiProviders, active, MockProvider.name) == active
  {
    assert forall i :: 0 <= i < |FreeAiProviders| ==> FreeAiProviders[i].name != MockProvider.name by {
      assert FreeAiProviders[0].name[0] != MockProvider.name[0];
      assert FreeAiProviders[1].name[0] != MockProvider.name[0];
      assert FreeAiProviders[2].name[0] != MockProvider.name[0];
      assert FreeAiProviders[3].name[0] != MockProvider.name[0];
      assert FreeAiProviders[4].name[0] != MockProvider.name[0];
    }
  }

  /** The module-level `activeProvider` variable. */
  class ProviderRegistry {
    var active: ProviderConfig

    /** Module load: the first enabled entry of the shipped table. */
    constructor()
      ensures active == InitialActive(FreeAiProviders)
    {
      active := FirstEnabled(FreeAiProviders).GetOr(FreeAiProviders[0]);
    }

    /** `getActiveProvider`: reads the state and changes nothing. */
    function GetActiveProvider(): (r: ProviderConfig)
      reads this
      ensures r == active
    {
      active
    }

    /**
     * `setActiveProvider`: succeeds exactly when an enabled entry carries the name, and then
     * makes the first such entry active; otherwise the active provider is unchanged.
     */
    method SetActiveProvider(name: string) returns (ok: bool)
      modifies this
      ensures ok <==> exists i :: 0 <= i < |FreeAiProviders| && FreeAiProviders[i].name == name && FreeAiProviders[i].enabled
      ensures ok ==> active.name == name && active.enabled && active in FreeAiProviders
      ensures !ok ==> active == old(active)
      ensures active == SetActiveStep(FreeAiProviders, old(active), name)
    {
      var provider := FindEnabledNamed(FreeAiProviders, name);
      if provider.Some? {
        active := provider.value;
        return true;
      }
      return false;
    }
  }
}
