/**
 * The configuration editor (components/SettingsModal.tsx): a list of saved backend
 * configurations, the id of the selected one, and the configuration being edited.
 *
 * The list operations are pure (`map` and spread build new arrays); the component then
 * commits their results to its state, which is what the class below does. `localStorage`
 * is an input on load and an output on save; `Date.now()` is the new entry's id, given
 * as a parameter.
 */
module SettingsModal {
  import opened Wrappers
  import opened Types
  import opened JsStrings
  import GeminiService

  const DefaultName := "Default (Gemini)"
  const DefaultModel := "gemini-2.5-flash"
  const NewConfigName := "New Config"
  const NewConfigModel := "gpt-4o-mini"

  /** `DEFAULT_CONFIG`; `envKey` is `process.env.API_KEY || ''`. */
  function DefaultConfig(envKey: string): (c: AIConfig)
    ensures c.id == "default" && c.name == DefaultName && c.provider == Google
    ensures c.apiKey == envKey && c.baseUrl.None? && c.modelName == DefaultModel
  {
    AIConfig("default", DefaultName, Google, envKey, None, DefaultModel)
  }

  /** The entry `handleAddNew` creates: an OpenAI backend with no key and an empty base URL. */
  function NewConfig(id: string): (c: AIConfig)
    ensures c.id == id && c.name == NewConfigName && c.provider == OpenAI
    ensures c.apiKey == "" && c.baseUrl == Some("") && c.modelName == NewConfigModel
  {
    AIConfig(id, NewConfigName, OpenAI, "", Some(""), NewConfigModel)
  }

  /** A new entry's empty base URL sends it to the OpenAI default on the chat path. */
  lemma NewConfigUsesOpenAIDefault(id: string)
    ensures GeminiService.Route(NewConfig(id)) == GeminiService.ChatCompletions
    ensures GeminiService.ChatUrl(NewConfig(id).baseUrl) == GeminiService.DefaultOpenAIBase + GeminiService.ChatPath
  {
  }

  /** `configs.find(c => c.id === id)`. */
  function FindConfig(configs: seq<AIConfig>, id: string): (r: Option<AIConfig>)
    ensures r.None? <==> forall i :: 0 <= i < |configs| ==> configs[i].id != id
    ensures r.Some? ==> exists i :: 0 <= i < |configs| && configs[i] == r.value && r.value.id == id
                          && forall j :: 0 <= j < i ==> configs[j].id != id
  {
    Find(configs, (c: AIConfig) => c.id == id)
  }

  /** `handleSave`'s `configs.map(c => c.id === edited.id ? edited : c)`. */
  function ReplaceById(configs: seq<AIConfig>, edited: AIConfig): (r: seq<AIConfig>)
    ensures |r| == |configs|
    ensures forall i :: 0 <= i < |r| ==> r[i] == if configs[i].id == edited.id then edited else configs[i]
  {
    seq(|configs|, i requires 0 <= i < |configs| => if configs[i].id == edited.id then edited else configs[i])
  }

  /** Saving keeps every position's id: the order and the set of entries stay as they were. */
  lemma ReplaceByIdKeepsIds(configs: seq<AIConfig>, edited: AIConfig)
    ensures forall i :: 0 <= i < |configs| ==> ReplaceById(configs, edited)[i].id == configs[i].id
  {
  }

  /** Saving a configuration whose id is not in the list leaves the list as it was. */
  lemma ReplaceByIdAbsent(configs: seq<AIConfig>, edited: AIConfig)
    requires forall i :: 0 <= i < |configs| ==> configs[i].id != edited.id
    ensures ReplaceById(configs, edited) == configs
  {
  }

  lemma ReplaceByIdIdempotent(configs: seq<AIConfig>, edited: AIConfig)
    ensures ReplaceById(ReplaceById(configs, edited), edited) == ReplaceById(configs, edited)
  {
  }

  /** After a save, looking the id up finds the edited configuration, if the id was in the list at all. */
  lemma ReplaceByIdThenFind(configs: seq<AIConfig>, edited: AIConfig)
    ensures var r := ReplaceById(configs, edited);
      FindConfig(r, edited.id) == if FindConfig(configs, edited.id).Some? then Some(edited) else None
  {
    var r := ReplaceById(configs, edited);
    ReplaceByIdKeepsIds(configs, edited);
    if FindConfig(r, edited.id).Some? {
      var i :| 0 <= i < |r| && r[i] == FindConfig(r, edited.id).value && r[i].id == edited.id;
      assert configs[i].id == edited.id;
    }
  }

  /** Adding an entry and saving it under its fresh id appends exactly the saved configuration. */
  lemma AddThenSaveAppends(configs: seq<AIConfig>, id: string, edited: AIConfig)
    requires edited.id == id
    requires forall i :: 0 <= i < |configs| ==> configs[i].id != id
    ensures ReplaceById(configs + [NewConfig(id)], edited) == configs + [edited]
  {
    var r := ReplaceById(configs + [NewConfig(id)], edited);
    forall i | 0 <= i < |r| ensures r[i] == (configs + [edited])[i] {
      if i < |configs| {
        assert (configs + [NewConfig(id)])[i] == configs[i];
      }
    }
  }

  /** One change made in the form: the field it names and the value entered. */
  datatype FieldEdit =
    | SetName(newName: string)
    | SetProvider(newProvider: AIProvider)
    | SetApiKey(newApiKey: string)
    | SetBaseUrl(newBaseUrl: string)
    | SetModelName(newModelName: string)

  /** `PROVIDERS.find(p => p.value === provider)`. */
  function FindProvider(providers: seq<ProviderInfo>, provider: AIProvider): (r: Option<ProviderInfo>)
    ensures r.None? <==> forall i :: 0 <= i < |providers| ==> providers[i].value != provider
    ensures r.Some? ==> r.value.value == provider && r.value in providers
    ensures r.Some? ==> exists i :: 0 <= i < |providers| && providers[i] == r.value
                          && forall j :: 0 <= j < i ==> providers[j].value != provider
  {
    Find(providers, (p: ProviderInfo) => p.value == provider)
  }

  /**
   * `handleChange`'s updater: the named field takes the entered value. A provider found
   * in the table also overwrites the base URL with its default (or '') and the model
   * name with its default model; an unknown provider changes only the provider.
   */
  function Edited(prev: AIConfig, edit: FieldEdit, providers: seq<ProviderInfo>): (r: AIConfig)
    ensures r.id == prev.id
    ensures edit.SetName? ==> r.name == edit.newName && r.(name := prev.name) == prev
    ensures edit.SetApiKey? ==> r.apiKey == edit.newApiKey && r.(apiKey := prev.apiKey) == prev
    ensures edit.SetBaseUrl? ==> r.baseUrl == Some(edit.newBaseUrl) && r.(baseUrl := prev.baseUrl) == prev
    ensures edit.SetModelName? ==> r.modelName == edit.newModelName && r.(modelName := prev.modelName) == prev
    ensures edit.SetProvider? ==>
      && r.provider == edit.newProvider
      && r.(provider := prev.provider, baseUrl := prev.baseUrl, modelName := prev.modelName) == prev
      && var info := FindProvider(providers, edit.newProvider);
      && (info.Some? ==> r.baseUrl == Some(info.value.defaultUrl.GetOr("")) && r.modelName == info.value.defaultModel)
      && (info.None? ==> r.baseUrl == prev.baseUrl && r.modelName == prev.modelName)
  {
    match edit
    case SetName(v) => prev.(name := v)
    case SetApiKey(v) => prev.(apiKey := v)
    case SetBaseUrl(v) => prev.(baseUrl := Some(v))
    case SetModelName(v) => prev.(modelName := v)
    case SetProvider(v) =>
      var info := FindProvider(providers, v);
      if info.Some? then prev.(provider := v, baseUrl := Some(info.value.defaultUrl.GetOr("")), modelName := info.value.defaultModel)
      else prev.(provider := v)
  }

  /** Entering the same value twice is the same as entering it once. */
  lemma EditedIdempotent(prev: AIConfig, edit: FieldEdit, providers: seq<ProviderInfo>)
    ensures Edited(Edited(prev, edit, providers), edit, providers) == Edited(prev, edit, providers)
  {
  }

  /** Choosing a provider decides the route on its own for Google and for the chat-path kinds. */
  lemma ProviderChoiceRoutes(prev: AIConfig, p: AIProvider, providers: seq<ProviderInfo>)
    ensures GeminiService.Route(Edited(prev, SetProvider(p), providers)) == GeminiService.Native <==> p == Google
    ensures p != Google && p != Claude ==>
      GeminiService.Route(Edited(prev, SetProvider(p), providers)) == GeminiService.ChatCompletions
  {
  }

  /** The providers the form warns about: those a browser page cannot call directly. */
  function IsBrowserRestricted(p: AIProvider): (r: bool)
    ensures r <==> p in {OpenAI, DeepSeek, Grok, Claude}
  {
    p == OpenAI || p == DeepSeek || p == Grok || p == Claude
  }

  /** Every restricted provider is reached over HTTP, never through the Google SDK. */
  lemma RestrictedProvidersUseHttp(c: AIConfig)
    requires IsBrowserRestricted(c.provider)
    ensures GeminiService.Route(c) != GeminiService.Native
  {
  }

  class SettingsComponent {
    const envKey: string
    var configs: seq<AIConfig>
    var selectedConfigId: string
    var editingConfig: AIConfig

    /** The component's initial state: an empty list, the current id selected, the default being edited. */
    constructor (currentConfigId: string, envKey: string)
      ensures this.envKey == envKey
      ensures configs == [] && selectedConfigId == currentConfigId && editingConfig == DefaultConfig(envKey)
    {
      this.envKey := envKey;
      configs := [];
      selectedConfigId := currentConfigId;
      editingConfig := DefaultConfig(envKey);
    }

    /**
     * The load effect. `saved` is the parsed `ai_configs` entry, None when it is missing
     * or empty. Without it the list becomes the default alone, which is then edited; with
     * it the list is taken as saved and the entry with the current id, if any, is edited.
     */
    method Load(saved: Option<seq<AIConfig>>, currentConfigId: string)
      modifies this`configs, this`editingConfig
      ensures saved.None? ==> configs == [DefaultConfig(envKey)] && editingConfig == DefaultConfig(envKey)
      ensures saved.Some? ==> configs == saved.value
      ensures saved.Some? && currentConfigId != "" && FindConfig(saved.value, currentConfigId).Some? ==>
        editingConfig == FindConfig(saved.value, currentConfigId).value && editingConfig.id == currentConfigId
      ensures saved.Some? && (currentConfigId == "" || FindConfig(saved.value, currentConfigId).None?) ==>
        editingConfig == old(editingConfig)
    {
      if saved.Some? {
        configs := saved.value;
        if currentConfigId != "" {
          var found := FindConfig(saved.value, currentConfigId);
          if found.Some? {
            editingConfig := found.value;
          }
        }
      } else {
        configs := [DefaultConfig(envKey)];
        editingConfig := DefaultConfig(envKey);
      }
    }

    /** `handleSelectConfig`: select an entry and edit a copy of it. */
    method SelectConfig(config: AIConfig)
      modifies this`selectedConfigId, this`editingConfig
      ensures selectedConfigId == config.id && editingConfig == config
    {
      selectedConfigId := config.id;
      editingConfig := config;
    }

    /** `handleAddNew`: append one new entry and make it the selected and edited one. */
    method AddNew(newId: string)
      modifies this`configs, this`selectedConfigId, this`editingConfig
      ensures configs == old(configs) + [NewConfig(newId)]
      ensures selectedConfigId == newId && editingConfig == NewConfig(newId)
    {
      var newConfig := NewConfig(newId);
      configs := configs + [newConfig];
      SelectConfig(newConfig);
    }

    /**
     * `handleSave`: replace the entries with the edited id, and hand back what is written
     * to storage and the configuration passed to `onConfigChange`.
     */
    method Save() returns (stored: seq<AIConfig>, applied: AIConfig)
      modifies this`configs
      ensures configs == ReplaceById(old(configs), editingConfig)
      ensures stored == configs && applied == editingConfig
    {
      var updatedConfigs := ReplaceById(configs, editingConfig);
      configs := updatedConfigs;
      stored := updatedConfigs;
      applied := editingConfig;
    }

    /**
     * `handleChange`: copy the edited configuration, set the field, auto-fill on a provider
     * change. `Edited` is the same updater as a function, which the lemmas above are about.
     */
    method Change(edit: FieldEdit, providers: seq<ProviderInfo>)
      modifies this`editingConfig
      ensures editingConfig == Edited(old(editingConfig), edit, providers)
    {
      var updated := editingConfig;
      match edit {
        case SetName(v) => updated := updated.(name := v);
        case SetApiKey(v) => updated := updated.(apiKey := v);
        case SetBaseUrl(v) => updated := updated.(baseUrl := Some(v));
        case SetModelName(v) => updated := updated.(modelName := v);
        case SetProvider(v) =>
          updated := updated.(provider := v);
          var provData := FindProvider(providers, v);
          if provData.Some? {
            updated := updated.(baseUrl := Some(provData.value.defaultUrl.GetOr("")));
            updated := updated.(modelName := provData.value.defaultModel);
          }
      }
      editingConfig := updated;
    }
  }
}
