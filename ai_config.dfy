/** The AI configuration dialog (src/components/audit/HeaderAIConfig.tsx): one
    configuration record that the handlers overwrite, a save that validates
    the API key before persisting, a fixed reset, and the model name shown in
    the header. The provider table (`getProviderInfo`), the per-provider model
    lists, `getApiKey` and the `NEXT_PUBLIC_GEMINI_API_KEY` variable are
    parameters. */
module AIConfiguration {
  import opened Wrappers
  import opened JsStrings
  import opened Sequences

  /** `AIConfig["provider"]`; `Unrecognized` stands for any other value a
      stored configuration may carry, which the handlers below treat
      differently. */
  datatype Provider = Gpt | Claude | Gemini | Xai | Unrecognized(id: string)

  datatype AIConfig = AIConfig(
    provider: Provider,
    gptKey: string,
    claudeKey: string,
    geminiKey: string,
    xaiKey: string,
    selectedModel: string,
    language: Option<string>,
    superPrompt: bool)

  /** An entry of `GPT_MODELS`, `CLAUDE_MODELS`, `GEMINI_MODELS` or `XAI_MODELS`. */
  datatype ModelInfo = ModelInfo(id: string, name: string)

  datatype ModelTables = ModelTables(gpt: seq<ModelInfo>, claude: seq<ModelInfo>, gemini: seq<ModelInfo>, xai: seq<ModelInfo>)

  /** The fields of `getProviderInfo(provider)` these handlers read. */
  datatype ProviderInfo = ProviderInfo(keyName: string, defaultModel: string)

  /** The key field that belongs to a provider; an unrecognised provider has none. */
  function KeyOf(c: AIConfig, p: Provider): Option<string>
  {
    match p
    case Gpt => Some(c.gptKey)
    case Claude => Some(c.claudeKey)
    case Gemini => Some(c.geminiKey)
    case Xai => Some(c.xaiKey)
    case Unrecognized(_) => None
  }

  /** `handleProviderChange`: `{ ...prev, provider, selectedModel: info.defaultModel }`. */
  function WithProvider(c: AIConfig, provider: Provider, defaultModel: string): (r: AIConfig)
    ensures r.provider == provider && r.selectedModel == defaultModel
    ensures forall p :: KeyOf(r, p) == KeyOf(c, p)
    ensures r.language == c.language && r.superPrompt == c.superPrompt
  {
    c.(provider := provider, selectedModel := defaultModel)
  }

  /** `handleKeyChange`: `{ ...prev, ...updates[prev.provider] }`. Only the
      current provider's key changes; with an unrecognised provider the spread
      of `undefined` changes nothing. */
  function WithKey(c: AIConfig, value: string): (r: AIConfig)
    ensures !c.provider.Unrecognized? ==> KeyOf(r, c.provider) == Some(value)
    ensures forall p :: p != c.provider ==> KeyOf(r, p) == KeyOf(c, p)
    ensures r.provider == c.provider && r.selectedModel == c.selectedModel
    ensures r.language == c.language && r.superPrompt == c.superPrompt
    ensures c.provider.Unrecognized? ==> r == c
  {
    match c.provider
    case Gpt => c.(gptKey := value)
    case Claude => c.(claudeKey := value)
    case Gemini => c.(geminiKey := value)
    case Xai => c.(xaiKey := value)
    case Unrecognized(_) => c
  }

  /** Editing the key twice keeps only the second value. */
  lemma WithKeyOverwrites(c: AIConfig, first: string, second: string)
    ensures WithKey(WithKey(c, first), second) == WithKey(c, second)
  {
  }

  /** Switching provider and back restores the keys the user had entered:
      switching never touches a key. */
  lemma ProviderRoundTripKeepsKeys(c: AIConfig, other: Provider, otherDefault: string, ownDefault: string)
    ensures var back := WithProvider(WithProvider(c, other, otherDefault), c.provider, ownDefault);
      back == c.(selectedModel := ownDefault)
  {
  }

  /** The language shown and used: `config.language || "english"`. */
  function EffectiveLanguage(c: AIConfig): (r: string)
    ensures r != ""
    ensures c.language.None? || c.language == Some("") ==> r == "english"
    ensures c.language.Some? && c.language.value != "" ==> r == c.language.value
  {
    if c.language.Some? && c.language.value != "" then c.language.value else "english"
  }

  /** `!currentKey?.trim()`: the key is missing or trims to nothing. */
  predicate IsBlankKey(key: Option<string>)
  {
    key.None? || Trim(key.value) == ""
  }

  /** `process.env.NEXT_PUBLIC_GEMINI_API_KEY` is truthy. */
  predicate IsSet(env: Option<string>)
  {
    env.Some? && env.value != ""
  }

  datatype SaveVerdict = Accepted | Rejected(message: string)

  /** The start of the message for a missing key; the provider's key name follows. */
  const MissingKeyPrompt: string := "Please enter your "

  /** The message for Gemini with neither a key nor the environment variable. */
  const MissingGeminiKey: string := "Please enter your Gemini API key or set NEXT_PUBLIC_GEMINI_API_KEY environment variable"

  /** The two guards of `handleSave`. */
  function ValidateSave(c: AIConfig, currentKey: Option<string>, keyName: string, envGeminiKey: Option<string>): (v: SaveVerdict)
    ensures c.provider != Gemini && v.Rejected? ==> v.message == MissingKeyPrompt + keyName
    ensures c.provider == Gemini && v.Rejected? ==> v.message == MissingGeminiKey
  {
    if c.provider != Gemini && IsBlankKey(currentKey) then
      Rejected(MissingKeyPrompt + keyName)
    else if c.provider == Gemini && IsBlankKey(currentKey) && !IsSet(envGeminiKey) then
      Rejected(MissingGeminiKey)
    else
      Accepted
  }

  /** Saving is accepted exactly when the key has a non-white-space
      character, or, for Gemini only, when the environment key is set. */
  lemma ValidateSaveAccepts(c: AIConfig, currentKey: Option<string>, keyName: string, envGeminiKey: Option<string>)
    ensures ValidateSave(c, currentKey, keyName, envGeminiKey).Accepted?
        <==> (currentKey.Some? && !IsBlank(currentKey.value)) || (c.provider == Gemini && IsSet(envGeminiKey))
  {
    if currentKey.Some? {
      TrimEmptyIffBlank(currentKey.value);
    }
    assert IsBlankKey(currentKey) <==> !(currentKey.Some? && !IsBlank(currentKey.value));
  }

  /** The configuration `Reset` installs. */
  function ResetConfig(firstGeminiModel: ModelInfo): (r: AIConfig)
    ensures r.provider == Gemini && r.selectedModel == firstGeminiModel.id
    ensures forall p: Provider :: !p.Unrecognized? ==> KeyOf(r, p) == Some("")
    ensures r.language == Some("english") && EffectiveLanguage(r) == "english" && r.superPrompt
  {
    AIConfig(Gemini, "", "", "", "", firstGeminiModel.id, Some("english"), true)
  }

  /** After a reset, saving succeeds exactly when the environment key is set. */
  lemma ResetThenSave(firstGeminiModel: ModelInfo, keyName: string, envGeminiKey: Option<string>)
    ensures var c := ResetConfig(firstGeminiModel);
      ValidateSave(c, KeyOf(c, c.provider), keyName, envGeminiKey).Accepted? <==> IsSet(envGeminiKey)
  {
    ValidateSaveAccepts(ResetConfig(firstGeminiModel), Some(""), keyName, envGeminiKey);
  }

  /** The header fallback for each provider when no model matches. */
  function ProviderLabel(p: Provider): string
  {
    match p
    case Gpt => "GPT"
    case Claude => "Claude"
    case Gemini => "Gemini"
    case Xai => "xAI"
    case Unrecognized(_) => "AI Model"
  }

  function ModelsFor(tables: ModelTables, p: Provider): seq<ModelInfo>
  {
    match p
    case Gpt => tables.gpt
    case Claude => tables.claude
    case Gemini => tables.gemini
    case Xai => tables.xai
    case Unrecognized(_) => []
  }

  /** `models.find(m => m.id === id)`, as the index of the first match or -1. */
  function FindModelIndex(models: seq<ModelInfo>, id: string): int
  {
    FindIndex(models, (m: ModelInfo) => m.id, id)
  }

  /** `getCurrentModelName`: the name of the first model of the provider's
      list whose id is the selected model, falling back to the provider label
      when there is none or its name is empty; "AI Model" for an unrecognised
      provider. */
  function CurrentModelName(c: AIConfig, tables: ModelTables): (r: string)
    ensures c.provider.Unrecognized? ==> r == "AI Model"
    ensures r == ProviderLabel(c.provider)
         || exists i :: 0 <= i < |ModelsFor(tables, c.provider)|
              && ModelsFor(tables, c.provider)[i].id == c.selectedModel
              && (forall j :: 0 <= j < i ==> ModelsFor(tables, c.provider)[j].id != c.selectedModel)
              && ModelsFor(tables, c.provider)[i].name == r
  {
    if c.provider.Unrecognized? then "AI Model"
    else
      var models := ModelsFor(tables, c.provider);
      var k := FindModelIndex(models, c.selectedModel);
      if k >= 0 && models[k].name != "" then models[k].name else ProviderLabel(c.provider)
  }

  /** The first matching model names the selection, when its name is not empty. */
  lemma CurrentModelNameFirstMatch(c: AIConfig, tables: ModelTables, i: int)
    requires !c.provider.Unrecognized?
    requires 0 <= i < |ModelsFor(tables, c.provider)|
    requires ModelsFor(tables, c.provider)[i].id == c.selectedModel
    requires forall j :: 0 <= j < i ==> ModelsFor(tables, c.provider)[j].id != c.selectedModel
    requires ModelsFor(tables, c.provider)[i].name != ""
    ensures CurrentModelName(c, tables) == ModelsFor(tables, c.provider)[i].name
  {
    assert FindModelIndex(ModelsFor(tables, c.provider), c.selectedModel) == i;
  }

  /** A first match with an empty name falls back to the provider label
      (`?.name || label`); a later match is not consulted. */
  lemma CurrentModelNameEmptyFirstMatch(c: AIConfig, tables: ModelTables, i: int)
    requires 0 <= i < |ModelsFor(tables, c.provider)|
    requires ModelsFor(tables, c.provider)[i].id == c.selectedModel
    requires forall j :: 0 <= j < i ==> ModelsFor(tables, c.provider)[j].id != c.selectedModel
    requires ModelsFor(tables, c.provider)[i].name == ""
    ensures CurrentModelName(c, tables) == ProviderLabel(c.provider)
  {
    assert FindModelIndex(ModelsFor(tables, c.provider), c.selectedModel) == i;
  }

  /** No matching model: the provider label. */
  lemma CurrentModelNameFallback(c: AIConfig, tables: ModelTables)
    requires forall m :: m in ModelsFor(tables, c.provider) ==> m.id != c.selectedModel
    ensures CurrentModelName(c, tables) == ProviderLabel(c.provider)
  {
  }

  /** The `config` state cell of the dialog and the `ai_config` entry of local storage. */
  class ConfigHolder {
    var config: AIConfig
    var stored: Option<AIConfig>

    constructor (initial: AIConfig, storedConfig: Option<AIConfig>)
      ensures config == initial && stored == storedConfig
    {
      config := initial;
      stored := storedConfig;
    }

    /** `handleProviderChange`; the select offers only the known providers. */
    method ProviderChange(provider: Provider, getProviderInfo: Provider -> ProviderInfo)
      requires !provider.Unrecognized?
      modifies this`config
      ensures config == WithProvider(old(config), provider, getProviderInfo(provider).defaultModel)
    {
      config := WithProvider(config, provider, getProviderInfo(provider).defaultModel);
    }

    /** `handleKeyChange`. */
    method KeyChange(value: string)
      modifies this`config
      ensures config == WithKey(old(config), value)
    {
      config := WithKey(config, value);
    }

    /** The model select: `{ ...prev, selectedModel }`. */
    method SelectModel(id: string)
      modifies this`config
      ensures config == old(config).(selectedModel := id)
    {
      config := config.(selectedModel := id);
    }

    /** The Super Prompt checkbox: `{ ...prev, superPrompt }`. */
    method SetSuperPrompt(checked: bool)
      modifies this`config
      ensures config == old(config).(superPrompt := checked)
    {
      config := config.(superPrompt := checked);
    }

    /** The language list: `{ ...config, language }`. */
    method SelectLanguage(language: string)
      modifies this`config
      ensures config == old(config).(language := Some(language))
    {
      config := config.(language := Some(language));
    }

    /** `handleSave`: persists the current configuration when the key guards
        pass, and otherwise persists nothing; the configuration itself is
        never changed. */
    method Save(getApiKey: AIConfig -> Option<string>, getProviderInfo: Provider -> ProviderInfo, envGeminiKey: Option<string>)
      returns (verdict: SaveVerdict)
      modifies this`stored
      ensures verdict == ValidateSave(config, getApiKey(config), getProviderInfo(config.provider).keyName, envGeminiKey)
      ensures stored == if verdict.Accepted? then Some(config) else old(stored)
    {
      verdict := ValidateSave(config, getApiKey(config), getProviderInfo(config.provider).keyName, envGeminiKey);
      if verdict.Accepted? {
        stored := Some(config);
      }
    }

    /** The Reset button: clears local storage and installs the default
        configuration; `GEMINI_MODELS[0]` must exist. */
    method Reset(geminiModels: seq<ModelInfo>)
      requires |geminiModels| > 0
      modifies this
      ensures stored.None? && config == ResetConfig(geminiModels[0])
    {
      stored := None;
      config := ResetConfig(geminiModels[0]);
    }
  }
}
