/**
 * Admin settings (services/adminSettings.ts): the stored record is overlaid on the defaults,
 * with the dropdown lists, prompt modes and prompt texts normalised; the getters pick models
 * from the pools and the prompt to use. The other fields are kept as stored, whatever they hold.
 */
module AdminSettings {
  import opened Wrappers
  import opened Json
  import opened Text
  import GenerateImageApi

  /** `IMAGE_MODEL_POOL` and `VIDEO_MODEL_POOL` of services/geminiService.ts. */
  const IMAGE_MODEL_POOL: seq<string> := [
    "flux-2/flex-image-to-image",
    "google/nano-banana-edit",
    "gpt-image/1.5-image-to-image",
    "qwen/image-edit",
    "grok-imagine/image-to-image",
    "ideogram/v3-edit",
    "fal-ai/image-apps-v2/virtual-try-on",
    "fal-ai/nano-banana-pro/edit"
  ]

  const VIDEO_MODEL_POOL: seq<string> := [
    "grok-imagine/image-to-video",
    "kling/v2-1-standard",
    "veo-3-1",
    "runway/gen-3-alpha-turbo",
    "hailuo/2-3-image-to-video-standard",
    "wan/2-2-a14b-image-to-video-turbo"
  ]

  /** The try-on prompt of lib/provider-abstraction.ts, kept opaque. */
  const DEFAULT_IMAGE_PROMPT: string := "<default try-on prompt>"
  const DEFAULT_VIDEO_PROMPT_TEXT: string :=
    "Fashion film, person moves, outfit visible." + " Soft lighting, cinematic."

  datatype PromptMode = DefaultMode | OpenAi | Custom

  /**
   * The merged settings. Fields the merge does not normalise keep whatever JSON value was
   * stored; the dropdown lists are arrays of any values.
   */
  datatype Settings = Settings(
    provider: Json, defaultImageModel: Json, defaultVideoModel: Json,
    imageModelChoice: Json, imageModelsInDropdown: seq<Json>, imageBackupModel: Json,
    videoModelChoice: Json, videoModelsInDropdown: seq<Json>, videoBackupModel: Json,
    imagePromptMode: PromptMode, imagePromptDefaultText: string, imagePromptCustom: string,
    videoPromptMode: PromptMode, videoPromptDefaultText: string, videoPromptCustom: string)

  function Strings(xs: seq<string>): (r: seq<Json>)
    ensures |r| == |xs| && forall i :: 0 <= i < |xs| ==> r[i] == JStr(xs[i])
  {
    if xs == [] then [] else [JStr(xs[0])] + Strings(xs[1..])
  }

  /** `DEFAULT_ADMIN_SETTINGS` */
  const DEFAULTS: Settings := Settings(
    JStr("kie"), JStr(IMAGE_MODEL_POOL[0]), JStr(VIDEO_MODEL_POOL[0]),
    JStr("dropdown"), Strings(IMAGE_MODEL_POOL), JStr(IMAGE_MODEL_POOL[1]),
    JStr("dropdown"), Strings(VIDEO_MODEL_POOL), JStr(VIDEO_MODEL_POOL[1]),
    DefaultMode, DEFAULT_IMAGE_PROMPT, "",
    DefaultMode, DEFAULT_VIDEO_PROMPT_TEXT, "")

  /** `{ ...DEFAULT_ADMIN_SETTINGS, ...parsed }` for one field. */
  function Overlay(parsed: Json, key: string, default: Json): (r: Json)
    ensures parsed.JObj? && key in parsed.fields ==> r == parsed.fields[key]
    ensures !(parsed.JObj? && key in parsed.fields) ==> r == default
  {
    var v := Field(Some(parsed), key);
    if v.Some? then v.value else default
  }

  /** An array is kept, anything else gives the default list. */
  function ListOr(parsed: Json, key: string, default: seq<Json>): seq<Json> {
    var v := Field(Some(parsed), key);
    if IsArray(v) then v.value.items else default
  }

  /** `'openai'` and `'custom'` are kept, anything else is `'default'`. */
  function ModeOf(parsed: Json, key: string): PromptMode {
    var v := Field(Some(parsed), key);
    if IsStr(v, "openai") then OpenAi else if IsStr(v, "custom") then Custom else DefaultMode
  }

  /** A string is kept, anything else gives `default`. */
  function TextOr(parsed: Json, key: string, default: string): string {
    var v := Field(Some(parsed), key);
    if IsString(v) then v.value.s else default
  }

  /**
   * `getAdminSettings`: `stored` is the parsed value of the key, `None` when nothing is stored,
   * the value is empty or it does not parse. A stored `null` throws on the first property read
   * and gives the defaults as well.
   */
  function GetAdminSettings(stored: Option<Json>): Settings {
    if stored.None? || stored.value == JNull then DEFAULTS else Merge(stored.value, DEFAULTS)
  }

  /** The object returned for a parsed value `p` over the defaults `d`. */
  function Merge(p: Json, d: Settings): Settings {
    Settings(
      Overlay(p, "provider", d.provider),
      Overlay(p, "defaultImageModel", d.defaultImageModel),
      Overlay(p, "defaultVideoModel", d.defaultVideoModel),
      Overlay(p, "imageModelChoice", d.imageModelChoice),
      ListOr(p, "imageModelsInDropdown", d.imageModelsInDropdown),
      Overlay(p, "imageBackupModel", d.imageBackupModel),
      Overlay(p, "videoModelChoice", d.videoModelChoice),
      ListOr(p, "videoModelsInDropdown", d.videoModelsInDropdown),
      Overlay(p, "videoBackupModel", d.videoBackupModel),
      ModeOf(p, "imagePromptMode"),
      TextOr(p, "imagePromptDefaultText", d.imagePromptDefaultText),
      TextOr(p, "imagePromptCustom", ""),
      ModeOf(p, "videoPromptMode"),
      TextOr(p, "videoPromptDefaultText", d.videoPromptDefaultText),
      TextOr(p, "videoPromptCustom", ""))
  }

  function ModeJson(m: PromptMode): Json {
    match m
    case DefaultMode => JStr("default")
    case OpenAi => JStr("openai")
    case Custom => JStr("custom")
  }

  /** The settings as `setAdminSettings` stores them (`JSON.stringify`, read back by `JSON.parse`). */
  function ToJson(s: Settings): Json {
    JObj(map[
      "provider" := s.provider, "defaultImageModel" := s.defaultImageModel,
      "defaultVideoModel" := s.defaultVideoModel, "imageModelChoice" := s.imageModelChoice,
      "imageModelsInDropdown" := JArr(s.imageModelsInDropdown), "imageBackupModel" := s.imageBackupModel,
      "videoModelChoice" := s.videoModelChoice, "videoModelsInDropdown" := JArr(s.videoModelsInDropdown),
      "videoBackupModel" := s.videoBackupModel, "imagePromptMode" := ModeJson(s.imagePromptMode),
      "imagePromptDefaultText" := JStr(s.imagePromptDefaultText), "imagePromptCustom" := JStr(s.imagePromptCustom),
      "videoPromptMode" := ModeJson(s.videoPromptMode), "videoPromptDefaultText" := JStr(s.videoPromptDefaultText),
      "videoPromptCustom" := JStr(s.videoPromptCustom)])
  }

  /** `p` is an object whose fields hold the settings `s` as `ToJson` writes them. */
  predicate Describes(p: Json, s: Settings) {
    DescribesModels(p, s) && DescribesLists(p, s) && DescribesPrompts(p, s)
  }

  predicate DescribesModels(p: Json, s: Settings) {
    Field(Some(p), "provider") == Some(s.provider)
    && Field(Some(p), "defaultImageModel") == Some(s.defaultImageModel)
    && Field(Some(p), "defaultVideoModel") == Some(s.defaultVideoModel)
    && Field(Some(p), "imageBackupModel") == Some(s.imageBackupModel)
    && Field(Some(p), "videoBackupModel") == Some(s.videoBackupModel)
  }

  predicate DescribesLists(p: Json, s: Settings) {
    Field(Some(p), "imageModelChoice") == Some(s.imageModelChoice)
    && Field(Some(p), "imageModelsInDropdown") == Some(JArr(s.imageModelsInDropdown))
    && Field(Some(p), "videoModelChoice") == Some(s.videoModelChoice)
    && Field(Some(p), "videoModelsInDropdown") == Some(JArr(s.videoModelsInDropdown))
  }

  predicate DescribesPrompts(p: Json, s: Settings) {
    Field(Some(p), "imagePromptMode") == Some(ModeJson(s.imagePromptMode))
    && Field(Some(p), "imagePromptDefaultText") == Some(JStr(s.imagePromptDefaultText))
    && Field(Some(p), "imagePromptCustom") == Some(JStr(s.imagePromptCustom))
    && Field(Some(p), "videoPromptMode") == Some(ModeJson(s.videoPromptMode))
    && Field(Some(p), "videoPromptDefaultText") == Some(JStr(s.videoPromptDefaultText))
    && Field(Some(p), "videoPromptCustom") == Some(JStr(s.videoPromptCustom))
  }

  /** Merging an object that describes `s` gives `s`, whatever the defaults. */
  lemma MergeOfDescribed(p: Json, s: Settings, d: Settings)
    requires Describes(p, s)
    ensures Merge(p, d) == s
  {
  }

  /** What `setAdminSettings` writes describes the settings written. */
  lemma ToJsonDescribes(s: Settings)
    ensures Describes(ToJson(s), s)
  {
    ToJsonDescribesModels(s);
    ToJsonDescribesLists(s);
    ToJsonDescribesPrompts(s);
  }

  lemma ToJsonDescribesModels(s: Settings)
    ensures DescribesModels(ToJson(s), s)
  {
  }

  lemma ToJsonDescribesLists(s: Settings)
    ensures DescribesLists(ToJson(s), s)
  {
  }

  lemma ToJsonDescribesPrompts(s: Settings)
    ensures DescribesPrompts(ToJson(s), s)
  {
  }

  /** Reading back what was saved gives the same settings, whatever the defaults. */
  lemma MergeOfSaved(s: Settings, d: Settings)
    ensures Merge(ToJson(s), d) == s
  {
    ToJsonDescribes(s);
    MergeOfDescribed(ToJson(s), s, d);
  }

  /** Reading back what was saved gives the same settings. */
  lemma SaveThenLoad(s: Settings)
    ensures GetAdminSettings(Some(ToJson(s))) == s
  {
    MergeOfSaved(s, DEFAULTS);
  }

  /** Nothing stored, a `null` and any value that is not an object give the defaults. */
  lemma NonObjectGivesDefaults(p: Json)
    requires !p.JObj?
    ensures GetAdminSettings(None) == DEFAULTS
    ensures GetAdminSettings(Some(p)) == DEFAULTS
  {
    NonObjectKeepsDefaults(p, DEFAULTS);
  }

  /** Over a non-object every field falls back: to `d`'s value, `default` for a mode, `''` for a custom text. */
  lemma NonObjectKeepsDefaults(p: Json, d: Settings)
    requires !p.JObj?
    ensures Merge(p, d) == d.(imagePromptMode := DefaultMode, imagePromptCustom := "",
                              videoPromptMode := DefaultMode, videoPromptCustom := "")
  {
  }

  /** The default settings use the pools: their lists are the whole pools, their models the first two. */
  lemma DefaultsUsePools()
    ensures DEFAULTS.imageModelsInDropdown == Strings(IMAGE_MODEL_POOL)
    ensures DEFAULTS.videoModelsInDropdown == Strings(VIDEO_MODEL_POOL)
    ensures DEFAULTS.imagePromptDefaultText == DEFAULT_IMAGE_PROMPT
    ensures DEFAULTS.videoPromptDefaultText == DEFAULT_VIDEO_PROMPT_TEXT
  {
  }

  /**
   * The normalised fields: a non-array list gives the default list, a mode other than `openai`
   * or `custom` gives `default`, a non-string default text gives the default text and a
   * non-string custom text gives `''`; any other stored field replaces the default as it is.
   */
  lemma NormalisedFields(p: Json, d: Settings)
    requires p.JObj?
    ensures var s := Merge(p, d);
      (!IsArray(Field(Some(p), "imageModelsInDropdown")) ==> s.imageModelsInDropdown == d.imageModelsInDropdown)
      && (!IsArray(Field(Some(p), "videoModelsInDropdown")) ==> s.videoModelsInDropdown == d.videoModelsInDropdown)
      && (s.imagePromptMode == OpenAi <==> IsStr(Field(Some(p), "imagePromptMode"), "openai"))
      && (s.imagePromptMode == Custom <==> IsStr(Field(Some(p), "imagePromptMode"), "custom"))
      && (s.videoPromptMode == OpenAi <==> IsStr(Field(Some(p), "videoPromptMode"), "openai"))
      && (s.videoPromptMode == Custom <==> IsStr(Field(Some(p), "videoPromptMode"), "custom"))
      && (!IsString(Field(Some(p), "imagePromptDefaultText")) ==> s.imagePromptDefaultText == d.imagePromptDefaultText)
      && (!IsString(Field(Some(p), "imagePromptCustom")) ==> s.imagePromptCustom == "")
      && (!IsString(Field(Some(p), "videoPromptDefaultText")) ==> s.videoPromptDefaultText == d.videoPromptDefaultText)
      && (!IsString(Field(Some(p), "videoPromptCustom")) ==> s.videoPromptCustom == "")
      && ("provider" in p.fields ==> s.provider == p.fields["provider"])
      && ("provider" !in p.fields ==> s.provider == d.provider)
  {
  }

  /** `getImageModelsForDropdown` / `getVideoModelsForDropdown` */
  function ModelsForDropdown(choice: Json, list: seq<Json>, pool: seq<string>): (r: seq<Json>)
    requires pool != []
    ensures r == [] <==> choice == JStr("default_only")
    ensures r != [] ==> (list != [] ==> r == list) && (list == [] ==> r == Strings(pool))
  {
    if choice == JStr("default_only") then []
    else if |list| > 0 then list
    else Strings(pool)
  }

  function ImageModelsForDropdown(s: Settings): seq<Json> {
    ModelsForDropdown(s.imageModelChoice, s.imageModelsInDropdown, IMAGE_MODEL_POOL)
  }

  function VideoModelsForDropdown(s: Settings): seq<Json> {
    ModelsForDropdown(s.videoModelChoice, s.videoModelsInDropdown, VIDEO_MODEL_POOL)
  }

  /** `showImageModelDropdown`: the choice is exactly `'dropdown'`. */
  predicate ShowImageModelDropdown(s: Settings) {
    s.imageModelChoice == JStr("dropdown")
  }

  /** When the dropdown is shown it is never empty. */
  lemma ShownDropdownIsNotEmpty(s: Settings)
    requires ShowImageModelDropdown(s)
    ensures ImageModelsForDropdown(s) != []
  {
  }

  /** `pool.includes(model) ? model : fallback` */
  function PoolModel(model: Json, pool: seq<string>, fallback: nat): (r: string)
    requires fallback < |pool|
    ensures r in pool
    ensures model.JStr? && model.s in pool ==> r == model.s
    ensures !(model.JStr? && model.s in pool) ==> r == pool[fallback]
  {
    if model.JStr? && model.s in pool then model.s else pool[fallback]
  }

  /** `getDefaultImageModel`: the stored default when it is in the pool, else the pool's first model. */
  function DefaultImageModel(s: Settings): string {
    PoolModel(s.defaultImageModel, IMAGE_MODEL_POOL, 0)
  }

  function DefaultVideoModel(s: Settings): string {
    PoolModel(s.defaultVideoModel, VIDEO_MODEL_POOL, 0)
  }

  /** `getImageBackupModel`: the stored backup when it is in the pool, else the pool's second model. */
  function ImageBackupModel(s: Settings): string {
    PoolModel(s.imageBackupModel, IMAGE_MODEL_POOL, 1)
  }

  function VideoBackupModel(s: Settings): string {
    PoolModel(s.videoBackupModel, VIDEO_MODEL_POOL, 1)
  }

  /** The default and backup models always come from the pools, with the pools' fallbacks. */
  lemma ModelsAreInPools(s: Settings)
    ensures DefaultImageModel(s) in IMAGE_MODEL_POOL && ImageBackupModel(s) in IMAGE_MODEL_POOL
    ensures DefaultVideoModel(s) in VIDEO_MODEL_POOL && VideoBackupModel(s) in VIDEO_MODEL_POOL
    ensures DefaultImageModel(DEFAULTS) == IMAGE_MODEL_POOL[0] && ImageBackupModel(DEFAULTS) == IMAGE_MODEL_POOL[1]
    ensures DefaultVideoModel(DEFAULTS) == VIDEO_MODEL_POOL[0] && VideoBackupModel(DEFAULTS) == VIDEO_MODEL_POOL[1]
  {
  }

  /** The settings' image pool is the serverless endpoint's list of every image model. */
  lemma ImagePoolIsAllImageModels()
    ensures IMAGE_MODEL_POOL == GenerateImageApi.ALL_IMAGE_MODELS
  {
  }

  /** The trimmed text when it is not blank, else `fallback`. */
  function TrimmedOr(text: string, fallback: string): string {
    if Trim(text) != "" then Trim(text) else fallback
  }

  /**
   * `getEffectiveImagePrompt`: a non-blank custom text in custom mode, then the delegate's
   * prompt in openai mode, then the non-blank default text, then `DEFAULT_IMAGE_PROMPT`; every
   * text is trimmed. `fromOpenAi` is what the delegate resolves to.
   */
  function EffectiveImagePrompt(s: Settings, fromOpenAi: string): (r: string)
    ensures s.imagePromptMode == Custom && Trim(s.imagePromptCustom) != "" ==> r == Trim(s.imagePromptCustom)
    ensures s.imagePromptMode == OpenAi ==> r == fromOpenAi
    ensures s.imagePromptMode != OpenAi ==> r != "" && Trim(r) == r
    ensures s.imagePromptMode == DefaultMode || (s.imagePromptMode == Custom && Trim(s.imagePromptCustom) == "") ==>
      r == TrimmedOr(s.imagePromptDefaultText, DEFAULT_IMAGE_PROMPT)
  {
    TrimmedOrSpec(s.imagePromptCustom, DEFAULT_IMAGE_PROMPT);
    TrimmedOrSpec(s.imagePromptDefaultText, DEFAULT_IMAGE_PROMPT);
    if s.imagePromptMode == Custom && Trim(s.imagePromptCustom) != "" then Trim(s.imagePromptCustom)
    else if s.imagePromptMode == OpenAi then fromOpenAi
    else TrimmedOr(s.imagePromptDefaultText, DEFAULT_IMAGE_PROMPT)
  }

  /**
   * `getEffectiveVideoPrompt`: `undefined` exactly in openai mode; otherwise a non-blank custom
   * text in custom mode, else the non-blank default text, else the built-in one, trimmed.
   */
  function EffectiveVideoPrompt(s: Settings): (r: Option<string>)
    ensures r.None? <==> s.videoPromptMode == OpenAi
    ensures r.Some? ==> r.value != "" && Trim(r.value) == r.value
    ensures s.videoPromptMode == Custom && Trim(s.videoPromptCustom) != "" ==> r == Some(Trim(s.videoPromptCustom))
  {
    TrimmedOrSpec(s.videoPromptCustom, DEFAULT_VIDEO_PROMPT_TEXT);
    TrimmedOrSpec(s.videoPromptDefaultText, DEFAULT_VIDEO_PROMPT_TEXT);
    if s.videoPromptMode == Custom && Trim(s.videoPromptCustom) != "" then Some(Trim(s.videoPromptCustom))
    else if s.videoPromptMode == OpenAi then None
    else Some(TrimmedOr(s.videoPromptDefaultText, DEFAULT_VIDEO_PROMPT_TEXT))
  }

  /** Both built-in prompts are non-empty and trimmed. */
  lemma BuiltInPromptsAreTrimmed()
    ensures DEFAULT_IMAGE_PROMPT != "" && Trim(DEFAULT_IMAGE_PROMPT) == DEFAULT_IMAGE_PROMPT
    ensures DEFAULT_VIDEO_PROMPT_TEXT != "" && Trim(DEFAULT_VIDEO_PROMPT_TEXT) == DEFAULT_VIDEO_PROMPT_TEXT
  {
    assert DEFAULT_IMAGE_PROMPT[0] == '<' && DEFAULT_IMAGE_PROMPT[|DEFAULT_IMAGE_PROMPT| - 1] == '>';
    TrimOfTrimmed(DEFAULT_IMAGE_PROMPT);
    var a := "Fashion film, person moves, outfit visible.";
    var b := " Soft lighting, cinematic.";
    assert DEFAULT_VIDEO_PROMPT_TEXT[0] == a[0] == 'F';
    assert DEFAULT_VIDEO_PROMPT_TEXT[|DEFAULT_VIDEO_PROMPT_TEXT| - 1] == b[|b| - 1] == '.';
    TrimOfTrimmed(DEFAULT_VIDEO_PROMPT_TEXT);
  }

  /** With a trimmed, non-empty fallback, the result is trimmed and non-empty. */
  lemma TrimmedOrSpec(text: string, fallback: string)
    ensures fallback == DEFAULT_IMAGE_PROMPT || fallback == DEFAULT_VIDEO_PROMPT_TEXT ==>
      TrimmedOr(text, fallback) != "" && Trim(TrimmedOr(text, fallback)) == TrimmedOr(text, fallback)
  {
    TrimIdempotent(text);
    BuiltInPromptsAreTrimmed();
  }

  /** The localStorage key the settings live under; a failed write leaves it as it was. */
  class SettingsStorage {
    var stored: Option<Json>
    var writable: bool

    constructor(stored: Option<Json>, writable: bool)
      ensures this.stored == stored && this.writable == writable
    {
      this.stored := stored;
      this.writable := writable;
    }

    /** `getAdminSettings()` over the stored value. */
    function Settings(): Settings
      reads this
    {
      GetAdminSettings(stored)
    }

    /**
     * `setAdminSettings(settings)`: stores the JSON of `settings`, so that by `SaveThenLoad`
     * reading afterwards gives `settings` back; a failed write changes nothing.
     */
    method SetAdminSettings(settings: Settings)
      modifies this
      ensures writable == old(writable)
      ensures writable ==> stored == Some(ToJson(settings))
      ensures !writable ==> stored == old(stored)
    {
      if writable {
        stored := Some(ToJson(settings));
      }
    }
  }
}
