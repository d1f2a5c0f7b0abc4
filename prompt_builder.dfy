/**
 * The scene table (lib/ai/scenes.config.ts) and `buildPrompt` (lib/ai/prompt-builder.ts): the
 * fixed base prompt followed by the background and mood of the requested scene, or of the
 * `minimal` scene when the id has no entry.
 */
module PromptBuilder {
  import opened Wrappers
  import opened Text

  datatype SceneConfig = SceneConfig(id: string, title: string, background: string, mood: string)

  /** The ids of `SceneType`. */
  const SCENE_TYPES: seq<string> := ["minimal", "sea", "business", "event", "sport"]

  const MINIMAL: SceneConfig := SceneConfig("minimal", "Минимализм",
    "soft beige-gray or light concrete, clean and distraction-free.", "premium, confident, modern.")
  const SEA: SceneConfig := SceneConfig("sea", "Отдых у моря",
    "sunny beach, ocean horizon, soft sand, natural golden light.", "fresh, relaxed, elegant summer fashion.")
  const BUSINESS: SceneConfig := SceneConfig("business", "Деловое",
    "modern office interior, glass walls, city skyline, neutral professional environment.",
    "confident, ambitious, executive style.")
  const EVENT: SceneConfig := SceneConfig("event", "Нарядное событие",
    "elegant theater or evening event setting, soft spotlight, subtle bokeh lights.",
    "luxury, refined, sophisticated.")
  const SPORT: SceneConfig := SceneConfig("sport", "Спорт",
    "outdoor park or modern gym interior, dynamic natural light.", "energetic, active, fresh.")

  const SCENES: seq<SceneConfig> := [MINIMAL, SEA, BUSINESS, EVENT, SPORT]

  /** The base prompt text, kept opaque; it neither begins nor ends with whitespace. */
  const BASE_PROMPT: string := "<base try-on prompt>"

  /** `scenes.find((s) => s.id === id)` */
  function FindScene(scenes: seq<SceneConfig>, id: string): (r: Option<SceneConfig>)
    ensures r.None? <==> forall i :: 0 <= i < |scenes| ==> scenes[i].id != id
    ensures r.Some? ==> exists i :: (0 <= i < |scenes| && scenes[i] == r.value && r.value.id == id
                                    && forall j :: 0 <= j < i ==> scenes[j].id != id)
  {
    if scenes == [] then None
    else if scenes[0].id == id then Some(scenes[0])
    else
      var r := FindScene(scenes[1..], id);
      assert forall i :: 1 <= i < |scenes| ==> scenes[i] == scenes[1..][i - 1];
      r
  }

  /** The scene `buildPrompt` uses: the one named, else `minimal`; no argument means `minimal`. */
  function ChosenScene(sceneType: Option<string>): SceneConfig {
    var id := sceneType.GetOr("minimal");
    var found := FindScene(SCENES, id);
    if found.Some? then found.value else SCENES[0]
  }

  /** The text before trimming. */
  function Compose(base: string, scene: SceneConfig): string {
    base + " Background: " + scene.background + " Mood: " + scene.mood
  }

  /** `buildPrompt(sceneType)` */
  function BuildPrompt(sceneType: Option<string>): string {
    Trim(Compose(BASE_PROMPT, ChosenScene(sceneType)))
  }

  /** The scene chosen is an entry of the table: the named one, or `minimal` when there is none. */
  lemma ChosenSceneSpec(sceneType: Option<string>)
    ensures ChosenScene(sceneType) in SCENES
    ensures (exists i :: 0 <= i < |SCENES| && SCENES[i].id == sceneType.GetOr("minimal")) ==>
      ChosenScene(sceneType).id == sceneType.GetOr("minimal")
    ensures (forall i :: 0 <= i < |SCENES| ==> SCENES[i].id != sceneType.GetOr("minimal")) ==>
      ChosenScene(sceneType) == SCENES[0] && SCENES[0].id == "minimal"
  {
  }

  /** Every `SceneType` has an entry, so for those ids the fallback never fires. */
  lemma EveryTypeHasScene(i: nat)
    requires i < |SCENE_TYPES|
    ensures FindScene(SCENES, SCENE_TYPES[i]).Some?
    ensures ChosenScene(Some(SCENE_TYPES[i])) == SCENES[i]
  {
    assert SCENES[i].id == SCENE_TYPES[i];
  }

  /** An id without an entry gives the prompt of the default call. */
  lemma UnknownSceneFallsBack(id: string)
    requires forall i :: 0 <= i < |SCENE_TYPES| ==> SCENE_TYPES[i] != id
    ensures BuildPrompt(Some(id)) == BuildPrompt(None)
  {
    assert forall i :: 0 <= i < |SCENES| ==> SCENES[i].id == SCENE_TYPES[i];
  }

  /** Every mood ends with a full stop, so trimming never reaches into the scene text. */
  lemma MoodsEndWithStop(i: nat)
    requires i < |SCENES|
    ensures SCENES[i].mood != [] && SCENES[i].mood[|SCENES[i].mood| - 1] == '.'
  {
  }

  /**
   * When the base starts and the mood ends with a non-blank character, trimming changes nothing,
   * and the text begins with the base and holds the background and the mood.
   */
  lemma {:induction false} ComposeSpec(base: string, scene: SceneConfig)
    requires base != [] && !IsWhitespace(base[0])
    requires scene.mood != [] && !IsWhitespace(scene.mood[|scene.mood| - 1])
    ensures var p := Compose(base, scene);
      Trim(p) == p && StartsWith(p, base) && Contains(p, scene.background) && Contains(p, scene.mood)
  {
    var p := Compose(base, scene);
    assert p[0] == base[0];
    assert p[|p| - 1] == scene.mood[|scene.mood| - 1];
    TrimOfTrimmed(p);
    assert p[..|base|] == base;
    ContainsInMiddle(base + " Background: ", scene.background, " Mood: " + scene.mood);
    assert p == (base + " Background: ") + scene.background + (" Mood: " + scene.mood);
    ContainsInMiddle(base + " Background: " + scene.background + " Mood: ", scene.mood, []);
    assert p == (base + " Background: " + scene.background + " Mood: ") + scene.mood + [];
  }

  /**
   * The prompt is the base prompt, then " Background: " with the scene's background, then
   * " Mood: " with its mood, untouched by the trim; so it begins with the base prompt and holds
   * the scene's background and mood.
   */
  lemma BuildPromptSpec(sceneType: Option<string>)
    ensures var scene := ChosenScene(sceneType);
      var p := BuildPrompt(sceneType);
      scene in SCENES
      && p == BASE_PROMPT + " Background: " + scene.background + " Mood: " + scene.mood
      && StartsWith(p, BASE_PROMPT) && Contains(p, scene.background) && Contains(p, scene.mood)
  {
    var scene := ChosenScene(sceneType);
    ChosenSceneSpec(sceneType);
    var i :| 0 <= i < |SCENES| && SCENES[i] == scene;
    MoodsEndWithStop(i);
    assert BASE_PROMPT[0] == '<';
    ComposeSpec(BASE_PROMPT, scene);
  }

  /** Without an argument the `minimal` scene is used. */
  lemma DefaultIsMinimal()
    ensures ChosenScene(None) == SCENES[0] && SCENES[0].id == "minimal"
  {
  }
}
