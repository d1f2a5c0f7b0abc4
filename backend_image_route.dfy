/**
 * `POST /api/generate-image` of the Express backend (backend/routes/generateImage.ts): both
 * images must be given, then one client try-on; a thrown message is sorted into 408, 422 or 500
 * by the words it contains.
 */
module BackendImageRoute {
  import opened Wrappers
  import opened Text
  import opened Json
  import opened Http
  import ProviderAbstraction
  import GenerateImageApi
  import KieClient
  import KieImage

  const IMAGE_MODEL_POOL: seq<string> := [
    "flux-2/flex-image-to-image",
    "google/nano-banana-edit",
    "gpt-image/1.5-image-to-image",
    "qwen/image-edit",
    "grok-imagine/image-to-image",
    "ideogram/v3-edit"
  ]

  const TIMEOUT_TEXT: string := "время ожидания"
  const FAILED_TEXT: string := "не удалась"
  const GENERATION_TEXT: string := "Генерация"

  const MSG_MISSING_IMAGES: string := "Нужны personImageBase64 и clothingImageBase64"

  /** The backend's pool is the serverless endpoint's KIE pool; it has no Fal models. */
  lemma PoolIsKiePool()
    ensures IMAGE_MODEL_POOL == GenerateImageApi.KIE_IMAGE_MODEL_POOL
    ensures forall m :: m in IMAGE_MODEL_POOL ==> !GenerateImageApi.IsFalModel(m)
  {
    GenerateImageApi.PoolsAgreeWithProvider();
  }

  /**
   * `resolveImageModel`: a string body model from the six-entry pool is kept, anything else gives
   * `KIE_IMAGE_MODEL` or `flux-2/flex-image-to-image`.
   */
  function ResolveImageModel(bodyModel: Option<Json>, kieImageModel: Option<string>): (m: string)
    ensures IsString(bodyModel) && bodyModel.value.s in IMAGE_MODEL_POOL ==> m == bodyModel.value.s
    ensures !(IsString(bodyModel) && bodyModel.value.s in IMAGE_MODEL_POOL) ==>
      m == GenerateImageApi.DefaultImageModel(kieImageModel)
    ensures m in IMAGE_MODEL_POOL || (ProviderAbstraction.IsSet(kieImageModel) && m == kieImageModel.value)
  {
    if IsString(bodyModel) && bodyModel.value.s in IMAGE_MODEL_POOL then bodyModel.value.s
    else GenerateImageApi.DefaultImageModel(kieImageModel)
  }

  /** A Fal model in the body, which the serverless endpoint would honour, is replaced by the default here. */
  lemma FalModelIsNotHonoured(kieImageModel: Option<string>)
    ensures ResolveImageModel(Some(JStr("fal-ai/nano-banana-pro/edit")), kieImageModel) == GenerateImageApi.DefaultImageModel(kieImageModel)
    ensures GenerateImageApi.ResolveImageModel(Some(JStr("fal-ai/nano-banana-pro/edit")), kieImageModel) == "fal-ai/nano-banana-pro/edit"
  {
    assert GenerateImageApi.ALL_IMAGE_MODELS[7] == "fal-ai/nano-banana-pro/edit";
  }

  /**
   * The status of a thrown message: "время ожидания" gives 408 whatever else the message says;
   * otherwise "не удалась" or "Генерация" gives 422; anything else 500.
   */
  function StatusOf(message: string): (status: int)
    ensures status in {408, 422, 500}
    ensures status == 408 <==> Contains(message, TIMEOUT_TEXT)
    ensures status == 422 <==> !Contains(message, TIMEOUT_TEXT) && (Contains(message, FAILED_TEXT) || Contains(message, GENERATION_TEXT))
  {
    if Contains(message, TIMEOUT_TEXT) then 408
    else if Contains(message, FAILED_TEXT) || Contains(message, GENERATION_TEXT) then 422
    else 500
  }

  /** The timeout words win over the failure words wherever they stand. */
  lemma TimeoutTakesPrecedence(before: string, after: string)
    ensures StatusOf(before + TIMEOUT_TEXT + after) == 408
  {
    ContainsInMiddle(before, TIMEOUT_TEXT, after);
  }

  /** Both timeout messages the client throws (backend/kieClient.ts) are answered with 408. */
  lemma ClientTimeoutsAre408()
    ensures StatusOf(KieClient.MSG_IMAGE_TIMEOUT) == 408
    ensures StatusOf(KieClient.MSG_VIDEO_TIMEOUT) == 408
  {
    assert KieClient.TIMEOUT_WORDS == TIMEOUT_TEXT;
    TimeoutTakesPrecedence("Превышено ", ". Попробуйте ещё раз.");
    TimeoutTakesPrecedence("Превышено ", " для видео. Попробуйте ещё раз.");
  }

  /** The client's image failure message is answered with 422. */
  lemma ImageFailureIs422()
    ensures StatusOf(KieClient.MSG_GENERATION_FAILED) == 422
  {
    NotContainsMissingChar(KieClient.MSG_GENERATION_FAILED, TIMEOUT_TEXT, 'ж');
    assert KieClient.GENERATION_WORD == GENERATION_TEXT;
    ContainsInMiddle([], GENERATION_TEXT, " не удалась. Попробуйте снова.");
  }

  /** The client's video failure message is answered with 422. */
  lemma VideoFailureIs422()
    ensures StatusOf(KieClient.MSG_VIDEO_FAILED) == 422
  {
    NotContainsMissingChar(KieClient.MSG_VIDEO_FAILED, TIMEOUT_TEXT, 'ж');
    assert KieClient.GENERATION_WORD == GENERATION_TEXT;
    ContainsInMiddle([], GENERATION_TEXT, " видео не удалась. Попробуйте снова.");
  }

  /** The client's missing-URL messages hold none of the words the route looks for. */
  lemma NoImageUrlLacksTimeout()
    ensures !Contains(KieClient.MSG_NO_IMAGE_URL, TIMEOUT_TEXT)
  {
    NotContainsMissingChar(KieClient.MSG_NO_IMAGE_URL, TIMEOUT_TEXT, 'д');
  }

  lemma NoImageUrlLacksFailed()
    ensures !Contains(KieClient.MSG_NO_IMAGE_URL, FAILED_TEXT)
  {
    NotContainsMissingChar(KieClient.MSG_NO_IMAGE_URL, FAILED_TEXT, 'д');
  }

  lemma NoImageUrlLacksGeneration()
    ensures !Contains(KieClient.MSG_NO_IMAGE_URL, GENERATION_TEXT)
  {
    NotContainsMissingChar(KieClient.MSG_NO_IMAGE_URL, GENERATION_TEXT, 'Г');
  }

  lemma NoVideoUrlLacksTimeout()
    ensures !Contains(KieClient.MSG_NO_VIDEO_URL, TIMEOUT_TEXT)
  {
    NotContainsMissingChar(KieClient.MSG_NO_VIDEO_URL, TIMEOUT_TEXT, 'ж');
  }

  lemma NoVideoUrlLacksFailed()
    ensures !Contains(KieClient.MSG_NO_VIDEO_URL, FAILED_TEXT)
  {
    NotContainsMissingChar(KieClient.MSG_NO_VIDEO_URL, FAILED_TEXT, 'н');
  }

  lemma NoVideoUrlLacksGeneration()
    ensures !Contains(KieClient.MSG_NO_VIDEO_URL, GENERATION_TEXT)
  {
    NotContainsMissingChar(KieClient.MSG_NO_VIDEO_URL, GENERATION_TEXT, 'Г');
  }

  /** A success without a URL is neither a timeout nor a failure to the route: 500. */
  lemma MissingUrlsAre500()
    ensures StatusOf(KieClient.MSG_NO_IMAGE_URL) == 500
    ensures StatusOf(KieClient.MSG_NO_VIDEO_URL) == 500
  {
    NoImageUrlLacksTimeout();
    NoImageUrlLacksFailed();
    NoImageUrlLacksGeneration();
    NoVideoUrlLacksTimeout();
    NoVideoUrlLacksFailed();
    NoVideoUrlLacksGeneration();
  }

  /** The body fields the route reads; `None` stands for an absent field. */
  datatype ImageRouteRequest = ImageRouteRequest(personImage: Option<Json>, clothingImage: Option<Json>,
                                                 prompt: Option<Json>, model: Option<Json>)

  datatype RouteRun = RouteRun(response: Response, calls: seq<KieClient.ClientCall>)

  /**
   * The route: 400 without both images (and no request sent); otherwise one client try-on, 200
   * with its URL, or the status of its thrown message with that message. The resolved model is
   * passed as a fourth argument that the client does not take, so it has no effect.
   */
  function Handle(req: ImageRouteRequest, kieBaseUrl: string, s: KieClient.ClientScript): (r: RouteRun)
    ensures !Truthy(req.personImage) || !Truthy(req.clothingImage) ==>
      r == RouteRun(Response(400, ErrorBody(MSG_MISSING_IMAGES)), [])
    ensures r.response.status in {200, 400, 408, 422, 500}
  {
    if !Truthy(req.personImage) || !Truthy(req.clothingImage) then RouteRun(Response(400, ErrorBody(MSG_MISSING_IMAGES)), [])
    else
      var run := KieClient.GenerateImageTryOn(req.personImage.value, req.clothingImage.value, req.prompt, KieClient.Base(kieBaseUrl), s);
      match run.result
      case Ok(url) => RouteRun(Response(200, ImageBody(url)), run.calls)
      case Err(m) => RouteRun(Response(StatusOf(m), ErrorBody(m)), run.calls)
  }

  /** The model in the body changes nothing the route does. */
  lemma ModelIsIgnored(req: ImageRouteRequest, model: Option<Json>, kieBaseUrl: string, s: KieClient.ClientScript)
    ensures Handle(req.(model := model), kieBaseUrl, s) == Handle(req, kieBaseUrl, s)
  {
  }

  /**
   * When the task is created and no poll ends the loop, the route answers 408 with the client's
   * timeout message, after one create request and 60 polls at most.
   */
  lemma PollTimeoutIs408(req: ImageRouteRequest, kieBaseUrl: string, s: KieClient.ClientScript)
    requires Truthy(req.personImage) && Truthy(req.clothingImage)
    requires KieClient.CreateImageTask(req.personImage.value, req.clothingImage.value, req.prompt, KieClient.Base(kieBaseUrl), s).result.Ok?
    requires forall k :: 0 <= k < KieClient.KIE_POLL_MAX_IMAGE ==> KieClient.ImagePending(s.record(k), s)
    ensures Handle(req, kieBaseUrl, s).response == Response(408, ErrorBody(KieClient.MSG_IMAGE_TIMEOUT))
    ensures |Handle(req, kieBaseUrl, s).calls| <= 1 + KieClient.KIE_POLL_MAX_IMAGE
  {
    KieClient.GenerateImageTryOnBound(req.personImage.value, req.clothingImage.value, req.prompt, KieClient.Base(kieBaseUrl), s);
    ClientTimeoutsAre408();
  }

  /**
   * A created task whose poll `j` is the first to be answered OK in the `success` state, with a
   * truthy first result URL, is answered 200 with that URL after the create request and `j + 1`
   * polls.
   */
  lemma FinishedTaskIs200(req: ImageRouteRequest, kieBaseUrl: string, s: KieClient.ClientScript, j: nat)
    requires Truthy(req.personImage) && Truthy(req.clothingImage)
    requires KieClient.CreateImageTask(req.personImage.value, req.clothingImage.value, req.prompt, KieClient.Base(kieBaseUrl), s).result.Ok?
    requires j < KieClient.KIE_POLL_MAX_IMAGE
    requires forall k :: 0 <= k < j ==> KieClient.ImagePending(s.record(k), s)
    requires s.record(j).Answered? && IsOk(s.record(j).status) && s.record(j).body.Parsed?
    requires Field(Field(Some(s.record(j).body.json), "data"), "state") == Some(JStr("success"))
    requires Truthy(KieImage.ResultImageUrl(s.parseJson, Field(Field(Some(s.record(j).body.json), "data"), "resultJson")))
    ensures Handle(req, kieBaseUrl, s).response ==
      Response(200, ImageBody(KieImage.ResultImageUrl(s.parseJson, Field(Field(Some(s.record(j).body.json), "data"), "resultJson")).value))
    ensures |Handle(req, kieBaseUrl, s).calls| == j + 2
  {
    var base := KieClient.Base(kieBaseUrl);
    var created := KieClient.CreateImageTask(req.personImage.value, req.clothingImage.value, req.prompt, base, s);
    KieClient.ImageStepSpec(s.record(j).body.json, s);
    KieClient.PollImageStopsAt(s, KieClient.ImageRecordUrl(base), created.result.value, 0, j);
  }
}
