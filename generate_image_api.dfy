/**
 * The serverless endpoint in api/generate-image.ts: request validation, upload of non-https
 * images to the Blob store, then either the Fal queue sequence (for the two Fal models) or the
 * KIE create/poll sequence (for every other model), with every exception turned into 500.
 * Both provider branches run the same steps, in the same order and with the same messages, as
 * the api/_lib/ drivers, so they are modelled by those drivers; the KIE branch words a blank
 * `failMsg` with the `NonBlankOrGeneric` policy.
 */
module GenerateImageApi {
  import opened Wrappers
  import opened Text
  import opened Json
  import opened Http
  import opened ProviderAbstraction
  import FalQueue
  import ApiFalImage
  import KieImage

  const KIE_IMAGE_MODEL_POOL: seq<string> := [
    "flux-2/flex-image-to-image",
    "google/nano-banana-edit",
    "gpt-image/1.5-image-to-image",
    "qwen/image-edit",
    "grok-imagine/image-to-image",
    "ideogram/v3-edit"
  ]

  const FAL_IMAGE_MODEL_POOL: seq<string> := [
    "fal-ai/image-apps-v2/virtual-try-on",
    "fal-ai/nano-banana-pro/edit"
  ]

  const ALL_IMAGE_MODELS: seq<string> := KIE_IMAGE_MODEL_POOL + FAL_IMAGE_MODEL_POOL

  /** The model used when `KIE_IMAGE_MODEL` is not set. */
  const FALLBACK_IMAGE_MODEL: string := "flux-2/flex-image-to-image"

  const HTTPS_PREFIX: string := "https://"
  const DATA_PREFIX: string := "data:"

  const MSG_METHOD_NOT_ALLOWED: string := "Method not allowed"
  const MSG_MISSING_IMAGES: string := "Недостаточно данных для примерки."
  const MSG_PREPARE_FAILED: string := "Не удалось подготовить изображения. Попробуйте позже."

  /** `isFalModel`: membership in the two-entry Fal pool. */
  predicate IsFalModel(model: string) {
    model in FAL_IMAGE_MODEL_POOL
  }

  /** `process.env.KIE_IMAGE_MODEL || 'flux-2/flex-image-to-image'` */
  function DefaultImageModel(kieImageModel: Option<string>): string {
    if IsSet(kieImageModel) then kieImageModel.value else FALLBACK_IMAGE_MODEL
  }

  /**
   * `resolveImageModel`: a string body model that is one of the eight known models is used as
   * it is; anything else (absent, not a string, unknown) gives the default model, which is a
   * known model unless `KIE_IMAGE_MODEL` names another one.
   */
  function ResolveImageModel(bodyModel: Option<Json>, kieImageModel: Option<string>): (m: string)
    ensures IsString(bodyModel) && bodyModel.value.s in ALL_IMAGE_MODELS ==> m == bodyModel.value.s
    ensures !IsString(bodyModel) ==> m == DefaultImageModel(kieImageModel)
    ensures IsString(bodyModel) && bodyModel.value.s !in ALL_IMAGE_MODELS ==> m == DefaultImageModel(kieImageModel)
    ensures m in ALL_IMAGE_MODELS || (IsSet(kieImageModel) && m == kieImageModel.value)
  {
    if IsString(bodyModel) && bodyModel.value.s in ALL_IMAGE_MODELS then bodyModel.value.s
    else DefaultImageModel(kieImageModel)
  }

  /**
   * On the eight known models the two ways of choosing a provider agree: `isFalModel` holds
   * exactly for the models `getImageProvider` sends to Fal, so every Fal pool model goes to Fal
   * and every KIE pool model to KIE.
   */
  lemma PoolsAgreeWithProvider()
    ensures forall m :: m in FAL_IMAGE_MODEL_POOL ==> GetImageProvider(m) == Fal && IsFalModel(m)
    ensures forall m :: m in KIE_IMAGE_MODEL_POOL ==> GetImageProvider(m) == Kie && !IsFalModel(m)
    ensures forall m :: m in ALL_IMAGE_MODELS ==> (IsFalModel(m) <==> GetImageProvider(m) == Fal)
  {
    forall m | m in FAL_IMAGE_MODEL_POOL ensures GetImageProvider(m) == Fal {
      assert m[..|FAL_PREFIX|] == FAL_PREFIX;
    }
    forall m | m in KIE_IMAGE_MODEL_POOL ensures GetImageProvider(m) == Kie {
      assert m[0] != 'f' || m[1] != 'a';
    }
  }

  /** What `ensureHttpsUrl` does with its string before any upload. */
  datatype Prepared =
    | Kept(url: string)        // already an https:// URL, returned as it is
    | Upload(base64: string)   // the base64 text to send to the Blob store
    | Invalid                  // a data: URL with no comma: `Error('Invalid data URL')`

  /**
   * The string part of `ensureHttpsUrl`: an `https://` value is kept; a `data:` URL is cut after
   * its first comma (an error when there is none); any other value is uploaded whole.
   */
  function PrepareImage(value: string): (r: Prepared)
    ensures r.Kept? <==> StartsWith(value, HTTPS_PREFIX)
    ensures r.Kept? ==> r.url == value
    ensures r.Invalid? <==> !StartsWith(value, HTTPS_PREFIX) && StartsWith(value, DATA_PREFIX) && ',' !in value
    ensures r.Upload? && StartsWith(value, DATA_PREFIX) ==>
      exists i :: 0 <= i < |value| && value[..i] + [','] + r.base64 == value && ',' !in value[..i]
    ensures r.Upload? && !StartsWith(value, DATA_PREFIX) ==> r.base64 == value
  {
    if StartsWith(value, HTTPS_PREFIX) then Kept(value)
    else if StartsWith(value, DATA_PREFIX) then
      var i := IndexOf(value, ',');
      if i == -1 then Invalid
      else
        assert value[..i] + [','] + value[i + 1..] == value;
        Upload(value[i + 1..])
    else Upload(value)
  }

  /**
   * `ensureHttpsUrl(value)`: the URL it resolves with, or `None` when it rejects. `upload` is the
   * Blob store's `put` as a script: the public URL for a base64 text, `None` when `put` rejects.
   * A body value that is not a string rejects too: its `startsWith` call throws a TypeError.
   */
  function EnsureHttpsUrl(value: Json, upload: string -> Option<string>): (r: Option<string>)
    ensures !value.JStr? ==> r.None?
    ensures value.JStr? && StartsWith(value.s, HTTPS_PREFIX) ==> r == Some(value.s)
  {
    if !value.JStr? then None
    else
      match PrepareImage(value.s)
      case Kept(u) => Some(u)
      case Invalid => None
      case Upload(b) => upload(b)
  }

  /**
   * `!person.startsWith('https://') || !clothing.startsWith('https://')` on the two body values,
   * or `None` when a `startsWith` it evaluates throws because its value is not a string. The
   * `||` does not evaluate the clothing test once the person image needs an upload.
   */
  function NeedUpload(person: Json, clothing: Json): (r: Option<bool>)
    ensures r.None? <==> !person.JStr? || (StartsWith(person.s, HTTPS_PREFIX) && !clothing.JStr?)
    ensures r == Some(false) <==> person.JStr? && clothing.JStr?
                                  && StartsWith(person.s, HTTPS_PREFIX) && StartsWith(clothing.s, HTTPS_PREFIX)
  {
    match person
    case JStr(ps) =>
      if !StartsWith(ps, HTTPS_PREFIX) then Some(true)
      else if clothing.JStr? then Some(!StartsWith(clothing.s, HTTPS_PREFIX))
      else None
    case _ => None
  }

  /** The request fields the handler reads; `None` stands for an absent field. */
  datatype ImageRequest = ImageRequest(
    httpMethod: Option<string>,
    model: Option<Json>,
    personImage: Option<Json>,
    clothingImage: Option<Json>,
    prompt: Option<Json>)

  /** The environment variables the handler reads. */
  datatype HandlerEnv = HandlerEnv(
    kieBaseUrl: Option<string>,
    kieApiKey: Option<string>,
    kieImageModel: Option<string>,
    blobToken: Option<string>,
    falKey: Option<string>)

  /** Everything outside the handler, as scripts: the Blob store, the Fal queue and the KIE API. */
  datatype Upstream = Upstream(upload: string -> Option<string>, fal: FalQueue.FalScript, kie: KieImage.KieScript)

  /** The response written, and the requests sent to each provider. */
  datatype Handled = Handled(response: Response, falCalls: seq<FalQueue.FalCall>, kieCalls: seq<KieImage.KieCall>)

  function Reject(status: int, error: string): Handled {
    Handled(Response(status, ErrorBody(error)), [], [])
  }

  /**
   * How a provider branch ends: a success is `200 {imageUrl}`, a failure is its status with
   * `{error}`, and a rejected promise reaches the `catch` and is the generic 500.
   */
  function Reply(o: DriverOutcome): (r: Response)
    ensures o.Returned? && o.result.Success? ==> r == Response(200, ImageBody(o.result.imageUrl))
    ensures o.Returned? && o.result.Failure? ==> r == Response(o.result.httpStatus, ErrorBody(o.result.error))
    ensures o.Threw? ==> r == Response(500, ErrorBody(MSG_UNKNOWN))
  {
    match o
    case Returned(Success(_, _, url, _)) => Response(200, ImageBody(url))
    case Returned(Failure(_, _, status, error, _)) => Response(status, ErrorBody(error))
    case Threw(_) => Response(500, ErrorBody(MSG_UNKNOWN))
  }

  /** The payload both providers receive once both images are reachable URLs. */
  function Payload(req: ImageRequest, env: HandlerEnv, personUrl: string, clothingUrl: string): ImagePayload {
    ImagePayload(personUrl, clothingUrl, req.prompt, ResolveImageModel(req.model, env.kieImageModel))
  }

  /**
   * The handler. Checked in this order: the method (405), the KIE key (500, for Fal models too),
   * two truthy images (400), the upload test, whose TypeError on a value that is not a string the
   * outer `catch` answers with 500, a Blob token when an upload is needed (503), the uploads
   * (502); then the Fal branch or the KIE branch. `startTs` is the clock when the request was
   * accepted and `now0` when the provider branch starts.
   */
  function Handle(req: ImageRequest, env: HandlerEnv, up: Upstream, startTs: int, now0: int): Handled {
    if req.httpMethod != Some("POST") then Reject(405, MSG_METHOD_NOT_ALLOWED)
    else if !IsSet(env.kieApiKey) then Reject(500, MSG_UNKNOWN)
    else if !Truthy(req.personImage) || !Truthy(req.clothingImage) then Reject(400, MSG_MISSING_IMAGES)
    else if NeedUpload(req.personImage.value, req.clothingImage.value).None? then Reject(500, MSG_UNKNOWN)
    else if NeedUpload(req.personImage.value, req.clothingImage.value) == Some(true) && !IsSet(env.blobToken) then Reject(503, MSG_UNKNOWN)
    else
      var personUrl := EnsureHttpsUrl(req.personImage.value, up.upload);
      var clothingUrl := EnsureHttpsUrl(req.clothingImage.value, up.upload);
      if personUrl.None? || clothingUrl.None? then Reject(502, MSG_PREPARE_FAILED)
      else ProviderBranch(Payload(req, env, personUrl.value, clothingUrl.value), env, up, startTs, now0)
  }

  function ProviderBranch(p: ImagePayload, env: HandlerEnv, up: Upstream, startTs: int, now0: int): Handled {
    if IsFalModel(p.model) then
      var r := ApiFalImage.FalTryOn(p, env.falKey, up.fal, startTs, now0);
      Handled(Reply(r.outcome), r.calls, [])
    else
      var r := KieImage.KieTryOn(p, KieImage.KieEnv(env.kieBaseUrl, env.kieApiKey), KieImage.NonBlankOrGeneric, up.kie, startTs, now0);
      Handled(Reply(r.outcome), [], r.calls)
  }

  /** A request the handler accepts as far as the provider branch. */
  predicate Accepted(req: ImageRequest, env: HandlerEnv, up: Upstream) {
    req.httpMethod == Some("POST") && IsSet(env.kieApiKey) && Truthy(req.personImage) && Truthy(req.clothingImage)
    && NeedUpload(req.personImage.value, req.clothingImage.value).Some?
    && (NeedUpload(req.personImage.value, req.clothingImage.value) == Some(true) ==> IsSet(env.blobToken))
    && EnsureHttpsUrl(req.personImage.value, up.upload).Some?
    && EnsureHttpsUrl(req.clothingImage.value, up.upload).Some?
  }

  /**
   * The validation ladder: each check answers with its status before any provider request, in
   * the order the handler makes them; a request that passes them all reaches a provider branch.
   */
  lemma ValidationOrder(req: ImageRequest, env: HandlerEnv, up: Upstream, startTs: int, now0: int)
    ensures var h := Handle(req, env, up, startTs, now0);
      && (req.httpMethod != Some("POST") ==> h == Reject(405, MSG_METHOD_NOT_ALLOWED))
      && (req.httpMethod == Some("POST") && !IsSet(env.kieApiKey) ==> h == Reject(500, MSG_UNKNOWN))
      && (req.httpMethod == Some("POST") && IsSet(env.kieApiKey) && (!Truthy(req.personImage) || !Truthy(req.clothingImage)) ==>
            h == Reject(400, MSG_MISSING_IMAGES))
      && (req.httpMethod == Some("POST") && IsSet(env.kieApiKey) && Truthy(req.personImage) && Truthy(req.clothingImage)
          && NeedUpload(req.personImage.value, req.clothingImage.value).None? ==>
            h == Reject(500, MSG_UNKNOWN))
      && (req.httpMethod == Some("POST") && IsSet(env.kieApiKey) && Truthy(req.personImage) && Truthy(req.clothingImage)
          && NeedUpload(req.personImage.value, req.clothingImage.value) == Some(true) && !IsSet(env.blobToken) ==>
            h == Reject(503, MSG_UNKNOWN))
      && (!Accepted(req, env, up) ==> h.falCalls == [] && h.kieCalls == [] && h.response.status in {400, 405, 500, 502, 503})
      && (Accepted(req, env, up) ==>
            h == ProviderBranch(Payload(req, env, EnsureHttpsUrl(req.personImage.value, up.upload).value,
                                        EnsureHttpsUrl(req.clothingImage.value, up.upload).value), env, up, startTs, now0))
  {
  }

  /** Images that are already https URLs need no Blob token and reach the provider unchanged. */
  lemma HttpsImagesSkipUpload(person: string, clothing: string, up: Upstream)
    requires StartsWith(person, HTTPS_PREFIX) && StartsWith(clothing, HTTPS_PREFIX)
    ensures NeedUpload(JStr(person), JStr(clothing)) == Some(false)
    ensures EnsureHttpsUrl(JStr(person), up.upload) == Some(person)
    ensures EnsureHttpsUrl(JStr(clothing), up.upload) == Some(clothing)
  {
  }

  /**
   * A truthy image value that is not a string gets past the 400 test. Where its `startsWith` is
   * evaluated the TypeError is caught and answered 500; a clothing value the `||` skips fails
   * inside `ensureHttpsUrl` instead, which answers 502 once a Blob token is set (503 without).
   * No provider request is sent in any of these cases.
   */
  lemma NonStringImageFails(req: ImageRequest, env: HandlerEnv, up: Upstream, startTs: int, now0: int)
    requires req.httpMethod == Some("POST") && IsSet(env.kieApiKey)
    requires Truthy(req.personImage) && Truthy(req.clothingImage)
    requires !req.personImage.value.JStr? || !req.clothingImage.value.JStr?
    ensures var h := Handle(req, env, up, startTs, now0);
      && h.falCalls == [] && h.kieCalls == []
      && (!req.personImage.value.JStr? ==> h == Reject(500, MSG_UNKNOWN))
      && (req.personImage.value.JStr? && StartsWith(req.personImage.value.s, HTTPS_PREFIX) ==> h == Reject(500, MSG_UNKNOWN))
      && (req.personImage.value.JStr? && !StartsWith(req.personImage.value.s, HTTPS_PREFIX) ==>
            h == (if IsSet(env.blobToken) then Reject(502, MSG_PREPARE_FAILED) else Reject(503, MSG_UNKNOWN)))
  {
  }

  /**
   * The provider branch follows the resolved model: a Fal pool model sends only Fal requests, and
   * with no `FAL_KEY` it answers 503 without any; every other model sends only KIE requests.
   */
  lemma BranchFollowsModel(p: ImagePayload, env: HandlerEnv, up: Upstream, startTs: int, now0: int)
    ensures var h := ProviderBranch(p, env, up, startTs, now0);
      && (IsFalModel(p.model) ==> h.kieCalls == [])
      && (!IsFalModel(p.model) ==> h.falCalls == [])
      && (IsFalModel(p.model) && !IsSet(env.falKey) ==>
            h == Reject(503, FalQueue.MSG_FAL_UNAVAILABLE))
  {
  }

  /**
   * The Fal branch never answers 408: its poll timeout after 35 s is the 503 "busy" answer and
   * no last status check is made; its failures are 500, 502 or 503.
   */
  lemma FalBranchNever408(p: ImagePayload, env: HandlerEnv, up: Upstream, startTs: int, now0: int)
    requires IsFalModel(p.model)
    ensures ProviderBranch(p, env, up, startTs, now0).response.status in {200, 500, 502, 503}
  {
    ApiFalImage.FalTryOnNever408(p, env.falKey, up.fal, startTs, now0);
  }

  /**
   * The KIE branch sends at most 60 polls after its one create request, and it answers 200,
   * 408, 422, 500 or 502.
   */
  lemma KieBranchBounds(p: ImagePayload, env: HandlerEnv, up: Upstream, startTs: int, now0: int)
    requires !IsFalModel(p.model) && IsSet(env.kieApiKey)
    ensures var h := ProviderBranch(p, env, up, startTs, now0);
      KieImage.PollCount(h.kieCalls) <= KieImage.KIE_POLL_MAX_ATTEMPTS
      && h.response.status in {200, 408, 422, 500, 502}
  {
    var kenv := KieImage.KieEnv(env.kieBaseUrl, env.kieApiKey);
    KieImage.KieTryOnBounds(p, kenv, KieImage.NonBlankOrGeneric, up.kie, startTs, now0);
    match KieImage.CreatePhase(p, kenv, KieImage.NonBlankOrGeneric, up.kie, startTs, now0)
    case Finished(r) =>
    case Polling(c, now, call) =>
      KieImage.PollLoopFailureStatuses(up.kie, c, 0, now);
  }

  /** Every answer of the handler is one of these eight statuses. */
  lemma HandleStatuses(req: ImageRequest, env: HandlerEnv, up: Upstream, startTs: int, now0: int)
    ensures Handle(req, env, up, startTs, now0).response.status in {200, 400, 405, 408, 422, 500, 502, 503}
  {
    ValidationOrder(req, env, up, startTs, now0);
    if Accepted(req, env, up) {
      var p := Payload(req, env, EnsureHttpsUrl(req.personImage.value, up.upload).value,
                       EnsureHttpsUrl(req.clothingImage.value, up.upload).value);
      if IsFalModel(p.model) {
        FalBranchNever408(p, env, up, startTs, now0);
      } else {
        KieBranchBounds(p, env, up, startTs, now0);
      }
    }
  }

  /** The handler as it is written, running the two driver loops. */
  method HandleRequest(req: ImageRequest, env: HandlerEnv, up: Upstream, startTs: int, now0: int)
    returns (response: Response, falCalls: seq<FalQueue.FalCall>, kieCalls: seq<KieImage.KieCall>)
    ensures Handled(response, falCalls, kieCalls) == Handle(req, env, up, startTs, now0)
  {
    falCalls, kieCalls := [], [];
    if req.httpMethod != Some("POST") {
      return Response(405, ErrorBody(MSG_METHOD_NOT_ALLOWED)), falCalls, kieCalls;
    }
    if !IsSet(env.kieApiKey) {
      return Response(500, ErrorBody(MSG_UNKNOWN)), falCalls, kieCalls;
    }
    if !Truthy(req.personImage) || !Truthy(req.clothingImage) {
      return Response(400, ErrorBody(MSG_MISSING_IMAGES)), falCalls, kieCalls;
    }
    var person, clothing := req.personImage.value, req.clothingImage.value;
    var needUpload := NeedUpload(person, clothing);
    if needUpload.None? {
      return Response(500, ErrorBody(MSG_UNKNOWN)), falCalls, kieCalls;
    }
    if needUpload.value && !IsSet(env.blobToken) {
      return Response(503, ErrorBody(MSG_UNKNOWN)), falCalls, kieCalls;
    }
    var personUrl := EnsureHttpsUrl(person, up.upload);
    var clothingUrl := EnsureHttpsUrl(clothing, up.upload);
    if personUrl.None? || clothingUrl.None? {
      return Response(502, ErrorBody(MSG_PREPARE_FAILED)), falCalls, kieCalls;
    }
    var p := Payload(req, env, personUrl.value, clothingUrl.value);
    var outcome;
    if IsFalModel(p.model) {
      outcome, falCalls := ApiFalImage.RunFalTryOn(p, env.falKey, up.fal, startTs, now0);
    } else {
      outcome, kieCalls := KieImage.RunKieTryOn(p, KieImage.KieEnv(env.kieBaseUrl, env.kieApiKey), KieImage.NonBlankOrGeneric, up.kie, startTs, now0);
    }
    response := Reply(outcome);
  }
}
