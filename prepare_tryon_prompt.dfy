/**
 * `POST /api/prepare-tryon-prompt` (api/prepare-tryon-prompt.ts): a vision call describes the
 * garment, the description is checked against the garment schema (one retry of the vision call
 * when it does not pass), and a prompt-builder call turns it into a try-on prompt. Every failure
 * after validation of the request ends in a 200 answer with the built-in default prompt.
 *
 * The two OpenAI calls are scripted exchanges; `JSON.parse` on the message content is a
 * parameter of the script.
 */
module PrepareTryOnPrompt {
  import opened Wrappers
  import opened Json
  import opened Text
  import opened Http
  import ProviderAbstraction
  import GarmentSchema

  /** The built-in prompt, kept opaque. */
  const DEFAULT_IMAGE_PROMPT: string := "<default try-on prompt>"
  const DEFAULT_MIME: string := "image/jpeg"

  const MSG_METHOD_NOT_ALLOWED: string := "Method not allowed"
  const MSG_MISSING_IMAGE: string := "garmentImageBase64 is required"
  const MSG_UNAVAILABLE: string := "Сервис временно недоступен. Попробуйте позже."

  /** Messages of the errors the two calls throw; they are only logged. */
  const MSG_VISION_HTTP: string := "Vision API error"
  const MSG_VISION_EMPTY: string := "Vision returned empty content"
  const MSG_BUILDER_HTTP: string := "Prompt Builder API error"
  const MSG_BUILDER_EMPTY: string := "Prompt Builder returned empty content"
  const MSG_BAD_JSON: string := "SyntaxError"
  const TYPE_ERROR: string := "TypeError"

  /** `toDataUrl(base64, mime)`: a `data:` URL is kept, anything else gets the base64 data-URL head. */
  function ToDataUrl(base64: string, mime: string): (r: string)
    ensures StartsWith(r, "data:")
    ensures |base64| <= |r| && r[|r| - |base64|..] == base64
    ensures StartsWith(base64, "data:") <==> r == base64
  {
    if StartsWith(base64, "data:") then base64
    else
      var r := "data:" + mime + ";base64," + base64;
      assert r[..5] == "data:";
      assert r[|r| - |base64|..] == base64;
      r
  }

  /** A data URL is its own data URL, so applying `toDataUrl` twice is applying it once. */
  lemma ToDataUrlIdempotent(base64: string, mime: string, mime2: string)
    ensures ToDataUrl(ToDataUrl(base64, mime), mime2) == ToDataUrl(base64, mime)
  {
  }

  /**
   * `data.choices?.[0]?.message?.content?.trim()` and the emptiness test after it: the trimmed
   * text, or the error thrown (a `TypeError` when `data` is `null` or `content` is neither
   * absent nor a string, the empty-content error when the trimmed text is empty).
   */
  function Content(data: Json, empty: string): (r: Result<string, string>)
    ensures r.Ok? ==> r.value != "" && Trim(r.value) == r.value
    ensures r.Ok? <==> data != JNull && IsString(ContentField(data)) && Trim(ContentField(data).value.s) != ""
  {
    if data == JNull then Err(TYPE_ERROR)
    else
      var content := ContentField(data);
      if content.None? || content == Some(JNull) then Err(empty)
      else if !content.value.JStr? then Err(TYPE_ERROR)
      else
        var t := Trim(content.value.s);
        TrimIdempotent(content.value.s);
        if t == "" then Err(empty) else Ok(t)
  }

  /** `data.choices?.[0]?.message?.content` */
  function ContentField(data: Json): Option<Json> {
    Field(Field(Index0(Field(Some(data), "choices")), "message"), "content")
  }

  /** One OpenAI chat-completion exchange up to its trimmed, non-empty message content. */
  function Completion(e: Exchange, httpError: string, empty: string): (r: Result<string, string>)
    ensures r.Ok? ==> r.value != "" && Trim(r.value) == r.value
    ensures r.Ok? ==> e.Answered? && IsOk(e.status) && e.body.Parsed?
  {
    match e
    case Rejected(err) => Err(err)
    case Answered(status, body, _) =>
      if !IsOk(status) then Err(httpError)
      else match body
        case Unparseable(_) => Err(MSG_BAD_JSON)
        case Parsed(data) => Content(data, empty)
  }

  /**
   * `callVision`: for a string image, one request, then the parsed JSON of the content when it
   * parses and the content itself as a string when it does not. A non-string image throws a
   * `TypeError` in `toDataUrl` before any request.
   */
  function CallVision(image: Json, e: Exchange, parseJson: string -> Option<Json>): (r: Result<Json, string>)
    ensures !image.JStr? ==> r == Err(TYPE_ERROR)
    ensures image.JStr? ==> match Completion(e, MSG_VISION_HTTP, MSG_VISION_EMPTY)
      case Err(m) => r == Err(m)
      case Ok(c) => (parseJson(c).Some? ==> r == Ok(parseJson(c).value)) && (parseJson(c).None? ==> r == Ok(JStr(c)))
  {
    if !image.JStr? then Err(TYPE_ERROR)
    else match Completion(e, MSG_VISION_HTTP, MSG_VISION_EMPTY)
      case Err(m) => Err(m)
      case Ok(c) => Ok(parseJson(c).GetOr(JStr(c)))
  }

  /** `callPromptBuilder`: the trimmed, non-empty content of the builder's answer. */
  function CallPromptBuilder(e: Exchange): (r: Result<string, string>)
    ensures r.Ok? ==> r.value != "" && Trim(r.value) == r.value
    ensures r == Completion(e, MSG_BUILDER_HTTP, MSG_BUILDER_EMPTY)
  {
    Completion(e, MSG_BUILDER_HTTP, MSG_BUILDER_EMPTY)
  }

  /** The requests the handler sends. */
  datatype PromptCall = VisionRequest(imageUrl: string) | BuilderRequest(garmentJson: Json)

  /** The answer of the vision call at each attempt, of the builder call, and `JSON.parse`. */
  datatype PromptScript = PromptScript(vision: nat -> Exchange, builder: Exchange, parseJson: string -> Option<Json>)

  datatype PromptBody =
    | PromptError(error: string)
    | Prompted(prompt: string, garmentJson: Option<GarmentSchema.GarmentDescription>)

  datatype PromptReply = PromptReply(status: int, body: PromptBody)

  datatype PromptRun = PromptRun(reply: PromptReply, calls: seq<PromptCall>)

  /** The request fields the handler reads; `None` is an absent body field. */
  datatype PromptRequest = PromptRequest(httpMethod: string, garmentImageBase64: Option<Json>)

  function DefaultReply(garment: Option<GarmentSchema.GarmentDescription>): PromptReply {
    PromptReply(200, Prompted(DEFAULT_IMAGE_PROMPT, garment))
  }

  /** The request a vision attempt sends: one for a string image, none otherwise. */
  function VisionCalls(image: Json): seq<PromptCall> {
    if image.JStr? then [VisionRequest(ToDataUrl(image.s, DEFAULT_MIME))] else []
  }

  /** The builder step after a valid description: its prompt, or the default prompt, with `garmentJson`. */
  function BuildStep(g: GarmentSchema.GarmentDescription, s: PromptScript, before: seq<PromptCall>): PromptRun {
    var calls := before + [BuilderRequest(GarmentSchema.ToJson(g))];
    match CallPromptBuilder(s.builder)
    case Err(_) => PromptRun(DefaultReply(Some(g)), calls)
    case Ok(p) => PromptRun(PromptReply(200, Prompted(p, Some(g))), calls)
  }

  /** The vision steps: a failed first call ends in the default prompt, a malformed description is retried once. */
  function VisionSteps(image: Json, s: PromptScript): PromptRun {
    var sent := VisionCalls(image);
    match CallVision(image, s.vision(0), s.parseJson)
    case Err(_) => PromptRun(DefaultReply(None), sent)
    case Ok(raw) =>
      var garment := GarmentSchema.TryParseGarmentDescription(raw);
      if garment.Some? then BuildStep(garment.value, s, sent)
      else Retry(image, s, sent + sent)
  }

  /** The single retry: a failed or still malformed second answer ends in the default prompt. */
  function Retry(image: Json, s: PromptScript, sent: seq<PromptCall>): PromptRun {
    match CallVision(image, s.vision(1), s.parseJson)
    case Err(_) => PromptRun(DefaultReply(None), sent)
    case Ok(raw) =>
      var garment := GarmentSchema.TryParseGarmentDescription(raw);
      if garment.None? then PromptRun(DefaultReply(None), sent)
      else BuildStep(garment.value, s, sent)
  }

  /** The handler: 405, 400 and 500 checks in that order with no request, then the vision steps. */
  function Handle(req: PromptRequest, openAiKey: Option<string>, s: PromptScript): PromptRun {
    if req.httpMethod != "POST" then PromptRun(PromptReply(405, PromptError(MSG_METHOD_NOT_ALLOWED)), [])
    else if !Truthy(req.garmentImageBase64) then PromptRun(PromptReply(400, PromptError(MSG_MISSING_IMAGE)), [])
    else if !ProviderAbstraction.IsSet(openAiKey) then PromptRun(PromptReply(500, PromptError(MSG_UNAVAILABLE)), [])
    else VisionSteps(req.garmentImageBase64.value, s)
  }

  /** Vision requests only, at most two of them. */
  predicate VisionOnly(calls: seq<PromptCall>) {
    |calls| <= 2 && forall i :: 0 <= i < |calls| ==> calls[i].VisionRequest?
  }

  /**
   * A 200 answer with a non-empty prompt, the builder's trimmed text or the default one, after
   * at most two vision requests and then at most one builder request; `garmentJson` is present
   * exactly when the builder was asked, and then it is the accepted description the builder saw.
   */
  predicate Good(r: PromptRun) {
    var body := r.reply.body;
    r.reply.status == 200 && body.Prompted? && body.prompt != ""
    && (body.prompt == DEFAULT_IMAGE_PROMPT || Trim(body.prompt) == body.prompt)
    && (body.garmentJson.None? ==> VisionOnly(r.calls))
    && (body.garmentJson.Some? ==>
          |r.calls| >= 1 && VisionOnly(r.calls[..|r.calls| - 1])
          && r.calls[|r.calls| - 1] == BuilderRequest(GarmentSchema.ToJson(body.garmentJson.value))
          && GarmentSchema.Accepted(GarmentSchema.ToJson(body.garmentJson.value)))
  }

  /** The three request checks come first, in order, and none of them sends a request. */
  lemma ValidationOrder(req: PromptRequest, openAiKey: Option<string>, s: PromptScript)
    ensures req.httpMethod != "POST" ==> Handle(req, openAiKey, s).reply.status == 405
    ensures req.httpMethod == "POST" && !Truthy(req.garmentImageBase64) ==>
      Handle(req, openAiKey, s) == PromptRun(PromptReply(400, PromptError(MSG_MISSING_IMAGE)), [])
    ensures req.httpMethod == "POST" && Truthy(req.garmentImageBase64) && !ProviderAbstraction.IsSet(openAiKey) ==>
      Handle(req, openAiKey, s) == PromptRun(PromptReply(500, PromptError(MSG_UNAVAILABLE)), [])
    ensures Handle(req, openAiKey, s).reply.status != 200 ==> Handle(req, openAiKey, s).calls == []
  {
  }

  /** The builder step answers 200 with a non-empty prompt and the description, after one builder request. */
  lemma BuildStepSpec(g: GarmentSchema.GarmentDescription, s: PromptScript, before: seq<PromptCall>)
    requires GarmentSchema.Complete(g) && VisionOnly(before)
    ensures Good(BuildStep(g, s, before))
    ensures BuildStep(g, s, before).reply.body.garmentJson == Some(g)
    ensures CallPromptBuilder(s.builder).Err? ==> BuildStep(g, s, before).reply == DefaultReply(Some(g))
  {
    GarmentSchema.ParseToJson(g);
    var calls := before + [BuilderRequest(GarmentSchema.ToJson(g))];
    assert calls[..|calls| - 1] == before;
  }

  /** The retry ends well too, with at most one more builder request. */
  lemma RetrySpec(image: Json, s: PromptScript, sent: seq<PromptCall>)
    requires VisionOnly(sent)
    ensures Good(Retry(image, s, sent))
  {
    match CallVision(image, s.vision(1), s.parseJson)
    case Err(_) =>
    case Ok(raw) =>
      var garment := GarmentSchema.TryParseGarmentDescription(raw);
      if garment.Some? {
        GarmentSchema.ParsedIsRestriction(raw);
        BuildStepSpec(garment.value, s, sent);
      }
  }

  /**
   * Every answer past validation is a 200 with a non-empty prompt; the vision call is made at
   * most twice and the builder at most once, and only with a description the schema accepted.
   */
  lemma VisionStepsSpec(image: Json, s: PromptScript)
    ensures Good(VisionSteps(image, s))
  {
    var sent := VisionCalls(image);
    match CallVision(image, s.vision(0), s.parseJson)
    case Err(_) =>
    case Ok(raw) =>
      var garment := GarmentSchema.TryParseGarmentDescription(raw);
      if garment.Some? {
        GarmentSchema.ParsedIsRestriction(raw);
        BuildStepSpec(garment.value, s, sent);
      } else {
        RetrySpec(image, s, sent + sent);
      }
  }

  /** Every 200 answer of the handler is a good one, and every other answer sends nothing. */
  lemma HandleSpec(req: PromptRequest, openAiKey: Option<string>, s: PromptScript)
    ensures var r := Handle(req, openAiKey, s);
      r.reply.status in {200, 400, 405, 500}
      && (r.reply.status == 200 ==> Good(r))
      && (r.reply.status != 200 ==> r.calls == [])
  {
    if req.httpMethod == "POST" && Truthy(req.garmentImageBase64) && ProviderAbstraction.IsSet(openAiKey) {
      VisionStepsSpec(req.garmentImageBase64.value, s);
    }
  }

  /** A failed first vision call answers with the default prompt at once: there is no retry. */
  lemma FirstVisionFailureIsFinal(image: Json, s: PromptScript)
    requires CallVision(image, s.vision(0), s.parseJson).Err?
    ensures VisionSteps(image, s) == PromptRun(DefaultReply(None), VisionCalls(image))
    ensures |VisionSteps(image, s).calls| <= 1
  {
  }

  /** A malformed first description sends the same vision request a second time. */
  lemma MalformedIsRetried(image: Json, s: PromptScript)
    requires CallVision(image, s.vision(0), s.parseJson).Ok?
    requires GarmentSchema.TryParseGarmentDescription(CallVision(image, s.vision(0), s.parseJson).value).None?
    ensures image.JStr? && VisionCalls(image) == [VisionRequest(ToDataUrl(image.s, DEFAULT_MIME))]
    ensures VisionSteps(image, s) == Retry(image, s, VisionCalls(image) + VisionCalls(image))
  {
  }

  /** If the retry fails or is malformed as well, the default prompt is the answer, with no further request. */
  lemma RetryFailureIsFinal(image: Json, s: PromptScript, sent: seq<PromptCall>)
    requires CallVision(image, s.vision(1), s.parseJson).Err?
             || GarmentSchema.TryParseGarmentDescription(CallVision(image, s.vision(1), s.parseJson).value).None?
    ensures Retry(image, s, sent) == PromptRun(DefaultReply(None), sent)
  {
  }

  /** A failing builder still answers 200, with the default prompt and the validated description. */
  lemma BuilderFailureKeepsGarment(image: Json, s: PromptScript)
    requires CallVision(image, s.vision(0), s.parseJson).Ok?
    requires GarmentSchema.TryParseGarmentDescription(CallVision(image, s.vision(0), s.parseJson).value).Some?
    requires CallPromptBuilder(s.builder).Err?
    ensures VisionSteps(image, s).reply ==
      DefaultReply(GarmentSchema.TryParseGarmentDescription(CallVision(image, s.vision(0), s.parseJson).value))
  {
  }

  /**
   * The handler as the source runs it: the first vision answer in `raw`, its description in
   * `garment`, both replaced by the retry's when the description is malformed.
   */
  method RunHandle(req: PromptRequest, openAiKey: Option<string>, s: PromptScript) returns (r: PromptRun)
    ensures r == Handle(req, openAiKey, s)
    ensures r.reply.status in {200, 400, 405, 500}
    ensures r.reply.status == 200 ==> Good(r)
  {
    HandleSpec(req, openAiKey, s);
    if req.httpMethod != "POST" {
      return PromptRun(PromptReply(405, PromptError(MSG_METHOD_NOT_ALLOWED)), []);
    }
    if !Truthy(req.garmentImageBase64) {
      return PromptRun(PromptReply(400, PromptError(MSG_MISSING_IMAGE)), []);
    }
    if !ProviderAbstraction.IsSet(openAiKey) {
      return PromptRun(PromptReply(500, PromptError(MSG_UNAVAILABLE)), []);
    }
    var image := req.garmentImageBase64.value;
    var calls := VisionCalls(image);
    var raw := CallVision(image, s.vision(0), s.parseJson);
    if raw.Err? {
      return PromptRun(DefaultReply(None), calls);
    }
    var garment := GarmentSchema.TryParseGarmentDescription(raw.value);
    if garment.None? {
      calls := calls + VisionCalls(image);
      raw := CallVision(image, s.vision(1), s.parseJson);
      if raw.Err? {
        return PromptRun(DefaultReply(None), calls);
      }
      garment := GarmentSchema.TryParseGarmentDescription(raw.value);
      if garment.None? {
        return PromptRun(DefaultReply(None), calls);
      }
    }
    calls := calls + [BuilderRequest(GarmentSchema.ToJson(garment.value))];
    var prompt := CallPromptBuilder(s.builder);
    if prompt.Err? {
      return PromptRun(DefaultReply(garment), calls);
    }
    return PromptRun(PromptReply(200, Prompted(prompt.value, garment)), calls);
  }
}
