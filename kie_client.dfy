/**
 * The Express backend's KIE client (backend/kieClient.ts): one `createTask` (image, model
 * `flux2`) or `veo/generate` (video) request, then a bounded poll loop. Unlike the serverless
 * drivers it reports every failure by throwing an `Error`, modelled as `Err(message)`; a body that
 * is not JSON throws too (the serverless loops skip such a poll instead).
 */
module KieClient {
  import opened Wrappers
  import opened Text
  import opened Json
  import opened Http
  import opened VideoUrl
  import GenerateVideoApi
  import KieImage

  const KIE_POLL_MAX_IMAGE: nat := 60
  const KIE_POLL_MAX_VIDEO: nat := 80
  const KIE_POLL_INTERVAL_MS: nat := 2000

  /** Default prompts (their texts are configuration strings, not modelled). */
  const DEFAULT_TRY_ON_PROMPT: string := "<default client try-on prompt>"
  const DEFAULT_VIDEO_PROMPT: string := "<default client video prompt>"

  /** Words shared by several thrown messages, which the backend routes look for. */
  const TIMEOUT_WORDS: string := "время ожидания"
  const GENERATION_WORD: string := "Генерация"

  const MSG_CREATE_IMAGE_FAILED: string := "Ошибка KIE при создании задачи"
  const MSG_NO_TASK_ID: string := "KIE не вернул taskId"
  const MSG_RECORD_FAILED: string := "Ошибка при получении результата"
  const MSG_NO_IMAGE_URL: string := "Результат без URL изображения"
  const MSG_GENERATION_FAILED: string := GENERATION_WORD + " не удалась. Попробуйте снова."
  const MSG_IMAGE_TIMEOUT: string := "Превышено " + TIMEOUT_WORDS + ". Попробуйте ещё раз."
  const MSG_CREATE_VIDEO_FAILED: string := "Ошибка KIE при создании видео"
  const MSG_NO_VIDEO_TASK_ID: string := "KIE не вернул taskId для видео"
  const MSG_VIDEO_RECORD_FAILED: string := "Ошибка при получении видео"
  const MSG_NO_VIDEO_URL: string := "Результат без URL видео"
  const MSG_VIDEO_FAILED: string := GENERATION_WORD + " видео не удалась. Попробуйте снова."
  const MSG_VIDEO_TIMEOUT: string := "Превышено " + TIMEOUT_WORDS + " для видео. Попробуйте ещё раз."

  /** The message of the `TypeError` raised when `.message` is read on a `null` body. */
  const TYPE_ERROR: string := "TypeError"

  /**
   * The KIE API as a script: the create answer, the answer to poll number n, `JSON.parse` of the
   * embedded image result (`None` when it throws), and `String(x)`, the message `new Error(x)`
   * takes for a value that is not a string.
   */
  datatype ClientScript = ClientScript(create: Exchange, record: nat -> Exchange,
                                       parseJson: string -> Option<Json>, stringify: Json -> string)

  /** A request the client sends: a task creation, or a status poll for `taskId`. */
  datatype ClientCall = Create(url: string, body: Json) | Record(url: string, taskId: Json)

  /** What the client's promise settles with, and the requests it sent. */
  datatype ClientRun = ClientRun(result: Result<Json, string>, calls: seq<ClientCall>)

  function Prepend(cs: seq<ClientCall>, r: ClientRun): ClientRun {
    ClientRun(r.result, cs + r.calls)
  }

  lemma PrependTwice(a: seq<ClientCall>, b: seq<ClientCall>, r: ClientRun)
    ensures Prepend(a, Prepend(b, r)) == Prepend(a + b, r)
  {
    assert a + (b + r.calls) == (a + b) + r.calls;
  }

  /** `kieBaseUrl.replace(/\/$/, '') + '/api/v1'` */
  function Base(kieBaseUrl: string): string {
    StripTrailingSlash(kieBaseUrl) + "/api/v1"
  }

  /** The message of `new Error(x || fallback)`. */
  function MessageOr(x: Option<Json>, fallback: string, stringify: Json -> string): (m: string)
    ensures !Truthy(x) ==> m == fallback
    ensures Truthy(x) && x.value.JStr? ==> m == x.value.s
  {
    if !Truthy(x) then fallback
    else if x.value.JStr? then x.value.s
    else stringify(x.value)
  }

  /** The `createImageTask` body: always model `flux2`, the two images, the prompt defaulted when falsy. */
  function ImageTaskBody(person: Json, clothing: Json, prompt: Option<Json>): (body: Json)
    ensures body.JObj? && body.fields.Keys == {"model", "input"}
    ensures body.fields["model"] == JStr("flux2")
    ensures var input := body.fields["input"];
      input.JObj? && input.fields.Keys == {"prompt", "image_urls"}
      && input.fields["image_urls"] == JArr([person, clothing])
      && input.fields["prompt"] == (if Truthy(prompt) then prompt.value else JStr(DEFAULT_TRY_ON_PROMPT))
  {
    var p := if Truthy(prompt) then prompt.value else JStr(DEFAULT_TRY_ON_PROMPT);
    JObj(map["model" := JStr("flux2"), "input" := JObj(map["prompt" := p, "image_urls" := JArr([person, clothing])])])
  }

  /** The `createVideoTask` payload: always `veo3` at 9:16 with the one image, the prompt defaulted when falsy. */
  function VideoTaskBody(imageUrl: Json, prompt: Option<Json>): (body: Json)
    ensures body.JObj? && body.fields.Keys == {"prompt", "model", "aspect_ratio", "imageUrls"}
    ensures body.fields["model"] == JStr("veo3") && body.fields["aspect_ratio"] == JStr("9:16")
    ensures body.fields["imageUrls"] == JArr([imageUrl])
    ensures body.fields["prompt"] == (if Truthy(prompt) then prompt.value else JStr(DEFAULT_VIDEO_PROMPT))
  {
    var p := if Truthy(prompt) then prompt.value else JStr(DEFAULT_VIDEO_PROMPT);
    JObj(map["prompt" := p, "model" := JStr("veo3"), "aspect_ratio" := JStr("9:16"), "imageUrls" := JArr([imageUrl])])
  }

  /** With a prompt given, the backend and the serverless endpoint send the same Veo payload. */
  lemma VideoPayloadsAgree(imageUrl: Json, prompt: Option<Json>)
    requires Truthy(prompt)
    ensures VideoTaskBody(imageUrl, prompt) == GenerateVideoApi.GenerateBody(imageUrl, prompt)
  {
  }

  /**
   * The create request of either kind: the body must parse (else the parse error is thrown), a
   * non-OK answer throws its `message` or `fallback`, and a missing `data.taskId` throws `noTask`.
   */
  function CreateTask(url: string, body: Json, fallback: string, noTask: string, s: ClientScript): (r: ClientRun)
    ensures r.calls == [Create(url, body)]
    ensures r.result.Ok? <==> s.create.Answered? && s.create.body.Parsed? && IsOk(s.create.status)
                              && Truthy(Field(Field(Some(s.create.body.json), "data"), "taskId"))
    ensures r.result.Ok? ==> r.result.value == Field(Field(Some(s.create.body.json), "data"), "taskId").value
  {
    var call := Create(url, body);
    match s.create
    case Rejected(e) => ClientRun(Err(e), [call])
    case Answered(status, res, _) =>
      match res
      case Unparseable(e) => ClientRun(Err(e), [call])
      case Parsed(data) =>
        if !IsOk(status) then
          ClientRun(Err(if data == JNull then TYPE_ERROR else MessageOr(Field(Some(data), "message"), fallback, s.stringify)), [call])
        else
          var taskId := Field(Field(Some(data), "data"), "taskId");
          if !Truthy(taskId) then ClientRun(Err(noTask), [call]) else ClientRun(Ok(taskId.value), [call])
  }

  /** `createImageTask` */
  function CreateImageTask(person: Json, clothing: Json, prompt: Option<Json>, base: string, s: ClientScript): ClientRun {
    CreateTask(base + "/jobs/createTask", ImageTaskBody(person, clothing, prompt), MSG_CREATE_IMAGE_FAILED, MSG_NO_TASK_ID, s)
  }

  /** `createVideoTask` */
  function CreateVideoTask(imageUrl: Json, prompt: Option<Json>, base: string, s: ClientScript): ClientRun {
    CreateTask(base + "/veo/generate", VideoTaskBody(imageUrl, prompt), MSG_CREATE_VIDEO_FAILED, MSG_NO_VIDEO_TASK_ID, s)
  }

  /** `resultUrls[0]` of the parsed `resultJson` string, when it is truthy; else the "no URL" error. */
  function ImageUrlResult(data: Option<Json>, parseJson: string -> Option<Json>): Result<Json, string> {
    var resultJson := Field(data, "resultJson");
    var parsed := if IsString(resultJson) then parseJson(resultJson.value.s) else None;
    var urls := Field(parsed, "resultUrls");
    var url := if IsArray(urls) then At(urls, 0) else None;
    if Truthy(url) then Ok(url.value) else Err(MSG_NO_IMAGE_URL)
  }

  /** What one parsed OK image poll decides: `success` and `fail` end the loop, anything else polls again. */
  function ImageStep(job: Json, s: ClientScript): Option<Result<Json, string>> {
    var data := Field(Some(job), "data");
    var state := Field(data, "state");
    if IsStr(state, "success") then Some(ImageUrlResult(data, s.parseJson))
    else if IsStr(state, "fail") then Some(Err(MessageOr(Field(data, "failMsg"), MSG_GENERATION_FAILED, s.stringify)))
    else None
  }

  /** `pollImageTask` from attempt `i` on. */
  function PollImage(s: ClientScript, url: string, taskId: Json, i: nat): ClientRun
    decreases KIE_POLL_MAX_IMAGE - i
  {
    if i >= KIE_POLL_MAX_IMAGE then ClientRun(Err(MSG_IMAGE_TIMEOUT), [])
    else
      var call := Record(url, taskId);
      match s.record(i)
      case Rejected(e) => ClientRun(Err(e), [call])
      case Answered(status, body, _) =>
        match body
        case Unparseable(e) => ClientRun(Err(e), [call])
        case Parsed(job) =>
          if !IsOk(status) then
            ClientRun(Err(if job == JNull then TYPE_ERROR else MessageOr(Field(Some(job), "message"), MSG_RECORD_FAILED, s.stringify)), [call])
          else match ImageStep(job, s)
            case Some(r) => ClientRun(r, [call])
            case None => Prepend([call], PollImage(s, url, taskId, i + 1))
  }

  /** The record-info URL of an image task (`encodeURIComponent` is not modelled). */
  function ImageRecordUrl(base: string): string {
    base + "/jobs/recordInfo"
  }

  function VideoRecordUrl(base: string): string {
    base + "/veo/record-info"
  }

  /** `generateImageTryOn(person, clothing, prompt)`: create, then poll. */
  function GenerateImageTryOn(person: Json, clothing: Json, prompt: Option<Json>, base: string, s: ClientScript): ClientRun {
    var created := CreateImageTask(person, clothing, prompt, base, s);
    match created.result
    case Err(_) => created
    case Ok(taskId) => Prepend(created.calls, PollImage(s, ImageRecordUrl(base), taskId, 0))
  }

  /** `extractVideoUrl` of backend/kieClient.ts: five places, with no `response.resultUrls`. */
  function ExtractVideoUrl(data: Option<Json>): Option<Json> {
    if !Searchable(data) then None
    else
      var t := Target(data.value);
      if OutputVideoUrl(t).Some? then OutputVideoUrl(t)
      else if ResultVideoUrl(t).Some? then ResultVideoUrl(t)
      else if ResultVideosUrl(t).Some? then ResultVideosUrl(t)
      else if ResponseResultUrlsSnake(t).Some? then ResponseResultUrlsSnake(t)
      else ResponseVideoUrlTruthy(t)
  }

  function Probes(t: Json): (ps: seq<Option<Json>>)
    ensures |ps| == 5
  {
    [OutputVideoUrl(t), ResultVideoUrl(t), ResultVideosUrl(t), ResponseResultUrlsSnake(t), ResponseVideoUrlTruthy(t)]
  }

  /** The URL found is the value of the earliest of the five places that qualifies. */
  lemma ExtractVideoUrlOrder(data: Option<Json>)
    ensures !Searchable(data) ==> ExtractVideoUrl(data).None?
    ensures Searchable(data) ==> ExtractVideoUrl(data) == FirstHit(Probes(Target(data.value)))
    ensures Searchable(data) && ExtractVideoUrl(data).Some? ==>
      var ps := Probes(Target(data.value));
      exists i :: 0 <= i < 5 && ps[i] == ExtractVideoUrl(data) && forall j :: 0 <= j < i ==> ps[j].None?
  {
    if Searchable(data) {
      var ps := Probes(Target(data.value));
      FirstHitSpec(ps);
      if ps[0].Some? { FirstHitAt(ps, 0); }
      else if ps[1].Some? { FirstHitAt(ps, 1); }
      else if ps[2].Some? { FirstHitAt(ps, 2); }
      else if ps[3].Some? { FirstHitAt(ps, 3); }
      else if ps[4].Some? { FirstHitAt(ps, 4); }
    }
  }

  /** Where one of the first three places qualifies, both `extractVideoUrl` functions agree. */
  lemma ExtractVideoUrlsAgreeOnFirstThree(data: Option<Json>)
    requires Searchable(data)
    requires var t := Target(data.value);
      OutputVideoUrl(t).Some? || ResultVideoUrl(t).Some? || ResultVideosUrl(t).Some?
    ensures ExtractVideoUrl(data) == GenerateVideoApi.ExtractVideoUrl(data)
    ensures ExtractVideoUrl(data).Some?
  {
  }

  /** A video URL given only as `response.resultUrls[0]` is found by the serverless endpoint and missed here. */
  lemma ExtractVideoUrlsDiffer()
    ensures var data := Some(JObj(map["response" := JObj(map["resultUrls" := JArr([JStr("u")])])]));
      GenerateVideoApi.ExtractVideoUrl(data) == Some(JStr("u")) && ExtractVideoUrl(data).None?
  {
    var response := JObj(map["resultUrls" := JArr([JStr("u")])]);
    var d := JObj(map["response" := response]);
    assert Target(d) == d;
    assert Field(Some(d), "response") == Some(response);
    assert ResponseResultUrls(d) == Some(JStr("u"));
  }

  /** What one parsed OK video poll decides: flag 1 ends with the URL, 2 or 3 with the failure, else poll again. */
  function VideoStep(job: Json): Option<Result<Json, string>> {
    var data := Field(Some(job), "data");
    var flag := Field(data, "successFlag");
    if GenerateVideoApi.IsSuccessFlag(flag) then
      var url := ExtractVideoUrl(data);
      Some(if Truthy(url) then Ok(url.value) else Err(MSG_NO_VIDEO_URL))
    else if GenerateVideoApi.IsFailFlag(flag) then Some(Err(MSG_VIDEO_FAILED))
    else None
  }

  /** `pollVideoTask` from attempt `i` on; a `null` body does not throw here, since `job?.message` is used. */
  function PollVideo(s: ClientScript, url: string, taskId: Json, i: nat): ClientRun
    decreases KIE_POLL_MAX_VIDEO - i
  {
    if i >= KIE_POLL_MAX_VIDEO then ClientRun(Err(MSG_VIDEO_TIMEOUT), [])
    else
      var call := Record(url, taskId);
      match s.record(i)
      case Rejected(e) => ClientRun(Err(e), [call])
      case Answered(status, body, _) =>
        match body
        case Unparseable(e) => ClientRun(Err(e), [call])
        case Parsed(job) =>
          if !IsOk(status) then ClientRun(Err(MessageOr(Field(Some(job), "message"), MSG_VIDEO_RECORD_FAILED, s.stringify)), [call])
          else match VideoStep(job)
            case Some(r) => ClientRun(r, [call])
            case None => Prepend([call], PollVideo(s, url, taskId, i + 1))
  }

  /** `generateVideoFromImage(imageUrl, prompt)`: create, then poll. */
  function GenerateVideoFromImage(imageUrl: Json, prompt: Option<Json>, base: string, s: ClientScript): ClientRun {
    var created := CreateVideoTask(imageUrl, prompt, base, s);
    match created.result
    case Err(_) => created
    case Ok(taskId) => Prepend(created.calls, PollVideo(s, VideoRecordUrl(base), taskId, 0))
  }

  /** A parsed OK answer that keeps the image loop going. */
  predicate ImagePending(e: Exchange, s: ClientScript) {
    e.Answered? && e.body.Parsed? && IsOk(e.status) && ImageStep(e.body.json, s).None?
  }

  predicate VideoPending(e: Exchange) {
    e.Answered? && e.body.Parsed? && IsOk(e.status) && VideoStep(e.body.json).None?
  }

  /**
   * A `success` answer's image URL is the one the serverless driver reads, `resultUrls[0]` of the
   * parsed `resultJson`; the client returns it when it is truthy and throws the "no URL" message
   * otherwise.
   */
  lemma ImageUrlResultAgreesWithDriver(data: Option<Json>, parseJson: string -> Option<Json>)
    ensures var u := KieImage.ResultImageUrl(parseJson, Field(data, "resultJson"));
      && (ImageUrlResult(data, parseJson).Ok? <==> Truthy(u))
      && (Truthy(u) ==> ImageUrlResult(data, parseJson) == Ok(u.value))
      && (!Truthy(u) ==> ImageUrlResult(data, parseJson) == Err(MSG_NO_IMAGE_URL))
  {
  }

  /**
   * What a parsed OK image poll decides. The loop goes on exactly when `data.state` is neither
   * `success` nor `fail`. `success` returns the truthy first result URL or throws the "no URL"
   * message. `fail` always throws: a non-empty string `failMsg` as it is, the generic message
   * when `failMsg` is falsy.
   */
  lemma ImageStepSpec(job: Json, s: ClientScript)
    ensures var data := Field(Some(job), "data");
      var state := Field(data, "state");
      var u := KieImage.ResultImageUrl(s.parseJson, Field(data, "resultJson"));
      var failMsg := Field(data, "failMsg");
      && (ImageStep(job, s).None? <==> state != Some(JStr("success")) && state != Some(JStr("fail")))
      && (state == Some(JStr("success")) && Truthy(u) ==> ImageStep(job, s) == Some(Ok(u.value)))
      && (state == Some(JStr("success")) && !Truthy(u) ==> ImageStep(job, s) == Some(Err(MSG_NO_IMAGE_URL)))
      && (state == Some(JStr("fail")) ==> ImageStep(job, s).Some? && ImageStep(job, s).value.Err?)
      && (state == Some(JStr("fail")) && IsNonEmptyString(failMsg) ==> ImageStep(job, s) == Some(Err(failMsg.value.s)))
      && (state == Some(JStr("fail")) && !Truthy(failMsg) ==> ImageStep(job, s) == Some(Err(MSG_GENERATION_FAILED)))
  {
    ImageUrlResultAgreesWithDriver(Field(Some(job), "data"), s.parseJson);
  }

  /**
   * What a parsed OK video poll decides. The loop goes on exactly when `data.successFlag` is none
   * of 1, 2, 3, `'1'`, `'2'`, `'3'`. Flag 1 returns the extracted URL when it is truthy and
   * throws the "no URL" message otherwise; flags 2 and 3 throw the failure message.
   */
  lemma VideoStepSpec(job: Json)
    ensures var data := Field(Some(job), "data");
      var flag := Field(data, "successFlag");
      var u := ExtractVideoUrl(data);
      var succeeded := flag == Some(JNum(1)) || flag == Some(JStr("1"));
      var failed := flag == Some(JNum(2)) || flag == Some(JNum(3)) || flag == Some(JStr("2")) || flag == Some(JStr("3"));
      && (VideoStep(job).None? <==> !succeeded && !failed)
      && (succeeded && Truthy(u) ==> VideoStep(job) == Some(Ok(u.value)))
      && (succeeded && !Truthy(u) ==> VideoStep(job) == Some(Err(MSG_NO_VIDEO_URL)))
      && (failed ==> VideoStep(job) == Some(Err(MSG_VIDEO_FAILED)))
  {
  }

  /**
   * The image loop started at attempt `i` stops at the first answer `j` that does not keep it
   * going: when that is a parsed OK answer in a terminal state, the loop settles with that
   * state's result after `j - i + 1` polls.
   */
  lemma {:induction false} PollImageStopsAt(s: ClientScript, url: string, taskId: Json, i: nat, j: nat)
    requires i <= j < KIE_POLL_MAX_IMAGE
    requires forall k :: i <= k < j ==> ImagePending(s.record(k), s)
    requires s.record(j).Answered? && s.record(j).body.Parsed? && IsOk(s.record(j).status)
    requires ImageStep(s.record(j).body.json, s).Some?
    ensures PollImage(s, url, taskId, i).result == ImageStep(s.record(j).body.json, s).value
    ensures |PollImage(s, url, taskId, i).calls| == j - i + 1
    decreases j - i
  {
    if i < j {
      assert ImagePending(s.record(i), s);
      PollImageStopsAt(s, url, taskId, i + 1, j);
      PollImageContinues(s, url, taskId, i);
    } else {
      PollImageEnds(s, url, taskId, i);
    }
  }

  /** The same for the video loop. */
  lemma {:induction false} PollVideoStopsAt(s: ClientScript, url: string, taskId: Json, i: nat, j: nat)
    requires i <= j < KIE_POLL_MAX_VIDEO
    requires forall k :: i <= k < j ==> VideoPending(s.record(k))
    requires s.record(j).Answered? && s.record(j).body.Parsed? && IsOk(s.record(j).status)
    requires VideoStep(s.record(j).body.json).Some?
    ensures PollVideo(s, url, taskId, i).result == VideoStep(s.record(j).body.json).value
    ensures |PollVideo(s, url, taskId, i).calls| == j - i + 1
    decreases j - i
  {
    if i < j {
      assert VideoPending(s.record(i));
      PollVideoStopsAt(s, url, taskId, i + 1, j);
      PollVideoContinues(s, url, taskId, i);
    } else {
      PollVideoEnds(s, url, taskId, i);
    }
  }

  /** A image poll that keeps the loop going sends one request and defers to the next attempt. */
  lemma PollImageContinues(s: ClientScript, url: string, taskId: Json, i: nat)
    requires i < KIE_POLL_MAX_IMAGE && ImagePending(s.record(i), s)
    ensures PollImage(s, url, taskId, i) == Prepend([Record(url, taskId)], PollImage(s, url, taskId, i + 1))
  {
  }

  /** A parsed OK image poll that ends the loop sends one request and settles with its step. */
  lemma PollImageEnds(s: ClientScript, url: string, taskId: Json, i: nat)
    requires i < KIE_POLL_MAX_IMAGE
    requires s.record(i).Answered? && s.record(i).body.Parsed? && IsOk(s.record(i).status)
    requires ImageStep(s.record(i).body.json, s).Some?
    ensures PollImage(s, url, taskId, i) == ClientRun(ImageStep(s.record(i).body.json, s).value, [Record(url, taskId)])
  {
  }

  /** Whatever the answers, an image the client returns is a truthy value. */
  lemma {:induction false} PollImageOkIsTruthy(s: ClientScript, url: string, taskId: Json, i: nat)
    ensures var r := PollImage(s, url, taskId, i); r.result.Ok? ==> Truthy(Some(r.result.value))
    decreases KIE_POLL_MAX_IMAGE - i
  {
    if i < KIE_POLL_MAX_IMAGE {
      PollImageOkIsTruthy(s, url, taskId, i + 1);
      var e := s.record(i);
      if e.Answered? && e.body.Parsed? && IsOk(e.status) {
        ImageStepSpec(e.body.json, s);
      }
    }
  }

  /** A video poll that keeps the loop going sends one request and defers to the next attempt. */
  lemma PollVideoContinues(s: ClientScript, url: string, taskId: Json, i: nat)
    requires i < KIE_POLL_MAX_VIDEO && VideoPending(s.record(i))
    ensures PollVideo(s, url, taskId, i) == Prepend([Record(url, taskId)], PollVideo(s, url, taskId, i + 1))
  {
  }

  /** A parsed OK video poll that ends the loop sends one request and settles with its step. */
  lemma PollVideoEnds(s: ClientScript, url: string, taskId: Json, i: nat)
    requires i < KIE_POLL_MAX_VIDEO
    requires s.record(i).Answered? && s.record(i).body.Parsed? && IsOk(s.record(i).status)
    requires VideoStep(s.record(i).body.json).Some?
    ensures PollVideo(s, url, taskId, i) == ClientRun(VideoStep(s.record(i).body.json).value, [Record(url, taskId)])
  {
  }

  /** Whatever the answers, a video URL the client returns is a truthy value. */
  lemma {:induction false} PollVideoOkIsTruthy(s: ClientScript, url: string, taskId: Json, i: nat)
    ensures var r := PollVideo(s, url, taskId, i); r.result.Ok? ==> Truthy(Some(r.result.value))
    decreases KIE_POLL_MAX_VIDEO - i
  {
    if i < KIE_POLL_MAX_VIDEO {
      PollVideoOkIsTruthy(s, url, taskId, i + 1);
      var e := s.record(i);
      if e.Answered? && e.body.Parsed? && IsOk(e.status) {
        VideoStepSpec(e.body.json);
      }
    }
  }

  /**
   * The image loop sends at most `60 - i` polls, all to the same URL for the same task; when
   * every answer from `i` on keeps it going, it throws the timeout message after all of them.
   */
  lemma {:induction false} PollImageBound(s: ClientScript, url: string, taskId: Json, i: nat)
    requires i <= KIE_POLL_MAX_IMAGE
    ensures var r := PollImage(s, url, taskId, i);
      |r.calls| <= KIE_POLL_MAX_IMAGE - i
      && (forall k :: 0 <= k < |r.calls| ==> r.calls[k] == Record(url, taskId))
      && ((forall k :: i <= k < KIE_POLL_MAX_IMAGE ==> ImagePending(s.record(k), s)) ==>
            r.result == Err(MSG_IMAGE_TIMEOUT) && |r.calls| == KIE_POLL_MAX_IMAGE - i)
    decreases KIE_POLL_MAX_IMAGE - i
  {
    if i < KIE_POLL_MAX_IMAGE {
      var call := Record(url, taskId);
      var rest := PollImage(s, url, taskId, i + 1);
      if ImagePending(s.record(i), s) {
        PollImageBound(s, url, taskId, i + 1);
        assert PollImage(s, url, taskId, i) == Prepend([call], rest);
        forall k | 0 <= k < |[call] + rest.calls| ensures ([call] + rest.calls)[k] == call {
          if k > 0 { assert ([call] + rest.calls)[k] == rest.calls[k - 1]; }
        }
      }
    }
  }

  /** The same for the video loop, with 80 attempts. */
  lemma {:induction false} PollVideoBound(s: ClientScript, url: string, taskId: Json, i: nat)
    requires i <= KIE_POLL_MAX_VIDEO
    ensures var r := PollVideo(s, url, taskId, i);
      |r.calls| <= KIE_POLL_MAX_VIDEO - i
      && (forall k :: 0 <= k < |r.calls| ==> r.calls[k] == Record(url, taskId))
      && ((forall k :: i <= k < KIE_POLL_MAX_VIDEO ==> VideoPending(s.record(k))) ==>
            r.result == Err(MSG_VIDEO_TIMEOUT) && |r.calls| == KIE_POLL_MAX_VIDEO - i)
    decreases KIE_POLL_MAX_VIDEO - i
  {
    if i < KIE_POLL_MAX_VIDEO {
      var call := Record(url, taskId);
      var rest := PollVideo(s, url, taskId, i + 1);
      if VideoPending(s.record(i)) {
        PollVideoBound(s, url, taskId, i + 1);
        assert PollVideo(s, url, taskId, i) == Prepend([call], rest);
        forall k | 0 <= k < |[call] + rest.calls| ensures ([call] + rest.calls)[k] == call {
          if k > 0 { assert ([call] + rest.calls)[k] == rest.calls[k - 1]; }
        }
      }
    }
  }

  /** A poll body that is not JSON ends the client's loop with the parse error, at any attempt. */
  lemma UnparseablePollThrows(s: ClientScript, url: string, taskId: Json, i: nat, e: string, status: int, took: nat)
    requires i < KIE_POLL_MAX_IMAGE && s.record(i) == Answered(status, Unparseable(e), took)
    ensures PollImage(s, url, taskId, i) == ClientRun(Err(e), [Record(url, taskId)])
    ensures PollVideo(s, url, taskId, i) == ClientRun(Err(e), [Record(url, taskId)])
  {
  }

  /**
   * One image try-on sends one create request and at most 60 polls; if the task is created and no
   * poll answer ends the loop, it throws the timeout message.
   */
  lemma GenerateImageTryOnBound(person: Json, clothing: Json, prompt: Option<Json>, base: string, s: ClientScript)
    ensures var r := GenerateImageTryOn(person, clothing, prompt, base, s);
      1 <= |r.calls| <= 1 + KIE_POLL_MAX_IMAGE
      && r.calls[0] == Create(base + "/jobs/createTask", ImageTaskBody(person, clothing, prompt))
      && (CreateImageTask(person, clothing, prompt, base, s).result.Ok?
          && (forall k :: 0 <= k < KIE_POLL_MAX_IMAGE ==> ImagePending(s.record(k), s)) ==>
            r.result == Err(MSG_IMAGE_TIMEOUT))
  {
    var created := CreateImageTask(person, clothing, prompt, base, s);
    if created.result.Ok? {
      PollImageBound(s, ImageRecordUrl(base), created.result.value, 0);
    }
  }

  /** The same for one video, with 80 polls. */
  lemma GenerateVideoBound(imageUrl: Json, prompt: Option<Json>, base: string, s: ClientScript)
    ensures var r := GenerateVideoFromImage(imageUrl, prompt, base, s);
      1 <= |r.calls| <= 1 + KIE_POLL_MAX_VIDEO
      && r.calls[0] == Create(base + "/veo/generate", VideoTaskBody(imageUrl, prompt))
      && (CreateVideoTask(imageUrl, prompt, base, s).result.Ok?
          && (forall k :: 0 <= k < KIE_POLL_MAX_VIDEO ==> VideoPending(s.record(k))) ==>
            r.result == Err(MSG_VIDEO_TIMEOUT))
  {
    var created := CreateVideoTask(imageUrl, prompt, base, s);
    if created.result.Ok? {
      PollVideoBound(s, VideoRecordUrl(base), created.result.value, 0);
    }
  }

  /** `generateImageTryOn` as it is written: `createImageTask`, then the `for` loop of `pollImageTask`. */
  method RunGenerateImageTryOn(person: Json, clothing: Json, prompt: Option<Json>, base: string, s: ClientScript)
    returns (result: Result<Json, string>, calls: seq<ClientCall>)
    ensures ClientRun(result, calls) == GenerateImageTryOn(person, clothing, prompt, base, s)
  {
    var created := CreateImageTask(person, clothing, prompt, base, s);
    if created.result.Err? {
      return created.result, created.calls;
    }
    var polls;
    result, polls := RunPollImage(s, ImageRecordUrl(base), created.result.value);
    calls := created.calls + polls;
  }

  method RunPollImage(s: ClientScript, url: string, taskId: Json) returns (result: Result<Json, string>, calls: seq<ClientCall>)
    ensures ClientRun(result, calls) == PollImage(s, url, taskId, 0)
  {
    calls := [];
    for i := 0 to KIE_POLL_MAX_IMAGE
      invariant PollImage(s, url, taskId, 0) == Prepend(calls, PollImage(s, url, taskId, i))
    {
      var call := Record(url, taskId);
      var done := PollImageOnce(s, url, taskId, i);
      if done.Some? {
        return done.value, calls + [call];
      }
      PrependTwice(calls, [call], PollImage(s, url, taskId, i + 1));
      calls := calls + [call];
    }
    PollImageExhausted(s, url, taskId);
    return Err(MSG_IMAGE_TIMEOUT), calls;
  }

  /** One round of the loop: the record request, then the result that ends the loop, if any. */
  method PollImageOnce(s: ClientScript, url: string, taskId: Json, i: nat) returns (done: Option<Result<Json, string>>)
    requires i < KIE_POLL_MAX_IMAGE
    ensures done.Some? ==> PollImage(s, url, taskId, i) == ClientRun(done.value, [Record(url, taskId)])
    ensures done.None? ==> PollImage(s, url, taskId, i) == Prepend([Record(url, taskId)], PollImage(s, url, taskId, i + 1))
  {
    var res := s.record(i);
    if res.Rejected? {
      return Some(Err(res.error));
    }
    if res.body.Unparseable? {
      return Some(Err(res.body.error));
    }
    var job := res.body.json;
    if !IsOk(res.status) {
      var m := if job == JNull then TYPE_ERROR else MessageOr(Field(Some(job), "message"), MSG_RECORD_FAILED, s.stringify);
      return Some(Err(m));
    }
    done := ImageStep(job, s);
  }

  lemma PollImageExhausted(s: ClientScript, url: string, taskId: Json)
    ensures PollImage(s, url, taskId, KIE_POLL_MAX_IMAGE) == ClientRun(Err(MSG_IMAGE_TIMEOUT), [])
  {
  }

  /** `generateVideoFromImage` as it is written: `createVideoTask`, then the `for` loop of `pollVideoTask`. */
  method RunGenerateVideoFromImage(imageUrl: Json, prompt: Option<Json>, base: string, s: ClientScript)
    returns (result: Result<Json, string>, calls: seq<ClientCall>)
    ensures ClientRun(result, calls) == GenerateVideoFromImage(imageUrl, prompt, base, s)
  {
    var created := CreateVideoTask(imageUrl, prompt, base, s);
    if created.result.Err? {
      return created.result, created.calls;
    }
    var polls;
    result, polls := RunPollVideo(s, VideoRecordUrl(base), created.result.value);
    calls := created.calls + polls;
  }

  method RunPollVideo(s: ClientScript, url: string, taskId: Json) returns (result: Result<Json, string>, calls: seq<ClientCall>)
    ensures ClientRun(result, calls) == PollVideo(s, url, taskId, 0)
  {
    calls := [];
    for i := 0 to KIE_POLL_MAX_VIDEO
      invariant PollVideo(s, url, taskId, 0) == Prepend(calls, PollVideo(s, url, taskId, i))
    {
      var call := Record(url, taskId);
      var done := PollVideoOnce(s, url, taskId, i);
      if done.Some? {
        return done.value, calls + [call];
      }
      PrependTwice(calls, [call], PollVideo(s, url, taskId, i + 1));
      calls := calls + [call];
    }
    PollVideoExhausted(s, url, taskId);
    return Err(MSG_VIDEO_TIMEOUT), calls;
  }

  /** One round of the loop: the record request, then the result that ends the loop, if any. */
  method PollVideoOnce(s: ClientScript, url: string, taskId: Json, i: nat) returns (done: Option<Result<Json, string>>)
    requires i < KIE_POLL_MAX_VIDEO
    ensures done.Some? ==> PollVideo(s, url, taskId, i) == ClientRun(done.value, [Record(url, taskId)])
    ensures done.None? ==> PollVideo(s, url, taskId, i) == Prepend([Record(url, taskId)], PollVideo(s, url, taskId, i + 1))
  {
    var res := s.record(i);
    if res.Rejected? {
      return Some(Err(res.error));
    }
    if res.body.Unparseable? {
      return Some(Err(res.body.error));
    }
    var job := res.body.json;
    if !IsOk(res.status) {
      return Some(Err(MessageOr(Field(Some(job), "message"), MSG_VIDEO_RECORD_FAILED, s.stringify)));
    }
    done := VideoStep(job);
  }

  lemma PollVideoExhausted(s: ClientScript, url: string, taskId: Json)
    ensures PollVideo(s, url, taskId, KIE_POLL_MAX_VIDEO) == ClientRun(Err(MSG_VIDEO_TIMEOUT), [])
  {
  }
}
