/**
 * The serverless endpoint in api/generate-video.ts: pick the default or backup KIE account, send
 * one `veo/generate` request, then poll `veo/record-info` up to 80 times until `successFlag`
 * says the video is done or failed. Every exception ends in the generic 500.
 */
module GenerateVideoApi {
  import opened Wrappers
  import opened Text
  import opened Json
  import opened Http
  import opened VideoUrl
  import ProviderAbstraction
  import KieImage

  const VIDEO_POLL_INTERVAL_MS: nat := 3000
  const VIDEO_POLL_MAX_ATTEMPTS: nat := 80

  /** The default video prompt (its text is a configuration string, not modelled). */
  const DEFAULT_VIDEO_PROMPT: string := "<default video prompt>"

  const MSG_METHOD_NOT_ALLOWED: string := "Method not allowed"
  const MSG_MISSING_IMAGE: string := "Недостаточно данных для создания видео."
  const MSG_VIDEO_CREATE: string := "Не удалось создать видео. Попробуйте позже."
  const MSG_VIDEO_FETCH: string := "Не удалось получить видео. Попробуйте позже."
  const MSG_VIDEO_FAILED: string := "Генерация видео не удалась. Попробуйте снова."
  const MSG_VIDEO_TIMEOUT: string := "Превышено время ожидания для видео. Попробуйте ещё раз."

  datatype ProviderId = Default | Backup

  /** `req.body?.provider === 'backup' ? 'backup' : 'default'` */
  function ProviderOf(provider: Option<Json>): (id: ProviderId)
    ensures id == Backup <==> IsStr(provider, "backup")
  {
    if IsStr(provider, "backup") then Backup else Default
  }

  /** The environment variables of both KIE accounts. */
  datatype VideoEnv = VideoEnv(kieBaseUrl: Option<string>, kieApiKey: Option<string>,
                               backupBaseUrl: Option<string>, backupApiKey: Option<string>)

  datatype KieConfig = KieConfig(base: string, apiKey: Option<string>)

  /**
   * `getKieConfig`: the backup account only when it is asked for and both of its variables are
   * set; in every other case the default account, its base defaulted and without a trailing `/`.
   */
  function GetKieConfig(provider: ProviderId, env: VideoEnv): (cfg: KieConfig)
    ensures provider == Backup && ProviderAbstraction.IsSet(env.backupBaseUrl) && ProviderAbstraction.IsSet(env.backupApiKey) ==>
      cfg == KieConfig(StripTrailingSlash(env.backupBaseUrl.value), env.backupApiKey)
    ensures !(provider == Backup && ProviderAbstraction.IsSet(env.backupBaseUrl) && ProviderAbstraction.IsSet(env.backupApiKey)) ==>
      cfg == KieConfig(KieImage.KieBase(env.kieBaseUrl), env.kieApiKey)
  {
    if provider == Backup && ProviderAbstraction.IsSet(env.backupBaseUrl) && ProviderAbstraction.IsSet(env.backupApiKey) then
      KieConfig(StripTrailingSlash(env.backupBaseUrl.value), env.backupApiKey)
    else
      KieConfig(KieImage.KieBase(env.kieBaseUrl), env.kieApiKey)
  }

  /** The default account never looks at the backup variables. */
  lemma DefaultIgnoresBackup(env: VideoEnv, backupBaseUrl: Option<string>, backupApiKey: Option<string>)
    ensures GetKieConfig(Default, env) == GetKieConfig(Default, env.(backupBaseUrl := backupBaseUrl, backupApiKey := backupApiKey))
    ensures GetKieConfig(Default, env).apiKey == env.kieApiKey
  {
  }

  /** `extractVideoUrl` of api/generate-video.ts, as the chain of tests it is written as. */
  function ExtractVideoUrl(data: Option<Json>): Option<Json> {
    if !Searchable(data) then None
    else
      var t := Target(data.value);
      if OutputVideoUrl(t).Some? then OutputVideoUrl(t)
      else if ResultVideoUrl(t).Some? then ResultVideoUrl(t)
      else if ResultVideosUrl(t).Some? then ResultVideosUrl(t)
      else if ResponseResultUrls(t).Some? then ResponseResultUrls(t)
      else if ResponseResultUrlsSnake(t).Some? then ResponseResultUrlsSnake(t)
      else ResponseVideoUrlString(t)
  }

  /** The six places this `extractVideoUrl` looks, in its order. */
  function Probes(t: Json): (ps: seq<Option<Json>>)
    ensures |ps| == 6
  {
    [OutputVideoUrl(t), ResultVideoUrl(t), ResultVideosUrl(t),
     ResponseResultUrls(t), ResponseResultUrlsSnake(t), ResponseVideoUrlString(t)]
  }

  /**
   * The URL found is the value of the earliest of the six places that qualifies, looked up in
   * `data.data` when that is an object and in `data` otherwise; nothing is found when no place
   * qualifies or `data` is not an object.
   */
  lemma ExtractVideoUrlOrder(data: Option<Json>)
    ensures !Searchable(data) ==> ExtractVideoUrl(data).None?
    ensures Searchable(data) ==> ExtractVideoUrl(data) == FirstHit(Probes(Target(data.value)))
    ensures Searchable(data) && ExtractVideoUrl(data).Some? ==>
      var ps := Probes(Target(data.value));
      exists i :: 0 <= i < 6 && ps[i] == ExtractVideoUrl(data) && forall j :: 0 <= j < i ==> ps[j].None?
    ensures Searchable(data) && ExtractVideoUrl(data).None? ==>
      forall i :: 0 <= i < 6 ==> Probes(Target(data.value))[i].None?
  {
    if Searchable(data) {
      var ps := Probes(Target(data.value));
      FirstHitSpec(ps);
      if ps[0].Some? { FirstHitAt(ps, 0); }
      else if ps[1].Some? { FirstHitAt(ps, 1); }
      else if ps[2].Some? { FirstHitAt(ps, 2); }
      else if ps[3].Some? { FirstHitAt(ps, 3); }
      else if ps[4].Some? { FirstHitAt(ps, 4); }
      else if ps[5].Some? { FirstHitAt(ps, 5); }
    }
  }

  /** `successFlag` 1 or `'1'`. */
  predicate IsSuccessFlag(flag: Option<Json>) {
    flag == Some(JNum(1)) || flag == Some(JStr("1"))
  }

  /** `successFlag` 2, 3, `'2'` or `'3'`. */
  predicate IsFailFlag(flag: Option<Json>) {
    flag == Some(JNum(2)) || flag == Some(JNum(3)) || flag == Some(JStr("2")) || flag == Some(JStr("3"))
  }

  /** The `veo/generate` payload: always `veo3` at 9:16 with the one image; the prompt defaults when falsy. */
  function GenerateBody(imageUrl: Json, prompt: Option<Json>): (body: Json)
    ensures body.JObj? && body.fields.Keys == {"prompt", "model", "aspect_ratio", "imageUrls"}
    ensures body.fields["model"] == JStr("veo3") && body.fields["aspect_ratio"] == JStr("9:16")
    ensures body.fields["imageUrls"] == JArr([imageUrl])
    ensures Truthy(prompt) ==> body.fields["prompt"] == prompt.value
    ensures !Truthy(prompt) ==> body.fields["prompt"] == JStr(DEFAULT_VIDEO_PROMPT)
  {
    var p := if Truthy(prompt) then prompt.value else JStr(DEFAULT_VIDEO_PROMPT);
    JObj(map["prompt" := p, "model" := JStr("veo3"), "aspect_ratio" := JStr("9:16"), "imageUrls" := JArr([imageUrl])])
  }

  /** A request to KIE: the Veo generation, or a status poll for `taskId`. */
  datatype VideoCall = Generate(url: string, body: Json) | RecordInfo(base: string, taskId: Json)

  /** The Veo API as a script: the answer to `veo/generate` and the answer to poll number n. */
  datatype VideoScript = VideoScript(create: Exchange, record: nat -> Exchange)

  datatype VideoRun = VideoRun(response: Response, calls: seq<VideoCall>)

  function Prepend(cs: seq<VideoCall>, r: VideoRun): VideoRun {
    VideoRun(r.response, cs + r.calls)
  }

  lemma PrependTwice(a: seq<VideoCall>, b: seq<VideoCall>, r: VideoRun)
    ensures Prepend(a, Prepend(b, r)) == Prepend(a + b, r)
  {
    assert a + (b + r.calls) == (a + b) + r.calls;
  }

  function Error(status: int, message: string): Response {
    Response(status, ErrorBody(message))
  }

  /**
   * What one parsed OK poll answer decides: a success flag with a truthy URL is 200, without one
   * 500; a failure flag is 422; any other flag (or none) means poll again (`None`).
   */
  function Verdict(job: Json): Option<Response> {
    var data := Field(Some(job), "data");
    var flag := Field(data, "successFlag");
    if IsSuccessFlag(flag) then
      var url := ExtractVideoUrl(data);
      if Truthy(url) then Some(Response(200, VideoBody(url.value))) else Some(Error(500, MSG_VIDEO_CREATE))
    else if IsFailFlag(flag) then Some(Error(422, MSG_VIDEO_FAILED))
    else None
  }

  /**
   * A verdict is reached exactly on a success or failure flag; a 200 carries the truthy URL that
   * `extractVideoUrl` found in `data`, a success flag without one is 500, a failure flag 422.
   */
  lemma VerdictSpec(job: Json)
    ensures var data := Field(Some(job), "data");
      var flag := Field(data, "successFlag");
      var v := Verdict(job);
      && (v.None? <==> !IsSuccessFlag(flag) && !IsFailFlag(flag))
      && (v.Some? ==> v.value.status in {200, 422, 500})
      && (v.Some? && v.value.status == 200 <==> IsSuccessFlag(flag) && Truthy(ExtractVideoUrl(data)))
      && (v.Some? && v.value.status == 200 ==> v.value.body == VideoBody(ExtractVideoUrl(data).value))
      && (IsFailFlag(flag) ==> v == Some(Error(422, MSG_VIDEO_FAILED)))
  {
  }

  /**
   * Polls `attempt`, `attempt + 1`, ...: a rejected request ends in the `catch` (500), an
   * unparseable body uses up the attempt, a non-OK answer is 502, and 80 attempts without a
   * verdict are 408.
   */
  function PollLoop(s: VideoScript, base: string, taskId: Json, attempt: nat): VideoRun
    decreases VIDEO_POLL_MAX_ATTEMPTS - attempt
  {
    if attempt >= VIDEO_POLL_MAX_ATTEMPTS then VideoRun(Error(408, MSG_VIDEO_TIMEOUT), [])
    else
      var call := RecordInfo(base, taskId);
      match s.record(attempt)
      case Rejected(_) => VideoRun(Error(500, ProviderAbstraction.MSG_UNKNOWN), [call])
      case Answered(status, body, _) =>
        if body.Unparseable? then Prepend([call], PollLoop(s, base, taskId, attempt + 1))
        else if !IsOk(status) then VideoRun(Error(502, MSG_VIDEO_FETCH), [call])
        else match Verdict(body.json)
          case Some(r) => VideoRun(r, [call])
          case None => Prepend([call], PollLoop(s, base, taskId, attempt + 1))
  }

  /** The request fields the handler reads; `None` stands for an absent field. */
  datatype VideoRequest = VideoRequest(httpMethod: Option<string>, provider: Option<Json>, imageUrl: Option<Json>, prompt: Option<Json>)

  /** The handler: method, account key, image, then `veo/generate` and the poll loop. */
  function Handle(req: VideoRequest, env: VideoEnv, s: VideoScript): VideoRun {
    if req.httpMethod != Some("POST") then VideoRun(Error(405, MSG_METHOD_NOT_ALLOWED), [])
    else
      var cfg := GetKieConfig(ProviderOf(req.provider), env);
      if !ProviderAbstraction.IsSet(cfg.apiKey) then VideoRun(Error(500, ProviderAbstraction.MSG_UNKNOWN), [])
      else if !Truthy(req.imageUrl) then VideoRun(Error(400, MSG_MISSING_IMAGE), [])
      else CreateThenPoll(cfg.base, req.imageUrl.value, req.prompt, s)
  }

  /**
   * `veo/generate`, rejected as 502 when its body is not JSON, the status is not OK or there is
   * no truthy `data.taskId`; then the poll loop for that task.
   */
  function CreateThenPoll(base: string, imageUrl: Json, prompt: Option<Json>, s: VideoScript): VideoRun {
    var call := Generate(base + "/veo/generate", GenerateBody(imageUrl, prompt));
    match s.create
    case Rejected(_) => VideoRun(Error(500, ProviderAbstraction.MSG_UNKNOWN), [call])
    case Answered(status, body, _) =>
      if body.Unparseable? || !IsOk(status) then VideoRun(Error(502, MSG_VIDEO_CREATE), [call])
      else
        var taskId := Field(Field(Some(body.json), "data"), "taskId");
        if !Truthy(taskId) then VideoRun(Error(502, MSG_VIDEO_CREATE), [call])
        else Prepend([call], PollLoop(s, base, taskId.value, 0))
  }

  /**
   * From attempt `attempt` on, the loop sends at most `80 - attempt` polls, all for the same task,
   * and it answers 408 only after sending every one of them.
   */
  lemma {:induction false} PollLoopBound(s: VideoScript, base: string, taskId: Json, attempt: nat)
    requires attempt <= VIDEO_POLL_MAX_ATTEMPTS
    ensures var r := PollLoop(s, base, taskId, attempt);
      |r.calls| <= VIDEO_POLL_MAX_ATTEMPTS - attempt
      && (forall k :: 0 <= k < |r.calls| ==> r.calls[k] == RecordInfo(base, taskId))
      && (r.response.status == 408 ==> |r.calls| == VIDEO_POLL_MAX_ATTEMPTS - attempt)
      && r.response.status in {200, 408, 422, 500, 502}
      && (r.response.status == 200 ==> r.response.body.VideoBody?)
    decreases VIDEO_POLL_MAX_ATTEMPTS - attempt
  {
    if attempt < VIDEO_POLL_MAX_ATTEMPTS {
      var call := RecordInfo(base, taskId);
      var rest := PollLoop(s, base, taskId, attempt + 1);
      if s.record(attempt).Answered? {
        var body := s.record(attempt).body;
        if body.Unparseable? || (IsOk(s.record(attempt).status) && Verdict(body.json).None?) {
          PollLoopBound(s, base, taskId, attempt + 1);
          assert PollLoop(s, base, taskId, attempt) == Prepend([call], rest);
          forall k | 0 <= k < |[call] + rest.calls| ensures ([call] + rest.calls)[k] == call {
            if k > 0 { assert ([call] + rest.calls)[k] == rest.calls[k - 1]; }
          }
        } else if IsOk(s.record(attempt).status) {
          VerdictSpec(body.json);
        }
      }
    }
  }

  /** A poll body that never parses uses up all 80 attempts and the answer is 408. */
  lemma {:induction false} UnparseablePollsTimeOut(s: VideoScript, base: string, taskId: Json, attempt: nat)
    requires attempt <= VIDEO_POLL_MAX_ATTEMPTS
    requires forall k :: attempt <= k < VIDEO_POLL_MAX_ATTEMPTS ==> s.record(k).Answered? && s.record(k).body.Unparseable?
    ensures PollLoop(s, base, taskId, attempt).response == Error(408, MSG_VIDEO_TIMEOUT)
    ensures |PollLoop(s, base, taskId, attempt).calls| == VIDEO_POLL_MAX_ATTEMPTS - attempt
    decreases VIDEO_POLL_MAX_ATTEMPTS - attempt
  {
    if attempt < VIDEO_POLL_MAX_ATTEMPTS {
      UnparseablePollsTimeOut(s, base, taskId, attempt + 1);
    }
  }

  /**
   * The handler answers with one of seven statuses; a rejection before the poll loop sends no poll,
   * and at most one `veo/generate` and 80 polls are sent.
   */
  lemma HandleBounds(req: VideoRequest, env: VideoEnv, s: VideoScript)
    ensures var r := Handle(req, env, s);
      r.response.status in {200, 400, 405, 408, 422, 500, 502}
      && |r.calls| <= 1 + VIDEO_POLL_MAX_ATTEMPTS
      && (req.httpMethod != Some("POST") ==> r.response.status == 405 && r.calls == [])
      && (r.response.status == 200 ==> r.response.body.VideoBody?)
  {
    if req.httpMethod == Some("POST") {
      var cfg := GetKieConfig(ProviderOf(req.provider), env);
      if ProviderAbstraction.IsSet(cfg.apiKey) && Truthy(req.imageUrl) {
        CreateThenPollBounds(cfg.base, req.imageUrl.value, req.prompt, s);
      }
    }
  }

  lemma CreateThenPollBounds(base: string, imageUrl: Json, prompt: Option<Json>, s: VideoScript)
    ensures var r := CreateThenPoll(base, imageUrl, prompt, s);
      r.response.status in {200, 408, 422, 500, 502}
      && 1 <= |r.calls| <= 1 + VIDEO_POLL_MAX_ATTEMPTS
      && r.calls[0] == Generate(base + "/veo/generate", GenerateBody(imageUrl, prompt))
      && (r.response.status == 200 ==> r.response.body.VideoBody?)
  {
    if s.create.Answered? && s.create.body.Parsed? && IsOk(s.create.status) {
      var taskId := Field(Field(Some(s.create.body.json), "data"), "taskId");
      if Truthy(taskId) {
        PollLoopBound(s, base, taskId.value, 0);
      }
    }
  }

  /** The handler as it is written, with its `for` loop over the polls. */
  method HandleRequest(req: VideoRequest, env: VideoEnv, s: VideoScript) returns (response: Response, calls: seq<VideoCall>)
    ensures VideoRun(response, calls) == Handle(req, env, s)
  {
    calls := [];
    if req.httpMethod != Some("POST") {
      return Error(405, MSG_METHOD_NOT_ALLOWED), calls;
    }
    var cfg := GetKieConfig(ProviderOf(req.provider), env);
    if !ProviderAbstraction.IsSet(cfg.apiKey) {
      return Error(500, ProviderAbstraction.MSG_UNKNOWN), calls;
    }
    if !Truthy(req.imageUrl) {
      return Error(400, MSG_MISSING_IMAGE), calls;
    }
    calls := [Generate(cfg.base + "/veo/generate", GenerateBody(req.imageUrl.value, req.prompt))];
    var createRes := s.create;
    if createRes.Rejected? {
      return Error(500, ProviderAbstraction.MSG_UNKNOWN), calls;
    }
    if createRes.body.Unparseable? || !IsOk(createRes.status) {
      return Error(502, MSG_VIDEO_CREATE), calls;
    }
    var taskId := Field(Field(Some(createRes.body.json), "data"), "taskId");
    if !Truthy(taskId) {
      return Error(502, MSG_VIDEO_CREATE), calls;
    }
    var polls;
    response, polls := Poll(s, cfg.base, taskId.value);
    calls := calls + polls;
  }

  /** `for (let attempt = 0; attempt < POLL_MAX_ATTEMPTS; attempt++)` over `veo/record-info`. */
  method Poll(s: VideoScript, base: string, taskId: Json) returns (response: Response, calls: seq<VideoCall>)
    ensures VideoRun(response, calls) == PollLoop(s, base, taskId, 0)
  {
    calls := [];
    for attempt := 0 to VIDEO_POLL_MAX_ATTEMPTS
      invariant PollLoop(s, base, taskId, 0) == Prepend(calls, PollLoop(s, base, taskId, attempt))
    {
      var call := RecordInfo(base, taskId);
      var done := PollOnce(s, base, taskId, attempt);
      if done.Some? {
        return done.value, calls + [call];
      }
      PrependTwice(calls, [call], PollLoop(s, base, taskId, attempt + 1));
      calls := calls + [call];
    }
    PollLoopExhausted(s, base, taskId);
    return Error(408, MSG_VIDEO_TIMEOUT), calls;
  }

  /** One round of the loop: the `record-info` request, then the response that ends the loop, if any. */
  method PollOnce(s: VideoScript, base: string, taskId: Json, attempt: nat) returns (done: Option<Response>)
    requires attempt < VIDEO_POLL_MAX_ATTEMPTS
    ensures done.Some? ==> PollLoop(s, base, taskId, attempt) == VideoRun(done.value, [RecordInfo(base, taskId)])
    ensures done.None? ==> PollLoop(s, base, taskId, attempt) == Prepend([RecordInfo(base, taskId)], PollLoop(s, base, taskId, attempt + 1))
  {
    var jobRes := s.record(attempt);
    if jobRes.Rejected? {
      return Some(Error(500, ProviderAbstraction.MSG_UNKNOWN));
    }
    if jobRes.body.Parsed? {
      if !IsOk(jobRes.status) {
        return Some(Error(502, MSG_VIDEO_FETCH));
      }
      var verdict := Verdict(jobRes.body.json);
      if verdict.Some? {
        return verdict;
      }
    }
    return None;
  }

  lemma PollLoopExhausted(s: VideoScript, base: string, taskId: Json)
    ensures PollLoop(s, base, taskId, VIDEO_POLL_MAX_ATTEMPTS) == VideoRun(Error(408, MSG_VIDEO_TIMEOUT), [])
  {
  }
}
