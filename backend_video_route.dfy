/**
 * `POST /api/generate-video` of the Express backend (backend/routes/generateVideo.ts): a
 * non-empty string `imageUrl` is required, then one client video generation; thrown messages are
 * sorted exactly as by the image route.
 */
module BackendVideoRoute {
  import opened Wrappers
  import opened Json
  import opened Http
  import KieClient
  import BackendImageRoute

  const MSG_MISSING_IMAGE: string := "Нужен imageUrl (результат примерки)"

  datatype VideoRouteRequest = VideoRouteRequest(imageUrl: Option<Json>, prompt: Option<Json>)

  /**
   * The route: 400 unless `imageUrl` is a non-empty string (and no request sent); otherwise 200
   * with the video URL, or the status of the thrown message with that message.
   */
  function Handle(req: VideoRouteRequest, kieBaseUrl: string, s: KieClient.ClientScript): (r: BackendImageRoute.RouteRun)
    ensures !IsNonEmptyString(req.imageUrl) ==>
      r == BackendImageRoute.RouteRun(Response(400, ErrorBody(MSG_MISSING_IMAGE)), [])
    ensures r.response.status in {200, 400, 408, 422, 500}
    ensures r.response.status == 200 ==> r.response.body.VideoBody?
  {
    if !IsNonEmptyString(req.imageUrl) then BackendImageRoute.RouteRun(Response(400, ErrorBody(MSG_MISSING_IMAGE)), [])
    else
      var run := KieClient.GenerateVideoFromImage(req.imageUrl.value, req.prompt, KieClient.Base(kieBaseUrl), s);
      match run.result
      case Ok(url) => BackendImageRoute.RouteRun(Response(200, VideoBody(url)), run.calls)
      case Err(m) => BackendImageRoute.RouteRun(Response(BackendImageRoute.StatusOf(m), ErrorBody(m)), run.calls)
  }

  /**
   * When the Veo task is created and no poll ends the loop, the route answers 408 with the
   * client's video timeout message.
   */
  lemma PollTimeoutIs408(req: VideoRouteRequest, kieBaseUrl: string, s: KieClient.ClientScript)
    requires IsNonEmptyString(req.imageUrl)
    requires KieClient.CreateVideoTask(req.imageUrl.value, req.prompt, KieClient.Base(kieBaseUrl), s).result.Ok?
    requires forall k :: 0 <= k < KieClient.KIE_POLL_MAX_VIDEO ==> KieClient.VideoPending(s.record(k))
    ensures Handle(req, kieBaseUrl, s).response == Response(408, ErrorBody(KieClient.MSG_VIDEO_TIMEOUT))
    ensures |Handle(req, kieBaseUrl, s).calls| <= 1 + KieClient.KIE_POLL_MAX_VIDEO
  {
    KieClient.GenerateVideoBound(req.imageUrl.value, req.prompt, KieClient.Base(kieBaseUrl), s);
    BackendImageRoute.ClientTimeoutsAre408();
  }

  /**
   * A created Veo task whose first `j` polls keep the loop going and whose next poll is answered
   * OK with `successFlag` 2, 3, `'2'` or `'3'` is answered 422 with the client's failure message,
   * after the create request and `j + 1` polls.
   */
  lemma FailedVideoIs422(req: VideoRouteRequest, kieBaseUrl: string, s: KieClient.ClientScript, j: nat)
    requires IsNonEmptyString(req.imageUrl)
    requires KieClient.CreateVideoTask(req.imageUrl.value, req.prompt, KieClient.Base(kieBaseUrl), s).result.Ok?
    requires j < KieClient.KIE_POLL_MAX_VIDEO
    requires forall k :: 0 <= k < j ==> KieClient.VideoPending(s.record(k))
    requires s.record(j).Answered? && IsOk(s.record(j).status) && s.record(j).body.Parsed?
    requires var flag := Field(Field(Some(s.record(j).body.json), "data"), "successFlag");
      flag == Some(JNum(2)) || flag == Some(JNum(3)) || flag == Some(JStr("2")) || flag == Some(JStr("3"))
    ensures Handle(req, kieBaseUrl, s).response == Response(422, ErrorBody(KieClient.MSG_VIDEO_FAILED))
    ensures |Handle(req, kieBaseUrl, s).calls| == j + 2
  {
    var base := KieClient.Base(kieBaseUrl);
    var created := KieClient.CreateVideoTask(req.imageUrl.value, req.prompt, base, s);
    KieClient.VideoStepSpec(s.record(j).body.json);
    KieClient.PollVideoStopsAt(s, KieClient.VideoRecordUrl(base), created.result.value, 0, j);
    BackendImageRoute.VideoFailureIs422();
  }

  /**
   * A created Veo task whose poll `j` is the first to be answered OK with `successFlag` 1, and
   * whose answer carries a truthy video URL, is answered 200 with that URL.
   */
  lemma FinishedVideoIs200(req: VideoRouteRequest, kieBaseUrl: string, s: KieClient.ClientScript, j: nat)
    requires IsNonEmptyString(req.imageUrl)
    requires KieClient.CreateVideoTask(req.imageUrl.value, req.prompt, KieClient.Base(kieBaseUrl), s).result.Ok?
    requires j < KieClient.KIE_POLL_MAX_VIDEO
    requires forall k :: 0 <= k < j ==> KieClient.VideoPending(s.record(k))
    requires s.record(j).Answered? && IsOk(s.record(j).status) && s.record(j).body.Parsed?
    requires var flag := Field(Field(Some(s.record(j).body.json), "data"), "successFlag");
      flag == Some(JNum(1)) || flag == Some(JStr("1"))
    requires Truthy(KieClient.ExtractVideoUrl(Field(Some(s.record(j).body.json), "data")))
    ensures Handle(req, kieBaseUrl, s).response ==
      Response(200, VideoBody(KieClient.ExtractVideoUrl(Field(Some(s.record(j).body.json), "data")).value))
    ensures |Handle(req, kieBaseUrl, s).calls| == j + 2
  {
    var base := KieClient.Base(kieBaseUrl);
    var created := KieClient.CreateVideoTask(req.imageUrl.value, req.prompt, base, s);
    KieClient.VideoStepSpec(s.record(j).body.json);
    KieClient.PollVideoStopsAt(s, KieClient.VideoRecordUrl(base), created.result.value, 0, j);
  }
}
