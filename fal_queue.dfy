/**
 * What the two Fal queue drivers (lib/ and api/_lib/) share: the submit request, the scripted
 * responses of the queue API, the image-URL probe, the decision to poll, the submit phase and the
 * handling of a `COMPLETED` status inside the poll loop. Both copies of the source spell these out
 * identically; each driver module adds its own poll loop and timeout policy.
 */
module FalQueue {
  import opened Wrappers
  import opened Json
  import opened Http
  import opened ProviderAbstraction

  const NANO_BANANA_MODEL: string := "fal-ai/nano-banana-pro/edit"
  const FAL_QUEUE_BASE: string := "https://queue.fal.run/"
  /** `FAL_POLL_INTERVAL_MS`: also the wait after a status body that does not parse. */
  const FAL_POLL_INTERVAL_MS: nat := 1500

  const MSG_FAL_UNAVAILABLE: string := "Сервис примерки (Fal) недоступен. Попробуйте другую модель."
  const MSG_FAL_GENERATE: string := "Не удалось сгенерировать изображение. Попробуйте другую модель."
  const MSG_FAL_RESULT: string := "Не удалось получить результат. Попробуйте другую модель."
  const MSG_FAL_FAILED: string := "Генерация не удалась. Попробуйте другую модель или фото."

  /** A request the driver sends: the submit, a status check (with the clock reading when it was sent), a result fetch. */
  datatype FalCall = Submit(queueUrl: string, input: Json) | StatusCheck(url: Json, at: int) | ResultFetch(url: Json)

  /**
   * The queue API as a script: the answer to the submit, the answer to the n-th status check
   * (n counts from 0 and includes a final check), and the answer to the `response_url` fetch,
   * of which there is at most one per run.
   */
  datatype FalScript = FalScript(submit: Exchange, status: nat -> Exchange, result: Exchange)

  /** A driver run: how the promise settles, and the requests sent on the way. */
  datatype Run = Run(outcome: DriverOutcome, calls: seq<FalCall>)

  function Prepend(cs: seq<FalCall>, r: Run): Run {
    Run(r.outcome, cs + r.calls)
  }

  lemma PrependTwice(a: seq<FalCall>, b: seq<FalCall>, r: Run)
    ensures Prepend(a, Prepend(b, r)) == Prepend(a + b, r)
  {
    assert a + (b + r.calls) == (a + b) + r.calls;
  }

  /** How one round of a status loop ends: the run is over, or it goes on once the clock reads `until`. */
  datatype PollStep = Done(run: Run) | Wait(until: int)

  /** `d?.images?.[0]?.url` */
  function TopImageUrl(d: Json): Option<Json> {
    Field(Index0(Field(Some(d), "images")), "url")
  }

  /** `d?.data?.images?.[0]?.url` */
  function NestedImageUrl(d: Json): Option<Json> {
    Field(Index0(Field(Field(Some(d), "data"), "images")), "url")
  }

  /**
   * `firstImageUrl`: the top-level `images` array is probed before `data.images`; the nested one is
   * used only when the top-level URL is `undefined` or `null` (an empty string shadows it).
   */
  function FirstImageUrl(d: Json): (r: Option<Json>)
    ensures r == TopImageUrl(d) || r == NestedImageUrl(d)
    ensures TopImageUrl(d).Some? && TopImageUrl(d) != Some(JNull) ==> r == TopImageUrl(d)
    ensures TopImageUrl(d).None? || TopImageUrl(d) == Some(JNull) ==> r == NestedImageUrl(d)
  {
    Coalesce(TopImageUrl(d), NestedImageUrl(d))
  }

  /** A one-element `[{ url }]` array. */
  function ImageList(url: Json): Json {
    JArr([JObj(map["url" := url])])
  }

  /** When both shapes carry a URL, the top-level one wins. */
  lemma FirstImageUrlPrefersTopLevel(top: string, nested: string)
    ensures var d := JObj(map["images" := ImageList(JStr(top)), "data" := JObj(map["images" := ImageList(JStr(nested))])]);
      FirstImageUrl(d) == Some(JStr(top))
  {
  }

  /** `images?.[0]` also reads an `images` object's property `"0"`, as JavaScript indexing does. */
  lemma FirstImageUrlReadsKeyZero(url: string)
    ensures var d := JObj(map["images" := JObj(map["0" := JObj(map["url" := JStr(url)])])]);
      FirstImageUrl(d) == Some(JStr(url))
  {
  }

  /** With no top-level image list, the nested `data.images` URL is used. */
  lemma FirstImageUrlUsesNested(nested: string)
    ensures var d := JObj(map["data" := JObj(map["images" := ImageList(JStr(nested))])]);
      FirstImageUrl(d) == Some(JStr(nested))
  {
  }

  /** `falRes.status === 202 || (falRes.ok && falData?.status === 'IN_QUEUE')`, and a truthy `status_url`. */
  predicate NeedPoll(status: int, d: Json) {
    (status == 202 || (IsOk(status) && IsStr(Field(Some(d), "status"), "IN_QUEUE")))
    && Truthy(Field(Some(d), "status_url"))
  }

  /** `https://queue.fal.run/${model}` */
  function FalUrl(model: string): string {
    FAL_QUEUE_BASE + model
  }

  /**
   * The submit body: the nano-banana edit model takes a prompt and an image list, every other Fal
   * model takes the try-on person/clothing pair.
   */
  function FalInput(p: ImagePayload): (input: Json)
    ensures p.model == NANO_BANANA_MODEL ==>
      input.JObj? && "prompt" in input.fields && "image_urls" in input.fields
      && input.fields["prompt"] == PromptOrDefault(p.prompt)
      && input.fields["image_urls"] == JArr([JStr(p.personUrl), JStr(p.clothingUrl)])
    ensures p.model != NANO_BANANA_MODEL ==>
      input.JObj? && input.fields.Keys == {"person_image_url", "clothing_image_url", "preserve_pose"}
      && input.fields["person_image_url"] == JStr(p.personUrl) && input.fields["clothing_image_url"] == JStr(p.clothingUrl)
  {
    if p.model == NANO_BANANA_MODEL then
      JObj(map[
        "prompt" := PromptOrDefault(p.prompt),
        "image_urls" := JArr([JStr(p.personUrl), JStr(p.clothingUrl)]),
        "num_images" := JNum(1),
        "aspect_ratio" := JStr("9:16"),
        "output_format" := JStr("png"),
        "resolution" := JStr("1K")])
    else
      JObj(map[
        "person_image_url" := JStr(p.personUrl),
        "clothing_image_url" := JStr(p.clothingUrl),
        "preserve_pose" := JBool(true)])
  }

  function Fail(model: string, durationMs: int, httpStatus: int, error: string): DriverOutcome {
    Returned(Failure(model, durationMs, httpStatus, error, None))
  }

  /** Where the submit phase leaves the driver: finished, or about to poll `statusUrl` from `pollStartedAt`. */
  datatype Submitted = Finished(run: Run) | Queued(statusUrl: Json, pollStartedAt: int, calls: seq<FalCall>)

  /**
   * Key check, submit and the fast path. `now0` is the clock when the driver starts; the clock
   * after the submit is `now0 + took`.
   */
  function SubmitPhase(p: ImagePayload, falKey: Option<string>, s: FalScript, startTs: int, now0: int): (q: Submitted)
    // no key: 503 and no request at all
    ensures !IsSet(falKey) ==> q == Finished(Run(Fail(p.model, now0 - startTs, 503, MSG_FAL_UNAVAILABLE), []))
    // otherwise the first request is the submit to the model's queue URL
    ensures IsSet(falKey) ==>
      (q.Finished? ==> q.run.calls == [Submit(FalUrl(p.model), FalInput(p))])
      && (q.Queued? ==> q.calls == [Submit(FalUrl(p.model), FalInput(p))])
    // polling starts exactly on a parsed, non-fast-path submit answer that asks for it
    ensures q.Queued? <==>
      IsSet(falKey) && s.submit.Answered? && s.submit.body.Parsed?
      && !(IsOk(s.submit.status) && Truthy(FirstImageUrl(s.submit.body.json)))
      && NeedPoll(s.submit.status, s.submit.body.json)
    ensures q.Queued? ==> q.pollStartedAt == now0 + s.submit.took && Truthy(Some(q.statusUrl))
    // a finished run that sent the submit and did not throw is the fast path or a 502
    ensures IsSet(falKey) && q.Finished? && q.run.outcome.Returned? ==>
      (q.run.outcome.result.Success? <==>
         (s.submit.Answered? && s.submit.body.Parsed?
          && IsOk(s.submit.status) && Truthy(FirstImageUrl(s.submit.body.json))))
      && (q.run.outcome.result.Failure? ==> q.run.outcome.result.httpStatus == 502)
  {
    if !IsSet(falKey) then Finished(Run(Fail(p.model, now0 - startTs, 503, MSG_FAL_UNAVAILABLE), []))
    else
      var call := Submit(FalUrl(p.model), FalInput(p));
      match s.submit
      case Rejected(e) => Finished(Run(Threw(e), [call]))
      case Answered(status, body, took) =>
        var t := now0 + took;
        match body
        case Unparseable(_) => Finished(Run(Fail(p.model, t - startTs, 502, MSG_FAL_GENERATE), [call]))
        case Parsed(d) =>
          if IsOk(status) && Truthy(FirstImageUrl(d)) then
            Finished(Run(Returned(Success(p.model, t - startTs, FirstImageUrl(d).value, None)), [call]))
          else if !NeedPoll(status, d) then
            Finished(Run(Fail(p.model, t - startTs, 502, MSG_FAL_GENERATE), [call]))
          else Queued(Field(Some(d), "status_url").value, t, [call])
  }

  /** `if (imageUrl) success else …`: a truthy URL succeeds, anything else is the given failure. */
  function ImageOr(url: Option<Json>, model: string, durationMs: int, httpStatus: int, error: string): (o: DriverOutcome)
    ensures o.Returned? && (o.result.Success? <==> Truthy(url))
    ensures o.result.Success? ==> o.result.imageUrl == url.value
    ensures o.result.Failure? ==> o.result.httpStatus == httpStatus && o.result.error == error
  {
    if Truthy(url) then Returned(Success(model, durationMs, url.value, None))
    else Fail(model, durationMs, httpStatus, error)
  }

  /**
   * A `COMPLETED` status inside the poll loop, `t` being the clock after the status check:
   * take the image from the status body, or else fetch `response_url` (whose HTTP status is not
   * looked at). A result body that does not parse is 502, and so is a missing image.
   */
  function OnCompleted(d: Json, s: FalScript, model: string, startTs: int, t: int): (r: Run)
    ensures r.calls == [] || (!Truthy(FirstImageUrl(d)) && Truthy(Field(Some(d), "response_url"))
                              && r.calls == [ResultFetch(Field(Some(d), "response_url").value)])
    ensures r.outcome.Returned? && r.outcome.result.Failure? ==> r.outcome.result.httpStatus == 502
    ensures Truthy(FirstImageUrl(d)) ==> r == Run(Returned(Success(model, t - startTs, FirstImageUrl(d).value, None)), [])
  {
    var imageUrl := FirstImageUrl(d);
    if !Truthy(imageUrl) && Truthy(Field(Some(d), "response_url")) then
      var call := ResultFetch(Field(Some(d), "response_url").value);
      match s.result
      case Rejected(e) => Run(Threw(e), [call])
      case Answered(_, body, took) =>
        var t2 := t + took;
        match body
        case Unparseable(_) => Run(Fail(model, t2 - startTs, 502, MSG_FAL_RESULT), [call])
        case Parsed(rj) => Run(ImageOr(FirstImageUrl(rj), model, t2 - startTs, 502, MSG_FAL_GENERATE), [call])
    else Run(ImageOr(imageUrl, model, t - startTs, 502, MSG_FAL_GENERATE), [])
  }

  /**
   * Every case of a `COMPLETED` status. Without an image in the status body and with a truthy
   * `response_url`, exactly that URL is fetched, and its answer decides: a rejection throws, a body
   * that does not parse is 502 with the result message, a parsed body succeeds with its truthy
   * image, and one without an image is 502. Without an image or a `response_url` nothing is
   * fetched and the run is 502. The durations count up to the last answer received.
   */
  lemma OnCompletedSpec(d: Json, s: FalScript, model: string, startTs: int, t: int)
    ensures var r := OnCompleted(d, s, model, startTs, t);
      var u := FirstImageUrl(d);
      var responseUrl := Field(Some(d), "response_url");
      && (Truthy(u) ==> r == Run(Returned(Success(model, t - startTs, u.value, None)), []))
      && (!Truthy(u) && !Truthy(responseUrl) ==> r == Run(Fail(model, t - startTs, 502, MSG_FAL_GENERATE), []))
      && (!Truthy(u) && Truthy(responseUrl) ==>
            && r.calls == [ResultFetch(responseUrl.value)]
            && (s.result.Rejected? ==> r.outcome == Threw(s.result.error))
            && (s.result.Answered? && s.result.body.Unparseable? ==>
                  r.outcome == Fail(model, t + s.result.took - startTs, 502, MSG_FAL_RESULT))
            && (s.result.Answered? && s.result.body.Parsed? && Truthy(FirstImageUrl(s.result.body.json)) ==>
                  r.outcome == Returned(Success(model, t + s.result.took - startTs, FirstImageUrl(s.result.body.json).value, None)))
            && (s.result.Answered? && s.result.body.Parsed? && !Truthy(FirstImageUrl(s.result.body.json)) ==>
                  r.outcome == Fail(model, t + s.result.took - startTs, 502, MSG_FAL_GENERATE)))
  {
  }

  /** The `COMPLETED` branch as the loop writes it, with `imageUrl` reassigned after the `response_url` fetch. */
  method HandleCompleted(d: Json, s: FalScript, model: string, startTs: int, t: int) returns (outcome: DriverOutcome, calls: seq<FalCall>)
    ensures Run(outcome, calls) == OnCompleted(d, s, model, startTs, t)
  {
    var now := t;
    calls := [];
    var imageUrl := FirstImageUrl(d);
    if !Truthy(imageUrl) && Truthy(Field(Some(d), "response_url")) {
      calls := [ResultFetch(Field(Some(d), "response_url").value)];
      if s.result.Rejected? {
        return Threw(s.result.error), calls;
      }
      now := now + s.result.took;
      if s.result.body.Unparseable? {
        return Fail(model, now - startTs, 502, MSG_FAL_RESULT), calls;
      }
      imageUrl := FirstImageUrl(s.result.body.json);
    }
    if Truthy(imageUrl) {
      return Returned(Success(model, now - startTs, imageUrl.value, None)), calls;
    }
    return Fail(model, now - startTs, 502, MSG_FAL_GENERATE), calls;
  }

  /** The clock readings of the status checks among `calls`, in order. */
  function CheckTimes(calls: seq<FalCall>): seq<int> {
    if calls == [] then []
    else (if calls[0].StatusCheck? then [calls[0].at] else []) + CheckTimes(calls[1..])
  }

  lemma {:induction false} CheckTimesAppend(a: seq<FalCall>, b: seq<FalCall>)
    ensures CheckTimes(a + b) == CheckTimes(a) + CheckTimes(b)
  {
    if a == [] {
      assert a + b == b;
    } else {
      assert (a + b)[0] == a[0];
      assert (a + b)[1..] == a[1..] + b;
      CheckTimesAppend(a[1..], b);
    }
  }

  /** Counting how many status checks a run makes. */
  lemma CheckTimesOfSingle(c: FalCall)
    ensures CheckTimes([c]) == if c.StatusCheck? then [c.at] else []
  {
    assert [c][1..] == [];
  }
}
