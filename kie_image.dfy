/**
 * The api/_lib/ KIE driver: one `createTask` request, then at most 60 `recordInfo` polls two
 * seconds apart. The job's `state` is `success` (the image URL sits in a JSON string that is parsed
 * a second time) or `fail` (the upstream message, with one known text rewritten); anything else
 * keeps polling. The message policy on `fail` is a parameter because the handler in
 * api/generate-image.ts, which otherwise runs this same sequence, words it differently.
 */
module KieImage {
  import opened Wrappers
  import opened Text
  import opened Json
  import opened Http
  import opened ProviderAbstraction

  const DEFAULT_KIE_BASE: string := "https://api.kie.ai/api/v1"
  const KIE_POLL_INTERVAL_MS: nat := 2000
  const KIE_POLL_MAX_ATTEMPTS: nat := 60
  const GPT_IMAGE_15_MODEL: string := "gpt-image/1.5-image-to-image"

  const MSG_KIE_RESULT: string := "Не удалось получить результат. Попробуйте позже."
  const MSG_REDUCE_PHOTO: string := "Сервис перегружен или не принял изображения. Уменьшите размер фото (до ~1 МБ) и попробуйте снова."
  const INTERNAL_ERROR_TEXT: string := "internal error, please try again later"
  /** The message of the `TypeError` JavaScript raises for a property read on `null` or a call of a missing `trim`. */
  const TYPE_ERROR: string := "TypeError"

  /** `KIE_BASE_URL` and `KIE_API_KEY` as the driver receives them. */
  datatype KieEnv = KieEnv(baseUrl: Option<string>, apiKey: Option<string>)

  /** A request the driver sends: the task creation, or a status poll for `taskId` at clock reading `at`. */
  datatype KieCall = CreateTask(createUrl: string, body: Json) | RecordInfo(base: string, taskId: Json, at: int)

  /**
   * The KIE API as a script: the answer to `createTask`, the answer to poll number n, and
   * `JSON.parse` of the embedded result string (`None` when it throws).
   */
  datatype KieScript = KieScript(create: Exchange, record: nat -> Exchange, parseJson: string -> Option<Json>)

  datatype Run = Run(outcome: DriverOutcome, calls: seq<KieCall>)

  function Prepend(cs: seq<KieCall>, r: Run): Run {
    Run(r.outcome, cs + r.calls)
  }

  lemma PrependTwice(a: seq<KieCall>, b: seq<KieCall>, r: Run)
    ensures Prepend(a, Prepend(b, r)) == Prepend(a + b, r)
  {
    assert a + (b + r.calls) == (a + b) + r.calls;
  }

  /** `(KIE_BASE_URL || DEFAULT_KIE_BASE).replace(/\/$/, '')` */
  function KieBase(baseUrl: Option<string>): (b: string)
    ensures IsSet(baseUrl) ==> b == StripTrailingSlash(baseUrl.value)
    ensures !IsSet(baseUrl) ==> b == DEFAULT_KIE_BASE
  {
    StripTrailingSlash(if IsSet(baseUrl) then baseUrl.value else DEFAULT_KIE_BASE)
  }

  /**
   * The `input` object of `createTask`: `gpt-image/1.5-image-to-image` takes aspect 2:3 and medium
   * quality, every other model aspect 9:16 and resolution 1K; both take the two image URLs and
   * the prompt, defaulted when falsy.
   */
  function KieInput(p: ImagePayload): (input: Json)
    ensures input.JObj? && "input_urls" in input.fields && "prompt" in input.fields && "aspect_ratio" in input.fields
    ensures input.fields["input_urls"] == JArr([JStr(p.personUrl), JStr(p.clothingUrl)])
    ensures input.fields["prompt"] == PromptOrDefault(p.prompt)
    ensures p.model == GPT_IMAGE_15_MODEL ==>
      input.fields.Keys == {"input_urls", "prompt", "aspect_ratio", "quality"}
      && input.fields["aspect_ratio"] == JStr("2:3") && input.fields["quality"] == JStr("medium")
    ensures p.model != GPT_IMAGE_15_MODEL ==>
      input.fields.Keys == {"aspect_ratio", "prompt", "resolution", "input_urls"}
      && input.fields["aspect_ratio"] == JStr("9:16") && input.fields["resolution"] == JStr("1K")
  {
    var urls := JArr([JStr(p.personUrl), JStr(p.clothingUrl)]);
    var prompt := PromptOrDefault(p.prompt);
    if p.model == GPT_IMAGE_15_MODEL then
      JObj(map["input_urls" := urls, "prompt" := prompt, "aspect_ratio" := JStr("2:3"), "quality" := JStr("medium")])
    else
      JObj(map["aspect_ratio" := JStr("9:16"), "prompt" := prompt, "resolution" := JStr("1K"), "input_urls" := urls])
  }

  /** `{ model, input }` */
  function CreateBody(p: ImagePayload): Json {
    JObj(map["model" := JStr(p.model), "input" := KieInput(p)])
  }

  /** How a `fail` state's `failMsg` becomes the user's message, before the rewrite. */
  datatype FailPolicy =
    | TrimOrGeneric       // `failMsg?.trim() ?? generic` (the driver)
    | NonBlankOrGeneric   // `failMsg && failMsg.trim() ? failMsg.trim() : generic` (the handler)

  /** The message before the rewrite; `None` when evaluating it throws (`trim` of a value that is not a string). */
  function FailMessage(policy: FailPolicy, failMsg: Option<Json>): Option<string> {
    if policy == TrimOrGeneric then
      match failMsg
      case None => Some(MSG_CLIENT)
      case Some(JNull) => Some(MSG_CLIENT)
      case Some(JStr(s)) => Some(Trim(s))
      case Some(_) => None
    else if !Truthy(failMsg) then Some(MSG_CLIENT)
    else if failMsg.value.JStr? then
      (if Trim(failMsg.value.s) != "" then Some(Trim(failMsg.value.s)) else Some(MSG_CLIENT))
    else None
  }

  /**
   * Under both policies a non-blank string comes out trimmed and a missing or `null` message is the
   * generic text; the driver passes any string on trimmed, and the handler never shows an empty message.
   */
  lemma FailMessageSpec(policy: FailPolicy, failMsg: Option<Json>)
    ensures var m := FailMessage(policy, failMsg);
      (failMsg.Some? && failMsg.value.JStr? && Trim(failMsg.value.s) != "" ==> m == Some(Trim(failMsg.value.s)))
      && ((failMsg.None? || failMsg == Some(JNull)) ==> m == Some(MSG_CLIENT))
      && (policy == TrimOrGeneric && failMsg.Some? && failMsg.value.JStr? ==> m == Some(Trim(failMsg.value.s)))
      && (policy == NonBlankOrGeneric && m.Some? ==> m.value != "")
  {
  }

  /** `/internal error, please try again later/i.test(m)`: the upstream text, in any ASCII case. */
  predicate MentionsInternalError(m: string) {
    ContainsIgnoreCase(m, INTERNAL_ERROR_TEXT)
  }

  /** A message that mentions the upstream "internal error" text is replaced by the reduce-photo-size advice. */
  function Rewrite(m: string): string {
    if MentionsInternalError(m) then MSG_REDUCE_PHOTO else m
  }

  /** The two policies agree on a message that is not blank... */
  lemma PoliciesAgreeOnNonBlank(s: string)
    requires Trim(s) != ""
    ensures FailMessage(TrimOrGeneric, Some(JStr(s))) == FailMessage(NonBlankOrGeneric, Some(JStr(s))) == Some(Trim(s))
  {
  }

  /** ...but a blank `failMsg` reaches the user as an empty message from the driver and as the generic text from the handler. */
  lemma PoliciesDifferOnBlank(s: string)
    requires AllWhitespace(s)
    ensures FailMessage(TrimOrGeneric, Some(JStr(s))) == Some("")
    ensures FailMessage(NonBlankOrGeneric, Some(JStr(s))) == Some(MSG_CLIENT)
  {
    TrimSpec(s);
  }

  /** ...and a falsy non-string (`0`, `false`) makes the driver throw while the handler uses the generic text. */
  lemma PoliciesDifferOnFalsyNonString(x: Json)
    requires x == JNum(0) || x == JBool(false)
    ensures FailMessage(TrimOrGeneric, Some(x)) == None
    ensures FailMessage(NonBlankOrGeneric, Some(x)) == Some(MSG_CLIENT)
  {
  }

  /**
   * `data.resultJson`, if a string, parsed again; its `resultUrls[0]` when `resultUrls` is an
   * array. A value that is not a string, a parse that throws, or a `resultUrls` that is not an
   * array gives `undefined` (here `None`).
   */
  function ResultImageUrl(parseJson: string -> Option<Json>, resultJson: Option<Json>): (u: Option<Json>)
    ensures u.Some? ==> IsString(resultJson) && parseJson(resultJson.value.s).Some?
    ensures u.Some? ==> var urls := Field(parseJson(resultJson.value.s), "resultUrls"); IsArray(urls) && u == At(urls, 0)
    ensures !IsString(resultJson) ==> u.None?
    ensures IsString(resultJson) && parseJson(resultJson.value.s).None? ==> u.None?
    ensures IsString(resultJson) && parseJson(resultJson.value.s).Some? ==>
      var urls := Field(parseJson(resultJson.value.s), "resultUrls");
      (IsArray(urls) ==> u == At(urls, 0)) && (!IsArray(urls) ==> u.None?)
  {
    if !IsString(resultJson) then None
    else match parseJson(resultJson.value.s)
      case None => None
      case Some(parsed) =>
        var urls := Field(Some(parsed), "resultUrls");
        if IsArray(urls) then At(urls, 0) else None
  }

  /** The fixed part of the poll loop's state. */
  datatype PollContext = PollContext(model: string, startTs: int, base: string, taskId: Json, creditsUsed: Option<Json>, policy: FailPolicy)

  function Fail(c: PollContext, durationMs: int, httpStatus: int, error: string): DriverOutcome {
    Returned(Failure(c.model, durationMs, httpStatus, error, c.creditsUsed))
  }

  /** A `success` state: the first URL of the embedded result, or 500 when there is none. */
  function SuccessOutcome(parseJson: string -> Option<Json>, c: PollContext, resultJson: Option<Json>, t: int): DriverOutcome {
    var url := ResultImageUrl(parseJson, resultJson);
    if Truthy(url) then Returned(Success(c.model, t - c.startTs, url.value, c.creditsUsed))
    else Fail(c, t - c.startTs, 500, MSG_SERVER)
  }

  /** A `fail` state: 422 with the rewritten message, or the `TypeError` evaluating the message throws. */
  function FailOutcome(c: PollContext, failMsg: Option<Json>, t: int): DriverOutcome {
    match FailMessage(c.policy, failMsg)
    case None => Threw(TYPE_ERROR)
    case Some(m) => Fail(c, t - c.startTs, 422, Rewrite(m))
  }

  /** What one parsed, OK poll answer with `state` `success` or `fail` ends in, `t` being the clock after it. */
  function Terminal(s: KieScript, c: PollContext, data: Option<Json>, t: int): DriverOutcome {
    if IsStr(Field(data, "state"), "success") then SuccessOutcome(s.parseJson, c, Field(data, "resultJson"), t)
    else FailOutcome(c, Field(data, "failMsg"), t)
  }

  /** `state === 'success' || state === 'fail'` */
  predicate IsTerminal(data: Option<Json>) {
    IsStr(Field(data, "state"), "success") || IsStr(Field(data, "state"), "fail")
  }

  /**
   * The poll loop from attempt `attempt` with the clock at `now`: a body that does not parse uses
   * up the attempt and waits; a non-OK answer is 502; a terminal state ends the loop; anything else
   * waits 2000 ms. When the attempts run out the result is 408.
   */
  function PollLoop(s: KieScript, c: PollContext, attempt: nat, now: int): Run
    decreases KIE_POLL_MAX_ATTEMPTS - attempt
  {
    if attempt >= KIE_POLL_MAX_ATTEMPTS then Run(Fail(c, now - c.startTs, 408, MSG_TIMEOUT), [])
    else
      var call := RecordInfo(c.base, c.taskId, now);
      match s.record(attempt)
      case Rejected(e) => Run(Threw(e), [call])
      case Answered(status, body, took) =>
        var t := now + took;
        match body
        case Unparseable(_) => Prepend([call], PollLoop(s, c, attempt + 1, t + KIE_POLL_INTERVAL_MS))
        case Parsed(jd) =>
          var data := Field(Some(jd), "data");
          if !IsOk(status) then Run(Fail(c, t - c.startTs, 502, MSG_KIE_RESULT), [call])
          else if IsTerminal(data) then Run(Terminal(s, c, data, t), [call])
          else Prepend([call], PollLoop(s, c, attempt + 1, t + KIE_POLL_INTERVAL_MS))
  }

  /** Where the create phase leaves the driver. */
  datatype Created = Finished(run: Run) | Polling(context: PollContext, now: int, call: KieCall)

  /**
   * Key check and `createTask`, with the create answer rejected as 502 in this order: a body that
   * is not JSON, a non-OK status, a `code` that is present and not 200, no truthy `data.taskId`.
   * A `null` body on an OK answer throws when `code` is read.
   */
  function CreatePhase(p: ImagePayload, env: KieEnv, policy: FailPolicy, s: KieScript, startTs: int, now0: int): (q: Created)
    ensures !IsSet(env.apiKey) ==> q == Finished(Run(Returned(Failure(p.model, now0 - startTs, 500, MSG_UNKNOWN, None)), []))
    ensures IsSet(env.apiKey) ==>
      var call := CreateTask(KieBase(env.baseUrl) + "/jobs/createTask", CreateBody(p));
      (q.Finished? ==> q.run.calls == [call]) && (q.Polling? ==> q.call == call)
    ensures q.Polling? <==>
      IsSet(env.apiKey) && s.create.Answered? && s.create.body.Parsed? && IsOk(s.create.status)
      && s.create.body.json != JNull
      && Field(Some(s.create.body.json), "code") in {None, Some(JNum(200))}
      && Truthy(Field(Field(Some(s.create.body.json), "data"), "taskId"))
    ensures q.Polling? ==>
      q.context.taskId == Field(Field(Some(s.create.body.json), "data"), "taskId").value
      && q.context.creditsUsed == Field(Field(Some(s.create.body.json), "data"), "creditsUsed")
      && q.context.policy == policy && q.context.base == KieBase(env.baseUrl)
    ensures q.Finished? && q.run.outcome.Returned? && IsSet(env.apiKey) ==>
      q.run.outcome.result.Failure? && q.run.outcome.result.httpStatus == 502
  {
    if !IsSet(env.apiKey) then Finished(Run(Returned(Failure(p.model, now0 - startTs, 500, MSG_UNKNOWN, None)), []))
    else
      var base := KieBase(env.baseUrl);
      var call := CreateTask(base + "/jobs/createTask", CreateBody(p));
      match s.create
      case Rejected(e) => Finished(Run(Threw(e), [call]))
      case Answered(status, body, took) =>
        var t := now0 + took;
        match body
        case Unparseable(_) => Finished(Run(Returned(Failure(p.model, t - startTs, 502, MSG_SERVER, None)), [call]))
        case Parsed(cd) =>
          var credits := Field(Field(Some(cd), "data"), "creditsUsed");
          var taskId := Field(Field(Some(cd), "data"), "taskId");
          if !IsOk(status) then Finished(Run(Returned(Failure(p.model, t - startTs, 502, MSG_SERVER, credits)), [call]))
          else if cd == JNull then Finished(Run(Threw(TYPE_ERROR), [call]))
          else if Field(Some(cd), "code") !in {None, Some(JNum(200))} then
            Finished(Run(Returned(Failure(p.model, t - startTs, 502, MSG_SERVER, credits)), [call]))
          else if !Truthy(taskId) then Finished(Run(Returned(Failure(p.model, t - startTs, 502, MSG_SERVER, credits)), [call]))
          else Polling(PollContext(p.model, startTs, base, taskId.value, credits, policy), t, call)
  }

  /** `runKieTryOn(payload, startTs, env)` with the clock at `now0` when it starts. */
  function KieTryOn(p: ImagePayload, env: KieEnv, policy: FailPolicy, s: KieScript, startTs: int, now0: int): Run {
    match CreatePhase(p, env, policy, s, startTs, now0)
    case Finished(r) => r
    case Polling(c, now, call) => Prepend([call], PollLoop(s, c, 0, now))
  }

  /** The number of polls among `calls`. */
  function PollCount(calls: seq<KieCall>): nat {
    if calls == [] then 0 else (if calls[0].RecordInfo? then 1 else 0) + PollCount(calls[1..])
  }

  lemma {:induction false} PollCountAppend(a: seq<KieCall>, b: seq<KieCall>)
    ensures PollCount(a + b) == PollCount(a) + PollCount(b)
  {
    if a == [] {
      assert a + b == b;
    } else {
      assert (a + b)[0] == a[0];
      assert (a + b)[1..] == a[1..] + b;
      PollCountAppend(a[1..], b);
    }
  }

  lemma PollCountSingle(c: KieCall)
    ensures PollCount([c]) == if c.RecordInfo? then 1 else 0
  {
    assert [c][1..] == [];
  }

  /**
   * From attempt `attempt`, the loop polls at most `60 - attempt` more times, every poll is for the
   * created task, every failure it returns carries the create answer's `creditsUsed`, and it
   * answers 408 only after using up every attempt.
   */
  lemma {:induction false} PollLoopBound(s: KieScript, c: PollContext, attempt: nat, now: int)
    requires attempt <= KIE_POLL_MAX_ATTEMPTS
    ensures var r := PollLoop(s, c, attempt, now);
      PollCount(r.calls) <= KIE_POLL_MAX_ATTEMPTS - attempt
      && (forall k :: 0 <= k < |r.calls| ==> r.calls[k].RecordInfo? && r.calls[k].taskId == c.taskId)
      && (r.outcome.Returned? ==> r.outcome.result.creditsUsed == c.creditsUsed)
      && (r.outcome.Returned? && r.outcome.result.Failure? && r.outcome.result.httpStatus == 408 ==>
            PollCount(r.calls) == KIE_POLL_MAX_ATTEMPTS - attempt)
    decreases KIE_POLL_MAX_ATTEMPTS - attempt
  {
    if attempt < KIE_POLL_MAX_ATTEMPTS {
      var call := RecordInfo(c.base, c.taskId, now);
      PollCountSingle(call);
      match s.record(attempt)
      case Rejected(_) =>
      case Answered(status, body, took) =>
        var t := now + took;
        var next := t + KIE_POLL_INTERVAL_MS;
        var rest := PollLoop(s, c, attempt + 1, next);
        if body.Unparseable? || (IsOk(status) && !IsTerminal(Field(Some(body.json), "data"))) {
          PollLoopBound(s, c, attempt + 1, next);
          PollCountAppend([call], rest.calls);
          assert PollLoop(s, c, attempt, now) == Prepend([call], rest);
          forall k | 0 <= k < |[call] + rest.calls|
            ensures ([call] + rest.calls)[k].RecordInfo? && ([call] + rest.calls)[k].taskId == c.taskId
          {
            if k > 0 { assert ([call] + rest.calls)[k] == rest.calls[k - 1]; }
          }
        } else if IsOk(status) {
          assert PollLoop(s, c, attempt, now) == Run(Terminal(s, c, Field(Some(body.json), "data"), t), [call]);
        }
    }
  }

  /**
   * The driver sends at most one create request and 60 polls, and every result it returns after a
   * create answer that parsed carries that answer's `data.creditsUsed`.
   */
  lemma KieTryOnBounds(p: ImagePayload, env: KieEnv, policy: FailPolicy, s: KieScript, startTs: int, now0: int)
    ensures var r := KieTryOn(p, env, policy, s, startTs, now0);
      PollCount(r.calls) <= KIE_POLL_MAX_ATTEMPTS
      && (r.outcome.Returned? && IsSet(env.apiKey) && s.create.Answered? && s.create.body.Parsed? ==>
            r.outcome.result.creditsUsed == Field(Field(Some(s.create.body.json), "data"), "creditsUsed"))
  {
    match CreatePhase(p, env, policy, s, startTs, now0)
    case Finished(r) =>
      if r.calls != [] {
        PollCountSingle(r.calls[0]);
      }
    case Polling(c, now, call) =>
      PollLoopBound(s, c, 0, now);
      PollCountSingle(call);
      PollCountAppend([call], PollLoop(s, c, 0, now).calls);
  }

  /** Every failure of the driver is 408, 422, 500 or 502. */
  lemma {:induction false} PollLoopFailureStatuses(s: KieScript, c: PollContext, attempt: nat, now: int)
    ensures var r := PollLoop(s, c, attempt, now);
      r.outcome.Returned? && r.outcome.result.Failure? ==> r.outcome.result.httpStatus in {408, 422, 500, 502}
    decreases KIE_POLL_MAX_ATTEMPTS - attempt
  {
    if attempt < KIE_POLL_MAX_ATTEMPTS && s.record(attempt).Answered? {
      PollLoopFailureStatuses(s, c, attempt + 1, now + s.record(attempt).took + KIE_POLL_INTERVAL_MS);
    }
  }

  /**
   * A poll answering `{data: {state: "fail", failMsg: m}}`, where `m` is trimmed and mentions the
   * upstream "internal error" text, ends in 422 with the reduce-photo-size message under either
   * policy; `InternalErrorTextQualifies` shows the upstream text itself is such an `m`.
   */
  lemma InternalErrorIsRewritten(s: KieScript, c: PollContext, attempt: nat, now: int, took: nat, m: string)
    requires attempt < KIE_POLL_MAX_ATTEMPTS
    requires m != "" && Trim(m) == m && MentionsInternalError(m)
    requires s.record(attempt) == Answered(200, Parsed(JObj(map["data" := JObj(map["state" := JStr("fail"), "failMsg" := JStr(m)])])), took)
    ensures PollLoop(s, c, attempt, now) ==
      Run(Returned(Failure(c.model, now + took - c.startTs, 422, MSG_REDUCE_PHOTO, c.creditsUsed)), [RecordInfo(c.base, c.taskId, now)])
  {
    var jd := s.record(attempt).body.json;
    var data := Field(Some(jd), "data");
    assert data == Some(JObj(map["state" := JStr("fail"), "failMsg" := JStr(m)]));
    assert Field(data, "state") == Some(JStr("fail"));
    assert Field(data, "failMsg") == Some(JStr(m));
    FailTerminal(s, c, data, now + took, m, MSG_REDUCE_PHOTO);
    PollLoopAtTerminal(s, c, attempt, now, jd, data, Fail(c, now + took - c.startTs, 422, MSG_REDUCE_PHOTO));
  }

  /** The text the upstream service sends is trimmed, not blank, and mentions itself. */
  lemma InternalErrorTextQualifies()
    ensures INTERNAL_ERROR_TEXT != "" && Trim(INTERNAL_ERROR_TEXT) == INTERNAL_ERROR_TEXT
    ensures MentionsInternalError(INTERNAL_ERROR_TEXT)
  {
    InternalErrorIsTrimmed();
    InternalErrorMatches();
  }

  /** An OK poll answer whose `data` is in a terminal state ends the loop with that state's outcome. */
  lemma PollLoopAtTerminal(s: KieScript, c: PollContext, attempt: nat, now: int, jd: Json, data: Option<Json>, outcome: DriverOutcome)
    requires attempt < KIE_POLL_MAX_ATTEMPTS
    requires s.record(attempt).Answered? && IsOk(s.record(attempt).status) && s.record(attempt).body == Parsed(jd)
    requires Field(Some(jd), "data") == data && IsTerminal(data)
    requires Terminal(s, c, data, now + s.record(attempt).took) == outcome
    ensures PollLoop(s, c, attempt, now) == Run(outcome, [RecordInfo(c.base, c.taskId, now)])
  {
  }

  /**
   * A `success` state ends in a success exactly when the embedded result holds a truthy first
   * URL. The success carries that URL, the time since the start and the create answer's credits.
   * Otherwise the outcome is 500 with the generic server message.
   */
  lemma SuccessTerminal(s: KieScript, c: PollContext, data: Option<Json>, t: int)
    requires Field(data, "state") == Some(JStr("success"))
    ensures IsTerminal(data)
    ensures var u := ResultImageUrl(s.parseJson, Field(data, "resultJson"));
      && (Terminal(s, c, data, t).Returned? && Terminal(s, c, data, t).result.Success? <==> Truthy(u))
      && (Truthy(u) ==> Terminal(s, c, data, t) == Returned(Success(c.model, t - c.startTs, u.value, c.creditsUsed)))
      && (!Truthy(u) ==> Terminal(s, c, data, t) == Returned(Failure(c.model, t - c.startTs, 500, MSG_SERVER, c.creditsUsed)))
  {
  }

  /**
   * A poll answering `{data: {state: "success", resultJson: r}}`, where `r` parses to an object
   * whose `resultUrls` starts with a non-empty string, ends the loop after that one poll with a
   * success carrying that URL.
   */
  lemma SuccessAnswerEndsLoop(s: KieScript, c: PollContext, attempt: nat, now: int, took: nat, r: string, url: string)
    requires attempt < KIE_POLL_MAX_ATTEMPTS && url != ""
    requires s.record(attempt) == Answered(200, Parsed(JObj(map["data" := JObj(map["state" := JStr("success"), "resultJson" := JStr(r)])])), took)
    requires s.parseJson(r) == Some(JObj(map["resultUrls" := JArr([JStr(url)])]))
    ensures PollLoop(s, c, attempt, now) ==
      Run(Returned(Success(c.model, now + took - c.startTs, JStr(url), c.creditsUsed)), [RecordInfo(c.base, c.taskId, now)])
  {
    var jd := s.record(attempt).body.json;
    var data := Field(Some(jd), "data");
    assert data == Some(JObj(map["state" := JStr("success"), "resultJson" := JStr(r)]));
    assert Field(data, "state") == Some(JStr("success"));
    assert Field(data, "resultJson") == Some(JStr(r));
    assert Field(s.parseJson(r), "resultUrls") == Some(JArr([JStr(url)]));
    assert ResultImageUrl(s.parseJson, Field(data, "resultJson")) == Some(JStr(url));
    SuccessTerminal(s, c, data, now + took);
    PollLoopAtTerminal(s, c, attempt, now, jd, data, Returned(Success(c.model, now + took - c.startTs, JStr(url), c.creditsUsed)));
  }

  /**
   * Every success of the poll loop carries a truthy image URL, the first `resultUrls` entry of
   * the embedded result of some poll answered in a `success` state.
   */
  lemma {:induction false} PollLoopSuccessCarriesUrl(s: KieScript, c: PollContext, attempt: nat, now: int)
    ensures var r := PollLoop(s, c, attempt, now);
      r.outcome.Returned? && r.outcome.result.Success? ==>
        Truthy(Some(r.outcome.result.imageUrl))
        && r.outcome.result.creditsUsed == c.creditsUsed && r.outcome.result.model == c.model
        && exists k :: attempt <= k < KIE_POLL_MAX_ATTEMPTS && SucceededWith(s, k, r.outcome.result.imageUrl)
    decreases KIE_POLL_MAX_ATTEMPTS - attempt
  {
    var r := PollLoop(s, c, attempt, now);
    if attempt < KIE_POLL_MAX_ATTEMPTS && s.record(attempt).Answered? {
      var e := s.record(attempt);
      var t := now + e.took;
      var next := t + KIE_POLL_INTERVAL_MS;
      PollLoopSuccessCarriesUrl(s, c, attempt + 1, next);
      if e.body.Parsed? && IsOk(e.status) && IsTerminal(Field(Some(e.body.json), "data")) {
        var data := Field(Some(e.body.json), "data");
        if r.outcome.Returned? && r.outcome.result.Success? {
          assert r.outcome == Terminal(s, c, data, t);
          if !IsStr(Field(data, "state"), "success") {
            match FailMessage(c.policy, Field(data, "failMsg"))
            case None =>
            case Some(m) =>
          }
          assert SucceededWith(s, attempt, r.outcome.result.imageUrl);
        }
      }
    }
  }

  /** Poll `k` was answered OK in a `success` state whose embedded result's truthy first URL is `url`. */
  ghost predicate SucceededWith(s: KieScript, k: nat, url: Json) {
    var e := s.record(k);
    e.Answered? && IsOk(e.status) && e.body.Parsed?
    && IsStr(Field(Field(Some(e.body.json), "data"), "state"), "success")
    && ResultImageUrl(s.parseJson, Field(Field(Some(e.body.json), "data"), "resultJson")) == Some(url)
    && Truthy(Some(url))
  }

  /** A `fail` state whose message is trimmed and not blank: 422 with that message, rewritten. */
  lemma FailTerminal(s: KieScript, c: PollContext, data: Option<Json>, t: int, m: string, shown: string)
    requires Field(data, "state") == Some(JStr("fail")) && Field(data, "failMsg") == Some(JStr(m))
    requires FailMessage(c.policy, Some(JStr(m))) == Some(m) && Rewrite(m) == shown
    ensures IsTerminal(data)
    ensures Terminal(s, c, data, t) == Fail(c, t - c.startTs, 422, shown)
  {
    assert !IsStr(Field(data, "state"), "success");
  }

  lemma InternalErrorIsTrimmed()
    ensures Trim(INTERNAL_ERROR_TEXT) == INTERNAL_ERROR_TEXT
  {
    var t := INTERNAL_ERROR_TEXT;
    assert t[0] == 'i' && t[|t| - 1] == 'r';
    TrimOfTrimmed(t);
  }

  lemma InternalErrorMatches()
    ensures MentionsInternalError(INTERNAL_ERROR_TEXT)
  {
    ContainsSelf(INTERNAL_ERROR_TEXT);
    ContainsIsContainsIgnoreCase(INTERNAL_ERROR_TEXT, INTERNAL_ERROR_TEXT);
  }

  /** The driver as it is written: key check, `createTask`, then the `for` loop of polls. */
  method RunKieTryOn(p: ImagePayload, env: KieEnv, policy: FailPolicy, s: KieScript, startTs: int, now0: int)
    returns (outcome: DriverOutcome, calls: seq<KieCall>)
    ensures Run(outcome, calls) == KieTryOn(p, env, policy, s, startTs, now0)
  {
    if !IsSet(env.apiKey) {
      return Returned(Failure(p.model, now0 - startTs, 500, MSG_UNKNOWN, None)), [];
    }
    var base := KieBase(env.baseUrl);
    calls := [CreateTask(base + "/jobs/createTask", CreateBody(p))];
    var createRes := s.create;
    if createRes.Rejected? {
      return Threw(createRes.error), calls;
    }
    var now := now0 + createRes.took;
    if createRes.body.Unparseable? {
      return Returned(Failure(p.model, now - startTs, 502, MSG_SERVER, None)), calls;
    }
    var createData := createRes.body.json;
    var creditsUsed := Field(Field(Some(createData), "data"), "creditsUsed");
    if !IsOk(createRes.status) {
      return Returned(Failure(p.model, now - startTs, 502, MSG_SERVER, creditsUsed)), calls;
    }
    if createData == JNull {
      return Threw(TYPE_ERROR), calls;
    }
    var code := Field(Some(createData), "code");
    if code.Some? && code != Some(JNum(200)) {
      return Returned(Failure(p.model, now - startTs, 502, MSG_SERVER, creditsUsed)), calls;
    }
    var taskId := Field(Field(Some(createData), "data"), "taskId");
    if !Truthy(taskId) {
      return Returned(Failure(p.model, now - startTs, 502, MSG_SERVER, creditsUsed)), calls;
    }
    var polls;
    outcome, polls := Poll(s, PollContext(p.model, startTs, base, taskId.value, creditsUsed, policy), now);
    calls := calls + polls;
  }

  /** `for (let attempt = 0; attempt < POLL_MAX_ATTEMPTS; attempt++)` over `recordInfo`. */
  method Poll(s: KieScript, c: PollContext, now0: int) returns (outcome: DriverOutcome, calls: seq<KieCall>)
    ensures Run(outcome, calls) == PollLoop(s, c, 0, now0)
  {
    var now := now0;
    calls := [];
    for attempt := 0 to KIE_POLL_MAX_ATTEMPTS
      invariant PollLoop(s, c, 0, now0) == Prepend(calls, PollLoop(s, c, attempt, now))
    {
      var call, step := PollOnce(s, c, attempt, now);
      if step.Done? {
        return step.outcome, calls + [call];
      }
      PrependTwice(calls, [call], PollLoop(s, c, attempt + 1, step.until));
      calls, now := calls + [call], step.until;
    }
    PollLoopExhausted(s, c, now);
    return Fail(c, now - c.startTs, 408, MSG_TIMEOUT), calls;
  }

  /** Once every attempt is used the loop answers 408. */
  lemma PollLoopExhausted(s: KieScript, c: PollContext, now: int)
    ensures PollLoop(s, c, KIE_POLL_MAX_ATTEMPTS, now) == Run(Fail(c, now - c.startTs, 408, MSG_TIMEOUT), [])
  {
  }

  /** How one round of the loop ends: the loop is over, or it goes on once the clock reads `until`. */
  datatype Step = Done(outcome: DriverOutcome) | Wait(until: int)

  /** One round of the loop: the `recordInfo` request, then the end of the loop or the 2000 ms wait. */
  method PollOnce(s: KieScript, c: PollContext, attempt: nat, now: int) returns (call: KieCall, step: Step)
    requires attempt < KIE_POLL_MAX_ATTEMPTS
    ensures call == RecordInfo(c.base, c.taskId, now)
    ensures step.Done? ==> PollLoop(s, c, attempt, now) == Run(step.outcome, [call])
    ensures step.Wait? ==> PollLoop(s, c, attempt, now) == Prepend([call], PollLoop(s, c, attempt + 1, step.until))
  {
    call := RecordInfo(c.base, c.taskId, now);
    var jobRes := s.record(attempt);
    if jobRes.Rejected? {
      return call, Done(Threw(jobRes.error));
    }
    var t := now + jobRes.took;
    if jobRes.body.Unparseable? {
      return call, Wait(t + KIE_POLL_INTERVAL_MS);
    }
    if !IsOk(jobRes.status) {
      return call, Done(Fail(c, t - c.startTs, 502, MSG_KIE_RESULT));
    }
    var data := Field(Some(jobRes.body.json), "data");
    if IsTerminal(data) {
      var outcome := Finish(s, c, data, t);
      return call, Done(outcome);
    }
    return call, Wait(t + KIE_POLL_INTERVAL_MS);
  }

  /** A terminal state: the result URL out of the embedded JSON, or the `fail` message with its rewrite. */
  method Finish(s: KieScript, c: PollContext, data: Option<Json>, t: int) returns (outcome: DriverOutcome)
    requires IsTerminal(data)
    ensures outcome == Terminal(s, c, data, t)
  {
    if IsStr(Field(data, "state"), "success") {
      var imageUrl := ResultImageUrl(s.parseJson, Field(data, "resultJson"));
      if Truthy(imageUrl) {
        return Returned(Success(c.model, t - c.startTs, imageUrl.value, c.creditsUsed));
      }
      return Fail(c, t - c.startTs, 500, MSG_SERVER);
    }
    outcome := FinishFailed(c, Field(data, "failMsg"), t);
  }

  method FinishFailed(c: PollContext, failMsg: Option<Json>, t: int) returns (outcome: DriverOutcome)
    ensures outcome == FailOutcome(c, failMsg, t)
  {
    var userMessage := FailMessage(c.policy, failMsg);
    if userMessage.None? {
      return Threw(TYPE_ERROR);
    }
    return Fail(c, t - c.startTs, 422, Rewrite(userMessage.value));
  }
}
