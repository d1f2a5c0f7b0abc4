/**
 * The lib/ Fal queue driver: submit, fast path, then a poll loop with a staged interval that,
 * once 55 s have passed since polling began, makes one last status check before timing out.
 */
module FalImage {
  import opened Wrappers
  import opened Json
  import opened Http
  import opened ProviderAbstraction
  import opened FalQueue

  const FAL_POLL_TIMEOUT_MS: int := 55000

  /** `calcFalIntervalMs`: 700 ms for the first 15 s, 1500 ms until 60 s, then 4000 ms. */
  function CalcFalIntervalMs(elapsedMs: int): (w: int)
    ensures elapsedMs < 15000 ==> w == 700
    ensures 15000 <= elapsedMs < 60000 ==> w == 1500
    ensures 60000 <= elapsedMs ==> w == 4000
  {
    if elapsedMs < 15000 then 700
    else if elapsedMs < 60000 then FAL_POLL_INTERVAL_MS
    else 4000
  }

  /** The interval never shrinks as polling goes on, and is never below 700 ms. */
  lemma CalcFalIntervalMonotone(a: int, b: int)
    requires a <= b
    ensures 700 <= CalcFalIntervalMs(a) <= CalcFalIntervalMs(b) <= 4000
  {
  }

  /** The fixed part of the loop's state. */
  datatype PollContext = PollContext(model: string, startTs: int, statusUrl: Json, pollStartedAt: int)

  const MSG_FAL_TIMEOUT: string := "Превышено время ожидания. Попробуйте ещё раз."

  function TimedOut(c: PollContext, durationMs: int): DriverOutcome {
    Fail(c.model, durationMs, 408, MSG_FAL_TIMEOUT)
  }

  /**
   * The check made once the deadline has passed. Its `duration_ms` is read before the request.
   * Only `COMPLETED` with an image (from the status body or from `response_url`) succeeds; a
   * `response_url` body that does not parse is 502, every other answer is 408.
   */
  function LastChance(s: FalScript, c: PollContext, i: nat, now: int): (r: Run)
    ensures |r.calls| >= 1 && r.calls[0] == StatusCheck(c.statusUrl, now)
    ensures CheckTimes(r.calls) == [now]
    ensures r.outcome.Returned? && r.outcome.result.Failure? ==>
      r.outcome.result.httpStatus in {408, 502} && r.outcome.result.durationMs == now - c.startTs
    ensures r.outcome.Returned? && r.outcome.result.Success? ==>
      s.status(i).Answered? && s.status(i).body.Parsed? && IsStr(Field(Some(s.status(i).body.json), "status"), "COMPLETED")
  {
    var durationMs := now - c.startTs;
    var call := StatusCheck(c.statusUrl, now);
    CheckTimesOfSingle(call);
    match s.status(i)
    case Rejected(e) => Run(Threw(e), [call])
    case Answered(_, body, _) =>
      match body
      case Unparseable(_) => Run(TimedOut(c, durationMs), [call])
      case Parsed(d) =>
        if !IsStr(Field(Some(d), "status"), "COMPLETED") then Run(TimedOut(c, durationMs), [call])
        else
          var imageUrl := FirstImageUrl(d);
          if !Truthy(imageUrl) && Truthy(Field(Some(d), "response_url")) then
            var fetch := ResultFetch(Field(Some(d), "response_url").value);
            CheckTimesAppend([call], [fetch]);
            CheckTimesOfSingle(fetch);
            match s.result
            case Rejected(e) => Run(Threw(e), [call, fetch])
            case Answered(_, rbody, _) =>
              match rbody
              case Unparseable(_) => Run(Fail(c.model, durationMs, 502, MSG_FAL_RESULT), [call, fetch])
              case Parsed(rj) => Run(ImageOr(FirstImageUrl(rj), c.model, durationMs, 408, MSG_FAL_TIMEOUT), [call, fetch])
          else Run(ImageOr(imageUrl, c.model, durationMs, 408, MSG_FAL_TIMEOUT), [call])
  }

  /**
   * Every case of the last check, all timed at `now`, before the request. A rejected check throws.
   * A `COMPLETED` answer with an image in its body succeeds with it. One without an image but with
   * a truthy `response_url` also fetches that URL: a rejection throws, a body that does not parse
   * is 502, a parsed body succeeds with its truthy image, and one without an image is 408. Every
   * other answer (a body that does not parse, another status, `COMPLETED` with neither an image
   * nor a `response_url`) is 408 after the one check.
   */
  lemma LastChanceSpec(s: FalScript, c: PollContext, i: nat, now: int)
    ensures var r := LastChance(s, c, i, now);
      var call := StatusCheck(c.statusUrl, now);
      var e := s.status(i);
      var completed := e.Answered? && e.body.Parsed? && IsStr(Field(Some(e.body.json), "status"), "COMPLETED");
      && (e.Rejected? ==> r == Run(Threw(e.error), [call]))
      && (e.Answered? && !completed ==> r == Run(TimedOut(c, now - c.startTs), [call]))
      && (completed ==>
            var u := FirstImageUrl(e.body.json);
            var responseUrl := Field(Some(e.body.json), "response_url");
            && (Truthy(u) ==> r == Run(Returned(Success(c.model, now - c.startTs, u.value, None)), [call]))
            && (!Truthy(u) && !Truthy(responseUrl) ==> r == Run(TimedOut(c, now - c.startTs), [call]))
            && (!Truthy(u) && Truthy(responseUrl) ==>
                  && r.calls == [call, ResultFetch(responseUrl.value)]
                  && (s.result.Rejected? ==> r.outcome == Threw(s.result.error))
                  && (s.result.Answered? && s.result.body.Unparseable? ==>
                        r.outcome == Fail(c.model, now - c.startTs, 502, MSG_FAL_RESULT))
                  && (s.result.Answered? && s.result.body.Parsed? && Truthy(FirstImageUrl(s.result.body.json)) ==>
                        r.outcome == Returned(Success(c.model, now - c.startTs, FirstImageUrl(s.result.body.json).value, None)))
                  && (s.result.Answered? && s.result.body.Parsed? && !Truthy(FirstImageUrl(s.result.body.json)) ==>
                        r.outcome == TimedOut(c, now - c.startTs))))
  {
  }

  /**
   * The poll loop from the status check numbered `i`, with the clock at `now`. Each round checks
   * the deadline, then the status: `COMPLETED` and `FAILED` end the loop, a body that does not
   * parse waits 1500 ms, any other status waits the staged interval for the elapsed time.
   */
  function PollLoop(s: FalScript, c: PollContext, i: nat, now: int): Run
    decreases c.pollStartedAt + FAL_POLL_TIMEOUT_MS - now
  {
    if now - c.pollStartedAt > FAL_POLL_TIMEOUT_MS then LastChance(s, c, i, now)
    else
      var call := StatusCheck(c.statusUrl, now);
      match s.status(i)
      case Rejected(e) => Run(Threw(e), [call])
      case Answered(_, body, took) =>
        var t := now + took;
        match body
        case Unparseable(_) => Prepend([call], PollLoop(s, c, i + 1, t + FAL_POLL_INTERVAL_MS))
        case Parsed(d) =>
          if IsStr(Field(Some(d), "status"), "COMPLETED") then Prepend([call], OnCompleted(d, s, c.model, c.startTs, t))
          else if IsStr(Field(Some(d), "status"), "FAILED") then Run(Fail(c.model, t - c.startTs, 502, MSG_FAL_FAILED), [call])
          else Prepend([call], PollLoop(s, c, i + 1, t + CalcFalIntervalMs(t - c.pollStartedAt)))
  }

  /** `runFalTryOn(payload, startTs)` of lib/, with the clock at `now0` when it starts. */
  function FalTryOn(p: ImagePayload, falKey: Option<string>, s: FalScript, startTs: int, now0: int): Run {
    match SubmitPhase(p, falKey, s, startTs, now0)
    case Finished(r) => r
    case Queued(statusUrl, pollStartedAt, calls) =>
      Prepend(calls, PollLoop(s, PollContext(p.model, startTs, statusUrl, pollStartedAt), 0, pollStartedAt))
  }

  /**
   * How many status checks can still happen from clock `now`: after the deadline just the last
   * one; before it, as many as fit 700 ms apart up to the deadline, plus the last one.
   */
  function CheckBudget(c: PollContext, now: int): int {
    if now - c.pollStartedAt > FAL_POLL_TIMEOUT_MS then 1
    else (c.pollStartedAt + FAL_POLL_TIMEOUT_MS - now) / 700 + 2
  }

  lemma DivStep(x: int, y: int)
    requires 0 <= x && x + 700 <= y
    ensures x / 700 + 1 <= y / 700
  {
    assert (x + 700) / 700 == x / 700 + 1;
  }

  /** A `COMPLETED` status makes no further status check. */
  lemma OnCompletedChecksNothing(d: Json, s: FalScript, model: string, startTs: int, t: int)
    ensures CheckTimes(OnCompleted(d, s, model, startTs, t).calls) == []
  {
    var r := OnCompleted(d, s, model, startTs, t);
    if r.calls != [] {
      CheckTimesOfSingle(r.calls[0]);
    }
  }

  /**
   * The timing of a run `r` of the poll loop entered at clock `now`: its first status check is at
   * `now`, every check but the last is sent within 55 s of the start of polling, consecutive
   * checks are at least 700 ms apart, their number is within the budget, and a 408 comes only
   * from a last check sent after the deadline.
   */
  predicate Timely(c: PollContext, now: int, r: Run) {
    var ts := CheckTimes(r.calls);
    1 <= |ts| <= CheckBudget(c, now) && ts[0] == now
    && (forall j :: 0 <= j < |ts| - 1 ==> ts[j] - c.pollStartedAt <= FAL_POLL_TIMEOUT_MS && ts[j] + 700 <= ts[j + 1])
    && (r.outcome.Returned? && r.outcome.result.Failure? && r.outcome.result.httpStatus == 408 ==>
          ts[|ts| - 1] - c.pollStartedAt > FAL_POLL_TIMEOUT_MS)
  }

  /** The poll loop keeps to its timing from every round on. */
  lemma {:induction false} PollLoopTiming(s: FalScript, c: PollContext, i: nat, now: int)
    ensures Timely(c, now, PollLoop(s, c, i, now))
    decreases c.pollStartedAt + FAL_POLL_TIMEOUT_MS - now
  {
    if now - c.pollStartedAt > FAL_POLL_TIMEOUT_MS {
      assert PollLoop(s, c, i, now) == LastChance(s, c, i, now);
    } else if s.status(i).Rejected? {
      var call := StatusCheck(c.statusUrl, now);
      CheckTimesOfSingle(call);
      assert PollLoop(s, c, i, now) == Run(Threw(s.status(i).error), [call]);
      OneCheckTimely(c, now, Run(Threw(s.status(i).error), [call]));
    } else {
      AnsweredTimely(s, c, i, now);
    }
  }

  /** `PollLoopTiming` for a round whose status request is answered before the deadline. */
  lemma {:induction false} AnsweredTimely(s: FalScript, c: PollContext, i: nat, now: int)
    requires now - c.pollStartedAt <= FAL_POLL_TIMEOUT_MS && s.status(i).Answered?
    ensures Timely(c, now, PollLoop(s, c, i, now))
    decreases c.pollStartedAt + FAL_POLL_TIMEOUT_MS - now, 1
  {
    var call := StatusCheck(c.statusUrl, now);
    var t := now + s.status(i).took;
    match s.status(i).body
    case Unparseable(_) =>
      assert PollLoop(s, c, i, now) == Prepend([call], PollLoop(s, c, i + 1, t + FAL_POLL_INTERVAL_MS));
      NextRound(s, c, i, now, call, t + FAL_POLL_INTERVAL_MS);
    case Parsed(d) =>
      if IsStr(Field(Some(d), "status"), "COMPLETED") {
        var done := OnCompleted(d, s, c.model, c.startTs, t);
        assert PollLoop(s, c, i, now) == Prepend([call], done);
        CompletedTimely(d, s, c, now, t);
      } else if IsStr(Field(Some(d), "status"), "FAILED") {
        var failed := Run(Fail(c.model, t - c.startTs, 502, MSG_FAL_FAILED), [call]);
        assert PollLoop(s, c, i, now) == failed;
        CheckTimesOfSingle(call);
        OneCheckTimely(c, now, failed);
      } else {
        var next := t + CalcFalIntervalMs(t - c.pollStartedAt);
        assert PollLoop(s, c, i, now) == Prepend([call], PollLoop(s, c, i + 1, next));
        NextRound(s, c, i, now, call, next);
      }
  }

  /** A `COMPLETED` answer ends the loop after its one timely check. */
  lemma CompletedTimely(d: Json, s: FalScript, c: PollContext, now: int, t: int)
    requires now - c.pollStartedAt <= FAL_POLL_TIMEOUT_MS
    ensures Timely(c, now, Prepend([StatusCheck(c.statusUrl, now)], OnCompleted(d, s, c.model, c.startTs, t)))
  {
    var call := StatusCheck(c.statusUrl, now);
    var done := OnCompleted(d, s, c.model, c.startTs, t);
    CheckTimesOfSingle(call);
    OnCompletedChecksNothing(d, s, c.model, c.startTs, t);
    CheckTimesAppend([call], done.calls);
    OneCheckTimely(c, now, Prepend([call], done));
  }

  /** A run that ends after a single timely check, and not with a 408, keeps to the timing. */
  lemma OneCheckTimely(c: PollContext, now: int, r: Run)
    requires now - c.pollStartedAt <= FAL_POLL_TIMEOUT_MS && CheckTimes(r.calls) == [now]
    requires !(r.outcome.Returned? && r.outcome.result.Failure? && r.outcome.result.httpStatus == 408)
    ensures Timely(c, now, r)
  {
    assert 2 <= CheckBudget(c, now);
  }

  /** The inductive step of `PollLoopTiming`: one timely check followed by the loop from `next`. */
  lemma {:induction false} NextRound(s: FalScript, c: PollContext, i: nat, now: int, call: FalCall, next: int)
    requires now - c.pollStartedAt <= FAL_POLL_TIMEOUT_MS && next >= now + 700
    requires call == StatusCheck(c.statusUrl, now)
    ensures Timely(c, now, Prepend([call], PollLoop(s, c, i + 1, next)))
    decreases c.pollStartedAt + FAL_POLL_TIMEOUT_MS - now, 0
  {
    PollLoopTiming(s, c, i + 1, next);
    TimelyPrepend(c, now, next, PollLoop(s, c, i + 1, next));
  }

  /** A timely check at `now`, in time and 700 ms before a timely run from `next`, keeps to the timing. */
  lemma TimelyPrepend(c: PollContext, now: int, next: int, rest: Run)
    requires now - c.pollStartedAt <= FAL_POLL_TIMEOUT_MS && next >= now + 700
    requires Timely(c, next, rest)
    ensures Timely(c, now, Prepend([StatusCheck(c.statusUrl, now)], rest))
  {
    var call := StatusCheck(c.statusUrl, now);
    CheckTimesOfSingle(call);
    CheckTimesAppend([call], rest.calls);
    var ts' := CheckTimes(rest.calls);
    var ts := CheckTimes(Prepend([call], rest).calls);
    assert ts == [now] + ts';
    if next - c.pollStartedAt <= FAL_POLL_TIMEOUT_MS {
      DivStep(c.pollStartedAt + FAL_POLL_TIMEOUT_MS - next, c.pollStartedAt + FAL_POLL_TIMEOUT_MS - now);
    }
    assert |ts| <= CheckBudget(c, now);
    forall j | 0 <= j < |ts| - 1
      ensures ts[j] - c.pollStartedAt <= FAL_POLL_TIMEOUT_MS && ts[j] + 700 <= ts[j + 1]
    {
      if j > 0 {
        assert ts[j] == ts'[j - 1] && ts[j + 1] == ts'[j];
      }
    }
  }

  /** `runFalTryOn` of lib/ sends at most 55000 / 700 + 2 = 80 status requests. */
  lemma FalTryOnCheckBound(p: ImagePayload, falKey: Option<string>, s: FalScript, startTs: int, now0: int)
    ensures |CheckTimes(FalTryOn(p, falKey, s, startTs, now0).calls)| <= FAL_POLL_TIMEOUT_MS / 700 + 2
  {
    var q := SubmitPhase(p, falKey, s, startTs, now0);
    match q
    case Finished(r) =>
      if r.calls != [] {
        CheckTimesOfSingle(r.calls[0]);
      }
    case Queued(statusUrl, pollStartedAt, calls) =>
      var c := PollContext(p.model, startTs, statusUrl, pollStartedAt);
      PollLoopTiming(s, c, 0, pollStartedAt);
      CheckTimesOfSingle(calls[0]);
      CheckTimesAppend(calls, PollLoop(s, c, 0, pollStartedAt).calls);
  }

  /** The poll loop fails only with 408 (timeout) or 502 (failed job, unusable result). */
  lemma {:induction false} PollLoopFailureStatuses(s: FalScript, c: PollContext, i: nat, now: int)
    ensures var r := PollLoop(s, c, i, now);
      r.outcome.Returned? && r.outcome.result.Failure? ==> r.outcome.result.httpStatus in {408, 502}
    decreases c.pollStartedAt + FAL_POLL_TIMEOUT_MS - now
  {
    if now - c.pollStartedAt <= FAL_POLL_TIMEOUT_MS && s.status(i).Answered? {
      var t := now + s.status(i).took;
      match s.status(i).body
      case Unparseable(_) => PollLoopFailureStatuses(s, c, i + 1, t + FAL_POLL_INTERVAL_MS);
      case Parsed(d) =>
        if !IsStr(Field(Some(d), "status"), "COMPLETED") && !IsStr(Field(Some(d), "status"), "FAILED") {
          PollLoopFailureStatuses(s, c, i + 1, t + CalcFalIntervalMs(t - c.pollStartedAt));
        }
    }
  }

  /** Every failure of the lib/ driver is 408, 502 or 503, and 503 means the key was missing and nothing was sent. */
  lemma FalTryOnFailureStatuses(p: ImagePayload, falKey: Option<string>, s: FalScript, startTs: int, now0: int)
    ensures var r := FalTryOn(p, falKey, s, startTs, now0);
      r.outcome.Returned? && r.outcome.result.Failure? ==>
        r.outcome.result.httpStatus in {408, 502, 503}
        && (r.outcome.result.httpStatus == 503 <==> !IsSet(falKey))
    ensures !IsSet(falKey) ==> FalTryOn(p, falKey, s, startTs, now0).calls == []
  {
    var q := SubmitPhase(p, falKey, s, startTs, now0);
    if q.Queued? {
      PollLoopFailureStatuses(s, PollContext(p.model, startTs, q.statusUrl, q.pollStartedAt), 0, q.pollStartedAt);
    }
  }

  /** A job that completes between the last regular check and the deadline is still picked up. */
  lemma LastChanceRescuesStraggler(s: FalScript, c: PollContext, i: nat, now: int, url: string, took: nat)
    requires now - c.pollStartedAt > FAL_POLL_TIMEOUT_MS && url != ""
    requires s.status(i) == Answered(200, Parsed(JObj(map["status" := JStr("COMPLETED"), "images" := ImageList(JStr(url))])), took)
    ensures PollLoop(s, c, i, now) == Run(Returned(Success(c.model, now - c.startTs, JStr(url), None)), [StatusCheck(c.statusUrl, now)])
  {
  }

  /**
   * The queue scenario, second half: the first check answers `PROCESSING` and the second,
   * 700 ms after the first is back, `COMPLETED` with image "X": success with "X" after two checks.
   */
  lemma ProcessingThenCompleted(s: FalScript, c: PollContext, t1: nat, t2: nat)
    requires t1 < 15000
    requires s.status(0) == Answered(200, Parsed(JObj(map["status" := JStr("PROCESSING")])), t1)
    requires s.status(1) == Answered(200, Parsed(JObj(map["status" := JStr("COMPLETED"), "images" := ImageList(JStr("X"))])), t2)
    ensures PollLoop(s, c, 0, c.pollStartedAt) ==
      Run(Returned(Success(c.model, c.pollStartedAt + t1 + 700 + t2 - c.startTs, JStr("X"), None)),
          [StatusCheck(c.statusUrl, c.pollStartedAt), StatusCheck(c.statusUrl, c.pollStartedAt + t1 + 700)])
  {
    ScenarioProcessing(s, c, t1);
    ScenarioCompleted(s, c, c.pollStartedAt + t1 + 700, t2);
  }

  /**
   * The queue scenario, first half: a submit answered `IN_QUEUE` with status URL "U" sends only
   * the submit and starts polling "U" once the submit is back.
   */
  lemma QueuedSubmitPolls(p: ImagePayload, key: string, s: FalScript, startTs: int, now0: int, t0: nat)
    requires key != ""
    requires s.submit == Answered(200, Parsed(JObj(map["status" := JStr("IN_QUEUE"), "status_url" := JStr("U")])), t0)
    ensures SubmitPhase(p, Some(key), s, startTs, now0) == Queued(JStr("U"), now0 + t0, [Submit(FalUrl(p.model), FalInput(p))])
    ensures FalTryOn(p, Some(key), s, startTs, now0) ==
      Prepend([Submit(FalUrl(p.model), FalInput(p))], PollLoop(s, PollContext(p.model, startTs, JStr("U"), now0 + t0), 0, now0 + t0))
  {
    var d0 := JObj(map["status" := JStr("IN_QUEUE"), "status_url" := JStr("U")]);
    assert Field(Some(d0), "images") == None;
    assert Field(Some(d0), "data") == None;
    assert Field(Some(d0), "status_url") == Some(JStr("U"));
    assert Field(Some(d0), "status") == Some(JStr("IN_QUEUE"));
    assert !Truthy(FirstImageUrl(d0));
    assert NeedPoll(200, d0);
  }

  lemma ScenarioProcessing(s: FalScript, c: PollContext, t1: nat)
    requires t1 < 15000
    requires s.status(0) == Answered(200, Parsed(JObj(map["status" := JStr("PROCESSING")])), t1)
    ensures PollLoop(s, c, 0, c.pollStartedAt) ==
      Prepend([StatusCheck(c.statusUrl, c.pollStartedAt)], PollLoop(s, c, 1, c.pollStartedAt + t1 + 700))
  {
    var d1 := JObj(map["status" := JStr("PROCESSING")]);
    assert Field(Some(d1), "status") == Some(JStr("PROCESSING"));
    assert CalcFalIntervalMs(t1) == 700;
  }

  lemma ScenarioCompleted(s: FalScript, c: PollContext, now: int, t2: nat)
    requires now - c.pollStartedAt <= FAL_POLL_TIMEOUT_MS
    requires s.status(1) == Answered(200, Parsed(JObj(map["status" := JStr("COMPLETED"), "images" := ImageList(JStr("X"))])), t2)
    ensures PollLoop(s, c, 1, now) == Run(Returned(Success(c.model, now + t2 - c.startTs, JStr("X"), None)), [StatusCheck(c.statusUrl, now)])
  {
    var d2 := JObj(map["status" := JStr("COMPLETED"), "images" := ImageList(JStr("X"))]);
    assert Field(Some(d2), "status") == Some(JStr("COMPLETED"));
    assert FirstImageUrl(d2) == Some(JStr("X"));
    assert OnCompleted(d2, s, c.model, c.startTs, now + t2) == Run(Returned(Success(c.model, now + t2 - c.startTs, JStr("X"), None)), []);
  }

  /** The driver as it is written: key check, submit, fast path, then the poll loop. */
  method RunFalTryOn(p: ImagePayload, falKey: Option<string>, s: FalScript, startTs: int, now0: int)
    returns (outcome: DriverOutcome, calls: seq<FalCall>)
    ensures Run(outcome, calls) == FalTryOn(p, falKey, s, startTs, now0)
  {
    var model := p.model;
    if !IsSet(falKey) {
      return Fail(model, now0 - startTs, 503, MSG_FAL_UNAVAILABLE), [];
    }
    calls := [Submit(FalUrl(model), FalInput(p))];
    if s.submit.Rejected? {
      return Threw(s.submit.error), calls;
    }
    var now := now0 + s.submit.took;
    if s.submit.body.Unparseable? {
      return Fail(model, now - startTs, 502, MSG_FAL_GENERATE), calls;
    }
    var falData := s.submit.body.json;
    if IsOk(s.submit.status) && Truthy(FirstImageUrl(falData)) {
      return Returned(Success(model, now - startTs, FirstImageUrl(falData).value, None)), calls;
    }
    if !NeedPoll(s.submit.status, falData) {
      return Fail(model, now - startTs, 502, MSG_FAL_GENERATE), calls;
    }
    var statusUrl := Field(Some(falData), "status_url").value;
    var polled;
    outcome, polled := Poll(s, PollContext(model, startTs, statusUrl, now));
    calls := calls + polled;
  }

  /** The `while (true)` loop over the status URL, polling from `c.pollStartedAt`. */
  method Poll(s: FalScript, c: PollContext) returns (outcome: DriverOutcome, calls: seq<FalCall>)
    ensures Run(outcome, calls) == PollLoop(s, c, 0, c.pollStartedAt)
  {
    var now := c.pollStartedAt;
    var i: nat := 0;
    calls := [];
    while true
      invariant PollLoop(s, c, 0, c.pollStartedAt) == Prepend(calls, PollLoop(s, c, i, now))
      decreases c.pollStartedAt + FAL_POLL_TIMEOUT_MS - now
    {
      if now - c.pollStartedAt > FAL_POLL_TIMEOUT_MS {
        var last;
        outcome, last := FinalCheck(s, c, i, now);
        return outcome, calls + last;
      }
      var step := PollOnce(s, c, i, now);
      var check := StatusCheck(c.statusUrl, now);
      if step.Done? {
        return step.run.outcome, calls + step.run.calls;
      }
      PrependTwice(calls, [check], PollLoop(s, c, i + 1, step.until));
      calls, now, i := calls + [check], step.until, i + 1;
    }
  }

  /**
   * One round of the loop before the deadline: the status request, then the end of the loop or
   * the wait until the clock reads `until`.
   */
  method PollOnce(s: FalScript, c: PollContext, i: nat, now: int) returns (step: PollStep)
    requires now - c.pollStartedAt <= FAL_POLL_TIMEOUT_MS
    ensures step.Done? ==> PollLoop(s, c, i, now) == step.run
    ensures step.Wait? ==> now < step.until
    ensures step.Wait? ==> PollLoop(s, c, i, now) == Prepend([StatusCheck(c.statusUrl, now)], PollLoop(s, c, i + 1, step.until))
  {
    var check := StatusCheck(c.statusUrl, now);
    var statusRes := s.status(i);
    if statusRes.Rejected? {
      return Done(Run(Threw(statusRes.error), [check]));
    }
    var t := now + statusRes.took;
    if statusRes.body.Unparseable? {
      return Wait(t + FAL_POLL_INTERVAL_MS);
    }
    var statusData := statusRes.body.json;
    if IsStr(Field(Some(statusData), "status"), "COMPLETED") {
      var outcome, fetched := HandleCompleted(statusData, s, c.model, c.startTs, t);
      return Done(Run(outcome, [check] + fetched));
    }
    if IsStr(Field(Some(statusData), "status"), "FAILED") {
      return Done(Run(Fail(c.model, t - c.startTs, 502, MSG_FAL_FAILED), [check]));
    }
    var elapsed := t - c.pollStartedAt;
    return Wait(t + CalcFalIntervalMs(elapsed));
  }

  /** The last-chance check: `duration_ms` is read first, then one more status request. */
  method FinalCheck(s: FalScript, c: PollContext, i: nat, now: int) returns (outcome: DriverOutcome, calls: seq<FalCall>)
    ensures Run(outcome, calls) == LastChance(s, c, i, now)
  {
    var durationMs := now - c.startTs;
    calls := [StatusCheck(c.statusUrl, now)];
    var finalRes := s.status(i);
    if finalRes.Rejected? {
      return Threw(finalRes.error), calls;
    }
    if finalRes.body.Unparseable? {
      return TimedOut(c, durationMs), calls;
    }
    var finalData := finalRes.body.json;
    if IsStr(Field(Some(finalData), "status"), "COMPLETED") {
      var imageUrl := FirstImageUrl(finalData);
      if !Truthy(imageUrl) && Truthy(Field(Some(finalData), "response_url")) {
        calls := calls + [ResultFetch(Field(Some(finalData), "response_url").value)];
        if s.result.Rejected? {
          return Threw(s.result.error), calls;
        }
        if s.result.body.Unparseable? {
          return Fail(c.model, durationMs, 502, MSG_FAL_RESULT), calls;
        }
        imageUrl := FirstImageUrl(s.result.body.json);
      }
      if Truthy(imageUrl) {
        return Returned(Success(c.model, durationMs, imageUrl.value, None)), calls;
      }
    }
    return TimedOut(c, durationMs), calls;
  }

  /**
   * A check before the deadline answered `COMPLETED` with no image but a `response_url` fetches
   * that URL, and an image in the fetched body ends the run with success after the two requests.
   */
  lemma CompletedFetchesResponseUrl(s: FalScript, c: PollContext, i: nat, now: int, d: Json, took: nat, rj: Json, took2: nat)
    requires now - c.pollStartedAt <= FAL_POLL_TIMEOUT_MS
    requires s.status(i).Answered? && s.status(i).body == Parsed(d) && s.status(i).took == took
    requires IsStr(Field(Some(d), "status"), "COMPLETED")
    requires !Truthy(FirstImageUrl(d)) && Truthy(Field(Some(d), "response_url"))
    requires s.result.Answered? && s.result.body == Parsed(rj) && s.result.took == took2
    requires Truthy(FirstImageUrl(rj))
    ensures PollLoop(s, c, i, now) ==
      Run(Returned(Success(c.model, now + took + took2 - c.startTs, FirstImageUrl(rj).value, None)),
          [StatusCheck(c.statusUrl, now), ResultFetch(Field(Some(d), "response_url").value)])
  {
    OnCompletedSpec(d, s, c.model, c.startTs, now + took);
  }
}
