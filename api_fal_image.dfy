/**
 * The api/_lib/ Fal queue driver. Submit and `COMPLETED` handling are those of the lib/ driver;
 * the loop differs: a 35 s ceiling after which it answers 503 "busy" without another status
 * check, and a fixed 1500 ms wait between checks.
 */
module ApiFalImage {
  import opened Wrappers
  import opened Json
  import opened Http
  import opened ProviderAbstraction
  import opened FalQueue
  import ImageRouter
  import ApiImageRouter

  const API_FAL_POLL_TIMEOUT_MS: int := 35000
  const MSG_FAL_BUSY: string := "Сервис примерки занят. Попробуйте через минуту."

  datatype PollContext = PollContext(model: string, startTs: int, statusUrl: Json, pollStartedAt: int)

  /** The poll loop from status check `i` with the clock at `now`; every wait is 1500 ms. */
  function PollLoop(s: FalScript, c: PollContext, i: nat, now: int): Run
    decreases c.pollStartedAt + API_FAL_POLL_TIMEOUT_MS - now
  {
    if now - c.pollStartedAt > API_FAL_POLL_TIMEOUT_MS then Run(Fail(c.model, now - c.startTs, 503, MSG_FAL_BUSY), [])
    else
      var call := StatusCheck(c.statusUrl, now);
      match s.status(i)
      case Rejected(e) => Run(Threw(e), [call])
      case Answered(_, body, took) =>
        var t := now + took;
        match body
        case Unparseable(_) => Prepend([call], PollLoop(s, c, i + 1, t + FAL_POLL_INTERVAL_MS))
        case Parsed(d) =>
          if IsStr(Field(Some(d), "status"), "COMPLETED") then Prepend([call], OnCompleted(d, s, c.model, c.startTs, t))
          else if IsStr(Field(Some(d), "status"), "FAILED") then Run(Fail(c.model, t - c.startTs, 502, MSG_FAL_FAILED), [call])
          else Prepend([call], PollLoop(s, c, i + 1, t + FAL_POLL_INTERVAL_MS))
  }

  /** `runFalTryOn(payload, startTs)` of api/_lib/, with the clock at `now0` when it starts. */
  function FalTryOn(p: ImagePayload, falKey: Option<string>, s: FalScript, startTs: int, now0: int): Run {
    match SubmitPhase(p, falKey, s, startTs, now0)
    case Finished(r) => r
    case Queued(statusUrl, pollStartedAt, calls) =>
      Prepend(calls, PollLoop(s, PollContext(p.model, startTs, statusUrl, pollStartedAt), 0, pollStartedAt))
  }

  /** How many status checks can still happen from `now`: those that fit 1500 ms apart until the deadline. */
  function CheckBudget(c: PollContext, now: int): int {
    if now - c.pollStartedAt > API_FAL_POLL_TIMEOUT_MS then 0
    else (c.pollStartedAt + API_FAL_POLL_TIMEOUT_MS - now) / 1500 + 1
  }

  lemma DivStep(x: int, y: int)
    requires 0 <= x && x + 1500 <= y
    ensures x / 1500 + 1 <= y / 1500
  {
    assert (x + 1500) / 1500 == x / 1500 + 1;
  }

  lemma OnCompletedChecksNothing(d: Json, s: FalScript, model: string, startTs: int, t: int)
    ensures CheckTimes(OnCompleted(d, s, model, startTs, t).calls) == []
  {
    var r := OnCompleted(d, s, model, startTs, t);
    if r.calls != [] {
      CheckTimesOfSingle(r.calls[0]);
    }
  }

  /**
   * The timing of a run `r` of the poll loop entered at clock `now`: every status check is sent
   * at `now` or later and within 35 s of the start of polling (there is no check after the
   * deadline), consecutive checks are 1500 ms apart or more, and their number is within the budget.
   */
  predicate Timely(c: PollContext, now: int, r: Run) {
    var ts := CheckTimes(r.calls);
    |ts| <= CheckBudget(c, now)
    && (forall j :: 0 <= j < |ts| ==> now <= ts[j] && ts[j] - c.pollStartedAt <= API_FAL_POLL_TIMEOUT_MS)
    && (forall j :: 0 <= j < |ts| - 1 ==> ts[j] + 1500 <= ts[j + 1])
  }

  /** The poll loop keeps to its timing from every round on. */
  lemma {:induction false} PollLoopTiming(s: FalScript, c: PollContext, i: nat, now: int)
    ensures Timely(c, now, PollLoop(s, c, i, now))
    decreases c.pollStartedAt + API_FAL_POLL_TIMEOUT_MS - now
  {
    if now - c.pollStartedAt > API_FAL_POLL_TIMEOUT_MS {
      assert PollLoop(s, c, i, now).calls == [];
    } else if s.status(i).Rejected? {
      var call := StatusCheck(c.statusUrl, now);
      CheckTimesOfSingle(call);
      assert PollLoop(s, c, i, now) == Run(Threw(s.status(i).error), [call]);
      OneCheckTimely(c, now, Run(Threw(s.status(i).error), [call]));
    } else {
      AnsweredTimely(s, c, i, now);
    }
  }

  /** `PollLoopTiming` for a round whose status request is answered before the deadline. */
  lemma {:induction false} AnsweredTimely(s: FalScript, c: PollContext, i: nat, now: int)
    requires now - c.pollStartedAt <= API_FAL_POLL_TIMEOUT_MS && s.status(i).Answered?
    ensures Timely(c, now, PollLoop(s, c, i, now))
    decreases c.pollStartedAt + API_FAL_POLL_TIMEOUT_MS - now, 1
  {
    var call := StatusCheck(c.statusUrl, now);
    var t := now + s.status(i).took;
    match s.status(i).body
    case Unparseable(_) =>
      assert PollLoop(s, c, i, now) == Prepend([call], PollLoop(s, c, i + 1, t + FAL_POLL_INTERVAL_MS));
      NextRound(s, c, i, now, call, t + FAL_POLL_INTERVAL_MS);
    case Parsed(d) =>
      if IsStr(Field(Some(d), "status"), "COMPLETED") {
        var done := OnCompleted(d, s, c.model, c.startTs, t);
        assert PollLoop(s, c, i, now) == Prepend([call], done);
        CompletedTimely(d, s, c, now, t);
      } else if IsStr(Field(Some(d), "status"), "FAILED") {
        var failed := Run(Fail(c.model, t - c.startTs, 502, MSG_FAL_FAILED), [call]);
        assert PollLoop(s, c, i, now) == failed;
        CheckTimesOfSingle(call);
        OneCheckTimely(c, now, failed);
      } else {
        assert PollLoop(s, c, i, now) == Prepend([call], PollLoop(s, c, i + 1, t + FAL_POLL_INTERVAL_MS));
        NextRound(s, c, i, now, call, t + FAL_POLL_INTERVAL_MS);
      }
  }

  /** A `COMPLETED` answer ends the loop after its one timely check. */
  lemma CompletedTimely(d: Json, s: FalScript, c: PollContext, now: int, t: int)
    requires now - c.pollStartedAt <= API_FAL_POLL_TIMEOUT_MS
    ensures Timely(c, now, Prepend([StatusCheck(c.statusUrl, now)], OnCompleted(d, s, c.model, c.startTs, t)))
  {
    var call := StatusCheck(c.statusUrl, now);
    var done := OnCompleted(d, s, c.model, c.startTs, t);
    CheckTimesOfSingle(call);
    OnCompletedChecksNothing(d, s, c.model, c.startTs, t);
    CheckTimesAppend([call], done.calls);
    OneCheckTimely(c, now, Prepend([call], done));
  }

  /** A run that ends after a single check sent in time keeps to the timing. */
  lemma OneCheckTimely(c: PollContext, now: int, r: Run)
    requires now - c.pollStartedAt <= API_FAL_POLL_TIMEOUT_MS && CheckTimes(r.calls) == [now]
    ensures Timely(c, now, r)
  {
    assert 1 <= CheckBudget(c, now);
  }

  /** The inductive step of `PollLoopTiming`: one check in time followed by the loop from `next`. */
  lemma {:induction false} NextRound(s: FalScript, c: PollContext, i: nat, now: int, call: FalCall, next: int)
    requires now - c.pollStartedAt <= API_FAL_POLL_TIMEOUT_MS && next >= now + 1500
    requires call == StatusCheck(c.statusUrl, now)
    ensures Timely(c, now, Prepend([call], PollLoop(s, c, i + 1, next)))
    decreases c.pollStartedAt + API_FAL_POLL_TIMEOUT_MS - now, 0
  {
    PollLoopTiming(s, c, i + 1, next);
    TimelyPrepend(c, now, next, PollLoop(s, c, i + 1, next));
  }

  /** A check at `now`, in time and 1500 ms before a timely run from `next`, keeps to the timing. */
  lemma TimelyPrepend(c: PollContext, now: int, next: int, rest: Run)
    requires now - c.pollStartedAt <= API_FAL_POLL_TIMEOUT_MS && next >= now + 1500
    requires Timely(c, next, rest)
    ensures Timely(c, now, Prepend([StatusCheck(c.statusUrl, now)], rest))
  {
    var call := StatusCheck(c.statusUrl, now);
    CheckTimesOfSingle(call);
    CheckTimesAppend([call], rest.calls);
    var ts' := CheckTimes(rest.calls);
    var ts := CheckTimes(Prepend([call], rest).calls);
    assert ts == [now] + ts';
    if next - c.pollStartedAt <= API_FAL_POLL_TIMEOUT_MS {
      DivStep(c.pollStartedAt + API_FAL_POLL_TIMEOUT_MS - next, c.pollStartedAt + API_FAL_POLL_TIMEOUT_MS - now);
    }
    assert |ts| <= CheckBudget(c, now);
    forall j | 0 <= j < |ts| - 1
      ensures ts[j] + 1500 <= ts[j + 1]
    {
      if j > 0 {
        assert ts[j] == ts'[j - 1] && ts[j + 1] == ts'[j];
      }
    }
  }

  /** `runFalTryOn` of api/_lib/ sends at most 35000 / 1500 + 1 = 24 status requests, none after the deadline. */
  lemma FalTryOnCheckBound(p: ImagePayload, falKey: Option<string>, s: FalScript, startTs: int, now0: int)
    ensures |CheckTimes(FalTryOn(p, falKey, s, startTs, now0).calls)| <= API_FAL_POLL_TIMEOUT_MS / 1500 + 1
  {
    var q := SubmitPhase(p, falKey, s, startTs, now0);
    match q
    case Finished(r) =>
      if r.calls != [] {
        CheckTimesOfSingle(r.calls[0]);
      }
    case Queued(statusUrl, pollStartedAt, calls) =>
      var c := PollContext(p.model, startTs, statusUrl, pollStartedAt);
      PollLoopTiming(s, c, 0, pollStartedAt);
      CheckTimesOfSingle(calls[0]);
      CheckTimesAppend(calls, PollLoop(s, c, 0, pollStartedAt).calls);
  }

  lemma {:induction false} PollLoopFailureStatuses(s: FalScript, c: PollContext, i: nat, now: int)
    ensures var r := PollLoop(s, c, i, now);
      r.outcome.Returned? && r.outcome.result.Failure? ==> r.outcome.result.httpStatus in {502, 503}
    decreases c.pollStartedAt + API_FAL_POLL_TIMEOUT_MS - now
  {
    if now - c.pollStartedAt <= API_FAL_POLL_TIMEOUT_MS && s.status(i).Answered? {
      var t := now + s.status(i).took;
      match s.status(i).body
      case Unparseable(_) => PollLoopFailureStatuses(s, c, i + 1, t + FAL_POLL_INTERVAL_MS);
      case Parsed(d) =>
        if !IsStr(Field(Some(d), "status"), "COMPLETED") && !IsStr(Field(Some(d), "status"), "FAILED") {
          PollLoopFailureStatuses(s, c, i + 1, t + FAL_POLL_INTERVAL_MS);
        }
    }
  }

  /** This driver never reports 408: its failures are 502 or 503 (a timeout included). */
  lemma FalTryOnNever408(p: ImagePayload, falKey: Option<string>, s: FalScript, startTs: int, now0: int)
    ensures var r := FalTryOn(p, falKey, s, startTs, now0);
      r.outcome.Returned? && r.outcome.result.Failure? ==> r.outcome.result.httpStatus in {502, 503}
  {
    var q := SubmitPhase(p, falKey, s, startTs, now0);
    if q.Queued? {
      PollLoopFailureStatuses(s, PollContext(p.model, startTs, q.statusUrl, q.pollStartedAt), 0, q.pollStartedAt);
    }
  }

  /**
   * Taken together with the api/_lib/ router, every failure of this driver, its 35 s timeout
   * included, sends a Fal model's request on to KIE when fallback is on and a KIE key is set.
   */
  lemma FalFailuresQualifyForKieFallback(p: ImagePayload, options: Option<ImageRouter.RouterOptions>, env: ImageRouter.RouterEnv,
                                         startTs: int, s: FalScript, now0: int, kie: ImageRouter.Driver)
    requires GetImageProvider(p.model) == Fal && ImageRouter.FallbackEnabled(options) && IsSet(env.kieApiKey)
    requires FalTryOn(p, env.falKey, s, startTs, now0).outcome.Returned?
    requires FalTryOn(p, env.falKey, s, startTs, now0).outcome.result.Failure?
    ensures var fal := (q: ImagePayload, t: int) => FalTryOn(q, env.falKey, s, t, now0).outcome;
      |ApiImageRouter.GenerateImage(p, options, env, startTs, fal, kie).calls| == 2
  {
    FalTryOnNever408(p, env.falKey, s, startTs, now0);
  }

  /** The driver as it is written: key check, submit, fast path, then the poll loop. */
  method RunFalTryOn(p: ImagePayload, falKey: Option<string>, s: FalScript, startTs: int, now0: int)
    returns (outcome: DriverOutcome, calls: seq<FalCall>)
    ensures Run(outcome, calls) == FalTryOn(p, falKey, s, startTs, now0)
  {
    var model := p.model;
    if !IsSet(falKey) {
      return Fail(model, now0 - startTs, 503, MSG_FAL_UNAVAILABLE), [];
    }
    calls := [Submit(FalUrl(model), FalInput(p))];
    if s.submit.Rejected? {
      return Threw(s.submit.error), calls;
    }
    var now := now0 + s.submit.took;
    if s.submit.body.Unparseable? {
      return Fail(model, now - startTs, 502, MSG_FAL_GENERATE), calls;
    }
    var falData := s.submit.body.json;
    if IsOk(s.submit.status) && Truthy(FirstImageUrl(falData)) {
      return Returned(Success(model, now - startTs, FirstImageUrl(falData).value, None)), calls;
    }
    if !NeedPoll(s.submit.status, falData) {
      return Fail(model, now - startTs, 502, MSG_FAL_GENERATE), calls;
    }
    var statusUrl := Field(Some(falData), "status_url").value;
    var polled;
    outcome, polled := Poll(s, PollContext(model, startTs, statusUrl, now));
    calls := calls + polled;
  }

  /** The `while (true)` loop over the status URL. */
  method Poll(s: FalScript, c: PollContext) returns (outcome: DriverOutcome, calls: seq<FalCall>)
    ensures Run(outcome, calls) == PollLoop(s, c, 0, c.pollStartedAt)
  {
    var now := c.pollStartedAt;
    var i: nat := 0;
    calls := [];
    while true
      invariant PollLoop(s, c, 0, c.pollStartedAt) == Prepend(calls, PollLoop(s, c, i, now))
      decreases c.pollStartedAt + API_FAL_POLL_TIMEOUT_MS - now
    {
      if now - c.pollStartedAt > API_FAL_POLL_TIMEOUT_MS {
        return Fail(c.model, now - c.startTs, 503, MSG_FAL_BUSY), calls;
      }
      var step := PollOnce(s, c, i, now);
      var check := StatusCheck(c.statusUrl, now);
      if step.Done? {
        return step.run.outcome, calls + step.run.calls;
      }
      PrependTwice(calls, [check], PollLoop(s, c, i + 1, step.until));
      calls, now, i := calls + [check], step.until, i + 1;
    }
  }

  /**
   * One round of the loop before the deadline: the status request, then the end of the loop or
   * the 1500 ms wait until the clock reads `until`.
   */
  method PollOnce(s: FalScript, c: PollContext, i: nat, now: int) returns (step: PollStep)
    requires now - c.pollStartedAt <= API_FAL_POLL_TIMEOUT_MS
    ensures step.Done? ==> PollLoop(s, c, i, now) == step.run
    ensures step.Wait? ==> now < step.until
    ensures step.Wait? ==> PollLoop(s, c, i, now) == Prepend([StatusCheck(c.statusUrl, now)], PollLoop(s, c, i + 1, step.until))
  {
    var check := StatusCheck(c.statusUrl, now);
    var statusRes := s.status(i);
    if statusRes.Rejected? {
      return Done(Run(Threw(statusRes.error), [check]));
    }
    var t := now + statusRes.took;
    if statusRes.body.Unparseable? {
      return Wait(t + FAL_POLL_INTERVAL_MS);
    }
    var statusData := statusRes.body.json;
    if IsStr(Field(Some(statusData), "status"), "COMPLETED") {
      var outcome, fetched := HandleCompleted(statusData, s, c.model, c.startTs, t);
      return Done(Run(outcome, [check] + fetched));
    }
    if IsStr(Field(Some(statusData), "status"), "FAILED") {
      return Done(Run(Fail(c.model, t - c.startTs, 502, MSG_FAL_FAILED), [check]));
    }
    return Wait(t + FAL_POLL_INTERVAL_MS);
  }

  /**
   * A check before the deadline answered `COMPLETED` with no image but a `response_url` fetches
   * that URL, and an image in the fetched body ends the run with success after the two requests.
   */
  lemma CompletedFetchesResponseUrl(s: FalScript, c: PollContext, i: nat, now: int, d: Json, took: nat, rj: Json, took2: nat)
    requires now - c.pollStartedAt <= API_FAL_POLL_TIMEOUT_MS
    requires s.status(i).Answered? && s.status(i).body == Parsed(d) && s.status(i).took == took
    requires IsStr(Field(Some(d), "status"), "COMPLETED")
    requires !Truthy(FirstImageUrl(d)) && Truthy(Field(Some(d), "response_url"))
    requires s.result.Answered? && s.result.body == Parsed(rj) && s.result.took == took2
    requires Truthy(FirstImageUrl(rj))
    ensures PollLoop(s, c, i, now) ==
      Run(Returned(Success(c.model, now + took + took2 - c.startTs, FirstImageUrl(rj).value, None)),
          [StatusCheck(c.statusUrl, now), ResultFetch(Field(Some(d), "response_url").value)])
  {
    OnCompletedSpec(d, s, c.model, c.startTs, now + took);
  }
}
