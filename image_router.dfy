/**
 * The image generation router of lib/: choose Fal or KIE by the model's prefix, run that driver
 * and, only when fallback is switched on, try the other family once with a fixed model.
 * The two drivers are parameters; the router's value is the final outcome plus the calls it made.
 */
module ImageRouter {
  import opened Wrappers
  import opened Json
  import opened ProviderAbstraction

  const FAL_FALLBACK_MODEL: string := "fal-ai/image-apps-v2/virtual-try-on"
  const KIE_FALLBACK_MODEL: string := "flux-2/flex-image-to-image"

  /** `options?: { fallbackOnError?: boolean }` */
  datatype RouterOptions = RouterOptions(fallbackOnError: Option<bool>)

  /** The two environment variables the router reads, `process.env.KIE_API_KEY` and `process.env.FAL_KEY`. */
  datatype RouterEnv = RouterEnv(kieApiKey: Option<string>, falKey: Option<string>)

  /** One driver invocation, with the arguments it received. */
  datatype DriverCall = DriverCall(provider: Provider, payload: ImagePayload, startTs: int)

  datatype Routed = Routed(outcome: DriverOutcome, calls: seq<DriverCall>)

  type Driver = (ImagePayload, int) -> DriverOutcome

  /** `options?.fallbackOnError === true` */
  predicate FallbackEnabled(options: Option<RouterOptions>) {
    options.Some? && options.value.fallbackOnError == Some(true)
  }

  /** The model a fallback call to `provider` uses. */
  function FallbackModel(provider: Provider): string {
    match provider
    case Fal => FAL_FALLBACK_MODEL
    case Kie => KIE_FALLBACK_MODEL
  }

  /** Each fixed fallback model belongs to the family it is used for, so a fallback really changes family. */
  lemma FallbackModelsSelectTheirFamily()
    ensures GetImageProvider(FallbackModel(Fal)) == Fal
    ensures GetImageProvider(FallbackModel(Kie)) == Kie
  {
    assert FAL_FALLBACK_MODEL[..|FAL_PREFIX|] == FAL_PREFIX;
    assert KIE_FALLBACK_MODEL[..|FAL_PREFIX|][0] == 'f' && KIE_FALLBACK_MODEL[..|FAL_PREFIX|][1] == 'l';
    assert FAL_PREFIX[1] == 'a';
  }

  /** After a Fal result that is not usable: is KIE tried? (`httpStatus !== 408`, true for a result without `httpStatus`.) */
  predicate FalFallsBack(f: DriverOutcome, options: Option<RouterOptions>, env: RouterEnv) {
    f.Returned? && !UsableSuccess(f.result)
    && FallbackEnabled(options) && IsSet(env.kieApiKey) && HttpStatusField(f.result) != Some(408)
  }

  /** After a KIE result that is not usable: is Fal tried? There is no timeout exemption on this path. */
  predicate KieFallsBack(k: DriverOutcome, options: Option<RouterOptions>, env: RouterEnv) {
    k.Returned? && !UsableSuccess(k.result) && FallbackEnabled(options) && IsSet(env.falKey)
  }

  /** `generateImage(payload, options)` */
  function GenerateImage(payload: ImagePayload, options: Option<RouterOptions>, env: RouterEnv, startTs: int,
                         fal: Driver, kie: Driver): (o: Routed)
    // at most two driver calls; the first one goes to the family the model selects, with the payload unchanged
    ensures 1 <= |o.calls| <= 2
    ensures o.calls[0] == DriverCall(GetImageProvider(payload.model), payload, startTs)
    // a second call goes to the other family, reusing the payload with only the model replaced
    ensures |o.calls| == 2 ==>
      var p := o.calls[1].provider;
      p != o.calls[0].provider && o.calls[1] == DriverCall(p, payload.(model := FallbackModel(p)), startTs)
    // when the primary is Fal: KIE is tried exactly under the non-timeout condition;
    // the KIE result is returned only when usable, otherwise the original Fal result is
    ensures GetImageProvider(payload.model) == Fal ==>
      var f := fal(payload, startTs);
      (|o.calls| == 2 <==> FalFallsBack(f, options, env))
      && (|o.calls| == 1 ==> o.outcome == f)
      && (|o.calls| == 2 ==>
            var k := kie(payload.(model := KIE_FALLBACK_MODEL), startTs);
            o.outcome == if k.Threw? || UsableSuccess(k.result) then k else f)
    // when the primary is KIE: Fal is tried on any non-usable result, and its outcome is final
    ensures GetImageProvider(payload.model) == Kie ==>
      var k := kie(payload, startTs);
      (|o.calls| == 2 <==> KieFallsBack(k, options, env))
      && (|o.calls| == 1 ==> o.outcome == k)
      && (|o.calls| == 2 ==> o.outcome == fal(payload.(model := FAL_FALLBACK_MODEL), startTs))
  {
    var first := DriverCall(GetImageProvider(payload.model), payload, startTs);
    if GetImageProvider(payload.model) == Fal then
      var f := fal(payload, startTs);
      if f.Threw? || UsableSuccess(f.result) then Routed(f, [first])
      else if FallbackEnabled(options) && IsSet(env.kieApiKey) && HttpStatusField(f.result) != Some(408) then
        var kp := payload.(model := KIE_FALLBACK_MODEL);
        var k := kie(kp, startTs);
        var calls := [first, DriverCall(Kie, kp, startTs)];
        if k.Threw? then Routed(k, calls)
        else if UsableSuccess(k.result) then Routed(k, calls)
        else Routed(f, calls)
      else Routed(f, [first])
    else
      var k := kie(payload, startTs);
      if k.Threw? || UsableSuccess(k.result) then Routed(k, [first])
      else if !FallbackEnabled(options) || !IsSet(env.falKey) then Routed(k, [first])
      else
        var fp := payload.(model := FAL_FALLBACK_MODEL);
        Routed(fal(fp, startTs), [first, DriverCall(Fal, fp, startTs)])
  }

  /** With fallback off, exactly one driver call is made and its outcome is returned unchanged. */
  lemma NoFallbackWhenDisabled(payload: ImagePayload, options: Option<RouterOptions>, env: RouterEnv, startTs: int,
                               fal: Driver, kie: Driver)
    requires !FallbackEnabled(options)
    ensures var o := GenerateImage(payload, options, env, startTs, fal, kie);
      |o.calls| == 1
      && o.outcome == (if GetImageProvider(payload.model) == Fal then fal(payload, startTs) else kie(payload, startTs))
  {
  }

  /** A Fal timeout (408) is never duplicated on KIE, whatever the options say. */
  lemma FalTimeoutNeverFallsBack(payload: ImagePayload, options: Option<RouterOptions>, env: RouterEnv, startTs: int,
                                 fal: Driver, kie: Driver)
    requires GetImageProvider(payload.model) == Fal
    requires fal(payload, startTs).Returned? && fal(payload, startTs).result.Failure?
    requires fal(payload, startTs).result.httpStatus == 408
    ensures GenerateImage(payload, options, env, startTs, fal, kie) == Routed(fal(payload, startTs), [DriverCall(Fal, payload, startTs)])
  {
  }
}
