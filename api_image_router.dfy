/**
 * The api/_lib copy of the image router. It tests for a Fal timeout as "the result has an
 * `httpStatus` and it is 408" instead of "`httpStatus !== 408`"; the contract states that the
 * two copies make the same calls and return the same outcome on every input.
 */
module ApiImageRouter {
  import opened Wrappers
  import opened Json
  import opened ProviderAbstraction
  import ImageRouter

  /** `'httpStatus' in falResult && falResult.httpStatus === 408` */
  predicate IsFalTimeout(r: ImageResult) {
    r.Failure? && r.httpStatus == 408
  }

  /** `generateImage(payload, options)` of api/_lib. */
  function GenerateImage(payload: ImagePayload, options: Option<ImageRouter.RouterOptions>, env: ImageRouter.RouterEnv,
                         startTs: int, fal: ImageRouter.Driver, kie: ImageRouter.Driver): (o: ImageRouter.Routed)
    ensures o == ImageRouter.GenerateImage(payload, options, env, startTs, fal, kie)
  {
    var first := ImageRouter.DriverCall(GetImageProvider(payload.model), payload, startTs);
    var enabled := ImageRouter.FallbackEnabled(options);
    if GetImageProvider(payload.model) == Fal then
      var f := fal(payload, startTs);
      if f.Threw? || UsableSuccess(f.result) then ImageRouter.Routed(f, [first])
      else if !(enabled && IsSet(env.kieApiKey) && !IsFalTimeout(f.result)) then ImageRouter.Routed(f, [first])
      else
        var kp := payload.(model := ImageRouter.KIE_FALLBACK_MODEL);
        var k := kie(kp, startTs);
        var calls := [first, ImageRouter.DriverCall(Kie, kp, startTs)];
        if k.Returned? && !UsableSuccess(k.result) then ImageRouter.Routed(f, calls) else ImageRouter.Routed(k, calls)
    else
      var k := kie(payload, startTs);
      if k.Threw? || UsableSuccess(k.result) || !enabled || !IsSet(env.falKey) then ImageRouter.Routed(k, [first])
      else
        var fp := payload.(model := ImageRouter.FAL_FALLBACK_MODEL);
        ImageRouter.Routed(fal(fp, startTs), [first, ImageRouter.DriverCall(Fal, fp, startTs)])
  }
}
