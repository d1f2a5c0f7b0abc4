# tvoiisty generation core, modelled in Dafny

tvoiisty is a virtual try-on app. The user's photo and a garment photo are sent to an image
model, and an optional short video can be made from the result. This project models the parts
of the repository that decide how a generation runs:

- **Provider choice and error shape** (`ProviderAbstraction`). A model under `fal-ai/` goes to
  Fal; every other model goes to KIE. `ImageResult` is either `Success` or `Failure`, never
  both. An error kind maps to an HTTP status, and a message the caller supplies is kept.
- **The two image routers** (`ImageRouter`, `ApiImageRouter`). They call the primary driver
  once, fall back to the other family at most once, and never repeat a Fal timeout on KIE.
- **The provider drivers**:
  - the Fal queue driver of `lib/` (`FalQueue`, `FalImage`): adaptive poll interval, a 55 s
    budget and one last-chance check after it;
  - the Fal driver of `api/_lib/` (`ApiFalImage`): fixed 1.5 s interval, a 35 s budget that
    ends in 503;
  - the KIE driver (`KieImage`): create a task, then at most 60 polls.
- **The serverless endpoints**:
  - `/api/generate-image` (`GenerateImageApi`): validation order, upload of non-https images,
    then the inline Fal or KIE branch;
  - `/api/generate-video` (`GenerateVideoApi`, `VideoUrl`): provider and backup
    configuration, the Veo payload, at most 80 polls, and extraction of the video URL from six
    places in a fixed order;
  - `/api/prepare-tryon-prompt` (`PrepareTryOnPrompt`, `GarmentSchema`, `PromptBuilder`):
    one vision call with one retry on a malformed answer, the garment schema, the prompt
    builder and the default-prompt fallback.
- **The Express backend** (`KieClient`, `BackendImageRoute`, `BackendVideoRoute`). Its KIE
  client reports failures by throwing. The routes map the thrown message to 408, 422 or 500
  by looking for words in it.
- **Client-side stores**:
  - admin settings (`AdminSettings`);
  - the social-network switches (`Socials`);
  - usage counters (`MetricsStorage`);
  - the compressed-image cache with oldest-first eviction (`CompressedUrlStorage`);
  - the history and merchant-product lists with their one-time migration from localStorage
    (`HistoryStorage`, `MerchantProductsStorage`, `ListStore`).

How the outside world is represented:

- **Network.** Every request a component sends is answered by a *script*, a function
  parameter:
  - an `Exchange` is `Answered(status, body, took)` or `Rejected(error)`;
  - a body is `Parsed(json)` or `Unparseable(error)`;
  - `took` advances an abstract clock, the value `Date.now()` would read.
- **Drivers.** Each driver is a recursive specification function that returns the outcome and
  the list of requests sent. A `method` with the source's `while`/`for` loop is proved equal
  to it. The properties are lemmas about the function.
- **Stores.** IndexedDB and localStorage objects are classes whose fields are the stored
  records. Their methods carry `modifies this` and state the record written.
- **Language types.** JSON values are the `Json` datatype. Strings are `seq<char>`.

## Model

| member | source | states |
|---|---|---|
| ProviderAbstraction.GetImageProvider | lib/provider-abstraction.ts:39-42 | Fal exactly when the model starts with `fal-ai/`, KIE exactly when it does not |
| ProviderAbstraction.PromptOrDefault | lib/providers/fal-image.ts:52 | the prompt sent is always truthy; a truthy prompt is kept as it is (also one that is not a string), a falsy or absent one gives the default |
| ProviderAbstraction.MapToHttpError | lib/provider-abstraction.ts:45-59 | timeout 408, client 422, server 502, other 500; a supplied message is kept (also when empty); with none, the kind's non-empty default text |
| ProviderAbstraction.MapToHttpErrorInjective | lib/provider-abstraction.ts:49-58 | two errors with the same status have the same kind |
| ImageRouter.FallbackModelsSelectTheirFamily | lib/generate-image-router.ts:11-12 | the Fal fallback model is routed to Fal and the KIE fallback model to KIE |
| ImageRouter.GenerateImage | lib/generate-image-router.ts:18-68 | one or two driver calls. The first goes to the model's family with the payload unchanged. A second goes to the other family with only the model replaced. Fal primary: KIE is tried iff the Fal result is unusable, fallback is on, a KIE key is set and the status is not 408; then the KIE result is returned only if usable, else the Fal one. KIE primary: Fal is tried iff unusable, fallback on and Fal key set; then Fal's outcome is final |
| ImageRouter.NoFallbackWhenDisabled | lib/generate-image-router.ts:24-56 | with fallback off, exactly one call, whose outcome is returned unchanged |
| ImageRouter.FalTimeoutNeverFallsBack | lib/generate-image-router.ts:31-42 | a Fal 408 is returned as it is, after one call, whatever the options |
| ApiImageRouter.GenerateImage | api/_lib/generate-image-router.ts:19-70 | the serverless router behaves exactly as the lib router on every input |
| FalQueue.FirstImageUrl | lib/providers/fal-image.ts:28-30 | the top-level `images[0].url` unless it is absent or null, then `data.images[0].url`; `[0]` is an array's first element or an object's property `"0"` |
| FalQueue.FirstImageUrlReadsKeyZero | lib/providers/fal-image.ts:28-30 | an `images` object with a property `"0"` holding a URL yields that URL |
| FalQueue.FirstImageUrlPrefersTopLevel | lib/providers/fal-image.ts:28-30 | when both shapes carry a URL the top-level one is taken |
| FalQueue.FirstImageUrlUsesNested | lib/providers/fal-image.ts:28-30 | with no top-level list the nested URL is taken |
| FalQueue.FalInput | lib/providers/fal-image.ts:49-59 | nano-banana gets the prompt (defaulted) and both image URLs; every other model gets the person/clothing pair and `preserve_pose` |
| FalQueue.SubmitPhase | lib/providers/fal-image.ts:36-108 | no key: 503 with no request. Otherwise the submit to the model's queue URL is the first request. Polling starts exactly on a parsed answer outside the fast path that asks for it, at the clock after the submit, with a truthy status URL. Otherwise success iff the fast path had an image, else 502 |
| FalQueue.ImageOr | lib/providers/fal-image.ts:197-209 | success exactly for a truthy URL, which it carries; otherwise the given failure |
| FalQueue.OnCompleted | lib/providers/fal-image.ts:177-210 | an image in the status body succeeds with no request; the only request is the `response_url` fetch when there is no image; every failure is 502 |
| FalQueue.OnCompletedSpec | lib/providers/fal-image.ts:177-210 | every `COMPLETED` case: the status body's image succeeds with no request; with no image and a truthy `response_url` exactly that URL is fetched, and a rejection throws, an unparseable body is 502 with the result message, a parsed body's truthy image succeeds and no image is 502; with neither, 502 and no request |
| FalQueue.HandleCompleted | lib/providers/fal-image.ts:177-210 | the imperative `COMPLETED` branch computes `OnCompleted` |
| FalImage.CalcFalIntervalMs | lib/providers/fal-image.ts:11-15 | 700 ms below 15 s, 1500 ms below 60 s, 4000 ms after |
| FalImage.CalcFalIntervalMonotone | lib/providers/fal-image.ts:11-15 | the interval never shrinks with elapsed time and stays in 700..4000 ms |
| FalImage.LastChance | lib/providers/fal-image.ts:114-163 | exactly one status check, at the deadline clock; success only on a parsed `COMPLETED` answer; failures are 408 or 502 with the duration read before the request |
| FalImage.LastChanceSpec | lib/providers/fal-image.ts:114-163 | every case of the last check, timed before it: a `COMPLETED` body's truthy image succeeds; with no image and a truthy `response_url` that URL is fetched, and its truthy image succeeds, an unparseable body is 502 and no image is 408; a rejection throws; every other answer is 408 after the one check |
| FalImage.CompletedFetchesResponseUrl | lib/providers/fal-image.ts:165-199 | a check before the deadline answered `COMPLETED` without an image fetches `response_url`, and the fetched image ends the run with success after those two requests |
| ApiFalImage.CompletedFetchesResponseUrl | api/_lib/providers/fal-image.ts:119-164 | the same for the serverless driver, before its 35 s deadline |
| FalImage.PollLoopTiming | lib/providers/fal-image.ts:113-226 | the first check is at the start. Every check but the last is within 55 s of the polling start. Consecutive checks are at least 700 ms apart. Their number is within the budget. A 408 comes only from a check past the deadline |
| FalImage.FalTryOnCheckBound | lib/providers/fal-image.ts:110-226 | a whole run sends at most 55000/700 + 2 = 80 status checks |
| FalImage.PollLoopFailureStatuses | lib/providers/fal-image.ts:165-221 | the poll loop fails only with 408 or 502 |
| FalImage.FalTryOnFailureStatuses | lib/providers/fal-image.ts:32-227 | every failure is 408, 502 or 503; 503 exactly when the key is missing, and then nothing is sent |
| FalImage.OnCompletedChecksNothing | lib/providers/fal-image.ts:177-210 | the `COMPLETED` branch sends no further status check |
| FalImage.LastChanceRescuesStraggler | lib/providers/fal-image.ts:132-154 | a job completed with an image just after the deadline is returned as a success after one final check |
| FalImage.QueuedSubmitPolls | lib/providers/fal-image.ts:95-112 | a submit answered `IN_QUEUE` with a status URL sends only the submit, then polls that URL from the clock reading after it |
| FalImage.ProcessingThenCompleted | lib/providers/fal-image.ts:113-200 | `PROCESSING`, then `COMPLETED` with image X: success with X after two checks, the second 700 ms after the first is back |
| FalImage.RunFalTryOn | lib/providers/fal-image.ts:32-112 | the imperative driver computes `FalTryOn` |
| FalImage.Poll | lib/providers/fal-image.ts:113-226 | the `while (true)` loop computes `PollLoop` from the polling start |
| FalImage.PollOnce | lib/providers/fal-image.ts:165-225 | one round before the deadline sends one status check. A finished round is the loop's result. A waiting round continues the loop from its later clock reading |
| FalImage.FinalCheck | lib/providers/fal-image.ts:114-163 | the imperative last-chance check computes `LastChance` |
| ApiFalImage.PollLoopTiming | api/_lib/providers/fal-image.ts:107-178 | every check is within 35 s of the polling start, none after the deadline; checks are at least 1500 ms apart; their number is within the budget |
| ApiFalImage.FalTryOnCheckBound | api/_lib/providers/fal-image.ts:104-178 | a whole run sends at most 35000/1500 + 1 = 24 status checks |
| ApiFalImage.PollLoopFailureStatuses | api/_lib/providers/fal-image.ts:107-178 | the poll loop fails only with 502 or 503 |
| ApiFalImage.OnCompletedChecksNothing | api/_lib/providers/fal-image.ts:146-163 | the `COMPLETED` branch sends no further status check |
| ApiFalImage.FalTryOnNever408 | api/_lib/providers/fal-image.ts:26-179 | this driver never reports 408: every failure is 502 or 503, its 35 s timeout being the 503 "busy" answer |
| ApiFalImage.FalFailuresQualifyForKieFallback | api/_lib/generate-image-router.ts:32-39 | with fallback on and a KIE key set, every failure of this Fal driver makes the serverless router call KIE |
| ApiFalImage.RunFalTryOn | api/_lib/providers/fal-image.ts:26-106 | the imperative driver computes `FalTryOn` |
| ApiFalImage.Poll | api/_lib/providers/fal-image.ts:107-178 | the `while (true)` loop computes `PollLoop` |
| ApiFalImage.PollOnce | api/_lib/providers/fal-image.ts:119-177 | one round before the deadline sends one status check. A finished round is the loop's result. A waiting round continues the loop from its later clock reading |
| KieImage.KieBase | api/_lib/providers/kie-image.ts:30 | a set base URL loses its trailing slash; otherwise the default base |
| KieImage.KieInput | api/_lib/providers/kie-image.ts:31-44 | both image URLs and the defaulted prompt always. `gpt-image/1.5` gets 2:3 and medium quality, with exactly those keys. Every other model gets 9:16 at 1K |
| KieImage.FailMessageSpec | api/_lib/providers/kie-image.ts:174-175 | a non-blank `failMsg` is shown trimmed; a missing or null one gives the generic text. The driver's policy shows any string trimmed; the handler's never shows an empty one |
| KieImage.PoliciesAgreeOnNonBlank | api/generate-image.ts:399-402 | for a non-blank message the driver and the handler show the same trimmed text |
| KieImage.PoliciesDifferOnBlank | api/generate-image.ts:399-402 | for a blank message the driver shows `''` and the handler shows the generic text |
| KieImage.PoliciesDifferOnFalsyNonString | api/_lib/providers/kie-image.ts:174-175 | for `0` or `false` the driver's `trim` throws a TypeError and the handler shows the generic text |
| KieImage.ResultImageUrl | api/_lib/providers/kie-image.ts:141-150 | a URL is found only in a string `resultJson` that parses, and it is `resultUrls[0]`. Conversely: no URL for a `resultJson` that is not a string or does not parse, and for a parsed one the URL is `resultUrls[0]` when that is an array and none otherwise |
| KieImage.SuccessTerminal | api/_lib/providers/kie-image.ts:139-170 | a `success` state is terminal. It answers 200 with the model, the elapsed time, the URL and the credits exactly when the first result URL is truthy, and 500 with the server message otherwise |
| KieImage.SuccessAnswerEndsLoop | api/_lib/providers/kie-image.ts:126-170 | a poll answered `success` with a parsed `resultUrls` of one non-empty URL ends the loop after that single record request, with a 200 carrying that URL |
| KieImage.PollLoopSuccessCarriesUrl | api/_lib/providers/kie-image.ts:126-188 | whatever the answers, a success outcome carries a truthy URL, the task's model and credits, and that URL is the result URL of some poll answered `success` within the 60 attempts |
| KieImage.CreatePhase | api/_lib/providers/kie-image.ts:17-109 | no key: 500 with no request. Otherwise the create request comes first. Polling starts exactly on an OK parsed non-null answer with code absent or 200 and a truthy task id; it carries that task id and `creditsUsed`. Every other finished outcome is a 502 |
| KieImage.PollLoopBound | api/_lib/providers/kie-image.ts:111-201 | the loop sends at most 60 polls, all record-info requests for the task. Every result carries the task's `creditsUsed`. A 408 comes only after all 60 polls |
| KieImage.KieTryOnBounds | api/_lib/providers/kie-image.ts:74-201 | a run sends at most 60 polls, and its result carries the create answer's `creditsUsed` |
| KieImage.PollLoopFailureStatuses | api/_lib/providers/kie-image.ts:111-201 | the loop fails only with 408, 422, 500 or 502 |
| KieImage.InternalErrorIsRewritten | api/_lib/providers/kie-image.ts:172-188 | a `fail` state whose message mentions the internal-error text is answered 422 with the reduce-the-photo advice after one poll |
| KieImage.InternalErrorTextQualifies | api/_lib/providers/kie-image.ts:176 | the internal-error text itself is non-empty, trimmed and matches the test |
| KieImage.PollLoopAtTerminal | api/_lib/providers/kie-image.ts:126-188 | a `success` or `fail` answer ends the loop with its outcome after that one poll |
| KieImage.FailTerminal | api/_lib/providers/kie-image.ts:172-188 | a `fail` state is terminal and answers 422 with the shown message |
| KieImage.RunKieTryOn | api/_lib/providers/kie-image.ts:12-110 | the imperative driver computes `KieTryOn` |
| KieImage.Poll | api/_lib/providers/kie-image.ts:111-201 | the `for` loop computes `PollLoop` from attempt 0 |
| KieImage.PollLoopExhausted | api/_lib/providers/kie-image.ts:193-201 | after 60 attempts the answer is 408 with the timeout text and no request |
| KieImage.PollOnce | api/_lib/providers/kie-image.ts:112-190 | one iteration sends one record-info request; a finished step is the loop's result, a waiting step continues the loop |
| KieImage.Finish | api/_lib/providers/kie-image.ts:139-188 | the terminal branches compute `Terminal` |
| KieImage.FinishFailed | api/_lib/providers/kie-image.ts:172-188 | the `fail` branch computes `FailOutcome` |
| GenerateImageApi.ResolveImageModel | api/generate-image.ts:45-48 | a string body model from the eight-model list is kept; anything else gives `KIE_IMAGE_MODEL` or the default. The result is a listed model or the configured one |
| GenerateImageApi.PoolsAgreeWithProvider | api/generate-image.ts:22-43 | within the list, the Fal pool is exactly the models `getImageProvider` sends to Fal |
| GenerateImageApi.PrepareImage | api/generate-image.ts:55-62 | an https value is kept. A `data:` value without a comma is invalid. A data URL is uploaded with the text after its first comma; any other value is uploaded as it is |
| GenerateImageApi.Reply | api/generate-image.ts:380-424 | a success is 200 with the URL; a failure keeps its status and message; a throw is 500 with the generic text |
| GenerateImageApi.ValidationOrder | api/generate-image.ts:76-133 | 405, then 500 without a KIE key, then 400 unless both images are truthy, then 500 when the upload test calls `startsWith` on a value that is not a string, then 503 when an upload is needed without a blob token. A rejected request sends nothing; an accepted one runs the provider branch on the https URLs |
| GenerateImageApi.NonStringImageFails | api/generate-image.ts:107-133 | a truthy image that is not a string sends no provider request: 500 where the upload test calls its `startsWith`, else 502 from `ensureHttpsUrl` with a Blob token and 503 without |
| GenerateImageApi.HttpsImagesSkipUpload | api/generate-image.ts:113-127 | two https images need no upload and are used as given |
| GenerateImageApi.BranchFollowsModel | api/generate-image.ts:136-141 | a Fal model sends no KIE request and a KIE model no Fal request; a Fal model without a Fal key is 503 |
| GenerateImageApi.FalBranchNever408 | api/generate-image.ts:211-215 | the Fal branch answers only 200, 500, 502 or 503 |
| GenerateImageApi.KieBranchBounds | api/generate-image.ts:332-416 | the KIE branch sends at most 60 polls and answers 200, 408, 422, 500 or 502 |
| GenerateImageApi.HandleStatuses | api/generate-image.ts:72-425 | the handler answers only 200, 400, 405, 408, 422, 500, 502 or 503 |
| GenerateImageApi.HandleRequest | api/generate-image.ts:72-425 | the imperative handler computes `Handle` |
| VideoUrl.Target | api/generate-video.ts:61-63 | the searched object is `data.data` when that is a searchable object, else `data` |
| VideoUrl.FirstHitSpec | api/generate-video.ts:65-79 | nothing is found exactly when no place qualifies; otherwise the value of the earliest qualifying place |
| VideoUrl.FirstHitAt | api/generate-video.ts:65-79 | when place i is the first that qualifies, its value is returned |
| GenerateVideoApi.ProviderOf | api/generate-video.ts:87 | the backup provider exactly when `body.provider` is the string `backup` |
| GenerateVideoApi.GetKieConfig | api/generate-video.ts:16-26 | the backup base (slash stripped) and key only when the backup is asked for and both are set; otherwise the KIE base and key |
| GenerateVideoApi.DefaultIgnoresBackup | api/generate-video.ts:22-25 | the default provider's configuration does not depend on the backup variables |
| GenerateVideoApi.ExtractVideoUrlOrder | api/generate-video.ts:59-80 | a non-object gives nothing; otherwise the value of the earliest of six places that qualifies, and nothing only when none does |
| GenerateVideoApi.GenerateBody | api/generate-video.ts:108-113 | always `veo3` at 9:16 with the one image; a truthy prompt is kept, else the default |
| GenerateVideoApi.VerdictSpec | api/generate-video.ts:151-163 | a poll decides exactly on a success or failure flag. Success with a truthy URL is 200 with that URL. A failure flag is 422. Otherwise 500 |
| GenerateVideoApi.PollLoopBound | api/generate-video.ts:135-170 | at most 80 polls, all for the task. A 408 comes only after all of them. Answers are 200, 408, 422, 500 or 502, and a 200 carries a video URL |
| GenerateVideoApi.UnparseablePollsTimeOut | api/generate-video.ts:140-145 | polls whose bodies never parse are skipped until the 408 after all 80 |
| GenerateVideoApi.HandleBounds | api/generate-video.ts:82-175 | answers 200, 400, 405, 408, 422, 500 or 502 after at most 81 requests; a non-POST is 405 with no request |
| GenerateVideoApi.CreateThenPollBounds | api/generate-video.ts:102-170 | the generate request comes first, then at most 80 polls |
| GenerateVideoApi.HandleRequest | api/generate-video.ts:82-175 | the imperative handler computes `Handle` |
| GenerateVideoApi.Poll | api/generate-video.ts:135-170 | the `for` loop computes `PollLoop` |
| GenerateVideoApi.PollOnce | api/generate-video.ts:136-165 | one round sends one `record-info` request; a response it returns is the loop's result, otherwise the loop goes on |
| GenerateVideoApi.PollLoopExhausted | api/generate-video.ts:168-170 | after 80 attempts the answer is 408 with no request |
| KieClient.MessageOr | backend/kieClient.ts:41 | a falsy message gives the fallback text; a truthy string message is used as it is |
| KieClient.ImageTaskBody | backend/kieClient.ts:32-38 | always model `flux2` with exactly the two images; a falsy prompt gives the default |
| KieClient.VideoTaskBody | backend/kieClient.ts:100-105 | always `veo3` at 9:16 with the one image; a falsy prompt gives the default |
| KieClient.VideoPayloadsAgree | backend/kieClient.ts:100-105 | with a prompt, the backend sends the same Veo payload as the serverless endpoint |
| KieClient.CreateTask | backend/kieClient.ts:24-45 | one create request; a task id exactly when the answer parses, is OK and has a truthy `data.taskId`, which is the id returned |
| KieClient.ExtractVideoUrlOrder | backend/kieClient.ts:121-139 | the URL is the value of the earliest of five places that qualifies |
| KieClient.ExtractVideoUrlsAgreeOnFirstThree | backend/kieClient.ts:121-134 | when one of the first three places qualifies, the backend and serverless extractions agree |
| KieClient.ExtractVideoUrlsDiffer | backend/kieClient.ts:135-137 | a URL given only as `response.resultUrls[0]` is found by the serverless endpoint and missed by the backend |
| KieClient.PollImageBound | backend/kieClient.ts:48-77 | at most 60 polls, all to the same URL for the task; when every answer keeps the loop going, the timeout message after all 60 |
| KieClient.PollVideoBound | backend/kieClient.ts:142-162 | the same for video, with 80 polls |
| KieClient.ImageUrlResultAgreesWithDriver | backend/kieClient.ts:57-68 | the client reads the same URL as the serverless driver's `resultUrls[0]`, returns it exactly when it is truthy and throws the "no URL" message otherwise |
| KieClient.ImageStepSpec | backend/kieClient.ts:55-72 | the loop goes on exactly when the state is neither `success` nor `fail`; `success` gives the truthy first URL or the "no URL" message; `fail` always throws, with a non-empty string `failMsg` as it is or the generic message when it is falsy |
| KieClient.VideoStepSpec | backend/kieClient.ts:149-157 | the loop goes on exactly when the flag is none of 1, 2, 3, `'1'`, `'2'`, `'3'`; flag 1 gives the truthy video URL or the "no URL" message; flags 2 and 3 give the failure message |
| KieClient.PollImageStopsAt | backend/kieClient.ts:48-77 | when polls `i` to `j - 1` keep the loop going and poll `j` ends it, the result is poll `j`'s, after `j - i + 1` requests |
| KieClient.PollVideoStopsAt | backend/kieClient.ts:142-162 | the same for the video loop |
| KieClient.PollImageOkIsTruthy | backend/kieClient.ts:48-77 | whatever the answers, an image URL the loop returns is truthy |
| KieClient.PollVideoOkIsTruthy | backend/kieClient.ts:142-162 | whatever the answers, a video URL the loop returns is truthy |
| KieClient.UnparseablePollThrows | backend/kieClient.ts:52 | a poll body that is not JSON ends the loop with the parse error at once |
| KieClient.GenerateImageTryOnBound | backend/kieClient.ts:82-89 | the create request first, then at most 60 polls; the timeout when the task is created and no poll ends the loop |
| KieClient.GenerateVideoBound | backend/kieClient.ts:167-170 | the create request first, then at most 80 polls; the timeout when the task is created and no poll ends the loop |
| KieClient.RunGenerateImageTryOn | backend/kieClient.ts:82-89 | the imperative try-on computes `GenerateImageTryOn` |
| KieClient.RunPollImage | backend/kieClient.ts:48-77 | the `for` loop computes `PollImage` |
| KieClient.PollImageOnce | backend/kieClient.ts:51-74 | one round sends one record request; a result it returns is the loop's result, otherwise the loop goes on |
| KieClient.PollImageExhausted | backend/kieClient.ts:76 | after 60 attempts the timeout message, with no request |
| KieClient.RunGenerateVideoFromImage | backend/kieClient.ts:167-170 | the imperative video call computes `GenerateVideoFromImage` |
| KieClient.RunPollVideo | backend/kieClient.ts:142-162 | the `for` loop computes `PollVideo` |
| KieClient.PollVideoOnce | backend/kieClient.ts:145-159 | one round sends one record request; a result it returns is the loop's result, otherwise the loop goes on |
| KieClient.PollVideoExhausted | backend/kieClient.ts:161 | after 80 attempts the video timeout message, with no request |
| BackendImageRoute.PoolIsKiePool | backend/routes/generateImage.ts:8-15 | the backend pool is the serverless KIE pool and holds no Fal model |
| BackendImageRoute.ResolveImageModel | backend/routes/generateImage.ts:17-21 | a string model in the six-entry pool is kept, anything else gives the configured or default model |
| BackendImageRoute.FalModelIsNotHonoured | backend/routes/generateImage.ts:17-21 | a Fal model is replaced by the default here and kept by the serverless endpoint |
| BackendImageRoute.StatusOf | backend/routes/generateImage.ts:36-44 | 408 exactly when the timeout words occur; otherwise 422 exactly when a failure word occurs; otherwise 500 |
| BackendImageRoute.TimeoutTakesPrecedence | backend/routes/generateImage.ts:38-41 | the timeout words give 408 wherever they stand |
| BackendImageRoute.ClientTimeoutsAre408 | backend/routes/generateImage.ts:38-39 | both client timeout messages are answered 408 |
| BackendImageRoute.ImageFailureIs422 | backend/routes/generateImage.ts:40-41 | the client's image failure message is answered 422 |
| BackendImageRoute.VideoFailureIs422 | backend/routes/generateVideo.ts:24-25 | the client's video failure message is answered 422 |
| BackendImageRoute.MissingUrlsAre500 | backend/routes/generateImage.ts:42-44 | a success without a URL is answered 500 |
| BackendImageRoute.Handle | backend/routes/generateImage.ts:23-46 | without both images, 400 with no request; every answer is 200, 400, 408, 422 or 500 |
| BackendImageRoute.ModelIsIgnored | backend/routes/generateImage.ts:26-34 | the body's model changes nothing the route does |
| BackendImageRoute.PollTimeoutIs408 | backend/routes/generateImage.ts:33-39 | a created task that no poll ends is answered 408 with the client's timeout message, after at most 61 requests |
| BackendVideoRoute.Handle | backend/routes/generateVideo.ts:8-30 | without a non-empty string `imageUrl`, 400 with no request; answers are 200, 400, 408, 422 or 500, and a 200 carries a video URL |
| BackendVideoRoute.PollTimeoutIs408 | backend/routes/generateVideo.ts:17-23 | a created Veo task that no poll ends is answered 408 with the video timeout message |
| BackendVideoRoute.FailedVideoIs422 | backend/routes/generateVideo.ts:17-25 | a created Veo task whose first `j` polls keep the loop going and whose next poll has flag 2, 3, `'2'` or `'3'` is answered 422 with the video failure message, after `j + 2` requests |
| BackendVideoRoute.FinishedVideoIs200 | backend/routes/generateVideo.ts:17-19 | a created Veo task whose first ending poll has flag 1 and a truthy video URL is answered 200 with that URL, after `j + 2` requests |
| BackendImageRoute.FinishedTaskIs200 | backend/routes/generateImage.ts:33-35 | a created task whose first ending poll is `success` with a truthy first result URL is answered 200 with that URL, after `j + 2` requests |
| GarmentSchema.TryParseGarmentDescription | lib/ai/garment-schema.ts:8-28 | a description exactly when the schema accepts the value, with each of the eight fields taken from it |
| GarmentSchema.ParseToJson | lib/ai/garment-schema.ts:25-28 | a complete description survives JSON and parsing unchanged |
| GarmentSchema.ParsedIsRestriction | lib/ai/garment-schema.ts:25-28 | what parsing accepts is complete, and it is the input without the keys outside the schema |
| GarmentSchema.AcceptedFields | lib/ai/garment-schema.ts:9-16 | an accepted value passes each of the eight field checks |
| GarmentSchema.MissingFieldRejected | lib/ai/garment-schema.ts:8-17 | a value missing any schema field is refused |
| GarmentSchema.BadFieldRejected | lib/ai/garment-schema.ts:9-16 | a schema field holding `''` or a non-string is refused |
| GarmentSchema.WhitespaceAccepted | lib/ai/garment-schema.ts:9-16 | the length check does not trim: single spaces pass |
| PromptBuilder.FindScene | lib/ai/prompt-builder.ts:7-8 | nothing exactly when no scene has the id; otherwise the first scene with that id |
| PromptBuilder.ChosenSceneSpec | lib/ai/prompt-builder.ts:6-8 | the scene used is in the table: the named one when it exists, otherwise `minimal` |
| PromptBuilder.EveryTypeHasScene | lib/ai/scenes.config.ts:1-43 | every `SceneType` has its own entry, so the fallback never fires for one |
| PromptBuilder.UnknownSceneFallsBack | lib/ai/prompt-builder.ts:8 | an unknown id gives the prompt of the default call |
| PromptBuilder.MoodsEndWithStop | lib/ai/scenes.config.ts:10-43 | every mood ends with a full stop |
| PromptBuilder.ComposeSpec | lib/ai/prompt-builder.ts:9 | the trim changes nothing; the text starts with the base and holds the background and the mood |
| PromptBuilder.BuildPromptSpec | lib/ai/prompt-builder.ts:6-10 | the prompt is the base prompt, the chosen scene's background and its mood, untouched by the trim |
| PromptBuilder.DefaultIsMinimal | lib/ai/prompt-builder.ts:6 | without an argument the `minimal` scene is used |
| PrepareTryOnPrompt.ToDataUrl | api/prepare-tryon-prompt.ts:21-24 | the result is a data URL ending in the input; the input is returned exactly when it already is one |
| PrepareTryOnPrompt.ToDataUrlIdempotent | api/prepare-tryon-prompt.ts:21-24 | applying it twice is applying it once |
| Json.Index0 | api/prepare-tryon-prompt.ts:64 | `?.[0]` is an array's first element or an object's property `"0"` |
| PrepareTryOnPrompt.Content | api/prepare-tryon-prompt.ts:63-65 | success exactly for a non-null body whose content is a non-blank string; the text is trimmed and non-empty |
| PrepareTryOnPrompt.Completion | api/prepare-tryon-prompt.ts:58-65 | content comes only from an OK parsed answer, trimmed and non-empty |
| PrepareTryOnPrompt.CallVision | api/prepare-tryon-prompt.ts:26-73 | a non-string image throws. Otherwise the completion's error, or its content parsed as JSON, or the content as a string when it does not parse |
| PrepareTryOnPrompt.CallPromptBuilder | api/prepare-tryon-prompt.ts:75-108 | the builder's trimmed, non-empty content or its error |
| PrepareTryOnPrompt.ValidationOrder | api/prepare-tryon-prompt.ts:114-128 | 405, then 400 without an image, then 500 without the OpenAI key; no answer other than 200 sends a request |
| PrepareTryOnPrompt.BuildStepSpec | api/prepare-tryon-prompt.ts:165-178 | 200 with a non-empty prompt and the description; a failing builder gives the default prompt with the description |
| PrepareTryOnPrompt.RetrySpec | api/prepare-tryon-prompt.ts:149-163 | the retry ends in a good 200 as well |
| PrepareTryOnPrompt.VisionStepsSpec | api/prepare-tryon-prompt.ts:130-178 | past validation, every answer is a 200 with a non-empty prompt: at most two vision requests, then at most one builder request, with a validated description |
| PrepareTryOnPrompt.HandleSpec | api/prepare-tryon-prompt.ts:110-179 | answers are 200, 400, 405 or 500; every 200 is good; every other answer sends nothing |
| PrepareTryOnPrompt.FirstVisionFailureIsFinal | api/prepare-tryon-prompt.ts:141-147 | a failed first vision call gives the default prompt at once, with no retry |
| PrepareTryOnPrompt.MalformedIsRetried | api/prepare-tryon-prompt.ts:149-154 | a malformed first description sends the same vision request again |
| PrepareTryOnPrompt.RetryFailureIsFinal | api/prepare-tryon-prompt.ts:155-162 | a failed or malformed retry gives the default prompt with no further request |
| PrepareTryOnPrompt.BuilderFailureKeepsGarment | api/prepare-tryon-prompt.ts:173-176 | a failing builder still answers 200, with the default prompt and the validated description |
| PrepareTryOnPrompt.RunHandle | api/prepare-tryon-prompt.ts:110-179 | the imperative handler computes `Handle`, and every 200 it gives is good |
| AdminSettings.Overlay | services/adminSettings.ts:36-38 | a stored property replaces the default; a missing one keeps it |
| AdminSettings.MergeOfDescribed | services/adminSettings.ts:36-51 | merging a value that holds all the settings' fields gives those settings |
| AdminSettings.ToJsonDescribes | services/adminSettings.ts:59 | what is written holds every field of the settings written |
| AdminSettings.MergeOfSaved | services/adminSettings.ts:31-63 | reading back what was saved gives the same settings, whatever the defaults |
| AdminSettings.SaveThenLoad | services/adminSettings.ts:31-63 | `getAdminSettings` after `setAdminSettings(s)` gives `s` |
| AdminSettings.NonObjectGivesDefaults | services/adminSettings.ts:31-55 | nothing stored, `null` and any value that is not an object give the defaults |
| AdminSettings.NonObjectKeepsDefaults | services/adminSettings.ts:36-51 | over a non-object each field falls back: to the default, a mode to `default`, a custom text to `''` |
| AdminSettings.DefaultsUsePools | services/adminSettings.ts:13-29 | the default lists are the whole pools, and the default texts are the built-in prompts |
| AdminSettings.NormalisedFields | services/adminSettings.ts:36-51 | a non-array list gives the default list. A mode is openai or custom exactly when stored so. A non-string text gives its default or `''`. Any other field stored replaces the default as it is |
| AdminSettings.ModelsForDropdown | services/adminSettings.ts:65-76 | empty exactly in `default_only`; otherwise the stored list, or the whole pool when that is empty |
| AdminSettings.ShownDropdownIsNotEmpty | services/adminSettings.ts:65-81 | when the dropdown is shown its list is never empty |
| AdminSettings.PoolModel | services/adminSettings.ts:88-111 | always a pool model: the stored one when it is in the pool, otherwise the fallback position |
| AdminSettings.ModelsAreInPools | services/adminSettings.ts:88-111 | default and backup models are always pool models; with the defaults, the first and second of each pool |
| AdminSettings.ImagePoolIsAllImageModels | services/geminiService.ts:9-18 | the settings' image pool is the serverless endpoint's list of all image models |
| AdminSettings.EffectiveImagePrompt | services/adminSettings.ts:113-119 | custom mode with a non-blank text gives it trimmed. Openai mode gives the delegate's prompt. Otherwise the non-blank default text trimmed, or the built-in prompt. Outside openai mode the result is trimmed and non-empty |
| AdminSettings.EffectiveVideoPrompt | services/adminSettings.ts:121-128 | `undefined` exactly in openai mode; otherwise a trimmed, non-empty text, the custom one in custom mode when it is not blank |
| AdminSettings.BuiltInPromptsAreTrimmed | services/adminSettings.ts:11 | both built-in prompts are non-empty and trimmed |
| AdminSettings.TrimmedOrSpec | services/adminSettings.ts:118 | with a built-in fallback, the chosen text is trimmed and non-empty |
| AdminSettings.SettingsStorage.SetAdminSettings | services/adminSettings.ts:57-63 | a successful write stores the settings' JSON; a failed write changes nothing |
| Socials.PlatformIdsSpec | services/socials.ts:24-88 | the platform ids are exactly the nine ids of `SocialPlatformId` |
| Socials.DefaultsOf | services/socials.ts:90-94 | the defaults have one key per platform |
| Socials.BuildDefaults | services/socials.ts:90-94 | the `reduce` loop builds the default map |
| Socials.CreateDefaultSocialConnections | services/socials.ts:90-94 | one key per platform, Telegram on and every other platform off |
| Socials.MergeStored | services/socials.ts:103-107 | the merge loop builds the merged map |
| Socials.LoadSocialConnections | services/socials.ts:96-112 | the merged map, whose keys are exactly the platform ids |
| Socials.NothingStoredGivesDefaults | services/socials.ts:97-100 | nothing stored, or a stored non-object, gives the defaults |
| Socials.MergedSpec | services/socials.ts:101-107 | unknown keys are dropped; a stored boolean wins; anything else keeps the default |
| Socials.LoadAfterSave | services/socials.ts:114-121 | loading after saving a full map gives that map back |
| MetricsStorage.Fresh | services/metricsStorage.ts:20-29 | every counter 0, `firstLaunchAt` the clock reading |
| MetricsStorage.ReadSpec | services/metricsStorage.ts:52-56 | every stored property is kept over zero. A missing counter reads 0, and a falsy `firstLaunchAt` reads 0. Nothing stored gives fresh counters |
| MetricsStorage.BumpSpec | services/metricsStorage.ts:82-88 | the key goes up by delta and every other property is unchanged; `firstLaunchAt` becomes the clock reading only when it was 0 |
| MetricsStorage.Increment | services/metricsStorage.ts:84-85 | the two assignments between read and write compute `Bump`, whose effect `BumpSpec` states |
| MetricsStorage.ReadOfWritten | services/metricsStorage.ts:42-60 | a full record with a non-zero `firstLaunchAt` reads back unchanged |
| MetricsStorage.BumpReadsBack | services/metricsStorage.ts:82-88 | what an increment writes reads back unchanged |
| MetricsStorage.MetricsDb.GetMetrics | services/metricsStorage.ts:75-77 | the read, or fresh counters when the store fails; every counter key is present |
| MetricsStorage.MetricsDb.IncrementMetric | services/metricsStorage.ts:82-88 | a successful write stores the bumped read (delta 1 by default); a failed one changes nothing |
| MetricsStorage.MetricsDb.ResetMetrics | services/metricsStorage.ts:91-95 | stores and returns fresh counters; a failed write changes nothing |
| CompressedUrlStorage.UrlCache.Get | services/compressedUrlStorage.ts:29-44 | a data URL exactly when the store opens and holds the URL, and it is the stored one, whose key path `url` is the URL asked for |
| CompressedUrlStorage.UrlCache.EvictIfNeeded | services/compressedUrlStorage.ts:64-87 | nothing at 100 entries or fewer. Otherwise exactly 100 are left, none changed, and nothing removed is newer than anything kept; every entry stays under its own `url` |
| CompressedUrlStorage.UrlCache.SaveCompressedByUrl | services/compressedUrlStorage.ts:47-62 | puts the entry under its URL, then evicts, leaving at most 100 entries from the put; none removed is newer than one kept, and exactly 100 remain when the put overflows. Nothing is removed when the put fits. The saved URL survives when it is the newest. A closed store changes nothing |
| CompressedUrlStorage.OldestExists | services/compressedUrlStorage.ts:78-80 | a non-empty store has an entry no newer than any other |
| CompressedUrlStorage.NewestSurvives | services/compressedUrlStorage.ts:78-80 | eviction that leaves entries and removes only older ones keeps a strictly newest entry |
| ListStore.Take | services/historyStorage.ts:40 | `slice(0, n)` is a prefix of length min(n, size) |
| ListStore.ReadArray | services/historyStorage.ts:29-32 | an array is capped; anything else reads as `[]` |
| ListStore.Choose | services/historyStorage.ts:69-82 | store items win when there are any. An empty store gives the localStorage list, migrating it exactly when it is non-empty. A failing store gives the localStorage list and writes nothing |
| ListStore.ChooseWithinCap | services/historyStorage.ts:69-82 | the result is one of the two lists, so within the cap |
| HistoryStorage.SortDescSpec | services/historyStorage.ts:39-41 | the sort orders newest first and is a permutation |
| HistoryStorage.SortedIsFixed | services/historyStorage.ts:39-41 | a list already newest first is left unchanged: the sort is stable |
| HistoryStorage.SortCapSpec | services/historyStorage.ts:38-41 | the kept list is newest first, at most 50 items, all from the input, and all of it when it fits. Nothing dropped is newer than anything kept |
| HistoryStorage.SortCapIdempotent | services/historyStorage.ts:89-92 | sorting and capping twice is doing it once |
| HistoryStorage.ReadAfterSave | services/historyStorage.ts:29-32 | a saved list reads back unchanged |
| HistoryStorage.InsertSorted | services/historyStorage.ts:39-41 | inserting into a newest-first list keeps it newest first |
| HistoryStorage.InsertPerm | services/historyStorage.ts:39-41 | inserting adds exactly the one item |
| HistoryStorage.HistoryDb.Read | services/historyStorage.ts:21-36 | nothing exactly when the read fails; otherwise at most 50 items |
| HistoryStorage.HistoryDb.Put | services/historyStorage.ts:38-51 | a successful write stores the sorted, capped list; a failed one changes nothing |
| HistoryStorage.HistoryDb.GetHistory | services/historyStorage.ts:69-82 | returns `Choose` of the store and the capped localStorage list; a migration stores that list sorted and capped |
| HistoryStorage.HistoryDb.SaveHistory | services/historyStorage.ts:88-93 | stores the once-sorted capped list, which then reads back unchanged |
| MerchantProductsStorage.ReadAfterPut | services/merchantProductsStorage.ts:19-50 | what a write keeps reads back unchanged |
| MerchantProductsStorage.PutKeepsOrder | services/merchantProductsStorage.ts:36-37 | a write keeps the first 50 products in their order, and all of them when they fit |
| MerchantProductsStorage.MerchantDb.Read | services/merchantProductsStorage.ts:19-34 | nothing exactly when the read fails; otherwise at most 50 products |
| MerchantProductsStorage.MerchantDb.Put | services/merchantProductsStorage.ts:36-50 | a successful write stores the first 50 products, unsorted; a failed one changes nothing |
| MerchantProductsStorage.MerchantDb.GetMerchantProducts | services/merchantProductsStorage.ts:64-77 | returns `Choose` of the store and the capped localStorage list; a migration stores that list |
| MerchantProductsStorage.MerchantDb.SaveMerchantProducts | services/merchantProductsStorage.ts:80-85 | stores the capped list, which then reads back unchanged |

## Left out

- Network, IndexedDB and localStorage I/O: each answer is a scripted parameter. Aborts from the
  fetch timeouts (`AbortController`) appear only as rejected exchanges.
- Timers and clocks: `setTimeout` waits and `Date.now()` are an abstract clock that each
  answer's `took` advances. The engine's timing is not modelled.
- `JSON.parse` of text the model cannot see is a parameter. JSON numbers are integers, so
  fractional numbers are not represented.
- The routers and drivers let a thrown transport error propagate (`Threw`), as the code does.
  They do not catch it, so the repository's wording that `generateImage` never throws does
  not hold for a rejected fetch.
- FalImage.LastChance: a `response_url` fetch whose body does not parse is answered 502, as
  the code does, not with the 408 that the repository's design text gives for every other
  late outcome.
- Prompt templates and long configuration texts (the base try-on prompt, the vision and
  builder system prompts, the default video prompts) are short placeholder constants,
  because only their emptiness and trimming matter here. The error messages the routes
  match on are transcribed.
- The regular-expression test for the KIE internal-error text is a case-insensitive
  substring test over ASCII letters.
- zod internals: only what `garmentDescriptionSchema.safeParse` accepts is modelled, not its
  error messages.
- OpenAI message construction (`buildTryOnPromptUserMessage`, the chat request bodies) is
  recorded as the request sent, without its text.
- Console logging and `console.error` diagnostics are left out everywhere.
- `Promise.all` over the two uploads and the migration write in `getHistory` and
  `getMerchantProducts`, which the code does not await, are sequential steps in the model.
- The server's `imageFallbackEnabled` option is passed to the routers as it is. Body fields
  declared as strings but holding other JSON values are modelled as JSON.
- CompressedUrlStorage.UrlCache.EvictIfNeeded: the ensures leaves open which of several
  equally old entries goes first, whereas IndexedDB's key order decides it. An entry's
  timestamp is its save clock reading.
- MetricsStorage.MetricsDb.IncrementMetric: both clock readings of one call are the same
  `now`, and counters are unbounded integers.
- HistoryStorage: an item whose `timestamp` is not a number sorts as 0, and so does a `null`
  item. In the source the comparator at services/historyStorage.ts:40 and :90 reads
  `b.timestamp` of that `null`, so a TypeError is thrown once the list has two or more items.
  `saveHistory` then throws synchronously instead of resolving, and in `getHistory` the
  migration write at line 75 throws inside the `then`. The `catch` at line 81 then answers the
  same localStorage list, so the result is unchanged but nothing is written to IndexedDB. The
  model sorts such an item as 0 and performs the write.
- AdminSettings.SettingsStorage.SetAdminSettings: the ensures covers only the stored JSON;
  the round trip back to the settings is the lemma `SaveThenLoad`.
- The remaining files of the repository are not part of this model: UI components, image
  resizing and compression, `server.ts` wiring, and the older `geminiService` clients.
