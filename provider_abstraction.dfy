/**
 * The shared result model of the image drivers and routers: a tagged success/error result,
 * provider selection by model-name prefix, and the error-kind to HTTP-status table.
 */
module ProviderAbstraction {
  import opened Wrappers
  import opened Text
  import opened Json

  datatype Provider = Fal | Kie

  /**
   * The driver input: two already reachable image URLs, an optional prompt and the model id. The
   * prompt is the JSON value the request body carried, which need not be a string.
   */
  datatype ImagePayload = ImagePayload(personUrl: string, clothingUrl: string, prompt: Option<Json>, model: string)

  /**
   * `GenerateImageResult`: exactly one of a success carrying the image URL or an error carrying an
   * HTTP status and a message. The URL is the JSON value the provider put there (normally a string).
   */
  datatype ImageResult =
    | Success(model: string, durationMs: int, imageUrl: Json, creditsUsed: Option<Json>)
    | Failure(model: string, durationMs: int, httpStatus: int, error: string, creditsUsed: Option<Json>)

  /** A driver either resolves with a result or its promise rejects (the drivers do not catch transport errors). */
  datatype DriverOutcome = Returned(result: ImageResult) | Threw(error: string)

  datatype ErrorKind = Timeout | Client | Server | Unknown

  /** The single default try-on prompt (its text is a configuration string, not modelled). */
  const DEFAULT_IMAGE_PROMPT: string := "<default try-on prompt>"

  const MSG_TIMEOUT: string := "Превышено время ожидания. Попробуйте ещё раз."
  const MSG_CLIENT: string := "Генерация не удалась. Попробуйте снова."
  const MSG_SERVER: string := "Не удалось сгенерировать изображение. Попробуйте позже."
  const MSG_UNKNOWN: string := "Сервис временно недоступен. Попробуйте позже."

  const FAL_PREFIX: string := "fal-ai/"

  /** `getImageProvider`: Fal for every model under the `fal-ai/` namespace, KIE for all others. */
  function GetImageProvider(model: string): (p: Provider)
    ensures p == Fal <==> StartsWith(model, FAL_PREFIX)
    ensures p == Kie <==> !StartsWith(model, FAL_PREFIX)
  {
    if StartsWith(model, FAL_PREFIX) then Fal else Kie
  }

  /** `prompt || DEFAULT_IMAGE_PROMPT`: the value sent as the prompt. */
  function PromptOrDefault(prompt: Option<Json>): (r: Json)
    ensures Truthy(Some(r))
    ensures Truthy(prompt) ==> r == prompt.value
    ensures !Truthy(prompt) ==> r == JStr(DEFAULT_IMAGE_PROMPT)
  {
    if Truthy(prompt) then prompt.value else JStr(DEFAULT_IMAGE_PROMPT)
  }

  datatype HttpError = HttpError(httpStatus: int, error: string)

  function HttpStatusOf(kind: ErrorKind): int {
    match kind
    case Timeout => 408
    case Client => 422
    case Server => 502
    case Unknown => 500
  }

  function DefaultMessageOf(kind: ErrorKind): string {
    match kind
    case Timeout => MSG_TIMEOUT
    case Client => MSG_CLIENT
    case Server => MSG_SERVER
    case Unknown => MSG_UNKNOWN
  }

  /**
   * `mapToHttpError`: timeout 408, client 422, server 502, anything else 500; a supplied message is
   * kept as it is (even when empty, since the source uses `??`), otherwise the kind's default text.
   */
  function MapToHttpError(kind: ErrorKind, message: Option<string>): (e: HttpError)
    ensures kind == Timeout ==> e.httpStatus == 408
    ensures kind == Client ==> e.httpStatus == 422
    ensures kind == Server ==> e.httpStatus == 502
    ensures kind == Unknown ==> e.httpStatus == 500
    ensures message.Some? ==> e.error == message.value
    ensures message.None? ==> e.error == DefaultMessageOf(kind) && e.error != ""
  {
    match kind
    case Timeout => HttpError(408, message.GetOr(MSG_TIMEOUT))
    case Client => HttpError(422, message.GetOr(MSG_CLIENT))
    case Server => HttpError(502, message.GetOr(MSG_SERVER))
    case Unknown => HttpError(500, message.GetOr(MSG_UNKNOWN))
  }

  /** Different kinds never share a status code, so the status identifies the kind. */
  lemma MapToHttpErrorInjective(k1: ErrorKind, k2: ErrorKind, m1: Option<string>, m2: Option<string>)
    requires MapToHttpError(k1, m1).httpStatus == MapToHttpError(k2, m2).httpStatus
    ensures k1 == k2
  {
  }

  /** `status === 'success' && typeof imageUrl === 'string' && imageUrl.trim()`: the routers' notion of a usable success. */
  predicate UsableSuccess(r: ImageResult) {
    r.Success? && r.imageUrl.JStr? && Trim(r.imageUrl.s) != ""
  }

  /** Truthiness of an environment variable such as `process.env.FAL_KEY`. */
  predicate IsSet(v: Option<string>) {
    v.Some? && v.value != ""
  }

  /** `result.httpStatus`, `undefined` on a success. */
  function HttpStatusField(r: ImageResult): Option<int> {
    if r.Failure? then Some(r.httpStatus) else None
  }
}
