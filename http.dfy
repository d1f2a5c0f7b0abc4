/**
 * What a `fetch` call can come back with, as a scripted response. A call either rejects
 * (transport failure, the promise is rejected with a message) or answers with a status code and a
 * body that did or did not parse as JSON; `took` is how long the call took on the abstract clock.
 */
module Http {
  import opened Json

  datatype Body = Parsed(json: Json) | Unparseable(error: string)

  datatype Exchange = Answered(status: int, body: Body, took: nat) | Rejected(error: string)

  /** `res.ok` */
  predicate IsOk(status: int) {
    200 <= status <= 299
  }

  /** What a handler writes with `res.status(n).json(body)`. */
  datatype Response = Response(status: int, body: ResponseBody)

  datatype ResponseBody =
    | ErrorBody(error: string)
    | ImageBody(imageUrl: Json)
    | VideoBody(videoUrl: Json)
}
