/**
 * HTTP status codes, the error values that travel between the gateway's layers,
 * and the response bodies the idempotency ledger caches.
 */
module Http {
  import opened Wrappers

  const HTTP_OK := 200
  const HTTP_CREATED := 201
  const HTTP_BAD_REQUEST := 400
  const HTTP_PAYMENT_REQUIRED := 402
  const HTTP_FORBIDDEN := 403
  const HTTP_NOT_FOUND := 404
  const HTTP_CONFLICT := 409
  const HTTP_UNPROCESSABLE_ENTITY := 422
  const HTTP_INTERNAL_SERVER_ERROR := 500

  /** JavaScript's `n || fallback` on an optional number: undefined and 0 are falsy. */
  function NumberOr(n: Option<int>, fallback: int): int {
    if n.Some? && n.value != 0 then n.value else fallback
  }

  /**
   * The processor's reply attached to an AxiosError. `data` is the reply body as a
   * template literal renders it; None stands for an absent body.
   */
  datatype UpstreamResponse = UpstreamResponse(status: int, data: Option<string>)

  /** JavaScript truthiness of `error.response?.data`. */
  predicate HasData(r: Option<UpstreamResponse>) {
    r.Some? && r.value.data.Some? && r.value.data.value != ""
  }

  /** The part of `error.response?.data` a template literal shows, when HasData holds. */
  function DataText(r: Option<UpstreamResponse>): string
    requires HasData(r)
  {
    r.value.data.value
  }

  /** The status the processor answered with, if it answered at all. */
  function UpstreamStatus(r: Option<UpstreamResponse>): Option<int> {
    if r.Some? then Some(r.value.status) else None
  }

  datatype AxiosError = AxiosError(message: string, response: Option<UpstreamResponse>)

  /** What an HttpException was constructed with, as `getResponse()` returns it. */
  datatype ExceptionResponse =
    | Text(text: string)
    | ErrorObject(error: AxiosError)
    | Structured(json: string)

  datatype HttpException = HttpException(response: ExceptionResponse, status: int)

  /** Anything a handler or a collaborator can throw. */
  datatype Thrown =
    | Http(exception: HttpException)
    /** an AxiosError passed on unchanged */
    | Upstream(axios: AxiosError)
    /** any other Error (entity not found, a type error, ...): it has no status */
    | Internal(message: string)

  /** A value a request handler produced: its own `statusCode` field, if any, and the rest of it. */
  datatype HandlerResult = HandlerResult(statusCode: Option<int>, payload: string)

  /** What the request handler behind an interceptor did: produced a value or threw. */
  datatype HandlerOutcome = Returned(result: HandlerResult) | Failed(error: Thrown)

  /** A response body as the ledger caches it in its jsonb column. */
  datatype Body =
    | ResultBody(result: HandlerResult)
    | ErrorBody(error: Thrown)
    | MessageBody(message: string)
    | DataBody(data: string)
    | ExceptionBody(response: ExceptionResponse)
}
