/**
 * The clients of the mock card processor. The HTTP call is abstracted into
 * its outcome, `Answered(data)` or `Failed(error)`; what is modelled is how
 * each client wraps an answer and which exception it throws for a failure.
 */
module Mockbank {
  import opened Wrappers
  import opened Http

  const AUTHORIZATIONS_URL := "/api/v1/authorizations"
  const CAPTURES_URL := "/api/v1/captures"
  const REFUNDS_URL := "/api/v1/refunds"
  const VOIDS_URL := "/api/v1/voids"

  const MISSING_KEY := "Missing Idempotency-Key header"
  const AUTHORIZATION_INVALID := "Invalid Card: Mockbank authorization request is invalid or validation failed."
  const BALANCE_TOO_LOW := "Invalid Card: Available balance is less than requested amount"

  /** The outcome of one HTTP call to the processor. */
  datatype UpstreamCall = Answered(data: string) | Failed(error: AxiosError)

  /** The AxiosResponse-shaped value a client builds around an answer. */
  datatype Wrapped = Wrapped(
    data: string,
    status: int,
    statusText: string,
    idempotencyKey: Option<string>,
    url: string,
    httpMethod: string)

  function Exception(message: string, status: int): Thrown {
    Http(HttpException(Text(message), status))
  }

  /** Shared by all four POST clients: a failure for an empty key is a 400, citing the reply body when there is one. */
  function MissingKeyError(e: AxiosError): (t: Thrown)
    ensures t.Http? && t.exception.status == HTTP_BAD_REQUEST
  {
    if HasData(e.response) then Exception("Bad Request: " + DataText(e.response), HTTP_BAD_REQUEST)
    else Exception(MISSING_KEY, HTTP_BAD_REQUEST)
  }

  /** The `catchError` of `authorizations`. */
  function AuthorizationsError(key: string, e: AxiosError): Thrown {
    var status := UpstreamStatus(e.response);
    if key == "" then MissingKeyError(e)
    else if status == Some(HTTP_BAD_REQUEST) then
      if HasData(e.response) then Exception("Invalid Card: " + DataText(e.response), HTTP_BAD_REQUEST)
      else Exception(AUTHORIZATION_INVALID, HTTP_BAD_REQUEST)
    else if status == Some(HTTP_PAYMENT_REQUIRED) then
      if HasData(e.response) then Exception("Invalid Card: " + DataText(e.response), HTTP_PAYMENT_REQUIRED)
      else Exception(BALANCE_TOO_LOW, HTTP_PAYMENT_REQUIRED)
    else if status == Some(HTTP_INTERNAL_SERVER_ERROR) then
      if HasData(e.response) then Exception("Internal Server Error: " + DataText(e.response), HTTP_INTERNAL_SERVER_ERROR)
      else Exception(e.message, HTTP_INTERNAL_SERVER_ERROR)
    else Upstream(e)
  }

  /** The `catchError` of `captures`. */
  function CapturesError(key: string, e: AxiosError): Thrown {
    var status := UpstreamStatus(e.response);
    if key == "" then MissingKeyError(e)
    else if status == Some(HTTP_BAD_REQUEST) then
      if HasData(e.response) then Exception("Invalid Card: " + DataText(e.response), HTTP_BAD_REQUEST)
      else Exception(BALANCE_TOO_LOW, HTTP_BAD_REQUEST)
    else if status == Some(HTTP_INTERNAL_SERVER_ERROR) then
      if HasData(e.response) then Exception(BALANCE_TOO_LOW, HTTP_INTERNAL_SERVER_ERROR)
      else Http(HttpException(ErrorObject(e), HTTP_INTERNAL_SERVER_ERROR))
    else Upstream(e)
  }

  /** The `catchError` of `refund`, a copy of the capture table. */
  function RefundError(key: string, e: AxiosError): Thrown {
    var status := UpstreamStatus(e.response);
    if key == "" then MissingKeyError(e)
    else if status == Some(HTTP_BAD_REQUEST) then
      if HasData(e.response) then Exception("Invalid Card: " + DataText(e.response), HTTP_BAD_REQUEST)
      else Exception(BALANCE_TOO_LOW, HTTP_BAD_REQUEST)
    else if status == Some(HTTP_INTERNAL_SERVER_ERROR) then
      if HasData(e.response) then Exception(BALANCE_TOO_LOW, HTTP_INTERNAL_SERVER_ERROR)
      else Http(HttpException(ErrorObject(e), HTTP_INTERNAL_SERVER_ERROR))
    else Upstream(e)
  }

  /** The `catchError` of `void`. */
  function VoidError(key: string, e: AxiosError): Thrown {
    if key == "" then MissingKeyError(e) else Upstream(e)
  }

  /**
   * A POST client. Its `map` stage wraps an answer as status 201, 'OK', with
   * the key echoed and the client's URL and method; its `catchError` stage
   * classifies a failure.
   */
  function Post(call: UpstreamCall, key: string, url: string, classify: (string, AxiosError) -> Thrown): (r: Result<Wrapped, Thrown>)
    ensures r.Ok? <==> call.Answered?
    ensures r.Ok? ==> r.value == Wrapped(call.data, HTTP_CREATED, "OK", Some(key), url, "post")
    ensures r.Err? ==> r.error == classify(key, call.error)
  {
    match call
    case Answered(data) => Ok(Wrapped(data, HTTP_CREATED, "OK", Some(key), url, "post"))
    case Failed(e) => Err(classify(key, e))
  }

  function Authorizations(call: UpstreamCall, key: string): Result<Wrapped, Thrown> {
    Post(call, key, AUTHORIZATIONS_URL, AuthorizationsError)
  }

  function Captures(call: UpstreamCall, key: string): Result<Wrapped, Thrown> {
    Post(call, key, CAPTURES_URL, CapturesError)
  }

  function Refund(call: UpstreamCall, key: string): Result<Wrapped, Thrown> {
    Post(call, key, REFUNDS_URL, RefundError)
  }

  function Void(call: UpstreamCall, key: string): Result<Wrapped, Thrown> {
    Post(call, key, VOIDS_URL, VoidError)
  }

  /** The path `getAuthorization` and `getCaptures` request: the collection, then the id with 'auth_' in front. */
  function LookupPath(collection: string, authorizationId: string): string {
    collection + "/auth_" + authorizationId
  }

  /** A failed lookup becomes an HttpException with the error's message and the upstream status, or 500. */
  function LookupError(e: AxiosError): Thrown {
    Exception(e.message, NumberOr(UpstreamStatus(e.response), HTTP_INTERNAL_SERVER_ERROR))
  }

  /**
   * `getAuthorization`: asks the processor, `upstream`, for the id's path
   * under the authorizations collection; the answer passes through unwrapped.
   */
  function GetAuthorization(upstream: string -> UpstreamCall, authorizationId: string): Result<string, Thrown> {
    match upstream(LookupPath(AUTHORIZATIONS_URL, authorizationId))
    case Answered(data) => Ok(data)
    case Failed(e) => Err(LookupError(e))
  }

  /**
   * `getCaptures`: asks for the id's path under the captures collection; the
   * answer is wrapped with status 200 and method get, and the wrapping names
   * the collection, not the path requested.
   */
  function GetCaptures(upstream: string -> UpstreamCall, authorizationId: string): Result<Wrapped, Thrown> {
    match upstream(LookupPath(CAPTURES_URL, authorizationId))
    case Answered(data) => Ok(Wrapped(data, HTTP_OK, "OK", None, CAPTURES_URL, "get"))
    case Failed(e) => Err(LookupError(e))
  }

  /** Two lookups in one collection request the same path iff they are for the same id. */
  lemma LookupPathInjective(collection: string, a: string, b: string)
    ensures LookupPath(collection, a) == LookupPath(collection, b) <==> a == b
  {
    var n := |collection + "/auth_"|;
    if LookupPath(collection, a) == LookupPath(collection, b) {
      assert LookupPath(collection, a)[n..] == a;
      assert LookupPath(collection, b)[n..] == b;
    }
  }

  /** An authorization lookup and a capture lookup never request the same path, whatever the ids. */
  lemma LookupCollectionsDisjoint(a: string, b: string)
    ensures LookupPath(AUTHORIZATIONS_URL, a) != LookupPath(CAPTURES_URL, b)
  {
    assert LookupPath(AUTHORIZATIONS_URL, a)[8] == 'a';
    assert LookupPath(CAPTURES_URL, b)[8] == 'c';
  }

  /**
   * Against a processor that answers exactly one path, the authorization of
   * `stored`, `getAuthorization` finds a record iff it is asked for `stored`,
   * and `getCaptures` finds none for any id.
   */
  lemma LookupsFindOnlyTheirOwnId(upstream: string -> UpstreamCall, stored: string, id: string)
    requires forall p :: upstream(p).Answered? <==> p == LookupPath(AUTHORIZATIONS_URL, stored)
    ensures GetAuthorization(upstream, id).Ok? <==> id == stored
    ensures GetCaptures(upstream, id).Err?
    ensures GetCaptures(upstream, id).error.Http?
  {
    LookupPathInjective(AUTHORIZATIONS_URL, id, stored);
    LookupCollectionsDisjoint(stored, id);
  }

  /**
   * The four POST clients answer alike: each succeeds on an answer, and the
   * wrappings differ only in the URL, which tells the four clients apart.
   */
  lemma PostAnswersAgree(data: string, key: string)
    ensures var a := Authorizations(Answered(data), key);
      var c := Captures(Answered(data), key);
      var r := Refund(Answered(data), key);
      var v := Void(Answered(data), key);
      && a.Ok? && c.Ok? && r.Ok? && v.Ok?
      && a.value.data == data && a.value.status == HTTP_CREATED && a.value.idempotencyKey == Some(key)
      && c.value == a.value.(url := CAPTURES_URL)
      && r.value == a.value.(url := REFUNDS_URL)
      && v.value == a.value.(url := VOIDS_URL)
      && |{a.value.url, c.value.url, r.value.url, v.value.url}| == 4
  {
    assert AUTHORIZATIONS_URL[8] == 'a' && CAPTURES_URL[8] == 'c' && REFUNDS_URL[8] == 'r' && VOIDS_URL[8] == 'v';
  }

  /**
   * Whether a POST client succeeds depends only on the processor's outcome,
   * and the wrapping of an answer does not depend on the classifier; a
   * failure is never wrapped, however it is classified.
   */
  lemma PostIgnoresClassifier(call: UpstreamCall, key: string, url: string,
                              f: (string, AxiosError) -> Thrown, g: (string, AxiosError) -> Thrown)
    ensures Post(call, key, url, f).Ok? <==> Post(call, key, url, g).Ok?
    ensures Post(call, key, url, f).Ok? ==> Post(call, key, url, f) == Post(call, key, url, g)
    ensures Post(call, key, url, f).Err? ==> Post(call, key, url, f).error == f(key, call.error)
  {
  }

  /**
   * For an empty key the four clients agree: the failure is a 400 whatever
   * the processor answered.
   */
  lemma EmptyKeyIsBadRequest(e: AxiosError)
    ensures AuthorizationsError("", e) == MissingKeyError(e)
    ensures CapturesError("", e) == MissingKeyError(e)
    ensures RefundError("", e) == MissingKeyError(e)
    ensures VoidError("", e) == MissingKeyError(e)
    ensures MissingKeyError(e) == if HasData(e.response)
      then Exception("Bad Request: " + DataText(e.response), HTTP_BAD_REQUEST)
      else Exception(MISSING_KEY, HTTP_BAD_REQUEST)
  {
  }

  /**
   * With a key, authorize keeps the processor's status for 400, 402 and 500
   * and passes every other failure on unchanged.
   */
  lemma AuthorizationsKeepsStatus(key: string, e: AxiosError)
    requires key != ""
    ensures var t := AuthorizationsError(key, e);
      && (t == Upstream(e) <==> UpstreamStatus(e.response) !in {Some(400), Some(402), Some(500)})
      && (t != Upstream(e) ==> t.Http? && Some(t.exception.status) == UpstreamStatus(e.response))
  {
  }

  /**
   * With a key, capture keeps the processor's status for 400 and 500 only: a
   * 402, which authorize classifies, is passed on unchanged.
   */
  lemma CapturesKeepsStatus(key: string, e: AxiosError)
    requires key != ""
    ensures var t := CapturesError(key, e);
      && (t == Upstream(e) <==> UpstreamStatus(e.response) !in {Some(400), Some(500)})
      && (t != Upstream(e) ==> t.Http? && Some(t.exception.status) == UpstreamStatus(e.response))
      && (UpstreamStatus(e.response) == Some(402) ==> t == Upstream(e) && AuthorizationsError(key, e) != Upstream(e))
  {
  }

  /** Refund classifies failures exactly as capture does. */
  lemma RefundMatchesCapture(key: string, e: AxiosError)
    ensures RefundError(key, e) == CapturesError(key, e)
  {
  }

  /** With a key, void passes every failure on unchanged. */
  lemma VoidPassesFailuresOn(key: string, e: AxiosError)
    requires key != ""
    ensures VoidError(key, e) == Upstream(e)
  {
  }

  /**
   * Capture answers a 500 that has a body with the balance message, whatever
   * the body says; authorize quotes the body.
   */
  lemma CaptureIgnoresServerErrorBody(key: string, e: AxiosError)
    requires key != "" && UpstreamStatus(e.response) == Some(HTTP_INTERNAL_SERVER_ERROR) && HasData(e.response)
    ensures CapturesError(key, e) == Exception(BALANCE_TOO_LOW, HTTP_INTERNAL_SERVER_ERROR)
    ensures AuthorizationsError(key, e) == Exception("Internal Server Error: " + DataText(e.response), HTTP_INTERNAL_SERVER_ERROR)
  {
  }

  /** A lookup failure carries the processor's status when it is a truthy number, and 500 otherwise. */
  lemma LookupStatus(e: AxiosError)
    ensures LookupError(e).Http?
    ensures var s := LookupError(e).exception.status;
      s == (if e.response.Some? && e.response.value.status != 0 then e.response.value.status else HTTP_INTERNAL_SERVER_ERROR)
  {
  }
}
