/**
 * The second interceptor, PaymentReceiptInterceptor: it reserves the key by
 * inserting a processing row straight into the repository and, when the
 * primary key refuses the row, answers from the row already there; otherwise
 * it runs the handler and records what came of it.
 *
 * As written, the row it inserts has no requestHash, a NOT NULL column, so the
 * insert always fails with a not-null violation, which the interceptor
 * swallows: the handler runs for every request. `AsWrittenRow` is that row
 * and `AsWrittenNeverDeduplicates` the consequence; `CorrectedRow` carries
 * the fingerprint, and the class uses it.
 */
module ReceiptLayer {
  import opened Wrappers
  import opened Http
  import opened Utf8
  import opened IdempotencyRecords
  import opened RequestFingerprint
  import opened IdempotencyLedger

  const TEN_MINUTES_MS := 10 * 60 * 1000
  const WEEK_MS := 7 * 24 * 60 * 60 * 1000
  const KEY_REQUIRED := "Header 'idempotency-key' is required"
  const KEY_NOT_UUID := "Header 'idempotency-key' is not a valid UUID"
  const PROCESSING_ERROR := "Idempotency processing error"
  const ALREADY_PROCESSING := "Request is already processing for this Idempotency Key"
  /** sic */
  const CHECK_FAILED := "Conflice: Idempotency Entity operation check failed"

  /** The row as `intercept` creates it: the request URL, processing, ten minutes, and no requestHash. */
  function AsWrittenRow(key: string, request: Request, now: int): (row: NewRow)
    ensures row.requestHash.None?
  {
    NewRow(key, request.url, None, Processing, None, now + TEN_MINUTES_MS)
  }

  /** The same row carrying the request's fingerprint, as the NOT NULL column requires. */
  function CorrectedRow(hash: seq<byte> -> string, key: string, request: Request, now: int): (row: NewRow)
    ensures row.requestHash == Some(Fingerprint(hash, request))
    ensures row == AsWrittenRow(key, request, now).(requestHash := row.requestHash)
  {
    NewRow(key, request.url, Some(Fingerprint(hash, request)), Processing, None, now + TEN_MINUTES_MS)
  }

  /** The status recorded for a handler error: `getStatus()` for an HttpException, else `error.status || error.response?.status || 500`. */
  function FailureStatus(error: Thrown): int {
    match error
    case Http(e) => e.status
    // an AxiosError's own status is its response's status
    case Upstream(a) => NumberOr(UpstreamStatus(a.response), HTTP_INTERNAL_SERVER_ERROR)
    case Internal(_) => HTTP_INTERNAL_SERVER_ERROR
  }

  /** The body recorded for a handler error: a string response is wrapped as `{message}`. */
  function FailureBody(error: Thrown): Body {
    match error
    case Http(e) => if e.response.Text? then MessageBody(e.response.text) else ExceptionBody(e.response)
    case Upstream(a) => if HasData(a.response) then DataBody(DataText(a.response)) else MessageBody(a.message)
    case Internal(message) => MessageBody(message)
  }

  /**
   * The layer and the idempotency service record the same status for an
   * HttpException, except that a status of 0 stays 0 here where the service
   * falls back to 500.
   */
  lemma FailureStatusMatchesService(table: map<string, IdempotencyKey>, key: string, e: HttpException)
    requires key in table
    ensures var stored := UpdateToFailure(table, key, Http(e)).table[key].responseStatus.value;
      stored == FailureStatus(Http(e)) <==> e.status != 0
  {
  }

  /** What the observable returned by `intercept` emits. */
  datatype Emission =
    | Replayed(body: Option<Body>)
    | HandlerValue(result: HandlerResult)
    /** the `catchError` selector returns the error instead of rethrowing it; modelled as the emitted value */
    | ErrorValue(error: Thrown)

  datatype Reply = Threw(error: Thrown) | Emitted(value: Emission)

  /** `repository.update({key}, ...)`: a key without a row updates nothing. */
  function Resolve(table: map<string, IdempotencyKey>, key: string, op: Operation, status: int, body: Body,
                   expiresAt: Option<int>): (t: map<string, IdempotencyKey>)
    ensures OnlyRowChanged(table, t, key)
    ensures key in table ==>
      t[key] == table[key].(operation := op, responseStatus := Some(status), responseBody := Some(body),
                            expiresAt := expiresAt.GetOr(table[key].expiresAt))
  {
    if key !in table then table
    else table[key := table[key].(operation := op, responseStatus := Some(status), responseBody := Some(body),
                                  expiresAt := expiresAt.GetOr(table[key].expiresAt))]
  }

  /** Resolving a row to a well-formed operation keeps the table valid. */
  lemma ResolveKeepsValid(table: map<string, IdempotencyKey>, key: string, op: Operation, status: int, body: Body,
                          expiresAt: Option<int>)
    requires TableValid(table) && WellFormedOperation(op)
    ensures TableValid(Resolve(table, key, op, status, body, expiresAt))
  {
  }

  /** The `tap` and `catchError` stages after the handler. */
  function RunHandler(table: map<string, IdempotencyKey>, key: string, handler: HandlerOutcome,
                      responseStatusCode: Option<int>, now: int): Step<Reply>
  {
    match handler
    case Returned(result) =>
      Step(Emitted(HandlerValue(result)),
           Resolve(table, key, Success, NumberOr(responseStatusCode, HTTP_CREATED), ResultBody(result), Some(now + WEEK_MS)))
    case Failed(error) =>
      Step(Emitted(ErrorValue(error)), Resolve(table, key, Failure, FailureStatus(error), FailureBody(error), None))
  }

  /**
   * `intercept` as a step on the table, for the row `rowFor(key)` it
   * inserts. `responseStatusCode` is the status on the response object when
   * the handler's value passes by.
   */
  function LayerStep(table: map<string, IdempotencyKey>, rowFor: string -> NewRow, isUuid: string -> bool,
                     header: Option<string>, handler: HandlerOutcome, responseStatusCode: Option<int>, now: int): Step<Reply>
  {
    if header.None? || header.value == "" then
      Step(Threw(Http(HttpException(Text(KEY_REQUIRED), HTTP_BAD_REQUEST))), table)
    else if !isUuid(header.value) then
      Step(Threw(Http(HttpException(Text(KEY_NOT_UUID), HTTP_BAD_REQUEST))), table)
    else
      var key := header.value;
      match InsertRow(table, rowFor(key), now)
      case Ok(inserted) => RunHandler(inserted, key, handler, responseStatusCode, now)
      case Err(NotNullViolation) =>
        // swallowed: only a unique violation is looked at
        RunHandler(table, key, handler, responseStatusCode, now)
      case Err(UniqueViolation) =>
        match Lookup(table, key)
        case None => Step(Threw(Http(HttpException(Text(PROCESSING_ERROR), HTTP_INTERNAL_SERVER_ERROR))), table)
        case Some(existing) =>
          match existing.operation
          case Processing => Step(Threw(Http(HttpException(Text(ALREADY_PROCESSING), HTTP_CONFLICT))), table)
          case Success => Step(Emitted(Replayed(existing.responseBody)), table)
          case Failure => Step(Emitted(Replayed(existing.responseBody)), table)
          case Unrecognised(_) => Step(Threw(Http(HttpException(Text(CHECK_FAILED), HTTP_CONFLICT))), table)
  }

  /** A missing, empty or non-UUID key is refused with 400 and the repository is not touched. */
  lemma BadKeyRejected(table: map<string, IdempotencyKey>, rowFor: string -> NewRow, isUuid: string -> bool,
                       header: Option<string>, handler: HandlerOutcome, responseStatusCode: Option<int>, now: int)
    requires header.None? || header.value == "" || !isUuid(header.value)
    ensures var s := LayerStep(table, rowFor, isUuid, header, handler, responseStatusCode, now);
      && s.table == table
      && s.result.Threw? && s.result.error.Http? && s.result.error.exception.status == HTTP_BAD_REQUEST
  {
  }

  /**
   * As written, every request with a valid key reaches the handler and
   * emits what the handler produced: no row is ever created, and the
   * replay and conflict branches are never taken.
   */
  lemma AsWrittenNeverDeduplicates(table: map<string, IdempotencyKey>, request: Request, isUuid: string -> bool,
                                   key: string, handler: HandlerOutcome, responseStatusCode: Option<int>, now: int)
    requires key != "" && isUuid(key)
    ensures var s := LayerStep(table, AsWrittenRowFor(request, now), isUuid, Some(key), handler, responseStatusCode, now);
      && s.table.Keys == table.Keys
      && s.result == Emitted(if handler.Returned? then HandlerValue(handler.result) else ErrorValue(handler.error))
  {
    assert InsertRow(table, AsWrittenRow(key, request, now), now) == Err(NotNullViolation);
  }

  /** The row the interceptor as written inserts for a request. */
  function AsWrittenRowFor(request: Request, now: int): string -> NewRow {
    k => AsWrittenRow(k, request, now)
  }

  /** Every row `rowFor` gives names a well-formed operation. */
  ghost predicate RowsWellFormed(rowFor: string -> NewRow) {
    forall k :: WellFormedOperation(rowFor(k).operation)
  }

  /** The row the corrected interceptor inserts for a request. */
  function CorrectedRowFor(hash: seq<byte> -> string, request: Request, now: int): string -> NewRow {
    k => CorrectedRow(hash, k, request, now)
  }

  /**
   * With the corrected row, a fresh key runs the handler once, and a second
   * request under the same key is answered from the recorded row: the
   * cached body after a value, 409 while the first is still processing.
   */
  lemma CorrectedLayerDeduplicates(table: map<string, IdempotencyKey>, hash: seq<byte> -> string, request: Request,
                                   retry: Request, isUuid: string -> bool, key: string, first: HandlerOutcome,
                                   second: HandlerOutcome, status: Option<int>, now: int, later: int)
    requires key != "" && isUuid(key) && key !in table
    ensures var s1 := LayerStep(table, CorrectedRowFor(hash, request, now), isUuid, Some(key), first, status, now);
      var s2 := LayerStep(s1.table, CorrectedRowFor(hash, retry, later), isUuid, Some(key), second, status, later);
      && key in s1.table
      && s2.table == s1.table
      && (first.Returned? ==>
            && s1.result == Emitted(HandlerValue(first.result))
            && s2.result == Emitted(Replayed(Some(ResultBody(first.result)))))
      && (first.Failed? ==>
            && s1.result == Emitted(ErrorValue(first.error))
            && s2.result == Emitted(Replayed(Some(FailureBody(first.error)))))
  {
    var inserted := InsertRow(table, CorrectedRow(hash, key, request, now), now);
    assert inserted.Ok?;
    assert key in inserted.value;
  }

  /** While a corrected reservation is still processing, another request under the key is refused with 409. */
  lemma CorrectedProcessingConflict(table: map<string, IdempotencyKey>, hash: seq<byte> -> string, request: Request,
                                    isUuid: string -> bool, key: string, handler: HandlerOutcome,
                                    status: Option<int>, now: int)
    requires key != "" && isUuid(key) && key in table && table[key].operation == Processing
    ensures LayerStep(table, CorrectedRowFor(hash, request, now), isUuid, Some(key), handler, status, now)
         == Step(Threw(Http(HttpException(Text(ALREADY_PROCESSING), HTTP_CONFLICT))), table)
  {
  }

  /** Both rows the interceptor may insert are processing reservations, so either keeps the repository valid. */
  lemma LayerRowsWellFormed(hash: seq<byte> -> string, request: Request, now: int)
    ensures RowsWellFormed(AsWrittenRowFor(request, now)) && RowsWellFormed(CorrectedRowFor(hash, request, now))
  {
  }

  /**
   * The interceptor over the shared repository, inserting the row `rowFor`
   * gives a key: `AsWrittenRowFor` is the code as written, `CorrectedRowFor`
   * the corrected one.
   */
  class PaymentReceiptInterceptor {
    const repository: Repository

    constructor(repository: Repository)
      ensures this.repository == repository
    {
      this.repository := repository;
    }

    method Intercept(rowFor: string -> NewRow, isUuid: string -> bool, header: Option<string>,
                     handler: HandlerOutcome, responseStatusCode: Option<int>, now: int) returns (out: Reply)
      modifies repository
      ensures Step(out, repository.rows)
           == LayerStep(old(repository.rows), rowFor, isUuid, header, handler, responseStatusCode, now)
      ensures old(repository.Valid()) && RowsWellFormed(rowFor) ==> repository.Valid()
    {
      if header.None? || header.value == "" {
        return Threw(Http(HttpException(Text(KEY_REQUIRED), HTTP_BAD_REQUEST)));
      }
      var key := header.value;
      if !isUuid(key) {
        return Threw(Http(HttpException(Text(KEY_NOT_UUID), HTTP_BAD_REQUEST)));
      }
      var inserted := InsertRow(repository.rows, rowFor(key), now);
      if inserted.Ok? {
        if TableValid(repository.rows) && RowsWellFormed(rowFor) {
          InsertKeepsValid(repository.rows, rowFor(key), now);
        }
        repository.rows := inserted.value;
      } else if inserted.error == UniqueViolation {
        if key !in repository.rows {
          return Threw(Http(HttpException(Text(PROCESSING_ERROR), HTTP_INTERNAL_SERVER_ERROR)));
        }
        var existing := repository.rows[key];
        match existing.operation {
          case Processing =>
            return Threw(Http(HttpException(Text(ALREADY_PROCESSING), HTTP_CONFLICT)));
          case Success =>
            return Emitted(Replayed(existing.responseBody));
          case Failure =>
            return Emitted(Replayed(existing.responseBody));
          case Unrecognised(_) =>
            return Threw(Http(HttpException(Text(CHECK_FAILED), HTTP_CONFLICT)));
        }
      }
      if handler.Returned? {
        out := Emitted(HandlerValue(handler.result));
        if TableValid(repository.rows) {
          ResolveKeepsValid(repository.rows, key, Success, NumberOr(responseStatusCode, HTTP_CREATED),
                            ResultBody(handler.result), Some(now + WEEK_MS));
        }
        repository.rows := Resolve(repository.rows, key, Success, NumberOr(responseStatusCode, HTTP_CREATED),
                                   ResultBody(handler.result), Some(now + WEEK_MS));
      } else {
        out := Emitted(ErrorValue(handler.error));
        if TableValid(repository.rows) {
          ResolveKeepsValid(repository.rows, key, Failure, FailureStatus(handler.error), FailureBody(handler.error), None);
        }
        repository.rows := Resolve(repository.rows, key, Failure, FailureStatus(handler.error),
                                   FailureBody(handler.error), None);
      }
    }
  }
}
