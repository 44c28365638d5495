/**
 * The idempotency interceptor in front of the payment-receipt handlers. It
 * validates the Idempotency-Key header, and then either reserves a fresh key
 * and runs the handler inside one transaction, or answers from the row the
 * key already has: 409, 422, a deleted expired reservation, or the cached
 * body. `InterceptStep` is the decision as a pure step on the table;
 * `IdempotencyInterceptor.Intercept` performs it through the service.
 */
module Interceptor {
  import opened Wrappers
  import opened Http
  import opened Utf8
  import opened Decimal
  import opened Separators
  import opened IdempotencyRecords
  import opened RequestFingerprint
  import opened IdempotencyLedger

  const KEY_REQUIRED := "Header 'idempotency-key' is required"
  const KEY_NOT_UUID := "Header 'idempotency-key' is not a valid UUID"
  const OPERATION_CHECK_FAILED := "Conflict: Idempotency Entity operation check failed"
  const EXPIRED_MESSAGE := "Request is already expired for this Idempotency Key - Please retry"
  const PROCESSING_CONFLICT := "Conflict: Request is already processing for this Idempotency Key - Please retry after "

  /** The `operationStatusCode` lookup: `in` finds only these four names. */
  function OperationStatusCode(op: Operation): Option<int> {
    match op
    case Success => Some(HTTP_OK)
    case Failure => Some(HTTP_OK)
    case Processing => Some(HTTP_CONFLICT)
    case Unrecognised(name) => if name == "expired" then Some(HTTP_CONFLICT) else None
  }

  function ReplayMessage(op: Operation): string {
    "Idempotency Entity operation check " + OperationName(op) + ", return the cached response body"
  }

  /** `n second` or `n seconds`, plural unless n is 1. */
  function SecondsText(seconds: nat): string {
    DecimalString(seconds) + " second" + (if seconds != 1 then "s" else "")
  }

  /** `n minute` or `n minutes`, plural when n exceeds 1. */
  function MinutesText(minutes: nat): string {
    DecimalString(minutes) + " minute" + (if minutes > 1 then "s" else "")
  }

  /** `getRemainingTime`, with the clock passed in as `now` (milliseconds). */
  function RemainingTime(expiresAt: int, now: int): string {
    var timeDiff := expiresAt - now;
    if timeDiff <= 0 then "0 seconds"
    else
      var totalSeconds := timeDiff / 1000;
      var minutes := totalSeconds / 60;
      var seconds := totalSeconds % 60;
      if minutes > 0 then MinutesText(minutes) + " " + SecondsText(seconds)
      else SecondsText(seconds)
  }

  /** Whole seconds left before `expiresAt`, or 0 once it is reached. */
  function WholeSecondsLeft(expiresAt: int, now: int): nat {
    if expiresAt - now <= 0 then 0 else (expiresAt - now) / 1000
  }

  lemma NoSpaceInDigits(n: nat)
    ensures ' ' !in DecimalString(n)
  {
    var d := DecimalString(n);
    assert forall i :: 0 <= i < |d| ==> d[i] != ' ';
  }

  lemma SecondsTextSplits(s: nat)
    ensures SecondsText(s) == DecimalString(s) + [' '] + ("second" + (if s != 1 then "s" else ""))
  {
  }

  lemma SecondsTextInjective(s1: nat, s2: nat)
    requires SecondsText(s1) == SecondsText(s2)
    ensures s1 == s2
  {
    SecondsTextSplits(s1);
    SecondsTextSplits(s2);
    NoSpaceInDigits(s1);
    NoSpaceInDigits(s2);
    SplitAtFirst(' ', DecimalString(s1), "second" + (if s1 != 1 then "s" else ""),
                 DecimalString(s2), "second" + (if s2 != 1 then "s" else ""));
    DecimalInjective(s1, s2);
  }

  /** The text for `minutes` and `seconds` as the two branches of getRemainingTime lay it out. */
  function Layout(minutes: nat, seconds: nat): string {
    if minutes > 0 then MinutesText(minutes) + " " + SecondsText(seconds) else SecondsText(seconds)
  }

  /** The first word after the number says which branch produced the text. */
  lemma LayoutSplits(m: nat, s: nat)
    ensures m > 0 ==> Layout(m, s) == DecimalString(m) + [' '] + ("minute" + (if m > 1 then "s" else "") + " " + SecondsText(s))
    ensures m == 0 ==> Layout(m, s) == DecimalString(s) + [' '] + ("second" + (if s != 1 then "s" else ""))
  {
  }

  lemma LayoutInjective(m1: nat, s1: nat, m2: nat, s2: nat)
    requires Layout(m1, s1) == Layout(m2, s2)
    ensures m1 == m2 && s1 == s2
  {
    LayoutSplits(m1, s1);
    LayoutSplits(m2, s2);
    var d1 := if m1 > 0 then DecimalString(m1) else DecimalString(s1);
    var d2 := if m2 > 0 then DecimalString(m2) else DecimalString(s2);
    var t1 := if m1 > 0 then "minute" + (if m1 > 1 then "s" else "") + " " + SecondsText(s1)
              else "second" + (if s1 != 1 then "s" else "");
    var t2 := if m2 > 0 then "minute" + (if m2 > 1 then "s" else "") + " " + SecondsText(s2)
              else "second" + (if s2 != 1 then "s" else "");
    NoSpaceInDigits(if m1 > 0 then m1 else s1);
    NoSpaceInDigits(if m2 > 0 then m2 else s2);
    SplitAtFirst(' ', d1, t1, d2, t2);
    assert t1[0] == (if m1 > 0 then 'm' else 's');
    assert t2[0] == (if m2 > 0 then 'm' else 's');
    if m1 > 0 {
      DecimalInjective(m1, m2);
      var p := "minute" + (if m1 > 1 then "s" else "") + " ";
      assert t1 == p + SecondsText(s1) && t2 == p + SecondsText(s2);
      assert SecondsText(s1) == t1[|p|..] == t2[|p|..] == SecondsText(s2);
      SecondsTextInjective(s1, s2);
    } else {
      DecimalInjective(s1, s2);
    }
  }

  lemma RemainingTimeIsLayout(expiresAt: int, now: int)
    ensures var total := WholeSecondsLeft(expiresAt, now);
      RemainingTime(expiresAt, now) == Layout(total / 60, total % 60)
  {
    assert DecimalString(0) == "0";
  }

  /**
   * The remaining-time text loses nothing but the milliseconds: two texts
   * agree exactly when the whole seconds left agree, and every expiry already
   * reached reads '0 seconds'.
   */
  lemma RemainingTimeDeterminesSeconds(e1: int, n1: int, e2: int, n2: int)
    ensures RemainingTime(e1, n1) == RemainingTime(e2, n2) <==> WholeSecondsLeft(e1, n1) == WholeSecondsLeft(e2, n2)
    ensures e1 <= n1 ==> RemainingTime(e1, n1) == "0 seconds"
  {
    RemainingTimeIsLayout(e1, n1);
    RemainingTimeIsLayout(e2, n2);
    var t1, t2 := WholeSecondsLeft(e1, n1), WholeSecondsLeft(e2, n2);
    if RemainingTime(e1, n1) == RemainingTime(e2, n2) {
      LayoutInjective(t1 / 60, t1 % 60, t2 / 60, t2 % 60);
    }
  }

  /** Sample renderings: singular and plural minutes and seconds, and a sub-second remainder. */
  lemma RemainingTimeMinuteAndSecond()
    ensures RemainingTime(61_000, 0) == "1 minute 1 second"
  {
    assert 61_000 / 1000 == 61 && 61 / 60 == 1 && 61 % 60 == 1;
    OneDigit(1);
    assert MinutesText(1) == "1 minute";
    assert SecondsText(1) == "1 second";
  }

  lemma RemainingTimePlurals()
    ensures RemainingTime(125_500, 0) == "2 minutes 5 seconds"
  {
    assert 125_500 / 1000 == 125 && 125 / 60 == 2 && 125 % 60 == 5;
    OneDigit(2);
    OneDigit(5);
    assert MinutesText(2) == "2 minutes";
    assert SecondsText(5) == "5 seconds";
  }

  lemma RemainingTimeUnderASecond()
    ensures RemainingTime(999, 0) == "0 seconds"
    ensures RemainingTime(1_999, 0) == "1 second"
  {
    assert 999 / 1000 == 0 && 1_999 / 1000 == 1;
    OneDigit(0);
    OneDigit(1);
    assert SecondsText(0) == "0 seconds";
    assert SecondsText(1) == "1 second";
  }

  /** A number below ten renders as its one digit. */
  lemma OneDigit(n: nat)
    requires n < 10
    ensures DecimalString(n) == [('0' as int + n) as char]
  {
  }

  /** What the observable returned by `intercept` emits. */
  datatype Emission =
    | HandlerValue(result: HandlerResult)
    /** the failure path's handler resolves to undefined */
    | Nothing
    | ExpiredNotice(statusCode: int, message: string, expiredAt: int, deleted: nat)
    | CachedReplay(statusCode: int, message: string, data: Option<Body>)

  datatype Reply = Threw(error: Thrown) | Emitted(value: Emission)

  /**
   * The reply, the status set on the response object (if any), and what
   * became of the transaction opened for the request.
   */
  datatype Outcome = Outcome(reply: Reply, responseStatus: Option<int>, committed: bool, rolledBack: bool)

  function Rejected(error: Thrown, responseStatus: Option<int>): Outcome {
    Outcome(Threw(error), responseStatus, false, true)
  }

  function Conflict(message: string): Thrown {
    Http(HttpException(Text(message), HTTP_CONFLICT))
  }

  /**
   * `intercept` as one step on the table. A rollback gives the table back
   * as it was when the transaction began.
   */
  function InterceptStep(table: map<string, IdempotencyKey>, hash: seq<byte> -> string, isUuid: string -> bool,
                         request: Request, header: Option<string>, handler: HandlerOutcome, now: int): Step<Outcome>
  {
    if header.None? || header.value == "" then
      Step(Rejected(Http(HttpException(Text(KEY_REQUIRED), HTTP_BAD_REQUEST)), None), table)
    else if !isUuid(header.value) then
      Step(Rejected(Http(HttpException(Text(KEY_NOT_UUID), HTTP_BAD_REQUEST)), None), table)
    else
      var key := header.value;
      match Lookup(table, key)
      case None =>
        // the key was just found absent in this transaction, so the insert cannot be refused
        var reserved := InsertEntity(table, hash, request, key, now).table;
        (match handler
         case Returned(result) =>
           Step(Outcome(Emitted(HandlerValue(result)), None, true, false), UpdateToSuccess(reserved, key, result).table)
         case Failed(error) =>
           var failed := UpdateToFailure(reserved, key, error);
           if failed.result.Ok? then Step(Outcome(Emitted(Nothing), None, true, false), failed.table)
           else Step(Rejected(failed.result.error, None), table))
      case Some(existing) =>
        match OperationStatusCode(existing.operation)
        case None => Step(Rejected(Conflict(OPERATION_CHECK_FAILED), None), table)
        case Some(status) =>
          if CompareHash(hash, request, existing).Err? then
            Step(Rejected(Http(CompareHash(hash, request, existing).error), Some(status)), table)
          else if existing.operation == Processing then
            if existing.expiresAt < now then
              var deleted := Delete(table, existing.key);
              Step(Outcome(Emitted(ExpiredNotice(status, EXPIRED_MESSAGE, existing.expiresAt, deleted.result)), Some(status), false, false),
                   deleted.table)
            else
              Step(Rejected(Conflict(PROCESSING_CONFLICT + RemainingTime(existing.expiresAt, now)), Some(status)), table)
          else
            Step(Outcome(Emitted(CachedReplay(status, ReplayMessage(existing.operation), existing.responseBody)), Some(status), false, false),
                 table)
  }

  /**
   * The tables the interceptor's step can leave behind: the one it started
   * from (a refusal, a replay or a rollback), the reservation resolved to
   * success or failure, or the table without the expired reservation.
   */
  lemma InterceptTables(table: map<string, IdempotencyKey>, hash: seq<byte> -> string, isUuid: string -> bool,
                        request: Request, key: string, handler: HandlerOutcome, now: int)
    requires key != "" && isUuid(key)
    ensures var t := InterceptStep(table, hash, isUuid, request, Some(key), handler, now).table;
      var reserved := InsertEntity(table, hash, request, key, now).table;
      || t == table
      || (key !in table && handler.Returned? && t == UpdateToSuccess(reserved, key, handler.result).table)
      || (key !in table && handler.Failed? && t == UpdateToFailure(reserved, key, handler.error).table)
      || (key in table && t == Delete(table, table[key].key).table)
  {
  }

  /**
   * Whatever the request and the handler, the interceptor leaves a valid
   * table valid: every row it writes, resolves or deletes goes through the
   * service's steps, and a rollback restores the table it started from.
   */
  lemma InterceptKeepsTableValid(table: map<string, IdempotencyKey>, hash: seq<byte> -> string, isUuid: string -> bool,
                                 request: Request, header: Option<string>, handler: HandlerOutcome, now: int)
    requires TableValid(table)
    ensures TableValid(InterceptStep(table, hash, isUuid, request, header, handler, now).table)
  {
    if header.Some? && header.value != "" && isUuid(header.value) {
      var key := header.value;
      InterceptTables(table, hash, isUuid, request, key, handler, now);
      var result := if handler.Returned? then handler.result else HandlerResult(None, "");
      var error := if handler.Failed? then handler.error else Upstream(AxiosError("", None));
      StepsKeepTableValid(table, hash, request, key, now, result, error);
      StepsKeepTableValid(InsertEntity(table, hash, request, key, now).table, hash, request, key, now, result, error);
      if key in table {
        StepsKeepTableValid(table, hash, request, table[key].key, now, result, error);
      }
    }
  }

  /** A missing, empty or non-UUID key is refused with 400 before the table is read, whatever the handler would do. */
  lemma BadKeyRejectedFirst(table: map<string, IdempotencyKey>, hash: seq<byte> -> string, isUuid: string -> bool,
                            request: Request, header: Option<string>, h1: HandlerOutcome, h2: HandlerOutcome, now: int)
    requires header.None? || header.value == "" || !isUuid(header.value)
    ensures var s := InterceptStep(table, hash, isUuid, request, header, h1, now);
      && s == InterceptStep(table, hash, isUuid, request, header, h2, now)
      && s.table == table
      && s.result.reply.Threw? && s.result.reply.error.Http?
      && s.result.reply.error.exception.status == HTTP_BAD_REQUEST
      && s.result.rolledBack
  {
  }

  /**
   * A fresh key runs the handler. A value is cached as success and committed;
   * an HttpException is cached as failure and committed, and the request then
   * emits nothing; any other error fails `getStatus`, the transaction rolls
   * back and the reservation disappears with it.
   */
  lemma FreshKeyRunsHandler(table: map<string, IdempotencyKey>, hash: seq<byte> -> string, isUuid: string -> bool,
                            request: Request, key: string, handler: HandlerOutcome, now: int)
    requires key != "" && isUuid(key) && key !in table
    ensures var s := InterceptStep(table, hash, isUuid, request, Some(key), handler, now);
      && (handler.Returned? ==>
            && s.result == Outcome(Emitted(HandlerValue(handler.result)), None, true, false)
            && key in s.table && s.table[key].operation == Success
            && s.table[key].responseStatus == Some(NumberOr(handler.result.statusCode, HTTP_CREATED))
            && s.table[key].responseBody == Some(ResultBody(handler.result))
            && s.table[key].requestHash == ServiceFingerprint(hash, request)
            && s.table[key].expiresAt == now + DAY_MS)
      && (handler.Failed? && handler.error.Http? ==>
            && s.result == Outcome(Emitted(Nothing), None, true, false)
            && key in s.table && s.table[key].operation == Failure
            && s.table[key].responseStatus == Some(NumberOr(Some(handler.error.exception.status), HTTP_INTERNAL_SERVER_ERROR))
            && s.table[key].responseBody == Some(ErrorBody(handler.error)))
      && (handler.Failed? && !handler.error.Http? ==>
            && s.result == Rejected(Internal(GET_STATUS_TYPE_ERROR), None)
            && s.table == table)
      && (forall k :: k in table ==> k in s.table && s.table[k] == table[k])
  {
    var reserved := InsertEntity(table, hash, request, key, now).table;
    assert key in reserved;
  }

  /**
   * For a key that has a row, the status set on the response is 200 for a
   * resolved row and 409 for a processing or 'expired' one; any other
   * operation name is refused with 409 before anything else is looked at.
   */
  lemma ExistingRowStatus(table: map<string, IdempotencyKey>, hash: seq<byte> -> string, isUuid: string -> bool,
                          request: Request, key: string, handler: HandlerOutcome, now: int)
    requires key != "" && isUuid(key) && key in table
    ensures var s := InterceptStep(table, hash, isUuid, request, Some(key), handler, now);
      var op := table[key].operation;
      && (OperationStatusCode(op).None? ==> s == Step(Rejected(Conflict(OPERATION_CHECK_FAILED), None), table))
      && ((op.Success? || op.Failure?) ==> s.result.responseStatus == Some(HTTP_OK))
      && ((op.Processing? || op == Unrecognised("expired")) ==> s.result.responseStatus == Some(HTTP_CONFLICT))
      && !s.result.committed
  {
  }

  /**
   * A stored fingerprint that differs from the request's is refused with 422
   * before expiry is looked at: nothing is deleted or replayed.
   */
  lemma MismatchRefusedBeforeExpiry(table: map<string, IdempotencyKey>, hash: seq<byte> -> string, isUuid: string -> bool,
                                    request: Request, key: string, handler: HandlerOutcome, now: int)
    requires key != "" && isUuid(key) && key in table
    requires OperationStatusCode(table[key].operation).Some?
    requires table[key].requestHash != Fingerprint(hash, request)
    ensures var s := InterceptStep(table, hash, isUuid, request, Some(key), handler, now);
      && s.table == table
      && s.result == Rejected(Http(HttpException(Text(PAYLOAD_MISMATCH), HTTP_UNPROCESSABLE_ENTITY)),
                              OperationStatusCode(table[key].operation))
  {
  }

  /**
   * A matching processing row: once its expiry has passed it is deleted and
   * an expiry notice emitted; before that the request is refused with 409
   * and the time left. Neither runs the handler.
   */
  lemma ProcessingRow(table: map<string, IdempotencyKey>, hash: seq<byte> -> string, isUuid: string -> bool,
                      request: Request, key: string, h1: HandlerOutcome, h2: HandlerOutcome, now: int)
    requires key != "" && isUuid(key) && key in table && TableValid(table)
    requires table[key].operation == Processing
    requires table[key].requestHash == Fingerprint(hash, request)
    ensures var s := InterceptStep(table, hash, isUuid, request, Some(key), h1, now);
      && s == InterceptStep(table, hash, isUuid, request, Some(key), h2, now)
      && (table[key].expiresAt < now ==>
            && s.table == table - {key}
            && s.result.reply == Emitted(ExpiredNotice(HTTP_CONFLICT, EXPIRED_MESSAGE, table[key].expiresAt, 1)))
      && (now <= table[key].expiresAt ==>
            && s.table == table
            && s.result.reply == Threw(Conflict(PROCESSING_CONFLICT + RemainingTime(table[key].expiresAt, now))))
  {
  }

  /**
   * A matching resolved row (or one marked 'expired') is answered with its
   * cached body, the table untouched and the handler not run.
   */
  lemma ResolvedRowReplayed(table: map<string, IdempotencyKey>, hash: seq<byte> -> string, isUuid: string -> bool,
                            request: Request, key: string, h1: HandlerOutcome, h2: HandlerOutcome, now: int)
    requires key != "" && isUuid(key) && key in table
    requires var op := table[key].operation; op.Success? || op.Failure? || op == Unrecognised("expired")
    requires table[key].requestHash == Fingerprint(hash, request)
    ensures var s := InterceptStep(table, hash, isUuid, request, Some(key), h1, now);
      && s == InterceptStep(table, hash, isUuid, request, Some(key), h2, now)
      && s.table == table
      && s.result.reply.Emitted? && s.result.reply.value.CachedReplay?
      && s.result.reply.value.data == table[key].responseBody
      && s.result.reply.value.message == ReplayMessage(table[key].operation)
  {
  }

  /**
   * The row a fresh key leaves behind holds the service's fingerprint, while
   * a retry is compared against the shared helper's. With a collision-free
   * hash the two never agree for a request that has a method, so an exact
   * retry of a completed request is refused with 422 instead of replayed.
   */
  lemma ExactRetryRefused(table: map<string, IdempotencyKey>, hash: seq<byte> -> string, isUuid: string -> bool,
                          request: Request, key: string, first: HandlerOutcome, retry: HandlerOutcome, now: int, later: int)
    requires CollisionFree(hash)
    requires request.httpMethod.Some? && request.httpMethod.value != ""
    requires key != "" && isUuid(key) && key !in table
    requires first.Returned? || first.error.Http?
    ensures var s1 := InterceptStep(table, hash, isUuid, request, Some(key), first, now);
      var s2 := InterceptStep(s1.table, hash, isUuid, request, Some(key), retry, later);
      && s2.table == s1.table
      && s2.result.reply == Threw(Http(HttpException(Text(PAYLOAD_MISMATCH), HTTP_UNPROCESSABLE_ENTITY)))
  {
    var s1 := InterceptStep(table, hash, isUuid, request, Some(key), first, now);
    FreshKeyRunsHandler(table, hash, isUuid, request, key, first, now);
    var row := s1.table[key];
    assert row.requestHash == ServiceFingerprint(hash, request);
    ServiceRowFailsComparison(hash, request, row);
  }

  /**
   * The interceptor over the idempotency service. The table is read and
   * written through the service; a rollback restores the rows the
   * transaction started from.
   */
  class IdempotencyInterceptor {
    const service: IdempotencyService

    constructor(service: IdempotencyService)
      ensures this.service == service
    {
      this.service := service;
    }

    method Intercept(hash: seq<byte> -> string, isUuid: string -> bool, request: Request,
                     header: Option<string>, handler: HandlerOutcome, now: int) returns (out: Outcome)
      modifies service.repository
      ensures Step(out, service.repository.rows)
           == InterceptStep(old(service.repository.rows), hash, isUuid, request, header, handler, now)
      ensures old(service.repository.Valid()) ==> service.repository.Valid()
    {
      var start := service.repository.rows;
      if TableValid(start) {
        InterceptKeepsTableValid(start, hash, isUuid, request, header, handler, now);
      }
      if header.None? || header.value == "" {
        return Rejected(Http(HttpException(Text(KEY_REQUIRED), HTTP_BAD_REQUEST)), None);
      }
      var key := header.value;
      if !isUuid(key) {
        return Rejected(Http(HttpException(Text(KEY_NOT_UUID), HTTP_BAD_REQUEST)), None);
      }
      var existing := service.FindOneByKey(key);
      if existing.None? {
        var inserted := service.InsertIdempotencyEntity(hash, request, key, now);
        if handler.Returned? {
          var _ := service.UpdateToSuccessIdempotency(key, handler.result);
          return Outcome(Emitted(HandlerValue(handler.result)), None, true, false);
        }
        var failed := service.UpdateToFailureIdempotency(key, handler.error);
        if failed.Err? {
          service.repository.rows := start;
          return Rejected(failed.error, None);
        }
        return Outcome(Emitted(Nothing), None, true, false);
      }
      var entity := existing.value;
      var statusCode := OperationStatusCode(entity.operation);
      if statusCode.None? {
        return Rejected(Conflict(OPERATION_CHECK_FAILED), None);
      }
      var status := statusCode.value;
      var compared := CompareHash(hash, request, entity);
      if compared.Err? {
        return Rejected(Http(compared.error), Some(status));
      }
      if entity.operation == Processing {
        if entity.expiresAt < now {
          var deleted := service.DeleteByKey(entity.key);
          return Outcome(Emitted(ExpiredNotice(status, EXPIRED_MESSAGE, entity.expiresAt, deleted)), Some(status), false, false);
        }
        return Rejected(Conflict(PROCESSING_CONFLICT + RemainingTime(entity.expiresAt, now)), Some(status));
      }
      out := Outcome(Emitted(CachedReplay(status, ReplayMessage(entity.operation), entity.responseBody)), Some(status), false, false);
    }
  }
}
