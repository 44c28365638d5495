/**
 * The idempotency service: look up, delete, insert and resolve rows of the
 * idempotency_keys table. Each operation is a pure step on the table, and the
 * `IdempotencyService` class performs that step on the shared repository.
 */
module IdempotencyLedger {
  import opened Wrappers
  import opened Http
  import opened Utf8
  import opened IdempotencyRecords
  import opened RequestFingerprint

  /** A fresh key stays reserved for 24 hours. */
  const DAY_MS := 24 * 60 * 60 * 1000
  const REUSED_KEY := "Idempotency-Key reused with different payload"
  const ENTITY_NOT_FOUND := "Idempotency Entity not found"
  /** What calling `getStatus()` on an error that is not an HttpException throws. */
  const GET_STATUS_TYPE_ERROR := "error.getStatus is not a function"

  datatype InsertOutcome = Inserted(entity: IdempotencyKey) | AlreadyExists(entity: IdempotencyKey)

  /** A step's answer together with the table as it leaves the step. */
  datatype Step<T> = Step(result: T, table: map<string, IdempotencyKey>)

  /** The row `insertIdempotencyEntity` asks the table to insert. */
  function ProcessingRow(hash: seq<byte> -> string, request: Request, key: string, now: int): NewRow {
    NewRow(key, request.path, Some(ServiceFingerprint(hash, request)), Processing, Some(HTTP_CREATED), now + DAY_MS)
  }

  /** `after` is `before` with only the operation, the status and the cached body replaced. */
  predicate ResolvedAs(before: IdempotencyKey, after: IdempotencyKey, op: Operation, status: int, body: Body) {
    after == before.(operation := op, responseStatus := Some(status), responseBody := Some(body))
  }

  /** Only the row under `key` may differ, and no key comes or goes. */
  predicate OnlyRowChanged(table: map<string, IdempotencyKey>, after: map<string, IdempotencyKey>, key: string) {
    after.Keys == table.Keys && forall k :: k in table && k != key ==> after[k] == table[k]
  }

  /** `findOneByKey`: in a valid table, the row found is the one filed under the key asked for. */
  function Lookup(table: map<string, IdempotencyKey>, key: string): (r: Option<IdempotencyKey>)
    ensures r.Some? <==> key in table
    ensures r.Some? ==> r.value == table[key]
    ensures TableValid(table) && r.Some? ==> r.value.key == key
  {
    if key in table then Some(table[key]) else None
  }

  /** `deleteByKey`: the result is the number of rows removed. */
  function Delete(table: map<string, IdempotencyKey>, key: string): (s: Step<nat>)
    ensures key !in s.table && s.table.Keys == table.Keys - {key}
    ensures forall k :: k in s.table ==> s.table[k] == table[k]
    ensures s.result == 1 <==> key in table
    ensures s.result <= 1
  {
    Step(if key in table then 1 else 0, table - {key})
  }

  /**
   * `insertIdempotencyEntity`: a fresh key gets a processing row; an existing
   * key is left alone and answered with its row when the stored fingerprint
   * matches, and with 422 when it does not.
   */
  function InsertEntity(table: map<string, IdempotencyKey>, hash: seq<byte> -> string, request: Request, key: string, now: int)
    : (s: Step<Result<InsertOutcome, HttpException>>)
    ensures key !in table ==> s.result.Ok? && s.result.value.Inserted?
    ensures key !in table ==> s.table.Keys == table.Keys + {key}
    ensures key !in table ==> forall k :: k in table ==> s.table[k] == table[k]
    ensures key !in table ==> s.result.value.entity == s.table[key]
    ensures key !in table ==>
      var e := s.table[key];
      && e.key == key && e.operation == Processing && e.responseStatus == Some(HTTP_CREATED)
      && e.requestPath == request.path && e.requestHash == ServiceFingerprint(hash, request)
      && e.createdAt == now && e.expiresAt == now + DAY_MS
      && e.responseBody.None? && e.paymentReceipt.None?
    ensures key in table ==> s.table == table
    ensures key in table ==> (s.result.Ok? <==> table[key].requestHash == ServiceFingerprint(hash, request))
    ensures key in table && s.result.Ok? ==> s.result.value == AlreadyExists(table[key])
    ensures s.result.Err? ==> s.result.error == HttpException(Text(REUSED_KEY), HTTP_UNPROCESSABLE_ENTITY)
  {
    var row := ProcessingRow(hash, request, key, now);
    match InsertRow(table, row, now)
    case Ok(t) => Step(Ok(Inserted(t[key])), t)
    case Err(_) =>
      // the row carries its fingerprint, so only the primary key can refuse it
      var existing := table[key];
      if existing.requestHash != row.requestHash.value then
        Step(Err(HttpException(Text(REUSED_KEY), HTTP_UNPROCESSABLE_ENTITY)), table)
      else Step(Ok(AlreadyExists(existing)), table)
  }

  /**
   * `updateToSuccessIdempotency`: the row takes the handler's result, its
   * status (201 when the result's status is missing or 0) and the success
   * operation. A missing key is swallowed: nothing changes and nothing is
   * returned.
   */
  function UpdateToSuccess(table: map<string, IdempotencyKey>, key: string, result: HandlerResult)
    : (s: Step<Option<IdempotencyKey>>)
    ensures s.result.Some? <==> key in table
    ensures key !in table ==> s.table == table
    ensures OnlyRowChanged(table, s.table, key)
    ensures key in table ==>
      && s.result.value == s.table[key]
      && ResolvedAs(table[key], s.table[key], Success, NumberOr(result.statusCode, HTTP_CREATED), ResultBody(result))
  {
    if key !in table then Step(None, table)
    else
      var entity := table[key].(
        responseBody := Some(ResultBody(result)),
        responseStatus := Some(NumberOr(result.statusCode, HTTP_CREATED)),
        operation := Success);
      Step(Some(entity), table[key := entity])
  }

  /**
   * `updateToFailureIdempotency`: a missing key is a 404; an error that is
   * not an HttpException has no `getStatus`, so the call fails with a type
   * error before anything is saved; otherwise the row takes the error, its
   * status (500 when that is 0) and the failure operation.
   */
  function UpdateToFailure(table: map<string, IdempotencyKey>, key: string, error: Thrown)
    : (s: Step<Result<IdempotencyKey, Thrown>>)
    ensures s.result.Ok? <==> key in table && error.Http?
    ensures key !in table ==> s.result == Err(Http(HttpException(Text(ENTITY_NOT_FOUND), HTTP_NOT_FOUND)))
    ensures key in table && !error.Http? ==> s.result == Err(Internal(GET_STATUS_TYPE_ERROR))
    ensures s.result.Err? ==> s.table == table
    ensures OnlyRowChanged(table, s.table, key)
    ensures s.result.Ok? ==>
      && s.result.value == s.table[key]
      && ResolvedAs(table[key], s.table[key], Failure,
                    NumberOr(Some(error.exception.status), HTTP_INTERNAL_SERVER_ERROR), ErrorBody(error))
  {
    if key !in table then Step(Err(Http(HttpException(Text(ENTITY_NOT_FOUND), HTTP_NOT_FOUND))), table)
    else if !error.Http? then Step(Err(Internal(GET_STATUS_TYPE_ERROR)), table)
    else
      var entity := table[key].(
        responseBody := Some(ErrorBody(error)),
        responseStatus := Some(NumberOr(Some(error.exception.status), HTTP_INTERNAL_SERVER_ERROR)),
        operation := Failure);
      Step(Ok(entity), table[key := entity])
  }

  /** Every step of the service keeps the table valid. */
  lemma StepsKeepTableValid(table: map<string, IdempotencyKey>, hash: seq<byte> -> string, request: Request,
                            key: string, now: int, result: HandlerResult, error: Thrown)
    requires TableValid(table)
    ensures TableValid(Delete(table, key).table)
    ensures TableValid(InsertEntity(table, hash, request, key, now).table)
    ensures TableValid(UpdateToSuccess(table, key, result).table)
    ensures TableValid(UpdateToFailure(table, key, error).table)
  {
    var s := UpdateToSuccess(table, key, result);
    if key in table {
      assert s.table[key].key == key;
    }
    var f := UpdateToFailure(table, key, error);
    if f.result.Ok? {
      assert f.table[key].key == key;
    }
  }

  /**
   * Inserting the same request under the same key twice leaves the table as
   * the first insert left it; the second insert answers with the stored row,
   * or repeats the first one's 422 when the key already held another payload.
   */
  lemma InsertIsIdempotent(table: map<string, IdempotencyKey>, hash: seq<byte> -> string, request: Request,
                           key: string, now: int, later: int)
    ensures var first := InsertEntity(table, hash, request, key, now);
      var second := InsertEntity(first.table, hash, request, key, later);
      && second.table == first.table
      && second.result == if first.result.Ok? then Ok(AlreadyExists(first.table[key])) else first.result
  {
    var first := InsertEntity(table, hash, request, key, now);
    assert key in first.table;
    if first.result.Ok? {
      assert first.table[key].requestHash == ServiceFingerprint(hash, request);
    } else {
      assert first.table == table;
    }
  }

  /**
   * With a collision-free hash, reusing a key for a request whose
   * fingerprinted bytes differ is refused with 422 and changes nothing.
   */
  lemma ReusedKeyWithOtherPayloadRefused(table: map<string, IdempotencyKey>, hash: seq<byte> -> string,
                                         first: Request, second: Request, key: string, now: int, later: int)
    requires CollisionFree(hash)
    requires ServiceFingerprintInput(first) != ServiceFingerprintInput(second)
    requires key !in table
    ensures var s1 := InsertEntity(table, hash, first, key, now);
      var s2 := InsertEntity(s1.table, hash, second, key, later);
      && s2.table == s1.table
      && s2.result == Err(HttpException(Text(REUSED_KEY), HTTP_UNPROCESSABLE_ENTITY))
  {
    var s1 := InsertEntity(table, hash, first, key, now);
    assert s1.table[key].requestHash == ServiceFingerprint(hash, first);
    assert ServiceFingerprint(hash, first) != ServiceFingerprint(hash, second);
  }

  /** Once its row is deleted, a key can be inserted afresh. */
  lemma DeleteFreesKey(table: map<string, IdempotencyKey>, hash: seq<byte> -> string, request: Request, key: string, now: int)
    ensures InsertEntity(Delete(table, key).table, hash, request, key, now).result.Ok?
    ensures InsertEntity(Delete(table, key).table, hash, request, key, now).result.value.Inserted?
  {
  }

  /**
   * Neither update looks at the operation it overwrites: a resolved row can
   * be resolved again, from success to failure and back to success, and the
   * last write wins.
   */
  lemma ResolutionIsNotFinal(table: map<string, IdempotencyKey>, key: string, r1: HandlerResult,
                             e: HttpException, r2: HandlerResult)
    requires key in table
    ensures var s1 := UpdateToSuccess(table, key, r1);
      var s2 := UpdateToFailure(s1.table, key, Http(e));
      var s3 := UpdateToSuccess(s2.table, key, r2);
      && s1.table[key].operation == Success
      && s2.table[key].operation == Failure
      && s3.table[key].operation == Success
      && s3.table[key].responseBody == Some(ResultBody(r2))
      && s3.table[key].requestHash == table[key].requestHash
  {
    var s1 := UpdateToSuccess(table, key, r1);
    assert key in s1.table;
    var s2 := UpdateToFailure(s1.table, key, Http(e));
    assert key in s2.table;
  }

  /**
   * The idempotency service over the shared repository. Every method
   * performs the matching step above.
   */
  class IdempotencyService {
    const repository: Repository

    constructor(repository: Repository)
      ensures this.repository == repository
    {
      this.repository := repository;
    }

    method FindOneByKey(key: string) returns (r: Option<IdempotencyKey>)
      ensures r.Some? <==> key in repository.rows
      ensures r.Some? ==> r.value == repository.rows[key] && (repository.Valid() ==> r.value.key == key)
    {
      if key in repository.rows {
        r := Some(repository.rows[key]);
      } else {
        r := None;
      }
    }

    method DeleteByKey(key: string) returns (affected: nat)
      modifies repository
      ensures Step(affected, repository.rows) == Delete(old(repository.rows), key)
      ensures old(repository.Valid()) ==> repository.Valid()
    {
      affected := if key in repository.rows then 1 else 0;
      repository.rows := repository.rows - {key};
    }

    method InsertIdempotencyEntity(hash: seq<byte> -> string, request: Request, key: string, now: int)
      returns (r: Result<InsertOutcome, HttpException>)
      modifies repository
      ensures Step(r, repository.rows) == InsertEntity(old(repository.rows), hash, request, key, now)
      ensures old(repository.Valid()) ==> repository.Valid()
    {
      var row := ProcessingRow(hash, request, key, now);
      var inserted := InsertRow(repository.rows, row, now);
      if inserted.Ok? {
        repository.rows := inserted.value;
        r := Ok(Inserted(repository.rows[key]));
        return;
      }
      var existing := repository.rows[key];
      if existing.requestHash != row.requestHash.value {
        r := Err(HttpException(Text(REUSED_KEY), HTTP_UNPROCESSABLE_ENTITY));
      } else {
        r := Ok(AlreadyExists(existing));
      }
    }

    method UpdateToSuccessIdempotency(key: string, result: HandlerResult) returns (r: Option<IdempotencyKey>)
      modifies repository
      ensures Step(r, repository.rows) == UpdateToSuccess(old(repository.rows), key, result)
      ensures old(repository.Valid()) ==> repository.Valid()
    {
      var existing := FindOneByKey(key);
      if existing.None? {
        // the not-found error is caught and only logged
        return None;
      }
      var entity := existing.value;
      entity := entity.(responseBody := Some(ResultBody(result)));
      entity := entity.(responseStatus := Some(NumberOr(result.statusCode, HTTP_CREATED)));
      entity := entity.(operation := Success);
      repository.rows := repository.rows[key := entity];
      r := Some(entity);
    }

    method UpdateToFailureIdempotency(key: string, error: Thrown) returns (r: Result<IdempotencyKey, Thrown>)
      modifies repository
      ensures Step(r, repository.rows) == UpdateToFailure(old(repository.rows), key, error)
      ensures old(repository.Valid()) ==> repository.Valid()
    {
      var existing := FindOneByKey(key);
      if existing.None? {
        return Err(Http(HttpException(Text(ENTITY_NOT_FOUND), HTTP_NOT_FOUND)));
      }
      var entity := existing.value.(responseBody := Some(ErrorBody(error)));
      if !error.Http? {
        return Err(Internal(GET_STATUS_TYPE_ERROR));
      }
      entity := entity.(responseStatus := Some(NumberOr(Some(error.exception.status), HTTP_INTERNAL_SERVER_ERROR)));
      entity := entity.(operation := Failure);
      repository.rows := repository.rows[key := entity];
      r := Ok(entity);
    }
  }
}
