/**
 * The idempotency_keys table: one row per client-supplied key, holding the
 * request fingerprint, the disposition of the request and the cached reply.
 */
module IdempotencyRecords {
  import opened Wrappers
  import opened Http

  /**
   * The operation column. The entity's type admits three values; the column
   * itself is a plain string, so a row written by other means may hold any
   * other name, which the interceptors must classify too.
   */
  datatype Operation = Processing | Success | Failure | Unrecognised(name: string)

  function OperationName(op: Operation): string {
    match op
    case Processing => "processing"
    case Success => "success"
    case Failure => "failure"
    case Unrecognised(name) => name
  }

  /** An Unrecognised name is never one of the three declared names. */
  predicate WellFormedOperation(op: Operation) {
    op.Unrecognised? ==> op.name != "processing" && op.name != "success" && op.name != "failure"
  }

  /** The operations the entity declares. */
  predicate IsDeclared(op: Operation) {
    !op.Unrecognised?
  }

  /** Distinct well-formed operations have distinct names, so the column value determines the operation. */
  lemma OperationNamesDistinct(a: Operation, b: Operation)
    requires WellFormedOperation(a) && WellFormedOperation(b)
    ensures OperationName(a) == OperationName(b) <==> a == b
  {
  }

  /**
   * A stored row. `key` is the primary key; `requestHash` is NOT NULL,
   * `requestPath`, `responseStatus` and `responseBody` may be NULL;
   * `paymentReceipt` is the id of the one receipt the row may link to;
   * timestamps are milliseconds since the epoch.
   */
  datatype IdempotencyKey = IdempotencyKey(
    key: string,
    paymentReceipt: Option<string>,
    requestPath: Option<string>,
    requestHash: string,
    operation: Operation,
    responseStatus: Option<int>,
    responseBody: Option<Body>,
    createdAt: int,
    expiresAt: int)

  /**
   * A row as an INSERT statement carries it. Any column may be left out,
   * the NOT NULL `requestHash` included; `createdAt` is filled by the
   * database default.
   */
  datatype NewRow = NewRow(
    key: string,
    requestPath: Option<string>,
    requestHash: Option<string>,
    operation: Operation,
    responseStatus: Option<int>,
    expiresAt: int)

  /** The PostgreSQL errors an INSERT into the table can raise. */
  datatype DbError =
    | NotNullViolation   // SQLSTATE 23502
    | UniqueViolation    // SQLSTATE 23505

  function DbErrorCode(e: DbError): string {
    match e
    case NotNullViolation => "23502"
    case UniqueViolation => "23505"
  }

  /**
   * What the table does with an INSERT: the NOT NULL constraint is checked
   * on the row before the primary-key index is, and a row that passes both
   * is stored with createdAt = now.
   */
  function InsertRow(table: map<string, IdempotencyKey>, row: NewRow, now: int): (r: Result<map<string, IdempotencyKey>, DbError>)
    ensures r.Ok? <==> row.requestHash.Some? && row.key !in table
    ensures r.Ok? ==> r.value.Keys == table.Keys + {row.key}
    ensures r.Ok? ==> forall k :: k in table ==> r.value[k] == table[k]
    ensures r.Ok? ==> var stored := r.value[row.key];
      && stored.key == row.key && stored.requestHash == row.requestHash.value
      && stored.operation == row.operation && stored.expiresAt == row.expiresAt
      && stored.createdAt == now && stored.responseBody.None? && stored.paymentReceipt.None?
    ensures r.Err? ==> (r.error == NotNullViolation <==> row.requestHash.None?)
  {
    if row.requestHash.None? then Err(NotNullViolation)
    else if row.key in table then Err(UniqueViolation)
    else
      Ok(table[row.key := IdempotencyKey(
        row.key, None, row.requestPath, row.requestHash.value, row.operation,
        row.responseStatus, None, now, row.expiresAt)])
  }

  /** Every row is filed under its own key and names a well-formed operation. */
  predicate TableValid(table: map<string, IdempotencyKey>) {
    forall k :: k in table ==> table[k].key == k && WellFormedOperation(table[k].operation)
  }

  /** A successful INSERT keeps the table valid when the new row's operation is well formed. */
  lemma InsertKeepsValid(table: map<string, IdempotencyKey>, row: NewRow, now: int)
    requires TableValid(table) && WellFormedOperation(row.operation)
    ensures InsertRow(table, row, now).Ok? ==> TableValid(InsertRow(table, row, now).value)
  {
  }

  /**
   * The idempotency_keys repository every component shares: the rows as the
   * current transaction sees them.
   */
  class Repository {
    var rows: map<string, IdempotencyKey>

    constructor()
      ensures rows == map[]
    {
      rows := map[];
    }

    ghost predicate Valid()
      reads this
    {
      TableValid(rows)
    }
  }
}
