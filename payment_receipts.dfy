/**
 * The payment_receipts table and the service that moves a receipt through
 * its lifecycle: authorize creates it, capture, refund and void each check
 * its state, call the processor and write the operation's own id, timestamp
 * and state.
 *
 * The processor is a parameter from the request the service sends to the
 * reply it gets; the clock and the fresh receipt id are parameters too. The
 * store is the map of receipts as the service's transaction sees it.
 */
module PaymentReceipts {
  import opened Wrappers
  import opened Http
  import opened IdempotencyRecords
  import PSM = PaymentStateMachine
  import Mockbank
  import Dtos = MockbankDtos

  // ------------------------------------------------------------- entity

  datatype ReceiptStatus = Pending | Authorized | Captured | Voided | Refunded

  /** The values of the `state` enum column. */
  function StatusName(s: ReceiptStatus): string {
    match s
    case Pending => "pending"
    case Authorized => "authorized"
    case Captured => "captured"
    case Voided => "voided"
    case Refunded => "refunded"
  }

  /** The same five statuses as the lifecycle state machine names them. */
  function MachineStatus(s: ReceiptStatus): PSM.PaymentStatus {
    match s
    case Pending => PSM.Pending
    case Authorized => PSM.Authorized
    case Captured => PSM.Captured
    case Voided => PSM.Voided
    case Refunded => PSM.Refunded
  }

  lemma StatusNamesDistinct(a: ReceiptStatus, b: ReceiptStatus)
    ensures StatusName(a) == StatusName(b) <==> a == b
    ensures MachineStatus(a) == MachineStatus(b) <==> a == b
  {
  }

  /**
   * A row of payment_receipts. `amount` is an integer column; the four
   * processor ids and the per-transition timestamps are nullable;
   * timestamps are milliseconds since the epoch.
   */
  datatype PaymentReceipt = PaymentReceipt(
    id: string,
    orderId: string,
    cardNumber: string,
    amount: int,
    currency: string,
    state: ReceiptStatus,
    authorizationId: Option<string>,
    captureId: Option<string>,
    voidId: Option<string>,
    refundId: Option<string>,
    pendingAt: Option<int>,
    authorizedAt: Option<int>,
    capturedAt: Option<int>,
    voidedAt: Option<int>,
    refundedAt: Option<int>,
    expiresAt: Option<int>,
    createdAt: int,
    updatedAt: int)

  /** The table's CHECK constraints. */
  predicate SatisfiesChecks(r: PaymentReceipt) {
    r.amount > 0 && r.currency == "USD"
  }

  /**
   * The timestamps and processor ids present are those of the transitions
   * the receipt went through: an operation's id is absent until the
   * operation succeeded.
   */
  predicate HistoryMatchesState(r: PaymentReceipt) {
    && r.pendingAt.Some?
    && (r.authorizedAt.Some? <==> r.state != Pending)
    && (r.capturedAt.Some? <==> r.state == Captured || r.state == Refunded)
    && (r.voidedAt.Some? <==> r.state == Voided)
    && (r.refundedAt.Some? <==> r.state == Refunded)
    && (r.state == Pending ==> r.authorizationId.None?)
    && (r.state != Captured && r.state != Refunded ==> r.captureId.None?)
    && (r.state != Voided ==> r.voidId.None?)
    && (r.state != Refunded ==> r.refundId.None?)
    && r.expiresAt.None?
  }

  /** Every stored receipt is filed under its own id, meets the checks and has a consistent history. */
  predicate StoreValid(receipts: map<string, PaymentReceipt>) {
    forall id :: id in receipts ==>
      receipts[id].id == id && SatisfiesChecks(receipts[id]) && HistoryMatchesState(receipts[id])
  }

  // ---------------------------------------------------------- processor

  /** What the service sends to the processor, with the caller's idempotency key. */
  datatype ProcessorRequest =
    | AuthorizeCall(authorizeRequest: Dtos.AuthorizeRequest, key: string)
    | CaptureCall(captureRequest: Dtos.CaptureRequest, key: string)
    | RefundCall(refundRequest: Dtos.RefundRequest, key: string)
    | VoidCall(voidRequest: Dtos.VoidRequest, key: string)

  /**
   * What `lastValueFrom` of a processor call yields: an answer whose data
   * carries the new id (absent when the data lacks it), an HttpException
   * returned as a value, or an error thrown.
   */
  datatype ProcessorReply =
    | Approved(id: Option<string>)
    | ReturnedException(exception: HttpException)
    | Raised(error: Thrown)

  /** The reply one of the processor clients produces; `idOf` reads the id field out of the answer's data. */
  function FromClient(r: Result<Mockbank.Wrapped, Thrown>, idOf: string -> Option<string>): ProcessorReply {
    match r
    case Ok(w) => Approved(idOf(w.data))
    case Err(t) => Raised(t)
  }

  /** The clients never hand back an HttpException as a value: they throw it. */
  lemma ClientsNeverReturnExceptions(r: Result<Mockbank.Wrapped, Thrown>, idOf: string -> Option<string>)
    ensures !FromClient(r, idOf).ReturnedException?
    ensures r.Err? <==> FromClient(r, idOf).Raised?
  {
  }

  // ------------------------------------------------------------ outcomes

  const NOT_PENDING := "Rejected: Payment Receipt is not in pending state"
  const NOT_AUTHORIZED := "Rejected: Payment Receipt is not in authorized state"
  const NOT_CAPTURED := "Rejected: Payment Receipt is not in captured state"
  const REFUND_REJECTED := "Rejected: Payment Receipt was rejected to be refunded"
  const VOID_REJECTED := "Rejected: Payment Receipt was rejected to be voided"
  const AUTHORIZED_MESSAGE := "Successful authorization"
  /** `getOneOrFail` finding no receipt. */
  const ENTITY_NOT_FOUND := "EntityNotFoundError"
  /** Reading `.data` of a reply that has none. */
  const TYPE_ERROR := "TypeError: Cannot read properties of undefined"
  /** SQLSTATE 23514, the CHECK constraint refusing a row. */
  const CHECK_VIOLATION := "23514"

  function Rejection(message: string, status: int): Thrown {
    Http(HttpException(Text(message), status))
  }

  /** What an operation hands back: its status code and message (authorize only) and the receipt, or what it threw. */
  datatype Reply =
    | Succeeded(statusCode: Option<int>, message: Option<string>, receipt: PaymentReceipt)
    | Threw(error: Thrown)

  /**
   * The reply, the processor request sent (if any), and what became of the
   * operation's own transaction.
   */
  datatype Outcome = Outcome(reply: Reply, sent: Option<ProcessorRequest>, rolledBack: bool, committed: bool)

  /** An outcome with the receipts and idempotency rows it leaves behind. */
  datatype Effect = Effect(outcome: Outcome, receipts: map<string, PaymentReceipt>, keys: map<string, IdempotencyKey>)

  // ----------------------------------------------------------- authorize

  /** The body of an authorization request, with the order it pays for. */
  datatype AuthorizeInput = AuthorizeInput(
    amount: int,
    cardNumber: string,
    cvv: string,
    expiryMonth: real,
    expiryYear: real,
    orderId: string)

  /** The receipt `create` builds: the caller's order, card and amount, USD, pending since now. */
  function PendingReceipt(id: string, input: AuthorizeInput, now: int): (r: PaymentReceipt)
    ensures r.id == id && r.orderId == input.orderId && r.cardNumber == input.cardNumber && r.amount == input.amount
    ensures r.currency == "USD" && r.state == Pending && r.pendingAt == Some(now)
    ensures r.authorizationId.None? && r.captureId.None? && r.voidId.None? && r.refundId.None?
    ensures r.authorizedAt.None? && r.capturedAt.None? && r.voidedAt.None? && r.refundedAt.None?
    ensures input.amount > 0 ==> SatisfiesChecks(r) && HistoryMatchesState(r)
  {
    PaymentReceipt(id, input.orderId, input.cardNumber, input.amount, "USD", Pending,
      None, None, None, None, Some(now), None, None, None, None, None, now, now)
  }

  /** The authorization request the service forwards to the processor. */
  function AuthorizeRequestOf(input: AuthorizeInput): Dtos.AuthorizeRequest {
    Dtos.AuthorizeRequest(Some(input.amount as real), Some(input.cardNumber), Some(input.cvv),
      Some(input.expiryMonth), Some(input.expiryYear))
  }

  /** `update(idempotencyKey, { paymentReceipt })`: an UPDATE by primary key, which changes nothing when the key has no row. */
  function LinkKey(keys: map<string, IdempotencyKey>, key: string, receiptId: string): (k: map<string, IdempotencyKey>)
    ensures k.Keys == keys.Keys
    ensures key in keys ==> k[key] == keys[key].(paymentReceipt := Some(receiptId))
    ensures forall other :: other in keys && other != key ==> k[other] == keys[other]
  {
    if key in keys then keys[key := keys[key].(paymentReceipt := Some(receiptId))] else keys
  }

  /**
   * `authorizePaymentReceipt`. The pending receipt is saved through the
   * repository, outside the caller's transaction, so it stays whatever
   * happens next. The re-read inside the transaction finds that same
   * receipt, so its pending check cannot fire. The transaction belongs to
   * the caller: this operation neither commits nor rolls back.
   */
  function AuthorizeStep(
    receipts: map<string, PaymentReceipt>, keys: map<string, IdempotencyKey>,
    processor: ProcessorRequest -> ProcessorReply,
    input: AuthorizeInput, key: string, freshId: string, now: int): Effect
  {
    var payload := PendingReceipt(freshId, input, now);
    if !SatisfiesChecks(payload) then
      Effect(Outcome(Threw(Internal(CHECK_VIOLATION)), None, false, false), receipts, keys)
    else
      var saved := receipts[freshId := payload];
      var current := saved[freshId];
      if current.state != Pending then
        Effect(Outcome(Threw(Rejection(NOT_PENDING, HTTP_BAD_REQUEST)), None, false, false), saved, keys)
      else
        var request := AuthorizeCall(AuthorizeRequestOf(input), key);
        match processor(request)
        case Raised(t) => Effect(Outcome(Threw(t), Some(request), false, false), saved, keys)
        case ReturnedException(_) => Effect(Outcome(Threw(Internal(TYPE_ERROR)), Some(request), false, false), saved, keys)
        case Approved(authorizationId) =>
          var authorized := current.(authorizationId := authorizationId, authorizedAt := Some(now), state := Authorized);
          Effect(Outcome(Succeeded(Some(HTTP_CREATED), Some(AUTHORIZED_MESSAGE), authorized), Some(request), false, false),
            saved[freshId := authorized], LinkKey(keys, key, freshId))
  }

  /**
   * Authorize: a non-positive amount is refused by the CHECK constraint
   * before anything is stored or sent. Otherwise the pending receipt is
   * stored, the caller's card data and key go to the processor, and the
   * outcome is decided by the reply alone; the pending re-check never fires.
   */
  lemma AuthorizeContract(
    receipts: map<string, PaymentReceipt>, keys: map<string, IdempotencyKey>,
    processor: ProcessorRequest -> ProcessorReply,
    input: AuthorizeInput, key: string, freshId: string, now: int)
    requires freshId !in receipts
    ensures var e := AuthorizeStep(receipts, keys, processor, input, key, freshId, now);
      var pending := PendingReceipt(freshId, input, now);
      var request := AuthorizeCall(AuthorizeRequestOf(input), key);
      && !e.outcome.rolledBack && !e.outcome.committed
      && (e.outcome.sent.Some? <==> input.amount > 0)
      && (input.amount <= 0 ==>
            e == Effect(Outcome(Threw(Internal(CHECK_VIOLATION)), None, false, false), receipts, keys))
      && (input.amount > 0 ==>
            && e.outcome.sent == Some(request)
            && e.receipts.Keys == receipts.Keys + {freshId}
            && (forall id :: id in receipts ==> e.receipts[id] == receipts[id])
            && (processor(request).Raised? ==>
                  e.outcome.reply == Threw(processor(request).error) && e.receipts[freshId] == pending && e.keys == keys)
            && (processor(request).ReturnedException? ==>
                  e.outcome.reply == Threw(Internal(TYPE_ERROR)) && e.receipts[freshId] == pending && e.keys == keys)
            && (processor(request).Approved? ==>
                  var r := e.receipts[freshId];
                  && e.outcome.reply == Succeeded(Some(HTTP_CREATED), Some(AUTHORIZED_MESSAGE), r)
                  && r == pending.(authorizationId := processor(request).id, authorizedAt := Some(now), state := Authorized)
                  && e.keys == LinkKey(keys, key, freshId)))
  {
    var e := AuthorizeStep(receipts, keys, processor, input, key, freshId, now);
    if input.amount > 0 {
      var saved := receipts[freshId := PendingReceipt(freshId, input, now)];
      assert saved[freshId].state == Pending;
      assert e.receipts.Keys == saved.Keys;
      forall id | id in receipts
        ensures e.receipts[id] == receipts[id]
      {
        assert id != freshId;
      }
    }
  }

  // --------------------------------------------- capture, refund, void

  /** `getOneOrFail` finding nothing: the error is rethrown after the rollback. */
  function NotFound(receipts: map<string, PaymentReceipt>, keys: map<string, IdempotencyKey>): Effect {
    Effect(Outcome(Threw(Internal(ENTITY_NOT_FOUND)), None, true, false), receipts, keys)
  }

  /** Any error after the processor was called: rolled back and rethrown, nothing written. */
  function Failed(receipts: map<string, PaymentReceipt>, keys: map<string, IdempotencyKey>, t: Thrown, sent: Option<ProcessorRequest>): Effect {
    Effect(Outcome(Threw(t), sent, true, false), receipts, keys)
  }

  /**
   * `capturePaymentReceipt`: an authorized receipt's own amount and
   * authorization id go to the processor; the new capture id, the time and
   * the captured state are saved, and the query runner is released without a
   * commit. A reply without data fails on reading it.
   */
  function CaptureStep(
    receipts: map<string, PaymentReceipt>, keys: map<string, IdempotencyKey>,
    processor: ProcessorRequest -> ProcessorReply, receiptId: string, key: string, now: int): Effect
  {
    if receiptId !in receipts then NotFound(receipts, keys)
    else
      var r := receipts[receiptId];
      if r.state != Authorized then Failed(receipts, keys, Rejection(NOT_AUTHORIZED, HTTP_BAD_REQUEST), None)
      else
        var request := CaptureCall(Dtos.CaptureRequest(Some(r.amount as real), r.authorizationId), key);
        match processor(request)
        case Raised(t) => Failed(receipts, keys, t, Some(request))
        case ReturnedException(_) => Failed(receipts, keys, Internal(TYPE_ERROR), Some(request))
        case Approved(captureId) =>
          var captured := r.(captureId := captureId, capturedAt := Some(now), state := Captured);
          Effect(Outcome(Succeeded(None, None, captured), Some(request), false, false), receipts[receiptId := captured], keys)
  }

  /**
   * `refundPaymentReceipt`: a captured receipt's amount and capture id go to
   * the processor; an HttpException handed back becomes a 403.
   */
  function RefundStep(
    receipts: map<string, PaymentReceipt>, keys: map<string, IdempotencyKey>,
    processor: ProcessorRequest -> ProcessorReply, receiptId: string, key: string, now: int): Effect
  {
    if receiptId !in receipts then NotFound(receipts, keys)
    else
      var r := receipts[receiptId];
      if r.state != Captured then Failed(receipts, keys, Rejection(NOT_CAPTURED, HTTP_BAD_REQUEST), None)
      else
        var request := RefundCall(Dtos.RefundRequest(Some(r.amount as real), r.captureId), key);
        match processor(request)
        case Raised(t) => Failed(receipts, keys, t, Some(request))
        case ReturnedException(_) => Failed(receipts, keys, Rejection(REFUND_REJECTED, HTTP_FORBIDDEN), Some(request))
        case Approved(refundId) =>
          var refunded := r.(refundId := refundId, refundedAt := Some(now), state := Refunded);
          Effect(Outcome(Succeeded(None, None, refunded), Some(request), false, false), receipts[receiptId := refunded], keys)
  }

  /**
   * `voidPaymentReceipt`: like capture, but a receipt in the wrong state is
   * refused with 403, only the authorization id is sent, and an
   * HttpException handed back becomes a 403.
   */
  function VoidStep(
    receipts: map<string, PaymentReceipt>, keys: map<string, IdempotencyKey>,
    processor: ProcessorRequest -> ProcessorReply, receiptId: string, key: string, now: int): Effect
  {
    if receiptId !in receipts then NotFound(receipts, keys)
    else
      var r := receipts[receiptId];
      if r.state != Authorized then Failed(receipts, keys, Rejection(NOT_AUTHORIZED, HTTP_FORBIDDEN), None)
      else
        var request := VoidCall(Dtos.VoidRequest(r.authorizationId), key);
        match processor(request)
        case Raised(t) => Failed(receipts, keys, t, Some(request))
        case ReturnedException(_) => Failed(receipts, keys, Rejection(VOID_REJECTED, HTTP_FORBIDDEN), Some(request))
        case Approved(voidId) =>
          var voided := r.(voidId := voidId, voidedAt := Some(now), state := Voided);
          Effect(Outcome(Succeeded(None, None, voided), Some(request), false, false), receipts[receiptId := voided], keys)
  }

  /** The three operations on an existing receipt, by lifecycle operation. */
  function SettleStep(
    op: PSM.Operation,
    receipts: map<string, PaymentReceipt>, keys: map<string, IdempotencyKey>,
    processor: ProcessorRequest -> ProcessorReply, receiptId: string, key: string, now: int): Effect
    requires op != PSM.Authorize
  {
    match op
    case Capture => CaptureStep(receipts, keys, processor, receiptId, key, now)
    case Refund => RefundStep(receipts, keys, processor, receiptId, key, now)
    case Void => VoidStep(receipts, keys, processor, receiptId, key, now)
  }

  /** The status each operation refuses a receipt with when its state is wrong. */
  function GuardStatus(op: PSM.Operation): int {
    if op == PSM.Void then HTTP_FORBIDDEN else HTTP_BAD_REQUEST
  }

  /** The timestamp column operation `op` sets when it succeeds. */
  function OwnTimestamp(op: PSM.Operation, r: PaymentReceipt): Option<int> {
    match op
    case Authorize => r.authorizedAt
    case Capture => r.capturedAt
    case Refund => r.refundedAt
    case Void => r.voidedAt
  }

  /** `after` differs from `before` at most in the fields operation `op` writes. */
  predicate WritesOnlyOwnFields(op: PSM.Operation, before: PaymentReceipt, after: PaymentReceipt) {
    && after.id == before.id && after.orderId == before.orderId && after.cardNumber == before.cardNumber
    && after.amount == before.amount && after.currency == before.currency
    && after.pendingAt == before.pendingAt && after.expiresAt == before.expiresAt
    && after.createdAt == before.createdAt && after.updatedAt == before.updatedAt
    && (op != PSM.Authorize ==> after.authorizationId == before.authorizationId && after.authorizedAt == before.authorizedAt)
    && (op != PSM.Capture ==> after.captureId == before.captureId && after.capturedAt == before.capturedAt)
    && (op != PSM.Void ==> after.voidId == before.voidId && after.voidedAt == before.voidedAt)
    && (op != PSM.Refund ==> after.refundId == before.refundId && after.refundedAt == before.refundedAt)
  }

  /**
   * The guards agree with the lifecycle: an operation reaches the processor
   * exactly when the state machine's transit accepts the operation's events
   * from the receipt's status; otherwise it is refused with 400, or 403 for
   * void, and nothing is sent.
   */
  lemma GuardsFollowStateMachine(
    op: PSM.Operation, receipts: map<string, PaymentReceipt>, keys: map<string, IdempotencyKey>,
    processor: ProcessorRequest -> ProcessorReply, receiptId: string, key: string, now: int,
    target: Option<PSM.PaymentStatus>)
    requires op != PSM.Authorize && receiptId in receipts
    ensures var e := SettleStep(op, receipts, keys, processor, receiptId, key, now);
      var status := MachineStatus(receipts[receiptId].state);
      && (e.outcome.sent.Some? <==> PSM.Transit(op, PSM.PaymentState(status, target), PSM.SuccessEvent(op)).Ok?)
      && (e.outcome.sent.None? ==>
            (e.outcome.reply.Threw? && e.outcome.reply.error.Http?
             && e.outcome.reply.error.exception.status == GuardStatus(op)))
  {
  }

  /**
   * A successful operation moves the receipt along an edge of the lifecycle
   * to the operation's status and writes only its own fields; the rest of the
   * store and the idempotency rows stay as they were, and the transaction is
   * neither committed nor rolled back.
   */
  lemma SuccessFollowsEdge(
    op: PSM.Operation, receipts: map<string, PaymentReceipt>, keys: map<string, IdempotencyKey>,
    processor: ProcessorRequest -> ProcessorReply, receiptId: string, key: string, now: int)
    requires op != PSM.Authorize
    requires SettleStep(op, receipts, keys, processor, receiptId, key, now).outcome.reply.Succeeded?
    ensures var e := SettleStep(op, receipts, keys, processor, receiptId, key, now);
      var before := receipts[receiptId];
      var after := e.receipts[receiptId];
      && receiptId in receipts
      && e.outcome.reply.receipt == after
      && PSM.LegalEdge(MachineStatus(before.state), MachineStatus(after.state))
      && MachineStatus(after.state) == PSM.SuccessStatus(op)
      && WritesOnlyOwnFields(op, before, after)
      && OwnTimestamp(op, after) == Some(now)
      && e.receipts.Keys == receipts.Keys
      && (forall id :: id in receipts && id != receiptId ==> e.receipts[id] == receipts[id])
      && e.keys == keys
      && !e.outcome.committed && !e.outcome.rolledBack
  {
    match op
    case Capture =>
    case Refund =>
    case Void =>
  }

  /** Every error rolls the operation's transaction back and leaves the store as it was. */
  lemma ErrorsRollBack(
    op: PSM.Operation, receipts: map<string, PaymentReceipt>, keys: map<string, IdempotencyKey>,
    processor: ProcessorRequest -> ProcessorReply, receiptId: string, key: string, now: int)
    requires op != PSM.Authorize
    ensures var e := SettleStep(op, receipts, keys, processor, receiptId, key, now);
      e.outcome.reply.Threw? <==> e.outcome.rolledBack
    ensures var e := SettleStep(op, receipts, keys, processor, receiptId, key, now);
      e.outcome.reply.Threw? ==> e.receipts == receipts && e.keys == keys && !e.outcome.committed
  {
  }

  /** What each operation sends: the receipt's own amount and processor ids, with the caller's key. */
  lemma RequestsCarryReceiptData(
    receipts: map<string, PaymentReceipt>, keys: map<string, IdempotencyKey>,
    processor: ProcessorRequest -> ProcessorReply, receiptId: string, key: string, now: int)
    requires receiptId in receipts
    ensures var r := receipts[receiptId];
      CaptureStep(receipts, keys, processor, receiptId, key, now).outcome.sent.Some? ==>
        CaptureStep(receipts, keys, processor, receiptId, key, now).outcome.sent ==
          Some(CaptureCall(Dtos.CaptureRequest(Some(r.amount as real), r.authorizationId), key))
    ensures var r := receipts[receiptId];
      RefundStep(receipts, keys, processor, receiptId, key, now).outcome.sent.Some? ==>
        RefundStep(receipts, keys, processor, receiptId, key, now).outcome.sent ==
          Some(RefundCall(Dtos.RefundRequest(Some(r.amount as real), r.captureId), key))
    ensures var r := receipts[receiptId];
      VoidStep(receipts, keys, processor, receiptId, key, now).outcome.sent.Some? ==>
        VoidStep(receipts, keys, processor, receiptId, key, now).outcome.sent ==
          Some(VoidCall(Dtos.VoidRequest(r.authorizationId), key))
  {
  }

  /**
   * How a reply handed back instead of thrown is treated: capture fails on
   * reading its data, refund and void turn it into a 403. With the real
   * clients it never happens, so the processor's own error reaches the caller.
   */
  lemma ReturnedExceptions(
    receipts: map<string, PaymentReceipt>, keys: map<string, IdempotencyKey>,
    processor: ProcessorRequest -> ProcessorReply, receiptId: string, key: string, now: int)
    requires receiptId in receipts
    ensures var e := CaptureStep(receipts, keys, processor, receiptId, key, now);
      e.outcome.sent.Some? && processor(e.outcome.sent.value).ReturnedException? ==> e.outcome.reply == Threw(Internal(TYPE_ERROR))
    ensures var e := RefundStep(receipts, keys, processor, receiptId, key, now);
      e.outcome.sent.Some? && processor(e.outcome.sent.value).ReturnedException? ==> e.outcome.reply == Threw(Rejection(REFUND_REJECTED, HTTP_FORBIDDEN))
    ensures var e := VoidStep(receipts, keys, processor, receiptId, key, now);
      e.outcome.sent.Some? && processor(e.outcome.sent.value).ReturnedException? ==> e.outcome.reply == Threw(Rejection(VOID_REJECTED, HTTP_FORBIDDEN))
    ensures var e := VoidStep(receipts, keys, processor, receiptId, key, now);
      e.outcome.sent.Some? && processor(e.outcome.sent.value).Raised? ==> e.outcome.reply == Threw(processor(e.outcome.sent.value).error)
  {
  }

  /** Refunded and voided receipts are final: every operation refuses them without calling the processor. */
  lemma TerminalReceipts(
    op: PSM.Operation, receipts: map<string, PaymentReceipt>, keys: map<string, IdempotencyKey>,
    processor: ProcessorRequest -> ProcessorReply, receiptId: string, key: string, now: int)
    requires op != PSM.Authorize && receiptId in receipts
    requires receipts[receiptId].state == Refunded || receipts[receiptId].state == Voided
    ensures var e := SettleStep(op, receipts, keys, processor, receiptId, key, now);
      e.outcome.sent.None? && e.outcome.reply.Threw? && e.receipts == receipts
  {
  }

  /** Authorize keeps the store valid: the new receipt is pending, or authorized with its authorization time set. */
  lemma AuthorizeKeepsStoreValid(
    receipts: map<string, PaymentReceipt>, keys: map<string, IdempotencyKey>,
    processor: ProcessorRequest -> ProcessorReply, input: AuthorizeInput, key: string, freshId: string, now: int)
    requires StoreValid(receipts) && freshId !in receipts
    ensures StoreValid(AuthorizeStep(receipts, keys, processor, input, key, freshId, now).receipts)
  {
    var e := AuthorizeStep(receipts, keys, processor, input, key, freshId, now);
    forall id | id in e.receipts
      ensures e.receipts[id].id == id && SatisfiesChecks(e.receipts[id]) && HistoryMatchesState(e.receipts[id])
    {
      if id != freshId {
        assert id in receipts && e.receipts[id] == receipts[id];
      }
    }
  }

  /** Capture, refund and void keep the store valid. */
  lemma SettleKeepsStoreValid(
    op: PSM.Operation, receipts: map<string, PaymentReceipt>, keys: map<string, IdempotencyKey>,
    processor: ProcessorRequest -> ProcessorReply, receiptId: string, key: string, now: int)
    requires op != PSM.Authorize && StoreValid(receipts)
    ensures StoreValid(SettleStep(op, receipts, keys, processor, receiptId, key, now).receipts)
  {
    var e := SettleStep(op, receipts, keys, processor, receiptId, key, now);
    if e.outcome.reply.Succeeded? {
      SuccessFollowsEdge(op, receipts, keys, processor, receiptId, key, now);
      var before := receipts[receiptId];
      var after := e.receipts[receiptId];
      assert before.id == receiptId && SatisfiesChecks(before) && HistoryMatchesState(before);
      EdgeKeepsHistory(op, before, after, now);
      assert e.receipts == receipts[receiptId := after];
      StoreUpdateValid(receipts, receiptId, after);
    } else {
      ErrorsRollBack(op, receipts, keys, processor, receiptId, key, now);
    }
  }

  /** A receipt moved along an edge by an operation that writes its own fields and timestamp stays consistent. */
  lemma EdgeKeepsHistory(op: PSM.Operation, before: PaymentReceipt, after: PaymentReceipt, now: int)
    requires op != PSM.Authorize
    requires SatisfiesChecks(before) && HistoryMatchesState(before)
    requires PSM.LegalEdge(MachineStatus(before.state), MachineStatus(after.state))
    requires MachineStatus(after.state) == PSM.SuccessStatus(op)
    requires WritesOnlyOwnFields(op, before, after) && OwnTimestamp(op, after) == Some(now)
    ensures after.id == before.id && SatisfiesChecks(after) && HistoryMatchesState(after)
  {
  }

  /** Replacing one receipt by a valid receipt with the same id keeps the store valid. */
  lemma StoreUpdateValid(receipts: map<string, PaymentReceipt>, id: string, r: PaymentReceipt)
    requires StoreValid(receipts)
    requires r.id == id && SatisfiesChecks(r) && HistoryMatchesState(r)
    ensures StoreValid(receipts[id := r])
  {
  }

  /** Linking the idempotency row changes only its paymentReceipt and keeps the table valid. */
  lemma LinkKeepsKeysValid(keys: map<string, IdempotencyKey>, key: string, receiptId: string)
    requires TableValid(keys)
    ensures TableValid(LinkKey(keys, key, receiptId))
  {
  }

  // --------------------------------------------------------------- service

  /** The service: the receipts its transactions see and the shared idempotency repository. */
  class PaymentReceiptService {
    var receipts: map<string, PaymentReceipt>
    const keys: Repository

    constructor(keys: Repository)
      ensures receipts == map[] && this.keys == keys
    {
      receipts := map[];
      this.keys := keys;
    }

    ghost predicate Valid()
      reads this, keys
    {
      StoreValid(receipts) && keys.Valid()
    }

    method AuthorizePaymentReceipt(
      processor: ProcessorRequest -> ProcessorReply,
      input: AuthorizeInput, key: string, freshId: string, now: int)
      returns (outcome: Outcome)
      requires freshId !in receipts
      modifies this, keys
      ensures Effect(outcome, receipts, keys.rows) ==
        AuthorizeStep(old(receipts), old(keys.rows), processor, input, key, freshId, now)
      ensures old(Valid()) ==> Valid()
    {
      var payload := PendingReceipt(freshId, input, now);
      if !SatisfiesChecks(payload) {
        return Outcome(Threw(Internal(CHECK_VIOLATION)), None, false, false);
      }
      receipts := receipts[freshId := payload];
      var paymentReceipt := receipts[freshId];
      var request := AuthorizeCall(AuthorizeRequestOf(input), key);
      var reply := processor(request);
      match reply
      case Raised(t) =>
        outcome := Outcome(Threw(t), Some(request), false, false);
      case ReturnedException(_) =>
        outcome := Outcome(Threw(Internal(TYPE_ERROR)), Some(request), false, false);
      case Approved(authorizationId) =>
        paymentReceipt := paymentReceipt.(authorizationId := authorizationId);
        paymentReceipt := paymentReceipt.(authorizedAt := Some(now));
        paymentReceipt := paymentReceipt.(state := Authorized);
        if key in keys.rows {
          keys.rows := keys.rows[key := keys.rows[key].(paymentReceipt := Some(freshId))];
        }
        receipts := receipts[freshId := paymentReceipt];
        outcome := Outcome(Succeeded(Some(HTTP_CREATED), Some(AUTHORIZED_MESSAGE), paymentReceipt), Some(request), false, false);
    }

    method CapturePaymentReceipt(processor: ProcessorRequest -> ProcessorReply, receiptId: string, key: string, now: int)
      returns (outcome: Outcome)
      modifies this
      ensures Effect(outcome, receipts, keys.rows) ==
        CaptureStep(old(receipts), keys.rows, processor, receiptId, key, now)
      ensures old(Valid()) ==> Valid()
    {
      if receiptId !in receipts {
        return Outcome(Threw(Internal(ENTITY_NOT_FOUND)), None, true, false);
      }
      var paymentReceipt := receipts[receiptId];
      if paymentReceipt.state != Authorized {
        return Outcome(Threw(Rejection(NOT_AUTHORIZED, HTTP_BAD_REQUEST)), None, true, false);
      }
      var request := CaptureCall(Dtos.CaptureRequest(Some(paymentReceipt.amount as real), paymentReceipt.authorizationId), key);
      var reply := processor(request);
      match reply
      case Raised(t) =>
        outcome := Outcome(Threw(t), Some(request), true, false);
      case ReturnedException(_) =>
        outcome := Outcome(Threw(Internal(TYPE_ERROR)), Some(request), true, false);
      case Approved(captureId) =>
        paymentReceipt := paymentReceipt.(captureId := captureId);
        paymentReceipt := paymentReceipt.(capturedAt := Some(now));
        paymentReceipt := paymentReceipt.(state := Captured);
        receipts := receipts[receiptId := paymentReceipt];
        outcome := Outcome(Succeeded(None, None, paymentReceipt), Some(request), false, false);
    }

    method RefundPaymentReceipt(processor: ProcessorRequest -> ProcessorReply, receiptId: string, key: string, now: int)
      returns (outcome: Outcome)
      modifies this
      ensures Effect(outcome, receipts, keys.rows) ==
        RefundStep(old(receipts), keys.rows, processor, receiptId, key, now)
      ensures old(Valid()) ==> Valid()
    {
      if receiptId !in receipts {
        return Outcome(Threw(Internal(ENTITY_NOT_FOUND)), None, true, false);
      }
      var paymentReceipt := receipts[receiptId];
      if paymentReceipt.state != Captured {
        return Outcome(Threw(Rejection(NOT_CAPTURED, HTTP_BAD_REQUEST)), None, true, false);
      }
      var request := RefundCall(Dtos.RefundRequest(Some(paymentReceipt.amount as real), paymentReceipt.captureId), key);
      var reply := processor(request);
      match reply
      case Raised(t) =>
        outcome := Outcome(Threw(t), Some(request), true, false);
      case ReturnedException(_) =>
        outcome := Outcome(Threw(Rejection(REFUND_REJECTED, HTTP_FORBIDDEN)), Some(request), true, false);
      case Approved(refundId) =>
        paymentReceipt := paymentReceipt.(refundId := refundId);
        paymentReceipt := paymentReceipt.(refundedAt := Some(now));
        paymentReceipt := paymentReceipt.(state := Refunded);
        receipts := receipts[receiptId := paymentReceipt];
        outcome := Outcome(Succeeded(None, None, paymentReceipt), Some(request), false, false);
    }

    method VoidPaymentReceipt(processor: ProcessorRequest -> ProcessorReply, receiptId: string, key: string, now: int)
      returns (outcome: Outcome)
      modifies this
      ensures Effect(outcome, receipts, keys.rows) ==
        VoidStep(old(receipts), keys.rows, processor, receiptId, key, now)
      ensures old(Valid()) ==> Valid()
    {
      if receiptId !in receipts {
        return Outcome(Threw(Internal(ENTITY_NOT_FOUND)), None, true, false);
      }
      var paymentReceipt := receipts[receiptId];
      if paymentReceipt.state != Authorized {
        return Outcome(Threw(Rejection(NOT_AUTHORIZED, HTTP_FORBIDDEN)), None, true, false);
      }
      var request := VoidCall(Dtos.VoidRequest(paymentReceipt.authorizationId), key);
      var reply := processor(request);
      match reply
      case Raised(t) =>
        outcome := Outcome(Threw(t), Some(request), true, false);
      case ReturnedException(_) =>
        outcome := Outcome(Threw(Rejection(VOID_REJECTED, HTTP_FORBIDDEN)), Some(request), true, false);
      case Approved(voidId) =>
        paymentReceipt := paymentReceipt.(voidId := voidId);
        paymentReceipt := paymentReceipt.(voidedAt := Some(now));
        paymentReceipt := paymentReceipt.(state := Voided);
        receipts := receipts[receiptId := paymentReceipt];
        outcome := Outcome(Succeeded(None, None, paymentReceipt), Some(request), false, false);
    }
  }
}
