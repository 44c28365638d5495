# Payment gateway core: receipts, lifecycle and idempotency

This project models the core of a NestJS payment gateway in Dafny. The gateway
takes card payments through a mock card processor ("mockbank"). It keeps one
receipt per payment and moves it through a lifecycle:

- pending, then authorized;
- authorized, then captured or voided;
- captured, then refunded.

Every write request carries an `Idempotency-Key` header. The gateway records
each key with a fingerprint of the request, so that a retry is answered from
the stored result instead of charging the card twice.

The modules follow the source:

| module | file | models |
|---|---|---|
| `PaymentStateMachine` | payment_state_machine.dfy | the status and event enumerations, the four transit functions and the state machine object |
| `PaymentReceipts` | payment_receipts.dfy | the `payment_receipts` entity and its CHECK constraints; the receipt service's authorize, capture, refund and void |
| `IdempotencyRecords` | idempotency_records.dfy | the `idempotency_keys` entity and the repository's insert, with its NOT NULL and primary-key refusals |
| `RequestFingerprint` | request_fingerprint.dfy | the bytes the two fingerprint functions hash, and `compareHash` |
| `IdempotencyLedger` | idempotency_service.dfy | the idempotency service: find, delete, insert, resolve to success or failure |
| `Interceptor` | idempotency_interceptor.dfy | the transactional idempotency interceptor, including `getRemainingTime` |
| `ReceiptLayer` | receipt_layer.dfy | the second, repository-based idempotency interceptor |
| `Mockbank` | mockbank.dfy | the processor clients: how each wraps an answer and classifies a failure |
| `MockbankDtos` | dtos.dfy | the request DTOs' validation: the Luhn checksum, the card, CVV, amount and expiry rules, and the id patterns |
| `Utf8`, `Decimal`, `Separators` | utf8.dfy, decimal.dfy, separators.dfy | UTF-8 encoding of hashed strings, decimal rendering of numbers, and splitting at a separator |
| `Wrappers`, `Http` | wrappers.dfy, http.dfy | `Option`/`Result`, HTTP statuses, exceptions and processor errors |

Several things are parameters rather than code:

- the database is a `map` from primary key to row;
- the clock is `now`, in milliseconds;
- SHA-256 with hex digest is `hash: seq<byte> -> string`;
- `isUUID` is `isUuid: string -> bool`;
- the processor is a function from the request sent to the reply received;
- the handler behind an interceptor is its outcome;
- a fresh receipt id is `freshId`.

Each operation that changes state is a pure step function from the old table
to the result and the new table. A class then performs that step on its fields;
for example, `IdempotencyService` performs it on the shared `Repository`. Each
method's `ensures` ties its result and new fields to the step function. The
properties are proved as lemmas about the step functions.

## Model

| member | source | states |
|---|---|---|
| PaymentStateMachine.Enumerations | src/payment-receipt/statemachine-factory/constants.ts:1-18 | There are exactly five statuses and eight events, and all are distinct. |
| PaymentStateMachine.EventsPerOperation | src/payment-receipt/statemachine-factory/constants.ts:9-18 | Each operation has one Success and one Failure event, and every event is one of those for its operation. |
| PaymentStateMachine.FinalStatuses | src/payment-receipt/statemachine-factory/constants.ts:39-53 | Refunded and Voided are exactly the statuses with no target state and no accepted event. |
| PaymentStateMachine.TransitFollowsTable | src/payment-receipt/statemachine-factory/payment-statemachine.ts:42-134 | A transit function succeeds iff the event is its own operation's and the `PaymentTransitions` table accepts it from the current status. |
| PaymentStateMachine.TransitErrors | src/payment-receipt/statemachine-factory/payment-statemachine.ts:42-134 | A wrong current status yields that function's "invalid state" error. A right status with another operation's event yields the invalid-event error. |
| PaymentStateMachine.TransitResult | src/payment-receipt/statemachine-factory/payment-statemachine.ts:42-134 | A Success event moves along a lifecycle edge to the operation's status. A Failure event keeps the status and targets the operation's status. The result is always a member of the `PaymentState` union. |
| PaymentStateMachine.TransitionIsTotal | src/payment-receipt/statemachine-factory/constants.ts:39-53 | Dispatching an event to its operation's transit succeeds iff the table accepts it. Success events follow legal edges and failure events keep the status. |
| PaymentStateMachine.TerminalStatuses | src/payment-receipt/statemachine-factory/payment-statemachine.ts:42-134 | Every transit refuses a refunded or voided state. |
| PaymentStateMachine.RunMovesForward | src/payment-receipt/statemachine-factory/payment-statemachine.ts:136-163 | Along any event sequence, the status never moves backwards, the state stays well-formed, and terminal states never change. |
| PaymentStateMachine.StateMachine.constructor | src/payment-receipt/statemachine-factory/payment-statemachine.ts:136-140 | The machine starts in the given initial state. |
| PaymentStateMachine.StateMachine.GetState | src/payment-receipt/statemachine-factory/payment-statemachine.ts:157 | Returns the current state. |
| PaymentStateMachine.StateMachine.Transition | src/payment-receipt/statemachine-factory/payment-statemachine.ts:141-154 | Returns the transit's result, and adopts the new state only when the transit succeeded. |
| PaymentStateMachine.StateMachine.Authorize | src/payment-receipt/statemachine-factory/payment-statemachine.ts:158 | Applies `authorizeTransit` to the held state and keeps the state a well-formed union member. |
| PaymentStateMachine.StateMachine.Capture | src/payment-receipt/statemachine-factory/payment-statemachine.ts:159 | Applies `captureTransit` to the held state and keeps it well-formed. |
| PaymentStateMachine.StateMachine.Refund | src/payment-receipt/statemachine-factory/payment-statemachine.ts:160 | Applies `refundTransit` to the held state and keeps it well-formed. |
| PaymentStateMachine.StateMachine.Voidy | src/payment-receipt/statemachine-factory/payment-statemachine.ts:161 | Applies `voidTransit` to the held state and keeps it well-formed. |
| PaymentReceipts.StatusNamesDistinct | src/payment-receipt/entity/payment-receipt.entity.ts:12-18 | The receipt statuses' column names are distinct. The statuses map one-to-one onto the lifecycle's statuses. |
| PaymentReceipts.ClientsNeverReturnExceptions | src/payment-receipt/payment-receipt.service.ts:81-86 | A processor client's reply is never an HttpException handed back as a value. A client failure always arrives as a thrown error. |
| PaymentReceipts.PendingReceipt | src/payment-receipt/payment-receipt.service.ts:46-54 | The created receipt holds the caller's order, card and amount, in USD, pending since now, with no processor ids. It meets the table's checks when the amount is positive. |
| PaymentReceipts.LinkKey | src/payment-receipt/payment-receipt.service.ts:92-96 | The update links only the key's own row to the receipt. A key without a row changes nothing. |
| PaymentReceipts.AuthorizeContract | src/payment-receipt/payment-receipt.service.ts:39-134 | See [AuthorizeContract](#authorizecontract) below the table. |
| PaymentReceipts.GuardsFollowStateMachine | src/payment-receipt/payment-receipt.service.ts:162-170 | Capture, refund and void call the processor iff the lifecycle accepts the operation from the receipt's status. Otherwise they refuse with 400, or 403 for void (lines 285-293). |
| PaymentReceipts.SuccessFollowsEdge | src/payment-receipt/payment-receipt.service.ts:182-197 | A successful capture, refund or void moves the receipt along a lifecycle edge to the operation's status. It writes only that operation's id, its timestamp (set to now) and the state. Other receipts and the idempotency rows are untouched, and nothing is committed. |
| PaymentReceipts.ErrorsRollBack | src/payment-receipt/payment-receipt.service.ts:198-203 | An operation throws iff it rolls back. A thrown error leaves the receipts and keys as they were. |
| PaymentReceipts.RequestsCarryReceiptData | src/payment-receipt/payment-receipt.service.ts:172-180 | Capture sends the receipt's amount and authorization id. Refund sends its amount and capture id (lines 228-236). Void sends its authorization id (lines 295-300). All three carry the caller's key. |
| PaymentReceipts.ReturnedExceptions | src/payment-receipt/payment-receipt.service.ts:238-246 | An HttpException handed back as a value makes refund and void answer 403 (void: lines 302-310). It makes capture fail on reading the reply's data. |
| PaymentReceipts.TerminalReceipts | src/payment-receipt/payment-receipt.service.ts:136-335 | Refunded and voided receipts are refused by every operation without calling the processor. |
| PaymentReceipts.AuthorizeKeepsStoreValid | src/payment-receipt/entity/payment-receipt.entity.ts:22-23 | Authorize keeps every stored receipt under its own id, within the CHECK constraints, with ids and timestamps matching its state. |
| PaymentReceipts.SettleKeepsStoreValid | src/payment-receipt/entity/payment-receipt.entity.ts:22-81 | Capture, refund and void keep the same store invariant. |
| PaymentReceipts.LinkKeepsKeysValid | src/payment-receipt/payment-receipt.service.ts:92-96 | Linking a key to a receipt keeps the idempotency table valid. |
| PaymentReceipts.PaymentReceiptService.constructor | src/payment-receipt/payment-receipt.service.ts:20-33 | The service starts with no receipts, over the shared idempotency repository. |
| PaymentReceipts.PaymentReceiptService.AuthorizePaymentReceipt | src/payment-receipt/payment-receipt.service.ts:39-134 | The outcome, receipts and keys are those of the authorize step on the old state. The store invariant is kept. |
| PaymentReceipts.PaymentReceiptService.CapturePaymentReceipt | src/payment-receipt/payment-receipt.service.ts:136-204 | The outcome and receipts are those of the capture step. The store invariant is kept. |
| PaymentReceipts.PaymentReceiptService.RefundPaymentReceipt | src/payment-receipt/payment-receipt.service.ts:206-271 | The outcome and receipts are those of the refund step. The store invariant is kept. |
| PaymentReceipts.PaymentReceiptService.VoidPaymentReceipt | src/payment-receipt/payment-receipt.service.ts:273-335 | The outcome and receipts are those of the void step. The store invariant is kept. |
| IdempotencyRecords.OperationNamesDistinct | src/payment-receipt/entity/idempotency-keys.entity.ts:18-19 | Well-formed operations have distinct column values. |
| IdempotencyRecords.InsertRow | src/payment-receipt/entity/idempotency-keys.entity.ts:6-31 | An insert succeeds iff the row has a requestHash (the NOT NULL column) and its key is new (the primary key). On success it adds exactly that row and keeps the others. A missing hash is a NOT NULL violation. |
| IdempotencyRecords.InsertKeepsValid | src/payment-receipt/entity/idempotency-keys.entity.ts:6-31 | Inserting a well-formed row keeps every row filed under its own key with a well-formed operation. |
| IdempotencyRecords.Repository.constructor | src/payment-receipt/entity/idempotency-keys.entity.ts:4-5 | The repository starts empty. |
| RequestFingerprint.UpperCase | src/payment-receipt/utils/requestHash.ts:9 | Upper-casing keeps the length and maps each character. |
| RequestFingerprint.UpperCaseIdempotent | src/payment-receipt/utils/requestHash.ts:9 | Upper-casing twice is upper-casing once. |
| RequestFingerprint.FingerprintNormalises | src/payment-receipt/utils/requestHash.ts:9-23 | A missing method hashes as POST, method case does not matter, a missing path as "", a missing raw body as empty, and the URL is not hashed. |
| RequestFingerprint.SplitLayout | src/payment-receipt/utils/requestHash.ts:12-15 | The NUL-separated layout is unambiguous when method and path hold no NUL. |
| RequestFingerprint.FingerprintInputInjective | src/payment-receipt/utils/requestHash.ts:6-27 | For NUL-free methods and paths, two requests hash the same bytes iff their normalised method, path and body agree. |
| RequestFingerprint.ServiceInputDiffers | src/payment-receipt/idempotency/idempotency.service.ts:158-175 | The service's private fingerprint hashes the same bytes as the shared helper iff both method and path render empty. |
| RequestFingerprint.CompareHash | src/payment-receipt/utils/requestHash.ts:29-46 | The comparison fails, with 422 and the payload-mismatch message, iff the stored hash differs from the request's fingerprint. |
| RequestFingerprint.CompareHashDetectsDrift | src/payment-receipt/utils/requestHash.ts:29-46 | With a collision-free hash, a stored fingerprint accepts a request iff its method, path and body are those of the first request. |
| RequestFingerprint.ServiceRowFailsComparison | src/payment-receipt/idempotency/idempotency.service.ts:158-192 | A row stored with the service's fingerprint fails the helper's comparison for any request that has a method. |
| IdempotencyLedger.Lookup | src/payment-receipt/idempotency/idempotency.service.ts:21-30 | Finds a row iff the key has one. In a valid table, the row found carries the key asked for. |
| IdempotencyLedger.Delete | src/payment-receipt/idempotency/idempotency.service.ts:32-34 | Removes only the key's row. Reports 1 iff a row existed, else 0. |
| IdempotencyLedger.InsertEntity | src/payment-receipt/idempotency/idempotency.service.ts:36-78 | See [IdempotencyLedger.InsertEntity](#idempotencyledgerinsertentity) below the table. |
| IdempotencyLedger.UpdateToSuccess | src/payment-receipt/idempotency/idempotency.service.ts:79-119 | See [IdempotencyLedger.UpdateToSuccess](#idempotencyledgerupdatetosuccess) below the table. |
| IdempotencyLedger.UpdateToFailure | src/payment-receipt/idempotency/idempotency.service.ts:120-157 | See [IdempotencyLedger.UpdateToFailure](#idempotencyledgerupdatetofailure) below the table. |
| IdempotencyLedger.StepsKeepTableValid | src/payment-receipt/idempotency/idempotency.service.ts:32-157 | Delete, insert and both updates keep the idempotency table valid. |
| IdempotencyLedger.InsertIsIdempotent | src/payment-receipt/idempotency/idempotency.service.ts:36-78 | Inserting the same request under the same key twice leaves the table as the first insert did. The second insert returns the stored row, or repeats the first one's 422. |
| IdempotencyLedger.ReusedKeyWithOtherPayloadRefused | src/payment-receipt/idempotency/idempotency.service.ts:46-56 | With a collision-free hash, reusing a key for a different payload is refused with 422 and changes nothing. |
| IdempotencyLedger.DeleteFreesKey | src/payment-receipt/idempotency/idempotency.service.ts:32-78 | After a delete, the key can be inserted afresh. |
| IdempotencyLedger.ResolutionIsNotFinal | src/payment-receipt/idempotency/idempotency.service.ts:79-157 | A resolved row can be resolved again, success to failure to success. The last write wins and the request hash is kept. |
| IdempotencyLedger.IdempotencyService.constructor | src/payment-receipt/idempotency/idempotency.service.ts:14-19 | The service works on the given repository. |
| IdempotencyLedger.IdempotencyService.FindOneByKey | src/payment-receipt/idempotency/idempotency.service.ts:21-30 | Returns the key's row iff there is one. In a valid table, the returned row carries the key. |
| IdempotencyLedger.IdempotencyService.DeleteByKey | src/payment-receipt/idempotency/idempotency.service.ts:32-34 | The affected count and the new rows are those of `Delete`. Validity is kept. |
| IdempotencyLedger.IdempotencyService.InsertIdempotencyEntity | src/payment-receipt/idempotency/idempotency.service.ts:36-78 | The result and the new rows are those of `InsertEntity`. Validity is kept. |
| IdempotencyLedger.IdempotencyService.UpdateToSuccessIdempotency | src/payment-receipt/idempotency/idempotency.service.ts:79-119 | The result and the new rows are those of `UpdateToSuccess`. Validity is kept. |
| IdempotencyLedger.IdempotencyService.UpdateToFailureIdempotency | src/payment-receipt/idempotency/idempotency.service.ts:120-157 | The result and the new rows are those of `UpdateToFailure`. Validity is kept. |
| Interceptor.SecondsTextInjective | src/payment-receipt/idempotency.interceptor.ts:169 | Distinct second counts render differently. |
| Interceptor.LayoutInjective | src/payment-receipt/idempotency.interceptor.ts:166-169 | The two layouts of `getRemainingTime` determine the minutes and seconds they show. |
| Interceptor.RemainingTimeIsLayout | src/payment-receipt/idempotency.interceptor.ts:156-170 | The text is the layout of the whole minutes and the leftover seconds remaining. |
| Interceptor.RemainingTimeDeterminesSeconds | src/payment-receipt/idempotency.interceptor.ts:156-170 | Two texts are equal iff the whole seconds remaining are equal. A time already reached reads "0 seconds". |
| Interceptor.RemainingTimeMinuteAndSecond | src/payment-receipt/idempotency.interceptor.ts:166-168 | 61 s remaining reads "1 minute 1 second". |
| Interceptor.RemainingTimePlurals | src/payment-receipt/idempotency.interceptor.ts:166-169 | 125.5 s remaining reads "2 minutes 5 seconds", with plurals where the counts differ from 1. |
| Interceptor.RemainingTimeUnderASecond | src/payment-receipt/idempotency.interceptor.ts:160-169 | Under a second reads "0 seconds"; 1.999 s reads "1 second". |
| Interceptor.InterceptTables | src/payment-receipt/idempotency.interceptor.ts:27-202 | With a usable key, the step leaves one of four tables: the one it started from (refusal, replay or rollback), the fresh reservation resolved to success or to failure, or the table without the expired reservation. |
| Interceptor.InterceptKeepsTableValid | src/payment-receipt/idempotency.interceptor.ts:27-202 | Whatever the key, request and handler, the interceptor's step leaves a valid table valid, including after an insert, a resolution, a rollback and the delete of an expired reservation. |
| Interceptor.BadKeyRejectedFirst | src/payment-receipt/idempotency.interceptor.ts:43-58 | A missing, empty or non-UUID key is refused with 400 and rolled back. The table is untouched and the handler makes no difference. |
| Interceptor.FreshKeyRunsHandler | src/payment-receipt/idempotency.interceptor.ts:65-101 | See [Interceptor.FreshKeyRunsHandler](#interceptorfreshkeyrunshandler) below the table. |
| Interceptor.ExistingRowStatus | src/payment-receipt/idempotency.interceptor.ts:111-131 | For an existing row, the response status is 200 for success or failure and 409 for processing or 'expired'. Any other operation is refused with 409. Nothing is committed. |
| Interceptor.MismatchRefusedBeforeExpiry | src/payment-receipt/idempotency.interceptor.ts:133 | A fingerprint mismatch is refused with 422 before expiry is looked at, and nothing changes. |
| Interceptor.ProcessingRow | src/payment-receipt/idempotency.interceptor.ts:135-187 | A matching processing row past its expiry is deleted and an expiry notice is emitted. Before expiry, 409 is thrown with the time left. The handler never runs. |
| Interceptor.ResolvedRowReplayed | src/payment-receipt/idempotency.interceptor.ts:190-194 | A matching resolved row is replayed from its cached body. The table is untouched and the handler never runs. |
| Interceptor.ExactRetryRefused | src/payment-receipt/idempotency.interceptor.ts:133 | With a collision-free hash, an exact retry of a completed request that has a method is refused with 422. The stored row was hashed by the service's fingerprint, not the helper's. |
| Interceptor.IdempotencyInterceptor.constructor | src/payment-receipt/idempotency.interceptor.ts:20-25 | The interceptor works through the given service. |
| Interceptor.IdempotencyInterceptor.Intercept | src/payment-receipt/idempotency.interceptor.ts:27-202 | The outcome and the repository's new rows are those of `InterceptStep` on the old rows. A valid repository stays valid. |
| ReceiptLayer.AsWrittenRow | src/payment-receipt/idempotency/layer.ts:46-51 | The row the layer creates has no requestHash. |
| ReceiptLayer.CorrectedRow | src/payment-receipt/idempotency/layer.ts:46-51 | The corrected row is the written one plus the request's fingerprint. |
| ReceiptLayer.FailureStatusMatchesService | src/payment-receipt/idempotency/layer.ts:124-135 | For an HttpException, the layer and the service record the same status iff it is non-zero. |
| ReceiptLayer.Resolve | src/payment-receipt/idempotency/layer.ts:111-121 | The update changes only the key's row, setting operation, status, body and (if given) expiry. A key without a row changes nothing. |
| ReceiptLayer.BadKeyRejected | src/payment-receipt/idempotency/layer.ts:29-43 | A missing, empty or non-UUID key is refused with 400, and the table is untouched. |
| ReceiptLayer.AsWrittenNeverDeduplicates | src/payment-receipt/idempotency/layer.ts:45-107 | As written, every request with a valid key runs the handler and emits its value or error, and no row is created. |
| ReceiptLayer.CorrectedLayerDeduplicates | src/payment-receipt/idempotency/layer.ts:53-123 | With the corrected row, a fresh key runs the handler once, and a second request under the key replays the recorded body. |
| ReceiptLayer.CorrectedProcessingConflict | src/payment-receipt/idempotency/layer.ts:68-80 | With the corrected row, a request under a key still processing is refused with 409 and changes nothing. |
| ReceiptLayer.PaymentReceiptInterceptor.constructor | src/payment-receipt/idempotency/layer.ts:16-20 | The interceptor works on the given repository. |
| ReceiptLayer.PaymentReceiptInterceptor.Intercept | src/payment-receipt/idempotency/layer.ts:21-147 | The reply and the new rows are those of `LayerStep` for the row builder it is given: `AsWrittenRowFor` for the code as written, `CorrectedRowFor` for the corrected code. Validity is kept when every row it may insert has a well-formed operation, as both do (`LayerRowsWellFormed`). |
| Mockbank.MissingKeyError | src/mockbank/authorize/authorize.service.ts:75-93 | A failure under an empty key is a 400. |
| Mockbank.PostAnswersAgree | src/mockbank/authorize/authorize.service.ts:56-73 | The four POST clients all succeed on an answer. Their wrappings carry the data, status 201 and the key, and differ only in the URL, which is distinct for each client (capture.service.ts:68-84, refund.service.ts and void.service.ts alike). |
| Mockbank.PostIgnoresClassifier | src/mockbank/capture/capture.service.ts:59-143 | Whether a POST client succeeds depends only on the processor's outcome. An answer is wrapped the same whatever the classifier, and a failure is always the client's own classification. |
| Mockbank.LookupPathInjective | src/mockbank/authorize/authorize.service.ts:22-24 | Two lookups in one collection request the same path iff they are for the same id. |
| Mockbank.LookupCollectionsDisjoint | src/mockbank/capture/capture.service.ts:18-20 | An authorization lookup (authorize.service.ts:22-24) never requests the same path as a capture lookup, whatever the two ids. |
| Mockbank.LookupsFindOnlyTheirOwnId | src/mockbank/authorize/authorize.service.ts:19-40 | Against a processor that holds one authorization, `getAuthorization` succeeds iff asked for that id, and `getCaptures` (capture.service.ts:15-52) fails with an HttpException for every id. |
| Mockbank.EmptyKeyIsBadRequest | src/mockbank/void/void.service.ts:46-63 | All four clients classify a failure under an empty key the same way: 400, citing the body when there is one. |
| Mockbank.AuthorizationsKeepsStatus | src/mockbank/authorize/authorize.service.ts:95-155 | With a key, authorize keeps the processor's status for 400, 402 and 500, and passes every other failure on unchanged. |
| Mockbank.CapturesKeepsStatus | src/mockbank/capture/capture.service.ts:107-143 | With a key, capture keeps the status for 400 and 500 only. A 402 passes on unchanged, unlike authorize. |
| Mockbank.RefundMatchesCapture | src/mockbank/refund/refund.service.ts:45-101 | Refund classifies every failure exactly as capture does. |
| Mockbank.VoidPassesFailuresOn | src/mockbank/void/void.service.ts:66 | With a key, void passes every failure on unchanged. |
| Mockbank.CaptureIgnoresServerErrorBody | src/mockbank/capture/capture.service.ts:127-141 | Capture answers a 500 that has a body with the balance message. Authorize quotes the body instead. |
| Mockbank.LookupStatus | src/mockbank/capture/capture.service.ts:15-52 | A lookup failure carries the processor's status when it is truthy, else 500. |
| MockbankDtos.DigitValues | src/dtos/mockbank/authorize-payment.dto.ts:15-19 | Digit extraction yields digit values, one per digit, and all of them for an all-digit string. |
| MockbankDtos.Reverse | src/dtos/mockbank/authorize-payment.dto.ts:21 | Reversal maps index i to index n-1-i. |
| MockbankDtos.Doubled | src/dtos/mockbank/authorize-payment.dto.ts:22-26 | A doubled digit minus 9 when over 9 is the digit sum of twice the digit. |
| MockbankDtos.LuhnMatchesReference | src/dtos/mockbank/authorize-payment.dto.ts:14-30 | The written checksum equals the textbook Luhn sum computed from the right. It accepts a string iff its digits are Luhn-valid. |
| MockbankDtos.DigitValuesAppend | src/dtos/mockbank/authorize-payment.dto.ts:15-19 | Digit extraction distributes over concatenation. |
| MockbankDtos.NonDigitIgnored | src/dtos/mockbank/authorize-payment.dto.ts:15-19 | Inserting a non-digit never changes the checksum's verdict. |
| MockbankDtos.NoDigitsPass | src/dtos/mockbank/authorize-payment.dto.ts:14-30 | A string without digits passes the checksum. |
| MockbankDtos.CardValidatorDecides | src/dtos/mockbank/authorize-payment.dto.ts:32-54 | The card field is valid iff the custom validator accepts it, which already implies the 13..19 length. |
| MockbankDtos.SixteenDigits | src/dtos/mockbank/authorize-payment.dto.ts:44-49 | A 16-digit string is a valid card number iff it is Luhn-valid. |
| MockbankDtos.FortyTwos | src/dtos/test/authorize-payment.dto.spec.ts:64 | "42" repeated n times has length 2n and is all digits. |
| MockbankDtos.FortyTwosSum | src/dtos/mockbank/authorize-payment.dto.ts:14-30 | Its checksum sum is 10n. |
| MockbankDtos.FortyTwosPass | src/dtos/mockbank/authorize-payment.dto.ts:32-54 | It passes the checksum, and at 16 characters the card validator. |
| MockbankDtos.FortyTwosLiteral | src/dtos/test/authorize-payment.dto.spec.ts:64 | Eight repetitions are the test card "4242424242424242". |
| MockbankDtos.SeparatedCardFails | src/dtos/mockbank/authorize-payment.dto.ts:44-49 | A valid 16-character card number with any non-digit inserted still passes Luhn. It is refused for its length alone: it now has 17 characters, and '-' or a space would be allowed characters. |
| MockbankDtos.SpacedCardFails | src/dtos/test/authorize-payment.dto.spec.ts:16-19 | "4242 4242 4242 4242" is refused. |
| MockbankDtos.LetterCardFails | src/dtos/mockbank/authorize-payment.dto.ts:44-49 | A letter is not an allowed card character, and cards containing one are refused. |
| MockbankDtos.Unsigned | src/dtos/mockbank/authorize-payment.dto.ts:71 | Dropping the optional sign never lengthens the string. |
| MockbankDtos.DigitCvv | src/dtos/mockbank/authorize-payment.dto.ts:69-72 | An all-digit CVV is valid iff it has 3 or 4 characters. |
| MockbankDtos.CvvExamples | src/dtos/mockbank/authorize-payment.dto.ts:69-72 | "123", "1234", "+12" and "1.5" pass. "12", "12345" and "12a" fail. |
| MockbankDtos.ExpiryWholeNumbers | src/dtos/mockbank/authorize-payment.dto.ts:74-84 | A month is valid iff it is a whole number in 1..12, and a year iff it is a whole number in 2024..2099. |
| MockbankDtos.ExpiryYearExamples | src/dtos/mockbank/authorize-payment.dto.ts:80-84 | 2020, 2023, 2100 and 2024.5 are refused; 2024 and 2099 are accepted. Month 12 passes; 0 and 13 fail. |
| MockbankDtos.AmountBounds | src/dtos/mockbank/authorize-payment.dto.ts:57-61 | An amount is valid iff it lies in 1..9999. A missing amount is invalid. |
| MockbankDtos.AnchoredIsPrefixPlusUuid | src/dtos/mockbank/capture-payment.dto.ts:21-29 | An anchored id pattern matches iff the string is the prefix followed by a lower-case UUID. |
| MockbankDtos.IdLengths | src/dtos/mockbank/capture-payment.dto.ts:5 | Authorization ids have 41 characters and capture ids 40. |
| MockbankDtos.EndAnchoredIsSuffix | src/dtos/mockbank/void-payment.dto.ts:5-10 | The end-anchored pattern matches iff some suffix is the prefix followed by a UUID. |
| MockbankDtos.NoUpperCaseInIds | src/dtos/mockbank/capture-payment.dto.ts:23 | No id accepted by the patterns contains an upper-case letter. |
| MockbankDtos.PrefixesExclusive | src/dtos/mockbank/capture-payment.dto.ts:5-23 | No string is both an authorization id and a capture id. |
| MockbankDtos.SampleUuid | src/dtos/mockbank/capture-payment.dto.ts:23 | A sample lower-case UUID fits the layout. |
| MockbankDtos.AuthorizeRequestExample | src/dtos/mockbank/authorize-payment.dto.ts:57-84 | A complete request with the test card and year 2024 is valid. The same request with year 2020 is not. |
| MockbankDtos.IdsNotInterchangeable | src/dtos/mockbank/refund-payment.dto.ts:10-17 | A capture id is refused where an authorization id is expected, and vice versa. An empty capture id is refused. |
| MockbankDtos.VoidAcceptsLeadingText | src/dtos/mockbank/void-payment.dto.ts:5-10 | Void accepts any text before a valid authorization id, which capture refuses. |
| MockbankDtos.AnchoredEndsInHex | src/dtos/mockbank/capture-payment.dto.ts:23 | An anchored match ends in a hex digit. |
| MockbankDtos.VoidRejectsTrailing | src/dtos/mockbank/void-payment.dto.ts:6 | Void refuses any text ending in a non-hex character. |
| MockbankDtos.VoidPatternDecides | src/dtos/mockbank/void-payment.dto.ts:4-10 | A void request is valid iff its id matches the end-anchored authorization pattern. |
| Utf8.RoundTrip | src/payment-receipt/utils/requestHash.ts:12-14 | Decoding the UTF-8 encoding of a hashed string gives the string back. |
| Utf8.Injective | src/payment-receipt/utils/requestHash.ts:12-14 | Distinct strings encode to distinct bytes. |
| Utf8.ZeroByteIsNul | src/payment-receipt/utils/requestHash.ts:13-15 | A zero byte occurs in an encoding iff the string holds U+0000. |
| Utf8.EmptyEncoding | src/payment-receipt/utils/requestHash.ts:22 | Only the empty string encodes to no bytes. |
| Utf8.EncodeAppend | src/payment-receipt/utils/requestHash.ts:12-15 | Encoding distributes over concatenation, as successive `hash.update` calls do. |
| Decimal.DecimalString | src/payment-receipt/idempotency.interceptor.ts:167 | A rendered number is a non-empty digit string without a leading zero. |
| Decimal.DigitsRoundTrip | src/payment-receipt/idempotency.interceptor.ts:167 | Reading a rendered number's digits gives the number back. |
| Decimal.ParseRoundTrip | src/payment-receipt/idempotency.interceptor.ts:167 | Parsing a rendered number gives the number back. |
| Decimal.DecimalInjective | src/payment-receipt/idempotency.interceptor.ts:167-169 | Two numbers render alike iff they are equal. |
| Separators.SplitAtFirst | src/payment-receipt/utils/requestHash.ts:12-15 | Two strings joined at a separator absent from the first parts split back into the same parts. |

### Longer contracts

The table cells above link here for contracts too long to fit in a row.

#### AuthorizeContract

`PaymentReceipts.AuthorizeContract` (payment-receipt.service.ts:39-134):

- A non-positive amount fails the CHECK constraint. Nothing is stored or sent.
- Otherwise, the pending receipt is stored, and the card data and key are sent.
- A thrown error is rethrown, and the receipt stays pending.
- A returned exception fails on its data.
- An approval authorizes the receipt, links the key, and answers 201 "Successful authorization".
- The caller's transaction is never committed or rolled back here.

#### IdempotencyLedger.InsertEntity

`IdempotencyLedger.InsertEntity` (idempotency.service.ts:36-78):

- A new key gets a processing row. It holds the service's fingerprint and expires in 24 hours.
- An existing key with the same fingerprint returns the stored row and changes nothing.
- Any other case is a 422 "reused with different payload".

#### IdempotencyLedger.UpdateToSuccess

`IdempotencyLedger.UpdateToSuccess` (idempotency.service.ts:79-119):

- A key with no row changes nothing.
- Otherwise, only that row changes: it is resolved to success, with status `statusCode` or 201 and the result as body. Its expiry is kept as it was.

#### IdempotencyLedger.UpdateToFailure

`IdempotencyLedger.UpdateToFailure` (idempotency.service.ts:120-157):

- A key without a row is 404.
- A thrown value that is not an HttpException fails `getStatus`.
- Otherwise, only the key's row changes: it is resolved to failure with the exception's status (or 500) and its body.

#### Interceptor.FreshKeyRunsHandler

`Interceptor.FreshKeyRunsHandler` (idempotency.interceptor.ts:65-101):

- For a fresh key, a handler value is stored as success and committed.
- An HttpException is stored as failure and committed.
- Any other error rolls back, and the reservation disappears with it.
- Other rows are unchanged in every case.

## Left out

- Transactions, locks and concurrency are not modelled. A transaction is one step on the table, and a rollback restores the table as it was when the step began. Interleavings of requests are not modelled. Two effects follow:
  - `deleteByKey` writes outside the interceptor's open transaction and could wait on its own lock;
  - `updateToFailureIdempotency` saves through the repository, outside the query runner.
- Capture, refund and void save inside a transaction and release it without a commit. The model keeps the saved receipt and sets `committed` to false; whether the database keeps the write after the release is not modelled.
- Authorize saves the pending receipt through the plain repository, outside the caller's transaction. The re-read inside the transaction therefore always finds it pending, so the model does not repeat that dead check.
- The `!paymentReceipt` checks after `getOneOrFail` (payment-receipt.service.ts:152-160 and the like) can never fire and are not modelled.
- Observable plumbing (rxjs `pipe`, `concatMap`, `finalize`, `lastValueFrom`) is not modelled. Each request is modelled as resolving to one value or one error.
- ReceiptLayer.RunHandler: the layer's `catchError` returns the error object instead of an observable (layer.ts:144). The model emits that error as the stream's value (`ErrorValue`). Under rxjs 7, the returned object is not a stream, so the subscriber receives a TypeError instead. The failure row is recorded either way.
- The layer's repository updates are not awaited. The model applies them before the reply.
- `response.status(...)` on the response object is modelled as the `responseStatus` field of the outcome.
- `request.queryRunner` is not modelled.
- The clock (`Date.now()`, `new Date()`) is a parameter, with one value per call. `Date()` rendered into messages is not modelled. Expiry notices carry the raw expiry time, not its `toString()` text.
- Fresh receipt ids (`uuidv4` and the uuid primary key) are a parameter. Authorize assumes the id is not already in use.
- `isUUID` from class-validator is a parameter.
- SHA-256 and its hex digest are an uninterpreted function. Properties that need distinct digests assume it is collision-free.
- RequestFingerprint.UpperCase: `toUpperCase` is modelled on ASCII letters only. Non-ASCII method names are not mapped.
- Utf8.Injective: strings are sequences of Unicode scalar values. A JavaScript string may also hold a lone surrogate, which Node's `hash.update` encodes as EF BF BD, so two such strings can hash alike. Strings with lone surrogates are outside the model; the method and path come from the raw request bytes, so none reaches the hash.
- Request bodies other than a raw `Buffer` hash as the empty string, as in the source. The kinds of JavaScript values are not modelled beyond that.
- validator.js's `isLength`, behind `@Length`, counts a surrogate pair once and does not count the variation selectors U+FE0E and U+FE0F. The model counts code points. Every string whose length matters must also pass a digit, hex or whitespace pattern, none of which admits a surrogate or a variation selector, so the counts agree there.
- The amount column is an integer, and the DTOs accept any real number in 1..9999. The receipt service takes the integer. How the driver rounds a fractional amount is not modelled.
- The `in` test of the interceptor's status table also accepts property names inherited from `Object.prototype`. The model treats only the four listed names as present.
- Template-literal rendering of objects into exception messages is not modelled. Such messages keep the data's text.
- JSON parsing of the processor's data is a parameter `idOf`, which reads the new id out of an answer.
- The event-type restriction on each state machine method is compile-time only. The model accepts any event and returns the runtime error.
- Controllers, `mockbank-http.service.ts`, the health endpoint, module wiring, exception filters and logging are not part of this model.
- The `updatedAt` and `createdAt` columns are set by the database and never change in the service. The model leaves both alone.
- `IsNumberString` uses validator.js's `isNumeric` regular expression, which comes from the library and is not in the repository. The model writes it out as `^[+-]?([0-9]*[.])?[0-9]+$`.
- The repository's DTO test file expects a CVV of four digits to be refused and a 2020 expiry year to be accepted. The decorators say otherwise: `@Length(3, 4)` and `@Min(2024)`. The model follows the decorators.

## Findings

| source | as written | input that shows it | evidently intended | confidence | as-written member | corrected member |
|---|---|---|---|---|---|---|
| src/payment-receipt/idempotency/layer.ts:46-53 | The new idempotency row is created without `requestHash`, a NOT NULL column (idempotency-keys.entity.ts:15-16). The insert therefore fails with a not-null violation. The catch only looks at 23505, so the failure is swallowed and no row is ever stored. | Any request with a valid UUID key, followed by a retry under the same key | The reservation is stored, so that a retry is replayed from it or refused while processing | not executed | ReceiptLayer.AsWrittenNeverDeduplicates | ReceiptLayer.CorrectedLayerDeduplicates |
