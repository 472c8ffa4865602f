# Gazprom payment workflow: a Dafny model

This project models the payment core of the Softpaymoney API handler. The
handler serves the Gazprom bank gateway and runs the recurrent-payment scripts.
Three stores are involved:

- a relational ledger: incoming requests, payment transactions, ledger
  orders, balances, the balance-update queue and the recurrent-payments queue;
- a document store: orders, products, users, balances ("payments") and
  transactions;
- an audit log.

Every operation is modelled as a function from the state of the three stores
(`StoreState.World`) to an `Outcome`: the stores afterwards plus the value, or
the error raised. The objects that hold and update state are Dafny classes.
Their methods run against a `Stores` object, and each method's `ensures` ties
the new state and the result to the specification function.

The modelled operations:

- **Handler** (`src/modules/handler/handler.service.ts`): loads a stored
  incoming request and refuses it unless it is `Received`. It then dispatches
  by payment system and destination. After a successful completion it builds
  the notification for the external interaction server.
- **Completion webhook** (`gazprom-completion.webhook.ts` and its helper, data
  source, signature verification, transaction executor and recurrence
  scheduler). The run checks, in order:
  1. the merchant certificate;
  2. the signature over the URL up to `&signature=` (the RSA check itself is a
     parameter);
  3. the order found by `payment.id`, its product and the product owner;
  4. the amount.

  It then computes the commission-subtracted amount, rounded up to the kopeck
  and floored to the rouble. From there the payment takes one of two paths:
  - **Rejected**: the ledger records a rejected order and its transaction.
    The document-store order gets status Rejected.
  - **Settled**: one SERIALIZABLE ledger transaction inserts the payment
    transaction and the order and marks the request Processed. It also creates
    the owner's balance if needed, queues the next recurring payment when the
    product recurs, and queues one balance increment. Only then is the
    document-store order confirmed and a document-store transaction inserted.
- **Preparation webhook** (`gazprom-preparation.webhook.ts`): validates the
  payment status, finds the order and product, and builds the
  payment-availability answer. The purchase amount is in kopecks.
- **Recurrent payments**. Two scripts are modelled:
  - the offset-paged executor (`recurrent-payments.executor.ts`) with its
    helper (`recurrent-payments.helper.ts`). For each due row the helper finds
    the parent order and product, checks eligibility, creates the new order,
    builds the initiation URL, calls the gateway and deletes the row on
    acceptance;
  - the older batch executor (`recurrent-payments-executor.ts`), which creates
    fixed-amount orders and never calls the gateway.

Outside effects are parameters:
- clock readings, generated ids (ObjectIds, the random 32-character payment
  key) and the gateway's answer come in through `RecurrentHelper.Iteration`
  and `CompletionEnv`;
- a ledger statement that fails is named by `LedgerRun.fault`;
- the RSA-SHA1 check is the function parameter `verify`.

Behaviour of the code worth noting:

- The preparation webhook does not check that the order is still Created, and
  it writes nothing. A missing order is raised as InternalServerError by the
  data source, not answered with a decline.
- The recurrent executor pages by offset over the table it is deleting from.
  `RecurrentExecutor.SuccessorOfDeletedRowIsSkipped` proves that the row
  following a deleted row is not fetched in the same run.
- The initiation URL carries the parent order's `payment.id` as
  `o.CustomerKey`, not the new order's id.
- A rejected payment is reported with zero amounts, while the ledger
  transaction carries the commission-subtracted amount.
- `isFirstPeriod` is false exactly for a payment in status "new".
- The completion webhook calls `checkOrderPaymentCorrectness` without awaiting
  it. Its only effect modelled is the audit entry.
- In the older executor, a missing parent order deletes the row, and the loop
  then reads `product` of `null`.

The enumeration texts are placeholders: "Created", "Gazprom", "new", "auto"
and so on. The model compares them only with each other. The enums file
`src/common/enums/general.ts` is not part of this model.

## Model

| member | source | states |
|---|---|---|
| Ledger.SetStatusIn | src/common/providers/webhook/gazprom/gazprom.signature-verification.ts:58-65 | every row keeps its id and place; only the row with that id gets the new status, all its other columns kept |
| Ledger.SetRequestStatus | src/common/providers/webhook/gazprom/gazprom.signature-verification.ts:58-65 | only the incoming-requests table changes, keeping its id sequence: its rows become those with that id's status set, every other row kept; a missing id changes nothing |
| Ledger.SetRequestStatusEffect | src/common/providers/webhook/gazprom/gazprom-completion.transaction-executor.ts:79-86 | after the update the request is found with the new status and the table stays valid |
| Ledger.FindById | src/modules/handler/handler.service.ts:24-28 | the row found has that id and is in the table; none only when no row has it |
| Ledger.AtOffset | src/common/scripts/recurrent-payments/recurrent-payments.executor.ts:19-24 | `OFFSET index LIMIT 1`: the row at that position in storage order, none past the end |
| Ledger.Insert | src/common/providers/webhook/gazprom/gazprom-completion.transaction-executor.ts:67-78 | an INSERT appends one row whose id is new to the table and keeps the table valid |
| Ledger.Delete | src/common/scripts/recurrent-payments/recurrent-payments.helper.ts:203-211 | a DELETE by id leaves no row with that id, adds no row, keeps every other row and the id sequence |
| Ledger.TryInsert | src/common/providers/webhook/gazprom/gazprom-completion.transaction-executor.ts:67-78 | an INSERT fails exactly when the ledger refuses that statement; otherwise one row with the next id is appended |
| Ledger.WithoutValid | src/common/scripts/recurrent-payments/recurrent-payments.helper.ts:203-211 | a DELETE by id keeps ids strictly increasing, removes exactly that id and keeps every other row |
| Ledger.WithoutFromRight | src/common/scripts/recurrent-payments/recurrent-payments.executor.ts:18-24 | after a deletion a row at offset q stood at offset q or later before it, so deletions only move rows left |
| Ledger.WithoutAt | src/common/scripts/recurrent-payments/recurrent-payments.executor.ts:18-24 | deleting the id of the row at offset i removes exactly that offset |
| Documents.FindOne | src/common/providers/webhook/gazprom/gazprom.data-source.ts:20-22 | `findOne`: a document of the collection that matches every condition of the filter; null exactly when none matches |
| Documents.ByIdFindsItself | src/common/providers/webhook/gazprom/gazprom-completion.helper.ts:111-123 | with unique ids, `{ _id: d._id }` finds d itself |
| Documents.SetAll | src/common/providers/webhook/gazprom/gazprom-completion.helper.ts:111-123 | `$set` of several paths keeps the `_id` and every top-level field no path touches; each path whose top-level field no later path writes holds its value afterwards; a failure is a write error |
| Documents.FirstMatch | src/common/providers/webhook/gazprom/gazprom.data-source.ts:20-22 | the position of the first document matching the filter; every earlier document fails it; none when no document matches |
| Documents.UpdateOne | src/common/providers/webhook/gazprom/gazprom-completion.helper.ts:95-123 | `updateOne` changes only the first matching document, by `SetAll`, keeping every id and every other document; no match changes nothing |
| Documents.InsertOne | src/common/scripts/recurrent-payments/recurrent-payments.helper.ts:128 | `insertOne`: the record is appended; a generated `_id` is used when the record has none |
| Audit.Payload | src/common/providers/webhook/gazprom/gazprom.data-source.ts:23-34 | a log payload holds only keys given a defined value |
| Audit.PayloadKeepsLastDefined | src/common/providers/webhook/gazprom/gazprom.data-source.ts:23-34 | each key holds the last defined value given to it; undefined values are dropped |
| JsValues.Truthy | src/common/providers/webhook/gazprom/gazprom-completion.webhook.ts:105-111 | a value is falsy exactly when it is undefined, null, false, 0 or the empty string |
| JsValues.ParseFloat | src/common/providers/webhook/gazprom/gazprom-completion.helper.ts:168 | NaN exactly when, after leading white space and a sign, the text starts with neither a digit nor a point and a digit; the result is negative only after a minus sign |
| JsValues.ToText | src/common/providers/webhook/gazprom/gazprom-completion.webhook.ts:118 | `String(undefined)` is "undefined", a string is itself, and an integer is written as its decimal digits |
| JsValues.DecimalTextRoundTrip | src/common/providers/webhook/gazprom/gazprom-completion.webhook.ts:179-184 | a number with at most 20 decimal places is written by `String` so that `parseFloat` and `Number` both read it back exactly |
| JsValues.ParseFloatValue | src/common/providers/webhook/gazprom/gazprom-completion.helper.ts:168 | `parseFloat` of a number is that number, of a string its parse, and of undefined, null, a boolean or a plain object NaN |
| JsValues.IntegerTextRoundTrip | src/common/providers/webhook/gazprom/gazprom-completion.helper.ts:164-182 | `parseFloat` and `Number` both read back every integer `String` writes |
| JsValues.ToNumber | src/common/providers/webhook/gazprom/gazprom-preparation.webhook.ts:43 | `Number(undefined)` is NaN, `Number(null)` is 0, a number is itself, and a string is read whole; where that gives a number from non-blank text, `parseFloat` gives the same |
| JsValues.NumberAgreesWithParseFloat | src/common/providers/webhook/gazprom/gazprom-preparation.webhook.ts:43 | where `Number` reads a number from non-blank text, `parseFloat` reads the same number |
| CompletionHelper.CommissionPercents | src/common/providers/webhook/gazprom/gazprom-completion.helper.ts:29-37 | the owner's `percents.GAZPROM` when `percents` is an object holding a number there, and 8 otherwise |
| CompletionHelper.CeilCent | src/common/providers/webhook/gazprom/gazprom-completion.helper.ts:44-54 | the rounded value is a whole number of kopecks, not below x and less than a kopeck above it |
| CompletionHelper.CeilCentLeast | src/common/providers/webhook/gazprom/gazprom-completion.helper.ts:44-54 | no whole number of kopecks at or above x is below the rounded value |
| CompletionHelper.SubtractCommission | src/common/providers/webhook/gazprom/gazprom-completion.helper.ts:44-54 | undefined exactly when an included commission makes the divisor zero |
| CompletionHelper.CommissionShare | src/common/providers/webhook/gazprom/gazprom-completion.helper.ts:44-54 | an included commission divides the sum by 1 + rate; an excluded one subtracts the rate's share; both round up to the kopeck |
| CompletionHelper.IncludedShare | src/common/providers/webhook/gazprom/gazprom-completion.helper.ts:44-54 | deducting sum·p/(1+p) from a sum that includes its commission leaves the net amount, whose own commission brings it back to the sum |
| CompletionHelper.CommissionNeverExceedsSum | src/common/providers/webhook/gazprom/gazprom-completion.helper.ts:44-54 | for a whole-kopeck sum and non-negative rate and extra, the result is defined and never above the sum |
| CompletionHelper.ParsePayloadAmount | src/common/providers/webhook/gazprom/gazprom-completion.helper.ts:164-182 | succeeds exactly when `parseFloat` gives a number, with that number; NaN is logged and raised as InternalServerError (amount is not a number) |
| CompletionHelper.ParsePayloadAmountOfInteger | src/common/providers/webhook/gazprom/gazprom-completion.helper.ts:164-182 | every integer number of kopecks written as text is read back unchanged and nothing is logged |
| CompletionHelper.ValidateCertificate | src/common/providers/webhook/gazprom/gazprom-completion.helper.ts:187-202 | accepts exactly a non-empty certificate text; otherwise logs the payload and raises BadRequest |
| CompletionHelper.OrderPaymentComplaint | src/common/providers/webhook/gazprom/gazprom-completion.helper.ts:139-159 | a complaint is logged exactly when `payment` is not an object or has fewer than two keys |
| CompletionHelper.RejectTransaction | src/common/providers/webhook/gazprom/gazprom-completion.helper.ts:60-90 | fails, with nothing written, exactly when one of its three statements is refused; otherwise one transaction and one order are inserted and the request is Processed |
| CompletionHelper.RejectTransactionValid | src/common/providers/webhook/gazprom/gazprom-completion.helper.ts:60-90 | the rejection transaction keeps every ledger table valid |
| CompletionHelper.RejectOrderOnlyStatus | src/common/providers/webhook/gazprom/gazprom-completion.helper.ts:95-106 | rejection never fails and changes only the `status` of the first order with that id, to Rejected |
| CompletionHelper.ConfirmOrderInMongo | src/common/providers/webhook/gazprom/gazprom-completion.helper.ts:111-123 | only the order with that id changes, by exactly the given paths; a failed `$set` is a write error; no order means no change |
| CompletionHelper.InsertTransactionInMongo | src/common/providers/webhook/gazprom/gazprom-completion.helper.ts:128-134 | only the transactions collection changes, by one inserted record |
| DataSource.FindOrderByPaymentId | src/common/providers/webhook/gazprom/gazprom.data-source.ts:19-36 | finds an order whose `payment.id` equals the key, changing nothing; fails exactly when no order has it, logging the key and raising InternalServerError |
| DataSource.FindProductById | src/common/providers/webhook/gazprom/gazprom.data-source.ts:41-58 | finds a product with that `_id`; fails exactly when there is none, with the log entry and InternalServerError |
| DataSource.FindProductOwnerById | src/common/providers/webhook/gazprom/gazprom.data-source.ts:63-82 | finds a user with that `_id`; fails exactly when there is none, with the log entry and InternalServerError |
| DataSource.FindUserBalance | src/common/providers/webhook/gazprom/gazprom.data-source.ts:87-108 | finds a balance with that user and currency; fails exactly when there is none, with the log entry and InternalServerError |
| Signature.FirstOccurrence | src/common/providers/webhook/gazprom/gazprom.signature-verification.ts:40-41 | the position found is the first occurrence of the separator; none only when it does not occur |
| Signature.SignedTextSplits | src/common/providers/webhook/gazprom/gazprom.signature-verification.ts:40-41 | the signed text is a prefix of the URL without the separator: the whole URL when there is no signature part, otherwise the URL is signed text + separator + rest |
| Signature.IsSignatureCorrect | src/common/providers/webhook/gazprom/gazprom.signature-verification.ts:38-51 | correct only when the request has a textual full URL and signature, and then exactly when the RSA check accepts the signature over the URL cut before `&signature=` |
| Signature.ClaimSignatureIncorrectness | src/common/providers/webhook/gazprom/gazprom.signature-verification.ts:56-74 | the request is marked Failed, one audit entry is appended, and BadRequest is raised; the document store is untouched |
| Signature.VerifySignature | src/common/providers/webhook/gazprom/gazprom.signature-verification.ts:25-33 | succeeds, changing nothing, exactly when the signature is present and verifies; any failure, including a missing field, leads to the claim |
| Signature.RejectedSignatureFailsRequest | src/common/providers/webhook/gazprom/gazprom.signature-verification.ts:25-74 | after a rejected signature the request is Failed, whatever its earlier status |
| RecurrentSchedule.WholeDays | src/common/providers/webhook/gazprom/gazprom.recurrent-payment.ts:24-29 | the days added are the period rounded half away from zero; NaN adds none |
| RecurrentSchedule.DueDate | src/common/providers/webhook/gazprom/gazprom.recurrent-payment.ts:27-29 | the due date is now plus the period, truncated to the second |
| RecurrentSchedule.TrxMetadata | src/common/providers/webhook/gazprom/gazprom.recurrent-payment.ts:21-23 | the metadata holds only `trxId`, equal to the payload's `trx_id` |
| RecurrentSchedule.QueueRowContents | src/common/providers/webhook/gazprom/gazprom.recurrent-payment.ts:21-55 | the queued row carries the transaction to rebill, the due date, `isFirstPeriod` false exactly for status "new", the Gazprom system and the order's id |
| RecurrentSchedule.SetSchedule | src/database/migrations/1713518287352-RecurrentPaymentsQueue.ts:8-16 | the corrected scheduler inserts exactly one queue row for the order, and fails only when the ledger refuses that INSERT |
| RecurrentSchedule.CheckColumns | src/common/providers/webhook/gazprom/gazprom.recurrent-payment.ts:64-77 | an INSERT succeeds exactly when every column it names exists; otherwise it fails on a missing column |
| RecurrentSchedule.ScheduleAsWrittenAlwaysFails | src/common/providers/webhook/gazprom/gazprom.recurrent-payment.ts:64-77 | the scheduler's INSERT always fails with an undefined column `productIdMongo` |
| RecurrentSchedule.ScheduleAsCalledAlwaysFails | src/common/providers/webhook/gazprom/gazprom-completion.transaction-executor.ts:108-115 | called with four arguments, the three-parameter scheduler always raises a TypeError |
| TransactionExecutor.FindLedgerBalance | src/common/providers/webhook/gazprom/gazprom-completion.transaction-executor.ts:136-148 | the balance found belongs to the owner and is in roubles; none only when no such balance exists |
| TransactionExecutor.BalanceRecordFrom | src/common/providers/webhook/gazprom/gazprom-completion.transaction-executor.ts:39-56 | the prepared balance has the document's user and currency, and a card or withdrawal date exactly when the document has one |
| TransactionExecutor.LedgerTransaction | src/common/providers/webhook/gazprom/gazprom-completion.transaction-executor.ts:63-131 | a failed transaction reports a refused statement or a TypeError |
| TransactionExecutor.ExecuteSpec | src/common/providers/webhook/gazprom/gazprom-completion.transaction-executor.ts:36-58 | with the scheduler called as intended, the run fails only when the ledger refuses a statement, and then reports that statement, and commits when none is refused; a commit marks the request Processed and appends the payment transaction |
| TransactionExecutor.ExecuteEffects | src/common/providers/webhook/gazprom/gazprom-completion.transaction-executor.ts:63-131 | a committed run writes one transaction, one order, the request Processed, a balance exactly when none existed, a queue row exactly when the product recurs, and one Increment of the transaction amount against the balance |
| TransactionExecutor.RecurringConfirmationAsCalledRollsBack | src/common/providers/webhook/gazprom/gazprom-completion.transaction-executor.ts:108-115 | with the scheduler called as written, every recurring confirmation rolls back |
| TransactionExecutor.ExecuteCommits | src/common/providers/webhook/gazprom/gazprom-completion.transaction-executor.ts:63-131 | when the ledger accepts every statement, the run commits |
| TransactionExecutor.ExecuteFailsOnlyByFault | src/common/providers/webhook/gazprom/gazprom-completion.transaction-executor.ts:63-131 | with the corrected scheduler, a failed run names exactly the statement the ledger refused |
| TransactionExecutor.ExecuteKeepsValid | src/common/providers/webhook/gazprom/gazprom-completion.transaction-executor.ts:63-131 | a committed run keeps every ledger table's ids fresh and increasing |
| TransactionExecutor.CreatedBalanceIsFoundAgain | src/common/providers/webhook/gazprom/gazprom-completion.transaction-executor.ts:93-104 | a balance created for the owner is found by the next lookup, so a second payment creates no second balance |
| TransactionExecutor.CompleteTransactionExecutor.constructor | src/common/providers/webhook/gazprom/gazprom-completion.transaction-executor.ts:20-31 | the executor holds its parameters and no balance yet |
| TransactionExecutor.CompleteTransactionExecutor.FindBalanceInPostgres | src/common/providers/webhook/gazprom/gazprom-completion.transaction-executor.ts:136-148 | the loop returns the first balance of the owner in roubles |
| TransactionExecutor.CompleteTransactionExecutor.Execute | src/common/providers/webhook/gazprom/gazprom-completion.transaction-executor.ts:36-58 | the balance found or the record prepared is kept in the object; the ledger becomes the committed result, or stays as it was on failure; the document store and log are untouched |
| TransactionExecutor.CompleteTransactionExecutor.RunTransaction | src/common/providers/webhook/gazprom/gazprom-completion.transaction-executor.ts:63-131 | the statements run on a working copy that is committed only when all succeed |
| GazpromCompletion.CardPan | src/common/providers/webhook/gazprom/gazprom-completion.webhook.ts:42-45 | the card number is kept exactly when it is a non-empty string |
| GazpromCompletion.CertificateFor | src/common/providers/webhook/gazprom/gazprom-completion.webhook.ts:47-49 | the certificate is the one registered under the text of `merch_id`, if any |
| GazpromCompletion.FindParties | src/common/providers/webhook/gazprom/gazprom-completion.webhook.ts:67-86 | the order, product and owner are the documents `findOne` selects by `o.CustomerKey`, `order.product` and `product.user`; a lookup changes no store but the audit log |
| GazpromCompletion.Price | src/common/providers/webhook/gazprom/gazprom-completion.webhook.ts:88-113 | the payload amount parses to the input amount, the untouched amount is that divided by 100, and the commission-subtracted amount is `CommissionSubtracted` of the untouched amount with the owner's rate; no store but the audit log changes |
| GazpromCompletion.PricedWithinPayment | src/common/providers/webhook/gazprom/gazprom-completion.webhook.ts:104-111 | for a whole, non-negative number of kopecks and a non-negative rate, the commission-subtracted amount never exceeds the untouched amount |
| GazpromCompletion.SettledAmountWithinPayment | src/common/providers/webhook/gazprom/gazprom-completion.webhook.ts:88-113 | the same bound for the amounts a completion run's checks establish |
| GazpromCompletion.CommissionSubtracted | src/common/providers/webhook/gazprom/gazprom-completion.webhook.ts:104-111 | the amount after commission is floored to a whole rouble: an integer no greater than the exact amount and within one of it |
| GazpromCompletion.IsRejection | src/common/providers/webhook/gazprom/gazprom-completion.webhook.ts:118 | a payment is rejected exactly when `String(result_code)` is "2": the number 2 or the text "2"; a missing or null code is not a rejection |
| GazpromCompletion.Prelude | src/common/providers/webhook/gazprom/gazprom-completion.webhook.ts:39-113 | the checks write nothing to the document store; on success the ledger is untouched, the order is the first whose `payment.id` is `o.CustomerKey`, the product the one `order.product` names and the owner the one `product.user` names; the payload amount parses to the input amount in kopecks, the untouched amount is the input amount divided by 100, and the commission-subtracted amount is `CommissionSubtracted` of it with the owner's rate and the order's commission flag; a failure other than a wrong signature leaves the ledger untouched |
| GazpromCompletion.LedgerOrderRecord | src/common/providers/webhook/gazprom/gazprom-completion.webhook.ts:129-136 | reading `order.payment.id` fails with a TypeError exactly when `payment` is null or undefined; the record carries the payment id, amount and status |
| GazpromCompletion.Reject | src/common/providers/webhook/gazprom/gazprom-completion.webhook.ts:118-174 | a failure changes nothing; a success marks the request Processed and reports the order processed |
| GazpromCompletion.FinalAmount | src/common/providers/webhook/gazprom/gazprom-completion.webhook.ts:179-184 | the royalty is subtracted exactly when it parses to an integer |
| GazpromCompletion.ConfirmSets | src/common/providers/webhook/gazprom/gazprom-completion.webhook.ts:235-241 | every path of the confirmation update is non-empty, and no two paths share a top-level field, so none overwrites another |
| GazpromCompletion.ConfirmSetsConfirm | src/common/providers/webhook/gazprom/gazprom-completion.webhook.ts:235-241 | a successful confirmation update keeps the `_id` and every field but `status`, `payment` and `paidAt`, and leaves status Confirmed, `payment.amount` the amount before commission and `paidAt` the time of the run |
| GazpromCompletion.ConfirmOrderConfirms | src/common/providers/webhook/gazprom/gazprom-completion.helper.ts:111-123 | the order `updateOne` finds by its `_id` keeps that `_id` and is left confirmed |
| GazpromCompletion.Confirm | src/common/providers/webhook/gazprom/gazprom-completion.webhook.ts:179-267 | a failure leaves the document store as it was, and the ledger too unless the document-store update failed; a success marks the request Processed, leaves the order found by its `_id` with status Confirmed, `payment.amount` the amount before commission and `paidAt` the time of the run, keeps every other order, and inserts the transaction document |
| GazpromCompletion.CompletionOutcome | src/common/providers/webhook/gazprom/gazprom-completion.webhook.ts:35-268 | a successful run always reports the order processed |
| GazpromCompletion.CompletionAnswer | src/common/providers/webhook/gazprom/gazprom-completion.webhook.ts:280-291 | the gateway is answered in XML with a single `result` element |
| GazpromCompletion.CertificateCheckedFirst | src/common/providers/webhook/gazprom/gazprom-completion.webhook.ts:47-51 | an unusable certificate stops the run with its one log entry and BadRequest, nothing else |
| GazpromCompletion.SignatureCheckedBeforeLookups | src/common/providers/webhook/gazprom/gazprom-completion.webhook.ts:56-72 | a wrong signature fails the request before any document is read or written |
| GazpromCompletion.FailureKeepsDocuments | src/common/providers/webhook/gazprom/gazprom-completion.webhook.ts:35-268 | every failed run leaves the document store as it was |
| GazpromCompletion.FailureKeepsLedger | src/common/providers/webhook/gazprom/gazprom-completion.webhook.ts:35-268 | a failed run leaves the ledger as it was, except after a wrong signature or a failed document-store update |
| GazpromCompletion.SuccessMarksRequestProcessed | src/common/providers/webhook/gazprom/gazprom-completion.webhook.ts:137-141 | a successful run leaves the request Processed, in either branch |
| GazpromCompletion.RejectionEffects | src/common/providers/webhook/gazprom/gazprom-completion.webhook.ts:118-174 | a rejection records the commission-subtracted amount, reports zero amounts, and writes no balance, increment or queue row |
| GazpromCompletion.SettlementEffects | src/common/providers/webhook/gazprom/gazprom-completion.webhook.ts:194-267 | a settlement credits the same final amount in the ledger transaction, the single Increment, the document-store transaction and the result; the order found by its `_id` is Confirmed, with `payment.amount` the amount before commission and `paidAt` the time of the run |
| GazpromCompletion.TextPaymentLeavesStoresInconsistent | src/common/providers/webhook/gazprom/gazprom-completion.webhook.ts:221-241 | with a string `payment`, the ledger commits and then the document-store update fails, so the two stores disagree |
| GazpromCompletion.CompletionWebhook.constructor | src/common/providers/webhook/gazprom/gazprom-completion.webhook.ts:27-30 | the webhook holds its request and no execution result |
| GazpromCompletion.CompletionWebhook.Execute | src/common/providers/webhook/gazprom/gazprom-completion.webhook.ts:35-268 | the stores become those of the completion run; the execution result is set exactly when it succeeds |
| GazpromPreparation.IsAcceptableStatus | src/common/providers/webhook/gazprom/gazprom-preparation.webhook.ts:117-125 | a payment status is acceptable exactly when `o.PaymentStatus` is the text "new" or "auto"; any other value or type is refused |
| GazpromPreparation.PaymentAmount | src/common/providers/webhook/gazprom/gazprom-preparation.webhook.ts:43 | reading `order.payment.amount` fails exactly when `payment` is null or undefined; otherwise it is `Number` of the amount |
| GazpromPreparation.Answer | src/common/providers/webhook/gazprom/gazprom-preparation.webhook.ts:61-104 | the answer is acceptance, then a purchase exactly when the amount is an integer, then a card element exactly for automatic payments with a purchase |
| GazpromPreparation.AnswerAmountInKopecks | src/common/providers/webhook/gazprom/gazprom-preparation.webhook.ts:67-84 | the purchase amount is present exactly for an integer amount, and it is that amount in kopecks |
| GazpromPreparation.PreparationOutcome | src/common/providers/webhook/gazprom/gazprom-preparation.webhook.ts:23-105 | nothing is written but audit entries; an unacceptable status is refused with BadRequest before any lookup; a successful answer is `Answer` of the order whose `payment.id` is `o.CustomerKey`, of its product and of the payload's status |
| GazpromPreparation.PreparationAsksOrderAmount | src/common/providers/webhook/gazprom/gazprom-preparation.webhook.ts:67-84 | a successful answer asks for the stored order's amount times 100, and asks for an amount exactly when that amount is an integer |
| GazpromPreparation.PreparationWebhook.constructor | src/common/providers/webhook/gazprom/gazprom-preparation.webhook.ts:16-18 | the webhook holds its request and no result |
| GazpromPreparation.PreparationWebhook.Execute | src/common/providers/webhook/gazprom/gazprom-preparation.webhook.ts:23-105 | the answer assembled element by element is the specified answer; the stores change only as the specification says |
| Handler.Handle | src/modules/handler/handler.service.ts:21-137 | a missing request and one not Received are refused with nothing changed; a success needs a Received Gazprom request bound for the completion or the preparation webhook; a notification comes only with the completion answer |
| Handler.NotificationOf | src/modules/handler/handler.service.ts:83-93 | the notification carries the order id, the owner id and both amounts of the execution result |
| Handler.PrepareAsWrittenNeverAnswers | src/modules/handler/handler.service.ts:113-122 | as written, no preparation request is answered and none is marked Processed |
| Handler.Prepare | src/modules/handler/handler.service.ts:113-122 | the corrected step answers exactly when the webhook does, with its answer, and marks the request Processed |
| Handler.OnlyReceivedRequestsAreProcessed | src/modules/handler/handler.service.ts:24-57 | a missing request, or one not Received, is refused and nothing changes |
| Handler.NotificationOnlyAfterCompletion | src/modules/handler/handler.service.ts:68-108 | the merchant is notified exactly when a completion succeeds, with the amounts it settled |
| Handler.ProcessedRequestIsRefusedAgain | src/modules/handler/handler.service.ts:53-57 | after a successful run the request is no longer Received, so handling it again is refused and changes nothing |
| Handler.HandlerService.Process | src/modules/handler/handler.service.ts:21-137 | the stores, the answer and the notification are those of the specification of `process` |
| RecurrentHelper.LowerHexDigit | src/common/scripts/recurrent-payments/recurrent-payments.helper.ts:43 | a hexadecimal digit becomes a lower-case digit standing for the same number; any other character is kept |
| RecurrentHelper.LowerHex | src/common/scripts/recurrent-payments/recurrent-payments.helper.ts:43 | every character is lower-cased one for one, each hexadecimal digit keeping its value; 24 hexadecimal digits become a canonical id |
| RecurrentHelper.ObjectIdFrom | src/common/scripts/recurrent-payments/recurrent-payments.helper.ts:43 | `new ObjectId(text)` succeeds exactly for 24 hexadecimal digits, with a canonical id; other failures are ObjectId errors; an id is itself, text becomes the id of its lower-cased digits, and undefined, null or a number a freshly generated id |
| RecurrentHelper.ObjectIdRoundTrip | src/common/scripts/recurrent-payments/recurrent-payments.helper.ts:43 | the text of an id parses back to that id |
| RecurrentHelper.Eligible | src/common/scripts/recurrent-payments/recurrent-payments.helper.ts:57-74 | an eligible product exists, is active, and lists the configured payment system among its payment types; when the configured system names no member, no product is eligible |
| RecurrentHelper.DeleteRemovesOnlyThatRow | src/common/scripts/recurrent-payments/recurrent-payments.helper.ts:203-211 | the deletion removes exactly that id, keeps every other row and leaves the document store and log alone |
| RecurrentHelper.DataSource | src/common/scripts/recurrent-payments/recurrent-payments.helper.ts:34-79 | the row may proceed exactly when its order exists and the product is eligible; otherwise the row is deleted; found documents come from their collections; the order is the `findOne` by the id parsed from `orderIdMongo`, the product the `findOne` by the id parsed from the order's `product`, and there is no product without an order; an unparsable id is an error |
| RecurrentHelper.QueuedRowFindsParentOrder | src/common/scripts/recurrent-payments/recurrent-payments.helper.ts:40-44 | a row queued for an order leads back to that very order |
| RecurrentHelper.Overrides | src/common/scripts/recurrent-payments/recurrent-payments.helper.ts:97-120 | the new order sets exactly status, payment, recurrent and createdAt |
| RecurrentHelper.NewOrderRecord | src/common/scripts/recurrent-payments/recurrent-payments.helper.ts:91-126 | fails with a TypeError exactly when the price or the parent's payment is null or undefined; the record has no `_id` |
| RecurrentHelper.NewOrderCopiesParent | src/common/scripts/recurrent-payments/recurrent-payments.helper.ts:97-126 | the new order keeps every other parent field, drops the stripped ones, and carries status Created, the new payment, `rebill` with `status: false`, and its creation date |
| RecurrentHelper.OrderCreation | src/common/scripts/recurrent-payments/recurrent-payments.helper.ts:84-129 | a failure changes nothing; a success appends exactly one order with the generated id, and that id is written back into the record |
| RecurrentHelper.QueryPrimitive | src/common/scripts/recurrent-payments/recurrent-payments.helper.ts:162-164 | a string is written as it is, a boolean as "true" or "false", an integer so that `parseFloat` reads it back, and undefined, null and objects as the empty string |
| RecurrentHelper.QueryNumberReadBack | src/common/scripts/recurrent-payments/recurrent-payments.helper.ts:162-164 | a number with at most 20 decimal places is written so that `parseFloat` reads the same number back |
| RecurrentHelper.SuccessUrl | src/common/scripts/recurrent-payments/recurrent-payments.helper.ts:138-148 | the product's redirect when it is a string longer than one character, else the order page of the payer |
| RecurrentHelper.PropertyPairs | src/common/scripts/recurrent-payments/recurrent-payments.helper.ts:162-164 | a non-array value gives one `key=value` pair |
| RecurrentHelper.PaymentUrl | src/common/scripts/recurrent-payments/recurrent-payments.helper.ts:134-166 | fails with a TypeError exactly when the order or its payment is missing |
| RecurrentHelper.AllPairsOfScalars | src/common/scripts/recurrent-payments/recurrent-payments.helper.ts:162-164 | without arrays, each property gives exactly one `key=value` pair, in order |
| RecurrentHelper.PaymentUrlText | src/common/scripts/recurrent-payments/recurrent-payments.helper.ts:150-165 | the URL is the initiation address, `?`, and the seven pairs in source order joined by `&`, unencoded |
| RecurrentHelper.Initiate | src/common/scripts/recurrent-payments/recurrent-payments.helper.ts:171-198 | the row proceeds exactly when it was allowed and the gateway accepted; a refusal logs the order record |
| RecurrentHelper.ProcessRow | src/common/scripts/recurrent-payments/recurrent-payments.executor.ts:41-56 | only the queue changes in the ledger, and it either keeps the row or loses exactly that row |
| RecurrentHelper.DisallowedRowOnlyDeleted | src/common/scripts/recurrent-payments/recurrent-payments.executor.ts:46-48 | a row failing the data check creates no order and builds no URL; only the row is deleted |
| RecurrentHelper.AllowedRowDeletedIffAccepted | src/common/scripts/recurrent-payments/recurrent-payments.executor.ts:49-56 | an allowed row gets exactly one new order, and is deleted exactly when the gateway accepts; a refusal is logged instead |
| RecurrentHelper.RecurrentPaymentsHelper.constructor | src/common/scripts/recurrent-payments/recurrent-payments.helper.ts:20-29 | the helper starts with nothing found and the flag down |
| RecurrentHelper.RecurrentPaymentsHelper.FillDataSource | src/common/scripts/recurrent-payments/recurrent-payments.helper.ts:34-79 | sets the order and product found and the flag as the data check says; the stores change as the data check says |
| RecurrentHelper.RecurrentPaymentsHelper.CreateOrder | src/common/scripts/recurrent-payments/recurrent-payments.helper.ts:84-129 | the stores and `orderRecord` become those of the order creation |
| RecurrentHelper.RecurrentPaymentsHelper.BuildPaymentUrl | src/common/scripts/recurrent-payments/recurrent-payments.helper.ts:134-166 | `paymentUrl` becomes the built URL |
| RecurrentHelper.RecurrentPaymentsHelper.InitiatePayment | src/common/scripts/recurrent-payments/recurrent-payments.helper.ts:171-198 | the stores and the flag become those of the initiation |
| RecurrentHelper.RecurrentPaymentsHelper.DeleteRecurrentPaymentsQueueRecord | src/common/scripts/recurrent-payments/recurrent-payments.helper.ts:203-211 | the row of this helper is deleted and nothing else changes |
| RecurrentExecutor.Due | src/common/scripts/recurrent-payments/recurrent-payments.executor.ts:37-40 | a row is due exactly when the clock's whole seconds have reached its execution date |
| RecurrentExecutor.Step | src/common/scripts/recurrent-payments/recurrent-payments.executor.ts:19-57 | a missing or not yet due row changes nothing; otherwise the queue keeps the row or loses exactly it |
| RecurrentExecutor.Run | src/common/scripts/recurrent-payments/recurrent-payments.executor.ts:18-58 | a run changes no ledger table but the queue |
| RecurrentExecutor.ExecuteSpec | src/common/scripts/recurrent-payments/recurrent-payments.executor.ts:10-59 | a run changes no ledger table but the queue, and every row left in the queue was queued before |
| RecurrentExecutor.RunOnlyDeletes | src/common/scripts/recurrent-payments/recurrent-payments.executor.ts:18-58 | the passes only delete queue rows, never add one |
| RecurrentExecutor.VisitedAtMostCount | src/common/scripts/recurrent-payments/recurrent-payments.executor.ts:11-24 | the run fetches at most one row per offset below the count taken at the start |
| RecurrentExecutor.RowsBehindAreNotVisited | src/common/scripts/recurrent-payments/recurrent-payments.executor.ts:18-24 | a row standing before the next offset is never fetched later in the run |
| RecurrentExecutor.SuccessorOfDeletedRowIsSkipped | src/common/scripts/recurrent-payments/recurrent-payments.executor.ts:18-56 | when a pass deletes its row, the row after it is not fetched in the same run |
| RecurrentExecutor.RunAsWrittenFailsAtFirstDueRow | src/common/scripts/recurrent-payments/recurrent-payments.executor.ts:37-44 | as written, nothing changes and the run raises a TypeError exactly when some row in range is due |
| RecurrentExecutor.RecurrentPaymentsExecutor.Execute | src/common/scripts/recurrent-payments/recurrent-payments.executor.ts:10-59 | the loop leaves the stores and result of the specified run |
| LegacyRecurrentExecutor.Snapshot | src/common/scripts/recurrent-payments-executor.ts:17-21 | the batch is the first `recordsPerTime` rows, or all of them when there are fewer; a limit of 0 emits no LIMIT and reads the whole queue |
| LegacyRecurrentExecutor.LegacyOverrides | src/common/scripts/recurrent-payments-executor.ts:85-102 | the older order sets exactly status, payment, recurrent and createdAt |
| LegacyRecurrentExecutor.LegacyOrderRecord | src/common/scripts/recurrent-payments-executor.ts:84-107 | fails with a TypeError exactly when the parent's payment is null or undefined; the record has no `_id` |
| LegacyRecurrentExecutor.LegacyOrderCopiesParent | src/common/scripts/recurrent-payments-executor.ts:79-107 | the order keeps the other parent fields, drops the stripped ones, and has status Created, amount 100 and `rebill` only |
| LegacyRecurrentExecutor.LegacyStep | src/common/scripts/recurrent-payments-executor.ts:27-109 | a row either gets one appended order, or is deleted, or the run stops; a missing order deletes the row and then raises a TypeError |
| LegacyRecurrentExecutor.EligibleRowIsKept | src/common/scripts/recurrent-payments-executor.ts:74-110 | a row that gets an order stays in the queue |
| LegacyRecurrentExecutor.LegacyRun | src/common/scripts/recurrent-payments-executor.ts:26-110 | a run changes no ledger table but the queue |
| LegacyRecurrentExecutor.LegacyExecute | src/common/scripts/recurrent-payments-executor.ts:16-111 | a run changes no ledger table but the queue, adds no row, and keeps every row beyond the first `recordsPerTime` |
| LegacyRecurrentExecutor.LegacyRunDeletesOnlyBatchRows | src/common/scripts/recurrent-payments-executor.ts:26-110 | the run adds no row and deletes only rows of its batch |
| LegacyRecurrentExecutor.LegacyRecurrentPaymentsExecutor.Execute | src/common/scripts/recurrent-payments-executor.ts:16-111 | the loop over the batch leaves the stores and result of the specified run |
| LegacyRecurrentExecutor.LegacyRecurrentPaymentsExecutor.ServeRow | src/common/scripts/recurrent-payments-executor.ts:27-109 | one pass of the loop leaves the stores and result of the specified step |
| LegacyRecurrentExecutor.LegacyRecurrentPaymentsExecutor.DeleteRecurrentPaymentsQueueRecord | src/common/scripts/recurrent-payments-executor.ts:116-124 | the row with that id is deleted and nothing else changes |

## Left out

- Cryptography: the RSA-SHA1 verification and the certificate store's parsing are the parameters `verify` and `certificates`.
- Concurrency: SERIALIZABLE isolation, interleaved webhooks and concurrent script runs. Each run is one sequential function of the stores.
- Time zones and the `TIMESTAMP` text format of `dateToExecute`. Due dates are whole seconds since the epoch.
- The full `parseFloat`/`Number` grammar: exponents, `Infinity`, hexadecimal and binary literals. Only signs, digits, a decimal point and surrounding white space are read.
- Floating-point rounding: amounts are exact reals. A commission rate that makes the divisor zero is raised as a non-finite amount rather than carried on as Infinity.
- `new ObjectId` of a 12-byte string or of an object: both are treated as errors.
- The HTTP details of the gateway call (timeout, headers, transport errors). Its `ok` answer is the parameter `gatewayOk`.
- The random generators: the 32-character payment key and generated ObjectIds are parameters.
- LegacyRecurrentExecutor.Snapshot: `recordsPerTime` is a `nat`, so a negative value (a `LIMIT` the database refuses), a non-numeric or NaN value, and configuration values that are not strings are not modelled.
- The logger's serialisation, the regular (console) logger, and the `sendDataToExternalInteractionServer` call. The model returns the notification instead of sending it.
- `src/modules/handler/handler.helper.ts`, MathUtil, the HTTP client and the enums file are not part of this model. The handler's claims are raised as `HandlerClaim` errors with no further effect, and `MathUtil.ceil10(x, -2)` is modelled as rounding up to the kopeck.
- LegacyRecurrentExecutor.LegacyRecurrentPaymentsExecutor: `findProductByIdInMongo` is inlined as a `findOne` by id.
- GazpromCompletion.CompletionOutcome: does not state which error each check raises. The lemmas beside it state the effects per branch.
- Ledger.TryInsert: a rolled-back transaction (TransactionExecutor.LedgerTransaction, CompletionHelper.RejectTransaction) restores the table's next id, while a PostgreSQL sequence keeps the values it handed out; ids skipped by a rollback are not modelled.
- Documents.SetAll: states a path's value only when no later path writes the same top-level field; a later path under a different branch of the same field also keeps it, and that is not stated. Overlapping paths such as `a` and `a.b` are applied one after the other, where MongoDB refuses the update with a path conflict; the workflow never issues such an update.
- Ledger.AtOffset: the queue queries have no ORDER BY, so the database may return rows in any order. The model reads them in storage order (insertion order less deletions), and `RecurrentExecutor.SuccessorOfDeletedRowIsSkipped` and `LegacyRecurrentExecutor.Snapshot` rely on that order.
- ToText: a date is written "Date(ms)" instead of JavaScript's date text; a number is written positionally with at most 20 decimal places, where JavaScript writes its shortest round-trip form and uses exponent notation from 1e21 up and below 1e-6. `DecimalTextRoundTrip` covers numbers with at most 20 decimal places.
- ToNumber: an array is read through `ToText` of its items, so it inherits the gaps listed for ToText (dates, more than 20 decimal places, exponent notation).
- QueryPrimitive: a non-integer number is written as ToText writes it, so it inherits the same gaps; `QueryNumberReadBack` covers numbers with at most 20 decimal places.
- ParseFloat: reads only signs, digits and one decimal point after the full set of JavaScript white space; `Infinity`, exponents and the rest of the grammar are not read (see above).
- TransactionExecutor.LedgerTransaction: states only the kinds of error. `ExecuteEffects`, `ExecuteCommits` and `ExecuteFailsOnlyByFault` state its effects.

## Findings

| source | as written | input that shows it | evidently intended | confidence | as-written member | corrected member |
|---|---|---|---|---|---|---|
| src/common/providers/webhook/gazprom/gazprom-completion.transaction-executor.ts:108-115 | `new GazpromRecurrentPayment(order, product, payload, manager)` passes four arguments to a three-parameter constructor, so `payload` becomes the entity manager and `.query` is not a function | any settled payment of a product with `recurrent.status === true`: the transaction rolls back | the scheduler receives the order, the product and the payload, and the transaction's own manager | not executed | RecurrentSchedule.ScheduleAsCalledAlwaysFails | RecurrentSchedule.SetSchedule |
| src/common/providers/webhook/gazprom/gazprom.recurrent-payment.ts:64-77 | the INSERT names a column `productIdMongo`, which the RecurrentPaymentsQueue table does not have (it has `orderIdMongo`) | any call of `setSchedule`: the INSERT fails with an undefined column | the row stores the paid order's id in `orderIdMongo`, which the recurrent helper reads back | not executed | RecurrentSchedule.ScheduleAsWrittenAlwaysFails | RecurrentSchedule.SetSchedule |
| src/common/scripts/recurrent-payments/recurrent-payments.executor.ts:41-44 | calls `helper.processRecurrentPaymentsQueueRecord()`, which the helper does not define | any queue row whose due date has passed: the run raises a TypeError there | the data check `fillDataSource`, which the rest of the loop depends on | not executed | RecurrentExecutor.RunAsWrittenFailsAtFirstDueRow | RecurrentExecutor.RecurrentPaymentsExecutor.Execute |
| src/modules/handler/handler.service.ts:117-120 | calls `updateIncomingRequestStatus` on the preparation webhook, which does not define it | any preparation request with status "new" or "auto" and an existing order and product: the answer is lost to a TypeError | the request is marked Processed and the answer returned | not executed | Handler.PrepareAsWrittenNeverAnswers | Handler.Prepare |
