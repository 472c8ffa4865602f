/**
 * The ways a step of the payment workflow can stop: the HTTP exceptions the
 * handlers raise, JavaScript runtime errors, and database rejections.
 */
module Failures {

  /** The statements a ledger transaction runs; a rejected one names itself. */
  datatype Statement =
    | InsertPaymentTransaction
    | InsertOrder
    | UpdateIncomingRequest
    | InsertBalance
    | InsertRecurrentPayment
    | InsertBalanceUpdate

  /** Why a Nest HTTP exception was raised. */
  datatype Reason =
    | WrongRequestData
    | SignatureIncorrect
    | UnacceptablePaymentStatus
    | OrderNotFound
    | ProductNotFound
    | ProductOwnerNotFound
    | ProductOwnerBalanceNotFound
    | AmountIsNotANumber
    | UnknownHandlerDestination
    | NonFiniteAmount

  /** The claims of the request handler's helper, each of which aborts processing. */
  datatype Claim =
    | IncomingRequestNotFound
    | UnacceptableIncomingRequestStatus
    | UnknownPaymentSystem

  datatype Error =
    | BadRequest(reason: Reason)
    | InternalServerError(reason: Reason)
    /** A JavaScript TypeError: a property read on null/undefined, or a call of a non-function. */
    | TypeError
    /** `new ObjectId(x)` raised on a malformed id. */
    | ObjectIdError
    /** The ledger rejected a statement; the enclosing transaction rolled back. */
    | DatabaseError(statement: Statement)
    /** The ledger rejected an INSERT naming a column the table does not have. */
    | UndefinedColumn(column: string)
    /** The document store rejected an update (a `$set` path through a non-object). */
    | MongoWriteError
    | HandlerClaim(claim: Claim)
}
