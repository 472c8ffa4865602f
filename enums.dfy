/**
 * The enumerations the workflow stores. The module that declares their
 * string values (src/common/enums/general.ts) is not part of this model: each
 * member is stored as its own name, except the gateway payment statuses,
 * whose values "new" and "auto" the source spells out.
 */
module Enums {

  datatype RequestStatus = Received | Processed | Failed

  datatype PaymentSystem = Gazprom | OtherSystem(name: string)

  datatype HandlerDestination = Preparation | Completion | OtherDestination(name: string)

  datatype OrderStatus = Created | Confirmed | Rejected

  datatype TransactionType = Receiving

  datatype BalanceOperation = Increment | Decrement

  function OrderStatusText(s: OrderStatus): string
  {
    match s
    case Created => "Created"
    case Confirmed => "Confirmed"
    case Rejected => "Rejected"
  }

  function PaymentSystemText(p: PaymentSystem): string
  {
    match p
    case Gazprom => "Gazprom"
    case OtherSystem(name) => name
  }

  const ReceivingText := "Receiving"

  /** The rouble currency code, as balances record it. */
  const RubText := "Rub"

  /** `GazpromPaymentStatus.New`: the first payment of a card. */
  const NewStatusText := "new"

  /** `GazpromPaymentStatus.Auto`: a recurring payment on a registered card. */
  const AutoStatusText := "auto"
}
