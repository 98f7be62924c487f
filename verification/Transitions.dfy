/** order-saga's transition tables: what an event means for a saga in a given state. */
module Transitions {
  import opened Basics

  datatype SagaStatus = Pending | InventoryReserved | Paid | OrderCompleted | Failed | TimedOut | RollbackCompleted

  datatype Event =
    | StockReserved
    | ReservationFailed
    | PaymentCharged
    | PaymentFailed
    | PaymentRefunded
    | Confirmed
    | StockReleased
    | Unknown(name: string)

  /** Outbox rows. Seller-order rows carry the position of their seller order. */
  datatype Command =
    | ReserveInventory
    | ReleaseInventory
    | ChargePayment
    | RefundPayment
    | ConfirmOrder
    | OrderFailed
    | SagaTimedOut
    | ReleaseSellerStock(child: nat)
    | ConsumeSellerStock(child: nat)
    | BookEscrow(child: nat)

  datatype PaymentMethod = Card | CashOnDelivery

  datatype Decision =
    | Apply(to: SagaStatus, command: Option<Command>)
    | Compensate(giveBack: Command)
    | LateDuplicate
    | OutOfOrder
    | UnknownEvent

  /** Both payment methods share these arms. */
  function Table(status: SagaStatus, event: Event): Option<Decision> {
    match (status, event)
    case (Pending, StockReserved) => Some(Apply(InventoryReserved, Some(ChargePayment)))
    case (InventoryReserved, PaymentCharged) => Some(Apply(Paid, Some(ConfirmOrder)))
    case (Paid, Confirmed) => Some(Apply(OrderCompleted, None))
    case (Pending, ReservationFailed) => Some(Apply(RollbackCompleted, Some(OrderFailed)))
    case (InventoryReserved, PaymentFailed) => Some(Apply(Failed, Some(ReleaseInventory)))
    case (Failed, StockReleased) => Some(Apply(RollbackCompleted, None))
    case (TimedOut, StockReleased) => Some(Apply(RollbackCompleted, None))
    case (Paid, PaymentRefunded) => Some(Apply(RollbackCompleted, None))
    case (TimedOut, PaymentRefunded) => Some(Apply(RollbackCompleted, None))
    case _ => None
  }

  function CodTable(status: SagaStatus, event: Event): Option<Decision> {
    if status.Pending? && event.StockReserved? then Some(Apply(OrderCompleted, None)) else None
  }

  /** Stock that arrived after the saga stopped waiting for it goes back. */
  function LateCompensation(status: SagaStatus, event: Event): Option<Command> {
    if event.StockReserved? && (status.TimedOut? || status.Failed? || status.RollbackCompleted?)
    then Some(ReleaseInventory) else None
  }

  predicate Terminal(status: SagaStatus) { status.OrderCompleted? || status.RollbackCompleted? }

  /** The saga states from which the buyer's order will not proceed. */
  predicate Ended(status: SagaStatus) { status.Failed? || status.TimedOut? || status.RollbackCompleted? }

  function Resolve(status: SagaStatus, event: Event, method_: PaymentMethod): Decision {
    if event.Unknown? then UnknownEvent
    else if method_.CashOnDelivery? && CodTable(status, event).Some? then CodTable(status, event).value
    else if Table(status, event).Some? then Table(status, event).value
    else if LateCompensation(status, event).Some? then Compensate(LateCompensation(status, event).value)
    else if Terminal(status) then LateDuplicate
    else OutOfOrder
  }
}
