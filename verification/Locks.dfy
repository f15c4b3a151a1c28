/** The Redlock resources that the payment transactions use. */
module Locks {
  import opened Shop

  /** `order:…`, `payment:…`, or `product:…` / `balance:…` for the row it protects. */
  datatype Lock = OrderLock(orderId: nat) | PaymentLock(paymentId: nat) | RowLock(row: Row)

  /** The order in which a transaction takes its locks. */
  function Rank(lock: Lock): nat {
    match lock
    case OrderLock(_) => 0
    case PaymentLock(_) => 0
    case RowLock(Stock(_)) => 1
    case RowLock(Balance(_)) => 2
  }
}
