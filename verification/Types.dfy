/** Identifiers, errors and the payment statuses shared by every part of the gateway. */
module Types {

  datatype Option<+T> = None | Some(value: T) {
    function GetOr(default: T): T {
      match this
      case Some(v) => v
      case None => default
    }
  }

  /** Why a request was turned down; the state is then what it was before the request. */
  datatype Error =
    | NotFound            // no such payment, or not this merchant's
    | InvalidBody         // the amount in the request body is not positive
    | InvalidTransition   // the status map has no such edge
    | InvalidValue        // an amount is over its limit, or there is nothing to settle

  datatype Result<+T> = Ok(value: T) | Err(error: Error)

  // Rows are numbered in the order they are inserted.
  type MerchantId = nat
  type PaymentId = nat
  type SettlementId = nat

  datatype PaymentStatus =
    | Created
    | Authorized
    | Captured
    | Settled
    | Failed
    | Refunded
    | PartiallyRefunded
}
