/** The map of legal status changes that every operation on a payment goes through. */
module StateMachine {
  import opened Types

  function Successors(status: PaymentStatus): set<PaymentStatus> {
    match status
    case Created => {Authorized, Failed}
    case Authorized => {PaymentStatus.Captured, Failed}
    case Captured => {Settled, Refunded, PartiallyRefunded}
    case Settled => {Refunded, PartiallyRefunded}
    case PartiallyRefunded => {Refunded}
    case Refunded => {}
    case Failed => {}
  }

  predicate CanTransition(current: PaymentStatus, target: PaymentStatus) {
    target in Successors(current)
  }

  function Transition(current: PaymentStatus, target: PaymentStatus): (r: Result<PaymentStatus>) {
    if CanTransition(current, target) then Ok(target) else Err(InvalidTransition)
  }

  /** The number of status changes still possible. */
  function Rank(status: PaymentStatus): nat {
    match status
    case Created => 5
    case Authorized => 4
    case Captured => 3
    case Settled => 2
    case PartiallyRefunded => 1
    case Refunded => 0
    case Failed => 0
  }
}
