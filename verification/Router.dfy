/** The routes: validate the body, find the merchant's own payment, call the service. */
module Router {
  import opened Types
  import opened Gateway
  import opened Database
  import PaymentService
  import SettlementService

  /** Answers NotFound for another merchant's payment too. */
  method GetOwnedPayment(db: Session, id: PaymentId, merchant: MerchantId) returns (r: Result<Payment>)
    requires db.Valid()
    ensures r.Ok? <==> Owns(db.Snapshot(), merchant, id)
    ensures if r.Ok? then id < |db.payments| && r.value == db.payments[id] && r.value.id == id else r.error == NotFound
  {
    if |db.payments| <= id {
      return Err(NotFound);
    }
    assert db.Snapshot().payments[id] == db.payments[id].Row();
    if db.payments[id].merchant != merchant {
      return Err(NotFound);
    }
    return Ok(db.payments[id]);
  }

  /** Serving a request on the stored objects does exactly what its specification says, or changes nothing. */
  method Serve(db: Session, request: Request) returns (refused: Option<Error>)
    requires db.Valid()
    modifies db, db.payments, db.wallets
    ensures db.Valid()
    ensures match Handle(old(db.Snapshot()), request)
      case Ok(s) => refused == None && db.Snapshot() == s
      case Err(e) => refused == Some(e) && db.Snapshot() == old(db.Snapshot())
  {
    match request {
      case Create(merchant, amount) =>
        if amount <= 0 {
          return Some(InvalidBody);
        }
        var payment := PaymentService.CreatePayment(db, merchant, amount);
        return None;
      case Settle(merchant) =>
        var r := SettlementService.CreateSettlementBatch(db, merchant);
        return if r.Ok? then None else Some(r.error);
      case _ =>
        refused := ServeOnPayment(db, request);
    }
  }

  method ServeOnPayment(db: Session, request: Request) returns (refused: Option<Error>)
    requires db.Valid() && !request.Create? && !request.Settle?
    modifies db, db.payments, db.wallets
    ensures db.Valid()
    ensures match Handle(old(db.Snapshot()), request)
      case Ok(s) => refused == None && db.Snapshot() == s
      case Err(e) => refused == Some(e) && db.Snapshot() == old(db.Snapshot())
  {
    if request.Capture? && request.part.Some? && request.part.value <= 0 {
      return Some(InvalidBody);
    }
    if request.Refund? && request.amount <= 0 {
      return Some(InvalidBody);
    }
    var owned := GetOwnedPayment(db, request.id, request.merchant);
    if owned.Err? {
      return Some(owned.error);
    }
    match request {
      case Authorize(_, _, bank) =>
        var r := PaymentService.AuthorizePayment(db, owned.value, bank);
        return if r.Ok? then None else Some(r.error);
      case Capture(_, _, part) =>
        var r := PaymentService.CapturePayment(db, owned.value, part);
        return if r.Ok? then None else Some(r.error);
      case Refund(_, _, amount) =>
        var r := PaymentService.RefundPayment(db, owned.value, amount);
        return if r.Ok? then None else Some(r.error);
    }
  }
}
