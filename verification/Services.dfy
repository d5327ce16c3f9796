/** The double entries and the cached wallet. */
module LedgerService {
  import opened Types
  import opened Gateway
  import opened Database

  method GetOrCreateWallet(db: Session, merchant: MerchantId) returns (wallet: Wallet)
    requires db.Valid()
    modifies db`wallets
    ensures db.Valid()
    ensures var i := FindWallet(old(WalletRows(db.wallets)), merchant);
      if i < |old(db.wallets)| then
        db.wallets == old(db.wallets) && wallet == db.wallets[i]
      else
        db.wallets == old(db.wallets) + [wallet] && fresh(wallet) && wallet.Row() == WalletRow(merchant, 0)
  {
    ghost var rows := WalletRows(db.wallets);
    var i := 0;
    while i < |db.wallets|
      invariant 0 <= i <= |db.wallets|
      invariant forall j :: 0 <= j < i ==> rows[j].merchant != merchant
    {
      if db.wallets[i].merchant == merchant {
        assert rows[i].merchant == merchant;
        return db.wallets[i];
      }
      i := i + 1;
    }
    wallet := new Wallet(merchant);
    db.wallets := db.wallets + [wallet];
  }

  method AddToWallet(db: Session, merchant: MerchantId, delta: int)
    requires db.Valid()
    modifies db`wallets, db.wallets
    ensures db.Valid()
    ensures db.Snapshot() == old(db.Snapshot()).(wallets := AdjustWallet(old(WalletRows(db.wallets)), merchant, delta))
  {
    var wallet := GetOrCreateWallet(db, merchant);
    wallet.balance := wallet.balance + delta;
    assert WalletRows(db.wallets) == AdjustWallet(old(WalletRows(db.wallets)), merchant, delta);
  }

  method RecordCapture(db: Session, payment: Payment, amount: int)
    requires db.Valid()
    modifies db`ledger, db`wallets, db.wallets
    ensures db.Valid()
    ensures db.Snapshot() == old(db.Snapshot()).(
      ledger := old(db.ledger) + CapturePair(payment.id, amount),
      wallets := AdjustWallet(old(WalletRows(db.wallets)), payment.merchant, amount))
  {
    var debit := LedgerEntry(payment.id, CustomerHolding, Debit, amount);
    var credit := LedgerEntry(payment.id, MerchantWallet, Credit, amount);
    db.AddEntry(debit);
    db.AddEntry(credit);
    assert db.ledger == old(db.ledger) + CapturePair(payment.id, amount);
    AddToWallet(db, payment.merchant, amount);
  }

  method RecordRefund(db: Session, payment: Payment, amount: int)
    requires db.Valid()
    modifies db`ledger, db`wallets, db.wallets
    ensures db.Valid()
    ensures db.Snapshot() == old(db.Snapshot()).(
      ledger := old(db.ledger) + RefundPair(payment.id, amount),
      wallets := AdjustWallet(old(WalletRows(db.wallets)), payment.merchant, -amount))
  {
    var debit := LedgerEntry(payment.id, MerchantWallet, Debit, amount);
    var credit := LedgerEntry(payment.id, CustomerHolding, Credit, amount);
    db.AddEntry(debit);
    db.AddEntry(credit);
    assert db.ledger == old(db.ledger) + RefundPair(payment.id, amount);
    AddToWallet(db, payment.merchant, -amount);
  }
}

/** Create, authorize, capture and refund. A rejected call leaves every table as it was. */
module PaymentService {
  import opened Types
  import opened StateMachine
  import opened Sums
  import opened Gateway
  import opened Database
  import LedgerService

  method CreatePayment(db: Session, merchant: MerchantId, amount: int) returns (payment: Payment)
    requires db.Valid()
    modifies db`payments
    ensures db.Valid() && fresh(payment) && db.payments == old(db.payments) + [payment]
    ensures payment.Row() == PaymentRow(merchant, amount, Created, None, None)
    ensures db.Snapshot() == AfterCreate(old(db.Snapshot()), merchant, amount)
  {
    payment := new Payment(|db.payments|, merchant, amount);
    db.AddPayment(payment);
  }

  method AuthorizePayment(db: Session, payment: Payment, bank: BankReply) returns (r: Result<Payment>)
    requires db.Valid() && payment in db.payments
    modifies payment
    ensures db.Valid()
    ensures match AfterAuthorize(old(db.Snapshot()), payment.id, bank)
      case Ok(s) => r == Ok(payment) && db.Snapshot() == s
      case Err(e) => r == Err(e) && db.Snapshot() == old(db.Snapshot())
  {
    if bank.Timeout? {
      return Ok(payment);
    }
    var outcome := if bank.Approve? then Authorized else Failed;
    var next := Transition(payment.status, outcome);
    if next.Err? {
      return Err(next.error);
    }
    db.UpdatePayment(payment, next.value, payment.captured);
    return Ok(payment);
  }

  method CapturePayment(db: Session, payment: Payment, amount: Option<int>) returns (r: Result<Payment>)
    requires db.Valid() && payment in db.payments
    modifies payment, db`ledger, db`wallets, db.wallets
    ensures db.Valid()
    ensures match AfterCapture(old(db.Snapshot()), payment.id, amount)
      case Ok(s) => r == Ok(payment) && db.Snapshot() == s
      case Err(e) => r == Err(e) && db.Snapshot() == old(db.Snapshot())
  {
    var capture := if amount.Some? then amount.value else payment.amount;
    if capture > payment.amount {
      return Err(InvalidValue);
    }
    var next := Transition(payment.status, PaymentStatus.Captured);
    if next.Err? {
      return Err(next.error);
    }
    db.UpdatePayment(payment, next.value, Some(capture));
    LedgerService.RecordCapture(db, payment, capture);
    return Ok(payment);
  }

  /** Adds up the refunds already recorded on the payment. */
  method AlreadyRefunded(refunds: seq<RefundRow>, id: PaymentId) returns (total: int)
    ensures total == Sum(RefundsOf(refunds, id))
  {
    total := 0;
    for i := 0 to |refunds|
      invariant total == Sum(RefundsOf(refunds[..i], id))
    {
      assert refunds[..i + 1][..i] == refunds[..i];
      if refunds[i].payment == id {
        total := total + refunds[i].amount;
        SumConcat(RefundsOf(refunds[..i], id), [refunds[i].amount]);
        assert [refunds[i].amount][..0] == [];
      } else {
        assert RefundsOf(refunds[..i], id) + [] == RefundsOf(refunds[..i], id);
      }
    }
    assert refunds[..|refunds|] == refunds;
  }

  method RemainingRefundable(db: Session, payment: Payment) returns (remaining: int)
    requires db.Valid() && payment in db.payments
    ensures remaining == Refundable(payment.Row()) - Sum(RefundsOf(db.refunds, payment.id))
    ensures payment.captured.None? ==> remaining == payment.amount - Sum(RefundsOf(db.refunds, payment.id))
    ensures payment.captured.Some? && payment.captured.value != 0 ==>
      remaining == payment.captured.value - Sum(RefundsOf(db.refunds, payment.id))
  {
    var already := AlreadyRefunded(db.refunds, payment.id);
    var limit := payment.amount;
    if payment.captured.Some? && payment.captured.value != 0 {
      limit := payment.captured.value;
    }
    remaining := limit - already;
  }

  method RefundPayment(db: Session, payment: Payment, amount: int) returns (r: Result<RefundRow>)
    requires db.Valid() && payment in db.payments
    modifies payment, db`refunds, db`ledger, db`wallets, db.wallets
    ensures db.Valid()
    ensures match AfterRefund(old(db.Snapshot()), payment.id, amount)
      case Ok(s) => r == Ok(RefundRow(payment.id, amount)) && db.Snapshot() == s
      case Err(e) => r == Err(e) && db.Snapshot() == old(db.Snapshot())
  {
    var remaining := RemainingRefundable(db, payment);
    assert PaymentRows(db.payments)[payment.id] == payment.Row();
    if amount > remaining {
      return Err(InvalidValue);
    }
    var next := Transition(payment.status, if amount == remaining then Refunded else PartiallyRefunded);
    if next.Err? {
      return Err(next.error);
    }
    db.UpdatePayment(payment, next.value, payment.captured);
    db.AddRefund(RefundRow(payment.id, amount));
    LedgerService.RecordRefund(db, payment, amount);
    return Ok(RefundRow(payment.id, amount));
  }
}

/** Settlement batches. */
module SettlementService {
  import opened Types
  import opened StateMachine
  import opened Gateway
  import opened Database
  import opened Batch

  /** The selected payments are the ones whose ids the specification lists, in the same order. */
  ghost predicate Selects(payments: seq<Payment>, found: seq<Payment>, ids: seq<PaymentId>) {
    && |found| == |ids|
    && forall k :: 0 <= k < |ids| ==> ids[k] < |payments| && found[k] == payments[ids[k]]
  }

  lemma UnsettledOneMore(rows: seq<PaymentRow>, i: nat, merchant: MerchantId)
    requires i < |rows|
    ensures UnsettledIds(rows[..i + 1], merchant)
         == UnsettledIds(rows[..i], merchant) + if Unsettled(rows[i], merchant) then [i] else []
  {
    assert rows[..i + 1][..i] == rows[..i];
  }

  method GetUnsettledPayments(db: Session, merchant: MerchantId) returns (found: seq<Payment>)
    requires db.Valid()
    ensures Selects(db.payments, found, UnsettledIds(PaymentRows(db.payments), merchant))
  {
    ghost var rows := PaymentRows(db.payments);
    found := [];
    for i := 0 to |db.payments|
      invariant Selects(db.payments, found, UnsettledIds(rows[..i], merchant))
    {
      UnsettledOneMore(rows, i, merchant);
      var p := db.payments[i];
      assert rows[i] == p.Row();
      if p.merchant == merchant && p.status == PaymentStatus.Captured && p.settlement.None? {
        found := found + [p];
      }
    }
    assert rows[..|rows|] == rows;
  }

  /** Adds up the full amounts, not the captured ones. */
  method SumAmounts(db: Session, found: seq<Payment>, ghost ids: seq<PaymentId>) returns (total: int)
    requires Selects(db.payments, found, ids)
    ensures total == TotalAmount(PaymentRows(db.payments), ids)
  {
    total := 0;
    for j := 0 to |found|
      invariant total == TotalAmount(PaymentRows(db.payments), ids[..j])
    {
      total := total + found[j].amount;
      assert ids[..j + 1][..j] == ids[..j];
    }
    assert ids[..|ids|] == ids;
  }

  /** One turn of the batch loop; a captured payment is never refused. */
  method SettlePayment(db: Session, payment: Payment, settlement: Settlement)
    requires db.Valid() && payment in db.payments && payment.status == PaymentStatus.Captured
    modifies payment, db`ledger
    ensures db.Valid()
    ensures db.ledger == old(db.ledger) + SettlementPair(payment.id, payment.amount)
    ensures PaymentRows(db.payments) == old(PaymentRows(db.payments))[payment.id :=
      old(payment.Row()).(status := Settled, settlement := Some(settlement.id))]
  {
    var debit := LedgerEntry(payment.id, MerchantWallet, Debit, payment.amount);
    var credit := LedgerEntry(payment.id, BankSettlement, Credit, payment.amount);
    db.AddEntry(debit);
    db.AddEntry(credit);
    assert db.ledger == old(db.ledger) + SettlementPair(payment.id, payment.amount);
    var next := Transition(payment.status, Settled);
    payment.status := next.value;
    payment.settlement := Some(settlement.id);
  }

  lemma MarkOneMore(rows: seq<PaymentRow>, ids: seq<PaymentId>, id: PaymentId, batch: SettlementId)
    requires id < |rows| && id !in ids
    ensures MarkSettled(rows, ids + [id], batch)
         == MarkSettled(rows, ids, batch)[id := rows[id].(status := Settled, settlement := Some(batch))]
  {
  }

  method SettleAll(db: Session, found: seq<Payment>, settlement: Settlement, ghost ids: seq<PaymentId>)
    requires db.Valid() && Selects(db.payments, found, ids) && Ascending(ids)
    requires forall k :: 0 <= k < |found| ==> found[k].status == PaymentStatus.Captured
    modifies db`ledger, db.payments
    ensures db.Valid()
    ensures db.Snapshot() == old(db.Snapshot()).(
      ledger := old(db.ledger) + SettlementPairs(old(PaymentRows(db.payments)), ids),
      payments := MarkSettled(old(PaymentRows(db.payments)), ids, settlement.id))
  {
    ghost var rows, batch := PaymentRows(db.payments), settlement.id;
    for j := 0 to |found|
      invariant db.Valid()
      invariant db.ledger == old(db.ledger) + SettlementPairs(rows, ids[..j])
      invariant PaymentRows(db.payments) == MarkSettled(rows, ids[..j], batch)
    {
      assert ids[..j + 1] == ids[..j] + [ids[j]] && ids[..j + 1][..j] == ids[..j];
      assert ids[j] !in ids[..j];
      assert PaymentRows(db.payments)[ids[j]] == rows[ids[j]] == found[j].Row();
      MarkOneMore(rows, ids[..j], ids[j], batch);
      SettlePayment(db, found[j], settlement);
    }
    assert ids[..|ids|] == ids;
  }

  method Complete(db: Session, settlement: Settlement)
    requires db.Valid() && settlement.id < |db.settlements| && db.settlements[settlement.id] == settlement
    modifies settlement
    ensures db.Snapshot() == old(db.Snapshot()).(settlements :=
      old(SettlementRows(db.settlements))[settlement.id := old(settlement.Row()).(status := Completed)])
  {
    settlement.status := Completed;
    assert SettlementRows(db.settlements) == old(SettlementRows(db.settlements))[settlement.id := settlement.Row()];
  }

  method OpenBatch(db: Session, merchant: MerchantId, found: seq<Payment>, ghost ids: seq<PaymentId>)
    returns (settlement: Settlement)
    requires db.Valid() && Selects(db.payments, found, ids)
    modifies db`settlements
    ensures db.Valid() && db.settlements == old(db.settlements) + [settlement] && fresh(settlement)
    ensures settlement.id == |old(db.settlements)|
    ensures db.Snapshot() == old(db.Snapshot()).(settlements := old(SettlementRows(db.settlements)) +
      [SettlementRow(merchant, TotalAmount(old(PaymentRows(db.payments)), ids), |ids|, Processing)])
    ensures settlement.Row() ==
      SettlementRow(merchant, TotalAmount(old(PaymentRows(db.payments)), ids), |ids|, Processing)
  {
    var total := SumAmounts(db, found, ids);
    settlement := new Settlement(|db.settlements|, merchant, total, |found|);
    db.AddSettlement(settlement);
  }

  lemma UnsettledAreCaptured(payments: seq<Payment>, found: seq<Payment>, merchant: MerchantId)
    requires Selects(payments, found, UnsettledIds(PaymentRows(payments), merchant))
    ensures forall k :: 0 <= k < |found| ==> found[k].status == PaymentStatus.Captured
  {
    var rows := PaymentRows(payments);
    var ids := UnsettledIds(rows, merchant);
    forall k | 0 <= k < |found| ensures found[k].status == PaymentStatus.Captured {
      assert ids[k] in ids;
      assert rows[ids[k]] == found[k].Row();
    }
  }

  method SettleFound(db: Session, merchant: MerchantId, found: seq<Payment>, ghost ids: seq<PaymentId>)
    returns (settlement: Settlement)
    requires db.Valid() && Selects(db.payments, found, ids) && Ascending(ids)
    requires forall k :: 0 <= k < |found| ==> found[k].status == PaymentStatus.Captured
    modifies db`ledger, db`settlements, db.payments
    ensures db.Valid() && settlement.id == |old(db.settlements)|
    ensures db.Snapshot() == old(db.Snapshot()).(
      ledger := old(db.ledger) + SettlementPairs(old(PaymentRows(db.payments)), ids),
      payments := MarkSettled(old(PaymentRows(db.payments)), ids, settlement.id),
      settlements := old(SettlementRows(db.settlements)) +
        [SettlementRow(merchant, TotalAmount(old(PaymentRows(db.payments)), ids), |ids|, Completed)])
  {
    settlement := OpenBatch(db, merchant, found, ids);
    SettleAll(db, found, settlement, ids);
    Complete(db, settlement);
  }

  lemma BatchOf(s: State, merchant: MerchantId, ids: seq<PaymentId>)
    requires ids == UnsettledIds(s.payments, merchant)
    ensures AfterBatch(s, merchant) ==
      if ids == [] then Err(InvalidValue)
      else
        Ok(s.(
          ledger := s.ledger + SettlementPairs(s.payments, ids),
          payments := MarkSettled(s.payments, ids, |s.settlements|),
          settlements := s.settlements + [SettlementRow(merchant, TotalAmount(s.payments, ids), |ids|, Completed)]))
  {
  }

  method CreateSettlementBatch(db: Session, merchant: MerchantId) returns (r: Result<Settlement>)
    requires db.Valid()
    modifies db`ledger, db`settlements, db.payments
    ensures db.Valid() && db.payments == old(db.payments)
    ensures match AfterBatch(old(db.Snapshot()), merchant)
      case Ok(s) => r.Ok? && r.value.id == |old(db.settlements)| && db.Snapshot() == s
      case Err(e) => r == Err(e) && db.Snapshot() == old(db.Snapshot())
  {
    ghost var ids := UnsettledIds(PaymentRows(db.payments), merchant);
    BatchOf(db.Snapshot(), merchant, ids);
    var found := GetUnsettledPayments(db, merchant);
    if found == [] {
      return Err(InvalidValue);
    }
    UnsettledAreCaptured(db.payments, found, merchant);
    var settlement := SettleFound(db, merchant, found, ids);
    return Ok(settlement);
  }
}
