/** The stored objects and the session that holds them. Services change their fields in place. */
module Database {
  import opened Types
  import opened Gateway

  class Payment {
    const id: PaymentId
    const merchant: MerchantId
    const amount: int
    var status: PaymentStatus
    var captured: Option<int>
    var settlement: Option<SettlementId>

    constructor (id: PaymentId, merchant: MerchantId, amount: int)
      ensures this.id == id
      ensures Row() == PaymentRow(merchant, amount, Created, None, None)
    {
      this.id, this.merchant, this.amount := id, merchant, amount;
      status, captured, settlement := Created, None, None;
    }

    ghost function Row(): PaymentRow
      reads this
    {
      PaymentRow(merchant, amount, status, captured, settlement)
    }
  }

  class Wallet {
    const merchant: MerchantId
    var balance: int

    constructor (merchant: MerchantId)
      ensures Row() == WalletRow(merchant, 0)
    {
      this.merchant, balance := merchant, 0;
    }

    ghost function Row(): WalletRow
      reads this
    {
      WalletRow(merchant, balance)
    }
  }

  class Settlement {
    const id: SettlementId
    const merchant: MerchantId
    const amount: int
    const count: nat
    var status: SettlementStatus

    constructor (id: SettlementId, merchant: MerchantId, amount: int, count: nat)
      ensures this.id == id
      ensures Row() == SettlementRow(merchant, amount, count, Processing)
    {
      this.id, this.merchant, this.amount, this.count := id, merchant, amount, count;
      status := Processing;
    }

    ghost function Row(): SettlementRow
      reads this
    {
      SettlementRow(merchant, amount, count, status)
    }
  }

  ghost function PaymentRows(payments: seq<Payment>): seq<PaymentRow>
    reads payments
  {
    seq(|payments|, i requires 0 <= i < |payments| reads payments => payments[i].Row())
  }

  ghost function WalletRows(wallets: seq<Wallet>): seq<WalletRow>
    reads wallets
  {
    seq(|wallets|, i requires 0 <= i < |wallets| reads wallets => wallets[i].Row())
  }

  ghost function SettlementRows(settlements: seq<Settlement>): seq<SettlementRow>
    reads settlements
  {
    seq(|settlements|, i requires 0 <= i < |settlements| reads settlements => settlements[i].Row())
  }

  /** Refunds and ledger entries are never changed once inserted, so they are kept as values. */
  class Session {
    var payments: seq<Payment>
    var refunds: seq<RefundRow>
    var ledger: seq<LedgerEntry>
    var wallets: seq<Wallet>
    var settlements: seq<Settlement>

    constructor ()
      ensures Valid() && Snapshot() == EMPTY
    {
      payments, refunds, ledger, wallets, settlements := [], [], [], [], [];
    }

    /** A row's id is its position, and no wallet is listed twice. */
    ghost predicate Valid()
      reads this
    {
      && (forall i :: 0 <= i < |payments| ==> payments[i].id == i)
      && (forall i :: 0 <= i < |settlements| ==> settlements[i].id == i)
      && (forall i, j :: 0 <= i < j < |wallets| ==> wallets[i] != wallets[j])
    }

    /** The tables as values. */
    ghost function Snapshot(): State
      reads this, payments, wallets, settlements
    {
      State(PaymentRows(payments), refunds, ledger, WalletRows(wallets), SettlementRows(settlements))
    }

    // Inserts. Each says which table grows and that the others stay.

    method AddPayment(payment: Payment)
      requires Valid() && payment.id == |payments|
      modifies `payments
      ensures Valid() && payments == old(payments) + [payment]
      ensures Snapshot() == old(Snapshot()).(payments := old(PaymentRows(payments)) + [payment.Row()])
    {
      payments := payments + [payment];
      assert PaymentRows(payments) == old(PaymentRows(payments)) + [payment.Row()];
    }

    method AddEntry(entry: LedgerEntry)
      requires Valid()
      modifies `ledger
      ensures Valid()
      ensures Snapshot() == old(Snapshot()).(ledger := old(ledger) + [entry])
    {
      ledger := ledger + [entry];
    }

    method AddRefund(refund: RefundRow)
      requires Valid()
      modifies `refunds
      ensures Valid()
      ensures Snapshot() == old(Snapshot()).(refunds := old(refunds) + [refund])
    {
      refunds := refunds + [refund];
    }

    method AddSettlement(settlement: Settlement)
      requires Valid() && settlement.id == |settlements|
      modifies `settlements
      ensures Valid() && settlements == old(settlements) + [settlement]
      ensures Snapshot() == old(Snapshot()).(settlements := old(SettlementRows(settlements)) + [settlement.Row()])
    {
      settlements := settlements + [settlement];
      assert SettlementRows(settlements) == old(SettlementRows(settlements)) + [settlement.Row()];
    }

    /** Changes a payment's status and captured amount; the settlement stays. */
    method UpdatePayment(payment: Payment, status: PaymentStatus, captured: Option<int>)
      requires Valid() && payment in payments
      modifies payment
      ensures Valid() && payment.id < |payments|
      ensures Snapshot() == old(Snapshot()).(payments := old(PaymentRows(payments))[payment.id :=
        old(payment.Row()).(status := status, captured := captured)])
    {
      payment.status := status;
      payment.captured := captured;
      assert PaymentRows(payments) == old(PaymentRows(payments))[payment.id := payment.Row()];
    }
  }
}
