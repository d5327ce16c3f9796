/** The money tables of the gateway as values, and what each service call does to them. */
module Gateway {
  import opened Types
  import opened StateMachine
  import opened Sums

  datatype Account = CustomerHolding | MerchantWallet | BankSettlement

  datatype EntryType = Debit | Credit

  datatype SettlementStatus = Processing | Completed

  datatype LedgerEntry = LedgerEntry(payment: PaymentId, account: Account, kind: EntryType, amount: int)

  datatype PaymentRow = PaymentRow(
    merchant: MerchantId,
    amount: int,
    status: PaymentStatus,
    captured: Option<int>,
    settlement: Option<SettlementId>)

  datatype RefundRow = RefundRow(payment: PaymentId, amount: int)

  datatype WalletRow = WalletRow(merchant: MerchantId, balance: int)

  datatype SettlementRow = SettlementRow(
    merchant: MerchantId,
    amount: int,
    count: nat,
    status: SettlementStatus)

  /** The committed database. A row's id is its position in its table. */
  datatype State = State(
    payments: seq<PaymentRow>,
    refunds: seq<RefundRow>,
    ledger: seq<LedgerEntry>,
    wallets: seq<WalletRow>,
    settlements: seq<SettlementRow>)

  const EMPTY := State([], [], [], [], [])

  // ---------------------------------------------------------------- ledger

  function CapturePair(payment: PaymentId, amount: int): seq<LedgerEntry> {
    [LedgerEntry(payment, CustomerHolding, Debit, amount), LedgerEntry(payment, MerchantWallet, Credit, amount)]
  }

  function RefundPair(payment: PaymentId, amount: int): seq<LedgerEntry> {
    [LedgerEntry(payment, MerchantWallet, Debit, amount), LedgerEntry(payment, CustomerHolding, Credit, amount)]
  }

  function SettlementPair(payment: PaymentId, amount: int): seq<LedgerEntry> {
    [LedgerEntry(payment, MerchantWallet, Debit, amount), LedgerEntry(payment, BankSettlement, Credit, amount)]
  }

  /** The position of the merchant's first wallet, or the length of the table when there is none. */
  function FindWallet(wallets: seq<WalletRow>, merchant: MerchantId): (i: nat)
    ensures i <= |wallets|
    ensures i < |wallets| ==> wallets[i].merchant == merchant
    ensures forall j :: 0 <= j < i ==> wallets[j].merchant != merchant
  {
    if wallets == [] then 0
    else if wallets[0].merchant == merchant then 0
    else 1 + FindWallet(wallets[1..], merchant)
  }

  function Balance(wallets: seq<WalletRow>, merchant: MerchantId): int {
    var i := FindWallet(wallets, merchant);
    if i < |wallets| then wallets[i].balance else 0
  }

  /** Get or create the wallet, then add to its balance. */
  function AdjustWallet(wallets: seq<WalletRow>, merchant: MerchantId, delta: int): seq<WalletRow> {
    var i := FindWallet(wallets, merchant);
    if i < |wallets| then
      wallets[i := WalletRow(merchant, wallets[i].balance + delta)]
    else
      wallets + [WalletRow(merchant, delta)]
  }

  // -------------------------------------------------------------- payments

  /** The amounts refunded on a payment, oldest first. */
  function RefundsOf(refunds: seq<RefundRow>, payment: PaymentId): seq<int> {
    if refunds == [] then []
    else
      var last := refunds[|refunds| - 1];
      RefundsOf(refunds[..|refunds| - 1], payment) + (if last.payment == payment then [last.amount] else [])
  }

  /** Python's `captured_amount or amount`: zero counts as missing. */
  function Refundable(p: PaymentRow): int {
    if p.captured.Some? && p.captured.value != 0 then p.captured.value else p.amount
  }

  datatype BankReply = Approve | Decline | Timeout

  function AfterCreate(s: State, merchant: MerchantId, amount: int): State {
    s.(payments := s.payments + [PaymentRow(merchant, amount, Created, None, None)])
  }

  function AfterAuthorize(s: State, id: PaymentId, bank: BankReply): Result<State>
    requires id < |s.payments|
  {
    if bank.Timeout? then Ok(s)
    else
      var p := s.payments[id];
      match Transition(p.status, if bank.Approve? then Authorized else Failed)
      case Err(e) => Err(e)
      case Ok(status) => Ok(s.(payments := s.payments[id := p.(status := status)]))
  }

  function AfterCapture(s: State, id: PaymentId, amount: Option<int>): Result<State>
    requires id < |s.payments|
  {
    var p := s.payments[id];
    var capture := amount.GetOr(p.amount);
    if capture > p.amount then Err(InvalidValue)
    else
      match Transition(p.status, PaymentStatus.Captured)
      case Err(e) => Err(e)
      case Ok(status) =>
        Ok(s.(payments := s.payments[id := p.(status := status, captured := Some(capture))],
              ledger := s.ledger + CapturePair(id, capture),
              wallets := AdjustWallet(s.wallets, p.merchant, capture)))
  }

  function AfterRefund(s: State, id: PaymentId, amount: int): Result<State>
    requires id < |s.payments|
  {
    var p := s.payments[id];
    var remaining := Refundable(p) - Sum(RefundsOf(s.refunds, id));
    if amount > remaining then Err(InvalidValue)
    else
      match Transition(p.status, if amount == remaining then Refunded else PartiallyRefunded)
      case Err(e) => Err(e)
      case Ok(status) =>
        Ok(s.(payments := s.payments[id := p.(status := status)],
              refunds := s.refunds + [RefundRow(id, amount)],
              ledger := s.ledger + RefundPair(id, amount),
              wallets := AdjustWallet(s.wallets, p.merchant, -amount)))
  }

  // ------------------------------------------------------------ settlement

  predicate Unsettled(p: PaymentRow, merchant: MerchantId) {
    p.merchant == merchant && p.status == PaymentStatus.Captured && p.settlement.None?
  }

  /** The ids of the merchant's captured payments that are in no settlement, in table order. */
  function UnsettledIds(payments: seq<PaymentRow>, merchant: MerchantId): (ids: seq<PaymentId>)
    ensures forall i: PaymentId :: i in ids <==> i < |payments| && Unsettled(payments[i], merchant)
    ensures InTable(payments, ids)
    ensures forall a, b :: 0 <= a < b < |ids| ==> ids[a] < ids[b]
  {
    if payments == [] then []
    else
      var n := |payments| - 1;
      var earlier := UnsettledIds(payments[..n], merchant);
      assert forall k :: 0 <= k < |earlier| ==> earlier[k] < n;
      earlier + (if Unsettled(payments[n], merchant) then [n] else [])
  }

  ghost predicate InTable(payments: seq<PaymentRow>, ids: seq<PaymentId>) {
    forall k :: 0 <= k < |ids| ==> ids[k] < |payments|
  }

  function TotalAmount(payments: seq<PaymentRow>, ids: seq<PaymentId>): int
    requires InTable(payments, ids)
  {
    if ids == [] then 0
    else TotalAmount(payments, ids[..|ids| - 1]) + payments[ids[|ids| - 1]].amount
  }

  function SettlementPairs(payments: seq<PaymentRow>, ids: seq<PaymentId>): seq<LedgerEntry>
    requires InTable(payments, ids)
  {
    if ids == [] then []
    else
      var last := ids[|ids| - 1];
      SettlementPairs(payments, ids[..|ids| - 1]) + SettlementPair(last, payments[last].amount)
  }

  function MarkSettled(payments: seq<PaymentRow>, ids: seq<PaymentId>, batch: SettlementId): seq<PaymentRow> {
    seq(|payments|, i requires 0 <= i < |payments| =>
      if i in ids then payments[i].(status := Settled, settlement := Some(batch)) else payments[i])
  }

  function AfterBatch(s: State, merchant: MerchantId): Result<State> {
    var ids := UnsettledIds(s.payments, merchant);
    if ids == [] then Err(InvalidValue)
    else
      var row := SettlementRow(merchant, TotalAmount(s.payments, ids), |ids|, Completed);
      Ok(s.(payments := MarkSettled(s.payments, ids, |s.settlements|),
            ledger := s.ledger + SettlementPairs(s.payments, ids),
            settlements := s.settlements + [row]))
  }

  // -------------------------------------------------------------- requests

  /** One request of an authenticated merchant; the bank's answer is an input. */
  datatype Request =
    | Create(merchant: MerchantId, amount: int)
    | Authorize(merchant: MerchantId, id: PaymentId, bank: BankReply)
    | Capture(merchant: MerchantId, id: PaymentId, part: Option<int>)
    | Refund(merchant: MerchantId, id: PaymentId, amount: int)
    | Settle(merchant: MerchantId)

  predicate Owns(s: State, merchant: MerchantId, id: PaymentId) {
    id < |s.payments| && s.payments[id].merchant == merchant
  }

  /** Body validation, then the ownership check, then the service call. */
  function Handle(s: State, r: Request): Result<State> {
    match r
    case Create(merchant, amount) =>
      if amount <= 0 then Err(InvalidBody) else Ok(AfterCreate(s, merchant, amount))
    case Authorize(merchant, id, bank) =>
      if !Owns(s, merchant, id) then Err(NotFound) else AfterAuthorize(s, id, bank)
    case Capture(merchant, id, part) =>
      if part.Some? && part.value <= 0 then Err(InvalidBody)
      else if !Owns(s, merchant, id) then Err(NotFound)
      else AfterCapture(s, id, part)
    case Refund(merchant, id, amount) =>
      if amount <= 0 then Err(InvalidBody)
      else if !Owns(s, merchant, id) then Err(NotFound)
      else AfterRefund(s, id, amount)
    case Settle(merchant) => AfterBatch(s, merchant)
  }

  /** A request that is turned down rolls back. */
  function Next(s: State, r: Request): State {
    match Handle(s, r)
    case Ok(s') => s'
    case Err(_) => s
  }

  function Run(s: State, rs: seq<Request>): State {
    if rs == [] then s else Next(Run(s, rs[..|rs| - 1]), rs[|rs| - 1])
  }

  lemma RunAppend(s: State, rs: seq<Request>, r: Request)
    ensures Run(s, rs + [r]) == Next(Run(s, rs), r)
  {
    assert (rs + [r])[..|rs|] == rs;
  }

  lemma {:induction false} RunConcat(s: State, rs: seq<Request>, more: seq<Request>)
    ensures Run(s, rs + more) == Run(Run(s, rs), more)
  {
    if more == [] {
      assert rs + more == rs;
    } else {
      assert (rs + more)[..|rs + more| - 1] == rs + more[..|more| - 1];
      RunConcat(s, rs, more[..|more| - 1]);
    }
  }
}
