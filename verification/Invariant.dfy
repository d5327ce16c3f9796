/** What ties payments, refunds, ledger, wallets and settlements together, and why every request keeps it. */
module Invariant {
  import opened Types
  import opened StateMachine
  import opened Sums
  import opened Gateway
  import opened History

  // -------------------------------------------------------------- payments

  function CapturedOf(p: PaymentRow): int {
    p.captured.GetOr(0)
  }

  /** The status agrees with the captured amount, the refunds and the settlement. */
  ghost predicate Coherent(p: PaymentRow, refunds: seq<int>) {
    && p.amount > 0
    && (match p.status
        case Created | Authorized | Failed =>
          p.captured.None? && p.settlement.None? && refunds == []
        case Captured =>
          CaptureInRange(p) && p.settlement.None? && refunds == []
        case Settled =>
          CaptureInRange(p) && p.settlement.Some? && refunds == []
        case PartiallyRefunded =>
          CaptureInRange(p) && |refunds| == 1 && 0 < refunds[0] < p.captured.value
        case Refunded =>
          && CaptureInRange(p)
          && (|| (|refunds| == 1 && refunds[0] == p.captured.value)
              || (|refunds| == 2 && refunds[0] > 0 && refunds[1] > 0 && refunds[0] + refunds[1] == p.captured.value)))
  }

  ghost predicate CaptureInRange(p: PaymentRow) {
    p.captured.Some? && 0 < p.captured.value <= p.amount
  }

  ghost predicate PaymentGood(s: State, id: PaymentId)
    requires id < |s.payments|
  {
    var p, refunds := s.payments[id], RefundsOf(s.refunds, id);
    Coherent(p, refunds) && EntriesOf(s.ledger, id) == Postings(id, Moves(p, refunds))
  }

  ghost predicate PaymentsGood(s: State) {
    forall id: PaymentId :: id < |s.payments| ==> PaymentGood(s, id)
  }

  ghost predicate RefersToPayments(s: State) {
    && Refers(s.ledger, |s.payments|)
    && forall r :: r in s.refunds ==> r.payment < |s.payments|
  }

  // --------------------------------------------------------------- wallets

  /** What each of the merchant's payments still holds for it: captured less refunded. */
  function Shares(s: State, merchant: MerchantId): seq<int> {
    seq(|s.payments|, i requires 0 <= i < |s.payments| =>
      if s.payments[i].merchant == merchant then CapturedOf(s.payments[i]) - Sum(RefundsOf(s.refunds, i)) else 0)
  }

  ghost predicate WalletsUnique(wallets: seq<WalletRow>) {
    forall i, j :: 0 <= i < j < |wallets| ==> wallets[i].merchant != wallets[j].merchant
  }

  ghost predicate WalletGood(s: State, merchant: MerchantId) {
    Balance(s.wallets, merchant) == Sum(Shares(s, merchant))
  }

  ghost predicate WalletsGood(s: State) {
    WalletsUnique(s.wallets) && forall m: MerchantId :: WalletGood(s, m)
  }

  // ----------------------------------------------------------- settlements

  /** The amounts of the payments that carry settlement id `batch`. */
  function MemberAmounts(payments: seq<PaymentRow>, batch: SettlementId): seq<int> {
    seq(|payments|, i requires 0 <= i < |payments| =>
      if payments[i].settlement == Some(batch) then payments[i].amount else 0)
  }

  function MemberMarks(payments: seq<PaymentRow>, batch: SettlementId): seq<int> {
    seq(|payments|, i requires 0 <= i < |payments| => if payments[i].settlement == Some(batch) then 1 else 0)
  }

  /** The amounts of the merchant's payments that are in some settlement. */
  function SettledAmounts(payments: seq<PaymentRow>, merchant: MerchantId): seq<int> {
    seq(|payments|, i requires 0 <= i < |payments| =>
      if payments[i].merchant == merchant && payments[i].settlement.Some? then payments[i].amount else 0)
  }

  /** What the merchant's settlements add up to. */
  function SettledTotal(settlements: seq<SettlementRow>, merchant: MerchantId): int {
    if settlements == [] then 0
    else
      var last := settlements[|settlements| - 1];
      SettledTotal(settlements[..|settlements| - 1], merchant) + (if last.merchant == merchant then last.amount else 0)
  }

  ghost predicate SettlementGood(s: State, batch: SettlementId)
    requires batch < |s.settlements|
  {
    var row := s.settlements[batch];
    && row.amount == Sum(MemberAmounts(s.payments, batch))
    && row.count == Sum(MemberMarks(s.payments, batch))
    && row.count > 0
    && row.status == Completed
  }

  ghost predicate MembershipGood(s: State, id: PaymentId)
    requires id < |s.payments|
  {
    var p := s.payments[id];
    p.settlement.Some? ==>
      p.settlement.value < |s.settlements| && s.settlements[p.settlement.value].merchant == p.merchant
  }

  ghost predicate MerchantSettled(s: State, merchant: MerchantId) {
    SettledTotal(s.settlements, merchant) == Sum(SettledAmounts(s.payments, merchant))
  }

  ghost predicate SettlementsGood(s: State) {
    && (forall batch: SettlementId :: batch < |s.settlements| ==> SettlementGood(s, batch))
    && (forall id: PaymentId :: id < |s.payments| ==> MembershipGood(s, id))
    && (forall m: MerchantId :: MerchantSettled(s, m))
  }

  // ---------------------------------------------------------------- ledger

  ghost predicate LedgerNetGood(s: State, merchant: MerchantId) {
    NetWallet(s.ledger, s.payments, merchant) == Balance(s.wallets, merchant) - SettledTotal(s.settlements, merchant)
  }

  ghost predicate LedgerGood(s: State) {
    && SideTotal(s.ledger, Debit) == SideTotal(s.ledger, Credit)
    && forall m: MerchantId :: LedgerNetGood(s, m)
  }

  ghost predicate Good(s: State) {
    && PaymentsGood(s)
    && RefersToPayments(s)
    && WalletsGood(s)
    && SettlementsGood(s)
    && LedgerGood(s)
  }

  lemma EmptyGood()
    ensures Good(EMPTY)
  {
    forall m: MerchantId ensures WalletGood(EMPTY, m) && MerchantSettled(EMPTY, m) && LedgerNetGood(EMPTY, m) {
      assert Shares(EMPTY, m) == [];
      assert SettledAmounts(EMPTY.payments, m) == [];
    }
  }

  // ------------------------------------------------------- creating a payment

  lemma CreatePaymentGood(s: State, merchant: MerchantId, amount: int, id: PaymentId)
    requires PaymentsGood(s) && RefersToPayments(s) && amount > 0 && id <= |s.payments|
    ensures PaymentGood(AfterCreate(s, merchant, amount), id)
  {
    if id < |s.payments| {
      assert PaymentGood(s, id);
    } else {
      EntriesOfAbsent(s.ledger, id);
      RefundsOfAbsent(s.refunds, id);
    }
  }

  lemma CreateShares(s: State, merchant: MerchantId, amount: int, m: MerchantId)
    requires RefundsOf(s.refunds, |s.payments|) == []
    ensures Sum(Shares(AfterCreate(s, merchant, amount), m)) == Sum(Shares(s, m))
  {
    assert Shares(AfterCreate(s, merchant, amount), m) == Shares(s, m) + [0];
    SumConcat(Shares(s, m), [0]);
  }

  lemma CreateSettled(s: State, merchant: MerchantId, amount: int, m: MerchantId)
    ensures Sum(SettledAmounts(AfterCreate(s, merchant, amount).payments, m)) == Sum(SettledAmounts(s.payments, m))
  {
    assert SettledAmounts(AfterCreate(s, merchant, amount).payments, m) == SettledAmounts(s.payments, m) + [0];
    SumConcat(SettledAmounts(s.payments, m), [0]);
  }

  lemma CreateSettlementGood(s: State, merchant: MerchantId, amount: int, batch: SettlementId)
    requires batch < |s.settlements| && SettlementGood(s, batch)
    ensures SettlementGood(AfterCreate(s, merchant, amount), batch)
  {
    var s' := AfterCreate(s, merchant, amount);
    assert MemberAmounts(s'.payments, batch) == MemberAmounts(s.payments, batch) + [0];
    SumConcat(MemberAmounts(s.payments, batch), [0]);
    assert MemberMarks(s'.payments, batch) == MemberMarks(s.payments, batch) + [0];
    SumConcat(MemberMarks(s.payments, batch), [0]);
  }

  lemma CreateGood(s: State, merchant: MerchantId, amount: int)
    requires Good(s) && amount > 0
    ensures Good(AfterCreate(s, merchant, amount))
  {
    var s', n := AfterCreate(s, merchant, amount), |s.payments|;
    RefundsOfAbsent(s.refunds, n);
    forall id: PaymentId | id < n + 1 ensures PaymentGood(s', id) {
      CreatePaymentGood(s, merchant, amount, id);
    }
    forall m: MerchantId ensures WalletGood(s', m) && MerchantSettled(s', m) && LedgerNetGood(s', m) {
      assert WalletGood(s, m) && MerchantSettled(s, m) && LedgerNetGood(s, m);
      CreateShares(s, merchant, amount, m);
      CreateSettled(s, merchant, amount, m);
      NetWalletFrame(s.ledger, s.payments, s'.payments, m);
    }
    forall batch: SettlementId | batch < |s.settlements| ensures SettlementGood(s', batch) {
      CreateSettlementGood(s, merchant, amount, batch);
    }
    forall id: PaymentId | id < n + 1 ensures MembershipGood(s', id) {
      assert id < n ==> MembershipGood(s, id);
    }
  }

  // ---------------------------------------------- changing one payment's row

  /** Authorize, capture and refund all replace one row and post at most one move. */
  function Post(s: State, id: PaymentId, row: PaymentRow, move: Option<Move>): State
    requires id < |s.payments|
  {
    var moved := s.(payments := s.payments[id := row]);
    match move
    case None => moved
    case Some(CaptureMove(a)) =>
      moved.(ledger := s.ledger + CapturePair(id, a), wallets := AdjustWallet(s.wallets, row.merchant, a))
    case Some(RefundMove(a)) =>
      moved.(ledger := s.ledger + RefundPair(id, a), wallets := AdjustWallet(s.wallets, row.merchant, -a),
             refunds := s.refunds + [RefundRow(id, a)])
    case Some(SettleMove(a)) => moved
  }

  function NewRefunds(move: Option<Move>): seq<int> {
    if move.Some? && move.value.RefundMove? then [move.value.amount] else []
  }

  ghost predicate SameIdentity(p: PaymentRow, row: PaymentRow) {
    row.merchant == p.merchant && row.amount == p.amount && row.settlement == p.settlement
  }

  /** The new row keeps its identity, is coherent, and says exactly one more move when one is posted. */
  ghost predicate Justified(s: State, id: PaymentId, row: PaymentRow, move: Option<Move>)
    requires id < |s.payments|
  {
    var p, refunds := s.payments[id], RefundsOf(s.refunds, id);
    && SameIdentity(p, row)
    && !(move.Some? && move.value.SettleMove?)
    && Coherent(row, refunds + NewRefunds(move))
    && Moves(row, refunds + NewRefunds(move)) ==
       (if move.Some? then Moves(p, refunds) + [move.value] else Moves(p, refunds))
    && CapturedOf(row) == CapturedOf(p) + (if move.Some? && move.value.CaptureMove? then move.value.amount else 0)
  }

  function WalletEffect(move: Option<Move>): int {
    match move
    case Some(CaptureMove(a)) => a
    case Some(RefundMove(a)) => -a
    case _ => 0
  }

  lemma AdjustWalletEffect(wallets: seq<WalletRow>, merchant: MerchantId, delta: int, m: MerchantId)
    requires WalletsUnique(wallets)
    ensures WalletsUnique(AdjustWallet(wallets, merchant, delta))
    ensures Balance(AdjustWallet(wallets, merchant, delta), m)
         == Balance(wallets, m) + if m == merchant then delta else 0
  {
    var after := AdjustWallet(wallets, merchant, delta);
    var i := FindWallet(wallets, merchant);
    var j, k := FindWallet(wallets, m), FindWallet(after, m);
    assert forall x :: 0 <= x < |wallets| ==> after[x].merchant == wallets[x].merchant;
    if j < |wallets| {
      assert after[j].merchant == m;
      assert k == j;
    } else if m == merchant {
      assert after[|wallets|].merchant == m;
      assert k == |wallets|;
    } else {
      assert k == |after|;
    }
  }

  lemma PostRefunds(s: State, id: PaymentId, row: PaymentRow, move: Option<Move>, i: PaymentId)
    requires id < |s.payments|
    ensures RefundsOf(Post(s, id, row, move).refunds, i)
         == if i == id then RefundsOf(s.refunds, i) + NewRefunds(move) else RefundsOf(s.refunds, i)
  {
    if move.Some? && move.value.RefundMove? {
      RefundsOfAppend(s.refunds, RefundRow(id, move.value.amount), i);
    } else {
      assert RefundsOf(s.refunds, i) + [] == RefundsOf(s.refunds, i);
    }
  }

  lemma PostEntries(s: State, id: PaymentId, row: PaymentRow, move: Option<Move>, i: PaymentId)
    requires id < |s.payments| && !(move.Some? && move.value.SettleMove?)
    ensures EntriesOf(Post(s, id, row, move).ledger, i)
         == if i == id && move.Some? then EntriesOf(s.ledger, i) + Pair(id, move.value) else EntriesOf(s.ledger, i)
  {
    if move.Some? {
      EntriesOfPosted(s.ledger, move.value, id, i);
    }
  }

  lemma PostPaymentGood(s: State, id: PaymentId, row: PaymentRow, move: Option<Move>, i: PaymentId)
    requires id < |s.payments| && i < |s.payments| && PaymentGood(s, i) && Justified(s, id, row, move)
    ensures PaymentGood(Post(s, id, row, move), i)
  {
    PostRefunds(s, id, row, move, i);
    PostEntries(s, id, row, move, i);
    if i == id && move.Some? {
      PostingsAppend(id, Moves(s.payments[id], RefundsOf(s.refunds, id)), move.value);
    }
  }

  lemma PostBalance(s: State, id: PaymentId, row: PaymentRow, move: Option<Move>, m: MerchantId)
    requires id < |s.payments| && WalletsUnique(s.wallets) && !(move.Some? && move.value.SettleMove?)
    ensures WalletsUnique(Post(s, id, row, move).wallets)
    ensures Balance(Post(s, id, row, move).wallets, m)
         == Balance(s.wallets, m) + if row.merchant == m then WalletEffect(move) else 0
  {
    if move.Some? {
      AdjustWalletEffect(s.wallets, row.merchant, WalletEffect(move), m);
    }
  }

  lemma PostMerchantGood(s: State, id: PaymentId, row: PaymentRow, move: Option<Move>, m: MerchantId)
    requires id < |s.payments| && Justified(s, id, row, move)
    requires WalletsUnique(s.wallets) && Refers(s.ledger, |s.payments|)
    requires WalletGood(s, m) && LedgerNetGood(s, m)
    ensures WalletGood(Post(s, id, row, move), m) && LedgerNetGood(Post(s, id, row, move), m)
  {
    PostSharesGood(s, id, row, move, m);
    PostNet(s, id, row, move, m);
    PostBalance(s, id, row, move, m);
  }

  lemma SharesUpdate(s: State, s': State, id: PaymentId, m: MerchantId)
    requires id < |s.payments| == |s'.payments|
    requires forall i: PaymentId :: i < |s.payments| && i != id ==>
      s'.payments[i] == s.payments[i] && RefundsOf(s'.refunds, i) == RefundsOf(s.refunds, i)
    ensures Sum(Shares(s', m)) == Sum(Shares(s, m)) - Shares(s, m)[id] + Shares(s', m)[id]
  {
    assert Shares(s', m) == Shares(s, m)[id := Shares(s', m)[id]];
    SumUpdate(Shares(s, m), id, Shares(s', m)[id]);
  }

  lemma PostSharesGood(s: State, id: PaymentId, row: PaymentRow, move: Option<Move>, m: MerchantId)
    requires id < |s.payments| && Justified(s, id, row, move)
    ensures Sum(Shares(Post(s, id, row, move), m))
         == Sum(Shares(s, m)) + if row.merchant == m then WalletEffect(move) else 0
  {
    forall i: PaymentId | i < |s.payments|
      ensures RefundsOf(Post(s, id, row, move).refunds, i)
           == if i == id then RefundsOf(s.refunds, i) + NewRefunds(move) else RefundsOf(s.refunds, i)
    {
      PostRefunds(s, id, row, move, i);
    }
    SharesUpdate(s, Post(s, id, row, move), id, m);
    SumConcat(RefundsOf(s.refunds, id), NewRefunds(move));
    SumOfFew(NewRefunds(move));
  }

  lemma PostNet(s: State, id: PaymentId, row: PaymentRow, move: Option<Move>, m: MerchantId)
    requires id < |s.payments| && Justified(s, id, row, move) && Refers(s.ledger, |s.payments|)
    ensures NetWallet(Post(s, id, row, move).ledger, Post(s, id, row, move).payments, m)
         == NetWallet(s.ledger, s.payments, m) + if row.merchant == m then WalletEffect(move) else 0
  {
    var s' := Post(s, id, row, move);
    NetWalletFrame(s.ledger, s.payments, s'.payments, m);
    if move.Some? {
      NetWalletConcat(s.ledger, Pair(id, move.value), s'.payments, m);
      NetWalletPair(id, move.value, s'.payments, m);
      PairEffect(id, move.value, MerchantWallet);
    }
  }

  lemma PostBalanced(s: State, id: PaymentId, row: PaymentRow, move: Option<Move>)
    requires id < |s.payments| && SideTotal(s.ledger, Debit) == SideTotal(s.ledger, Credit)
    ensures SideTotal(Post(s, id, row, move).ledger, Debit) == SideTotal(Post(s, id, row, move).ledger, Credit)
  {
    if move.Some? {
      SideTotalConcat(s.ledger, Pair(id, move.value), Debit);
      SideTotalConcat(s.ledger, Pair(id, move.value), Credit);
      PairEffect(id, move.value, MerchantWallet);
    }
  }

  lemma SumOfFew(xs: seq<int>)
    requires |xs| <= 2
    ensures Sum(xs) == if |xs| == 0 then 0 else if |xs| == 1 then xs[0] else xs[0] + xs[1]
  {
    if |xs| == 2 {
      assert xs[..1] == [xs[0]];
    }
  }

  ghost predicate SameSettlementFields(before: seq<PaymentRow>, after: seq<PaymentRow>) {
    && |before| == |after|
    && forall i :: 0 <= i < |before| ==>
         && after[i].merchant == before[i].merchant
         && after[i].amount == before[i].amount
         && after[i].settlement == before[i].settlement
  }

  lemma SettlementsUnchanged(s: State, s': State)
    requires SettlementsGood(s) && s'.settlements == s.settlements && SameSettlementFields(s.payments, s'.payments)
    ensures SettlementsGood(s')
  {
    forall batch: SettlementId | batch < |s'.settlements| ensures SettlementGood(s', batch) {
      assert SettlementGood(s, batch);
      assert MemberAmounts(s'.payments, batch) == MemberAmounts(s.payments, batch);
      assert MemberMarks(s'.payments, batch) == MemberMarks(s.payments, batch);
    }
    forall i: PaymentId | i < |s'.payments| ensures MembershipGood(s', i) {
      assert MembershipGood(s, i);
    }
    forall m: MerchantId ensures MerchantSettled(s', m) {
      assert MerchantSettled(s, m);
      assert SettledAmounts(s'.payments, m) == SettledAmounts(s.payments, m);
    }
  }

  lemma PostPaymentsGood(s: State, id: PaymentId, row: PaymentRow, move: Option<Move>)
    requires PaymentsGood(s) && id < |s.payments| && Justified(s, id, row, move)
    ensures PaymentsGood(Post(s, id, row, move))
  {
    forall i: PaymentId | i < |s.payments| ensures PaymentGood(Post(s, id, row, move), i) {
      assert PaymentGood(s, i);
      PostPaymentGood(s, id, row, move, i);
    }
  }

  lemma PostMerchantsGood(s: State, id: PaymentId, row: PaymentRow, move: Option<Move>)
    requires WalletsGood(s) && LedgerGood(s) && RefersToPayments(s)
    requires id < |s.payments| && Justified(s, id, row, move)
    ensures WalletsGood(Post(s, id, row, move)) && LedgerGood(Post(s, id, row, move))
  {
    var s' := Post(s, id, row, move);
    forall m: MerchantId ensures WalletGood(s', m) && LedgerNetGood(s', m) {
      assert WalletGood(s, m) && LedgerNetGood(s, m);
      PostMerchantGood(s, id, row, move, m);
    }
    PostBalance(s, id, row, move, row.merchant);
    PostBalanced(s, id, row, move);
  }

  lemma PostRefers(s: State, id: PaymentId, row: PaymentRow, move: Option<Move>)
    requires RefersToPayments(s) && id < |s.payments|
    ensures RefersToPayments(Post(s, id, row, move))
  {
  }

  lemma PostSettlementsGood(s: State, id: PaymentId, row: PaymentRow, move: Option<Move>)
    requires SettlementsGood(s) && id < |s.payments| && SameIdentity(s.payments[id], row)
    ensures SettlementsGood(Post(s, id, row, move))
  {
    PostKeepsFields(s, id, row, move);
    SettlementsUnchanged(s, Post(s, id, row, move));
  }

  lemma PostKeepsFields(s: State, id: PaymentId, row: PaymentRow, move: Option<Move>)
    requires id < |s.payments| && SameIdentity(s.payments[id], row)
    ensures Post(s, id, row, move).settlements == s.settlements
    ensures SameSettlementFields(s.payments, Post(s, id, row, move).payments)
  {
  }

  lemma PostGood(s: State, id: PaymentId, row: PaymentRow, move: Option<Move>)
    requires Good(s) && id < |s.payments| && Justified(s, id, row, move)
    ensures Good(Post(s, id, row, move))
  {
    PostPaymentsGood(s, id, row, move);
    PostRefers(s, id, row, move);
    PostMerchantsGood(s, id, row, move);
    PostSettlementsGood(s, id, row, move);
  }

  // ------------------------------------------------------ the one-row requests

  lemma AuthorizeCoherent(p: PaymentRow, refunds: seq<int>, status: PaymentStatus)
    requires Coherent(p, refunds) && status in {Authorized, Failed} && CanTransition(p.status, status)
    ensures Coherent(p.(status := status), refunds)
  {
  }

  lemma AuthorizeJustified(s: State, id: PaymentId, status: PaymentStatus)
    requires id < |s.payments| && Coherent(s.payments[id], RefundsOf(s.refunds, id))
    requires status in {Authorized, Failed} && CanTransition(s.payments[id].status, status)
    ensures Justified(s, id, s.payments[id].(status := status), None)
  {
    AuthorizeCoherent(s.payments[id], RefundsOf(s.refunds, id), status);
    assert RefundsOf(s.refunds, id) + [] == RefundsOf(s.refunds, id);
  }

  lemma AuthorizeGood(s: State, id: PaymentId, bank: BankReply)
    requires Good(s) && id < |s.payments| && AfterAuthorize(s, id, bank).Ok?
    ensures Good(AfterAuthorize(s, id, bank).value)
  {
    assert PaymentGood(s, id);
    if !bank.Timeout? {
      var status := if bank.Approve? then Authorized else Failed;
      AuthorizeJustified(s, id, status);
      PostGood(s, id, s.payments[id].(status := status), None);
    }
  }

  lemma CaptureCoherent(p: PaymentRow, refunds: seq<int>, capture: int)
    requires Coherent(p, refunds) && 0 < capture <= p.amount && CanTransition(p.status, PaymentStatus.Captured)
    ensures p.captured.None? && p.settlement.None? && refunds == []
    ensures Coherent(p.(status := PaymentStatus.Captured, captured := Some(capture)), [])
  {
  }

  lemma CaptureJustified(s: State, id: PaymentId, capture: int)
    requires id < |s.payments| && Coherent(s.payments[id], RefundsOf(s.refunds, id))
    requires 0 < capture <= s.payments[id].amount && CanTransition(s.payments[id].status, PaymentStatus.Captured)
    ensures Justified(s, id, s.payments[id].(status := PaymentStatus.Captured, captured := Some(capture)),
                      Some(CaptureMove(capture)))
  {
    CaptureCoherent(s.payments[id], RefundsOf(s.refunds, id), capture);
  }

  lemma CaptureGood(s: State, id: PaymentId, amount: Option<int>)
    requires Good(s) && id < |s.payments| && AfterCapture(s, id, amount).Ok?
    requires amount.Some? ==> amount.value > 0
    ensures Good(AfterCapture(s, id, amount).value)
  {
    assert PaymentGood(s, id);
    var capture := amount.GetOr(s.payments[id].amount);
    CaptureJustified(s, id, capture);
    PostGood(s, id, s.payments[id].(status := PaymentStatus.Captured, captured := Some(capture)),
             Some(CaptureMove(capture)));
  }

  function RefundStatus(p: PaymentRow, refunds: seq<int>, amount: int): PaymentStatus {
    if amount == Refundable(p) - Sum(refunds) then Refunded else PartiallyRefunded
  }

  lemma RefundCoherent(p: PaymentRow, refunds: seq<int>, amount: int)
    requires Coherent(p, refunds) && 0 < amount <= Refundable(p) - Sum(refunds)
    requires CanTransition(p.status, RefundStatus(p, refunds, amount))
    ensures Coherent(p.(status := RefundStatus(p, refunds, amount)), refunds + [amount])
  {
    SumOfFew(refunds);
  }

  lemma RefundJustified(s: State, id: PaymentId, amount: int)
    requires id < |s.payments| && Coherent(s.payments[id], RefundsOf(s.refunds, id))
    requires 0 < amount <= Refundable(s.payments[id]) - Sum(RefundsOf(s.refunds, id))
    requires CanTransition(s.payments[id].status, RefundStatus(s.payments[id], RefundsOf(s.refunds, id), amount))
    ensures Justified(s, id, s.payments[id].(status := RefundStatus(s.payments[id], RefundsOf(s.refunds, id), amount)),
                      Some(RefundMove(amount)))
  {
    var p, refunds := s.payments[id], RefundsOf(s.refunds, id);
    RefundCoherent(p, refunds, amount);
    assert RefundMoves(refunds + [amount]) == RefundMoves(refunds) + [RefundMove(amount)];
  }

  lemma RefundIsPost(s: State, id: PaymentId, amount: int)
    requires id < |s.payments| && AfterRefund(s, id, amount).Ok?
    ensures amount <= Refundable(s.payments[id]) - Sum(RefundsOf(s.refunds, id))
    ensures CanTransition(s.payments[id].status, RefundStatus(s.payments[id], RefundsOf(s.refunds, id), amount))
    ensures AfterRefund(s, id, amount).value ==
      Post(s, id, s.payments[id].(status := RefundStatus(s.payments[id], RefundsOf(s.refunds, id), amount)),
           Some(RefundMove(amount)))
  {
  }

  lemma RefundGood(s: State, id: PaymentId, amount: int)
    requires Good(s) && id < |s.payments| && amount > 0 && AfterRefund(s, id, amount).Ok?
    ensures Good(AfterRefund(s, id, amount).value)
  {
    assert PaymentGood(s, id);
    RefundIsPost(s, id, amount);
    RefundJustified(s, id, amount);
    var status := RefundStatus(s.payments[id], RefundsOf(s.refunds, id), amount);
    PostGood(s, id, s.payments[id].(status := status), Some(RefundMove(amount)));
  }
}
