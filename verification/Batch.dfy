/** The settlement batch: what it posts, whom it marks, and why it keeps the invariant. */
module Batch {
  import opened Types
  import opened Sums
  import opened Gateway
  import opened History
  import opened Invariant

  ghost predicate Ascending(ids: seq<PaymentId>) {
    forall a, b :: 0 <= a < b < |ids| ==> ids[a] < ids[b]
  }

  /** The amounts of the listed payments, laid out over the whole table. */
  function PickedAmounts(payments: seq<PaymentRow>, ids: seq<PaymentId>): seq<int> {
    seq(|payments|, i requires 0 <= i < |payments| => if i in ids then payments[i].amount else 0)
  }

  function PickedMarks(payments: seq<PaymentRow>, ids: seq<PaymentId>): seq<int> {
    seq(|payments|, i requires 0 <= i < |payments| => if i in ids then 1 else 0)
  }

  lemma {:induction false} ZeroSum(zeros: seq<int>)
    requires forall i :: 0 <= i < |zeros| ==> zeros[i] == 0
    ensures Sum(zeros) == 0
  {
    if zeros != [] {
      ZeroSum(zeros[..|zeros| - 1]);
    }
  }

  lemma PickOneMore(payments: seq<PaymentRow>, ids: seq<PaymentId>, id: PaymentId)
    requires id < |payments| && id !in ids
    ensures Sum(PickedAmounts(payments, ids + [id])) == Sum(PickedAmounts(payments, ids)) + payments[id].amount
    ensures Sum(PickedMarks(payments, ids + [id])) == Sum(PickedMarks(payments, ids)) + 1
  {
    assert PickedAmounts(payments, ids + [id]) == PickedAmounts(payments, ids)[id := payments[id].amount];
    SumUpdate(PickedAmounts(payments, ids), id, payments[id].amount);
    assert PickedMarks(payments, ids + [id]) == PickedMarks(payments, ids)[id := 1];
    SumUpdate(PickedMarks(payments, ids), id, 1);
  }

  lemma {:induction false} PickedSums(payments: seq<PaymentRow>, ids: seq<PaymentId>)
    requires Ascending(ids) && InTable(payments, ids)
    ensures Sum(PickedAmounts(payments, ids)) == TotalAmount(payments, ids)
    ensures Sum(PickedMarks(payments, ids)) == |ids|
  {
    if ids == [] {
      ZeroSum(PickedAmounts(payments, ids));
      ZeroSum(PickedMarks(payments, ids));
    } else {
      var init, last := ids[..|ids| - 1], ids[|ids| - 1];
      PickedSums(payments, init);
      assert ids == init + [last];
      PickOneMore(payments, init, last);
    }
  }

  // ------------------------------------------------- what the pairs add up to

  lemma {:induction false} PairsEntries(payments: seq<PaymentRow>, ids: seq<PaymentId>, i: PaymentId)
    requires Ascending(ids) && InTable(payments, ids)
    ensures EntriesOf(SettlementPairs(payments, ids), i)
         == if i in ids then SettlementPair(i, payments[i].amount) else []
  {
    if ids != [] {
      var init, last := ids[..|ids| - 1], ids[|ids| - 1];
      PairsEntries(payments, init, i);
      assert ids == init + [last];
      EntriesOfConcat(SettlementPairs(payments, init), SettlementPair(last, payments[last].amount), i);
      EntriesOfPair(SettleMove(payments[last].amount), last, i);
    }
  }

  lemma {:induction false} PairsRefer(payments: seq<PaymentRow>, ids: seq<PaymentId>)
    requires InTable(payments, ids)
    ensures Refers(SettlementPairs(payments, ids), |payments|)
  {
    if ids != [] {
      PairsRefer(payments, ids[..|ids| - 1]);
    }
  }

  lemma {:induction false} PairsBalanced(payments: seq<PaymentRow>, ids: seq<PaymentId>)
    requires InTable(payments, ids)
    ensures SideTotal(SettlementPairs(payments, ids), Debit) == SideTotal(SettlementPairs(payments, ids), Credit)
  {
    if ids != [] {
      var init, last := ids[..|ids| - 1], ids[|ids| - 1];
      var pair := SettlementPair(last, payments[last].amount);
      PairsBalanced(payments, init);
      SideTotalConcat(SettlementPairs(payments, init), pair, Debit);
      SideTotalConcat(SettlementPairs(payments, init), pair, Credit);
      PairEffect(last, SettleMove(payments[last].amount), MerchantWallet);
    }
  }

  lemma {:induction false} PairsNet(
    payments: seq<PaymentRow>, after: seq<PaymentRow>, ids: seq<PaymentId>, merchant: MerchantId, m: MerchantId)
    requires InTable(payments, ids) && |after| == |payments|
    requires forall k :: 0 <= k < |ids| ==> after[ids[k]].merchant == merchant
    ensures NetWallet(SettlementPairs(payments, ids), after, m)
         == if m == merchant then -TotalAmount(payments, ids) else 0
  {
    if ids != [] {
      var init, last := ids[..|ids| - 1], ids[|ids| - 1];
      PairsNet(payments, after, init, merchant, m);
      NetWalletConcat(SettlementPairs(payments, init), SettlementPair(last, payments[last].amount), after, m);
      NetWalletPair(last, SettleMove(payments[last].amount), after, m);
      PairEffect(last, SettleMove(payments[last].amount), MerchantWallet);
    }
  }

  // --------------------------------------------------------------- invariant

  lemma BatchPaymentGood(s: State, merchant: MerchantId, i: PaymentId)
    requires AfterBatch(s, merchant).Ok? && i < |s.payments| && PaymentGood(s, i)
    ensures PaymentGood(AfterBatch(s, merchant).value, i)
  {
    var ids := UnsettledIds(s.payments, merchant);
    var pairs := SettlementPairs(s.payments, ids);
    var p, refunds := s.payments[i], RefundsOf(s.refunds, i);
    EntriesOfConcat(s.ledger, pairs, i);
    PairsEntries(s.payments, ids, i);
    if i in ids {
      var row := AfterBatch(s, merchant).value.payments[i];
      assert Moves(row, []) == Moves(p, []) + [SettleMove(p.amount)];
      PostingsAppend(i, Moves(p, []), SettleMove(p.amount));
    } else {
      assert EntriesOf(s.ledger, i) + [] == EntriesOf(s.ledger, i);
    }
  }

  lemma BatchNet(s: State, merchant: MerchantId, m: MerchantId)
    requires AfterBatch(s, merchant).Ok? && Refers(s.ledger, |s.payments|)
    ensures var s', ids := AfterBatch(s, merchant).value, UnsettledIds(s.payments, merchant);
      NetWallet(s'.ledger, s'.payments, m)
      == NetWallet(s.ledger, s.payments, m) - if m == merchant then TotalAmount(s.payments, ids) else 0
  {
    var s' := AfterBatch(s, merchant).value;
    var ids := UnsettledIds(s.payments, merchant);
    NetWalletConcat(s.ledger, SettlementPairs(s.payments, ids), s'.payments, m);
    NetWalletFrame(s.ledger, s.payments, s'.payments, m);
    forall k | 0 <= k < |ids| ensures s'.payments[ids[k]].merchant == merchant {
      assert ids[k] in ids;
    }
    PairsNet(s.payments, s'.payments, ids, merchant, m);
  }

  lemma BatchTotals(s: State, merchant: MerchantId, m: MerchantId)
    requires AfterBatch(s, merchant).Ok?
    ensures SettledTotal(AfterBatch(s, merchant).value.settlements, m) == SettledTotal(s.settlements, m) +
      if m == merchant then TotalAmount(s.payments, UnsettledIds(s.payments, merchant)) else 0
  {
    assert AfterBatch(s, merchant).value.settlements[..|s.settlements|] == s.settlements;
  }

  lemma BatchMerchantGood(s: State, merchant: MerchantId, m: MerchantId)
    requires AfterBatch(s, merchant).Ok? && Refers(s.ledger, |s.payments|)
    requires WalletGood(s, m) && MerchantSettled(s, m) && LedgerNetGood(s, m)
    ensures WalletGood(AfterBatch(s, merchant).value, m)
    ensures MerchantSettled(AfterBatch(s, merchant).value, m)
    ensures LedgerNetGood(AfterBatch(s, merchant).value, m)
  {
    BatchShares(s, merchant, m);
    BatchSettledAmounts(s.payments, merchant, |s.settlements|, m);
    BatchTotals(s, merchant, m);
    BatchNet(s, merchant, m);
  }

  lemma BatchShares(s: State, merchant: MerchantId, m: MerchantId)
    requires AfterBatch(s, merchant).Ok?
    ensures Shares(AfterBatch(s, merchant).value, m) == Shares(s, m)
  {
  }

  lemma BatchSettledAmounts(payments: seq<PaymentRow>, merchant: MerchantId, batch: SettlementId, m: MerchantId)
    ensures var ids := UnsettledIds(payments, merchant);
      Sum(SettledAmounts(MarkSettled(payments, ids, batch), m))
      == Sum(SettledAmounts(payments, m)) + if m == merchant then TotalAmount(payments, ids) else 0
  {
    var ids := UnsettledIds(payments, merchant);
    var after := MarkSettled(payments, ids, batch);
    if m == merchant {
      SumDifference(SettledAmounts(after, m), SettledAmounts(payments, m), PickedAmounts(payments, ids));
      PickedSums(payments, ids);
    } else {
      assert SettledAmounts(after, m) == SettledAmounts(payments, m);
    }
  }

  lemma BatchMembers(payments: seq<PaymentRow>, merchant: MerchantId, batch: SettlementId, b: SettlementId)
    requires forall i :: 0 <= i < |payments| && payments[i].settlement.Some? ==> payments[i].settlement.value < batch
    ensures var ids := UnsettledIds(payments, merchant);
      var after := MarkSettled(payments, ids, batch);
      if b == batch then
        MemberAmounts(after, b) == PickedAmounts(payments, ids) && MemberMarks(after, b) == PickedMarks(payments, ids)
      else
        MemberAmounts(after, b) == MemberAmounts(payments, b) && MemberMarks(after, b) == MemberMarks(payments, b)
  {
  }

  lemma BatchSettlementGood(s: State, merchant: MerchantId, b: SettlementId)
    requires AfterBatch(s, merchant).Ok? && b <= |s.settlements|
    requires forall id: PaymentId :: id < |s.payments| ==> MembershipGood(s, id)
    requires b < |s.settlements| ==> SettlementGood(s, b)
    ensures SettlementGood(AfterBatch(s, merchant).value, b)
  {
    forall i: PaymentId | i < |s.payments| && s.payments[i].settlement.Some?
      ensures s.payments[i].settlement.value < |s.settlements|
    {
      assert MembershipGood(s, i);
    }
    BatchMembers(s.payments, merchant, |s.settlements|, b);
    PickedSums(s.payments, UnsettledIds(s.payments, merchant));
  }

  lemma BatchPaymentsGood(s: State, merchant: MerchantId)
    requires AfterBatch(s, merchant).Ok? && PaymentsGood(s)
    ensures PaymentsGood(AfterBatch(s, merchant).value)
  {
    forall i: PaymentId | i < |s.payments| ensures PaymentGood(AfterBatch(s, merchant).value, i) {
      assert PaymentGood(s, i);
      BatchPaymentGood(s, merchant, i);
    }
  }

  lemma BatchMerchantsGood(s: State, merchant: MerchantId)
    requires AfterBatch(s, merchant).Ok? && WalletsGood(s) && SettlementsGood(s) && LedgerGood(s) && RefersToPayments(s)
    ensures WalletsGood(AfterBatch(s, merchant).value) && LedgerGood(AfterBatch(s, merchant).value)
    ensures forall m: MerchantId :: MerchantSettled(AfterBatch(s, merchant).value, m)
  {
    var s', ids := AfterBatch(s, merchant).value, UnsettledIds(s.payments, merchant);
    PairsBalanced(s.payments, ids);
    SideTotalConcat(s.ledger, SettlementPairs(s.payments, ids), Debit);
    SideTotalConcat(s.ledger, SettlementPairs(s.payments, ids), Credit);
    forall m: MerchantId ensures WalletGood(s', m) && MerchantSettled(s', m) && LedgerNetGood(s', m) {
      assert WalletGood(s, m) && MerchantSettled(s, m) && LedgerNetGood(s, m);
      BatchMerchantGood(s, merchant, m);
    }
  }

  lemma BatchSettlementsGood(s: State, merchant: MerchantId)
    requires AfterBatch(s, merchant).Ok? && SettlementsGood(s)
    requires forall m: MerchantId :: MerchantSettled(AfterBatch(s, merchant).value, m)
    ensures SettlementsGood(AfterBatch(s, merchant).value)
  {
    var s' := AfterBatch(s, merchant).value;
    forall b: SettlementId | b < |s'.settlements| ensures SettlementGood(s', b) {
      assert b < |s.settlements| ==> SettlementGood(s, b);
      BatchSettlementGood(s, merchant, b);
    }
    forall i: PaymentId | i < |s'.payments| ensures MembershipGood(s', i) {
      assert MembershipGood(s, i);
    }
  }

  lemma BatchGood(s: State, merchant: MerchantId)
    requires Good(s) && AfterBatch(s, merchant).Ok?
    ensures Good(AfterBatch(s, merchant).value)
  {
    BatchPaymentsGood(s, merchant);
    BatchMerchantsGood(s, merchant);
    BatchSettlementsGood(s, merchant);
    PairsRefer(s.payments, UnsettledIds(s.payments, merchant));
  }

  // -------------------------------------------------------------------- runs

  lemma NextGood(s: State, r: Request)
    requires Good(s)
    ensures Good(Next(s, r))
  {
    if Handle(s, r).Ok? {
      match r
      case Create(merchant, amount) => CreateGood(s, merchant, amount);
      case Authorize(_, id, bank) => AuthorizeGood(s, id, bank);
      case Capture(_, id, part) => CaptureGood(s, id, part);
      case Refund(_, id, amount) => RefundGood(s, id, amount);
      case Settle(merchant) => BatchGood(s, merchant);
    }
  }

  /** Every state that any sequence of requests can reach is good. */
  lemma {:induction false} RunGood(rs: seq<Request>)
    ensures Good(Run(EMPTY, rs))
  {
    if rs == [] {
      EmptyGood();
    } else {
      RunGood(rs[..|rs| - 1]);
      NextGood(Run(EMPTY, rs[..|rs| - 1]), rs[|rs| - 1]);
    }
  }
}
