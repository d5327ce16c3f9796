/** The cached wallet, the merchant's ledger account and the settlements, in every reachable state. */
module WalletLaws {
  import opened Types
  import opened Sums
  import opened Gateway
  import opened History
  import opened Invariant
  import opened Batch
  import opened MoneyLaws

  // -------------------------------------------------------------- the wallet

  /** The wallet caches what is captured and not refunded; settlements leave it alone but not the ledger. */
  lemma WalletLaw(s: State, merchant: MerchantId)
    requires Reachable(s)
    ensures forall i, j :: 0 <= i < j < |s.wallets| ==> s.wallets[i].merchant != s.wallets[j].merchant
    ensures Balance(s.wallets, merchant) == Sum(Shares(s, merchant)) >= 0
    ensures Balance(s.wallets, merchant)
         == NetWallet(s.ledger, s.payments, merchant) + SettledTotal(s.settlements, merchant)
  {
    ReachableGood(s);
    assert WalletGood(s, merchant) && LedgerNetGood(s, merchant);
    forall i | 0 <= i < |s.payments| ensures Shares(s, merchant)[i] >= 0 {
      StatusCoherence(s, i);
    }
    SumNonNegative(Shares(s, merchant));
  }

  lemma {:induction false} PositiveMember(marks: seq<int>)
    requires Sum(marks) > 0
    ensures exists i :: 0 <= i < |marks| && marks[i] > 0
  {
    var n := |marks| - 1;
    if marks[n] <= 0 {
      PositiveMember(marks[..n]);
      var i :| 0 <= i < n && marks[..n][i] > 0;
      assert marks[i] > 0;
    }
  }

  lemma SettlementPositive(s: State, batch: SettlementId)
    requires Reachable(s) && batch < |s.settlements|
    ensures s.settlements[batch].amount > 0
  {
    ReachableGood(s);
    assert SettlementGood(s, batch);
    var amounts, marks := MemberAmounts(s.payments, batch), MemberMarks(s.payments, batch);
    forall i: PaymentId | i < |s.payments| ensures amounts[i] >= marks[i] >= 0 {
      assert PaymentGood(s, i);
    }
    PositiveMember(marks);
    SumNonNegative(amounts);
    var i :| 0 <= i < |marks| && marks[i] > 0;
    assert amounts[i] != 0;
  }

  lemma {:induction false} SettledTotalZeroIff(settlements: seq<SettlementRow>, merchant: MerchantId)
    requires forall b :: 0 <= b < |settlements| ==> settlements[b].amount > 0
    ensures SettledTotal(settlements, merchant) >= 0
    ensures SettledTotal(settlements, merchant) == 0
       <==> forall b :: 0 <= b < |settlements| ==> settlements[b].merchant != merchant
  {
    if settlements != [] {
      var n := |settlements| - 1;
      SettledTotalZeroIff(settlements[..n], merchant);
      assert forall b :: 0 <= b < n ==> settlements[..n][b] == settlements[b];
    }
  }

  /** The cached balance is the ledger's merchant_wallet balance exactly as long as the merchant was never settled. */
  lemma WalletMatchesLedgerIff(s: State, merchant: MerchantId)
    requires Reachable(s)
    ensures Balance(s.wallets, merchant) == NetWallet(s.ledger, s.payments, merchant)
       <==> forall b :: 0 <= b < |s.settlements| ==> s.settlements[b].merchant != merchant
  {
    WalletLaw(s, merchant);
    forall b: SettlementId | b < |s.settlements| ensures s.settlements[b].amount > 0 {
      SettlementPositive(s, b);
    }
    SettledTotalZeroIff(s.settlements, merchant);
  }

  /** A payment of 100 of which 60 are captured. */
  const PARTIAL_CAPTURE := [Create(0, 100), Authorize(0, 0, Approve), Capture(0, 0, Some(60))]

  lemma PartialCaptureState()
    ensures var s := Run(EMPTY, PARTIAL_CAPTURE);
      && s.payments == [PaymentRow(0, 100, PaymentStatus.Captured, Some(60), None)]
      && s.refunds == []
      && s.wallets == [WalletRow(0, 60)]
      && s.settlements == []
  {
    RunAppend(EMPTY, [], Create(0, 100));
    RunAppend(EMPTY, [Create(0, 100)], Authorize(0, 0, Approve));
    RunAppend(EMPTY, [Create(0, 100), Authorize(0, 0, Approve)], Capture(0, 0, Some(60)));
    assert [] + [Create(0, 100)] == [Create(0, 100)];
    assert [Create(0, 100)] + [Authorize(0, 0, Approve)] == [Create(0, 100), Authorize(0, 0, Approve)];
    assert [Create(0, 100), Authorize(0, 0, Approve)] + [Capture(0, 0, Some(60))] == PARTIAL_CAPTURE;
  }

  lemma SettleOne(s: State)
    requires s.payments == [PaymentRow(0, 100, PaymentStatus.Captured, Some(60), None)] && s.settlements == []
    ensures var s' := Next(s, Settle(0));
      && s'.wallets == s.wallets && s'.refunds == s.refunds
      && s'.payments == [PaymentRow(0, 100, Settled, Some(60), Some(0))]
      && SettledTotal(s'.settlements, 0) == 100
  {
    assert s.payments[..0] == [];
    assert UnsettledIds(s.payments, 0) == [0];
    assert [0][..0] == [];
    assert TotalAmount(s.payments, [0]) == 100;
    var settlements := Next(s, Settle(0)).settlements;
    assert settlements == [SettlementRow(0, 100, 1, Completed)];
    assert settlements[..0] == [];
  }

  /** 60 of 100 captured and settled: the wallet still says 60, the ledger account is overdrawn to -40. */
  lemma SettledWalletExample()
    ensures var s := Run(EMPTY, PARTIAL_CAPTURE + [Settle(0)]);
      Balance(s.wallets, 0) == 60 && NetWallet(s.ledger, s.payments, 0) == -40
  {
    RunAppend(EMPTY, PARTIAL_CAPTURE, Settle(0));
    PartialCaptureState();
    SettleOne(Run(EMPTY, PARTIAL_CAPTURE));
    WalletLaw(Run(EMPTY, PARTIAL_CAPTURE + [Settle(0)]), 0);
  }

  // ---------------------------------------------------------- settlement rows

  /** A settlement is exactly the payments that carry its id: their number, their amounts, their merchant. */
  lemma SettlementIsItsMembers(s: State, batch: SettlementId)
    requires Reachable(s) && batch < |s.settlements|
    ensures var row := s.settlements[batch];
      && row.amount == Sum(MemberAmounts(s.payments, batch)) > 0
      && row.count == Sum(MemberMarks(s.payments, batch)) > 0
      && row.status == Completed
      && forall i :: 0 <= i < |s.payments| && s.payments[i].settlement == Some(batch) ==>
           s.payments[i].merchant == row.merchant && CapturedOf(s.payments[i]) > 0
  {
    ReachableGood(s);
    assert SettlementGood(s, batch);
    SettlementPositive(s, batch);
    forall i: PaymentId | i < |s.payments| && s.payments[i].settlement == Some(batch)
      ensures s.payments[i].merchant == s.settlements[batch].merchant && CapturedOf(s.payments[i]) > 0
    {
      assert MembershipGood(s, i) && PaymentGood(s, i);
    }
  }

  function SettledCaptures(payments: seq<PaymentRow>, merchant: MerchantId): seq<int> {
    seq(|payments|, i requires 0 <= i < |payments| =>
      if payments[i].merchant == merchant && payments[i].settlement.Some? then CapturedOf(payments[i]) else 0)
  }

  function Uncaptured(payments: seq<PaymentRow>, merchant: MerchantId): seq<int> {
    seq(|payments|, i requires 0 <= i < |payments| =>
      if payments[i].merchant == merchant && payments[i].settlement.Some?
      then payments[i].amount - CapturedOf(payments[i]) else 0)
  }

  ghost predicate SettledInFull(p: PaymentRow, merchant: MerchantId) {
    p.merchant == merchant && p.settlement.Some? ==> CapturedOf(p) == p.amount
  }

  /**
   * Settlements move the authorized amounts. They exceed what was captured on the settled payments
   * by exactly the uncaptured remainders, so they agree only if every settled payment was fully captured.
   */
  lemma SettlementGap(s: State, merchant: MerchantId)
    requires Reachable(s)
    ensures var gap := SettledTotal(s.settlements, merchant) - Sum(SettledCaptures(s.payments, merchant));
      && gap == Sum(Uncaptured(s.payments, merchant)) >= 0
      && (gap == 0 <==> forall i :: 0 <= i < |s.payments| ==> SettledInFull(s.payments[i], merchant))
  {
    ReachableGood(s);
    assert MerchantSettled(s, merchant);
    SumDifference(SettledAmounts(s.payments, merchant), SettledCaptures(s.payments, merchant),
                  Uncaptured(s.payments, merchant));
    forall i | 0 <= i < |s.payments| ensures Uncaptured(s.payments, merchant)[i] >= 0 {
      StatusCoherence(s, i);
    }
    SumNonNegative(Uncaptured(s.payments, merchant));
    assert forall i :: 0 <= i < |s.payments| ==>
      (Uncaptured(s.payments, merchant)[i] == 0 <==> SettledInFull(s.payments[i], merchant));
  }

  // ------------------------------------------------------------------- batches

  /** A batch is taken exactly when the merchant has an unsettled captured payment; it then settles them all. */
  lemma BatchTakenIff(s: State, merchant: MerchantId)
    requires Reachable(s)
    ensures Handle(s, Settle(merchant)).Ok? <==>
      exists i :: 0 <= i < |s.payments| && s.payments[i].merchant == merchant
               && s.payments[i].status == PaymentStatus.Captured
  {
    ReachableGood(s);
    var ids := UnsettledIds(s.payments, merchant);
    forall i: PaymentId | i < |s.payments| && s.payments[i].status == PaymentStatus.Captured
      ensures Unsettled(s.payments[i], s.payments[i].merchant)
    {
      assert PaymentGood(s, i);
    }
    if ids != [] {
      assert ids[0] in ids;
    }
  }

  ghost predicate Chosen(s: State, merchant: MerchantId, i: PaymentId) {
    i < |s.payments| && s.payments[i].merchant == merchant && s.payments[i].status == PaymentStatus.Captured
  }

  /** A batch adds one settlement and two entries for each chosen payment; refunds and wallets stay. */
  lemma BatchEffectOnTables(s: State, merchant: MerchantId)
    requires Handle(s, Settle(merchant)).Ok?
    ensures var s', k := Next(s, Settle(merchant)), |s.settlements|;
      && s'.refunds == s.refunds && s'.wallets == s.wallets
      && |s'.payments| == |s.payments|
      && |s'.settlements| == k + 1 && s'.settlements[..k] == s.settlements
      && s'.settlements[k].merchant == merchant
      && |s'.ledger| == |s.ledger| + 2 * s'.settlements[k].count
  {
    PairsLength(s.payments, UnsettledIds(s.payments, merchant));
  }

  lemma BatchOnPayment(s: State, merchant: MerchantId, i: PaymentId)
    requires AfterBatch(s, merchant).Ok? && i < |s.payments|
    ensures var s', p := AfterBatch(s, merchant).value, s.payments[i];
      && s'.payments[i] == (if Unsettled(p, merchant)
                            then p.(status := Settled, settlement := Some(|s.settlements|)) else p)
      && EntriesOf(s'.ledger, i) == EntriesOf(s.ledger, i) +
           (if Unsettled(p, merchant) then SettlementPair(i, p.amount) else [])
  {
    var ids := UnsettledIds(s.payments, merchant);
    EntriesOfConcat(s.ledger, SettlementPairs(s.payments, ids), i);
    PairsEntries(s.payments, ids, i);
  }

  /** A batch moves each chosen payment, with one settlement pair of its own, and no other payment. */
  lemma BatchEffectOnPayment(s: State, merchant: MerchantId, i: PaymentId)
    requires Reachable(s) && Handle(s, Settle(merchant)).Ok? && i < |s.payments|
    ensures var s', p := Next(s, Settle(merchant)), s.payments[i];
      if Chosen(s, merchant, i) then
        && s'.payments[i] == p.(status := Settled, settlement := Some(|s.settlements|))
        && EntriesOf(s'.ledger, i) == EntriesOf(s.ledger, i) +
             [LedgerEntry(i, MerchantWallet, Debit, p.amount), LedgerEntry(i, BankSettlement, Credit, p.amount)]
      else
        && s'.payments[i] == p
        && EntriesOf(s'.ledger, i) == EntriesOf(s.ledger, i)
  {
    ReachablePayment(s, i);
    assert Unsettled(s.payments[i], merchant) <==> Chosen(s, merchant, i);
    BatchOnPayment(s, merchant, i);
  }

  lemma {:induction false} PairsLength(payments: seq<PaymentRow>, ids: seq<PaymentId>)
    requires InTable(payments, ids)
    ensures |SettlementPairs(payments, ids)| == 2 * |ids|
  {
    if ids != [] {
      PairsLength(payments, ids[..|ids| - 1]);
    }
  }

  /** A second batch straight after the first finds nothing and changes nothing. */
  lemma SecondBatchRejected(s: State, merchant: MerchantId)
    ensures var s' := Next(s, Settle(merchant));
      Handle(s', Settle(merchant)) == Err(InvalidValue) && Next(s', Settle(merchant)) == s'
  {
    var s' := Next(s, Settle(merchant));
    var ids' := UnsettledIds(s'.payments, merchant);
    if ids' != [] {
      assert ids'[0] in ids';
    }
  }
}
