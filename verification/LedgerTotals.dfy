/** What the accounts of the whole ledger add up to, over all merchants and payments. */
module LedgerTotals {
  import opened Types
  import opened Sums
  import opened Gateway
  import opened History
  import opened Invariant
  import opened Batch
  import opened MoneyLaws

  // ------------------------------------------------------ totals of the tables

  function Captures(payments: seq<PaymentRow>): seq<int> {
    seq(|payments|, i requires 0 <= i < |payments| => CapturedOf(payments[i]))
  }

  function RefundAmounts(refunds: seq<RefundRow>): seq<int> {
    seq(|refunds|, i requires 0 <= i < |refunds| => refunds[i].amount)
  }

  function SettlementAmounts(settlements: seq<SettlementRow>): seq<int> {
    seq(|settlements|, i requires 0 <= i < |settlements| => settlements[i].amount)
  }

  function Balances(wallets: seq<WalletRow>): seq<int> {
    seq(|wallets|, i requires 0 <= i < |wallets| => wallets[i].balance)
  }

  // ------------------------------------------------ the tables, payment by payment

  function Nets(ledger: seq<LedgerEntry>, n: nat, account: Account): seq<int> {
    seq(n, i requires 0 <= i < n => AccountNet(EntriesOf(ledger, i), account))
  }

  function RefundedOn(refunds: seq<RefundRow>, n: nat): seq<int> {
    seq(n, i requires 0 <= i < n => Sum(RefundsOf(refunds, i)))
  }

  /** An account of the whole ledger is the sum of what it is on each payment. */
  lemma {:induction false} NetsAddUp(ledger: seq<LedgerEntry>, n: nat, account: Account)
    requires Refers(ledger, n)
    ensures AccountNet(ledger, account) == Sum(Nets(ledger, n, account))
  {
    if ledger == [] {
      ZeroSum(Nets(ledger, n, account));
    } else {
      var init, e := ledger[..|ledger| - 1], ledger[|ledger| - 1];
      NetsAddUp(init, n, account);
      assert e in ledger;
      forall i: PaymentId | i < n
        ensures Nets(ledger, n, account)[i]
             == Nets(init, n, account)[i] + if e.payment == i && e.account == account then Signed(e) else 0
      {
        AccountNetConcat(EntriesOf(init, i), [e], account);
        OneEntry(e, account, Debit);
        assert EntriesOf(init, i) + [] == EntriesOf(init, i);
      }
      assert Nets(ledger, n, account) == Nets(init, n, account)[e.payment := Nets(ledger, n, account)[e.payment]];
      SumUpdate(Nets(init, n, account), e.payment, Nets(ledger, n, account)[e.payment]);
    }
  }

  lemma {:induction false} RefundsAddUp(refunds: seq<RefundRow>, n: nat)
    requires forall r :: r in refunds ==> r.payment < n
    ensures Sum(RefundAmounts(refunds)) == Sum(RefundedOn(refunds, n))
  {
    if refunds == [] {
      ZeroSum(RefundedOn(refunds, n));
    } else {
      var init, row := refunds[..|refunds| - 1], refunds[|refunds| - 1];
      RefundsAddUp(init, n);
      assert RefundAmounts(refunds)[..|init|] == RefundAmounts(init);
      assert row in refunds;
      forall i: PaymentId | i < n
        ensures RefundedOn(refunds, n)[i] == RefundedOn(init, n)[i] + if row.payment == i then row.amount else 0
      {
        SumConcat(RefundsOf(init, i), [row.amount]);
        SumOfFew([row.amount]);
        assert RefundsOf(init, i) + [] == RefundsOf(init, i);
      }
      assert RefundedOn(refunds, n) == RefundedOn(init, n)[row.payment := RefundedOn(refunds, n)[row.payment]];
      SumUpdate(RefundedOn(init, n), row.payment, RefundedOn(refunds, n)[row.payment]);
    }
  }

  /** The amounts of the payments in one of the first `k` settlements. */
  function SettledUpTo(payments: seq<PaymentRow>, k: nat): seq<int> {
    seq(|payments|, i requires 0 <= i < |payments| =>
      if payments[i].settlement.Some? && payments[i].settlement.value < k then payments[i].amount else 0)
  }

  lemma {:induction false} SettlementsAddUp(s: State, k: nat)
    requires k <= |s.settlements|
    requires forall b: SettlementId :: b < |s.settlements| ==> SettlementGood(s, b)
    ensures Sum(SettlementAmounts(s.settlements)[..k]) == Sum(SettledUpTo(s.payments, k))
  {
    var amounts := SettlementAmounts(s.settlements);
    if k == 0 {
      ZeroSum(SettledUpTo(s.payments, 0));
    } else {
      SettlementsAddUp(s, k - 1);
      assert amounts[..k][..k - 1] == amounts[..k - 1];
      assert SettlementGood(s, k - 1);
      SumDifference(SettledUpTo(s.payments, k), SettledUpTo(s.payments, k - 1), MemberAmounts(s.payments, k - 1));
    }
  }

  // ------------------------------------------------------------------- the laws

  lemma ReachableRefers(s: State)
    requires Reachable(s)
    ensures RefersToPayments(s)
  {
    ReachableGood(s);
  }

  lemma ReachableSettled(s: State)
    requires Reachable(s)
    ensures Sum(SettlementAmounts(s.settlements)) == Sum(SettledUpTo(s.payments, |s.settlements|))
    ensures forall i: PaymentId :: i < |s.payments| ==>
      SettledUpTo(s.payments, |s.settlements|)[i] == SettledOf(s.payments[i])
  {
    ReachableGood(s);
    SettlementsAddUp(s, |s.settlements|);
    assert SettlementAmounts(s.settlements)[..|s.settlements|] == SettlementAmounts(s.settlements);
    forall i: PaymentId | i < |s.payments|
      ensures SettledUpTo(s.payments, |s.settlements|)[i] == SettledOf(s.payments[i])
    {
      assert MembershipGood(s, i);
    }
  }

  /**
   * Over the whole ledger: the bank got exactly what the settlements say, customers are out exactly
   * what was captured and not refunded, and the merchants' account is the difference.
   */
  lemma AccountTotals(s: State)
    requires Reachable(s)
    ensures var captured, refunded := Sum(Captures(s.payments)), Sum(RefundAmounts(s.refunds));
      var settled := Sum(SettlementAmounts(s.settlements));
      && AccountNet(s.ledger, BankSettlement) == settled
      && AccountNet(s.ledger, CustomerHolding) == refunded - captured
      && AccountNet(s.ledger, MerchantWallet) == captured - refunded - settled
  {
    var n := |s.payments|;
    ReachableRefers(s);
    ReachableSettled(s);
    RefundsAddUp(s.refunds, n);
    NetsAddUp(s.ledger, n, BankSettlement);
    NetsAddUp(s.ledger, n, CustomerHolding);
    NetsAddUp(s.ledger, n, MerchantWallet);
    forall i: PaymentId | i < n
      ensures Nets(s.ledger, n, BankSettlement)[i] == SettledOf(s.payments[i])
      ensures Nets(s.ledger, n, CustomerHolding)[i] == RefundedOn(s.refunds, n)[i] - Captures(s.payments)[i]
      ensures Nets(s.ledger, n, MerchantWallet)[i]
           == -Nets(s.ledger, n, CustomerHolding)[i] - Nets(s.ledger, n, BankSettlement)[i]
    {
      AccountsClosedForm(s, i);
    }
    assert Nets(s.ledger, n, BankSettlement) == SettledUpTo(s.payments, |s.settlements|);
    SumDifference(RefundedOn(s.refunds, n), Captures(s.payments), Nets(s.ledger, n, CustomerHolding));
    var both := seq(n, i requires 0 <= i < n => -Nets(s.ledger, n, CustomerHolding)[i]);
    SumDifference(Captures(s.payments), RefundedOn(s.refunds, n), both);
    SumDifference(both, Nets(s.ledger, n, BankSettlement), Nets(s.ledger, n, MerchantWallet));
  }

  // ------------------------------------------------------------ wallets in total

  lemma AdjustTotal(wallets: seq<WalletRow>, merchant: MerchantId, delta: int)
    ensures Sum(Balances(AdjustWallet(wallets, merchant, delta))) == Sum(Balances(wallets)) + delta
  {
    var i, after := FindWallet(wallets, merchant), AdjustWallet(wallets, merchant, delta);
    if i < |wallets| {
      assert Balances(after) == Balances(wallets)[i := wallets[i].balance + delta];
      SumUpdate(Balances(wallets), i, wallets[i].balance + delta);
    } else {
      assert Balances(after) == Balances(wallets) + [delta];
      SumConcat(Balances(wallets), [delta]);
      SumOfFew([delta]);
    }
  }

  lemma {:induction false} PairsLeaveCustomers(payments: seq<PaymentRow>, ids: seq<PaymentId>)
    requires InTable(payments, ids)
    ensures AccountNet(SettlementPairs(payments, ids), CustomerHolding) == 0
  {
    if ids != [] {
      var init, last := ids[..|ids| - 1], ids[|ids| - 1];
      PairsLeaveCustomers(payments, init);
      AccountNetConcat(SettlementPairs(payments, init), SettlementPair(last, payments[last].amount), CustomerHolding);
      PairEffect(last, SettleMove(payments[last].amount), CustomerHolding);
    }
  }

  lemma MoveKeepsHolding(s: State, merchant: MerchantId, id: PaymentId, move: Move)
    requires !move.SettleMove?
    ensures Sum(Balances(AdjustWallet(s.wallets, merchant, WalletEffect(Some(move)))))
            + AccountNet(s.ledger + Pair(id, move), CustomerHolding)
         == Sum(Balances(s.wallets)) + AccountNet(s.ledger, CustomerHolding)
  {
    AdjustTotal(s.wallets, merchant, WalletEffect(Some(move)));
    AccountNetConcat(s.ledger, Pair(id, move), CustomerHolding);
    PairEffect(id, move, CustomerHolding);
  }

  lemma NextKeepsHolding(s: State, r: Request)
    ensures Sum(Balances(Next(s, r).wallets)) + AccountNet(Next(s, r).ledger, CustomerHolding)
         == Sum(Balances(s.wallets)) + AccountNet(s.ledger, CustomerHolding)
  {
    if Handle(s, r).Ok? {
      match r
      case Create(_, _) =>
      case Authorize(_, _, _) =>
      case Capture(merchant, id, part) =>
        MoveKeepsHolding(s, merchant, id, CaptureMove(part.GetOr(s.payments[id].amount)));
      case Refund(merchant, id, amount) =>
        MoveKeepsHolding(s, merchant, id, RefundMove(amount));
      case Settle(merchant) =>
        var pairs := SettlementPairs(s.payments, UnsettledIds(s.payments, merchant));
        AccountNetConcat(s.ledger, pairs, CustomerHolding);
        PairsLeaveCustomers(s.payments, UnsettledIds(s.payments, merchant));
    }
  }

  lemma {:induction false} RunKeepsHolding(rs: seq<Request>)
    ensures Sum(Balances(Run(EMPTY, rs).wallets)) + AccountNet(Run(EMPTY, rs).ledger, CustomerHolding) == 0
  {
    if rs != [] {
      RunKeepsHolding(rs[..|rs| - 1]);
      NextKeepsHolding(Run(EMPTY, rs[..|rs| - 1]), rs[|rs| - 1]);
    }
  }

  /**
   * All wallets together hold what customers paid in and did not get back. So they hold more than
   * the merchants' account of the ledger by exactly what was settled.
   */
  lemma WalletsHoldCustomersMoney(s: State)
    requires Reachable(s)
    ensures var held := Sum(Balances(s.wallets));
      && held == -AccountNet(s.ledger, CustomerHolding)
      && held == Sum(Captures(s.payments)) - Sum(RefundAmounts(s.refunds))
      && held == AccountNet(s.ledger, MerchantWallet) + AccountNet(s.ledger, BankSettlement)
  {
    var rs: seq<Request> :| s == Run(EMPTY, rs);
    RunKeepsHolding(rs);
    AccountTotals(s);
  }
}
