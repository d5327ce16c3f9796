/** How a payment may change over a run: what is written once, what is final, and what others cannot touch. */
module RunLaws {
  import opened Types
  import opened StateMachine
  import opened Gateway
  import opened History
  import opened Invariant
  import opened Batch
  import opened MoneyLaws
  import opened WalletLaws

  // ---------------------------------------------------------------- one request

  /** The payments a request is about. */
  predicate Touches(s: State, r: Request, i: PaymentId) {
    match r
    case Create(_, _) => false
    case Authorize(_, id, _) => id == i
    case Capture(_, id, _) => id == i
    case Refund(_, id, _) => id == i
    case Settle(merchant) => i < |s.payments| && Unsettled(s.payments[i], merchant)
  }

  ghost predicate SamePayment(s: State, s': State, i: PaymentId) {
    && i < |s.payments| <= |s'.payments|
    && s'.payments[i] == s.payments[i]
    && RefundsOf(s'.refunds, i) == RefundsOf(s.refunds, i)
    && EntriesOf(s'.ledger, i) == EntriesOf(s.ledger, i)
  }

  lemma OtherCaptured(s: State, id: PaymentId, part: Option<int>, i: PaymentId)
    requires id < |s.payments| && i < |s.payments| && i != id && AfterCapture(s, id, part).Ok?
    ensures SamePayment(s, AfterCapture(s, id, part).value, i)
  {
    EntriesOfPosted(s.ledger, CaptureMove(part.GetOr(s.payments[id].amount)), id, i);
  }

  lemma RefundsOfOther(refunds: seq<RefundRow>, row: RefundRow, i: PaymentId)
    requires row.payment != i
    ensures RefundsOf(refunds + [row], i) == RefundsOf(refunds, i)
  {
    RefundsOfAppend(refunds, row, i);
  }

  lemma OtherRefunded(s: State, id: PaymentId, amount: int, i: PaymentId)
    requires id < |s.payments| && i < |s.payments| && i != id && AfterRefund(s, id, amount).Ok?
    ensures SamePayment(s, AfterRefund(s, id, amount).value, i)
  {
    EntriesOfPosted(s.ledger, RefundMove(amount), id, i);
    RefundsOfOther(s.refunds, RefundRow(id, amount), i);
  }

  lemma NotSettled(s: State, merchant: MerchantId, i: PaymentId)
    requires AfterBatch(s, merchant).Ok? && i < |s.payments| && !Unsettled(s.payments[i], merchant)
    ensures SamePayment(s, AfterBatch(s, merchant).value, i)
  {
    BatchOnPayment(s, merchant, i);
    assert EntriesOf(s.ledger, i) + [] == EntriesOf(s.ledger, i);
  }

  lemma Untouched(s: State, r: Request, i: PaymentId)
    requires i < |s.payments| && !Touches(s, r, i)
    ensures SamePayment(s, Next(s, r), i)
  {
    if Handle(s, r).Ok? {
      match r
      case Create(_, _) =>
      case Authorize(_, _, _) =>
      case Capture(_, id, part) => OtherCaptured(s, id, part, i);
      case Refund(_, id, amount) => OtherRefunded(s, id, amount, i);
      case Settle(merchant) => NotSettled(s, merchant, i);
    }
  }

  lemma OthersPaymentKept(s: State, r: Request, i: PaymentId)
    requires i < |s.payments| && s.payments[i].merchant != r.merchant
    ensures SamePayment(s, Next(s, r), i)
  {
    if Touches(s, r, i) {
      assert Handle(s, r) == Err(NotFound) || Handle(s, r) == Err(InvalidBody);
    } else {
      Untouched(s, r, i);
    }
  }

  lemma OthersBalanceKept(s: State, r: Request, other: MerchantId)
    requires WalletsUnique(s.wallets) && other != r.merchant
    ensures Balance(Next(s, r).wallets, other) == Balance(s.wallets, other)
  {
    match r
    case Capture(merchant, id, part) =>
      if Handle(s, r).Ok? {
        AdjustWalletEffect(s.wallets, merchant, part.GetOr(s.payments[id].amount), other);
      }
    case Refund(merchant, _, amount) =>
      AdjustWalletEffect(s.wallets, merchant, -amount, other);
    case _ =>
  }

  /** A request never reaches another merchant's payments, nor its wallet. */
  lemma MerchantsAreIsolated(s: State, r: Request, other: MerchantId)
    requires Reachable(s) && other != r.merchant
    ensures forall i: PaymentId :: i < |s.payments| && s.payments[i].merchant == other ==> SamePayment(s, Next(s, r), i)
    ensures Balance(Next(s, r).wallets, other) == Balance(s.wallets, other)
  {
    forall i: PaymentId | i < |s.payments| && s.payments[i].merchant == other ensures SamePayment(s, Next(s, r), i) {
      OthersPaymentKept(s, r, i);
    }
    ReachableGood(s);
    OthersBalanceKept(s, r, other);
  }

  /** Every taken request on a payment, timeouts aside, moves its status strictly down the ranks. */
  lemma TakenRequestsDescend(s: State, r: Request, i: PaymentId)
    requires i < |s.payments| && Touches(s, r, i) && Handle(s, r).Ok?
    requires !(r.Authorize? && r.bank.Timeout?)
    ensures i < |Next(s, r).payments| && Rank(Next(s, r).payments[i].status) < Rank(s.payments[i].status)
  {
    if r.Settle? {
      BatchOnPayment(s, r.merchant, i);
    } else {
      TransitionDescends(s.payments[i].status, Next(s, r).payments[i].status);
    }
  }

  lemma TransitionDescends(current: PaymentStatus, target: PaymentStatus)
    requires CanTransition(current, target)
    ensures Rank(target) < Rank(current)
  {
  }

  // ----------------------------------------------------------------------- runs

  ghost predicate PaymentEvolves(p: PaymentRow, p': PaymentRow) {
    && p'.merchant == p.merchant && p'.amount == p.amount
    && (p.captured.Some? ==> p'.captured == p.captured)
    && (p.settlement.Some? ==> p'.settlement == p.settlement)
    && (p'.status == p.status || Rank(p'.status) < Rank(p.status))
    && (p.status in {PartiallyRefunded, Refunded, Failed} ==> p'.settlement == p.settlement)
  }

  ghost predicate Evolves(s: State, s': State) {
    && s.ledger <= s'.ledger
    && s.refunds <= s'.refunds
    && s.settlements <= s'.settlements
    && |s.payments| <= |s'.payments|
    && forall i :: 0 <= i < |s.payments| ==> PaymentEvolves(s.payments[i], s'.payments[i])
  }

  lemma CaptureEvolves(s: State, r: Request, i: PaymentId)
    requires i < |s.payments| && PaymentGood(s, i) && r.Capture? && r.id == i && Handle(s, r).Ok?
    ensures PaymentEvolves(s.payments[i], Next(s, r).payments[i])
  {
  }

  lemma StatusOnlyEvolves(s: State, r: Request, i: PaymentId)
    requires i < |s.payments| && (r.Authorize? || r.Refund?) && r.id == i && Handle(s, r).Ok?
    ensures PaymentEvolves(s.payments[i], Next(s, r).payments[i])
  {
  }

  lemma SettledEvolves(s: State, merchant: MerchantId, i: PaymentId)
    requires AfterBatch(s, merchant).Ok? && i < |s.payments| && Unsettled(s.payments[i], merchant)
    ensures i < |AfterBatch(s, merchant).value.payments|
    ensures PaymentEvolves(s.payments[i], AfterBatch(s, merchant).value.payments[i])
  {
    BatchOnPayment(s, merchant, i);
  }

  lemma NextPaymentEvolves(s: State, r: Request, i: PaymentId)
    requires i < |s.payments| && PaymentGood(s, i)
    ensures i < |Next(s, r).payments| && PaymentEvolves(s.payments[i], Next(s, r).payments[i])
  {
    if Handle(s, r).Ok? {
      if !Touches(s, r, i) {
        Untouched(s, r, i);
      } else if r.Settle? {
        SettledEvolves(s, r.merchant, i);
      } else if r.Capture? {
        CaptureEvolves(s, r, i);
      } else {
        StatusOnlyEvolves(s, r, i);
      }
    }
  }

  lemma NextEvolves(s: State, r: Request)
    requires PaymentsGood(s)
    ensures Evolves(s, Next(s, r))
  {
    forall i: PaymentId | i < |s.payments| ensures PaymentEvolves(s.payments[i], Next(s, r).payments[i]) {
      NextPaymentEvolves(s, r, i);
    }
  }

  lemma EvolvesTransitive(s: State, mid: State, s': State)
    requires Evolves(s, mid) && Evolves(mid, s')
    ensures Evolves(s, s')
  {
    forall i | 0 <= i < |s.payments| ensures PaymentEvolves(s.payments[i], s'.payments[i]) {
      assert PaymentEvolves(s.payments[i], mid.payments[i]) && PaymentEvolves(mid.payments[i], s'.payments[i]);
    }
  }

  /**
   * From any reachable state on: ledger, refunds and settlements only grow at the end, merchant,
   * amount, captured amount and settlement of a payment are written at most once, and a status
   * only ever descends.
   */
  lemma {:induction false} HistoryIsAppendOnly(s: State, more: seq<Request>)
    requires Reachable(s)
    ensures Evolves(s, Run(s, more))
  {
    if more != [] {
      var init := more[..|more| - 1];
      HistoryIsAppendOnly(s, init);
      ReachableRun(s, init);
      ReachableGood(Run(s, init));
      NextEvolves(Run(s, init), more[|more| - 1]);
      EvolvesTransitive(s, Run(s, init), Run(s, more));
    }
  }

  /** A payment refunded before any settlement is in no settlement ever after. */
  lemma RefundedNeverSettled(s: State, more: seq<Request>, i: PaymentId)
    requires Reachable(s) && i < |s.payments|
    requires RefundsOf(s.refunds, i) != [] && s.payments[i].settlement.None?
    ensures i < |Run(s, more).payments| && Run(s, more).payments[i].settlement.None?
    ensures forall b: SettlementId :: MemberAmounts(Run(s, more).payments, b)[i] == 0
  {
    HistoryIsAppendOnly(s, more);
    ReachablePayment(s, i);
    assert PaymentEvolves(s.payments[i], Run(s, more).payments[i]);
  }

  /** A failed or fully refunded payment never changes again, in its row, its refunds or its ledger. */
  lemma {:induction false} TerminalIsFinal(s: State, more: seq<Request>, i: PaymentId)
    requires Reachable(s) && i < |s.payments| && s.payments[i].status in {Failed, Refunded}
    ensures SamePayment(s, Run(s, more), i)
    ensures s.payments[i].status == Failed ==>
      EntriesOf(s.ledger, i) == [] && RefundsOf(s.refunds, i) == [] && s.payments[i].settlement.None?
  {
    ReachablePayment(s, i);
    if more != [] {
      var mid, r := Run(s, more[..|more| - 1]), more[|more| - 1];
      TerminalIsFinal(s, more[..|more| - 1], i);
      if !Touches(mid, r, i) {
        Untouched(mid, r, i);
      }
    }
  }

  // ------------------------------------------------------------- status changes

  /** How many requests of the run changed the status of payment `i`. */
  function StatusChanges(rs: seq<Request>, i: PaymentId): nat {
    if rs == [] then 0
    else
      var before, after := Run(EMPTY, rs[..|rs| - 1]), Run(EMPTY, rs);
      StatusChanges(rs[..|rs| - 1], i) +
      (if i < |before.payments| && i < |after.payments| && after.payments[i].status != before.payments[i].status
       then 1 else 0)
  }

  /** Every change uses up at least one of the five ranks, so no run changes a status more than five times. */
  lemma {:induction false} AtMostFiveChanges(rs: seq<Request>, i: PaymentId)
    ensures var s := Run(EMPTY, rs);
      StatusChanges(rs, i) + (if i < |s.payments| then Rank(s.payments[i].status) else 5) <= 5
  {
    if rs != [] {
      var init := rs[..|rs| - 1];
      var before, r := Run(EMPTY, init), rs[|rs| - 1];
      AtMostFiveChanges(init, i);
      RunGood(init);
      NextEvolves(before, r);
      if i < |before.payments| {
        assert PaymentEvolves(before.payments[i], Next(before, r).payments[i]);
      }
    }
  }

  // --------------------------------------------------------------- double entry

  lemma {:induction false} PostingsBalanced(id: PaymentId, moves: seq<Move>)
    ensures SideTotal(Postings(id, moves), Debit) == SideTotal(Postings(id, moves), Credit)
  {
    if moves != [] {
      var init, last := moves[..|moves| - 1], moves[|moves| - 1];
      PostingsBalanced(id, init);
      SideTotalConcat(Postings(id, init), Pair(id, last), Debit);
      SideTotalConcat(Postings(id, init), Pair(id, last), Credit);
      PairEffect(id, last, MerchantWallet);
    }
  }

  /** Debits equal credits, over the whole ledger and on each payment. */
  lemma DoubleEntry(s: State, id: PaymentId)
    requires Reachable(s)
    ensures SideTotal(s.ledger, Debit) == SideTotal(s.ledger, Credit)
    ensures SideTotal(EntriesOf(s.ledger, id), Debit) == SideTotal(EntriesOf(s.ledger, id), Credit)
    ensures id >= |s.payments| ==> EntriesOf(s.ledger, id) == []
  {
    ReachableGood(s);
    if id < |s.payments| {
      assert PaymentGood(s, id);
      PostingsBalanced(id, Moves(s.payments[id], RefundsOf(s.refunds, id)));
    } else {
      EntriesOfAbsent(s.ledger, id);
    }
  }

  // ------------------------------------------------------ every shape does occur

  /** The only payment, with 100 authorized and 60 captured, after the given refunds. */
  ghost predicate After(s: State, settled: bool, refunds: seq<int>) {
    && Reachable(s)
    && |s.payments| == 1 && s.payments[0].merchant == 0
    && s.payments[0].captured == Some(60) && s.payments[0].settlement.Some? == settled
    && RefundsOf(s.refunds, 0) == refunds
    && (refunds == [] ==> s.payments[0].status == if settled then Settled else PaymentStatus.Captured)
    && (refunds == [20] ==> s.payments[0].status == PartiallyRefunded)
  }

  lemma Unrefunded(settled: bool) returns (s: State)
    ensures After(s, settled, [])
  {
    PartialCaptureState();
    s := Run(EMPTY, PARTIAL_CAPTURE);
    if settled {
      RunAppend(EMPTY, PARTIAL_CAPTURE, Settle(0));
      SettleOne(s);
      s := Run(EMPTY, PARTIAL_CAPTURE + [Settle(0)]);
    }
  }

  lemma RefundKeeps(s: State, amount: int)
    requires Handle(s, Refund(0, 0, amount)).Ok?
    ensures var s', p := Next(s, Refund(0, 0, amount)), s.payments[0];
      && |s'.payments| == |s.payments|
      && s'.payments[0] == p.(status := RefundStatus(p, RefundsOf(s.refunds, 0), amount))
  {
  }

  lemma OneMoreRefund(s: State, settled: bool, refunds: seq<int>, amount: int) returns (s': State)
    requires After(s, settled, refunds)
    requires (refunds == [] && amount == 20) || (refunds == [20] && amount == 40)
    ensures After(s', settled, refunds + [amount])
  {
    s' := Next(s, Refund(0, 0, amount));
    SumOfFew(refunds);
    RefundTakenIff(s, 0, 0, amount);
    RefundMovesMoney(s, 0, 0, amount);
    RefundKeeps(s, amount);
    ReachableNext(s, Refund(0, 0, amount));
  }

  lemma MovesOfShape(kinds: seq<Kind>) returns (s: State)
    requires LegalShape(kinds)
    ensures Reachable(s) && |s.payments| == 1
    ensures Shape(Moves(s.payments[0], RefundsOf(s.refunds, 0))) == kinds
  {
    if kinds == [] {
      s := Run(EMPTY, [Create(0, 100)]);
      RunAppend(EMPTY, [], Create(0, 100));
      assert [] + [Create(0, 100)] == [Create(0, 100)];
    } else {
      s := Unrefunded(S in kinds);
      if R in kinds {
        s := OneMoreRefund(s, S in kinds, [], 20);
        assert [] + [20] == [20];
        if kinds in {[C, R, R], [C, S, R, R]} {
          s := OneMoreRefund(s, S in kinds, [20], 40);
        }
      }
    }
  }

  /** Each of the seven shapes is the shape of a payment's ledger in some run. */
  lemma EveryShapeOccurs(kinds: seq<Kind>) returns (s: State, moves: seq<Move>)
    requires LegalShape(kinds)
    ensures Reachable(s) && |s.payments| == 1
    ensures EntriesOf(s.ledger, 0) == Postings(0, moves) && Shape(moves) == kinds
    ensures moves == Moves(s.payments[0], RefundsOf(s.refunds, 0))
  {
    s := MovesOfShape(kinds);
    moves := Moves(s.payments[0], RefundsOf(s.refunds, 0));
    LedgerWord(s, 0);
  }
}
