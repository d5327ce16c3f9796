/** The laws of the money tables, for every state that requests can reach and every continuation of it. */
module MoneyLaws {
  import opened Types
  import opened Sums
  import opened Gateway
  import opened History
  import opened Invariant
  import opened Batch

  /** Some sequence of requests, of any merchants and with any answers of the bank, leads to `s`. */
  ghost predicate Reachable(s: State) {
    exists rs: seq<Request> :: s == Run(EMPTY, rs)
  }

  lemma ReachableGood(s: State)
    requires Reachable(s)
    ensures Good(s)
  {
    var rs: seq<Request> :| s == Run(EMPTY, rs);
    RunGood(rs);
  }

  lemma ReachablePayment(s: State, id: PaymentId)
    requires Reachable(s) && id < |s.payments|
    ensures PaymentGood(s, id)
  {
    ReachableGood(s);
  }

  lemma ReachableCoherent(s: State, id: PaymentId)
    requires Reachable(s) && id < |s.payments|
    ensures Coherent(s.payments[id], RefundsOf(s.refunds, id))
  {
    ReachablePayment(s, id);
  }

  // ---------------------------------------------------- the ledger of a payment

  datatype Kind = C | S | R

  function KindOf(move: Move): Kind {
    match move
    case CaptureMove(_) => C
    case SettleMove(_) => S
    case RefundMove(_) => R
  }

  function Shape(moves: seq<Move>): seq<Kind> {
    seq(|moves|, i requires 0 <= i < |moves| => KindOf(moves[i]))
  }

  ghost predicate LegalShape(kinds: seq<Kind>) {
    kinds in {[], [C], [C, S], [C, R], [C, R, R], [C, S, R], [C, S, R, R]}
  }

  /** What an auditor learns from ledger entries alone. */
  datatype Audit = Audit(captured: int, refunded: int, settled: int)

  function Replay(es: seq<LedgerEntry>): Audit {
    if es == [] then Audit(0, 0, 0)
    else
      var before, e := Replay(es[..|es| - 1]), es[|es| - 1];
      match (e.account, e.kind)
      case (CustomerHolding, Debit) => before.(captured := before.captured + e.amount)
      case (CustomerHolding, Credit) => before.(refunded := before.refunded + e.amount)
      case (BankSettlement, Credit) => before.(settled := before.settled + e.amount)
      case _ => before
  }

  /** What the payment's settlement moved: its full amount, whatever was captured. */
  function SettledOf(p: PaymentRow): int {
    if p.settlement.Some? then p.amount else 0
  }

  function AuditedStatus(a: Audit): PaymentStatus {
    if a.refunded == a.captured then Refunded
    else if a.refunded > 0 then PartiallyRefunded
    else if a.settled > 0 then Settled
    else PaymentStatus.Captured
  }

  lemma ReplayPair(es: seq<LedgerEntry>, id: PaymentId, move: Move)
    ensures Replay(es + Pair(id, move)) == match move
      case CaptureMove(a) => Replay(es).(captured := Replay(es).captured + a)
      case RefundMove(a) => Replay(es).(refunded := Replay(es).refunded + a)
      case SettleMove(a) => Replay(es).(settled := Replay(es).settled + a)
  {
    var pair := Pair(id, move);
    var one := es + [pair[0]];
    assert es + pair == one + [pair[1]];
    assert (one + [pair[1]])[..|one|] == one;
    assert one[..|es|] == es;
  }

  function MoveTotals(moves: seq<Move>): Audit {
    if moves == [] then Audit(0, 0, 0)
    else
      var before := MoveTotals(moves[..|moves| - 1]);
      match moves[|moves| - 1]
      case CaptureMove(a) => before.(captured := before.captured + a)
      case RefundMove(a) => before.(refunded := before.refunded + a)
      case SettleMove(a) => before.(settled := before.settled + a)
  }

  /** Reading the raw entries gives back the moves that were posted. */
  lemma {:induction false} ReplayPostings(id: PaymentId, moves: seq<Move>)
    ensures Replay(Postings(id, moves)) == MoveTotals(moves)
  {
    if moves != [] {
      ReplayPostings(id, moves[..|moves| - 1]);
      ReplayPair(Postings(id, moves[..|moves| - 1]), id, moves[|moves| - 1]);
    }
  }

  lemma MoveTotalsAppend(moves: seq<Move>, move: Move)
    ensures MoveTotals(moves + [move]) == match move
      case CaptureMove(a) => MoveTotals(moves).(captured := MoveTotals(moves).captured + a)
      case RefundMove(a) => MoveTotals(moves).(refunded := MoveTotals(moves).refunded + a)
      case SettleMove(a) => MoveTotals(moves).(settled := MoveTotals(moves).settled + a)
  {
    assert (moves + [move])[..|moves|] == moves;
  }

  lemma {:induction false} MoveTotalsRefunds(front: seq<Move>, refunds: seq<int>)
    ensures MoveTotals(front + RefundMoves(refunds))
         == MoveTotals(front).(refunded := MoveTotals(front).refunded + Sum(refunds))
  {
    if refunds == [] {
      assert front + RefundMoves(refunds) == front;
    } else {
      var n := |refunds| - 1;
      MoveTotalsRefunds(front, refunds[..n]);
      assert front + RefundMoves(refunds) == (front + RefundMoves(refunds[..n])) + [RefundMove(refunds[n])];
      MoveTotalsAppend(front + RefundMoves(refunds[..n]), RefundMove(refunds[n]));
    }
  }

  lemma MovesTotals(p: PaymentRow, refunds: seq<int>)
    ensures MoveTotals(Moves(p, refunds)) == Audit(CapturedOf(p), Sum(refunds), SettledOf(p))
  {
    var capture := if p.captured.Some? then [CaptureMove(p.captured.value)] else [];
    var settle := if p.settlement.Some? then [SettleMove(p.amount)] else [];
    if p.captured.Some? {
      MoveTotalsAppend([], CaptureMove(p.captured.value));
      assert [] + capture == capture;
    }
    if p.settlement.Some? {
      MoveTotalsAppend(capture, SettleMove(p.amount));
    } else {
      assert capture + settle == capture;
    }
    MoveTotalsRefunds(capture + settle, refunds);
  }

  /**
   * The entries of a payment are capture, settlement and refund pairs in one of seven orders, so
   * every refund of a settled payment follows its settlement, and they determine what was
   * captured, refunded and settled, and from the capture on also the status.
   */
  lemma LedgerWord(s: State, id: PaymentId)
    requires Reachable(s) && id < |s.payments|
    ensures var p, es := s.payments[id], EntriesOf(s.ledger, id);
      var moves := Moves(p, RefundsOf(s.refunds, id));
      && es == Postings(id, moves)
      && LegalShape(Shape(moves))
      && |es| <= 8
      && Replay(es) == Audit(CapturedOf(p), Sum(RefundsOf(s.refunds, id)), SettledOf(p))
      && (es == [] <==> p.status in {Created, Authorized, Failed})
      && (es != [] ==> p.status == AuditedStatus(Replay(es)))
  {
    ReachablePayment(s, id);
    var p, refunds := s.payments[id], RefundsOf(s.refunds, id);
    var moves := Moves(p, refunds);
    PostingsLength(id, moves);
    ReplayPostings(id, moves);
    MovesTotals(p, refunds);
    SumOfFew(refunds);
    ShapeOfMoves(p, refunds);
  }

  lemma ShapeOfMoves(p: PaymentRow, refunds: seq<int>)
    requires Coherent(p, refunds)
    ensures LegalShape(Shape(Moves(p, refunds))) && |Moves(p, refunds)| <= 4
  {
    var shape := Shape(Moves(p, refunds));
    if p.captured.None? {
      assert shape == [];
    } else if p.settlement.None? {
      assert shape == if |refunds| == 0 then [C] else if |refunds| == 1 then [C, R] else [C, R, R];
    } else {
      assert shape == if |refunds| == 0 then [C, S] else if |refunds| == 1 then [C, S, R] else [C, S, R, R];
    }
  }

  lemma {:induction false} PostingsNet(id: PaymentId, moves: seq<Move>, account: Account)
    ensures var totals := MoveTotals(moves);
      AccountNet(Postings(id, moves), account) == match account
        case CustomerHolding => totals.refunded - totals.captured
        case MerchantWallet => totals.captured - totals.refunded - totals.settled
        case BankSettlement => totals.settled
  {
    if moves != [] {
      var init, last := moves[..|moves| - 1], moves[|moves| - 1];
      PostingsNet(id, init, account);
      AccountNetConcat(Postings(id, init), Pair(id, last), account);
      PairEffect(id, last, account);
    }
  }

  /** The balance of each account on one payment, counting credits as positive. */
  lemma AccountsClosedForm(s: State, id: PaymentId)
    requires Reachable(s) && id < |s.payments|
    ensures var p, es := s.payments[id], EntriesOf(s.ledger, id);
      var captured, refunded := CapturedOf(p), Sum(RefundsOf(s.refunds, id));
      && AccountNet(es, CustomerHolding) == refunded - captured
      && AccountNet(es, MerchantWallet) == captured - refunded - SettledOf(p)
      && AccountNet(es, BankSettlement) == SettledOf(p)
  {
    ReachablePayment(s, id);
    var p, refunds := s.payments[id], RefundsOf(s.refunds, id);
    MovesTotals(p, refunds);
    PostingsNet(id, Moves(p, refunds), CustomerHolding);
    PostingsNet(id, Moves(p, refunds), MerchantWallet);
    PostingsNet(id, Moves(p, refunds), BankSettlement);
  }

  // ----------------------------------------------------- captured and refunded

  /** The status says exactly how much of the captured money has been given back. */
  lemma StatusCoherence(s: State, id: PaymentId)
    requires Reachable(s) && id < |s.payments|
    ensures var p, refunded := s.payments[id], Sum(RefundsOf(s.refunds, id));
      var captured := CapturedOf(p);
      && 0 <= refunded <= captured <= p.amount
      && (p.captured.Some? <==> captured > 0)
      && (p.status == Refunded <==> refunded == captured > 0)
      && (p.status == PartiallyRefunded <==> 0 < refunded < captured)
      && (p.status in {PaymentStatus.Captured, Settled} <==> captured > 0 && refunded == 0)
      && (p.status == Settled <==> p.settlement.Some? && refunded == 0)
  {
    ReachableCoherent(s, id);
    SumOfFew(RefundsOf(s.refunds, id));
  }

  /** A payment is refunded at most twice, and a second refund is the whole remainder. */
  lemma AtMostTwoRefunds(s: State, id: PaymentId)
    requires Reachable(s) && id < |s.payments|
    ensures var p, refunds := s.payments[id], RefundsOf(s.refunds, id);
      && |refunds| <= 2
      && (forall i :: 0 <= i < |refunds| ==> refunds[i] > 0)
      && (|refunds| == 2 ==> refunds[1] == CapturedOf(p) - refunds[0] && p.status == Refunded)
  {
    ReachableCoherent(s, id);
    FewRefunds(s.payments[id], RefundsOf(s.refunds, id));
  }

  lemma FewRefunds(p: PaymentRow, refunds: seq<int>)
    requires Coherent(p, refunds)
    ensures |refunds| <= 2
    ensures forall i :: 0 <= i < |refunds| ==> refunds[i] > 0
    ensures |refunds| == 2 ==> refunds[1] == CapturedOf(p) - refunds[0] && p.status == Refunded
  {
  }

  // --------------------------------------------------- which requests are taken

  /** An approval is taken only once; a decline also undoes an earlier approval; a timeout changes nothing. */
  lemma AuthorizeTakenIff(s: State, merchant: MerchantId, id: PaymentId, bank: BankReply)
    ensures Handle(s, Authorize(merchant, id, bank)).Ok? <==>
      && Owns(s, merchant, id)
      && (bank.Timeout? || s.payments[id].status == Created || (bank.Decline? && s.payments[id].status == Authorized))
    ensures bank.Timeout? ==> Next(s, Authorize(merchant, id, bank)) == s
    ensures Handle(s, Authorize(merchant, id, bank)).Ok? && !bank.Timeout? ==>
      Next(s, Authorize(merchant, id, bank)).payments[id].status == if bank.Approve? then Authorized else Failed
  {
  }

  lemma CaptureTakenIff(s: State, merchant: MerchantId, id: PaymentId, part: Option<int>)
    requires Reachable(s)
    ensures Handle(s, Capture(merchant, id, part)).Ok? <==>
      && Owns(s, merchant, id)
      && s.payments[id].status == Authorized
      && (part.Some? ==> 0 < part.value <= s.payments[id].amount)
  {
    if Owns(s, merchant, id) {
      ReachableCoherent(s, id);
    }
  }

  /**
   * After a partial refund only the exact remainder is accepted. The limit of an accepted refund
   * is what was captured: the fallback to the authorized amount never decides.
   */
  lemma RefundTakenIff(s: State, merchant: MerchantId, id: PaymentId, amount: int)
    requires Reachable(s)
    ensures Handle(s, Refund(merchant, id, amount)).Ok? <==>
      && Owns(s, merchant, id)
      && amount > 0
      && var p := s.payments[id];
         || (p.status in {PaymentStatus.Captured, Settled} && amount <= CapturedOf(p))
         || (p.status == PartiallyRefunded && amount == CapturedOf(p) - Sum(RefundsOf(s.refunds, id)))
    ensures Handle(s, Refund(merchant, id, amount)).Ok? ==> Refundable(s.payments[id]) == CapturedOf(s.payments[id])
  {
    if Owns(s, merchant, id) {
      ReachableCoherent(s, id);
      SumOfFew(RefundsOf(s.refunds, id));
    }
  }

  // --------------------------------------------------------- the money they move

  /** A taken capture is the payment's first movement: one pair, and the wallet grows by that amount. */
  lemma CaptureMovesMoney(s: State, merchant: MerchantId, id: PaymentId, part: Option<int>)
    requires Reachable(s) && Handle(s, Capture(merchant, id, part)).Ok?
    ensures var s', moved := Next(s, Capture(merchant, id, part)), part.GetOr(s.payments[id].amount);
      && CapturedOf(s'.payments[id]) == moved > 0
      && EntriesOf(s'.ledger, id) ==
           [LedgerEntry(id, CustomerHolding, Debit, moved), LedgerEntry(id, MerchantWallet, Credit, moved)]
      && Balance(s'.wallets, merchant) == Balance(s.wallets, merchant) + moved
  {
    var moved := part.GetOr(s.payments[id].amount);
    AuthorizedHasNoEntries(s, id);
    EntriesOfPosted(s.ledger, CaptureMove(moved), id, id);
    assert [] + CapturePair(id, moved) == CapturePair(id, moved);
    ReachableWallets(s);
    AdjustWalletEffect(s.wallets, merchant, moved, merchant);
  }

  lemma AuthorizedHasNoEntries(s: State, id: PaymentId)
    requires Reachable(s) && id < |s.payments| && s.payments[id].status == Authorized
    ensures EntriesOf(s.ledger, id) == [] && s.payments[id].amount > 0
  {
    ReachablePayment(s, id);
  }

  lemma ReachableWallets(s: State)
    requires Reachable(s)
    ensures WalletsUnique(s.wallets)
  {
    ReachableGood(s);
  }

  /** A taken refund adds one reversing pair, and the wallet shrinks by that amount. */
  lemma RefundMovesMoney(s: State, merchant: MerchantId, id: PaymentId, amount: int)
    requires Reachable(s) && Handle(s, Refund(merchant, id, amount)).Ok?
    ensures var s' := Next(s, Refund(merchant, id, amount));
      && RefundsOf(s'.refunds, id) == RefundsOf(s.refunds, id) + [amount]
      && EntriesOf(s'.ledger, id) == EntriesOf(s.ledger, id) +
           [LedgerEntry(id, MerchantWallet, Debit, amount), LedgerEntry(id, CustomerHolding, Credit, amount)]
      && Balance(s'.wallets, merchant) == Balance(s.wallets, merchant) - amount
      && s'.payments[id].settlement == s.payments[id].settlement
  {
    RefundsOfAppend(s.refunds, RefundRow(id, amount), id);
    EntriesOfPosted(s.ledger, RefundMove(amount), id, id);
    ReachableWallets(s);
    AdjustWalletEffect(s.wallets, merchant, -amount, merchant);
  }

  lemma ReachableRun(s: State, more: seq<Request>)
    requires Reachable(s)
    ensures Reachable(Run(s, more))
  {
    var rs: seq<Request> :| s == Run(EMPTY, rs);
    RunConcat(EMPTY, rs, more);
  }

  lemma ReachableNext(s: State, r: Request)
    requires Reachable(s)
    ensures Reachable(Next(s, r))
  {
    ReachableRun(s, [r]);
    assert [r][..0] == [];
    assert Run(s, [r]) == Next(s, r);
  }

  /** A created payment is its merchant's, and once approved it can be captured up to the amount it was created for. */
  lemma CreatedPaymentCanBeCaptured(s: State, merchant: MerchantId, amount: int, other: MerchantId, part: int)
    requires Reachable(s) && amount > 0
    ensures var id := |s.payments|;
      var approved := Next(Next(s, Create(merchant, amount)), Authorize(merchant, id, Approve));
      Handle(approved, Capture(other, id, Some(part))).Ok? <==> other == merchant && 0 < part <= amount
  {
    var id := |s.payments|;
    var created := Next(s, Create(merchant, amount));
    ReachableNext(s, Create(merchant, amount));
    ReachableNext(created, Authorize(merchant, id, Approve));
    CaptureTakenIff(Next(created, Authorize(merchant, id, Approve)), other, id, Some(part));
  }
}
