/**
 * How every request is answered, read off the stored rows, in every reachable state: which error a
 * refused one gets, what a new payment is, and that only the bank gets a payment past it.
 */
module Answers {
  import opened Types
  import opened StateMachine
  import opened Sums
  import opened Gateway
  import opened Invariant
  import opened MoneyLaws
  import opened WalletLaws
  import opened RunLaws

  // ----------------------------------------------------------------- refusals

  lemma CreateAnswer(s: State, merchant: MerchantId, amount: int)
    ensures Handle(s, Create(merchant, amount)) == Err(InvalidBody) <==> amount <= 0
    ensures Handle(s, Create(merchant, amount)).Ok? <==> amount > 0
  {
  }

  /** The bank's timeout is no refusal; everything but a first approval and a decline in time is a conflict. */
  lemma AuthorizeAnswer(s: State, merchant: MerchantId, id: PaymentId, bank: BankReply)
    ensures var answer := Handle(s, Authorize(merchant, id, bank));
      && (answer == Err(NotFound) <==> !Owns(s, merchant, id))
      && (answer == Err(InvalidTransition) <==>
            && Owns(s, merchant, id) && !bank.Timeout?
            && s.payments[id].status != Created && !(bank.Decline? && s.payments[id].status == Authorized))
      && answer != Err(InvalidBody) && answer != Err(InvalidValue)
  {
  }

  /** The body is checked first, then the owner, then the amount, then the status. */
  lemma CaptureAnswer(s: State, merchant: MerchantId, id: PaymentId, part: Option<int>)
    requires Reachable(s)
    ensures var answer, valid := Handle(s, Capture(merchant, id, part)), part.Some? ==> part.value > 0;
      && (answer == Err(InvalidBody) <==> !valid)
      && (answer == Err(NotFound) <==> valid && !Owns(s, merchant, id))
      && (valid && Owns(s, merchant, id) ==>
            var over := part.Some? && part.value > s.payments[id].amount;
            && (answer == Err(InvalidValue) <==> over)
            && (answer == Err(InvalidTransition) <==> !over && s.payments[id].status != Authorized))
  {
    if Owns(s, merchant, id) {
      ReachableCoherent(s, id);
    }
  }

  /** What a refund is measured against: the authorized amount until something is captured. */
  function RefundLimit(s: State, id: PaymentId): int
    requires id < |s.payments|
  {
    var p := s.payments[id];
    if p.status in {Created, Authorized, Failed} then p.amount else CapturedOf(p) - Sum(RefundsOf(s.refunds, id))
  }

  /**
   * The amount is compared before the status is looked at: an uncaptured payment refuses a refund as
   * a bad value only above the authorized amount, and a partly refunded one as a conflict below the remainder.
   */
  lemma RefundAnswer(s: State, merchant: MerchantId, id: PaymentId, amount: int)
    requires Reachable(s)
    ensures var answer := Handle(s, Refund(merchant, id, amount));
      && (answer == Err(InvalidBody) <==> amount <= 0)
      && (answer == Err(NotFound) <==> amount > 0 && !Owns(s, merchant, id))
      && (amount > 0 && Owns(s, merchant, id) ==>
            var status, limit := s.payments[id].status, RefundLimit(s, id);
            && (answer == Err(InvalidValue) <==> amount > limit)
            && (answer == Err(InvalidTransition) <==>
                  && amount <= limit
                  && (status in {Created, Authorized, Failed} || (status == PartiallyRefunded && amount < limit))))
  {
    if Owns(s, merchant, id) {
      ReachableCoherent(s, id);
      SumOfFew(RefundsOf(s.refunds, id));
    }
  }

  lemma SettleAnswer(s: State, merchant: MerchantId)
    requires Reachable(s)
    ensures Handle(s, Settle(merchant)) == Err(InvalidValue) <==>
      forall i :: 0 <= i < |s.payments| && s.payments[i].merchant == merchant ==>
        s.payments[i].status != PaymentStatus.Captured
    ensures Handle(s, Settle(merchant)).Ok? || Handle(s, Settle(merchant)) == Err(InvalidValue)
  {
    BatchTakenIff(s, merchant);
  }

  // ------------------------------------------------------------- a new payment

  /** A new payment waits for the bank: it takes either answer, and nothing can be captured or refunded before. */
  lemma NewPaymentAwaitsBank(s: State, merchant: MerchantId, amount: int)
    requires Reachable(s) && amount > 0
    ensures var s', id := Next(s, Create(merchant, amount)), |s.payments|;
      && |s'.payments| == id + 1 && s'.payments[..id] == s.payments
      && s'.payments[id] == PaymentRow(merchant, amount, Created, None, None)
      && s'.refunds == s.refunds && s'.ledger == s.ledger
      && s'.wallets == s.wallets && s'.settlements == s.settlements
      && (forall m: MerchantId, part: Option<int> :: Handle(s', Capture(m, id, part)).Err?)
      && (forall m: MerchantId, x: int :: Handle(s', Refund(m, id, x)).Err?)
      && Next(s', Authorize(merchant, id, Approve)).payments[id].status == Authorized
      && Next(s', Authorize(merchant, id, Decline)).payments[id].status == Failed
      && Next(s', Authorize(merchant, id, Timeout)) == s'
  {
    var s', id := Next(s, Create(merchant, amount)), |s.payments|;
    ReachableNext(s, Create(merchant, amount));
    forall m: MerchantId, part: Option<int> ensures Handle(s', Capture(m, id, part)).Err? {
      CaptureTakenIff(s', m, id, part);
    }
    forall m: MerchantId, x: int ensures Handle(s', Refund(m, id, x)).Err? {
      RefundTakenIff(s', m, id, x);
    }
  }

  // ----------------------------------------------------------- the bank decides

  ghost predicate Decides(s: State, r: Request, id: PaymentId, bank: BankReply) {
    r.Authorize? && r.id == id && r.bank == bank && Handle(s, r).Ok?
  }

  /** Some request of the run was accepted with this answer of the bank on the payment. */
  ghost predicate Decided(rs: seq<Request>, id: PaymentId, bank: BankReply) {
    rs != [] &&
    (Decided(rs[..|rs| - 1], id, bank) || Decides(Run(EMPTY, rs[..|rs| - 1]), rs[|rs| - 1], id, bank))
  }

  ghost predicate PastBank(status: PaymentStatus) {
    status !in {Created, Failed}
  }

  /** What one request makes of a status, as far as the bank is concerned. */
  lemma NextPastBank(s: State, r: Request, id: PaymentId)
    requires id < |s.payments|
    ensures id < |Next(s, r).payments|
    ensures var before, after := s.payments[id].status, Next(s, r).payments[id].status;
      && (Decides(s, r, id, Approve) ==> before == Created && after == Authorized)
      && (Decides(s, r, id, Decline) ==> before in {Created, Authorized} && after == Failed)
      && (!Decides(s, r, id, Approve) && !Decides(s, r, id, Decline) ==>
            after == before || (PastBank(before) && PastBank(after)))
  {
    if !Touches(s, r, id) {
      Untouched(s, r, id);
    } else if r.Settle? && Handle(s, r).Ok? {
      BatchOnPayment(s, r.merchant, id);
    }
  }

  lemma {:induction false} StatusFollowsBank(rs: seq<Request>, id: PaymentId)
    ensures var s := Run(EMPTY, rs);
      if id < |s.payments| then
        && (s.payments[id].status == Failed <==> Decided(rs, id, Decline))
        && (s.payments[id].status == Created <==> !Decided(rs, id, Approve) && !Decided(rs, id, Decline))
      else
        !Decided(rs, id, Approve) && !Decided(rs, id, Decline)
  {
    if rs != [] {
      var init, r := rs[..|rs| - 1], rs[|rs| - 1];
      var before := Run(EMPTY, init);
      StatusFollowsBank(init, id);
      if id < |before.payments| {
        NextPastBank(before, r, id);
      } else if id < |Next(before, r).payments| {
        NewRowIsCreated(before, r, id);
      }
    }
  }

  lemma NewRowIsCreated(s: State, r: Request, id: PaymentId)
    requires |s.payments| <= id < |Next(s, r).payments|
    ensures Next(s, r).payments[id].status == Created
  {
  }

  /**
   * In every run: a payment has failed exactly when a decline was accepted for it, is still in its
   * first status exactly when neither answer was, and nothing was captured unless it was approved.
   */
  lemma OnlyTheBankApproves(rs: seq<Request>, id: PaymentId)
    requires id < |Run(EMPTY, rs).payments|
    ensures var p := Run(EMPTY, rs).payments[id];
      && (p.status == Failed <==> Decided(rs, id, Decline))
      && (p.status == Created <==> !Decided(rs, id, Approve) && !Decided(rs, id, Decline))
      && (p.captured.Some? ==> Decided(rs, id, Approve) && !Decided(rs, id, Decline))
  {
    StatusFollowsBank(rs, id);
    ReachableCoherent(Run(EMPTY, rs), id);
  }

  // ------------------------------------------------------------ who has a wallet

  ghost predicate HasWallet(s: State, merchant: MerchantId) {
    exists i :: 0 <= i < |s.wallets| && s.wallets[i].merchant == merchant
  }

  ghost predicate HasCapture(s: State, merchant: MerchantId) {
    exists i :: 0 <= i < |s.payments| && s.payments[i].merchant == merchant && s.payments[i].captured.Some?
  }

  lemma AdjustedWallets(wallets: seq<WalletRow>, merchant: MerchantId, delta: int, m: MerchantId)
    ensures (exists w :: w in AdjustWallet(wallets, merchant, delta) && w.merchant == m) <==>
            m == merchant || exists w :: w in wallets && w.merchant == m
  {
    var i, after := FindWallet(wallets, merchant), AdjustWallet(wallets, merchant, delta);
    assert i < |after| && after[i].merchant == merchant;
    if w :| w in wallets && w.merchant == m && m != merchant {
      var j :| 0 <= j < |wallets| && wallets[j] == w;
      assert after[j] == w;
    }
  }

  lemma SameWalletOwners(s: State, merchant: MerchantId)
    ensures HasWallet(s, merchant) <==> exists w :: w in s.wallets && w.merchant == merchant
  {
    if HasWallet(s, merchant) {
      var i :| 0 <= i < |s.wallets| && s.wallets[i].merchant == merchant;
      assert s.wallets[i] in s.wallets;
    }
  }

  lemma SameCaptures(s: State, s': State, m: MerchantId)
    requires |s'.payments| >= |s.payments|
    requires forall i :: 0 <= i < |s.payments| ==>
      s'.payments[i].merchant == s.payments[i].merchant && s'.payments[i].captured == s.payments[i].captured
    requires forall i :: |s.payments| <= i < |s'.payments| ==> s'.payments[i].captured.None?
    ensures HasCapture(s', m) <==> HasCapture(s, m)
  {
    if i :| 0 <= i < |s.payments| && s.payments[i].merchant == m && s.payments[i].captured.Some? {
      assert s'.payments[i].merchant == m && s'.payments[i].captured.Some?;
    }
  }

  lemma CaptureGivesWallet(s: State, r: Request, m: MerchantId)
    requires r.Capture? && Handle(s, r).Ok? && (HasWallet(s, m) <==> HasCapture(s, m))
    ensures HasWallet(Next(s, r), m) <==> HasCapture(Next(s, r), m)
  {
    var s' := Next(s, r);
    AdjustedWallets(s.wallets, r.merchant, r.part.GetOr(s.payments[r.id].amount), m);
    SameWalletOwners(s, m);
    SameWalletOwners(s', m);
    assert s'.payments[r.id].merchant == r.merchant && s'.payments[r.id].captured.Some?;
    if i :| 0 <= i < |s.payments| && s.payments[i].merchant == m && s.payments[i].captured.Some? {
      assert s'.payments[i].merchant == m && s'.payments[i].captured.Some?;
    }
  }

  lemma RefundNeedsCapture(s: State, r: Request)
    requires Reachable(s) && r.Refund? && Handle(s, r).Ok?
    ensures HasCapture(s, r.merchant)
  {
    RefundTakenIff(s, r.merchant, r.id, r.amount);
    ReachableCoherent(s, r.id);
    assert s.payments[r.id].merchant == r.merchant && s.payments[r.id].captured.Some?;
  }

  lemma RefundKeepsWallets(s: State, r: Request, m: MerchantId)
    requires r.Refund? && Handle(s, r).Ok? && (HasWallet(s, m) <==> HasCapture(s, m)) && HasCapture(s, r.merchant)
    ensures HasWallet(Next(s, r), m) <==> HasCapture(Next(s, r), m)
  {
    AdjustedWallets(s.wallets, r.merchant, -r.amount, m);
    SameWalletOwners(s, m);
    SameWalletOwners(Next(s, r), m);
    SameCaptures(s, Next(s, r), m);
  }

  lemma NextWallets(s: State, r: Request, m: MerchantId)
    requires Reachable(s) && (HasWallet(s, m) <==> HasCapture(s, m))
    ensures HasWallet(Next(s, r), m) <==> HasCapture(Next(s, r), m)
  {
    if Handle(s, r).Ok? {
      if r.Capture? {
        CaptureGivesWallet(s, r, m);
      } else if r.Refund? {
        RefundNeedsCapture(s, r);
        RefundKeepsWallets(s, r, m);
      } else {
        SameCaptures(s, Next(s, r), m);
      }
    }
  }

  lemma {:induction false} RunWallets(rs: seq<Request>, m: MerchantId)
    ensures HasWallet(Run(EMPTY, rs), m) <==> HasCapture(Run(EMPTY, rs), m)
  {
    if rs != [] {
      RunWallets(rs[..|rs| - 1], m);
      NextWallets(Run(EMPTY, rs[..|rs| - 1]), rs[|rs| - 1], m);
    }
  }

  /** Wallets are made by captures: a merchant has one exactly when one of its payments was ever captured. */
  lemma WalletIffCaptured(s: State, merchant: MerchantId)
    requires Reachable(s)
    ensures HasWallet(s, merchant) <==> HasCapture(s, merchant)
  {
    var rs: seq<Request> :| s == Run(EMPTY, rs);
    RunWallets(rs, merchant);
  }

  // ------------------------------------------------------- which edges are taken

  ghost predicate StatusChange(s: State, r: Request, id: PaymentId, before: PaymentStatus, after: PaymentStatus) {
    && Reachable(s) && id < |s.payments| && id < |Next(s, r).payments|
    && s.payments[id].status == before && Next(s, r).payments[id].status == after && before != after
  }

  lemma ChangesAreEdges(s: State, r: Request, id: PaymentId, before: PaymentStatus, after: PaymentStatus)
    requires StatusChange(s, r, id, before, after)
    ensures CanTransition(before, after)
  {
    if !Touches(s, r, id) {
      Untouched(s, r, id);
    } else if r.Settle? && Handle(s, r).Ok? {
      BatchOnPayment(s, r.merchant, id);
    }
  }

  lemma BeforeCapture(approved: bool) returns (s: State)
    ensures Reachable(s)
    ensures s.payments == [PaymentRow(0, 100, if approved then Authorized else Created, None, None)]
  {
    RunAppend(EMPTY, [], Create(0, 100));
    RunAppend(EMPTY, [] + [Create(0, 100)], Authorize(0, 0, Approve));
    s := if approved then Run(EMPTY, [] + [Create(0, 100)] + [Authorize(0, 0, Approve)])
         else Run(EMPTY, [] + [Create(0, 100)]);
  }

  lemma EdgeToRefunded(s: State, settled: bool, refunds: seq<int>, amount: int)
    requires After(s, settled, refunds)
    requires (refunds == [] && 0 < amount <= 60) || (refunds == [20] && amount == 40)
    ensures StatusChange(s, Refund(0, 0, amount), 0, s.payments[0].status,
      if amount == 60 - Sum(refunds) then Refunded else PartiallyRefunded)
  {
    SumOfFew(refunds);
    RefundTakenIff(s, 0, 0, amount);
    RefundKeeps(s, amount);
  }

  lemma EdgeToSettled(s: State)
    requires After(s, false, [])
    ensures StatusChange(s, Settle(0), 0, PaymentStatus.Captured, Settled)
  {
    BatchTakenIff(s, 0);
    ReachableCoherent(s, 0);
    BatchOnPayment(s, 0, 0);
  }

  lemma EdgesAreTaken(before: PaymentStatus, after: PaymentStatus) returns (s: State, r: Request)
    requires CanTransition(before, after)
    ensures StatusChange(s, r, 0, before, after)
  {
    match before
    case Created =>
      s := BeforeCapture(false);
      r := Authorize(0, 0, if after == Authorized then Approve else Decline);
    case Authorized =>
      s := BeforeCapture(true);
      r := if after == Failed then Authorize(0, 0, Decline) else Capture(0, 0, None);
    case Captured =>
      s := Unrefunded(false);
      if after == Settled {
        r := Settle(0);
        EdgeToSettled(s);
      } else {
        r := Refund(0, 0, if after == Refunded then 60 else 20);
        EdgeToRefunded(s, false, [], r.amount);
      }
    case Settled =>
      s := Unrefunded(true);
      r := Refund(0, 0, if after == Refunded then 60 else 20);
      EdgeToRefunded(s, true, [], r.amount);
    case PartiallyRefunded =>
      s := Unrefunded(false);
      s := OneMoreRefund(s, false, [], 20);
      assert [] + [20] == [20];
      r := Refund(0, 0, 40);
      EdgeToRefunded(s, false, [20], 40);
  }

  /** The status map has no idle edge: it lists exactly the changes that some request makes in some reachable state. */
  lemma EdgesAreTheChanges(before: PaymentStatus, after: PaymentStatus)
    ensures CanTransition(before, after) <==>
      exists s: State, r: Request, id: PaymentId :: StatusChange(s, r, id, before, after)
  {
    if CanTransition(before, after) {
      var s, r := EdgesAreTaken(before, after);
      assert StatusChange(s, r, 0, before, after);
    }
    forall s: State, r: Request, id: PaymentId | StatusChange(s, r, id, before, after)
      ensures CanTransition(before, after)
    {
      ChangesAreEdges(s, r, id, before, after);
    }
  }
}
