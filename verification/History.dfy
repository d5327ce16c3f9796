/** Readings of the ledger: per payment, per account and per merchant. */
module History {
  import opened Types
  import opened Gateway

  /** A movement of money on one payment; each is posted as one debit/credit pair. */
  datatype Move = CaptureMove(amount: int) | SettleMove(amount: int) | RefundMove(amount: int)

  function Pair(id: PaymentId, move: Move): seq<LedgerEntry> {
    match move
    case CaptureMove(a) => CapturePair(id, a)
    case SettleMove(a) => SettlementPair(id, a)
    case RefundMove(a) => RefundPair(id, a)
  }

  function Postings(id: PaymentId, moves: seq<Move>): seq<LedgerEntry> {
    if moves == [] then []
    else Postings(id, moves[..|moves| - 1]) + Pair(id, moves[|moves| - 1])
  }

  lemma PostingsAppend(id: PaymentId, moves: seq<Move>, move: Move)
    ensures Postings(id, moves + [move]) == Postings(id, moves) + Pair(id, move)
  {
    assert (moves + [move])[..|moves|] == moves;
  }

  lemma {:induction false} PostingsLength(id: PaymentId, moves: seq<Move>)
    ensures |Postings(id, moves)| == 2 * |moves|
  {
    if moves != [] {
      PostingsLength(id, moves[..|moves| - 1]);
    }
  }

  /** What a payment row and its refunds say must have been posted, in order. */
  function Moves(p: PaymentRow, refunds: seq<int>): seq<Move> {
    (if p.captured.Some? then [CaptureMove(p.captured.value)] else []) +
    (if p.settlement.Some? then [SettleMove(p.amount)] else []) +
    RefundMoves(refunds)
  }

  function RefundMoves(refunds: seq<int>): seq<Move> {
    seq(|refunds|, i requires 0 <= i < |refunds| => RefundMove(refunds[i]))
  }

  // ----------------------------------------------------------- one payment

  /** The ledger restricted to one payment. */
  function EntriesOf(ledger: seq<LedgerEntry>, id: PaymentId): seq<LedgerEntry> {
    if ledger == [] then []
    else
      var last := ledger[|ledger| - 1];
      EntriesOf(ledger[..|ledger| - 1], id) + (if last.payment == id then [last] else [])
  }

  lemma {:induction false} EntriesOfConcat(ledger: seq<LedgerEntry>, more: seq<LedgerEntry>, id: PaymentId)
    ensures EntriesOf(ledger + more, id) == EntriesOf(ledger, id) + EntriesOf(more, id)
  {
    if more == [] {
      assert ledger + more == ledger;
    } else {
      assert (ledger + more)[..|ledger + more| - 1] == ledger + more[..|more| - 1];
      EntriesOfConcat(ledger, more[..|more| - 1], id);
    }
  }

  lemma {:induction false} EntriesOfAbsent(ledger: seq<LedgerEntry>, id: PaymentId)
    requires forall e :: e in ledger ==> e.payment != id
    ensures EntriesOf(ledger, id) == []
  {
    if ledger != [] {
      EntriesOfAbsent(ledger[..|ledger| - 1], id);
    }
  }

  lemma EntriesOfOne(e: LedgerEntry, id: PaymentId)
    ensures EntriesOf([e], id) == if e.payment == id then [e] else []
  {
    assert [e][..0] == [];
  }

  lemma EntriesOfPair(move: Move, at: PaymentId, id: PaymentId)
    ensures EntriesOf(Pair(at, move), id) == if id == at then Pair(at, move) else []
  {
    var pair := Pair(at, move);
    var first, second := pair[0], pair[1];
    assert pair == [first] + [second];
    EntriesOfConcat([first], [second], id);
    EntriesOfOne(first, id);
    EntriesOfOne(second, id);
  }

  lemma EntriesOfPosted(ledger: seq<LedgerEntry>, move: Move, at: PaymentId, id: PaymentId)
    ensures EntriesOf(ledger + Pair(at, move), id)
         == if id == at then EntriesOf(ledger, id) + Pair(at, move) else EntriesOf(ledger, id)
  {
    EntriesOfConcat(ledger, Pair(at, move), id);
    EntriesOfPair(move, at, id);
    assert EntriesOf(ledger, id) + [] == EntriesOf(ledger, id);
  }

  lemma {:induction false} RefundsOfAbsent(refunds: seq<RefundRow>, id: PaymentId)
    requires forall r :: r in refunds ==> r.payment != id
    ensures RefundsOf(refunds, id) == []
  {
    if refunds != [] {
      RefundsOfAbsent(refunds[..|refunds| - 1], id);
    }
  }

  lemma RefundsOfAppend(refunds: seq<RefundRow>, row: RefundRow, id: PaymentId)
    ensures RefundsOf(refunds + [row], id) == RefundsOf(refunds, id) + if row.payment == id then [row.amount] else []
  {
    assert (refunds + [row])[..|refunds|] == refunds;
  }

  // -------------------------------------------------------------- accounts

  /** Credits count up, debits down. */
  function Signed(e: LedgerEntry): int {
    if e.kind.Credit? then e.amount else -e.amount
  }

  function AccountNet(es: seq<LedgerEntry>, account: Account): int {
    if es == [] then 0
    else
      var last := es[|es| - 1];
      AccountNet(es[..|es| - 1], account) + (if last.account == account then Signed(last) else 0)
  }

  lemma {:induction false} AccountNetConcat(es: seq<LedgerEntry>, more: seq<LedgerEntry>, account: Account)
    ensures AccountNet(es + more, account) == AccountNet(es, account) + AccountNet(more, account)
  {
    if more == [] {
      assert es + more == es;
    } else {
      assert (es + more)[..|es + more| - 1] == es + more[..|more| - 1];
      AccountNetConcat(es, more[..|more| - 1], account);
    }
  }

  /** The total of the debits, or of the credits. */
  function SideTotal(es: seq<LedgerEntry>, kind: EntryType): int {
    if es == [] then 0
    else
      var last := es[|es| - 1];
      SideTotal(es[..|es| - 1], kind) + (if last.kind == kind then last.amount else 0)
  }

  lemma {:induction false} SideTotalConcat(es: seq<LedgerEntry>, more: seq<LedgerEntry>, kind: EntryType)
    ensures SideTotal(es + more, kind) == SideTotal(es, kind) + SideTotal(more, kind)
  {
    if more == [] {
      assert es + more == es;
    } else {
      assert (es + more)[..|es + more| - 1] == es + more[..|more| - 1];
      SideTotalConcat(es, more[..|more| - 1], kind);
    }
  }

  lemma OneEntry(e: LedgerEntry, account: Account, kind: EntryType)
    ensures AccountNet([e], account) == if e.account == account then Signed(e) else 0
    ensures SideTotal([e], kind) == if e.kind == kind then e.amount else 0
  {
    assert [e][..0] == [];
  }

  lemma TwoEntries(a: LedgerEntry, b: LedgerEntry, account: Account, kind: EntryType)
    ensures AccountNet([a, b], account) == AccountNet([a], account) + AccountNet([b], account)
    ensures SideTotal([a, b], kind) == SideTotal([a], kind) + SideTotal([b], kind)
  {
    assert [a, b] == [a] + [b];
    AccountNetConcat([a], [b], account);
    SideTotalConcat([a], [b], kind);
  }

  /** A pair moves its amount between two accounts and is balanced. */
  lemma PairEffect(id: PaymentId, move: Move, account: Account)
    ensures AccountNet(Pair(id, move), account) ==
      match move
      case CaptureMove(a) =>
        (match account case CustomerHolding => -a case MerchantWallet => a case BankSettlement => 0)
      case RefundMove(a) =>
        (match account case CustomerHolding => a case MerchantWallet => -a case BankSettlement => 0)
      case SettleMove(a) =>
        (match account case CustomerHolding => 0 case MerchantWallet => -a case BankSettlement => a)
    ensures SideTotal(Pair(id, move), Debit) == SideTotal(Pair(id, move), Credit)
  {
    var first, second := Pair(id, move)[0], Pair(id, move)[1];
    TwoEntries(first, second, account, Debit);
    TwoEntries(first, second, account, Credit);
    OneEntry(first, account, Debit);
    OneEntry(first, account, Credit);
    OneEntry(second, account, Debit);
    OneEntry(second, account, Credit);
  }

  // ------------------------------------------------------------- merchants

  /** The net of the merchant_wallet entries on the merchant's payments. */
  function NetWallet(ledger: seq<LedgerEntry>, payments: seq<PaymentRow>, merchant: MerchantId): int {
    if ledger == [] then 0
    else
      var last := ledger[|ledger| - 1];
      NetWallet(ledger[..|ledger| - 1], payments, merchant) +
      (if last.account.MerchantWallet? && last.payment < |payments| && payments[last.payment].merchant == merchant
       then Signed(last) else 0)
  }

  lemma {:induction false} NetWalletConcat(
    ledger: seq<LedgerEntry>, more: seq<LedgerEntry>, payments: seq<PaymentRow>, merchant: MerchantId)
    ensures NetWallet(ledger + more, payments, merchant)
         == NetWallet(ledger, payments, merchant) + NetWallet(more, payments, merchant)
  {
    if more == [] {
      assert ledger + more == ledger;
    } else {
      assert (ledger + more)[..|ledger + more| - 1] == ledger + more[..|more| - 1];
      NetWalletConcat(ledger, more[..|more| - 1], payments, merchant);
    }
  }

  ghost predicate SameOwners(before: seq<PaymentRow>, after: seq<PaymentRow>) {
    && |before| <= |after|
    && forall i :: 0 <= i < |before| ==> after[i].merchant == before[i].merchant
  }

  ghost predicate Refers(ledger: seq<LedgerEntry>, limit: nat) {
    forall e :: e in ledger ==> e.payment < limit
  }

  lemma {:induction false} NetWalletFrame(
    ledger: seq<LedgerEntry>, before: seq<PaymentRow>, after: seq<PaymentRow>, merchant: MerchantId)
    requires SameOwners(before, after) && Refers(ledger, |before|)
    ensures NetWallet(ledger, after, merchant) == NetWallet(ledger, before, merchant)
  {
    if ledger != [] {
      assert ledger[|ledger| - 1] in ledger;
      NetWalletFrame(ledger[..|ledger| - 1], before, after, merchant);
    }
  }

  lemma NetWalletOne(e: LedgerEntry, payments: seq<PaymentRow>, merchant: MerchantId)
    requires e.payment < |payments|
    ensures NetWallet([e], payments, merchant)
         == if e.account.MerchantWallet? && payments[e.payment].merchant == merchant then Signed(e) else 0
  {
    assert [e][..0] == [];
  }

  lemma NetWalletPair(id: PaymentId, move: Move, payments: seq<PaymentRow>, merchant: MerchantId)
    requires id < |payments|
    ensures NetWallet(Pair(id, move), payments, merchant)
         == if payments[id].merchant == merchant then AccountNet(Pair(id, move), MerchantWallet) else 0
  {
    var first, second := Pair(id, move)[0], Pair(id, move)[1];
    assert Pair(id, move) == [first] + [second];
    NetWalletConcat([first], [second], payments, merchant);
    NetWalletOne(first, payments, merchant);
    NetWalletOne(second, payments, merchant);
    TwoEntries(first, second, MerchantWallet, Debit);
    OneEntry(first, MerchantWallet, Debit);
    OneEntry(second, MerchantWallet, Debit);
  }
}
