/** What every stored state satisfies, and the facts about the legs each step posts. */
module Invariants {
  import opened Basics
  import opened Domain
  import opened Posting
  import opened Claims
  import opened Finalize
  import opened Wallet
  import opened Transfers

  /** Only suspense accounts may be below zero; users have all three accounts or none. */
  ghost predicate Shape(bal: Balances) {
    && Suspense in bal && Treasury in bal && MintSource in bal
    && (forall u: UserId :: MainOf(u) in bal <==> PendingOf(u) in bal)
    && (forall u: UserId :: MainOf(u) in bal <==> LienOf(u) in bal)
    && (forall a | a in bal && a != Suspense && a != MintSource :: bal[a] >= 0)
  }

  /** Stored balance = ledger credits - debits + settled online transfers, account by account. */
  ghost predicate LedgerMatch(bal: Balances, ledger: seq<Entry>, transfers: seq<Transfer>) {
    forall a | a in bal :: bal[a] == Net(ledger, a) + TransferNet(transfers, a)
  }

  /** Ledger rows hang off recorded business rows, with positive amounts. */
  predicate EntriesOk(ledger: seq<Entry>, nrows: nat) {
    forall i | 0 <= i < |ledger| :: ledger[i].txn < nrows && ledger[i].leg.amount > 0
  }

  /** Every anchor's debits equal its credits: the deferred balance trigger never fires. */
  ghost predicate AllBalanced(ledger: seq<Entry>) {
    forall t: nat :: Balanced(LegsOf(ledger, t))
  }

  /** Nothing was ever posted to, or moved on, an account that does not exist. */
  predicate LedgerKnows(bal: Balances, ledger: seq<Entry>, transfers: seq<Transfer>) {
    && (forall i | 0 <= i < |ledger| :: ledger[i].leg.account in bal)
    && (forall i | 0 <= i < |transfers| :: transfers[i].status == TransferSettled ==>
          MainOf(transfers[i].sender) in bal && MainOf(transfers[i].receiver) in bal)
  }

  ghost predicate MoneyOk(bal: Balances, ledger: seq<Entry>, transfers: seq<Transfer>, nrows: nat) {
    && Shape(bal)
    && Total(bal) == 0
    && LedgerMatch(bal, ledger, transfers)
    && EntriesOk(ledger, nrows)
    && AllBalanced(ledger)
    && LedgerKnows(bal, ledger, transfers)
  }

  /** A stored payment is pending with nothing settled, settled in full, or settled short. */
  predicate StatusShape(p: Payment) {
    match p.status
    case Pending => p.settled == 0 && p.reason == NoReason && p.settledAt == None
    case Settled => p.settled == p.amount && p.reason == NoReason && p.settledAt.Some?
    case PartiallySettled => 0 <= p.settled < p.amount && p.settledAt.Some?
    case _ => false
  }

  predicate PaymentOk(bal: Balances, p: Payment, nceils: nat) {
    && p.amount > 0 && p.seqNo > 0 && p.payer != p.payee && StatusShape(p)
    && MainOf(p.payer) in bal && PendingOf(p.payee) in bal && p.ceiling < nceils
  }

  predicate UniqueKeys(pays: seq<Payment>) {
    && (forall i, j | 0 <= i < j < |pays| :: !(pays[i].payer == pays[j].payer && pays[i].seqNo == pays[j].seqNo))
    && (forall i, j | 0 <= i < j < |pays| :: !(pays[i].payee == pays[j].payee && pays[i].nonce == pays[j].nonce))
  }

  predicate PaymentsOk(bal: Balances, pays: seq<Payment>, nceils: nat) {
    && (forall i | 0 <= i < |pays| :: PaymentOk(bal, pays[i], nceils))
    && UniqueKeys(pays)
  }

  function PendingAmount(): Payment -> int {
    (p: Payment) => if p.status == Pending then p.amount else 0
  }

  function OwedTo(u: UserId): Payment -> int {
    (p: Payment) => if p.status == Pending && p.payee == u then p.amount else 0
  }

  /** Suspense mirrors everything pending; each pending account mirrors what is pending to it. */
  ghost predicate TwoPhase(bal: Balances, pays: seq<Payment>) {
    && Suspense in bal && bal[Suspense] == -Sum(pays, PendingAmount())
    && (forall u | PendingOf(u) in bal :: bal[PendingOf(u)] == Sum(pays, OwedTo(u)))
  }

  /** A group is one row, or a row and its immediate successor; sources exist. */
  predicate RowsOk(rows: seq<TxnRow>, npays: nat, ntransfers: nat) {
    && (forall j | 0 <= j < |rows| :: rows[j].group == j || (j > 0 && rows[j].group == j - 1))
    && (forall j | 0 <= j < |rows| :: rows[j].source.OfPayment? ==> rows[j].source.id < npays)
    && (forall j | 0 <= j < |rows| :: rows[j].source.OfTransfer? ==> rows[j].source.id < ntransfers)
  }

  function PaymentRowStatus(p: Payment): RowStatus { if p.status == Pending then RowPending else RowCompleted }

  function Reflect(r: TxnRow, p: Payment): TxnRow {
    r.(status := PaymentRowStatus(p), settled := if p.status == Pending then None else Some(p.settled),
        reason := p.reason)
  }

  /** The legs a payment has accumulated in its present state. */
  function PaymentLegs(p: Payment): seq<LedgerLeg> {
    ClaimLegs(p.payee, p.amount) + if p.status == Pending then [] else SettlementLegs(p, p.settled)
  }

  function Anchor(rows: seq<TxnRow>, source: Source): nat {
    match AnchorOf(rows, source) case Some(a) => a case None => |rows|
  }

  /** The two business rows of payment i sit side by side and agree with it, and exactly the
      legs of its present state hang off the first of them. */
  ghost predicate PaymentLinked(rows: seq<TxnRow>, ledger: seq<Entry>, i: nat, p: Payment) {
    var a := Anchor(rows, OfPayment(i));
    && a + 1 < |rows|
    && rows[a] == Reflect(SentRow(p.payer, p.payee, p.amount, a, i), p)
    && rows[a + 1] == Reflect(ReceivedRow(p.payer, p.payee, p.amount, a, i), p)
    && LegsOf(ledger, a) == PaymentLegs(p)
  }

  function ReflectTransfer(r: TxnRow, t: Transfer): TxnRow {
    match t.status
    case TransferSettled => r.(status := RowCompleted, settled := Some(t.amount))
    case TransferFailed => r.(status := RowFailed, reason := t.reason)
    case _ => r
  }

  /** The same for a transfer, which has no legs. */
  ghost predicate TransferLinked(rows: seq<TxnRow>, ledger: seq<Entry>, i: nat, t: Transfer) {
    var a := Anchor(rows, OfTransfer(i));
    && a + 1 < |rows|
    && rows[a] == ReflectTransfer(PairedRow(t.sender, t.receiver, TransferSent, Debit, t.amount, a, i), t)
    && rows[a + 1] == ReflectTransfer(PairedRow(t.receiver, t.sender, TransferReceived, Credit, t.amount, a, i), t)
    && LegsOf(ledger, a) == []
  }

  ghost predicate LinkedOk(rows: seq<TxnRow>, ledger: seq<Entry>, pays: seq<Payment>, transfers: seq<Transfer>) {
    && (forall i: nat | i < |pays| :: PaymentLinked(rows, ledger, i, pays[i]))
    && (forall i: nat | i < |transfers| :: TransferLinked(rows, ledger, i, transfers[i]))
  }

  predicate TransferOk(t: Transfer) {
    t.amount > 0 && t.sender != t.receiver && t.status != Processing
    && (t.status == TransferFailed <==> t.reason != NoReason)
  }

  predicate TransfersOk(transfers: seq<Transfer>) {
    forall i | 0 <= i < |transfers| :: TransferOk(transfers[i])
  }

  /** The table's check on a ceiling's amount. */
  predicate CeilingsOk(ceils: seq<Ceiling>) {
    forall i | 0 <= i < |ceils| :: ceils[i].amount > 0
  }

  ghost predicate BookOk(b: Book) {
    && MoneyOk(b.bal, b.ledger, b.transfers, |b.rows|)
    && PaymentsOk(b.bal, b.pays, |b.ceils|)
    && TwoPhase(b.bal, b.pays)
    && RowsOk(b.rows, |b.pays|, |b.transfers|)
    && LinkedOk(b.rows, b.ledger, b.pays, b.transfers)
    && TransfersOk(b.transfers)
    && CeilingsOk(b.ceils)
  }

  predicate OneLivePerPayer(ceils: seq<Ceiling>) {
    forall i, j | 0 <= i < j < |ceils| :: !(ceils[i].payer == ceils[j].payer && IsLive(ceils[i]) && IsLive(ceils[j]))
  }

  /** Under a live ceiling the lien and what is settled total at most the ceiling's amount, and exactly
      that if so asked; no live ceiling, no lien. */
  ghost predicate LienBacksCeilings(bal: Balances, pays: seq<Payment>, ceils: seq<Ceiling>, exact: bool) {
    && (forall i: nat | i < |ceils| && IsLive(ceils[i]) ::
          && LienOf(ceils[i].payer) in bal
          && bal[LienOf(ceils[i].payer)] + SettledTotal(pays, i) <= ceils[i].amount
          && (exact ==> bal[LienOf(ceils[i].payer)] + SettledTotal(pays, i) == ceils[i].amount))
    && (forall u | LienOf(u) in bal && !HasLiveCeiling(ceils, u) :: bal[LienOf(u)] == 0)
  }

  /** Every pending payment points at a live ceiling of its own payer. */
  predicate PendingBacked(pays: seq<Payment>, ceils: seq<Ceiling>) {
    forall k | 0 <= k < |pays| && pays[k].status == Pending ::
      pays[k].ceiling < |ceils| && IsLive(ceils[pays[k].ceiling]) && ceils[pays[k].ceiling].payer == pays[k].payer
  }

  /** No ceiling is over-settled and an exhausted one is settled to the last kobo. */
  ghost predicate CeilingsBounded(pays: seq<Payment>, ceils: seq<Ceiling>) {
    forall i: nat | i < |ceils| ::
      SettledTotal(pays, i) <= ceils[i].amount
      && (ceils[i].status == Exhausted ==> SettledTotal(pays, i) == ceils[i].amount)
  }

  /** The lien invariant: exact, or as the upper bound alone. */
  ghost predicate LienOk(b: Book, exact: bool) {
    && OneLivePerPayer(b.ceils)
    && LienBacksCeilings(b.bal, b.pays, b.ceils, exact)
    && PendingBacked(b.pays, b.ceils)
    && CeilingsBounded(b.pays, b.ceils)
  }

  // ------------------------------------------------------------------ legs of each step

  lemma NetPair(l1: LedgerLeg, l2: LedgerLeg, a: Account)
    ensures NetLegs([l1, l2], a) == LegAt(a)(l1) + LegAt(a)(l2)
    ensures Sum([l1, l2], SignedOf()) == Signed(l1) + Signed(l2)
  {
    SumPush([l1], l2, LegAt(a));
    SumPush([], l1, LegAt(a));
    SumPush([l1], l2, SignedOf());
    SumPush([], l1, SignedOf());
    assert [l1] + [l2] == [l1, l2];
    assert [] + [l1] == [l1];
  }

  /** What settling s of a payment does to an account. */
  function SettleEffect(p: Payment, s: int, a: Account): int {
    (if a == LienOf(p.payer) then -s else 0)
    + (if a == MainOf(p.payee) then s else 0)
    + (if a == PendingOf(p.payee) then -p.amount else 0)
    + (if a == Suspense then p.amount else 0)
  }

  lemma NetSettlement(p: Payment, s: int, a: Account)
    requires 0 <= s <= p.amount
    ensures NetLegs(SettlementLegs(p, s), a) == SettleEffect(p, s, a)
    ensures Balanced(SettlementLegs(p, s))
  {
    var l1, l2 := LedgerLeg(LienOf(p.payer), Debit, s), LedgerLeg(Suspense, Credit, s);
    var l3, l4 := LedgerLeg(PendingOf(p.payee), Debit, s), LedgerLeg(MainOf(p.payee), Credit, s);
    var l5, l6 := LedgerLeg(PendingOf(p.payee), Debit, p.amount - s), LedgerLeg(Suspense, Credit, p.amount - s);
    var x := if s > 0 then [l1, l2, l3, l4] else [];
    var y := if p.amount - s > 0 then [l5, l6] else [];
    assert SettlementLegs(p, s) == x + y;
    SumConcat(x, y, LegAt(a));
    SumConcat(x, y, SignedOf());
    NetPair(l1, l2, a);
    NetPair(l3, l4, a);
    NetPair(l5, l6, a);
    SumConcat([l1, l2], [l3, l4], LegAt(a));
    SumConcat([l1, l2], [l3, l4], SignedOf());
    assert [l1, l2] + [l3, l4] == [l1, l2, l3, l4];
  }

  lemma NetClaim(payee: UserId, amount: int, a: Account)
    ensures NetLegs(ClaimLegs(payee, amount), a)
         == (if a == Suspense then -amount else 0) + (if a == PendingOf(payee) then amount else 0)
    ensures Balanced(ClaimLegs(payee, amount))
  {
    NetPair(ClaimLegs(payee, amount)[0], ClaimLegs(payee, amount)[1], a);
  }

  /** Which accounts exist decides the rest of the shape. */
  lemma ShapeKeys(bal: Balances, bal': Balances)
    requires Shape(bal) && bal'.Keys == bal.Keys
    requires forall a | a in bal' && a != Suspense && a != MintSource :: bal'[a] >= 0
    ensures Shape(bal')
  {
    forall a: Account ensures a in bal' <==> a in bal {
      assert a in bal'.Keys <==> a in bal.Keys;
    }
  }

  lemma PostKeepsBalanced(ledger: seq<Entry>, txn: nat, legs: seq<LedgerLeg>)
    requires Balanced(legs) && AllBalanced(ledger)
    ensures AllBalanced(ledger + Stamp(txn, legs))
  {
    forall t: nat ensures Balanced(LegsOf(ledger + Stamp(txn, legs), t)) {
      LegsOfPost(ledger, txn, legs, t);
      SumConcat(LegsOf(ledger, t), if txn == t then legs else [], SignedOf());
    }
  }

  lemma PostKeepsMatch(bal: Balances, ledger: seq<Entry>, transfers: seq<Transfer>, txn: nat, legs: seq<LedgerLeg>)
    requires LedgerMatch(bal, ledger, transfers) && ApplyLegs(bal, legs).Some?
    ensures LedgerMatch(ApplyLegs(bal, legs).value, ledger + Stamp(txn, legs), transfers)
  {
    ApplyEffect(bal, legs);
    var bal' := ApplyLegs(bal, legs).value;
    forall a | a in bal' ensures bal'[a] == Net(ledger + Stamp(txn, legs), a) + TransferNet(transfers, a) {
      assert a in bal'.Keys;
      assert a in bal;
      NetPost(ledger, txn, legs, a);
    }
  }

  lemma PostKeepsShape(bal: Balances, legs: seq<LedgerLeg>)
    requires Shape(bal) && ApplyLegs(bal, legs).Some?
    requires forall i | 0 <= i < |legs| :: legs[i].amount >= 0
    ensures Shape(ApplyLegs(bal, legs).value)
  {
    ApplyEffect(bal, legs);
    ApplyNonneg(bal, legs);
    var bal' := ApplyLegs(bal, legs).value;
    forall a | a in bal' && a != Suspense && a != MintSource ensures bal'[a] >= 0 {
      assert a in bal'.Keys;
      assert a in bal;
    }
    ShapeKeys(bal, bal');
  }

  lemma {:induction false} ApplyKnows(bal: Balances, legs: seq<LedgerLeg>)
    requires ApplyLegs(bal, legs).Some?
    ensures forall i | 0 <= i < |legs| :: legs[i].account in bal
    decreases |legs|
  {
    if legs != [] {
      var bal1 := ApplyLeg(bal, legs[0]).value;
      ApplyKnows(bal1, legs[1..]);
      forall i | 0 <= i < |legs| ensures legs[i].account in bal {
        if i > 0 {
          assert legs[1..][i - 1] == legs[i];
        }
      }
    }
  }

  lemma PostKeepsKnown(bal: Balances, ledger: seq<Entry>, transfers: seq<Transfer>, txn: nat, legs: seq<LedgerLeg>)
    requires LedgerKnows(bal, ledger, transfers) && ApplyLegs(bal, legs).Some?
    ensures LedgerKnows(ApplyLegs(bal, legs).value, ledger + Stamp(txn, legs), transfers)
  {
    ApplyEffect(bal, legs);
    ApplyKnows(bal, legs);
    var bal' := ApplyLegs(bal, legs).value;
    forall a ensures a in bal' <==> a in bal {
      assert a in bal'.Keys <==> a in bal.Keys;
    }
  }

  lemma PostKeepsEntries(ledger: seq<Entry>, nrows: nat, txn: nat, legs: seq<LedgerLeg>)
    requires EntriesOk(ledger, nrows) && txn < nrows && PostableLegs(legs)
    ensures EntriesOk(ledger + Stamp(txn, legs), nrows)
  {
    var es := Stamp(txn, legs);
    forall i | 0 <= i < |ledger + es| ensures (ledger + es)[i].txn < nrows && (ledger + es)[i].leg.amount > 0 {
      if i >= |ledger| {
        assert (ledger + es)[i] == Entry(txn, legs[i - |ledger|]);
      }
    }
  }

  /** Posting balanced positive legs under a recorded row keeps the money invariant. */
  lemma PostKeepsMoney(bal: Balances, ledger: seq<Entry>, transfers: seq<Transfer>, nrows: nat, txn: nat,
          legs: seq<LedgerLeg>)
    requires MoneyOk(bal, ledger, transfers, nrows)
    requires txn < nrows && Balanced(legs) && PostableLegs(legs) && ApplyLegs(bal, legs).Some?
    ensures MoneyOk(ApplyLegs(bal, legs).value, ledger + Stamp(txn, legs), transfers, nrows)
  {
    ApplyEffect(bal, legs);
    PostKeepsShape(bal, legs);
    PostKeepsMatch(bal, ledger, transfers, txn, legs);
    PostKeepsBalanced(ledger, txn, legs);
    PostKeepsKnown(bal, ledger, transfers, txn, legs);
    PostKeepsEntries(ledger, nrows, txn, legs);
  }

  lemma MoreRowsKeepMoney(bal: Balances, ledger: seq<Entry>, transfers: seq<Transfer>, nrows: nat, nrows': nat)
    requires MoneyOk(bal, ledger, transfers, nrows) && nrows <= nrows'
    ensures MoneyOk(bal, ledger, transfers, nrows')
  {
  }

  /** Same accounts, no fewer ceilings: payments stay well-formed. */
  lemma SameAccountsKeepPayments(bal: Balances, bal': Balances, pays: seq<Payment>, n: nat, n': nat)
    requires PaymentsOk(bal, pays, n) && bal.Keys <= bal'.Keys && n <= n'
    ensures PaymentsOk(bal', pays, n')
  {
    forall i | 0 <= i < |pays| ensures PaymentOk(bal', pays[i], n') {
      assert PaymentOk(bal, pays[i], n);
      assert MainOf(pays[i].payer) in bal.Keys && PendingOf(pays[i].payee) in bal.Keys;
    }
  }

  /** Rows appended at the end, and legs posted under them, disturb no recorded pair. */
  lemma AppendKeepsPayment(rows: seq<TxnRow>, more: seq<TxnRow>, ledger: seq<Entry>, ledger': seq<Entry>, i: nat,
          p: Payment)
    requires PaymentLinked(rows, ledger, i, p)
    requires forall t: nat | t < |rows| :: LegsOf(ledger', t) == LegsOf(ledger, t)
    ensures PaymentLinked(rows + more, ledger', i, p)
  {
    AnchorStable(rows, more, OfPayment(i));
  }

  lemma AppendKeepsTransfer(rows: seq<TxnRow>, more: seq<TxnRow>, ledger: seq<Entry>, ledger': seq<Entry>,
          i: nat, t: Transfer)
    requires TransferLinked(rows, ledger, i, t)
    requires forall t: nat | t < |rows| :: LegsOf(ledger', t) == LegsOf(ledger, t)
    ensures TransferLinked(rows + more, ledger', i, t)
  {
    AnchorStable(rows, more, OfTransfer(i));
  }

  lemma AppendKeepsLinked(rows: seq<TxnRow>, more: seq<TxnRow>, ledger: seq<Entry>, ledger': seq<Entry>,
          pays: seq<Payment>, transfers: seq<Transfer>)
    requires LinkedOk(rows, ledger, pays, transfers)
    requires forall t: nat | t < |rows| :: LegsOf(ledger', t) == LegsOf(ledger, t)
    ensures LinkedOk(rows + more, ledger', pays, transfers)
  {
    forall i: nat | i < |pays| ensures PaymentLinked(rows + more, ledger', i, pays[i]) {
      AppendKeepsPayment(rows, more, ledger, ledger', i, pays[i]);
    }
    forall i: nat | i < |transfers| ensures TransferLinked(rows + more, ledger', i, transfers[i]) {
      AppendKeepsTransfer(rows, more, ledger, ledger', i, transfers[i]);
    }
  }

  lemma PostLeavesOthers(ledger: seq<Entry>, txn: nat, legs: seq<LedgerLeg>)
    ensures forall t: nat | t != txn :: LegsOf(ledger + Stamp(txn, legs), t) == LegsOf(ledger, t)
    ensures LegsOf(ledger + Stamp(txn, legs), txn) == LegsOf(ledger, txn) + legs
  {
    forall t: nat ensures LegsOf(ledger + Stamp(txn, legs), t) == LegsOf(ledger, t) + if txn == t then legs else [] {
      LegsOfPost(ledger, txn, legs, t);
    }
  }

  lemma NoAnchorYet(rows: seq<TxnRow>, source: Source)
    requires forall j | 0 <= j < |rows| :: rows[j].source != source
    ensures AnchorOf(rows, source) == None
  {
  }
}
