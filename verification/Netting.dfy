/** What every reachable state says about the two-phase mirror, the legs under each payment's
    anchor and its pair of business rows. */
module Netting {
  import opened Basics
  import opened Domain
  import opened Posting
  import opened Claims
  import opened Finalize
  import opened World
  import opened Invariants
  import opened SettleKeeps
  import opened LienKeeps
  import opened Runs

  /** In every reachable state suspense is the negated sum of everything pending, and each pending
      account the sum of what is pending to its owner. */
  lemma MirrorOverRuns(es: seq<Step>)
    ensures var b := Run(Genesis(), es).book;
            && Suspense in b.bal && b.bal[Suspense] == -Sum(b.pays, PendingAmount())
            && (forall u | PendingOf(u) in b.bal :: b.bal[PendingOf(u)] == Sum(b.pays, OwedTo(u)))
  {
    hide Run, Genesis;
    ReachableBook(es);
    var b := Run(Genesis(), es).book;
    assert TwoPhase(b.bal, b.pays);
  }

  /** So in every reachable state the payee's pending account covers each pending amount, and settling
      a pending payment can only fail on the payer's lien. */
  lemma OnlyTheLienGuards(es: seq<Step>, id: nat, s: Share, now: Time)
    requires id < |Run(Genesis(), es).book.pays| && Run(Genesis(), es).book.pays[id].status == Pending
    requires ShareOk(Run(Genesis(), es).book.pays[id], s)
    ensures var b := Run(Genesis(), es).book;
            && PendingOf(b.pays[id].payee) in b.bal && b.bal[PendingOf(b.pays[id].payee)] >= b.pays[id].amount
            && LienOf(b.pays[id].payer) in b.bal
            && (SettleOne(b, id, s, now).Some? <==> b.bal[LienOf(b.pays[id].payer)] >= s.settled)
  {
    hide Run, Genesis, SettleOne, ShareOk, BookOk;
    ReachableBook(es);
    var b := Run(Genesis(), es).book;
    PendingCovers(b, id);
    SettleFailsOnlyOnLien(b, id, s, now);
  }

  /** The net of a final payment's legs: its suspense and pending legs cancel. */
  lemma FinalNet(p: Payment, a: Account)
    requires p.status != Pending && 0 <= p.settled <= p.amount
    ensures NetLegs(PaymentLegs(p), a)
         == (if a == LienOf(p.payer) then -p.settled else 0) + (if a == MainOf(p.payee) then p.settled else 0)
    ensures Balanced(PaymentLegs(p))
  {
    SumConcat(ClaimLegs(p.payee, p.amount), SettlementLegs(p, p.settled), LegAt(a));
    SumConcat(ClaimLegs(p.payee, p.amount), SettlementLegs(p, p.settled), SignedOf());
    NetClaim(p.payee, p.amount, a);
    NetSettlement(p, p.settled, a);
  }

  lemma PendingNet(p: Payment, a: Account)
    requires p.status == Pending
    ensures NetLegs(PaymentLegs(p), a)
         == (if a == Suspense then -p.amount else 0) + (if a == PendingOf(p.payee) then p.amount else 0)
    ensures Balanced(PaymentLegs(p))
  {
    assert PaymentLegs(p) == ClaimLegs(p.payee, p.amount);
    NetClaim(p.payee, p.amount, a);
  }

  lemma LinkedFacts(b: Book, i: nat)
    requires BookOk(b) && i < |b.pays|
    ensures PaymentLinked(b.rows, b.ledger, i, b.pays[i])
  {
  }

  /** In every reachable state the legs under a payment's anchor net to what its status says: parked
      between suspense and pending while it is pending, and once final only the lien and the
      payee's main account have moved, by the settled amount. */
  lemma LegsOverRuns(es: seq<Step>, i: nat, a: Account)
    requires i < |Run(Genesis(), es).book.pays|
    ensures var b := Run(Genesis(), es).book;
            var p, legs := b.pays[i], LegsOf(b.ledger, Anchor(b.rows, OfPayment(i)));
            && Balanced(legs)
            && NetLegs(legs, a) ==
               if p.status == Pending
               then (if a == Suspense then -p.amount else 0) + (if a == PendingOf(p.payee) then p.amount else 0)
               else (if a == LienOf(p.payer) then -p.settled else 0) + (if a == MainOf(p.payee) then p.settled else 0)
  {
    hide Run, Genesis, BookOk, PaymentLegs, NetLegs, Balanced;
    ReachableBook(es);
    var b := Run(Genesis(), es).book;
    LinkedFacts(b, i);
    AmountsPositive(b, i);
    if b.pays[i].status == Pending {
      PendingNet(b.pays[i], a);
    } else {
      FinalNet(b.pays[i], a);
    }
  }

  /** The two rows of a payment sit side by side, one debit and one credit of the same group, and
      move in lockstep: pending together, then completed together with the settled amount. */
  ghost predicate InLockstep(rows: seq<TxnRow>, i: nat, p: Payment) {
    var k := Anchor(rows, OfPayment(i));
    && k + 1 < |rows| && rows[k].group == rows[k + 1].group
    && rows[k].direction == Debit && rows[k + 1].direction == Credit
    && rows[k].user == p.payer && rows[k + 1].user == p.payee
    && rows[k].counterparty == Some(p.payee) && rows[k + 1].counterparty == Some(p.payer)
    && rows[k].kind == OfflinePaymentSent && rows[k + 1].kind == OfflinePaymentReceived
    && rows[k].amount == rows[k + 1].amount == p.amount
    && rows[k].status == rows[k + 1].status == (if p.status == Pending then RowPending else RowCompleted)
    && rows[k].settled == rows[k + 1].settled == (if p.status == Pending then None else Some(p.settled))
    && rows[k].reason == rows[k + 1].reason == p.reason
  }

  lemma PairedRowsOverRuns(es: seq<Step>, i: nat)
    requires i < |Run(Genesis(), es).book.pays|
    ensures InLockstep(Run(Genesis(), es).book.rows, i, Run(Genesis(), es).book.pays[i])
  {
    hide Run, Genesis, BookOk, LegsOf;
    ReachableBook(es);
    LinkedFacts(Run(Genesis(), es).book, i);
  }

  /** The same for a transfer: both rows pending, completed with its amount, or failed with its reason. */
  ghost predicate InTransferLockstep(rows: seq<TxnRow>, i: nat, t: Transfer) {
    var k := Anchor(rows, OfTransfer(i));
    && k + 1 < |rows| && rows[k].group == rows[k + 1].group
    && rows[k].direction == Debit && rows[k + 1].direction == Credit
    && rows[k].user == t.sender && rows[k + 1].user == t.receiver
    && rows[k].counterparty == Some(t.receiver) && rows[k + 1].counterparty == Some(t.sender)
    && rows[k].kind == TransferSent && rows[k + 1].kind == TransferReceived
    && rows[k].amount == rows[k + 1].amount == t.amount
    && rows[k].status == rows[k + 1].status
       == (match t.status case TransferSettled => RowCompleted case TransferFailed => RowFailed case _ => RowPending)
    && rows[k].settled == rows[k + 1].settled == (if t.status == TransferSettled then Some(t.amount) else None)
    && rows[k].reason == rows[k + 1].reason == t.reason
  }

  lemma TransferLinkedFacts(b: Book, i: nat)
    requires BookOk(b) && i < |b.transfers|
    ensures TransferLinked(b.rows, b.ledger, i, b.transfers[i])
    ensures b.transfers[i].status == TransferFailed <==> b.transfers[i].reason != NoReason
  {
    assert TransferOk(b.transfers[i]);
  }

  lemma TransferRowsOverRuns(es: seq<Step>, i: nat)
    requires i < |Run(Genesis(), es).book.transfers|
    ensures InTransferLockstep(Run(Genesis(), es).book.rows, i, Run(Genesis(), es).book.transfers[i])
  {
    hide Run, Genesis, BookOk, LegsOf;
    ReachableBook(es);
    TransferLinkedFacts(Run(Genesis(), es).book, i);
  }

  /** The deferred balance check on the ledger never fires: debits equal credits under every
      business row, in every reachable state. */
  lemma LedgerBalancedOverRuns(es: seq<Step>, txn: nat)
    ensures Balanced(LegsOf(Run(Genesis(), es).book.ledger, txn))
  {
    hide Run, Genesis;
    ReachableBook(es);
  }
}
