/** Accepting a claim keeps every book invariant. */
module AcceptKeeps {
  import opened Basics
  import opened Domain
  import opened Posting
  import opened Claims
  import opened Invariants
  import opened Guards

  lemma AcceptTwoPhase(bal: Balances, pays: seq<Payment>, x: Payment)
    requires TwoPhase(bal, pays) && x.status == Pending
    requires ApplyLegs(bal, ClaimLegs(x.payee, x.amount)).Some?
    ensures TwoPhase(ApplyLegs(bal, ClaimLegs(x.payee, x.amount)).value, pays + [x])
  {
    var legs := ClaimLegs(x.payee, x.amount);
    var bal' := ApplyLegs(bal, legs).value;
    ApplyEffect(bal, legs);
    SumPush(pays, x, PendingAmount());
    NetClaim(x.payee, x.amount, Suspense);
    assert Suspense in bal.Keys;
    forall u | PendingOf(u) in bal' ensures bal'[PendingOf(u)] == Sum(pays + [x], OwedTo(u)) {
      assert PendingOf(u) in bal.Keys;
      SumPush(pays, x, OwedTo(u));
      NetClaim(x.payee, x.amount, PendingOf(u));
    }
  }

  lemma AcceptLinked(rows: seq<TxnRow>, ledger: seq<Entry>, pays: seq<Payment>, transfers: seq<Transfer>, x: Payment)
    requires LinkedOk(rows, ledger, pays, transfers) && RowsOk(rows, |pays|, |transfers|) && EntriesOk(ledger, |rows|)
    requires x.status == Pending && x.settled == 0 && x.reason == NoReason
    ensures LinkedOk(rows
            + [SentRow(x.payer, x.payee, x.amount, |rows|, |pays|),
                ReceivedRow(x.payer, x.payee, x.amount, |rows|, |pays|)],
                     ledger + Stamp(|rows|, ClaimLegs(x.payee, x.amount)), pays + [x], transfers)
  {
    var id, anchor := |pays|, |rows|;
    var debit, credit := SentRow(x.payer, x.payee, x.amount, anchor, id),
        ReceivedRow(x.payer, x.payee, x.amount, anchor, id);
    var legs := ClaimLegs(x.payee, x.amount);
    var ledger' := ledger + Stamp(anchor, legs);
    PostLeavesOthers(ledger, anchor, legs);
    AppendKeepsLinked(rows, [debit, credit], ledger, ledger', pays, transfers);
    LegsOfUnused(ledger, anchor);
    NoAnchorYet(rows, OfPayment(id));
    AnchorFresh(rows, debit, credit, OfPayment(id));
    assert PaymentLinked(rows + [debit, credit], ledger', id, x);
  }

  lemma AcceptPayments(bal: Balances, pays: seq<Payment>, n: nat, x: Payment)
    requires PaymentsOk(bal, pays, n) && PaymentOk(bal, x, n)
    requires forall i | 0 <= i < |pays| :: !(pays[i].payer == x.payer && pays[i].seqNo == x.seqNo)
    requires forall i | 0 <= i < |pays| :: !(pays[i].payee == x.payee && pays[i].nonce == x.nonce)
    ensures PaymentsOk(bal, pays + [x], n)
  {
  }

  lemma PairKeepsRows(rows: seq<TxnRow>, debit: TxnRow, credit: TxnRow, np: nat, nt: nat, np': nat, nt': nat)
    requires RowsOk(rows, np, nt) && np <= np' && nt <= nt'
    requires debit.group == credit.group == |rows| && debit.source == credit.source
    requires debit.source.OfPayment? ==> debit.source.id < np'
    requires debit.source.OfTransfer? ==> debit.source.id < nt'
    ensures RowsOk(rows + [debit, credit], np', nt')
  {
  }

  lemma AcceptKeepsMoney(bal: Balances, ledger: seq<Entry>, transfers: seq<Transfer>, nrows: nat, payee: UserId,
          amount: int)
    requires MoneyOk(bal, ledger, transfers, nrows) && amount > 0 && ApplyLegs(bal, ClaimLegs(payee, amount)).Some?
    ensures MoneyOk(ApplyLegs(bal, ClaimLegs(payee, amount)).value, ledger + Stamp(nrows, ClaimLegs(payee, amount)),
            transfers, nrows + 2)
  {
    var legs := ClaimLegs(payee, amount);
    NetClaim(payee, amount, Suspense);
    MoreRowsKeepMoney(bal, ledger, transfers, nrows, nrows + 2);
    PostKeepsMoney(bal, ledger, transfers, nrows + 2, nrows, legs);
  }

  /** The book after an accepted claim, part by part. */
  lemma AcceptParts(b: Book, p: PaymentToken, submitter: UserId, batch: nat, now: Time)
    requires Accept(b, p, submitter, batch, now).Some?
    ensures Insertable(b, p) && ApplyLegs(b.bal, ClaimLegs(p.payee, p.amount)).Some?
    ensures Accept(b, p, submitter, batch, now).value
         == b.(bal := ApplyLegs(b.bal, ClaimLegs(p.payee, p.amount)).value,
               pays := b.pays + [NewPayment(p, submitter, batch, now)],
               rows := b.rows + [SentRow(p.payer, p.payee, p.amount, |b.rows|, |b.pays|),
                                 ReceivedRow(p.payer, p.payee, p.amount, |b.rows|, |b.pays|)],
               ledger := b.ledger + Stamp(|b.rows|, ClaimLegs(p.payee, p.amount)))
  {
  }

  lemma AcceptKeepsBook(b: Book, p: PaymentToken, submitter: UserId, batch: nat, now: Time)
    requires BookOk(b) && Accept(b, p, submitter, batch, now).Some?
    ensures BookOk(Accept(b, p, submitter, batch, now).value)
  {
    AcceptParts(b, p, submitter, batch, now);
    var x := NewPayment(p, submitter, batch, now);
    AcceptPayments(b.bal, b.pays, |b.ceils|, x);
    AcceptPartsKeepBook(b, x);
  }

  lemma AcceptPartsKeepBook(b: Book, x: Payment)
    requires BookOk(b) && PaymentsOk(b.bal, b.pays + [x], |b.ceils|) && EntriesOk(b.ledger, |b.rows|)
    requires ApplyLegs(b.bal, ClaimLegs(x.payee, x.amount)).Some?
    requires x.amount > 0 && x.status == Pending && x.settled == 0 && x.reason == NoReason
    ensures BookOk(b.(bal := ApplyLegs(b.bal, ClaimLegs(x.payee, x.amount)).value,
                      pays := b.pays + [x],
                      rows := b.rows + [SentRow(x.payer, x.payee, x.amount, |b.rows|, |b.pays|),
                                        ReceivedRow(x.payer, x.payee, x.amount, |b.rows|, |b.pays|)],
                      ledger := b.ledger + Stamp(|b.rows|, ClaimLegs(x.payee, x.amount))))
  {
    hide MoneyOk, TwoPhase, LinkedOk, PaymentsOk, RowsOk, TransfersOk, EntriesOk, ApplyLegs;
    var legs := ClaimLegs(x.payee, x.amount);
    var debit, credit := SentRow(x.payer, x.payee, x.amount, |b.rows|, |b.pays|),
        ReceivedRow(x.payer, x.payee, x.amount, |b.rows|, |b.pays|);
    AcceptKeepsMoney(b.bal, b.ledger, b.transfers, |b.rows|, x.payee, x.amount);
    ApplyEffect(b.bal, legs);
    SameAccountsKeepPayments(b.bal, ApplyLegs(b.bal, legs).value, b.pays + [x], |b.ceils|, |b.ceils|);
    AcceptTwoPhase(b.bal, b.pays, x);
    PairKeepsRows(b.rows, debit, credit, |b.pays|, |b.transfers|, |b.pays| + 1, |b.transfers|);
    AcceptLinked(b.rows, b.ledger, b.pays, b.transfers, x);
  }

  /** No claim whose payee has accounts ever fails for a balance: suspense may go below zero. */
  lemma AcceptNeverShort(b: Book, p: PaymentToken, submitter: UserId, batch: nat, now: Time)
    requires BookOk(b)
    ensures Accept(b, p, submitter, batch, now).Some? <==> Insertable(b, p)
  {
    assert Suspense in b.bal;
    hide BookOk;
    if Insertable(b, p) {
      ApplyPair(b.bal, Suspense, PendingOf(p.payee), p.amount);
      assert PostableLegs(ClaimLegs(p.payee, p.amount));
    }
  }
}
