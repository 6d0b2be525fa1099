/** Settling one pending payment, in full or short, keeps every book invariant. */
module SettleKeeps {
  import opened Basics
  import opened Domain
  import opened Posting
  import opened Claims
  import opened Finalize
  import opened Invariants
  import opened Guards

  /** A share the loop may assign to a payment. */
  predicate ShareOk(p: Payment, s: Share) {
    || (s.status == Settled && s.settled == p.amount && s.reason == NoReason)
    || (s.status == PartiallySettled && 0 <= s.settled < p.amount)
  }

  lemma AllocateOk(p: Payment, remaining: int)
    requires p.amount > 0
    ensures ShareOk(p, Allocate(p.amount, remaining))
    ensures remaining >= 0 ==>
              Allocate(p.amount, remaining).settled == Min(p.amount, remaining)
              && Allocate(p.amount, remaining).left == remaining - Min(p.amount, remaining)
  {
  }

  /** The settled payment with its new row. */
  function After(p: Payment, s: Share, now: Time): Payment { Finalized(p, s.status, s.settled, s.reason, now) }

  lemma SettleParts(b: Book, id: nat, s: Share, now: Time)
    requires id < |b.pays| && b.pays[id].amount > 0 && SettleOne(b, id, s, now).Some?
    requires AnchorOf(b.rows, OfPayment(id)).Some?
    ensures ApplyLegs(b.bal, SettlementLegs(b.pays[id], s.settled)).Some?
    ensures var a := Anchor(b.rows, OfPayment(id));
            SettleOne(b, id, s, now).value
            == b.(bal := ApplyLegs(b.bal, SettlementLegs(b.pays[id], s.settled)).value,
                  pays := b.pays[id := After(b.pays[id], s, now)],
                  rows := FlipGroup(b.rows, b.rows[a].group, RowCompleted, Some(s.settled), s.reason),
                  ledger := b.ledger + Stamp(a, SettlementLegs(b.pays[id], s.settled)))
  {
  }

  lemma SettlementLegsPostable(p: Payment, settled: int)
    requires 0 <= settled <= p.amount && p.amount > 0
    ensures PostableLegs(SettlementLegs(p, settled))
  {
  }

  lemma SettleTwoPhase(bal: Balances, pays: seq<Payment>, id: nat, s: Share, now: Time)
    requires id < |pays| && TwoPhase(bal, pays) && pays[id].status == Pending && pays[id].amount > 0
             && ShareOk(pays[id], s)
    requires ApplyLegs(bal, SettlementLegs(pays[id], s.settled)).Some?
    ensures TwoPhase(ApplyLegs(bal, SettlementLegs(pays[id], s.settled)).value, pays[id := After(pays[id], s, now)])
  {
    var p := pays[id];
    var bal' := ApplyLegs(bal, SettlementLegs(p, s.settled)).value;
    var p' := After(p, s, now);
    ApplyEffect(bal, SettlementLegs(p, s.settled));
    SumUpdate(pays, id, p', PendingAmount());
    NetSettlement(p, s.settled, Suspense);
    assert Suspense in bal.Keys;
    forall u | PendingOf(u) in bal' ensures bal'[PendingOf(u)] == Sum(pays[id := p'], OwedTo(u)) {
      assert PendingOf(u) in bal.Keys;
      SumUpdate(pays, id, p', OwedTo(u));
      NetSettlement(p, s.settled, PendingOf(u));
    }
  }

  lemma FlipKeepsAnchor(rows: seq<TxnRow>, g: nat, st: RowStatus, x: Option<int>, r: Reason, source: Source)
    ensures Anchor(FlipGroup(rows, g, st, x, r), source) == Anchor(rows, source)
  {
    AnchorFlip(rows, FlipGroup(rows, g, st, x, r), source);
  }

  /** Flipping another record's group, and posting under its anchor, leaves a payment's pair alone. */
  lemma FlipKeepsPayment(rows: seq<TxnRow>, ledger: seq<Entry>, i: nat, p: Payment,
                         a: nat, st: RowStatus, x: Option<int>, r: Reason, legs: seq<LedgerLeg>)
    requires PaymentLinked(rows, ledger, i, p) && a < |rows| && rows[a].source != OfPayment(i)
    ensures PaymentLinked(FlipGroup(rows, a, st, x, r), ledger + Stamp(a, legs), i, p)
  {
    FlipKeepsAnchor(rows, a, st, x, r, OfPayment(i));
    PostLeavesOthers(ledger, a, legs);
  }

  lemma FlipKeepsTransfer(rows: seq<TxnRow>, ledger: seq<Entry>, i: nat, t: Transfer,
                          a: nat, st: RowStatus, x: Option<int>, r: Reason, legs: seq<LedgerLeg>)
    requires TransferLinked(rows, ledger, i, t) && a < |rows| && rows[a].source != OfTransfer(i)
    ensures TransferLinked(FlipGroup(rows, a, st, x, r), ledger + Stamp(a, legs), i, t)
  {
    FlipKeepsAnchor(rows, a, st, x, r, OfTransfer(i));
    PostLeavesOthers(ledger, a, legs);
  }

  /** The settled payment's own pair and legs follow its new state. */
  lemma FlipOwn(rows: seq<TxnRow>, ledger: seq<Entry>, i: nat, p: Payment, s: Share, now: Time)
    requires PaymentLinked(rows, ledger, i, p) && p.status == Pending && p.reason == NoReason && ShareOk(p, s)
    ensures var a := Anchor(rows, OfPayment(i));
            PaymentLinked(FlipGroup(rows, a, RowCompleted, Some(s.settled), s.reason),
                          ledger + Stamp(a, SettlementLegs(p, s.settled)), i, After(p, s, now))
  {
    var a := Anchor(rows, OfPayment(i));
    FlipKeepsAnchor(rows, a, RowCompleted, Some(s.settled), s.reason, OfPayment(i));
    PostLeavesOthers(ledger, a, SettlementLegs(p, s.settled));
    assert ClaimLegs(p.payee, p.amount) + [] == ClaimLegs(p.payee, p.amount);
  }

  lemma SettleLinked(rows: seq<TxnRow>, ledger: seq<Entry>, pays: seq<Payment>, transfers: seq<Transfer>,
          id: nat, s: Share, now: Time)
    requires LinkedOk(rows, ledger, pays, transfers) && id < |pays|
    requires pays[id].status == Pending && pays[id].reason == NoReason && ShareOk(pays[id], s)
    ensures var a := Anchor(rows, OfPayment(id));
            LinkedOk(FlipGroup(rows, a, RowCompleted, Some(s.settled), s.reason),
                     ledger + Stamp(a, SettlementLegs(pays[id], s.settled)), pays[id := After(pays[id], s, now)],
                         transfers)
  {
    var a := Anchor(rows, OfPayment(id));
    var legs := SettlementLegs(pays[id], s.settled);
    var rows' := FlipGroup(rows, a, RowCompleted, Some(s.settled), s.reason);
    assert PaymentLinked(rows, ledger, id, pays[id]);
    assert rows[a].source == OfPayment(id);
    var pays' := pays[id := After(pays[id], s, now)];
    forall i: nat | i < |pays'| ensures PaymentLinked(rows', ledger + Stamp(a, legs), i, pays'[i]) {
      if i == id {
        FlipOwn(rows, ledger, id, pays[id], s, now);
      } else {
        FlipKeepsPayment(rows, ledger, i, pays[i], a, RowCompleted, Some(s.settled), s.reason, legs);
      }
    }
    forall i: nat | i < |transfers| ensures TransferLinked(rows', ledger + Stamp(a, legs), i, transfers[i]) {
      FlipKeepsTransfer(rows, ledger, i, transfers[i], a, RowCompleted, Some(s.settled), s.reason, legs);
    }
  }

  lemma SettlePayments(bal: Balances, pays: seq<Payment>, n: nat, id: nat, s: Share, now: Time)
    requires PaymentsOk(bal, pays, n) && id < |pays| && ShareOk(pays[id], s)
    ensures PaymentsOk(bal, pays[id := After(pays[id], s, now)], n)
  {
  }

  lemma FlipKeepsRows(rows: seq<TxnRow>, g: nat, st: RowStatus, x: Option<int>, r: Reason, np: nat, nt: nat)
    requires RowsOk(rows, np, nt)
    ensures RowsOk(FlipGroup(rows, g, st, x, r), np, nt)
  {
  }

  lemma SettlePartsKeepBook(b: Book, id: nat, s: Share, now: Time)
    requires BookOk(b) && id < |b.pays| && b.pays[id].status == Pending && ShareOk(b.pays[id], s)
    requires ApplyLegs(b.bal, SettlementLegs(b.pays[id], s.settled)).Some?
    ensures var a := Anchor(b.rows, OfPayment(id));
            BookOk(b.(bal := ApplyLegs(b.bal, SettlementLegs(b.pays[id], s.settled)).value,
                      pays := b.pays[id := After(b.pays[id], s, now)],
                      rows := FlipGroup(b.rows, a, RowCompleted, Some(s.settled), s.reason),
                      ledger := b.ledger + Stamp(a, SettlementLegs(b.pays[id], s.settled))))
  {
    var p := b.pays[id];
    assert PaymentOk(b.bal, p, |b.ceils|);
    var a := Anchor(b.rows, OfPayment(id));
    assert PaymentLinked(b.rows, b.ledger, id, p);
    var legs := SettlementLegs(p, s.settled);
    NetSettlement(p, s.settled, Suspense);
    SettlementLegsPostable(p, s.settled);
    PostKeepsMoney(b.bal, b.ledger, b.transfers, |b.rows|, a, legs);
    ApplyEffect(b.bal, legs);
    SettlePayments(b.bal, b.pays, |b.ceils|, id, s, now);
    SameAccountsKeepPayments(b.bal, ApplyLegs(b.bal, legs).value, b.pays[id := After(p, s, now)], |b.ceils|, |b.ceils|);
    SettleTwoPhase(b.bal, b.pays, id, s, now);
    FlipKeepsRows(b.rows, a, RowCompleted, Some(s.settled), s.reason, |b.pays|, |b.transfers|);
    SettleLinked(b.rows, b.ledger, b.pays, b.transfers, id, s, now);
  }

  lemma PendingPaymentFacts(b: Book, id: nat)
    requires BookOk(b) && id < |b.pays|
    ensures PaymentOk(b.bal, b.pays[id], |b.ceils|)
    ensures AnchorOf(b.rows, OfPayment(id)) == Some(Anchor(b.rows, OfPayment(id)))
    ensures b.rows[Anchor(b.rows, OfPayment(id))].group == Anchor(b.rows, OfPayment(id))
  {
    assert PaymentLinked(b.rows, b.ledger, id, b.pays[id]);
  }

  lemma SettleKeepsBook(b: Book, id: nat, s: Share, now: Time)
    requires BookOk(b) && id < |b.pays| && b.pays[id].status == Pending && ShareOk(b.pays[id], s)
    requires SettleOne(b, id, s, now).Some?
    ensures BookOk(SettleOne(b, id, s, now).value)
  {
    PendingPaymentFacts(b, id);
    SettleParts(b, id, s, now);
    SettlePartsKeepBook(b, id, s, now);
  }

  // ------------------------------------------------------------- which guards can fail

  /** The settled half of a settlement needs only the lien, once pending covers it. */
  lemma SettledGuard(bal: Balances, lien: Account, pend: Account, main: Account, s: int)
    requires s > 0 && lien.LienOf? && pend.PendingOf? && main.MainOf?
    requires {lien, Suspense, pend, main} <= bal.Keys && bal[pend] >= s
    ensures var legs := [LedgerLeg(lien, Debit, s), LedgerLeg(Suspense, Credit, s), LedgerLeg(pend, Debit, s),
            LedgerLeg(main, Credit, s)];
            var r := ApplyLegs(bal, legs);
            && (r.Some? <==> bal[lien] >= s)
            && (r.Some? ==> r.value.Keys == bal.Keys && r.value[pend] == bal[pend] - s)
  {
    var x1 := [LedgerLeg(lien, Debit, s), LedgerLeg(Suspense, Credit, s)];
    var x2 := [LedgerLeg(pend, Debit, s), LedgerLeg(main, Credit, s)];
    assert x1 + x2 == [LedgerLeg(lien, Debit, s), LedgerLeg(Suspense, Credit, s), LedgerLeg(pend, Debit, s),
        LedgerLeg(main, Credit, s)];
    hide ApplyLegs, ApplyLeg;
    ApplyConcat(bal, x1, x2);
    ApplyPair(bal, lien, Suspense, s);
    if bal[lien] >= s {
      ApplyPair(bal[lien := bal[lien] - s][Suspense := bal[Suspense] + s], pend, main, s);
    }
  }

  /** With the payee's pending account covering the amount, only the lien guard can fail. */
  lemma SettlementGuard(bal: Balances, p: Payment, s: int)
    requires 0 <= s <= p.amount && p.amount > 0
    requires {LienOf(p.payer), Suspense, PendingOf(p.payee), MainOf(p.payee)} <= bal.Keys
    requires bal[PendingOf(p.payee)] >= p.amount
    ensures ApplyLegs(bal, SettlementLegs(p, s)).Some? <==> (s > 0 ==> bal[LienOf(p.payer)] >= s)
  {
    var lien, pend, main, rest := LienOf(p.payer), PendingOf(p.payee), MainOf(p.payee), p.amount - s;
    var x := if s > 0 then [LedgerLeg(lien, Debit, s), LedgerLeg(Suspense, Credit, s), LedgerLeg(pend, Debit, s),
        LedgerLeg(main, Credit, s)] else [];
    var y := if rest > 0 then [LedgerLeg(pend, Debit, rest), LedgerLeg(Suspense, Credit, rest)] else [];
    assert SettlementLegs(p, s) == x + y;
    assert s == 0 ==> ApplyLegs(bal, x) == Some(bal);
    hide ApplyLegs, ApplyLeg, SettlementLegs;
    if s > 0 {
      SettledGuard(bal, lien, pend, main, s);
    }
    ApplyConcat(bal, x, y);
    if rest > 0 && ApplyLegs(bal, x).Some? {
      ApplyPair(ApplyLegs(bal, x).value, pend, Suspense, rest);
    }
    assert rest > 0 && ApplyLegs(bal, x).Some? ==> ApplyLegs(ApplyLegs(bal, x).value, y).Some?;
    assert rest == 0 ==> x + y == x;
  }

  lemma OwedCovers(bal: Balances, pays: seq<Payment>, n: nat, id: nat)
    requires PaymentsOk(bal, pays, n) && TwoPhase(bal, pays) && id < |pays| && pays[id].status == Pending
    ensures PendingOf(pays[id].payee) in bal && bal[PendingOf(pays[id].payee)] >= pays[id].amount
  {
    var u := pays[id].payee;
    assert PaymentOk(bal, pays[id], n);
    forall i | 0 <= i < |pays| ensures OwedTo(u)(pays[i]) >= 0 {
      assert PaymentOk(bal, pays[i], n);
    }
    SumNonneg(pays, OwedTo(u));
    assert OwedTo(u)(pays[id]) == pays[id].amount;
  }

  lemma AllThreeAccounts(bal: Balances, u: UserId)
    requires Shape(bal) && (MainOf(u) in bal || PendingOf(u) in bal || LienOf(u) in bal)
    ensures {MainOf(u), LienOf(u), PendingOf(u)} <= bal.Keys
  {
    assert MainOf(u) in bal <==> LienOf(u) in bal;
    assert MainOf(u) in bal <==> PendingOf(u) in bal;
  }

  /** The pending account of a payee always covers each amount pending to it. */
  lemma PendingCovers(b: Book, id: nat)
    requires BookOk(b) && id < |b.pays| && b.pays[id].status == Pending
    ensures {LienOf(b.pays[id].payer), Suspense, PendingOf(b.pays[id].payee), MainOf(b.pays[id].payee)} <= b.bal.Keys
    ensures b.bal[PendingOf(b.pays[id].payee)] >= b.pays[id].amount
  {
    assert Suspense in b.bal && Shape(b.bal);
    hide TwoPhase, LinkedOk, RowsOk, TransfersOk, Shape, LedgerMatch, AllBalanced, LedgerKnows, EntriesOk, Total,
        UniqueKeys;
    assert PaymentOk(b.bal, b.pays[id], |b.ceils|);
    OwedCovers(b.bal, b.pays, |b.ceils|, id);
    AllThreeAccounts(b.bal, b.pays[id].payer);
    AllThreeAccounts(b.bal, b.pays[id].payee);
  }

  /** In a reachable book, settling a pending payment fails exactly when the lien is short:
      no guarded debit of a pending account can fail. */
  lemma SettleFailsOnlyOnLien(b: Book, id: nat, s: Share, now: Time)
    requires BookOk(b) && id < |b.pays| && b.pays[id].status == Pending && ShareOk(b.pays[id], s)
    ensures LienOf(b.pays[id].payer) in b.bal
    ensures SettleOne(b, id, s, now).Some? <==> b.bal[LienOf(b.pays[id].payer)] >= s.settled
  {
    PendingPaymentFacts(b, id);
    PendingCovers(b, id);
    SettlementGuard(b.bal, b.pays[id], s.settled);
    SettlementLegsPostable(b.pays[id], s.settled);
    LienNonneg(b, b.pays[id].payer);
  }

  lemma LienNonneg(b: Book, u: UserId)
    requires BookOk(b) && LienOf(u) in b.bal
    ensures b.bal[LienOf(u)] >= 0
  {
  }
}
