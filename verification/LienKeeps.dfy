/** The lien invariant, step by step: under every live ceiling, what is left of the lien plus what has
    been settled is the ceiling's amount, or at least no more than that. The exact form breaks when
    the sweep releases a ceiling that is live no more, either form when a claim is accepted under a
    ceiling that is not its payer's or not live. */
module LienKeeps {
  import opened Basics
  import opened Domain
  import opened Posting
  import opened Claims
  import opened Finalize
  import opened Wallet
  import opened Transfers
  import opened Invariants
  import opened SettleKeeps
  import opened AcceptKeeps
  import opened WalletKeeps
  import opened Draining
  import opened Finalizing
  import opened OverSettling

  /** The lien under ceiling i. */
  ghost predicate Backed(bal: Balances, pays: seq<Payment>, ceils: seq<Ceiling>, i: nat, exact: bool)
    requires i < |ceils|
  {
    && LienOf(ceils[i].payer) in bal && bal[LienOf(ceils[i].payer)] + SettledTotal(pays, i) <= ceils[i].amount
    && (exact ==> bal[LienOf(ceils[i].payer)] + SettledTotal(pays, i) == ceils[i].amount)
  }

  /** The same lien accounts with the same balances. */
  ghost predicate SameLiens(bal: Balances, bal': Balances) {
    forall a: Account | a.LienOf? :: (a in bal <==> a in bal') && (a in bal ==> bal'[a] == bal[a])
  }

  lemma SameLiensKeep(bal: Balances, bal': Balances, pays: seq<Payment>, ceils: seq<Ceiling>, exact: bool)
    requires LienBacksCeilings(bal, pays, ceils, exact) && SameLiens(bal, bal')
    ensures LienBacksCeilings(bal', pays, ceils, exact)
  {
    forall i: nat | i < |ceils| && IsLive(ceils[i])
      ensures Backed(bal', pays, ceils, i, exact)
    {
      assert LienOf(ceils[i].payer) in bal;
    }
    forall u | LienOf(u) in bal' && !HasLiveCeiling(ceils, u) ensures bal'[LienOf(u)] == 0 {
      assert LienOf(u) in bal;
    }
  }

  /** The lien under a live ceiling, in numbers. */
  lemma LiveLien(b: Book, c: nat, exact: bool)
    requires BookOk(b) && LienOk(b, exact) && c < |b.ceils| && IsLive(b.ceils[c])
    ensures LienOf(b.ceils[c].payer) in b.bal && MainOf(b.ceils[c].payer) in b.bal
    ensures b.bal[LienOf(b.ceils[c].payer)] + SettledTotal(b.pays, c) <= b.ceils[c].amount
    ensures exact ==> b.bal[LienOf(b.ceils[c].payer)] + SettledTotal(b.pays, c) == b.ceils[c].amount
    ensures b.bal[LienOf(b.ceils[c].payer)] >= 0 && SettledTotal(b.pays, c) >= 0
  {
    hide MoneyOk, TwoPhase, LinkedOk, PaymentsOk, RowsOk, TransfersOk, CeilingsOk;
    assert LienOf(b.ceils[c].payer) in b.bal;
    hide LienOk, SettledTotal;
    LienNonneg(b, b.ceils[c].payer);
    SettledNonneg(b, c);
    AccountsTogether(b, b.ceils[c].payer);
  }

  lemma AccountsTogether(b: Book, u: UserId)
    requires BookOk(b) && (MainOf(u) in b.bal || PendingOf(u) in b.bal || LienOf(u) in b.bal)
    ensures {MainOf(u), LienOf(u), PendingOf(u)} <= b.bal.Keys
  {
    assert Shape(b.bal);
    hide BookOk;
    AllThreeAccounts(b.bal, u);
  }

  lemma AmountsPositive(b: Book, i: nat)
    requires BookOk(b) && i < |b.pays|
    ensures b.pays[i].amount > 0 && 0 <= b.pays[i].settled <= b.pays[i].amount && b.pays[i].ceiling < |b.ceils|
  {
    assert PaymentOk(b.bal, b.pays[i], |b.ceils|);
  }

  lemma SettledNonneg(b: Book, c: nat)
    requires BookOk(b)
    ensures SettledTotal(b.pays, c) >= 0
  {
    hide BookOk;
    forall i | 0 <= i < |b.pays| ensures SettledUnder(c)(b.pays[i]) >= 0 {
      AmountsPositive(b, i);
    }
    SumNonneg(b.pays, SettledUnder(c));
  }

  lemma RestateStaysLive(ceils: seq<Ceiling>, c: nat, x: Ceiling, u: UserId)
    requires c < |ceils|
    ensures HasLiveCeiling(ceils, u) && u != ceils[c].payer ==> HasLiveCeiling(ceils[c := x], u)
  {
    if HasLiveCeiling(ceils, u) && u != ceils[c].payer {
      var i :| 0 <= i < |ceils| && ceils[i].payer == u && IsLive(ceils[i]);
      assert ceils[c := x][i] == ceils[i];
    }
  }

  lemma DeadStaysLive(ceils: seq<Ceiling>, c: nat, x: Ceiling, u: UserId)
    requires c < |ceils| && !IsLive(ceils[c])
    ensures HasLiveCeiling(ceils, u) ==> HasLiveCeiling(ceils[c := x], u)
  {
    if HasLiveCeiling(ceils, u) {
      var i :| 0 <= i < |ceils| && ceils[i].payer == u && IsLive(ceils[i]);
      assert ceils[c := x][i] == ceils[i];
    }
  }

  lemma PushStaysLive(ceils: seq<Ceiling>, x: Ceiling, u: UserId)
    ensures HasLiveCeiling(ceils, u) || (IsLive(x) && x.payer == u) ==> HasLiveCeiling(ceils + [x], u)
  {
    assert (ceils + [x])[|ceils|] == x;
    if HasLiveCeiling(ceils, u) {
      var i :| 0 <= i < |ceils| && ceils[i].payer == u && IsLive(ceils[i]);
      assert (ceils + [x])[i] == ceils[i];
    }
  }

  // ------------------------------------------------------------------ settling

  /** One settlement under the payer's live ceiling takes from the lien what it adds to the
      settled total. */
  lemma SettleBacks(bal: Balances, bal': Balances, pays: seq<Payment>, ceils: seq<Ceiling>, id: nat, p': Payment,
      exact: bool)
    requires LienBacksCeilings(bal, pays, ceils, exact) && OneLivePerPayer(ceils)
    requires id < |pays| && p'.ceiling == pays[id].ceiling && pays[id].settled == 0
    requires pays[id].ceiling < |ceils| && IsLive(ceils[pays[id].ceiling])
             && ceils[pays[id].ceiling].payer == pays[id].payer
    requires forall u :: LienOf(u) in bal <==> LienOf(u) in bal'
    requires forall u | LienOf(u) in bal ::
             bal'[LienOf(u)] == bal[LienOf(u)] - if u == pays[id].payer then p'.settled else 0
    ensures LienBacksCeilings(bal', pays[id := p'], ceils, exact)
  {
    var c := pays[id].ceiling;
    forall i: nat | i < |ceils| && IsLive(ceils[i])
      ensures Backed(bal', pays[id := p'], ceils, i, exact)
    {
      SettledTotalUpdate(pays, id, p', i);
      assert i != c ==> ceils[i].payer != ceils[c].payer;
      assert LienOf(ceils[i].payer) in bal;
    }
    forall u | LienOf(u) in bal' && !HasLiveCeiling(ceils, u) ensures bal'[LienOf(u)] == 0 {
      assert LienOf(u) in bal;
    }
  }

  /** A live ceiling cannot be over-settled while its lien is not negative. */
  lemma SettleBounded(bal': Balances, pays: seq<Payment>, ceils: seq<Ceiling>, id: nat, p': Payment, exact: bool)
    requires CeilingsBounded(pays, ceils) && id < |pays| && p'.ceiling == pays[id].ceiling
    requires pays[id].ceiling < |ceils| && IsLive(ceils[pays[id].ceiling])
    requires LienBacksCeilings(bal', pays[id := p'], ceils, exact)
    requires forall u | LienOf(u) in bal' :: bal'[LienOf(u)] >= 0
    ensures CeilingsBounded(pays[id := p'], ceils)
  {
    forall i: nat | i < |ceils|
      ensures SettledTotal(pays[id := p'], i) <= ceils[i].amount
      ensures ceils[i].status == Exhausted ==> SettledTotal(pays[id := p'], i) == ceils[i].amount
    {
      SettledTotalUpdate(pays, id, p', i);
      if i == pays[id].ceiling {
        assert IsLive(ceils[i]) && LienOf(ceils[i].payer) in bal';
      }
    }
  }

  /** What one settlement does to the liens. */
  lemma SettleLiens(b: Book, id: nat, s: Share, now: Time)
    requires BookOk(b) && id < |b.pays| && b.pays[id].status == Pending && ShareOk(b.pays[id], s)
    requires SettleOne(b, id, s, now).Some?
    ensures var b' := SettleOne(b, id, s, now).value;
            && b'.pays == b.pays[id := After(b.pays[id], s, now)] && b'.ceils == b.ceils
            && (forall u :: LienOf(u) in b.bal <==> LienOf(u) in b'.bal)
            && (forall u | LienOf(u) in b.bal ::
               b'.bal[LienOf(u)] == b.bal[LienOf(u)] - if u == b.pays[id].payer then s.settled else 0)
            && (forall u | LienOf(u) in b'.bal :: b'.bal[LienOf(u)] >= 0)
  {
    hide BookOk, SettleOne;
    var p := b.pays[id];
    PendingPaymentFacts(b, id);
    SettleParts(b, id, s, now);
    SettleKeepsBook(b, id, s, now);
    var b' := SettleOne(b, id, s, now).value;
    ApplyEffect(b.bal, SettlementLegs(p, s.settled));
    forall u ensures LienOf(u) in b.bal <==> LienOf(u) in b'.bal {
      assert LienOf(u) in b'.bal.Keys <==> LienOf(u) in b.bal.Keys;
    }
    forall u | LienOf(u) in b.bal
      ensures b'.bal[LienOf(u)] == b.bal[LienOf(u)] - if u == p.payer then s.settled else 0
    {
      NetSettlement(p, s.settled, LienOf(u));
    }
    forall u | LienOf(u) in b'.bal ensures b'.bal[LienOf(u)] >= 0 {
      LienNonneg(b', u);
    }
  }

  lemma SettleKeepsLien(b: Book, id: nat, s: Share, now: Time, exact: bool)
    requires BookOk(b) && LienOk(b, exact) && id < |b.pays| && b.pays[id].status == Pending && ShareOk(b.pays[id], s)
    requires SettleOne(b, id, s, now).Some?
    ensures LienOk(SettleOne(b, id, s, now).value, exact)
  {
    hide BookOk, SettleOne, PendingBacked, CeilingsBounded, LienBacksCeilings, OneLivePerPayer;
    var p' := After(b.pays[id], s, now);
    PendingPaymentFacts(b, id);
    SettleLiens(b, id, s, now);
    var b' := SettleOne(b, id, s, now).value;
    PendingHasLive(b.pays, b.ceils, id);
    SettleBacks(b.bal, b'.bal, b.pays, b.ceils, id, p', exact);
    SettleBounded(b'.bal, b.pays, b.ceils, id, p', exact);
    FewerPending(b.pays, b.ceils, id, p');
  }

  lemma FewerPending(pays: seq<Payment>, ceils: seq<Ceiling>, id: nat, p': Payment)
    requires PendingBacked(pays, ceils) && id < |pays| && p'.status != Pending
    ensures PendingBacked(pays[id := p'], ceils)
  {
  }

  lemma PendingHasLive(pays: seq<Payment>, ceils: seq<Ceiling>, k: nat)
    requires PendingBacked(pays, ceils) && k < |pays| && pays[k].status == Pending
    ensures pays[k].ceiling < |ceils| && IsLive(ceils[pays[k].ceiling]) && ceils[pays[k].ceiling].payer == pays[k].payer
  {
  }

  lemma {:induction false} DrainKeepsLien(b: Book, ids: seq<nat>, r: int, now: Time, payer: UserId, exact: bool)
    requires BookOk(b) && LienOk(b, exact) && Drainable(b.pays, ids, payer) && r >= 0 && Drain(b, ids, r, now).Some?
    ensures LienOk(Drain(b, ids, r, now).value.book, exact)
    decreases |ids|
  {
    hide SettleOne, BookOk, LienOk;
    if ids != [] {
      var s := Allocate(b.pays[ids[0]].amount, r);
      DrainStep(b, ids, r, now, payer);
      AllocateOk(b.pays[ids[0]], r);
      SettleKeepsLien(b, ids[0], s, now, exact);
      var b1 := SettleOne(b, ids[0], s, now).value;
      TailAmounts(b.pays, b1.pays, ids, payer);
      DrainKeepsLien(b1, ids[1..], s.left, now, payer, exact);
    }
  }

  // ------------------------------------------------------------------ finalizing

  /** All of a payer's pending payments share one live ceiling. */
  lemma QueueSharesCeiling(b: Book, payer: UserId, i: nat, exact: bool)
    requires LienOk(b, exact) && Queue(b.pays, payer) != []
    requires i < |b.pays| && IsPendingOf(b.pays[i], payer)
    ensures b.pays[i].ceiling == CeilingInUse(b, payer) < |b.ceils|
    ensures IsLive(b.ceils[CeilingInUse(b, payer)]) && b.ceils[CeilingInUse(b, payer)].payer == payer
  {
    var c := CeilingInUse(b, payer);
    hide Queue;
    QueueDrainable(b.pays, payer);
    var first := Queue(b.pays, payer)[0];
    assert IsPendingOf(b.pays[first], payer);
    assert IsLive(b.ceils[b.pays[i].ceiling]) && IsLive(b.ceils[c]);
  }

  lemma QueueCeilingLive(b: Book, payer: UserId, exact: bool)
    requires LienOk(b, exact) && Queue(b.pays, payer) != []
    ensures CeilingInUse(b, payer) < |b.ceils|
    ensures IsLive(b.ceils[CeilingInUse(b, payer)]) && b.ceils[CeilingInUse(b, payer)].payer == payer
  {
    QueueDrainable(b.pays, payer);
    QueueSharesCeiling(b, payer, Queue(b.pays, payer)[0], exact);
  }

  /** Exhausting a fully settled ceiling whose lien is used up. */
  lemma ExhaustKeepsLien(b: Book, c: nat, exact: bool)
    requires LienOk(b, exact) && c < |b.ceils| && IsLive(b.ceils[c])
    requires LienOf(b.ceils[c].payer) in b.bal && b.bal[LienOf(b.ceils[c].payer)] == 0
    requires forall k | 0 <= k < |b.pays| && b.pays[k].status == Pending :: b.pays[k].payer != b.ceils[c].payer
    requires SettledTotal(b.pays, c) == b.ceils[c].amount
    ensures LienOk(b.(ceils := Exhaust(b.ceils, c)), exact)
  {
    RetireKeepsLien(b.bal, b.pays, b.ceils, c, Exhausted, exact);
  }

  /** A live ceiling may be retired once its lien is empty and nothing is pending under it. */
  lemma RetireKeepsLien(bal: Balances, pays: seq<Payment>, ceils: seq<Ceiling>, c: nat, terminal: CeilingStatus,
      exact: bool)
    requires OneLivePerPayer(ceils) && LienBacksCeilings(bal, pays, ceils, exact) && PendingBacked(pays, ceils)
          && CeilingsBounded(pays, ceils)
    requires c < |ceils| && IsLive(ceils[c]) && terminal !in {Active, RecoveryPending}
    requires LienOf(ceils[c].payer) in bal && bal[LienOf(ceils[c].payer)] == 0
    requires forall k | 0 <= k < |pays| && pays[k].status == Pending ::
             pays[k].ceiling != c || pays[k].payer != ceils[c].payer
    requires terminal == Exhausted ==> SettledTotal(pays, c) == ceils[c].amount
    ensures var ceils' := ceils[c := ceils[c].(status := terminal)];
            OneLivePerPayer(ceils') && LienBacksCeilings(bal, pays, ceils', exact) && PendingBacked(pays, ceils')
                && CeilingsBounded(pays, ceils')
  {
    var ceils' := ceils[c := ceils[c].(status := terminal)];
    forall i: nat | i < |ceils'| && IsLive(ceils'[i]) ensures Backed(bal, pays, ceils', i, exact) {
      assert Backed(bal, pays, ceils, i, exact);
    }
    forall u | LienOf(u) in bal && !HasLiveCeiling(ceils', u) ensures bal[LienOf(u)] == 0 {
      RestateStaysLive(ceils, c, ceils'[c], u);
    }
  }

  /** With the lien invariant: a finalize commits exactly when nothing was settled under the
      ceiling before, or everything still fits under it. */
  lemma FinalizeUnderLien(b: Book, payer: UserId, now: Time)
    requires BookOk(b) && LienOk(b, true) && Queue(b.pays, payer) != []
    ensures CeilingInUse(b, payer) < |b.ceils|
    ensures var c := CeilingInUse(b, payer);
            var settled, total := SettledTotal(b.pays, c), PendingTotal(b.pays, payer);
            FinalizeForPayer(b, payer, now).Committed? <==> settled == 0 || settled + total <= b.ceils[c].amount
  {
    hide Queue, BookOk, LienOk, FinalizeForPayer, SettledTotal, PendingTotal;
    CeilingStored(b, payer);
    QueueCeilingLive(b, payer, true);
    LiveLien(b, CeilingInUse(b, payer), true);
    FinalizeCommitsIff(b, payer, now);
    PendingPositive(b, payer);
  }

  lemma PendingPositive(b: Book, payer: UserId)
    requires BookOk(b)
    ensures PendingTotal(b.pays, payer) >= 0
    ensures Queue(b.pays, payer) != [] ==> PendingTotal(b.pays, payer) > 0
  {
    hide BookOk, Queue;
    forall i | 0 <= i < |b.pays| ensures b.pays[i].amount > 0 {
      AmountsPositive(b, i);
    }
    PendingPositiveSum(b.pays, payer);
    QueueEmpty(b.pays, payer);
  }

  lemma PendingPositiveSum(pays: seq<Payment>, payer: UserId)
    requires forall i | 0 <= i < |pays| :: pays[i].amount > 0
    ensures PendingTotal(pays, payer) >= 0
    ensures (exists i | 0 <= i < |pays| :: IsPendingOf(pays[i], payer)) ==> PendingTotal(pays, payer) > 0
  {
    SumNonneg(pays, OwedBy(payer));
    if i :| 0 <= i < |pays| && IsPendingOf(pays[i], payer) {
      assert OwedBy(payer)(pays[i]) > 0;
    }
  }

  lemma FinalizeKeepsLien(b: Book, payer: UserId, now: Time, exact: bool)
    requires BookOk(b) && LienOk(b, exact)
    ensures LienOk(BookAfter(b, FinalizeForPayer(b, payer, now)), exact)
  {
    var o := FinalizeForPayer(b, payer, now);
    if Queue(b.pays, payer) != [] && o.Committed? {
      QueueCeilingLive(b, payer, exact);
      FinalizeDrains(b, payer, now, exact);
    }
  }

  lemma FinalizeDrains(b: Book, payer: UserId, now: Time, exact: bool)
    requires BookOk(b) && LienOk(b, exact) && Queue(b.pays, payer) != [] && FinalizeForPayer(b, payer, now).Committed?
    requires CeilingInUse(b, payer) < |b.ceils| && IsLive(b.ceils[CeilingInUse(b, payer)])
          && b.ceils[CeilingInUse(b, payer)].payer == payer
    ensures LienOk(FinalizeForPayer(b, payer, now).book, exact)
  {
    var c := CeilingInUse(b, payer);
    hide Queue, BookOk, LienOk, Drain, FinalizeForPayer;
    QueueDrainable(b.pays, payer);
    CeilingStored(b, payer);
    FinalizeParts(b, payer, now);
    var d := Drain(b, Queue(b.pays, payer), b.ceils[c].amount, now).value;
    DrainKeepsLien(b, Queue(b.pays, payer), b.ceils[c].amount, now, payer, exact);
    var b' := FinalizeForPayer(b, payer, now).book;
    if d.left == 0 {
      DrainedDry(b, payer, now, exact);
      assert b'.bal == d.book.bal && b'.pays == d.book.pays;
      ExhaustKeepsLien(d.book, c, exact);
      assert b' == d.book.(ceils := Exhaust(d.book.ceils, c));
    } else {
      assert b' == d.book.(ceils := d.book.ceils);
    }
  }

  /** When the loop used up the whole ceiling, the lien is empty and nothing is left pending. */
  lemma DrainedDry(b: Book, payer: UserId, now: Time, exact: bool)
    requires BookOk(b) && LienOk(b, exact) && Queue(b.pays, payer) != [] && FinalizeForPayer(b, payer, now).Committed?
    requires CeilingInUse(b, payer) < |b.ceils| && IsLive(b.ceils[CeilingInUse(b, payer)])
          && b.ceils[CeilingInUse(b, payer)].payer == payer
    requires PendingTotal(b.pays, payer) >= b.ceils[CeilingInUse(b, payer)].amount
    ensures var b' := FinalizeForPayer(b, payer, now).book;
            && LienOf(payer) in b'.bal && b'.bal[LienOf(payer)] == 0
            && SettledTotal(b'.pays, CeilingInUse(b, payer)) == b.ceils[CeilingInUse(b, payer)].amount
            && (forall k | 0 <= k < |b'.pays| && b'.pays[k].status == Pending :: b'.pays[k].payer != payer)
  {
    hide Queue, BookOk, LienOk, FinalizeForPayer, SettledTotal, PendingTotal;
    CeilingStored(b, payer);
    LiveLien(b, CeilingInUse(b, payer), exact);
    FinalizeMoves(b, payer, now, LienOf(payer));
    FinalizeKeepsBook(b, payer, now);
    var b' := FinalizeForPayer(b, payer, now).book;
    LienNonneg(b', payer);
    FinalizeIdempotent(b, payer, now, now);
    forall i | 0 <= i < |b.pays| && IsPendingOf(b.pays[i], payer) ensures b.pays[i].ceiling == CeilingInUse(b, payer) {
      QueueSharesCeiling(b, payer, i, exact);
    }
    FinalizeAdds(b, payer, now);
  }

  // ------------------------------------------------------------------ the other steps

  lemma PushKeepsBacking(bal: Balances, pays: seq<Payment>, ceils: seq<Ceiling>, x: Payment, exact: bool)
    requires LienBacksCeilings(bal, pays, ceils, exact) && PendingBacked(pays, ceils) && CeilingsBounded(pays, ceils)
             && x.settled == 0
    requires x.ceiling < |ceils| && IsLive(ceils[x.ceiling]) && ceils[x.ceiling].payer == x.payer
    ensures LienBacksCeilings(bal, pays + [x], ceils, exact) && PendingBacked(pays + [x], ceils)
            && CeilingsBounded(pays + [x], ceils)
  {
    forall i: nat ensures SettledTotal(pays + [x], i) == SettledTotal(pays, i) {
      SumPush(pays, x, SettledUnder(i));
    }
  }

  lemma ClaimSameLiens(bal: Balances, payee: UserId, amount: int)
    requires ApplyLegs(bal, ClaimLegs(payee, amount)).Some?
    ensures SameLiens(bal, ApplyLegs(bal, ClaimLegs(payee, amount)).value)
  {
    var legs := ClaimLegs(payee, amount);
    var bal' := ApplyLegs(bal, legs).value;
    ApplyEffect(bal, legs);
    forall a: Account | a.LienOf? ensures (a in bal <==> a in bal') && (a in bal ==> bal'[a] == bal[a]) {
      NetClaim(payee, amount, a);
      assert a in bal.Keys <==> a in bal'.Keys;
    }
  }

  /** The stored ceiling a claim names belongs to the claim's payer. The service never compares the
      two: the id is not among the bank-signed fields, and of the stored row only the status is read. */
  predicate OwnCeiling(b: Book, item: ClaimItem) {
    item.ceiling.id < |b.ceils| ==> b.ceils[item.ceiling.id].payer == item.payment.payer
  }

  /** The stored ceiling a payment names belongs to its payer and is live. */
  predicate OwnLiveCeiling(b: Book, p: PaymentToken) {
    p.ceilingId < |b.ceils| && IsLive(b.ceils[p.ceilingId]) && b.ceils[p.ceilingId].payer == p.payer
  }

  lemma FreshFacts(b: Book, item: ClaimItem, submitter: UserId, batch: nat, now: Time)
    requires SubmitOne(b, item, submitter, batch, now).1.Fresh?
    ensures Validate(item, submitter, now) == Pass && item.payment.ceilingId == item.ceiling.id
            && item.payment.amount > 0
    ensures FindPayment(b.pays, item.payment.payer, item.payment.seqNo) == None
    ensures item.ceiling.id < |b.ceils| && CeilingGate(b.ceils[item.ceiling.id], now) == Pass
    ensures IsLive(b.ceils[item.ceiling.id])
    ensures Accept(b, item.payment, submitter, batch, now).Some? && Insertable(b, item.payment)
    ensures SubmitOne(b, item, submitter, batch, now).0 == Accept(b, item.payment, submitter, batch, now).value
  {
  }

  /** Exactly when an accepting transaction keeps the lien invariant: when the stored ceiling the payment
      names belongs to its payer and is still live. */
  lemma AcceptKeepsLienIff(b: Book, p: PaymentToken, submitter: UserId, batch: nat, now: Time, exact: bool)
    requires LienOk(b, exact) && Accept(b, p, submitter, batch, now).Some?
    ensures LienOk(Accept(b, p, submitter, batch, now).value, exact) <==> OwnLiveCeiling(b, p)
  {
    hide Accept, Insertable;
    AcceptParts(b, p, submitter, batch, now);
    var b' := Accept(b, p, submitter, batch, now).value;
    if OwnLiveCeiling(b, p) {
      ClaimSameLiens(b.bal, p.payee, p.amount);
      SameLiensKeep(b.bal, b'.bal, b.pays, b.ceils, exact);
      PushKeepsBacking(b'.bal, b.pays, b.ceils, NewPayment(p, submitter, batch, now), exact);
    } else {
      assert b'.pays[|b.pays|] == NewPayment(p, submitter, batch, now);
      assert !PendingBacked(b'.pays, b'.ceils);
    }
  }

  lemma SubmitKeepsLien(b: Book, item: ClaimItem, submitter: UserId, batch: nat, now: Time, exact: bool)
    requires LienOk(b, exact) && (SubmitOne(b, item, submitter, batch, now).1.Fresh? ==> OwnCeiling(b, item))
    ensures LienOk(SubmitOne(b, item, submitter, batch, now).0, exact)
  {
    hide Accept, Insertable, Validate, LienOk;
    if SubmitOne(b, item, submitter, batch, now).1.Fresh? {
      FreshFacts(b, item, submitter, batch, now);
      AcceptKeepsLienIff(b, item.payment, submitter, batch, now, exact);
    }
  }

  /** Exactly when a claim accepted in one go keeps the lien invariant: when the stored ceiling it names
      belongs to its payer. */
  lemma SubmitKeepsLienIff(b: Book, item: ClaimItem, submitter: UserId, batch: nat, now: Time, exact: bool)
    requires LienOk(b, exact) && SubmitOne(b, item, submitter, batch, now).1.Fresh?
    ensures item.ceiling.id < |b.ceils|
    ensures LienOk(SubmitOne(b, item, submitter, batch, now).0, exact)
            <==> b.ceils[item.ceiling.id].payer == item.payment.payer
  {
    hide Accept, Insertable, Validate, LienOk;
    FreshFacts(b, item, submitter, batch, now);
    AcceptKeepsLienIff(b, item.payment, submitter, batch, now, exact);
  }

  lemma MintKeepsLien(b: Book, user: UserId, amount: int, exact: bool)
    requires LienOk(b, exact) && Mint(b, user, amount).Some?
    ensures LienOk(Mint(b, user, amount).value, exact)
  {
    hide Move;
    var row := TxnRow(|b.rows|, user, None, DemoMint, RowCompleted, Credit, amount, None, OfMint, NoReason);
    MoveParts(b, row, Treasury, MainOf(user), amount);
    SameLiensKeep(b.bal, Mint(b, user, amount).value.bal, b.pays, b.ceils, exact);
  }

  lemma RegisterKeepsLien(b: Book, user: UserId, exact: bool)
    requires LienOk(b, exact) && Register(b, user).Some?
    ensures LienOk(Register(b, user).value, exact)
  {
    var bal' := Register(b, user).value.bal;
    forall u | LienOf(u) in bal' && !HasLiveCeiling(b.ceils, u) ensures bal'[LienOf(u)] == 0 {
      if u != user {
        assert LienOf(u) in b.bal;
      }
    }
  }

  lemma ProcessKeepsLien(b: Book, p: TransferPayload, exact: bool)
    requires LienOk(b, exact)
    ensures LienOk(ProcessTransfer(b, p).0, exact)
  {
    var b' := ProcessTransfer(b, p).0;
    assert SameLiens(b.bal, b'.bal) && b'.pays == b.pays && b'.ceils == b.ceils;
    hide ProcessTransfer;
    SameLiensKeep(b.bal, b'.bal, b.pays, b.ceils, exact);
  }

  lemma RecoverKeepsLien(b: Book, user: UserId, now: Time, exact: bool)
    requires LienOk(b, exact) && Recover(b, user, now).Some?
    ensures LienOk(Recover(b, user, now).value, exact)
  {
    var c := ActiveCeiling(b.ceils, user).value;
    var ceils' := Recover(b, user, now).value.ceils;
    assert forall i | 0 <= i < |ceils'| ::
        IsLive(ceils'[i]) == IsLive(b.ceils[i]) && ceils'[i].payer == b.ceils[i].payer;
    assert forall u :: HasLiveCeiling(ceils', u) == HasLiveCeiling(b.ceils, u) by {
      forall u ensures HasLiveCeiling(ceils', u) == HasLiveCeiling(b.ceils, u) {
        SameLiveness(b.ceils, ceils', u);
      }
    }
  }

  lemma SameLiveness(ceils: seq<Ceiling>, ceils': seq<Ceiling>, u: UserId)
    requires |ceils'| == |ceils|
    requires forall i | 0 <= i < |ceils| :: IsLive(ceils'[i]) == IsLive(ceils[i]) && ceils'[i].payer == ceils[i].payer
    ensures HasLiveCeiling(ceils', u) == HasLiveCeiling(ceils, u)
  {
    if HasLiveCeiling(ceils, u) {
      var i :| 0 <= i < |ceils| && ceils[i].payer == u && IsLive(ceils[i]);
      assert ceils'[i].payer == u && IsLive(ceils'[i]);
    }
  }

  lemma FundBacks(bal: Balances, bal': Balances, pays: seq<Payment>, ceils: seq<Ceiling>, x: Ceiling, exact: bool)
    requires OneLivePerPayer(ceils) && LienBacksCeilings(bal, pays, ceils, exact) && PendingBacked(pays, ceils)
          && CeilingsBounded(pays, ceils)
    requires !HasLiveCeiling(ceils, x.payer) && x.status == Active && x.amount > 0
    requires LienOf(x.payer) in bal && bal'.Keys == bal.Keys && bal'[LienOf(x.payer)] == x.amount
    requires forall u | u != x.payer && LienOf(u) in bal :: bal'[LienOf(u)] == bal[LienOf(u)]
    requires SettledTotal(pays, |ceils|) == 0
    ensures var ceils' := ceils + [x];
            OneLivePerPayer(ceils') && LienBacksCeilings(bal', pays, ceils', exact) && PendingBacked(pays, ceils')
                && CeilingsBounded(pays, ceils')
  {
    var ceils' := ceils + [x];
    forall i: nat | i < |ceils'| && IsLive(ceils'[i])
      ensures Backed(bal', pays, ceils', i, exact)
    {
      if i < |ceils| {
        assert IsLive(ceils[i]) && ceils[i].payer != x.payer;
        assert LienOf(ceils[i].payer) in bal.Keys;
      } else {
        assert LienOf(x.payer) in bal'.Keys;
      }
    }
    forall u | LienOf(u) in bal' && !HasLiveCeiling(ceils', u) ensures bal'[LienOf(u)] == 0 {
      assert LienOf(u) in bal'.Keys;
      PushStaysLive(ceils, x, u);
    }
  }

  lemma NothingUnderNewCeiling(b: Book)
    requires BookOk(b)
    ensures SettledTotal(b.pays, |b.ceils|) == 0
  {
    hide BookOk;
    forall i | 0 <= i < |b.pays| ensures SettledUnder(|b.ceils|)(b.pays[i]) == 0 {
      AmountsPositive(b, i);
    }
    SumZero(b.pays, SettledUnder(|b.ceils|));
  }

  lemma FundParts(b: Book, user: UserId, amount: int, expiresAt: Time)
    requires Fund(b, user, amount, expiresAt).Some?
    ensures amount > 0 && !HasLiveCeiling(b.ceils, user)
    ensures MainOf(user) in b.bal && LienOf(user) in b.bal && b.bal[MainOf(user)] >= amount
    ensures var b' := Fund(b, user, amount, expiresAt).value;
            && b'.bal == Moved(b.bal, MainOf(user), LienOf(user), amount)
            && b'.pays == b.pays && b'.ceils == b.ceils + [Ceiling(user, amount, 0, expiresAt, Active, None)]
  {
    hide Move;
    var x := Ceiling(user, amount, 0, expiresAt, Active, None);
    var row := WalletRow(b, user, OfflineFund, Debit, amount, OfCeiling(|b.ceils|));
    MoveParts(b.(ceils := b.ceils + [x]), row, MainOf(user), LienOf(user), amount);
  }

  lemma NoLienWithoutCeiling(b: Book, user: UserId, exact: bool)
    requires LienOk(b, exact) && LienOf(user) in b.bal && !HasLiveCeiling(b.ceils, user)
    ensures b.bal[LienOf(user)] == 0
  {
  }

  lemma FundKeepsLien(b: Book, user: UserId, amount: int, expiresAt: Time, exact: bool)
    requires BookOk(b) && LienOk(b, exact) && Fund(b, user, amount, expiresAt).Some?
    ensures LienOk(Fund(b, user, amount, expiresAt).value, exact)
  {
    hide BookOk, Fund, LienBacksCeilings, PendingBacked, CeilingsBounded, OneLivePerPayer, HasLiveCeiling, SettledTotal;
    FundParts(b, user, amount, expiresAt);
    NothingUnderNewCeiling(b);
    NoLienWithoutCeiling(b, user, exact);
    FundBacks(b.bal, Fund(b, user, amount, expiresAt).value.bal, b.pays, b.ceils,
        Ceiling(user, amount, 0, expiresAt, Active, None), exact);
  }

  lemma ReleaseEffect(b: Book, c: nat, terminal: CeilingStatus, kind: RowKind)
    requires c < |b.ceils| && LienOf(b.ceils[c].payer) in b.bal && MainOf(b.ceils[c].payer) in b.bal
    requires b.bal[LienOf(b.ceils[c].payer)] == Max(b.ceils[c].amount - SettledTotal(b.pays, c), 0)
    ensures var user := b.ceils[c].payer;
            var r := Release(b, c, terminal, kind);
            && r.Some?
            && r.value.bal == b.bal[LienOf(user) := 0][MainOf(user) := b.bal[MainOf(user)] + b.bal[LienOf(user)]]
            && r.value.pays == b.pays && r.value.ceils == b.ceils[c := b.ceils[c].(status := terminal)]
  {
    var user := b.ceils[c].payer;
    var left := Max(b.ceils[c].amount - SettledTotal(b.pays, c), 0);
    var row := WalletRow(b, user, kind, Credit, left, OfCeiling(c));
    hide Move, Release, SettledTotal;
    ReleaseParts(b, c, terminal, kind);
    if left > 0 {
      MoveSucceeds(b, row, LienOf(user), MainOf(user), left);
      MoveParts(b, row, LienOf(user), MainOf(user), left);
    } else {
      assert b.bal[LienOf(user) := 0][MainOf(user) := b.bal[MainOf(user)]] == b.bal;
    }
  }

  /** A live ceiling can always be released, and releasing it returns exactly the lien: the
      guarded debit cannot fail. */
  lemma ReleaseNeverFails(b: Book, c: nat, terminal: CeilingStatus, kind: RowKind)
    requires BookOk(b) && LienOk(b, true) && c < |b.ceils| && IsLive(b.ceils[c])
    ensures var user := b.ceils[c].payer;
            var r := Release(b, c, terminal, kind);
            && r.Some? && LienOf(user) in b.bal && MainOf(user) in b.bal
            && b.bal[LienOf(user)] == b.ceils[c].amount - SettledTotal(b.pays, c)
            && r.value.bal == b.bal[LienOf(user) := 0][MainOf(user) := b.bal[MainOf(user)] + b.bal[LienOf(user)]]
            && r.value.pays == b.pays && r.value.ceils == b.ceils[c := b.ceils[c].(status := terminal)]
  {
    hide BookOk, LienOk, Release, SettledTotal;
    LiveLien(b, c, true);
    ReleaseEffect(b, c, terminal, kind);
  }

  lemma EmptiedBacks(bal: Balances, bal': Balances, pays: seq<Payment>, ceils: seq<Ceiling>, c: nat,
          terminal: CeilingStatus, exact: bool)
    requires OneLivePerPayer(ceils) && LienBacksCeilings(bal, pays, ceils, exact) && PendingBacked(pays, ceils)
          && CeilingsBounded(pays, ceils)
    requires c < |ceils| && IsLive(ceils[c]) && terminal in {CeilingExpired, Revoked} && !InFlight(pays, c)
    requires LienOf(ceils[c].payer) in bal && bal'.Keys == bal.Keys && bal'[LienOf(ceils[c].payer)] == 0
    requires forall u | u != ceils[c].payer && LienOf(u) in bal :: bal'[LienOf(u)] == bal[LienOf(u)]
    ensures var ceils' := ceils[c := ceils[c].(status := terminal)];
            OneLivePerPayer(ceils') && LienBacksCeilings(bal', pays, ceils', exact) && PendingBacked(pays, ceils')
                && CeilingsBounded(pays, ceils')
  {
    var ceils' := ceils[c := ceils[c].(status := terminal)];
    forall i: nat | i < |ceils'| && IsLive(ceils'[i])
      ensures Backed(bal', pays, ceils', i, exact)
    {
      assert i != c && ceils[i].payer != ceils[c].payer;
      assert LienOf(ceils[i].payer) in bal.Keys;
    }
    forall u | LienOf(u) in bal' && !HasLiveCeiling(ceils', u) ensures bal'[LienOf(u)] == 0 {
      assert LienOf(u) in bal'.Keys;
      RestateStaysLive(ceils, c, ceils'[c], u);
    }
  }

  /** A release that goes through empties the lien of a live ceiling: it cannot take less, and the guard
      lets it take no more. */
  lemma LiveReleaseEmpties(b: Book, c: nat, terminal: CeilingStatus, kind: RowKind, exact: bool)
    requires BookOk(b) && LienOk(b, exact) && c < |b.ceils| && IsLive(b.ceils[c]) && Release(b, c, terminal, kind).Some?
    ensures var user := b.ceils[c].payer;
            var b' := Release(b, c, terminal, kind).value;
            && b'.bal.Keys == b.bal.Keys && LienOf(user) in b.bal && b'.bal[LienOf(user)] == 0
            && (forall u | u != user && LienOf(u) in b.bal ::
                  LienOf(u) in b'.bal && b'.bal[LienOf(u)] == b.bal[LienOf(u)])
            && b'.pays == b.pays && b'.ceils == b.ceils[c := b.ceils[c].(status := terminal)]
  {
    hide BookOk, LienOk, Release, Move, SettledTotal;
    LiveLien(b, c, exact);
    ReleaseParts(b, c, terminal, kind);
    var user := b.ceils[c].payer;
    var left := Max(b.ceils[c].amount - SettledTotal(b.pays, c), 0);
    if left != 0 {
      MoveParts(b, WalletRow(b, user, kind, Credit, left, OfCeiling(c)), LienOf(user), MainOf(user), left);
    }
  }

  lemma LiveReleaseKeeps(b: Book, c: nat, terminal: CeilingStatus, kind: RowKind, exact: bool)
    requires BookOk(b) && LienOk(b, exact) && c < |b.ceils| && IsLive(b.ceils[c]) && !InFlight(b.pays, c)
    requires terminal in {CeilingExpired, Revoked} && Release(b, c, terminal, kind).Some?
    ensures LienOk(Release(b, c, terminal, kind).value, exact)
  {
    hide BookOk, Release, LienBacksCeilings, PendingBacked, CeilingsBounded, OneLivePerPayer, InFlight;
    LiveReleaseEmpties(b, c, terminal, kind, exact);
    EmptiedBacks(b.bal, Release(b, c, terminal, kind).value.bal, b.pays, b.ceils, c, terminal, exact);
  }

  lemma ReleaseKeepsLien(b: Book, c: nat, terminal: CeilingStatus, kind: RowKind)
    requires BookOk(b) && LienOk(b, true) && c < |b.ceils| && IsLive(b.ceils[c]) && !InFlight(b.pays, c)
    requires terminal in {CeilingExpired, Revoked}
    ensures Release(b, c, terminal, kind).Some? && LienOk(Release(b, c, terminal, kind).value, true)
  {
    hide BookOk, LienOk, Release, InFlight;
    ReleaseNeverFails(b, c, terminal, kind);
    LiveReleaseKeeps(b, c, terminal, kind, true);
  }

  /** Restating a ceiling that is live no more as another terminal status. */
  lemma DeadRestated(bal: Balances, bal': Balances, pays: seq<Payment>, ceils: seq<Ceiling>, c: nat,
          terminal: CeilingStatus, exact: bool)
    requires OneLivePerPayer(ceils) && LienBacksCeilings(bal, pays, ceils, exact) && PendingBacked(pays, ceils)
          && CeilingsBounded(pays, ceils)
    requires c < |ceils| && !IsLive(ceils[c]) && terminal in {CeilingExpired, Revoked}
    requires bal'.Keys == bal.Keys
    requires forall u | LienOf(u) in bal :: LienOf(u) in bal' && (bal'[LienOf(u)] == bal[LienOf(u)]
               || (!exact && 0 <= bal'[LienOf(u)] <= bal[LienOf(u)]))
    ensures var ceils' := ceils[c := ceils[c].(status := terminal)];
            && OneLivePerPayer(ceils') && LienBacksCeilings(bal', pays, ceils', exact) && PendingBacked(pays, ceils')
            && CeilingsBounded(pays, ceils')
  {
    var ceils' := ceils[c := ceils[c].(status := terminal)];
    forall i: nat | i < |ceils'| && IsLive(ceils'[i]) ensures Backed(bal', pays, ceils', i, exact) {
      assert i != c;
      assert LienOf(ceils[i].payer) in bal;
    }
    forall u | LienOf(u) in bal' && !HasLiveCeiling(ceils', u) ensures bal'[LienOf(u)] == 0 {
      assert LienOf(u) in bal'.Keys;
      DeadStaysLive(ceils, c, ceils'[c], u);
    }
  }

  /** What a release takes from the payer's lien. */
  lemma ReleaseTakes(b: Book, c: nat, terminal: CeilingStatus, kind: RowKind)
    requires c < |b.ceils| && Release(b, c, terminal, kind).Some?
    ensures var user, left := b.ceils[c].payer, Max(b.ceils[c].amount - SettledTotal(b.pays, c), 0);
            var b' := Release(b, c, terminal, kind).value;
            && b'.bal.Keys == b.bal.Keys && b'.pays == b.pays
               && b'.ceils == b.ceils[c := b.ceils[c].(status := terminal)]
            && (left > 0 ==> LienOf(user) in b.bal && b.bal[LienOf(user)] >= left)
            && forall u | LienOf(u) in b.bal ::
                 LienOf(u) in b'.bal && b'.bal[LienOf(u)] == b.bal[LienOf(u)] - if u == user then left else 0
  {
    hide Release, Move, SettledTotal;
    ReleaseParts(b, c, terminal, kind);
    var user := b.ceils[c].payer;
    var left := Max(b.ceils[c].amount - SettledTotal(b.pays, c), 0);
    if left != 0 {
      MoveParts(b, WalletRow(b, user, kind, Credit, left, OfCeiling(c)), LienOf(user), MainOf(user), left);
    }
  }

  /** Releasing a ceiling that is live no more. */
  lemma DeadReleaseKeeps(b: Book, c: nat, terminal: CeilingStatus, kind: RowKind, exact: bool)
    requires LienOk(b, exact) && c < |b.ceils| && !IsLive(b.ceils[c]) && terminal in {CeilingExpired, Revoked}
    requires Release(b, c, terminal, kind).Some? && (exact ==> SettledTotal(b.pays, c) == b.ceils[c].amount)
    ensures LienOk(Release(b, c, terminal, kind).value, exact)
  {
    hide Release, SettledTotal, LienBacksCeilings, PendingBacked, CeilingsBounded, OneLivePerPayer;
    ReleaseTakes(b, c, terminal, kind);
    DeadRestated(b.bal, Release(b, c, terminal, kind).value.bal, b.pays, b.ceils, c, terminal, exact);
  }

  /** Exactly when a release keeps the lien invariant: always as an upper bound, and exactly when the
      ceiling is live or settled to the last kobo otherwise. */
  lemma ReleaseKeepsLienIff(b: Book, c: nat, terminal: CeilingStatus, kind: RowKind, exact: bool)
    requires BookOk(b) && LienOk(b, exact) && c < |b.ceils| && !InFlight(b.pays, c)
    requires terminal in {CeilingExpired, Revoked} && Release(b, c, terminal, kind).Some?
    ensures LienOk(Release(b, c, terminal, kind).value, exact)
            <==> (exact ==> IsLive(b.ceils[c]) || SettledTotal(b.pays, c) == b.ceils[c].amount)
  {
    hide BookOk, LienOk, Release, InFlight, SettledTotal;
    if IsLive(b.ceils[c]) {
      LiveReleaseKeeps(b, c, terminal, kind, exact);
    } else if exact ==> SettledTotal(b.pays, c) == b.ceils[c].amount {
      DeadReleaseKeeps(b, c, terminal, kind, exact);
    } else {
      StaleReleaseBreaks(b, c, terminal, kind);
    }
  }

  /** A dead ceiling's unsettled rest can only come out of the lien of the payer's live one. */
  lemma StaleReleaseBreaks(b: Book, c: nat, terminal: CeilingStatus, kind: RowKind)
    requires LienOk(b, true) && c < |b.ceils| && !IsLive(b.ceils[c]) && SettledTotal(b.pays, c) != b.ceils[c].amount
    requires terminal in {CeilingExpired, Revoked} && Release(b, c, terminal, kind).Some?
    ensures !LienOk(Release(b, c, terminal, kind).value, true)
  {
    hide Release, SettledTotal;
    ReleaseTakes(b, c, terminal, kind);
    var b', user := Release(b, c, terminal, kind).value, b.ceils[c].payer;
    assert SettledTotal(b.pays, c) <= b.ceils[c].amount;
    assert HasLiveCeiling(b.ceils, user);
    var i :| 0 <= i < |b.ceils| && b.ceils[i].payer == user && IsLive(b.ceils[i]);
    assert b'.ceils[i] == b.ceils[i];
    assert b'.bal[LienOf(user)] + SettledTotal(b'.pays, i) != b'.ceils[i].amount;
  }

  lemma DrainWalletKeeps(b: Book, user: UserId, exact: bool)
    requires BookOk(b) && LienOk(b, exact) && DrainWallet(b, user).Some?
    ensures BookOk(DrainWallet(b, user).value) && LienOk(DrainWallet(b, user).value, exact)
  {
    hide BookOk, LienOk, Release;
    var c := ActiveCeiling(b.ceils, user).value;
    ReleaseKeepsBook(b, c, Revoked, OfflineDrain);
    LiveReleaseKeeps(b, c, Revoked, OfflineDrain, exact);
  }

  lemma RefreshKeepsLien(b: Book, user: UserId, amount: int, expiresAt: Time, exact: bool)
    requires BookOk(b) && LienOk(b, exact) && Refresh(b, user, amount, expiresAt).Some?
    ensures LienOk(Refresh(b, user, amount, expiresAt).value, exact)
  {
    hide BookOk, LienOk, DrainWallet, Fund;
    if ActiveCeiling(b.ceils, user).None? {
      FundKeepsLien(b, user, amount, expiresAt, exact);
    } else {
      DrainWalletKeeps(b, user, exact);
      FundKeepsLien(DrainWallet(b, user).value, user, amount, expiresAt, exact);
    }
  }

  /** The sweep of a candidate keeps the lien invariant exactly when the ceiling is still live, or has
      nothing left to release. */
  lemma SweepKeepsLienIff(b: Book, x: Candidate, exact: bool)
    requires BookOk(b) && LienOk(b, exact) && Sweep(b, x).Some?
    ensures x.ceiling < |b.ceils|
    ensures LienOk(Sweep(b, x).value, exact)
            <==> (exact ==> IsLive(b.ceils[x.ceiling]) || SettledTotal(b.pays, x.ceiling) == b.ceils[x.ceiling].amount)
  {
    hide BookOk, LienOk, Release, InFlight, SettledTotal;
    if x.status.RecoveryPending? {
      ReleaseKeepsLienIff(b, x.ceiling, Revoked, OfflineRecoveryRelease, exact);
    } else {
      ReleaseKeepsLienIff(b, x.ceiling, CeilingExpired, OfflineExpiryRelease, exact);
    }
  }

  /** Forcing a ceiling to expire keeps the lien invariant exactly when its lien is empty and nothing is
      pending under it: nothing else ever pays that lien back. */
  lemma ForceKeepsLienIff(b: Book, c: nat, exact: bool)
    requires BookOk(b) && LienOk(b, exact) && ForceExpired(b, c).Some?
    ensures c < |b.ceils| && LienOf(b.ceils[c].payer) in b.bal
    ensures LienOk(ForceExpired(b, c).value, exact)
            <==> (b.bal[LienOf(b.ceils[c].payer)] == 0 && !PendingUnder(b.pays, c))
  {
    hide BookOk, SettledTotal;
    LiveLien(b, c, exact);
    var b' := ForceExpired(b, c).value;
    assert !IsLive(b'.ceils[c]) && !HasLiveCeiling(b'.ceils, b.ceils[c].payer);
    if b.bal[LienOf(b.ceils[c].payer)] == 0 && !PendingUnder(b.pays, c) {
      RetireKeepsLien(b.bal, b.pays, b.ceils, c, CeilingExpired, exact);
    }
  }

  predicate PendingUnder(pays: seq<Payment>, c: nat) {
    exists k | 0 <= k < |pays| :: pays[k].status == Pending && pays[k].ceiling == c
  }
}
