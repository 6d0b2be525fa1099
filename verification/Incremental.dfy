/** Settling early or late makes no difference while everything is covered by lien and ceiling: any
    interleaving of claims and finalizes ends in the same balances and the same payments. */
module Incremental {
  import opened Basics
  import opened Domain
  import opened Posting
  import opened Claims
  import opened Finalize
  import opened Wallet
  import opened Invariants
  import opened AcceptKeeps
  import opened Allocation
  import opened Draining
  import opened Finalizing
  import opened LienKeeps
  import opened Runs
  import opened History
  import opened LienRuns

  datatype OfflineStep =
    | Claim(item: ClaimItem, submitter: UserId, batch: nat, now: Time)
    | Settle(payer: UserId, now: Time)

  function Take(b: Book, e: OfflineStep): Book {
    match e
    case Claim(item, submitter, batch, now) => SubmitOne(b, item, submitter, batch, now).0
    case Settle(payer, now) => BookAfter(b, FinalizeForPayer(b, payer, now))
  }

  function Play(b: Book, es: seq<OfflineStep>): Book {
    if es == [] then b else Take(Play(b, es[..|es| - 1]), es[|es| - 1])
  }

  /** The claims of a run, in order: the run that never settles. */
  function ClaimsOf(es: seq<OfflineStep>): seq<OfflineStep> {
    if es == [] then []
    else ClaimsOf(es[..|es| - 1]) + if es[|es| - 1].Claim? then [es[|es| - 1]] else []
  }

  // ------------------------------------------------------------------ what settling in full leads to

  /** The payment as it will be once settled in full; when it was settled is left out. */
  function InFull(p: Payment): Payment {
    if p.status == Pending then p.(status := Settled, settled := p.amount, settledAt := None) else p.(settledAt := None)
  }

  function AllInFull(pays: seq<Payment>): (r: seq<Payment>)
    ensures |r| == |pays| && forall i | 0 <= i < |pays| :: r[i] == InFull(pays[i])
  {
    seq(|pays|, i requires 0 <= i < |pays| => InFull(pays[i]))
  }

  function StillToMove(a: Account): Payment -> int {
    (p: Payment) => if p.status == Pending then SettleEffect(p, p.amount, a) else 0
  }

  /** The balance an account will have once everything pending is settled in full. */
  ghost function Eventual(b: Book, a: Account): int
    requires a in b.bal
  {
    b.bal[a] + Sum(b.pays, StillToMove(a))
  }

  ghost predicate SameOutcome(b: Book, b': Book) {
    && AllInFull(b.pays) == AllInFull(b'.pays) && b.bal.Keys == b'.bal.Keys
    && forall a | a in b.bal :: Eventual(b, a) == Eventual(b', a)
  }

  // ------------------------------------------------------------------ settling changes no outcome

  lemma FullStep(b: Book, b1: Book, id: nat, now: Time)
    requires id < |b.pays| && b.pays[id].status == Pending && b.pays[id].reason == NoReason
    requires b1.pays == b.pays[id := Finalized(b.pays[id], Settled, b.pays[id].amount, NoReason, now)]
    requires b1.bal.Keys == b.bal.Keys
    requires forall a | a in b.bal :: b1.bal[a] == b.bal[a] + SettleEffect(b.pays[id], b.pays[id].amount, a)
    ensures SameOutcome(b, b1)
  {
    forall a | a in b.bal ensures Eventual(b, a) == Eventual(b1, a) {
      SumUpdate(b.pays, id, b1.pays[id], StillToMove(a));
      assert a in b1.bal.Keys;
    }
    forall i | 0 <= i < |b.pays| ensures AllInFull(b.pays)[i] == AllInFull(b1.pays)[i] {
    }
  }

  lemma {:induction false} DrainInFull(b: Book, ids: seq<nat>, r: int, now: Time, payer: UserId)
    requires BookOk(b) && Drainable(b.pays, ids, payer) && QueueTotal(b.pays, ids) <= r && r >= 0
             && Drain(b, ids, r, now).Some?
    ensures SameOutcome(b, Drain(b, ids, r, now).value.book)
    decreases |ids|
  {
    hide BookOk, SettleOne, SameOutcome;
    if ids != [] {
      var p := b.pays[ids[0]];
      var s := Allocate(p.amount, r);
      DrainStep(b, ids, r, now, payer);
      PositiveAmounts(b, ids, payer);
      var amounts := Amounts(b.pays, ids);
      PrefixShift(amounts, |ids|);
      PrefixMonotone(amounts[1..], 0, |ids| - 1);
      assert amounts[1..][..0] == [];
      PendingReason(b, ids[0]);
      assert s.settled == p.amount && s.left == r - p.amount;
      var b1 := SettleOne(b, ids[0], s, now).value;
      FullStep(b, b1, ids[0], now);
      TailAmounts(b.pays, b1.pays, ids, payer);
      DrainInFull(b1, ids[1..], s.left, now, payer);
      Chained(b, b1, Drain(b, ids, r, now).value.book);
    } else {
      Reflexive(b);
    }
  }

  lemma PendingReason(b: Book, i: nat)
    requires BookOk(b) && i < |b.pays| && b.pays[i].status == Pending
    ensures b.pays[i].reason == NoReason && b.pays[i].settled == 0
  {
    assert PaymentOk(b.bal, b.pays[i], |b.ceils|);
  }

  lemma Chained(b: Book, b1: Book, b2: Book)
    requires SameOutcome(b, b1) && SameOutcome(b1, b2)
    ensures SameOutcome(b, b2)
  {
    forall a | a in b.bal ensures Eventual(b, a) == Eventual(b2, a) {
      assert a in b1.bal.Keys;
    }
  }

  lemma Reflexive(b: Book)
    ensures SameOutcome(b, b)
  {
  }

  lemma Symmetric(b: Book, b': Book)
    requires SameOutcome(b, b')
    ensures SameOutcome(b', b)
  {
    forall a | a in b'.bal ensures Eventual(b', a) == Eventual(b, a) {
      assert a in b.bal.Keys;
    }
  }

  /** What an account of the payer's lien will have left: its balance less everything pending. */
  lemma LienEventual(b: Book, u: UserId)
    requires LienOf(u) in b.bal
    ensures Eventual(b, LienOf(u)) == b.bal[LienOf(u)] - PendingTotal(b.pays, u)
  {
    SumAdd(b.pays, StillToMove(LienOf(u)), OwedBy(u), Nothing());
    SumZero(b.pays, Nothing());
  }

  function Nothing(): Payment -> int { (p: Payment) => 0 }

  /** Exactly when a finalize settles everything in full and so changes no eventual outcome: when the
      pending total is within both the lien and the ceiling in use. */
  lemma SettleSameOutcomeIff(b: Book, payer: UserId, now: Time)
    requires BookOk(b) && Queue(b.pays, payer) != []
    ensures CeilingInUse(b, payer) < |b.ceils| && LienOf(payer) in b.bal
    ensures var o, total := FinalizeForPayer(b, payer, now), PendingTotal(b.pays, payer);
            (o.Committed? && SameOutcome(b, o.book))
            <==> (total <= b.bal[LienOf(payer)] && total <= b.ceils[CeilingInUse(b, payer)].amount)
  {
    hide BookOk, Queue, FinalizeForPayer, SameOutcome, PendingTotal;
    CeilingStored(b, payer);
    FinalizeCommitsIff(b, payer, now);
    var total := PendingTotal(b.pays, payer);
    if total <= b.bal[LienOf(payer)] && total <= b.ceils[CeilingInUse(b, payer)].amount {
      FittingSettles(b, payer, now);
    } else if FinalizeForPayer(b, payer, now).Committed? && SameOutcome(b, FinalizeForPayer(b, payer, now).book) {
      SameOutcomeFits(b, payer, now);
    }
  }

  lemma FittingSettles(b: Book, payer: UserId, now: Time)
    requires BookOk(b) && Queue(b.pays, payer) != [] && CeilingInUse(b, payer) < |b.ceils|
    requires FinalizeForPayer(b, payer, now).Committed?
             && PendingTotal(b.pays, payer) <= b.ceils[CeilingInUse(b, payer)].amount
    ensures SameOutcome(b, FinalizeForPayer(b, payer, now).book)
  {
    hide BookOk, Queue, Drain, SameOutcome, PendingTotal;
    var c := CeilingInUse(b, payer);
    CeilingStored(b, payer);
    FinalizeParts(b, payer, now);
    QueueDrainable(b.pays, payer);
    QueueTotalIsPendingTotal(b.pays, payer);
    DrainInFull(b, Queue(b.pays, payer), b.ceils[c].amount, now, payer);
    var d := Drain(b, Queue(b.pays, payer), b.ceils[c].amount, now).value.book;
    CeilingsDoNotMatter(b, d, FinalizeForPayer(b, payer, now).book);
  }

  /** The lien pays min(T, C); only if that is all of T is the outcome the same. */
  lemma SameOutcomeFits(b: Book, payer: UserId, now: Time)
    requires BookOk(b) && Queue(b.pays, payer) != [] && CeilingInUse(b, payer) < |b.ceils| && LienOf(payer) in b.bal
    requires FinalizeForPayer(b, payer, now).Committed? && SameOutcome(b, FinalizeForPayer(b, payer, now).book)
    ensures PendingTotal(b.pays, payer) <= b.ceils[CeilingInUse(b, payer)].amount
    ensures PendingTotal(b.pays, payer) <= b.bal[LienOf(payer)]
  {
    hide BookOk, Queue, FinalizeForPayer, PendingTotal, SettleEffect;
    var b' := FinalizeForPayer(b, payer, now).book;
    FinalizeMoves(b, payer, now, LienOf(payer));
    FinalizeCommitsIff(b, payer, now);
    FinalizeIdempotent(b, payer, now, now);
    NothingOwed(b'.pays, payer);
    LienEventual(b, payer);
    LienEventual(b', payer);
    assert Eventual(b, LienOf(payer)) == Eventual(b', LienOf(payer));
  }

  lemma NothingOwed(pays: seq<Payment>, payer: UserId)
    requires forall i | 0 <= i < |pays| :: !IsPendingOf(pays[i], payer)
    ensures PendingTotal(pays, payer) == 0
  {
    SumZero(pays, OwedBy(payer));
  }

  lemma CeilingsDoNotMatter(b: Book, d: Book, d': Book)
    requires SameOutcome(b, d) && d'.bal == d.bal && d'.pays == d.pays
    ensures SameOutcome(b, d')
  {
    forall a | a in b.bal ensures Eventual(b, a) == Eventual(d', a) {
      assert a in d.bal.Keys;
      assert Eventual(b, a) == Eventual(d, a);
    }
  }

  // ------------------------------------------------------------------ everything fits

  /** All that the payer of payment i has pending is within the payer's lien and within the ceiling
      that payment names; and if it takes all of that ceiling, nobody else names it. */
  ghost predicate CoveredAt(b: Book, i: nat)
    requires i < |b.pays|
  {
    var u, c := b.pays[i].payer, b.pays[i].ceiling;
    var total := PendingTotal(b.pays, u);
    && c < |b.ceils| && LienOf(u) in b.bal && total <= b.bal[LienOf(u)] && total <= b.ceils[c].amount
    && (total == b.ceils[c].amount ==>
          forall j | 0 <= j < |b.pays| && b.pays[j].status == Pending && b.pays[j].ceiling == c :: b.pays[j].payer == u)
  }

  ghost predicate Covered(b: Book) {
    forall i: nat | i < |b.pays| && b.pays[i].status == Pending :: CoveredAt(b, i)
  }

  /** Some payer's pending payments, one of them under c, take all of c. */
  ghost predicate FullyUsed(b: Book, c: nat) {
    c < |b.ceils| && exists i: nat :: i < |b.pays| && b.pays[i].status == Pending && b.pays[i].ceiling == c
                                      && PendingTotal(b.pays, b.pays[i].payer) == b.ceils[c].amount
  }

  // ------------------------------------------------------------------ claims see the same world

  /** A ceiling may only differ by having been exhausted, and then all of it is used. */
  ghost predicate CeilingsAgree(ceils: seq<Ceiling>, d: Book) {
    && |ceils| == |d.ceils|
    && forall c: nat | c < |ceils| ::
         ceils[c] == d.ceils[c] || (ceils[c] == d.ceils[c].(status := Exhausted) && FullyUsed(d, c))
  }

  /** What is pending in one world is pending in the other. */
  predicate StillPending(pays: seq<Payment>, pays': seq<Payment>) {
    |pays| == |pays'| && forall i | 0 <= i < |pays| && pays[i].status == Pending :: pays'[i].status == Pending
  }

  /** A world in which some things have been finalized, and the world of the claims alone. */
  ghost predicate Tied(b: Book, d: Book) {
    && BookOk(b) && BookOk(d) && SameOutcome(b, d) && StillPending(b.pays, d.pays) && CeilingsAgree(b.ceils, d)
  }

  lemma OutcomeIdentity(b: Book, d: Book, i: nat)
    requires SameOutcome(b, d) && i < |b.pays|
    ensures |b.pays| == |d.pays| && d.pays[i].payer == b.pays[i].payer && d.pays[i].ceiling == b.pays[i].ceiling
    ensures d.pays[i].amount == b.pays[i].amount
  {
    assert |b.pays| == |AllInFull(b.pays)| == |d.pays|;
    assert InFull(b.pays[i]) == AllInFull(b.pays)[i] == AllInFull(d.pays)[i] == InFull(d.pays[i]);
  }

  /** A payer has no more pending than in the world of the claims alone. */
  lemma PendingShrinks(b: Book, d: Book, u: UserId)
    requires BookOk(d) && SameOutcome(b, d) && StillPending(b.pays, d.pays)
    ensures PendingTotal(b.pays, u) <= PendingTotal(d.pays, u)
  {
    hide BookOk, SameOutcome;
    forall i | 0 <= i < |b.pays| ensures OwedBy(u)(b.pays[i]) <= OwedBy(u)(d.pays[i]) {
      OutcomeIdentity(b, d, i);
      AmountsPositive(d, i);
    }
    SumBelow(b.pays, d.pays, OwedBy(u));
  }

  /** A finalize commits and settles in full wherever the claims alone are covered. */
  lemma TiedSettles(b: Book, d: Book, payer: UserId, now: Time)
    requires Tied(b, d) && Covered(d) && Queue(b.pays, payer) != []
    ensures CeilingInUse(b, payer) < |b.ceils| && FinalizeForPayer(b, payer, now).Committed?
    ensures SameOutcome(b, FinalizeForPayer(b, payer, now).book)
    ensures b.ceils[CeilingInUse(b, payer)].amount <= PendingTotal(b.pays, payer) ==>
              FullyUsed(d, CeilingInUse(b, payer))
  {
    hide BookOk, Queue, FinalizeForPayer, PendingTotal, CoveredAt;
    var i, c := Queue(b.pays, payer)[0], CeilingInUse(b, payer);
    QueueDrainable(b.pays, payer);
    assert IsPendingOf(b.pays[i], payer);
    hide Covered, Drainable;
    OutcomeIdentity(b, d, i);
    PendingShrinks(b, d, payer);
    TiedLien(b, d, payer);
    CeilingStored(b, payer);
    CoveredFacts(d, i);
    hide SameOutcome;
    SettleSameOutcomeIff(b, payer, now);
  }

  lemma CoveredFacts(d: Book, i: nat)
    requires Covered(d) && i < |d.pays| && d.pays[i].status == Pending
    ensures d.pays[i].ceiling < |d.ceils| && LienOf(d.pays[i].payer) in d.bal
    ensures PendingTotal(d.pays, d.pays[i].payer) <= d.bal[LienOf(d.pays[i].payer)]
    ensures PendingTotal(d.pays, d.pays[i].payer) <= d.ceils[d.pays[i].ceiling].amount
    ensures PendingTotal(d.pays, d.pays[i].payer) == d.ceils[d.pays[i].ceiling].amount ==>
              FullyUsed(d, d.pays[i].ceiling)
  {
    assert CoveredAt(d, i);
  }

  /** Settling takes from the lien what it takes from the pending total. */
  lemma TiedLien(b: Book, d: Book, u: UserId)
    requires SameOutcome(b, d)
    ensures LienOf(u) in b.bal <==> LienOf(u) in d.bal
    ensures LienOf(u) in b.bal ==>
              b.bal[LienOf(u)] - PendingTotal(b.pays, u) == d.bal[LienOf(u)] - PendingTotal(d.pays, u)
  {
    assert LienOf(u) in b.bal.Keys <==> LienOf(u) in d.bal.Keys;
    if LienOf(u) in b.bal {
      LienEventual(b, u);
      LienEventual(d, u);
    }
  }

  lemma SettleCeilings(b: Book, d: Book, payer: UserId, now: Time)
    requires BookOk(b) && Queue(b.pays, payer) != [] && FinalizeForPayer(b, payer, now).Committed?
    requires CeilingsAgree(b.ceils, d) && CeilingInUse(b, payer) < |b.ceils|
    requires b.ceils[CeilingInUse(b, payer)].amount <= PendingTotal(b.pays, payer) ==>
               FullyUsed(d, CeilingInUse(b, payer))
    ensures CeilingsAgree(FinalizeForPayer(b, payer, now).book.ceils, d)
  {
    hide BookOk, Queue, Drain, PendingTotal, FullyUsed;
    FinalizeParts(b, payer, now);
  }

  /** What a finalize leaves pending was pending before. */
  lemma SettlePending(b: Book, payer: UserId, now: Time)
    requires BookOk(b) && FinalizeForPayer(b, payer, now).Committed?
    ensures StillPending(FinalizeForPayer(b, payer, now).book.pays, b.pays)
  {
    hide BookOk, FinalizeForPayer, Advances;
    FinalizeIdempotent(b, payer, now, now);
    FinalizePaysStep(b, payer, now);
    FinalizeLeavesOthers(b, payer, now);
    var pays' := FinalizeForPayer(b, payer, now).book.pays;
    forall i | 0 <= i < |pays'| && pays'[i].status == Pending ensures b.pays[i].status == Pending {
      KeepsIdentity(b.pays[i], pays'[i]);
    }
  }

  lemma SettleKeepsTied(b: Book, d: Book, payer: UserId, now: Time)
    requires Tied(b, d) && Covered(d)
    ensures Tied(Take(b, Settle(payer, now)), d)
  {
    hide BookOk, FinalizeForPayer, SameOutcome, CeilingsAgree, FullyUsed, Queue, PendingTotal;
    EmptyCommits(b, payer, now);
    if Queue(b.pays, payer) != [] {
      TiedSettles(b, d, payer, now);
      SettleCeilings(b, d, payer, now);
      FinalizeKeepsBook(b, payer, now);
      SettlePending(b, payer, now);
      var b' := FinalizeForPayer(b, payer, now).book;
      Symmetric(b, b');
      Chained(b', b, d);
    }
  }

  predicate SameKeys(pays: seq<Payment>, pays': seq<Payment>) {
    && |pays| == |pays'|
    && forall i | 0 <= i < |pays| :: pays[i].payer == pays'[i].payer && pays[i].seqNo == pays'[i].seqNo
                                     && pays[i].payee == pays'[i].payee && pays[i].nonce == pays'[i].nonce
  }

  lemma OutcomeKeys(b: Book, d: Book)
    requires SameOutcome(b, d)
    ensures SameKeys(b.pays, d.pays)
  {
    assert |b.pays| == |AllInFull(b.pays)| == |d.pays|;
    forall i | 0 <= i < |b.pays| ensures InFull(b.pays[i]) == InFull(d.pays[i]) {
      assert AllInFull(b.pays)[i] == AllInFull(d.pays)[i];
    }
  }

  lemma {:induction false} FindSame(pays: seq<Payment>, pays': seq<Payment>, payer: UserId, seqNo: int)
    requires SameKeys(pays, pays')
    ensures FindPayment(pays, payer, seqNo) == FindPayment(pays', payer, seqNo)
    decreases |pays|
  {
    if pays != [] {
      FindSame(pays[..|pays| - 1], pays'[..|pays'| - 1], payer, seqNo);
    }
  }

  lemma InsertableSame(b: Book, d: Book, p: PaymentToken)
    requires SameKeys(b.pays, d.pays) && b.bal.Keys == d.bal.Keys && |b.ceils| == |d.ceils|
    ensures Insertable(b, p) <==> Insertable(d, p)
  {
    assert forall a: Account :: a in b.bal <==> a in d.bal by {
      forall a: Account ensures a in b.bal <==> a in d.bal {
        assert a in b.bal.Keys <==> a in d.bal.Keys;
      }
    }
  }

  lemma PushEventual(b: Book, b': Book, x: Payment, effect: int, a: Account)
    requires a in b.bal && a in b'.bal && b'.bal[a] == b.bal[a] + effect && b'.pays == b.pays + [x]
    ensures Eventual(b', a) == Eventual(b, a) + effect + StillToMove(a)(x)
  {
    SumPush(b.pays, x, StillToMove(a));
  }

  /** Both worlds take the same new payment. */
  lemma BothPush(b: Book, d: Book, b': Book, d': Book, x: Payment, legs: seq<LedgerLeg>)
    requires SameOutcome(b, d) && b'.pays == b.pays + [x] && d'.pays == d.pays + [x]
    requires b'.bal.Keys == b.bal.Keys && d'.bal.Keys == d.bal.Keys
    requires forall a | a in b.bal :: b'.bal[a] == b.bal[a] + NetLegs(legs, a)
    requires forall a | a in d.bal :: d'.bal[a] == d.bal[a] + NetLegs(legs, a)
    ensures SameOutcome(b', d')
  {
    forall a | a in b'.bal ensures Eventual(b', a) == Eventual(d', a) {
      assert a in b.bal.Keys && a in d.bal.Keys && a in d'.bal.Keys;
      PushEventual(b, b', x, NetLegs(legs, a), a);
      PushEventual(d, d', x, NetLegs(legs, a), a);
    }
    assert AllInFull(b.pays + [x]) == AllInFull(b.pays) + [InFull(x)];
    assert AllInFull(d.pays + [x]) == AllInFull(d.pays) + [InFull(x)];
  }

  lemma BothAccept(b: Book, d: Book, p: PaymentToken, submitter: UserId, batch: nat, now: Time)
    requires SameOutcome(b, d)
    requires Accept(b, p, submitter, batch, now).Some? && Accept(d, p, submitter, batch, now).Some?
    ensures SameOutcome(Accept(b, p, submitter, batch, now).value, Accept(d, p, submitter, batch, now).value)
  {
    hide Accept, Insertable, SameOutcome;
    AcceptParts(b, p, submitter, batch, now);
    AcceptParts(d, p, submitter, batch, now);
    ApplyEffect(b.bal, ClaimLegs(p.payee, p.amount));
    ApplyEffect(d.bal, ClaimLegs(p.payee, p.amount));
    BothPush(b, d, Accept(b, p, submitter, batch, now).value, Accept(d, p, submitter, batch, now).value,
             NewPayment(p, submitter, batch, now), ClaimLegs(p.payee, p.amount));
  }

  lemma PushPending(pays: seq<Payment>, x: Payment, u: UserId)
    ensures PendingTotal(pays + [x], u) == PendingTotal(pays, u) + if IsPendingOf(x, u) then x.amount else 0
  {
    SumPush(pays, x, OwedBy(u));
  }

  /** An accepted claim adds to what its payer has pending, and to nothing else that matters here. */
  lemma SubmitAdds(d: Book, item: ClaimItem, submitter: UserId, batch: nat, now: Time, u: UserId)
    ensures var (d', r) := SubmitOne(d, item, submitter, batch, now);
            && d'.ceils == d.ceils && SameLiens(d.bal, d'.bal)
            && (r.Fresh? ==>
                  && d'.pays == d.pays + [NewPayment(item.payment, submitter, batch, now)] && item.payment.amount > 0
                  && item.payment.ceilingId == item.ceiling.id < |d.ceils|
                  && PendingTotal(d'.pays, u)
                     == PendingTotal(d.pays, u) + if u == item.payment.payer then item.payment.amount else 0)
            && (!r.Fresh? ==> d' == d)
  {
    var p := item.payment;
    SubmitFrame(d, item, submitter, batch, now);
    hide SubmitOne, PendingTotal, Accept;
    if SubmitOne(d, item, submitter, batch, now).1.Fresh? {
      FreshFacts(d, item, submitter, batch, now);
      AcceptParts(d, p, submitter, batch, now);
      ClaimSameLiens(d.bal, p.payee, p.amount);
      PushPending(d.pays, NewPayment(p, submitter, batch, now), u);
    }
  }

  /** What the claims end with covers every earlier state. */
  lemma CoveredBack(d: Book, item: ClaimItem, submitter: UserId, batch: nat, now: Time)
    requires Covered(SubmitOne(d, item, submitter, batch, now).0)
    ensures Covered(d)
  {
    hide SubmitOne, PendingTotal;
    var d' := SubmitOne(d, item, submitter, batch, now).0;
    forall i: nat | i < |d.pays| && d.pays[i].status == Pending ensures CoveredAt(d, i) {
      SubmitAdds(d, item, submitter, batch, now, d.pays[i].payer);
      assert d'.pays[i] == d.pays[i];
      assert CoveredAt(d', i);
      assert forall j | 0 <= j < |d.pays| :: d'.pays[j] == d.pays[j];
    }
  }

  /** No claim is accepted under a ceiling that is used up. */
  lemma AcceptedAvoidsFull(d: Book, item: ClaimItem, submitter: UserId, batch: nat, now: Time)
    requires SubmitOne(d, item, submitter, batch, now).1.Fresh? && Covered(SubmitOne(d, item, submitter, batch, now).0)
    ensures !FullyUsed(d, item.ceiling.id)
  {
    hide SubmitOne, PendingTotal;
    var d', c := SubmitOne(d, item, submitter, batch, now).0, item.ceiling.id;
    forall i: nat | i < |d.pays| && d.pays[i].status == Pending && d.pays[i].ceiling == c
      ensures c < |d.ceils| ==> PendingTotal(d.pays, d.pays[i].payer) != d.ceils[c].amount
    {
      SubmitAdds(d, item, submitter, batch, now, d.pays[i].payer);
      assert d'.pays[i] == d.pays[i] && CoveredAt(d', i);
      assert d'.pays[|d.pays|].ceiling == c;
    }
  }

  /** A ceiling that is used up stays so. */
  lemma FullStays(d: Book, item: ClaimItem, submitter: UserId, batch: nat, now: Time, c: nat)
    requires FullyUsed(d, c) && Covered(SubmitOne(d, item, submitter, batch, now).0)
    ensures FullyUsed(SubmitOne(d, item, submitter, batch, now).0, c)
  {
    hide SubmitOne, PendingTotal;
    var d' := SubmitOne(d, item, submitter, batch, now).0;
    var i: nat :| i < |d.pays| && d.pays[i].status == Pending && d.pays[i].ceiling == c
                  && PendingTotal(d.pays, d.pays[i].payer) == d.ceils[c].amount;
    SubmitAdds(d, item, submitter, batch, now, d.pays[i].payer);
    assert d'.pays[i] == d.pays[i] && CoveredAt(d', i);
  }

  lemma FreshWhen(b: Book, item: ClaimItem, submitter: UserId, batch: nat, now: Time)
    requires Validate(item, submitter, now) == Pass
             && FindPayment(b.pays, item.payment.payer, item.payment.seqNo) == None
    requires item.ceiling.id < |b.ceils| && CeilingGate(b.ceils[item.ceiling.id], now) == Pass
    requires Accept(b, item.payment, submitter, batch, now).Some?
    ensures SubmitOne(b, item, submitter, batch, now).1.Fresh?
  {
  }

  /** Both worlds accept the claim, or neither does. */
  lemma SameVerdict(b: Book, d: Book, item: ClaimItem, submitter: UserId, batch: nat, now: Time)
    requires Tied(b, d) && Covered(SubmitOne(d, item, submitter, batch, now).0)
    ensures SubmitOne(b, item, submitter, batch, now).1.Fresh? <==> SubmitOne(d, item, submitter, batch, now).1.Fresh?
  {
    hide BookOk, SubmitOne, Accept, Insertable, Validate, CeilingGate, SameOutcome, FullyUsed, Covered;
    var p, c := item.payment, item.ceiling.id;
    OutcomeKeys(b, d);
    OutcomeAccounts(b, d);
    FindSame(b.pays, d.pays, p.payer, p.seqNo);
    InsertableSame(b, d, p);
    AcceptNeverShort(b, p, submitter, batch, now);
    AcceptNeverShort(d, p, submitter, batch, now);
    if SubmitOne(b, item, submitter, batch, now).1.Fresh? {
      FreshFacts(b, item, submitter, batch, now);
      GateOpen(b.ceils[c], now);
      FreshWhen(d, item, submitter, batch, now);
    }
    if SubmitOne(d, item, submitter, batch, now).1.Fresh? {
      FreshFacts(d, item, submitter, batch, now);
      AcceptedAvoidsFull(d, item, submitter, batch, now);
      FreshWhen(b, item, submitter, batch, now);
    }
  }

  lemma OutcomeAccounts(b: Book, d: Book)
    requires SameOutcome(b, d)
    ensures b.bal.Keys == d.bal.Keys
  {
  }

  lemma GateOpen(c: Ceiling, now: Time)
    ensures CeilingGate(c, now) == Pass ==> c.status != Exhausted
  {
  }

  lemma ClaimCeilings(b: Book, d: Book, item: ClaimItem, submitter: UserId, batch: nat, now: Time)
    requires CeilingsAgree(b.ceils, d) && Covered(SubmitOne(d, item, submitter, batch, now).0)
    ensures CeilingsAgree(b.ceils, SubmitOne(d, item, submitter, batch, now).0)
  {
    hide SubmitOne, FullyUsed, Covered;
    var d' := SubmitOne(d, item, submitter, batch, now).0;
    SubmitFrame(d, item, submitter, batch, now);
    forall c: nat | c < |b.ceils|
      ensures b.ceils[c] == d'.ceils[c] || (b.ceils[c] == d'.ceils[c].(status := Exhausted) && FullyUsed(d', c))
    {
      if FullyUsed(d, c) {
        FullStays(d, item, submitter, batch, now, c);
      }
    }
  }

  lemma ClaimKeepsTied(b: Book, d: Book, item: ClaimItem, submitter: UserId, batch: nat, now: Time)
    requires Tied(b, d) && Covered(SubmitOne(d, item, submitter, batch, now).0)
    ensures Tied(SubmitOne(b, item, submitter, batch, now).0, SubmitOne(d, item, submitter, batch, now).0)
  {
    hide BookOk, SubmitOne, Accept, SameOutcome, CeilingsAgree, Covered;
    SameVerdict(b, d, item, submitter, batch, now);
    SubmitFrame(b, item, submitter, batch, now);
    SubmitFrame(d, item, submitter, batch, now);
    SubmitKeepsBook(b, item, submitter, batch, now);
    SubmitKeepsBook(d, item, submitter, batch, now);
    ClaimCeilings(b, d, item, submitter, batch, now);
    if SubmitOne(b, item, submitter, batch, now).1.Fresh? {
      FreshFacts(b, item, submitter, batch, now);
      FreshFacts(d, item, submitter, batch, now);
      BothAccept(b, d, item.payment, submitter, batch, now);
    }
  }

  // ------------------------------------------------------------------ whole runs

  lemma PlayPush(b: Book, es: seq<OfflineStep>, e: OfflineStep)
    ensures Play(b, es + [e]) == Take(Play(b, es), e)
    ensures es + [] == es
  {
    assert (es + [e])[..|es|] == es;
  }

  /** However finalizes are interleaved with the claims of a run, its outcome is that of the
      claims alone. */
  lemma {:induction false} FinalizesDoNotMatter(b: Book, es: seq<OfflineStep>)
    requires BookOk(b) && Covered(Play(b, ClaimsOf(es)))
    ensures Tied(Play(b, es), Play(b, ClaimsOf(es)))
    decreases |es|
  {
    hide BookOk, SubmitOne, FinalizeForPayer, SameOutcome, Covered, Tied;
    if es == [] {
      StartTied(b);
    } else {
      var front, e := es[..|es| - 1], es[|es| - 1];
      var d := Play(b, ClaimsOf(front));
      PlayPush(b, ClaimsOf(front), e);
      match e
      case Claim(item, submitter, batch, now) =>
        CoveredBack(d, item, submitter, batch, now);
        FinalizesDoNotMatter(b, front);
        ClaimKeepsTied(Play(b, front), d, item, submitter, batch, now);
      case Settle(payer, now) =>
        FinalizesDoNotMatter(b, front);
        SettleKeepsTied(Play(b, front), d, payer, now);
    }
  }

  lemma StartTied(b: Book)
    requires BookOk(b)
    ensures Tied(b, b)
  {
    hide BookOk;
    Reflexive(b);
  }

  predicate NothingPending(pays: seq<Payment>) { forall i | 0 <= i < |pays| :: pays[i].status != Pending }

  /** The payment without its settlement time. */
  function Untimed(pays: seq<Payment>): (r: seq<Payment>)
    ensures |r| == |pays| && forall i | 0 <= i < |pays| :: r[i] == pays[i].(settledAt := None)
  {
    seq(|pays|, i requires 0 <= i < |pays| => pays[i].(settledAt := None))
  }

  lemma NothingLeftToMove(b: Book, d: Book)
    requires SameOutcome(b, d) && NothingPending(b.pays) && NothingPending(d.pays)
    ensures b.bal == d.bal && Untimed(b.pays) == Untimed(d.pays)
  {
    forall a | a in b.bal ensures a in d.bal && b.bal[a] == d.bal[a] {
      assert a in d.bal.Keys && Eventual(b, a) == Eventual(d, a);
      SumZero(b.pays, StillToMove(a));
      SumZero(d.pays, StillToMove(a));
    }
    assert AllInFull(b.pays) == Untimed(b.pays) && AllInFull(d.pays) == Untimed(d.pays);
    assert b.bal.Keys == d.bal.Keys;
  }

  /** Two runs with the same claims in the same order, everything fitting and everything finalized
      in the end, agree on every balance and every payment but for the settlement times. */
  lemma InterleavingIrrelevant(b: Book, es: seq<OfflineStep>, es': seq<OfflineStep>)
    requires BookOk(b) && ClaimsOf(es) == ClaimsOf(es') && Covered(Play(b, ClaimsOf(es)))
    requires NothingPending(Play(b, es).pays) && NothingPending(Play(b, es').pays)
    ensures Play(b, es).bal == Play(b, es').bal
    ensures Untimed(Play(b, es).pays) == Untimed(Play(b, es').pays)
  {
    hide BookOk, SameOutcome, CeilingsAgree, Covered, Take;
    FinalizesDoNotMatter(b, es);
    FinalizesDoNotMatter(b, es');
    Symmetric(Play(b, es'), Play(b, ClaimsOf(es)));
    Chained(Play(b, es), Play(b, ClaimsOf(es)), Play(b, es'));
    NothingLeftToMove(Play(b, es), Play(b, es'));
  }

  lemma {:induction false} ClaimsOfClaims(es: seq<OfflineStep>)
    ensures ClaimsOf(ClaimsOf(es)) == ClaimsOf(es)
    decreases |es|
  {
    if es != [] {
      var front, e := es[..|es| - 1], es[|es| - 1];
      ClaimsOfClaims(front);
      if e.Claim? {
        assert (ClaimsOf(front) + [e])[..|ClaimsOf(front)|] == ClaimsOf(front);
      } else {
        assert ClaimsOf(front) + [] == ClaimsOf(front);
      }
    }
  }

  /** In particular: settling one payer's claims as they come equals submitting them all and
      finalizing once. */
  lemma BatchEqualsIncremental(b: Book, es: seq<OfflineStep>, payer: UserId, now: Time)
    requires BookOk(b) && Covered(Play(b, ClaimsOf(es)))
    requires forall i | 0 <= i < |Play(b, ClaimsOf(es)).pays| ::
               Play(b, ClaimsOf(es)).pays[i].status == Pending ==> Play(b, ClaimsOf(es)).pays[i].payer == payer
    requires NothingPending(Play(b, es).pays)
    ensures var once := Play(b, ClaimsOf(es) + [Settle(payer, now)]);
            NothingPending(once.pays) && Play(b, es).bal == once.bal && Untimed(Play(b, es).pays) == Untimed(once.pays)
  {
    hide BookOk, SubmitOne, FinalizeForPayer, SameOutcome, Covered, CeilingsAgree, Queue;
    var es' := ClaimsOf(es) + [Settle(payer, now)];
    var d := Play(b, ClaimsOf(es));
    ClaimsOfClaims(es);
    PlayPush(b, ClaimsOf(es), Settle(payer, now));
    assert es'[..|ClaimsOf(es)|] == ClaimsOf(es);
    assert ClaimsOf(es') == ClaimsOf(es);
    FinalizesDoNotMatter(b, es);
    StartTied(d);
    EmptyCommits(d, payer, now);
    if Queue(d.pays, payer) != [] {
      TiedSettles(d, d, payer, now);
    }
    OnlyPayerPending(d, payer, now);
    InterleavingIrrelevant(b, es, es');
  }

  lemma OnlyPayerPending(d: Book, payer: UserId, now: Time)
    requires BookOk(d) && FinalizeForPayer(d, payer, now).Committed?
    requires forall i | 0 <= i < |d.pays| :: d.pays[i].status == Pending ==> d.pays[i].payer == payer
    ensures NothingPending(FinalizeForPayer(d, payer, now).book.pays)
  {
    hide BookOk, FinalizeForPayer, Advances;
    FinalizeIdempotent(d, payer, now, now);
    FinalizePaysStep(d, payer, now);
    var pays' := FinalizeForPayer(d, payer, now).book.pays;
    FinalizeLeavesOthers(d, payer, now);
    forall i | 0 <= i < |pays'| ensures pays'[i].status != Pending {
      assert !IsPendingOf(pays'[i], payer);
      KeepsIdentity(d.pays[i], pays'[i]);
    }
  }

  // ------------------------------------------------------------------ payers on their own ceilings

  function EarmarkedUnder(c: nat): Payment -> int {
    (p: Payment) => if p.ceiling == c then InFull(p).settled else 0
  }

  /** Settled and pending amounts under a ceiling. */
  ghost function Earmarked(pays: seq<Payment>, c: nat): int { Sum(pays, EarmarkedUnder(c)) }

  /** The amounts under every ceiling total at most the ceiling. */
  ghost predicate Fits(b: Book) {
    forall c: nat | c < |b.ceils| :: Earmarked(b.pays, c) <= b.ceils[c].amount
  }

  lemma SplitOne(b: Book, payer: UserId, i: nat)
    requires BookOk(b) && LienOk(b, true) && Queue(b.pays, payer) != [] && i < |b.pays|
    ensures var c := CeilingInUse(b, payer);
            SettledUnder(c)(b.pays[i]) + OwedBy(payer)(b.pays[i]) == EarmarkedUnder(c)(b.pays[i])
  {
    hide BookOk, LienOk, Queue;
    if b.pays[i].status == Pending {
      PendingReason(b, i);
      if b.pays[i].payer == payer {
        QueueSharesCeiling(b, payer, i, true);
      } else {
        QueueCeilingLive(b, payer, true);
        PendingElsewhere(b, i, CeilingInUse(b, payer), b.pays[i].payer, true);
      }
    }
  }

  /** Under a live ceiling, earmarked is settled plus the payer's pending total. */
  lemma EarmarkedSplit(b: Book, payer: UserId)
    requires BookOk(b) && LienOk(b, true) && Queue(b.pays, payer) != []
    ensures var c := CeilingInUse(b, payer);
            c < |b.ceils| && Earmarked(b.pays, c) == SettledTotal(b.pays, c) + PendingTotal(b.pays, payer)
  {
    hide BookOk, LienOk, Queue;
    var c := CeilingInUse(b, payer);
    QueueCeilingLive(b, payer, true);
    forall i | 0 <= i < |b.pays|
      ensures SettledUnder(c)(b.pays[i]) + OwedBy(payer)(b.pays[i]) == EarmarkedUnder(c)(b.pays[i])
    {
      SplitOne(b, payer, i);
    }
    SumAdd(b.pays, SettledUnder(c), OwedBy(payer), EarmarkedUnder(c));
  }

  /** Where payers spend on their own ceilings, everything is covered exactly when what is settled and
      pending under each ceiling totals at most the ceiling. */
  lemma CoveredIffFits(b: Book)
    requires BookOk(b) && LienOk(b, true)
    ensures Covered(b) <==> Fits(b)
  {
    hide BookOk, LienOk, CoveredAt, Earmarked;
    if Fits(b) {
      forall i: nat | i < |b.pays| && b.pays[i].status == Pending ensures CoveredAt(b, i) {
        FitsCovers(b, i);
      }
    }
    if Covered(b) {
      forall c: nat | c < |b.ceils| ensures Earmarked(b.pays, c) <= b.ceils[c].amount {
        CoveredFits(b, c);
      }
    }
  }

  lemma FitsCovers(b: Book, i: nat)
    requires BookOk(b) && LienOk(b, true) && Fits(b) && i < |b.pays| && b.pays[i].status == Pending
    ensures CoveredAt(b, i)
  {
    hide BookOk, LienOk, Queue, Earmarked, SettledTotal, PendingTotal;
    var u := b.pays[i].payer;
    QueueEmpty(b.pays, u);
    QueueSharesCeiling(b, u, i, true);
    EarmarkedSplit(b, u);
    LiveLien(b, b.pays[i].ceiling, true);
    forall j | 0 <= j < |b.pays| && b.pays[j].status == Pending && b.pays[j].ceiling == b.pays[i].ceiling
      ensures b.pays[j].payer == u
    {
      if b.pays[j].payer != u {
        PendingElsewhere(b, j, b.pays[i].ceiling, b.pays[j].payer, true);
      }
    }
  }

  lemma CoveredFits(b: Book, c: nat)
    requires BookOk(b) && LienOk(b, true) && Covered(b) && c < |b.ceils|
    ensures Earmarked(b.pays, c) <= b.ceils[c].amount
  {
    hide BookOk, LienOk, Queue, SettledTotal, PendingTotal, Covered;
    if i: nat :| i < |b.pays| && b.pays[i].status == Pending && b.pays[i].ceiling == c {
      var u := b.pays[i].payer;
      QueueEmpty(b.pays, u);
      QueueSharesCeiling(b, u, i, true);
      EarmarkedSplit(b, u);
      LiveLien(b, c, true);
      CoveredFacts(b, i);
    } else {
      NothingPendingUnder(b, c);
      LienFacts(b, c, true);
    }
  }

  lemma NothingPendingUnder(b: Book, c: nat)
    requires BookOk(b) && forall i | 0 <= i < |b.pays| && b.pays[i].ceiling == c :: b.pays[i].status != Pending
    ensures Earmarked(b.pays, c) == SettledTotal(b.pays, c)
  {
    SumCongruent(b.pays, b.pays, EarmarkedUnder(c), SettledUnder(c));
  }

  predicate AllOwnCeilings(b: Book, es: seq<OfflineStep>) {
    forall i | 0 <= i < |es| && es[i].Claim? :: OwnCeiling(b, es[i].item)
  }

  lemma {:induction false} OwnClaimsKeep(b: Book, es: seq<OfflineStep>)
    requires BookOk(b) && LienOk(b, true) && AllOwnCeilings(b, es)
    ensures var d := Play(b, ClaimsOf(es)); BookOk(d) && LienOk(d, true) && d.ceils == b.ceils
    decreases |es|
  {
    hide BookOk, LienOk, SubmitOne;
    if es != [] {
      var e, d := es[|es| - 1], Play(b, ClaimsOf(es[..|es| - 1]));
      OwnClaimsKeep(b, es[..|es| - 1]);
      PlayPush(b, ClaimsOf(es[..|es| - 1]), e);
      if e.Claim? {
        SubmitFrame(d, e.item, e.submitter, e.batch, e.now);
        SubmitKeepsBook(d, e.item, e.submitter, e.batch, e.now);
        SubmitKeepsLien(d, e.item, e.submitter, e.batch, e.now, true);
      }
    }
  }

  /** For payers on their own ceilings, the interleaving is irrelevant whenever the claims fit their
      ceilings. */
  lemma OwnCeilingsInterleave(b: Book, es: seq<OfflineStep>, es': seq<OfflineStep>)
    requires BookOk(b) && LienOk(b, true) && AllOwnCeilings(b, es) && ClaimsOf(es) == ClaimsOf(es')
    requires Fits(Play(b, ClaimsOf(es))) && NothingPending(Play(b, es).pays) && NothingPending(Play(b, es').pays)
    ensures Play(b, es).bal == Play(b, es').bal
    ensures Untimed(Play(b, es).pays) == Untimed(Play(b, es').pays)
  {
    hide BookOk, LienOk, Fits, Covered, Take;
    OwnClaimsKeep(b, es);
    CoveredIffFits(Play(b, ClaimsOf(es)));
    InterleavingIrrelevant(b, es, es');
  }
}
