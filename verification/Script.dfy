/** Building blocks of concrete runs: what single steps, finalized payments and a funded pair of users
    leave behind. */
module Script {
  import opened Basics
  import opened Domain
  import opened Claims
  import opened Finalize
  import opened Wallet
  import opened Transfers
  import opened World
  import opened Invariants
  import opened WalletKeeps
  import opened Allocation
  import opened Draining
  import opened Finalizing
  import opened LienKeeps
  import opened Runs
  import opened ExactlyOnce
  import opened Convergence

  // ------------------------------------------------------------------ steps of a script

  lemma OneStep(w: World, e: Step)
    ensures Run(w, [e]) == Apply(w, e)
  {
    hide Apply;
    assert [e][..0] == [];
  }

  /** Enqueue, publish and deliver one finalize event. */
  function FinalizeNow(id: nat, u: UserId): seq<Step> {
    [EnqueueFinalize(u, 0)] + [Dispatch([id], [Confirmed], true, 0)] + [Deliver(id, NoCrash, 0)]
  }

  lemma FreshId(w: World)
    requires WorldOk(w)
    ensures |w.outbox| !in w.published && |w.outbox| !in w.processed
  {
    hide BookOk;
  }

  lemma EnqueueOnly(w: World, u: UserId)
    requires u != ""
    ensures Apply(w, EnqueueFinalize(u, 0)) == w.(outbox := w.outbox + [OutboxRow(FinalizeEvent(u), false, 0, 0)])
  {
  }

  lemma DeliverOnly(w: World, id: nat, u: UserId)
    requires id < |w.outbox| && id in w.published && id !in w.processed && w.outbox[id].event == FinalizeEvent(u)
             && u != ""
    ensures var w' := Apply(w, Deliver(id, NoCrash, 0));
            w'.book == BookAfter(w.book, FinalizeForPayer(w.book, u, 0)) && w'.outbox == w.outbox
  {
    hide FinalizeForPayer;
  }

  lemma FinalizeNowRuns(w: World, u: UserId)
    requires WorldOk(w) && u != ""
    ensures var w' := Run(w, FinalizeNow(|w.outbox|, u));
            w'.book == BookAfter(w.book, FinalizeForPayer(w.book, u, 0)) && |w'.outbox| == |w.outbox| + 1
  {
    hide WorldOk, Apply, FinalizeForPayer;
    var id := |w.outbox|;
    var e1, e2, e3 := EnqueueFinalize(u, 0), Dispatch([id], [Confirmed], true, 0), Deliver(id, NoCrash, 0);
    FreshId(w);
    OneStep(w, e1);
    EnqueueOnly(w, u);
    var w1 := Apply(w, e1);
    RunOne(w, [e1], e2);
    PublishOne(w1, id);
    var w2 := Apply(w1, e2);
    RunOne(w, [e1] + [e2], e3);
    DeliverOnly(w2, id, u);
  }

  /** A claim with every signature good, naming a ceiling by its id. */
  function Claim(payer: UserId, payee: UserId, amount: int, seqNo: int, ceiling: nat, nonce: Bytes): ClaimItem {
    ClaimItem(PaymentToken(payer, payee, amount, seqNo, 0, ceiling, nonce, []), CeilingCopy(ceiling, payer, 1000, 0, 0),
              PaymentRequest(payee, payee, amount, nonce, 0), Verdicts(true, true, true, true, true, true, Some([])))
  }

  lemma ClaimPasses(payer: UserId, payee: UserId, amount: int, seqNo: int, ceiling: nat, nonce: Bytes)
    requires payer != payee && seqNo > 0
    ensures Validate(Claim(payer, payee, amount, seqNo, ceiling, nonce), payer, 0) == Pass
  {
  }

  /** The key and the nonce are new. */
  predicate NewKeys(pays: seq<Payment>, payer: UserId, seqNo: int, nonce: Bytes) {
    forall i | 0 <= i < |pays| :: !(pays[i].payer == payer && pays[i].seqNo == seqNo) && pays[i].nonce != nonce
  }

  /** The claim names an active ceiling, whoever owns it, and passes every check. */
  predicate Acceptable(b: Book, item: ClaimItem) {
    && Validate(item, item.payment.payer, 0) == Pass && Insertable(b, item.payment)
    && item.ceiling.id == item.payment.ceilingId < |b.ceils| && b.ceils[item.ceiling.id].status == Active
  }

  lemma ClaimAcceptable(b: Book, payer: UserId, payee: UserId, amount: int, seqNo: int, ceiling: nat, nonce: Bytes)
    requires payer != payee && amount > 0 && seqNo > 0 && ceiling < |b.ceils| && b.ceils[ceiling].status == Active
    requires MainOf(payer) in b.bal && PendingOf(payee) in b.bal && NewKeys(b.pays, payer, seqNo, nonce)
    ensures Acceptable(b, Claim(payer, payee, amount, seqNo, ceiling, nonce))
  {
    ClaimPasses(payer, payee, amount, seqNo, ceiling, nonce);
  }

  function Stamped(item: ClaimItem): Payment { NewPayment(item.payment, item.payment.payer, 0, 0) }

  lemma ClaimAccepted(b: Book, item: ClaimItem)
    requires BookOk(b) && Acceptable(b, item)
    ensures var (b', r) := SubmitOne(b, item, item.payment.payer, 0, 0);
            && r.Fresh? && BookOk(b') && b'.pays == b.pays + [Stamped(item)] && b'.ceils == b.ceils
            && b'.bal.Keys == b.bal.Keys
               && (forall a | a in b.bal && OffMirror(a) :: a in b'.bal && b'.bal[a] == b.bal[a])
  {
    hide BookOk, Validate, Insertable, SubmitOne;
    var payer := item.payment.payer;
    FreshIff(b, Upload(item, payer, 0), 0);
    SubmitFrame(b, item, payer, 0, 0);
    SubmitOffMirror(b, item, payer, 0, 0);
    SubmitKeepsBook(b, item, payer, 0, 0);
  }

  lemma SubmitRuns(w: World, e: Step)
    requires e.Submit?
    ensures Run(w, [e]) == w.(book := SubmitOne(w.book, e.item, e.submitter, e.batch, e.now).0)
  {
    hide SubmitOne;
    OneStep(w, e);
  }

  lemma WorldBookOk(w: World)
    requires WorldOk(w)
    ensures BookOk(w.book)
  {
  }

  /** Liens other than the payer's stay, the payer's gives the amount, main accounts do not lose. */
  ghost predicate Paid(bal: Balances, bal': Balances, payer: UserId, amount: int) {
    && bal'.Keys == bal.Keys
    && (forall u | LienOf(u) in bal ::
          LienOf(u) in bal' && bal'[LienOf(u)] == bal[LienOf(u)] - if u == payer then amount else 0)
    && (forall u | MainOf(u) in bal :: MainOf(u) in bal' && bal'[MainOf(u)] >= bal[MainOf(u)])
  }

  lemma FinalizePaid(b: Book, u: UserId, amount: int)
    requires BookOk(b) && Queue(b.pays, u) != [] && FinalizeForPayer(b, u, 0).Committed?
             && CeilingInUse(b, u) < |b.ceils|
    requires PendingTotal(b.pays, u) == amount <= b.ceils[CeilingInUse(b, u)].amount
    ensures Paid(b.bal, FinalizeForPayer(b, u, 0).book.bal, u, amount)
  {
    hide BookOk, FinalizeForPayer, Queue, PendingTotal, QueueEffect;
    FinalizeBalances(b, u, 0);
    forall v | LienOf(v) in b.bal
      ensures LienOf(v) in FinalizeForPayer(b, u, 0).book.bal
      ensures FinalizeForPayer(b, u, 0).book.bal[LienOf(v)] == b.bal[LienOf(v)] - if v == u then amount else 0
    {
      FinalizeMoves(b, u, 0, LienOf(v));
    }
    forall v | MainOf(v) in b.bal
      ensures MainOf(v) in FinalizeForPayer(b, u, 0).book.bal
      ensures FinalizeForPayer(b, u, 0).book.bal[MainOf(v)] >= b.bal[MainOf(v)]
    {
      FinalizeMoves(b, u, 0, MainOf(v));
    }
  }

  /** A finalize of one pending payment that fits ceiling and lien settles it in full. */
  lemma FinalizeOne(b: Book, u: UserId, i: nat)
    requires BookOk(b) && i < |b.pays| && IsPendingOf(b.pays[i], u)
    requires forall k | 0 <= k < |b.pays| && k != i :: !IsPendingOf(b.pays[k], u)
    requires b.pays[i].ceiling < |b.ceils| && b.pays[i].amount <= b.ceils[b.pays[i].ceiling].amount
    requires LienOf(u) in b.bal && b.pays[i].amount <= b.bal[LienOf(u)]
    ensures var p, c := b.pays[i], b.pays[i].ceiling;
            var o := FinalizeForPayer(b, u, 0);
            && o.Committed? && o.book.pays == b.pays[i := Finalized(p, Settled, p.amount, NoReason, 0)]
            && o.book.ceils == (if p.amount == b.ceils[c].amount then Exhaust(b.ceils, c) else b.ceils)
            && Paid(b.bal, o.book.bal, u, p.amount)
  {
    hide BookOk, FinalizeForPayer, Drain, Queue, Paid;
    var p, c := b.pays[i], b.ceils[b.pays[i].ceiling].amount;
    OneQueued(b.pays, u, i);
    QueueTotalIsPendingTotal(b.pays, u);
    OneTotal(b.pays, i);
    AmountsPositive(b, i);
    FinalizeCommitsIff(b, u, 0);
    FinalizePays(b, u, 0);
    FinalizeParts(b, u, 0);
    FinalizePaid(b, u, p.amount);
    assert Shares(Amounts(b.pays, [i]), c)[0] == Share(p.amount, c - p.amount, Settled, NoReason);
    var pays' := FinalizeForPayer(b, u, 0).book.pays;
    assert pays' == b.pays[i := Finalized(p, Settled, p.amount, NoReason, 0)];
  }

  lemma {:induction false} AllEqualCount(ids: seq<nat>, i: nat)
    requires forall k | 0 <= k < |ids| :: ids[k] == i
    ensures multiset(ids)[i] == |ids|
  {
    if ids != [] {
      var n := |ids| - 1;
      AllEqualCount(ids[..n], i);
      assert ids == ids[..n] + [ids[n]];
    }
  }

  lemma OneQueued(pays: seq<Payment>, u: UserId, i: nat)
    requires i < |pays| && IsPendingOf(pays[i], u) && forall k | 0 <= k < |pays| && k != i :: !IsPendingOf(pays[k], u)
    ensures Queue(pays, u) == [i]
  {
    hide Queue;
    var ids := Queue(pays, u);
    QueueDrainable(pays, u);
    InQueue(pays, u, i);
    AllEqualCount(ids, i);
    QueueCounts(pays, u, i);
  }

  lemma OneTotal(pays: seq<Payment>, i: nat)
    requires i < |pays|
    ensures QueueTotal(pays, [i]) == pays[i].amount
  {
    SumPush<int>([], pays[i].amount, Identity());
    assert [] + [pays[i].amount] == Amounts(pays, [i])[..1];
  }

  // ------------------------------------------------------------------ wallet steps

  lemma MintGood(b: Book, u: UserId, k: int)
    requires MINT_MIN <= k <= MINT_MAX && MainOf(u) in b.bal && Treasury in b.bal && b.bal[Treasury] >= k
    ensures Mint(b, u, k).Some? && Mint(b, u, k).value.bal == Moved(b.bal, Treasury, MainOf(u), k)
    ensures Mint(b, u, k).value.pays == b.pays && Mint(b, u, k).value.ceils == b.ceils
  {
    hide Move;
    var row := TxnRow(|b.rows|, u, None, RowKind.DemoMint, RowCompleted, Credit, k, None, OfMint, NoReason);
    MoveSucceeds(b, row, Treasury, MainOf(u), k);
    MoveParts(b, row, Treasury, MainOf(u), k);
  }

  lemma FundGood(b: Book, u: UserId, k: int)
    requires k > 0 && MainOf(u) in b.bal && LienOf(u) in b.bal && b.bal[MainOf(u)] >= k && !HasLiveCeiling(b.ceils, u)
    ensures Fund(b, u, k, 0).Some? && Fund(b, u, k, 0).value.bal == Moved(b.bal, MainOf(u), LienOf(u), k)
    ensures Fund(b, u, k, 0).value.pays == b.pays
    ensures Fund(b, u, k, 0).value.ceils == b.ceils + [Ceiling(u, k, 0, 0, Active, None)]
  {
    hide Move;
    var b1 := b.(ceils := b.ceils + [Ceiling(u, k, 0, 0, Active, None)]);
    var row := WalletRow(b, u, OfflineFund, Debit, k, OfCeiling(|b.ceils|));
    MoveSucceeds(b1, row, MainOf(u), LienOf(u), k);
    MoveParts(b1, row, MainOf(u), LienOf(u), k);
  }

  lemma WalletApplied(w: World, e: Step)
    requires IsWalletStep(e) && !e.SweepCeiling? && WalletStep(w.book, e).Some?
    ensures Run(w, [e]) == w.(book := WalletStep(w.book, e).value)
  {
    hide WalletStep;
    OneStep(w, e);
    WalletStepApply(w, e);
  }

  // ------------------------------------------------------------------ one payment after the other

  /** One payment, finalized before anything else happens; id is the outbox row of the finalize event. */
  function Round(id: nat, item: ClaimItem): seq<Step> {
    [Submit(item, item.payment.payer, 0, 0)] + FinalizeNow(id, item.payment.payer)
  }

  function InFullOf(item: ClaimItem): Payment {
    Finalized(Stamped(item), Settled, item.payment.amount, NoReason, 0)
  }

  /** The claim passes, nothing else of its payer is pending, and its amount is within the payer's lien
      and within the ceiling it names. */
  predicate Payable(b: Book, item: ClaimItem) {
    && Acceptable(b, item)
    && (forall i | 0 <= i < |b.pays| :: !IsPendingOf(b.pays[i], item.payment.payer))
    && LienOf(item.payment.payer) in b.bal && item.payment.amount <= b.bal[LienOf(item.payment.payer)]
    && item.payment.amount <= b.ceils[item.ceiling.id].amount
  }

  /** What one such round leaves behind. */
  ghost predicate AfterRound(b: Book, b': Book, item: ClaimItem)
    requires item.ceiling.id < |b.ceils|
  {
    && b'.pays == b.pays + [InFullOf(item)] && Paid(b.bal, b'.bal, item.payment.payer, item.payment.amount)
    && b'.ceils == (if item.payment.amount == b.ceils[item.ceiling.id].amount then Exhaust(b.ceils, item.ceiling.id)
       else b.ceils)
  }

  lemma RoundSettled(b: Book, b1: Book, item: ClaimItem)
    requires BookOk(b1) && Payable(b, item)
    requires b1.pays == b.pays + [Stamped(item)] && b1.ceils == b.ceils && b1.bal.Keys == b.bal.Keys
    requires forall a | a in b.bal && OffMirror(a) :: a in b1.bal && b1.bal[a] == b.bal[a]
    ensures AfterRound(b, BookAfter(b1, FinalizeForPayer(b1, item.payment.payer, 0)), item)
  {
    hide BookOk, FinalizeForPayer, Validate, Insertable;
    var n, u := |b.pays|, item.payment.payer;
    assert b1.pays[n] == Stamped(item);
    assert forall k | 0 <= k < n :: b1.pays[k] == b.pays[k];
    assert LienOf(u) in b.bal && OffMirror(LienOf(u));
    FinalizeOne(b1, u, n);
    assert (b.pays + [Stamped(item)])[n := InFullOf(item)] == b.pays + [InFullOf(item)];
  }

  /** One round on the running world. */
  lemma RoundRuns(w: World, item: ClaimItem) returns (w': World)
    requires WorldOk(w) && Payable(w.book, item) && item.payment.payer != ""
    ensures w' == Run(w, Round(|w.outbox|, item)) && WorldOk(w') && |w'.outbox| == |w.outbox| + 1
    ensures item.ceiling.id < |w.book.ceils| && AfterRound(w.book, w'.book, item)
  {
    assert Acceptable(w.book, item) && item.ceiling.id < |w.book.ceils|;
    hide Run, WorldOk, BookOk, SubmitOne, FinalizeForPayer, FinalizeNow, BookAfter, Acceptable, Payable, AfterRound;
    var u := item.payment.payer;
    var e := Submit(item, u, 0, 0);
    WorldBookOk(w);
    ClaimAccepted(w.book, item);
    SubmitRuns(w, e);
    RunKeeps(w, [e]);
    var w1 := Run(w, [e]);
    FinalizeNowRuns(w1, u);
    RoundSettled(w.book, w1.book, item);
    RunConcat(w, [e], FinalizeNow(|w.outbox|, u));
    RunKeeps(w, Round(|w.outbox|, item));
    w' := Run(w, Round(|w.outbox|, item));
  }

  // ------------------------------------------------------------------ two funded users

  /** Two users enrolled, minted and funded: Ana with a ceiling of 1000, Ben with one of 100 and 100 left
      in his main account. */
  function TwoFunded(ana: UserId, ben: UserId): seq<Step> {
    [Enrol(ana)] + [Enrol(ben)] + [Step.DemoMint(ana, 1000)] + [Step.DemoMint(ben, 200)]
    + [FundOffline(ana, 1000, 0)] + [FundOffline(ben, 100, 0)]
  }

  predicate TwoReady(ana: UserId, ben: UserId, w: World) {
    && {MainOf(ana), PendingOf(ana), LienOf(ana), MainOf(ben), PendingOf(ben), LienOf(ben)} <= w.book.bal.Keys
    && w.book.bal[LienOf(ana)] == 1000 && w.book.bal[LienOf(ben)] == 100 && w.book.bal[MainOf(ben)] == 100
    && w.book.pays == [] && w.outbox == []
    && w.book.ceils == [Ceiling(ana, 1000, 0, 0, Active, None), Ceiling(ben, 100, 0, 0, Active, None)]
  }

  lemma EnrolledTwo(ana: UserId, ben: UserId, w: World)
    requires ana != ben
    requires w == Run(Genesis(), [Enrol(ana)] + [Enrol(ben)])
    ensures w.book.bal == Enrolled(Enrolled(Genesis().book.bal, ana), ben)
    ensures w.book.pays == [] && w.book.ceils == [] && w.outbox == []
  {
    hide Run;
    var w0 := Genesis();
    WalletApplied(w0, Enrol(ana));
    WalletApplied(Run(w0, [Enrol(ana)]), Enrol(ben));
    RunConcat(w0, [Enrol(ana)], [Enrol(ben)]);
  }

  /** Mint and fund for two enrolled users. */
  lemma MintedTwo(ana: UserId, ben: UserId, w: World) returns (w': World)
    requires ana != ben
    requires w.book.bal == Enrolled(Enrolled(Genesis().book.bal, ana), ben)
    requires w.book.pays == [] && w.book.ceils == [] && w.outbox == []
    ensures w' == Run(w, [Step.DemoMint(ana, 1000)] + [Step.DemoMint(ben, 200)])
    ensures {MainOf(ana), PendingOf(ana), LienOf(ana), MainOf(ben), PendingOf(ben), LienOf(ben)} <= w'.book.bal.Keys
    ensures w'.book.bal[MainOf(ana)] == 1000 && w'.book.bal[MainOf(ben)] == 200
    ensures w'.book.bal[LienOf(ana)] == 0 && w'.book.bal[LienOf(ben)] == 0
    ensures w'.book.pays == [] && w'.book.ceils == [] && w'.outbox == []
  {
    hide Run, Mint;
    MintGood(w.book, ana, 1000);
    WalletApplied(w, Step.DemoMint(ana, 1000));
    var w1 := Run(w, [Step.DemoMint(ana, 1000)]);
    MintGood(w1.book, ben, 200);
    WalletApplied(w1, Step.DemoMint(ben, 200));
    RunConcat(w, [Step.DemoMint(ana, 1000)], [Step.DemoMint(ben, 200)]);
    w' := Run(w1, [Step.DemoMint(ben, 200)]);
  }

  lemma FundedTwo(ana: UserId, ben: UserId, w: World) returns (w': World)
    requires ana != ben
    requires {MainOf(ana), PendingOf(ana), LienOf(ana), MainOf(ben), PendingOf(ben), LienOf(ben)} <= w.book.bal.Keys
    requires w.book.bal[MainOf(ana)] == 1000 && w.book.bal[MainOf(ben)] == 200
    requires w.book.bal[LienOf(ana)] == 0 && w.book.bal[LienOf(ben)] == 0
    requires w.book.pays == [] && w.book.ceils == [] && w.outbox == []
    ensures w' == Run(w, [FundOffline(ana, 1000, 0)] + [FundOffline(ben, 100, 0)]) && TwoReady(ana, ben, w')
  {
    hide Run, Fund;
    FundGood(w.book, ana, 1000);
    WalletApplied(w, FundOffline(ana, 1000, 0));
    var w1 := Run(w, [FundOffline(ana, 1000, 0)]);
    assert w1.book.ceils == [Ceiling(ana, 1000, 0, 0, Active, None)];
    FundGood(w1.book, ben, 100);
    WalletApplied(w1, FundOffline(ben, 100, 0));
    RunConcat(w, [FundOffline(ana, 1000, 0)], [FundOffline(ben, 100, 0)]);
    w' := Run(w1, [FundOffline(ben, 100, 0)]);
  }

  lemma StartTwo(ana: UserId, ben: UserId)
    requires ana != ben
    ensures TwoReady(ana, ben, Run(Genesis(), TwoFunded(ana, ben))) && WorldOk(Run(Genesis(), TwoFunded(ana, ben)))
  {
    hide Run, WorldOk, Genesis, TwoReady;
    var xs, ys := [Enrol(ana)] + [Enrol(ben)], [Step.DemoMint(ana, 1000)] + [Step.DemoMint(ben, 200)];
    var zs := [FundOffline(ana, 1000, 0)] + [FundOffline(ben, 100, 0)];
    var w1 := Run(Genesis(), xs);
    EnrolledTwo(ana, ben, w1);
    var w2 := MintedTwo(ana, ben, w1);
    var w3 := FundedTwo(ana, ben, w2);
    RunConcat(Genesis(), xs, ys);
    RunConcat(Genesis(), xs + ys, zs);
    assert TwoFunded(ana, ben) == (xs + ys) + zs;
    Reachable(TwoFunded(ana, ben));
  }
}
