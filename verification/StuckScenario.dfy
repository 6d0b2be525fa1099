/** A run into a stuck settlement: a ceiling of 100, a payment of 60 finalized on its own, then a second
    payment of 60. Finalized together they would settle 60 and 40; finalized apart, the second call
    asks the lien for 60 of the remaining 40. */
module StuckScenario {
  import opened Basics
  import opened Domain
  import opened Claims
  import opened Finalize
  import opened Wallet
  import opened World
  import opened Invariants
  import opened Finalizing
  import opened LienKeeps
  import opened Runs
  import opened LienRuns
  import opened Stuck
  import opened Script

  /** Ben pays Ana sixty on his own ceiling. */
  function BenOnBens(ana: UserId, ben: UserId, seqNo: int, nonce: Bytes): ClaimItem {
    Claim(ben, ana, 60, seqNo, 1, nonce)
  }

  /** Sixty settled under Ben's ceiling and sixty more pending: Ben is stuck. */
  function WedgeScript(ana: UserId, ben: UserId): seq<Step> {
    TwoFunded(ana, ben) + (Round(0, BenOnBens(ana, ben, 1, [2])) + [Submit(BenOnBens(ana, ben, 2, [3]), ben, 0, 0)])
  }

  /** The stuck state, in numbers. */
  ghost predicate BenStuck(ana: UserId, ben: UserId, w: World) {
    && {MainOf(ana), PendingOf(ana), LienOf(ana), MainOf(ben), PendingOf(ben), LienOf(ben)} <= w.book.bal.Keys
    && w.book.bal[LienOf(ana)] == 1000 && w.book.bal[LienOf(ben)] == 40 && w.book.bal[MainOf(ben)] >= 100
    && w.book.pays == [] + [InFullOf(BenOnBens(ana, ben, 1, [2]))] + [Stamped(BenOnBens(ana, ben, 2, [3]))]
    && w.book.ceils == [Ceiling(ana, 1000, 0, 0, Active, None), Ceiling(ben, 100, 0, 0, Active, None)]
    && |w.outbox| == 1
  }

  lemma BenFirst(ana: UserId, ben: UserId, w: World)
    requires ana != ben && TwoReady(ana, ben, w)
    ensures Payable(w.book, BenOnBens(ana, ben, 1, [2]))
  {
    hide Insertable;
    ClaimAcceptable(w.book, ben, ana, 60, 1, 1, [2]);
  }

  lemma BenSecond(ana: UserId, ben: UserId, w: World, b: Book)
    requires ana != ben && TwoReady(ana, ben, w) && AfterRound(w.book, b, BenOnBens(ana, ben, 1, [2]))
    ensures Acceptable(b, BenOnBens(ana, ben, 2, [3])) && b.ceils == w.book.ceils && b.bal.Keys == w.book.bal.Keys
    ensures b.pays == [] + [InFullOf(BenOnBens(ana, ben, 1, [2]))]
    ensures LienOf(ana) in b.bal && LienOf(ben) in b.bal && MainOf(ben) in b.bal
    ensures b.bal[LienOf(ana)] == 1000 && b.bal[LienOf(ben)] == 40 && b.bal[MainOf(ben)] >= 100
  {
    hide Insertable, Validate;
    assert [2 as bv8][0] != [3 as bv8][0];
    assert MainOf(ben) in b.bal.Keys && PendingOf(ana) in b.bal.Keys;
    ClaimAcceptable(b, ben, ana, 60, 2, 1, [3]);
  }

  lemma WedgeRuns(ana: UserId, ben: UserId) returns (w: World)
    requires ana != ben && ben != ""
    ensures w == Run(Genesis(), WedgeScript(ana, ben)) && WorldOk(w) && BenStuck(ana, ben, w)
  {
    hide Run, WorldOk, BookOk, Genesis, Round, TwoFunded, Payable, Acceptable, InFullOf, Stamped, SubmitOne;
    var i1, i2 := BenOnBens(ana, ben, 1, [2]), BenOnBens(ana, ben, 2, [3]);
    var e2 := Submit(i2, ben, 0, 0);
    StartTwo(ana, ben);
    var w0 := Run(Genesis(), TwoFunded(ana, ben));
    BenFirst(ana, ben, w0);
    var w1 := RoundRuns(w0, i1);
    BenSecond(ana, ben, w0, w1.book);
    WorldBookOk(w1);
    ClaimAccepted(w1.book, i2);
    SubmitRuns(w1, e2);
    RunKeeps(w1, [e2]);
    w := Run(w1, [e2]);
    RunConcat(w0, Round(0, i1), [e2]);
    RunConcat(Genesis(), TwoFunded(ana, ben), Round(0, i1) + [e2]);
  }

  lemma BenIsStuck(ana: UserId, ben: UserId, w: World)
    requires ana != ben && BenStuck(ana, ben, w)
    ensures Apart(w.book, ben, 1) && Wedged(w.book, ben, 1) && IsPendingOf(w.book.pays[1], ben)
  {
    var x, y := InFullOf(BenOnBens(ana, ben, 1, [2])), Stamped(BenOnBens(ana, ben, 2, [3]));
    SumPush([], x, SettledUnder(1));
    SumPush([] + [x], y, SettledUnder(1));
    SumPush([], x, OwedBy(ben));
    SumPush([] + [x], y, OwedBy(ben));
  }

  // ------------------------------------------------------------------ the run is orderly

  lemma OwnSubmitOrderly(w: World, item: ClaimItem, exact: bool)
    requires OwnLiveCeiling(w.book, item.payment)
    ensures OrderlyRun(w, [Submit(item, item.payment.payer, 0, 0)], exact)
  {
    hide SubmitOne;
    assert [Submit(item, item.payment.payer, 0, 0)][..0] == [];
    assert OrderlyRun(w, [], exact) && Run(w, []) == w;
  }

  lemma RoundOrderly(w: World, id: nat, item: ClaimItem)
    requires OwnLiveCeiling(w.book, item.payment)
    ensures OrderlyRun(w, Round(id, item), true)
  {
    hide Run, OrderlyRun, OwnLiveCeiling;
    var e := Submit(item, item.payment.payer, 0, 0);
    OwnSubmitOrderly(w, item, true);
    NoClaimsOrderly(Run(w, [e]), FinalizeNow(id, item.payment.payer), true);
    OrderlyConcat(w, [e], FinalizeNow(id, item.payment.payer), true);
  }

  lemma WedgeOrderly(ana: UserId, ben: UserId)
    requires ana != ben && ben != ""
    ensures OrderlyRun(Genesis(), WedgeScript(ana, ben), true)
  {
    hide Run, WorldOk, Genesis, Round, OrderlyRun, Payable, TwoReady, AfterRound;
    var i1, i2 := BenOnBens(ana, ben, 1, [2]), BenOnBens(ana, ben, 2, [3]);
    var e2 := Submit(i2, ben, 0, 0);
    NoClaimsOrderly(Genesis(), TwoFunded(ana, ben), true);
    StartTwo(ana, ben);
    var w0 := Run(Genesis(), TwoFunded(ana, ben));
    BenOwns(ana, ben, w0);
    RoundOrderly(w0, 0, i1);
    BenFirst(ana, ben, w0);
    var w1 := RoundRuns(w0, i1);
    BenSecond(ana, ben, w0, w1.book);
    OwnSubmitOrderly(w1, i2, true);
    OrderlyConcat(w0, Round(0, i1), [e2], true);
    OrderlyConcat(Genesis(), TwoFunded(ana, ben), Round(0, i1) + [e2], true);
  }

  lemma BenOwns(ana: UserId, ben: UserId, w: World)
    requires TwoReady(ana, ben, w)
    ensures |w.outbox| == 0 && |w.book.ceils| == 2 && w.book.ceils[1] == Ceiling(ben, 100, 0, 0, Active, None)
  {
  }

  /** For any two users a run in which every claim is on its payer's own live ceiling and nothing is swept,
      and still it ends with Ben stuck: 60 settled, 60 pending. */
  lemma StuckRun(ana: UserId, ben: UserId)
    requires ana != ben && ben != ""
    ensures OrderlyRun(Genesis(), WedgeScript(ana, ben), true)
    ensures var b := Run(Genesis(), WedgeScript(ana, ben)).book;
            && Wedged(b, ben, 1) && |b.pays| == 2 && b.pays[0].settled == 60
            && b.pays[1].status == Pending && b.pays[1].amount == 60
  {
    hide Run, WorldOk, Genesis, WedgeScript, Wedged, OrderlyRun;
    WedgeOrderly(ana, ben);
    var w := WedgeRuns(ana, ben);
    BenIsStuck(ana, ben, w);
  }
}
