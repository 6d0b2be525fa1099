/** Where the ceiling bound fails: runs in which a claim passes every check of the service although
    the stored ceiling it names belongs to somebody else. */
module ForeignScenario {
  import opened Basics
  import opened Domain
  import opened Claims
  import opened Finalize
  import opened Wallet
  import opened World
  import opened Invariants
  import opened Allocation
  import opened Draining
  import opened Finalizing
  import opened OverSettling
  import opened Runs
  import opened LienRuns
  import opened Stuck
  import opened Script
  import opened StuckScenario

  /** Ana pays Ben sixty, naming Ben's ceiling instead of her own. */
  function AnaOnBens(ana: UserId, ben: UserId, seqNo: int, nonce: Bytes): ClaimItem {
    Claim(ana, ben, 60, seqNo, 1, nonce)
  }

  function OverScript(ana: UserId, ben: UserId): seq<Step> {
    TwoFunded(ana, ben) + (Round(0, AnaOnBens(ana, ben, 1, [0])) + Round(1, AnaOnBens(ana, ben, 2, [1])))
  }

  lemma OverSettledBreaks(b: Book, c: nat)
    requires c < |b.ceils| && SettledTotal(b.pays, c) > b.ceils[c].amount
    ensures !LienOk(b, true)
  {
    assert !CeilingsBounded(b.pays, b.ceils);
  }

  lemma FirstPayable(ana: UserId, ben: UserId, w: World)
    requires ana != ben && TwoReady(ana, ben, w)
    ensures Payable(w.book, AnaOnBens(ana, ben, 1, [0])) && |w.outbox| == 0
    ensures |w.book.ceils| == 2 && w.book.ceils[1] == Ceiling(ben, 100, 0, 0, Active, None)
  {
    hide Insertable;
    ClaimAcceptable(w.book, ana, ben, 60, 1, 1, [0]);
  }

  lemma SecondPayable(ana: UserId, ben: UserId, w: World, b: Book)
    requires ana != ben && TwoReady(ana, ben, w) && AfterRound(w.book, b, AnaOnBens(ana, ben, 1, [0]))
    ensures Payable(b, AnaOnBens(ana, ben, 2, [1])) && b.ceils == w.book.ceils
    ensures b.pays == [] + [InFullOf(AnaOnBens(ana, ben, 1, [0]))]
  {
    hide Insertable, Validate;
    assert [0 as bv8][0] != [1 as bv8][0];
    assert MainOf(ana) in b.bal.Keys && PendingOf(ben) in b.bal.Keys;
    ClaimAcceptable(b, ana, ben, 60, 2, 1, [1]);
  }

  /** The two rounds from the funded state. */
  lemma TwoRounds(ana: UserId, ben: UserId, w: World) returns (w2: World)
    requires ana != ben && ana != "" && WorldOk(w) && TwoReady(ana, ben, w)
    ensures w2 == Run(w, Round(0, AnaOnBens(ana, ben, 1, [0])) + Round(1, AnaOnBens(ana, ben, 2, [1])))
    ensures w2.book.pays == [] + [InFullOf(AnaOnBens(ana, ben, 1, [0]))] + [InFullOf(AnaOnBens(ana, ben, 2, [1]))]
    ensures |w2.book.ceils| == 2 && w2.book.ceils[1] == Ceiling(ben, 100, 0, 0, Active, None)
  {
    hide Run, WorldOk, Round, TwoReady, Payable, InFullOf;
    var i1, i2 := AnaOnBens(ana, ben, 1, [0]), AnaOnBens(ana, ben, 2, [1]);
    FirstPayable(ana, ben, w);
    var w1 := RoundRuns(w, i1);
    SecondPayable(ana, ben, w, w1.book);
    w2 := RoundRuns(w1, i2);
    RunConcat(w, Round(0, i1), Round(1, i2));
  }

  /** For any two users: every claim of the run passes every check and is accepted, and at the end 120
      are settled under a ceiling of 100. The bound on a ceiling's settled total is false of the code,
      and with it the lien invariant. */
  lemma CeilingOverSettled(ana: UserId, ben: UserId)
    requires ana != ben && ana != ""
    ensures Validate(AnaOnBens(ana, ben, 1, [0]), ana, 0) == Pass
            && Validate(AnaOnBens(ana, ben, 2, [1]), ana, 0) == Pass
    ensures var b := Run(Genesis(), OverScript(ana, ben)).book;
            && |b.ceils| == 2 && b.ceils[1] == Ceiling(ben, 100, 0, 0, Active, None)
            && SettledTotal(b.pays, 1) == 120 && !LienOk(b, true)
  {
    ClaimPasses(ana, ben, 60, 1, 1, [0]);
    ClaimPasses(ana, ben, 60, 2, 1, [1]);
    hide Run, WorldOk, LienOk, Genesis, Round, Validate, TwoFunded, TwoReady, SettledTotal;
    StartTwo(ana, ben);
    var i1, i2 := AnaOnBens(ana, ben, 1, [0]), AnaOnBens(ana, ben, 2, [1]);
    var w2 := TwoRounds(ana, ben, Run(Genesis(), TwoFunded(ana, ben)));
    RunConcat(Genesis(), TwoFunded(ana, ben), Round(0, i1) + Round(1, i2));
    TwoSettled(w2.book.pays, InFullOf(i1), InFullOf(i2));
    OverSettledBreaks(w2.book, 1);
  }

  lemma TwoSettled(pays: seq<Payment>, x: Payment, y: Payment)
    requires pays == [] + [x] + [y] && x.ceiling == y.ceiling == 1
    ensures SettledTotal(pays, 1) == x.settled + y.settled
  {
    SumPush([], x, SettledUnder(1));
    SumPush([] + [x], y, SettledUnder(1));
  }

  // ------------------------------------------------------------------ one pending list, two ceilings

  /** Ana pays Ben on her own ceiling and on his, and nothing is finalized. */
  function MixedScript(ana: UserId, ben: UserId): seq<Step> {
    TwoFunded(ana, ben)
    + ([Submit(Claim(ana, ben, 60, 1, 0, [0]), ana, 0, 0)] + [Submit(Claim(ana, ben, 120, 2, 1, [1]), ana, 0, 0)])
  }

  lemma MixedFirst(ana: UserId, ben: UserId, w: World)
    requires ana != ben && TwoReady(ana, ben, w)
    ensures Acceptable(w.book, Claim(ana, ben, 60, 1, 0, [0])) && w.book.pays == []
  {
    hide Insertable;
    ClaimAcceptable(w.book, ana, ben, 60, 1, 0, [0]);
  }

  lemma MixedSecond(ana: UserId, ben: UserId, w: World, b: Book)
    requires ana != ben && TwoReady(ana, ben, w) && b.bal.Keys == w.book.bal.Keys && b.ceils == w.book.ceils
    requires b.pays == [] + [Stamped(Claim(ana, ben, 60, 1, 0, [0]))]
    ensures Acceptable(b, Claim(ana, ben, 120, 2, 1, [1]))
  {
    hide Insertable, Validate;
    assert [0 as bv8][0] != [1 as bv8][0];
    assert MainOf(ana) in b.bal.Keys && PendingOf(ben) in b.bal.Keys;
    ClaimAcceptable(b, ana, ben, 120, 2, 1, [1]);
  }

  /** Both claims pending, nothing finalized. */
  ghost predicate Mixed(ana: UserId, ben: UserId, w: World) {
    && w.book.pays == [] + [Stamped(Claim(ana, ben, 60, 1, 0, [0]))] + [Stamped(Claim(ana, ben, 120, 2, 1, [1]))]
    && w.book.ceils == [Ceiling(ana, 1000, 0, 0, Active, None), Ceiling(ben, 100, 0, 0, Active, None)]
    && LienOf(ana) in w.book.bal && w.book.bal[LienOf(ana)] == 1000 && |w.outbox| == 0
  }

  lemma MixedRuns(ana: UserId, ben: UserId) returns (w: World)
    requires ana != ben
    ensures w == Run(Genesis(), MixedScript(ana, ben)) && WorldOk(w) && Mixed(ana, ben, w)
  {
    hide Run, WorldOk, BookOk, Genesis, TwoFunded, Acceptable, SubmitOne, Stamped;
    var i1, i2 := Claim(ana, ben, 60, 1, 0, [0]), Claim(ana, ben, 120, 2, 1, [1]);
    var e1, e2 := Submit(i1, ana, 0, 0), Submit(i2, ana, 0, 0);
    StartTwo(ana, ben);
    var w0 := Run(Genesis(), TwoFunded(ana, ben));
    WorldBookOk(w0);
    MixedFirst(ana, ben, w0);
    ClaimAccepted(w0.book, i1);
    SubmitRuns(w0, e1);
    var w1 := Run(w0, [e1]);
    MixedSecond(ana, ben, w0, w1.book);
    ClaimAccepted(w1.book, i2);
    SubmitRuns(w1, e2);
    w := Run(w1, [e2]);
    RunConcat(w0, [e1], [e2]);
    RunConcat(Genesis(), TwoFunded(ana, ben), [e1] + [e2]);
    Reachable(MixedScript(ana, ben));
  }

  /** The payments of one pending list need not share a ceiling. */
  lemma QueueMixesCeilings(ana: UserId, ben: UserId)
    requires ana != ben
    ensures var pays := Run(Genesis(), MixedScript(ana, ben)).book.pays;
            && |pays| == 2 && IsPendingOf(pays[0], ana) && IsPendingOf(pays[1], ana)
            && pays[0].ceiling == 0 && pays[1].ceiling == 1
  {
    hide Run, Genesis;
    var w := MixedRuns(ana, ben);
  }

  lemma TwoPending(pays: seq<Payment>, x: Payment, y: Payment, u: UserId)
    requires pays == [] + [x] + [y] && IsPendingOf(x, u) && IsPendingOf(y, u)
    ensures PendingIds(pays, u) == [0, 1]
  {
    assert pays[..1] == [x] && [x][..0] == [];
    assert PendingIds([x], u) == PendingIds([], u) + [0];
    assert PendingIds(pays, u) == PendingIds(pays[..1], u) + [1];
  }

  lemma TwoSorted(pays: seq<Payment>)
    requires |pays| == 2 && pays[0].seqNo <= pays[1].seqNo
    ensures SortBySeq(pays, [0, 1]) == [0, 1]
  {
    assert [0, 1][..1] == [0] && [0][..0] == [];
    assert SortBySeq(pays, [0]) == InsertBySeq(pays, SortBySeq(pays, []), 0);
    assert SortBySeq(pays, [0, 1]) == InsertBySeq(pays, SortBySeq(pays, [0, 1][..1]), 1);
  }

  lemma TwoQueued(pays: seq<Payment>, x: Payment, y: Payment, u: UserId)
    requires pays == [] + [x] + [y] && IsPendingOf(x, u) && IsPendingOf(y, u) && x.seqNo <= y.seqNo
    ensures Queue(pays, u) == [0, 1]
  {
    hide SortBySeq, PendingIds;
    TwoPending(pays, x, y, u);
    TwoSorted(pays);
  }

  /** Out of a ceiling of a thousand such a queue pays the second payment in full, under the ceiling of a
      hundred that it names. */
  lemma MixedPays(pays: seq<Payment>, x: Payment, y: Payment, u: UserId)
    requires pays == [] + [x] + [y] && IsPendingOf(x, u) && IsPendingOf(y, u) && x.seqNo <= y.seqNo
    requires x.ceiling == 0 && x.amount == 60 && y.ceiling == 1 && y.amount == 120
    ensures Queue(pays, u) == [0, 1] && QueuePays(pays, u, 1000, 1) == 120 && PendingTotal(pays, u) == 180
  {
    hide Queue;
    TwoQueued(pays, x, y, u);
    var ids: seq<nat> := [0, 1];
    var amounts := Amounts(pays, ids);
    assert amounts[..0] == [] && amounts[..1] == [] + [60] && amounts[..2] == amounts[..1] + [120];
    SumPush<int>([], 60, Identity());
    SumPush<int>(amounts[..1], 120, Identity());
    assert PaidUnder(pays, ids, 1000, 1, 1) == 0;
    QueueTotalIsPendingTotal(pays, u);
  }

  /** Nothing settled under Ben's ceiling of 100 before, and one finalize settles 120 under it. */
  lemma MixedOverSettles(ana: UserId, ben: UserId)
    requires ana != ben && ana != ""
    ensures SettledTotal(Run(Genesis(), MixedScript(ana, ben)).book.pays, 1) == 0
    ensures var b := Run(Genesis(), MixedScript(ana, ben) + FinalizeNow(0, ana)).book;
            SettledTotal(b.pays, 1) == 120 && 1 < |b.ceils| && b.ceils[1].amount == 100
  {
    hide Run, WorldOk, BookOk, Genesis, MixedScript, FinalizeNow, FinalizeForPayer, Queue, PendingTotal, QueuePays;
    var w := MixedRuns(ana, ben);
    var x, y := Stamped(Claim(ana, ben, 60, 1, 0, [0])), Stamped(Claim(ana, ben, 120, 2, 1, [1]));
    MixedPays(w.book.pays, x, y, ana);
    SumPush([], x, SettledUnder(1));
    SumPush([] + [x], y, SettledUnder(1));
    WorldBookOk(w);
    FinalizeCommitsIff(w.book, ana, 0);
    FinalizeAddsUnder(w.book, ana, 1, 0);
    CeilingsStand(w.book, ana);
    FinalizeNowRuns(w, ana);
    RunConcat(Genesis(), MixedScript(ana, ben), FinalizeNow(0, ana));
  }

  lemma CeilingsStand(b: Book, u: UserId)
    requires BookOk(b) && Queue(b.pays, u) != [] && FinalizeForPayer(b, u, 0).Committed?
    ensures var ceils' := FinalizeForPayer(b, u, 0).book.ceils;
            |ceils'| == |b.ceils| && forall i | 0 <= i < |ceils'| :: ceils'[i].amount == b.ceils[i].amount
  {
    hide BookOk, Queue, Drain;
    FinalizeParts(b, u, 0);
  }

  // ------------------------------------------------------------------ a claim that ends a stuck settlement

  /** Ana pays Ben a hundred, naming Ben's ceiling. */
  function Crossing(ana: UserId, ben: UserId): ClaimItem { Claim(ana, ben, 100, 1, 1, [0]) }

  /** Ana uses up Ben's ceiling, so Ben can fund again and the lien covers what he has pending. */
  function EscapeScript(ana: UserId, ben: UserId): seq<Step> {
    Round(1, Crossing(ana, ben)) + ([FundOffline(ben, 100, 0)] + FinalizeNow(2, ben))
  }

  lemma CrossingPayable(ana: UserId, ben: UserId, w: World)
    requires ana != ben && BenStuck(ana, ben, w)
    ensures Payable(w.book, Crossing(ana, ben))
  {
    hide Insertable;
    assert [0 as bv8][0] != [2 as bv8][0] && [0 as bv8][0] != [3 as bv8][0];
    ClaimAcceptable(w.book, ana, ben, 100, 1, 1, [0]);
  }

  /** After the crossing Ben has no live ceiling, so he can fund again. */
  lemma AfterCrossing(ana: UserId, ben: UserId, w: World, b: Book)
    requires ana != ben && BenStuck(ana, ben, w) && AfterRound(w.book, b, Crossing(ana, ben))
    ensures Fund(b, ben, 100, 0).Some?
    ensures var b' := Fund(b, ben, 100, 0).value;
            && |b'.pays| == 3 && b'.pays[1] == Stamped(BenOnBens(ana, ben, 2, [3]))
            && (forall k | 0 <= k < 3 && k != 1 :: !IsPendingOf(b'.pays[k], ben))
            && |b'.ceils| == 3 && b'.ceils[1].amount == 100 && LienOf(ben) in b'.bal && b'.bal[LienOf(ben)] == 140
  {
    hide Fund;
    assert {MainOf(ben), LienOf(ben)} <= b.bal.Keys;
    FundGood(b, ben, 100);
  }

  /** Why the claims must keep apart in StuckForever: one accepted claim of Ana on Ben's ceiling, and
      Ben's stuck payment settles. */
  lemma CrossingEndsIt(ana: UserId, ben: UserId)
    requires ana != ben && ana != "" && ben != ""
    ensures var w := Run(Genesis(), WedgeScript(ana, ben));
            && Apart(w.book, ben, 1) && Wedged(w.book, ben, 1) && |w.book.pays| == 2 && IsPendingOf(w.book.pays[1], ben)
            && var pays' := Run(w, EscapeScript(ana, ben)).book.pays;
            |pays'| == 3 && pays'[1].status == Settled
  {
    hide Run, WorldOk, BookOk, Genesis, Round, FinalizeNow, WedgeScript, Apart, Wedged, Payable, Fund,
        FinalizeForPayer, BookAfter, AfterRound, BenStuck;
    var w := WedgeRuns(ana, ben);
    BenIsStuck(ana, ben, w);
    CrossingPayable(ana, ben, w);
    StuckLists(ana, ben, w);
    var w1 := RoundRuns(w, Crossing(ana, ben));
    AfterCrossing(ana, ben, w, w1.book);
    var w3 := FundAndFinalize(ben, w1);
    RunConcat(w, Round(1, Crossing(ana, ben)), [FundOffline(ben, 100, 0)] + FinalizeNow(2, ben));
  }

  lemma StuckLists(ana: UserId, ben: UserId, w: World)
    requires BenStuck(ana, ben, w)
    ensures |w.book.pays| == 2 && |w.outbox| == 1
  {
  }

  lemma FundAndFinalize(ben: UserId, w: World) returns (w': World)
    requires WorldOk(w) && ben != "" && Fund(w.book, ben, 100, 0).Some?
    requires var b := Fund(w.book, ben, 100, 0).value;
             && |b.pays| == 3 && IsPendingOf(b.pays[1], ben) && b.pays[1].ceiling == 1 && b.pays[1].amount == 60
             && (forall k | 0 <= k < 3 && k != 1 :: !IsPendingOf(b.pays[k], ben))
             && |b.ceils| == 3 && b.ceils[1].amount == 100 && LienOf(ben) in b.bal && b.bal[LienOf(ben)] == 140
    ensures w' == Run(w, [FundOffline(ben, 100, 0)] + FinalizeNow(|w.outbox|, ben))
    ensures |w'.book.pays| == 3 && w'.book.pays[1].status == Settled
  {
    hide Run, WorldOk, BookOk, FinalizeNow, Fund, FinalizeForPayer;
    var e := FundOffline(ben, 100, 0);
    WalletApplied(w, e);
    RunKeeps(w, [e]);
    var w1 := Run(w, [e]);
    WorldBookOk(w1);
    FinalizeOne(w1.book, ben, 1);
    FinalizeNowRuns(w1, ben);
    RunConcat(w, [e], FinalizeNow(|w.outbox|, ben));
    w' := Run(w1, FinalizeNow(|w.outbox|, ben));
  }
}
