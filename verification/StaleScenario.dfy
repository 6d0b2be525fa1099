/** What goes wrong when something is acted on that was read ahead of the transaction: the expiry job
    releases a ceiling that is live no more, and a claim is accepted under a ceiling drained meanwhile. */
module StaleScenario {
  import opened Basics
  import opened Domain
  import opened Claims
  import opened Finalize
  import opened Wallet
  import opened World
  import opened Invariants
  import opened AcceptKeeps
  import opened Finalizing
  import opened LienKeeps
  import opened Runs
  import opened LienRuns
  import opened Script

  // ------------------------------------------------------------------ a candidate released too late

  const AFTER_GRACE: Time := RELEASE_GRACE + 1

  /** Ben's ceiling has expired and is listed; he refreshes it; then the listed one is released. */
  function LateRelease(ana: UserId, ben: UserId): seq<Step> {
    TwoFunded(ana, ben)
    + (([ListExpired(AFTER_GRACE)] + [RefreshWallet(ben, 100, 0)]) + [SweepCeiling(Candidate(1, Active))])
  }

  lemma ListRuns(w: World, now: Time)
    ensures Run(w, [ListExpired(now)]) == w.(listed := w.listed + ReleasableNow(w.book, now))
  {
    hide ReleasableNow;
    OneStep(w, ListExpired(now));
  }

  lemma SweepRuns(w: World, x: Candidate)
    requires x in w.listed && Sweep(w.book, x).Some?
    ensures Run(w, [SweepCeiling(x)]) == w.(book := Sweep(w.book, x).value)
  {
    hide Sweep;
    OneStep(w, SweepCeiling(x));
  }

  lemma BenIsListed(ana: UserId, ben: UserId, w: World)
    requires ana != ben && TwoReady(ana, ben, w)
    ensures Candidate(1, Active) in ReleasableNow(w.book, AFTER_GRACE)
  {
    assert Releasable(w.book, 1, AFTER_GRACE);
    assert w.book.ceils[1].status == Active;
  }

  lemma NothingSettled(c: nat)
    ensures SettledTotal([], c) == 0
  {
  }

  /** Draining Ben's wallet of a hundred. */
  lemma BenDrains(ana: UserId, ben: UserId, b: Book)
    requires ana != ben && b.pays == [] && {MainOf(ben), LienOf(ben)} <= b.bal.Keys && b.bal[LienOf(ben)] == 100
    requires b.ceils == [Ceiling(ana, 1000, 0, 0, Active, None), Ceiling(ben, 100, 0, 0, Active, None)]
    ensures ActiveCeiling(b.ceils, ben) == Some(1) && DrainWallet(b, ben).Some?
    ensures var b' := DrainWallet(b, ben).value;
            && b'.pays == [] && b'.bal == b.bal[LienOf(ben) := 0][MainOf(ben) := b.bal[MainOf(ben)] + 100]
            && b'.ceils == [Ceiling(ana, 1000, 0, 0, Active, None), Ceiling(ben, 100, 0, 0, Revoked, None)]
  {
    hide Release;
    NothingSettled(1);
    ReleaseEffect(b, 1, Revoked, OfflineDrain);
  }

  lemma BenRefreshes(ana: UserId, ben: UserId, b: Book)
    requires ana != ben && b.pays == [] && {MainOf(ben), LienOf(ben)} <= b.bal.Keys
    requires b.bal[LienOf(ben)] == 100 && b.bal[MainOf(ben)] == 100
    requires b.ceils == [Ceiling(ana, 1000, 0, 0, Active, None), Ceiling(ben, 100, 0, 0, Active, None)]
    ensures Refresh(b, ben, 100, 0).Some?
    ensures var b' := Refresh(b, ben, 100, 0).value;
            && b'.pays == [] && {MainOf(ben), LienOf(ben)} <= b'.bal.Keys && b'.bal[LienOf(ben)] == 100
            && b'.ceils == [Ceiling(ana, 1000, 0, 0, Active, None), Ceiling(ben, 100, 0, 0, Revoked, None),
                            Ceiling(ben, 100, 0, 0, Active, None)]
  {
    hide DrainWallet, Fund;
    BenDrains(ana, ben, b);
    FundGood(DrainWallet(b, ben).value, ben, 100);
  }

  lemma OldCeilingSwept(ana: UserId, ben: UserId, b: Book)
    requires b.pays == [] && {MainOf(ben), LienOf(ben)} <= b.bal.Keys && b.bal[LienOf(ben)] == 100
    requires |b.ceils| == 3 && b.ceils[1] == Ceiling(ben, 100, 0, 0, Revoked, None)
    ensures Sweep(b, Candidate(1, Active)).Some?
    ensures var b' := Sweep(b, Candidate(1, Active)).value;
            && b'.pays == [] && LienOf(ben) in b'.bal && b'.bal[LienOf(ben)] == 0
            && |b'.ceils| == 3 && b'.ceils[2] == b.ceils[2]
  {
    hide Release;
    NothingSettled(1);
    ReleaseEffect(b, 1, CeilingExpired, OfflineExpiryRelease);
  }

  /** The candidate is listed and Ben has refreshed. */
  ghost predicate Refreshed(ana: UserId, ben: UserId, w: World) {
    && Candidate(1, Active) in w.listed && w.book.pays == []
    && {MainOf(ben), LienOf(ben)} <= w.book.bal.Keys && w.book.bal[LienOf(ben)] == 100
    && w.book.ceils == [Ceiling(ana, 1000, 0, 0, Active, None), Ceiling(ben, 100, 0, 0, Revoked, None),
                        Ceiling(ben, 100, 0, 0, Active, None)]
  }

  lemma ListAndRefresh(ana: UserId, ben: UserId, w: World)
    requires ana != ben && TwoReady(ana, ben, w)
    ensures Refreshed(ana, ben, Run(w, [ListExpired(AFTER_GRACE)] + [RefreshWallet(ben, 100, 0)]))
  {
    hide Run, ReleasableNow, Refresh;
    BenIsListed(ana, ben, w);
    ListRuns(w, AFTER_GRACE);
    var w1 := Run(w, [ListExpired(AFTER_GRACE)]);
    BenRefreshes(ana, ben, w1.book);
    WalletApplied(w1, RefreshWallet(ben, 100, 0));
    RunConcat(w, [ListExpired(AFTER_GRACE)], [RefreshWallet(ben, 100, 0)]);
  }

  /** The two steps, then the sweep. */
  lemma SweptLate(ana: UserId, ben: UserId, w: World) returns (w': World)
    requires ana != ben && TwoReady(ana, ben, w)
    ensures w' == Run(w, ([ListExpired(AFTER_GRACE)] + [RefreshWallet(ben, 100, 0)])
                         + [SweepCeiling(Candidate(1, Active))])
    ensures w'.book.pays == [] && |w'.book.ceils| == 3 && w'.book.ceils[2] == Ceiling(ben, 100, 0, 0, Active, None)
    ensures LienOf(ben) in w'.book.bal && w'.book.bal[LienOf(ben)] == 0
  {
    hide Run, Sweep, TwoReady;
    var es, e := [ListExpired(AFTER_GRACE)] + [RefreshWallet(ben, 100, 0)], SweepCeiling(Candidate(1, Active));
    ListAndRefresh(ana, ben, w);
    var w2 := Run(w, es);
    OldCeilingSwept(ana, ben, w2.book);
    SweepRuns(w2, Candidate(1, Active));
    RunConcat(w, es, [e]);
    w' := Run(w2, [e]);
  }

  lemma NoClaimsIn(ana: UserId, ben: UserId)
    ensures OrderlyRun(Genesis(), LateRelease(ana, ben), false)
  {
    hide OrderlyRun, Genesis;
    NoClaimsOrderly(Genesis(), LateRelease(ana, ben), false);
  }

  /** For any two users a run without a single claim: at the end Ben has a live ceiling of 100, nothing is
      settled under it, and his lien is empty. The old ceiling's hundred was paid back twice, once out
      of the new ceiling's lien. Only the exact form of the lien invariant is lost. */
  lemma LateReleaseEmptiesLien(ana: UserId, ben: UserId)
    requires ana != ben
    ensures OrderlyRun(Genesis(), LateRelease(ana, ben), false)
    ensures var b := Run(Genesis(), LateRelease(ana, ben)).book;
            && |b.ceils| == 3 && b.ceils[2] == Ceiling(ben, 100, 0, 0, Active, None) && SettledTotal(b.pays, 2) == 0
            && LienOf(ben) in b.bal && b.bal[LienOf(ben)] == 0 && !LienOk(b, true)
  {
    hide Run, WorldOk, Genesis, TwoFunded, TwoReady, OrderlyRun, LienOk, SettledTotal;
    NoClaimsIn(ana, ben);
    StartTwo(ana, ben);
    var w0 := Run(Genesis(), TwoFunded(ana, ben));
    var w1 := SweptLate(ana, ben, w0);
    RunConcat(Genesis(), TwoFunded(ana, ben),
              ([ListExpired(AFTER_GRACE)] + [RefreshWallet(ben, 100, 0)]) + [SweepCeiling(Candidate(1, Active))]);
    EmptyLienBreaks(w1.book, ben, 2);
  }

  lemma EmptyLienBreaks(b: Book, u: UserId, c: nat)
    requires b.pays == [] && c < |b.ceils| && IsLive(b.ceils[c]) && b.ceils[c].payer == u && b.ceils[c].amount > 0
    requires LienOf(u) in b.bal && b.bal[LienOf(u)] == 0
    ensures SettledTotal(b.pays, c) == 0 && !LienOk(b, true)
  {
    NothingSettled(c);
    assert !LienBacksCeilings(b.bal, b.pays, b.ceils, true);
  }

  // ------------------------------------------------------------------ a claim overtaken by a drain

  /** Ben pays Ana sixty on his own ceiling. */
  function BenPays(ana: UserId, ben: UserId): Checked { Checked(Claim(ben, ana, 60, 1, 1, [0]), ben, 0, 0) }

  /** The claim passes its checks, Ben drains his wallet, and only then is the claim accepted. */
  function Overtaken(ana: UserId, ben: UserId): seq<Step> {
    TwoFunded(ana, ben) + (([CheckClaim(BenPays(ana, ben))] + [MoveToMain(ben)]) + [AcceptClaim(BenPays(ana, ben))])
  }

  lemma CheckRuns(w: World, x: Checked)
    requires ChecksPass(w.book, x.item, x.submitter, x.now)
    ensures Run(w, [CheckClaim(x)]) == w.(checked := w.checked + {x})
  {
    hide ChecksPass;
    OneStep(w, CheckClaim(x));
  }

  lemma AcceptRuns(w: World, x: Checked)
    requires x in w.checked && AcceptChecked(w.book, x).Some?
    ensures Run(w, [AcceptClaim(x)]) == w.(book := AcceptChecked(w.book, x).value)
  {
    hide AcceptChecked;
    OneStep(w, AcceptClaim(x));
  }

  lemma BenChecks(ana: UserId, ben: UserId, w: World)
    requires ana != ben && TwoReady(ana, ben, w)
    ensures var x := BenPays(ana, ben); ChecksPass(w.book, x.item, x.submitter, x.now)
  {
    ClaimPasses(ben, ana, 60, 1, 1, [0]);
  }

  /** The transaction does not look at the ceiling's status again. */
  lemma BenAccepted(ana: UserId, ben: UserId, b: Book)
    requires BookOk(b) && ana != ben && b.pays == [] && |b.ceils| == 2 && MainOf(ben) in b.bal
             && PendingOf(ana) in b.bal
    requires LienOf(ben) in b.bal
    ensures AcceptChecked(b, BenPays(ana, ben)).Some?
    ensures var b' := AcceptChecked(b, BenPays(ana, ben)).value;
            && BookOk(b') && b'.pays == [] + [Stamped(Claim(ben, ana, 60, 1, 1, [0]))] && b'.ceils == b.ceils
            && LienOf(ben) in b'.bal && b'.bal[LienOf(ben)] == b.bal[LienOf(ben)]
  {
    hide BookOk, Accept;
    var x := BenPays(ana, ben);
    var p := x.item.payment;
    assert Insertable(b, p);
    hide Insertable;
    AcceptNeverShort(b, p, ben, 0, 0);
    AcceptFrame(b, x);
    AcceptKeepsBook(b, p, ben, 0, 0);
    AcceptParts(b, p, ben, 0, 0);
    ClaimSameLiens(b.bal, p.payee, p.amount);
  }

  /** For any two users: the claim names its payer's own ceiling and passes every check, and yet it ends
      pending under a revoked ceiling with an empty lien, and finalizing it aborts. */
  lemma OvertakenClaimHangs(ana: UserId, ben: UserId)
    requires ana != ben
    ensures var b := Run(Genesis(), Overtaken(ana, ben)).book;
            && |b.pays| == 1 && IsPendingOf(b.pays[0], ben) && b.pays[0].ceiling == 1
            && |b.ceils| == 2 && b.ceils[1] == Ceiling(ben, 100, 0, 0, Revoked, None)
            && FinalizeForPayer(b, ben, 0).Aborted? && !LienOk(b, false)
  {
    hide Run, WorldOk, BookOk, Genesis, TwoFunded, ChecksPass, DrainWallet, AcceptChecked, FinalizeForPayer;
    var x := BenPays(ana, ben);
    var e1, e2, e3 := CheckClaim(x), MoveToMain(ben), AcceptClaim(x);
    StartTwo(ana, ben);
    var w0 := Run(Genesis(), TwoFunded(ana, ben));
    BenChecks(ana, ben, w0);
    CheckRuns(w0, x);
    var w1 := Run(w0, [e1]);
    BenDrains(ana, ben, w1.book);
    WalletApplied(w1, e2);
    var w2 := Run(w1, [e2]);
    RunKeeps(w0, [e1]);
    RunKeeps(w1, [e2]);
    WorldBookOk(w2);
    assert PendingOf(ana) in w0.book.bal.Keys;
    BenAccepted(ana, ben, w2.book);
    AcceptRuns(w2, x);
    RunConcat(w0, [e1], [e2]);
    RunConcat(w0, [e1] + [e2], [e3]);
    RunConcat(Genesis(), TwoFunded(ana, ben), ([e1] + [e2]) + [e3]);
    HangingClaim(Run(w2, [e3]).book, ben);
  }

  lemma HangingClaim(b: Book, u: UserId)
    requires BookOk(b) && |b.pays| == 1 && IsPendingOf(b.pays[0], u) && b.pays[0].ceiling == 1
    requires |b.ceils| == 2 && b.ceils[1].status == Revoked && b.ceils[1].amount == 100
    requires LienOf(u) in b.bal && b.bal[LienOf(u)] == 0
    ensures FinalizeForPayer(b, u, 0).Aborted? && !LienOk(b, false)
  {
    hide BookOk, Queue, FinalizeForPayer;
    OneQueued(b.pays, u, 0);
    FinalizeCommitsIff(b, u, 0);
    PendingPositive(b, u);
    assert !PendingBacked(b.pays, b.ceils);
  }

  // ------------------------------------------------------------------ a ceiling forced to expire

  /** A ceiling that has expired is no candidate, so no later listing brings its lien back. */
  lemma ExpiredNeverListed(b: Book, c: nat, status: CeilingStatus, now: Time)
    requires c < |b.ceils| && b.ceils[c].status == CeilingExpired
    ensures Candidate(c, status) !in ReleasableNow(b, now)
  {
  }

  /** For any two users: once an operator has forced Ben's ceiling to expire his hundred stays on the lien,
      no live ceiling explains it, and the expiry job never lists that ceiling. */
  lemma ForcedStrandsLien(ana: UserId, ben: UserId, now: Time, status: CeilingStatus)
    requires ana != ben
    ensures var b := Run(Genesis(), TwoFunded(ana, ben) + [ForceExpire(1)]).book;
            && LienOf(ben) in b.bal && b.bal[LienOf(ben)] == 100 && !HasLiveCeiling(b.ceils, ben)
            && Candidate(1, status) !in ReleasableNow(b, now) && !LienOk(b, false)
  {
    hide Run, WorldOk, Genesis, TwoFunded, ReleasableNow;
    StartTwo(ana, ben);
    var w := Run(Genesis(), TwoFunded(ana, ben));
    WalletApplied(w, ForceExpire(1));
    RunConcat(Genesis(), TwoFunded(ana, ben), [ForceExpire(1)]);
    var b := Run(w, [ForceExpire(1)]).book;
    ExpiredNeverListed(b, 1, status, now);
    assert !LienBacksCeilings(b.bal, b.pays, b.ceils, false);
  }
}
