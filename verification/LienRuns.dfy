/** The lien invariant and the ceiling bound over whole runs, and exactly when a finalize aborts. */
module LienRuns {
  import opened Basics
  import opened Domain
  import opened Claims
  import opened Finalize
  import opened Wallet
  import opened Transfers
  import opened World
  import opened Invariants
  import opened Allocation
  import opened Finalizing
  import opened LienKeeps
  import opened Pipeline
  import opened Runs
  import opened History
  import opened ExactlyOnce

  /** If the step accepts a claim, the stored ceiling the payment names is live and its payer's. */
  predicate ClaimsOwn(w: World, e: Step) { AcceptedBy(w, e).Some? ==> OwnLiveCeiling(w.book, AcceptedBy(w, e).value) }

  /** If the step releases a listed ceiling, that is still live, or has nothing left to release. */
  ghost predicate SweepsLive(w: World, e: Step) {
    e.SweepCeiling? && e.candidate in w.listed && Sweep(w.book, e.candidate).Some? ==>
      var c := e.candidate.ceiling;
      c < |w.book.ceils| && (IsLive(w.book.ceils[c]) || SettledTotal(w.book.pays, c) == w.book.ceils[c].amount)
  }

  /** If an operator forces a ceiling to expire, its lien is empty and nothing is pending under it. */
  predicate ForcesEmpty(w: World, e: Step) {
    e.ForceExpire? && ForceExpired(w.book, e.ceiling).Some? ==>
      var lien := LienOf(w.book.ceils[e.ceiling].payer);
      lien in w.book.bal && w.book.bal[lien] == 0 && !PendingUnder(w.book.pays, e.ceiling)
  }

  ghost predicate OrderlyStep(w: World, e: Step, exact: bool) {
    ClaimsOwn(w, e) && ForcesEmpty(w, e) && (exact ==> SweepsLive(w, e))
  }

  /** Every claim the run accepts names a live ceiling of its own payer, no operator forces a ceiling to
      expire that something depends on, and, where the lien is to be exact, the expiry job releases no
      ceiling that is live no more. */
  ghost predicate OrderlyRun(w: World, es: seq<Step>, exact: bool)
    decreases |es|
  {
    es == [] || (OrderlyRun(w, es[..|es| - 1], exact) && OrderlyStep(Run(w, es[..|es| - 1]), es[|es| - 1], exact))
  }

  lemma WalletStepKeepsLien(b: Book, e: Step, exact: bool)
    requires BookOk(b) && LienOk(b, exact) && IsWalletStep(e) && !e.SweepCeiling? && !e.ForceExpire?
    requires WalletStep(b, e).Some?
    ensures LienOk(WalletStep(b, e).value, exact)
  {
    hide BookOk, LienOk, Register, Mint, Fund, Recover, DrainWallet, Refresh;
    match e
    case Enrol(u) => RegisterKeepsLien(b, u, exact);
    case DemoMint(u, k) => MintKeepsLien(b, u, k, exact);
    case FundOffline(u, k, t) => FundKeepsLien(b, u, k, t, exact);
    case RecoverCeiling(u, now) => RecoverKeepsLien(b, u, now, exact);
    case MoveToMain(u) => DrainWalletKeeps(b, u, exact);
    case RefreshWallet(u, k, t) => RefreshKeepsLien(b, u, k, t, exact);
  }

  /** Only the three columns matter to the lien invariant. */
  lemma SameMoneyKeepsLien(b: Book, b': Book, exact: bool)
    requires LienOk(b, exact) && b'.bal == b.bal && b'.pays == b.pays && b'.ceils == b.ceils
    ensures LienOk(b', exact)
  {
  }

  lemma DeliverKeepsLien(w: World, id: nat, crash: Crash, now: Time, exact: bool)
    requires WorldOk(w) && LienOk(w.book, exact)
    ensures LienOk(DeliverOne(w, id, crash, now).book, exact)
  {
    hide BookOk, LienOk, PipelineOk, DeliverOne, ProcessTransfer, FinalizeForPayer;
    if id >= |w.outbox| {
      NoRowNoDelivery(w, id, crash, now);
    } else if w.outbox[id].event.TransferEvent? {
      DeliverTransferParts(w, id, crash, now);
      ProcessKeepsLien(w.book, w.outbox[id].event.payload, exact);
    } else {
      DeliverFinalizeParts(w, id, crash, now);
      FinalizeKeepsLien(w.book, w.outbox[id].event.payer, now, exact);
    }
  }

  /** The steps that neither accept a claim nor sweep or expire a ceiling keep the lien invariant. */
  lemma OtherStepsKeepLien(w: World, e: Step, exact: bool)
    requires WorldOk(w) && LienOk(w.book, exact) && !e.Submit? && !e.AcceptClaim?
    requires !e.SweepCeiling? && !e.ForceExpire?
    ensures LienOk(Apply(w, e).book, exact)
  {
    hide BookOk, LienOk, PipelineOk, WalletStep, ReleasableNow, InitiateTransfer, Tick, DeliverOne;
    if IsWalletStep(e) {
      WalletStepApply(w, e);
      if WalletStep(w.book, e).Some? {
        WalletStepKeepsLien(w.book, e, exact);
      }
    } else if e.Initiate? {
      InitiateParts(w.book, w.outbox, e.request, e.now);
      SameMoneyKeepsLien(w.book, InitiateTransfer(w.book, w.outbox, e.request, e.now).book, exact);
    } else if e.Deliver? {
      DeliverKeepsLien(w, e.id, e.crash, e.now, exact);
    }
  }

  lemma SubmitStepIff(w: World, e: Step, exact: bool)
    requires LienOk(w.book, exact) && e.Submit?
    ensures LienOk(Apply(w, e).book, exact) <==> ClaimsOwn(w, e)
  {
    hide LienOk, SubmitOne;
    var b, item := w.book, e.item;
    if SubmitOne(b, item, e.submitter, e.batch, e.now).1.Fresh? {
      FreshFacts(b, item, e.submitter, e.batch, e.now);
      SubmitKeepsLienIff(b, item, e.submitter, e.batch, e.now, exact);
    } else {
      SubmitKeepsLien(b, item, e.submitter, e.batch, e.now, exact);
    }
  }

  lemma AcceptStepIff(w: World, e: Step, exact: bool)
    requires LienOk(w.book, exact) && e.AcceptClaim?
    ensures LienOk(Apply(w, e).book, exact) <==> ClaimsOwn(w, e)
  {
    hide LienOk, Accept;
    if e.claim in w.checked && AcceptChecked(w.book, e.claim).Some? {
      AcceptKeepsLienIff(w.book, e.claim.item.payment, e.claim.submitter, e.claim.batch, e.claim.now, exact);
    }
  }

  lemma SweepStepIff(w: World, e: Step, exact: bool)
    requires WorldOk(w) && LienOk(w.book, exact) && e.SweepCeiling?
    ensures LienOk(Apply(w, e).book, exact) <==> (exact ==> SweepsLive(w, e))
  {
    hide BookOk, PipelineOk, LienOk, Sweep, SettledTotal;
    if e.candidate in w.listed && Sweep(w.book, e.candidate).Some? {
      SweepKeepsLienIff(w.book, e.candidate, exact);
    }
  }

  lemma ForceStepIff(w: World, e: Step, exact: bool)
    requires WorldOk(w) && LienOk(w.book, exact) && e.ForceExpire?
    ensures LienOk(Apply(w, e).book, exact) <==> ForcesEmpty(w, e)
  {
    hide BookOk, PipelineOk, LienOk, PendingUnder, ForceExpired;
    if ForceExpired(w.book, e.ceiling).Some? {
      ForceKeepsLienIff(w.book, e.ceiling, exact);
    }
  }

  /** Exactly three kinds of step break the lien invariant: accepting a claim under a ceiling that is not
      its payer's live one, forcing a ceiling to expire that still has a lien or something pending, and,
      for the exact form, releasing what is left of a ceiling that is live no more. Each always does. */
  lemma StepKeepsLienIff(w: World, e: Step, exact: bool)
    requires WorldOk(w) && LienOk(w.book, exact)
    ensures LienOk(Apply(w, e).book, exact) <==> OrderlyStep(w, e, exact)
  {
    hide WorldOk, LienOk, SubmitOne, AcceptChecked, Sweep, ForceExpired, SettledTotal, Apply, OwnLiveCeiling;
    if e.Submit? {
      SubmitStepIff(w, e, exact);
    } else if e.AcceptClaim? {
      AcceptStepIff(w, e, exact);
    } else if e.SweepCeiling? {
      SweepStepIff(w, e, exact);
    } else if e.ForceExpire? {
      ForceStepIff(w, e, exact);
    } else {
      OtherStepsKeepLien(w, e, exact);
    }
  }

  lemma {:induction false} RunKeepsLien(w: World, es: seq<Step>, exact: bool)
    requires WorldOk(w) && LienOk(w.book, exact) && OrderlyRun(w, es, exact)
    ensures LienOk(Run(w, es).book, exact)
    decreases |es|
  {
    hide WorldOk, LienOk, Apply, OrderlyStep;
    if es != [] {
      RunKeepsLien(w, es[..|es| - 1], exact);
      RunKeeps(w, es[..|es| - 1]);
      StepKeepsLienIff(Run(w, es[..|es| - 1]), es[|es| - 1], exact);
    }
  }

  /** The lien invariant holds in every state the run passes through. */
  ghost predicate LienThroughout(w: World, es: seq<Step>, exact: bool)
    decreases |es|
  {
    LienOk(Run(w, es).book, exact) && (es == [] || LienThroughout(w, es[..|es| - 1], exact))
  }

  /** Over any run the lien invariant holds throughout exactly when the run is orderly: as an upper bound
      when every accepted claim names a live ceiling of its own payer and no ceiling in use is forced to
      expire, exactly when moreover the expiry job releases no ceiling that is live no more. */
  lemma {:induction false} LienHoldsExactlyWhen(w: World, es: seq<Step>, exact: bool)
    requires WorldOk(w) && LienOk(w.book, exact)
    ensures LienThroughout(w, es, exact) <==> OrderlyRun(w, es, exact)
    decreases |es|
  {
    hide WorldOk, LienOk, Apply, OrderlyStep;
    if es != [] {
      var front := es[..|es| - 1];
      LienHoldsExactlyWhen(w, front, exact);
      RunKeeps(w, front);
      if OrderlyRun(w, front, exact) {
        RunKeepsLien(w, front, exact);
        StepKeepsLienIff(Run(w, front), es[|es| - 1], exact);
      }
    }
  }

  /** A run without claims and forced expiries, and without sweeps where the lien is to be exact, is
      orderly. */
  lemma {:induction false} NoClaimsOrderly(w: World, es: seq<Step>, exact: bool)
    requires forall i | 0 <= i < |es| ::
               !es[i].Submit? && !es[i].AcceptClaim? && !es[i].ForceExpire? && !(exact && es[i].SweepCeiling?)
    ensures OrderlyRun(w, es, exact)
    decreases |es|
  {
    hide Run;
    if es != [] {
      NoClaimsOrderly(w, es[..|es| - 1], exact);
    }
  }

  lemma OrderlyPush(w: World, es: seq<Step>, e: Step, exact: bool)
    ensures OrderlyRun(w, es + [e], exact) <==> OrderlyRun(w, es, exact) && OrderlyStep(Run(w, es), e, exact)
  {
    hide Run, OrderlyStep;
    assert (es + [e])[..|es|] == es;
  }

  lemma {:induction false} OrderlyConcat(w: World, xs: seq<Step>, ys: seq<Step>, exact: bool)
    requires OrderlyRun(w, xs, exact) && OrderlyRun(Run(w, xs), ys, exact)
    ensures OrderlyRun(w, xs + ys, exact)
    decreases |ys|
  {
    hide Run, OrderlyStep, OrderlyRun;
    if ys == [] {
      assert xs + ys == xs;
    } else {
      var front, e := ys[..|ys| - 1], ys[|ys| - 1];
      assert ys == front + [e] && xs + ys == (xs + front) + [e];
      OrderlyPush(Run(w, xs), front, e, exact);
      OrderlyConcat(w, xs, front, exact);
      RunConcat(w, xs, front);
      OrderlyPush(w, xs + front, e, exact);
    }
  }

  lemma GenesisLien(exact: bool)
    ensures LienOk(Genesis().book, exact)
  {
  }

  /** As long as every accepted claim names a live ceiling of its own payer and no ceiling in use is forced
      to expire: no ceiling is settled beyond its amount, the lien under a live ceiling is at most the
      unsettled rest, an exhausted ceiling is settled to the last kobo, and a payer without a live ceiling
      has an empty lien. If moreover the expiry job releases no ceiling that is live no more, the lien is
      exactly the unsettled rest. */
  lemma CeilingBound(es: seq<Step>, c: nat, exact: bool)
    requires OrderlyRun(Genesis(), es, exact) && c < |Run(Genesis(), es).book.ceils|
    ensures var b := Run(Genesis(), es).book;
            var ceiling, lien := b.ceils[c], LienOf(b.ceils[c].payer);
            && 0 <= SettledTotal(b.pays, c) <= ceiling.amount
            && (IsLive(ceiling) ==> lien in b.bal && b.bal[lien] + SettledTotal(b.pays, c) <= ceiling.amount)
            && (IsLive(ceiling) && exact ==> b.bal[lien] + SettledTotal(b.pays, c) == ceiling.amount)
            && (ceiling.status == Exhausted ==> SettledTotal(b.pays, c) == ceiling.amount)
            && (lien in b.bal && !HasLiveCeiling(b.ceils, ceiling.payer) ==> b.bal[lien] == 0)
  {
    Reachable(es);
    GenesisOk();
    GenesisLien(exact);
    RunKeepsLien(Genesis(), es, exact);
    var b := Run(Genesis(), es).book;
    SettledNonneg(b, c);
    hide WorldOk, BookOk, OrderlyRun, Run, Genesis;
    LienFacts(b, c, exact);
  }

  lemma LienFacts(b: Book, c: nat, exact: bool)
    requires LienOk(b, exact) && c < |b.ceils|
    ensures SettledTotal(b.pays, c) <= b.ceils[c].amount
    ensures IsLive(b.ceils[c]) ==> Backed(b.bal, b.pays, b.ceils, c, exact)
    ensures b.ceils[c].status == Exhausted ==> SettledTotal(b.pays, c) == b.ceils[c].amount
    ensures LienOf(b.ceils[c].payer) in b.bal && !HasLiveCeiling(b.ceils, b.ceils[c].payer) ==>
              b.bal[LienOf(b.ceils[c].payer)] == 0
  {
  }

  // ------------------------------------------------------------------ aborted settlements

  /** Something is settled under the payer's live ceiling, and what is pending no longer fits:
      exactly the states in which a finalize of this payer aborts. */
  ghost predicate Wedged(b: Book, payer: UserId, c: nat) {
    && c < |b.ceils| && IsLive(b.ceils[c]) && b.ceils[c].payer == payer
    && SettledTotal(b.pays, c) > 0
    && SettledTotal(b.pays, c) + PendingTotal(b.pays, payer) > b.ceils[c].amount
  }

  lemma WedgedQueue(b: Book, payer: UserId, c: nat)
    requires BookOk(b) && LienOk(b, true) && Wedged(b, payer, c)
    ensures Queue(b.pays, payer) != [] && CeilingInUse(b, payer) == c && InFlight(b.pays, c)
  {
    assert SettledTotal(b.pays, c) <= b.ceils[c].amount && OneLivePerPayer(b.ceils);
    hide BookOk, LienOk, Queue;
    if forall i | 0 <= i < |b.pays| :: !IsPendingOf(b.pays[i], payer) {
      SumZero(b.pays, OwedBy(payer));
    }
    QueueEmpty(b.pays, payer);
    QueueCeilingLive(b, payer, true);
    QueueDrainable(b.pays, payer);
    var first := Queue(b.pays, payer)[0];
    assert IsPendingOf(b.pays[first], payer) && b.pays[first].ceiling == c;
  }

  lemma WedgedAborts(b: Book, payer: UserId, c: nat, now: Time)
    requires BookOk(b) && LienOk(b, true) && Wedged(b, payer, c)
    ensures FinalizeForPayer(b, payer, now).Aborted?
  {
    hide BookOk, LienOk, Queue, FinalizeForPayer, SettledTotal, PendingTotal;
    WedgedQueue(b, payer, c);
    FinalizeUnderLien(b, payer, now);
  }

  /** After any run whatsoever a finalize aborts exactly when something is pending and the payer's lien
      is below min(T, C), for the pending total T and the amount C of the first queued ceiling. */
  lemma AbortsOverRuns(es: seq<Step>, payer: UserId, now: Time)
    ensures var b := Run(Genesis(), es).book;
            FinalizeForPayer(b, payer, now).Aborted? <==>
              (Queue(b.pays, payer) != []
               && LienOf(payer) in b.bal && CeilingInUse(b, payer) < |b.ceils|
               && b.bal[LienOf(payer)] < Min(PendingTotal(b.pays, payer), b.ceils[CeilingInUse(b, payer)].amount))
  {
    hide Run, Genesis, BookOk, Queue, FinalizeForPayer, PendingTotal;
    ReachableBook(es);
    var b := Run(Genesis(), es).book;
    FinalizeCommitsIff(b, payer, now);
    if Queue(b.pays, payer) != [] {
      CeilingStored(b, payer);
    }
  }

  /** With the payer's only live ceiling given, a finalize aborts exactly when it is wedged. */
  lemma AbortsIffWedged(b: Book, payer: UserId, now: Time)
    requires BookOk(b) && LienOk(b, true)
    ensures FinalizeForPayer(b, payer, now).Aborted? <==> exists c: nat :: Wedged(b, payer, c)
  {
    hide BookOk, LienOk, Queue, FinalizeForPayer, SettledTotal, PendingTotal;
    if FinalizeForPayer(b, payer, now).Aborted? {
      EmptyCommits(b, payer, now);
      QueueCeilingLive(b, payer, true);
      FinalizeUnderLien(b, payer, now);
      SettledNonneg(b, CeilingInUse(b, payer));
      assert Wedged(b, payer, CeilingInUse(b, payer));
    }
    if c: nat :| Wedged(b, payer, c) {
      WedgedAborts(b, payer, c, now);
    }
  }

  lemma EmptyCommits(b: Book, payer: UserId, now: Time)
    ensures Queue(b.pays, payer) == [] ==> FinalizeForPayer(b, payer, now) == Committed(b, [])
  {
  }

  lemma FinalizeLeavesOthers(b: Book, payer: UserId, now: Time)
    requires BookOk(b)
    ensures var pays' := BookAfter(b, FinalizeForPayer(b, payer, now)).pays;
            |pays'| == |b.pays| && forall i | 0 <= i < |b.pays| && !IsPendingOf(b.pays[i], payer) ::
                pays'[i] == b.pays[i]
  {
    hide BookOk, Queue, Drain, Shares;
    if Queue(b.pays, payer) != [] && FinalizeForPayer(b, payer, now).Committed? {
      CeilingStored(b, payer);
      FinalizePays(b, payer, now);
    }
  }

  lemma PendingElsewhere(b: Book, i: nat, c: nat, other: UserId, exact: bool)
    requires LienOk(b, exact) && i < |b.pays| && c < |b.ceils| && IsPendingOf(b.pays[i], other)
             && b.ceils[c].payer != other
    ensures b.pays[i].ceiling != c
  {
  }

  lemma KeepsIdentity(p: Payment, q: Payment)
    requires p == q || Advances(p, q)
    ensures SameIdentity(p, q)
  {
  }
}
