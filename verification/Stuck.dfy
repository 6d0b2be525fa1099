/** A payer's settlement can get stuck for good: once some of a ceiling is settled and what is
    pending no longer fits, no step of the system ends it, short of a claim that crosses over
    between the payer and somebody else's ceiling. */
module Stuck {
  import opened Basics
  import opened Domain
  import opened Claims
  import opened Finalize
  import opened Wallet
  import opened Transfers
  import opened World
  import opened Invariants
  import opened SettleKeeps
  import opened AcceptKeeps
  import opened WalletKeeps
  import opened Finalizing
  import opened LienKeeps
  import opened Pipeline
  import opened Runs
  import opened History
  import opened ExactlyOnce
  import opened LienRuns

  /** Ceiling c is the payer's one live ceiling, what is pending under it is exactly what the payer
      has pending, and the lien holds at most what is left of it. */
  ghost predicate Apart(b: Book, payer: UserId, c: nat) {
    && c < |b.ceils| && OnlyLive(b.ceils, payer, c)
    && (forall i | 0 <= i < |b.pays| && b.pays[i].status == Pending ::
          b.pays[i].payer == payer <==> b.pays[i].ceiling == c)
    && LienOf(payer) in b.bal && b.bal[LienOf(payer)] + SettledTotal(b.pays, c) <= b.ceils[c].amount
  }

  predicate OnlyLive(ceils: seq<Ceiling>, payer: UserId, c: nat) {
    forall i | 0 <= i < |ceils| && IsLive(ceils[i]) && ceils[i].payer == payer :: i == c
  }

  /** Under the lien invariant a live ceiling is apart from everything else. */
  lemma LiveIsApart(b: Book, c: nat)
    requires LienOk(b, false) && c < |b.ceils| && IsLive(b.ceils[c])
    ensures Apart(b, b.ceils[c].payer, c)
  {
    hide SettledTotal;
  }

  lemma StuckQueue(b: Book, payer: UserId, c: nat)
    requires BookOk(b) && Apart(b, payer, c) && Wedged(b, payer, c)
    ensures Queue(b.pays, payer) != [] && CeilingInUse(b, payer) == c && InFlight(b.pays, c)
  {
    hide BookOk, Queue, SettledTotal, PendingTotal;
    LienNonneg(b, payer);
    QueueEmpty(b.pays, payer);
    if Queue(b.pays, payer) == [] {
      NothingOwedBy(b.pays, payer);
    }
    QueueDrainable(b.pays, payer);
    var first := Queue(b.pays, payer)[0];
    assert IsPendingOf(b.pays[first], payer) && b.pays[first].ceiling == c;
  }

  lemma NothingOwedBy(pays: seq<Payment>, payer: UserId)
    requires forall i | 0 <= i < |pays| :: !IsPendingOf(pays[i], payer)
    ensures PendingTotal(pays, payer) == 0
  {
    SumZero(pays, OwedBy(payer));
  }

  lemma StuckAborts(b: Book, payer: UserId, c: nat, now: Time)
    requires BookOk(b) && Apart(b, payer, c) && Wedged(b, payer, c)
    ensures FinalizeForPayer(b, payer, now).Aborted?
  {
    hide BookOk, Queue, FinalizeForPayer, SettledTotal, PendingTotal;
    StuckQueue(b, payer, c);
    FinalizeCommitsIff(b, payer, now);
  }

  // ------------------------------------------------------------------ what a step leaves alone

  /** What a step must leave alone for a payer to stay wedged. */
  predicate Untouched(b: Book, b': Book, payer: UserId, c: nat) {
    && c < |b.ceils| <= |b'.ceils| && b'.ceils[c] == b.ceils[c]
    && |b.pays| <= |b'.pays|
    && (forall i | 0 <= i < |b.pays| && (b.pays[i].payer == payer || b.pays[i].ceiling == c) :: b'.pays[i] == b.pays[i])
    && (forall i | 0 <= i < |b.pays| :: b'.pays[i].payer == b.pays[i].payer && b'.pays[i].ceiling == b.pays[i].ceiling)
    && (forall i | |b.pays| <= i < |b'.pays| :: b'.pays[i].settled == 0 && b'.pays[i].amount >= 0)
  }

  /** What a step must leave alone for a payer to stay stuck. */
  predicate Spared(b: Book, b': Book, payer: UserId, c: nat) {
    && Untouched(b, b', payer, c) && OnlyLive(b'.ceils, payer, c)
    && LienOf(payer) in b.bal && LienOf(payer) in b'.bal && b'.bal[LienOf(payer)] <= b.bal[LienOf(payer)]
    && (forall i | |b.pays| <= i < |b'.pays| :: b'.pays[i].payer == payer <==> b'.pays[i].ceiling == c)
  }

  lemma {:induction false} SumGrows(s: seq<Payment>, t: seq<Payment>, f: Payment -> int)
    requires |s| <= |t| && (forall i | 0 <= i < |s| :: f(t[i]) == f(s[i]))
             && (forall i | |s| <= i < |t| :: f(t[i]) >= 0)
    ensures Sum(t, f) >= Sum(s, f)
    decreases |t|
  {
    if |t| > |s| {
      SumGrows(s, t[..|t| - 1], f);
    } else {
      SumCongruent(s, t, f, f);
    }
  }

  lemma {:induction false} SumStays(s: seq<Payment>, t: seq<Payment>, f: Payment -> int)
    requires |s| <= |t| && (forall i | 0 <= i < |s| :: f(t[i]) == f(s[i]))
             && (forall i | |s| <= i < |t| :: f(t[i]) == 0)
    ensures Sum(t, f) == Sum(s, f)
    decreases |t|
  {
    if |t| > |s| {
      SumStays(s, t[..|t| - 1], f);
    } else {
      SumCongruent(s, t, f, f);
    }
  }

  lemma SparedStuck(b: Book, b': Book, payer: UserId, c: nat)
    requires Apart(b, payer, c) && Wedged(b, payer, c) && Spared(b, b', payer, c)
    ensures Apart(b', payer, c) && Wedged(b', payer, c)
  {
    SumStays(b.pays, b'.pays, SettledUnder(c));
    SumGrows(b.pays, b'.pays, OwedBy(payer));
  }

  lemma SameTablesSpared(b: Book, b': Book, payer: UserId, c: nat)
    requires Apart(b, payer, c) && SameLiens(b.bal, b'.bal) && b'.pays == b.pays && b'.ceils == b.ceils
    ensures Spared(b, b', payer, c)
  {
  }

  // ------------------------------------------------------------------ wallet steps

  lemma RegisterSpares(b: Book, u: UserId, payer: UserId, c: nat)
    requires Apart(b, payer, c) && Register(b, u).Some?
    ensures Spared(b, Register(b, u).value, payer, c)
  {
    hide SettledTotal;
  }

  lemma MintSpares(b: Book, u: UserId, k: int, payer: UserId, c: nat)
    requires Apart(b, payer, c) && Mint(b, u, k).Some?
    ensures Spared(b, Mint(b, u, k).value, payer, c)
  {
    hide SettledTotal, Move;
    MoveParts(b, TxnRow(|b.rows|, u, None, RowKind.DemoMint, RowCompleted, Credit, k, None, OfMint, NoReason),
        Treasury, MainOf(u), k);
  }

  /** The payer cannot fund while the ceiling is live, and nobody else's funding matters. */
  lemma FundSpares(b: Book, u: UserId, k: int, t: Time, payer: UserId, c: nat)
    requires Apart(b, payer, c) && c < |b.ceils| && IsLive(b.ceils[c]) && b.ceils[c].payer == payer
             && Fund(b, u, k, t).Some?
    ensures Spared(b, Fund(b, u, k, t).value, payer, c)
  {
    hide SettledTotal, Move;
    FundParts(b, u, k, t);
    var b1 := b.(ceils := b.ceils + [Ceiling(u, k, 0, t, Active, None)]);
    MoveParts(b1, WalletRow(b, u, OfflineFund, Debit, k, OfCeiling(|b.ceils|)), MainOf(u), LienOf(u), k);
    assert HasLiveCeiling(b.ceils, payer);
  }

  lemma RecoverSpares(b: Book, u: UserId, now: Time, payer: UserId, c: nat)
    requires Apart(b, payer, c) && InFlight(b.pays, c) && Recover(b, u, now).Some?
    ensures Spared(b, Recover(b, u, now).value, payer, c)
  {
    hide SettledTotal, InFlight;
  }

  /** A ceiling with nothing in flight is another one; releasing it takes nothing from the payer, or takes
      it out of the payer's lien. */
  lemma ReleaseSpares(b: Book, d: nat, terminal: CeilingStatus, kind: RowKind, payer: UserId, c: nat)
    requires Apart(b, payer, c) && InFlight(b.pays, c) && d < |b.ceils| && !InFlight(b.pays, d)
    requires terminal !in {Active, RecoveryPending} && Release(b, d, terminal, kind).Some?
    ensures Spared(b, Release(b, d, terminal, kind).value, payer, c)
  {
    hide SettledTotal, InFlight, Release;
    ReleaseTakes(b, d, terminal, kind);
  }

  lemma ForceSpares(b: Book, d: nat, payer: UserId, c: nat)
    requires Apart(b, payer, c) && d != c && ForceExpired(b, d).Some?
    ensures Spared(b, ForceExpired(b, d).value, payer, c)
  {
    hide SettledTotal;
  }

  lemma SparedTwice(b: Book, b1: Book, b2: Book, payer: UserId, c: nat)
    requires Spared(b, b1, payer, c) && Spared(b1, b2, payer, c) && b1.pays == b.pays && b2.pays == b.pays
    ensures Spared(b, b2, payer, c)
  {
  }

  lemma RefreshSpares(b: Book, u: UserId, k: int, t: Time, payer: UserId, c: nat)
    requires BookOk(b) && Apart(b, payer, c) && Wedged(b, payer, c) && InFlight(b.pays, c) && Refresh(b, u, k, t).Some?
    ensures Spared(b, Refresh(b, u, k, t).value, payer, c)
  {
    hide BookOk, InFlight, Release, Fund, Apart, Wedged, Spared;
    assert c < |b.ceils| && IsLive(b.ceils[c]) && b.ceils[c].payer == payer by { WedgedLive(b, payer, c); }
    if ActiveCeiling(b.ceils, u).None? {
      FundSpares(b, u, k, t, payer, c);
    } else {
      var d := ActiveCeiling(b.ceils, u).value;
      var b1 := DrainWallet(b, u).value;
      ReleaseSpares(b, d, Revoked, OfflineDrain, payer, c);
      ReleaseFrame(b, d, Revoked, OfflineDrain);
      SparedStuck(b, b1, payer, c);
      WedgedLive(b1, payer, c);
      FundSpares(b1, u, k, t, payer, c);
      FundFrame(b1, u, k, t);
      SparedTwice(b, b1, Fund(b1, u, k, t).value, payer, c);
    }
  }

  lemma WedgedLive(b: Book, payer: UserId, c: nat)
    requires Wedged(b, payer, c)
    ensures c < |b.ceils| && IsLive(b.ceils[c]) && b.ceils[c].payer == payer
  {
  }

  lemma FundFrame(b: Book, u: UserId, k: int, t: Time)
    requires Fund(b, u, k, t).Some?
    ensures Fund(b, u, k, t).value.pays == b.pays
  {
    hide Move;
    FundParts(b, u, k, t);
    var b1 := b.(ceils := b.ceils + [Ceiling(u, k, 0, t, Active, None)]);
    MoveParts(b1, WalletRow(b, u, OfflineFund, Debit, k, OfCeiling(|b.ceils|)), MainOf(u), LienOf(u), k);
  }

  lemma WalletSpares(b: Book, e: Step, payer: UserId, c: nat)
    requires BookOk(b) && Apart(b, payer, c) && Wedged(b, payer, c) && IsWalletStep(e) && WalletStep(b, e).Some?
    requires e != ForceExpire(c)
    ensures Spared(b, WalletStep(b, e).value, payer, c)
  {
    hide BookOk, Apart, Wedged, Spared, InFlight, Register, Mint, Fund, Recover, Release, Refresh;
    StuckQueue(b, payer, c);
    WedgedLive(b, payer, c);
    match e
    case Enrol(u) => RegisterSpares(b, u, payer, c);
    case DemoMint(u, k) => MintSpares(b, u, k, payer, c);
    case FundOffline(u, k, t) => FundSpares(b, u, k, t, payer, c);
    case RecoverCeiling(u, now) => RecoverSpares(b, u, now, payer, c);
    case MoveToMain(u) => ReleaseSpares(b, ActiveCeiling(b.ceils, u).value, Revoked, OfflineDrain, payer, c);
    case RefreshWallet(u, k, t) => RefreshSpares(b, u, k, t, payer, c);
    case SweepCeiling(x) =>
      if x.status.RecoveryPending? {
        ReleaseSpares(b, x.ceiling, Revoked, OfflineRecoveryRelease, payer, c);
      } else {
        ReleaseSpares(b, x.ceiling, CeilingExpired, OfflineExpiryRelease, payer, c);
      }
    case ForceExpire(d) => ForceSpares(b, d, payer, c);
  }

  // ------------------------------------------------------------------ claims, finalizes, transfers

  /** If the step accepts a claim, it is the payer's exactly if it names ceiling c; and nobody forces that
      ceiling to expire. */
  predicate KeepsApart(w: World, e: Step, payer: UserId, c: nat) {
    && (AcceptedBy(w, e).Some? ==> (AcceptedBy(w, e).value.payer == payer <==> AcceptedBy(w, e).value.ceilingId == c))
    && (e == ForceExpire(c) ==> ForceExpired(w.book, c).None?)
  }

  lemma AcceptSpares(b: Book, p: PaymentToken, submitter: UserId, batch: nat, now: Time, payer: UserId, c: nat)
    requires Apart(b, payer, c) && Accept(b, p, submitter, batch, now).Some? && (p.payer == payer <==> p.ceilingId == c)
    ensures Spared(b, Accept(b, p, submitter, batch, now).value, payer, c)
  {
    hide SettledTotal, Accept;
    AcceptParts(b, p, submitter, batch, now);
    ClaimSameLiens(b.bal, p.payee, p.amount);
    assert LienOf(payer) in b.bal;
  }

  lemma SubmitSpares(b: Book, item: ClaimItem, submitter: UserId, batch: nat, now: Time, payer: UserId, c: nat)
    requires Apart(b, payer, c)
    requires SubmitOne(b, item, submitter, batch, now).1.Fresh? ==>
               (item.payment.payer == payer <==> item.payment.ceilingId == c)
    ensures Spared(b, SubmitOne(b, item, submitter, batch, now).0, payer, c)
  {
    hide Apart, Spared, Accept, Insertable, Validate;
    if SubmitOne(b, item, submitter, batch, now).1.Fresh? {
      FreshFacts(b, item, submitter, batch, now);
      AcceptSpares(b, item.payment, submitter, batch, now, payer, c);
    } else {
      SubmitFrame(b, item, submitter, batch, now);
      SameTablesSpared(b, b, payer, c);
    }
  }

  /** Another payer's finalize touches neither this payer's payments nor this ceiling. */
  lemma FinalizeSpares(b: Book, payer: UserId, c: nat, other: UserId, now: Time)
    requires BookOk(b) && Apart(b, payer, c) && other != payer
    ensures Spared(b, BookAfter(b, FinalizeForPayer(b, other, now)), payer, c)
  {
    hide BookOk, Queue, FinalizeForPayer, SettledTotal;
    EmptyCommits(b, other, now);
    if Queue(b.pays, other) != [] && FinalizeForPayer(b, other, now).Committed? {
      var b' := FinalizeForPayer(b, other, now).book;
      FinalizeSparesPays(b, payer, c, other, now);
      FinalizeSparesCeiling(b, payer, c, other, now);
      FinalizeSparesLien(b, payer, other, now);
    }
  }

  lemma FinalizeSparesLien(b: Book, payer: UserId, other: UserId, now: Time)
    requires BookOk(b) && LienOf(payer) in b.bal && other != payer
    requires Queue(b.pays, other) != [] && FinalizeForPayer(b, other, now).Committed?
    ensures var bal' := FinalizeForPayer(b, other, now).book.bal;
            LienOf(payer) in bal' && bal'[LienOf(payer)] == b.bal[LienOf(payer)]
  {
    hide BookOk, Queue, FinalizeForPayer;
    CeilingStored(b, other);
    FinalizeMoves(b, other, now, LienOf(payer));
  }

  lemma FinalizeSparesCeiling(b: Book, payer: UserId, c: nat, other: UserId, now: Time)
    requires BookOk(b) && Apart(b, payer, c) && other != payer
    requires Queue(b.pays, other) != [] && FinalizeForPayer(b, other, now).Committed?
    ensures var ceils' := FinalizeForPayer(b, other, now).book.ceils;
            |ceils'| == |b.ceils| && ceils'[c] == b.ceils[c] && OnlyLive(ceils', payer, c)
  {
    hide BookOk, Queue, Drain, SettledTotal;
    QueueDrainable(b.pays, other);
    var first := Queue(b.pays, other)[0];
    assert IsPendingOf(b.pays[first], other);
    FinalizeParts(b, other, now);
  }

  lemma FinalizeSparesPays(b: Book, payer: UserId, c: nat, other: UserId, now: Time)
    requires BookOk(b) && Apart(b, payer, c) && other != payer && FinalizeForPayer(b, other, now).Committed?
    ensures var pays' := FinalizeForPayer(b, other, now).book.pays;
            && |pays'| == |b.pays|
            && (forall i | 0 <= i < |b.pays| && (b.pays[i].payer == payer || b.pays[i].ceiling == c) ::
                  pays'[i] == b.pays[i])
            && (forall i | 0 <= i < |b.pays| ::
                  pays'[i].payer == b.pays[i].payer && pays'[i].ceiling == b.pays[i].ceiling)
  {
    hide BookOk, FinalizeForPayer, Advances, SettledTotal;
    FinalizeLeavesOthers(b, other, now);
    FinalizePaysStep(b, other, now);
    var pays' := FinalizeForPayer(b, other, now).book.pays;
    forall i | 0 <= i < |b.pays| ensures pays'[i].payer == b.pays[i].payer && pays'[i].ceiling == b.pays[i].ceiling {
      KeepsIdentity(b.pays[i], pays'[i]);
    }
  }

  lemma ProcessSameLiens(b: Book, p: TransferPayload)
    ensures var b' := ProcessTransfer(b, p).0; SameLiens(b.bal, b'.bal) && b'.pays == b.pays && b'.ceils == b.ceils
  {
  }

  lemma DeliverSpares(w: World, id: nat, crash: Crash, now: Time, payer: UserId, c: nat)
    requires WorldOk(w) && Apart(w.book, payer, c) && Wedged(w.book, payer, c)
    ensures Spared(w.book, DeliverOne(w, id, crash, now).book, payer, c)
  {
    hide BookOk, PipelineOk, DeliverOne, ProcessTransfer, FinalizeForPayer, Apart, Wedged, Spared;
    SameTablesSpared(w.book, w.book, payer, c);
    if id >= |w.outbox| {
      NoRowNoDelivery(w, id, crash, now);
    } else if w.outbox[id].event.TransferEvent? {
      DeliverTransferParts(w, id, crash, now);
      ProcessSameLiens(w.book, w.outbox[id].event.payload);
      SameTablesSpared(w.book, ProcessTransfer(w.book, w.outbox[id].event.payload).0, payer, c);
    } else {
      var other := w.outbox[id].event.payer;
      DeliverFinalizeParts(w, id, crash, now);
      if other == payer {
        StuckAborts(w.book, payer, c, now);
      } else {
        FinalizeSpares(w.book, payer, c, other, now);
      }
    }
  }

  // ------------------------------------------------------------------ runs

  lemma ForceIsStep(b: Book, c: nat)
    ensures WalletStep(b, ForceExpire(c)) == ForceExpired(b, c)
  {
  }

  lemma StepSpares(w: World, e: Step, payer: UserId, c: nat)
    requires WorldOk(w) && Apart(w.book, payer, c) && Wedged(w.book, payer, c) && KeepsApart(w, e, payer, c)
    ensures Spared(w.book, Apply(w, e).book, payer, c)
  {
    hide BookOk, PipelineOk, WalletStep, SubmitOne, Accept, ReleasableNow, InitiateTransfer, Tick, DeliverOne, Apart,
        Wedged, Spared;
    SameTablesSpared(w.book, w.book, payer, c);
    match e
    case Submit(item, s, batch, now) => SubmitSpares(w.book, item, s, batch, now, payer, c);
    case ListExpired(now) =>
    case CheckClaim(x) =>
    case AcceptClaim(x) =>
      if x in w.checked && AcceptChecked(w.book, x).Some? {
        AcceptSpares(w.book, x.item.payment, x.submitter, x.batch, x.now, payer, c);
      }
    case EnqueueFinalize(u, now) =>
    case Initiate(r, now) =>
      InitiateParts(w.book, w.outbox, r, now);
      SameTablesSpared(w.book, InitiateTransfer(w.book, w.outbox, r, now).book, payer, c);
    case Dispatch(ids, fates, commits, now) =>
    case Deliver(id, crash, now) => DeliverSpares(w, id, crash, now, payer, c);
    case _ =>
      WalletStepApply(w, e);
      if WalletStep(w.book, e).Some? {
        ForceIsStep(w.book, c);
        WalletSpares(w.book, e, payer, c);
      }
  }

  /** No accepted claim of the run crosses between this payer and another ceiling, or between another
      payer and this ceiling, and no operator forces the ceiling to expire. */
  ghost predicate KeepsApartRun(w: World, es: seq<Step>, payer: UserId, c: nat)
    decreases |es|
  {
    es == [] || (KeepsApartRun(w, es[..|es| - 1], payer, c)
                 && KeepsApart(Run(w, es[..|es| - 1]), es[|es| - 1], payer, c))
  }

  /** Once a payer is wedged, nothing else in the system unsticks it, whatever ceilings anybody else's
      claims name: over every further run each of its pending payments stays pending, exactly as it
      is. */
  lemma {:induction false} StuckForever(w: World, es: seq<Step>, payer: UserId, c: nat)
    requires WorldOk(w) && Apart(w.book, payer, c) && Wedged(w.book, payer, c) && KeepsApartRun(w, es, payer, c)
    ensures Apart(Run(w, es).book, payer, c) && Wedged(Run(w, es).book, payer, c)
            && |w.book.pays| <= |Run(w, es).book.pays|
    ensures forall i | 0 <= i < |w.book.pays| && IsPendingOf(w.book.pays[i], payer) ::
            Run(w, es).book.pays[i] == w.book.pays[i]
    decreases |es|
  {
    hide WorldOk, Apply, Apart, Wedged, KeepsApart;
    if es != [] {
      var front, e := es[..|es| - 1], es[|es| - 1];
      StuckForever(w, front, payer, c);
      RunKeeps(w, front);
      StepSpares(Run(w, front), e, payer, c);
      SparedStuck(Run(w, front).book, Run(w, es).book, payer, c);
    }
  }

  // ------------------------------------------------------------------ under the lien invariant

  /** Something is pending under a wedged payer's ceiling, so forcing it to expire is not orderly. */
  lemma WedgedNotForced(w: World, e: Step, payer: UserId, c: nat)
    requires BookOk(w.book) && Apart(w.book, payer, c) && Wedged(w.book, payer, c) && ForcesEmpty(w, e)
    ensures e == ForceExpire(c) ==> ForceExpired(w.book, c).None?
  {
    hide BookOk, Apart, Wedged, Queue;
    StuckQueue(w.book, payer, c);
    QueueDrainable(w.book.pays, payer);
    var first := Queue(w.book.pays, payer)[0];
    assert IsPendingOf(w.book.pays[first], payer) && w.book.pays[first].ceiling == c;
    assert PendingUnder(w.book.pays, c);
  }

  lemma OwnKeepsApart(w: World, e: Step, payer: UserId, c: nat)
    requires WorldOk(w) && LienOk(w.book, false) && Apart(w.book, payer, c) && Wedged(w.book, payer, c)
    requires OrderlyStep(w, e, false)
    ensures KeepsApart(w, e, payer, c)
  {
    hide BookOk, PipelineOk, LienOk, AcceptedBy, ForcesEmpty, SettledTotal, PendingTotal;
    WedgedNotForced(w, e, payer, c);
    OwnCrossesNot(w, e, payer, c);
  }

  lemma OwnCrossesNot(w: World, e: Step, payer: UserId, c: nat)
    requires LienOk(w.book, false) && Apart(w.book, payer, c) && Wedged(w.book, payer, c) && ClaimsOwn(w, e)
    ensures AcceptedBy(w, e).Some? ==>
              (AcceptedBy(w, e).value.payer == payer <==> AcceptedBy(w, e).value.ceilingId == c)
  {
    hide LienOk, AcceptedBy, SettledTotal, PendingTotal;
  }

  /** In particular over every orderly run a wedged payer stays wedged. */
  lemma {:induction false} OwnRunsStayStuck(w: World, es: seq<Step>, payer: UserId, c: nat)
    requires WorldOk(w) && LienOk(w.book, false) && Wedged(w.book, payer, c) && OrderlyRun(w, es, false)
    ensures Apart(w.book, payer, c) && KeepsApartRun(w, es, payer, c)
    decreases |es|
  {
    hide WorldOk, LienOk, Apart, Wedged, OrderlyStep, KeepsApart;
    WedgedLive(w.book, payer, c);
    LiveIsApart(w.book, c);
    if es != [] {
      var front, e := es[..|es| - 1], es[|es| - 1];
      OwnRunsStayStuck(w, front, payer, c);
      StuckForever(w, front, payer, c);
      RunKeepsLien(w, front, false);
      RunKeeps(w, front);
      OwnKeepsApart(Run(w, front), e, payer, c);
    }
  }
}
