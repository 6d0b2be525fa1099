/** Safety over every run from the migrated database: balances, ledger, payments, paired
    rows and the outbox pipeline stay consistent after any sequence of steps and crashes. */
module Runs {
  import opened Basics
  import opened Domain
  import opened Posting
  import opened Claims
  import opened Finalize
  import opened Wallet
  import opened Limits
  import opened Transfers
  import opened World
  import opened Invariants
  import opened AcceptKeeps
  import opened WalletKeeps
  import opened TransferKeeps
  import opened Draining
  import opened Finalizing
  import opened Pipeline

  ghost predicate WorldOk(w: World) {
    BookOk(w.book) && PipelineOk(w.book.transfers, w.outbox, w.processed, w.published)
  }

  function GenesisLegs(): seq<LedgerLeg> {
    [LedgerLeg(MintSource, Debit, TREASURY_SEED), LedgerLeg(Treasury, Credit, TREASURY_SEED)]
  }

  lemma GenesisLedger()
    ensures Genesis().book.ledger == [] + Stamp(0, GenesisLegs())
  {
  }

  lemma GenesisMatches()
    ensures LedgerMatch(Genesis().book.bal, [] + Stamp(0, GenesisLegs()), [])
  {
    forall a: Account ensures Net([] + Stamp(0, GenesisLegs()), a) == LegAt(a)(GenesisLegs()[0])
        + LegAt(a)(GenesisLegs()[1]) {
      NetPost([], 0, GenesisLegs(), a);
      NetPair(GenesisLegs()[0], GenesisLegs()[1], a);
    }
  }

  lemma GenesisBalanced()
    ensures AllBalanced([] + Stamp(0, GenesisLegs()))
  {
    NetPair(GenesisLegs()[0], GenesisLegs()[1], Suspense);
    PostKeepsBalanced([], 0, GenesisLegs());
  }

  lemma GenesisMoney()
    ensures MoneyOk(Genesis().book.bal, Genesis().book.ledger, [], 1)
  {
    var bal := Genesis().book.bal;
    assert Shape(bal) && EntriesOk(Genesis().book.ledger, 1) && LedgerKnows(bal, Genesis().book.ledger, []);
    hide Shape, EntriesOk, LedgerKnows, LedgerMatch, AllBalanced;
    GenesisLedger();
    GenesisTotal();
    GenesisMatches();
    GenesisBalanced();
  }

  lemma GenesisOk()
    ensures WorldOk(Genesis())
  {
    hide MoneyOk;
    GenesisMoney();
    var b := Genesis().book;
    assert PaymentsOk(b.bal, b.pays, 0) && TwoPhase(b.bal, b.pays) && RowsOk(b.rows, 0, 0)
        && LinkedOk(b.rows, b.ledger, [], []);
  }

  lemma GenesisTotal()
    ensures Total(map[Suspense := 0, Treasury := TREASURY_SEED, MintSource := -TREASURY_SEED]) == 0
  {
    var m0: Balances := map[];
    TotalUpdate(m0, Suspense, 0);
    TotalUpdate(m0[Suspense := 0], Treasury, TREASURY_SEED);
    TotalUpdate(m0[Suspense := 0][Treasury := TREASURY_SEED], MintSource, -TREASURY_SEED);
    assert m0[Suspense := 0][Treasury := TREASURY_SEED][MintSource := -TREASURY_SEED]
        == map[Suspense := 0, Treasury := TREASURY_SEED, MintSource := -TREASURY_SEED];
  }

  lemma EmptyGenesis()
    ensures Genesis().book.pays == [] && Genesis().book.transfers == []
  {
  }

  lemma DrainWalletKeepsBook(b: Book, user: UserId)
    requires BookOk(b) && DrainWallet(b, user).Some?
    ensures BookOk(DrainWallet(b, user).value)
  {
    hide BookOk, Release;
    ReleaseKeepsBook(b, ActiveCeiling(b.ceils, user).value, Revoked, OfflineDrain);
  }

  lemma RefreshKeepsBook(b: Book, user: UserId, amount: int, expiresAt: Time)
    requires BookOk(b) && Refresh(b, user, amount, expiresAt).Some?
    ensures BookOk(Refresh(b, user, amount, expiresAt).value)
  {
    hide BookOk, DrainWallet, Fund;
    if ActiveCeiling(b.ceils, user).None? {
      FundKeepsBook(b, user, amount, expiresAt);
    } else {
      DrainWalletKeepsBook(b, user);
      FundKeepsBook(DrainWallet(b, user).value, user, amount, expiresAt);
    }
  }

  lemma SweepKeepsBook(b: Book, x: Candidate)
    requires BookOk(b) && Sweep(b, x).Some?
    ensures BookOk(Sweep(b, x).value)
  {
    hide BookOk, Release;
    if x.status.RecoveryPending? {
      ReleaseKeepsBook(b, x.ceiling, Revoked, OfflineRecoveryRelease);
    } else {
      ReleaseKeepsBook(b, x.ceiling, CeilingExpired, OfflineExpiryRelease);
    }
  }

  lemma SubmitKeepsBook(b: Book, item: ClaimItem, submitter: UserId, batch: nat, now: Time)
    requires BookOk(b)
    ensures BookOk(SubmitOne(b, item, submitter, batch, now).0)
  {
    hide BookOk, Accept, Validate;
    if SubmitOne(b, item, submitter, batch, now).1.Fresh? {
      AcceptKeepsBook(b, item.payment, submitter, batch, now);
    }
  }

  predicate IsWalletStep(e: Step) {
    || e.Enrol? || e.DemoMint? || e.FundOffline? || e.RecoverCeiling? || e.MoveToMain? || e.RefreshWallet?
    || e.SweepCeiling? || e.ForceExpire?
  }

  /** The steps of the wallet, the mint and registration, as one table of outcomes. */
  ghost function WalletStep(b: Book, e: Step): Option<Book>
    requires IsWalletStep(e)
  {
    match e
    case Enrol(u) => Register(b, u)
    case DemoMint(u, k) => Mint(b, u, k)
    case FundOffline(u, k, t) => Fund(b, u, k, t)
    case RecoverCeiling(u, now) => Recover(b, u, now)
    case MoveToMain(u) => DrainWallet(b, u)
    case RefreshWallet(u, k, t) => Refresh(b, u, k, t)
    case SweepCeiling(x) => Sweep(b, x)
    case ForceExpire(c) => ForceExpired(b, c)
  }

  /** Only the sweep may find nothing to act on: what was not listed is not swept. */
  lemma WalletStepApply(w: World, e: Step)
    requires IsWalletStep(e)
    ensures Apply(w, e) == OrElse(w, WalletStep(w.book, e)) || (Apply(w, e) == w && e.SweepCeiling?)
  {
  }

  /** The payment a step accepts, if it accepts one. */
  function AcceptedBy(w: World, e: Step): Option<PaymentToken> {
    match e
    case Submit(item, s, batch, now) =>
      if SubmitOne(w.book, item, s, batch, now).1.Fresh? then Some(item.payment) else None
    case AcceptClaim(x) => if x in w.checked && AcceptChecked(w.book, x).Some? then Some(x.item.payment) else None
    case _ => None
  }

  lemma AcceptFrame(b: Book, x: Checked)
    requires AcceptChecked(b, x).Some?
    ensures var b' := AcceptChecked(b, x).value;
            && b'.transfers == b.transfers && b'.ceils == b.ceils && b'.bal.Keys == b.bal.Keys
            && b'.pays == b.pays + [NewPayment(x.item.payment, x.submitter, x.batch, x.now)]
  {
    hide Insertable;
    AcceptParts(b, x.item.payment, x.submitter, x.batch, x.now);
    ApplyEffect(b.bal, ClaimLegs(x.item.payment.payee, x.item.payment.amount));
  }

  lemma WalletStepKeepsBook(b: Book, e: Step)
    requires BookOk(b) && IsWalletStep(e) && WalletStep(b, e).Some?
    ensures BookOk(WalletStep(b, e).value)
  {
    hide BookOk, Register, Mint, Fund, Recover, DrainWallet, Refresh, Sweep;
    match e
    case Enrol(u) => RegisterKeepsBook(b, u);
    case DemoMint(u, k) => MintKeepsBook(b, u, k);
    case FundOffline(u, k, t) => FundKeepsBook(b, u, k, t);
    case RecoverCeiling(u, now) => RecoverKeepsBook(b, u, now);
    case MoveToMain(u) => DrainWalletKeepsBook(b, u);
    case RefreshWallet(u, k, t) => RefreshKeepsBook(b, u, k, t);
    case SweepCeiling(x) => SweepKeepsBook(b, x);
    case ForceExpire(c) => RestateKeepsBook(b, c, CeilingExpired, b.ceils[c].releaseAfter);
  }

  /** The wallet side touches neither payments nor transfers. */
  lemma WalletStepFrame(b: Book, e: Step)
    requires IsWalletStep(e) && WalletStep(b, e).Some?
    ensures WalletStep(b, e).value.pays == b.pays && WalletStep(b, e).value.transfers == b.transfers
  {
    match e
    case MoveToMain(u) => ReleaseFrame(b, ActiveCeiling(b.ceils, u).value, Revoked, OfflineDrain);
    case RefreshWallet(u, k, t) =>
      if ActiveCeiling(b.ceils, u).Some? {
        ReleaseFrame(b, ActiveCeiling(b.ceils, u).value, Revoked, OfflineDrain);
      }
    case SweepCeiling(x) =>
      ReleaseFrame(b, x.ceiling, CeilingExpired, OfflineExpiryRelease);
      ReleaseFrame(b, x.ceiling, Revoked, OfflineRecoveryRelease);
    case _ =>
  }

  lemma ReleaseFrame(b: Book, c: nat, terminal: CeilingStatus, kind: RowKind)
    requires c < |b.ceils|
    ensures Release(b, c, terminal, kind).Some? ==>
              Release(b, c, terminal, kind).value.pays == b.pays
                  && Release(b, c, terminal, kind).value.transfers == b.transfers
  {
  }

  lemma SubmitFrame(b: Book, item: ClaimItem, submitter: UserId, batch: nat, now: Time)
    ensures var (b', r) := SubmitOne(b, item, submitter, batch, now);
            && b'.transfers == b.transfers && b'.ceils == b.ceils
            && (if r.Fresh?
                then b'.pays == b.pays + [NewPayment(item.payment, submitter, batch, now)] && |b.pays| == r.id
                else b' == b)
  {
    hide Validate, Insertable;
  }

  lemma FinalizeFrame(b: Book, payer: UserId, now: Time)
    requires BookOk(b)
    ensures BookAfter(b, FinalizeForPayer(b, payer, now)).transfers == b.transfers
  {
    hide BookOk, Drain, Queue;
    if Queue(b.pays, payer) != [] && FinalizeForPayer(b, payer, now).Committed? {
      CeilingStored(b, payer);
      QueueDrainable(b.pays, payer);
      FinalizeParts(b, payer, now);
      DrainKeepsBook(b, Queue(b.pays, payer), b.ceils[CeilingInUse(b, payer)].amount, now, payer);
    }
  }

  /** An accept that goes through adds the transfer, its rows and its envelope; any other leaves
      everything as it was. */
  lemma InitiateParts(b: Book, outbox: seq<OutboxRow>, r: TransferRequest, now: Time)
    ensures var a := InitiateTransfer(b, outbox, r, now);
            if a.result.AcceptedAs? then
              && WellFormedRequest(r) && a.result.id == |b.transfers|
                 && FindTransfer(b.transfers, r.sender, r.reference) == None
              && a.book == InsertTransfer(b, outbox, r, now).0 && a.book.pays == b.pays && a.book.bal == b.bal
                 && a.book.ceils == b.ceils
              && a.book.transfers == b.transfers
                 + [Transfer(r.sender, r.receiver.value, r.amount, r.reference, Domain.Accepted, NoReason, r.day)]
              && a.outbox == outbox
                 + [OutboxRow(TransferEvent(TransferPayload(|b.transfers|, r.sender, r.receiver.value, r.amount)),
                     false, 0, now)]
            else a.book == b && a.outbox == outbox
  {
    hide FindTransfer, CheckLimits, Sum;
  }

  lemma InitiateKeeps(w: World, r: TransferRequest, now: Time)
    requires WorldOk(w)
    ensures WorldOk(Apply(w, Initiate(r, now)))
  {
    hide BookOk, PipelineOk, InitiateTransfer, InsertTransfer;
    InitiateParts(w.book, w.outbox, r, now);
    if InitiateTransfer(w.book, w.outbox, r, now).result.AcceptedAs? {
      var x := Transfer(r.sender, r.receiver.value, r.amount, r.reference, Domain.Accepted, NoReason, r.day);
      InsertKeepsBook(w.book, w.outbox, r, now);
      PushTransfer(w.book.transfers, w.outbox, w.processed, w.published, x, now);
    }
  }

  lemma DispatchParts(w: World, ids: seq<nat>, fates: seq<Fate>, commits: bool, now: Time)
    ensures Apply(w, Dispatch(ids, fates, commits, now)) ==
            if |ids| != |fates| then w
            else
              var d := Tick(DispatchState(w.outbox, w.published), ids, fates, now);
              w.(outbox := if commits then d.outbox else w.outbox, published := d.published)
  {
    hide Tick;
  }

  lemma DispatchKeeps(w: World, ids: seq<nat>, fates: seq<Fate>, commits: bool, now: Time)
    requires WorldOk(w)
    ensures WorldOk(Apply(w, Dispatch(ids, fates, commits, now)))
  {
    assert DeliveryOk(w.outbox, w.processed, w.published);
    hide Apply, BookOk, PipelineOk, Tick, DeliveryOk;
    DispatchParts(w, ids, fates, commits, now);
    if |ids| == |fates| {
      TickDelivery(DispatchState(w.outbox, w.published), ids, fates, now, w.processed);
      var d := Tick(DispatchState(w.outbox, w.published), ids, fates, now);
      SameEventsKeep(w.book.transfers, w.outbox, if commits then d.outbox else w.outbox, w.processed, w.published,
          d.published);
    }
  }

  /** What one transfer delivery does to the transfer table. */
  lemma ProcessMarks(b: Book, p: TransferPayload)
    requires PayloadOk(b.transfers, p)
    ensures var (b', m) := ProcessTransfer(b, p);
            && m in {MarkSettled, MarkFailed}
            && b'.transfers == b.transfers[p.transfer := b'.transfers[p.transfer]]
            && b'.transfers[p.transfer]
               == b.transfers[p.transfer].(status := b'.transfers[p.transfer].status,
                   reason := b'.transfers[p.transfer].reason)
            && b'.transfers[p.transfer].status == (if m.MarkSettled? then TransferSettled else TransferFailed)
            && b'.pays == b.pays && b'.ceils == b.ceils
  {
  }

  lemma DeliverTransferKeeps(w: World, id: nat, crash: Crash, now: Time)
    requires WorldOk(w) && id < |w.outbox| && w.outbox[id].event.TransferEvent?
    ensures WorldOk(DeliverOne(w, id, crash, now))
  {
    if id in w.published && id !in w.processed && !crash.BeforeCommit? {
      var p := w.outbox[id].event.payload;
      assert PayloadOk(w.book.transfers, p) && w.book.transfers[p.transfer].status == Domain.Accepted;
      hide BookOk, PipelineOk, ProcessTransfer;
      ProcessKeepsBook(w.book, p);
      ProcessMarks(w.book, p);
      var (b', m) := ProcessTransfer(w.book, p);
      MarkKeeps(w.book.transfers, w.outbox, w.processed, w.published, id, b'.transfers[p.transfer], m);
    }
  }

  /** A finalize delivery drops out early, marks the event, or runs the transaction and marks
      the event unless the consumer dies in between. */
  lemma DeliverFinalizeParts(w: World, id: nat, crash: Crash, now: Time)
    requires id < |w.outbox| && w.outbox[id].event.FinalizeEvent?
    ensures var payer := w.outbox[id].event.payer;
            var w' := DeliverOne(w, id, crash, now);
            var b' := BookAfter(w.book, FinalizeForPayer(w.book, payer, now));
            || w' == w
            || (id in w.published && w' == w.(processed := w.processed[id := MarkFailed]))
            || w' == w.(book := b')
            || (id in w.published && w' == w.(book := b', processed := w.processed[id := MarkSettled]))
  {
    hide FinalizeForPayer;
  }

  lemma DeliverFinalizeKeeps(w: World, id: nat, crash: Crash, now: Time)
    requires WorldOk(w) && id < |w.outbox| && w.outbox[id].event.FinalizeEvent?
    ensures WorldOk(DeliverOne(w, id, crash, now))
  {
    hide BookOk, PipelineOk, FinalizeForPayer, DeliverOne, BookAfter;
    DeliverFinalizeParts(w, id, crash, now);
    FinalizeKeepsBook(w.book, w.outbox[id].event.payer, now);
    FinalizeFrame(w.book, w.outbox[id].event.payer, now);
    if id in w.published {
      MarkFinalize(w.book.transfers, w.outbox, w.processed, w.published, id, MarkFailed);
      MarkFinalize(w.book.transfers, w.outbox, w.processed, w.published, id, MarkSettled);
    }
  }

  lemma StepKeeps(w: World, e: Step)
    requires WorldOk(w)
    ensures WorldOk(Apply(w, e))
  {
    hide BookOk, PipelineOk, WalletStep, SubmitOne, Accept, ReleasableNow, InitiateTransfer, Tick, DeliverOne;
    match e
    case Submit(item, s, batch, now) =>
      SubmitKeepsBook(w.book, item, s, batch, now);
      SubmitFrame(w.book, item, s, batch, now);
    case ListExpired(now) =>
    case CheckClaim(x) =>
    case AcceptClaim(x) =>
      if AcceptChecked(w.book, x).Some? {
        AcceptKeepsBook(w.book, x.item.payment, x.submitter, x.batch, x.now);
        AcceptFrame(w.book, x);
      }
    case EnqueueFinalize(u, now) =>
      if u != "" {
        PushFinalize(w.book.transfers, w.outbox, w.processed, w.published, u, now);
      }
    case Initiate(r, now) => InitiateKeeps(w, r, now);
    case Dispatch(ids, fates, commits, now) => DispatchKeeps(w, ids, fates, commits, now);
    case Deliver(id, crash, now) => DeliverKeeps(w, id, crash, now);
    case _ =>
      WalletStepApply(w, e);
      if WalletStep(w.book, e).Some? {
        WalletStepKeepsBook(w.book, e);
        WalletStepFrame(w.book, e);
      }
  }

  lemma DeliverKeeps(w: World, id: nat, crash: Crash, now: Time)
    requires WorldOk(w)
    ensures WorldOk(DeliverOne(w, id, crash, now))
  {
    if id < |w.outbox| {
      hide BookOk, PipelineOk, DeliverOne;
      if w.outbox[id].event.TransferEvent? {
        DeliverTransferKeeps(w, id, crash, now);
      } else {
        DeliverFinalizeKeeps(w, id, crash, now);
      }
    }
  }

  lemma {:induction false} RunKeeps(w: World, es: seq<Step>)
    requires WorldOk(w)
    ensures WorldOk(Run(w, es))
    decreases |es|
  {
    hide WorldOk, Apply;
    if es != [] {
      RunKeeps(w, es[..|es| - 1]);
      StepKeeps(Run(w, es[..|es| - 1]), es[|es| - 1]);
    }
  }

  /** Everything a reachable state satisfies. */
  lemma Reachable(es: seq<Step>)
    ensures WorldOk(Run(Genesis(), es))
  {
    GenesisOk();
    RunKeeps(Genesis(), es);
  }

  lemma ReachableBook(es: seq<Step>)
    ensures BookOk(Run(Genesis(), es).book)
  {
    hide Run, Genesis, BookOk, PipelineOk;
    Reachable(es);
  }

  // ------------------------------------------------------------------ runs in parts

  lemma {:induction false} RunConcat(w: World, xs: seq<Step>, ys: seq<Step>)
    ensures Run(w, xs + ys) == Run(Run(w, xs), ys)
    decreases |ys|
  {
    hide Apply;
    if ys == [] {
      assert xs + ys == xs;
    } else {
      var n := |ys| - 1;
      RunConcat(w, xs, ys[..n]);
      assert (xs + ys)[..|xs| + n] == xs + ys[..n];
    }
  }
}
