/** What the code keeps about every payer's lien over every run, whichever ceilings the claims
    name: the lien balance, what settlements took from it and what releases gave back are
    together what was funded. */
module LienAccounting {
  import opened Basics
  import opened Domain
  import opened Claims
  import opened Finalize
  import opened Wallet
  import opened Transfers
  import opened World
  import opened Invariants
  import opened SettleKeeps
  import opened AcceptKeeps
  import opened WalletKeeps
  import opened TransferKeeps
  import opened Draining
  import opened Finalizing
  import opened OverSettling
  import opened LienKeeps
  import opened Pipeline
  import opened Runs
  import opened ExactlyOnce

  function SettledBy(u: UserId): Payment -> int {
    (p: Payment) => if p.payer == u then p.settled else 0
  }

  predicate IsRelease(k: RowKind) { k in {OfflineDrain, OfflineExpiryRelease, OfflineRecoveryRelease} }

  function FundedRow(u: UserId): TxnRow -> int {
    (r: TxnRow) => if r.user == u && r.kind == OfflineFund then r.amount else 0
  }

  function ReleasedRow(u: UserId): TxnRow -> int {
    (r: TxnRow) => if r.user == u && IsRelease(r.kind) then r.amount else 0
  }

  /** Funded minus released, as the business rows record it. */
  ghost function PutAside(rows: seq<TxnRow>, u: UserId): int { Sum(rows, FundedRow(u)) - Sum(rows, ReleasedRow(u)) }

  ghost function SettledFor(pays: seq<Payment>, u: UserId): int { Sum(pays, SettledBy(u)) }

  function LienBalance(bal: Balances, u: UserId): int { if LienOf(u) in bal then bal[LienOf(u)] else 0 }

  /** Zero when a payer's lien accounts for everything put aside. */
  ghost function LienGap(b: Book, u: UserId): int {
    LienBalance(b.bal, u) + SettledFor(b.pays, u) - PutAside(b.rows, u)
  }

  /** Rows of payments, transfers and the mint put nothing aside. */
  predicate Neutral(r: TxnRow) { r.kind != OfflineFund && !IsRelease(r.kind) }

  lemma PushNeutral(rows: seq<TxnRow>, r: TxnRow, u: UserId)
    requires Neutral(r)
    ensures PutAside(rows + [r], u) == PutAside(rows, u)
  {
    SumPush(rows, r, FundedRow(u));
    SumPush(rows, r, ReleasedRow(u));
  }

  lemma PushPair(rows: seq<TxnRow>, r: TxnRow, q: TxnRow, u: UserId)
    requires Neutral(r) && Neutral(q)
    ensures PutAside(rows + [r, q], u) == PutAside(rows, u)
  {
    hide PutAside;
    PushNeutral(rows, r, u);
    PushNeutral(rows + [r], q, u);
    assert rows + [r, q] == (rows + [r]) + [q];
  }

  /** Flipping a group changes neither kind, user nor amount. */
  lemma FlipPutAside(rows: seq<TxnRow>, g: nat, st: RowStatus, x: Option<int>, r: Reason, u: UserId)
    ensures PutAside(FlipGroup(rows, g, st, x, r), u) == PutAside(rows, u)
  {
    var rows' := FlipGroup(rows, g, st, x, r);
    assert forall i | 0 <= i < |rows| ::
        rows'[i].user == rows[i].user && rows'[i].kind == rows[i].kind && rows'[i].amount == rows[i].amount;
    hide FlipGroup, IsRelease;
    SumCongruent(rows', rows, FundedRow(u), FundedRow(u));
    SumCongruent(rows', rows, ReleasedRow(u), ReleasedRow(u));
  }

  // ------------------------------------------------------------------ settlement

  lemma AcceptGap(b: Book, p: PaymentToken, submitter: UserId, batch: nat, now: Time, u: UserId)
    requires Accept(b, p, submitter, batch, now).Some?
    ensures LienGap(Accept(b, p, submitter, batch, now).value, u) == LienGap(b, u)
  {
    hide Accept, Insertable, PutAside;
    AcceptParts(b, p, submitter, batch, now);
    SumPush(b.pays, NewPayment(p, submitter, batch, now), SettledBy(u));
    PushPair(b.rows, SentRow(p.payer, p.payee, p.amount, |b.rows|, |b.pays|),
             ReceivedRow(p.payer, p.payee, p.amount, |b.rows|, |b.pays|), u);
    ClaimSameLiens(b.bal, p.payee, p.amount);
  }

  lemma SubmitGap(b: Book, item: ClaimItem, submitter: UserId, batch: nat, now: Time, u: UserId)
    ensures LienGap(SubmitOne(b, item, submitter, batch, now).0, u) == LienGap(b, u)
  {
    hide Accept, Insertable, Validate, LienGap;
    if SubmitOne(b, item, submitter, batch, now).1.Fresh? {
      FreshFacts(b, item, submitter, batch, now);
      AcceptGap(b, item.payment, submitter, batch, now, u);
    } else {
      SubmitFrame(b, item, submitter, batch, now);
    }
  }

  lemma SettleGap(b: Book, id: nat, s: Share, now: Time, u: UserId)
    requires BookOk(b) && id < |b.pays| && b.pays[id].status == Pending && ShareOk(b.pays[id], s)
    requires SettleOne(b, id, s, now).Some?
    ensures LienGap(SettleOne(b, id, s, now).value, u) == LienGap(b, u)
  {
    hide BookOk, SettleOne, PutAside;
    PendingPaymentFacts(b, id);
    NothingSettledYet(b, id);
    SettleParts(b, id, s, now);
    SettleLiens(b, id, s, now);
    SumUpdate(b.pays, id, After(b.pays[id], s, now), SettledBy(u));
    FlipPutAside(b.rows, b.rows[Anchor(b.rows, OfPayment(id))].group, RowCompleted, Some(s.settled), s.reason, u);
    PayersLien(b, id);
  }

  lemma PayersLien(b: Book, id: nat)
    requires BookOk(b) && id < |b.pays| && b.pays[id].status == Pending
    ensures LienOf(b.pays[id].payer) in b.bal
  {
    hide BookOk;
    PendingCovers(b, id);
  }

  lemma {:induction false} DrainGap(b: Book, ids: seq<nat>, r: int, now: Time, payer: UserId, u: UserId)
    requires BookOk(b) && Drainable(b.pays, ids, payer) && r >= 0 && Drain(b, ids, r, now).Some?
    ensures LienGap(Drain(b, ids, r, now).value.book, u) == LienGap(b, u)
    decreases |ids|
  {
    hide SettleOne, BookOk, LienGap;
    if ids != [] {
      var s := Allocate(b.pays[ids[0]].amount, r);
      DrainStep(b, ids, r, now, payer);
      AllocateOk(b.pays[ids[0]], r);
      SettleGap(b, ids[0], s, now, u);
      var b1 := SettleOne(b, ids[0], s, now).value;
      TailAmounts(b.pays, b1.pays, ids, payer);
      DrainGap(b1, ids[1..], s.left, now, payer, u);
    }
  }

  lemma FinalizeGap(b: Book, payer: UserId, now: Time, u: UserId)
    requires BookOk(b)
    ensures LienGap(BookAfter(b, FinalizeForPayer(b, payer, now)), u) == LienGap(b, u)
  {
    hide Queue, BookOk, Drain, LienGap;
    if Queue(b.pays, payer) != [] && FinalizeForPayer(b, payer, now).Committed? {
      CeilingStored(b, payer);
      QueueDrainable(b.pays, payer);
      FinalizeParts(b, payer, now);
      var c := b.ceils[CeilingInUse(b, payer)].amount;
      DrainGap(b, Queue(b.pays, payer), c, now, payer, u);
      var d := Drain(b, Queue(b.pays, payer), c, now).value.book;
      SameColumnsSameGap(d, FinalizeForPayer(b, payer, now).book, u);
    }
  }

  lemma SameColumnsSameGap(b: Book, d: Book, u: UserId)
    requires d.bal == b.bal && d.pays == b.pays && d.rows == b.rows
    ensures LienGap(d, u) == LienGap(b, u)
  {
  }

  // ------------------------------------------------------------------ wallet

  lemma MintGap(b: Book, user: UserId, amount: int, u: UserId)
    requires Mint(b, user, amount).Some?
    ensures LienGap(Mint(b, user, amount).value, u) == LienGap(b, u)
  {
    hide Move, PutAside;
    var row := TxnRow(|b.rows|, user, None, RowKind.DemoMint, RowCompleted, Credit, amount, None, OfMint, NoReason);
    MoveParts(b, row, Treasury, MainOf(user), amount);
    PushNeutral(b.rows, row, u);
  }

  lemma FundGap(b: Book, user: UserId, amount: int, expiresAt: Time, u: UserId)
    requires Fund(b, user, amount, expiresAt).Some?
    ensures LienGap(Fund(b, user, amount, expiresAt).value, u) == LienGap(b, u)
  {
    hide Move;
    var b1 := b.(ceils := b.ceils + [Ceiling(user, amount, 0, expiresAt, Active, None)]);
    var row := WalletRow(b, user, OfflineFund, Debit, amount, OfCeiling(|b.ceils|));
    MoveParts(b1, row, MainOf(user), LienOf(user), amount);
    SumPush(b.rows, row, FundedRow(u));
    SumPush(b.rows, row, ReleasedRow(u));
  }

  lemma ReleaseGap(b: Book, c: nat, terminal: CeilingStatus, kind: RowKind, u: UserId)
    requires c < |b.ceils| && IsRelease(kind) && Release(b, c, terminal, kind).Some?
    ensures LienGap(Release(b, c, terminal, kind).value, u) == LienGap(b, u)
  {
    hide Move, Release, SettledTotal;
    var user := b.ceils[c].payer;
    var left := Max(b.ceils[c].amount - SettledTotal(b.pays, c), 0);
    var row := WalletRow(b, user, kind, Credit, left, OfCeiling(c));
    ReleaseParts(b, c, terminal, kind);
    if left > 0 {
      MoveParts(b, row, LienOf(user), MainOf(user), left);
      SumPush(b.rows, row, FundedRow(u));
      SumPush(b.rows, row, ReleasedRow(u));
    }
  }

  lemma RegisterGap(b: Book, user: UserId, u: UserId)
    requires Register(b, user).Some?
    ensures LienGap(Register(b, user).value, u) == LienGap(b, u)
  {
    hide PutAside, SettledFor;
  }

  lemma WalletGap(b: Book, e: Step, u: UserId)
    requires IsWalletStep(e) && WalletStep(b, e).Some?
    ensures LienGap(WalletStep(b, e).value, u) == LienGap(b, u)
  {
    hide Register, Mint, Fund, Release, LienGap;
    match e
    case Enrol(v) => RegisterGap(b, v, u);
    case DemoMint(v, k) => MintGap(b, v, k, u);
    case FundOffline(v, k, t) => FundGap(b, v, k, t, u);
    case RecoverCeiling(v, now) => SameColumnsSameGap(b, Recover(b, v, now).value, u);
    case MoveToMain(v) => ReleaseGap(b, ActiveCeiling(b.ceils, v).value, Revoked, OfflineDrain, u);
    case RefreshWallet(v, k, t) =>
      if ActiveCeiling(b.ceils, v).None? {
        FundGap(b, v, k, t, u);
      } else {
        ReleaseGap(b, ActiveCeiling(b.ceils, v).value, Revoked, OfflineDrain, u);
        FundGap(DrainWallet(b, v).value, v, k, t, u);
      }
    case SweepCeiling(x) =>
      if x.status.RecoveryPending? {
        ReleaseGap(b, x.ceiling, Revoked, OfflineRecoveryRelease, u);
      } else {
        ReleaseGap(b, x.ceiling, CeilingExpired, OfflineExpiryRelease, u);
      }
    case ForceExpire(c) => SameColumnsSameGap(b, ForceExpired(b, c).value, u);
  }

  // ------------------------------------------------------------------ transfers

  lemma InitiateGap(b: Book, outbox: seq<OutboxRow>, r: TransferRequest, now: Time, u: UserId)
    ensures LienGap(InitiateTransfer(b, outbox, r, now).book, u) == LienGap(b, u)
  {
    hide InitiateTransfer, InsertTransfer, PutAside;
    InitiateParts(b, outbox, r, now);
    if InitiateTransfer(b, outbox, r, now).result.AcceptedAs? {
      InsertParts(b, outbox, r, now);
      PushPair(b.rows, PairedRow(r.sender, r.receiver.value, TransferSent, Debit, r.amount, |b.rows|, |b.transfers|),
               PairedRow(r.receiver.value, r.sender, TransferReceived, Credit, r.amount, |b.rows|, |b.transfers|), u);
    }
  }

  lemma ProcessGap(b: Book, p: TransferPayload, u: UserId)
    ensures LienGap(ProcessTransfer(b, p).0, u) == LienGap(b, u)
  {
    hide PutAside, SettledFor;
    var a := AnchorOf(b.rows, OfTransfer(p.transfer));
    if a.Some? {
      FlipPutAside(b.rows, b.rows[a.value].group, RowFailed, None, NotProvisioned, u);
      FlipPutAside(b.rows, b.rows[a.value].group, RowFailed, None, InsufficientFunds, u);
      FlipPutAside(b.rows, b.rows[a.value].group, RowCompleted, Some(p.amount), NoReason, u);
    }
  }

  lemma DeliverGap(w: World, id: nat, crash: Crash, now: Time, u: UserId)
    requires WorldOk(w)
    ensures LienGap(DeliverOne(w, id, crash, now).book, u) == LienGap(w.book, u)
  {
    hide BookOk, PipelineOk, DeliverOne, ProcessTransfer, FinalizeForPayer, LienGap;
    if id >= |w.outbox| {
      NoRowNoDelivery(w, id, crash, now);
    } else if w.outbox[id].event.TransferEvent? {
      DeliverTransferParts(w, id, crash, now);
      ProcessGap(w.book, w.outbox[id].event.payload, u);
    } else {
      DeliverFinalizeParts(w, id, crash, now);
      FinalizeGap(w.book, w.outbox[id].event.payer, now, u);
    }
  }

  // ------------------------------------------------------------------ runs

  lemma StepGap(w: World, e: Step, u: UserId)
    requires WorldOk(w)
    ensures LienGap(Apply(w, e).book, u) == LienGap(w.book, u)
  {
    hide WorldOk, WalletStep, SubmitOne, Accept, ReleasableNow, InitiateTransfer, Tick, DeliverOne, LienGap;
    match e
    case Submit(item, s, batch, now) => SubmitGap(w.book, item, s, batch, now, u);
    case ListExpired(now) =>
    case CheckClaim(x) =>
    case AcceptClaim(x) =>
      if AcceptChecked(w.book, x).Some? {
        AcceptGap(w.book, x.item.payment, x.submitter, x.batch, x.now, u);
      }
    case EnqueueFinalize(v, now) =>
    case Initiate(r, now) => InitiateGap(w.book, w.outbox, r, now, u);
    case Dispatch(ids, fates, commits, now) =>
    case Deliver(id, crash, now) => DeliverGap(w, id, crash, now, u);
    case _ =>
      WalletStepApply(w, e);
      if WalletStep(w.book, e).Some? {
        WalletGap(w.book, e, u);
      }
  }

  lemma {:induction false} RunGap(w: World, es: seq<Step>, u: UserId)
    requires WorldOk(w)
    ensures LienGap(Run(w, es).book, u) == LienGap(w.book, u)
    decreases |es|
  {
    hide WorldOk, Apply, LienGap;
    if es != [] {
      RunGap(w, es[..|es| - 1], u);
      RunKeeps(w, es[..|es| - 1]);
      StepGap(Run(w, es[..|es| - 1]), es[|es| - 1], u);
    }
  }

  lemma GenesisGap(u: UserId)
    ensures LienGap(Genesis().book, u) == 0
  {
    var b := Genesis().book;
    SumZero(b.rows, FundedRow(u));
    SumZero(b.rows, ReleasedRow(u));
  }

  /** Over every run, whatever ceilings its claims name: a payer's lien balance plus everything settled
      for that payer's payments is what the payer put aside and did not get back. So no payer's
      payments ever settle more than that. */
  lemma PayerLienOverRuns(es: seq<Step>, u: UserId)
    ensures var b := Run(Genesis(), es).book;
            && LienBalance(b.bal, u) + SettledFor(b.pays, u) == PutAside(b.rows, u)
            && 0 <= LienBalance(b.bal, u) && SettledFor(b.pays, u) <= PutAside(b.rows, u)
  {
    hide WorldOk, BookOk, Run, Genesis, PutAside, SettledFor;
    GenesisOk();
    GenesisGap(u);
    RunGap(Genesis(), es, u);
    ReachableBook(es);
    if LienOf(u) in Run(Genesis(), es).book.bal {
      LienNonneg(Run(Genesis(), es).book, u);
    }
  }

  // ------------------------------------------------------------------ when a ceiling is settled beyond its amount

  /** For a queue that names one ceiling: exactly when something was settled under it before, what is
      pending no longer fits, and yet the payer's lien covers min(T, C). If the lien does not, the call
      aborts; in neither case does it settle short what no longer fits. */
  lemma OverSettlesIff(b: Book, payer: UserId, c: nat, now: Time)
    requires BookOk(b) && Queue(b.pays, payer) != [] && CeilingInUse(b, payer) == c
    requires forall i | 0 <= i < |b.pays| && IsPendingOf(b.pays[i], payer) :: b.pays[i].ceiling == c
    requires c < |b.ceils| && SettledTotal(b.pays, c) <= b.ceils[c].amount
    ensures LienOf(payer) in b.bal
    ensures var settled, total, ceiling := SettledTotal(b.pays, c), PendingTotal(b.pays, payer), b.ceils[c].amount;
            SettledTotal(BookAfter(b, FinalizeForPayer(b, payer, now)).pays, c) > ceiling
            <==> settled > 0 && settled + total > ceiling && b.bal[LienOf(payer)] >= Min(total, ceiling)
  {
    hide BookOk, Queue, FinalizeForPayer, PendingTotal, SettledTotal;
    CeilingStored(b, payer);
    SettledNonneg(b, c);
    FinalizeCommitsIff(b, payer, now);
    if FinalizeForPayer(b, payer, now).Committed? {
      FinalizeAdds(b, payer, now);
    }
  }
}
