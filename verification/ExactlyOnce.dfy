/** Exactly-once money movement over at-least-once delivery: however often an envelope is
    republished and redelivered, and wherever the consumer dies, each settled transfer moved
    its amount once and every other transfer moved nothing. */
module ExactlyOnce {
  import opened Basics
  import opened Domain
  import opened Posting
  import opened Claims
  import opened Finalize
  import opened Wallet
  import opened Transfers
  import opened World
  import opened Invariants
  import opened AcceptKeeps
  import opened WalletKeeps
  import opened TransferKeeps
  import opened Finalizing
  import opened Pipeline
  import opened Runs

  /** The step is a delivery of transfer t's envelope. */
  predicate Handles(w: World, e: Step, t: nat) {
    e.Deliver? && e.id < |w.outbox| && IsEventOf(w.outbox[e.id], t)
  }

  /** Transfers are only appended, as accepted, and only a delivery of its own envelope changes
      one, from accepted to settled or failed. */
  predicate TransfersStep(w: World, e: Step, ts': seq<Transfer>) {
    var ts := w.book.transfers;
    && |ts| <= |ts'|
    && (forall t | 0 <= t < |ts| ::
          ts'[t] == ts[t]
          || (Handles(w, e, t) && ts[t].status == Domain.Accepted && ts'[t].status in {TransferSettled, TransferFailed}
              && ts'[t] == ts[t].(status := ts'[t].status, reason := ts'[t].reason)))
    && (forall t | |ts| <= t < |ts'| :: ts'[t].status == Domain.Accepted)
  }

  lemma StepTransfers(w: World, e: Step)
    requires WorldOk(w)
    ensures TransfersStep(w, e, Apply(w, e).book.transfers)
  {
    hide BookOk, PipelineOk, WalletStep, SubmitOne, AcceptChecked, ReleasableNow, InitiateTransfer, Tick, DeliverOne;
    match e
    case Submit(item, s, batch, now) => SubmitFrame(w.book, item, s, batch, now);
    case ListExpired(now) =>
    case CheckClaim(x) =>
    case AcceptClaim(x) =>
      if AcceptChecked(w.book, x).Some? {
        AcceptFrame(w.book, x);
      }
    case EnqueueFinalize(u, now) =>
    case Initiate(r, now) => InitiateParts(w.book, w.outbox, r, now);
    case Dispatch(ids, fates, commits, now) =>
    case Deliver(id, crash, now) => DeliverTransfers(w, id, crash, now);
    case _ =>
      WalletStepApply(w, e);
      if WalletStep(w.book, e).Some? {
        WalletStepFrame(w.book, e);
      }
  }

  /** Which of the three outcomes a transfer delivery has. */
  lemma DeliverTransferParts(w: World, id: nat, crash: Crash, now: Time)
    requires id < |w.outbox| && w.outbox[id].event.TransferEvent?
    ensures var (b', m) := ProcessTransfer(w.book, w.outbox[id].event.payload);
            DeliverOne(w, id, crash, now) ==
            if id !in w.published || id in w.processed || crash.BeforeCommit? then w
            else w.(book := b', processed := w.processed[id := m])
  {
    hide ProcessTransfer;
  }

  lemma EnvelopeFacts(w: World, id: nat)
    requires WorldOk(w) && id < |w.outbox| && w.outbox[id].event.TransferEvent?
    ensures PayloadOk(w.book.transfers, w.outbox[id].event.payload)
    ensures var x := w.book.transfers[w.outbox[id].event.payload.transfer];
            TransferOk(x) && x.status == StatusFor(w.processed, id)
  {
  }

  lemma DeliverTransfers(w: World, id: nat, crash: Crash, now: Time)
    requires WorldOk(w)
    ensures TransfersStep(w, Deliver(id, crash, now), DeliverOne(w, id, crash, now).book.transfers)
  {
    hide BookOk, PipelineOk, DeliverOne, ProcessTransfer;
    if id < |w.outbox| && w.outbox[id].event.TransferEvent? {
      EnvelopeFacts(w, id);
      DeliverTransferParts(w, id, crash, now);
      ProcessMarks(w.book, w.outbox[id].event.payload);
    } else if id < |w.outbox| {
      DeliverFinalizeParts(w, id, crash, now);
      FinalizeFrame(w.book, w.outbox[id].event.payer, now);
    } else {
      NoRowNoDelivery(w, id, crash, now);
    }
  }

  lemma NoRowNoDelivery(w: World, id: nat, crash: Crash, now: Time)
    requires id >= |w.outbox|
    ensures DeliverOne(w, id, crash, now) == w
  {
  }

  /** The step handles t's envelope and changes some balance. */
  ghost predicate MovesMoney(w: World, e: Step, t: nat) {
    Handles(w, e, t) && Apply(w, e).book.bal != w.book.bal
  }

  function IsSettled(ts: seq<Transfer>, t: nat): nat { if t < |ts| && ts[t].status == TransferSettled then 1 else 0 }

  lemma ProcessMoves(b: Book, p: TransferPayload)
    requires p.amount > 0 && p.sender != p.receiver
    ensures var (b', m) := ProcessTransfer(b, p);
            && (m.MarkSettled? <==> b'.bal != b.bal)
            && (m.MarkSettled? ==> MainOf(p.sender) in b.bal && MainOf(p.receiver) in b.bal
                                   && b.bal[MainOf(p.sender)] >= p.amount
                                   && b'.bal == Moved(b.bal, MainOf(p.sender), MainOf(p.receiver), p.amount))
  {
    if ProcessTransfer(b, p).1.MarkSettled? {
      assert ProcessTransfer(b, p).0.bal[MainOf(p.sender)] == b.bal[MainOf(p.sender)] - p.amount;
    }
  }

  /** A delivery moves money exactly when it takes its transfer from accepted to settled. */
  lemma MovesWhenSettling(w: World, e: Step, t: nat)
    requires WorldOk(w) && Handles(w, e, t)
    ensures t < |w.book.transfers| && t < |Apply(w, e).book.transfers|
    ensures MovesMoney(w, e, t) <==>
              (w.book.transfers[t].status == Domain.Accepted && Apply(w, e).book.transfers[t].status == TransferSettled)
  {
    hide BookOk, PipelineOk, DeliverOne, ProcessTransfer;
    EnvelopeFacts(w, e.id);
    DeliverTransferParts(w, e.id, e.crash, e.now);
    var p := w.outbox[e.id].event.payload;
    ProcessMoves(w.book, p);
    ProcessMarks(w.book, p);
  }

  /** How many steps of a run move money for transfer t. */
  ghost function Moves(w: World, es: seq<Step>, t: nat): nat
    decreases |es|
  {
    if es == [] then 0
    else Moves(w, es[..|es| - 1], t) + if MovesMoney(Run(w, es[..|es| - 1]), es[|es| - 1], t) then 1 else 0
  }

  lemma {:induction false} MovesCount(w: World, es: seq<Step>, t: nat)
    requires WorldOk(w)
    ensures Moves(w, es, t) + IsSettled(w.book.transfers, t) == IsSettled(Run(w, es).book.transfers, t)
    decreases |es|
  {
    hide WorldOk, Apply, MovesMoney;
    if es != [] {
      var front, e := es[..|es| - 1], es[|es| - 1];
      MovesCount(w, front, t);
      RunKeeps(w, front);
      StepTransfers(Run(w, front), e);
      if Handles(Run(w, front), e, t) {
        MovesWhenSettling(Run(w, front), e, t);
      } else {
        OthersMoveNothing(Run(w, front), e, t);
      }
    }
  }

  lemma OthersMoveNothing(w: World, e: Step, t: nat)
    requires !Handles(w, e, t)
    ensures !MovesMoney(w, e, t)
  {
  }

  /** Why one consumer at a time: the processed check runs ahead of the transaction, and the transaction
      checks nothing again. Two that overlap on one envelope are never harmless: the second moves the
      amount again as long as the sender covers it, and otherwise marks the settled transfer failed. */
  lemma OverlapNeverHarmless(b: Book, p: TransferPayload)
    requires p.amount > 0 && p.sender != p.receiver && p.transfer < |b.transfers|
    requires ProcessTransfer(b, p).1.MarkSettled?
    ensures var b1 := ProcessTransfer(b, p).0;
            var b2 := ProcessTransfer(b1, p).0;
            var from, to := MainOf(p.sender), MainOf(p.receiver);
            && from in b1.bal && to in b1.bal && p.transfer < |b2.transfers|
            && (if b1.bal[from] >= p.amount
                then b2.bal == Moved(b1.bal, from, to, p.amount) && b2.transfers[p.transfer].status == TransferSettled
                else b2.bal == b1.bal && b2.transfers[p.transfer].status == TransferFailed)
  {
    ProcessMoves(b, p);
    ProcessMoves(ProcessTransfer(b, p).0, p);
  }

  /** The outcome of a transfer is final. */
  lemma {:induction false} OutcomeIsFinal(w: World, es: seq<Step>, t: nat)
    requires WorldOk(w) && t < |w.book.transfers| && w.book.transfers[t].status != Domain.Accepted
    ensures t < |Run(w, es).book.transfers| && Run(w, es).book.transfers[t] == w.book.transfers[t]
    decreases |es|
  {
    hide WorldOk, Apply;
    if es != [] {
      OutcomeIsFinal(w, es[..|es| - 1], t);
      RunKeeps(w, es[..|es| - 1]);
      StepTransfers(Run(w, es[..|es| - 1]), es[|es| - 1]);
    }
  }

  /** The step takes the transfer's amount from the sender's main account and adds it to the receiver's;
      every other account stays. */
  ghost predicate MovesAmount(w: World, e: Step, x: Transfer) {
    && MainOf(x.sender) in w.book.bal && MainOf(x.receiver) in w.book.bal && x.sender != x.receiver
    && w.book.bal[MainOf(x.sender)] >= x.amount > 0
    && Apply(w, e).book.bal == Moved(w.book.bal, MainOf(x.sender), MainOf(x.receiver), x.amount)
  }

  lemma MoveIsExact(w: World, e: Step, t: nat)
    requires WorldOk(w) && MovesMoney(w, e, t)
    ensures t < |Apply(w, e).book.transfers| && Apply(w, e).book.transfers[t].status == TransferSettled
    ensures MovesAmount(w, e, Apply(w, e).book.transfers[t])
  {
    hide BookOk, PipelineOk, DeliverOne, ProcessTransfer;
    EnvelopeFacts(w, e.id);
    DeliverTransferParts(w, e.id, e.crash, e.now);
    var p := w.outbox[e.id].event.payload;
    ProcessMoves(w.book, p);
    ProcessMarks(w.book, p);
  }

  /** Over every run each settled transfer moved money in exactly one step and every other transfer in
      none; and that step moved exactly the transfer's amount between the two main accounts. */
  lemma ExactlyOnceMovement(es: seq<Step>, t: nat)
    ensures var ts := Run(Genesis(), es).book.transfers;
            && Moves(Genesis(), es, t) == (if t < |ts| && ts[t].status == TransferSettled then 1 else 0)
            && forall k | 0 <= k < |es| && MovesMoney(Run(Genesis(), es[..k]), es[k], t) ::
                 t < |ts| && ts[t].status == TransferSettled && MovesAmount(Run(Genesis(), es[..k]), es[k], ts[t])
  {
    hide WorldOk, MovesMoney, MovesAmount;
    GenesisOk();
    MovesCount(Genesis(), es, t);
    EmptyGenesis();
    hide Run, Genesis;
    forall k | 0 <= k < |es| && MovesMoney(Run(Genesis(), es[..k]), es[k], t)
      ensures t < |Run(Genesis(), es).book.transfers| && Run(Genesis(), es).book.transfers[t].status == TransferSettled
      ensures MovesAmount(Run(Genesis(), es[..k]), es[k], Run(Genesis(), es).book.transfers[t])
    {
      MoveStands(es, k, t);
    }
  }

  lemma MoveStands(es: seq<Step>, k: nat, t: nat)
    requires k < |es| && MovesMoney(Run(Genesis(), es[..k]), es[k], t)
    ensures t < |Run(Genesis(), es).book.transfers| && Run(Genesis(), es).book.transfers[t].status == TransferSettled
    ensures MovesAmount(Run(Genesis(), es[..k]), es[k], Run(Genesis(), es).book.transfers[t])
  {
    hide WorldOk, Run, Genesis, Apply, MovesMoney, MovesAmount;
    var w := Run(Genesis(), es[..k]);
    Reachable(es[..k]);
    MoveIsExact(w, es[k], t);
    RunOne(Genesis(), es[..k], es[k]);
    Reachable(es[..k] + [es[k]]);
    OutcomeIsFinal(Apply(w, es[k]), es[k + 1..], t);
    RunConcat(Genesis(), es[..k] + [es[k]], es[k + 1..]);
    assert (es[..k] + [es[k]]) + es[k + 1..] == es;
  }

  // ------------------------------------------------------------------ balances

  /** What the nightly reconciliation computes for an account. */
  ghost function Drift(b: Book, a: Account): int
    requires a in b.bal
  {
    b.bal[a] - Net(b.ledger, a)
  }

  /** In every reachable state the stored balances sum to zero, only suspense and the mint's
      counterweight may be negative, and each account's drift from its ledger is exactly the
      settled online transfers it received minus those it sent. */
  lemma MoneyOverRuns(es: seq<Step>)
    ensures var b := Run(Genesis(), es).book;
            && Total(b.bal) == 0
            && (forall a | a in b.bal && a != Suspense && a != MintSource :: b.bal[a] >= 0)
            && (forall a | a in b.bal :: Drift(b, a) == TransferNet(b.transfers, a))
  {
    hide Run, Genesis;
    ReachableBook(es);
  }

  /** Only user main accounts can drift; a run without settled transfers has no drift at all. */
  lemma CleanWithoutTransfers(es: seq<Step>, a: Account)
    requires a in Run(Genesis(), es).book.bal
    requires !a.MainOf? || forall t | 0 <= t < |Run(Genesis(), es).book.transfers| ::
                             Run(Genesis(), es).book.transfers[t].status != TransferSettled
    ensures Drift(Run(Genesis(), es).book, a) == 0
  {
    MoneyOverRuns(es);
    SumZero(Run(Genesis(), es).book.transfers, MovedAt(a));
  }

  /** Over any stretch of a run an account's drift shifts by the transfers settled in it. */
  lemma {:induction false} DriftShift(w: World, es: seq<Step>, a: Account)
    requires WorldOk(w) && a in w.book.bal
    ensures a in Run(w, es).book.bal
    ensures Drift(Run(w, es).book, a) - Drift(w.book, a)
         == TransferNet(Run(w, es).book.transfers, a) - TransferNet(w.book.transfers, a)
  {
    RunKeeps(w, es);
    AccountsStay(w, es, a);
  }

  lemma {:induction false} AccountsStay(w: World, es: seq<Step>, a: Account)
    requires WorldOk(w) && a in w.book.bal
    ensures a in Run(w, es).book.bal
    decreases |es|
  {
    hide WorldOk, Apply;
    if es != [] {
      AccountsStay(w, es[..|es| - 1], a);
      RunKeeps(w, es[..|es| - 1]);
      StepAccounts(Run(w, es[..|es| - 1]), es[|es| - 1]);
    }
  }

  lemma StepAccounts(w: World, e: Step)
    requires WorldOk(w)
    ensures w.book.bal.Keys <= Apply(w, e).book.bal.Keys
  {
    hide BookOk, PipelineOk, WalletStep, SubmitOne, AcceptChecked, ReleasableNow, InitiateTransfer, Tick, DeliverOne;
    match e
    case Submit(item, s, batch, now) => SubmitAccounts(w.book, item, s, batch, now);
    case ListExpired(now) =>
    case CheckClaim(x) =>
    case AcceptClaim(x) =>
      if AcceptChecked(w.book, x).Some? {
        AcceptFrame(w.book, x);
      }
    case EnqueueFinalize(u, now) =>
    case Initiate(r, now) => InitiateParts(w.book, w.outbox, r, now);
    case Dispatch(ids, fates, commits, now) =>
    case Deliver(id, crash, now) => DeliverAccounts(w, id, crash, now);
    case _ =>
      WalletStepApply(w, e);
      if WalletStep(w.book, e).Some? {
        WalletAccounts(w.book, e);
      }
  }

  lemma SubmitAccounts(b: Book, item: ClaimItem, submitter: UserId, batch: nat, now: Time)
    ensures SubmitOne(b, item, submitter, batch, now).0.bal.Keys == b.bal.Keys
  {
    hide Accept;
    if Accept(b, item.payment, submitter, batch, now).Some? {
      AcceptParts(b, item.payment, submitter, batch, now);
      ApplyEffect(b.bal, ClaimLegs(item.payment.payee, item.payment.amount));
    }
  }

  lemma DeliverAccounts(w: World, id: nat, crash: Crash, now: Time)
    requires WorldOk(w)
    ensures w.book.bal.Keys <= DeliverOne(w, id, crash, now).book.bal.Keys
  {
    hide BookOk, PipelineOk, DeliverOne, ProcessTransfer, FinalizeForPayer;
    if id < |w.outbox| && w.outbox[id].event.TransferEvent? {
      DeliverTransferParts(w, id, crash, now);
      ProcessAccounts(w.book, w.outbox[id].event.payload);
    } else if id < |w.outbox| {
      DeliverFinalizeParts(w, id, crash, now);
      FinalizeAccounts(w.book, w.outbox[id].event.payer, now);
    } else {
      NoRowNoDelivery(w, id, crash, now);
    }
  }

  lemma ProcessAccounts(b: Book, p: TransferPayload)
    ensures ProcessTransfer(b, p).0.bal.Keys == b.bal.Keys
  {
  }

  lemma FinalizeAccounts(b: Book, payer: UserId, now: Time)
    requires BookOk(b)
    ensures BookAfter(b, FinalizeForPayer(b, payer, now)).bal.Keys == b.bal.Keys
  {
    hide BookOk, Queue, Drain;
    if Queue(b.pays, payer) != [] && FinalizeForPayer(b, payer, now).Committed? {
      CeilingStored(b, payer);
      FinalizeBalances(b, payer, now);
    }
  }

  lemma MoveAccounts(b: Book, row: TxnRow, from: Account, to: Account, amount: int)
    ensures Move(b, row, from, to, amount).Some? ==> Move(b, row, from, to, amount).value.bal.Keys == b.bal.Keys
  {
    if Move(b, row, from, to, amount).Some? {
      ApplyEffect(b.bal, [LedgerLeg(from, Debit, amount), LedgerLeg(to, Credit, amount)]);
    }
  }

  lemma ReleaseAccounts(b: Book, c: nat, terminal: CeilingStatus, kind: RowKind)
    requires c < |b.ceils|
    ensures Release(b, c, terminal, kind).Some? ==> Release(b, c, terminal, kind).value.bal.Keys == b.bal.Keys
  {
    hide Move;
    var user := b.ceils[c].payer;
    var left := Max(b.ceils[c].amount - SettledTotal(b.pays, c), 0);
    MoveAccounts(b, WalletRow(b, user, kind, Credit, left, OfCeiling(c)), LienOf(user), MainOf(user), left);
  }

  lemma FundAccounts(b: Book, user: UserId, amount: int, expiresAt: Time)
    ensures Fund(b, user, amount, expiresAt).Some? ==> Fund(b, user, amount, expiresAt).value.bal.Keys == b.bal.Keys
  {
    hide Move;
    var c := |b.ceils|;
    MoveAccounts(b.(ceils := b.ceils + [Ceiling(user, amount, 0, expiresAt, Active, None)]),
                 WalletRow(b, user, OfflineFund, Debit, amount, OfCeiling(c)), MainOf(user), LienOf(user), amount);
  }

  lemma WalletAccounts(b: Book, e: Step)
    requires IsWalletStep(e) && WalletStep(b, e).Some?
    ensures b.bal.Keys <= WalletStep(b, e).value.bal.Keys
  {
    hide Move, Release, Fund;
    match e
    case Enrol(u) =>
    case DemoMint(u, k) =>
      MoveAccounts(b, TxnRow(|b.rows|, u, None, RowKind.DemoMint, RowCompleted, Credit, k, None, OfMint, NoReason),
          Treasury, MainOf(u), k);
    case FundOffline(u, k, t) => FundAccounts(b, u, k, t);
    case RecoverCeiling(u, now) =>
    case MoveToMain(u) => ReleaseAccounts(b, ActiveCeiling(b.ceils, u).value, Revoked, OfflineDrain);
    case RefreshWallet(u, k, t) =>
      if ActiveCeiling(b.ceils, u).None? {
        FundAccounts(b, u, k, t);
      } else {
        ReleaseAccounts(b, ActiveCeiling(b.ceils, u).value, Revoked, OfflineDrain);
        FundAccounts(DrainWallet(b, u).value, u, k, t);
      }
    case SweepCeiling(x) =>
      ReleaseAccounts(b, x.ceiling, CeilingExpired, OfflineExpiryRelease);
      ReleaseAccounts(b, x.ceiling, Revoked, OfflineRecoveryRelease);
    case ForceExpire(c) =>
  }

  // ------------------------------------------------------------------ the outbox

  /** Rows are never dropped or rewritten, and a publication is never taken back. */
  lemma {:induction false} OutboxDurable(w: World, es: seq<Step>)
    requires WorldOk(w)
    ensures |w.outbox| <= |Run(w, es).outbox| && w.published <= Run(w, es).published
    ensures forall i | 0 <= i < |w.outbox| :: Run(w, es).outbox[i].event == w.outbox[i].event
    ensures forall i | i in w.processed :: i in Run(w, es).processed && Run(w, es).processed[i] == w.processed[i]
    decreases |es|
  {
    hide WorldOk, Apply;
    if es != [] {
      OutboxDurable(w, es[..|es| - 1]);
      RunKeeps(w, es[..|es| - 1]);
      StepOutbox(Run(w, es[..|es| - 1]), es[|es| - 1]);
    }
  }

  predicate OutboxStep(w: World, w': World) {
    && |w.outbox| <= |w'.outbox| && w.published <= w'.published
    && (forall i | 0 <= i < |w.outbox| :: w'.outbox[i].event == w.outbox[i].event)
    && (forall i | i in w.processed :: i in w'.processed && w'.processed[i] == w.processed[i])
  }

  lemma DeliverOutbox(w: World, id: nat, crash: Crash, now: Time)
    ensures OutboxStep(w, DeliverOne(w, id, crash, now))
  {
    hide ProcessTransfer, FinalizeForPayer;
  }

  lemma DispatchOutbox(w: World, ids: seq<nat>, fates: seq<Fate>, commits: bool, now: Time)
    requires WorldOk(w)
    ensures OutboxStep(w, Apply(w, Dispatch(ids, fates, commits, now)))
  {
    assert DeliveryOk(w.outbox, w.processed, w.published);
    hide Apply, BookOk, PipelineOk, Tick, DeliveryOk;
    DispatchParts(w, ids, fates, commits, now);
    if |ids| == |fates| {
      TickDelivery(DispatchState(w.outbox, w.published), ids, fates, now, w.processed);
    }
  }

  lemma StepOutbox(w: World, e: Step)
    requires WorldOk(w)
    ensures OutboxStep(w, Apply(w, e))
  {
    hide WorldOk, WalletStep, SubmitOne, AcceptChecked, ReleasableNow, InitiateTransfer, DeliverOne;
    match e
    case Initiate(r, now) => InitiateParts(w.book, w.outbox, r, now);
    case Dispatch(ids, fates, commits, now) => DispatchOutbox(w, ids, fates, commits, now);
    case Deliver(id, crash, now) => DeliverOutbox(w, id, crash, now);
    case Submit(item, s, batch, now) =>
    case ListExpired(now) =>
    case CheckClaim(x) =>
    case AcceptClaim(x) =>
    case EnqueueFinalize(u, now) =>
    case _ => WalletStepApply(w, e);
  }

  lemma AcceptedRow(w: World, t: nat) returns (i: nat)
    requires WorldOk(w) && t < |w.book.transfers| && w.book.transfers[t].status == Domain.Accepted
    ensures i < |w.outbox| && IsEventOf(w.outbox[i], t) && i !in w.processed
    ensures i in w.published || !w.outbox[i].dispatched
  {
    assert PipelineOk(w.book.transfers, w.outbox, w.processed, w.published);
    hide WorldOk;
    assert HasOutboxRow(w.outbox, t);
    i :| 0 <= i < |w.outbox| && IsEventOf(w.outbox[i], t);
    assert w.book.transfers[t].status == StatusFor(w.processed, i);
  }

  /** Every accepted transfer has an envelope that has been published, or can be: a tick once its
      retry time has come, then one delivery, settle or fail it. */
  lemma CanAlwaysFinish(es: seq<Step>, t: nat, now: Time) returns (more: seq<Step>)
    requires t < |Run(Genesis(), es).book.transfers| && Run(Genesis(), es).book.transfers[t].status == Domain.Accepted
    ensures |more| <= 2
    ensures t < |Run(Genesis(), es + more).book.transfers|
    ensures Run(Genesis(), es + more).book.transfers[t].status in {TransferSettled, TransferFailed}
  {
    hide WorldOk, Apply, Genesis, Run;
    var w := Run(Genesis(), es);
    Reachable(es);
    var i := AcceptedRow(w, t);
    if i in w.published {
      more := [Deliver(i, NoCrash, now)];
      RunOne(Genesis(), es, more[0]);
      DeliverFinishes(w, i, t, now);
    } else {
      var d := Dispatch([i], [Confirmed], true, w.outbox[i].nextAttempt);
      PublishOne(w, i);
      StepKeeps(w, d);
      RunOne(Genesis(), es, d);
      more := [d, Deliver(i, NoCrash, now)];
      assert es + more == (es + [d]) + [more[1]];
      RunOne(Genesis(), es + [d], more[1]);
      DeliverFinishes(Apply(w, d), i, t, now);
    }
  }

  lemma RunOne(w: World, es: seq<Step>, e: Step)
    ensures Run(w, es + [e]) == Apply(Run(w, es), e)
  {
    assert (es + [e])[..|es|] == es;
  }

  lemma TickOne(d: DispatchState, i: nat, when: Time)
    requires Claimable(d.outbox, i, when)
    ensures Tick(d, [i], [Confirmed], when)
         == DispatchState(d.outbox[i := DispatchRow(d.outbox[i], Confirmed, when)], d.published + {i})
  {
    assert [i][1..] == [] && [Confirmed][1..] == [];
  }

  lemma PublishOne(w: World, i: nat)
    requires i < |w.outbox| && !w.outbox[i].dispatched
    ensures var w1 := Apply(w, Dispatch([i], [Confirmed], true, w.outbox[i].nextAttempt));
            && i in w1.published && |w1.outbox| == |w.outbox| && w1.outbox[i].event == w.outbox[i].event
            && w1.processed == w.processed && w1.book == w.book
  {
    TickOne(DispatchState(w.outbox, w.published), i, w.outbox[i].nextAttempt);
  }

  lemma DeliverFinishes(w: World, i: nat, t: nat, now: Time)
    requires WorldOk(w) && i < |w.outbox| && i in w.published && i !in w.processed && IsEventOf(w.outbox[i], t)
    ensures t < |Apply(w, Deliver(i, NoCrash, now)).book.transfers|
    ensures Apply(w, Deliver(i, NoCrash, now)).book.transfers[t].status in {TransferSettled, TransferFailed}
  {
    hide BookOk, PipelineOk, DeliverOne, ProcessTransfer;
    EnvelopeFacts(w, i);
    DeliverTransferParts(w, i, NoCrash, now);
    ProcessMarks(w.book, w.outbox[i].event.payload);
  }
}
