/** The whole system as a step machine: every stored transaction, every read ahead of one, every
    message and crash point is one event, and a run is any sequence of events. A claim may be handled
    in one go or be overtaken between its checks and its transaction. */
module World {
  import opened Basics
  import opened Domain
  import opened Claims
  import opened Finalize
  import opened Wallet
  import opened Transfers

  /** The stored tables, the published envelopes, and what callers have read and not acted on yet: the
      candidates the expiry job has listed and the claims that have passed their checks. */
  datatype World = World(
    book: Book, outbox: seq<OutboxRow>, processed: Marks, published: set<nat>, listed: set<Candidate>,
    checked: set<Checked>)

  /** Where a consumer dies while it handles one delivery. */
  datatype Crash = NoCrash | BeforeCommit | AfterCommit

  datatype Step =
    | Enrol(user: UserId)
    | DemoMint(user: UserId, kobo: int)
    | FundOffline(user: UserId, kobo: int, expiresAt: Time)
    | RecoverCeiling(user: UserId, now: Time)
    | MoveToMain(user: UserId)
    | RefreshWallet(user: UserId, kobo: int, expiresAt: Time)
    | ListExpired(now: Time)
    | SweepCeiling(candidate: Candidate)
    | ForceExpire(ceiling: nat)
    | Submit(item: ClaimItem, submitter: UserId, batch: nat, now: Time)
    | CheckClaim(claim: Checked)
    | AcceptClaim(claim: Checked)
    | EnqueueFinalize(user: UserId, now: Time)
    | Initiate(request: TransferRequest, now: Time)
    | Dispatch(ids: seq<nat>, fates: seq<Fate>, commits: bool, now: Time)
    | Deliver(id: nat, crash: Crash, now: Time)

  ghost function OrElse(w: World, b: Option<Book>): World { if b.Some? then w.(book := b.value) else w }

  /** One delivery of a published envelope, in the order of the consumer: processed check,
      money transaction, mark. The transfer consumer marks inside its transaction, the
      finalize consumer after it. */
  function DeliverOne(w: World, id: nat, crash: Crash, now: Time): World {
    if id !in w.published || id >= |w.outbox| || id in w.processed || crash.BeforeCommit? then w
    else
      match w.outbox[id].event
      case TransferEvent(p) =>
        var (b, m) := ProcessTransfer(w.book, p);
        w.(book := b, processed := MarkEvent(w.processed, id, m))
      case FinalizeEvent(payer) =>
        if payer == "" then w.(processed := MarkEvent(w.processed, id, MarkFailed))
        else
          var o := FinalizeForPayer(w.book, payer, now);
          if o.Aborted? then w
          else if crash.AfterCommit? then w.(book := o.book)
          else w.(book := o.book, processed := MarkEvent(w.processed, id, MarkSettled))
  }

  ghost function Apply(w: World, e: Step): World {
    match e
    case Enrol(u) => OrElse(w, Register(w.book, u))
    case DemoMint(u, k) => OrElse(w, Mint(w.book, u, k))
    case FundOffline(u, k, t) => OrElse(w, Fund(w.book, u, k, t))
    case RecoverCeiling(u, now) => OrElse(w, Recover(w.book, u, now))
    case MoveToMain(u) => OrElse(w, DrainWallet(w.book, u))
    case RefreshWallet(u, k, t) => OrElse(w, Refresh(w.book, u, k, t))
    case ListExpired(now) => w.(listed := w.listed + ReleasableNow(w.book, now))
    case SweepCeiling(x) => if x in w.listed then OrElse(w, Sweep(w.book, x)) else w
    case ForceExpire(c) => OrElse(w, ForceExpired(w.book, c))
    case Submit(item, s, batch, now) => w.(book := SubmitOne(w.book, item, s, batch, now).0)
    case CheckClaim(x) => if ChecksPass(w.book, x.item, x.submitter, x.now) then w.(checked := w.checked + {x}) else w
    case AcceptClaim(x) => if x in w.checked then OrElse(w, AcceptChecked(w.book, x)) else w
    case EnqueueFinalize(u, now) =>
      if u == "" then w else w.(outbox := w.outbox + [OutboxRow(FinalizeEvent(u), false, 0, now)])
    case Initiate(r, now) =>
      var a := InitiateTransfer(w.book, w.outbox, r, now);
      w.(book := a.book, outbox := a.outbox)
    case Dispatch(ids, fates, commits, now) =>
      if |ids| != |fates| then w
      else
        var d := Tick(DispatchState(w.outbox, w.published), ids, fates, now);
        if commits then w.(outbox := d.outbox, published := d.published) else w.(published := d.published)
    case Deliver(id, crash, now) => DeliverOne(w, id, crash, now)
  }

  ghost function Run(w: World, es: seq<Step>): World
    decreases |es|
  {
    if es == [] then w else Apply(Run(w, es[..|es| - 1]), es[|es| - 1])
  }

  const TREASURY_SEED := 500_000_000_000

  /** The migrated database: an empty suspense account, the funded treasury and its
      counterweight, with the genesis posting that documents them. */
  function Genesis(): World {
    World(
      Book(map[Suspense := 0, Treasury := TREASURY_SEED, MintSource := -TREASURY_SEED],
           [],
           [TxnRow(0, "system-mint", None, RowKind.DemoMint, RowCompleted, Credit, TREASURY_SEED, None, OfMint,
               NoReason)],
           [Entry(0, LedgerLeg(MintSource, Debit, TREASURY_SEED)),
               Entry(0, LedgerLeg(Treasury, Credit, TREASURY_SEED))],
           [], []),
      [], map[], {}, {}, {})
  }
}
