/** The outbox pipeline of online transfers: accept, dispatch, process. */
module Transfers {
  import opened Basics
  import opened Domain
  import opened Limits

  datatype TransferPayload = TransferPayload(transfer: nat, sender: UserId, receiver: UserId, amount: int)

  datatype Event = TransferEvent(payload: TransferPayload) | FinalizeEvent(payer: UserId)

  datatype OutboxRow = OutboxRow(event: Event, dispatched: bool, attempts: nat, nextAttempt: Time)

  datatype Mark = MarkSettled | MarkFailed | MarkSkipped

  type Marks = map<nat, Mark>

  /** Insert with on-conflict-do-nothing. */
  function MarkEvent(processed: Marks, id: nat, m: Mark): Marks {
    if id in processed then processed else processed[id := m]
  }

  /** A request with the receiver its account number resolves to, the sender's tier and the fraud verdict. */
  datatype TransferRequest = TransferRequest(
    sender: UserId, account: string, receiver: Option<UserId>, amount: int, reference: string, tier: Tier,
    blocked: bool, day: int)

  function FindTransfer(ts: seq<Transfer>, sender: UserId, reference: string): (i: Option<nat>)
    ensures i.Some? ==> i.value < |ts| && ts[i.value].sender == sender && ts[i.value].reference == reference
    ensures i.None? ==> forall j | 0 <= j < |ts| :: !(ts[j].sender == sender && ts[j].reference == reference)
  {
    if ts == [] then None
    else
      var n := |ts| - 1;
      if ts[n].sender == sender && ts[n].reference == reference then Some(n)
      else FindTransfer(ts[..n], sender, reference)
  }

  function SpentOn(sender: UserId, day: int): Transfer -> int {
    (t: Transfer) => if t.sender == sender && t.day == day && t.status != TransferFailed then t.amount else 0
  }

  datatype TransferRefusal =
    | NoSender | BadAccountNumber | BadAmount | BadReference | NoSuchReceiver | SelfTransfer
    | OverLimit(verdict: LimitVerdict) | FraudBlocked

  datatype AcceptResult = AcceptedAs(id: nat) | AlreadyThere(id: nat) | NotAccepted(why: TransferRefusal)

  datatype AcceptState = AcceptState(book: Book, outbox: seq<OutboxRow>, result: AcceptResult)

  /** Exactly ten decimal digits. */
  predicate IsAccountNumber(s: string) { |s| == 10 && forall i | 0 <= i < 10 :: '0' <= s[i] <= '9' }

  /** The checks ahead of the transaction, in order. */
  function RequestProblem(r: TransferRequest): Option<TransferRefusal> {
    if r.sender == "" then Some(NoSender)
    else if !IsAccountNumber(r.account) then Some(BadAccountNumber)
    else if r.amount <= 0 then Some(BadAmount)
    else if !(1 <= |r.reference| <= 64) then Some(BadReference)
    else if r.receiver.None? then Some(NoSuchReceiver)
    else if r.receiver.value == r.sender then Some(SelfTransfer)
    else None
  }

  predicate WellFormedRequest(r: TransferRequest) { RequestProblem(r).None? }

  /** The checks of a new request inside the transaction: limits, then the fraud verdict. */
  function AcceptProblem(r: TransferRequest, spent: int): Option<TransferRefusal> {
    var verdict := CheckLimits(r.tier, spent, r.amount);
    if verdict != Within then Some(OverLimit(verdict)) else if r.blocked then Some(FraudBlocked) else None
  }

  function PairedRow(user: UserId, other: UserId, kind: RowKind, dir: Direction, amount: int, group: nat,
          id: nat): TxnRow {
    TxnRow(group, user, Some(other), kind, RowPending, dir, amount, None, OfTransfer(id), NoReason)
  }

  /** The accept transaction: transfer row, paired rows and outbox row land together. */
  function InsertTransfer(b: Book, outbox: seq<OutboxRow>, r: TransferRequest, now: Time): (Book, seq<OutboxRow>)
    requires r.receiver.Some?
  {
    var id, anchor, to := |b.transfers|, |b.rows|, r.receiver.value;
    (b.(transfers := b.transfers + [Transfer(r.sender, to, r.amount, r.reference, Domain.Accepted, NoReason, r.day)],
        rows := b.rows + [PairedRow(r.sender, to, TransferSent, Debit, r.amount, anchor, id),
                          PairedRow(to, r.sender, TransferReceived, Credit, r.amount, anchor, id)]),
     outbox + [OutboxRow(TransferEvent(TransferPayload(id, r.sender, to, r.amount)), false, 0, now)])
  }

  ghost function InitiateTransfer(b: Book, outbox: seq<OutboxRow>, r: TransferRequest, now: Time): AcceptState {
    if !WellFormedRequest(r) then AcceptState(b, outbox, NotAccepted(RequestProblem(r).value))
    else
      match FindTransfer(b.transfers, r.sender, r.reference)
      case Some(i) => AcceptState(b, outbox, AlreadyThere(i))
      case None =>
        var problem := AcceptProblem(r, Sum(b.transfers, SpentOn(r.sender, r.day)));
        if problem.Some? then AcceptState(b, outbox, NotAccepted(problem.value))
        else
          var (b', outbox') := InsertTransfer(b, outbox, r, now);
          AcceptState(b', outbox', AcceptedAs(|b.transfers|))
  }

  /** What one publish attempt may turn out to be: stored and acknowledged, not stored, or
      stored with the acknowledgement lost. */
  datatype Fate = Confirmed | NotStored | AckLost

  /** One second doubled per attempt, never above a minute. */
  function Pow2(n: nat): nat { if n == 0 then 1 else 2 * Pow2(n - 1) }

  const SECOND: Time := 1_000_000

  function Backoff(attempts: nat): Time { Min(Pow2(attempts), 60) * SECOND }

  /** The dispatcher's handling of one claimed row. */
  function DispatchRow(row: OutboxRow, fate: Fate, now: Time): OutboxRow {
    if fate.Confirmed? then row.(dispatched := true)
    else row.(attempts := row.attempts + 1, nextAttempt := now + Backoff(row.attempts))
  }

  predicate Claimable(outbox: seq<OutboxRow>, id: nat, now: Time) {
    id < |outbox| && !outbox[id].dispatched && outbox[id].nextAttempt <= now
  }

  datatype DispatchState = DispatchState(outbox: seq<OutboxRow>, published: set<nat>)

  /** One tick over the claimed ids. */
  function Tick(d: DispatchState, ids: seq<nat>, fates: seq<Fate>, now: Time): (d': DispatchState)
    requires |ids| == |fates|
    ensures |d'.outbox| == |d.outbox|
    decreases |ids|
  {
    if ids == [] then d
    else
      var id := ids[0];
      var d1 :=
        if !Claimable(d.outbox, id, now) then d
        else DispatchState(d.outbox[id := DispatchRow(d.outbox[id], fates[0], now)],
                           if fates[0].NotStored? then d.published else d.published + {id});
      Tick(d1, ids[1..], fates[1..], now)
  }

  /** Both rows of a transfer follow its status; a transfer without rows is left alone. */
  function FlipTransferRows(rows: seq<TxnRow>, t: nat, status: RowStatus, settled: Option<int>, reason: Reason)
    : (rows': seq<TxnRow>)
    ensures |rows'| == |rows|
  {
    match AnchorOf(rows, OfTransfer(t))
    case None => rows
    case Some(a) => FlipGroup(rows, rows[a].group, status, settled, reason)
  }

  function MarkTransfer(ts: seq<Transfer>, t: nat, status: TransferStatus, reason: Reason): (ts': seq<Transfer>)
    ensures |ts'| == |ts|
  {
    if t < |ts| then ts[t := ts[t].(status := status, reason := reason)] else ts
  }

  function FailTransfer(b: Book, t: nat, why: Reason): Book {
    b.(transfers := MarkTransfer(b.transfers, t, TransferFailed, why),
       rows := FlipTransferRows(b.rows, t, RowFailed, None, why))
  }

  /** The per-message transaction on the book, with the mark it leaves on the event. */
  function ProcessTransfer(b: Book, p: TransferPayload): (Book, Mark) {
    if MainOf(p.sender) !in b.bal || MainOf(p.receiver) !in b.bal then
      (FailTransfer(b, p.transfer, NotProvisioned), MarkFailed)
    else if b.bal[MainOf(p.sender)] < p.amount then
      (FailTransfer(b, p.transfer, InsufficientFunds), MarkFailed)
    else
      var debited := b.bal[MainOf(p.sender) := b.bal[MainOf(p.sender)] - p.amount];
      (b.(bal := debited[MainOf(p.receiver) := debited[MainOf(p.receiver)] + p.amount],
          transfers := MarkTransfer(b.transfers, p.transfer, TransferSettled, NoReason),
          rows := FlipTransferRows(b.rows, p.transfer, RowCompleted, Some(p.amount), NoReason)),
       MarkSettled)
  }

  function MovedAt(a: Account): Transfer -> int {
    (t: Transfer) =>
      if t.status != TransferSettled then 0
      else (if a == MainOf(t.receiver) then t.amount else 0) - (if a == MainOf(t.sender) then t.amount else 0)
  }

  /** Settled online transfers received minus sent, per account: they post no legs. */
  ghost function TransferNet(ts: seq<Transfer>, a: Account): int { Sum(ts, MovedAt(a)) }
}
