/** The stored entities: accounts, double-entry ledger, ceilings, payments, transfers
    and the business-event rows. A table is a sequence; a row's id is its index, so a
    fresh id is the length of the table. Amounts are kobo, times are microseconds. */
module Domain {
  import opened Basics

  type UserId = string
  type Bytes = seq<bv8>
  type Time = int

  datatype Direction = Debit | Credit

  /** Every user owns three accounts; the system owns the suspense account and the
      demo-mint treasury with its counterweight. */
  datatype Account =
    | MainOf(user: UserId)
    | LienOf(user: UserId)
    | PendingOf(user: UserId)
    | Suspense
    | Treasury
    | MintSource

  type Balances = map<Account, int>

  datatype LedgerLeg = LedgerLeg(account: Account, dir: Direction, amount: int)

  /** A ledger row: a leg hanging off the business-event row that documents it. */
  datatype Entry = Entry(txn: nat, leg: LedgerLeg)

  datatype PaymentStatus = Queued | Submitted | Pending | Settled | PartiallySettled | Rejected | Expired

  /** The declared edges of the payment state machine. */
  function ValidTransitions(s: PaymentStatus): set<PaymentStatus> {
    match s
    case Queued => {Submitted, Expired}
    case Submitted => {Pending, Rejected}
    case Pending => {Settled, PartiallySettled, Rejected}
    case _ => {}
  }

  predicate CanTransitionTo(s: PaymentStatus, t: PaymentStatus) { t in ValidTransitions(s) }

  predicate IsTerminal(s: PaymentStatus) { ValidTransitions(s) == {} }

  datatype Reason =
    | NoReason
    | CeilingExhausted
    | CeilingShortBy(kobo: int)
    | InsufficientFunds
    | NotProvisioned

  datatype Payment = Payment(
    payer: UserId, payee: UserId, amount: int, seqNo: int, remainingCeiling: int,
    ceiling: nat, nonce: Bytes, submitter: UserId,
    status: PaymentStatus, settled: int, reason: Reason,
    batch: Option<nat>, submittedAt: Option<Time>, settledAt: Option<Time>)

  datatype CeilingStatus = Active | RecoveryPending | CeilingExpired | Exhausted | Revoked

  datatype Ceiling = Ceiling(
    payer: UserId, amount: int, seqStart: int, expiresAt: Time,
    status: CeilingStatus, releaseAfter: Option<Time>)

  /** Live ceilings are the ones the partial unique index allows once per payer. */
  predicate IsLive(c: Ceiling) { c.status in {Active, RecoveryPending} }

  datatype TransferStatus = Accepted | Processing | TransferSettled | TransferFailed

  datatype Transfer = Transfer(
    sender: UserId, receiver: UserId, amount: int, reference: string,
    status: TransferStatus, reason: Reason, day: int)

  datatype Source = OfPayment(id: nat) | OfTransfer(id: nat) | OfCeiling(id: nat) | OfMint

  datatype RowKind =
    | OfflineFund | OfflineDrain | OfflineExpiryRelease | OfflineRecoveryRelease
    | OfflinePaymentSent | OfflinePaymentReceived | TransferSent | TransferReceived | DemoMint

  datatype RowStatus = RowPending | RowCompleted | RowFailed

  datatype TxnRow = TxnRow(
    group: nat, user: UserId, counterparty: Option<UserId>, kind: RowKind, status: RowStatus,
    direction: Direction, amount: int, settled: Option<int>, source: Source, reason: Reason)

  datatype Book = Book(
    bal: Balances, pays: seq<Payment>, rows: seq<TxnRow>, ledger: seq<Entry>,
    ceils: seq<Ceiling>, transfers: seq<Transfer>)

  /** The debit-side row of a source record: its index is the ledger anchor. */
  function AnchorOf(rows: seq<TxnRow>, source: Source): (a: Option<nat>)
    ensures a.Some? ==> a.value < |rows| && rows[a.value].source == source && rows[a.value].direction == Debit
    ensures a.None? ==> forall i | 0 <= i < |rows| :: rows[i].source == source ==> rows[i].direction != Debit
  {
    if rows == [] then None
    else
      var n := |rows| - 1;
      var before := AnchorOf(rows[..n], source);
      if before.Some? then before
      else if rows[n].source == source && rows[n].direction == Debit then Some(n)
      else None
  }

  /** Status and, where given, settled amount and reason of one row are overwritten. */
  function UpdateRow(r: TxnRow, status: RowStatus, settled: Option<int>, reason: Reason): TxnRow {
    r.(status := status,
       settled := if settled.Some? then settled else r.settled,
       reason := if reason.NoReason? then r.reason else reason)
  }

  /** Every row of the group is flipped, the others stay. */
  function FlipGroup(rows: seq<TxnRow>, group: nat, status: RowStatus, settled: Option<int>, reason: Reason)
    : (rows': seq<TxnRow>)
    ensures |rows'| == |rows|
    ensures forall i | 0 <= i < |rows| ::
              rows'[i] == if rows[i].group == group then UpdateRow(rows[i], status, settled, reason) else rows[i]
  {
    seq(|rows|, i requires 0 <= i < |rows| =>
      if rows[i].group == group then UpdateRow(rows[i], status, settled, reason) else rows[i])
  }

  lemma {:induction false} AnchorStable(rows: seq<TxnRow>, more: seq<TxnRow>, source: Source)
    requires AnchorOf(rows, source).Some?
    ensures AnchorOf(rows + more, source) == AnchorOf(rows, source)
    decreases |more|
  {
    if more == [] {
      assert rows + more == rows;
    } else {
      var m := |more| - 1;
      AnchorStable(rows, more[..m], source);
      assert (rows + more)[..|rows| + m] == rows + more[..m];
    }
  }

  /** The first debit row recorded for a source becomes its anchor. */
  lemma AnchorFresh(rows: seq<TxnRow>, debit: TxnRow, credit: TxnRow, source: Source)
    requires AnchorOf(rows, source).None?
    requires debit.source == source && debit.direction == Debit
    ensures AnchorOf(rows + [debit, credit], source) == Some(|rows|)
  {
    assert (rows + [debit])[..|rows|] == rows;
    assert rows + [debit, credit] == (rows + [debit]) + [credit];
    AnchorStable(rows + [debit], [credit], source);
  }

  /** Flipping rows moves no anchor. */
  lemma {:induction false} AnchorFlip(rows: seq<TxnRow>, rows': seq<TxnRow>, source: Source)
    requires |rows'| == |rows|
    requires forall i | 0 <= i < |rows| :: rows'[i].source == rows[i].source && rows'[i].direction == rows[i].direction
    ensures AnchorOf(rows', source) == AnchorOf(rows, source)
  {
    if rows != [] {
      AnchorFlip(rows[..|rows| - 1], rows'[..|rows| - 1], source);
    }
  }

  /** The number of declared edges still ahead of a status: every edge lowers it. */
  function Rank(s: PaymentStatus): nat {
    match s
    case Queued => 3
    case Submitted => 2
    case Pending => 1
    case _ => 0
  }

  lemma EdgesLowerRank(s: PaymentStatus, t: PaymentStatus)
    ensures CanTransitionTo(s, t) <==>
              (s, t) in {(Queued, Submitted), (Queued, Expired), (Submitted, Pending), (Submitted, Rejected),
                         (Pending, Settled), (Pending, PartiallySettled), (Pending, Rejected)}
    ensures CanTransitionTo(s, t) ==> Rank(t) < Rank(s)
    ensures IsTerminal(s) <==> Rank(s) == 0
    ensures IsTerminal(s) <==> forall u: PaymentStatus :: !CanTransitionTo(s, u)
  {
    assert Submitted in ValidTransitions(Queued);
    assert Pending in ValidTransitions(Submitted);
    assert Settled in ValidTransitions(Pending);
    assert CanTransitionTo(Queued, Submitted) && CanTransitionTo(Submitted, Pending)
        && CanTransitionTo(Pending, Settled);
  }
}
