/** Exactly which claims and transfers are accepted, and that a transfer is accepted once per
    (sender, reference) however often it is asked for. */
module Acceptance {
  import opened Basics
  import opened Domain
  import opened Claims
  import opened Wallet
  import opened Limits
  import opened Transfers
  import opened World
  import opened Invariants
  import opened AcceptKeeps
  import opened Guards
  import opened Pipeline
  import opened Runs
  import opened ExactlyOnce

  // ------------------------------------------------------------------ claims

  /** The claim binds its parties, its ceiling copy and its payment request to one another, and every
      signature on it is good. */
  predicate Bound(item: ClaimItem, submitter: UserId) {
    var p, c, r, v := item.payment, item.ceiling, item.request, item.crypto;
    && p.payer != p.payee && submitter in {p.payer, p.payee}
    && c.payer == p.payer && c.id == p.ceilingId && p.seqNo > c.seqStart
    && r.receiver == p.payee && r.cardUser == p.payee && r.nonce == p.nonce && (r.amount == 0 || r.amount == p.amount)
    && v.requestHash == Some(p.requestHash)
    && v.bankKeyKnown && v.cardKeyKnown && v.bankSigOk && v.payerSigOk && v.cardSigOk && v.receiverSigOk
  }

  /** The last moment the claim is in time: the request's and the ceiling's expiry with their graces. */
  function Deadline(item: ClaimItem): Time {
    Min(item.request.expiresAt + REQUEST_GRACE, item.ceiling.expiresAt + CLOCK_GRACE)
  }

  /** In whatever order the checks run, they pass exactly the bound claims that are in time; so a
      claim that is refused once for being late stays refused. */
  lemma ChecksMean(item: ClaimItem, submitter: UserId, now: Time)
    ensures Validate(item, submitter, now) == Pass <==> Bound(item, submitter) && now <= Deadline(item)
  {
  }

  /** The stored ceiling takes first-time claims: active, or quarantined and not past its release. */
  predicate Open(c: Ceiling, now: Time) {
    c.status == Active || (c.status == RecoveryPending && c.releaseAfter.Some? && now < c.releaseAfter.value)
  }

  /** A payment is stored under the payer and sequence of the claim. */
  predicate KeyStored(b: Book, p: PaymentToken) {
    exists i | 0 <= i < |b.pays| :: b.pays[i].payer == p.payer && b.pays[i].seqNo == p.seqNo
  }

  /** The row of a new payment fits the table: amounts and sequence in range, both parties with accounts, and
      the payee has not received this nonce. */
  predicate Fits(b: Book, p: PaymentToken) {
    && p.amount >= 1 && p.seqNo >= 1 && p.remainingCeiling >= 0
    && MainOf(p.payer) in b.bal && PendingOf(p.payee) in b.bal
    && forall i | 0 <= i < |b.pays| :: b.pays[i].payee == p.payee ==> b.pays[i].nonce != p.nonce
  }

  lemma InsertableMeans(b: Book, p: PaymentToken)
    ensures Insertable(b, p) <==> p.payer != p.payee && p.ceilingId < |b.ceils| && !KeyStored(b, p) && Fits(b, p)
  {
  }

  lemma KeyFound(b: Book, p: PaymentToken)
    ensures FindPayment(b.pays, p.payer, p.seqNo).Some? <==> KeyStored(b, p)
  {
    hide FindPayment;
  }

  /** A claim that is bound and in time is known exactly when its payer and sequence are stored, and accepted
      exactly when they are not, its ceiling is stored and open, and the row fits; no other claim is
      either, and whatever is not accepted leaves the book as it was. */
  lemma AcceptedExactlyWhen(b: Book, item: ClaimItem, submitter: UserId, batch: nat, now: Time)
    requires BookOk(b)
    ensures var (b', r) := SubmitOne(b, item, submitter, batch, now);
            && (r.Known? <==> Bound(item, submitter) && now <= Deadline(item) && KeyStored(b, item.payment))
            && (r.Fresh? <==>
                  Bound(item, submitter) && now <= Deadline(item) && !KeyStored(b, item.payment)
                  && item.ceiling.id < |b.ceils| && Open(b.ceils[item.ceiling.id], now) && Fits(b, item.payment))
            && (!r.Fresh? ==> b' == b)
  {
    hide BookOk, SubmitOne, Validate, Accept, Bound, Insertable, KeyStored, Fits, FindPayment, CeilingGate, Open;
    ChecksMean(item, submitter, now);
    SubmitCases(b, item, submitter, batch, now);
    InsertableMeans(b, item.payment);
    KeyFound(b, item.payment);
    AcceptNeverShort(b, item.payment, submitter, batch, now);
    if Bound(item, submitter) {
      BoundParties(item, submitter);
    }
    if item.ceiling.id < |b.ceils| {
      GateMeans(b.ceils[item.ceiling.id], now);
    }
  }

  lemma GateMeans(c: Ceiling, now: Time)
    ensures CeilingGate(c, now) == Pass <==> Open(c, now)
  {
  }

  lemma SubmitCases(b: Book, item: ClaimItem, submitter: UserId, batch: nat, now: Time)
    ensures var (b', r) := SubmitOne(b, item, submitter, batch, now);
            var passed, found := Validate(item, submitter, now) == Pass,
                FindPayment(b.pays, item.payment.payer, item.payment.seqNo).Some?;
            && (r.Known? <==> passed && found)
            && (r.Fresh? <==>
                  passed && !found && item.ceiling.id < |b.ceils| && CeilingGate(b.ceils[item.ceiling.id], now) == Pass
                  && Accept(b, item.payment, submitter, batch, now).Some?)
            && (!r.Fresh? ==> b' == b)
  {
    hide Validate, Accept, FindPayment, CeilingGate;
  }

  lemma BoundParties(item: ClaimItem, submitter: UserId)
    requires Bound(item, submitter)
    ensures item.payment.payer != item.payment.payee && item.ceiling.id == item.payment.ceilingId
  {
  }

  /** What is wrong with a claim that is refused for this reason. */
  predicate Violates(why: Refusal, b: Book, item: ClaimItem, submitter: UserId, now: Time) {
    var p, c, r, v := item.payment, item.ceiling, item.request, item.crypto;
    match why
    case SelfPay => p.payer == p.payee
    case PayerIdMismatch => c.payer != p.payer
    case CeilingMismatch => c.id != p.ceilingId
    case SubmitterNotParty => submitter !in {p.payer, p.payee}
    case RequestReceiverMismatch => r.receiver != p.payee
    case RequestDisplayCardUser => r.cardUser != r.receiver
    case BadBankSignature => !v.bankSigOk
    case BadPayerSignature => !v.payerSigOk
    case BadDisplayCardSig => !v.cardSigOk
    case BadReceiverSignature => !v.receiverSigOk
    case RequestNonceMismatch => r.nonce != p.nonce
    case RequestHashMismatch => v.requestHash != Some(p.requestHash)
    case RequestAmountMismatch => r.amount != 0 && r.amount != p.amount
    case RequestExpired => now - r.expiresAt > 5 * MINUTE
    case SequenceBelowStart => p.seqNo <= c.seqStart
    case PastCeilingExpiry => now - c.expiresAt > 30 * MINUTE
    case CeilingRecoveryClosed => StatusOf(b, c.id) == Some(RecoveryPending) && !Open(b.ceils[c.id], now)
    case CeilingTerminated => StatusOf(b, c.id) in {Some(CeilingExpired), Some(Exhausted), Some(Revoked)}
  }

  const MINUTE: Time := 60 * 1_000_000

  function StatusOf(b: Book, c: nat): (s: Option<CeilingStatus>)
    ensures s.Some? <==> c < |b.ceils|
  {
    if c < |b.ceils| then Some(b.ceils[c].status) else None
  }

  /** The place of a check in the order in which they run. */
  function Turn(why: Refusal): nat {
    match why
    case SelfPay => 0 case PayerIdMismatch => 1 case CeilingMismatch => 2 case SubmitterNotParty => 3
    case RequestReceiverMismatch => 4 case RequestDisplayCardUser => 5 case BadBankSignature => 6
    case BadPayerSignature => 7 case BadDisplayCardSig => 8 case BadReceiverSignature => 9
    case RequestNonceMismatch => 10 case RequestHashMismatch => 11 case RequestAmountMismatch => 12
    case RequestExpired => 13 case SequenceBelowStart => 14 case PastCeilingExpiry => 15
    case CeilingRecoveryClosed => 16 case CeilingTerminated => 17
  }

  /** A payment row as a claim leaves it. */
  predicate StoredFor(x: Payment, p: PaymentToken, submitter: UserId, batch: nat, now: Time) {
    && x.payer == p.payer && x.payee == p.payee && x.amount == p.amount && x.seqNo == p.seqNo
    && x.remainingCeiling == p.remainingCeiling && x.ceiling == p.ceilingId && x.nonce == p.nonce
    && x.submitter == submitter && x.status == Pending && x.settled == 0 && x.reason == NoReason
    && x.batch == Some(batch) && x.submittedAt == Some(now) && x.settledAt == None
  }

  /** The claim passes every check ahead of this turn. */
  ghost predicate PassesUpTo(turn: nat, b: Book, item: ClaimItem, submitter: UserId, now: Time) {
    forall w: Refusal | Turn(w) < turn :: !Violates(w, b, item, submitter, now)
  }

  /** What the checks from this turn on look up is there. */
  predicate LookedUp(turn: nat, v: Verdicts) {
    && (turn >= Turn(BadBankSignature) ==> v.bankKeyKnown) && (turn >= Turn(BadDisplayCardSig) ==> v.cardKeyKnown)
    && (turn >= Turn(RequestHashMismatch) ==> v.requestHash.Some?)
  }

  /** The claim gets as far as this turn, which needs something that is not there. */
  ghost predicate BreaksAt(turn: nat, b: Book, item: ClaimItem, submitter: UserId, now: Time) {
    PassesUpTo(turn, b, item, submitter, now) && !LookedUp(turn, item.crypto)
    && (turn > 0 ==> LookedUp(turn - 1, item.crypto))
  }

  /** The answer to a claim is true of the book before and after it. */
  ghost predicate TrueAnswer(b: Book, b': Book, item: ClaimItem, submitter: UserId, batch: nat, now: Time,
          r: SubmitResult) {
    var p, v := item.payment, item.crypto;
    match r
    case Refused(why) =>
      Violates(why, b, item, submitter, now) && PassesUpTo(Turn(why), b, item, submitter, now) && LookedUp(Turn(why), v)
    case Known(id, status, settled, reason) =>
      && id < |b.pays| && b.pays[id].payer == p.payer && b.pays[id].seqNo == p.seqNo
      && b.pays[id].status == status && b.pays[id].settled == settled && b.pays[id].reason == reason
    case Fresh(id) =>
      && id == |b.pays| && |b'.pays| == id + 1 && b'.pays[..id] == b.pays
      && StoredFor(b'.pays[id], p, submitter, batch, now)
    case Failed =>
      || BreaksAt(Turn(BadBankSignature), b, item, submitter, now)
      || BreaksAt(Turn(BadDisplayCardSig), b, item, submitter, now)
      || BreaksAt(Turn(RequestHashMismatch), b, item, submitter, now)
      || (PassesUpTo(Turn(CeilingRecoveryClosed), b, item, submitter, now) && LookedUp(Turn(CeilingRecoveryClosed), v)
          && !KeyStored(b, p) && (item.ceiling.id >= |b.ceils| || !Fits(b, p)))
  }

  /** How far the checks get: to the end, to the first one that refuses, or to the first missing key or hash. */
  function Reached(item: ClaimItem, submitter: UserId, now: Time): nat {
    match Validate(item, submitter, now)
    case Pass => Turn(CeilingRecoveryClosed)
    case Refuse(why) => Turn(why)
    case Broken =>
      if !item.crypto.bankKeyKnown then Turn(BadBankSignature)
      else if !item.crypto.cardKeyKnown then Turn(BadDisplayCardSig)
      else Turn(RequestHashMismatch)
  }

  /** No check is skipped. */
  lemma EarlierPass(b: Book, item: ClaimItem, submitter: UserId, now: Time, w: Refusal)
    requires Turn(w) < Reached(item, submitter, now)
    ensures !Violates(w, b, item, submitter, now)
  {
  }

  lemma AllEarlierPass(b: Book, item: ClaimItem, submitter: UserId, now: Time)
    ensures PassesUpTo(Reached(item, submitter, now), b, item, submitter, now)
  {
    hide Violates, Reached;
    forall w: Refusal | Turn(w) < Reached(item, submitter, now) ensures !Violates(w, b, item, submitter, now) {
      EarlierPass(b, item, submitter, now, w);
    }
  }

  lemma CheckIsTrue(b: Book, item: ClaimItem, submitter: UserId, now: Time)
    ensures var v, turn := Validate(item, submitter, now), Reached(item, submitter, now);
            && (v.Refuse? ==>
                  Violates(v.reason, b, item, submitter, now) && turn == Turn(v.reason) < Turn(CeilingRecoveryClosed))
            && (v == Pass ==> turn == Turn(CeilingRecoveryClosed))
            && (if v.Broken?
                then turn in {Turn(BadBankSignature), Turn(BadDisplayCardSig), Turn(RequestHashMismatch)}
                     && !LookedUp(turn, item.crypto) && LookedUp(turn - 1, item.crypto)
                else LookedUp(turn, item.crypto))
  {
  }

  lemma GateIsTrue(b: Book, item: ClaimItem, submitter: UserId, now: Time)
    requires item.ceiling.id < |b.ceils|
    ensures var g := CeilingGate(b.ceils[item.ceiling.id], now);
            && !g.Broken?
            && (g.Refuse? ==>
                  Violates(g.reason, b, item, submitter, now)
                  && g.reason in {CeilingRecoveryClosed, CeilingTerminated})
            && (g == Refuse(CeilingTerminated) ==> !Violates(CeilingRecoveryClosed, b, item, submitter, now))
  {
  }

  /** A refusal comes from the checks or, once those pass, from the stored ceiling; a failure from the checks,
      a ceiling that is not stored, or the transaction. */
  lemma AnsweredBy(b: Book, item: ClaimItem, submitter: UserId, batch: nat, now: Time)
    ensures var r, v := SubmitOne(b, item, submitter, batch, now).1, Validate(item, submitter, now);
            && (r.Refused? ==>
                  v == Refuse(r.reason)
                  || (v == Pass && item.ceiling.id < |b.ceils|
                      && CeilingGate(b.ceils[item.ceiling.id], now) == Refuse(r.reason)))
            && (r.Failed? ==>
                  v == Broken
                  || (v == Pass && FindPayment(b.pays, item.payment.payer, item.payment.seqNo).None?
                      && (item.ceiling.id >= |b.ceils| || CeilingGate(b.ceils[item.ceiling.id], now) == Broken
                          || Accept(b, item.payment, submitter, batch, now).None?)))
  {
    hide Accept, Validate, CeilingGate, FindPayment;
  }

  lemma RefusalNamesFirst(b: Book, b': Book, item: ClaimItem, submitter: UserId, batch: nat, now: Time)
    requires SubmitOne(b, item, submitter, batch, now).1.Refused?
    ensures TrueAnswer(b, b', item, submitter, batch, now, SubmitOne(b, item, submitter, batch, now).1)
  {
    hide SubmitOne, Validate, CeilingGate, Violates, Reached, LookedUp;
    var why := SubmitOne(b, item, submitter, batch, now).1.reason;
    AnsweredBy(b, item, submitter, batch, now);
    CheckIsTrue(b, item, submitter, now);
    AllEarlierPass(b, item, submitter, now);
    if Validate(item, submitter, now) == Pass {
      GateIsTrue(b, item, submitter, now);
      SameLookups(item.crypto, Turn(why));
    }
  }

  lemma SameLookups(v: Verdicts, turn: nat)
    requires LookedUp(Turn(CeilingRecoveryClosed), v)
    ensures LookedUp(turn, v)
  {
  }

  lemma FailsWithReason(b: Book, b': Book, item: ClaimItem, submitter: UserId, batch: nat, now: Time)
    requires BookOk(b) && SubmitOne(b, item, submitter, batch, now).1.Failed?
    ensures TrueAnswer(b, b', item, submitter, batch, now, Failed)
  {
    PassBinds(item, submitter, now);
    hide SubmitOne, Validate, CeilingGate, Violates, Reached, LookedUp, FindPayment, Accept, BookOk, Insertable;
    hide Fits, KeyStored, PassesUpTo;
    AnsweredBy(b, item, submitter, batch, now);
    CheckIsTrue(b, item, submitter, now);
    AllEarlierPass(b, item, submitter, now);
    if Validate(item, submitter, now) == Pass {
      KeyFound(b, item.payment);
      InsertableMeans(b, item.payment);
      AcceptNeverShort(b, item.payment, submitter, batch, now);
      if item.ceiling.id < |b.ceils| {
        GateIsTrue(b, item, submitter, now);
      }
    }
  }

  lemma PassBinds(item: ClaimItem, submitter: UserId, now: Time)
    ensures Validate(item, submitter, now) == Pass ==>
              item.payment.payer != item.payment.payee && item.ceiling.id == item.payment.ceilingId
  {
  }

  /** Every answer is true: a refusal names the first check the claim fails, a known payment is reported
      as it is stored, a fresh one is stored as it was claimed, pending and stamped, and a failure
      means that the next check needs a key or hash that is not there, or, with all checks passed and
      nothing stored under the key, that the ceiling is not stored or the row does not fit. */
  lemma ClaimAnswers(b: Book, item: ClaimItem, submitter: UserId, batch: nat, now: Time)
    requires BookOk(b)
    ensures var (b', r) := SubmitOne(b, item, submitter, batch, now);
            TrueAnswer(b, b', item, submitter, batch, now, r)
  {
    hide BookOk, Violates, Turn, PassesUpTo, LookedUp, KeyStored, Fits;
    var (b', r) := SubmitOne(b, item, submitter, batch, now);
    if r.Refused? {
      RefusalNamesFirst(b, b', item, submitter, batch, now);
    } else if r.Failed? {
      FailsWithReason(b, b', item, submitter, batch, now);
    } else {
      SubmitFrame(b, item, submitter, batch, now);
    }
  }

  /** A pair of business rows of one group: the payer's debit and the payee's credit, both pending. */
  predicate PendingPair(d: TxnRow, c: TxnRow, group: nat, sent: RowKind, received: RowKind, payer: UserId,
          payee: UserId, amount: int, source: Source) {
    && d.group == c.group == group && d.source == c.source == source
    && d.direction == Debit && c.direction == Credit && d.kind == sent && c.kind == received
    && d.user == payer && d.counterparty == Some(payee) && c.user == payee && c.counterparty == Some(payer)
    && d.amount == c.amount == amount && d.status == c.status == RowPending
    && d.settled == c.settled == None && d.reason == c.reason == NoReason
  }

  /** What an accepting transaction leaves besides the payment: a pair of rows, the two legs that document
      the move, and the move itself, from suspense to the payee's pending account. */
  predicate ParkedBy(b: Book, b': Book, p: PaymentToken)
    requires Suspense in b.bal && PendingOf(p.payee) in b.bal
  {
    var n := |b.rows|;
    && b'.bal == b.bal[Suspense := b.bal[Suspense] - p.amount]
                      [PendingOf(p.payee) := b.bal[PendingOf(p.payee)] + p.amount]
    && |b'.rows| == n + 2 && b'.rows[..n] == b.rows
    && PendingPair(b'.rows[n], b'.rows[n + 1], n, OfflinePaymentSent, OfflinePaymentReceived, p.payer, p.payee,
         p.amount, OfPayment(|b.pays|))
    && b'.ledger == b.ledger + [Entry(n, LedgerLeg(Suspense, Debit, p.amount)),
                                Entry(n, LedgerLeg(PendingOf(p.payee), Credit, p.amount))]
    && b'.ceils == b.ceils && b'.transfers == b.transfers
  }

  lemma AcceptParks(b: Book, p: PaymentToken, submitter: UserId, batch: nat, now: Time)
    requires Suspense in b.bal && Accept(b, p, submitter, batch, now).Some?
    ensures PendingOf(p.payee) in b.bal && ParkedBy(b, Accept(b, p, submitter, batch, now).value, p)
  {
    AcceptParts(b, p, submitter, batch, now);
    assert PendingOf(p.payee) in b.bal && p.amount > 0;
    hide Accept, Insertable;
    ApplyPair(b.bal, Suspense, PendingOf(p.payee), p.amount);
  }

  lemma AcceptedClaimLeaves(b: Book, item: ClaimItem, submitter: UserId, batch: nat, now: Time)
    requires BookOk(b) && SubmitOne(b, item, submitter, batch, now).1.Fresh?
    ensures Suspense in b.bal && PendingOf(item.payment.payee) in b.bal
    ensures ParkedBy(b, SubmitOne(b, item, submitter, batch, now).0, item.payment)
  {
    assert Suspense in b.bal;
    hide BookOk, SubmitOne, Accept, ParkedBy;
    FreshAccepts(b, item, submitter, batch, now);
    AcceptParks(b, item.payment, submitter, batch, now);
  }

  lemma FreshAccepts(b: Book, item: ClaimItem, submitter: UserId, batch: nat, now: Time)
    requires SubmitOne(b, item, submitter, batch, now).1.Fresh?
    ensures Accept(b, item.payment, submitter, batch, now) == Some(SubmitOne(b, item, submitter, batch, now).0)
  {
    hide Accept, Validate, CeilingGate;
  }

  // ------------------------------------------------------------------ transfers

  /** What is wrong with a request that is refused for this reason. */
  predicate Fails(why: TransferRefusal, r: TransferRequest, spent: int) {
    match why
    case NoSender => r.sender == ""
    case BadAccountNumber => |r.account| != 10 || exists i | 0 <= i < 10 :: r.account[i] !in "0123456789"
    case BadAmount => r.amount <= 0
    case BadReference => r.reference == "" || |r.reference| > 64
    case NoSuchReceiver => r.receiver == None
    case SelfTransfer => r.receiver == Some(r.sender)
    case OverLimit(TierBlocked) => r.tier !in {TierOne, TierTwo, TierThree}
    case OverLimit(ExceedsSingle) => r.amount > AtOnce(r.tier)
    case OverLimit(SpendUnreadable) => spent > MAX_INT64
    case OverLimit(ExceedsDaily) => ADay(r.tier) < spent + r.amount <= MAX_INT64
    case OverLimit(Within) => false
    case FraudBlocked => r.blocked
  }

  const NAIRA := 100

  /** The most a tier sends at once, and in a day. */
  function AtOnce(t: Tier): int {
    match t case TierOne => 10_000 * NAIRA case TierTwo => 50_000 * NAIRA case TierThree => MAX_INT64 case _ => 0
  }

  function ADay(t: Tier): int {
    match t case TierOne => 30_000 * NAIRA case TierTwo => 300_000 * NAIRA case TierThree => MAX_INT64 case _ => 0
  }

  function TurnOf(why: TransferRefusal): nat {
    match why
    case NoSender => 0 case BadAccountNumber => 1 case BadAmount => 2 case BadReference => 3
    case NoSuchReceiver => 4 case SelfTransfer => 5
    case OverLimit(v) =>
      (match v case TierBlocked => 6 case ExceedsSingle => 7 case SpendUnreadable => 8 case ExceedsDaily => 9
               case Within => 11)
    case FraudBlocked => 10
  }

  predicate KnownReference(ts: seq<Transfer>, r: TransferRequest) {
    exists t | 0 <= t < |ts| :: ts[t].sender == r.sender && ts[t].reference == r.reference
  }

  /** The limits in true arithmetic: the machine sum only matters where it wraps, and then it passes. */
  lemma LimitsMean(t: Tier, spent: int, amount: int)
    requires amount > 0 && spent >= 0
    ensures CheckLimits(t, spent, amount) ==
              if t !in {TierOne, TierTwo, TierThree} then TierBlocked
              else if amount > AtOnce(t) then ExceedsSingle
              else if spent > MAX_INT64 then SpendUnreadable
              else if ADay(t) < spent + amount <= MAX_INT64 then ExceedsDaily
              else Within
  {
  }

  lemma SpentIsNonneg(b: Book, u: UserId, day: int)
    requires BookOk(b)
    ensures Sum(b.transfers, SpentOn(u, day)) >= 0
  {
    hide MoneyOk, PaymentsOk, TwoPhase, RowsOk, LinkedOk, CeilingsOk;
    assert forall t | 0 <= t < |b.transfers| :: TransferOk(b.transfers[t]);
    SumNonneg(b.transfers, SpentOn(u, day));
  }

  /** A transfer counts towards its sender's day from its acceptance on, unless it fails. */
  lemma SpentCounts(ts: seq<Transfer>, t: Transfer, u: UserId, day: int)
    ensures Sum(ts + [t], SpentOn(u, day))
         == Sum(ts, SpentOn(u, day))
            + if t.sender == u && t.day == day && t.status in {Domain.Accepted, Processing, TransferSettled}
              then t.amount else 0
    ensures Sum([], SpentOn(u, day)) == 0
  {
    SumPush(ts, t, SpentOn(u, day));
  }

  /** The sender is named, the account number has ten digits, the amount is positive, the reference has 1 to
      64 characters, and the receiver is known and somebody else. */
  predicate InOrder(r: TransferRequest) {
    && r.sender != "" && |r.account| == 10 && (forall i | 0 <= i < 10 :: r.account[i] in "0123456789")
    && r.amount > 0 && 1 <= |r.reference| <= 64 && r.receiver.Some? && r.receiver.value != r.sender
  }

  /** Within what the tier sends at once and, with what is spent already, in a day; a sum beyond 64 bits
      passes too. */
  predicate Affordable(t: Tier, spent: int, amount: int) {
    && t in {TierOne, TierTwo, TierThree} && amount <= AtOnce(t)
    && spent <= MAX_INT64 && (spent + amount <= ADay(t) || spent + amount > MAX_INT64)
  }

  lemma RequestMeans(r: TransferRequest)
    ensures WellFormedRequest(r) <==> InOrder(r)
  {
  }

  lemma FoundIff(ts: seq<Transfer>, r: TransferRequest)
    ensures FindTransfer(ts, r.sender, r.reference).Some? <==> KnownReference(ts, r)
  {
    hide FindTransfer;
  }

  lemma LimitsAfford(t: Tier, spent: int, amount: int)
    requires amount > 0 && spent >= 0
    ensures CheckLimits(t, spent, amount) == Within <==> Affordable(t, spent, amount)
  {
    LimitsMean(t, spent, amount);
    hide CheckLimits;
  }

  /** A request is accepted exactly when it is in order, new, affordable and not blocked as fraud. In order
      and not new, it is answered with the transfer stored under its reference. Whatever else leaves
      everything as it was. */
  lemma TransferAcceptedExactlyWhen(b: Book, outbox: seq<OutboxRow>, r: TransferRequest, now: Time)
    requires BookOk(b)
    ensures var a := InitiateTransfer(b, outbox, r, now);
            && (a.result.AcceptedAs? <==>
                  InOrder(r) && !KnownReference(b.transfers, r) && !r.blocked
                  && Affordable(r.tier, Sum(b.transfers, SpentOn(r.sender, r.day)), r.amount))
            && (a.result.AlreadyThere? <==> InOrder(r) && KnownReference(b.transfers, r))
            && (a.result.AlreadyThere? ==>
                  a.result.id < |b.transfers| && b.transfers[a.result.id].sender == r.sender
                  && b.transfers[a.result.id].reference == r.reference)
            && (!a.result.AcceptedAs? ==> a.book == b && a.outbox == outbox)
  {
    RequestMeans(r);
    FoundIff(b.transfers, r);
    SpentIsNonneg(b, r.sender, r.day);
    assert InOrder(r) ==> r.amount > 0;
    hide BookOk, RequestProblem, Sum, CheckLimits, FindTransfer, InOrder, KnownReference, Affordable, InsertTransfer;
    if r.amount > 0 {
      LimitsAfford(r.tier, Sum(b.transfers, SpentOn(r.sender, r.day)), r.amount);
    }
  }

  /** A refused request fails the check it is refused for and none ahead of it. */
  lemma TransferRefusals(b: Book, outbox: seq<OutboxRow>, r: TransferRequest, now: Time, w: TransferRefusal)
    requires BookOk(b) && InitiateTransfer(b, outbox, r, now).result.NotAccepted?
    ensures var why := InitiateTransfer(b, outbox, r, now).result.why;
            var spent := Sum(b.transfers, SpentOn(r.sender, r.day));
            Fails(why, r, spent) && (TurnOf(w) < TurnOf(why) ==> !Fails(w, r, spent))
  {
    SpentIsNonneg(b, r.sender, r.day);
    var spent := Sum(b.transfers, SpentOn(r.sender, r.day));
    RequestRefusals(r, spent, w);
    hide BookOk, Sum, FindTransfer, InsertTransfer, RequestProblem, AcceptProblem, Fails, TurnOf;
    if WellFormedRequest(r) {
      AcceptRefusals(r, spent, w);
    }
  }

  lemma RequestRefusals(r: TransferRequest, spent: int, w: TransferRefusal)
    ensures var p := RequestProblem(r);
            if p.Some? then Fails(p.value, r, spent) && (TurnOf(w) < TurnOf(p.value) ==> !Fails(w, r, spent))
            else r.amount > 0 && (TurnOf(w) <= TurnOf(SelfTransfer) ==> !Fails(w, r, spent))
  {
  }

  lemma AcceptRefusals(r: TransferRequest, spent: int, w: TransferRefusal)
    requires r.amount > 0 && spent >= 0 && (TurnOf(w) <= TurnOf(SelfTransfer) ==> !Fails(w, r, spent))
    ensures var p := AcceptProblem(r, spent);
            p.Some? ==> Fails(p.value, r, spent) && (TurnOf(w) < TurnOf(p.value) ==> !Fails(w, r, spent))
  {
    LimitsMean(r.tier, spent, r.amount);
    hide CheckLimits;
  }

  /** What an accepted request leaves: one transfer as asked for, its pair of rows, and one envelope that
      names it and is due at once; nothing moves yet. */
  lemma AcceptedTransferLeaves(b: Book, outbox: seq<OutboxRow>, r: TransferRequest, now: Time)
    requires InitiateTransfer(b, outbox, r, now).result.AcceptedAs?
    ensures var a := InitiateTransfer(b, outbox, r, now);
            var id, n := |b.transfers|, |b.rows|;
            && a.result.id == id && r.receiver.Some?
            && a.book == b.(transfers := a.book.transfers, rows := a.book.rows)
            && |a.book.transfers| == id + 1 && a.book.transfers[..id] == b.transfers
            && (var t := a.book.transfers[id];
                t.sender == r.sender && Some(t.receiver) == r.receiver && t.amount == r.amount
                && t.reference == r.reference && t.day == r.day && t.status == Domain.Accepted && t.reason == NoReason)
            && |a.book.rows| == n + 2 && a.book.rows[..n] == b.rows
            && PendingPair(a.book.rows[n], a.book.rows[n + 1], n, TransferSent, TransferReceived, r.sender,
                 r.receiver.value, r.amount, OfTransfer(id))
            && |a.outbox| == |outbox| + 1 && a.outbox[..|outbox|] == outbox
            && (var o := a.outbox[|outbox|];
                o.event.TransferEvent? && o.event.payload.transfer == id && o.event.payload.sender == r.sender
                && Some(o.event.payload.receiver) == r.receiver && o.event.payload.amount == r.amount
                && Claimable(a.outbox, |outbox|, now) && o.attempts == 0)
  {
    hide Sum, FindTransfer, CheckLimits, RequestProblem;
    AcceptedInOrder(b, outbox, r, now);
  }

  lemma AcceptedInOrder(b: Book, outbox: seq<OutboxRow>, r: TransferRequest, now: Time)
    requires InitiateTransfer(b, outbox, r, now).result.AcceptedAs?
    ensures WellFormedRequest(r) && InOrder(r)
    ensures InitiateTransfer(b, outbox, r, now).book == InsertTransfer(b, outbox, r, now).0
    ensures InitiateTransfer(b, outbox, r, now).outbox == InsertTransfer(b, outbox, r, now).1
    ensures InitiateTransfer(b, outbox, r, now).result.id == |b.transfers|
  {
    RequestMeans(r);
    hide InOrder, RequestProblem, InsertTransfer, Sum, CheckLimits, FindTransfer;
  }

  /** No two transfers of a sender share a reference. */
  predicate UniqueReferences(ts: seq<Transfer>) {
    forall i, j | 0 <= i < j < |ts| :: !(ts[i].sender == ts[j].sender && ts[i].reference == ts[j].reference)
  }

  predicate SameRequest(t: Transfer, t': Transfer) {
    t'.sender == t.sender && t'.receiver == t.receiver && t'.amount == t.amount && t'.reference == t.reference
        && t'.day == t.day
  }

  lemma StepKeepsRequests(w: World, e: Step)
    requires WorldOk(w)
    ensures |w.book.transfers| <= |Apply(w, e).book.transfers|
    ensures forall t | 0 <= t < |w.book.transfers| :: SameRequest(w.book.transfers[t], Apply(w, e).book.transfers[t])
  {
    hide WorldOk, Apply, TransfersStep;
    StepTransfers(w, e);
    RequestsKept(w, e, Apply(w, e).book.transfers);
  }

  lemma RequestsKept(w: World, e: Step, ts': seq<Transfer>)
    requires TransfersStep(w, e, ts')
    ensures |w.book.transfers| <= |ts'| && forall t | 0 <= t < |w.book.transfers| ::
            SameRequest(w.book.transfers[t], ts'[t])
  {
    hide Handles;
  }

  predicate AddsNewReference(ts: seq<Transfer>, ts': seq<Transfer>) {
    |ts| < |ts'| ==>
      |ts'| == |ts| + 1
      && forall t | 0 <= t < |ts| :: !(ts[t].sender == ts'[|ts|].sender && ts[t].reference == ts'[|ts|].reference)
  }

  /** Only an accept adds a transfer, one at a time and only under a new reference. */
  lemma StepAdds(w: World, e: Step)
    requires WorldOk(w)
    ensures AddsNewReference(w.book.transfers, Apply(w, e).book.transfers)
  {
    hide WorldOk, InitiateTransfer, Apply;
    if e.Initiate? {
      InitiateApplied(w, e.request, e.now);
      InitiateParts(w.book, w.outbox, e.request, e.now);
    } else {
      OthersAddNone(w, e);
    }
  }

  lemma InitiateApplied(w: World, r: TransferRequest, now: Time)
    ensures Apply(w, Initiate(r, now)).book == InitiateTransfer(w.book, w.outbox, r, now).book
  {
  }

  lemma OthersAddNone(w: World, e: Step)
    requires WorldOk(w) && !e.Initiate?
    ensures |Apply(w, e).book.transfers| == |w.book.transfers|
  {
    hide BookOk, PipelineOk, WalletStep, SubmitOne, AcceptChecked, ReleasableNow, InitiateTransfer, Tick, DeliverOne;
    if IsWalletStep(e) {
      WalletStepApply(w, e);
      if WalletStep(w.book, e).Some? {
        WalletStepFrame(w.book, e);
      }
    } else if e.Submit? {
      SubmitFrame(w.book, e.item, e.submitter, e.batch, e.now);
    } else if e.AcceptClaim? {
      if AcceptChecked(w.book, e.claim).Some? {
        AcceptFrame(w.book, e.claim);
      }
    } else if e.Deliver? {
      DeliveryAddsNone(w, e.id, e.crash, e.now);
    }
  }

  lemma DeliveryAddsNone(w: World, id: nat, crash: Crash, now: Time)
    requires WorldOk(w)
    ensures |DeliverOne(w, id, crash, now).book.transfers| == |w.book.transfers|
  {
    hide BookOk, PipelineOk, DeliverOne, ProcessTransfer;
    if id >= |w.outbox| {
      NoRowNoDelivery(w, id, crash, now);
    } else if w.outbox[id].event.TransferEvent? {
      EnvelopeFacts(w, id);
      DeliverTransferParts(w, id, crash, now);
      ProcessMarks(w.book, w.outbox[id].event.payload);
    } else {
      DeliverFinalizeParts(w, id, crash, now);
      FinalizeFrame(w.book, w.outbox[id].event.payer, now);
    }
  }

  /** Over any run references stay unique and an accepted transfer stays what was asked for. */
  lemma {:induction false} ReferencesOverRuns(w: World, es: seq<Step>)
    requires WorldOk(w) && UniqueReferences(w.book.transfers)
    ensures var ts, ts' := w.book.transfers, Run(w, es).book.transfers;
            && UniqueReferences(ts') && |ts| <= |ts'|
            && (forall t | 0 <= t < |ts| :: SameRequest(ts[t], ts'[t]))
    decreases |es|
  {
    hide WorldOk, Apply;
    if es != [] {
      var front := es[..|es| - 1];
      ReferencesOverRuns(w, front);
      RunKeeps(w, front);
      StepKeepsRequests(Run(w, front), es[|es| - 1]);
      StepAdds(Run(w, front), es[|es| - 1]);
    }
  }

  lemma {:induction false} FoundOnce(ts: seq<Transfer>, id: nat)
    requires id < |ts| && UniqueReferences(ts)
    ensures FindTransfer(ts, ts[id].sender, ts[id].reference) == Some(id)
  {
  }

  /** A request that was accepted once is answered with that transfer ever after, whatever happened in
      between, and changes nothing. */
  lemma RetryReturnsTheSame(es: seq<Step>, more: seq<Step>, id: nat, r: TransferRequest, now: Time)
    requires id < |Run(Genesis(), es).book.transfers| && WellFormedRequest(r)
    requires r.sender == Run(Genesis(), es).book.transfers[id].sender
    requires r.reference == Run(Genesis(), es).book.transfers[id].reference
    ensures var w := Run(Run(Genesis(), es), more);
            InitiateTransfer(w.book, w.outbox, r, now) == AcceptState(w.book, w.outbox, AlreadyThere(id))
  {
    hide Run, Genesis, WorldOk, CheckLimits;
    GenesisOk();
    EmptyGenesis();
    ReferencesOverRuns(Genesis(), es);
    Reachable(es);
    ReferencesOverRuns(Run(Genesis(), es), more);
    FoundOnce(Run(Run(Genesis(), es), more).book.transfers, id);
  }
}
