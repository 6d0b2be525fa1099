/** Phase 4a: what a claim carries, the checks it passes in order, and the one transaction
    that parks an accepted amount between suspense and the payee's pending account. */
module Claims {
  import opened Basics
  import opened Domain
  import opened Posting

  const REQUEST_GRACE: Time := 300_000_000
  const CLOCK_GRACE: Time := 1_800_000_000

  datatype PaymentToken = PaymentToken(
    payer: UserId, payee: UserId, amount: int, seqNo: int, remainingCeiling: int,
    ceilingId: nat, nonce: Bytes, requestHash: Bytes)

  /** The bank-signed copy of the ceiling the client presents. */
  datatype CeilingCopy = CeilingCopy(id: nat, payer: UserId, amount: int, seqStart: int, expiresAt: Time)

  datatype PaymentRequest = PaymentRequest(
    receiver: UserId, cardUser: UserId, amount: int, nonce: Bytes, expiresAt: Time)

  /** The verdicts of the cryptographic library and the key table on one claim. */
  datatype Verdicts = Verdicts(
    bankKeyKnown: bool, bankSigOk: bool, payerSigOk: bool, cardKeyKnown: bool, cardSigOk: bool,
    receiverSigOk: bool, requestHash: Option<Bytes>)

  datatype ClaimItem = ClaimItem(payment: PaymentToken, ceiling: CeilingCopy, request: PaymentRequest, crypto: Verdicts)

  datatype Refusal =
    | SelfPay | PayerIdMismatch | CeilingMismatch | SubmitterNotParty | RequestReceiverMismatch
    | RequestDisplayCardUser | BadBankSignature | BadPayerSignature | BadDisplayCardSig
    | BadReceiverSignature | RequestNonceMismatch | RequestHashMismatch | RequestAmountMismatch
    | RequestExpired | SequenceBelowStart | PastCeilingExpiry | CeilingRecoveryClosed | CeilingTerminated

  datatype Check = Pass | Refuse(reason: Refusal) | Broken

  /** Checks 1 to 4, in the order the service runs them. They read no stored payment. */
  function Validate(item: ClaimItem, submitter: UserId, now: Time): Check {
    var p, c, r, v := item.payment, item.ceiling, item.request, item.crypto;
    if p.payer == p.payee then Refuse(SelfPay)
    else if p.payer != c.payer then Refuse(PayerIdMismatch)
    else if p.ceilingId != c.id then Refuse(CeilingMismatch)
    else if submitter != p.payer && submitter != p.payee then Refuse(SubmitterNotParty)
    else if r.receiver != p.payee then Refuse(RequestReceiverMismatch)
    else if r.cardUser != r.receiver then Refuse(RequestDisplayCardUser)
    else if !v.bankKeyKnown then Broken
    else if !v.bankSigOk then Refuse(BadBankSignature)
    else if !v.payerSigOk then Refuse(BadPayerSignature)
    else if !v.cardKeyKnown then Broken
    else if !v.cardSigOk then Refuse(BadDisplayCardSig)
    else if !v.receiverSigOk then Refuse(BadReceiverSignature)
    else if p.nonce != r.nonce then Refuse(RequestNonceMismatch)
    else if v.requestHash.None? then Broken
    else if p.requestHash != v.requestHash.value then Refuse(RequestHashMismatch)
    else if r.amount != 0 && p.amount != r.amount then Refuse(RequestAmountMismatch)
    else if now > r.expiresAt + REQUEST_GRACE then Refuse(RequestExpired)
    else if p.seqNo <= c.seqStart then Refuse(SequenceBelowStart)
    else if now > c.expiresAt + CLOCK_GRACE then Refuse(PastCeilingExpiry)
    else Pass
  }

  /** The payment stored under (payer, sequence). */
  function FindPayment(pays: seq<Payment>, payer: UserId, seqNo: int): (i: Option<nat>)
    ensures i.Some? ==> i.value < |pays| && pays[i.value].payer == payer && pays[i.value].seqNo == seqNo
    ensures i.None? ==> forall j | 0 <= j < |pays| :: !(pays[j].payer == payer && pays[j].seqNo == seqNo)
  {
    if pays == [] then None
    else
      var n := |pays| - 1;
      if pays[n].payer == payer && pays[n].seqNo == seqNo then Some(n)
      else FindPayment(pays[..n], payer, seqNo)
  }

  /** The stored ceiling status a first-time claim needs. */
  function CeilingGate(c: Ceiling, now: Time): Check {
    match c.status
    case Active => Pass
    case RecoveryPending =>
      if c.releaseAfter.None? || now >= c.releaseAfter.value then Refuse(CeilingRecoveryClosed) else Pass
    case _ => Refuse(CeilingTerminated)
  }

  /** What the insert accepts: the table's checks, its foreign keys and both unique keys. */
  predicate Insertable(b: Book, p: PaymentToken) {
    && p.amount > 0 && p.seqNo > 0 && p.remainingCeiling >= 0 && p.payer != p.payee
    && MainOf(p.payer) in b.bal && PendingOf(p.payee) in b.bal && p.ceilingId < |b.ceils|
    && (forall i | 0 <= i < |b.pays| :: !(b.pays[i].payer == p.payer && b.pays[i].seqNo == p.seqNo))
    && (forall i | 0 <= i < |b.pays| :: !(b.pays[i].payee == p.payee && b.pays[i].nonce == p.nonce))
  }

  function NewPayment(p: PaymentToken, submitter: UserId, batch: nat, now: Time): Payment {
    Payment(p.payer, p.payee, p.amount, p.seqNo, p.remainingCeiling, p.ceilingId, p.nonce, submitter,
            Pending, 0, NoReason, Some(batch), Some(now), None)
  }

  function ClaimLegs(payee: UserId, amount: int): seq<LedgerLeg> {
    [LedgerLeg(Suspense, Debit, amount), LedgerLeg(PendingOf(payee), Credit, amount)]
  }

  function SentRow(payer: UserId, payee: UserId, amount: int, group: nat, id: nat): TxnRow {
    TxnRow(group, payer, Some(payee), OfflinePaymentSent, RowPending, Debit, amount, None, OfPayment(id), NoReason)
  }

  function ReceivedRow(payer: UserId, payee: UserId, amount: int, group: nat, id: nat): TxnRow {
    TxnRow(group, payee, Some(payer), OfflinePaymentReceived, RowPending, Credit, amount, None, OfPayment(id), NoReason)
  }

  /** The accepting transaction: payment row, paired business rows, ledger, balances. */
  function Accept(b: Book, p: PaymentToken, submitter: UserId, batch: nat, now: Time): Option<Book> {
    if !Insertable(b, p) then None
    else
      var id, anchor := |b.pays|, |b.rows|;
      var b1 := b.(pays := b.pays + [NewPayment(p, submitter, batch, now)],
                   rows := b.rows + [SentRow(p.payer, p.payee, p.amount, anchor, id),
                                     ReceivedRow(p.payer, p.payee, p.amount, anchor, id)]);
      Post(b1, anchor, ClaimLegs(p.payee, p.amount))
  }

  /** Everything ahead of the accepting transaction: the checks, the dedupe and the ceiling gate. */
  predicate ChecksPass(b: Book, item: ClaimItem, submitter: UserId, now: Time) {
    && Validate(item, submitter, now) == Pass && FindPayment(b.pays, item.payment.payer, item.payment.seqNo).None?
    && item.ceiling.id < |b.ceils| && CeilingGate(b.ceils[item.ceiling.id], now) == Pass
  }

  /** A claim that has passed them and waits for its transaction. */
  datatype Checked = Checked(item: ClaimItem, submitter: UserId, batch: nat, now: Time)

  function AcceptChecked(b: Book, x: Checked): Option<Book> { Accept(b, x.item.payment, x.submitter, x.batch, x.now) }

  datatype SubmitResult =
    | Refused(reason: Refusal)
    | Known(id: nat, status: PaymentStatus, settled: int, why: Reason)
    | Fresh(id: nat)
    | Failed

  /** One claim of a batch. A failed transaction leaves the book as it was. */
  function SubmitOne(b: Book, item: ClaimItem, submitter: UserId, batch: nat, now: Time): (Book, SubmitResult) {
    var p := item.payment;
    match Validate(item, submitter, now)
    case Broken => (b, Failed)
    case Refuse(r) => (b, Refused(r))
    case Pass =>
      match FindPayment(b.pays, p.payer, p.seqNo)
      case Some(i) => (b, Known(i, b.pays[i].status, b.pays[i].settled, b.pays[i].reason))
      case None =>
        if item.ceiling.id >= |b.ceils| then (b, Failed)
        else
          match CeilingGate(b.ceils[item.ceiling.id], now)
          case Refuse(r) => (b, Refused(r))
          case Broken => (b, Failed)
          case Pass =>
            match Accept(b, p, submitter, batch, now)
            case None => (b, Failed)
            case Some(b') => (b', Fresh(|b.pays|))
  }
}
