/** Accepting and processing an online transfer keep every book invariant. */
module TransferKeeps {
  import opened Basics
  import opened Domain
  import opened Posting
  import opened Transfers
  import opened Invariants
  import opened SettleKeeps
  import opened WalletKeeps
  import opened AcceptKeeps

  /** The envelope still describes the stored transfer. */
  predicate PayloadOk(ts: seq<Transfer>, p: TransferPayload) {
    p.transfer < |ts| && ts[p.transfer].sender == p.sender && ts[p.transfer].receiver == p.receiver
    && ts[p.transfer].amount == p.amount
  }

  lemma InsertMoney(bal: Balances, ledger: seq<Entry>, transfers: seq<Transfer>, n: nat, t: Transfer)
    requires MoneyOk(bal, ledger, transfers, n) && t.status == Domain.Accepted
    ensures MoneyOk(bal, ledger, transfers + [t], n + 2)
  {
    forall a | a in bal ensures bal[a] == Net(ledger, a) + TransferNet(transfers + [t], a) {
      SumPush(transfers, t, MovedAt(a));
    }
  }

  lemma InsertLinked(rows: seq<TxnRow>, ledger: seq<Entry>, pays: seq<Payment>, transfers: seq<Transfer>, t: Transfer)
    requires LinkedOk(rows, ledger, pays, transfers) && RowsOk(rows, |pays|, |transfers|) && EntriesOk(ledger, |rows|)
    requires t.status == Domain.Accepted
    ensures LinkedOk(rows + [PairedRow(t.sender, t.receiver, TransferSent, Debit, t.amount, |rows|, |transfers|),
                             PairedRow(t.receiver, t.sender, TransferReceived, Credit, t.amount, |rows|, |transfers|)],
                     ledger, pays, transfers + [t])
  {
    var id, a := |transfers|, |rows|;
    var debit := PairedRow(t.sender, t.receiver, TransferSent, Debit, t.amount, a, id);
    var credit := PairedRow(t.receiver, t.sender, TransferReceived, Credit, t.amount, a, id);
    AppendKeepsLinked(rows, [debit, credit], ledger, ledger, pays, transfers);
    LegsOfUnused(ledger, a);
    NoAnchorYet(rows, OfTransfer(id));
    AnchorFresh(rows, debit, credit, OfTransfer(id));
    assert TransferLinked(rows + [debit, credit], ledger, id, t);
  }

  lemma PushKeepsTransfers(ts: seq<Transfer>, t: Transfer)
    requires TransfersOk(ts) && TransferOk(t)
    ensures TransfersOk(ts + [t])
  {
  }

  lemma UpdateKeepsTransfers(ts: seq<Transfer>, i: nat, t: Transfer)
    requires TransfersOk(ts) && i < |ts| && TransferOk(t)
    ensures TransfersOk(ts[i := t])
  {
  }

  lemma WellFormedFacts(r: TransferRequest)
    requires WellFormedRequest(r)
    ensures r.amount > 0 && r.receiver.Some? && r.receiver.value != r.sender
  {
  }

  lemma InsertKeepsBook(b: Book, outbox: seq<OutboxRow>, r: TransferRequest, now: Time)
    requires BookOk(b) && WellFormedRequest(r)
    ensures BookOk(InsertTransfer(b, outbox, r, now).0)
  {
    WellFormedFacts(r);
    hide RequestProblem, InsertTransfer, MoneyOk, TwoPhase, LinkedOk, PaymentsOk, RowsOk, TransfersOk, CeilingsOk;
    var to := r.receiver.value;
    var t := Transfer(r.sender, to, r.amount, r.reference, Domain.Accepted, NoReason, r.day);
    var debit := PairedRow(r.sender, to, TransferSent, Debit, r.amount, |b.rows|, |b.transfers|);
    var credit := PairedRow(to, r.sender, TransferReceived, Credit, r.amount, |b.rows|, |b.transfers|);
    InsertMoney(b.bal, b.ledger, b.transfers, |b.rows|, t);
    PairKeepsRows(b.rows, debit, credit, |b.pays|, |b.transfers|, |b.pays|, |b.transfers| + 1);
    InsertLinked(b.rows, b.ledger, b.pays, b.transfers, t);
    PushKeepsTransfers(b.transfers, t);
    InsertParts(b, outbox, r, now);
  }

  lemma InsertParts(b: Book, outbox: seq<OutboxRow>, r: TransferRequest, now: Time)
    requires r.receiver.Some?
    ensures InsertTransfer(b, outbox, r, now).0
         == b.(transfers := b.transfers
             + [Transfer(r.sender, r.receiver.value, r.amount, r.reference, Domain.Accepted, NoReason, r.day)],
               rows := b.rows + [PairedRow(r.sender, r.receiver.value, TransferSent, Debit, r.amount, |b.rows|,
                   |b.transfers|),
                                 PairedRow(r.receiver.value, r.sender, TransferReceived, Credit, r.amount, |b.rows|,
                                     |b.transfers|)])
  {
  }

  /** Flipping the transfer's own pair. */
  lemma FlipOwnTransfer(rows: seq<TxnRow>, ledger: seq<Entry>, i: nat, t: Transfer, t': Transfer)
    requires TransferLinked(rows, ledger, i, t) && t.status == Domain.Accepted
    requires t' == t.(status := TransferSettled) || (t' == t.(status := TransferFailed, reason := t'.reason)
          && t'.reason != NoReason)
    ensures var a := Anchor(rows, OfTransfer(i));
            TransferLinked(FlipGroup(rows, a,
                             if t'.status == TransferSettled then RowCompleted else RowFailed,
                             if t'.status == TransferSettled then Some(t.amount) else None,
                             if t'.status == TransferSettled then NoReason else t'.reason), ledger, i, t')
  {
    var a := Anchor(rows, OfTransfer(i));
    if t'.status == TransferSettled {
      FlipKeepsAnchor(rows, a, RowCompleted, Some(t.amount), NoReason, OfTransfer(i));
    } else {
      FlipKeepsAnchor(rows, a, RowFailed, None, t'.reason, OfTransfer(i));
    }
  }

  lemma FlipOthers(rows: seq<TxnRow>, ledger: seq<Entry>, pays: seq<Payment>, transfers: seq<Transfer>, t: nat,
                   st: RowStatus, x: Option<int>, r: Reason)
    requires LinkedOk(rows, ledger, pays, transfers) && t < |transfers|
    ensures var rows' := FlipGroup(rows, Anchor(rows, OfTransfer(t)), st, x, r);
            && (forall i: nat | i < |pays| :: PaymentLinked(rows', ledger, i, pays[i]))
            && (forall i: nat | i < |transfers| && i != t :: TransferLinked(rows', ledger, i, transfers[i]))
  {
    var a := Anchor(rows, OfTransfer(t));
    var rows' := FlipGroup(rows, a, st, x, r);
    assert TransferLinked(rows, ledger, t, transfers[t]);
    assert ledger + Stamp(a, []) == ledger;
    forall i: nat | i < |pays| ensures PaymentLinked(rows', ledger, i, pays[i]) {
      FlipKeepsPayment(rows, ledger, i, pays[i], a, st, x, r, []);
    }
    forall i: nat | i < |transfers| && i != t ensures TransferLinked(rows', ledger, i, transfers[i]) {
      FlipKeepsTransfer(rows, ledger, i, transfers[i], a, st, x, r, []);
    }
  }

  lemma FlipKeepsLinked(rows: seq<TxnRow>, ledger: seq<Entry>, pays: seq<Payment>, transfers: seq<Transfer>,
          t: nat, t': Transfer)
    requires LinkedOk(rows, ledger, pays, transfers) && t < |transfers| && transfers[t].status == Domain.Accepted
    requires t' == transfers[t].(status := TransferSettled)
          || (t' == transfers[t].(status := TransferFailed, reason := t'.reason) && t'.reason != NoReason)
    ensures LinkedOk(FlipTransferRows(rows, t,
                       if t'.status == TransferSettled then RowCompleted else RowFailed,
                       if t'.status == TransferSettled then Some(t'.amount) else None,
                       if t'.status == TransferSettled then NoReason else t'.reason), ledger, pays, transfers[t := t'])
  {
    var st := if t'.status == TransferSettled then RowCompleted else RowFailed;
    var x := if t'.status == TransferSettled then Some(t'.amount) else None;
    var r := if t'.status == TransferSettled then NoReason else t'.reason;
    assert TransferLinked(rows, ledger, t, transfers[t]);
    assert FlipTransferRows(rows, t, st, x, r) == FlipGroup(rows, Anchor(rows, OfTransfer(t)), st, x, r);
    FlipOthers(rows, ledger, pays, transfers, t, st, x, r);
    FlipOwnTransfer(rows, ledger, t, transfers[t], t');
  }

  lemma FlipTransferKeepsRows(rows: seq<TxnRow>, t: nat, st: RowStatus, x: Option<int>, r: Reason, np: nat, nt: nat)
    requires RowsOk(rows, np, nt)
    ensures RowsOk(FlipTransferRows(rows, t, st, x, r), np, nt)
  {
    var a := AnchorOf(rows, OfTransfer(t));
    if a.Some? {
      FlipKeepsRows(rows, rows[a.value].group, st, x, r, np, nt);
    }
  }

  lemma FailMoney(bal: Balances, ledger: seq<Entry>, transfers: seq<Transfer>, n: nat, t: nat, why: Reason)
    requires MoneyOk(bal, ledger, transfers, n) && t < |transfers| && transfers[t].status == Domain.Accepted
    ensures MoneyOk(bal, ledger, MarkTransfer(transfers, t, TransferFailed, why), n)
  {
    var t' := transfers[t].(status := TransferFailed, reason := why);
    forall a | a in bal ensures bal[a] == Net(ledger, a) + TransferNet(transfers[t := t'], a) {
      SumUpdate(transfers, t, t', MovedAt(a));
    }
  }

  lemma FailKeepsBook(b: Book, t: nat, why: Reason)
    requires BookOk(b) && t < |b.transfers| && b.transfers[t].status == Domain.Accepted && why != NoReason
    ensures BookOk(FailTransfer(b, t, why))
  {
    var t' := b.transfers[t].(status := TransferFailed, reason := why);
    assert TransferOk(b.transfers[t]);
    UpdateKeepsTransfers(b.transfers, t, t');
    FailMoney(b.bal, b.ledger, b.transfers, |b.rows|, t, why);
    FlipTransferKeepsRows(b.rows, t, RowFailed, None, why, |b.pays|, |b.transfers|);
    FlipKeepsLinked(b.rows, b.ledger, b.pays, b.transfers, t, t');
  }

  lemma MovedShape(bal: Balances, from: Account, to: Account, amount: int)
    requires Shape(bal) && from in bal && to in bal && from != to && amount > 0 && bal[from] >= amount
    ensures Shape(Moved(bal, from, to, amount))
  {
    var bal' := Moved(bal, from, to, amount);
    forall a | a in bal' && a != Suspense && a != MintSource ensures bal'[a] >= 0 {
      assert a in bal;
    }
    assert bal'.Keys == bal.Keys;
    ShapeKeys(bal, bal');
  }

  lemma MovedTotal(bal: Balances, from: Account, to: Account, amount: int)
    requires from in bal && to in bal && from != to
    ensures Total(Moved(bal, from, to, amount)) == Total(bal)
  {
    hide Total;
    TotalUpdate(bal, from, bal[from] - amount);
    TotalUpdate(bal[from := bal[from] - amount], to, bal[to] + amount);
  }

  lemma SettleMatch(bal: Balances, ledger: seq<Entry>, transfers: seq<Transfer>, t: nat)
    requires LedgerMatch(bal, ledger, transfers) && t < |transfers| && transfers[t].status == Domain.Accepted
    requires transfers[t].sender != transfers[t].receiver
    requires MainOf(transfers[t].sender) in bal && MainOf(transfers[t].receiver) in bal
    ensures LedgerMatch(Moved(bal, MainOf(transfers[t].sender), MainOf(transfers[t].receiver), transfers[t].amount),
                        ledger, transfers[t := transfers[t].(status := TransferSettled)])
  {
    var x := transfers[t];
    var x' := x.(status := TransferSettled);
    var bal' := Moved(bal, MainOf(x.sender), MainOf(x.receiver), x.amount);
    forall a | a in bal' ensures bal'[a] == Net(ledger, a) + TransferNet(transfers[t := x'], a) {
      SumUpdate(transfers, t, x', MovedAt(a));
    }
  }

  lemma SettleMoney(bal: Balances, ledger: seq<Entry>, transfers: seq<Transfer>, n: nat, t: nat)
    requires MoneyOk(bal, ledger, transfers, n) && t < |transfers| && transfers[t].status == Domain.Accepted
    requires transfers[t].sender != transfers[t].receiver && transfers[t].amount > 0
    requires MainOf(transfers[t].sender) in bal && MainOf(transfers[t].receiver) in bal
    requires bal[MainOf(transfers[t].sender)] >= transfers[t].amount
    ensures MoneyOk(Moved(bal, MainOf(transfers[t].sender), MainOf(transfers[t].receiver), transfers[t].amount),
                    ledger, transfers[t := transfers[t].(status := TransferSettled)], n)
  {
    hide Shape, Total, LedgerMatch, AllBalanced, EntriesOk;
    MovedShape(bal, MainOf(transfers[t].sender), MainOf(transfers[t].receiver), transfers[t].amount);
    MovedTotal(bal, MainOf(transfers[t].sender), MainOf(transfers[t].receiver), transfers[t].amount);
    SettleMatch(bal, ledger, transfers, t);
  }

  lemma SettledKeepsBook(b: Book, t: nat)
    requires BookOk(b) && t < |b.transfers| && b.transfers[t].status == Domain.Accepted
    requires MainOf(b.transfers[t].sender) in b.bal && MainOf(b.transfers[t].receiver) in b.bal
    requires b.transfers[t].sender != b.transfers[t].receiver
    requires b.bal[MainOf(b.transfers[t].sender)] >= b.transfers[t].amount
    ensures var x := b.transfers[t];
            BookOk(b.(bal := Moved(b.bal, MainOf(x.sender), MainOf(x.receiver), x.amount),
                      transfers := b.transfers[t := x.(status := TransferSettled)],
                      rows := FlipTransferRows(b.rows, t, RowCompleted, Some(x.amount), NoReason)))
  {
    var x := b.transfers[t];
    assert TransferOk(x);
    SettleMoney(b.bal, b.ledger, b.transfers, |b.rows|, t);
    MoveKeepsPayments(b.bal, b.pays, |b.ceils|, MainOf(x.sender), MainOf(x.receiver), x.amount);
    MoveKeepsTwoPhase(b.bal, b.pays, MainOf(x.sender), MainOf(x.receiver), x.amount);
    FlipTransferKeepsRows(b.rows, t, RowCompleted, Some(x.amount), NoReason, |b.pays|, |b.transfers|);
    FlipKeepsLinked(b.rows, b.ledger, b.pays, b.transfers, t, x.(status := TransferSettled));
    UpdateKeepsTransfers(b.transfers, t, x.(status := TransferSettled));
  }

  /** The three outcomes of a processing transaction. */
  lemma ProcessParts(b: Book, p: TransferPayload)
    requires PayloadOk(b.transfers, p) && b.transfers[p.transfer].reason == NoReason && p.sender != p.receiver
    ensures var x := b.transfers[p.transfer];
            ProcessTransfer(b, p) ==
            if MainOf(x.sender) !in b.bal || MainOf(x.receiver) !in b.bal
                then (FailTransfer(b, p.transfer, NotProvisioned), MarkFailed)
            else if b.bal[MainOf(x.sender)] < x.amount then (FailTransfer(b, p.transfer, InsufficientFunds), MarkFailed)
            else (b.(bal := Moved(b.bal, MainOf(x.sender), MainOf(x.receiver), x.amount),
                     transfers := b.transfers[p.transfer := x.(status := TransferSettled)],
                     rows := FlipTransferRows(b.rows, p.transfer, RowCompleted, Some(x.amount), NoReason)), MarkSettled)
  {
  }

  lemma ProcessKeepsBook(b: Book, p: TransferPayload)
    requires BookOk(b) && PayloadOk(b.transfers, p) && b.transfers[p.transfer].status == Domain.Accepted
    ensures BookOk(ProcessTransfer(b, p).0)
  {
    var x := b.transfers[p.transfer];
    assert TransferOk(x);
    ProcessParts(b, p);
    if MainOf(p.sender) !in b.bal || MainOf(p.receiver) !in b.bal {
      FailKeepsBook(b, p.transfer, NotProvisioned);
    } else if b.bal[MainOf(p.sender)] < p.amount {
      FailKeepsBook(b, p.transfer, InsufficientFunds);
    } else {
      SettledKeepsBook(b, p.transfer);
    }
  }
}
