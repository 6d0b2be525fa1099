/** The stored tables as one mutable object: guarded and unguarded balance updates, ledger
    inserts, unique-keyed payment inserts, row flips, and the all-or-nothing transaction as
    "remember, then keep or restore". */
module Repository {
  import opened Basics
  import opened Domain
  import opened Posting
  import opened Claims
  import opened Finalize
  import opened Transfers

  /** All the tables a transaction can touch. */
  datatype Tables = Tables(book: Book, outbox: seq<OutboxRow>, processed: Marks)

  class Repo {
    var bal: Balances
    var pays: seq<Payment>
    var rows: seq<TxnRow>
    var ledger: seq<Entry>
    var ceils: seq<Ceiling>
    var transfers: seq<Transfer>
    var outbox: seq<OutboxRow>
    var processed: Marks

    function Stored(): Book
      reads this
    {
      Book(bal, pays, rows, ledger, ceils, transfers)
    }

    function All(): Tables
      reads this
    {
      Tables(Stored(), outbox, processed)
    }

    constructor (b: Book)
      ensures Stored() == b && outbox == [] && processed == map[]
    {
      bal, pays, rows, ledger, ceils, transfers := b.bal, b.pays, b.rows, b.ledger, b.ceils, b.transfers;
      outbox, processed := [], map[];
    }

    /** Abandons a transaction: the tables are as they were when it began. */
    method Rollback(snapshot: Tables)
      modifies this
      ensures All() == snapshot
    {
      var b := snapshot.book;
      bal, pays, rows, ledger, ceils, transfers := b.bal, b.pays, b.rows, b.ledger, b.ceils, b.transfers;
      outbox, processed := snapshot.outbox, snapshot.processed;
    }

    // ---------------------------------------------------------------- balances

    /** Fails, changing nothing, when the account is missing or short. */
    method DebitAccount(a: Account, amount: int) returns (ok: bool)
      modifies this`bal
      ensures ok <==> a in old(bal) && old(bal)[a] >= amount
      ensures bal == if ok then old(bal)[a := old(bal)[a] - amount] else old(bal)
    {
      ok := a in bal && bal[a] >= amount;
      if ok {
        bal := bal[a := bal[a] - amount];
      }
    }

    method ForceDebitAccount(a: Account, amount: int) returns (ok: bool)
      modifies this`bal
      ensures ok <==> a in old(bal)
      ensures bal == if ok then old(bal)[a := old(bal)[a] - amount] else old(bal)
    {
      ok := a in bal;
      if ok {
        bal := bal[a := bal[a] - amount];
      }
    }

    method CreditAccount(a: Account, amount: int) returns (ok: bool)
      modifies this`bal
      ensures ok <==> a in old(bal)
      ensures bal == if ok then old(bal)[a := old(bal)[a] + amount] else old(bal)
    {
      ok := a in bal;
      if ok {
        bal := bal[a := bal[a] + amount];
      }
    }

    /** The balance moves a list of legs documents, leg by leg; suspense is force-debited. */
    method MoveBalances(legs: seq<LedgerLeg>) returns (ok: bool)
      modifies this`bal
      ensures ok <==> ApplyLegs(old(bal), legs).Some?
      ensures ok ==> bal == ApplyLegs(old(bal), legs).value
    {
      var i := 0;
      while i < |legs|
        invariant 0 <= i <= |legs| && ApplyLegs(bal, legs[i..]) == ApplyLegs(old(bal), legs)
      {
        assert legs[i..][1..] == legs[i + 1..];
        var l := legs[i];
        if l.dir.Credit? {
          ok := CreditAccount(l.account, l.amount);
        } else if l.account == Suspense {
          ok := ForceDebitAccount(l.account, l.amount);
        } else {
          ok := DebitAccount(l.account, l.amount);
        }
        if !ok {
          return;
        }
        i := i + 1;
      }
      ok := true;
    }

    // ---------------------------------------------------------------- ledger and rows

    /** One row per leg; the table refuses amounts that are not positive. */
    method PostLedger(txn: nat, legs: seq<LedgerLeg>) returns (ok: bool)
      modifies this`ledger
      ensures ok <==> PostableLegs(legs)
      ensures ok ==> ledger == old(ledger) + Stamp(txn, legs)
    {
      if |legs| < 2 {
        return false;
      }
      var i := 0;
      while i < |legs|
        invariant 0 <= i <= |legs| && ledger == old(ledger) + Stamp(txn, legs)[..i]
        invariant forall k | 0 <= k < i :: legs[k].amount > 0
      {
        if legs[i].amount <= 0 {
          return false;
        }
        ledger := ledger + [Entry(txn, legs[i])];
        i := i + 1;
      }
      return true;
    }

    method RecordTransaction(row: TxnRow)
      modifies this`rows
      ensures rows == old(rows) + [row]
    {
      rows := rows + [row];
    }

    /** Flips every row of the group, one update at a time. */
    method FinalizePairedTransactions(group: nat, status: RowStatus, settled: Option<int>, reason: Reason)
      modifies this`rows
      ensures rows == FlipGroup(old(rows), group, status, settled, reason)
    {
      var i := 0;
      while i < |rows|
        invariant 0 <= i <= |rows| == |old(rows)|
        invariant forall k | 0 <= k < i :: rows[k] == FlipGroup(old(rows), group, status, settled, reason)[k]
        invariant forall k | i <= k < |rows| :: rows[k] == old(rows)[k]
      {
        if rows[i].group == group {
          rows := rows[i := UpdateRow(rows[i], status, settled, reason)];
        }
        i := i + 1;
      }
    }

    // ---------------------------------------------------------------- payments

    /** The insert with its checks, foreign keys and unique keys; the new row is not stamped yet. */
    method CreatePayment(p: PaymentToken, submitter: UserId) returns (id: Option<nat>)
      modifies this`pays
      ensures id.Some? <==> Insertable(old(Stored()), p)
      ensures id.Some? ==> id.value == |old(pays)|
      ensures pays == if id.Some?
              then old(pays) + [NewPayment(p, submitter, 0, 0).(batch := None, submittedAt := None)] else old(pays)
    {
      if !(p.amount > 0 && p.seqNo > 0 && p.remainingCeiling >= 0 && p.payer != p.payee
           && MainOf(p.payer) in bal && PendingOf(p.payee) in bal && p.ceilingId < |ceils|) {
        return None;
      }
      var i := 0;
      while i < |pays|
        invariant 0 <= i <= |pays|
        invariant forall k | 0 <= k < i :: !(pays[k].payer == p.payer && pays[k].seqNo == p.seqNo)
        invariant forall k | 0 <= k < i :: !(pays[k].payee == p.payee && pays[k].nonce == p.nonce)
      {
        if (pays[i].payer == p.payer && pays[i].seqNo == p.seqNo)
           || (pays[i].payee == p.payee && pays[i].nonce == p.nonce) {
          return None;
        }
        i := i + 1;
      }
      id := Some(|pays|);
      pays := pays + [Payment(p.payer, p.payee, p.amount, p.seqNo, p.remainingCeiling, p.ceilingId, p.nonce, submitter,
                              Pending, 0, NoReason, None, None, None)];
    }

    /** Status, settled amount, reason, batch and settlement time are overwritten; the submission
        time is kept once set. */
    method UpdatePaymentStatus(id: nat, status: PaymentStatus, settled: int, reason: Reason,
                               batch: Option<nat>, submittedAt: Option<Time>, settledAt: Option<Time>)
      requires id < |pays|
      modifies this`pays
      ensures pays == old(pays)[id := old(pays)[id].(
                        status := status, settled := settled, reason := reason, batch := batch, settledAt := settledAt,
                        submittedAt := if old(pays)[id].submittedAt.Some? then old(pays)[id].submittedAt
                            else submittedAt)]
    {
      var p := pays[id];
      pays := pays[id := p.(status := status, settled := settled, reason := reason, batch := batch,
          settledAt := settledAt,
                            submittedAt := if p.submittedAt.Some? then p.submittedAt else submittedAt)];
    }

    method ListPendingForPayer(payer: UserId) returns (ids: seq<nat>)
      ensures ids == PendingIds(pays, payer)
    {
      ids := [];
      var i := 0;
      while i < |pays|
        invariant 0 <= i <= |pays| && ids == PendingIds(pays[..i], payer)
      {
        assert pays[..i + 1][..i] == pays[..i];
        if pays[i].payer == payer && pays[i].status == Pending {
          ids := ids + [i];
        }
        i := i + 1;
      }
      assert pays[..|pays|] == pays;
    }

    /** What the sender has in flight or settled today. */
    method SumTodaySenderTransfers(sender: UserId, day: int) returns (total: int)
      ensures total == Sum(transfers, SpentOn(sender, day))
    {
      total := 0;
      var i := 0;
      while i < |transfers|
        invariant 0 <= i <= |transfers| && total == Sum(transfers[..i], SpentOn(sender, day))
      {
        assert transfers[..i + 1][..i] == transfers[..i];
        var t := transfers[i];
        if t.sender == sender && t.day == day && t.status in {Domain.Accepted, Processing, TransferSettled} {
          total := total + t.amount;
        }
        i := i + 1;
      }
      assert transfers[..|transfers|] == transfers;
    }

    // ---------------------------------------------------------------- events

    method MarkEventProcessed(id: nat, m: Mark)
      modifies this`processed
      ensures processed == MarkEvent(old(processed), id, m)
    {
      if id !in processed {
        processed := processed[id := m];
      }
    }

    method InsertOutbox(event: Event, now: Time)
      modifies this`outbox
      ensures outbox == old(outbox) + [OutboxRow(event, false, 0, now)]
    {
      outbox := outbox + [OutboxRow(event, false, 0, now)];
    }
  }
}
