/** The settlement service as it runs over the repository: each method does to the stored
    tables exactly what the corresponding step function says. */
module SettlementService {
  import opened Basics
  import opened Domain
  import opened Posting
  import opened Claims
  import opened Finalize
  import opened Transfers
  import opened Repository
  import opened Convergence

  /** What a submitted batch reports: one result per processed claim, whether an infrastructure
      error cut it short, and the payers left with something pending. */
  datatype BatchOutcome = BatchOutcome(results: seq<SubmitResult>, failed: bool, finalizers: set<UserId>)

  datatype BatchStatus = BatchCompleted | BatchFailed

  /** What the call reports about the batch as a whole. */
  datatype BatchDescriptor = BatchDescriptor(
    receiver: UserId, submitted: nat, rejected: int, amount: int, status: BatchStatus, submittedAt: Time,
    processedAt: Option<Time>)

  function RejectedOne(): SubmitResult -> int {
    (r: SubmitResult) => if r.Refused? || (r.Known? && r.status == Rejected) then 1 else 0
  }

  /** The settled amount of a claim reported as pending. */
  function AlreadySettled(): SubmitResult -> int {
    (r: SubmitResult) => if r.Known? && r.status == Pending then r.settled else 0
  }

  predicate LeavesPending(r: SubmitResult) { r.Fresh? || (r.Known? && r.status == Pending) }

  /** A batch, claim by claim; the first infrastructure error stops it. */
  function ClaimBatch(b: Book, items: seq<ClaimItem>, submitter: UserId, batch: nat, now: Time): (Book,
          BatchOutcome) {
    if items == [] then (b, BatchOutcome([], false, {}))
    else
      var (b1, out) := ClaimBatch(b, items[..|items| - 1], submitter, batch, now);
      if out.failed then (b1, out)
      else
        var item := items[|items| - 1];
        var (b2, r) := SubmitOne(b1, item, submitter, batch, now);
        if r.Failed? then (b2, out.(failed := true))
        else
          (b2, BatchOutcome(out.results + [r], false,
                            if LeavesPending(r) then out.finalizers + {item.payment.payer} else out.finalizers))
  }

  /** Once cut short, a batch stays as it is. */
  lemma {:induction false} BatchStops(b: Book, items: seq<ClaimItem>, k: nat, submitter: UserId, batch: nat,
          now: Time)
    requires k <= |items| && ClaimBatch(b, items[..k], submitter, batch, now).1.failed
    ensures ClaimBatch(b, items, submitter, batch, now) == ClaimBatch(b, items[..k], submitter, batch, now)
    decreases |items|
  {
    hide SubmitOne;
    if k < |items| {
      var front := items[..|items| - 1];
      assert front[..k] == items[..k];
      BatchStops(b, front, k, submitter, batch, now);
    } else {
      assert items[..k] == items;
    }
  }

  /** The same claims as uploads of one party. */
  function AsUploads(items: seq<ClaimItem>, submitter: UserId, batch: nat): (us: seq<Upload>)
    ensures |us| == |items| && forall i | 0 <= i < |items| :: us[i] == Upload(items[i], submitter, batch)
  {
    seq(|items|, i requires 0 <= i < |items| => Upload(items[i], submitter, batch))
  }

  /** A batch leaves exactly what its processed prefix would, received claim by claim; it is cut
      short only by a claim that left the tables alone. */
  lemma {:induction false} BatchIsPrefix(b: Book, items: seq<ClaimItem>, submitter: UserId, batch: nat, now: Time)
    ensures var (b', out) := ClaimBatch(b, items, submitter, batch, now);
            && |out.results| <= |items| && (!out.failed <==> |out.results| == |items|)
            && b' == Receive(b, AsUploads(items[..|out.results|], submitter, batch), now)
    decreases |items|
  {
    hide SubmitOne;
    if items == [] {
      assert AsUploads(items[..0], submitter, batch) == [];
    } else {
      var n := |items| - 1;
      var front := items[..n];
      BatchIsPrefix(b, front, submitter, batch, now);
      var (b1, out) := ClaimBatch(b, front, submitter, batch, now);
      assert front[..|out.results|] == items[..|out.results|];
      if !out.failed {
        assert front[..n] == front;
        FailedLeaves(b1, items[n], submitter, batch, now);
        assert items[..n + 1] == items;
        assert AsUploads(items, submitter, batch)[..n] == AsUploads(front, submitter, batch);
      }
    }
  }

  lemma FailedLeaves(b: Book, item: ClaimItem, submitter: UserId, batch: nat, now: Time)
    ensures SubmitOne(b, item, submitter, batch, now).1.Failed? ==> SubmitOne(b, item, submitter, batch, now).0 == b
  {
  }

  class Service {
    const repo: Repo

    constructor (repo: Repo)
      ensures this.repo == repo
    {
      this.repo := repo;
    }

    /** The accepting transaction, committed or rolled back. */
    method AcceptTx(p: PaymentToken, submitter: UserId, batch: nat, now: Time) returns (ok: bool)
      modifies repo
      ensures ok <==> Accept(old(repo.Stored()), p, submitter, batch, now).Some?
      ensures repo.outbox == old(repo.outbox) && repo.processed == old(repo.processed)
      ensures repo.Stored() == if ok then Accept(old(repo.Stored()), p, submitter, batch, now).value
              else old(repo.Stored())
    {
      var snapshot := repo.All();
      if PendingOf(p.payee) !in repo.bal {
        return false;
      }
      var id := repo.CreatePayment(p, submitter);
      if id.None? {
        repo.Rollback(snapshot);
        return false;
      }
      var anchor := |repo.rows|;
      repo.RecordTransaction(SentRow(p.payer, p.payee, p.amount, anchor, id.value));
      repo.RecordTransaction(ReceivedRow(p.payer, p.payee, p.amount, anchor, id.value));
      var legs := ClaimLegs(p.payee, p.amount);
      var posted := repo.PostLedger(anchor, legs);
      if posted {
        var moved := repo.MoveBalances(legs);
        if moved {
          repo.UpdatePaymentStatus(id.value, Pending, 0, NoReason, Some(batch), Some(now), None);
          assert repo.rows == snapshot.book.rows
              + [SentRow(p.payer, p.payee, p.amount, anchor, id.value),
                  ReceivedRow(p.payer, p.payee, p.amount, anchor, id.value)];
          assert repo.pays == snapshot.book.pays + [NewPayment(p, submitter, batch, now)];
          return true;
        }
      }
      repo.Rollback(snapshot);
      return false;
    }

    /** One claim: the checks, the dedupe, the ceiling gate, the accepting transaction. */
    method SubmitOne(item: ClaimItem, submitter: UserId, batch: nat, now: Time) returns (r: SubmitResult)
      modifies repo
      ensures repo.outbox == old(repo.outbox) && repo.processed == old(repo.processed)
      ensures (repo.Stored(), r) == Claims.SubmitOne(old(repo.Stored()), item, submitter, batch, now)
    {
      hide Accept, Validate, CeilingGate;
      var p := item.payment;
      var check := Validate(item, submitter, now);
      if check.Broken? {
        return Failed;
      }
      if check.Refuse? {
        return Refused(check.reason);
      }
      var existing := FindPayment(repo.pays, p.payer, p.seqNo);
      if existing.Some? {
        var q := repo.pays[existing.value];
        return Known(existing.value, q.status, q.settled, q.reason);
      }
      if item.ceiling.id >= |repo.ceils| {
        return Failed;
      }
      var gate := CeilingGate(repo.ceils[item.ceiling.id], now);
      if gate.Refuse? {
        return Refused(gate.reason);
      }
      if gate.Broken? {
        return Failed;
      }
      var id := |repo.pays|;
      var ok := AcceptTx(p, submitter, batch, now);
      return if ok then Fresh(id) else Failed;
    }

    /** A batch of claims, then one finalize event per payer with something pending. An
        infrastructure error leaves what was accepted so far and enqueues nothing; a payer that cannot
        be enqueued fails the batch after the fact. */
    method SubmitClaim(items: seq<ClaimItem>, submitter: UserId, batch: nat, now: Time, later: Time)
      returns (out: BatchOutcome, enqueued: bool, receipt: BatchDescriptor, ghost queued: seq<UserId>)
      requires submitter != ""
      modifies repo
      ensures (repo.Stored(), out) == ClaimBatch(old(repo.Stored()), items, submitter, batch, now)
      ensures enqueued <==> !out.failed && "" !in out.finalizers
      ensures enqueued ==> EachOnce(queued, out.finalizers)
      ensures out.failed ==> queued == []
      ensures repo.outbox == old(repo.outbox) + FinalizeRows(queued, now)
      ensures repo.processed == old(repo.processed)
      ensures receipt == BatchDescriptor(submitter, |items|, Sum(out.results, RejectedOne()),
                                         Sum(out.results, AlreadySettled()),
                                         if enqueued then BatchCompleted else BatchFailed, now,
                                         if enqueued then Some(later) else None)
    {
      var results: seq<SubmitResult>, finalizers: set<UserId> := [], {};
      receipt := BatchDescriptor(submitter, |items|, 0, 0, BatchFailed, now, None);
      queued := [];
      var i := 0;
      while i < |items|
        invariant 0 <= i <= |items|
        invariant (repo.Stored(), BatchOutcome(results, false, finalizers))
                  == ClaimBatch(old(repo.Stored()), items[..i], submitter, batch, now)
        invariant repo.outbox == old(repo.outbox) && repo.processed == old(repo.processed)
        invariant receipt == BatchDescriptor(submitter, |items|, Sum(results, RejectedOne()),
                  Sum(results, AlreadySettled()), BatchFailed, now, None)
      {
        hide Claims.SubmitOne;
        assert items[..i + 1][..i] == items[..i];
        var r := SubmitOne(items[i], submitter, batch, now);
        if r.Failed? {
          BatchStops(old(repo.Stored()), items, i + 1, submitter, batch, now);
          out := BatchOutcome(results, true, finalizers);
          assert FinalizeRows([], now) == [];
          enqueued := false;
          return;
        }
        SumPush(results, r, RejectedOne());
        SumPush(results, r, AlreadySettled());
        results := results + [r];
        if LeavesPending(r) {
          receipt := receipt.(amount := receipt.amount + if r.Known? then r.settled else 0);
          finalizers := finalizers + {items[i].payment.payer};
        } else if r.Refused? || r.status == Rejected {
          receipt := receipt.(rejected := receipt.rejected + 1);
        }
        i := i + 1;
      }
      assert items[..|items|] == items;
      out := BatchOutcome(results, false, finalizers);
      enqueued, queued := EnqueueAll(finalizers, now);
      if enqueued {
        receipt := receipt.(status := BatchCompleted, processedAt := Some(later));
      }
    }

    /** One outbox row per payer, in whatever order the set is ranged over; a blank payer stops it. */
    method EnqueueAll(finalizers: set<UserId>, now: Time) returns (ok: bool, ghost queued: seq<UserId>)
      modifies repo`outbox
      ensures ok <==> "" !in finalizers
      ensures ok ==> EachOnce(queued, finalizers)
      ensures repo.outbox == old(repo.outbox) + FinalizeRows(queued, now)
    {
      queued := [];
      var rest := finalizers;
      hide EachOnce, FinalizeRows;
      NoneYet();
      assert finalizers - rest == {};
      NoRows(now);
      while rest != {}
        invariant rest <= finalizers && EachOnce(queued, finalizers - rest) && "" !in finalizers - rest
        invariant repo.outbox == old(repo.outbox) + FinalizeRows(queued, now)
        decreases |rest|
      {
        var payer :| payer in rest;
        if payer == "" {
          return false, queued;
        }
        repo.InsertOutbox(FinalizeEvent(payer), now);
        PushOnce(queued, finalizers - rest, payer);
        PushRow(queued, payer, now);
        assert finalizers - (rest - {payer}) == finalizers - rest + {payer};
        rest, queued := rest - {payer}, queued + [payer];
      }
      assert finalizers - rest == finalizers;
      ok := true;
    }

    /** One turn of the 4b loop. */
    method SettleNext(id: nat, share: Share, now: Time) returns (ok: bool)
      requires id < |repo.pays|
      modifies repo`bal, repo`pays, repo`rows, repo`ledger
      ensures ok <==> SettleOne(old(repo.Stored()), id, share, now).Some?
      ensures ok ==> repo.Stored() == SettleOne(old(repo.Stored()), id, share, now).value
      ensures |repo.pays| == |old(repo.pays)|
    {
      hide ApplyLegs, SettlementLegs;
      var p := repo.pays[id];
      if PendingOf(p.payee) !in repo.bal || MainOf(p.payee) !in repo.bal {
        return false;
      }
      var anchor := AnchorOf(repo.rows, OfPayment(id));
      if anchor.None? {
        return false;
      }
      var legs := SettlementLegs(p, share.settled);
      if legs != [] {
        ok := repo.PostLedger(anchor.value, legs);
        if !ok {
          return;
        }
        ok := repo.MoveBalances(legs);
        if !ok {
          return;
        }
      }
      repo.UpdatePaymentStatus(id, share.status, share.settled, share.reason, p.batch, p.submittedAt, Some(now));
      repo.FinalizePairedTransactions(repo.rows[anchor.value].group, RowCompleted, Some(share.settled), share.reason);
      ok := true;
    }

    /** The 4b loop over the sorted queue, with what is left of the ceiling in a variable. When a
        guard fails the tables are in between and the caller rolls back. */
    method DrainAll(ids: seq<nat>, ceiling: int, now: Time) returns (ok: bool, remaining: int,
            results: seq<SettlementResult>)
      requires forall k | 0 <= k < |ids| :: ids[k] < |repo.pays|
      modifies repo`bal, repo`pays, repo`rows, repo`ledger
      ensures ok <==> Drain(old(repo.Stored()), ids, ceiling, now).Some?
      ensures ok ==> Drain(old(repo.Stored()), ids, ceiling, now) == Some(Progress(repo.Stored(), remaining, results))
      ensures results == DrainedBefore(old(repo.Stored()), ids, ceiling, now)
    {
      hide SettleOne, Drain, Onward, DrainedBefore;
      remaining, results := ceiling, [];
      var i := 0;
      assert ids[0..] == ids;
      assert [] + DrainedBefore(repo.Stored(), ids, ceiling, now) == DrainedBefore(repo.Stored(), ids, ceiling, now);
      OnwardStart(Drain(repo.Stored(), ids, ceiling, now));
      while i < |ids|
        invariant 0 <= i <= |ids| && |repo.pays| == |old(repo.pays)|
        invariant Drain(old(repo.Stored()), ids, ceiling, now)
                  == Onward(results, Drain(repo.Stored(), ids[i..], remaining, now))
        invariant DrainedBefore(old(repo.Stored()), ids, ceiling, now) == results
                  + DrainedBefore(repo.Stored(), ids[i..], remaining, now)
      {
        var id := ids[i];
        var p := repo.pays[id];
        var settled, status, reason := 0, Settled, NoReason;
        ghost var left := remaining;
        if remaining <= 0 {
          status, reason := PartiallySettled, CeilingExhausted;
        } else if p.amount <= remaining {
          settled, remaining := p.amount, remaining - p.amount;
        } else {
          settled, status, reason := remaining, PartiallySettled, CeilingShortBy(p.amount - remaining);
          remaining := 0;
        }
        var share := Share(settled, remaining, status, reason);
        assert share == Allocate(p.amount, left);
        DrainTurn(repo.Stored(), ids[i..], results, left, now);
        DrainedTurn(repo.Stored(), ids[i..], results, left, now);
        assert ids[i..][1..] == ids[i + 1..];
        ok := SettleNext(id, share, now);
        if !ok {
          return;
        }
        results := results + [ResultFor(id, p, share)];
        i := i + 1;
      }
      assert ids[i..] == [];
      DrainEnds(repo.Stored(), remaining, results, now);
      DrainedEnds(repo.Stored(), remaining, results, now);
      ok := true;
    }

    /** The drain of a payer's pending payments, committed as a whole or not at all. The results are
        handed back either way: next to an error they name payments whose settlement was undone. */
    method FinalizeForPayer(payer: UserId, now: Time) returns (o: Outcome, results: seq<SettlementResult>)
      modifies repo
      ensures o == Finalize.FinalizeForPayer(old(repo.Stored()), payer, now)
      ensures repo.Stored() == BookAfter(old(repo.Stored()), o)
      ensures repo.outbox == old(repo.outbox) && repo.processed == old(repo.processed)
      ensures o.Committed? ==> results == o.results
      ensures o.Aborted? ==> results == UndoneResults(old(repo.Stored()), payer, now)
    {
      hide Drain, InsertBySeq, PendingIds, SortBySeq, DrainedBefore;
      var snapshot := repo.All();
      var listed := repo.ListPendingForPayer(payer);
      var ids := SortBySeq(repo.pays, listed);
      if ids == [] {
        return Committed(snapshot.book, []), [];
      }
      if LienOf(payer) !in repo.bal || repo.pays[ids[0]].ceiling >= |repo.ceils| {
        return Aborted, [];
      }
      var c := repo.pays[ids[0]].ceiling;
      var ok, remaining, drained := DrainAll(ids, repo.ceils[c].amount, now);
      if !ok {
        repo.Rollback(snapshot);
        return Aborted, drained;
      }
      if remaining == 0 && c < |repo.ceils| {
        repo.ceils := Exhaust(repo.ceils, c);
      }
      return Committed(repo.Stored(), drained), drained;
    }
  }

  /** The results of a drain up to the first payment that cannot be settled. */
  function DrainedBefore(b: Book, ids: seq<nat>, remaining: int, now: Time): seq<SettlementResult>
    requires forall k | 0 <= k < |ids| :: ids[k] < |b.pays|
    decreases |ids|
  {
    if ids == [] then []
    else
      var share := Allocate(b.pays[ids[0]].amount, remaining);
      SettleKeepsLength(b, ids[0], share, now);
      match SettleOne(b, ids[0], share, now)
      case None => []
      case Some(b1) => [ResultFor(ids[0], b.pays[ids[0]], share)] + DrainedBefore(b1, ids[1..], share.left, now)
  }

  /** What an aborted call still hands back. */
  function UndoneResults(b: Book, payer: UserId, now: Time): seq<SettlementResult> {
    var ids := Queue(b.pays, payer);
    if ids == [] || LienOf(payer) !in b.bal || b.pays[ids[0]].ceiling >= |b.ceils| then []
    else DrainedBefore(b, ids, b.ceils[b.pays[ids[0]].ceiling].amount, now)
  }

  lemma DrainedTurn(b: Book, ids: seq<nat>, results: seq<SettlementResult>, remaining: int, now: Time)
    requires ids != [] && (forall k | 0 <= k < |ids| :: ids[k] < |b.pays|)
    ensures var share := Allocate(b.pays[ids[0]].amount, remaining);
            var b1 := SettleOne(b, ids[0], share, now);
            if b1.None? then results + DrainedBefore(b, ids, remaining, now) == results
            else |b1.value.pays| == |b.pays|
                 && results + DrainedBefore(b, ids, remaining, now)
                    == results + [ResultFor(ids[0], b.pays[ids[0]], share)]
                        + DrainedBefore(b1.value, ids[1..], share.left, now)
  {
    var share := Allocate(b.pays[ids[0]].amount, remaining);
    SettleKeepsLength(b, ids[0], share, now);
    hide SettleOne;
  }

  lemma DrainedEnds(b: Book, remaining: int, results: seq<SettlementResult>, now: Time)
    ensures results + DrainedBefore(b, [], remaining, now) == results
  {
  }

  /** The rest of a drain, seen from its start. */
  function Onward(results: seq<SettlementResult>, rest: Option<Progress>): Option<Progress> {
    if rest.None? then None else Some(rest.value.(results := results + rest.value.results))
  }

  lemma OnwardStart(rest: Option<Progress>)
    ensures Onward([], rest) == rest
  {
    if rest.Some? {
      assert [] + rest.value.results == rest.value.results;
    }
  }

  lemma DrainEnds(b: Book, remaining: int, results: seq<SettlementResult>, now: Time)
    ensures Onward(results, Drain(b, [], remaining, now)) == Some(Progress(b, remaining, results))
  {
    assert results + [] == results;
  }

  lemma DrainTurn(b: Book, ids: seq<nat>, results: seq<SettlementResult>, remaining: int, now: Time)
    requires ids != [] && (forall k | 0 <= k < |ids| :: ids[k] < |b.pays|)
    ensures var share := Allocate(b.pays[ids[0]].amount, remaining);
            var b1 := SettleOne(b, ids[0], share, now);
            if b1.None? then Onward(results, Drain(b, ids, remaining, now)) == None
            else |b1.value.pays| == |b.pays|
                 && Onward(results, Drain(b, ids, remaining, now))
                    == Onward(results + [ResultFor(ids[0], b.pays[ids[0]], share)],
                        Drain(b1.value, ids[1..], share.left, now))
  {
    var share := Allocate(b.pays[ids[0]].amount, remaining);
    SettleKeepsLength(b, ids[0], share, now);
    hide SettleOne;
    var r := ResultFor(ids[0], b.pays[ids[0]], share);
    if SettleOne(b, ids[0], share, now).Some? {
      var rest := Drain(SettleOne(b, ids[0], share, now).value, ids[1..], share.left, now);
      if rest.Some? {
        assert results + ([r] + rest.value.results) == results + [r] + rest.value.results;
      }
    }
  }

  lemma SettleKeepsLength(b: Book, id: nat, share: Share, now: Time)
    requires id < |b.pays|
    ensures SettleOne(b, id, share, now).Some? ==> |SettleOne(b, id, share, now).value.pays| == |b.pays|
  {
  }

  function FinalizeRows(payers: seq<UserId>, now: Time): (r: seq<OutboxRow>)
    ensures |r| == |payers| && forall i | 0 <= i < |payers| ::
            r[i] == OutboxRow(FinalizeEvent(payers[i]), false, 0, now)
  {
    seq(|payers|, i requires 0 <= i < |payers| => OutboxRow(FinalizeEvent(payers[i]), false, 0, now))
  }

  lemma NoRows(now: Time)
    ensures FinalizeRows([], now) == []
  {
  }

  lemma NoneYet()
    ensures EachOnce([], {})
  {
  }

  lemma PushRow(xs: seq<UserId>, x: UserId, now: Time)
    ensures FinalizeRows(xs + [x], now) == FinalizeRows(xs, now) + [OutboxRow(FinalizeEvent(x), false, 0, now)]
  {
  }

  lemma PushOnce(xs: seq<UserId>, s: set<UserId>, x: UserId)
    requires EachOnce(xs, s) && x !in s
    ensures EachOnce(xs + [x], s + {x})
  {
    forall y ensures y in xs + [x] <==> y in s + {x} {
      assert y in xs + [x] <==> y in xs || y == x;
    }
  }

  ghost predicate EachOnce(xs: seq<UserId>, s: set<UserId>) {
    (forall x :: x in xs <==> x in s) && forall i, j | 0 <= i < j < |xs| :: xs[i] != xs[j]
  }
}
