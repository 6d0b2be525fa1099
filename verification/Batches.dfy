/** What a submitted batch reports and whom it enqueues, read off the tables it leaves. */
module Batches {
  import opened Basics
  import opened Domain
  import opened Claims
  import opened Invariants
  import opened Runs
  import opened SettlementService

  predicate StoredAs(p: Payment, t: PaymentToken) { p.payer == t.payer && p.seqNo == t.seqNo }

  /** The result agrees with the row stored under the claim's payer and sequence. */
  predicate Stands(pays: seq<Payment>, item: ClaimItem, r: SubmitResult) {
    match r
    case Refused(_) => true
    case Known(id, status, settled, why) =>
      id < |pays| && StoredAs(pays[id], item.payment) && pays[id].status == status && pays[id].settled == settled
      && pays[id].reason == why
    case Fresh(id) =>
      id < |pays| && StoredAs(pays[id], item.payment) && pays[id].status == Pending && pays[id].settled == 0
    case Failed => false
  }

  /** The claim is one of u's, was not refused, and its row is pending. */
  predicate LeftPending(pays: seq<Payment>, item: ClaimItem, r: SubmitResult, u: UserId) {
    item.payment.payer == u && (r.Known? || r.Fresh?) && r.id < |pays| && pays[r.id].status == Pending
  }

  predicate Grown(pays: seq<Payment>, pays': seq<Payment>) { pays <= pays' }

  /** What one more result says of the tables before and after it. */
  ghost predicate OneMore(pays: seq<Payment>, pays': seq<Payment>, item: ClaimItem, r: SubmitResult) {
    && Grown(pays, pays') && |pays'| <= |pays| + 1 && Stands(pays', item, r)
    && (forall u :: LeavesPending(r) && item.payment.payer == u <==> LeftPending(pays', item, r, u))
    && (|pays'| > |pays| ==>
          r == Fresh(|pays|) && pays'[|pays|].payer == item.payment.payer && pays'[|pays|].status == Pending)
  }

  lemma OneStands(b: Book, item: ClaimItem, submitter: UserId, batch: nat, now: Time)
    ensures var (b', r) := SubmitOne(b, item, submitter, batch, now);
            r.Failed? || OneMore(b.pays, b'.pays, item, r)
  {
    SubmitFrame(b, item, submitter, batch, now);
    hide Validate, Accept, CeilingGate;
  }

  lemma StandsOn(pays: seq<Payment>, pays': seq<Payment>, item: ClaimItem, r: SubmitResult, u: UserId)
    requires Grown(pays, pays') && Stands(pays, item, r)
    ensures Stands(pays', item, r)
    ensures LeftPending(pays', item, r, u) <==> LeftPending(pays, item, r, u)
  {
  }

  /** The payers with a claim of theirs left pending, among the processed claims. */
  ghost predicate SomeLeftPending(pays: seq<Payment>, items: seq<ClaimItem>, rs: seq<SubmitResult>, u: UserId)
    requires |rs| <= |items|
  {
    exists i :: 0 <= i < |rs| && LeftPending(pays, items[i], rs[i], u)
  }

  lemma SomeMorePending(pays: seq<Payment>, pays': seq<Payment>, items: seq<ClaimItem>, rs: seq<SubmitResult>,
          r: SubmitResult, u: UserId)
    requires |rs| < |items| && Grown(pays, pays')
    requires forall i | 0 <= i < |rs| :: Stands(pays, items[i], rs[i])
    ensures SomeLeftPending(pays', items, rs + [r], u)
       <==> SomeLeftPending(pays, items[..|rs|], rs, u) || LeftPending(pays', items[|rs|], r, u)
  {
    var n := |rs|;
    forall i | 0 <= i < n
      ensures LeftPending(pays', items[i], (rs + [r])[i], u) <==> LeftPending(pays, items[..n][i], rs[i], u)
    {
      StandsOn(pays, pays', items[i], rs[i], u);
    }
    hide LeftPending, Stands;
    if LeftPending(pays', items[n], r, u) {
      assert LeftPending(pays', items[n], (rs + [r])[n], u);
    }
    if SomeLeftPending(pays, items[..n], rs, u) {
      var i :| 0 <= i < n && LeftPending(pays, items[..n][i], rs[i], u);
      assert LeftPending(pays', items[i], (rs + [r])[i], u);
    }
    if SomeLeftPending(pays', items, rs + [r], u) {
      var i :| 0 <= i < n + 1 && LeftPending(pays', items[i], (rs + [r])[i], u);
      assert i < n ==> LeftPending(pays, items[..n][i], rs[i], u);
    }
  }

  /** Every result agrees with its stored row, the payers to finalize are those with a claim left
      pending, and every row that was added is pending and its payer among them. */
  ghost predicate TellsTables(pays: seq<Payment>, pays': seq<Payment>, items: seq<ClaimItem>, out: BatchOutcome) {
    && |out.results| <= |items| && (!out.failed ==> |out.results| == |items|) && Grown(pays, pays')
    && (forall i | 0 <= i < |out.results| :: Stands(pays', items[i], out.results[i]))
    && (forall u :: u in out.finalizers <==> SomeLeftPending(pays', items, out.results, u))
    && (forall j | |pays| <= j < |pays'| :: pays'[j].status == Pending && pays'[j].payer in out.finalizers)
  }

  lemma TellsPrefix(pays: seq<Payment>, pays': seq<Payment>, items: seq<ClaimItem>, out: BatchOutcome)
    requires items != [] && TellsTables(pays, pays', items[..|items| - 1], out)
    ensures TellsTables(pays, pays', items, out.(failed := true))
  {
    hide Stands, LeftPending;
    var front := items[..|items| - 1];
    forall u ensures SomeLeftPending(pays', items, out.results, u) <==> SomeLeftPending(pays', front, out.results, u) {
      assert forall i | 0 <= i < |out.results| :: items[i] == front[i];
    }
  }

  lemma TellsMore(pays: seq<Payment>, now: seq<Payment>, later: seq<Payment>, items: seq<ClaimItem>,
          out: BatchOutcome, r: SubmitResult)
    requires items != [] && !out.failed && TellsTables(pays, now, items[..|items| - 1], out)
    requires OneMore(now, later, items[|items| - 1], r)
    ensures TellsTables(pays, later, items,
              BatchOutcome(out.results + [r], false,
                if LeavesPending(r) then out.finalizers + {items[|items| - 1].payment.payer} else out.finalizers))
  {
    hide LeavesPending;
    var n := |items| - 1;
    forall i | 0 <= i < n ensures Stands(later, items[i], out.results[i]) {
      assert Stands(now, items[..n][i], out.results[i]);
      StandsOn(now, later, items[i], out.results[i], "");
    }
    forall u
      ensures SomeLeftPending(later, items, out.results + [r], u)
         <==> SomeLeftPending(now, items[..n], out.results, u) || LeftPending(later, items[n], r, u)
    {
      assert forall i | 0 <= i < n :: Stands(now, items[..n][i], out.results[i]);
      SomeMorePending(now, later, items, out.results, r, u);
    }
    hide Stands, LeftPending, SomeLeftPending, LeavesPending;
    forall j | |pays| <= j < |later|
      ensures later[j].status == Pending
      ensures later[j].payer in out.finalizers || (LeavesPending(r) && later[j].payer == items[n].payment.payer)
    {
      if j < |now| {
        assert later[j] == now[j];
      } else {
        assert LeftPending(later, items[n], r, items[n].payment.payer);
      }
    }
  }

  lemma {:induction false} BatchTells(b: Book, items: seq<ClaimItem>, submitter: UserId, batch: nat, now: Time)
    ensures var (b', out) := ClaimBatch(b, items, submitter, batch, now);
            TellsTables(b.pays, b'.pays, items, out)
    decreases |items|
  {
    hide SubmitOne, TellsTables, LeavesPending, OneMore;
    if items == [] {
      NothingToTell(b.pays);
    } else {
      var item, front := items[|items| - 1], items[..|items| - 1];
      var (b1, out) := ClaimBatch(b, front, submitter, batch, now);
      BatchTells(b, front, submitter, batch, now);
      TellsPrefix(b.pays, b1.pays, items, out);
      if !out.failed {
        FailedLeaves(b1, item, submitter, batch, now);
        OneStands(b1, item, submitter, batch, now);
        var (b2, r) := SubmitOne(b1, item, submitter, batch, now);
        if !r.Failed? {
          TellsMore(b.pays, b1.pays, b2.pays, items, out, r);
        }
      }
    }
  }

  lemma NothingToTell(pays: seq<Payment>)
    ensures TellsTables(pays, pays, [], BatchOutcome([], false, {}))
  {
  }

  // ------------------------------------------------------------------ the descriptor

  lemma {:induction false} BatchKeepsBook(b: Book, items: seq<ClaimItem>, submitter: UserId, batch: nat, now: Time)
    requires BookOk(b)
    ensures BookOk(ClaimBatch(b, items, submitter, batch, now).0)
    decreases |items|
  {
    hide BookOk, SubmitOne;
    if items != [] {
      var front := items[..|items| - 1];
      BatchKeepsBook(b, front, submitter, batch, now);
      SubmitKeepsBook(ClaimBatch(b, front, submitter, batch, now).0, items[|items| - 1], submitter, batch, now);
    }
  }

  function IsRefusal(): SubmitResult -> bool { (r: SubmitResult) => r.Refused? }

  /** A stored row is never rejected, and while it is pending nothing of it is settled. */
  lemma StoredShape(b: Book, item: ClaimItem, r: SubmitResult)
    requires BookOk(b) && Stands(b.pays, item, r)
    ensures RejectedOne()(r) == (if IsRefusal()(r) then 1 else 0) && AlreadySettled()(r) == 0
  {
    assert r.Known? ==> PaymentOk(b.bal, b.pays[r.id], |b.ceils|);
  }

  /** In a reachable book the descriptor counts as rejected exactly the refused claims, and its amount is
      always zero: what is still pending has nothing settled yet. */
  lemma BatchCounts(b: Book, items: seq<ClaimItem>, submitter: UserId, batch: nat, now: Time)
    requires BookOk(b)
    ensures var rs := ClaimBatch(b, items, submitter, batch, now).1.results;
            Sum(rs, RejectedOne()) == |Where(rs, IsRefusal())| && Sum(rs, AlreadySettled()) == 0
  {
    hide ClaimBatch, BookOk, Stands, Where, Sum;
    BatchTells(b, items, submitter, batch, now);
    BatchKeepsBook(b, items, submitter, batch, now);
    var (b', out) := ClaimBatch(b, items, submitter, batch, now);
    forall i | 0 <= i < |out.results|
      ensures RejectedOne()(out.results[i]) == (if IsRefusal()(out.results[i]) then 1 else 0)
      ensures AlreadySettled()(out.results[i]) == 0
    {
      StoredShape(b', items[i], out.results[i]);
    }
    SumCounts(out.results, IsRefusal(), RejectedOne());
    SumZero(out.results, AlreadySettled());
  }
}
