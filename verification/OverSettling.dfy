/** What a finalize adds to the settled total of each ceiling, whichever ceilings its queue names, and so
    exactly when it takes one beyond its amount. */
module OverSettling {
  import opened Basics
  import opened Domain
  import opened Posting
  import opened Finalize
  import opened Wallet
  import opened Invariants
  import opened SettleKeeps
  import opened Allocation
  import opened Draining
  import opened Finalizing

  lemma SettledTotalUpdate(pays: seq<Payment>, id: nat, p': Payment, c: nat)
    requires id < |pays| && p'.ceiling == pays[id].ceiling
    ensures SettledTotal(pays[id := p'], c)
         == SettledTotal(pays, c) + if c == pays[id].ceiling then p'.settled - pays[id].settled else 0
  {
    SumUpdate(pays, id, p', SettledUnder(c));
  }

  function Under(d: nat): Job -> int { (j: Job) => if j.p.ceiling == d then j.s.settled else 0 }

  lemma {:induction false} DrainAdds(b: Book, ids: seq<nat>, r: int, now: Time, payer: UserId, d: nat)
    requires BookOk(b) && Drainable(b.pays, ids, payer) && r >= 0 && Drain(b, ids, r, now).Some?
    ensures SettledTotal(Drain(b, ids, r, now).value.book.pays, d)
         == SettledTotal(b.pays, d) + Sum(Jobs(b.pays, ids, r), Under(d))
    decreases |ids|
  {
    hide SettleOne, BookOk, SettledTotal;
    if ids != [] {
      var p := b.pays[ids[0]];
      var s := Allocate(p.amount, r);
      DrainStep(b, ids, r, now, payer);
      AllocateOk(p, r);
      var b1 := SettleOne(b, ids[0], s, now).value;
      NothingSettledYet(b, ids[0]);
      SettledTotalUpdate(b.pays, ids[0], After(p, s, now), d);
      TailJobs(b.pays, b1.pays, ids, r, payer);
      SumHead(Jobs(b.pays, ids, r), Under(d));
      DrainAdds(b1, ids[1..], s.left, now, payer, d);
    }
  }

  lemma NothingSettledYet(b: Book, id: nat)
    requires BookOk(b) && id < |b.pays| && b.pays[id].status == Pending
    ensures b.pays[id].settled == 0
  {
    assert PaymentOk(b.bal, b.pays[id], |b.ceils|);
  }

  /** Of the first k queued payments those under d: each is paid the part of its stretch of the running
      total that lies below the ceiling in use. */
  ghost function PaidUnder(pays: seq<Payment>, ids: seq<nat>, c: int, d: nat, k: nat): int
    requires k <= |ids| && forall j | 0 <= j < |ids| :: ids[j] < |pays|
  {
    if k == 0 then 0
    else
      var amounts := Amounts(pays, ids);
      PaidUnder(pays, ids, c, d, k - 1)
      + if pays[ids[k - 1]].ceiling == d then Min(Prefix(amounts, k), c) - Min(Prefix(amounts, k - 1), c) else 0
  }

  lemma {:induction false} JobsUnder(pays: seq<Payment>, ids: seq<nat>, c: int, d: nat, k: nat)
    requires k <= |ids| && c >= 0 && forall j | 0 <= j < |ids| :: ids[j] < |pays|
    requires forall j | 0 <= j < |ids| :: Amounts(pays, ids)[j] > 0
    ensures Sum(Jobs(pays, ids, c)[..k], Under(d)) == PaidUnder(pays, ids, c, d, k)
    decreases k
  {
    hide Prefix;
    if k > 0 {
      var jobs := Jobs(pays, ids, c);
      JobsUnder(pays, ids, c, d, k - 1);
      GreedyClosedForm(Amounts(pays, ids), c, k - 1);
      SumPush(jobs[..k - 1], jobs[k - 1], Under(d));
      assert jobs[..k] == jobs[..k - 1] + [jobs[k - 1]];
    }
  }

  /** What the payer's queue pays under d out of a ceiling of c. */
  ghost function QueuePays(pays: seq<Payment>, payer: UserId, c: int, d: nat): int {
    PaidUnder(pays, Queue(pays, payer), c, d, |Queue(pays, payer)|)
  }

  /** A committed finalize adds to each ceiling's settled total what the queue pays under it. */
  lemma FinalizeAddsUnder(b: Book, payer: UserId, d: nat, now: Time)
    requires BookOk(b) && Queue(b.pays, payer) != [] && FinalizeForPayer(b, payer, now).Committed?
    requires CeilingInUse(b, payer) < |b.ceils|
    ensures SettledTotal(FinalizeForPayer(b, payer, now).book.pays, d)
         == SettledTotal(b.pays, d) + QueuePays(b.pays, payer, b.ceils[CeilingInUse(b, payer)].amount, d)
  {
    hide BookOk, Queue, Drain, SettledTotal, PaidUnder;
    var ids, c := Queue(b.pays, payer), b.ceils[CeilingInUse(b, payer)].amount;
    CeilingStored(b, payer);
    QueueDrainable(b.pays, payer);
    FinalizeParts(b, payer, now);
    DrainAdds(b, ids, c, now, payer, d);
    PositiveAmounts(b, ids, payer);
    JobsUnder(b.pays, ids, c, d, |ids|);
    assert Jobs(b.pays, ids, c)[..|ids|] == Jobs(b.pays, ids, c);
  }

  /** A queue all under one ceiling pays min(T, C) under it. */
  lemma {:induction false} PaidAll(pays: seq<Payment>, ids: seq<nat>, c: int, d: nat, k: nat)
    requires k <= |ids| && c >= 0 && forall j | 0 <= j < |ids| :: ids[j] < |pays| && pays[ids[j]].ceiling == d
    ensures PaidUnder(pays, ids, c, d, k) == Min(Prefix(Amounts(pays, ids), k), c)
    decreases k
  {
    hide Prefix;
    if k > 0 {
      PaidAll(pays, ids, c, d, k - 1);
    } else {
      NoPrefix(Amounts(pays, ids));
    }
  }

  lemma NoPrefix(amounts: seq<int>)
    ensures Prefix(amounts, 0) == 0
  {
    assert amounts[..0] == [];
  }

  /** A finalize of payments under one ceiling adds min(T, C) to what is settled under it. */
  lemma FinalizeAdds(b: Book, payer: UserId, now: Time)
    requires BookOk(b) && Queue(b.pays, payer) != [] && FinalizeForPayer(b, payer, now).Committed?
    requires CeilingInUse(b, payer) < |b.ceils|
    requires forall i | 0 <= i < |b.pays| && IsPendingOf(b.pays[i], payer) ::
             b.pays[i].ceiling == CeilingInUse(b, payer)
    ensures var c := CeilingInUse(b, payer);
            SettledTotal(FinalizeForPayer(b, payer, now).book.pays, c)
            == SettledTotal(b.pays, c) + Min(PendingTotal(b.pays, payer), b.ceils[c].amount)
  {
    hide BookOk, Queue, FinalizeForPayer, SettledTotal, PendingTotal, PaidUnder;
    var ids, c := Queue(b.pays, payer), CeilingInUse(b, payer);
    CeilingStored(b, payer);
    QueueDrainable(b.pays, payer);
    QueueTotalIsPendingTotal(b.pays, payer);
    FinalizeAddsUnder(b, payer, c, now);
    PaidAll(b.pays, ids, b.ceils[c].amount, c, |ids|);
  }

  /** Exactly when a finalize settles a ceiling beyond its amount, whichever ceilings the queue names:
      when the payer's lien covers min(T, C), for the pending total T and the ceiling in use C, and
      what the queue pays under that ceiling no longer fits. */
  lemma QueueOverSettlesIff(b: Book, payer: UserId, d: nat, now: Time)
    requires BookOk(b) && Queue(b.pays, payer) != []
    requires d < |b.ceils| && SettledTotal(b.pays, d) <= b.ceils[d].amount
    ensures LienOf(payer) in b.bal && CeilingInUse(b, payer) < |b.ceils|
    ensures var c := b.ceils[CeilingInUse(b, payer)].amount;
            SettledTotal(BookAfter(b, FinalizeForPayer(b, payer, now)).pays, d) > b.ceils[d].amount
            <==> (b.bal[LienOf(payer)] >= Min(PendingTotal(b.pays, payer), c)
                  && SettledTotal(b.pays, d) + QueuePays(b.pays, payer, c, d) > b.ceils[d].amount)
  {
    hide BookOk, Queue, FinalizeForPayer, PendingTotal, SettledTotal, QueuePays;
    CeilingStored(b, payer);
    FinalizeCommitsIff(b, payer, now);
    if FinalizeForPayer(b, payer, now).Committed? {
      FinalizeAddsUnder(b, payer, d, now);
    }
  }
}
