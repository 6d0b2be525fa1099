/** What a whole phase-4b transaction does to a reachable book: when it commits, and every
    balance, payment and result it leaves. */
module Draining {
  import opened Basics
  import opened Domain
  import opened Posting
  import opened Finalize
  import opened Invariants
  import opened SettleKeeps
  import opened Allocation

  predicate Drainable(pays: seq<Payment>, ids: seq<nat>, payer: UserId) {
    && (forall k | 0 <= k < |ids| :: ids[k] < |pays| && IsPendingOf(pays[ids[k]], payer))
    && (forall j, k | 0 <= j < k < |ids| :: ids[j] != ids[k])
  }

  function Amounts(pays: seq<Payment>, ids: seq<nat>): (r: seq<int>)
    requires forall k | 0 <= k < |ids| :: ids[k] < |pays|
    ensures |r| == |ids| && forall k | 0 <= k < |ids| :: r[k] == pays[ids[k]].amount
  {
    seq(|ids|, k requires 0 <= k < |ids| => pays[ids[k]].amount)
  }

  /** A payment of the queue with the share it gets. */
  datatype Job = Job(p: Payment, s: Share)

  function Jobs(pays: seq<Payment>, ids: seq<nat>, remaining: int): (r: seq<Job>)
    requires forall k | 0 <= k < |ids| :: ids[k] < |pays|
    ensures |r| == |ids|
    ensures forall k | 0 <= k < |ids| :: r[k] == Job(pays[ids[k]], Shares(Amounts(pays, ids), remaining)[k])
  {
    seq(|ids|, k requires 0 <= k < |ids| => Job(pays[ids[k]], Shares(Amounts(pays, ids), remaining)[k]))
  }

  function JobEffect(a: Account): Job -> int { (j: Job) => SettleEffect(j.p, j.s.settled, a) }

  /** Everything the queue would move on an account. */
  ghost function QueueEffect(pays: seq<Payment>, ids: seq<nat>, remaining: int, a: Account): int
    requires forall k | 0 <= k < |ids| :: ids[k] < |pays|
  {
    Sum(Jobs(pays, ids, remaining), JobEffect(a))
  }

  ghost function QueueTotal(pays: seq<Payment>, ids: seq<nat>): int
    requires forall k | 0 <= k < |ids| :: ids[k] < |pays|
  {
    Prefix(Amounts(pays, ids), |ids|)
  }

  lemma TailAmounts(pays: seq<Payment>, pays': seq<Payment>, ids: seq<nat>, payer: UserId)
    requires Drainable(pays, ids, payer) && ids != [] && |pays'| == |pays|
    requires forall i | 0 <= i < |pays| && i != ids[0] :: pays'[i] == pays[i]
    ensures Drainable(pays', ids[1..], payer)
    ensures Amounts(pays', ids[1..]) == Amounts(pays, ids)[1..]
  {
  }

  lemma TailJobs(pays: seq<Payment>, pays': seq<Payment>, ids: seq<nat>, r: int, payer: UserId)
    requires Drainable(pays, ids, payer) && ids != [] && |pays'| == |pays|
    requires forall i | 0 <= i < |pays| && i != ids[0] :: pays'[i] == pays[i]
    ensures Drainable(pays', ids[1..], payer)
    ensures Jobs(pays, ids, r)
         == [Job(pays[ids[0]], Allocate(pays[ids[0]].amount, r))]
            + Jobs(pays', ids[1..], Allocate(pays[ids[0]].amount, r).left)
  {
    TailAmounts(pays, pays', ids, payer);
    var s := Allocate(pays[ids[0]].amount, r);
    var amounts := Amounts(pays, ids);
    assert Shares(amounts, r) == [s] + Shares(amounts[1..], s.left);
    hide Shares, Allocate, Amounts, Drainable;
    var tail := Jobs(pays', ids[1..], s.left);
    assert Jobs(pays, ids, r)[0] == Job(pays[ids[0]], s);
    forall k | 0 < k < |ids| ensures Jobs(pays, ids, r)[k] == tail[k - 1] {
      assert ids[1..][k - 1] == ids[k];
      OtherIds(pays, ids, payer, k);
    }
    assert Jobs(pays, ids, r) == [Job(pays[ids[0]], s)] + tail;
  }

  lemma OtherIds(pays: seq<Payment>, ids: seq<nat>, payer: UserId, k: nat)
    requires Drainable(pays, ids, payer) && 0 < k < |ids|
    ensures ids[k] != ids[0] && ids[k] < |pays|
  {
  }

  /** The head of the queue: its guard, and the book it leaves. */
  lemma DrainStep(b: Book, ids: seq<nat>, r: int, now: Time, payer: UserId)
    requires BookOk(b) && Drainable(b.pays, ids, payer) && ids != [] && r >= 0
    ensures LienOf(payer) in b.bal && b.bal[LienOf(payer)] >= 0 && b.pays[ids[0]].amount > 0
    ensures var s := Allocate(b.pays[ids[0]].amount, r);
            var o := SettleOne(b, ids[0], s, now);
            && (o.Some? <==> b.bal[LienOf(payer)] >= s.settled)
            && (o.Some? ==>
                 && BookOk(o.value)
                 && o.value.pays == b.pays[ids[0] := After(b.pays[ids[0]], s, now)]
                 && o.value.bal.Keys == b.bal.Keys
                 && (forall a | a in b.bal :: o.value.bal[a] == b.bal[a] + SettleEffect(b.pays[ids[0]], s.settled, a))
                 && o.value.ceils == b.ceils && o.value.transfers == b.transfers && |o.value.rows| == |b.rows|)
  {
    hide BookOk, SettleOne;
    var p := b.pays[ids[0]];
    var s := Allocate(p.amount, r);
    PendingPaymentFacts(b, ids[0]);
    AllocateOk(p, r);
    SettleFailsOnlyOnLien(b, ids[0], s, now);
    LienNonneg(b, payer);
    if SettleOne(b, ids[0], s, now).Some? {
      SettleKeepsBook(b, ids[0], s, now);
      SettleParts(b, ids[0], s, now);
      ApplyEffect(b.bal, SettlementLegs(p, s.settled));
      forall a | a in b.bal
        ensures SettleOne(b, ids[0], s, now).value.bal[a] == b.bal[a] + SettleEffect(p, s.settled, a)
      {
        NetSettlement(p, s.settled, a);
      }
    }
  }

  lemma PositiveAmounts(b: Book, ids: seq<nat>, payer: UserId)
    requires BookOk(b) && Drainable(b.pays, ids, payer)
    ensures forall k | 0 <= k < |ids| :: Amounts(b.pays, ids)[k] > 0
  {
    forall k | 0 <= k < |ids| ensures Amounts(b.pays, ids)[k] > 0 {
      assert PaymentOk(b.bal, b.pays[ids[k]], |b.ceils|);
    }
  }

  /** A finalize over a pending total T against a ceiling C commits exactly when the lien holds
      min(T, C); no other guard can fail. */
  lemma {:induction false} DrainCommits(b: Book, ids: seq<nat>, r: int, now: Time, payer: UserId)
    requires BookOk(b) && Drainable(b.pays, ids, payer) && r >= 0 && LienOf(payer) in b.bal
    ensures Drain(b, ids, r, now).Some? <==> b.bal[LienOf(payer)] >= Min(QueueTotal(b.pays, ids), r)
    decreases |ids|
  {
    hide SettleOne, BookOk;
    LienNonneg(b, payer);
    if ids != [] {
      var s := Allocate(b.pays[ids[0]].amount, r);
      DrainStep(b, ids, r, now, payer);
      PositiveAmounts(b, ids, payer);
      PrefixShift(Amounts(b.pays, ids), |ids|);
      PrefixMonotone(Amounts(b.pays, ids)[1..], 0, |ids| - 1);
      assert Amounts(b.pays, ids)[1..][..0] == [];
      var o := SettleOne(b, ids[0], s, now);
      if o.Some? {
        TailAmounts(b.pays, o.value.pays, ids, payer);
        DrainCommits(o.value, ids[1..], s.left, now, payer);
      }
    } else {
      assert Amounts(b.pays, ids)[..0] == [];
    }
  }

  lemma {:induction false} DrainKeepsBook(b: Book, ids: seq<nat>, r: int, now: Time, payer: UserId)
    requires BookOk(b) && Drainable(b.pays, ids, payer) && r >= 0 && Drain(b, ids, r, now).Some?
    ensures var pr := Drain(b, ids, r, now).value;
            && BookOk(pr.book) && pr.left == Remaining(Amounts(b.pays, ids), r)
            && pr.book.ceils == b.ceils && pr.book.transfers == b.transfers && |pr.book.rows| == |b.rows|
    decreases |ids|
  {
    hide SettleOne, BookOk;
    if ids != [] {
      var s := Allocate(b.pays[ids[0]].amount, r);
      DrainStep(b, ids, r, now, payer);
      var b1 := SettleOne(b, ids[0], s, now).value;
      TailAmounts(b.pays, b1.pays, ids, payer);
      DrainKeepsBook(b1, ids[1..], s.left, now, payer);
    }
  }

  lemma {:induction false} DrainLeaves(b: Book, ids: seq<nat>, r: int, now: Time, payer: UserId, i: nat)
    requires BookOk(b) && Drainable(b.pays, ids, payer) && r >= 0 && Drain(b, ids, r, now).Some?
    requires i < |b.pays| && i !in ids
    ensures |Drain(b, ids, r, now).value.book.pays| == |b.pays| && Drain(b, ids, r, now).value.book.pays[i] == b.pays[i]
    decreases |ids|
  {
    hide SettleOne, BookOk;
    if ids != [] {
      var s := Allocate(b.pays[ids[0]].amount, r);
      DrainStep(b, ids, r, now, payer);
      var b1 := SettleOne(b, ids[0], s, now).value;
      TailAmounts(b.pays, b1.pays, ids, payer);
      DrainLeaves(b1, ids[1..], s.left, now, payer, i);
    }
  }

  lemma {:induction false} DrainPayAt(b: Book, ids: seq<nat>, r: int, now: Time, payer: UserId, k: nat)
    requires BookOk(b) && Drainable(b.pays, ids, payer) && r >= 0 && Drain(b, ids, r, now).Some? && k < |ids|
    ensures var pr := Drain(b, ids, r, now).value;
            var share := Shares(Amounts(b.pays, ids), r)[k];
            pr.book.pays[ids[k]] == After(b.pays[ids[k]], share, now)
                && pr.results[k] == ResultFor(ids[k], b.pays[ids[k]], share)
    decreases |ids|
  {
    hide SettleOne, BookOk;
    var s := Allocate(b.pays[ids[0]].amount, r);
    DrainStep(b, ids, r, now, payer);
    var b1 := SettleOne(b, ids[0], s, now).value;
    TailAmounts(b.pays, b1.pays, ids, payer);
    assert Shares(Amounts(b.pays, ids), r) == [s] + Shares(Amounts(b.pays, ids)[1..], s.left);
    if k == 0 {
      DrainLeaves(b1, ids[1..], s.left, now, payer, ids[0]);
    } else {
      DrainPayAt(b1, ids[1..], s.left, now, payer, k - 1);
    }
  }

  /** Every queued payment ends with its greedy share, every other payment is untouched. */
  lemma DrainPays(b: Book, ids: seq<nat>, r: int, now: Time, payer: UserId)
    requires BookOk(b) && Drainable(b.pays, ids, payer) && r >= 0 && Drain(b, ids, r, now).Some?
    ensures var pr := Drain(b, ids, r, now).value;
            var shares := Shares(Amounts(b.pays, ids), r);
            && |pr.book.pays| == |b.pays| && |pr.results| == |ids|
            && (forall k | 0 <= k < |ids| :: pr.book.pays[ids[k]] == After(b.pays[ids[k]], shares[k], now))
            && (forall k | 0 <= k < |ids| :: pr.results[k] == ResultFor(ids[k], b.pays[ids[k]], shares[k]))
            && (forall i | 0 <= i < |b.pays| && i !in ids :: pr.book.pays[i] == b.pays[i])
  {
    hide Drain, BookOk, Shares;
    var pr := Drain(b, ids, r, now).value;
    var shares := Shares(Amounts(b.pays, ids), r);
    forall k | 0 <= k < |ids|
      ensures pr.book.pays[ids[k]] == After(b.pays[ids[k]], shares[k], now)
      ensures pr.results[k] == ResultFor(ids[k], b.pays[ids[k]], shares[k])
    {
      DrainPayAt(b, ids, r, now, payer, k);
    }
    forall i | 0 <= i < |b.pays| && i !in ids ensures pr.book.pays[i] == b.pays[i] {
      DrainLeaves(b, ids, r, now, payer, i);
    }
  }

  /** Every balance moves by exactly what the queue's shares prescribe. */
  lemma {:induction false} DrainBalances(b: Book, ids: seq<nat>, r: int, now: Time, payer: UserId)
    requires BookOk(b) && Drainable(b.pays, ids, payer) && r >= 0 && Drain(b, ids, r, now).Some?
    ensures Drain(b, ids, r, now).value.book.bal.Keys == b.bal.Keys
    ensures forall a | a in b.bal ::
              Drain(b, ids, r, now).value.book.bal[a] == b.bal[a] + QueueEffect(b.pays, ids, r, a)
    decreases |ids|
  {
    hide SettleOne, BookOk;
    if ids != [] {
      var s := Allocate(b.pays[ids[0]].amount, r);
      DrainStep(b, ids, r, now, payer);
      var b1 := SettleOne(b, ids[0], s, now).value;
      TailJobs(b.pays, b1.pays, ids, r, payer);
      DrainBalances(b1, ids[1..], s.left, now, payer);
      forall a | a in b.bal
        ensures Drain(b, ids, r, now).value.book.bal[a] == b.bal[a] + QueueEffect(b.pays, ids, r, a)
      {
        SumHead(Jobs(b.pays, ids, r), JobEffect(a));
        assert a in b1.bal.Keys;
      }
    }
  }
}
