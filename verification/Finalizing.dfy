/** FinalizeForPayer as one transaction on a reachable book: when it commits, everything it
    leaves behind, and why running it again does nothing. */
module Finalizing {
  import opened Basics
  import opened Domain
  import opened Finalize
  import opened Invariants
  import opened SettleKeeps
  import opened WalletKeeps
  import opened Allocation
  import opened Draining

  function OwedBy(u: UserId): Payment -> int {
    (p: Payment) => if IsPendingOf(p, u) then p.amount else 0
  }

  /** Everything a payer still has pending. */
  ghost function PendingTotal(pays: seq<Payment>, payer: UserId): int { Sum(pays, OwedBy(payer)) }

  function AmountAt(pays: seq<Payment>): int -> int {
    (i: int) => if 0 <= i < |pays| then pays[i].amount else 0
  }

  lemma {:induction false} PendingIdsTotal(pays: seq<Payment>, payer: UserId)
    ensures Sum<int>(PendingIds(pays, payer), AmountAt(pays)) == PendingTotal(pays, payer)
  {
    if pays != [] {
      var n := |pays| - 1;
      var front: seq<int> := PendingIds(pays[..n], payer);
      PendingIdsTotal(pays[..n], payer);
      SumCongruent<int, int>(front, front, AmountAt(pays[..n]), AmountAt(pays));
      assert PendingTotal(pays, payer) == PendingTotal(pays[..n], payer) + OwedBy(payer)(pays[n]);
      hide Sum;
      if IsPendingOf(pays[n], payer) {
        SumPush<int>(front, n, AmountAt(pays));
        assert PendingIds(pays, payer) == front + [n];
      } else {
        assert PendingIds(pays, payer) == PendingIds(pays[..n], payer);
      }
    }
  }

  lemma QueueTotalIsPendingTotal(pays: seq<Payment>, payer: UserId)
    ensures QueueTotal(pays, Queue(pays, payer)) == PendingTotal(pays, payer)
  {
    var ids := Queue(pays, payer);
    PendingIdsTotal(pays, payer);
    SumPermutation<int>(ids, PendingIds(pays, payer), AmountAt(pays));
    SumCongruent<int, int>(Amounts(pays, ids), ids, Identity(), AmountAt(pays));
    assert Amounts(pays, ids)[..|ids|] == Amounts(pays, ids);
  }

  lemma InQueue(pays: seq<Payment>, payer: UserId, i: nat)
    ensures i in Queue(pays, payer) <==> i < |pays| && IsPendingOf(pays[i], payer)
  {
    var ids := PendingIds(pays, payer);
    assert multiset(Queue(pays, payer)) == multiset(ids);
    assert i in Queue(pays, payer) <==> i in multiset(Queue(pays, payer));
    assert i in ids <==> i in multiset(ids);
  }

  lemma NoRepeats(ids: seq<nat>, j: nat, k: nat)
    requires forall x: nat :: multiset(ids)[x] <= 1
    requires j < k < |ids|
    ensures ids[j] != ids[k]
  {
    if ids[j] == ids[k] {
      TwoOccurrences(ids, j, k);
    }
  }

  /** The queue lists exactly the payer's pending payments, each once. */
  lemma QueueDrainable(pays: seq<Payment>, payer: UserId)
    ensures Drainable(pays, Queue(pays, payer), payer)
  {
    hide Queue;
    var ids := Queue(pays, payer);
    forall k | 0 <= k < |ids| ensures ids[k] < |pays| && IsPendingOf(pays[ids[k]], payer) {
      InQueue(pays, payer, ids[k]);
    }
    forall x: nat ensures multiset(ids)[x] <= 1 {
      QueueCounts(pays, payer, x);
    }
    forall j, k | 0 <= j < k < |ids| ensures ids[j] != ids[k] {
      NoRepeats(ids, j, k);
    }
  }

  lemma QueueCounts(pays: seq<Payment>, payer: UserId, x: nat)
    ensures multiset(Queue(pays, payer))[x] <= 1
  {
    NoDuplicates(PendingIds(pays, payer), x);
  }

  lemma QueueEmpty(pays: seq<Payment>, payer: UserId)
    ensures Queue(pays, payer) == [] <==> forall i | 0 <= i < |pays| :: !IsPendingOf(pays[i], payer)
  {
    var ids := Queue(pays, payer);
    if ids == [] {
      forall i | 0 <= i < |pays| ensures !IsPendingOf(pays[i], payer) {
        InQueue(pays, payer, i);
      }
    } else {
      InQueue(pays, payer, ids[0]);
      assert IsPendingOf(pays[ids[0]], payer);
    }
  }

  /** The ceiling the call loads: the one the first queued payment names. */
  function CeilingInUse(b: Book, payer: UserId): nat
    requires Queue(b.pays, payer) != []
  {
    b.pays[Queue(b.pays, payer)[0]].ceiling
  }

  lemma CeilingStored(b: Book, payer: UserId)
    requires BookOk(b) && Queue(b.pays, payer) != []
    ensures CeilingInUse(b, payer) < |b.ceils| && b.ceils[CeilingInUse(b, payer)].amount > 0
    ensures LienOf(payer) in b.bal
  {
    hide Queue;
    QueueDrainable(b.pays, payer);
    var id := Queue(b.pays, payer)[0];
    assert PaymentOk(b.bal, b.pays[id], |b.ceils|);
    PendingCovers(b, id);
  }

  /** In a reachable book the call fails exactly when the lien cannot cover min(T, C), for the
      pending total T and the full amount C of the ceiling; no other guard in it can fail. */
  lemma FinalizeCommitsIff(b: Book, payer: UserId, now: Time)
    requires BookOk(b)
    ensures var queue := Queue(b.pays, payer);
            FinalizeForPayer(b, payer, now).Committed? <==>
              (queue == []
               || (LienOf(payer) in b.bal && CeilingInUse(b, payer) < |b.ceils|
                   && b.bal[LienOf(payer)] >= Min(PendingTotal(b.pays, payer), b.ceils[CeilingInUse(b, payer)].amount)))
  {
    hide Queue, BookOk, Drain;
    if Queue(b.pays, payer) != [] {
      CeilingStored(b, payer);
      QueueDrainable(b.pays, payer);
      QueueTotalIsPendingTotal(b.pays, payer);
      DrainCommits(b, Queue(b.pays, payer), b.ceils[CeilingInUse(b, payer)].amount, now, payer);
    }
  }

  /** The committed book, in terms of the drained one. */
  lemma FinalizeParts(b: Book, payer: UserId, now: Time)
    requires BookOk(b) && Queue(b.pays, payer) != [] && FinalizeForPayer(b, payer, now).Committed?
    ensures CeilingInUse(b, payer) < |b.ceils|
    ensures var c := CeilingInUse(b, payer);
            var d := Drain(b, Queue(b.pays, payer), b.ceils[c].amount, now);
            && d.Some? && d.value.book.ceils == b.ceils
            && d.value.left == b.ceils[c].amount - Min(PendingTotal(b.pays, payer), b.ceils[c].amount)
            && FinalizeForPayer(b, payer, now)
               == Committed(d.value.book.(ceils := if d.value.left == 0 then Exhaust(b.ceils, c) else b.ceils),
                   d.value.results)
  {
    hide Queue, BookOk, Drain;
    var ids := Queue(b.pays, payer);
    CeilingStored(b, payer);
    QueueDrainable(b.pays, payer);
    QueueTotalIsPendingTotal(b.pays, payer);
    var c := b.ceils[CeilingInUse(b, payer)].amount;
    DrainKeepsBook(b, ids, c, now, payer);
    PositiveAmounts(b, ids, payer);
    GreedyTotal(Amounts(b.pays, ids), c);
    var d := Drain(b, ids, c, now).value;
    assert d.book == d.book.(ceils := b.ceils);
  }

  lemma FinalizeKeepsBook(b: Book, payer: UserId, now: Time)
    requires BookOk(b)
    ensures BookOk(BookAfter(b, FinalizeForPayer(b, payer, now)))
  {
    hide Queue, BookOk, Drain;
    if Queue(b.pays, payer) != [] && FinalizeForPayer(b, payer, now).Committed? {
      FinalizeParts(b, payer, now);
      QueueDrainable(b.pays, payer);
      var c := CeilingInUse(b, payer);
      CeilingStored(b, payer);
      DrainKeepsBook(b, Queue(b.pays, payer), b.ceils[c].amount, now, payer);
      var d := Drain(b, Queue(b.pays, payer), b.ceils[c].amount, now).value;
      RestateKeepsBook(d.book, c, Exhausted, d.book.ceils[c].releaseAfter);
    }
  }

  /** What every payment looks like afterwards: the payer's pending payments carry their greedy
      shares of the full ceiling in sequence order, all others are as they were. */
  lemma FinalizePays(b: Book, payer: UserId, now: Time)
    requires BookOk(b) && Queue(b.pays, payer) != [] && FinalizeForPayer(b, payer, now).Committed?
    requires CeilingInUse(b, payer) < |b.ceils|
    ensures var queue := Queue(b.pays, payer);
            var shares := Shares(Amounts(b.pays, queue), b.ceils[CeilingInUse(b, payer)].amount);
            var o := FinalizeForPayer(b, payer, now);
            && |o.book.pays| == |b.pays| && |o.results| == |queue|
            && (forall k | 0 <= k < |queue| :: o.book.pays[queue[k]] == After(b.pays[queue[k]], shares[k], now))
            && (forall k | 0 <= k < |queue| :: o.results[k] == ResultFor(queue[k], b.pays[queue[k]], shares[k]))
            && (forall i | 0 <= i < |b.pays| && !IsPendingOf(b.pays[i], payer) :: o.book.pays[i] == b.pays[i])
  {
    hide Queue, BookOk, Drain;
    var ids := Queue(b.pays, payer);
    CeilingStored(b, payer);
    QueueDrainable(b.pays, payer);
    FinalizeParts(b, payer, now);
    DrainPays(b, ids, b.ceils[CeilingInUse(b, payer)].amount, now, payer);
    forall i | 0 <= i < |b.pays| && !IsPendingOf(b.pays[i], payer) ensures i !in ids {
      InQueue(b.pays, payer, i);
    }
  }

  /** What every balance looks like afterwards: the sum of the queue's movements on it. */
  lemma FinalizeBalances(b: Book, payer: UserId, now: Time)
    requires BookOk(b) && Queue(b.pays, payer) != [] && FinalizeForPayer(b, payer, now).Committed?
    requires CeilingInUse(b, payer) < |b.ceils|
    ensures var c := b.ceils[CeilingInUse(b, payer)].amount;
            var bal' := FinalizeForPayer(b, payer, now).book.bal;
            && bal'.Keys == b.bal.Keys
            && (forall a | a in b.bal :: bal'[a] == b.bal[a] + QueueEffect(b.pays, Queue(b.pays, payer), c, a))
  {
    hide Queue, BookOk, Drain, QueueEffect;
    CeilingStored(b, payer);
    QueueDrainable(b.pays, payer);
    FinalizeParts(b, payer, now);
    DrainBalances(b, Queue(b.pays, payer), b.ceils[CeilingInUse(b, payer)].amount, now, payer);
  }

  /** Account by account: the payer's lien pays min(T, C), suspense gets all of T back, no other
      lien moves, no main account loses, and nobody's pending account grows. */
  lemma FinalizeMoves(b: Book, payer: UserId, now: Time, a: Account)
    requires BookOk(b) && Queue(b.pays, payer) != [] && FinalizeForPayer(b, payer, now).Committed?
    requires CeilingInUse(b, payer) < |b.ceils| && a in b.bal
    ensures var c := b.ceils[CeilingInUse(b, payer)].amount;
            var total := PendingTotal(b.pays, payer);
            var bal' := FinalizeForPayer(b, payer, now).book.bal;
            && a in bal'
            && match a
               case LienOf(u) => bal'[a] == b.bal[a] - (if u == payer then Min(total, c) else 0)
               case Suspense => bal'[a] == b.bal[a] + total
               case MainOf(u) => bal'[a] >= b.bal[a]
               case PendingOf(u) => bal'[a] <= b.bal[a]
               case _ => bal'[a] == b.bal[a]
  {
    hide Queue, BookOk, Drain, FinalizeForPayer, QueueEffect, QueueTotal, PendingTotal;
    var ids := Queue(b.pays, payer);
    CeilingStored(b, payer);
    QueueDrainable(b.pays, payer);
    QueueTotalIsPendingTotal(b.pays, payer);
    FinalizeBalances(b, payer, now);
    PositiveAmounts(b, ids, payer);
    QueueMoves(b.pays, ids, b.ceils[CeilingInUse(b, payer)].amount, payer, a);
    assert a in FinalizeForPayer(b, payer, now).book.bal.Keys;
  }

  lemma QueueMoves(pays: seq<Payment>, ids: seq<nat>, c: int, payer: UserId, a: Account)
    requires Drainable(pays, ids, payer) && c >= 0 && forall k | 0 <= k < |ids| :: Amounts(pays, ids)[k] > 0
    ensures match a
            case LienOf(u) => QueueEffect(pays, ids, c, a) == if u == payer then -Min(QueueTotal(pays, ids), c) else 0
            case Suspense => QueueEffect(pays, ids, c, a) == QueueTotal(pays, ids)
            case MainOf(u) => QueueEffect(pays, ids, c, a) >= 0
            case PendingOf(u) => QueueEffect(pays, ids, c, a) <= 0
            case _ => QueueEffect(pays, ids, c, a) == 0
  {
    match a
    case LienOf(u) =>
      if u == payer {
        LienEffect(pays, ids, c, payer);
      } else {
        SumZero(Jobs(pays, ids, c), JobEffect(a));
      }
    case Suspense => SuspenseEffect(pays, ids, c, payer);
    case MainOf(u) => MainEffect(pays, ids, c, payer, u);
    case PendingOf(u) => PendingEffect(pays, ids, c, payer, u);
    case _ => SumZero(Jobs(pays, ids, c), JobEffect(a));
  }

  function ShareOf(): Job -> int { (j: Job) => -j.s.settled }

  lemma LienEffect(pays: seq<Payment>, ids: seq<nat>, c: int, payer: UserId)
    requires Drainable(pays, ids, payer) && c >= 0 && forall k | 0 <= k < |ids| :: Amounts(pays, ids)[k] > 0
    ensures QueueEffect(pays, ids, c, LienOf(payer)) == -Min(QueueTotal(pays, ids), c)
  {
    var jobs, shares := Jobs(pays, ids, c), Shares(Amounts(pays, ids), c);
    GreedyTotal(Amounts(pays, ids), c);
    SumCongruent(jobs, jobs, JobEffect(LienOf(payer)), ShareOf());
    SumNegate(jobs, shares);
  }

  lemma {:induction false} SumNegate(jobs: seq<Job>, shares: seq<Share>)
    requires |jobs| == |shares| && forall k | 0 <= k < |jobs| :: jobs[k].s == shares[k]
    ensures Sum(jobs, ShareOf()) == -Sum(shares, SettledIn())
  {
    if jobs != [] {
      SumNegate(jobs[..|jobs| - 1], shares[..|shares| - 1]);
    }
  }

  lemma SuspenseEffect(pays: seq<Payment>, ids: seq<nat>, c: int, payer: UserId)
    requires Drainable(pays, ids, payer)
    ensures QueueEffect(pays, ids, c, Suspense) == QueueTotal(pays, ids)
  {
    var amounts := Amounts(pays, ids);
    assert amounts[..|ids|] == amounts;
    SumCongruent(Jobs(pays, ids, c), amounts, JobEffect(Suspense), Identity());
  }

  function Drained(u: UserId): Job -> int { (j: Job) => if j.p.payee == u then j.p.amount else 0 }

  lemma PendingEffect(pays: seq<Payment>, ids: seq<nat>, c: int, payer: UserId, u: UserId)
    requires Drainable(pays, ids, payer) && forall k | 0 <= k < |ids| :: Amounts(pays, ids)[k] > 0
    ensures QueueEffect(pays, ids, c, PendingOf(u)) <= 0
  {
    var jobs := Jobs(pays, ids, c);
    SumNonneg(jobs, Drained(u));
    SumAdd(jobs, JobEffect(PendingOf(u)), Drained(u), Zero());
    SumZero(jobs, Zero());
  }

  function Zero(): Job -> int { (j: Job) => 0 }

  lemma MainEffect(pays: seq<Payment>, ids: seq<nat>, c: int, payer: UserId, u: UserId)
    requires Drainable(pays, ids, payer) && c >= 0 && forall k | 0 <= k < |ids| :: Amounts(pays, ids)[k] > 0
    ensures QueueEffect(pays, ids, c, MainOf(u)) >= 0
  {
    var amounts := Amounts(pays, ids);
    forall k | 0 <= k < |ids| ensures JobEffect(MainOf(u))(Jobs(pays, ids, c)[k]) >= 0 {
      GreedyClosedForm(amounts, c, k);
      assert amounts[..k + 1][..k] == amounts[..k];
    }
    SumNonneg(Jobs(pays, ids, c), JobEffect(MainOf(u)));
  }

  /** Nothing of the payer is left pending, so a redelivered finalize finds nothing to do. */
  lemma FinalizeIdempotent(b: Book, payer: UserId, now: Time, later: Time)
    requires BookOk(b) && FinalizeForPayer(b, payer, now).Committed?
    ensures var b' := FinalizeForPayer(b, payer, now).book;
            && FinalizeForPayer(b', payer, later) == Committed(b', [])
            && (forall i | 0 <= i < |b'.pays| :: !IsPendingOf(b'.pays[i], payer))
  {
    hide BookOk, Drain, Shares, Queue;
    var b' := FinalizeForPayer(b, payer, now).book;
    QueueEmpty(b'.pays, payer);
    if Queue(b.pays, payer) != [] {
      CeilingStored(b, payer);
      FinalizePays(b, payer, now);
      forall i | 0 <= i < |b'.pays| ensures !IsPendingOf(b'.pays[i], payer) {
        InQueue(b.pays, payer, i);
        if IsPendingOf(b.pays[i], payer) {
          var k :| 0 <= k < |Queue(b.pays, payer)| && Queue(b.pays, payer)[k] == i;
          SharesDecide(Amounts(b.pays, Queue(b.pays, payer)), b.ceils[CeilingInUse(b, payer)].amount, k);
        }
      }
    }
  }

  lemma {:induction false} SharesDecide(amounts: seq<int>, c: int, k: nat)
    requires k < |amounts|
    ensures Shares(amounts, c)[k].status in {Settled, PartiallySettled}
    decreases |amounts|
  {
    if k > 0 {
      SharesDecide(amounts[1..], Allocate(amounts[0], c).left, k - 1);
    }
  }
}
