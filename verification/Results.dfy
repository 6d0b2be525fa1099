/** What a finalize reports, read off the tables it leaves and the money it moves. */
module Results {
  import opened Basics
  import opened Domain
  import opened Finalize
  import opened Invariants
  import opened SettleKeeps
  import opened Allocation
  import opened Draining
  import opened Finalizing
  import opened SettlementService

  predicate PendingRow(p: Payment, payer: UserId) { p.payer == payer && p.status == Pending }

  /** The result says of a payment what its stored row says. */
  predicate Tells(r: SettlementResult, p: Payment) {
    r.submitted == p.amount && r.settled == p.settled && r.seqNo == p.seqNo && r.status == p.status
    && r.reason == p.reason && r.receiver == p.payee
  }

  /** Of a row only status, settled amount, reason and settlement time are written. */
  predicate WrittenAt(p: Payment, p': Payment, now: Time) {
    p' == p.(status := p'.status, settled := p'.settled, reason := p'.reason, settledAt := Some(now))
  }

  lemma QueueReports(b: Book, payer: UserId, now: Time)
    requires BookOk(b) && FinalizeForPayer(b, payer, now).Committed?
    ensures var o, queue := FinalizeForPayer(b, payer, now), Queue(b.pays, payer);
            && |o.book.pays| == |b.pays| && |o.results| == |queue|
            && (forall k | 0 <= k < |queue| :: queue[k] < |b.pays| && o.results[k].id == queue[k])
  {
    hide BookOk, Drain, Queue, Shares;
    if Queue(b.pays, payer) != [] {
      CeilingStored(b, payer);
      FinalizePays(b, payer, now);
    }
  }

  lemma ResultAt(b: Book, payer: UserId, now: Time, k: nat)
    requires BookOk(b) && FinalizeForPayer(b, payer, now).Committed?
    requires k < |FinalizeForPayer(b, payer, now).results|
    ensures var o := FinalizeForPayer(b, payer, now);
            var r := o.results[k];
            && r.id < |b.pays| == |o.book.pays| && PendingRow(b.pays[r.id], payer)
            && Tells(r, o.book.pays[r.id]) && WrittenAt(b.pays[r.id], o.book.pays[r.id], now)
  {
    QueueReports(b, payer, now);
    QueueDrainable(b.pays, payer);
    hide BookOk, Drain, Queue, Shares;
    CeilingStored(b, payer);
    FinalizePays(b, payer, now);
  }

  /** The results are the payer's pending payments, each once and in sequence order, and each says of
      its payment exactly what the row says that the call leaves; no other row is written. */
  lemma ResultsTell(b: Book, payer: UserId, now: Time)
    requires BookOk(b) && FinalizeForPayer(b, payer, now).Committed?
    ensures var o := FinalizeForPayer(b, payer, now);
            && |o.book.pays| == |b.pays|
            && (forall k | 0 <= k < |o.results| ::
                  var r := o.results[k];
                  && r.id < |b.pays| && PendingRow(b.pays[r.id], payer)
                  && Tells(r, o.book.pays[r.id]) && WrittenAt(b.pays[r.id], o.book.pays[r.id], now))
            && (forall i | 0 <= i < |b.pays| ::
                  if PendingRow(b.pays[i], payer) then exists k :: 0 <= k < |o.results| && o.results[k].id == i
                  else o.book.pays[i] == b.pays[i])
            && (forall j, k | 0 <= j < k < |o.results| :: o.results[j].seqNo < o.results[k].seqNo)
  {
    var o, queue := FinalizeForPayer(b, payer, now), Queue(b.pays, payer);
    QueueReports(b, payer, now);
    forall k | 0 <= k < |o.results|
      ensures var r := o.results[k];
              && r.id < |b.pays| && PendingRow(b.pays[r.id], payer)
              && Tells(r, o.book.pays[r.id]) && WrittenAt(b.pays[r.id], o.book.pays[r.id], now)
    {
      ResultAt(b, payer, now, k);
    }
    forall i | 0 <= i < |b.pays|
      ensures if PendingRow(b.pays[i], payer) then exists k :: 0 <= k < |o.results| && o.results[k].id == i
              else o.book.pays[i] == b.pays[i]
    {
      RowReported(b, payer, now, i);
    }
    forall j, k | 0 <= j < k < |o.results| ensures o.results[j].seqNo < o.results[k].seqNo {
      ReportedInOrder(b, payer, now, j, k);
    }
  }

  lemma RowReported(b: Book, payer: UserId, now: Time, i: nat)
    requires BookOk(b) && FinalizeForPayer(b, payer, now).Committed? && i < |b.pays|
    ensures var o := FinalizeForPayer(b, payer, now);
            && |o.book.pays| == |b.pays|
            && if PendingRow(b.pays[i], payer) then exists k :: 0 <= k < |o.results| && o.results[k].id == i
               else o.book.pays[i] == b.pays[i]
  {
    hide BookOk, Drain, Queue, Shares;
    QueueReports(b, payer, now);
    InQueue(b.pays, payer, i);
    var o, queue := FinalizeForPayer(b, payer, now), Queue(b.pays, payer);
    if PendingRow(b.pays[i], payer) {
      var k :| 0 <= k < |queue| && queue[k] == i;
      assert o.results[k].id == i;
    } else if queue != [] {
      CeilingStored(b, payer);
      FinalizePays(b, payer, now);
    }
  }

  lemma ReportedInOrder(b: Book, payer: UserId, now: Time, j: nat, k: nat)
    requires BookOk(b) && FinalizeForPayer(b, payer, now).Committed?
    requires j < k < |FinalizeForPayer(b, payer, now).results|
    ensures FinalizeForPayer(b, payer, now).results[j].seqNo < FinalizeForPayer(b, payer, now).results[k].seqNo
  {
    QueueReports(b, payer, now);
    ResultAt(b, payer, now, j);
    ResultAt(b, payer, now, k);
    assert UniqueKeys(b.pays);
    hide BookOk, FinalizeForPayer;
    SortSorts(b.pays, PendingIds(b.pays, payer));
    PendingDistinct(b.pays, payer);
  }

  // ------------------------------------------------------------------ the amounts

  function SubmittedIn(): SettlementResult -> int { (r: SettlementResult) => r.submitted }

  function SettledBy(): SettlementResult -> int { (r: SettlementResult) => r.settled }

  /** What one reported settlement moves on an account. */
  function Pays(payer: UserId, a: Account): SettlementResult -> int {
    (r: SettlementResult) =>
      match a
      case LienOf(u) => if u == payer then -r.settled else 0
      case MainOf(u) => if u == r.receiver then r.settled else 0
      case PendingOf(u) => if u == r.receiver then -r.submitted else 0
      case Suspense => r.submitted
      case _ => 0
  }

  lemma ReportedAmounts(b: Book, payer: UserId, now: Time, k: nat)
    requires BookOk(b) && FinalizeForPayer(b, payer, now).Committed?
    requires k <= |FinalizeForPayer(b, payer, now).results|
    ensures |FinalizeForPayer(b, payer, now).results| == |Queue(b.pays, payer)|
    ensures Sum(FinalizeForPayer(b, payer, now).results[..k], SubmittedIn())
         == Prefix(Amounts(b.pays, Queue(b.pays, payer)), k)
  {
    hide BookOk, Drain, Queue, Shares, Sum;
    var o, queue := FinalizeForPayer(b, payer, now), Queue(b.pays, payer);
    QueueReports(b, payer, now);
    if queue != [] {
      CeilingStored(b, payer);
      FinalizePays(b, payer, now);
    }
    SumCongruent<SettlementResult, int>(o.results[..k], Amounts(b.pays, queue)[..k], SubmittedIn(), Identity());
  }

  /** The ceiling the call works against: the one its first payment names. */
  function AgainstCeiling(b: Book, results: seq<SettlementResult>): int
    requires results != [] && results[0].id < |b.pays| && b.pays[results[0].id].ceiling < |b.ceils|
  {
    b.ceils[b.pays[results[0].id].ceiling].amount
  }

  lemma CeilingReported(b: Book, payer: UserId, now: Time)
    requires BookOk(b) && FinalizeForPayer(b, payer, now).Committed?
    requires FinalizeForPayer(b, payer, now).results != []
    ensures Queue(b.pays, payer) != [] && CeilingInUse(b, payer) < |b.ceils|
    ensures var r := FinalizeForPayer(b, payer, now).results[0];
            r.id < |b.pays| && b.pays[r.id].ceiling == CeilingInUse(b, payer)
  {
    hide BookOk, FinalizeForPayer, Queue;
    QueueReports(b, payer, now);
    CeilingStored(b, payer);
  }

  /** A payment is told to have got its part of the running total below the ceiling c, with the status and
      reason that go with it. */
  predicate GotItsPart(r: SettlementResult, before: int, c: int) {
    var through := before + r.submitted;
    && r.settled == Min(through, c) - Min(before, c)
    && r.status == (if through <= c then Settled else PartiallySettled)
    && r.reason == (if through <= c then NoReason
                    else if before >= c then CeilingExhausted
                    else CeilingShortBy(through - c))
  }

  lemma ShareIsItsPart(pays: seq<Payment>, ids: seq<nat>, c: int, k: nat)
    requires k < |ids| && c >= 0 && (forall i | 0 <= i < |ids| :: ids[i] < |pays|)
    requires forall i | 0 <= i < |ids| :: Amounts(pays, ids)[i] > 0
    ensures GotItsPart(ResultFor(ids[k], pays[ids[k]], Shares(Amounts(pays, ids), c)[k]),
              Prefix(Amounts(pays, ids), k), c)
  {
    var amounts := Amounts(pays, ids);
    GreedyClosedForm(amounts, c, k);
    assert amounts[..k + 1][..k] == amounts[..k];
    hide Shares;
  }

  /** Each payment's part is cut out of the running total of the results before it. */
  lemma ResultsShare(b: Book, payer: UserId, now: Time, k: nat)
    requires BookOk(b) && FinalizeForPayer(b, payer, now).Committed?
    requires k < |FinalizeForPayer(b, payer, now).results|
    ensures var rs := FinalizeForPayer(b, payer, now).results;
            && rs[0].id < |b.pays| && b.pays[rs[0].id].ceiling < |b.ceils|
            && GotItsPart(rs[k], Sum(rs[..k], SubmittedIn()), AgainstCeiling(b, rs))
  {
    hide BookOk, Drain, FinalizeForPayer, Queue, Shares, Prefix, Sum, GotItsPart;
    var queue := Queue(b.pays, payer);
    CeilingReported(b, payer, now);
    ReportedAmounts(b, payer, now, k);
    QueueDrainable(b.pays, payer);
    PositiveAmounts(b, queue, payer);
    CeilingStored(b, payer);
    FinalizePays(b, payer, now);
    ShareIsItsPart(b.pays, queue, b.ceils[CeilingInUse(b, payer)].amount, k);
  }

  lemma NothingReported(b: Book, payer: UserId, now: Time)
    ensures Queue(b.pays, payer) == [] ==> FinalizeForPayer(b, payer, now) == Committed(b, [])
  {
  }

  lemma NothingPaid(payer: UserId, a: Account)
    ensures Sum([], Pays(payer, a)) == 0
  {
  }

  /** The reported amounts are the money that moved: on every account the sum of what the results say. */
  lemma ResultsArePaid(b: Book, payer: UserId, now: Time, a: Account)
    requires BookOk(b) && FinalizeForPayer(b, payer, now).Committed? && a in b.bal
    ensures var o := FinalizeForPayer(b, payer, now);
            a in o.book.bal && o.book.bal[a] == b.bal[a] + Sum(o.results, Pays(payer, a))
  {
    var o, queue := FinalizeForPayer(b, payer, now), Queue(b.pays, payer);
    NothingReported(b, payer, now);
    NothingPaid(payer, a);
    hide BookOk, Drain, FinalizeForPayer, Queue, Shares, Sum;
    if queue != [] {
      CeilingStored(b, payer);
      QueueDrainable(b.pays, payer);
      FinalizePays(b, payer, now);
      FinalizeBalances(b, payer, now);
      var c := b.ceils[CeilingInUse(b, payer)].amount;
      var jobs := Jobs(b.pays, queue, c);
      forall k | 0 <= k < |queue| ensures JobEffect(a)(jobs[k]) == Pays(payer, a)(o.results[k]) {
        assert b.pays[queue[k]].payer == payer;
      }
      SumCongruent(jobs, o.results, JobEffect(a), Pays(payer, a));
      assert a in o.book.bal.Keys;
    }
  }

  /** Altogether min(T, C) of the pending total T is reported as settled, and the payer's lien is down
      by exactly that. */
  lemma ResultsTotal(b: Book, payer: UserId, now: Time)
    requires BookOk(b) && FinalizeForPayer(b, payer, now).Committed?
    requires FinalizeForPayer(b, payer, now).results != []
    ensures var o := FinalizeForPayer(b, payer, now);
            && o.results[0].id < |b.pays| && b.pays[o.results[0].id].ceiling < |b.ceils|
            && Sum(o.results, SubmittedIn()) == PendingTotal(b.pays, payer)
            && Sum(o.results, SettledBy()) == Min(PendingTotal(b.pays, payer), AgainstCeiling(b, o.results))
            && LienOf(payer) in b.bal && LienOf(payer) in o.book.bal
            && o.book.bal[LienOf(payer)] == b.bal[LienOf(payer)] - Sum(o.results, SettledBy())
  {
    hide BookOk, Drain, FinalizeForPayer, Queue, Shares, PendingTotal, Prefix, Sum;
    var o, queue := FinalizeForPayer(b, payer, now), Queue(b.pays, payer);
    CeilingReported(b, payer, now);
    CeilingStored(b, payer);
    ReportedAmounts(b, payer, now, |o.results|);
    QueueTotalIsPendingTotal(b.pays, payer);
    QueueDrainable(b.pays, payer);
    PositiveAmounts(b, queue, payer);
    FinalizePays(b, payer, now);
    FinalizeMoves(b, payer, now, LienOf(payer));
    assert o.results[..|o.results|] == o.results;
    var c := b.ceils[CeilingInUse(b, payer)].amount;
    GreedyTotal(Amounts(b.pays, queue), c);
    SumCongruent(o.results, Shares(Amounts(b.pays, queue), c), SettledBy(), SettledIn());
  }

  lemma CeilingTable(b: Book, payer: UserId, now: Time)
    requires BookOk(b) && FinalizeForPayer(b, payer, now).Committed?
    ensures FinalizeForPayer(b, payer, now).book.ceils ==
            if Queue(b.pays, payer) != [] && CeilingInUse(b, payer) < |b.ceils|
               && PendingTotal(b.pays, payer) >= b.ceils[CeilingInUse(b, payer)].amount
            then b.ceils[CeilingInUse(b, payer) := b.ceils[CeilingInUse(b, payer)].(status := Exhausted)] else b.ceils
  {
    NothingReported(b, payer, now);
    hide BookOk, FinalizeForPayer, Queue, Drain, PendingTotal;
    if Queue(b.pays, payer) != [] {
      FinalizeParts(b, payer, now);
    }
  }

  /** The ceiling worked against is exhausted exactly when the pending total reaches it; nothing else
      of any ceiling is written. */
  lemma CeilingsAfter(b: Book, payer: UserId, now: Time, c: nat)
    requires BookOk(b) && FinalizeForPayer(b, payer, now).Committed? && c < |b.ceils|
    ensures var o := FinalizeForPayer(b, payer, now);
            && |o.book.ceils| == |b.ceils|
            && o.book.ceils[c]
               == (if o.results != [] && o.results[0].id < |b.pays| && b.pays[o.results[0].id].ceiling == c
                      && PendingTotal(b.pays, payer) >= b.ceils[c].amount
                   then b.ceils[c].(status := Exhausted) else b.ceils[c])
  {
    hide BookOk, FinalizeForPayer, Queue, Drain, PendingTotal;
    CeilingTable(b, payer, now);
    QueueReports(b, payer, now);
    if Queue(b.pays, payer) != [] {
      CeilingReported(b, payer, now);
    }
  }

  // ------------------------------------------------------------------ next to an error

  /** Result k names the k-th of the listed payments and its greedy share. */
  predicate ReportsShares(rs: seq<SettlementResult>, pays: seq<Payment>, ids: seq<nat>, r: int)
    requires forall k | 0 <= k < |ids| :: ids[k] < |pays|
  {
    |rs| <= |ids| && |Shares(Amounts(pays, ids), r)| == |ids|
    && forall k | 0 <= k < |rs| :: rs[k] == ResultFor(ids[k], pays[ids[k]], Shares(Amounts(pays, ids), r)[k])
  }

  lemma ReportsHead(rs: seq<SettlementResult>, pays: seq<Payment>, pays': seq<Payment>, ids: seq<nat>, r: int,
          payer: UserId)
    requires Drainable(pays, ids, payer) && ids != [] && |pays'| == |pays|
    requires forall i | 0 <= i < |pays| && i != ids[0] :: pays'[i] == pays[i]
    requires (forall k | 0 <= k < |ids[1..]| :: ids[1..][k] < |pays'|)
    requires ReportsShares(rs, pays', ids[1..], Allocate(pays[ids[0]].amount, r).left)
    ensures ReportsShares([ResultFor(ids[0], pays[ids[0]], Allocate(pays[ids[0]].amount, r))] + rs, pays, ids, r)
  {
    TailAmounts(pays, pays', ids, payer);
    var s := Allocate(pays[ids[0]].amount, r);
    assert Shares(Amounts(pays, ids), r) == [s] + Shares(Amounts(pays, ids)[1..], s.left);
    hide Shares, Allocate, Amounts;
    var all := [ResultFor(ids[0], pays[ids[0]], s)] + rs;
    forall k | 0 < k < |all|
      ensures all[k] == ResultFor(ids[k], pays[ids[k]], Shares(Amounts(pays, ids), r)[k])
    {
      assert ids[1..][k - 1] == ids[k];
    }
  }

  /** Cutting the running total off at the ceiling commutes with taking the first share. */
  lemma CutOffShift(amounts: seq<int>, r: int, n: nat)
    requires n < |amounts| && r >= 0 && forall i | 0 <= i < |amounts| :: amounts[i] > 0
    ensures Min(Prefix(amounts, n + 1), r)
         == Allocate(amounts[0], r).settled + Min(Prefix(amounts[1..], n), Allocate(amounts[0], r).left)
  {
    PrefixShift(amounts, n + 1);
    PrefixMonotone(amounts[1..], 0, n);
  }

  lemma NothingYet(amounts: seq<int>)
    ensures Prefix(amounts, 0) == 0
  {
    assert amounts[..0] == [];
  }

  lemma DrainedCases(b: Book, ids: seq<nat>, r: int, now: Time)
    requires ids != [] && forall k | 0 <= k < |ids| :: ids[k] < |b.pays|
    ensures var s := Allocate(b.pays[ids[0]].amount, r);
            var o := SettleOne(b, ids[0], s, now);
            if o.None? then DrainedBefore(b, ids, r, now) == []
            else |o.value.pays| == |b.pays|
                 && DrainedBefore(b, ids, r, now)
                    == [ResultFor(ids[0], b.pays[ids[0]], s)] + DrainedBefore(o.value, ids[1..], s.left, now)
  {
    SettleKeepsLength(b, ids[0], Allocate(b.pays[ids[0]].amount, r), now);
    hide SettleOne;
  }

  /** Where the loop breaks off: after the last payment the lien still covers. */
  lemma {:induction false} DrainedTell(b: Book, ids: seq<nat>, r: int, now: Time, payer: UserId)
    requires BookOk(b) && Drainable(b.pays, ids, payer) && r >= 0 && LienOf(payer) in b.bal
    ensures var rs, amounts := DrainedBefore(b, ids, r, now), Amounts(b.pays, ids);
            && |rs| <= |ids| && ReportsShares(rs, b.pays, ids, r)
            && b.bal[LienOf(payer)] >= Min(Prefix(amounts, |rs|), r)
            && (|rs| < |ids| ==> b.bal[LienOf(payer)] < Min(Prefix(amounts, |rs| + 1), r))
    decreases |ids|
  {
    hide SettleOne, BookOk, ReportsShares, Prefix, Allocate;
    LienNonneg(b, payer);
    NoneReported(b.pays, ids, r);
    NothingYet(Amounts(b.pays, ids));
    if ids != [] {
      var s, amounts := Allocate(b.pays[ids[0]].amount, r), Amounts(b.pays, ids);
      DrainStep(b, ids, r, now, payer);
      PositiveAmounts(b, ids, payer);
      DrainedCases(b, ids, r, now);
      CutOffShift(amounts, r, 0);
      NothingYet(amounts[1..]);
      AllocateOk(b.pays[ids[0]], r);
      var o := SettleOne(b, ids[0], s, now);
      hide DrainedBefore;
      if o.Some? {
        TailAmounts(b.pays, o.value.pays, ids, payer);
        DrainedTell(o.value, ids[1..], s.left, now, payer);
        var rest := DrainedBefore(o.value, ids[1..], s.left, now);
        ReportsHead(rest, b.pays, o.value.pays, ids, r, payer);
        CutOffShift(amounts, r, |rest|);
        if |rest| + 1 < |ids| {
          CutOffShift(amounts, r, |rest| + 1);
        }
      }
    }
  }

  lemma NoneReported(pays: seq<Payment>, ids: seq<nat>, r: int)
    requires forall k | 0 <= k < |ids| :: ids[k] < |pays|
    ensures ReportsShares([], pays, ids, r)
  {
  }

  /** What an aborted call works on, and that it is the drain that breaks off. */
  lemma AbortFacts(b: Book, payer: UserId, now: Time)
    requires BookOk(b) && FinalizeForPayer(b, payer, now).Aborted?
    ensures var queue := Queue(b.pays, payer);
            && queue != [] && queue[0] < |b.pays| && b.pays[queue[0]].ceiling < |b.ceils| && LienOf(payer) in b.bal
            && (var c := b.ceils[b.pays[queue[0]].ceiling].amount;
                && c > 0 && b.bal[LienOf(payer)] < Min(QueueTotal(b.pays, queue), c)
                && UndoneResults(b, payer, now) == DrainedBefore(b, queue, c, now))
  {
    AbortsNonempty(b, payer, now);
    hide BookOk, Drain, DrainedBefore, Queue, FinalizeForPayer;
    FinalizeCommitsIff(b, payer, now);
    CeilingStored(b, payer);
    QueueTotalIsPendingTotal(b.pays, payer);
  }

  lemma AbortsNonempty(b: Book, payer: UserId, now: Time)
    requires FinalizeForPayer(b, payer, now).Aborted?
    ensures Queue(b.pays, payer) != []
  {
  }

  /** Next to an error: the results are a proper beginning of the payer's pending payments in sequence
      order, each with the part it would have got, and they break off where the lien no longer
      covers the running total. */
  lemma UndoneTell(b: Book, payer: UserId, now: Time)
    requires BookOk(b) && FinalizeForPayer(b, payer, now).Aborted?
    ensures var rs, queue := UndoneResults(b, payer, now), Queue(b.pays, payer);
            && |rs| < |queue| && b.pays[queue[0]].ceiling < |b.ceils| && LienOf(payer) in b.bal
            && (var amounts, c := Amounts(b.pays, queue), b.ceils[b.pays[queue[0]].ceiling].amount;
                && Min(Prefix(amounts, |rs|), c) <= b.bal[LienOf(payer)] < Min(Prefix(amounts, |rs| + 1), c)
                && forall k | 0 <= k < |rs| ::
                     var p := b.pays[queue[k]];
                     && rs[k].id == queue[k] && rs[k].seqNo == p.seqNo && rs[k].receiver == p.payee
                     && rs[k].submitted == p.amount && GotItsPart(rs[k], Prefix(amounts, k), c))
  {
    hide BookOk, Drain, DrainedBefore, UndoneResults, FinalizeForPayer, Queue, Prefix, Shares, GotItsPart;
    var rs, queue := UndoneResults(b, payer, now), Queue(b.pays, payer);
    AbortFacts(b, payer, now);
    QueueDrainable(b.pays, payer);
    var amounts, c := Amounts(b.pays, queue), b.ceils[b.pays[queue[0]].ceiling].amount;
    DrainedTell(b, queue, c, now, payer);
    PositiveAmounts(b, queue, payer);
    forall k | 0 <= k < |rs|
      ensures rs[k] == ResultFor(queue[k], b.pays[queue[k]], Shares(amounts, c)[k])
      ensures GotItsPart(rs[k], Prefix(amounts, k), c)
    {
      ShareIsItsPart(b.pays, queue, c, k);
    }
  }
}
