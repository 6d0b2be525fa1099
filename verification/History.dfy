/** What a run may do to a payment, a transfer and an outbox row, and how often. */
module History {
  import opened Basics
  import opened Domain
  import opened Claims
  import opened Finalize
  import opened Wallet
  import opened Transfers
  import opened World
  import opened Invariants
  import opened SettleKeeps
  import opened Allocation
  import opened Draining
  import opened Finalizing
  import opened LienKeeps
  import opened Pipeline
  import opened Runs

  // ------------------------------------------------------------------ payments

  /** One declared edge: identity untouched, settled amount within the amount and full exactly
      when the status says settled. */
  predicate Advances(p: Payment, p': Payment) {
    && p' == p.(status := p'.status, settled := p'.settled, reason := p'.reason, settledAt := p'.settledAt)
    && CanTransitionTo(p.status, p'.status)
    && 0 <= p'.settled <= p.amount && (p'.status == Settled <==> p'.settled == p.amount)
  }

  /** Rows are only appended, as pending; an old row stays or advances along an edge. */
  predicate PaysStep(pays: seq<Payment>, pays': seq<Payment>) {
    && |pays| <= |pays'|
    && (forall i | 0 <= i < |pays| :: pays'[i] == pays[i] || Advances(pays[i], pays'[i]))
    && (forall i | |pays| <= i < |pays'| :: pays'[i].status == Pending && pays'[i].settled == 0)
  }

  lemma {:induction false} SharesOk(pays: seq<Payment>, ids: seq<nat>, c: int, k: nat)
    requires k < |ids| && c >= 0 && (forall k | 0 <= k < |ids| :: ids[k] < |pays| && pays[ids[k]].amount > 0)
    ensures ShareOk(pays[ids[k]], Shares(Amounts(pays, ids), c)[k])
    decreases |ids|
  {
    var amounts := Amounts(pays, ids);
    GreedyClosedForm(amounts, c, k);
    PrefixMonotone(amounts, k, k + 1);
    assert amounts[..k + 1][..k] == amounts[..k];
  }

  lemma FinalizePaysStep(b: Book, payer: UserId, now: Time)
    requires BookOk(b)
    ensures PaysStep(b.pays, BookAfter(b, FinalizeForPayer(b, payer, now)).pays)
  {
    hide BookOk, Queue, Drain, Shares, ShareOk;
    if Queue(b.pays, payer) != [] && FinalizeForPayer(b, payer, now).Committed? {
      CeilingStored(b, payer);
      FinalizePays(b, payer, now);
      hide FinalizeForPayer;
      var queue := Queue(b.pays, payer);
      var pays' := FinalizeForPayer(b, payer, now).book.pays;
      var c := b.ceils[CeilingInUse(b, payer)].amount;
      forall i | 0 <= i < |b.pays| ensures pays'[i] == b.pays[i] || Advances(b.pays[i], pays'[i]) {
        if IsPendingOf(b.pays[i], payer) {
          InQueue(b.pays, payer, i);
          var k :| 0 <= k < |queue| && queue[k] == i;
          forall k | 0 <= k < |queue| ensures b.pays[queue[k]].amount > 0 {
            AmountsPositive(b, queue[k]);
          }
          SharesOk(b.pays, queue, c, k);
          SettledAdvances(b.pays[i], Shares(Amounts(b.pays, queue), c)[k], now);
        }
      }
    }
  }

  lemma SettledAdvances(p: Payment, s: Share, now: Time)
    requires p.status == Pending && p.amount > 0 && ShareOk(p, s)
    ensures Advances(p, After(p, s, now))
  {
  }

  /** Every change a step makes to a stored payment is the pending stamp of a new row or a
      declared edge of the state machine. */
  lemma StepPays(w: World, e: Step)
    requires WorldOk(w)
    ensures PaysStep(w.book.pays, Apply(w, e).book.pays)
  {
    hide BookOk, PipelineOk, WalletStep, SubmitOne, AcceptChecked, ReleasableNow, InitiateTransfer, Tick, DeliverOne,
        Advances;
    match e
    case Submit(item, s, batch, now) => SubmitFrame(w.book, item, s, batch, now);
    case ListExpired(now) =>
    case CheckClaim(x) =>
    case AcceptClaim(x) =>
      if AcceptChecked(w.book, x).Some? {
        AcceptFrame(w.book, x);
      }
    case EnqueueFinalize(u, now) =>
    case Initiate(r, now) => InitiateParts(w.book, w.outbox, r, now);
    case Dispatch(ids, fates, commits, now) =>
    case Deliver(id, crash, now) => DeliverPays(w, id, crash, now);
    case _ =>
      WalletStepApply(w, e);
      if WalletStep(w.book, e).Some? {
        WalletStepFrame(w.book, e);
      }
  }

  lemma DeliverPays(w: World, id: nat, crash: Crash, now: Time)
    requires WorldOk(w)
    ensures PaysStep(w.book.pays, DeliverOne(w, id, crash, now).book.pays)
  {
    if id < |w.outbox| && w.outbox[id].event.FinalizeEvent? {
      hide BookOk, PipelineOk, FinalizeForPayer, DeliverOne, PaysStep;
      DeliverFinalizeParts(w, id, crash, now);
      FinalizePaysStep(w.book, w.outbox[id].event.payer, now);
      SamePays(w.book.pays);
    } else if id < |w.outbox| {
      TransferLeavesPays(w, id, crash, now);
    }
  }

  lemma TransferLeavesPays(w: World, id: nat, crash: Crash, now: Time)
    requires id < |w.outbox| && w.outbox[id].event.TransferEvent?
    ensures DeliverOne(w, id, crash, now).book.pays == w.book.pays
  {
  }

  lemma SamePays(pays: seq<Payment>)
    ensures PaysStep(pays, pays)
  {
  }

  /** How many steps of a run change payment i. */
  ghost function Changes(w: World, es: seq<Step>, i: nat): nat
    decreases |es|
  {
    if es == [] then 0
    else
      var before, after := Run(w, es[..|es| - 1]).book.pays, Run(w, es).book.pays;
      Changes(w, es[..|es| - 1], i) + if i < |before| && i < |after| && after[i] != before[i] then 1 else 0
  }

  predicate SameIdentity(p: Payment, q: Payment) {
    q == p.(status := q.status, settled := q.settled, reason := q.reason, settledAt := q.settledAt)
  }

  lemma OneStepOfHistory(p: Payment, q: Payment)
    requires p == q || Advances(p, q)
    ensures SameIdentity(p, q) && (IsTerminal(p.status) ==> q == p)
    ensures Rank(q.status) + (if p == q then 0 else 1) <= Rank(p.status)
  {
    EdgesLowerRank(p.status, q.status);
  }

  /** Over any run a stored payment keeps its identity, never leaves a terminal state, and changes
      at most as often as its rank allows. */
  lemma {:induction false} PaymentHistory(w: World, es: seq<Step>, i: nat)
    requires WorldOk(w) && i < |w.book.pays|
    ensures i < |Run(w, es).book.pays|
    ensures var p, q := w.book.pays[i], Run(w, es).book.pays[i];
            && SameIdentity(p, q)
            && (IsTerminal(p.status) ==> q == p)
            && Changes(w, es, i) + Rank(q.status) <= Rank(p.status)
    decreases |es|
  {
    hide WorldOk, Apply, Advances, IsTerminal, Rank;
    if es != [] {
      var front := es[..|es| - 1];
      PaymentHistory(w, front, i);
      RunKeeps(w, front);
      StepPays(Run(w, front), es[|es| - 1]);
      OneStepOfHistory(Run(w, front).book.pays[i], Run(w, es).book.pays[i]);
    }
  }

  /** A payment is stamped pending once and finalized at most once, whatever happens. */
  lemma {:induction false} FinalizedAtMostOnce(es: seq<Step>, i: nat)
    ensures Changes(Genesis(), es, i) <= 1
    ensures i < |Run(Genesis(), es).book.pays| ==>
              Changes(Genesis(), es, i) == if Run(Genesis(), es).book.pays[i].status == Pending then 0 else 1
    ensures i >= |Run(Genesis(), es).book.pays| ==> Changes(Genesis(), es, i) == 0
    decreases |es|
  {
    hide WorldOk, Apply, Advances, Genesis;
    if es != [] {
      var front, w := es[..|es| - 1], Run(Genesis(), es[..|es| - 1]);
      FinalizedAtMostOnce(front, i);
      Reachable(front);
      StepPays(w, es[|es| - 1]);
      if i < |w.book.pays| {
        PendingOrFinal(w, i);
        OneStepOfHistory(w.book.pays[i], Run(Genesis(), es).book.pays[i]);
      }
    } else {
      assert Genesis().book.pays == [] by { EmptyGenesis(); }
    }
  }

  lemma PendingOrFinal(w: World, i: nat)
    requires WorldOk(w) && i < |w.book.pays|
    ensures w.book.pays[i].status in {Pending, Settled, PartiallySettled}
  {
    assert PaymentOk(w.book.bal, w.book.pays[i], |w.book.ceils|);
  }
}
