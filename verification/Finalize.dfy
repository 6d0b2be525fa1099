/** Phase 4b: draining a payer's pending payments, in sequence order, against one ceiling. */
module Finalize {
  import opened Basics
  import opened Domain
  import opened Posting

  datatype SettlementResult = SettlementResult(
    id: nat, seqNo: int, submitted: int, settled: int, status: PaymentStatus, reason: Reason, receiver: UserId)

  /** How much of one amount the loop settles out of what is left of the ceiling. */
  datatype Share = Share(settled: int, left: int, status: PaymentStatus, reason: Reason)

  function Allocate(amount: int, remaining: int): Share {
    if remaining <= 0 then Share(0, remaining, PartiallySettled, CeilingExhausted)
    else if amount <= remaining then Share(amount, remaining - amount, Settled, NoReason)
    else Share(remaining, 0, PartiallySettled, CeilingShortBy(amount - remaining))
  }

  predicate IsPendingOf(p: Payment, payer: UserId) { p.payer == payer && p.status == Pending }

  /** The ids of a payer's pending payments in table order. */
  function PendingIds(pays: seq<Payment>, payer: UserId): (ids: seq<nat>)
    ensures forall k | 0 <= k < |ids| :: ids[k] < |pays| && IsPendingOf(pays[ids[k]], payer)
    ensures forall i | 0 <= i < |pays| && IsPendingOf(pays[i], payer) :: i in ids
    ensures forall k, l | 0 <= k < l < |ids| :: ids[k] < ids[l]
  {
    if pays == [] then []
    else
      var n := |pays| - 1;
      PendingIds(pays[..n], payer) + if IsPendingOf(pays[n], payer) then [n] else []
  }

  /** Stable insertion by sequence number. */
  function InsertBySeq(pays: seq<Payment>, ids: seq<nat>, id: nat): (r: seq<nat>)
    requires id < |pays| && forall k | 0 <= k < |ids| :: ids[k] < |pays|
    ensures multiset(r) == multiset(ids) + multiset{id}
    ensures forall k | 0 <= k < |r| :: r[k] < |pays|
  {
    if ids == [] then [id]
    else
      var n := |ids| - 1;
      if pays[ids[n]].seqNo <= pays[id].seqNo then ids + [id]
      else
        assert ids == ids[..n] + [ids[n]];
        InsertBySeq(pays, ids[..n], id) + [ids[n]]
  }

  function SortBySeq(pays: seq<Payment>, ids: seq<nat>): (r: seq<nat>)
    requires forall k | 0 <= k < |ids| :: ids[k] < |pays|
    ensures multiset(r) == multiset(ids)
    ensures forall k | 0 <= k < |r| :: r[k] < |pays|
  {
    if ids == [] then []
    else
      var n := |ids| - 1;
      assert ids == ids[..n] + [ids[n]];
      InsertBySeq(pays, SortBySeq(pays, ids[..n]), ids[n])
  }

  /** The order in which 4b visits the payer's pending payments. */
  function Queue(pays: seq<Payment>, payer: UserId): (ids: seq<nat>)
    ensures forall k | 0 <= k < |ids| :: ids[k] < |pays|
  {
    SortBySeq(pays, PendingIds(pays, payer))
  }

  /** Four legs for the settled part, two for the reversed rest. */
  function SettlementLegs(p: Payment, settled: int): seq<LedgerLeg> {
    (if settled > 0 then
       [LedgerLeg(LienOf(p.payer), Debit, settled), LedgerLeg(Suspense, Credit, settled),
        LedgerLeg(PendingOf(p.payee), Debit, settled), LedgerLeg(MainOf(p.payee), Credit, settled)]
     else []) +
    (if p.amount - settled > 0 then
       [LedgerLeg(PendingOf(p.payee), Debit, p.amount - settled), LedgerLeg(Suspense, Credit, p.amount - settled)]
     else [])
  }

  function Finalized(p: Payment, status: PaymentStatus, settled: int, reason: Reason, now: Time): Payment {
    p.(status := status, settled := settled, reason := reason, settledAt := Some(now))
  }

  /** One turn of the 4b loop: ledger, balances, payment row, paired rows. */
  function SettleOne(b: Book, id: nat, share: Share, now: Time): Option<Book>
    requires id < |b.pays|
  {
    var p := b.pays[id];
    if PendingOf(p.payee) !in b.bal || MainOf(p.payee) !in b.bal then None
    else
      var anchor :- AnchorOf(b.rows, OfPayment(id));
      var legs := SettlementLegs(p, share.settled);
      var posted :- if legs == [] then Some(b) else Post(b, anchor, legs);
      Some(posted.(pays := b.pays[id := Finalized(p, share.status, share.settled, share.reason, now)],
                   rows := FlipGroup(b.rows, b.rows[anchor].group, RowCompleted, Some(share.settled), share.reason)))
  }

  datatype Progress = Progress(book: Book, left: int, results: seq<SettlementResult>)

  function ResultFor(id: nat, p: Payment, share: Share): SettlementResult {
    SettlementResult(id, p.seqNo, p.amount, share.settled, share.status, share.reason, p.payee)
  }

  function Drain(b: Book, ids: seq<nat>, remaining: int, now: Time): (r: Option<Progress>)
    requires forall k | 0 <= k < |ids| :: ids[k] < |b.pays|
    ensures r.Some? ==> |r.value.book.pays| == |b.pays| && |r.value.results| == |ids|
    decreases |ids|
  {
    if ids == [] then Some(Progress(b, remaining, []))
    else
      var share := Allocate(b.pays[ids[0]].amount, remaining);
      var b1 :- SettleOne(b, ids[0], share, now);
      var rest :- Drain(b1, ids[1..], share.left, now);
      Some(rest.(results := [ResultFor(ids[0], b.pays[ids[0]], share)] + rest.results))
  }

  datatype Outcome = Committed(book: Book, results: seq<SettlementResult>) | Aborted

  /** The book after the call: an aborted transaction leaves it as it was. */
  function BookAfter(b: Book, o: Outcome): Book { if o.Committed? then o.book else b }

  function Exhaust(ceils: seq<Ceiling>, c: nat): seq<Ceiling>
    requires c < |ceils|
  {
    ceils[c := ceils[c].(status := Exhausted)]
  }

  /** FinalizeForPayer as one transaction. */
  function FinalizeForPayer(b: Book, payer: UserId, now: Time): Outcome {
    var ids := Queue(b.pays, payer);
    if ids == [] then Committed(b, [])
    else if LienOf(payer) !in b.bal then Aborted
    else
      var c := b.pays[ids[0]].ceiling;
      if c >= |b.ceils| then Aborted
      else
        match Drain(b, ids, b.ceils[c].amount, now)
        case None => Aborted
        case Some(pr) =>
          if pr.left == 0 && c < |pr.book.ceils|
              then Committed(pr.book.(ceils := Exhaust(pr.book.ceils, c)), pr.results)
          else Committed(pr.book, pr.results)
  }
}
