/** What the parts of a batch receipt mean for the rows they are taken from. */
module Receipts {
  import opened Basics
  import opened Domain
  import opened Invariants
  import opened Reconcile

  /** The first submission time is one of the rows', and none is earlier. */
  lemma {:induction false} EarliestMeans(rows: seq<Payment>)
    ensures var e := Earliest(rows);
            if e.None? then forall i | 0 <= i < |rows| :: rows[i].submittedAt == None
            else (exists i :: 0 <= i < |rows| && rows[i].submittedAt == e)
                 && forall i | 0 <= i < |rows| && rows[i].submittedAt.Some? :: e.value <= rows[i].submittedAt.value
  {
    if rows != [] {
      var n := |rows| - 1;
      EarliestMeans(rows[..n]);
      if Earliest(rows[..n]).Some? {
        var i :| 0 <= i < n && rows[..n][i].submittedAt == Earliest(rows[..n]);
        assert rows[i].submittedAt == Earliest(rows[..n]);
      }
    }
  }

  /** The last settlement time is one of the rows', and none is later. */
  lemma {:induction false} LatestMeans(rows: seq<Payment>)
    ensures var e := Latest(rows);
            if e.None? then forall i | 0 <= i < |rows| :: rows[i].settledAt == None
            else (exists i :: 0 <= i < |rows| && rows[i].settledAt == e)
                 && forall i | 0 <= i < |rows| && rows[i].settledAt.Some? :: e.value >= rows[i].settledAt.value
  {
    if rows != [] {
      var n := |rows| - 1;
      LatestMeans(rows[..n]);
      if Latest(rows[..n]).Some? {
        var i :| 0 <= i < n && rows[..n][i].settledAt == Latest(rows[..n]);
        assert rows[i].settledAt == Latest(rows[..n]);
      }
    }
  }

  /** The receiver is the payee of the first row that names one. */
  lemma {:induction false} FirstPayeeMeans(rows: seq<Payment>)
    ensures var u := FirstPayee(rows);
            if u == "" then forall i | 0 <= i < |rows| :: rows[i].payee == ""
            else exists i :: 0 <= i < |rows| && rows[i].payee == u && forall j | 0 <= j < i :: rows[j].payee == ""
  {
    if rows != [] {
      var n := |rows| - 1;
      FirstPayeeMeans(rows[..n]);
      if FirstPayee(rows[..n]) != "" {
        var i :| 0 <= i < n && rows[..n][i].payee == FirstPayee(rows[..n])
                 && forall j | 0 <= j < i :: rows[..n][j].payee == "";
        assert forall j | 0 <= j < i :: rows[j].payee == rows[..n][j].payee;
      } else {
        assert forall j | 0 <= j < n :: rows[j].payee == rows[..n][j].payee;
      }
    }
  }

  function InStatus(s: PaymentStatus): Payment -> bool { (p: Payment) => p.status == s }

  function InFinal(): Payment -> bool { (p: Payment) => p.status != Pending }

  function FinalOne(): Payment -> int { (p: Payment) => if p.status != Pending then 1 else 0 }

  function SettledOf(): Payment -> int { (p: Payment) => p.settled }

  /** For rows as a reachable book stores them: the counts are numbers of rows, none is rejected, every row is
      either counted as settled in full or in part or still pending, and the amount is all that was
      settled. */
  lemma CountsMean(rows: seq<Payment>)
    requires forall i | 0 <= i < |rows| :: StatusShape(rows[i])
    ensures Sum(rows, HasStatus(Settled)) == |Where(rows, InStatus(Settled))|
    ensures Sum(rows, HasStatus(PartiallySettled)) == |Where(rows, InStatus(PartiallySettled))|
    ensures Sum(rows, HasStatus(Rejected)) == 0
    ensures Sum(rows, HasStatus(Settled)) + Sum(rows, HasStatus(PartiallySettled)) == |Where(rows, InFinal())|
    ensures Sum(rows, PaidOut()) == Sum(rows, SettledOf())
  {
    hide Sum, Where;
    SumCounts(rows, InStatus(Settled), HasStatus(Settled));
    SumCounts(rows, InStatus(PartiallySettled), HasStatus(PartiallySettled));
    SumCounts(rows, InFinal(), FinalOne());
    SumZero(rows, HasStatus(Rejected));
    SumAdd(rows, HasStatus(Settled), HasStatus(PartiallySettled), FinalOne());
    SumCongruent(rows, rows, PaidOut(), SettledOf());
  }
}
