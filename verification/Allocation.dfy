/** The greedy loop of phase 4b in closed form, and its independence of listing order. */
module Allocation {
  import opened Basics
  import opened Domain
  import opened Finalize

  function Identity(): int -> int { (x: int) => x }

  /** The shares the loop hands out, one per amount. */
  function Shares(amounts: seq<int>, remaining: int): (r: seq<Share>)
    ensures |r| == |amounts|
    decreases |amounts|
  {
    if amounts == [] then []
    else
      var s := Allocate(amounts[0], remaining);
      [s] + Shares(amounts[1..], s.left)
  }

  /** The sum of the first k amounts. */
  ghost function Prefix(amounts: seq<int>, k: nat): int
    requires k <= |amounts|
  {
    Sum(amounts[..k], Identity())
  }

  lemma {:induction false} PrefixShift(amounts: seq<int>, k: nat)
    requires 0 < k <= |amounts|
    ensures Prefix(amounts, k) == amounts[0] + Prefix(amounts[1..], k - 1)
  {
    if k == 1 {
      assert amounts[..1][..0] == [];
      assert amounts[1..][..0] == [];
    } else {
      PrefixShift(amounts, k - 1);
      assert amounts[..k][..k - 1] == amounts[..k - 1];
      assert amounts[1..][..k - 1][..k - 2] == amounts[1..][..k - 2];
    }
  }

  lemma {:induction false} PrefixMonotone(amounts: seq<int>, j: nat, k: nat)
    requires j <= k <= |amounts| && forall i | 0 <= i < |amounts| :: amounts[i] > 0
    ensures 0 <= Prefix(amounts, j) <= Prefix(amounts, k)
    ensures j < k ==> Prefix(amounts, j) < Prefix(amounts, k)
    decreases k
  {
    if k > 0 {
      assert amounts[..k][..k - 1] == amounts[..k - 1];
      if j < k {
        PrefixMonotone(amounts, j, k - 1);
      } else {
        PrefixMonotone(amounts, k - 1, k - 1);
      }
    }
  }

  /** Item k settles the part of [P(k), P(k+1)) that lies below the ceiling, and its status and
      reason say whether that is all of it, some of it, or whether nothing was left. */
  lemma {:induction false} GreedyClosedForm(amounts: seq<int>, c: int, k: nat)
    requires k < |amounts| && c >= 0 && forall i | 0 <= i < |amounts| :: amounts[i] > 0
    ensures var s := Shares(amounts, c)[k];
            var before, through := Prefix(amounts, k), Prefix(amounts, k + 1);
            && s.settled == Min(through, c) - Min(before, c)
            && s.left == c - Min(through, c)
            && s.status == (if through <= c then Settled else PartiallySettled)
            && s.reason == (if through <= c then NoReason
                            else if before >= c then CeilingExhausted
                            else CeilingShortBy(through - c))
    decreases |amounts|
  {
    var s := Allocate(amounts[0], c);
    PrefixShift(amounts, k + 1);
    assert amounts[..0] == [];
    if k == 0 {
      assert amounts[1..][..0] == [];
    } else {
      PrefixShift(amounts, k);
      GreedyClosedForm(amounts[1..], s.left, k - 1);
      PrefixMonotone(amounts[1..], 0, k - 1);
      PrefixMonotone(amounts[1..], k - 1, k);
      assert Shares(amounts, c)[k] == Shares(amounts[1..], s.left)[k - 1];
    }
  }

  function SettledIn(): Share -> int { (s: Share) => s.settled }

  /** Altogether exactly min(total, ceiling) is settled. */
  lemma {:induction false} GreedyTotal(amounts: seq<int>, c: int)
    requires c >= 0 && forall i | 0 <= i < |amounts| :: amounts[i] > 0
    ensures Sum(Shares(amounts, c), SettledIn()) == Min(Prefix(amounts, |amounts|), c)
    ensures Remaining(amounts, c) == c - Min(Prefix(amounts, |amounts|), c)
    decreases |amounts|
  {
    if amounts != [] {
      var s := Allocate(amounts[0], c);
      GreedyTotal(amounts[1..], s.left);
      PrefixShift(amounts, |amounts|);
      PrefixMonotone(amounts[1..], 0, |amounts| - 1);
      SumConcat([s], Shares(amounts[1..], s.left), SettledIn());
      assert [s][..0] == [];
    }
  }

  /** What the loop leaves of the ceiling. */
  function Remaining(amounts: seq<int>, c: int): int
    decreases |amounts|
  {
    if amounts == [] then c else Remaining(amounts[1..], Allocate(amounts[0], c).left)
  }

  /** Full settlements, then at most one strict partial, then nothing. */
  lemma GreedyShape(amounts: seq<int>, c: int, j: nat, k: nat)
    requires j < k < |amounts| && c >= 0 && forall i | 0 <= i < |amounts| :: amounts[i] > 0
    ensures Shares(amounts, c)[j].settled < amounts[j] ==> Shares(amounts, c)[k].settled == 0
    ensures Shares(amounts, c)[k].settled > 0 ==> Shares(amounts, c)[j].settled == amounts[j]
  {
    GreedyClosedForm(amounts, c, j);
    GreedyClosedForm(amounts, c, k);
    PrefixMonotone(amounts, j + 1, k);
    PrefixMonotone(amounts, k, k + 1);
    assert amounts[..j + 1][..j] == amounts[..j];
  }

  // ------------------------------------------------------------------ listing order

  predicate SortedBySeq(pays: seq<Payment>, ids: seq<nat>)
    requires forall k | 0 <= k < |ids| :: ids[k] < |pays|
  {
    forall j, k | 0 <= j < k < |ids| :: pays[ids[j]].seqNo <= pays[ids[k]].seqNo
  }

  lemma {:induction false} InsertSorts(pays: seq<Payment>, ids: seq<nat>, id: nat)
    requires id < |pays| && (forall k | 0 <= k < |ids| :: ids[k] < |pays|) && SortedBySeq(pays, ids)
    ensures SortedBySeq(pays, InsertBySeq(pays, ids, id))
    decreases |ids|
  {
    if ids != [] {
      var n := |ids| - 1;
      if pays[ids[n]].seqNo > pays[id].seqNo {
        InsertSorts(pays, ids[..n], id);
        var r := InsertBySeq(pays, ids[..n], id);
        forall k | 0 <= k < |r| ensures pays[r[k]].seqNo <= pays[ids[n]].seqNo {
          assert r[k] in multiset(r);
          assert r[k] in ids[..n] || r[k] == id;
        }
      }
    }
  }

  lemma {:induction false} SortSorts(pays: seq<Payment>, ids: seq<nat>)
    requires forall k | 0 <= k < |ids| :: ids[k] < |pays|
    ensures SortedBySeq(pays, SortBySeq(pays, ids))
    decreases |ids|
  {
    if ids != [] {
      SortSorts(pays, ids[..|ids| - 1]);
      InsertSorts(pays, SortBySeq(pays, ids[..|ids| - 1]), ids[|ids| - 1]);
    }
  }

  /** No two listed payments carry the same sequence number. */
  predicate DistinctSeqs(pays: seq<Payment>, ids: seq<nat>)
    requires forall k | 0 <= k < |ids| :: ids[k] < |pays|
  {
    forall j, k | 0 <= j < k < |ids| :: pays[ids[j]].seqNo != pays[ids[k]].seqNo
  }

  lemma SameLast(pays: seq<Payment>, a: seq<nat>, b: seq<nat>)
    requires (forall k | 0 <= k < |a| :: a[k] < |pays|) && (forall k | 0 <= k < |b| :: b[k] < |pays|)
    requires SortedBySeq(pays, a) && SortedBySeq(pays, b) && DistinctSeqs(pays, a)
    requires multiset(a) == multiset(b) && a != [] && b != []
    ensures a[|a| - 1] == b[|b| - 1]
  {
    var x, y := a[|a| - 1], b[|b| - 1];
    assert x in multiset(a) && y in multiset(b);
    var j :| 0 <= j < |b| && b[j] == x;
    var k :| 0 <= k < |a| && a[k] == y;
    assert pays[b[j]].seqNo <= pays[y].seqNo;
    assert pays[a[k]].seqNo <= pays[x].seqNo;
  }

  lemma SameFrontAndLast(a: seq<nat>, b: seq<nat>)
    requires a != [] && b != [] && a[..|a| - 1] == b[..|b| - 1] && a[|a| - 1] == b[|b| - 1]
    ensures a == b
  {
    assert a == a[..|a| - 1] + [a[|a| - 1]];
    assert b == b[..|b| - 1] + [b[|b| - 1]];
  }

  lemma {:induction false} SortedListsAgree(pays: seq<Payment>, a: seq<nat>, b: seq<nat>)
    requires (forall k | 0 <= k < |a| :: a[k] < |pays|) && (forall k | 0 <= k < |b| :: b[k] < |pays|)
    requires SortedBySeq(pays, a) && SortedBySeq(pays, b) && DistinctSeqs(pays, a)
    requires multiset(a) == multiset(b)
    ensures a == b
    decreases |a|
  {
    assert |multiset(a)| == |a| && |multiset(b)| == |b|;
    if a != [] {
      SameLast(pays, a, b);
      MultisetFront(a);
      MultisetFront(b);
      SortedListsAgree(pays, a[..|a| - 1], b[..|b| - 1]);
      SameFrontAndLast(a, b);
    }
  }

  lemma {:induction false} TwoOccurrences(b: seq<nat>, j: nat, k: nat)
    requires j < k < |b| && b[j] == b[k]
    ensures multiset(b)[b[k]] >= 2
  {
    var u, v := b[..k], b[k..];
    assert b == u + v;
    assert u[j] == b[k] && v[0] == b[k];
    assert b[k] in multiset(u) && b[k] in multiset(v);
  }

  lemma DistinctSeqsPermute(pays: seq<Payment>, a: seq<nat>, b: seq<nat>)
    requires (forall k | 0 <= k < |a| :: a[k] < |pays|) && (forall k | 0 <= k < |b| :: b[k] < |pays|)
    requires forall k | 0 <= k < |a| :: forall l | 0 <= l < |a| :: pays[a[k]].seqNo == pays[a[l]].seqNo ==> a[k] == a[l]
    requires multiset(a) == multiset(b) && forall x :: multiset(a)[x] <= 1
    ensures DistinctSeqs(pays, b)
  {
    forall j, k | 0 <= j < k < |b| ensures pays[b[j]].seqNo != pays[b[k]].seqNo {
      assert b[j] in multiset(b) && b[k] in multiset(b);
      assert b[j] in multiset(a) && b[k] in multiset(a);
      assert b[j] != b[k] by {
        if b[j] == b[k] {
          TwoOccurrences(b, j, k);
        }
      }
    }
  }

  lemma PendingDistinct(pays: seq<Payment>, payer: UserId)
    requires forall i, j | 0 <= i < j < |pays| :: !(pays[i].payer == pays[j].payer && pays[i].seqNo == pays[j].seqNo)
    ensures DistinctSeqs(pays, Queue(pays, payer))
  {
    var ids := PendingIds(pays, payer);
    forall x: nat ensures multiset(ids)[x] <= 1 {
      NoDuplicates(ids, x);
    }
    forall k | 0 <= k < |ids|
      ensures forall l | 0 <= l < |ids| :: pays[ids[k]].seqNo == pays[ids[l]].seqNo ==> ids[k] == ids[l]
    {
      assert IsPendingOf(pays[ids[k]], payer);
    }
    DistinctSeqsPermute(pays, ids, Queue(pays, payer));
  }

  /** In whatever order the store lists a payer's pending rows, the loop visits them in the
      same order, because (payer, sequence) is unique. */
  lemma QueueIgnoresListing(pays: seq<Payment>, payer: UserId, listed: seq<nat>)
    requires forall i, j | 0 <= i < j < |pays| :: !(pays[i].payer == pays[j].payer && pays[i].seqNo == pays[j].seqNo)
    requires multiset(listed) == multiset(PendingIds(pays, payer))
    requires forall k | 0 <= k < |listed| :: listed[k] < |pays|
    ensures SortBySeq(pays, listed) == Queue(pays, payer)
  {
    PendingDistinct(pays, payer);
    SortSorts(pays, PendingIds(pays, payer));
    SortSorts(pays, listed);
    SortedListsAgree(pays, Queue(pays, payer), SortBySeq(pays, listed));
  }

  lemma {:induction false} NoDuplicates(ids: seq<nat>, x: nat)
    requires forall k, l | 0 <= k < l < |ids| :: ids[k] < ids[l]
    ensures multiset(ids)[x] <= 1
  {
    if ids != [] {
      var n := |ids| - 1;
      NoDuplicates(ids[..n], x);
      assert ids == ids[..n] + [ids[n]];
      assert ids[n] !in ids[..n];
      assert ids[n] !in multiset(ids[..n]);
    }
  }
}
