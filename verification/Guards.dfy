/** When a list of balance moves goes through. */
module Guards {
  import opened Basics
  import opened Domain
  import opened Posting

  lemma ApplyCons(bal: Balances, l: LedgerLeg, legs: seq<LedgerLeg>)
    ensures ApplyLegs(bal, [l] + legs)
         == if ApplyLeg(bal, l).Some? then ApplyLegs(ApplyLeg(bal, l).value, legs) else None
  {
    assert ([l] + legs)[1..] == legs;
  }

  lemma {:induction false} ApplyConcat(bal: Balances, xs: seq<LedgerLeg>, ys: seq<LedgerLeg>)
    ensures ApplyLegs(bal, xs + ys)
         == if ApplyLegs(bal, xs).Some? then ApplyLegs(ApplyLegs(bal, xs).value, ys) else None
    decreases |xs|
  {
    if xs == [] {
      assert xs + ys == ys;
    } else {
      assert (xs + ys)[1..] == xs[1..] + ys;
      if ApplyLeg(bal, xs[0]).Some? {
        ApplyConcat(ApplyLeg(bal, xs[0]).value, xs[1..], ys);
      }
    }
  }

  /** A transfer between two ledger accounts needs both of them and the source's balance. */
  lemma ApplyPair(bal: Balances, from: Account, to: Account, amount: int)
    requires from != to && amount > 0
    ensures var r := ApplyLegs(bal, [LedgerLeg(from, Debit, amount), LedgerLeg(to, Credit, amount)]);
            && (r.Some? <==> from in bal && to in bal && (from != Suspense ==> bal[from] >= amount))
            && (r.Some? ==> r.value == bal[from := bal[from] - amount][to := bal[to] + amount])
  {
    var l1, l2 := LedgerLeg(from, Debit, amount), LedgerLeg(to, Credit, amount);
    assert [l1, l2] == [l1] + [l2] && [l2] == [l2] + [];
    ApplyCons(bal, l1, [l2]);
    if ApplyLeg(bal, l1).Some? {
      ApplyCons(ApplyLeg(bal, l1).value, l2, []);
    }
  }
}
