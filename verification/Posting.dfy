/** Double-entry posting: a list of legs is written to the ledger and the same legs are
    applied, in the same order, to the stored balances. */
module Posting {
  import opened Basics
  import opened Domain

  function Signed(l: LedgerLeg): int { if l.dir.Credit? then l.amount else -l.amount }

  /** One balance movement. A debit is guarded by the balance except on suspense, the only
      account the service force-debits. */
  function ApplyLeg(bal: Balances, l: LedgerLeg): Option<Balances> {
    if l.account !in bal then None
    else if l.dir.Debit? && l.account != Suspense && bal[l.account] < l.amount then None
    else Some(bal[l.account := bal[l.account] + Signed(l)])
  }

  function ApplyLegs(bal: Balances, legs: seq<LedgerLeg>): Option<Balances> {
    if legs == [] then Some(bal)
    else
      var bal1 :- ApplyLeg(bal, legs[0]);
      ApplyLegs(bal1, legs[1..])
  }

  function Stamp(txn: nat, legs: seq<LedgerLeg>): (es: seq<Entry>)
    ensures |es| == |legs|
    ensures forall i | 0 <= i < |legs| :: es[i] == Entry(txn, legs[i])
  {
    seq(|legs|, i requires 0 <= i < |legs| => Entry(txn, legs[i]))
  }

  /** At least two legs, all positive: what the insert path checks before any row is written. */
  predicate PostableLegs(legs: seq<LedgerLeg>) {
    |legs| >= 2 && forall i | 0 <= i < |legs| :: legs[i].amount > 0
  }

  function Post(b: Book, txn: nat, legs: seq<LedgerLeg>): Option<Book> {
    if !PostableLegs(legs) then None
    else
      var bal :- ApplyLegs(b.bal, legs);
      Some(b.(bal := bal, ledger := b.ledger + Stamp(txn, legs)))
  }

  function LegAt(a: Account): LedgerLeg -> int {
    (l: LedgerLeg) => if l.account == a then Signed(l) else 0
  }

  function EntryAt(a: Account): Entry -> int {
    (e: Entry) => if e.leg.account == a then Signed(e.leg) else 0
  }

  function SignedOf(): LedgerLeg -> int { (l: LedgerLeg) => Signed(l) }

  /** Credits minus debits of an account over a list of legs. */
  ghost function NetLegs(legs: seq<LedgerLeg>, a: Account): int { Sum(legs, LegAt(a)) }

  /** Credits minus debits of an account over the whole ledger. */
  ghost function Net(ledger: seq<Entry>, a: Account): int { Sum(ledger, EntryAt(a)) }

  /** Equal debits and credits. */
  ghost predicate Balanced(legs: seq<LedgerLeg>) { Sum(legs, SignedOf()) == 0 }

  /** The legs that hang off one anchor, in posting order. */
  function LegsOf(ledger: seq<Entry>, txn: nat): seq<LedgerLeg> {
    if ledger == [] then []
    else
      var n := |ledger| - 1;
      LegsOf(ledger[..n], txn) + if ledger[n].txn == txn then [ledger[n].leg] else []
  }

  lemma {:induction false} SumHead<T>(s: seq<T>, f: T -> int)
    requires s != []
    ensures Sum(s, f) == f(s[0]) + Sum(s[1..], f)
  {
    SumConcat(s[..1], s[1..], f);
    assert s == s[..1] + s[1..];
    assert s[..1][..0] == [];
  }

  /** Applying legs shifts every balance by exactly its net legs and creates no account. */
  lemma {:induction false} ApplyEffect(bal: Balances, legs: seq<LedgerLeg>)
    requires ApplyLegs(bal, legs).Some?
    ensures ApplyLegs(bal, legs).value.Keys == bal.Keys
    ensures forall a | a in bal :: ApplyLegs(bal, legs).value[a] == bal[a] + NetLegs(legs, a)
    ensures Total(ApplyLegs(bal, legs).value) == Total(bal) + Sum(legs, SignedOf())
    decreases |legs|
  {
    if legs != [] {
      var bal1 := ApplyLeg(bal, legs[0]).value;
      ApplyEffect(bal1, legs[1..]);
      TotalUpdate(bal, legs[0].account, bal[legs[0].account] + Signed(legs[0]));
      forall a | a in bal
        ensures ApplyLegs(bal, legs).value[a] == bal[a] + NetLegs(legs, a)
      {
        SumHead(legs, LegAt(a));
      }
      SumHead(legs, SignedOf());
    }
  }

  /** No guarded account is driven below zero. */
  lemma {:induction false} ApplyNonneg(bal: Balances, legs: seq<LedgerLeg>)
    requires ApplyLegs(bal, legs).Some?
    requires forall i | 0 <= i < |legs| :: legs[i].amount >= 0
    ensures forall a | a in bal && a != Suspense :: bal[a] >= 0 ==>
              a in ApplyLegs(bal, legs).value && ApplyLegs(bal, legs).value[a] >= 0
    decreases |legs|
  {
    if legs != [] {
      ApplyNonneg(ApplyLeg(bal, legs[0]).value, legs[1..]);
    }
  }

  lemma {:induction false} NetStamp(txn: nat, legs: seq<LedgerLeg>, a: Account)
    ensures Net(Stamp(txn, legs), a) == NetLegs(legs, a)
  {
    SumCongruent(Stamp(txn, legs), legs, EntryAt(a), LegAt(a));
  }

  lemma NetPost(ledger: seq<Entry>, txn: nat, legs: seq<LedgerLeg>, a: Account)
    ensures Net(ledger + Stamp(txn, legs), a) == Net(ledger, a) + NetLegs(legs, a)
  {
    SumConcat(ledger, Stamp(txn, legs), EntryAt(a));
    NetStamp(txn, legs, a);
  }

  lemma {:induction false} LegsOfConcat(l1: seq<Entry>, l2: seq<Entry>, txn: nat)
    ensures LegsOf(l1 + l2, txn) == LegsOf(l1, txn) + LegsOf(l2, txn)
    decreases |l2|
  {
    if l2 == [] {
      assert l1 + l2 == l1;
    } else {
      var n := |l2| - 1;
      LegsOfConcat(l1, l2[..n], txn);
      assert (l1 + l2)[..|l1| + n] == l1 + l2[..n];
    }
  }

  lemma {:induction false} LegsOfStamp(t: nat, legs: seq<LedgerLeg>, txn: nat)
    ensures LegsOf(Stamp(t, legs), txn) == if t == txn then legs else []
    decreases |legs|
  {
    if legs != [] {
      var n := |legs| - 1;
      LegsOfStamp(t, legs[..n], txn);
      assert Stamp(t, legs)[..n] == Stamp(t, legs[..n]);
      assert legs == legs[..n] + [legs[n]];
    }
  }

  lemma LegsOfPost(ledger: seq<Entry>, t: nat, legs: seq<LedgerLeg>, txn: nat)
    ensures LegsOf(ledger + Stamp(t, legs), txn) == LegsOf(ledger, txn) + if t == txn then legs else []
  {
    LegsOfConcat(ledger, Stamp(t, legs), txn);
    LegsOfStamp(t, legs, txn);
  }

  /** An anchor nothing was posted under has no legs. */
  lemma {:induction false} LegsOfUnused(ledger: seq<Entry>, txn: nat)
    requires forall i | 0 <= i < |ledger| :: ledger[i].txn != txn
    ensures LegsOf(ledger, txn) == []
  {
    if ledger != [] {
      LegsOfUnused(ledger[..|ledger| - 1], txn);
    }
  }
}
