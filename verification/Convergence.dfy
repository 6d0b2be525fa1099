/** Claims converge: at one time and one ceiling table, which payments and balances a stream of
    uploads leaves depends only on the set of payments it carries, not on order, repetition,
    carrier or which party submitted; and a resubmission never changes anything. */
module Convergence {
  import opened Basics
  import opened Domain
  import opened Posting
  import opened Claims
  import opened World
  import opened Invariants
  import opened AcceptKeeps
  import opened WalletKeeps
  import opened Runs
  import opened History
  import opened ExactlyOnce

  /** One claim as it reaches the service: through whichever carrier, from either party. */
  datatype Upload = Upload(item: ClaimItem, submitter: UserId, batch: nat)

  function Receive(b: Book, us: seq<Upload>, now: Time): Book {
    if us == [] then b
    else
      var u := us[|us| - 1];
      SubmitOne(Receive(b, us[..|us| - 1], now), u.item, u.submitter, u.batch, now).0
  }

  /** The checks that read neither payments nor balances. */
  predicate Passes(ceils: seq<Ceiling>, u: Upload, now: Time) {
    && Validate(u.item, u.submitter, now) == Pass
    && u.item.ceiling.id < |ceils| && CeilingGate(ceils[u.item.ceiling.id], now) == Pass
  }

  predicate Welcome(b: Book, u: Upload, now: Time) {
    Passes(b.ceils, u, now) && Insertable(b, u.item.payment)
  }

  /** The payments a stream brings that the book can take. */
  function Tokens(b: Book, us: seq<Upload>, now: Time): set<PaymentToken> {
    set i | 0 <= i < |us| && Welcome(b, us[i], now) :: us[i].item.payment
  }

  predicate Conflict(p: PaymentToken, q: PaymentToken) {
    (p.payer == q.payer && p.seqNo == q.seqNo) || (p.payee == q.payee && p.nonce == q.nonce)
  }

  predicate Distinct(ts: set<PaymentToken>) {
    forall p, q | p in ts && q in ts && p != q :: !Conflict(p, q)
  }

  /** First occurrences, in order of arrival. */
  function FirstSeen(b: Book, us: seq<Upload>, now: Time): seq<PaymentToken> {
    if us == [] then []
    else
      var seen, u := FirstSeen(b, us[..|us| - 1], now), us[|us| - 1];
      if Welcome(b, u, now) && u.item.payment !in seen then seen + [u.item.payment] else seen
  }

  lemma TokensPush(b: Book, us: seq<Upload>, now: Time, p: PaymentToken)
    requires us != []
    ensures p in Tokens(b, us, now) <==>
              p in Tokens(b, us[..|us| - 1], now) || (Welcome(b, us[|us| - 1], now) && us[|us| - 1].item.payment == p)
  {
    hide Welcome;
    var n := |us| - 1;
    if p in Tokens(b, us[..n], now) {
      var i :| 0 <= i < n && Welcome(b, us[..n][i], now) && us[..n][i].item.payment == p;
      assert us[i] == us[..n][i];
    }
    if p in Tokens(b, us, now) {
      var i :| 0 <= i < |us| && Welcome(b, us[i], now) && us[i].item.payment == p;
      assert i < n ==> us[..n][i] == us[i];
    }
  }

  lemma {:induction false} FirstSeenIsTokens(b: Book, us: seq<Upload>, now: Time)
    ensures forall p :: p in FirstSeen(b, us, now) <==> p in Tokens(b, us, now)
    ensures forall j, k | 0 <= j < k < |FirstSeen(b, us, now)| :: FirstSeen(b, us, now)[j] != FirstSeen(b, us, now)[k]
  {
    hide Welcome, Tokens;
    if us != [] {
      FirstSeenIsTokens(b, us[..|us| - 1], now);
      forall p ensures p in FirstSeen(b, us, now) <==> p in Tokens(b, us, now) {
        TokensPush(b, us, now, p);
      }
    } else {
      NoTokens(b, now);
    }
  }

  lemma NoTokens(b: Book, now: Time)
    ensures Tokens(b, [], now) == {}
  {
  }

  /** A payment without the name of the party that happened to submit it. */
  function Bare(p: Payment): Payment { p.(submitter := "", batch := None) }

  function BarePays(pays: seq<Payment>): (r: seq<Payment>)
    ensures |r| == |pays| && forall i | 0 <= i < |pays| :: r[i] == Bare(pays[i])
  {
    seq(|pays|, i requires 0 <= i < |pays| => Bare(pays[i]))
  }

  function BareNew(p: PaymentToken, now: Time): Payment { Bare(NewPayment(p, "", 0, now)) }

  function NewPays(ts: seq<PaymentToken>, now: Time): (r: seq<Payment>)
    ensures |r| == |ts| && forall i | 0 <= i < |ts| :: r[i] == BareNew(ts[i], now)
  {
    seq(|ts|, i requires 0 <= i < |ts| => BareNew(ts[i], now))
  }

  /** The book b grown by the payments ts. */
  predicate GrownBy(b: Book, b': Book, ts: seq<PaymentToken>, now: Time) {
    && b'.ceils == b.ceils && b'.bal.Keys == b.bal.Keys
    && BarePays(b'.pays) == BarePays(b.pays) + NewPays(ts, now)
  }

  lemma GrownKeys(b: Book, b': Book, ts: seq<PaymentToken>, now: Time, i: nat)
    requires GrownBy(b, b', ts, now) && i < |b'.pays|
    ensures |b'.pays| == |b.pays| + |ts|
    ensures i < |b.pays| ==> Bare(b'.pays[i]) == Bare(b.pays[i])
    ensures i >= |b.pays| ==> Bare(b'.pays[i]) == BareNew(ts[i - |b.pays|], now)
  {
    assert |BarePays(b'.pays)| == |b.pays| + |ts|;
    assert BarePays(b'.pays)[i] == (BarePays(b.pays) + NewPays(ts, now))[i];
  }

  /** A payment that conflicts with none taken so far is insertable now iff it was at the start. */
  lemma StillInsertable(b: Book, b': Book, ts: seq<PaymentToken>, now: Time, p: PaymentToken)
    requires GrownBy(b, b', ts, now)
    requires forall k | 0 <= k < |ts| :: !Conflict(ts[k], p)
    ensures Insertable(b', p) <==> Insertable(b, p)
  {
    GrownAccounts(b, b', ts, now, MainOf(p.payer));
    GrownAccounts(b, b', ts, now, PendingOf(p.payee));
    forall i | 0 <= i < |b'.pays|
      ensures i < |b.pays| ==> SameKeysAt(b'.pays[i], b.pays[i])
      ensures i >= |b.pays| ==> !(b'.pays[i].payer == p.payer && b'.pays[i].seqNo == p.seqNo)
                                && !(b'.pays[i].payee == p.payee && b'.pays[i].nonce == p.nonce)
    {
      GrownKeys(b, b', ts, now, i);
    }
    if Insertable(b', p) {
      forall i | 0 <= i < |b.pays|
        ensures !(b.pays[i].payer == p.payer && b.pays[i].seqNo == p.seqNo) && !(b.pays[i].payee == p.payee
              && b.pays[i].nonce == p.nonce)
      {
        GrownLength(b, b', ts, now);
        assert SameKeysAt(b'.pays[i], b.pays[i]);
      }
    }
  }

  predicate SameKeysAt(p: Payment, q: Payment) {
    p.payer == q.payer && p.seqNo == q.seqNo && p.payee == q.payee && p.nonce == q.nonce
  }

  lemma GrownLength(b: Book, b': Book, ts: seq<PaymentToken>, now: Time)
    requires GrownBy(b, b', ts, now)
    ensures |b'.pays| == |b.pays| + |ts|
  {
    assert |BarePays(b'.pays)| == |BarePays(b.pays) + NewPays(ts, now)|;
  }

  lemma GrownAccounts(b: Book, b': Book, ts: seq<PaymentToken>, now: Time, a: Account)
    requires GrownBy(b, b', ts, now)
    ensures a in b.bal <==> a in b'.bal
  {
    assert a in b.bal.Keys <==> a in b'.bal.Keys;
  }

  /** Taken once, a payment is found and nothing happens; refused at the start, it stays refused. */
  lemma NoSecondTime(b: Book, b': Book, ts: seq<PaymentToken>, now: Time, p: PaymentToken)
    requires GrownBy(b, b', ts, now) && (p in ts || !Insertable(b, p))
    ensures !Insertable(b', p)
  {
    GrownLength(b, b', ts, now);
    if p in ts {
      var k :| 0 <= k < |ts| && ts[k] == p;
      GrownKeys(b, b', ts, now, |b.pays| + k);
    } else {
      GrownAccounts(b, b', ts, now, MainOf(p.payer));
      GrownAccounts(b, b', ts, now, PendingOf(p.payee));
      forall i | 0 <= i < |b.pays| ensures SameKeysAt(b'.pays[i], b.pays[i]) {
        GrownKeys(b, b', ts, now, i);
      }
    }
  }

  /** In a reachable book a claim is taken exactly when it passes and is insertable. */
  lemma FreshIff(b: Book, u: Upload, now: Time)
    requires BookOk(b)
    ensures SubmitOne(b, u.item, u.submitter, u.batch, now).1.Fresh? <==> Welcome(b, u, now)
  {
    hide BookOk, Accept, Validate, CeilingGate;
    AcceptNeverShort(b, u.item.payment, u.submitter, u.batch, now);
  }

  lemma GrowOne(b: Book, b': Book, b'': Book, ts: seq<PaymentToken>, now: Time, u: Upload)
    requires GrownBy(b, b', ts, now) && b''.ceils == b'.ceils && b''.bal.Keys == b'.bal.Keys
    requires b''.pays == b'.pays + [NewPayment(u.item.payment, u.submitter, u.batch, now)]
    ensures GrownBy(b, b'', ts + [u.item.payment], now)
  {
    var x := NewPayment(u.item.payment, u.submitter, u.batch, now);
    assert BarePays(b'.pays + [x]) == BarePays(b'.pays) + [BareNew(u.item.payment, now)];
    assert NewPays(ts + [u.item.payment], now) == NewPays(ts, now) + [BareNew(u.item.payment, now)];
  }

  /** What a stream leaves: the payments it started with and one for each first-seen token. */
  lemma {:induction false} ReceiveGrows(b: Book, us: seq<Upload>, now: Time)
    requires BookOk(b) && Distinct(Tokens(b, us, now))
    ensures BookOk(Receive(b, us, now)) && GrownBy(b, Receive(b, us, now), FirstSeen(b, us, now), now)
    ensures forall a | a in b.bal && OffMirror(a) ::
              a in Receive(b, us, now).bal && Receive(b, us, now).bal[a] == b.bal[a]
    decreases |us|
  {
    hide BookOk, SubmitOne, Welcome, Insertable, Tokens;
    if us == [] {
      assert BarePays(b.pays) + NewPays([], now) == BarePays(b.pays);
    } else {
      var front, u := us[..|us| - 1], us[|us| - 1];
      var seen := FirstSeen(b, front, now);
      FewerTokens(b, us, now);
      ReceiveGrows(b, front, now);
      var b1 := Receive(b, front, now);
      FirstSeenIsTokens(b, front, now);
      FirstSeenIsTokens(b, us, now);
      WelcomeLater(b, b1, us, now);
      FreshIff(b1, u, now);
      SubmitFrame(b1, u.item, u.submitter, u.batch, now);
      SubmitKeepsBook(b1, u.item, u.submitter, u.batch, now);
      SubmitOffMirror(b1, u.item, u.submitter, u.batch, now);
      if Welcome(b1, u, now) {
        GrowOne(b, b1, Receive(b, us, now), seen, now, u);
      }
    }
  }

  lemma FewerTokens(b: Book, us: seq<Upload>, now: Time)
    requires us != [] && Distinct(Tokens(b, us, now))
    ensures Distinct(Tokens(b, us[..|us| - 1], now))
  {
    FirstSeenIsTokens(b, us[..|us| - 1], now);
    FirstSeenIsTokens(b, us, now);
  }

  lemma WelcomeLater(b: Book, b1: Book, us: seq<Upload>, now: Time)
    requires us != [] && Distinct(Tokens(b, us, now))
    requires GrownBy(b, b1, FirstSeen(b, us[..|us| - 1], now), now)
    ensures var u := us[|us| - 1];
            Welcome(b1, u, now) <==> Welcome(b, u, now) && u.item.payment !in FirstSeen(b, us[..|us| - 1], now)
  {
    var front, u := us[..|us| - 1], us[|us| - 1];
    var seen, p := FirstSeen(b, front, now), u.item.payment;
    FirstSeenIsTokens(b, front, now);
    FirstSeenIsTokens(b, us, now);
    hide Tokens, Insertable;
    if p in seen || !Insertable(b, p) {
      NoSecondTime(b, b1, seen, now, p);
    } else if Passes(b.ceils, u, now) {
      assert p in FirstSeen(b, us, now);
      forall k | 0 <= k < |seen| ensures !Conflict(seen[k], p) {
        assert seen[k] in FirstSeen(b, us, now);
      }
      StillInsertable(b, b1, seen, now, p);
    }
  }

  lemma SubmitOffMirror(b: Book, item: ClaimItem, submitter: UserId, batch: nat, now: Time)
    ensures var b' := SubmitOne(b, item, submitter, batch, now).0;
            b'.bal.Keys == b.bal.Keys && forall a | a in b.bal && OffMirror(a) :: a in b'.bal && b'.bal[a] == b.bal[a]
  {
    SubmitAccounts(b, item, submitter, batch, now);
    hide Accept, Validate;
    var b' := SubmitOne(b, item, submitter, batch, now).0;
    if SubmitOne(b, item, submitter, batch, now).1.Fresh? {
      AcceptParts(b, item.payment, submitter, batch, now);
      ApplyEffect(b.bal, ClaimLegs(item.payment.payee, item.payment.amount));
      forall a | a in b.bal && OffMirror(a) ensures a in b'.bal && b'.bal[a] == b.bal[a] {
        NetClaim(item.payment.payee, item.payment.amount, a);
        assert a in b'.bal.Keys;
      }
    }
  }

  // ------------------------------------------------------------------ order does not matter

  lemma {:induction false} NewPaysPermute(xs: seq<PaymentToken>, ys: seq<PaymentToken>, now: Time)
    requires multiset(xs) == multiset(ys)
    ensures multiset(NewPays(xs, now)) == multiset(NewPays(ys, now))
    decreases |xs|
  {
    if xs == [] {
      assert |multiset(ys)| == 0;
    } else {
      var j := MultisetFind(xs, ys);
      var n := |xs| - 1;
      NewPaysPermute(xs[..n], ys[..j] + ys[j + 1..], now);
      assert NewPays(xs, now) == NewPays(xs[..n], now) + [BareNew(xs[n], now)];
      var pays := NewPays(ys, now);
      MultisetRemove(pays, j);
      assert pays[..j] + pays[j + 1..] == NewPays(ys[..j] + ys[j + 1..], now);
    }
  }

  lemma {:induction false} CountNoDup(xs: seq<PaymentToken>, x: PaymentToken)
    requires forall j, k | 0 <= j < k < |xs| :: xs[j] != xs[k]
    ensures multiset(xs)[x] == if x in xs then 1 else 0
  {
    if xs != [] {
      var n := |xs| - 1;
      CountNoDup(xs[..n], x);
      assert xs == xs[..n] + [xs[n]];
    }
  }

  lemma SameSetSameMultiset(xs: seq<PaymentToken>, ys: seq<PaymentToken>)
    requires forall j, k | 0 <= j < k < |xs| :: xs[j] != xs[k]
    requires forall j, k | 0 <= j < k < |ys| :: ys[j] != ys[k]
    requires forall p :: p in xs <==> p in ys
    ensures multiset(xs) == multiset(ys)
  {
    forall x ensures multiset(xs)[x] == multiset(ys)[x] {
      CountNoDup(xs, x);
      CountNoDup(ys, x);
    }
  }

  /** The two-phase balances follow from the payments. */
  lemma BalancesFollow(bal: Balances, bal': Balances, pays: seq<Payment>, pays': seq<Payment>)
    requires TwoPhase(bal, pays) && TwoPhase(bal', pays') && bal.Keys == bal'.Keys
    requires multiset(BarePays(pays)) == multiset(BarePays(pays'))
    requires forall a | a in bal && OffMirror(a) :: a in bal' && bal[a] == bal'[a]
    ensures bal == bal'
  {
    forall a | a in bal ensures a in bal' && bal[a] == bal'[a] {
      assert a in bal'.Keys;
      SameMirror(bal, bal', pays, pays', a);
    }
  }

  lemma SameMirror(bal: Balances, bal': Balances, pays: seq<Payment>, pays': seq<Payment>, a: Account)
    requires TwoPhase(bal, pays) && TwoPhase(bal', pays') && a in bal && a in bal'
    requires multiset(BarePays(pays)) == multiset(BarePays(pays'))
    ensures !OffMirror(a) ==> bal[a] == bal'[a]
  {
    hide BarePays;
    SameSum(pays, pays', PendingAmount());
    if a.PendingOf? {
      SameSum(pays, pays', OwedTo(a.user));
    }
  }

  lemma MirrorHolds(b: Book)
    requires BookOk(b)
    ensures TwoPhase(b.bal, b.pays)
  {
  }

  lemma SameSum(pays: seq<Payment>, pays': seq<Payment>, f: Payment -> int)
    requires multiset(BarePays(pays)) == multiset(BarePays(pays'))
    requires forall p: Payment :: f(Bare(p)) == f(p)
    ensures Sum(pays, f) == Sum(pays', f)
  {
    SumCongruent(pays, BarePays(pays), f, f);
    SumCongruent(pays', BarePays(pays'), f, f);
    SumPermutation(BarePays(pays), BarePays(pays'), f);
  }

  /** Two streams that bring the same payments leave the same payments and the same balances. */
  lemma ClaimsConverge(b: Book, us: seq<Upload>, vs: seq<Upload>, now: Time)
    requires BookOk(b) && Tokens(b, us, now) == Tokens(b, vs, now) && Distinct(Tokens(b, us, now))
    ensures Receive(b, us, now).bal == Receive(b, vs, now).bal
    ensures multiset(BarePays(Receive(b, us, now).pays)) == multiset(BarePays(Receive(b, vs, now).pays))
  {
    hide BookOk, TwoPhase, Tokens, Distinct, FirstSeen, Receive;
    ReceiveGrows(b, us, now);
    ReceiveGrows(b, vs, now);
    FirstSeenIsTokens(b, us, now);
    FirstSeenIsTokens(b, vs, now);
    var xs, ys := FirstSeen(b, us, now), FirstSeen(b, vs, now);
    forall p ensures p in xs <==> p in ys {
      assert p in xs <==> p in Tokens(b, us, now);
    }
    SameSetSameMultiset(xs, ys);
    NewPaysPermute(xs, ys, now);
    forall a | a in Receive(b, us, now).bal && OffMirror(a)
      ensures a in Receive(b, vs, now).bal && Receive(b, us, now).bal[a] == Receive(b, vs, now).bal[a]
    {
      assert a in b.bal.Keys;
    }
    MirrorHolds(Receive(b, us, now));
    MirrorHolds(Receive(b, vs, now));
    BalancesFollow(Receive(b, us, now).bal, Receive(b, vs, now).bal, Receive(b, us, now).pays,
        Receive(b, vs, now).pays);
  }

  /** Either party of a payment gets the same verdict on it. */
  lemma EitherParty(item: ClaimItem, now: Time)
    ensures Validate(item, item.payment.payer, now) == Validate(item, item.payment.payee, now)
  {
  }

  predicate FromAParty(u: Upload) { u.submitter == u.item.payment.payer || u.submitter == u.item.payment.payee }

  function Items(us: seq<Upload>): set<ClaimItem> { set i | 0 <= i < |us| :: us[i].item }

  /** So a stream of claims from their parties matters only through the set of its items. */
  lemma SameItemsSameTokens(b: Book, us: seq<Upload>, vs: seq<Upload>, now: Time)
    requires forall i | 0 <= i < |us| :: FromAParty(us[i])
    requires forall i | 0 <= i < |vs| :: FromAParty(vs[i])
    requires Items(us) == Items(vs)
    ensures Tokens(b, us, now) == Tokens(b, vs, now)
  {
    TokensWithin(b, us, vs, now);
    TokensWithin(b, vs, us, now);
  }

  lemma TokensWithin(b: Book, us: seq<Upload>, vs: seq<Upload>, now: Time)
    requires forall i | 0 <= i < |us| :: FromAParty(us[i])
    requires forall i | 0 <= i < |vs| :: FromAParty(vs[i])
    requires Items(us) == Items(vs)
    ensures Tokens(b, us, now) <= Tokens(b, vs, now)
  {
    hide Insertable, Validate;
    forall p | p in Tokens(b, us, now) ensures p in Tokens(b, vs, now) {
      var i :| 0 <= i < |us| && Welcome(b, us[i], now) && us[i].item.payment == p;
      assert us[i].item in Items(us) && us[i].item in Items(vs);
      var j :| 0 <= j < |vs| && vs[j].item == us[i].item;
      EitherParty(us[i].item, now);
      assert Welcome(b, vs[j], now);
    }
  }

  /** Distinctness is what order-independence takes: two uploads that conflict but would store
      different payments leave whichever came first. */
  lemma OrderMattersOnConflict(b: Book, u: Upload, v: Upload, now: Time)
    requires BookOk(b) && Welcome(b, u, now) && Welcome(b, v, now)
    requires BareNew(u.item.payment, now) != BareNew(v.item.payment, now)
    ensures multiset(BarePays(Receive(b, [u, v], now).pays)) == multiset(BarePays(Receive(b, [v, u], now).pays))
            <==> !Conflict(u.item.payment, v.item.payment)
  {
    hide BookOk, Receive, Welcome;
    var p, q := u.item.payment, v.item.payment;
    if Conflict(p, q) {
      FirstWins(b, u, v, now);
      FirstWins(b, v, u, now);
      var base, x, y := multiset(BarePays(b.pays)), BareNew(p, now), BareNew(q, now);
      assert (base + multiset{x})[x] != (base + multiset{y})[x];
    } else {
      assert [u, v][1] == v && [v, u][1] == u;
      TwoTokens(b, u, v, now);
      TwoTokens(b, v, u, now);
      ClaimsConverge(b, [u, v], [v, u], now);
    }
  }

  lemma TwoTokens(b: Book, u: Upload, v: Upload, now: Time)
    requires Welcome(b, u, now) && Welcome(b, v, now)
    ensures Tokens(b, [u, v], now) == {u.item.payment, v.item.payment}
  {
    hide Welcome;
    assert [u, v][0] == u && [u, v][1] == v;
  }

  lemma FirstWins(b: Book, u: Upload, v: Upload, now: Time)
    requires BookOk(b) && Welcome(b, u, now) && Conflict(u.item.payment, v.item.payment)
    ensures multiset(BarePays(Receive(b, [u, v], now).pays)) == multiset(BarePays(b.pays))
            + multiset{BareNew(u.item.payment, now)}
  {
    hide BookOk, SubmitOne;
    assert [u, v][..1] == [u] && [u][..0] == [] && Receive(b, [], now) == b && [u][|[u]| - 1] == u;
    var b1 := Receive(b, [u], now);
    assert b1 == SubmitOne(b, u.item, u.submitter, u.batch, now).0;
    FreshIff(b, u, now);
    SubmitFrame(b, u.item, u.submitter, u.batch, now);
    SubmitKeepsBook(b, u.item, u.submitter, u.batch, now);
    FreshIff(b1, v, now);
    SubmitFrame(b1, v.item, v.submitter, v.batch, now);
    assert b1.pays[|b.pays|] == NewPayment(u.item.payment, u.submitter, u.batch, now);
    assert !Insertable(b1, v.item.payment);
    assert BarePays(b1.pays) == BarePays(b.pays) + [BareNew(u.item.payment, now)];
  }

  // ------------------------------------------------------------------ resubmission

  lemma FoundByKey(pays: seq<Payment>, i: nat)
    requires i < |pays|
    ensures FindPayment(pays, pays[i].payer, pays[i].seqNo).Some?
  {
  }

  /** Once a payment is stored, no claim under its payer and sequence number ever changes the book
      again, whatever happened in between; it reports the payment's present state or is refused. */
  lemma ResubmissionChangesNothing(w: World, es: seq<Step>, i: nat, item: ClaimItem, submitter: UserId,
          batch: nat, now: Time)
    requires WorldOk(w) && i < |w.book.pays|
    requires item.payment.payer == w.book.pays[i].payer && item.payment.seqNo == w.book.pays[i].seqNo
    ensures SubmitOne(Run(w, es).book, item, submitter, batch, now).0 == Run(w, es).book
    ensures !SubmitOne(Run(w, es).book, item, submitter, batch, now).1.Fresh?
  {
    hide WorldOk, Run, Changes, Validate, Accept;
    PaymentHistory(w, es, i);
    FoundByKey(Run(w, es).book.pays, i);
  }
}
