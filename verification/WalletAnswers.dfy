/** What each wallet step and the mint do, and when: every refusal, and everything a step that goes
    through leaves. */
module WalletAnswers {
  import opened Basics
  import opened Domain
  import opened Posting
  import opened Claims
  import opened Wallet
  import opened Invariants
  import opened Guards
  import opened Acceptance

  /** One row and two legs document a move of money from one account to another. */
  predicate Documented(b: Book, b': Book, from: Account, to: Account, amount: int, user: UserId, kind: RowKind,
          dir: Direction, source: Source)
    requires from in b.bal && to in b.bal
  {
    var n := |b.rows|;
    && b'.bal == b.bal[from := b.bal[from] - amount][to := b.bal[to] + amount]
    && |b'.rows| == n + 1 && b'.rows[..n] == b.rows
    && (var r := b'.rows[n];
        && r.group == n && r.user == user && r.counterparty == None && r.kind == kind && r.direction == dir
        && r.amount == amount && r.status == RowCompleted && r.source == source)
    && b'.ledger == b.ledger + [Entry(n, LedgerLeg(from, Debit, amount)), Entry(n, LedgerLeg(to, Credit, amount))]
    && b'.pays == b.pays && b'.transfers == b.transfers
  }

  lemma MoveExactlyWhen(b: Book, row: TxnRow, from: Account, to: Account, amount: int)
    requires from != to && from != Suspense
    ensures var m := Move(b, row, from, to, amount);
            && (m.Some? <==> amount > 0 && from in b.bal && to in b.bal && b.bal[from] >= amount)
            && (m.Some? ==>
                  m.value == b.(bal := b.bal[from := b.bal[from] - amount][to := b.bal[to] + amount],
                                rows := b.rows + [row],
                                ledger := b.ledger + [Entry(|b.rows|, LedgerLeg(from, Debit, amount)),
                                                      Entry(|b.rows|, LedgerLeg(to, Credit, amount))]))
  {
    var legs := [LedgerLeg(from, Debit, amount), LedgerLeg(to, Credit, amount)];
    assert PostableLegs(legs) <==> amount > 0 by {
      assert legs[0].amount == amount;
    }
    if amount > 0 {
      ApplyPair(b.bal, from, to, amount);
    }
  }

  /** Funding needs a positive amount, no live ceiling and the money, and leaves it on the lien under a
      fresh active ceiling of that amount. */
  lemma FundExactlyWhen(b: Book, u: UserId, amount: int, expiresAt: Time)
    ensures var f := Fund(b, u, amount, expiresAt);
            && (f.Some? <==>
                  amount > 0 && MainOf(u) in b.bal && LienOf(u) in b.bal && b.bal[MainOf(u)] >= amount
                  && forall i | 0 <= i < |b.ceils| ::
                       b.ceils[i].payer == u ==> b.ceils[i].status in {CeilingExpired, Exhausted, Revoked})
            && (f.Some? ==>
                  var b' := f.value;
                  && Documented(b, b', MainOf(u), LienOf(u), amount, u, OfflineFund, Debit, OfCeiling(|b.ceils|))
                  && |b'.ceils| == |b.ceils| + 1 && b'.ceils[..|b.ceils|] == b.ceils
                  && (var c := b'.ceils[|b.ceils|];
                      c.payer == u && c.amount == amount && c.seqStart == 0 && c.expiresAt == expiresAt
                      && c.status == Active && c.releaseAfter == None))
  {
    var c := Ceiling(u, amount, 0, expiresAt, Active, None);
    var row := WalletRow(b, u, OfflineFund, Debit, amount, OfCeiling(|b.ceils|));
    MoveExactlyWhen(b.(ceils := b.ceils + [c]), row, MainOf(u), LienOf(u), amount);
    hide Move, HasLiveCeiling;
    NoLiveMeans(b.ceils, u);
  }

  lemma LiveMeans(c: Ceiling)
    ensures IsLive(c) <==> c.status !in {CeilingExpired, Exhausted, Revoked}
  {
    match c.status
    case Active =>
    case RecoveryPending =>
    case CeilingExpired =>
    case Exhausted =>
    case Revoked =>
  }

  lemma NoLiveMeans(ceils: seq<Ceiling>, u: UserId)
    ensures !HasLiveCeiling(ceils, u) <==>
              forall i | 0 <= i < |ceils| ::
                ceils[i].payer == u ==> ceils[i].status in {CeilingExpired, Exhausted, Revoked}
  {
    forall i | 0 <= i < |ceils| ensures IsLive(ceils[i]) <==> ceils[i].status !in {CeilingExpired, Exhausted, Revoked} {
      LiveMeans(ceils[i]);
    }
  }

  /** Recovering needs an active ceiling with nothing in flight, and closes it until 72 hours and 30
      minutes after its expiry or after now, whichever is later; no money moves. */
  lemma RecoverExactlyWhen(b: Book, u: UserId, now: Time)
    requires OneLivePerPayer(b.ceils)
    ensures var r := Recover(b, u, now);
            && (r.Some? <==>
                  exists c :: 0 <= c < |b.ceils| && b.ceils[c].payer == u && b.ceils[c].status == Active
                              && !InFlight(b.pays, c))
            && (r.Some? ==> r.value == b.(ceils := r.value.ceils) && |r.value.ceils| == |b.ceils|)
            && (r.Some? ==> forall c | 0 <= c < |b.ceils| ::
                  if b.ceils[c].payer == u && b.ceils[c].status == Active
                  then Quarantined(b.ceils[c], r.value.ceils[c], now) else r.value.ceils[c] == b.ceils[c])
  {
    hide InFlight;
    var a := ActiveCeiling(b.ceils, u);
    if a.Some? {
      forall c | 0 <= c < |b.ceils| && b.ceils[c].payer == u && b.ceils[c].status == Active ensures c == a.value {
        OnlyOneActive(b.ceils, c, a.value);
      }
    }
  }

  const HOUR: Time := 60 * MINUTE

  predicate Quarantined(c: Ceiling, c': Ceiling, now: Time) {
    && c' == c.(status := RecoveryPending, releaseAfter := c'.releaseAfter) && c'.releaseAfter.Some?
    && (var quiet := c'.releaseAfter.value - 72 * HOUR - 30 * MINUTE;
        quiet >= c.expiresAt && quiet >= now && quiet in {c.expiresAt, now})
  }

  lemma OnlyOneActive(ceils: seq<Ceiling>, c: nat, d: nat)
    requires OneLivePerPayer(ceils) && c < |ceils| && d < |ceils| && ceils[c].payer == ceils[d].payer
    requires ceils[c].status == Active && ceils[d].status == Active
    ensures c == d
  {
    assert IsLive(ceils[c]) && IsLive(ceils[d]);
  }

  /** What a release of ceiling c leaves: whatever is not settled under it goes from lien to main. */
  ghost predicate Released(b: Book, b': Book, c: nat, terminal: CeilingStatus, kind: RowKind)
    requires c < |b.ceils|
  {
    var u, left := b.ceils[c].payer, b.ceils[c].amount - SettledTotal(b.pays, c);
    && b'.ceils == b.ceils[c := b.ceils[c].(status := terminal)]
    && if left <= 0 then b' == b.(ceils := b'.ceils)
       else LienOf(u) in b.bal && MainOf(u) in b.bal
            && Documented(b, b', LienOf(u), MainOf(u), left, u, kind, Credit, OfCeiling(c))
  }

  lemma ReleaseExactlyWhen(b: Book, c: nat, terminal: CeilingStatus, kind: RowKind)
    requires c < |b.ceils|
    ensures var r := Release(b, c, terminal, kind);
            var u, left := b.ceils[c].payer, b.ceils[c].amount - SettledTotal(b.pays, c);
            && (r.Some? <==>
                  left <= 0 || (LienOf(u) in b.bal && MainOf(u) in b.bal && b.bal[LienOf(u)] >= left))
            && (r.Some? ==> Released(b, r.value, c, terminal, kind))
  {
    hide SettledTotal, Move;
    var u, left := b.ceils[c].payer, b.ceils[c].amount - SettledTotal(b.pays, c);
    MoveExactlyWhen(b, WalletRow(b, u, kind, Credit, left, OfCeiling(c)), LienOf(u), MainOf(u), left);
  }

  /** Moving to main needs an active ceiling with nothing in flight and a lien that covers what is not
      settled under it; the ceiling is revoked. */
  lemma MoveToMainExactlyWhen(b: Book, u: UserId)
    requires OneLivePerPayer(b.ceils)
    ensures var d := DrainWallet(b, u);
            && (d.Some? <==>
                  exists c :: 0 <= c < |b.ceils| && b.ceils[c].payer == u && b.ceils[c].status == Active
                              && !InFlight(b.pays, c) && Release(b, c, Revoked, OfflineDrain).Some?)
            && (d.Some? ==> forall c | 0 <= c < |b.ceils| && b.ceils[c].payer == u && b.ceils[c].status == Active ::
                  Released(b, d.value, c, Revoked, OfflineDrain))
  {
    hide InFlight, Release, Released;
    var a := ActiveCeiling(b.ceils, u);
    if a.Some? {
      forall c | 0 <= c < |b.ceils| && b.ceils[c].payer == u && b.ceils[c].status == Active ensures c == a.value {
        OnlyOneActive(b.ceils, c, a.value);
      }
      ReleaseExactlyWhen(b, a.value, Revoked, OfflineDrain);
    }
  }

  /** A refresh leaves the user one live ceiling, a fresh active one of the amount asked for; an active one
      before it is revoked, and money moves between the user's main account and lien only. */
  lemma RefreshLeaves(b: Book, u: UserId, amount: int, expiresAt: Time)
    requires OneLivePerPayer(b.ceils) && Refresh(b, u, amount, expiresAt).Some?
    ensures var b', n := Refresh(b, u, amount, expiresAt).value, |b.ceils|;
            && |b'.ceils| == n + 1
            && (var c := b'.ceils[n];
                c.payer == u && c.amount == amount && c.expiresAt == expiresAt && c.status == Active)
            && (forall i | 0 <= i < n ::
                  b'.ceils[i] == if b.ceils[i].payer == u && b.ceils[i].status == Active
                                 then b.ceils[i].(status := Revoked) else b.ceils[i])
            && (forall i | 0 <= i < n && b.ceils[i].payer == u ::
                  b'.ceils[i].status in {CeilingExpired, Exhausted, Revoked})
            && b'.bal.Keys == b.bal.Keys && MainOf(u) in b.bal && LienOf(u) in b.bal
            && b'.bal[MainOf(u)] + b'.bal[LienOf(u)] == b.bal[MainOf(u)] + b.bal[LienOf(u)]
            && (forall a | a in b.bal && a != MainOf(u) && a != LienOf(u) :: b'.bal[a] == b.bal[a])
  {
    hide InFlight, Fund, DrainWallet, Release;
    var a := ActiveCeiling(b.ceils, u);
    if a.None? {
      FundExactlyWhen(b, u, amount, expiresAt);
    } else {
      MoveToMainExactlyWhen(b, u);
      var b1 := DrainWallet(b, u).value;
      FundExactlyWhen(b1, u, amount, expiresAt);
      forall c | 0 <= c < |b.ceils| && b.ceils[c].payer == u && b.ceils[c].status == Active ensures c == a.value {
        OnlyOneActive(b.ceils, c, a.value);
      }
      assert Released(b, b1, a.value, Revoked, OfflineDrain);
    }
  }

  /** The transaction for a listed candidate refuses only what is in flight or not covered, and ends the
      ceiling as the listing has it: expired, or revoked out of quarantine. */
  lemma SweepExactlyWhen(b: Book, x: Candidate)
    requires x.ceiling < |b.ceils|
    ensures var s := Sweep(b, x);
            var terminal, kind := if x.status == RecoveryPending then Revoked else CeilingExpired,
                if x.status == RecoveryPending then OfflineRecoveryRelease else OfflineExpiryRelease;
            && (s.Some? <==> !InFlight(b.pays, x.ceiling) && Release(b, x.ceiling, terminal, kind).Some?)
            && (s.Some? ==> Released(b, s.value, x.ceiling, terminal, kind))
  {
    hide InFlight, Release, Released;
    ReleaseExactlyWhen(b, x.ceiling, Revoked, OfflineRecoveryRelease);
    ReleaseExactlyWhen(b, x.ceiling, CeilingExpired, OfflineExpiryRelease);
  }

  /** The mint takes 1 to 500,000 naira out of the treasury. */
  lemma MintExactlyWhen(b: Book, u: UserId, amount: int)
    ensures var m := Mint(b, u, amount);
            && (m.Some? <==>
                  1 * NAIRA <= amount <= 500_000 * NAIRA && MainOf(u) in b.bal && Treasury in b.bal
                  && b.bal[Treasury] >= amount)
            && (m.Some? ==>
                  Documented(b, m.value, Treasury, MainOf(u), amount, u, DemoMint, Credit, OfMint)
                  && m.value.ceils == b.ceils)
  {
    var row := TxnRow(|b.rows|, u, None, DemoMint, RowCompleted, Credit, amount, None, OfMint, NoReason);
    MoveExactlyWhen(b, row, Treasury, MainOf(u), amount);
    hide Move;
  }

  /** Registration takes a newcomer and adds three empty accounts. */
  lemma RegisterExactlyWhen(b: Book, u: UserId)
    requires Shape(b.bal)
    ensures var r := Register(b, u);
            && (r.Some? <==> MainOf(u) !in b.bal)
            && (r.Some? ==>
                  r.value == b.(bal := r.value.bal)
                  && (forall a :: a in r.value.bal <==> a in b.bal || a in {MainOf(u), LienOf(u), PendingOf(u)})
                  && (forall a | a in r.value.bal :: r.value.bal[a] == if a in b.bal then b.bal[a] else 0))
  {
  }

  /** Forcing takes an active ceiling and marks it expired; its lien stays where it is. */
  lemma ForceExactlyWhen(b: Book, c: nat)
    ensures var f := ForceExpired(b, c);
            && (f.Some? <==> c < |b.ceils| && b.ceils[c].status == Active)
            && (f.Some? ==>
                  f.value == b.(ceils := f.value.ceils) && |f.value.ceils| == |b.ceils|
                  && f.value.ceils[c] == b.ceils[c].(status := CeilingExpired)
                  && forall d | 0 <= d < |b.ceils| && d != c :: f.value.ceils[d] == b.ceils[d])
  {
  }

  // ------------------------------------------------------------------ listing and claims

  /** A ceiling is listed for release when nothing is in flight under it and claims on it have been out of
      time for as long as clocks may differ: an active one as soon as its own expiry refuses them, a
      quarantined one 30 minutes after its gate has closed. */
  lemma ListedExactlyWhen(b: Book, x: Candidate, now: Time)
    ensures x in ReleasableNow(b, now) <==>
              && x.ceiling < |b.ceils| && x.status == b.ceils[x.ceiling].status && !InFlight(b.pays, x.ceiling)
              && (var c := b.ceils[x.ceiling];
                  match c.status
                  case Active => now - c.expiresAt > 30 * MINUTE
                  case RecoveryPending => c.releaseAfter.Some? && now - c.releaseAfter.value > 30 * MINUTE
                  case _ => false)
  {
    hide InFlight;
  }

  /** Once listed, and while its row stays as it is, a ceiling takes no claim any more that presents its own
      expiry. */
  lemma ListedTakesNoClaims(b: Book, x: Candidate, listedAt: Time, b': Book, item: ClaimItem, submitter: UserId,
          batch: nat, now: Time)
    requires x in ReleasableNow(b, listedAt)
    requires BookOk(b') && x.ceiling < |b'.ceils| && b'.ceils[x.ceiling] == b.ceils[x.ceiling] && listedAt <= now
    requires item.payment.ceilingId == x.ceiling && item.ceiling.expiresAt == b.ceils[x.ceiling].expiresAt
    ensures !SubmitOne(b', item, submitter, batch, now).1.Fresh?
  {
    hide BookOk, SubmitOne, ReleasableNow, InFlight, KeyStored, Fits;
    ListedExactlyWhen(b, x, listedAt);
    AcceptedExactlyWhen(b', item, submitter, batch, now);
  }

  /** Quarantine loses no claim: whatever is in time by the ceiling's own expiry still finds it open. */
  lemma QuarantineStaysOpen(c: Ceiling, c': Ceiling, recoveredAt: Time, item: ClaimItem, now: Time)
    requires Quarantined(c, c', recoveredAt) && item.ceiling.expiresAt == c.expiresAt && now <= Deadline(item)
    ensures Open(c', now)
  {
  }
}
