/** The wallet side of a ceiling and the demo mint: the remaining steps that move money
    between ledger accounts. */
module Wallet {
  import opened Basics
  import opened Domain
  import opened Posting

  const RELEASE_GRACE: Time := 1_800_000_000
  const AUTO_SETTLE_TIMEOUT: Time := 259_200_000_000
  const MINT_MIN := 100
  const MINT_MAX := 50_000_000

  function SettledUnder(c: nat): Payment -> int {
    (p: Payment) => if p.ceiling == c then p.settled else 0
  }

  /** The settled total of a ceiling: the query the release uses. */
  ghost function SettledTotal(pays: seq<Payment>, c: nat): int { Sum(pays, SettledUnder(c)) }

  predicate InFlight(pays: seq<Payment>, c: nat) {
    exists i | 0 <= i < |pays| :: pays[i].ceiling == c && pays[i].status in {Pending, Submitted}
  }

  function ActiveCeiling(ceils: seq<Ceiling>, user: UserId): (c: Option<nat>)
    ensures c.Some? ==> c.value < |ceils| && ceils[c.value].payer == user && ceils[c.value].status == Active
    ensures c.None? ==> forall i | 0 <= i < |ceils| :: !(ceils[i].payer == user && ceils[i].status == Active)
  {
    if ceils == [] then None
    else
      var n := |ceils| - 1;
      if ceils[n].payer == user && ceils[n].status == Active then Some(n) else ActiveCeiling(ceils[..n], user)
  }

  /** The unique index on live ceilings refuses a second one. */
  predicate HasLiveCeiling(ceils: seq<Ceiling>, user: UserId) {
    exists i | 0 <= i < |ceils| :: ceils[i].payer == user && IsLive(ceils[i])
  }

  function WalletRow(b: Book, user: UserId, kind: RowKind, dir: Direction, amount: int, source: Source): TxnRow {
    TxnRow(|b.rows|, user, None, kind, RowCompleted, dir, amount, None, source, NoReason)
  }

  /** A single-party event: its row, its two legs, its two balance moves. */
  function Move(b: Book, row: TxnRow, from: Account, to: Account, amount: int): Option<Book> {
    Post(b.(rows := b.rows + [row]), |b.rows|, [LedgerLeg(from, Debit, amount), LedgerLeg(to, Credit, amount)])
  }

  /** FundOffline: main to lien and a fresh active ceiling. */
  function Fund(b: Book, user: UserId, amount: int, expiresAt: Time): Option<Book> {
    if amount <= 0 || HasLiveCeiling(b.ceils, user) || MainOf(user) !in b.bal || LienOf(user) !in b.bal
       || b.bal[MainOf(user)] < amount
    then None
    else
      var c := |b.ceils|;
      var b1 := b.(ceils := b.ceils + [Ceiling(user, amount, 0, expiresAt, Active, None)]);
      Move(b1, WalletRow(b, user, OfflineFund, Debit, amount, OfCeiling(c)), MainOf(user), LienOf(user), amount)
  }

  /** RecoverOfflineCeiling: quarantine the active ceiling. */
  function Recover(b: Book, user: UserId, now: Time): Option<Book> {
    var c :- ActiveCeiling(b.ceils, user);
    if InFlight(b.pays, c) then None
    else
      var releaseAfter := Max(b.ceils[c].expiresAt, now) + AUTO_SETTLE_TIMEOUT + RELEASE_GRACE;
      Some(b.(ceils := b.ceils[c := b.ceils[c].(status := RecoveryPending, releaseAfter := Some(releaseAfter))]))
  }

  /** releaseCeiling: what the settlements left of the lien goes back to main. */
  ghost function Release(b: Book, c: nat, terminal: CeilingStatus, kind: RowKind): Option<Book>
    requires c < |b.ceils|
  {
    var user := b.ceils[c].payer;
    var remaining := Max(b.ceils[c].amount - SettledTotal(b.pays, c), 0);
    var b1 :-
      if remaining == 0 then Some(b)
      else if MainOf(user) !in b.bal || LienOf(user) !in b.bal then None
      else Move(b, WalletRow(b, user, kind, Credit, remaining, OfCeiling(c)), LienOf(user), MainOf(user), remaining);
    Some(b1.(ceils := b.ceils[c := b.ceils[c].(status := terminal)]))
  }

  /** MoveToMain. */
  ghost function DrainWallet(b: Book, user: UserId): Option<Book> {
    var c :- ActiveCeiling(b.ceils, user);
    if InFlight(b.pays, c) then None else Release(b, c, Revoked, OfflineDrain)
  }

  /** Refresh: drain if there is something to drain, then fund, in one transaction. */
  ghost function Refresh(b: Book, user: UserId, amount: int, expiresAt: Time): Option<Book> {
    if ActiveCeiling(b.ceils, user).None? then Fund(b, user, amount, expiresAt)
    else
      var b1 :- DrainWallet(b, user);
      Fund(b1, user, amount, expiresAt)
  }

  /** A ceiling as the expiry job listed it: its row and the status it had then. */
  datatype Candidate = Candidate(ceiling: nat, status: CeilingStatus)

  predicate Releasable(b: Book, c: nat, now: Time)
    requires c < |b.ceils|
  {
    var ceiling, cutoff := b.ceils[c], now - RELEASE_GRACE;
    && ((ceiling.status.Active? && ceiling.expiresAt < cutoff)
        || (ceiling.status.RecoveryPending? && ceiling.releaseAfter.Some? && ceiling.releaseAfter.value < cutoff))
    && !InFlight(b.pays, c)
  }

  /** What ReleaseOnExpiry reads ahead of its transactions. */
  ghost function ReleasableNow(b: Book, now: Time): set<Candidate> {
    set c: nat | c < |b.ceils| && Releasable(b, c, now) :: Candidate(c, b.ceils[c].status)
  }

  /** The transaction for one candidate: it counts what is in flight again, and takes the status as it
      was listed. */
  ghost function Sweep(b: Book, x: Candidate): Option<Book> {
    if x.ceiling >= |b.ceils| || InFlight(b.pays, x.ceiling) then None
    else if x.status.RecoveryPending? then Release(b, x.ceiling, Revoked, OfflineRecoveryRelease)
    else Release(b, x.ceiling, CeilingExpired, OfflineExpiryRelease)
  }

  /** The operator tool that marks an active ceiling expired, and nothing else. */
  function ForceExpired(b: Book, c: nat): Option<Book> {
    if c >= |b.ceils| || b.ceils[c].status != Active then None
    else Some(b.(ceils := b.ceils[c := b.ceils[c].(status := CeilingExpired)]))
  }

  /** The demo mint: treasury to a user's main account. */
  function Mint(b: Book, user: UserId, amount: int): Option<Book> {
    if amount < MINT_MIN || amount > MINT_MAX || MainOf(user) !in b.bal then None
    else
      Move(b, TxnRow(|b.rows|, user, None, DemoMint, RowCompleted, Credit, amount, None, OfMint, NoReason),
           Treasury, MainOf(user), amount)
  }

  /** Registration creates a user's three empty accounts. */
  function Register(b: Book, user: UserId): Option<Book> {
    if MainOf(user) in b.bal || LienOf(user) in b.bal || PendingOf(user) in b.bal then None
    else Some(b.(bal := b.bal[MainOf(user) := 0][LienOf(user) := 0][PendingOf(user) := 0]))
  }
}
