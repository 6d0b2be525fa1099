/** Registration, the wallet steps and the demo mint keep every book invariant. */
module WalletKeeps {
  import opened Basics
  import opened Domain
  import opened Posting
  import opened Wallet
  import opened Transfers
  import opened Invariants
  import opened Guards

  /** Accounts the two-phase mirror does not watch. */
  predicate OffMirror(a: Account) { !a.PendingOf? && a != Suspense }

  lemma MoveParts(b: Book, row: TxnRow, from: Account, to: Account, amount: int)
    requires Move(b, row, from, to, amount).Some? && from != to && OffMirror(from) && OffMirror(to)
    ensures amount > 0 && from in b.bal && to in b.bal && b.bal[from] >= amount
    ensures Move(b, row, from, to, amount).value
         == b.(bal := b.bal[from := b.bal[from] - amount][to := b.bal[to] + amount],
               rows := b.rows + [row],
               ledger := b.ledger + Stamp(|b.rows|, [LedgerLeg(from, Debit, amount), LedgerLeg(to, Credit, amount)]))
  {
    var legs := [LedgerLeg(from, Debit, amount), LedgerLeg(to, Credit, amount)];
    assert PostableLegs(legs) && legs[0].amount == amount;
    ApplyPair(b.bal, from, to, amount);
  }

  lemma MoveSucceeds(b: Book, row: TxnRow, from: Account, to: Account, amount: int)
    requires amount > 0 && from != to && from in b.bal && to in b.bal && b.bal[from] >= amount
    ensures Move(b, row, from, to, amount).Some?
  {
    ApplyPair(b.bal, from, to, amount);
  }

  lemma OneRowKeepsRows(rows: seq<TxnRow>, row: TxnRow, np: nat, nt: nat)
    requires RowsOk(rows, np, nt) && row.group == |rows| && !row.source.OfPayment? && !row.source.OfTransfer?
    ensures RowsOk(rows + [row], np, nt)
  {
  }

  function Moved(bal: Balances, from: Account, to: Account, amount: int): Balances
    requires from in bal && to in bal && from != to
  {
    bal[from := bal[from] - amount][to := bal[to] + amount]
  }

  function MoveLegs(from: Account, to: Account, amount: int): seq<LedgerLeg> {
    [LedgerLeg(from, Debit, amount), LedgerLeg(to, Credit, amount)]
  }

  lemma MoveKeepsMoney(bal: Balances, ledger: seq<Entry>, transfers: seq<Transfer>, n: nat, from: Account,
          to: Account, amount: int)
    requires MoneyOk(bal, ledger, transfers, n) && amount > 0
    requires from in bal && to in bal && from != to && bal[from] >= amount
    ensures MoneyOk(Moved(bal, from, to, amount), ledger + Stamp(n, MoveLegs(from, to, amount)), transfers, n + 1)
  {
    var legs := MoveLegs(from, to, amount);
    ApplyPair(bal, from, to, amount);
    assert PostableLegs(legs);
    hide MoneyOk, ApplyLegs, ApplyLeg;
    NetPair(legs[0], legs[1], from);
    MoreRowsKeepMoney(bal, ledger, transfers, n, n + 1);
    PostKeepsMoney(bal, ledger, transfers, n + 1, n, legs);
  }

  lemma MoveKeepsTwoPhase(bal: Balances, pays: seq<Payment>, from: Account, to: Account, amount: int)
    requires TwoPhase(bal, pays) && from in bal && to in bal && from != to && OffMirror(from) && OffMirror(to)
    ensures TwoPhase(Moved(bal, from, to, amount), pays)
  {
  }

  lemma MoveKeepsPayments(bal: Balances, pays: seq<Payment>, n: nat, from: Account, to: Account, amount: int)
    requires PaymentsOk(bal, pays, n) && from in bal && to in bal && from != to
    ensures PaymentsOk(Moved(bal, from, to, amount), pays, n)
  {
    SameAccountsKeepPayments(bal, Moved(bal, from, to, amount), pays, n, n);
  }

  lemma MoveKeepsLinked(rows: seq<TxnRow>, ledger: seq<Entry>, pays: seq<Payment>, transfers: seq<Transfer>,
          row: TxnRow, legs: seq<LedgerLeg>)
    requires LinkedOk(rows, ledger, pays, transfers)
    ensures LinkedOk(rows + [row], ledger + Stamp(|rows|, legs), pays, transfers)
  {
    PostLeavesOthers(ledger, |rows|, legs);
    AppendKeepsLinked(rows, [row], ledger, ledger + Stamp(|rows|, legs), pays, transfers);
  }

  lemma MovePartsKeepBook(b: Book, row: TxnRow, from: Account, to: Account, amount: int)
    requires BookOk(b) && amount > 0 && from in b.bal && to in b.bal && b.bal[from] >= amount
    requires from != to && OffMirror(from) && OffMirror(to)
    requires row.group == |b.rows| && !row.source.OfPayment? && !row.source.OfTransfer?
    ensures BookOk(b.(bal := Moved(b.bal, from, to, amount), rows := b.rows + [row],
                      ledger := b.ledger + Stamp(|b.rows|, MoveLegs(from, to, amount))))
  {
    MoveKeepsMoney(b.bal, b.ledger, b.transfers, |b.rows|, from, to, amount);
    MoveKeepsPayments(b.bal, b.pays, |b.ceils|, from, to, amount);
    MoveKeepsTwoPhase(b.bal, b.pays, from, to, amount);
    OneRowKeepsRows(b.rows, row, |b.pays|, |b.transfers|);
    MoveKeepsLinked(b.rows, b.ledger, b.pays, b.transfers, row, MoveLegs(from, to, amount));
  }

  lemma MoveKeepsBook(b: Book, row: TxnRow, from: Account, to: Account, amount: int)
    requires BookOk(b) && Move(b, row, from, to, amount).Some?
    requires from != to && OffMirror(from) && OffMirror(to)
    requires row.group == |b.rows| && !row.source.OfPayment? && !row.source.OfTransfer?
    ensures BookOk(Move(b, row, from, to, amount).value)
  {
    hide BookOk;
    MoveParts(b, row, from, to, amount);
    MovePartsKeepBook(b, row, from, to, amount);
  }

  /** The ceiling table only matters to a book through its length. */
  lemma CeilingsKeepBook(b: Book, ceils: seq<Ceiling>)
    requires BookOk(b) && |b.ceils| <= |ceils| && CeilingsOk(ceils)
    ensures BookOk(b.(ceils := ceils))
  {
    SameAccountsKeepPayments(b.bal, b.bal, b.pays, |b.ceils|, |ceils|);
  }

  lemma FundKeepsBook(b: Book, user: UserId, amount: int, expiresAt: Time)
    requires BookOk(b) && Fund(b, user, amount, expiresAt).Some?
    ensures BookOk(Fund(b, user, amount, expiresAt).value)
  {
    var ceils := b.ceils + [Ceiling(user, amount, 0, expiresAt, Active, None)];
    assert CeilingsOk(ceils);
    hide BookOk, Move;
    CeilingsKeepBook(b, ceils);
    MoveKeepsBook(b.(ceils := ceils), WalletRow(b, user, OfflineFund, Debit, amount, OfCeiling(|b.ceils|)),
        MainOf(user), LienOf(user), amount);
  }

  /** Changing the state of one ceiling. */
  lemma RestateKeepsBook(b: Book, c: nat, status: CeilingStatus, releaseAfter: Option<Time>)
    requires BookOk(b) && c < |b.ceils|
    ensures BookOk(b.(ceils := b.ceils[c := b.ceils[c].(status := status, releaseAfter := releaseAfter)]))
  {
    CeilingsKeepBook(b, b.ceils[c := b.ceils[c].(status := status, releaseAfter := releaseAfter)]);
  }

  /** What a release does: nothing to the money when nothing is left, one move otherwise. */
  lemma ReleaseParts(b: Book, c: nat, terminal: CeilingStatus, kind: RowKind)
    requires c < |b.ceils|
    ensures var user := b.ceils[c].payer;
            var left := Max(b.ceils[c].amount - SettledTotal(b.pays, c), 0);
            var row := WalletRow(b, user, kind, Credit, left, OfCeiling(c));
            var moved := Move(b, row, LienOf(user), MainOf(user), left);
            && (left == 0 ==>
                  Release(b, c, terminal, kind) == Some(b.(ceils := b.ceils[c := b.ceils[c].(status := terminal)])))
            && (left != 0 && Release(b, c, terminal, kind).Some? ==>
                  (moved.Some? && MainOf(user) in b.bal && LienOf(user) in b.bal && moved.value.ceils == b.ceils
                   && Release(b, c, terminal, kind)
                      == Some(moved.value.(ceils := b.ceils[c := b.ceils[c].(status := terminal)]))))
            && (left != 0 && Release(b, c, terminal, kind).None? ==>
                  (moved.None? || MainOf(user) !in b.bal || LienOf(user) !in b.bal))
  {
  }

  lemma ReleaseKeepsBook(b: Book, c: nat, terminal: CeilingStatus, kind: RowKind)
    requires BookOk(b) && c < |b.ceils| && Release(b, c, terminal, kind).Some?
    ensures BookOk(Release(b, c, terminal, kind).value)
  {
    hide BookOk, Move, Release;
    var user := b.ceils[c].payer;
    var left := Max(b.ceils[c].amount - SettledTotal(b.pays, c), 0);
    ReleaseParts(b, c, terminal, kind);
    if left == 0 {
      RestateKeepsBook(b, c, terminal, b.ceils[c].releaseAfter);
    } else {
      var row := WalletRow(b, user, kind, Credit, left, OfCeiling(c));
      MoveKeepsBook(b, row, LienOf(user), MainOf(user), left);
      RestateKeepsBook(Move(b, row, LienOf(user), MainOf(user), left).value, c, terminal, b.ceils[c].releaseAfter);
    }
  }

  lemma RecoverKeepsBook(b: Book, user: UserId, now: Time)
    requires BookOk(b) && Recover(b, user, now).Some?
    ensures BookOk(Recover(b, user, now).value)
  {
    hide BookOk;
    var c := ActiveCeiling(b.ceils, user).value;
    RestateKeepsBook(b, c, RecoveryPending, Recover(b, user, now).value.ceils[c].releaseAfter);
  }

  lemma MintKeepsBook(b: Book, user: UserId, amount: int)
    requires BookOk(b) && Mint(b, user, amount).Some?
    ensures BookOk(Mint(b, user, amount).value)
  {
    hide BookOk, Move;
    MoveKeepsBook(b, TxnRow(|b.rows|, user, None, DemoMint, RowCompleted, Credit, amount, None, OfMint, NoReason),
                  Treasury, MainOf(user), amount);
  }

  lemma UnknownAccountIsFlat(bal: Balances, ledger: seq<Entry>, transfers: seq<Transfer>, a: Account)
    requires LedgerKnows(bal, ledger, transfers) && a !in bal
    ensures Net(ledger, a) == 0 && TransferNet(transfers, a) == 0
  {
    SumZero(ledger, EntryAt(a));
    SumZero(transfers, MovedAt(a));
  }

  function Enrolled(bal: Balances, user: UserId): Balances {
    bal[MainOf(user) := 0][LienOf(user) := 0][PendingOf(user) := 0]
  }

  lemma EnrolTotal(bal: Balances, user: UserId)
    requires MainOf(user) !in bal && LienOf(user) !in bal && PendingOf(user) !in bal
    ensures Total(Enrolled(bal, user)) == Total(bal)
  {
    TotalUpdate(bal, MainOf(user), 0);
    TotalUpdate(bal[MainOf(user) := 0], LienOf(user), 0);
    TotalUpdate(bal[MainOf(user) := 0][LienOf(user) := 0], PendingOf(user), 0);
  }

  lemma EnrolShape(bal: Balances, user: UserId)
    requires Shape(bal)
    ensures Shape(Enrolled(bal, user))
  {
    var bal' := Enrolled(bal, user);
    forall u: UserId
      ensures (MainOf(u) in bal' <==> PendingOf(u) in bal') && (MainOf(u) in bal' <==> LienOf(u) in bal')
    {
      assert MainOf(u) in bal <==> PendingOf(u) in bal;
      assert MainOf(u) in bal <==> LienOf(u) in bal;
    }
  }

  lemma EnrolMatch(bal: Balances, ledger: seq<Entry>, transfers: seq<Transfer>, user: UserId)
    requires LedgerMatch(bal, ledger, transfers) && LedgerKnows(bal, ledger, transfers)
    requires MainOf(user) !in bal && LienOf(user) !in bal && PendingOf(user) !in bal
    ensures LedgerMatch(Enrolled(bal, user), ledger, transfers)
  {
    var bal' := Enrolled(bal, user);
    forall a | a in bal' ensures bal'[a] == Net(ledger, a) + TransferNet(transfers, a) {
      if a !in bal {
        UnknownAccountIsFlat(bal, ledger, transfers, a);
      }
    }
  }

  lemma EnrolTwoPhase(bal: Balances, pays: seq<Payment>, n: nat, user: UserId)
    requires TwoPhase(bal, pays) && PaymentsOk(bal, pays, n) && PendingOf(user) !in bal
    ensures TwoPhase(Enrolled(bal, user), pays)
  {
    var bal' := Enrolled(bal, user);
    forall i | 0 <= i < |pays| ensures OwedTo(user)(pays[i]) == 0 {
      assert PaymentOk(bal, pays[i], n);
    }
    SumZero(pays, OwedTo(user));
    forall u | PendingOf(u) in bal' ensures bal'[PendingOf(u)] == Sum(pays, OwedTo(u)) {
      if u != user {
        assert PendingOf(u) in bal;
      }
    }
  }

  lemma RegisterKeepsBook(b: Book, user: UserId)
    requires BookOk(b) && Register(b, user).Some?
    ensures BookOk(Register(b, user).value)
  {
    EnrolTotal(b.bal, user);
    EnrolShape(b.bal, user);
    EnrolMatch(b.bal, b.ledger, b.transfers, user);
    EnrolTwoPhase(b.bal, b.pays, |b.ceils|, user);
    SameAccountsKeepPayments(b.bal, Enrolled(b.bal, user), b.pays, |b.ceils|, |b.ceils|);
  }
}
