/** Reconciliation: the differ between a client's log and the server's rows, the nightly
    ledger check, and the receipt of a settlement batch. */
module Reconcile {
  import opened Basics
  import opened Domain
  import opened Posting
  import opened Wallet
  import opened Transfers
  import opened World
  import opened ExactlyOnce
  import opened LienRuns
  import opened ForeignScenario

  // ------------------------------------------------------------------ keys

  function DigitChar(d: int): char
    requires 0 <= d < 10
  {
    '0' + d as char
  }

  /** The decimal digits of a natural number. */
  function Decimal(n: nat): (s: string)
    ensures s != [] && forall i | 0 <= i < |s| :: '0' <= s[i] <= '9'
  {
    if n < 10 then [DigitChar(n)] else Decimal(n / 10) + [DigitChar(n % 10)]
  }

  function FormatInt(n: int): string { if n < 0 then "-" + Decimal(-n) else Decimal(n) }

  function SeqKey(payer: string, seqNo: int): string { payer + "|" + FormatInt(seqNo) }

  lemma DecimalLength(n: nat)
    ensures |Decimal(n)| == 1 <==> n < 10
  {
  }

  lemma {:induction false} DecimalInjective(m: nat, n: nat)
    requires Decimal(m) == Decimal(n)
    ensures m == n
    decreases m + n
  {
    DecimalLength(m);
    DecimalLength(n);
    var s, t := Decimal(m), Decimal(n);
    assert s[|s| - 1] == DigitChar(m % 10) && t[|t| - 1] == DigitChar(n % 10);
    if m >= 10 {
      assert s[..|s| - 1] == Decimal(m / 10) && t[..|t| - 1] == Decimal(n / 10);
      DecimalInjective(m / 10, n / 10);
    }
  }

  lemma FormatHead(n: int)
    ensures FormatInt(n) != [] && (FormatInt(n)[0] == '-' <==> n < 0)
    ensures forall i | 0 <= i < |FormatInt(n)| :: FormatInt(n)[i] != '|'
  {
  }

  lemma FormatInjective(m: int, n: int)
    requires FormatInt(m) == FormatInt(n)
    ensures m == n
  {
    FormatHead(m);
    FormatHead(n);
    if m < 0 {
      assert FormatInt(m)[1..] == Decimal(-m) && FormatInt(n)[1..] == Decimal(-n);
      DecimalInjective(-m, -n);
    } else {
      DecimalInjective(m, n);
    }
  }

  /** The separator before the number is the last one. */
  lemma LastBar(payer: string, seqNo: int)
    ensures var s := SeqKey(payer, seqNo);
            |payer| < |s| && s[|payer|] == '|' && forall k | |payer| < k < |s| :: s[k] != '|'
  {
    var s := SeqKey(payer, seqNo);
    FormatHead(seqNo);
    hide FormatInt;
    forall k | |payer| < k < |s| ensures s[k] != '|' {
      assert s[k] == FormatInt(seqNo)[k - |payer| - 1];
    }
  }

  /** No two (payer, sequence) pairs share a key, whatever the payer's name contains. */
  lemma SeqKeyInjective(p: string, m: int, q: string, n: int)
    requires SeqKey(p, m) == SeqKey(q, n)
    ensures p == q && m == n
  {
    LastBar(p, m);
    LastBar(q, n);
    hide FormatInt;
    assert |p| == |q|;
    assert p == SeqKey(p, m)[..|p|] && q == SeqKey(q, n)[..|q|];
    assert FormatInt(m) == SeqKey(p, m)[|p| + 1..] && FormatInt(n) == SeqKey(q, n)[|q| + 1..];
    FormatInjective(m, n);
  }

  // ------------------------------------------------------------------ the log diff

  datatype ServerTxn = ServerTxn(id: string, payer: string, seqNo: int, amount: int, status: string)

  /** A blank id or status means the client did not know. */
  datatype ClientEntry = ClientEntry(id: string, payer: string, seqNo: int, amount: int, status: string)

  datatype Finding =
    | AbsentOnServer(id: string)
    | MissingOnClient(id: string)
    | AmountDiffers(id: string, stored: int, claimed: int)
    | StatusDiffers(id: string, server: string, client: string)

  datatype Index = Index(byId: map<string, ServerTxn>, bySeq: map<string, ServerTxn>)

  function Insert(x: Index, t: ServerTxn): Index { Index(x.byId[t.id := t], x.bySeq[SeqKey(t.payer, t.seqNo) := t]) }

  function PayerIndex(ts: seq<ServerTxn>): Index {
    if ts == [] then Index(map[], map[]) else Insert(PayerIndex(ts[..|ts| - 1]), ts[|ts| - 1])
  }

  /** Receiver rows only fill in ids the payer side does not have. */
  function FullIndex(payerSide: seq<ServerTxn>, receiverSide: seq<ServerTxn>): Index {
    if receiverSide == [] then PayerIndex(payerSide)
    else
      var x, t := FullIndex(payerSide, receiverSide[..|receiverSide| - 1]), receiverSide[|receiverSide| - 1];
      if t.id in x.byId then x else Insert(x, t)
  }

  /** The server row an entry speaks of: by id when it carries one, else by payer and sequence. */
  function Resolve(x: Index, e: ClientEntry): Option<ServerTxn> {
    if e.id != "" && e.id in x.byId then Some(x.byId[e.id])
    else if SeqKey(e.payer, e.seqNo) in x.bySeq then Some(x.bySeq[SeqKey(e.payer, e.seqNo)])
    else None
  }

  function EntryFindings(x: Index, e: ClientEntry): seq<Finding> {
    match Resolve(x, e)
    case None => [AbsentOnServer(e.id)]
    case Some(t) =>
      (if e.amount != t.amount then [AmountDiffers(t.id, t.amount, e.amount)] else [])
      + (if e.status != "" && e.status != t.status then [StatusDiffers(t.id, t.status, e.status)] else [])
  }

  function LogFindings(x: Index, log: seq<ClientEntry>): seq<Finding> {
    if log == [] then [] else LogFindings(x, log[..|log| - 1]) + EntryFindings(x, log[|log| - 1])
  }

  function SeenIds(x: Index, log: seq<ClientEntry>): set<string> {
    set i | 0 <= i < |log| && Resolve(x, log[i]).Some? :: Resolve(x, log[i]).value.id
  }

  /** The ids reported missing: each unmatched server row once, in no particular order. */
  ghost predicate ReportsEachOnce(tail: seq<Finding>, ids: set<string>) {
    && (forall k | 0 <= k < |tail| :: tail[k].MissingOnClient? && tail[k].id in ids)
    && (forall id | id in ids :: MissingOnClient(id) in tail)
    && (forall j, k | 0 <= j < k < |tail| :: tail[j] != tail[k])
  }

  method BuildIndex(payerSide: seq<ServerTxn>, receiverSide: seq<ServerTxn>) returns (x: Index)
    ensures x == FullIndex(payerSide, receiverSide)
  {
    hide Insert;
    x := Index(map[], map[]);
    for i := 0 to |payerSide|
      invariant x == PayerIndex(payerSide[..i])
    {
      assert payerSide[..i + 1][..i] == payerSide[..i];
      x := Insert(x, payerSide[i]);
    }
    assert payerSide[..|payerSide|] == payerSide;
    for i := 0 to |receiverSide|
      invariant x == FullIndex(payerSide, receiverSide[..i])
    {
      assert receiverSide[..i + 1][..i] == receiverSide[..i];
      if receiverSide[i].id !in x.byId {
        x := Insert(x, receiverSide[i]);
      }
    }
    assert receiverSide[..|receiverSide|] == receiverSide;
  }

  lemma SeenPush(x: Index, log: seq<ClientEntry>, i: nat)
    requires i < |log|
    ensures SeenIds(x, log[..i + 1])
         == SeenIds(x, log[..i]) + if Resolve(x, log[i]).Some? then {Resolve(x, log[i]).value.id} else {}
  {
    hide Resolve;
    var more := SeenIds(x, log[..i]) + if Resolve(x, log[i]).Some? then {Resolve(x, log[i]).value.id} else {};
    forall id ensures id in SeenIds(x, log[..i + 1]) <==> id in more {
      if id in SeenIds(x, log[..i + 1]) {
        var k :| 0 <= k < i + 1 && Resolve(x, log[..i + 1][k]).Some? && Resolve(x, log[..i + 1][k]).value.id == id;
        assert log[..i + 1][k] == log[k];
        assert k < i ==> log[..i][k] == log[k];
      }
      if id in SeenIds(x, log[..i]) {
        var k :| 0 <= k < i && Resolve(x, log[..i][k]).Some? && Resolve(x, log[..i][k]).value.id == id;
        assert log[..i + 1][k] == log[..i][k];
      }
      assert log[..i + 1][i] == log[i];
    }
  }

  /** Pass 1: what the client reports. */
  method CheckEntries(x: Index, log: seq<ClientEntry>) returns (found: seq<Finding>, seen: set<string>)
    ensures found == LogFindings(x, log) && seen == SeenIds(x, log)
  {
    hide Resolve;
    found, seen := [], {};
    for i := 0 to |log|
      invariant found == LogFindings(x, log[..i]) && seen == SeenIds(x, log[..i])
    {
      assert log[..i + 1][..i] == log[..i];
      SeenPush(x, log, i);
      var e := log[i];
      var server := Resolve(x, e);
      if server.None? {
        found := found + [AbsentOnServer(e.id)];
      } else {
        var t := server.value;
        seen := seen + {t.id};
        ghost var was := found;
        if e.amount != t.amount {
          found := found + [AmountDiffers(t.id, t.amount, e.amount)];
        }
        if e.status != "" && e.status != t.status {
          found := found + [StatusDiffers(t.id, t.status, e.status)];
        }
        assert found == was + EntryFindings(x, e);
      }
    }
    assert log[..|log|] == log;
  }

  /** Pass 2: server rows the client did not mention, in whatever order the map yields them. */
  method CheckMissing(byId: map<string, ServerTxn>, seen: set<string>) returns (tail: seq<Finding>)
    ensures ReportsEachOnce(tail, byId.Keys - seen)
  {
    tail := [];
    var rest := byId.Keys;
    while rest != {}
      invariant rest <= byId.Keys && ReportsEachOnce(tail, byId.Keys - rest - seen)
      decreases |rest|
    {
      var id :| id in rest;
      rest := rest - {id};
      if id !in seen {
        tail := tail + [MissingOnClient(id)];
      }
    }
  }

  /** The whole diff. */
  method DiffClientLog(log: seq<ClientEntry>, payerSide: seq<ServerTxn>, receiverSide: seq<ServerTxn>)
    returns (found: seq<Finding>, ghost tail: seq<Finding>)
    ensures found == LogFindings(FullIndex(payerSide, receiverSide), log) + tail
    ensures ReportsEachOnce(tail,
            FullIndex(payerSide, receiverSide).byId.Keys - SeenIds(FullIndex(payerSide, receiverSide), log))
    ensures found == [] <==> Agrees(FullIndex(payerSide, receiverSide), log)
  {
    var x := BuildIndex(payerSide, receiverSide);
    var first, seen := CheckEntries(x, log);
    var missing := CheckMissing(x.byId, seen);
    found := first + missing;
    tail := missing;
    SoundAndComplete(x, log, tail);
  }

  /** Every entry resolves to a row with its amount and its status, or none given, and every row
      is resolved by some entry. */
  predicate Agrees(x: Index, log: seq<ClientEntry>) {
    && AllAgree(x, log)
    && (forall id | id in x.byId :: Mentioned(x, log, id))
  }

  predicate EntryAgrees(x: Index, e: ClientEntry) {
    && Resolve(x, e).Some? && Resolve(x, e).value.amount == e.amount
    && (e.status == "" || e.status == Resolve(x, e).value.status)
  }

  predicate Mentioned(x: Index, log: seq<ClientEntry>, id: string) {
    exists i | 0 <= i < |log| :: Resolve(x, log[i]).Some? && Resolve(x, log[i]).value.id == id
  }

  lemma EntryClean(x: Index, e: ClientEntry)
    ensures EntryFindings(x, e) == [] <==> EntryAgrees(x, e)
  {
    hide Resolve;
  }

  predicate AllAgree(x: Index, log: seq<ClientEntry>) { forall i | 0 <= i < |log| :: EntryAgrees(x, log[i]) }

  lemma AllAgreePush(x: Index, log: seq<ClientEntry>)
    requires log != []
    ensures AllAgree(x, log) <==> AllAgree(x, log[..|log| - 1]) && EntryAgrees(x, log[|log| - 1])
  {
    hide EntryAgrees;
    var n := |log| - 1;
    assert forall i | 0 <= i < n :: log[..n][i] == log[i];
  }

  lemma {:induction false} LogClean(x: Index, log: seq<ClientEntry>)
    ensures LogFindings(x, log) == [] <==> AllAgree(x, log)
  {
    hide EntryFindings, EntryAgrees, Resolve;
    if log != [] {
      AllAgreePush(x, log);
      hide AllAgree;
      LogClean(x, log[..|log| - 1]);
      EntryClean(x, log[|log| - 1]);
    }
  }

  /** The diff is empty exactly when log and server agree. */
  lemma SoundAndComplete(x: Index, log: seq<ClientEntry>, tail: seq<Finding>)
    requires ReportsEachOnce(tail, x.byId.Keys - SeenIds(x, log))
    ensures LogFindings(x, log) + tail == [] <==> Agrees(x, log)
  {
    LogClean(x, log);
    hide Resolve, LogFindings, EntryAgrees;
    if tail == [] {
      forall id | id in x.byId ensures Mentioned(x, log, id) {
        assert id in SeenIds(x, log) by {
          assert id !in x.byId.Keys - SeenIds(x, log);
        }
      }
    } else {
      var id := tail[0].id;
      assert id in x.byId && id !in SeenIds(x, log);
      assert !Mentioned(x, log, id) by {
        forall i | 0 <= i < |log| && Resolve(x, log[i]).Some? ensures Resolve(x, log[i]).value.id != id {
          assert Resolve(x, log[i]).value.id in SeenIds(x, log);
        }
      }
    }
  }

  predicate Listed(t: ServerTxn, payerSide: seq<ServerTxn>, receiverSide: seq<ServerTxn>) {
    t in payerSide || t in receiverSide
  }

  /** Index entries are stored rows, filed under their own id and their own payer and sequence. */
  lemma {:induction false} IndexHoldsRows(payerSide: seq<ServerTxn>, receiverSide: seq<ServerTxn>)
    ensures var x := FullIndex(payerSide, receiverSide);
            && (forall id | id in x.byId :: x.byId[id].id == id && Listed(x.byId[id], payerSide, receiverSide))
            && (forall k | k in x.bySeq ::
                  k == SeqKey(x.bySeq[k].payer, x.bySeq[k].seqNo) && Listed(x.bySeq[k], payerSide, receiverSide))
            && (forall t | t in payerSide || t in receiverSide :: t.id in x.byId)
    decreases |receiverSide|
  {
    hide SeqKey;
    if receiverSide == [] {
      PayerIndexHoldsRows(payerSide);
    } else {
      var n := |receiverSide| - 1;
      IndexHoldsRows(payerSide, receiverSide[..n]);
      assert receiverSide == receiverSide[..n] + [receiverSide[n]];
    }
  }

  lemma {:induction false} PayerIndexHoldsRows(payerSide: seq<ServerTxn>)
    ensures var x := PayerIndex(payerSide);
            && (forall id | id in x.byId :: x.byId[id].id == id && x.byId[id] in payerSide)
            && (forall k | k in x.bySeq :: k == SeqKey(x.bySeq[k].payer, x.bySeq[k].seqNo) && x.bySeq[k] in payerSide)
            && (forall t | t in payerSide :: t.id in x.byId)
  {
    hide SeqKey;
    if payerSide != [] {
      var n := |payerSide| - 1;
      PayerIndexHoldsRows(payerSide[..n]);
      assert payerSide == payerSide[..n] + [payerSide[n]];
    }
  }

  /** An entry resolved without its id resolves to a row of exactly its payer and sequence. */
  lemma ResolvesTruly(payerSide: seq<ServerTxn>, receiverSide: seq<ServerTxn>, e: ClientEntry)
    requires Resolve(FullIndex(payerSide, receiverSide), e).Some?
    ensures var t := Resolve(FullIndex(payerSide, receiverSide), e).value;
            Listed(t, payerSide, receiverSide) && (t.id == e.id || (t.payer == e.payer && t.seqNo == e.seqNo))
  {
    var x := FullIndex(payerSide, receiverSide);
    IndexHoldsRows(payerSide, receiverSide);
    if !(e.id != "" && e.id in x.byId) {
      var t := x.bySeq[SeqKey(e.payer, e.seqNo)];
      SeqKeyInjective(e.payer, e.seqNo, t.payer, t.seqNo);
    }
  }

  // ------------------------------------------------------------------ the nightly check

  datatype LedgerSums = LedgerSums(debit: int, credit: int)

  /** Debits and credits of one account over the ledger. */
  method AccountLedgerSum(ledger: seq<Entry>, a: Account) returns (s: LedgerSums)
    ensures s.credit - s.debit == Net(ledger, a)
  {
    s := LedgerSums(0, 0);
    for i := 0 to |ledger|
      invariant s.credit - s.debit == Net(ledger[..i], a)
    {
      assert ledger[..i + 1][..i] == ledger[..i];
      if ledger[i].leg.account == a {
        if ledger[i].leg.dir.Debit? {
          s := s.(debit := s.debit + ledger[i].leg.amount);
        } else {
          s := s.(credit := s.credit + ledger[i].leg.amount);
        }
      }
    }
    assert ledger[..|ledger|] == ledger;
  }

  method SettledTotalForCeiling(pays: seq<Payment>, c: nat) returns (total: int)
    ensures total == SettledTotal(pays, c)
  {
    total := 0;
    for i := 0 to |pays|
      invariant total == SettledTotal(pays[..i], c)
    {
      assert pays[..i + 1][..i] == pays[..i];
      if pays[i].ceiling == c {
        total := total + pays[i].settled;
      }
    }
    assert pays[..|pays|] == pays;
  }

  datatype NightlyRun = NightlyRun(flagged: set<Account>, overdrawn: set<nat>) {
    predicate Clean() { flagged == {} && overdrawn == {} }
  }

  /** Checks every account against its ledger and every ceiling against its settlements; the order
      in which they are listed does not show in what is flagged. */
  method NightlyLedgerReconcile(b: Book) returns (run: NightlyRun)
    ensures forall a: Account :: a in run.flagged <==> a in b.bal && b.bal[a] != Net(b.ledger, a)
    ensures forall c: nat :: c in run.overdrawn <==> c < |b.ceils| && SettledTotal(b.pays, c) > b.ceils[c].amount
  {
    var flagged: set<Account> := {};
    var rest := b.bal.Keys;
    while rest != {}
      invariant rest <= b.bal.Keys
      invariant forall a: Account :: a in flagged <==> a in b.bal.Keys - rest && b.bal[a] != Net(b.ledger, a)
      decreases |rest|
    {
      var a :| a in rest;
      rest := rest - {a};
      var sums := AccountLedgerSum(b.ledger, a);
      if sums.credit - sums.debit != b.bal[a] {
        flagged := flagged + {a};
      }
    }
    var overdrawn: set<nat> := {};
    for c := 0 to |b.ceils|
      invariant forall i: nat :: i in overdrawn <==> i < c && SettledTotal(b.pays, i) > b.ceils[i].amount
    {
      var settled := SettledTotalForCeiling(b.pays, c);
      if settled > b.ceils[c].amount {
        overdrawn := overdrawn + {c};
      }
    }
    run := NightlyRun(flagged, overdrawn);
  }

  /** What a nightly run over this book must find. */
  ghost predicate NightlyFinds(b: Book, run: NightlyRun) {
    && (forall a: Account :: a in run.flagged <==> a in b.bal && b.bal[a] != Net(b.ledger, a))
    && (forall c: nat :: c in run.overdrawn <==> c < |b.ceils| && SettledTotal(b.pays, c) > b.ceils[c].amount)
  }

  predicate NothingSentOnline(ts: seq<Transfer>) { forall t | 0 <= t < |ts| :: ts[t].status != TransferSettled }

  /** After any run whatsoever the nightly check flags exactly the accounts whose settled online
      transfers do not cancel out. It flags no ceiling as long as every accepted claim names a live
      ceiling of its own payer, and is then clean when nothing was sent online. */
  lemma NightlyAfterRun(es: seq<Step>, run: NightlyRun)
    requires NightlyFinds(Run(Genesis(), es).book, run)
    ensures var b := Run(Genesis(), es).book;
            && (forall a: Account :: a in run.flagged <==> a in b.bal && TransferNet(b.transfers, a) != 0)
            && (OrderlyRun(Genesis(), es, false) ==> run.overdrawn == {})
            && (OrderlyRun(Genesis(), es, false) && NothingSentOnline(b.transfers) ==> run.Clean())
  {
    hide OrderlyRun;
    var b := Run(Genesis(), es).book;
    MoneyOverRuns(es);
    assert forall a | a in b.bal :: b.bal[a] - Net(b.ledger, a) == TransferNet(b.transfers, a) by {
      forall a | a in b.bal ensures b.bal[a] - Net(b.ledger, a) == TransferNet(b.transfers, a) {
        assert Drift(b, a) == TransferNet(b.transfers, a);
      }
    }
    if OrderlyRun(Genesis(), es, false) {
      forall c: nat | c < |b.ceils| ensures SettledTotal(b.pays, c) <= b.ceils[c].amount {
        CeilingBound(es, c, false);
      }
    }
    hide Run, Genesis;
    if NothingSentOnline(b.transfers) {
      forall a: Account ensures TransferNet(b.transfers, a) == 0 {
        SumZero(b.transfers, MovedAt(a));
      }
    }
  }

  /** After two accepted claims on somebody else's ceiling it flags that ceiling. */
  lemma NightlyAfterCrossing(ana: UserId, ben: UserId, run: NightlyRun)
    requires ana != ben && ana != "" && NightlyFinds(Run(Genesis(), OverScript(ana, ben)).book, run)
    ensures 1 in run.overdrawn && !run.Clean()
  {
    hide Run, Genesis, SettledTotal, OverScript;
    CeilingOverSettled(ana, ben);
  }

  // ------------------------------------------------------------------ the batch receipt

  datatype Receipt = Receipt(
    receiver: UserId, submitted: nat, settled: nat, partial: nat, rejected: nat, amount: int,
    firstSubmitted: Option<Time>, lastSettled: Option<Time>, completed: bool)

  function HasStatus(s: PaymentStatus): Payment -> int { (p: Payment) => if p.status == s then 1 else 0 }

  function PaidOut(): Payment -> int {
    (p: Payment) => if p.status == Settled || p.status == PartiallySettled then p.settled else 0
  }

  /** The first submission among the rows that have one. */
  function Earliest(rows: seq<Payment>): Option<Time> {
    if rows == [] then None
    else
      var e, t := Earliest(rows[..|rows| - 1]), rows[|rows| - 1].submittedAt;
      if t.Some? && (e.None? || t.value < e.value) then t else e
  }

  /** The last settlement among the rows that have one. */
  function Latest(rows: seq<Payment>): Option<Time> {
    if rows == [] then None
    else
      var e, t := Latest(rows[..|rows| - 1]), rows[|rows| - 1].settledAt;
      if t.Some? && (e.None? || t.value > e.value) then t else e
  }

  datatype ItemReceipt = ItemReceipt(seqNo: int, submitted: int, settled: int, status: PaymentStatus, reason: Reason)

  function ReceiptOf(p: Payment): ItemReceipt { ItemReceipt(p.seqNo, p.amount, p.settled, p.status, p.reason) }

  /** The first payee that is not blank. */
  function FirstPayee(rows: seq<Payment>): UserId {
    if rows == [] then ""
    else
      var before := FirstPayee(rows[..|rows| - 1]);
      if before == "" then rows[|rows| - 1].payee else before
  }

  /** What one more row adds to the totals. */
  lemma ReceiptPush(rows: seq<Payment>, i: nat)
    requires i < |rows|
    ensures var t := rows[i];
            && Sum(rows[..i + 1], HasStatus(Settled)) == Sum(rows[..i], HasStatus(Settled))
               + (if t.status == Settled then 1 else 0)
            && Sum(rows[..i + 1], HasStatus(PartiallySettled))
               == Sum(rows[..i], HasStatus(PartiallySettled)) + (if t.status == PartiallySettled then 1 else 0)
            && Sum(rows[..i + 1], HasStatus(Rejected)) == Sum(rows[..i], HasStatus(Rejected))
               + (if t.status == Rejected then 1 else 0)
            && Sum(rows[..i + 1], PaidOut())
               == Sum(rows[..i], PaidOut())
                   + (if t.status == Settled || t.status == PartiallySettled then t.settled else 0)
    ensures FirstPayee(rows[..i + 1]) == if FirstPayee(rows[..i]) == "" then rows[i].payee else FirstPayee(rows[..i])
    ensures var e, t := Earliest(rows[..i]), rows[i].submittedAt;
            Earliest(rows[..i + 1]) == if t.Some? && (e.None? || t.value < e.value) then t else e
    ensures var e, t := Latest(rows[..i]), rows[i].settledAt;
            Latest(rows[..i + 1]) == if t.Some? && (e.None? || t.value > e.value) then t else e
  {
    assert rows[..i + 1][..i] == rows[..i];
  }

  lemma NoReceipt()
    ensures Sum([], PaidOut()) == 0 && (forall s :: Sum([], HasStatus(s)) == 0)
    ensures FirstPayee([]) == "" && Earliest([]) == None && Latest([]) == None
  {
  }

  method AllFinal(rows: seq<Payment>) returns (completed: bool)
    ensures completed <==> forall i | 0 <= i < |rows| :: IsTerminal(rows[i].status)
  {
    completed := true;
    for i := 0 to |rows|
      invariant completed <==> forall k | 0 <= k < i :: IsTerminal(rows[k].status)
    {
      if !IsTerminal(rows[i].status) {
        completed := false;
        break;
      }
    }
  }

  /** The totals of a batch, one result per row, and whether it is done: completed exactly when every row
      is final. */
  method BatchReceipt(rows: seq<Payment>) returns (r: Option<Receipt>, items: seq<ItemReceipt>)
    ensures r.None? <==> rows == []
    ensures |items| == |rows| && forall i | 0 <= i < |rows| ::
              && items[i].seqNo == rows[i].seqNo && items[i].submitted == rows[i].amount
              && items[i].settled == rows[i].settled && items[i].status == rows[i].status
              && items[i].reason == rows[i].reason
    ensures r.Some? ==>
              var x := r.value;
              && x.submitted == |rows| && x.receiver == FirstPayee(rows)
              && x.settled == Sum(rows, HasStatus(Settled)) && x.partial == Sum(rows, HasStatus(PartiallySettled))
              && x.rejected == Sum(rows, HasStatus(Rejected)) && x.amount == Sum(rows, PaidOut())
              && x.firstSubmitted == Earliest(rows) && x.lastSettled == Latest(rows)
              && (x.completed <==> forall i | 0 <= i < |rows| :: IsTerminal(rows[i].status))
  {
    items := [];
    if rows == [] {
      return None, items;
    }
    hide Sum, FirstPayee, Earliest, Latest, HasStatus, PaidOut;
    NoReceipt();
    var receiver := "";
    var settled: nat, partial: nat, rejected: nat, amount := 0, 0, 0, 0;
    var first: Option<Time>, last: Option<Time> := None, None;
    for i := 0 to |rows|
      invariant settled == Sum(rows[..i], HasStatus(Settled)) && partial == Sum(rows[..i], HasStatus(PartiallySettled))
      invariant rejected == Sum(rows[..i], HasStatus(Rejected)) && amount == Sum(rows[..i], PaidOut())
      invariant first == Earliest(rows[..i]) && last == Latest(rows[..i]) && receiver == FirstPayee(rows[..i])
      invariant |items| == i && forall k | 0 <= k < i :: items[k] == ReceiptOf(rows[k])
    {
      ReceiptPush(rows, i);
      var t := rows[i];
      if receiver == "" {
        receiver := t.payee;
      }
      items := items + [ItemReceipt(t.seqNo, t.amount, t.settled, t.status, t.reason)];
      match t.status {
        case Settled => settled, amount := settled + 1, amount + t.settled;
        case PartiallySettled => partial, amount := partial + 1, amount + t.settled;
        case Rejected => rejected := rejected + 1;
        case _ =>
      }
      if t.submittedAt.Some? && (first.None? || t.submittedAt.value < first.value) {
        first := t.submittedAt;
      }
      if t.settledAt.Some? && (last.None? || t.settledAt.value > last.value) {
        last := t.settledAt;
      }
    }
    assert rows[..|rows|] == rows;
    var completed := AllFinal(rows);
    return Some(Receipt(receiver, |rows|, settled, partial, rejected, amount, first, last, completed)), items;
  }
}
