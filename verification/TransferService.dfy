/** The transfer pipeline as it runs: accepting with its outbox row, dispatching with retries,
    and the two consumers. Each method does exactly what its step function says. */
module TransferService {
  import opened Basics
  import opened Domain
  import opened Finalize
  import opened Limits
  import opened Transfers
  import opened World
  import opened Repository
  import Settlement = SettlementService

  // ------------------------------------------------------------------ accepting

  class Service {
    const repo: Repo

    constructor (repo: Repo)
      ensures this.repo == repo
    {
      this.repo := repo;
    }

    /** Idempotent accept: an existing (sender, reference) pair is returned as it is; otherwise
        limits and fraud verdict decide, and transfer, rows and envelope land together. */
    method InitiateTransfer(r: TransferRequest, now: Time) returns (result: AcceptResult)
      modifies repo`transfers, repo`rows, repo`outbox
      ensures AcceptState(repo.Stored(), repo.outbox, result)
           == Transfers.InitiateTransfer(old(repo.Stored()), old(repo.outbox), r, now)
    {
      hide CheckLimits;
      var malformed := RequestProblem(r);
      if malformed.Some? {
        return NotAccepted(malformed.value);
      }
      var existing := FindTransfer(repo.transfers, r.sender, r.reference);
      if existing.Some? {
        return AlreadyThere(existing.value);
      }
      var spent := repo.SumTodaySenderTransfers(r.sender, r.day);
      var verdict := CheckLimits(r.tier, spent, r.amount);
      if verdict != Within {
        return NotAccepted(OverLimit(verdict));
      }
      if r.blocked {
        return NotAccepted(FraudBlocked);
      }
      var id, anchor, to := |repo.transfers|, |repo.rows|, r.receiver.value;
      ghost var rows := repo.rows;
      repo.transfers := repo.transfers
          + [Transfer(r.sender, to, r.amount, r.reference, Domain.Accepted, NoReason, r.day)];
      repo.RecordTransaction(PairedRow(r.sender, to, TransferSent, Debit, r.amount, anchor, id));
      repo.RecordTransaction(PairedRow(to, r.sender, TransferReceived, Credit, r.amount, anchor, id));
      assert repo.rows == rows + [PairedRow(r.sender, to, TransferSent, Debit, r.amount, anchor, id),
                                  PairedRow(to, r.sender, TransferReceived, Credit, r.amount, anchor, id)];
      repo.InsertOutbox(TransferEvent(TransferPayload(id, r.sender, to, r.amount)), now);
      return AcceptedAs(id);
    }
  }

  // ------------------------------------------------------------------ dispatching

  lemma {:induction false} Pow2Grows(n: nat)
    ensures Pow2(n) >= 1 && Pow2(n) > n
  {
    if n > 0 {
      Pow2Grows(n - 1);
    }
  }

  lemma {:induction false} Pow2Monotone(m: nat, n: nat)
    requires m <= n
    ensures Pow2(m) <= Pow2(n)
    decreases n
  {
    if m < n {
      Pow2Monotone(m, n - 1);
      Pow2Grows(n - 1);
    }
  }

  /** The retry delay: doubling while below the cap, then capped. The loop runs at most six times
      whatever the number of attempts, so the delay never overflows. */
  method BackoffDelay(attempts: nat) returns (d: Time)
    ensures d == Backoff(attempts)
  {
    d := SECOND;
    var i := 0;
    while i < attempts && d < 60 * SECOND
      invariant i <= attempts && i <= 6 && d == Pow2(i) * SECOND
    {
      d := d * 2;
      i := i + 1;
      assert i == 6 ==> Pow2(6) == 64;
    }
    Pow2Monotone(i, attempts);
    if d > 60 * SECOND {
      d := 60 * SECOND;
    }
  }

  /** min(2^n, 60) seconds: never below a second, never above a minute, never shrinking, and at
      the cap from the sixth attempt on. */
  lemma BackoffBounds(m: nat, n: nat)
    requires m <= n
    ensures SECOND <= Backoff(m) <= Backoff(n) <= 60 * SECOND
    ensures Backoff(n) == 60 * SECOND <==> n >= 6
  {
    Pow2Grows(m);
    Pow2Monotone(m, n);
    if n >= 6 {
      Pow2Monotone(6, n);
    } else {
      Pow2Monotone(n, 5);
    }
    assert Pow2(5) == 32 && Pow2(6) == 64;
  }

  /** The first rows that are ready, at most limit of them, oldest first. */
  function ReadyIds(outbox: seq<OutboxRow>, limit: nat, now: Time): (ids: seq<nat>)
    ensures |ids| <= limit
  {
    if outbox == [] then []
    else
      var n := |outbox| - 1;
      var before := ReadyIds(outbox[..n], limit, now);
      if |before| < limit && !outbox[n].dispatched && outbox[n].nextAttempt <= now then before + [n] else before
  }

  lemma {:induction false} ReadyAreClaimable(outbox: seq<OutboxRow>, limit: nat, now: Time)
    ensures forall k | 0 <= k < |ReadyIds(outbox, limit, now)| ::
            Claimable(outbox, ReadyIds(outbox, limit, now)[k], now)
    ensures forall j, k | 0 <= j < k < |ReadyIds(outbox, limit, now)| ::
            ReadyIds(outbox, limit, now)[j] < ReadyIds(outbox, limit, now)[k]
  {
    if outbox != [] {
      ReadyAreClaimable(outbox[..|outbox| - 1], limit, now);
    }
  }

  /** Nothing ready is left out but for room, and then only behind everything that was claimed: a row that
      failed before is claimed like any other. */
  lemma {:induction false} ReadyLeavesNone(outbox: seq<OutboxRow>, limit: nat, now: Time, i: nat)
    requires i < |outbox| && !outbox[i].dispatched && outbox[i].nextAttempt <= now
    ensures var ids := ReadyIds(outbox, limit, now);
            i in ids || (|ids| == limit && forall k | 0 <= k < |ids| :: ids[k] < i)
  {
    var n := |outbox| - 1;
    if i < n {
      ReadyLeavesNone(outbox[..n], limit, now, i);
    } else {
      ReadyAreClaimable(outbox[..n], limit, now);
    }
  }

  // ------------------------------------------------------------------ what a tick leaves

  /** A row after its publish attempt: dispatched, or due again after 1, 2, 4 and so on up to 60 seconds. */
  predicate Attempted(row: OutboxRow, row': OutboxRow, fate: Fate, now: Time) {
    && row'.event == row.event && row'.dispatched == (row.dispatched || fate == Confirmed)
    && row'.attempts == (if fate == Confirmed then row.attempts else row.attempts + 1)
    && row'.nextAttempt == (if fate == Confirmed then row.nextAttempt
                           else now + Min(Pow2(row.attempts), 60) * 1_000_000)
  }

  /** Every claimed row was attempted once, no other row was touched, and exactly what the attempts
      stored was published. */
  ghost predicate TickTells(d: DispatchState, d': DispatchState, ids: seq<nat>, fates: seq<Fate>, now: Time)
    requires |ids| == |fates|
  {
    && |d'.outbox| == |d.outbox|
    && (forall k | 0 <= k < |ids| ::
          ids[k] < |d.outbox| && Attempted(d.outbox[ids[k]], d'.outbox[ids[k]], fates[k], now))
    && (forall i | 0 <= i < |d.outbox| && i !in ids :: d'.outbox[i] == d.outbox[i])
    && (forall i :: i in d'.published <==>
          i in d.published || exists k :: 0 <= k < |ids| && ids[k] == i && fates[k] in {Confirmed, AckLost})
  }

  lemma TellsHead(d: DispatchState, d1: DispatchState, d': DispatchState, ids: seq<nat>, fates: seq<Fate>, now: Time)
    requires |ids| == |fates| > 0 && ids[0] < |d.outbox|
    requires forall j, k | 0 <= j < k < |ids| :: ids[j] != ids[k]
    requires |d1.outbox| == |d.outbox| && Attempted(d.outbox[ids[0]], d1.outbox[ids[0]], fates[0], now)
    requires forall i | 0 <= i < |d.outbox| && i != ids[0] :: d1.outbox[i] == d.outbox[i]
    requires d1.published == if fates[0].NotStored? then d.published else d.published + {ids[0]}
    requires TickTells(d1, d', ids[1..], fates[1..], now)
    ensures TickTells(d, d', ids, fates, now)
  {
    hide Attempted;
    assert ids == [ids[0]] + ids[1..];
    forall k | 0 <= k < |ids|
      ensures ids[k] < |d.outbox| && Attempted(d.outbox[ids[k]], d'.outbox[ids[k]], fates[k], now)
    {
      if k > 0 {
        assert ids[1..][k - 1] == ids[k] && fates[1..][k - 1] == fates[k];
      } else {
        assert ids[0] !in ids[1..];
      }
    }
    forall i ensures i in d'.published <==>
      i in d.published || exists k :: 0 <= k < |ids| && ids[k] == i && fates[k] in {Confirmed, AckLost}
    {
      if k :| 0 <= k < |ids| && ids[k] == i && fates[k] in {Confirmed, AckLost} {
        assert k > 0 ==> ids[1..][k - 1] == i && fates[1..][k - 1] == fates[k];
      }
      if k :| 0 <= k < |ids[1..]| && ids[1..][k] == i && fates[1..][k] in {Confirmed, AckLost} {
        assert ids[k + 1] == i && fates[k + 1] == fates[1..][k];
      }
      if i == ids[0] && !fates[0].NotStored? {
        assert ids[0] == i && fates[0] in {Confirmed, AckLost};
      }
    }
  }

  lemma {:induction false} TickIsTold(d: DispatchState, ids: seq<nat>, fates: seq<Fate>, now: Time)
    requires |ids| == |fates| && (forall j, k | 0 <= j < k < |ids| :: ids[j] != ids[k])
    requires forall k | 0 <= k < |ids| :: Claimable(d.outbox, ids[k], now)
    ensures TickTells(d, Transfers.Tick(d, ids, fates, now), ids, fates, now)
    decreases |ids|
  {
    hide TickTells;
    if ids == [] {
      NothingTold(d, now);
    } else {
      assert Claimable(d.outbox, ids[0], now);
      var d1 := DispatchState(d.outbox[ids[0] := DispatchRow(d.outbox[ids[0]], fates[0], now)],
                              if fates[0].NotStored? then d.published else d.published + {ids[0]});
      TickIsTold(d1, ids[1..], fates[1..], now);
      TellsHead(d, d1, Transfers.Tick(d, ids, fates, now), ids, fates, now);
    }
  }

  /** A tick attempts every ready row it has room for, the oldest first: with room, each one is published
      unless its attempt stored nothing, and marked if it was confirmed; without, the row is left as it
      was behind a full batch of older ones. */
  lemma TickAttemptsReady(d: DispatchState, batch: nat, fates: seq<Fate>, now: Time, i: nat)
    requires |fates| >= batch && i < |d.outbox| && !d.outbox[i].dispatched && d.outbox[i].nextAttempt <= now
    ensures var ids := ReadyIds(d.outbox, batch, now);
            var d' := Transfers.Tick(d, ids, fates[..|ids|], now);
            && |d'.outbox| == |d.outbox| && (|ids| < batch ==> i in ids)
            && (forall k | 0 <= k < |ids| && ids[k] == i ::
                  && Attempted(d.outbox[i], d'.outbox[i], fates[k], now)
                  && (fates[k] in {Confirmed, AckLost} ==> i in d'.published))
            && (i !in ids ==> d'.outbox[i] == d.outbox[i] && |ids| == batch && forall k | 0 <= k < |ids| :: ids[k] < i)
  {
    hide Transfers.Tick, ReadyIds, Attempted;
    var ids := ReadyIds(d.outbox, batch, now);
    ReadyAreClaimable(d.outbox, batch, now);
    ReadyLeavesNone(d.outbox, batch, now, i);
    TickIsTold(d, ids, fates[..|ids|], now);
  }

  lemma NothingTold(d: DispatchState, now: Time)
    ensures TickTells(d, d, [], [], now)
  {
  }

  lemma TickTurn(d: DispatchState, ids: seq<nat>, fates: seq<Fate>, i: nat, now: Time)
    requires |ids| == |fates| && i < |ids| && Claimable(d.outbox, ids[i], now)
    ensures Transfers.Tick(d, ids[i..], fates[i..], now)
         == Transfers.Tick(DispatchState(d.outbox[ids[i] := DispatchRow(d.outbox[ids[i]], fates[i], now)],
                                         if fates[i].NotStored? then d.published else d.published + {ids[i]}),
                           ids[i + 1..], fates[i + 1..], now)
  {
    assert ids[i..][1..] == ids[i + 1..] && fates[i..][1..] == fates[i + 1..];
  }

  class Dispatcher {
    const repo: Repo
    const batch: nat
    var published: set<nat>

    constructor (repo: Repo, batch: nat)
      ensures this.repo == repo && this.batch == batch && published == {}
    {
      this.repo, this.batch, published := repo, batch, {};
    }

    method ClaimBatch(now: Time) returns (ids: seq<nat>)
      ensures ids == ReadyIds(repo.outbox, batch, now)
    {
      ids := [];
      var i := 0;
      while i < |repo.outbox|
        invariant 0 <= i <= |repo.outbox| && ids == ReadyIds(repo.outbox[..i], batch, now)
      {
        assert repo.outbox[..i + 1][..i] == repo.outbox[..i];
        if |ids| < batch && !repo.outbox[i].dispatched && repo.outbox[i].nextAttempt <= now {
          ids := ids + [i];
        }
        i := i + 1;
      }
      assert repo.outbox[..|repo.outbox|] == repo.outbox;
    }

    /** One claimed row: published, then marked or pushed back. */
    method PublishRow(id: nat, fate: Fate, now: Time)
      requires id < |repo.outbox|
      modifies this`published, repo`outbox
      ensures repo.outbox == old(repo.outbox)[id := DispatchRow(old(repo.outbox)[id], fate, now)]
      ensures published == if fate.NotStored? then old(published) else old(published) + {id}
    {
      var row := repo.outbox[id];
      if !fate.NotStored? {
        published := published + {id};
      }
      if fate.Confirmed? {
        repo.outbox := repo.outbox[id := row.(dispatched := true)];
      } else {
        var delay := BackoffDelay(row.attempts);
        repo.outbox := repo.outbox[id := row.(attempts := row.attempts + 1, nextAttempt := now + delay)];
      }
    }

    method PublishAll(claims: seq<nat>, fates: seq<Fate>, now: Time)
      requires |claims| == |fates| && forall k | 0 <= k < |claims| :: Claimable(repo.outbox, claims[k], now)
      requires forall j, k | 0 <= j < k < |claims| :: claims[j] < claims[k]
      modifies this`published, repo`outbox
      ensures DispatchState(repo.outbox, published)
           == Transfers.Tick(DispatchState(old(repo.outbox), old(published)), claims, fates, now)
    {
      hide Transfers.Tick, DispatchRow;
      var i := 0;
      assert claims[0..] == claims && fates[0..] == fates;
      while i < |claims|
        invariant 0 <= i <= |claims|
        invariant forall k | i <= k < |claims| :: Claimable(repo.outbox, claims[k], now)
        invariant Transfers.Tick(DispatchState(repo.outbox, published), claims[i..], fates[i..], now)
               == Transfers.Tick(DispatchState(old(repo.outbox), old(published)), claims, fates, now)
      {
        TickTurn(DispatchState(repo.outbox, published), claims, fates, i, now);
        PublishRow(claims[i], fates[i], now);
        i := i + 1;
      }
      assert claims[i..] == [] && fates[i..] == [];
      TickNone(DispatchState(repo.outbox, published), now);
    }

    /** One tick: publish the claimed rows, mark the confirmed ones, push the others back. What a publish
        turns out to be is decided outside, one fate per claimed row; a store error may stop the tick
        after any number of rows. The marks commit together or not at all, not if the tick was
        stopped; a publication stays either way. */
    method DispatchTick(fates: seq<Fate>, stopsAfter: Option<nat>, commits: bool, now: Time)
      returns (ghost ids: seq<nat>)
      requires |fates| >= batch
      modifies this`published, repo`outbox
      ensures var ready := ReadyIds(old(repo.outbox), batch, now);
              ids == if stopsAfter.Some? && stopsAfter.value < |ready| then ready[..stopsAfter.value] else ready
      ensures var d := Transfers.Tick(DispatchState(old(repo.outbox), old(published)), ids, fates[..|ids|], now);
              && published == d.published
              && repo.outbox == if commits && stopsAfter.None? then d.outbox else old(repo.outbox)
    {
      hide Transfers.Tick, ReadyIds;
      var snapshot := repo.outbox;
      var claims := ClaimBatch(now);
      ReadyAreClaimable(repo.outbox, batch, now);
      if stopsAfter.Some? && stopsAfter.value < |claims| {
        claims := claims[..stopsAfter.value];
      }
      ids := claims;
      PublishAll(claims, fates[..|claims|], now);
      if !commits || stopsAfter.Some? {
        repo.outbox := snapshot;
      }
    }
  }

  lemma TickNone(d: DispatchState, now: Time)
    ensures Transfers.Tick(d, [], [], now) == d
  {
  }

  // ------------------------------------------------------------------ consuming

  /** The first mark of an event stays, and marking one event leaves the others alone. */
  lemma FirstMarkStays(processed: Marks, id: nat, first: Mark, second: Mark)
    ensures var once := MarkEvent(processed, id, first);
            && id in once && (id !in processed ==> once[id] == first) && MarkEvent(once, id, second) == once
            && (forall i | i in processed :: i in once && once[i] == processed[i])
            && (forall i | i in once && i != id :: i in processed)
  {
  }

  /** Alphabetical order, the order in which accounts are locked. */
  predicate Less(a: string, b: string) { LexBefore((c: char) => c as int, a, b) }

  class Processor {
    const repo: Repo

    constructor (repo: Repo)
      ensures this.repo == repo
    {
      this.repo := repo;
    }

    method FinalizeTransactionsForTransfer(t: nat, status: RowStatus, settled: Option<int>, reason: Reason)
      modifies repo`rows
      ensures repo.rows == FlipTransferRows(old(repo.rows), t, status, settled, reason)
    {
      var anchor := AnchorOf(repo.rows, OfTransfer(t));
      if anchor.Some? {
        repo.FinalizePairedTransactions(repo.rows[anchor.value].group, status, settled, reason);
      }
    }

    method FinalizeFailed(id: nat, t: nat, reason: Reason)
      modifies repo`transfers, repo`rows, repo`processed
      ensures repo.Stored() == FailTransfer(old(repo.Stored()), t, reason)
      ensures repo.processed == MarkEvent(old(repo.processed), id, MarkFailed)
    {
      repo.transfers := MarkTransfer(repo.transfers, t, TransferFailed, reason);
      FinalizeTransactionsForTransfer(t, RowFailed, None, reason);
      repo.MarkEventProcessed(id, MarkFailed);
    }

    /** One delivery: skip what is marked, skip foreign events for good, otherwise lock both main
        accounts, debit guarded, credit, and mark transfer, rows and event in the same transaction. */
    method Process(id: nat, event: Event)
      modifies repo`bal, repo`transfers, repo`rows, repo`processed
      ensures id in old(repo.processed) ==> repo.Stored() == old(repo.Stored()) && repo.processed == old(repo.processed)
      ensures id !in old(repo.processed) && event.FinalizeEvent? ==>
                repo.Stored() == old(repo.Stored()) && repo.processed == old(repo.processed)[id := MarkSkipped]
      ensures id !in old(repo.processed) && event.TransferEvent? ==>
                (repo.Stored(), repo.processed)
                == var (b, m) := ProcessTransfer(old(repo.Stored()), event.payload); (b, old(repo.processed)[id := m])
    {
      hide FlipTransferRows, FailTransfer, MarkTransfer, Less;
      if id in repo.processed {
        return;
      }
      if event.FinalizeEvent? {
        repo.MarkEventProcessed(id, MarkSkipped);
        return;
      }
      var p := event.payload;
      var first, second := p.sender, p.receiver;
      if Less(second, first) {
        first, second := second, first;
      }
      if MainOf(first) !in repo.bal {
        FinalizeFailed(id, p.transfer, NotProvisioned);
        return;
      }
      if MainOf(second) !in repo.bal {
        FinalizeFailed(id, p.transfer, NotProvisioned);
        return;
      }
      var debited := repo.DebitAccount(MainOf(p.sender), p.amount);
      if !debited {
        FinalizeFailed(id, p.transfer, InsufficientFunds);
        return;
      }
      var credited := repo.CreditAccount(MainOf(p.receiver), p.amount);
      repo.transfers := MarkTransfer(repo.transfers, p.transfer, TransferSettled, NoReason);
      FinalizeTransactionsForTransfer(p.transfer, RowCompleted, Some(p.amount), NoReason);
      repo.MarkEventProcessed(id, MarkSettled);
    }
  }

  /** The settlement consumer: the drain commits first, the mark follows in a write of its own. */
  class FinalizeProcessor {
    const repo: Repo
    const service: Settlement.Service

    constructor (service: Settlement.Service)
      ensures this.service == service && repo == service.repo
    {
      this.service, repo := service, service.repo;
    }

    /** ok is false when the message goes back for redelivery; dies stands for a consumer that is
        lost between the drain's commit and the mark. */
    method Process(id: nat, event: Event, dies: bool, now: Time) returns (ok: bool)
      requires service.repo == repo
      modifies repo
      ensures repo.outbox == old(repo.outbox)
      ensures id in old(repo.processed) ==> repo.Stored() == old(repo.Stored()) && repo.processed == old(repo.processed)
      ensures id !in old(repo.processed) && event.TransferEvent? ==>
                repo.Stored() == old(repo.Stored()) && repo.processed == old(repo.processed)[id := MarkSkipped]
      ensures id !in old(repo.processed) && event == FinalizeEvent("") ==>
                repo.Stored() == old(repo.Stored()) && repo.processed == old(repo.processed)[id := MarkFailed]
      ensures id !in old(repo.processed) && event.FinalizeEvent? && event.payer != "" ==>
                var o := Finalize.FinalizeForPayer(old(repo.Stored()), event.payer, now);
                && repo.Stored() == BookAfter(old(repo.Stored()), o)
                && repo.processed == (if o.Aborted? || dies then old(repo.processed)
                   else old(repo.processed)[id := MarkSettled])
                && (ok <==> !o.Aborted?)
    {
      ok := true;
      if id in repo.processed {
        return;
      }
      if event.TransferEvent? {
        repo.MarkEventProcessed(id, MarkSkipped);
        return;
      }
      if event.payer == "" {
        repo.MarkEventProcessed(id, MarkFailed);
        return;
      }
      var o, _ := service.FinalizeForPayer(event.payer, now);
      if o.Aborted? {
        ok := false;
        return;
      }
      if !dies {
        repo.MarkEventProcessed(id, MarkSettled);
      }
    }
  }

  /** The two consumers on one stream: a published envelope goes to the one its event is for. */
  class Consumers {
    const repo: Repo
    const transfers: Processor
    const settlements: FinalizeProcessor

    constructor (settlement: Settlement.Service)
      ensures repo == settlement.repo && transfers.repo == repo && settlements.repo == repo
              && settlements.service.repo == repo
    {
      repo := settlement.repo;
      transfers := new Processor(settlement.repo);
      settlements := new FinalizeProcessor(settlement);
    }

    /** The tables in place of those of the given world. */
    ghost function State(w: World): World
      reads repo
    {
      w.(book := repo.Stored(), outbox := repo.outbox, processed := repo.processed)
    }

    /** One delivery, with the consumer lost before its transaction commits, after it, or not at all:
        exactly the delivery step of a run. */
    method Deliver(id: nat, published: set<nat>, crash: Crash, now: Time, ghost w: World)
      requires w.published == published
      requires transfers.repo == repo && settlements.repo == repo && settlements.service.repo == repo
      modifies repo
      ensures State(w) == DeliverOne(old(State(w)), id, crash, now)
    {
      hide ProcessTransfer, Finalize.FinalizeForPayer;
      if id !in published || id >= |repo.outbox| || crash.BeforeCommit? {
        return;
      }
      var event := repo.outbox[id].event;
      match event
      case TransferEvent(p) =>
        transfers.Process(id, event);
      case FinalizeEvent(payer) =>
        var ok := settlements.Process(id, event, crash.AfterCommit?, now);
    }
  }
}
