/** The outbox pipeline over runs: what ties transfers, outbox rows, publications and
    processed marks together, in every state that accepts, ticks, crashes and redeliveries
    can reach. */
module Pipeline {
  import opened Domain
  import opened Transfers
  import opened TransferKeeps

  predicate IsEventOf(row: OutboxRow, t: nat) {
    row.event.TransferEvent? && row.event.payload.transfer == t
  }

  /** A row marked dispatched was published under its own id, only stored rows are published,
      and only published rows are processed. */
  predicate DeliveryOk(outbox: seq<OutboxRow>, processed: Marks, published: set<nat>) {
    && (forall i | 0 <= i < |outbox| && outbox[i].dispatched :: i in published)
    && (forall i | i in published :: i < |outbox|)
    && (forall i | i in processed :: i in published)
  }

  /** Every envelope describes its stored transfer, no two rows carry the same one. */
  predicate EnvelopesOk(transfers: seq<Transfer>, outbox: seq<OutboxRow>) {
    && (forall i | 0 <= i < |outbox| && outbox[i].event.TransferEvent? :: PayloadOk(transfers, outbox[i].event.payload))
    && (forall i, j | 0 <= i < j < |outbox| && outbox[i].event.TransferEvent? ::
       !IsEventOf(outbox[j], outbox[i].event.payload.transfer))
    && (forall i | 0 <= i < |outbox| && outbox[i].event.FinalizeEvent? :: outbox[i].event.payer != "")
  }

  /** No accepted transfer is without its outbox row. */
  predicate EveryTransferQueued(transfers: seq<Transfer>, outbox: seq<OutboxRow>) {
    forall t: nat | t < |transfers| :: HasOutboxRow(outbox, t)
  }

  predicate HasOutboxRow(outbox: seq<OutboxRow>, t: nat) { exists i | 0 <= i < |outbox| :: IsEventOf(outbox[i], t) }

  function StatusFor(processed: Marks, id: nat): TransferStatus {
    if id !in processed then Domain.Accepted
    else if processed[id].MarkSettled? then TransferSettled
    else TransferFailed
  }

  /** The processed mark of a transfer's event and the transfer's status say the same. */
  predicate MarksAgree(transfers: seq<Transfer>, outbox: seq<OutboxRow>, processed: Marks) {
    forall i | 0 <= i < |outbox| && outbox[i].event.TransferEvent? ::
      outbox[i].event.payload.transfer < |transfers|
      && transfers[outbox[i].event.payload.transfer].status == StatusFor(processed, i)
  }

  predicate PipelineOk(transfers: seq<Transfer>, outbox: seq<OutboxRow>, processed: Marks, published: set<nat>) {
    && DeliveryOk(outbox, processed, published)
    && EnvelopesOk(transfers, outbox)
    && EveryTransferQueued(transfers, outbox)
    && MarksAgree(transfers, outbox, processed)
  }

  // ------------------------------------------------------------------ accepting

  lemma PushFinalize(transfers: seq<Transfer>, outbox: seq<OutboxRow>, processed: Marks, published: set<nat>,
          u: UserId, now: Time)
    requires PipelineOk(transfers, outbox, processed, published) && u != ""
    ensures PipelineOk(transfers, outbox + [OutboxRow(FinalizeEvent(u), false, 0, now)], processed, published)
  {
    var outbox' := outbox + [OutboxRow(FinalizeEvent(u), false, 0, now)];
    forall t: nat | t < |transfers| ensures HasOutboxRow(outbox', t) {
      StaysQueued(outbox, outbox', t);
    }
  }

  lemma StaysQueued(outbox: seq<OutboxRow>, outbox': seq<OutboxRow>, t: nat)
    requires HasOutboxRow(outbox, t) && |outbox| <= |outbox'|
    requires forall i | 0 <= i < |outbox| :: outbox'[i].event == outbox[i].event
    ensures HasOutboxRow(outbox', t)
  {
    var i :| 0 <= i < |outbox| && IsEventOf(outbox[i], t);
    assert IsEventOf(outbox'[i], t);
  }

  lemma PushTransfer(transfers: seq<Transfer>, outbox: seq<OutboxRow>, processed: Marks, published: set<nat>,
          x: Transfer, now: Time)
    requires PipelineOk(transfers, outbox, processed, published) && x.status == Domain.Accepted
    ensures PipelineOk(transfers + [x],
                       outbox + [OutboxRow(TransferEvent(TransferPayload(|transfers|, x.sender, x.receiver, x.amount)),
                           false, 0, now)],
                       processed, published)
  {
    var row := OutboxRow(TransferEvent(TransferPayload(|transfers|, x.sender, x.receiver, x.amount)), false, 0, now);
    var outbox' := outbox + [row];
    forall t: nat | t < |transfers + [x]| ensures HasOutboxRow(outbox', t) {
      if t < |transfers| {
        StaysQueued(outbox, outbox', t);
      } else {
        assert IsEventOf(outbox'[|outbox|], t);
      }
    }
    assert |outbox| !in processed;
    forall i | 0 <= i < |outbox'| && outbox'[i].event.TransferEvent?
      ensures PayloadOk(transfers + [x], outbox'[i].event.payload)
      ensures (transfers + [x])[outbox'[i].event.payload.transfer].status == StatusFor(processed, i)
    {
      if i < |outbox| {
        assert PayloadOk(transfers, outbox[i].event.payload);
      }
    }
  }

  // ------------------------------------------------------------------ dispatching

  /** Events are never rewritten. */
  predicate SameEvents(outbox: seq<OutboxRow>, outbox': seq<OutboxRow>) {
    |outbox'| == |outbox| && forall i | 0 <= i < |outbox| :: outbox'[i].event == outbox[i].event
  }

  lemma {:induction false} TickDelivery(d: DispatchState, ids: seq<nat>, fates: seq<Fate>, now: Time,
          processed: Marks)
    requires |ids| == |fates| && DeliveryOk(d.outbox, processed, d.published)
    ensures var d' := Tick(d, ids, fates, now);
            && SameEvents(d.outbox, d'.outbox)
            && d.published <= d'.published
            && DeliveryOk(d'.outbox, processed, d'.published)
            && DeliveryOk(d.outbox, processed, d'.published)
    decreases |ids|
  {
    if ids != [] {
      var id := ids[0];
      var d1 :=
        if !Claimable(d.outbox, id, now) then d
        else DispatchState(d.outbox[id := DispatchRow(d.outbox[id], fates[0], now)],
                           if fates[0].NotStored? then d.published else d.published + {id});
      TickDelivery(d1, ids[1..], fates[1..], now, processed);
    }
  }

  lemma SameEventsKeep(transfers: seq<Transfer>, outbox: seq<OutboxRow>, outbox': seq<OutboxRow>,
          processed: Marks, published: set<nat>, published': set<nat>)
    requires PipelineOk(transfers, outbox, processed, published) && SameEvents(outbox, outbox')
    requires DeliveryOk(outbox', processed, published')
    ensures PipelineOk(transfers, outbox', processed, published')
  {
    forall t: nat | t < |transfers| ensures HasOutboxRow(outbox', t) {
      StaysQueued(outbox, outbox', t);
    }
    assert forall i | 0 <= i < |outbox| :: outbox'[i].event == outbox[i].event;
  }

  // ------------------------------------------------------------------ processing

  /** A transfer's status and the mark of its event change together. */
  lemma MarkKeeps(transfers: seq<Transfer>, outbox: seq<OutboxRow>, processed: Marks, published: set<nat>,
                  id: nat, x': Transfer, m: Mark)
    requires PipelineOk(transfers, outbox, processed, published)
    requires id < |outbox| && id in published && id !in processed && outbox[id].event.TransferEvent?
    requires var t := outbox[id].event.payload.transfer;
             t < |transfers| && x' == transfers[t].(status := x'.status, reason := x'.reason)
             && x'.status == if m.MarkSettled? then TransferSettled else TransferFailed
    ensures PipelineOk(transfers[outbox[id].event.payload.transfer := x'], outbox, processed[id := m], published)
  {
    var t := outbox[id].event.payload.transfer;
    var transfers' := transfers[t := x'];
    assert EveryTransferQueued(transfers', outbox) by {
      assert EveryTransferQueued(transfers, outbox);
    }
    forall i | 0 <= i < |outbox| && outbox[i].event.TransferEvent?
      ensures PayloadOk(transfers', outbox[i].event.payload)
      ensures outbox[i].event.payload.transfer < |transfers'|
      ensures transfers'[outbox[i].event.payload.transfer].status == StatusFor(processed[id := m], i)
    {
      assert PayloadOk(transfers, outbox[i].event.payload);
      if i < id {
        assert !IsEventOf(outbox[id], outbox[i].event.payload.transfer);
      } else if id < i {
        assert !IsEventOf(outbox[i], t);
      }
    }
  }

  lemma MarkFinalize(transfers: seq<Transfer>, outbox: seq<OutboxRow>, processed: Marks, published: set<nat>,
          id: nat, m: Mark)
    requires PipelineOk(transfers, outbox, processed, published)
    requires id < |outbox| && id in published && outbox[id].event.FinalizeEvent?
    ensures PipelineOk(transfers, outbox, processed[id := m], published)
  {
    assert EveryTransferQueued(transfers, outbox);
  }
}
