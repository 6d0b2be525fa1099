/** What the log diff reports, stated of the two row lists instead of the index built from them. */
module Diffing {
  import opened Reconcile

  /** The table's keys: a row is known by its id, and by its payer and sequence. */
  ghost predicate KeysIdentify(payerSide: seq<ServerTxn>, receiverSide: seq<ServerTxn>) {
    forall t, u | Listed(t, payerSide, receiverSide) && Listed(u, payerSide, receiverSide) ::
      t.id == u.id || (t.payer == u.payer && t.seqNo == u.seqNo) ==> t == u
  }

  ghost predicate KnownId(id: string, payerSide: seq<ServerTxn>, receiverSide: seq<ServerTxn>) {
    exists t :: Listed(t, payerSide, receiverSide) && t.id == id
  }

  /** The row an entry speaks of: the one with its id if it carries the id of a row, else the one with its
      payer and sequence. */
  ghost predicate SpeaksOf(e: ClientEntry, t: ServerTxn, payerSide: seq<ServerTxn>, receiverSide: seq<ServerTxn>) {
    && Listed(t, payerSide, receiverSide)
    && if e.id != "" && KnownId(e.id, payerSide, receiverSide) then t.id == e.id
       else t.payer == e.payer && t.seqNo == e.seqNo
  }

  /** Every row filed under an id is filed under its payer and sequence too. */
  predicate FiledTwice(x: Index) {
    forall id | id in x.byId :: SeqKey(x.byId[id].payer, x.byId[id].seqNo) in x.bySeq
  }

  lemma InsertFilesTwice(x: Index, t: ServerTxn)
    requires FiledTwice(x)
    ensures FiledTwice(Insert(x, t))
  {
    hide SeqKey;
  }

  lemma {:induction false} PayerFilesTwice(payerSide: seq<ServerTxn>)
    ensures FiledTwice(PayerIndex(payerSide))
  {
    hide SeqKey, Insert, FiledTwice;
    if payerSide == [] {
      NothingFiled();
    } else {
      PayerFilesTwice(payerSide[..|payerSide| - 1]);
      InsertFilesTwice(PayerIndex(payerSide[..|payerSide| - 1]), payerSide[|payerSide| - 1]);
    }
  }

  lemma NothingFiled()
    ensures FiledTwice(Index(map[], map[]))
  {
  }

  lemma {:induction false} FullFilesTwice(payerSide: seq<ServerTxn>, receiverSide: seq<ServerTxn>)
    ensures FiledTwice(FullIndex(payerSide, receiverSide))
    decreases |receiverSide|
  {
    hide SeqKey, Insert, FiledTwice;
    if receiverSide == [] {
      PayerFilesTwice(payerSide);
    } else {
      var n := |receiverSide| - 1;
      FullFilesTwice(payerSide, receiverSide[..n]);
      InsertFilesTwice(FullIndex(payerSide, receiverSide[..n]), receiverSide[n]);
    }
  }

  /** A listed row is found under its id and under its payer and sequence. */
  lemma RowsAreFiled(payerSide: seq<ServerTxn>, receiverSide: seq<ServerTxn>, t: ServerTxn)
    requires KeysIdentify(payerSide, receiverSide) && Listed(t, payerSide, receiverSide)
    ensures var x := FullIndex(payerSide, receiverSide);
            && t.id in x.byId && x.byId[t.id] == t
            && SeqKey(t.payer, t.seqNo) in x.bySeq && x.bySeq[SeqKey(t.payer, t.seqNo)] == t
  {
    hide SeqKey, FullIndex;
    var x := FullIndex(payerSide, receiverSide);
    IndexHoldsRows(payerSide, receiverSide);
    FullFilesTwice(payerSide, receiverSide);
    assert x.byId[t.id] == t;
    var u := x.bySeq[SeqKey(t.payer, t.seqNo)];
    SeqKeyInjective(t.payer, t.seqNo, u.payer, u.seqNo);
  }

  lemma KnownIsFiled(payerSide: seq<ServerTxn>, receiverSide: seq<ServerTxn>, id: string)
    ensures KnownId(id, payerSide, receiverSide) <==> id in FullIndex(payerSide, receiverSide).byId
  {
    hide FullIndex, SeqKey;
    IndexHoldsRows(payerSide, receiverSide);
    var x := FullIndex(payerSide, receiverSide);
    if id in x.byId {
      var u := x.byId[id];
      assert Listed(u, payerSide, receiverSide) && u.id == id;
    }
  }

  /** An entry resolves to the row it speaks of, and to none exactly when it speaks of none. */
  lemma ResolvesExactlyWhen(payerSide: seq<ServerTxn>, receiverSide: seq<ServerTxn>, e: ClientEntry, t: ServerTxn)
    requires KeysIdentify(payerSide, receiverSide)
    ensures Resolve(FullIndex(payerSide, receiverSide), e).Some?
              && Resolve(FullIndex(payerSide, receiverSide), e).value == t
       <==> SpeaksOf(e, t, payerSide, receiverSide)
  {
    hide SeqKey, FullIndex;
    var x := FullIndex(payerSide, receiverSide);
    IndexHoldsRows(payerSide, receiverSide);
    KnownIsFiled(payerSide, receiverSide, e.id);
    if SpeaksOf(e, t, payerSide, receiverSide) {
      RowsAreFiled(payerSide, receiverSide, t);
    }
    if Resolve(x, e).Some? && Resolve(x, e).value == t {
      ResolvesTruly(payerSide, receiverSide, e);
      if !(e.id != "" && e.id in x.byId) {
        SeqKeyInjective(e.payer, e.seqNo, t.payer, t.seqNo);
      }
    }
  }

  /** An entry gives rise to this finding. */
  ghost predicate Raises(e: ClientEntry, f: Finding, payerSide: seq<ServerTxn>, receiverSide: seq<ServerTxn>) {
    match f
    case AbsentOnServer(id) => e.id == id && forall t :: !SpeaksOf(e, t, payerSide, receiverSide)
    case AmountDiffers(id, stored, claimed) =>
      exists t :: SpeaksOf(e, t, payerSide, receiverSide)
                  && t.id == id && t.amount == stored && e.amount == claimed && stored != claimed
    case StatusDiffers(id, server, client) =>
      exists t :: SpeaksOf(e, t, payerSide, receiverSide)
                  && t.id == id && t.status == server && e.status == client && client != "" && server != client
    case MissingOnClient(_) => false
  }

  lemma EntryRaises(payerSide: seq<ServerTxn>, receiverSide: seq<ServerTxn>, e: ClientEntry, f: Finding)
    requires KeysIdentify(payerSide, receiverSide)
    ensures f in EntryFindings(FullIndex(payerSide, receiverSide), e) <==> Raises(e, f, payerSide, receiverSide)
  {
    var r := Resolve(FullIndex(payerSide, receiverSide), e);
    forall t ensures SpeaksOf(e, t, payerSide, receiverSide) <==> r.Some? && r.value == t {
      ResolvesExactlyWhen(payerSide, receiverSide, e, t);
    }
    hide Resolve, SpeaksOf, FullIndex;
    if r.Some? {
      assert SpeaksOf(e, r.value, payerSide, receiverSide);
    }
  }

  lemma {:induction false} LogRaises(payerSide: seq<ServerTxn>, receiverSide: seq<ServerTxn>, log: seq<ClientEntry>,
          f: Finding)
    requires KeysIdentify(payerSide, receiverSide)
    ensures f in LogFindings(FullIndex(payerSide, receiverSide), log)
       <==> exists i | 0 <= i < |log| :: Raises(log[i], f, payerSide, receiverSide)
    decreases |log|
  {
    hide EntryFindings, FullIndex, Raises;
    if log != [] {
      var n := |log| - 1;
      LogRaises(payerSide, receiverSide, log[..n], f);
      EntryRaises(payerSide, receiverSide, log[n], f);
      assert forall i | 0 <= i < n :: log[..n][i] == log[i];
    }
  }

  /** No entry of the log speaks of the row. */
  ghost predicate Unmentioned(t: ServerTxn, log: seq<ClientEntry>, payerSide: seq<ServerTxn>,
          receiverSide: seq<ServerTxn>) {
    forall i | 0 <= i < |log| :: !SpeaksOf(log[i], t, payerSide, receiverSide)
  }

  /** What is missing on the client: the ids of the listed rows no entry speaks of. */
  lemma MissingExactlyWhen(payerSide: seq<ServerTxn>, receiverSide: seq<ServerTxn>, log: seq<ClientEntry>, id: string)
    requires KeysIdentify(payerSide, receiverSide)
    ensures var x := FullIndex(payerSide, receiverSide);
            id in x.byId.Keys - SeenIds(x, log) <==>
              exists t :: Listed(t, payerSide, receiverSide) && t.id == id
                          && Unmentioned(t, log, payerSide, receiverSide)
  {
    hide FullIndex, Resolve, SpeaksOf;
    var x := FullIndex(payerSide, receiverSide);
    IndexHoldsRows(payerSide, receiverSide);
    forall i, t | 0 <= i < |log|
      ensures SpeaksOf(log[i], t, payerSide, receiverSide)
         <==> Resolve(x, log[i]).Some? && Resolve(x, log[i]).value == t
    {
      ResolvesExactlyWhen(payerSide, receiverSide, log[i], t);
    }
    if id in x.byId.Keys - SeenIds(x, log) {
      assert Unmentioned(x.byId[id], log, payerSide, receiverSide);
    }
    if t :| Listed(t, payerSide, receiverSide) && t.id == id && Unmentioned(t, log, payerSide, receiverSide) {
      NotSeen(x, log, t, payerSide, receiverSide);
    }
  }

  lemma NotSeen(x: Index, log: seq<ClientEntry>, t: ServerTxn, payerSide: seq<ServerTxn>, receiverSide: seq<ServerTxn>)
    requires KeysIdentify(payerSide, receiverSide) && x == FullIndex(payerSide, receiverSide)
    requires Listed(t, payerSide, receiverSide) && Unmentioned(t, log, payerSide, receiverSide)
    ensures t.id !in SeenIds(x, log)
  {
    hide FullIndex, Resolve, SpeaksOf;
    forall i | 0 <= i < |log| && Resolve(x, log[i]).Some? ensures Resolve(x, log[i]).value.id != t.id {
      var u := Resolve(x, log[i]).value;
      ResolvesExactlyWhen(payerSide, receiverSide, log[i], u);
      SpokenIsListed(log[i], u, payerSide, receiverSide);
      assert u.id == t.id ==> u == t;
    }
  }

  lemma SpokenIsListed(e: ClientEntry, t: ServerTxn, payerSide: seq<ServerTxn>, receiverSide: seq<ServerTxn>)
    requires SpeaksOf(e, t, payerSide, receiverSide)
    ensures Listed(t, payerSide, receiverSide)
  {
  }

  /** The diff says a thing exactly when it is so: an entry without a row, a row with another amount or
      another status than its entry claims, a row without an entry. It is empty exactly when there is
      nothing of the kind. */
  lemma DiffSays(payerSide: seq<ServerTxn>, receiverSide: seq<ServerTxn>, log: seq<ClientEntry>, tail: seq<Finding>,
          f: Finding)
    requires KeysIdentify(payerSide, receiverSide)
    requires var x := FullIndex(payerSide, receiverSide); ReportsEachOnce(tail, x.byId.Keys - SeenIds(x, log))
    ensures f in LogFindings(FullIndex(payerSide, receiverSide), log) + tail
       <==> if f.MissingOnClient?
            then exists t :: Listed(t, payerSide, receiverSide) && t.id == f.id
                             && Unmentioned(t, log, payerSide, receiverSide)
            else exists i | 0 <= i < |log| :: Raises(log[i], f, payerSide, receiverSide)
  {
    hide FullIndex, LogFindings, SeenIds, Unmentioned;
    LogRaises(payerSide, receiverSide, log, f);
    if f.MissingOnClient? {
      MissingExactlyWhen(payerSide, receiverSide, log, f.id);
    }
  }

  /** Findings come in the order of the log, and for one entry the amount before the status. */
  lemma {:induction false} FindingsInOrder(x: Index, log: seq<ClientEntry>, more: seq<ClientEntry>)
    ensures LogFindings(x, log + more) == LogFindings(x, log) + LogFindings(x, more)
    decreases |more|
  {
    hide EntryFindings;
    if more == [] {
      assert log + more == log;
    } else {
      var n := |more| - 1;
      FindingsInOrder(x, log, more[..n]);
      assert (log + more)[..|log| + n] == log + more[..n];
    }
  }

  lemma EntryInOrder(x: Index, e: ClientEntry)
    ensures LogFindings(x, [e]) == EntryFindings(x, e) && |EntryFindings(x, e)| <= 2
    ensures |EntryFindings(x, e)| == 2 ==>
              EntryFindings(x, e)[0].AmountDiffers? && EntryFindings(x, e)[1].StatusDiffers?
  {
    hide Resolve;
    assert [e][..0] == [];
  }
}
