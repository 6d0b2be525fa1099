/** Gossip uploads and the demo mint: two more writers over the same repository. */
module Gossip {
  import opened Basics
  import opened Domain
  import opened Claims
  import opened Wallet
  import opened Repository
  import opened Convergence
  import Settlement = SettlementService

  const MAX_HOPS := 3

  /** A carried blob: the verdicts of its own validation and of opening it, its hop count, and
      the claim inside with the user it names as sender. */
  datatype Blob = Blob(wellFormed: bool, hops: int, claim: Option<ClaimItem>, sender: UserId)

  datatype BlobResult = BadBlob | TooManyHops | Unopened | SubmitFailed | Routed(result: SubmitResult)

  /** Who the claim is submitted for: the sender named inside, else the payee. */
  function OnBehalf(item: ClaimItem, sender: UserId): UserId { if sender == "" then item.payment.payee else sender }

  /** Why a blob never reaches settlement. */
  function Dropped(b: Blob): Option<BlobResult> {
    if !b.wellFormed then Some(BadBlob)
    else if b.hops > MAX_HOPS then Some(TooManyHops)
    else if b.claim.None? then Some(Unopened)
    else if OnBehalf(b.claim.value, b.sender) == "" then Some(SubmitFailed)
    else None
  }

  /** What a blob is answered with: why it was dropped, or its claim's verdict on the tables it meets. */
  function BlobVerdict(b: Book, blob: Blob, batch: nat, now: Time): BlobResult {
    if Dropped(blob).Some? then Dropped(blob).value
    else
      var item := blob.claim.value;
      var r := SubmitOne(b, item, OnBehalf(item, blob.sender), batch, now).1;
      if r.Failed? || (Settlement.LeavesPending(r) && item.payment.payer == "") then SubmitFailed else Routed(r)
  }

  /** The claims a batch of blobs routes to settlement, one batch id each. */
  function RoutedUploads(blobs: seq<Blob>, batch: nat): seq<Upload> {
    if blobs == [] then []
    else
      var n := |blobs| - 1;
      RoutedUploads(blobs[..n], batch) + RouteOf(blobs[n], batch + n)
  }

  /** The claim a blob routes, if any. */
  function RouteOf(b: Blob, batch: nat): seq<Upload> {
    if Dropped(b).Some? then [] else [Upload(b.claim.value, OnBehalf(b.claim.value, b.sender), batch)]
  }

  /** A blob reaches settlement exactly when it is well formed, has taken at most three hops, could be
      opened, and names a sender or a payee to submit for; it is submitted for the sender it names, else
      for the payee, and for nobody else. */
  lemma RoutedExactlyWhen(b: Blob, batch: nat)
    ensures var us := RouteOf(b, batch);
            && |us| <= 1
            && (us != [] <==>
                  b.wellFormed && b.hops <= 3 && b.claim.Some? && (b.sender != "" || b.claim.value.payment.payee != ""))
            && (us != [] ==>
                  us[0].item == b.claim.value && us[0].batch == batch && us[0].submitter != ""
                  && us[0].submitter == if b.sender != "" then b.sender else b.claim.value.payment.payee)
  {
  }

  /** What a blob is answered with: the first thing wrong with it ahead of settlement, a failure if its
      claim or its finalize event failed, else the claim's own answer. */
  lemma BlobAnswers(b: Book, blob: Blob, batch: nat, now: Time)
    ensures var v := BlobVerdict(b, blob, batch, now);
            && (v == BadBlob <==> !blob.wellFormed)
            && (v == TooManyHops <==> blob.wellFormed && blob.hops > 3)
            && (v == Unopened <==> blob.wellFormed && blob.hops <= 3 && blob.claim == None)
            && (v.Routed? ==>
                  RouteOf(blob, batch) != []
                  && (var u := RouteOf(blob, batch)[0];
                      v.result == SubmitOne(b, u.item, u.submitter, u.batch, now).1 && !v.result.Failed?))
            && (v == SubmitFailed && RouteOf(blob, batch) != [] ==>
                  var u := RouteOf(blob, batch)[0];
                  SubmitOne(b, u.item, u.submitter, u.batch, now).1.Failed? || u.item.payment.payer == "")
  {
    hide SubmitOne;
  }

  function IsRouted(): BlobResult -> bool { (r: BlobResult) => r.Routed? }

  /** The number accepted is the number of blobs answered with their claim's own answer. */
  lemma RoutedCounts(items: seq<BlobResult>)
    ensures Sum(items, RoutedOne()) == |Where(items, IsRouted())|
  {
    SumCounts(items, IsRouted(), RoutedOne());
  }

  /** Receiving one routed blob after the others. */
  lemma ReceiveRoute(b: Book, us: seq<Upload>, blob: Blob, batch: nat, now: Time)
    ensures Receive(b, us + RouteOf(blob, batch), now) == Receive(Receive(b, us, now), RouteOf(blob, batch), now)
  {
    hide SubmitOne, Dropped;
    if Dropped(blob).Some? {
      assert us + [] == us;
    } else {
      var u := RouteOf(blob, batch)[0];
      assert (us + [u])[..|us|] == us && [u][..0] == [];
    }
  }

  lemma SingleBatch(b: Book, item: ClaimItem, submitter: UserId, batch: nat, now: Time)
    ensures var (b', out) := Settlement.ClaimBatch(b, [item], submitter, batch, now);
            var (c, r) := SubmitOne(b, item, submitter, batch, now);
            && b' == c && out.failed == r.Failed? && (!out.failed ==> out.results == [r])
            && ("" in out.finalizers <==> Settlement.LeavesPending(r) && item.payment.payer == "")
  {
    hide SubmitOne;
    assert [item][..0] == [];
  }

  lemma SingleReceive(b: Book, u: Upload, now: Time)
    ensures Receive(b, [u], now) == SubmitOne(b, u.item, u.submitter, u.batch, now).0
  {
    hide SubmitOne;
    assert [u][..0] == [];
  }

  function RoutedOne(): BlobResult -> int { (r: BlobResult) => if r.Routed? then 1 else 0 }

  lemma NoneRouted(batch: nat)
    ensures RoutedUploads([], batch) == []
  {
  }

  lemma OneMoreRouted(blobs: seq<Blob>, i: nat, batch: nat)
    requires i < |blobs|
    ensures RoutedUploads(blobs[..i + 1], batch) == RoutedUploads(blobs[..i], batch) + RouteOf(blobs[i], batch + i)
  {
    hide RouteOf;
    assert blobs[..i + 1][..i] == blobs[..i];
  }

  class Service {
    const settlement: Settlement.Service
    const repo: Repo

    constructor (settlement: Settlement.Service)
      ensures this.settlement == settlement && repo == settlement.repo
    {
      this.settlement, repo := settlement, settlement.repo;
    }

    /** One blob: dropped, or its claim submitted on behalf of the receiver it names. */
    method RouteBlob(b: Blob, batch: nat, now: Time) returns (r: BlobResult)
      requires settlement.repo == repo
      modifies repo
      ensures repo.Stored() == Receive(old(repo.Stored()), RouteOf(b, batch), now)
      ensures r == BlobVerdict(old(repo.Stored()), b, batch, now) && repo.processed == old(repo.processed)
    {
      hide Settlement.ClaimBatch, Receive, SubmitOne;
      var dropped := Dropped(b);
      if dropped.Some? {
        NothingReceived(repo.Stored(), now);
        return dropped.value;
      }
      var item := b.claim.value;
      var receiver := OnBehalf(item, b.sender);
      SingleReceive(repo.Stored(), Convergence.Upload(item, receiver, batch), now);
      SingleBatch(repo.Stored(), item, receiver, batch, now);
      var out, enqueued, _, _ := settlement.SubmitClaim([item], receiver, batch, now, now);
      if !enqueued {
        return SubmitFailed;
      }
      return Routed(out.results[0]);
    }

    /** Whoever carries the blobs, what reaches the tables is the claims inside them, in order; one
        bad blob stops none of the others, and every blob is answered in its place with the verdict
        on it. */
    method Upload(uploader: UserId, blobs: seq<Blob>, batch: nat, now: Time)
      returns (accepted: nat, rejected: nat, items: seq<BlobResult>)
      requires settlement.repo == repo
      modifies repo
      ensures repo.Stored() == Receive(old(repo.Stored()), RoutedUploads(blobs, batch), now)
      ensures |items| == |blobs| && accepted == Sum(items, RoutedOne()) && rejected == |blobs| - accepted
      ensures forall i | 0 <= i < |blobs| ::
                items[i] == BlobVerdict(Receive(old(repo.Stored()), RoutedUploads(blobs[..i], batch), now), blobs[i],
                    batch + i, now)
      ensures repo.processed == old(repo.processed)
    {
      hide Receive, Dropped, RouteOf, BlobVerdict, RoutedUploads;
      NoneRouted(batch);
      accepted, rejected, items := 0, 0, [];
      NothingReceived(repo.Stored(), now);
      var i := 0;
      while i < |blobs|
        invariant 0 <= i <= |blobs| && |items| == i && accepted + rejected == i && accepted == Sum(items, RoutedOne())
        invariant repo.Stored() == Receive(old(repo.Stored()), RoutedUploads(blobs[..i], batch), now)
        invariant repo.processed == old(repo.processed)
        invariant forall k | 0 <= k < i ::
                    items[k] == BlobVerdict(Receive(old(repo.Stored()), RoutedUploads(blobs[..k], batch), now),
                        blobs[k], batch + k, now)
      {
        OneMoreRouted(blobs, i, batch);
        ReceiveRoute(old(repo.Stored()), RoutedUploads(blobs[..i], batch), blobs[i], batch + i, now);
        var r := RouteBlob(blobs[i], batch + i, now);
        SumPush(items, r, RoutedOne());
        items := items + [r];
        if r.Routed? {
          accepted := accepted + 1;
        } else {
          rejected := rejected + 1;
        }
        i := i + 1;
      }
      assert blobs[..|blobs|] == blobs;
    }
  }

  lemma NothingReceived(b: Book, now: Time)
    ensures Receive(b, [], now) == b
  {
  }

  /** The demo mint as one transaction: debit, credit, record, post. */
  method FundFromTreasury(repo: Repo, user: UserId, amount: int) returns (ok: bool)
    modifies repo
    ensures repo.outbox == old(repo.outbox) && repo.processed == old(repo.processed)
    ensures ok <==> Mint(old(repo.Stored()), user, amount).Some?
    ensures repo.Stored() == if ok then Mint(old(repo.Stored()), user, amount).value else old(repo.Stored())
  {
    if amount < MINT_MIN || amount > MINT_MAX || MainOf(user) !in repo.bal {
      return false;
    }
    var snapshot := repo.All();
    var txn := |repo.rows|;
    var legs := [LedgerLeg(Treasury, Debit, amount), LedgerLeg(MainOf(user), Credit, amount)];
    ok := repo.MoveBalances(legs);
    if !ok {
      repo.Rollback(snapshot);
      return;
    }
    repo.RecordTransaction(TxnRow(txn, user, None, DemoMint, RowCompleted, Credit, amount, None, OfMint, NoReason));
    var posted := repo.PostLedger(txn, legs);
  }
}
