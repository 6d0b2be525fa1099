/** The KYC-tier cache in front of the daily limit: a stale tier is never too high, so the day's
    spending never exceeds the limit of the tier the sender now has. */
module TierCache {
  import opened Basics
  import opened Domain
  import opened Limits
  import opened Transfers
  import opened TransferKeeps

  /** A tier somebody read for a user and has not let go of: between reading the database and
      setting the cache, or between the lookup and the accept. */
  datatype Holding = Holding(user: UserId, tier: Tier)

  datatype TierWorld = TierWorld(
    stored: map<UserId, Tier>, cache: map<UserId, Tier>, held: set<Holding>, book: Book, outbox: seq<OutboxRow>)

  datatype TierStep =
    | Join(user: UserId, tier: Tier)
    | Lookup(user: UserId)
    | Fill(holding: Holding)
    | Forget(user: UserId)
    | Promote(user: UserId, tier: Tier)
    | AcceptWith(holding: Holding, request: TransferRequest, now: Time)
    | Process(payload: TransferPayload)
    | LetGo(holding: Holding)

  /** The guarded update: only to a strictly higher rank. */
  function Promoted(stored: Tier, granted: Tier): Tier {
    if TierRank(stored) < TierRank(granted) then granted else stored
  }

  /** A verified submission leaves the higher of the two ranks. */
  lemma PromotedIsHigher(stored: Tier, granted: Tier)
    ensures var t := Promoted(stored, granted);
            && TierRank(t) == Max(TierRank(stored), TierRank(granted)) && t in {stored, granted}
            && (TierRank(granted) <= TierRank(stored) ==> t == stored)
  {
  }

  ghost function TakeStep(w: TierWorld, e: TierStep): TierWorld {
    match e
    case Join(u, t) => if u in w.stored then w else w.(stored := w.stored[u := t])
    case Lookup(u) =>
      if u in w.cache then w.(held := w.held + {Holding(u, w.cache[u])})
      else if u in w.stored then w.(held := w.held + {Holding(u, w.stored[u])})
      else w
    case Fill(h) => if h in w.held then w.(cache := w.cache[h.user := h.tier]) else w
    case Forget(u) => w.(cache := w.cache - {u})
    case Promote(u, t) => if u in w.stored then w.(stored := w.stored[u := Promoted(w.stored[u], t)]) else w
    case AcceptWith(h, r, now) =>
      if h in w.held && r.sender == h.user && r.tier == h.tier then
        var a := InitiateTransfer(w.book, w.outbox, r, now);
        w.(book := a.book, outbox := a.outbox)
      else w
    case Process(p) =>
      if PayloadOk(w.book.transfers, p) && w.book.transfers[p.transfer].status == Domain.Accepted then
        w.(book := ProcessTransfer(w.book, p).0)
      else w
    case LetGo(h) => w.(held := w.held - {h})
  }

  ghost function TakeSteps(w: TierWorld, es: seq<TierStep>): TierWorld
    decreases |es|
  {
    if es == [] then w else TakeStep(TakeSteps(w, es[..|es| - 1]), es[|es| - 1])
  }

  /** Every cached or held tier ranks at most as high as the stored one. */
  predicate NotAhead(w: TierWorld) {
    && (forall u | u in w.cache :: u in w.stored && TierRank(w.cache[u]) <= TierRank(w.stored[u]))
    && (forall h | h in w.held :: h.user in w.stored && TierRank(h.tier) <= TierRank(w.stored[h.user]))
  }

  ghost function DaySpend(ts: seq<Transfer>, u: UserId, day: int): int { Sum(ts, SpentOn(u, day)) }

  /** Below the top tier, no day's in-flight and settled total exceeds the current daily limit. */
  ghost predicate WithinLimits(w: TierWorld) {
    && (forall t | 0 <= t < |w.book.transfers| :: w.book.transfers[t].sender in w.stored)
    && (forall u, day: int | u in w.stored && TierRank(w.stored[u]) < 3 ::
          DaySpend(w.book.transfers, u, day) <= LimitsForTier(w.stored[u]).daily)
  }

  /** A higher rank never lowers a limit. */
  lemma LimitsMonotone(t: Tier, t': Tier)
    requires TierRank(t) <= TierRank(t')
    ensures LimitsForTier(t).single <= LimitsForTier(t').single && LimitsForTier(t).daily <= LimitsForTier(t').daily
  {
  }

  /** Below the top tier the machine addition cannot wrap, so the check means what it says. */
  lemma CheckMeans(t: Tier, spent: int, amount: int)
    requires TierRank(t) < 3 && amount > 0 && 0 <= spent
    ensures spent <= LimitsForTier(t).daily ==>
              (CheckLimits(t, spent, amount) == Within <==>
                 TierRank(t) > 0 && amount <= LimitsForTier(t).single && spent + amount <= LimitsForTier(t).daily)
  {
  }

  /** The top tier has no limit to keep: its check passes whatever was spent, because a sum beyond
      64 bits wraps to a negative number. */
  lemma TopTierUnchecked(spent: int, amount: int)
    requires 0 <= spent <= MAX_INT64 && 0 < amount <= MAX_INT64
    ensures CheckLimits(TierThree, spent, amount) == Within
  {
  }

  lemma SpentNonneg(ts: seq<Transfer>, u: UserId, day: int)
    requires forall t | 0 <= t < |ts| :: ts[t].amount > 0
    ensures DaySpend(ts, u, day) >= 0
  {
    SumNonneg(ts, SpentOn(u, day));
  }

  predicate Positive(ts: seq<Transfer>) { forall t | 0 <= t < |ts| :: ts[t].amount > 0 }

  ghost predicate TierOk(w: TierWorld) { NotAhead(w) && WithinLimits(w) && Positive(w.book.transfers) }

  lemma NewcomerSpentNothing(ts: seq<Transfer>, u: UserId, day: int)
    requires forall t | 0 <= t < |ts| :: ts[t].sender != u
    ensures DaySpend(ts, u, day) == 0
  {
    SumZero(ts, SpentOn(u, day));
  }

  lemma JoinKeeps(w: TierWorld, u: UserId, t: Tier)
    requires TierOk(w) && u !in w.stored
    ensures TierOk(w.(stored := w.stored[u := t]))
  {
    forall v, day: int | v in w.stored[u := t] && TierRank(w.stored[u := t][v]) < 3
      ensures DaySpend(w.book.transfers, v, day) <= LimitsForTier(w.stored[u := t][v]).daily
    {
      if v == u {
        NewcomerSpentNothing(w.book.transfers, u, day);
      }
    }
  }

  lemma PromoteKeeps(w: TierWorld, u: UserId, t: Tier)
    requires TierOk(w) && u in w.stored
    ensures TierOk(w.(stored := w.stored[u := Promoted(w.stored[u], t)]))
  {
    LimitsMonotone(w.stored[u], Promoted(w.stored[u], t));
  }

  /** The heart of it: the limit that was checked belongs to a tier no higher than the stored one. */
  lemma AcceptKeepsLimits(w: TierWorld, h: Holding, r: TransferRequest, now: Time)
    requires TierOk(w) && h in w.held && r.sender == h.user && r.tier == h.tier
    ensures var a := InitiateTransfer(w.book, w.outbox, r, now);
            TierOk(w.(book := a.book, outbox := a.outbox))
  {
    var ts := w.book.transfers;
    AcceptShape(w.book, w.outbox, r, now);
    var a := InitiateTransfer(w.book, w.outbox, r, now);
    if a.result.AcceptedAs? {
      var x := a.book.transfers[|ts|];
      forall u, day: int | u in w.stored && TierRank(w.stored[u]) < 3
        ensures DaySpend(a.book.transfers, u, day) <= LimitsForTier(w.stored[u]).daily
      {
        assert DaySpend(ts, u, day) <= LimitsForTier(w.stored[u]).daily;
        SumPush(ts, x, SpentOn(u, day));
        if u == r.sender && day == r.day {
          SpentNonneg(ts, u, day);
          NoWrapBelowTop(h.tier, w.stored[u], DaySpend(ts, u, day), r.amount);
        }
      }
    }
  }

  lemma NoWrapBelowTop(t: Tier, stored: Tier, spent: int, amount: int)
    requires TierRank(t) <= TierRank(stored) < 3 && amount > 0
    requires 0 <= spent <= LimitsForTier(stored).daily && CheckLimits(t, spent, amount) == Within
    ensures spent + amount <= LimitsForTier(stored).daily
  {
    LimitsMonotone(t, stored);
  }

  lemma AcceptShape(b: Book, outbox: seq<OutboxRow>, r: TransferRequest, now: Time)
    ensures var a := InitiateTransfer(b, outbox, r, now);
            if a.result.AcceptedAs? then
              && CheckLimits(r.tier, DaySpend(b.transfers, r.sender, r.day), r.amount) == Within && r.amount > 0
              && |a.book.transfers| == |b.transfers| + 1
              && a.book.transfers == b.transfers + [a.book.transfers[|b.transfers|]]
              && (var x := a.book.transfers[|b.transfers|];
                  x.sender == r.sender && x.amount == r.amount && x.day == r.day && x.status == Domain.Accepted)
            else a.book == b
  {
    hide CheckLimits, FindTransfer, Sum;
  }

  /** Processing can only lower a day's total: a failed transfer no longer counts. */
  lemma ProcessLowers(w: TierWorld, p: TransferPayload)
    requires TierOk(w) && PayloadOk(w.book.transfers, p) && w.book.transfers[p.transfer].status == Domain.Accepted
    ensures TierOk(w.(book := ProcessTransfer(w.book, p).0))
  {
    var ts, ts' := w.book.transfers, ProcessTransfer(w.book, p).0.transfers;
    var x := ts'[p.transfer];
    assert ts' == ts[p.transfer := x] && x == ts[p.transfer].(status := x.status, reason := x.reason);
    forall u, day: int | u in w.stored && TierRank(w.stored[u]) < 3
      ensures DaySpend(ts', u, day) <= LimitsForTier(w.stored[u]).daily
    {
      assert DaySpend(ts, u, day) <= LimitsForTier(w.stored[u]).daily;
      SumUpdate(ts, p.transfer, x, SpentOn(u, day));
    }
  }

  lemma StepKeepsTiers(w: TierWorld, e: TierStep)
    requires TierOk(w)
    ensures TierOk(TakeStep(w, e))
  {
    match e
    case Join(u, t) => if u !in w.stored { JoinKeeps(w, u, t); }
    case Promote(u, t) => if u in w.stored { PromoteKeeps(w, u, t); }
    case AcceptWith(h, r, now) =>
      if h in w.held && r.sender == h.user && r.tier == h.tier {
        hide InitiateTransfer;
        AcceptKeepsLimits(w, h, r, now);
      }
    case Process(p) =>
      if PayloadOk(w.book.transfers, p) && w.book.transfers[p.transfer].status == Domain.Accepted {
        hide ProcessTransfer;
        ProcessLowers(w, p);
      }
    case _ =>
  }

  lemma {:induction false} StepsKeepTiers(w: TierWorld, es: seq<TierStep>)
    requires TierOk(w)
    ensures TierOk(TakeSteps(w, es))
    decreases |es|
  {
    hide TierOk, TakeStep;
    if es != [] {
      StepsKeepTiers(w, es[..|es| - 1]);
      StepKeepsTiers(TakeSteps(w, es[..|es| - 1]), es[|es| - 1]);
    }
  }

  /** However lookups, late cache fills, invalidations, promotions and accepts interleave, starting
      with no transfers: each cached or held tier ranks at most as high as the stored one, and
      below the top tier a day's accepted and settled total stays within the sender's current
      daily limit. */
  lemma StaleTierIsSafe(w: TierWorld, es: seq<TierStep>, u: UserId, day: int)
    requires w.cache == map[] && w.held == {} && w.book.transfers == []
    requires u in TakeSteps(w, es).stored
    ensures var w' := TakeSteps(w, es);
            && (u in w'.cache ==> TierRank(w'.cache[u]) <= TierRank(w'.stored[u]))
            && (forall t: Tier | Holding(u, t) in w'.held :: TierRank(t) <= TierRank(w'.stored[u]))
            && (TierRank(w'.stored[u]) < 3 ==> DaySpend(w'.book.transfers, u, day) <= LimitsForTier(w'.stored[u]).daily)
  {
    StartsWithin(w);
    hide TierOk, TakeSteps;
    StepsKeepTiers(w, es);
    TierFacts(TakeSteps(w, es), u, day);
  }

  lemma StartsWithin(w: TierWorld)
    requires w.cache == map[] && w.held == {} && w.book.transfers == []
    ensures TierOk(w)
  {
  }

  lemma TierFacts(w: TierWorld, u: UserId, day: int)
    requires TierOk(w) && u in w.stored
    ensures u in w.cache ==> TierRank(w.cache[u]) <= TierRank(w.stored[u])
    ensures forall t: Tier | Holding(u, t) in w.held :: TierRank(t) <= TierRank(w.stored[u])
    ensures TierRank(w.stored[u]) < 3 ==> DaySpend(w.book.transfers, u, day) <= LimitsForTier(w.stored[u]).daily
  {
  }

  /** Neither the cache nor the holdings can run ahead, whichever way they are filled. */
  class TierRepo {
    var stored: map<UserId, Tier>
    var cache: map<UserId, Tier>

    constructor ()
      ensures stored == map[] && cache == map[]
    {
      stored, cache := map[], map[];
    }

    /** Cache-aside lookup, run without interruption. */
    method GetSenderKYCTier(user: UserId) returns (tier: Option<Tier>)
      modifies this`cache
      ensures tier == if user in old(cache) then Some(old(cache)[user]) else if user in stored then Some(stored[user])
              else None
      ensures cache == if user !in old(cache) && user in stored then old(cache)[user := stored[user]] else old(cache)
    {
      if user in cache {
        return Some(cache[user]);
      }
      if user !in stored {
        return None;
      }
      cache := cache[user := stored[user]];
      return Some(stored[user]);
    }

    /** A verified submission: the guarded promotion, then, once committed, the invalidation. */
    method SubmitKYC(user: UserId, granted: Option<Tier>)
      modifies this
      ensures granted.None? ==> stored == old(stored) && cache == old(cache)
      ensures granted.Some? ==> cache == old(cache) - {user}
      ensures granted.Some? && user in old(stored) ==>
                stored == old(stored)[user := Promoted(old(stored)[user], granted.value)]
                && TierRank(stored[user]) == Max(TierRank(old(stored)[user]), TierRank(granted.value))
      ensures granted.Some? && user !in old(stored) ==> stored == old(stored)
    {
      if granted.Some? {
        if user in stored && TierRank(stored[user]) < TierRank(granted.value) {
          stored := stored[user := granted.value];
        } else {
          assert user in stored ==> stored == stored[user := stored[user]];
        }
        cache := cache - {user};
      }
    }
  }
}
