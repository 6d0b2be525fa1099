/** KYC tiers, their sending limits and the accept-time limit check. */
module Limits {

  const MAX_INT64 := 0x7FFF_FFFF_FFFF_FFFF

  /** Anything the tier column may hold that is not one of the four known strings ranks as none. */
  datatype Tier = TierZero | TierOne | TierTwo | TierThree | TierOther

  datatype TierLimits = TierLimits(single: int, daily: int)

  function LimitsForTier(t: Tier): TierLimits {
    match t
    case TierOne => TierLimits(10_000_00, 30_000_00)
    case TierTwo => TierLimits(50_000_00, 300_000_00)
    case TierThree => TierLimits(MAX_INT64, MAX_INT64)
    case _ => TierLimits(0, 0)
  }

  /** The ordering the promotion guard uses. */
  function TierRank(t: Tier): int {
    match t
    case TierOne => 1
    case TierTwo => 2
    case TierThree => 3
    case _ => 0
  }

  /** Two's-complement 64-bit wrap-around of a machine addition. */
  function Wrap64(x: int): int {
    (x + 0x8000_0000_0000_0000) % 0x1_0000_0000_0000_0000 - 0x8000_0000_0000_0000
  }

  datatype LimitVerdict = Within | TierBlocked | ExceedsSingle | SpendUnreadable | ExceedsDaily

  /** The three limit checks in order; a stored sum beyond 64 bits fails the query itself. */
  function CheckLimits(t: Tier, spentToday: int, amount: int): LimitVerdict {
    var limits := LimitsForTier(t);
    if limits.single == 0 then TierBlocked
    else if amount > limits.single then ExceedsSingle
    else if spentToday > MAX_INT64 then SpendUnreadable
    else if Wrap64(spentToday + amount) > limits.daily then ExceedsDaily
    else Within
  }
}
