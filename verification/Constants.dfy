/** The protocol's numeric parameters. Amounts are in lamports and token base units. */
module Constants {
  import opened Base

  // Supply and bonding
  const TOTAL_SUPPLY: u64 := 1_000_000_000_000_000
  const CURVE_SUPPLY: u64 := 700_000_000_000_000
  const TREASURY_LOCK_TOKENS: u64 := 300_000_000_000_000
  const MAX_WALLET_TOKENS: u64 := 20_000_000_000_000
  const BONDING_TARGET_LAMPORTS: u64 := 200_000_000_000
  const BONDING_TARGET_SPARK: u64 := 50_000_000_000
  const BONDING_TARGET_FLAME: u64 := 100_000_000_000
  const BONDING_TARGET_TORCH: u64 := 200_000_000_000
  const INITIAL_VIRTUAL_SOL: u64 := 30_000_000_000
  const INITIAL_VIRTUAL_TOKENS: u64 := 107_300_000_000_000
  const INITIAL_VIRTUAL_TOKENS_V27: u64 := 756_250_000_000_000
  const MIN_SOL_AMOUNT: u64 := 1_000_000
  const INACTIVITY_PERIOD_SLOTS: u64 := 1_512_000
  const MIN_RECLAIM_THRESHOLD: u64 := 10_000_000
  const MIN_MIGRATION_SOL: u64 := 1_500_000_000
  const STAR_COST_LAMPORTS: u64 := 20_000_000
  const CREATOR_REWARD_THRESHOLD: u64 := 2000

  // Fees, in basis points
  const PROTOCOL_FEE_BPS: u64 := 50
  const DEV_WALLET_SHARE_BPS: u64 := 5000
  const TREASURY_FEE_BPS: u64 := 0
  const SELL_FEE_BPS: u64 := 0
  const TREASURY_SOL_MAX_BPS: u64 := 1750
  const TREASURY_SOL_MIN_BPS: u64 := 250
  const CREATOR_SOL_MIN_BPS: u64 := 20
  const CREATOR_SOL_MAX_BPS: u64 := 100
  const TRANSFER_FEE_BPS: u64 := 7

  // Epoch rewards
  const EPOCH_DURATION_SECONDS: i64 := 604_800
  const PROTOCOL_TREASURY_RESERVE_FLOOR: u64 := 0
  const MIN_EPOCH_VOLUME_ELIGIBILITY: u64 := 2_000_000_000
  const MIN_CLAIM_AMOUNT: u64 := 100_000_000
  const MAX_CLAIM_SHARE_BPS: u64 := 1_000

  // Lending. These are written once, when the token is created, and no handler changes them.
  const INTEREST_RATE_BPS: u64 := 200
  const MAX_LTV_BPS: u64 := 5000
  const LIQUIDATION_THRESHOLD_BPS: u64 := 6500
  const LIQUIDATION_BONUS_BPS: u64 := 1000
  const LIQUIDATION_CLOSE_BPS: u64 := 5000
  const LENDING_UTILIZATION_CAP_BPS: u64 := 8000
  const MIN_BORROW_AMOUNT: u64 := 100_000_000
  const BORROW_SHARE_MULTIPLIER: u64 := 23
  const EPOCH_DURATION_SLOTS: u64 := 1_512_000
  const MIN_POOL_SOL_LENDING: u64 := 5_000_000_000
  const DEPTH_TIER_1: u64 := 50_000_000_000
  const DEPTH_TIER_2: u64 := 200_000_000_000
  const DEPTH_TIER_3: u64 := 500_000_000_000
  const DEPTH_LTV_0: u64 := 2500
  const DEPTH_LTV_1: u64 := 3500
  const DEPTH_LTV_2: u64 := 4500
  const DEPTH_LTV_3: u64 := 5000

  function InitialVirtualReserves(bondingTarget: u64): (u64, u64) {
    if bondingTarget == BONDING_TARGET_SPARK then (18_750_000_000, INITIAL_VIRTUAL_TOKENS_V27)
    else if bondingTarget == BONDING_TARGET_FLAME then (37_500_000_000, INITIAL_VIRTUAL_TOKENS_V27)
    else if bondingTarget == BONDING_TARGET_TORCH then (75_000_000_000, INITIAL_VIRTUAL_TOKENS_V27)
    else (INITIAL_VIRTUAL_SOL, INITIAL_VIRTUAL_TOKENS)
  }

  /** A stored target of zero stands for the default tier. */
  function ResolvedTarget(bondingTarget: u64): (r: u64)
    ensures 0 < r
  {
    if bondingTarget == 0 then BONDING_TARGET_LAMPORTS else bondingTarget
  }

  predicate IsTier(bondingTarget: u64) {
    bondingTarget == BONDING_TARGET_SPARK || bondingTarget == BONDING_TARGET_FLAME
      || bondingTarget == BONDING_TARGET_TORCH
  }
}
