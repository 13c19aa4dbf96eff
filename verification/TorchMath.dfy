/**
 The program's integer arithmetic. `None` is the overflow (or division by zero) that a handler
 reports as MathOverflow. Products of two u64 values always fit the u128 intermediates, so only
 the three-factor products test for u128 overflow.
 */
module TorchMath {
  import opened Base
  import opened Constants
  import FloorDivision

  function FitU64(x: nat): (r: Option<u64>) {
    if x <= 0xFFFF_FFFF_FFFF_FFFF then Some(x) else None
  }

  // ---------- Fees ----------

  function CalcProtocolFee(sol: u64, feeBps: u64): (r: Option<u64>)
  {
    if sol * feeBps <= U64_MAX then Some(sol * feeBps / 10_000) else None
  }

  /** Half of the protocol fee goes to the dev wallet. */
  function CalcDevWalletShare(protocolFee: u64): (r: Option<u64>)
    ensures r.Some? ==> r.value <= protocolFee
  {
    if protocolFee * DEV_WALLET_SHARE_BPS <= U64_MAX then Some(protocolFee * DEV_WALLET_SHARE_BPS / 10_000) else None
  }

  /** The flat treasury fee and the sell fee are both set to zero basis points. */
  function CalcFlatFee(sol: u64, feeBps: u64): (r: Option<u64>)
    requires feeBps == 0
    ensures r == Some(0)
  {
    Some(sol * feeBps / 10_000)
  }

  /** The treasury's share of a buy decays from 17.5% to 2.5% as the curve fills. */
  function CalcTreasuryRateBps(realSol: u64, target: u64): (r: Option<u64>)
    ensures r.Some? ==> 250 <= r.value <= 1750
    ensures r.None? <==> target == 0
  {
    if target == 0 then None
    else
      var decay := realSol * (TREASURY_SOL_MAX_BPS - TREASURY_SOL_MIN_BPS) / target;
      FloorDivision.Bounds(realSol * (TREASURY_SOL_MAX_BPS - TREASURY_SOL_MIN_BPS), target);
      Some(Max(SaturatingSub(TREASURY_SOL_MAX_BPS, decay), TREASURY_SOL_MIN_BPS))
  }

  /** The creator's share of a buy grows from 0.2% to 1% as the curve fills. */
  function CalcCreatorRateBps(realSol: u64, target: u64): (r: Option<u64>)
    ensures r.Some? ==> 20 <= r.value <= 100
    ensures r.None? <==> target == 0
  {
    if target == 0 then None
    else
      var growth := realSol * (CREATOR_SOL_MAX_BPS - CREATOR_SOL_MIN_BPS) / target;
      FloorDivision.Bounds(realSol * (CREATOR_SOL_MAX_BPS - CREATOR_SOL_MIN_BPS), target);
      Some(Min(CREATOR_SOL_MIN_BPS + growth, CREATOR_SOL_MAX_BPS))
  }

  // ---------- Constant-product swap ----------

  /** Tokens out for SOL in; the cast back to u64 never truncates because r <= vtok. */
  function CalcTokensOut(vtok: u64, vsol: u64, solIn: u64): (r: Option<u64>)
    ensures r.None? <==> vsol + solIn == 0
    ensures r.Some? ==> r.value <= vtok
  {
    if vsol + solIn == 0 then None
    else
      FloorDivision.Share(vtok, solIn, vsol + solIn);
      Some(vtok * solIn / (vsol + solIn))
  }

  /** SOL out for tokens in; the cast back to u64 never truncates because r <= vsol. */
  function CalcSolOut(vsol: u64, vtok: u64, tokens: u64): (r: Option<u64>)
    ensures r.None? <==> vtok + tokens == 0
    ensures r.Some? ==> r.value <= vsol
  {
    if vtok + tokens == 0 then None
    else
      FloorDivision.Share(vsol, tokens, vtok + tokens);
      Some(vsol * tokens / (vtok + tokens))
  }

  // ---------- Token-2022 transfer fee ----------

  /** 7 basis points, rounded up: the least fee that is not below the declared rate. */
  function CalcTransferFee(amount: u64): (fee: u64)
    ensures fee <= amount
    ensures amount * 7 <= fee * 10_000 < amount * 7 + 10_000
  {
    (amount * TRANSFER_FEE_BPS + 9_999) / 10_000
  }

  // ---------- Lending ----------

  function CalcCollateralValue(collateral: u64, poolSol: u64, poolTok: u64): (r: Option<u64>)
  {
    if poolTok == 0 then None
    else
      FloorDivision.Bounds(collateral * poolSol, poolTok);
      FitU64(collateral * poolSol / poolTok)
  }

  /** Worthless collateral gives the largest ratio, so it is always liquidatable. */
  function CalcLtvBps(debt: u64, value: u64): (r: Option<u64>)
  {
    if value == 0 then Some(0xFFFF_FFFF_FFFF_FFFF)
    else
      FloorDivision.Bounds(debt * 10_000, value);
      FitU64(debt * 10_000 / value)
  }

  /** principal * rate * slots / (10_000 * slots per epoch), at the fixed 2% rate. */
  function CalcInterest(principal: u64, slots: u64): (r: Option<u64>)
  {
    FloorDivision.NonNegative(principal, slots);
    var product := principal * slots;
    if product * INTEREST_RATE_BPS <= U128_MAX then
      FitU64(product * INTEREST_RATE_BPS / (10_000 * EPOCH_DURATION_SLOTS))
    else None
  }

  /** Collateral worth the covered debt plus the 10% bonus, at the pool's price. */
  function CalcCollateralToSeize(debt: u64, poolTok: u64, poolSol: u64): (r: Option<u64>)
  {
    FloorDivision.NonNegative(debt * (10_000 + LIQUIDATION_BONUS_BPS), poolTok);
    var product := debt * (10_000 + LIQUIDATION_BONUS_BPS) * poolTok;
    if poolSol == 0 || product > U128_MAX then None
    else
      FloorDivision.Bounds(product, 10_000 * poolSol);
      FitU64(product / (10_000 * poolSol))
  }

  /** The deeper the pool, the higher the allowed loan-to-value; zero means too thin to borrow. */
  function DepthMaxLtvBps(poolSol: u64): (r: u64)
    ensures r <= 5000
  {
    if poolSol < MIN_POOL_SOL_LENDING then 0
    else if poolSol < DEPTH_TIER_1 then DEPTH_LTV_0
    else if poolSol < DEPTH_TIER_2 then DEPTH_LTV_1
    else if poolSol < DEPTH_TIER_3 then DEPTH_LTV_2
    else DEPTH_LTV_3
  }

  // ---------- Rewards ----------

  function CalcUserShare(userVolume: u64, distributable: u64, totalVolume: u64): (r: Option<u64>)
  {
    if totalVolume == 0 then None
    else
      FloorDivision.Bounds(userVolume * distributable, totalVolume);
      FitU64(userVolume * distributable / totalVolume)
  }

  /** A claim is the pro-rata share, and never more than a tenth of what is distributable. */
  function CalcClaimWithCap(userVolume: u64, distributable: u64, totalVolume: u64): (r: Option<u64>)
    ensures r.Some? ==> r.value * 10 <= distributable
  {
    match CalcUserShare(userVolume, distributable, totalVolume)
    case None => None
    case Some(share) =>
      if distributable * MAX_CLAIM_SHARE_BPS <= U64_MAX then
        Some(Min(Min(share, distributable), distributable * MAX_CLAIM_SHARE_BPS / 10_000))
      else None
  }

  // ---------- Migration ----------

  function CalcTokensForPool(realSol: u64, vtok: u64, vsol: u64): (r: Option<u64>)
  {
    if vsol == 0 then None
    else
      FloorDivision.Bounds(realSol * vtok, vsol);
      FitU64(realSol * vtok / vsol)
  }
}
