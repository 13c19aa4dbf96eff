/** The bonding curve's arithmetic: how a buy is split, and what each trade does to the reserves. */
module BondingCurve {
  import opened Base
  import opened Constants
  import opened TorchMath
  import opened Accounts
  import FloorDivision

  /** Where the lamports of one buy go, and the tokens they buy. */
  datatype BuyQuote = BuyQuote(
    protocolFee: u64,      // the protocol treasury's part of the protocol fee
    devShare: u64,         // the dev wallet's part
    toTreasury: u64,
    toCreator: u64,
    toCurve: u64,
    tokensOut: u64)

  /** A basis-point share of an amount: multiplied in 64 bits, then divided. */
  function Portion(amount: u64, bps: u64): (r: Result<u64>)
    ensures r.Ok? && bps <= 10_000 ==> r.value <= amount
  {
    FloorDivision.NonNegative(amount, bps);
    if U64_MAX < amount * bps then Err(MathOverflow)
    else
      FloorDivision.Monotone(amount * Min(bps, 10_000), amount * 10_000, 10_000);
      Ok(amount * bps / 10_000)
  }

  function QuoteBuy(c: Curve, community: bool, sol: u64): (r: Result<BuyQuote>)
  {
    var feeTotal :- CalcProtocolFee(sol, PROTOCOL_FEE_BPS).OkOr(MathOverflow);
    var devShare :- CalcDevWalletShare(feeTotal).OkOr(MathOverflow);
    var treasuryFee :- CalcFlatFee(sol, TREASURY_FEE_BPS).OkOr(MathOverflow);
    var afterFees :- CheckedSub(sol, feeTotal + treasuryFee);
    var treasuryRate :- CalcTreasuryRateBps(c.rsol, ResolvedTarget(c.target)).OkOr(MathOverflow);
    var creatorRate :- CalcCreatorRateBps(c.rsol, ResolvedTarget(c.target)).OkOr(MathOverflow);
    var totalSplit :- Portion(afterFees, treasuryRate);
    var toCreator :- if community then Ok(0) else Portion(afterFees, creatorRate);
    var treasurySplit :- CheckedSub(totalSplit, toCreator);
    var toCurve := afterFees - totalSplit;
    var tokensOut :- CalcTokensOut(c.vtok, c.vsol, toCurve).OkOr(MathOverflow);
    Ok(BuyQuote(feeTotal - devShare, devShare, treasuryFee + treasurySplit, toCreator, toCurve, tokensOut))
  }

  /** The SOL a sale yields, gross of the (zero) sell fee. */
  function QuoteSell(c: Curve, tokens: u64): (r: Result<u64>)
  {
    CalcSolOut(c.vsol, c.vtok, tokens).OkOr(MathOverflow)
  }

  /** The reserves after `sol` entered the curve and `tokens` left it. */
  function AfterBuy(c: Curve, sol: u64, tokens: u64, slot: u64): (r: Result<Curve>)
  {
    var lamports :- CheckedAdd(c.lamports, sol);
    var vsol :- CheckedAdd(c.vsol, sol);
    var vtok :- CheckedSub(c.vtok, tokens);
    var rsol :- CheckedAdd(c.rsol, sol);
    var rtok :- CheckedSub(c.rtok, tokens);
    var done := rsol >= ResolvedTarget(c.target);
    Ok(c.(lamports := lamports, vsol := vsol, vtok := vtok, rsol := rsol, rtok := rtok,
          complete := c.complete || done,
          completeSlot := if done then slot else c.completeSlot,
          lastActivity := slot))
  }

  /** The reserves after `tokens` came back and `sol` was paid out. */
  function AfterSell(c: Curve, sol: u64, tokens: u64, slot: u64): (r: Result<Curve>)
  {
    var lamports :- CheckedSub(c.lamports, sol);
    var vsol :- CheckedSub(c.vsol, sol);
    var vtok :- CheckedAdd(c.vtok, tokens);
    var rsol :- CheckedSub(c.rsol, sol);
    var rtok :- CheckedAdd(c.rtok, tokens);
    Ok(c.(lamports := lamports, vsol := vsol, vtok := vtok, rsol := rsol, rtok := rtok, lastActivity := slot))
  }

  // ---------- What the arithmetic guarantees ----------

  /** Every lamport of a buy reaches exactly one recipient, at any reserve level. */
  lemma SplitIsExact(c: Curve, community: bool, sol: u64)
    requires QuoteBuy(c, community, sol).Ok?
    ensures var q := QuoteBuy(c, community, sol).value;
      q.toCurve + q.toTreasury + q.toCreator + q.devShare + q.protocolFee == sol
  {
  }

  /**
   Half a percent is the protocol's fee; the dev wallet gets half of it, the odd lamport stays with the
   protocol. The creator of a community token gets nothing, any other creator between 0.2% and 1% of the
   rest, to within a lamport.
   */
  lemma FeeShares(c: Curve, community: bool, sol: u64)
    requires QuoteBuy(c, community, sol).Ok?
    ensures var q := QuoteBuy(c, community, sol).value;
      && q.protocolFee + q.devShare == sol / 200
      && q.devShare <= q.protocolFee <= q.devShare + 1
      && (community ==> q.toCreator == 0)
      && (!community ==> 20 * (sol - sol / 200) < (q.toCreator + 1) * 10_000 && q.toCreator * 100 <= sol - sol / 200)
  {
    hide Portion, TorchMath.CalcTreasuryRateBps, TorchMath.CalcCreatorRateBps, TorchMath.CalcTokensOut;
    FeeHalves(sol);
    var rest := sol - sol * PROTOCOL_FEE_BPS / 10_000;
    var rate := CalcCreatorRateBps(c.rsol, ResolvedTarget(c.target));
    hide TorchMath.CalcProtocolFee, TorchMath.CalcDevWalletShare;
    if !community {
      CreatorPortion(rest, rate.value);
    }
  }

  /**
   Of what is left after the fee the treasury and the creator together get the treasury's rate at the real SOL
   before the buy, rounded down, the creator's part being the creator's rate of it; the curve gets the rest.
   */
  lemma SplitFollowsRates(c: Curve, community: bool, sol: u64)
    requires QuoteBuy(c, community, sol).Ok?
    ensures var q, rest := QuoteBuy(c, community, sol).value, sol - sol / 200; var split := q.toTreasury + q.toCreator;
      && split * 10_000 <= rest * CalcTreasuryRateBps(c.rsol, ResolvedTarget(c.target)).value < (split + 1) * 10_000
      && q.toCurve == rest - split
      && (!community ==>
          q.toCreator * 10_000 <= rest * CalcCreatorRateBps(c.rsol, ResolvedTarget(c.target)).value
            < (q.toCreator + 1) * 10_000)
  {
    hide Portion, TorchMath.CalcTreasuryRateBps, TorchMath.CalcCreatorRateBps, TorchMath.CalcTokensOut;
    FeeHalves(sol);
    var rest := sol - sol * PROTOCOL_FEE_BPS / 10_000;
    var treasury, creator := CalcTreasuryRateBps(c.rsol, ResolvedTarget(c.target)),
      CalcCreatorRateBps(c.rsol, ResolvedTarget(c.target));
    hide TorchMath.CalcProtocolFee, TorchMath.CalcDevWalletShare;
    PortionBounds(rest, treasury.value, treasury.value, treasury.value);
    if !community {
      PortionBounds(rest, creator.value, creator.value, creator.value);
    }
  }

  /**
   Below the target the treasury's rate falls, and the creator's grows, in proportion to the real SOL, each to
   within a basis point; from the target on they stay at 2.5% and at 1%.
   */
  lemma RatesAreLinear(rsol: u64, target: u64)
    requires 0 < target
    ensures var treasury, creator := CalcTreasuryRateBps(rsol, target).value, CalcCreatorRateBps(rsol, target).value;
      && (target <= rsol ==> treasury == 250 && creator == 100)
      && (rsol <= target ==> (1750 - treasury) * target <= 1500 * rsol < (1751 - treasury) * target)
      && (rsol <= target ==> (creator - 20) * target <= 80 * rsol < (creator - 19) * target)
  {
    ShareOfTarget(rsol, target, 1500);
    ShareOfTarget(rsol, target, 80);
  }

  lemma ShareOfTarget(rsol: nat, target: nat, span: nat)
    requires 0 < target
    ensures target <= rsol ==> span <= rsol * span / target
    ensures rsol <= target ==> rsol * span / target <= span
    ensures rsol * span / target * target <= rsol * span < (rsol * span / target + 1) * target
  {
    FloorDivision.NonNegative(rsol, span);
    FloorDivision.Bounds(rsol * span, target);
    FloorDivision.LowerIff(span, rsol * span, target);
    if rsol <= target {
      FloorDivision.MulLe(rsol, target, span);
      FloorDivision.LowerIff(span + 1, rsol * span, target);
    } else {
      FloorDivision.MulLe(target, rsol, span);
    }
  }

  /** The two halves of the fee differ by at most a lamport. */
  lemma FeeHalves(sol: u64)
    requires CalcProtocolFee(sol, PROTOCOL_FEE_BPS).Some?
    ensures CalcProtocolFee(sol, PROTOCOL_FEE_BPS) == Some(sol / 200)
    ensures CalcDevWalletShare(sol / 200).Some?
      ==> 2 * CalcDevWalletShare(sol / 200).value <= sol / 200 <= 2 * CalcDevWalletShare(sol / 200).value + 1
  {
  }

  lemma CreatorPortion(rest: u64, rate: u64)
    requires 20 <= rate <= 100 && Portion(rest, rate).Ok?
    ensures 20 * rest < (Portion(rest, rate).value + 1) * 10_000 && Portion(rest, rate).value * 100 <= rest
  {
    hide Portion;
    PortionBounds(rest, rate, 20, 100);
  }

  /** At least 82% of a buy reaches the curve, and at most 97.02% and two lamports. */
  lemma QuoteBounds(c: Curve, community: bool, sol: u64)
    requires QuoteBuy(c, community, sol).Ok?
    ensures var q := QuoteBuy(c, community, sol).value;
      && 82 * sol <= 100 * q.toCurve && 10_000 * q.toCurve <= 9702 * sol + 20_000
      && q.tokensOut <= c.vtok && 100 * q.toCreator <= sol && 149 * sol <= 10_000 * q.toTreasury + 10_000
  {
    var afterFees := sol - sol * PROTOCOL_FEE_BPS / 10_000;
    var treasuryRate := CalcTreasuryRateBps(c.rsol, ResolvedTarget(c.target)).value;
    PortionBounds(afterFees, treasuryRate, 250, 1750);
    if !community {
      PortionBounds(afterFees, CalcCreatorRateBps(c.rsol, ResolvedTarget(c.target)).value, 20, 100);
    }
    hide Portion, TorchMath.CalcTreasuryRateBps, TorchMath.CalcCreatorRateBps, TorchMath.CalcTokensOut;
  }

  /** The tokens of a quote are those its part for the curve buys. */
  lemma QuotedTokens(c: Curve, community: bool, sol: u64)
    requires QuoteBuy(c, community, sol).Ok?
    ensures var q := QuoteBuy(c, community, sol).value;
      Some(q.tokensOut) == CalcTokensOut(c.vtok, c.vsol, q.toCurve)
  {
    hide TorchMath.CalcTokensOut, Portion;
  }

  lemma PortionBounds(amount: u64, bps: u64, low: nat, high: nat)
    requires Portion(amount, bps).Ok? && low <= bps <= high
    ensures var part := Portion(amount, bps).value;
      amount * low < (part + 1) * 10_000 && part * 10_000 <= amount * high
  {
    FloorDivision.NonNegative(amount, bps);
    FloorDivision.Bounds(amount * bps, 10_000);
    FloorDivision.MulLe(low, bps, amount);
    FloorDivision.MulLe(bps, high, amount);
  }

  /**
   With live virtual reserves a quote fails exactly when the treasury's share overflows 64 bits before its
   division.
   */
  lemma QuoteSucceedsIff(c: Curve, community: bool, sol: u64)
    requires 0 < c.vsol
    ensures QuoteBuy(c, community, sol).Ok? <==>
      (sol - sol * PROTOCOL_FEE_BPS / 10_000) * CalcTreasuryRateBps(c.rsol, ResolvedTarget(c.target)).value <= U64_MAX
  {
    var afterFees := sol - sol * PROTOCOL_FEE_BPS / 10_000;
    var treasuryRate := CalcTreasuryRateBps(c.rsol, ResolvedTarget(c.target)).value;
    var creatorRate := CalcCreatorRateBps(c.rsol, ResolvedTarget(c.target)).value;
    FloorDivision.MulLe(250, treasuryRate, afterFees);
    FloorDivision.MulLe(creatorRate, treasuryRate, afterFees);
    FloorDivision.NonNegative(afterFees, creatorRate);
    FloorDivision.Monotone(afterFees * creatorRate, afterFees * treasuryRate, 10_000);
    hide TorchMath.CalcTreasuryRateBps, TorchMath.CalcCreatorRateBps, TorchMath.CalcTokensOut;
  }

  /** A buy never lowers the constant product. */
  lemma BuyKeepsProduct(vsol: u64, vtok: u64, sol: u64)
    requires 0 < vsol + sol
    ensures var out := CalcTokensOut(vtok, vsol, sol).value;
      (vsol + sol) * (vtok - out) >= vsol * vtok
  {
    var out := CalcTokensOut(vtok, vsol, sol).value;
    FloorDivision.NonNegative(vtok, sol);
    FloorDivision.Bounds(vtok * sol, vsol + sol);
    assert (vsol + sol) * (vtok - out) == vsol * vtok + vtok * sol - out * (vsol + sol);
  }

  /** A sale never lowers the constant product. */
  lemma SellKeepsProduct(vsol: u64, vtok: u64, tokens: u64)
    requires 0 < vtok + tokens
    ensures var out := CalcSolOut(vsol, vtok, tokens).value;
      (vsol - out) * (vtok + tokens) >= vsol * vtok
  {
    BuyKeepsProduct(vtok, vsol, tokens);
    var out := CalcSolOut(vsol, vtok, tokens).value;
    assert (vsol - out) * (vtok + tokens) == (vtok + tokens) * (vsol - out);
  }

  /** Putting more in never takes less out. */
  lemma SwapIsMonotone(vtok: nat, vsol: nat, a: nat, b: nat)
    requires a <= b && 0 < vsol
    ensures vtok * a / (vsol + a) <= vtok * b / (vsol + b)
  {
    FloorDivision.NonNegative(vtok, a);
    FloorDivision.NonNegative(vtok, b);
    FloorDivision.Bounds(vtok * a, vsol + a);
    FloorDivision.Share(vtok, a, vsol + a);
    var out := vtok * a / (vsol + a);
    FloorDivision.MulLe(out, vtok, b - a);
    assert out * (vsol + b) == out * (vsol + a) + out * (b - a);
    assert vtok * b == vtok * a + vtok * (b - a);
    FloorDivision.LowerIff(out, vtok * b, vsol + b);
  }

  /**
   Redemption: if virtual SOL exceeds real SOL by no more than at the start, and the product has
   not fallen below its start, selling back any part of what was sold is covered.
   */
  lemma SoldTokensAreRedeemable(vsol: u64, vtok: u64, rsol: u64, ivs: nat, ivt: nat, tokens: u64)
    requires vsol <= ivs + rsol && vsol * vtok >= ivs * ivt
    requires vtok + tokens <= ivt && 0 < vtok + tokens
    ensures CalcSolOut(vsol, vtok, tokens).value <= rsol
  {
    var den := vtok + tokens;
    FloorDivision.NonNegative(vsol, tokens);
    FloorDivision.LowerIff(rsol + 1, vsol * tokens, den);
    FloorDivision.MulLe(den, ivt, ivs);
    FloorDivision.MulLe(vsol - ivs, rsol, den);
    assert (vsol - ivs) * den == vsol * den - ivs * den;
    assert (rsol + 1) * den == rsol * den + den;
    assert vsol * den == vsol * vtok + vsol * tokens;
  }
}
