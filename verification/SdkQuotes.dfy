/** The SDK's off-chain copy of the curve arithmetic, against the program's own. */
module SdkQuotes {
  import opened Base
  import opened Constants
  import opened TorchMath
  import opened TokenLedger
  import opened Accounts
  import opened BondingCurve
  import opened Program
  import Wallets
  import FloorDivision

  datatype TokensQuote = TokensQuote(
    tokensToUser: nat, protocolFee: nat, treasuryFee: nat,
    solToCurve: nat, solToTreasury: int, solToCreator: nat)

  /** The fee arguments the program's constants correspond to, and those the SDK's callers pass. */
  const CHAIN_FEES: (nat, nat) := (50, 0)
  const CALLER_FEES: (nat, nat) := (100, 100)

  /** calculateTokensOut, on big integers; it throws where it would divide by zero. */
  function CalculateTokensOut(sol: nat, vsol: nat, vtok: nat, rsol: nat, fees: (nat, nat),
                              target: nat): (q: TokensQuote)
    requires fees.0 + fees.1 <= 10_000 && 0 < vsol
  {
    var protocolFee := sol * fees.0 / 10_000;
    var treasuryFee := sol * fees.1 / 10_000;
    FeesFit(sol, fees.0, fees.1);
    var afterFees := sol - protocolFee - treasuryFee;
    var resolved := if target == 0 then 200_000_000_000 else target;
    FloorDivision.Bounds(rsol * 1500, resolved);
    FloorDivision.Bounds(rsol * 80, resolved);
    var treasuryRate := Max(1750 - rsol * 1500 / resolved, 250);
    var creatorRate := Min(20 + rsol * 80 / resolved, 100);
    FloorDivision.Share(afterFees, treasuryRate, 10_000);
    FloorDivision.Share(afterFees, creatorRate, 10_000);
    var totalSplit := afterFees * treasuryRate / 10_000;
    var solToCreator := afterFees * creatorRate / 10_000;
    var solToCurve := afterFees - totalSplit;
    FloorDivision.Share(vtok, solToCurve, vsol + solToCurve);
    TokensQuote(vtok * solToCurve / (vsol + solToCurve), protocolFee, treasuryFee,
                solToCurve, treasuryFee + totalSplit - solToCreator, solToCreator)
  }

  /** calculateSolOut: no fee on sales. */
  function CalculateSolOut(tokens: nat, vsol: nat, vtok: nat): (sol: nat)
    requires 0 < vtok + tokens
  {
    FloorDivision.Share(vsol, tokens, vtok + tokens);
    vsol * tokens / (vtok + tokens)
  }

  /** The least output a caller accepts, given a slippage tolerance in basis points. */
  function MinOutput(amount: nat, slippageBps: nat): (m: nat)
    requires slippageBps <= 10_000
    ensures m <= amount
    ensures m * 10_000 <= amount * (10_000 - slippageBps) < (m + 1) * 10_000
  {
    FloorDivision.Share(amount, 10_000 - slippageBps, 10_000);
    FloorDivision.NonNegative(amount, 10_000 - slippageBps);
    FloorDivision.Bounds(amount * (10_000 - slippageBps), 10_000);
    amount * (10_000 - slippageBps) / 10_000
  }

  lemma FeesFit(sol: nat, a: nat, b: nat)
    requires a + b <= 10_000
    ensures 0 <= sol * a / 10_000 && 0 <= sol * b / 10_000
    ensures sol * a / 10_000 + sol * b / 10_000 <= sol
  {
    FloorDivision.NonNegative(sol, a);
    FloorDivision.NonNegative(sol, b);
    FloorDivision.SumOfFloors(sol * a, sol * b, 10_000);
    assert sol * a + sol * b == sol * (a + b);
    FloorDivision.Share(sol, a + b, 10_000);
  }

  function QuoteOn(c: Curve, sol: nat, fees: (nat, nat)): TokensQuote
    requires fees.0 + fees.1 <= 10_000 && 0 < c.vsol
  {
    CalculateTokensOut(sol, c.vsol, c.vtok, c.rsol, fees, c.target)
  }

  /**
   With the chain's fees the SDK and the program agree to the lamport. Only the split between
   treasury and creator can differ: the SDK does not know of community tokens.
   */
  lemma SdkAgreesWithChain(c: Curve, community: bool, sol: u64)
    requires 0 < c.vsol && QuoteBuy(c, community, sol).Ok?
    ensures var sdk, chain := QuoteOn(c, sol, CHAIN_FEES), QuoteBuy(c, community, sol).value;
      && sdk.solToCurve == chain.toCurve && sdk.tokensToUser == chain.tokensOut
      && sdk.protocolFee == chain.protocolFee + chain.devShare
      && sdk.solToTreasury + sdk.solToCreator == chain.toTreasury + chain.toCreator
      && (!community ==> sdk.solToCreator == chain.toCreator)
  {
  }

  lemma KeptIsMonotone(a: nat, b: nat, rate: nat)
    requires a <= b && rate <= 10_000
    ensures 0 <= a * rate / 10_000 <= a && 0 <= b * rate / 10_000 <= b
    ensures a - a * rate / 10_000 <= b - b * rate / 10_000
  {
    FloorDivision.Share(a, rate, 10_000);
    FloorDivision.Share(b, rate, 10_000);
    FloorDivision.NonNegative(a, rate);
    FloorDivision.MulLe(rate, 10_000, b - a);
    assert b * rate == a * rate + (b - a) * rate;
    FloorDivision.NonNegative(b - a, rate);
  }

  /** Higher fees never quote more, all the way through the split and the swap. */
  lemma HigherFeesQuoteLess(sol: nat, vsol: nat, vtok: nat, rsol: nat, low: (nat, nat), high: (nat, nat), target: nat)
    requires low.0 <= high.0 && low.1 <= high.1 && high.0 + high.1 <= 10_000 && 0 < vsol
    ensures CalculateTokensOut(sol, vsol, vtok, rsol, high, target).solToCurve
         <= CalculateTokensOut(sol, vsol, vtok, rsol, low, target).solToCurve
    ensures CalculateTokensOut(sol, vsol, vtok, rsol, high, target).tokensToUser
         <= CalculateTokensOut(sol, vsol, vtok, rsol, low, target).tokensToUser
  {
    FeesFit(sol, low.0, low.1);
    FeesFit(sol, high.0, high.1);
    FloorDivision.MulLe(low.0, high.0, sol);
    FloorDivision.MulLe(low.1, high.1, sol);
    FloorDivision.NonNegative(low.0, sol);
    FloorDivision.NonNegative(low.1, sol);
    FloorDivision.Monotone(sol * low.0, sol * high.0, 10_000);
    FloorDivision.Monotone(sol * low.1, sol * high.1, 10_000);
    var resolved := if target == 0 then 200_000_000_000 else target;
    FloorDivision.Bounds(rsol * 1500, resolved);
    var rate := Max(1750 - rsol * 1500 / resolved, 250);
    var afterLow := sol - sol * low.0 / 10_000 - sol * low.1 / 10_000;
    var afterHigh := sol - sol * high.0 / 10_000 - sol * high.1 / 10_000;
    KeptIsMonotone(afterHigh, afterLow, rate);
    SwapIsMonotone(vtok, vsol, afterHigh - afterHigh * rate / 10_000, afterLow - afterLow * rate / 10_000);
  }

  /** The quote the SDK actually makes never promises more than the chain delivers. */
  lemma QuoteNeverOverPromises(c: Curve, community: bool, sol: u64)
    requires 0 < c.vsol && QuoteBuy(c, community, sol).Ok?
    ensures QuoteOn(c, sol, CALLER_FEES).tokensToUser <= QuoteBuy(c, community, sol).value.tokensOut
    ensures QuoteOn(c, sol, CALLER_FEES).solToCurve <= QuoteBuy(c, community, sol).value.toCurve
  {
    SdkAgreesWithChain(c, community, sol);
    hide QuoteBuy, CalculateTokensOut;
    HigherFeesQuoteLess(sol, c.vsol, c.vtok, c.rsol, CHAIN_FEES, CALLER_FEES, c.target);
  }

  /** So a buy sent with the quoted minimum, on the quoted state, is never rejected for slippage. */
  lemma QuotedBuyNeverSlips(w: World, s: Step, slippageBps: nat)
    requires s.Buy? && 0 < w.curve.vsol && slippageBps <= 10_000
    requires s.minTokens == MinOutput(QuoteOn(w.curve, s.sol, CALLER_FEES).tokensToUser, slippageBps)
    ensures HandleBuy(w, s) != Err(SlippageExceeded)
  {
    hide QuoteOn, QuoteBuy, PayForBuy, BookBuy, MinOutput;
    if QuoteBuy(w.curve, w.treasury.community, s.sol).Ok? {
      QuoteNeverOverPromises(w.curve, w.treasury.community, s.sol);
    } else {
      QuoteErrorIsOverflow(w.curve, w.treasury.community, s.sol);
    }
    BookingErrors(w, s);
  }

  lemma QuoteErrorIsOverflow(c: Curve, community: bool, sol: u64)
    ensures QuoteBuy(c, community, sol).Ok? || QuoteBuy(c, community, sol) == Err(MathOverflow)
  {
  }

  /** The steps after the slippage guard have their own errors. */
  lemma BookingErrors(w: World, s: Step)
    requires s.Buy?
    ensures forall q, tokens, funds :: BookBuy(w, s, q, tokens, funds) != Err(SlippageExceeded)
    ensures forall q :: PayForBuy(w.funds, s, q, w.config) != Err(SlippageExceeded)
  {
    forall q ensures PayForBuy(w.funds, s, q, w.config) != Err(SlippageExceeded) {
    }
  }

  /** What the SDK tells a buyer about graduation. */
  predicate Predicted(c: Curve, sol: nat)
    requires 0 < c.vsol
  {
    ResolvedTarget(c.target) <= c.rsol + QuoteOn(c, sol, CALLER_FEES).solToCurve
  }

  /** And a predicted graduation always happens. */
  lemma PredictedGraduationHappens(w: World, s: Step)
    requires s.Buy? && 0 < w.curve.vsol && HandleBuy(w, s).Ok?
    requires Predicted(w.curve, s.sol)
    ensures HandleBuy(w, s).value.curve.complete
  {
    hide QuoteOn, QuoteBuy, PayForBuy, RecordVolume;
    QuoteNeverOverPromises(w.curve, w.treasury.community, s.sol);
  }

  /**
   For a buy the chain accepts, prediction and outcome differ exactly when what is missing to the
   target lies above the quote with the caller's fees and at most at the quote with the chain's.
   */
  lemma PredictionFailsIff(w: World, s: Step)
    requires s.Buy? && 0 < w.curve.vsol && HandleBuy(w, s).Ok?
    ensures Predicted(w.curve, s.sol) != HandleBuy(w, s).value.curve.complete <==>
      QuoteOn(w.curve, s.sol, CALLER_FEES).solToCurve < ResolvedTarget(w.curve.target) - w.curve.rsol
      <= QuoteOn(w.curve, s.sol, CHAIN_FEES).solToCurve
  {
    hide QuoteOn, QuoteBuy, PayForBuy, RecordVolume;
    SdkAgreesWithChain(w.curve, w.treasury.community, s.sol);
    QuoteNeverOverPromises(w.curve, w.treasury.community, s.sol);
  }

  // ---------- Every gap can be missed ----------

  lemma FloorStep(a: nat, part: nat, whole: nat)
    requires part <= whole && 0 < whole
    ensures 0 <= a * part / whole <= (a + 1) * part / whole <= a * part / whole + 1
  {
    FloorDivision.NonNegative(a, part);
    FloorDivision.Bounds(a * part, whole);
    assert (a + 1) * part == a * part + part;
    FloorDivision.Monotone(a * part, a * part + part, whole);
    FloorDivision.Monotone(a * part + part, a * part + whole, whole);
    FloorDivision.Bounds(a * part + whole, whole);
    FloorDivision.LowerIff(a * part / whole + 2, a * part + whole, whole);
    assert (a * part / whole + 2) * whole == (a * part / whole + 1) * whole + whole;
  }

  /** One more lamport paid is at most one more lamport for the curve, and never one less. */
  lemma OneMoreLamport(c: Curve, sol: nat)
    requires 0 < c.vsol
    ensures var now, next := QuoteOn(c, sol, CHAIN_FEES).solToCurve, QuoteOn(c, sol + 1, CHAIN_FEES).solToCurve;
      now <= next <= now + 1
  {
    FloorStep(sol, 50, 10_000);
    var resolved := if c.target == 0 then 200_000_000_000 else c.target;
    FloorDivision.Bounds(c.rsol * 1500, resolved);
    var rate := Max(1750 - c.rsol * 1500 / resolved, 250);
    FloorStep(sol - sol * 50 / 10_000, rate, 10_000);
  }

  /** At least 82% and at most all of what is paid reaches the curve. */
  lemma ChainShare(c: Curve, sol: nat)
    requires 0 < c.vsol
    ensures 82 * sol <= 100 * QuoteOn(c, sol, CHAIN_FEES).solToCurve <= 100 * sol
  {
    FloorDivision.Bounds(sol * 50, 10_000);
    var resolved := if c.target == 0 then 200_000_000_000 else c.target;
    FloorDivision.Bounds(c.rsol * 1500, resolved);
    var rate := Max(1750 - c.rsol * 1500 / resolved, 250);
    var afterFees := sol - sol * 50 / 10_000;
    FloorDivision.NonNegative(afterFees, rate);
    FloorDivision.MulLe(rate, 1750, afterFees);
    FloorDivision.Bounds(afterFees * rate, 10_000);
  }

  /** So every amount can be made to reach the curve exactly. */
  lemma {:induction false} ExactAmount(c: Curve, amount: nat, enough: nat) returns (sol: nat)
    requires 0 < c.vsol && amount <= QuoteOn(c, enough, CHAIN_FEES).solToCurve
    ensures QuoteOn(c, sol, CHAIN_FEES).solToCurve == amount && amount <= sol <= enough
    decreases enough
  {
    ChainShare(c, enough);
    hide QuoteOn;
    if QuoteOn(c, enough, CHAIN_FEES).solToCurve == amount {
      sol := enough;
    } else {
      OneMoreLamport(c, enough - 1);
      sol := ExactAmount(c, amount, enough - 1);
    }
  }

  /** From a thousand lamports on, the inflated fees take at least one lamport from the quote. */
  lemma CallerQuotesLess(c: Curve, sol: nat)
    requires 0 < c.vsol && 1000 <= sol
    ensures QuoteOn(c, sol, CALLER_FEES).solToCurve < QuoteOn(c, sol, CHAIN_FEES).solToCurve
  {
    FloorDivision.Bounds(sol * 50, 10_000);
    FloorDivision.Bounds(sol * 100, 10_000);
    var resolved := if c.target == 0 then 200_000_000_000 else c.target;
    FloorDivision.Bounds(c.rsol * 1500, resolved);
    var rate := Max(1750 - c.rsol * 1500 / resolved, 250);
    var chain, caller := sol - sol * 50 / 10_000, sol - sol * 100 / 10_000 - sol * 100 / 10_000;
    KeptGrows(caller, chain, rate);
  }

  lemma KeptGrows(a: nat, b: nat, rate: nat)
    requires a + 2 <= b && rate <= 1750
    ensures 0 <= a * rate / 10_000 <= a && 0 <= b * rate / 10_000 <= b
    ensures a - a * rate / 10_000 < b - b * rate / 10_000
  {
    FloorDivision.Share(a, rate, 10_000);
    FloorDivision.Share(b, rate, 10_000);
    FloorDivision.NonNegative(a, rate);
    FloorDivision.NonNegative(b, rate);
    FloorDivision.Bounds(a * rate, 10_000);
    FloorDivision.Bounds(b * rate, 10_000);
    FloorDivision.MulLe(rate, 1750, b - a);
    assert b * rate == a * rate + (b - a) * rate;
    FloorsApart(a, b, a * rate, b * rate);
  }

  lemma FloorsApart(a: nat, b: nat, p: nat, q: nat)
    requires a + 2 <= b && q <= p + 1750 * (b - a)
    ensures a - p / 10_000 < b - q / 10_000
  {
  }

  /**
   Whatever the curve, as long as a thousand lamports are missing there is an amount that brings it
   exactly to its target on chain and of which the SDK says that it does not.
   */
  lemma EveryGapCanBeMissed(c: Curve) returns (sol: nat)
    requires 0 < c.vsol && c.rsol + 1000 <= ResolvedTarget(c.target)
    ensures var gap := ResolvedTarget(c.target) - c.rsol;
      && QuoteOn(c, sol, CALLER_FEES).solToCurve < gap == QuoteOn(c, sol, CHAIN_FEES).solToCurve
      && gap <= sol && 82 * sol <= 100 * gap
  {
    var gap := ResolvedTarget(c.target) - c.rsol;
    ChainShare(c, 2 * gap);
    hide QuoteOn;
    sol := ExactAmount(c, gap, 2 * gap);
    ChainShare(c, sol);
    CallerQuotesLess(c, sol);
  }

  /** The SDK's sale quote is the chain's payout, so its minimum is always met. */
  lemma QuotedSaleIsExact(c: Curve, tokens: u64, slippageBps: nat)
    requires 0 < c.vtok + tokens && slippageBps <= 10_000
    ensures QuoteSell(c, tokens) == Ok(CalculateSolOut(tokens, c.vsol, c.vtok))
    ensures MinOutput(CalculateSolOut(tokens, c.vsol, c.vtok), slippageBps) <= QuoteSell(c, tokens).value
  {
  }
}
