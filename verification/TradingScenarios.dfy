/**
 Runs of one token, from its creation on, that end where a natural claim about trading fails: they
 show by states the program reaches why the conditions in the other modules are there.
 */
module TradingScenarios {
  import opened Base
  import opened Constants
  import opened MapSum
  import opened TorchMath
  import opened TokenLedger
  import opened Accounts
  import opened Wallets
  import opened BondingCurve
  import opened Program
  import opened Exchanges
  import opened CurveProperties
  import opened CashProperties
  import opened CurveGuarantees
  import opened OrderSplitting
  import opened ReachableStates
  import SdkQuotes
  import FloorDivision

  const TRADER: Key := 9
  const STAKE: u64 := 2_000_000_000
  const BUDGET: u64 := 1_000_000_000_000
  const INITIAL_PRODUCT: int := 75_000_000_000 * 756_250_000_000_000

  /** A new token of the largest tier, a trader with a thousand SOL, and no one else. */
  ghost function Launch(): World {
    Genesis(Config(1, 2, 0, 0, 0, 0), BONDING_TARGET_TORCH, false, true, 0, map[TRADER := BUDGET], 0, 0)
  }

  ghost function Spent(w: World): int {
    BUDGET - Get(w.funds.wallets, TRADER)
  }

  /** Bounds on every counter and balance, in terms of what the trader has spent. */
  ghost predicate Bounded(w: World) {
    && w.config == Config(1, 2, 0, 0, 0, 0) && w.curve.target == BONDING_TARGET_TORCH && w.curve.lastActivity == 0
    && !w.treasury.community && w.treasury.shortsEnabled && w.treasury.interest == 0 && w.treasury.activeLoans == 0
    && TRADER in w.funds.wallets && Get(w.funds.wallets, 7) == Get(w.funds.wallets, 8) == 0
    && 0 <= Spent(w) && 8 * Spent(w) <= 10 * w.curve.rsol
    && Get(w.funds.wallets, 1) <= Spent(w) && Get(w.funds.wallets, 2) <= Spent(w)
    && w.treasury.sol <= Spent(w) && w.treasury.lamports <= Spent(w)
    && w.protocol.lamports <= Spent(w) && w.protocol.feesReceived <= Spent(w) && w.protocol.volumeCurrent <= Spent(w)
    && 15 * w.curve.rsol <= 1000 * w.treasury.sol
  }

  /** A state the scenario's run reaches while trading lasts, with nothing in the trader's token account. */
  ghost predicate Open(w: World) {
    && ReachedWithoutReclaim(w) && Bounded(w) && !w.curve.complete
    && Get(w.tokens.held, UserAta(TRADER)) == 0
  }

  const NEW_CURVE := Curve(75_000_000_000, 756_250_000_000_000, 0, CURVE_SUPPLY, false, 0, false, false, 0,
                           BONDING_TARGET_TORCH, 0)

  lemma LaunchState()
    ensures Launch().curve == NEW_CURVE
    ensures Launch().tokens == Tokens(CURVE_SUPPLY, 0, 0, 0, map[TreasuryLock := TREASURY_LOCK_TOKENS], 0, 0)
    ensures Bounded(Launch())
  {
  }

  lemma LaunchIsReached()
    ensures IsGenesis(Launch()) && ReachedWithoutReclaim(Launch())
  {
    var w := Launch();
    assert IsGenesis(w);
    hide IsGenesis, Launch;
    assert ReclaimFree([]) && Run(w, []) == w;
  }

  lemma LaunchIsOpen()
    ensures Open(Launch())
  {
    LaunchState();
    LaunchIsReached();
    hide Launch, ReachedWithoutReclaim, Bounded;
  }

  // ---------- One purchase ----------

  ghost function Purchase(sol: u64): Step {
    Buy(TRADER, sol, 0, Direct, false, false, 0)
  }

  ghost function Quoted(w: World, sol: u64): Result<BuyQuote> {
    QuoteBuy(w.curve, w.treasury.community, sol)
  }

  /** On an open curve a purchase of two SOL, or of up to five near the target, can be quoted within the wallet cap. */
  lemma QuoteIsModerate(w: World, sol: u64)
    requires Open(w) && STAKE <= sol && (sol == STAKE || (sol <= 5_000_000_000 && 190_000_000_000 <= w.curve.rsol))
    ensures Quoted(w, sol).Ok? && 0 < w.curve.vsol
    ensures var q := Quoted(w, sol).value;
      && q.tokensOut == CalcTokensOut(w.curve.vtok, w.curve.vsol, q.toCurve).value <= MAX_WALLET_TOKENS
      && q.toCurve + q.toTreasury + q.toCreator + q.devShare + q.protocolFee == sol
      && 82 * sol <= 100 * q.toCurve && 10_000 * q.toCurve <= 9702 * sol + 20_000
      && 149 * sol <= 10_000 * q.toTreasury + 10_000
  {
    OpenReserves(w);
    hide Open, ReachedWithoutReclaim, Bounded, QuoteBuy;
    QuoteNeverOverflows(w.curve, w.treasury.community, sol);
    QuoteBounds(w.curve, w.treasury.community, sol);
    SplitIsExact(w.curve, w.treasury.community, sol);
    if sol == STAKE {
      QuoteIsCapped(w.curve, w.treasury.community, sol, 75_000_000_000, 1_940_500_000);
    } else {
      QuoteIsCapped(w.curve, w.treasury.community, sol, 265_000_000_000, 4_851_500_000);
    }
    hide TorchMath.CalcTokensOut;
  }

  lemma QuoteIsCapped(c: Curve, community: bool, sol: u64, low: nat, high: nat)
    requires QuoteBuy(c, community, sol).Ok? && QuoteBuy(c, community, sol).value.toCurve <= high
    requires 0 < low <= c.vsol && c.vtok <= 756_250_000_000_000 && 736_250_000_000_000 * high < 20_000_000_000_000 * low
    ensures var q := QuoteBuy(c, community, sol).value;
      q.tokensOut == CalcTokensOut(c.vtok, c.vsol, q.toCurve).value <= MAX_WALLET_TOKENS
  {
    QuotedTokens(c, community, sol);
    hide QuoteBuy, TorchMath.CalcTokensOut;
    var q := QuoteBuy(c, community, sol).value;
    TokensOutBounds(c.vtok, c.vsol, q.toCurve);
    SmallBuy(c.vtok, c.vsol, q.toCurve, q.tokensOut, low, high);
  }

  /** Where the reserves of an open curve are. */
  lemma OpenReserves(w: World)
    requires Open(w)
    ensures var c := w.curve;
      && !c.reclaimed && !c.migrated && c.vsol == 75_000_000_000 + c.rsol && c.rsol < 200_000_000_000
      && c.vtok == 56_250_000_000_000 + c.rtok && c.rtok == w.tokens.curveVault + w.tokens.curveWithheld
      && c.rtok <= CURVE_SUPPLY && c.target == BONDING_TARGET_TORCH && c.lastActivity == 0
      && c.lamports == c.rsol && w.treasury.lamports == w.treasury.sol + w.treasury.starSol
  {
    ReachedIsSound(w);
    HoldersOwnOnlySoldTokens(w, UserAta(TRADER));
    hide Run, ReachedWithoutReclaim, MapSum.Sum;
  }

  lemma QuoteNeverOverflows(c: Curve, community: bool, sol: u64)
    requires 0 < c.vsol && sol <= 5_000_000_000
    ensures QuoteBuy(c, community, sol).Ok?
  {
    var afterFees, rate := sol - sol * PROTOCOL_FEE_BPS / 10_000,
      CalcTreasuryRateBps(c.rsol, ResolvedTarget(c.target)).value;
    FloorDivision.MulLe(rate, 1750, afterFees);
    QuoteSucceedsIff(c, community, sol);
  }

  lemma SmallBuy(vtok: nat, vsol: nat, sol: nat, out: nat, low: nat, high: nat)
    requires vtok <= 756_250_000_000_000 && low <= vsol && sol <= high
      && 736_250_000_000_000 * high < 20_000_000_000_000 * low
    requires out * (vsol + sol) <= vtok * sol
    ensures out <= 20_000_000_000_000
  {
    if 20_000_000_000_000 < out {
      FloorDivision.MulLe(20_000_000_000_000, out, vsol + sol);
      FloorDivision.MulLe(vtok, 756_250_000_000_000, sol);
    }
  }

  /** A purchase goes through exactly when the curve's account can deliver it, and the real reserves always suffice. */
  lemma PurchaseGoesThroughIff(w: World, sol: u64)
    requires Open(w) && STAKE <= sol && (sol == STAKE || (sol <= 5_000_000_000 && 190_000_000_000 <= w.curve.rsol))
    ensures Quoted(w, sol).Ok? && Quoted(w, sol).value.tokensOut <= w.curve.rtok
    ensures Quoted(w, sol).value.tokensOut <= w.tokens.curveVault ==> HandleBuy(w, Purchase(sol)).Ok?
    ensures w.tokens.curveVault < Quoted(w, sol).value.tokensOut ==>
      HandleBuy(w, Purchase(sol)) == Err(InsufficientFunds)
  {
    hide ReachedWithoutReclaim, Bounded, QuoteBuy, HandleBuy, CanBook, CanPayForBuy;
    OpenReserves(w);
    QuoteIsModerate(w, sol);
    TraderHasRoom(w, sol, Quoted(w, sol).value);
    CapImpliesEnoughTokens(w, Purchase(sol));
    BuysSucceedIff(w, Purchase(sol));
    RefusedBuys(w, Purchase(sol), Quoted(w, sol).value);
  }

  lemma TraderHasRoom(w: World, sol: u64, q: BuyQuote)
    requires Open(w) && sol <= 5_000_000_000
    requires q.toCurve + q.toTreasury + q.toCreator + q.devShare + q.protocolFee == sol
    ensures CanBook(w, Purchase(sol), q) && CanPayForBuy(w.funds, Purchase(sol), q, w.config)
  {
    OpenReserves(w);
    hide ReachedWithoutReclaim;
  }

  /** What the trader's money does: every payment stays within the bounds. */
  lemma PurchaseStaysBounded(w: World, sol: u64, q: BuyQuote)
    requires Open(w) && STAKE <= sol <= 5_000_000_000 && Quoted(w, sol) == Ok(q) && HandleBuy(w, Purchase(sol)).Ok?
    requires q.toCurve + q.toTreasury + q.toCreator + q.devShare + q.protocolFee == sol
    requires 82 * sol <= 100 * q.toCurve && 10_000 * q.toCurve <= 9702 * sol + 20_000
      && 149 * sol <= 10_000 * q.toTreasury + 10_000
    ensures Bounded(HandleBuy(w, Purchase(sol)).value)
  {
    hide ReachedWithoutReclaim, QuoteBuy, HandleBuy, PayForBuy, TokenLedger.FromCurve, For, Cash;
    var s, w' := Purchase(sol), HandleBuy(w, Purchase(sol)).value;
    BuyOutcome(w, s, q);
    PurseAfterPurchase(w, sol, q, TRADER);
    PurseAfterPurchase(w, sol, q, 1);
    PurseAfterPurchase(w, sol, q, 2);
    PurseAfterPurchase(w, sol, q, 7);
    PurseAfterPurchase(w, sol, q, 8);
    TraderStays(w.funds, s, q, w.config);
  }

  lemma PurseAfterPurchase(w: World, sol: u64, q: BuyQuote, k: Key)
    requires PayForBuy(w.funds, Purchase(sol), q, w.config).Ok? && w.config == Config(1, 2, 0, 0, 0, 0)
    requires q.toCurve + q.toTreasury + q.toCreator + q.devShare + q.protocolFee == sol
    ensures Get(PayForBuy(w.funds, Purchase(sol), q, w.config).value.wallets, k)
      == Get(w.funds.wallets, k) - (if k == TRADER then sol else 0) + (if k == 2 then q.devShare else 0)
         + (if k == 1 then q.toCreator else 0)
  {
    PaymentsOfABuy(w.funds, Purchase(sol), q, w.config, Wallet(k));
    hide PayForBuy;
  }

  lemma TraderStays(f: Funds, s: Step, q: BuyQuote, config: Config)
    requires s.Buy? && TRADER in f.wallets && PayForBuy(f, s, q, config).Ok? && s.route == Direct
    ensures TRADER in PayForBuy(f, s, q, config).value.wallets
  {
    hide Wallets.Total, Wallets.AllBooks;
  }

  /** A delivered purchase: the run goes on, the reserves and the two token accounts move by the quote. */
  lemma AfterPurchase(w: World, sol: u64) returns (w': World)
    requires Open(w) && STAKE <= sol && (sol == STAKE || (sol <= 5_000_000_000 && 190_000_000_000 <= w.curve.rsol))
    requires Quoted(w, sol).Ok? && Quoted(w, sol).value.tokensOut <= w.tokens.curveVault
    ensures HandleBuy(w, Purchase(sol)) == Ok(w')
    ensures ReachedWithoutReclaim(w') && Bounded(w')
    ensures var q := Quoted(w, sol).value;
      && AfterBuy(w.curve, q.toCurve, q.tokensOut, 0) == Ok(w'.curve)
      && FromCurve(w.tokens, UserAta(TRADER), q.tokensOut) == Ok(w'.tokens)
  {
    PurchaseGoesThroughIff(w, sol);
    QuoteIsModerate(w, sol);
    hide Open, ReachedWithoutReclaim, Bounded, QuoteBuy, Handle, PayForBuy, TokenLedger.FromCurve,
      TorchMath.CalcTokensOut;
    w' := HandleBuy(w, Purchase(sol)).value;
    var q := Quoted(w, sol).value;
    PurchaseStaysBounded(w, sol, q);
    BuyOutcome(w, Purchase(sol), q);
    PurchaseIsAStep(w, sol);
    ReachedOnward(w, Purchase(sol));
    hide HandleBuy, AfterBuy;
  }

  lemma PurchaseIsAStep(w: World, sol: u64)
    requires HandleBuy(w, Purchase(sol)).Ok?
    ensures Apply(w, Purchase(sol)) == HandleBuy(w, Purchase(sol)).value
  {
    hide HandleBuy;
  }

  /** Rounding lifts the product of the reserves by less than the virtual SOL after the purchase. */
  lemma ProductAfter(c: Curve, sol: u64, out: u64, c': Curve)
    requires 0 < c.vsol && Some(out) == CalcTokensOut(c.vtok, c.vsol, sol) && AfterBuy(c, sol, out, 0) == Ok(c')
    ensures c'.vsol * c'.vtok <= c.vsol * c.vtok + c'.vsol - 1
  {
    OnePiece(c.vtok, c.vsol, sol);
  }

  // ---------- Withheld fees: selling as dust ----------

  /** A state after `n` units of the trader's tokens have gone back to the curve and been withheld there as fees. */
  ghost function Dusted(w: World, n: nat): World
    requires n <= Get(w.tokens.held, UserAta(TRADER)) && w.curve.vtok + n <= U64_MAX && w.curve.rtok + n <= U64_MAX
  {
    w.(curve := w.curve.(vtok := w.curve.vtok + n, rtok := w.curve.rtok + n),
       tokens := if n == 0 then w.tokens
                 else w.tokens.(curveWithheld := w.tokens.curveWithheld + n,
                                held := w.tokens.held[UserAta(TRADER) := Get(w.tokens.held, UserAta(TRADER)) - n]))
  }

  /** One base unit is all fee: its sale pays nothing, adds a unit to the real reserves and none to the account. */
  lemma DustSale(w: World)
    requires !w.curve.complete && !w.curve.reclaimed && w.curve.vsol <= w.curve.vtok < U64_MAX && w.curve.rtok < U64_MAX
    requires 0 < Get(w.tokens.held, UserAta(TRADER)) && TRADER in w.funds.wallets && w.funds.wallets[TRADER] <= U64_MAX
    ensures Handle(w, Sell(TRADER, 1, 0, Direct, false, false, w.curve.lastActivity)) == Ok(Dusted(w, 1))
  {
    DustPaysNothing(w.curve, w.funds);
    DustIsWithheld(w.tokens);
    hide QuoteSell, Wallets.PayOut, AfterSell, TokenLedger.ToCurve, Wallets.Total, Wallets.AllBooks, TokenLedger.Supply;
  }

  lemma DustFetchesNothing(c: Curve)
    requires c.vsol <= c.vtok < U64_MAX
    ensures QuoteSell(c, 1) == Ok(0)
  {
    FloorDivision.LowerIff(1, c.vsol, c.vtok + 1);
  }

  lemma DustPaysNothing(c: Curve, f: Funds)
    requires c.vsol <= c.vtok < U64_MAX && c.rtok < U64_MAX && TRADER in f.wallets && f.wallets[TRADER] <= U64_MAX
    ensures QuoteSell(c, 1) == Ok(0)
    ensures AfterSell(c, 0, 1, c.lastActivity) == Ok(c.(vtok := c.vtok + 1, rtok := c.rtok + 1))
    ensures PayOut(f, Wallet(TRADER), 0) == Ok(f)
  {
    DustFetchesNothing(c);
    assert f.wallets[TRADER := f.wallets[TRADER] + 0] == f.wallets;
    hide QuoteSell, Wallets.Total, Wallets.AllBooks;
  }

  lemma DustIsWithheld(t: Tokens)
    requires 0 < Get(t.held, UserAta(TRADER))
    ensures ToCurve(t, UserAta(TRADER), 1)
      == Ok(t.(curveWithheld := t.curveWithheld + 1,
               held := t.held[UserAta(TRADER) := Get(t.held, UserAta(TRADER)) - 1]))
  {
    assert CalcTransferFee(1) == 1;
    hide TorchMath.CalcTransferFee, TokenLedger.Supply;
  }

  /** Selling unit by unit, the trader gets nothing, the real reserves grow by every unit, and the account by none. */
  lemma {:induction false} DustSales(w: World, n: nat)
    requires ReachedWithoutReclaim(w) && !w.curve.complete && w.curve.vsol <= w.curve.vtok
    requires n <= Get(w.tokens.held, UserAta(TRADER)) && TRADER in w.funds.wallets && w.funds.wallets[TRADER] <= U64_MAX
    ensures w.curve.vtok + n <= U64_MAX && w.curve.rtok + n <= U64_MAX
    ensures ReachedWithoutReclaim(Dusted(w, n))
    decreases n
  {
    hide ReachedWithoutReclaim;
    DustFits(w, n);
    if n > 0 {
      DustSales(w, n - 1);
      OneMoreDust(w, n);
      OneDustSale(Dusted(w, n - 1));
    } else {
      assert Dusted(w, 0) == w;
    }
  }

  lemma OneDustSale(w: World)
    requires ReachedWithoutReclaim(w) && !w.curve.complete && !w.curve.reclaimed
    requires w.curve.vsol <= w.curve.vtok < U64_MAX && w.curve.rtok < U64_MAX
    requires 0 < Get(w.tokens.held, UserAta(TRADER)) && TRADER in w.funds.wallets && w.funds.wallets[TRADER] <= U64_MAX
    ensures ReachedWithoutReclaim(Dusted(w, 1))
  {
    hide ReachedWithoutReclaim, Handle, Dusted;
    DustSale(w);
    ReachedOnward(w, Sell(TRADER, 1, 0, Direct, false, false, w.curve.lastActivity));
  }

  lemma OneMoreDust(w: World, n: nat)
    requires 0 < n <= Get(w.tokens.held, UserAta(TRADER)) && w.curve.vtok + n <= U64_MAX && w.curve.rtok + n <= U64_MAX
    ensures Dusted(Dusted(w, n - 1), 1) == Dusted(w, n)
  {
  }

  lemma DustFits(w: World, n: nat)
    requires ReachedWithoutReclaim(w) && !w.curve.complete && n <= Get(w.tokens.held, UserAta(TRADER))
    ensures !w.curve.reclaimed && w.curve.vtok + n <= U64_MAX && w.curve.rtok + n <= U64_MAX
  {
    ReachedIsSound(w);
    HoldersOwnOnlySoldTokens(w, UserAta(TRADER));
    hide ReachedWithoutReclaim, SupplyKept, BooksMatchCash;
  }

  // ---------- Withheld fees: draining the account ----------

  /** How much can be left in the curve's account once virtual SOL has risen this far. */
  ghost function Leftover(vsol: nat): int {
    Max(700_000_000_000_000 - 5800 * (vsol - 75_000_000_000),
        Max(410_000_000_000_000 - 3800 * (vsol - 125_000_000_000),
            144_000_000_000_000 - 2700 * (vsol - 195_000_000_000)))
  }

  /** A state of the run that buys, sells back as dust, and buys again. */
  ghost predicate Draining(w: World) {
    && Open(w)
    && w.tokens.curveVault <= Leftover(w.curve.vsol)
    && 1000 * (CURVE_SUPPLY - w.curve.rtok) <= CURVE_SUPPLY - w.tokens.curveVault
  }

  /** While virtual SOL is at most `limit`, a purchase takes at least `rate` tokens for each lamport. */
  lemma PurchaseRate(vtok: nat, vsol: nat, sol: nat, out: nat, rate: nat, limit: nat)
    requires 0 < sol && vsol + sol <= limit && (rate + 1) * limit <= vtok
    requires vtok * sol < (out + 1) * (vsol + sol)
    ensures rate * sol <= out
  {
    assert limit * ((rate + 1) * sol) == (rate + 1) * limit * sol;
    FloorDivision.MulLe(vsol + sol, limit, (rate + 1) * sol);
    FloorDivision.MulLe((rate + 1) * limit, vtok, sol);
    if out < rate * sol {
      FloorDivision.MulLe(out + 1, (rate + 1) * sol, vsol + sol);
    }
  }

  /** So the bound on what is left falls at least as fast as the account is emptied. */
  lemma LeftoverFalls(vtok: nat, vsol: nat, sol: nat, out: nat)
    requires 755_550_000_000_000 <= vtok && vsol < 275_000_000_000 && 1_640_000_000 <= sol <= 1_940_500_000
    requires vtok * sol < (out + 1) * (vsol + sol)
    ensures Leftover(vsol) - out <= Leftover(vsol + sol) && 1_000_000 <= out
  {
    if vsol <= 125_000_000_000 {
      PurchaseRate(vtok, vsol, sol, out, 5800, 127_000_000_000);
    } else if vsol <= 195_000_000_000 {
      PurchaseRate(vtok, vsol, sol, out, 3800, 197_000_000_000);
    } else {
      PurchaseRate(vtok, vsol, sol, out, 2700, 277_000_000_000);
    }
  }

  /** After one more purchase the account is emptier, the bound still holds, and so the target is not reached. */
  lemma DrainByPurchase(w: World) returns (w': World)
    requires Draining(w) && Quoted(w, STAKE).Ok? && Quoted(w, STAKE).value.tokensOut <= w.tokens.curveVault
    ensures ReachedWithoutReclaim(w') && Bounded(w') && !w'.curve.complete && w'.curve.vsol <= w'.curve.vtok
    ensures var out := Quoted(w, STAKE).value.tokensOut;
      && 1_000_000 <= out && w'.curve.rtok == w.curve.rtok - out && w'.tokens.curveVault == w.tokens.curveVault - out
      && Get(w'.tokens.held, UserAta(TRADER)) == Net(out)
    ensures w'.tokens.curveVault <= Leftover(w'.curve.vsol)
  {
    hide ReachedWithoutReclaim, Bounded, QuoteBuy, HandleBuy, Leftover, TokenLedger.FromCurve, Net,
      TorchMath.CalcTokensOut,
      TokenLedger.Supply;
    OpenReserves(w);
    QuoteIsModerate(w, STAKE);
    w' := AfterPurchase(w, STAKE);
    var q := Quoted(w, STAKE).value;
    PurchaseEmpties(w, q.toCurve, q.tokensOut);
    LeftoverEnds(w'.curve.vsol);
    DeliveredToTrader(w.tokens, q.tokensOut);
  }

  lemma PurchaseEmpties(w: World, sol: u64, out: u64)
    requires Draining(w) && 1_640_000_000 <= sol <= 1_940_500_000
    requires 0 < w.curve.vsol && CalcTokensOut(w.curve.vtok, w.curve.vsol, sol) == Some(out)
    ensures w.tokens.curveVault - out <= Leftover(w.curve.vsol + sol) && 1_000_000 <= out
  {
    OpenReserves(w);
    hide Open, Leftover;
    TokensOutBounds(w.curve.vtok, w.curve.vsol, sol);
    LeftoverFalls(w.curve.vtok, w.curve.vsol, sol, out);
    hide TorchMath.CalcTokensOut;
  }

  lemma DeliveredToTrader(t: Tokens, out: u64)
    requires out <= t.curveVault && Get(t.held, UserAta(TRADER)) == 0
    ensures var t' := FromCurve(t, UserAta(TRADER), out).value;
      && t'.curveVault == t.curveVault - out && t'.curveWithheld == t.curveWithheld
      && Get(t'.held, UserAta(TRADER)) == Net(out)
      && forall h :: h != UserAta(TRADER) ==> Get(t'.held, h) == Get(t.held, h)
  {
    hide TokenLedger.Supply, Net;
  }

  /** Nothing can be left long before the target. */
  lemma LeftoverEnds(vsol: nat)
    ensures 250_000_000_000 <= vsol ==> Leftover(vsol) < 0
  {
  }

  /** Selling the purchase back as dust refills the real reserves but not the account. */
  lemma DrainByDust(w: World, w1: World, out: u64) returns (w': World)
    requires Draining(w) && 1_000_000 <= out <= w.curve.rtok && out <= w.tokens.curveVault
    requires ReachedWithoutReclaim(w1) && Bounded(w1) && !w1.curve.complete && w1.curve.vsol <= w1.curve.vtok
    requires w1.curve.rtok == w.curve.rtok - out && w1.tokens.curveVault == w.tokens.curveVault - out
    requires Get(w1.tokens.held, UserAta(TRADER)) == Net(out) && w1.tokens.curveVault <= Leftover(w1.curve.vsol)
    ensures Draining(w') && w'.tokens.curveVault < w.tokens.curveVault
  {
    hide ReachedWithoutReclaim, Leftover;
    DustSales(w1, Net(out));
    w' := Dusted(w1, Net(out));
    hide Net;
  }

  lemma {:induction false} Drained(w: World) returns (end: World)
    requires Draining(w)
    ensures Draining(end) && Quoted(end, STAKE).Ok? && end.tokens.curveVault < Quoted(end, STAKE).value.tokensOut
    decreases w.tokens.curveVault
  {
    hide ReachedWithoutReclaim, Bounded, Leftover, Quoted;
    PurchaseGoesThroughIff(w, STAKE);
    var out := Quoted(w, STAKE).value.tokensOut;
    if w.tokens.curveVault < out {
      end := w;
    } else {
      var w1 := DrainByPurchase(w);
      var w2 := DrainByDust(w, w1, out);
      end := Drained(w2);
    }
  }

  lemma LaunchDrains()
    ensures Draining(Launch())
  {
    LaunchIsOpen();
    LaunchState();
    hide Launch, Open;
  }

  /**
   Why the account matters: a run of purchases, each sold back unit by unit, reaches a state where a
   purchase within the wallet cap and the real reserves cannot be delivered.
   */
  lemma WithheldFeesExample() returns (w: World, s: Step)
    ensures ReachedWithoutReclaim(w) && !w.curve.complete
    ensures s.Buy? && QuoteBuy(w.curve, w.treasury.community, s.sol).Ok?
    ensures QuoteBuy(w.curve, w.treasury.community, s.sol).value.tokensOut <= w.curve.rtok
    ensures HandleBuy(w, s) == Err(InsufficientFunds)
  {
    hide ReachedWithoutReclaim, Bounded, Leftover, QuoteBuy, HandleBuy, Launch;
    LaunchDrains();
    w := Drained(Launch());
    s := Purchase(STAKE);
    PurchaseGoesThroughIff(w, STAKE);
  }

  // ---------- Gathering tokens on the way to the target ----------

  const KEEPER: Key := 8

  /** A state of the run that buys and hands every purchase on to the keeper. */
  ghost predicate Gathering(w: World) {
    && Open(w)
    && w.tokens.curveWithheld == 0
    && 998 * (CURVE_SUPPLY - w.curve.rtok) <= 1000 * Get(w.tokens.held, UserAta(KEEPER))
    && w.curve.vsol * w.curve.vtok <= INITIAL_PRODUCT + 168 * w.curve.rsol
  }

  lemma LaunchGathers()
    ensures Gathering(Launch()) && Launch().curve.rsol == 0
  {
    LaunchIsOpen();
    LaunchState();
    hide Launch, Open;
  }

  lemma GatherByPurchase(w: World) returns (w': World, out: u64)
    requires Gathering(w) && w.curve.rsol < 196_000_000_000
    ensures ReachedWithoutReclaim(w') && Bounded(w') && !w'.curve.complete && !w'.curve.migrated
    ensures 1_000_000 <= out <= w.curve.rtok && w'.curve.rtok == w.curve.rtok - out && w'.tokens.curveWithheld == 0
    ensures Get(w'.tokens.held, UserAta(TRADER)) == Net(out)
    ensures Get(w'.tokens.held, UserAta(KEEPER)) == Get(w.tokens.held, UserAta(KEEPER))
    ensures w.curve.rsol + 1_640_000_000 <= w'.curve.rsol <= w.curve.rsol + 1_940_500_000
    ensures w'.curve.vsol * w'.curve.vtok <= INITIAL_PRODUCT + 168 * w'.curve.rsol
  {
    hide ReachedWithoutReclaim, Bounded, QuoteBuy, HandleBuy, TokenLedger.FromCurve, Net, TorchMath.CalcTokensOut,
      TokenLedger.Supply;
    OpenReserves(w);
    QuoteIsModerate(w, STAKE);
    PurchaseGoesThroughIff(w, STAKE);
    w' := AfterPurchase(w, STAKE);
    var q := Quoted(w, STAKE).value;
    out := q.tokensOut;
    DeliveredToTrader(w.tokens, out);
    PurchaseIsSubstantial(w, q.toCurve, out);
    ProductAfter(w.curve, q.toCurve, out, w'.curve);
  }

  /** Late in the run two SOL still buy more than a token. */
  lemma PurchaseIsSubstantial(w: World, sol: u64, out: u64)
    requires Open(w) && 1_640_000_000 <= sol <= 1_940_500_000
    requires 0 < w.curve.vsol && CalcTokensOut(w.curve.vtok, w.curve.vsol, sol) == Some(out)
    ensures 1_000_000 <= out
  {
    OpenReserves(w);
    hide Open;
    TokensOutBounds(w.curve.vtok, w.curve.vsol, sol);
    PurchaseRate(w.curve.vtok, w.curve.vsol, sol, out, 200, 277_000_000_000);
    hide TorchMath.CalcTokensOut;
  }

  /** The purchase moves on to the keeper, less two transfer fees. */
  lemma GatherByTransfer(w: World, w1: World, out: u64) returns (w': World)
    requires Gathering(w) && 1_000_000 <= out <= w.curve.rtok
    requires ReachedWithoutReclaim(w1) && Bounded(w1) && !w1.curve.complete && !w1.curve.migrated
    requires w1.curve.rtok == w.curve.rtok - out && w1.tokens.curveWithheld == 0
    requires Get(w1.tokens.held, UserAta(TRADER)) == Net(out)
    requires Get(w1.tokens.held, UserAta(KEEPER)) == Get(w.tokens.held, UserAta(KEEPER))
    requires w1.curve.vsol * w1.curve.vtok <= INITIAL_PRODUCT + 168 * w1.curve.rsol
    ensures Gathering(w') && w'.curve == w1.curve
  {
    hide ReachedWithoutReclaim, TokenLedger.Supply;
    var s := TransferTokens(UserAta(TRADER), UserAta(KEEPER), Net(out));
    MovedToKeeper(w1.tokens, out);
    w' := w1.(tokens := Move(w1.tokens, UserAta(TRADER), UserAta(KEEPER), Net(out)).value);
    assert Apply(w1, s) == w' by {
      hide Bounded, Gathering, TokenLedger.Move, Net;
    }
    ReachedOnward(w1, s);
    hide TokenLedger.Move, Net, Apply;
  }

  lemma MovedToKeeper(t: Tokens, out: u64)
    requires 1_000_000 <= out && Get(t.held, UserAta(TRADER)) == Net(out)
    ensures Move(t, UserAta(TRADER), UserAta(KEEPER), Net(out)).Ok?
    ensures var t' := Move(t, UserAta(TRADER), UserAta(KEEPER), Net(out)).value;
      && t'.curveVault == t.curveVault && t'.curveWithheld == t.curveWithheld && Get(t'.held, UserAta(TRADER)) == 0
      && 1000 * Get(t.held, UserAta(KEEPER)) + 998 * out <= 1000 * Get(t'.held, UserAta(KEEPER))
  {
    hide TokenLedger.Supply, TorchMath.CalcTransferFee;
  }

  lemma {:induction false} Gathered(w: World, goal: nat) returns (end: World)
    requires Gathering(w) && w.curve.rsol < goal <= 196_000_000_000
    ensures Gathering(end) && goal <= end.curve.rsol < goal + 1_940_500_000
    decreases goal - w.curve.rsol
  {
    hide ReachedWithoutReclaim, Bounded;
    var w1, out := GatherByPurchase(w);
    var w2 := GatherByTransfer(w, w1, out);
    hide Gathering;
    if w2.curve.rsol < goal {
      end := Gathered(w2, goal);
    } else {
      end := w2;
    }
  }

  // ---------- Reclaimed and revived ----------

  lemma ReachedAnyhow(w: World)
    requires ReachedWithoutReclaim(w)
    ensures Reached(w)
  {
    hide IsGenesis;
    var w0, steps :| IsGenesis(w0) && ReclaimFree(steps) && w == Run(w0, steps);
  }

  /** An open curve is left alone for the whole period, reclaimed, and revived by the trader. */
  lemma Revived(w: World, sol: u64) returns (w': World)
    requires Gathering(w) && 10_000_000 <= w.curve.rsol < 198_000_000_000
    requires 75_000_000_000 <= sol <= 200_000_000_000
    ensures Reached(w')
    ensures w'.curve == w.curve.(lamports := sol, rsol := sol, lastActivity := INACTIVITY_PERIOD_SLOTS)
      && w'.tokens == w.tokens
  {
    var reclaim, revive := Reclaim(INACTIVITY_PERIOD_SLOTS), Revive(TRADER, sol, INACTIVITY_PERIOD_SLOTS);
    OpenReserves(w);
    ReachedAnyhow(w);
    hide ReachedWithoutReclaim, Reached;
    ReclaimedCurve(w);
    var w1 := HandleReclaim(w, reclaim).value;
    RevivedCurve(w1, sol);
    w' := HandleRevive(w1, revive).value;
    assert w1 == Apply(w, reclaim) && w' == Apply(w1, revive) by {
      hide HandleReclaim, HandleRevive, Gathering;
    }
    ReachedAgain(w, reclaim);
    ReachedAgain(w1, revive);
    hide HandleReclaim, HandleRevive;
  }

  lemma ReclaimedCurve(w: World)
    requires Bounded(w) && !w.curve.complete && !w.curve.reclaimed && 10_000_000 <= w.curve.rsol < 198_000_000_000
    requires w.curve.lamports == w.curve.rsol && w.treasury.sol <= w.treasury.lamports
    ensures var r := HandleReclaim(w, Reclaim(INACTIVITY_PERIOD_SLOTS));
      && r.Ok? && r.value.curve == w.curve.(lamports := 0, rsol := 0, reclaimed := true)
      && r.value.tokens == w.tokens && r.value.funds == w.funds
  {
  }

  lemma RevivedCurve(w: World, sol: u64)
    requires w.curve.reclaimed && w.curve.rsol == w.curve.lamports == 0 && w.curve.target == BONDING_TARGET_TORCH
    requires 75_000_000_000 <= sol <= Get(w.funds.wallets, TRADER)
    ensures var r := HandleRevive(w, Revive(TRADER, sol, INACTIVITY_PERIOD_SLOTS));
      && r.Ok? && r.value.tokens == w.tokens
      && r.value.curve
        == w.curve.(lamports := sol, rsol := sol, reclaimed := false, lastActivity := INACTIVITY_PERIOD_SLOTS)
  {
    hide Wallets.Debit, Wallets.Total;
  }

  /** Tokens bought for far more than the revival brought back are worth more than the curve has. */
  lemma Oversold(vsol: u64, vtok: u64, rsol: u64, tokens: u64)
    requires 225_000_000_000 <= vsol && rsol < 200_000_000_000 && vsol * vtok <= INITIAL_PRODUCT + 168 * rsol
    requires 998 * (756_250_000_000_000 - vtok) <= 1000 * tokens && vtok + tokens <= 756_250_000_000_000
      && 0 < vtok + tokens
    ensures 75_000_000_000 < CalcSolOut(vsol, vtok, tokens).value
  {
    FloorDivision.MulLe(225_000_000_000, vsol, vtok);
    FloorDivision.MulLe(225_000_000_000, vsol, tokens);
    FloorDivision.LowerIff(75_000_000_001, vsol * tokens, vtok + tokens);
  }

  /** Why reclaim matters for redemption: after a reclaim and a revival a holder's sale is refused for want of SOL. */
  lemma RevivedCurveExample() returns (w: World, s: Step)
    ensures Reached(w) && !w.curve.migrated && !w.curve.reclaimed && !w.curve.complete
    ensures s.Sell? && s.amount <= Get(w.tokens.held, AtaOf(s.seller, s.route))
    ensures HandleSell(w, s) == Err(InsufficientSol)
  {
    hide ReachedWithoutReclaim, Bounded, Reached, Launch;
    LaunchGathers();
    var w0 := Gathered(Launch(), 150_000_000_000);
    OpenReserves(w0);
    KeeperOwnsSoldTokens(w0);
    w := Revived(w0, 75_000_000_000);
    var held := Get(w.tokens.held, UserAta(KEEPER));
    s := Sell(KEEPER, held, 0, Direct, false, false, 0);
    Oversold(w0.curve.vsol, w0.curve.vtok, w0.curve.rsol, held);
    hide Gathering, TorchMath.CalcSolOut;
  }

  lemma KeeperOwnsSoldTokens(w: World)
    requires Open(w)
    ensures w.curve.rtok + Get(w.tokens.held, UserAta(KEEPER)) <= CURVE_SUPPLY
  {
    ReachedIsSound(w);
    OpenReserves(w);
    hide Open;
    HoldersOwnOnlySoldTokens(w, UserAta(KEEPER));
  }

  /** Why reclaim matters for completion: a revival with enough SOL passes the target without completing. */
  lemma RevivedPastTargetExample() returns (w: World)
    ensures Reached(w) && !w.curve.migrated && !w.curve.complete && ResolvedTarget(w.curve.target) <= w.curve.rsol
  {
    hide ReachedWithoutReclaim, Bounded, Reached, Launch;
    LaunchGathers();
    var w0 := Gathered(Launch(), 1_000_000_000);
    OpenReserves(w0);
    w := Revived(w0, 200_000_000_000);
    hide Gathering;
  }

  // ---------- A graduation the SDK misses ----------

  /** Near its target, the curve takes a purchase that completes it and that the SDK says does not. */
  lemma MissedGraduationExample() returns (w: World, s: Step)
    ensures ReachedWithoutReclaim(w) && 0 < w.curve.vsol
    ensures s.Buy? && HandleBuy(w, s).Ok? && HandleBuy(w, s).value.curve.complete
    ensures !SdkQuotes.Predicted(w.curve, s.sol)
  {
    hide ReachedWithoutReclaim, Bounded, Launch, QuoteBuy, HandleBuy, SdkQuotes.QuoteOn, TokenLedger.FromCurve;
    LaunchGathers();
    w := Gathered(Launch(), 196_000_000_000);
    OpenReserves(w);
    var sol := SdkQuotes.EveryGapCanBeMissed(w.curve);
    s := Purchase(sol);
    PurchaseGoesThroughIff(w, sol);
    var w' := AfterPurchase(w, sol);
    SdkQuotes.SdkAgreesWithChain(w.curve, w.treasury.community, sol);
    hide Gathering, Open;
  }

  // ---------- A purchase in two ----------

  lemma SecondHalf(c: Curve)
    requires c.vsol == 75_820_875_000 && c.vtok == 748_062_456_414_543 && c.rsol == 820_875_000
      && c.target == BONDING_TARGET_TORCH
    ensures QuoteBuy(c, false, 1_000_000_000)
      == Ok(BuyQuote(2_500_000, 2_500_000, 171_538_000, 1_990_000, 821_472_000, 8_017_922_026_784))
  {
    assert CalcTreasuryRateBps(820_875_000, BONDING_TARGET_TORCH) == Some(1744);
    assert CalcCreatorRateBps(820_875_000, BONDING_TARGET_TORCH) == Some(20);
    assert CalcTokensOut(748_062_456_414_543, 75_820_875_000, 821_472_000) == Some(8_017_922_026_784);
    hide TorchMath.CalcTreasuryRateBps, TorchMath.CalcCreatorRateBps, TorchMath.CalcTokensOut;
  }

  lemma FirstHalfAndWhole(c: Curve)
    requires c.vsol == 75_000_000_000 && c.vtok == 756_250_000_000_000 && c.rsol == 0
      && c.target == BONDING_TARGET_TORCH
    ensures QuoteBuy(c, false, 1_000_000_000)
      == Ok(BuyQuote(2_500_000, 2_500_000, 172_135_000, 1_990_000, 820_875_000, 8_187_543_585_457))
    ensures QuoteBuy(c, false, 2_000_000_000)
      == Ok(BuyQuote(5_000_000, 5_000_000, 344_270_000, 3_980_000, 1_641_750_000, 16_199_701_044_143))
  {
    assert CalcTreasuryRateBps(0, BONDING_TARGET_TORCH) == Some(1750);
    assert CalcCreatorRateBps(0, BONDING_TARGET_TORCH) == Some(20);
    assert CalcTokensOut(756_250_000_000_000, 75_000_000_000, 820_875_000) == Some(8_187_543_585_457);
    assert CalcTokensOut(756_250_000_000_000, 75_000_000_000, 1_641_750_000) == Some(16_199_701_044_143);
    hide TorchMath.CalcTreasuryRateBps, TorchMath.CalcCreatorRateBps, TorchMath.CalcTokensOut;
  }

  /** Why the fees matter for splitting: on a new token two buys of a SOL deliver more than one of two SOL. */
  lemma SplitBuyExample() returns (w: World)
    ensures IsGenesis(w) && !w.treasury.community
    ensures InTurn(w.curve, w.treasury.community, [2_000_000_000]) == Ok(16_199_701_044_143)
    ensures InTurn(w.curve, w.treasury.community, [1_000_000_000, 1_000_000_000]) == Ok(16_205_465_612_241)
  {
    hide Launch, IsGenesis, ReachedWithoutReclaim, InTurn;
    w := Launch();
    LaunchState();
    LaunchIsReached();
    AtOnce(w.curve);
    InHalves(w.curve);
  }

  lemma AtOnce(c: Curve)
    requires c == NEW_CURVE
    ensures InTurn(c, false, [2_000_000_000]) == Ok(16_199_701_044_143)
  {
    hide QuoteBuy, InTurn;
    FirstHalfAndWhole(c);
    var sols: seq<u64> := [2_000_000_000];
    OneBuy(c, false, sols);
  }

  lemma InHalves(c: Curve)
    requires c == NEW_CURVE
    ensures InTurn(c, false, [1_000_000_000, 1_000_000_000]) == Ok(16_205_465_612_241)
  {
    hide QuoteBuy, AfterBuy, InTurn;
    FirstHalfAndWhole(c);
    var next := HalfBought(c);
    var both: seq<u64>, second: seq<u64> := [1_000_000_000, 1_000_000_000], [1_000_000_000];
    OneBuy(c, false, both);
    assert both[1..] == second;
    SecondHalf(next);
    OneBuy(next, false, second);
  }

  lemma HalfBought(c: Curve) returns (next: Curve)
    requires c == NEW_CURVE
    ensures AfterBuy(c, 820_875_000, 8_187_543_585_457, c.lastActivity) == Ok(next) && !next.complete
    ensures next.vsol == 75_820_875_000 && next.vtok == 748_062_456_414_543 && next.rsol == 820_875_000
    ensures next.target == BONDING_TARGET_TORCH && AfterBuy(next, 821_472_000, 8_017_922_026_784, next.lastActivity).Ok?
  {
    next := AfterBuy(c, 820_875_000, 8_187_543_585_457, c.lastActivity).value;
  }

  lemma OneBuy(c: Curve, community: bool, sols: seq<u64>)
    requires sols != [] && !c.complete && QuoteBuy(c, community, sols[0]).Ok?
    requires var q := QuoteBuy(c, community, sols[0]).value; AfterBuy(c, q.toCurve, q.tokensOut, c.lastActivity).Ok?
    ensures var q := QuoteBuy(c, community, sols[0]).value;
      var rest := InTurn(AfterBuy(c, q.toCurve, q.tokensOut, c.lastActivity).value, community, sols[1..]);
      InTurn(c, community, sols) == match rest case Ok(tokens) => Ok(q.tokensOut + tokens) case Err(e) => Err(e)
    ensures |sols| == 1 ==> InTurn(c, community, sols) == Ok(QuoteBuy(c, community, sols[0]).value.tokensOut)
  {
    hide QuoteBuy, AfterBuy;
  }
}
