/** What traders and the protocol can rely on, in every state a token can reach. */
module CurveGuarantees {
  import opened Base
  import opened Constants
  import opened MapSum
  import opened TorchMath
  import opened TokenLedger
  import opened Accounts
  import opened Wallets
  import opened BondingCurve
  import opened Program
  import opened Frames
  import opened CurveProperties
  import opened CashProperties
  import opened Exchanges
  import FloorDivision

  /** A world some new token can reach, by any steps but a reclaim. */
  ghost predicate ReachedWithoutReclaim(w: World) {
    exists w0, steps :: IsGenesis(w0) && ReclaimFree(steps) && w == Run(w0, steps)
  }

  ghost predicate IsGenesis(w: World) {
    exists config, target, community, shorts, slot, wallets, poolLamports, now ::
      w == Genesis(config, target, community, shorts, slot, wallets, poolLamports, now)
  }

  lemma GenesisIsSound(w: World)
    requires IsGenesis(w)
    ensures Priced(w.curve) && SupplyKept(w) && BooksMatchCash(w)
  {
    MapSum.Remove(w.tokens.held, TreasuryLock);
    assert w.tokens.held - {TreasuryLock} == map[];
  }

  lemma ReachedIsSound(w: World)
    requires ReachedWithoutReclaim(w)
    ensures Priced(w.curve) && SupplyKept(w) && BooksMatchCash(w)
  {
    hide Priced, SupplyKept, BooksMatchCash, IsGenesis, TotalSol;
    var w0, steps :| IsGenesis(w0) && ReclaimFree(steps) && w == Run(w0, steps);
    GenesisIsSound(w0);
    RunKeepsPriced(w0, steps);
    RunKeepsSupply(w0, steps);
    BooksEqualCash(w0, steps);
  }

  lemma {:induction false} RunAppends(w: World, steps: seq<Step>, s: Step)
    ensures Run(w, steps + [s]) == Apply(Run(w, steps), s)
    decreases |steps|
  {
    hide Apply;
    if steps == [] {
      assert steps + [s] == [s];
    } else {
      assert (steps + [s])[1..] == steps[1..] + [s];
      RunAppends(Apply(w, steps[0]), steps[1..], s);
    }
  }

  lemma ReachedOnward(w: World, s: Step)
    requires ReachedWithoutReclaim(w) && !s.Reclaim?
    ensures ReachedWithoutReclaim(Apply(w, s))
  {
    var w0, steps :| IsGenesis(w0) && ReclaimFree(steps) && w == Run(w0, steps);
    hide IsGenesis, Apply;
    RunAppends(w0, steps, s);
    assert ReclaimFree(steps + [s]);
  }

  // ---------- Redemption ----------

  /** Whatever part of the sold tokens is sold back at once, the curve's real SOL covers it. */
  lemma EveryTokenIsRedeemable(w: World, tokens: u64)
    requires ReachedWithoutReclaim(w) && !w.curve.migrated
    requires w.curve.rtok + tokens <= CURVE_SUPPLY
    ensures CalcSolOut(w.curve.vsol, w.curve.vtok, tokens).Some?
    ensures CalcSolOut(w.curve.vsol, w.curve.vtok, tokens).value <= w.curve.rsol
  {
    hide Run, TorchMath.CalcSolOut;
    ReachedIsSound(w);
    var (ivs, ivt) := InitialVirtualReserves(w.curve.target);
    if w.curve.vtok == 0 {
      FloorDivision.MulLt(0, ivs, ivt);
    }
    SoldTokensAreRedeemable(w.curve.vsol, w.curve.vtok, w.curve.rsol, ivs, ivt, tokens);
  }

  /** No holder other than the treasury lock can own more than the curve has sold. */
  lemma HoldersOwnOnlySoldTokens(w: World, h: Holder)
    requires SupplyKept(w) && !w.curve.migrated && h != TreasuryLock
    ensures w.curve.rtok + Get(w.tokens.held, h) <= CURVE_SUPPLY
  {
    hide MapSum.Sum;
    MapSum.TwoMembers(w.tokens.held, h, TreasuryLock);
  }

  /** A sale is refused for want of SOL only past its other guards and with a quote above the real SOL. */
  lemma CoveredSaleIsPaid(w: World, s: Step)
    requires s.Sell?
    requires w.curve.complete || s.amount > Get(w.tokens.held, AtaOf(s.seller, s.route))
      || (QuoteSell(w.curve, s.amount).Ok? ==> QuoteSell(w.curve, s.amount).value <= w.curve.rsol)
    ensures HandleSell(w, s) != Err(InsufficientSol)
  {
    hide SettleSell, TorchMath.CalcSolOut;
    if HandleSell(w, s) == Err(InsufficientSol) {
      SettlingHasSol(w, s, QuoteSell(w.curve, s.amount).value);
    }
  }

  lemma SettlingHasSol(w: World, s: Step, out: u64)
    requires s.Sell? && s.amount <= Get(w.tokens.held, AtaOf(s.seller, s.route)) && (s.tracked ==> s.seller in w.stats)
    ensures SettleSell(w, s, out, 0) != Err(InsufficientSol)
  {
    hide TokenLedger.ToCurve, Supply, Wallets.Total, Wallets.AllBooks;
  }

  /** So the InsufficientSol guard never stops a seller, and the payout is in the curve's account. */
  lemma SellersArePaid(w: World, s: Step)
    requires ReachedWithoutReclaim(w) && s.Sell?
    ensures HandleSell(w, s) != Err(InsufficientSol)
  {
    hide ReachedWithoutReclaim, HandleSell, SupplyKept, BooksMatchCash, TorchMath.CalcSolOut;
    ReachedIsSound(w);
    if !w.curve.migrated && s.amount <= Get(w.tokens.held, AtaOf(s.seller, s.route)) {
      HoldersOwnOnlySoldTokens(w, AtaOf(s.seller, s.route));
      EveryTokenIsRedeemable(w, s.amount);
    }
    CoveredSaleIsPaid(w, s);
  }

  /** The guards of a sale whose proceeds would be `out`: trading lasts, the tokens are there, the SOL suffices. */
  predicate MaySell(w: World, s: Step, out: nat)
    requires s.Sell?
  {
    && !w.curve.complete && !w.curve.reclaimed && (s.tracked ==> s.seller in w.stats)
    && 0 < s.amount <= Get(w.tokens.held, AtaOf(s.seller, s.route))
    && s.minSol <= out <= w.curve.rsol
  }

  /** The purse, the volume counter and the statistics have room for the proceeds. */
  predicate CanBookSale(w: World, s: Step, out: nat)
    requires s.Sell? && (s.tracked ==> s.seller in w.stats)
  {
    && CanReceive(w.funds, PurseOf(s.seller, s.route), out)
    && (s.withProtocol ==> w.protocol.volumeCurrent + out <= U64_MAX)
    && (s.tracked && s.withProtocol ==> CanRecord(w.stats[s.seller], out, w.protocol.epoch))
  }

  /** What a sale fetches at the virtual reserves. */
  function Proceeds(c: Curve, tokens: u64): (out: nat)
    requires 0 < tokens
    ensures out <= c.vsol
  {
    FloorDivision.Share(c.vsol, tokens, c.vtok + tokens);
    c.vsol * tokens / (c.vtok + tokens)
  }

  lemma ProceedsAreQuoted(c: Curve, tokens: u64)
    requires 0 < tokens
    ensures QuoteSell(c, tokens) == Ok(Proceeds(c, tokens))
  {
  }

  /** On any curve whose account and reserves are in order, exactly these sales go through. */
  lemma SaleSucceedsIff(w: World, s: Step)
    requires s.Sell? && w.curve.rsol <= w.curve.lamports
    requires w.curve.rtok + s.amount <= U64_MAX && w.curve.vtok + s.amount <= U64_MAX
    ensures HandleSell(w, s).Ok? <==>
      && 0 < s.amount
      && MaySell(w, s, Proceeds(w.curve, s.amount)) && CanBookSale(w, s, Proceeds(w.curve, s.amount))
  {
    hide SettleSell, QuoteSell, Proceeds, CanBookSale;
    if 0 < s.amount {
      ProceedsAreQuoted(w.curve, s.amount);
      if MaySell(w, s, Proceeds(w.curve, s.amount)) {
        SettledSaleSucceedsIff(w, s, Proceeds(w.curve, s.amount));
      }
    }
  }

  /**
   More than that: in a state reached without a reclaim a sale goes through, by wallet or by vault,
   exactly when trading lasts, the seller has the tokens and, if named, the statistics, the proceeds
   meet the seller's minimum, and purse, counter and statistics have room for them.
   */
  lemma SalesSucceedIff(w: World, s: Step)
    requires ReachedWithoutReclaim(w) && s.Sell?
    ensures HandleSell(w, s).Ok? <==>
      && !w.curve.complete && (s.tracked ==> s.seller in w.stats)
      && 0 < s.amount <= Get(w.tokens.held, AtaOf(s.seller, s.route))
      && s.minSol <= Proceeds(w.curve, s.amount) && CanBookSale(w, s, Proceeds(w.curve, s.amount))
  {
    hide ReachedWithoutReclaim, HandleSell, SupplyKept, CanBookSale, AllBooks, Proceeds;
    ReachedIsSound(w);
    if !w.curve.complete && 0 < s.amount <= Get(w.tokens.held, AtaOf(s.seller, s.route)) {
      HoldersOwnOnlySoldTokens(w, AtaOf(s.seller, s.route));
      EveryTokenIsRedeemable(w, s.amount);
      ProceedsAreQuoted(w.curve, s.amount);
      SoldTokensFit(w.curve, s.amount);
      SaleSucceedsIff(w, s);
    } else if HandleSell(w, s).Ok? {
      SaleWasAllowed(w, s);
    }
  }

  lemma SaleWasAllowed(w: World, s: Step)
    requires s.Sell? && HandleSell(w, s).Ok?
    ensures !w.curve.complete && !w.curve.reclaimed && 0 < s.amount <= Get(w.tokens.held, AtaOf(s.seller, s.route))
  {
    hide SettleSell, QuoteSell;
  }

  /** The part of a sale after its guards. */
  lemma SettledSaleSucceedsIff(w: World, s: Step, out: u64)
    requires s.Sell? && s.amount <= Get(w.tokens.held, AtaOf(s.seller, s.route)) && (s.tracked ==> s.seller in w.stats)
    requires out <= w.curve.lamports && out <= w.curve.rsol && out <= w.curve.vsol
    requires w.curve.rtok + s.amount <= U64_MAX && w.curve.vtok + s.amount <= U64_MAX
    ensures SettleSell(w, s, out, 0).Ok? <==> CanBookSale(w, s, out)
  {
    hide CanReceive, CanRecord, RecordVolume, TokenLedger.ToCurve, Supply, Wallets.PayOut, Wallets.Total,
      Wallets.AllBooks;
    PayOutSucceedsIff(w.funds, PurseOf(s.seller, s.route), out);
    if s.tracked {
      RecordSucceedsIff(w.stats[s.seller], out, w.protocol.epoch);
    }
  }

  /** Tokens on their way back fit in both reserves, and the SOL they fetch is in the virtual ones. */
  lemma SoldTokensFit(c: Curve, tokens: u64)
    requires Priced(c) && !c.migrated && c.rtok + tokens <= CURVE_SUPPLY
    ensures c.rtok + tokens <= U64_MAX && c.vtok + tokens <= U64_MAX && c.rsol <= c.vsol
  {
  }

  /**
   With a reclaim in the history this may fail. On any curve, every part of what was sold can be sold
   back exactly when all of it at once is covered by the real SOL.
   */
  lemma RedeemableIff(c: Curve)
    requires 0 < c.vtok && c.rtok <= CURVE_SUPPLY
    ensures (forall tokens: u64 :: c.rtok + tokens <= CURVE_SUPPLY ==>
             CalcSolOut(c.vsol, c.vtok, tokens).value <= c.rsol)
       <==> CalcSolOut(c.vsol, c.vtok, CURVE_SUPPLY - c.rtok).value <= c.rsol
  {
    forall tokens: u64 | c.rtok + tokens <= CURVE_SUPPLY
      ensures CalcSolOut(c.vsol, c.vtok, tokens).value <= CalcSolOut(c.vsol, c.vtok, CURVE_SUPPLY - c.rtok).value
    {
      SwapIsMonotone(c.vsol, c.vtok, tokens, CURVE_SUPPLY - c.rtok);
    }
  }

  /** While it is covered no sale is refused for want of SOL, whatever the history. */
  lemma CoveredSellersArePaid(w: World, s: Step)
    requires SupplyKept(w) && !w.curve.migrated && s.Sell? && 0 < w.curve.vtok && w.curve.rtok <= CURVE_SUPPLY
    requires CalcSolOut(w.curve.vsol, w.curve.vtok, CURVE_SUPPLY - w.curve.rtok).value <= w.curve.rsol
    ensures HandleSell(w, s) != Err(InsufficientSol)
  {
    hide HandleSell, SupplyKept, TorchMath.CalcSolOut;
    RedeemableIff(w.curve);
    if s.amount <= Get(w.tokens.held, AtaOf(s.seller, s.route)) {
      HoldersOwnOnlySoldTokens(w, AtaOf(s.seller, s.route));
    }
    CoveredSaleIsPaid(w, s);
  }

  // ---------- Graduation ----------

  /** Bonding is complete exactly when real SOL has reached the target. */
  lemma CompleteIffTargetReached(w: World)
    requires ReachedWithoutReclaim(w) && !w.curve.migrated
    ensures w.curve.complete <==> ResolvedTarget(w.curve.target) <= w.curve.rsol
  {
    hide Run;
    ReachedIsSound(w);
  }

  /** The buy that reaches the target completes the curve in its slot; any other leaves it open. */
  lemma CompletionIsStamped(w: World, s: Step)
    requires s.Buy? && Handle(w, s).Ok?
    ensures var c, c' := w.curve, Apply(w, s).curve;
      && !c.complete && (c'.complete <==> ResolvedTarget(c.target) <= c'.rsol)
      && c'.completeSlot == if c'.complete then s.slot else c.completeSlot
  {
    hide QuoteBuy, TorchMath.CalcTokensOut, Handle;
    BuyReserves(w, s);
    hide Apply;
  }

  /** Every tier starts with three eighths of its target as virtual SOL and 756.25 million tokens. */
  lemma TierReserves(target: u64)
    requires IsTier(target)
    ensures 8 * InitialVirtualReserves(target).0 == 3 * target
      && InitialVirtualReserves(target).1 == 756_250_000_000_000
  {
  }

  /** Bonding is complete exactly when the target is reached. */
  ghost predicate Agrees(c: Curve) {
    c.complete <==> ResolvedTarget(c.target) <= c.rsol
  }

  /** A complete curve has reached its target and is not reclaimed: this holds on every run, reclaims included. */
  ghost predicate Settled(c: Curve) {
    !c.migrated && c.complete ==> !c.reclaimed && ResolvedTarget(c.target) <= c.rsol
  }

  /** A revival loses the agreement exactly when its sum reaches the target. */
  lemma RevivalAgreesIff(w: World, s: Step)
    requires s.Revive? && HandleRevive(w, s).Ok? && !w.curve.complete
    ensures Agrees(HandleRevive(w, s).value.curve) <==> w.curve.rsol + s.sol < ResolvedTarget(w.curve.target)
  {
    hide Wallets.Debit;
  }

  lemma TradesSettle(w: World, s: Step)
    requires (s.Buy? || s.Sell?) && Handle(w, s).Ok?
    ensures var c, c' := w.curve, Apply(w, s).curve;
      && !c.complete && !c.reclaimed && !c'.reclaimed && c'.migrated == c.migrated && c'.target == c.target
      && if s.Buy? then Agrees(c') else !c'.complete
  {
    hide TorchMath.CalcSolOut, QuoteBuy;
    if s.Buy? {
      BuyReserves(w, s);
    } else {
      SellReserves(w, s);
    }
    hide Handle, Apply;
  }

  /** No other instruction than a trade, a migration, a reclaim or a revival touches the curve. */
  lemma OthersLeaveCurve(w: World, s: Step)
    requires MayTouchCurve(s) ==> Handle(w, s).Err?
    ensures Apply(w, s).curve == w.curve
  {
    hide Handle;
    if Handle(w, s).Ok? {
      hide Apply;
      StepFrame(w, s);
    }
  }

  lemma StepKeepsSettled(w: World, s: Step)
    requires Settled(w.curve)
    ensures Settled(Apply(w, s).curve)
  {
    hide HandleBuy, HandleSell, TorchMath.CalcTokensForPool, Wallets.Debit;
    if (s.Buy? || s.Sell?) && Handle(w, s).Ok? {
      TradesSettle(w, s);
    } else if !s.Migrate? && !s.Reclaim? && !s.Revive? {
      hide Apply;
      OthersLeaveCurve(w, s);
    }
  }

  lemma {:induction false} RunKeepsSettled(w: World, steps: seq<Step>)
    requires Settled(w.curve)
    ensures Settled(Run(w, steps).curve)
    decreases |steps|
  {
    hide Apply, Settled;
    if steps != [] {
      StepKeepsSettled(w, steps[0]);
      RunKeepsSettled(Apply(w, steps[0]), steps[1..]);
    }
  }

  /** Of all instructions only a revival whose sum reaches the target loses the agreement. */
  lemma AgreementIsLostIff(w: World, s: Step)
    requires Settled(w.curve) && Agrees(w.curve) && !w.curve.migrated && !Apply(w, s).curve.migrated
    ensures !Agrees(Apply(w, s).curve) <==>
      s.Revive? && HandleRevive(w, s).Ok? && ResolvedTarget(w.curve.target) <= w.curve.rsol + s.sol
  {
    hide HandleBuy, HandleSell, Wallets.Debit;
    if s.Buy? && Handle(w, s).Ok? {
      TradesSettle(w, s);
    } else if s.Sell? && Handle(w, s).Ok? {
      SellReserves(w, s);
    } else if !s.Migrate? && !s.Reclaim? && !s.Revive? {
      hide Apply;
      OthersLeaveCurve(w, s);
    }
  }

  /** It comes back exactly with the next purchase, a sale to below the target, or another reclaim. */
  lemma AgreementReturnsIff(w: World, s: Step)
    requires Settled(w.curve) && !Agrees(w.curve) && !w.curve.migrated
    ensures !Apply(w, s).curve.migrated
    ensures Agrees(Apply(w, s).curve) <==>
      || (s.Buy? && HandleBuy(w, s).Ok?)
      || (s.Sell? && HandleSell(w, s).Ok? && HandleSell(w, s).value.curve.rsol < ResolvedTarget(w.curve.target))
      || (s.Reclaim? && HandleReclaim(w, s).Ok?)
  {
    hide HandleBuy, HandleSell, Wallets.Debit;
    if (s.Buy? || s.Sell?) && Handle(w, s).Ok? {
      TradesSettle(w, s);
    } else if !s.Migrate? && !s.Reclaim? && !s.Revive? {
      hide Apply;
      OthersLeaveCurve(w, s);
    }
  }

  /** While trading lasts the curve has enough real tokens for any buy the wallet cap lets through. */
  lemma CapImpliesEnoughTokens(w: World, s: Step)
    requires ReachedWithoutReclaim(w) && s.Buy? && !w.curve.complete
    requires QuoteBuy(w.curve, w.treasury.community, s.sol).Ok?
    requires QuoteBuy(w.curve, w.treasury.community, s.sol).value.tokensOut <= MAX_WALLET_TOKENS
    ensures QuoteBuy(w.curve, w.treasury.community, s.sol).value.tokensOut <= w.curve.rtok
  {
    ReachedIsSound(w);
    var c := w.curve;
    if IsTier(c.target) {
      EnoughTokens(c.target, c.vsol, c.vtok);
    } else {
      QuoteWithinReserves(c, w.treasury.community, s.sol);
    }
  }

  /** Every counter and balance the books of a buy add to has room for its own part. */
  predicate CanBook(w: World, s: Step, q: BuyQuote)
    requires s.Buy?
  {
    && w.curve.lamports + q.toCurve <= U64_MAX && w.curve.vsol + q.toCurve <= U64_MAX
    && w.curve.rsol + q.toCurve <= U64_MAX
    && w.treasury.lamports + q.toTreasury <= U64_MAX && w.treasury.sol + q.toTreasury <= U64_MAX
    && w.protocol.lamports + q.protocolFee <= U64_MAX && w.protocol.feesReceived + q.protocolFee <= U64_MAX
    && w.protocol.volumeCurrent + s.sol <= U64_MAX
    && (s.tracked ==> CanRecord(StatsOf(w, s.buyer), s.sol, w.protocol.epoch))
  }

  lemma BookingSucceedsIff(w: World, s: Step, q: BuyQuote, tokens: Tokens, funds: Funds)
    requires s.Buy? && q.tokensOut <= w.curve.rtok && q.tokensOut <= w.curve.vtok
    ensures BookBuy(w, s, q, tokens, funds).Ok? <==> CanBook(w, s, q)
  {
    hide RecordVolume, CanRecord;
    RecordSucceedsIff(StatsOf(w, s.buyer), s.sol, w.protocol.epoch);
  }

  /** The guards of a buy before it is priced. */
  predicate MayBuy(w: World, s: Step)
    requires s.Buy?
  {
    && !w.curve.complete && !w.curve.reclaimed
    && 1_000_000 <= s.sol && (s.tokensToVault ==> s.route.Via?)
  }

  /** The account a buy is delivered to holds no more than 20 million tokens afterwards, transfer fee not deducted. */
  predicate WithinCap(w: World, s: Step, tokens: nat)
    requires s.Buy?
  {
    Get(w.tokens.held, Destination(s)) + tokens <= 20_000_000_000_000
  }

  /** What a quoted buy needs of reserves, minimum, cap, token account, payer and counters. */
  predicate CanSettleBuy(w: World, s: Step, q: BuyQuote)
    requires s.Buy?
  {
    && s.minTokens <= q.tokensOut <= w.curve.rtok && WithinCap(w, s, q.tokensOut)
    && q.tokensOut <= w.tokens.curveVault && CanPayForBuy(w.funds, s, q, w.config) && CanBook(w, s, q)
  }

  /** In any world whatever exactly these buys go through. */
  lemma BuySucceedsIff(w: World, s: Step)
    requires s.Buy?
    ensures HandleBuy(w, s).Ok? <==>
      && MayBuy(w, s)
      && var q := QuoteBuy(w.curve, w.treasury.community, s.sol);
         q.Ok? && CanSettleBuy(w, s, q.value)
  {
    hide QuoteBuy, SettleBuy, CanSettleBuy;
    if QuoteBuy(w.curve, w.treasury.community, s.sol).Ok? {
      var q := QuoteBuy(w.curve, w.treasury.community, s.sol).value;
      QuoteWithinReserves(w.curve, w.treasury.community, s.sol);
      SplitIsExact(w.curve, w.treasury.community, s.sol);
      SettlementSucceedsIff(w, s, q);
      if CanSettleBuy(w, s, q) {
        SettledVaultCovers(w, s, q);
      }
    }
  }

  lemma SettledVaultCovers(w: World, s: Step, q: BuyQuote)
    requires s.Buy? && CanSettleBuy(w, s, q)
    ensures VaultCovers(w.funds, s.route, s.sol)
  {
    hide CanBook;
  }

  /**
   In a state reached without a reclaim a buy goes through, by wallet or by vault, exactly when trading
   lasts, the quote meets the buyer's minimum and the wallet cap, the curve's token account can deliver,
   the payer can pay, and every counter has room for its part. The account is smaller than the real token
   reserves by the fees withheld on sales, so the program's own guard does not settle this.
   */
  lemma BuysSucceedIff(w: World, s: Step)
    requires ReachedWithoutReclaim(w) && s.Buy?
    ensures HandleBuy(w, s).Ok? <==>
      && !w.curve.complete && 1_000_000 <= s.sol && (s.tokensToVault ==> s.route.Via?)
      && var q := QuoteBuy(w.curve, w.treasury.community, s.sol);
         && q.Ok? && s.minTokens <= q.value.tokensOut && WithinCap(w, s, q.value.tokensOut)
         && q.value.tokensOut <= w.tokens.curveVault
         && CanPayForBuy(w.funds, s, q.value, w.config) && CanBook(w, s, q.value)
  {
    hide ReachedWithoutReclaim, HandleBuy, QuoteBuy, CanPayForBuy, CanBook, BooksMatchCash, Supply;
    ReachedIsSound(w);
    BuySucceedsIff(w, s);
    if !w.curve.complete && QuoteBuy(w.curve, w.treasury.community, s.sol).Ok? {
      if QuoteBuy(w.curve, w.treasury.community, s.sol).value.tokensOut <= MAX_WALLET_TOKENS {
        CapImpliesEnoughTokens(w, s);
      }
    }
  }

  /**
   A quoted and covered buy that would go past the cap is refused for that; within it, a short account is what
   refuses.
   */
  lemma RefusedBuys(w: World, s: Step, q: BuyQuote)
    requires ReachedWithoutReclaim(w) && s.Buy? && MayBuy(w, s) && VaultCovers(w.funds, s.route, s.sol)
    requires QuoteBuy(w.curve, w.treasury.community, s.sol) == Ok(q) && q.tokensOut <= w.curve.rtok
    ensures q.tokensOut < s.minTokens ==> HandleBuy(w, s) == Err(SlippageExceeded)
    ensures s.minTokens <= q.tokensOut && !WithinCap(w, s, q.tokensOut) ==> HandleBuy(w, s) == Err(MaxWalletExceeded)
    ensures s.minTokens <= q.tokensOut && WithinCap(w, s, q.tokensOut) && w.tokens.curveVault < q.tokensOut ==>
      HandleBuy(w, s) == Err(InsufficientFunds)
  {
    hide ReachedWithoutReclaim, QuoteBuy, SettleBuy, BooksMatchCash, MapSum.Sum;
    ReachedIsSound(w);
    MapSum.Member(w.tokens.held, Destination(s));
    RefusedSettlements(w, s, q);
  }

  /** A vault that cannot pay is found out before anything is quoted. */
  lemma PoorVaultsAreRefused(w: World, s: Step, v: Key)
    requires s.Buy? && MayBuy(w, s) && s.route == Via(v) && v in w.funds.vaults && w.funds.vaults[v].sol < s.sol
    ensures HandleBuy(w, s) == Err(InsufficientVaultBalance)
  {
    hide QuoteBuy, SettleBuy;
  }

  lemma RefusedSettlements(w: World, s: Step, q: BuyQuote)
    requires s.Buy? && q.tokensOut <= w.curve.rtok && Get(w.tokens.held, Destination(s)) + q.tokensOut <= U64_MAX
    ensures q.tokensOut < s.minTokens ==> SettleBuy(w, s, q) == Err(SlippageExceeded)
    ensures s.minTokens <= q.tokensOut && !WithinCap(w, s, q.tokensOut) ==> SettleBuy(w, s, q) == Err(MaxWalletExceeded)
    ensures s.minTokens <= q.tokensOut && WithinCap(w, s, q.tokensOut) && w.tokens.curveVault < q.tokensOut ==>
      SettleBuy(w, s, q) == Err(InsufficientFunds)
  {
    hide PayForBuy, BookBuy, TokenLedger.FromCurve, TokenLedger.Supply, Wallets.Total, Wallets.AllBooks;
    if w.tokens.curveVault < q.tokensOut {
      ShortAccountRefuses(w.tokens, Destination(s), q.tokensOut);
    }
  }

  /** The part of a buy after its quote. */
  lemma SettlementSucceedsIff(w: World, s: Step, q: BuyQuote)
    requires s.Buy? && q.tokensOut <= w.curve.vtok
    requires q.toCurve + q.toTreasury + q.toCreator + q.devShare + q.protocolFee == s.sol
    ensures SettleBuy(w, s, q).Ok? <==> CanSettleBuy(w, s, q)
  {
    hide PayForBuy, BookBuy, CanPayForBuy, CanBook, TokenLedger.FromCurve, TokenLedger.Supply, Wallets.Total,
      Wallets.AllBooks;
    PaymentsSucceedIff(w.funds, s, q, w.config);
    if q.tokensOut <= w.tokens.curveVault && q.tokensOut <= w.curve.rtok && CanPayForBuy(w.funds, s, q, w.config) {
      var tokens, funds := FromCurve(w.tokens, Destination(s), q.tokensOut), PayForBuy(w.funds, s, q, w.config);
      BookingSucceedsIff(w, s, q, tokens.value, funds.value);
    }
  }

  /**
   No buy takes its destination past the wallet cap, counting what is there already; and what arrives
   is what left the curve less the transfer fee.
   */
  lemma BuysRespectWalletCap(w: World, s: Step)
    requires s.Buy? && HandleBuy(w, s).Ok?
    ensures var w' := HandleBuy(w, s).value; var bought := w.curve.rtok - w'.curve.rtok;
      && 0 <= bought && Get(w.tokens.held, Destination(s)) + bought <= 20_000_000_000_000
      && Get(w'.tokens.held, Destination(s)) <= 20_000_000_000_000
  {
    hide QuoteBuy, SettleBuy, CanPayForBuy, CanBook, Net;
    var q := QuoteBuy(w.curve, w.treasury.community, s.sol).value;
    BuySucceedsIff(w, s);
    BuyExchange(w, s, q, PurseOf(s.buyer, s.route), Destination(s));
    assert Net(q.tokensOut) <= q.tokensOut;
  }

  lemma ShortAccountRefuses(t: Tokens, to: Holder, amount: u64)
    requires t.curveVault < amount
    ensures FromCurve(t, to, amount) == Err(InsufficientFunds)
  {
  }

  lemma QuoteWithinReserves(c: Curve, community: bool, sol: u64)
    requires QuoteBuy(c, community, sol).Ok?
    ensures QuoteBuy(c, community, sol).value.tokensOut <= c.vtok
  {
    hide TorchMath.CalcTokensOut;
  }

  /** Below the target, at least 206.25 million tokens of virtual inventory remain. */
  lemma EnoughTokens(target: u64, vsol: u64, vtok: u64)
    requires IsTier(target)
    requires InitialVirtualReserves(target).0 * InitialVirtualReserves(target).1 <= vsol * vtok
    requires vsol < InitialVirtualReserves(target).0 + target
    ensures 206_250_000_000_000 < vtok
  {
    if vtok <= 206_250_000_000_000 {
      FloorDivision.MulLe(vtok, 206_250_000_000_000, vsol);
    }
  }

  /** A buy within the wallet cap cannot carry real SOL past 1.15 times the target. */
  lemma OvershootIsBounded(w: World, s: Step)
    requires ReachedWithoutReclaim(w) && IsTier(w.curve.target)
    requires s.Buy? && Handle(w, s).Ok?
    ensures 100 * Apply(w, s).curve.rsol < 115 * w.curve.target
  {
    ReachedIsSound(w);
    BuyReserves(w, s);
    hide ReachedWithoutReclaim, QuoteBuy, Apply, Handle, TorchMath.CalcTokensOut, Priced, SupplyKept, BooksMatchCash,
      AfterBuy;
    CurveOvershoot(w.curve, QuoteBuy(w.curve, w.treasury.community, s.sol).value.toCurve, s.slot);
  }

  lemma CurveOvershoot(c: Curve, sol: u64, slot: u64)
    requires Priced(c) && !c.complete && IsTier(c.target)
    requires 0 < c.vsol + sol && CalcTokensOut(c.vtok, c.vsol, sol).value <= MAX_WALLET_TOKENS
    requires AfterBuy(c, sol, CalcTokensOut(c.vtok, c.vsol, sol).value, slot).Ok?
    ensures 100 * AfterBuy(c, sol, CalcTokensOut(c.vtok, c.vsol, sol).value, slot).value.rsol < 115 * c.target
  {
    TokensOutBounds(c.vtok, c.vsol, sol);
    hide TorchMath.CalcTokensOut;
    TierOvershoot(c.target, c.vsol, c.vtok, sol, CalcTokensOut(c.vtok, c.vsol, sol).value);
  }

  lemma TokensOutBounds(vtok: u64, vsol: u64, sol: u64)
    requires 0 < vsol + sol
    ensures var out := CalcTokensOut(vtok, vsol, sol).value;
      out * (vsol + sol) <= vtok * sol < (out + 1) * (vsol + sol)
  {
    FloorDivision.NonNegative(vtok, sol);
    FloorDivision.Bounds(vtok * sol, vsol + sol);
  }

  lemma TierOvershoot(target: u64, vsol: u64, vtok: u64, sol: u64, out: u64)
    requires IsTier(target) && out <= MAX_WALLET_TOKENS
    requires InitialVirtualReserves(target).0 * InitialVirtualReserves(target).1 <= vsol * vtok
    requires InitialVirtualReserves(target).0 <= vsol < InitialVirtualReserves(target).0 + target
    requires vtok * sol < (out + 1) * (vsol + sol)
    ensures 100 * (vsol + sol - InitialVirtualReserves(target).0) < 115 * target
  {
    EnoughTokens(target, vsol, vtok);
    Overshoot(vsol, vtok, sol, out);
  }

  /** Buying at most 20 million of at least 206.25 million tokens multiplies virtual SOL by less than 61/55. */
  lemma Overshoot(vsol: nat, vtok: nat, sol: nat, out: nat)
    requires 206_250_000_000_000 < vtok && out <= 20_000_000_000_000
    requires vtok * sol < (out + 1) * (vsol + sol)
    requires 0 < vsol
    ensures 55 * (vsol + sol) < 61 * vsol
  {
    var left := vtok - 20_000_000_000_001;
    FloorDivision.MulLe(out + 1, 20_000_000_000_001, vsol + sol);
    assert left * (vsol + sol) == vtok * vsol + vtok * sol - 20_000_000_000_001 * (vsol + sol);
    assert left * (vsol + sol) < vtok * vsol;
    FloorDivision.MulLe(55 * vtok, 61 * left, vsol);
    if 61 * vsol <= 55 * (vsol + sol) {
      FloorDivision.MulLe(61 * vsol, 55 * (vsol + sol), left);
    }
  }

  // ---------- Trading never pays the traders as a whole ----------

  /** Steps that only trade on the curve or move traders' own SOL and tokens. */
  ghost predicate OnlyTrading(steps: seq<Step>) {
    forall s :: s in steps ==>
      || s.Buy? || s.Sell? || s.TransferTokens? || s.TransferSol? || s.CreateVault? || s.DepositVault?
      || s.WithdrawVault?
  }

  lemma TradeMovesCashWithReserves(w: World, s: Step)
    requires OnlyTrading([s])
    ensures Apply(w, s).curve.lamports - w.curve.lamports == Apply(w, s).curve.vsol - w.curve.vsol
  {
    assert s in [s];
    hide Handle, TorchMath.CalcTokensOut, TorchMath.CalcSolOut, QuoteBuy;
    if !IsTrade(s) {
      hide Apply;
      StepFrame(w, s);
    } else if Handle(w, s).Ok? {
      hide Apply;
      if s.Buy? {
        BuyReserves(w, s);
      } else {
        SellReserves(w, s);
      }
    }
  }

  /** Treasury and protocol hold no less, and no SOL has gone elsewhere. */
  ghost predicate ProtocolKeeps(w: World, w': World) {
    w.treasury.lamports <= w'.treasury.lamports && w.protocol.lamports <= w'.protocol.lamports
      && w'.outside == w.outside
  }

  lemma TradeNeverDrainsProtocol(w: World, s: Step)
    requires OnlyTrading([s])
    ensures ProtocolKeeps(w, Apply(w, s))
  {
    assert s in [s];
    hide HandleBuy, HandleSell;
    if !IsTrade(s) {
      hide Apply;
      StepFrame(w, s);
    } else if Handle(w, s).Ok? {
      if s.Buy? {
        BuyFeedsProtocol(w, s);
      } else {
        SaleFeedsProtocol(w, s);
      }
    }
  }

  lemma BuyFeedsProtocol(w: World, s: Step)
    requires s.Buy? && HandleBuy(w, s).Ok?
    ensures ProtocolKeeps(w, HandleBuy(w, s).value)
  {
    hide QuoteBuy, PayForBuy, RecordVolume, AfterBuy, TokenLedger.FromCurve, TokenLedger.Supply, Wallets.Total,
      Wallets.AllBooks;
  }

  lemma SaleFeedsProtocol(w: World, s: Step)
    requires s.Sell? && HandleSell(w, s).Ok?
    ensures ProtocolKeeps(w, HandleSell(w, s).value)
  {
    hide QuoteSell, RecordVolume, AfterSell, TokenLedger.ToCurve, TokenLedger.Supply, Wallets.PayOut, Wallets.Total,
      Wallets.AllBooks;
  }

  lemma {:induction false} TradesMoveCashWithReserves(w: World, steps: seq<Step>)
    requires OnlyTrading(steps)
    ensures var w' := Run(w, steps);
      w'.curve.lamports - w.curve.lamports == w'.curve.vsol - w.curve.vsol && ProtocolKeeps(w, w')
    decreases |steps|
  {
    hide Apply;
    if steps != [] {
      assert steps[0] in steps;
      TradeMovesCashWithReserves(w, steps[0]);
      TradeNeverDrainsProtocol(w, steps[0]);
      TradesMoveCashWithReserves(Apply(w, steps[0]), steps[1..]);
    }
  }

  /** However traders trade and shuffle, if the curve ends with no more tokens they end with no more SOL. */
  lemma TradersCannotExtract(w: World, steps: seq<Step>)
    requires OnlyTrading(steps) && 0 < w.curve.vtok
    requires Run(w, steps).curve.vtok <= w.curve.vtok
    ensures Total(Run(w, steps).funds) <= Total(w.funds)
  {
    hide Run, MapSum.Sum;
    NoRunExtracts(w, steps);
    BooksEqualCash(w, steps);
    TradesMoveCashWithReserves(w, steps);
  }
}
