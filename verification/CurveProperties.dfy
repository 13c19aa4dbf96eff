/** What holds of the bonding curve on every run: redemption, graduation, supply and migration. */
module CurveProperties {
  import opened Base
  import opened Constants
  import opened MapSum
  import opened TorchMath
  import opened TokenLedger
  import opened Accounts
  import opened BondingCurve
  import opened Program
  import opened Frames
  import Wallets
  import Lending
  import FloorDivision

  // ---------- The constant product ----------

  /** A curve no worse for the pool: the same token, and a product at least as large. */
  ghost predicate NoWorse(c: Curve, c': Curve) {
    c'.target == c.target && c.vsol * c.vtok <= c'.vsol * c'.vtok
  }

  lemma StepKeepsProduct(w: World, s: Step)
    ensures NoWorse(w.curve, Apply(w, s).curve)
  {
    hide HandleBuy, HandleSell, BondingCurve.QuoteBuy, TorchMath.CalcTokensOut, TorchMath.CalcSolOut, Apply;
    if s.Buy? && Handle(w, s).Ok? {
      BuyReserves(w, s);
      BuyKeepsProduct(w.curve.vsol, w.curve.vtok, QuoteBuy(w.curve, w.treasury.community, s.sol).value.toCurve);
    } else if s.Sell? && Handle(w, s).Ok? {
      SellReserves(w, s);
      SellKeepsProduct(w.curve.vsol, w.curve.vtok, s.amount);
    } else {
      OthersLeaveReserves(w, s);
    }
  }

  /** A successful buy moves exactly the quoted amounts across the reserves. */
  lemma BuyReserves(w: World, s: Step)
    requires s.Buy? && Handle(w, s).Ok?
    ensures var c, c' := w.curve, Apply(w, s).curve;
      var quote := QuoteBuy(c, w.treasury.community, s.sol);
      && quote.Ok? && 0 < c.vsol + quote.value.toCurve
      && quote.value.tokensOut == CalcTokensOut(c.vtok, c.vsol, quote.value.toCurve).value <= MAX_WALLET_TOKENS
      && AfterBuy(c, quote.value.toCurve, quote.value.tokensOut, s.slot) == Ok(c')
      && !c.complete && !c.reclaimed
  {
    hide QuoteBuy, PayForBuy, RecordVolume, AfterBuy, TorchMath.CalcTokensOut, Wallets.Total, Wallets.AllBooks,
      TokenLedger.Supply, TokenLedger.FromCurve;
    QuotedTokens(w.curve, w.treasury.community, s.sol);
  }

  /** A successful sale moves the quoted SOL and the sold tokens. */
  lemma SellReserves(w: World, s: Step)
    requires s.Sell? && Handle(w, s).Ok?
    ensures var c, c' := w.curve, Apply(w, s).curve;
      && 0 < c.vtok + s.amount
      && AfterSell(c, CalcSolOut(c.vsol, c.vtok, s.amount).value, s.amount, s.slot) == Ok(c')
      && !c.complete && !c.reclaimed
  {
    hide Wallets.PayOut, Wallets.Total, Wallets.AllBooks, TokenLedger.Supply, RecordVolume, AfterSell;
  }

  /** How a migration, a reclaim and a revival move the rest of the curve. */
  lemma ClosingReserves(w: World, s: Step)
    requires (s.Migrate? || s.Reclaim? || s.Revive?) && Handle(w, s).Ok?
    ensures var c, c' := w.curve, Handle(w, s).value.curve;
      && c' == c.(lamports := c'.lamports, rsol := c'.rsol, rtok := c'.rtok, reclaimed := c'.reclaimed,
                  migrated := c'.migrated, lastActivity := c'.lastActivity)
      && (c.reclaimed || s.Reclaim? || (s.Migrate? && c.complete && c'.migrated))
      && (c'.reclaimed ==> c.reclaimed || s.Reclaim?)
  {
    hide TorchMath.CalcTokensForPool, TokenLedger.SeedPool, TokenLedger.Supply, Wallets.Debit, Wallets.Total;
  }

  lemma OthersLeaveReserves(w: World, s: Step)
    requires IsTrade(s) ==> Handle(w, s).Err?
    ensures var c, c' := w.curve, Apply(w, s).curve;
      && c' == c.(lamports := c'.lamports, rsol := c'.rsol, rtok := c'.rtok, reclaimed := c'.reclaimed,
                  migrated := c'.migrated, lastActivity := c'.lastActivity)
      && (c.reclaimed || s.Reclaim? || (s.Migrate? && c.complete && c'.migrated) || c' == c)
      && (c'.reclaimed ==> c.reclaimed || s.Reclaim?)
  {
    hide Handle;
    if Handle(w, s).Ok? {
      if MayTouchCurve(s) {
        ClosingReserves(w, s);
      } else {
        hide Apply;
        StepFrame(w, s);
      }
    }
  }

  /**
   Over any run at all the product of the virtual reserves never falls, so no sequence of trades,
   reclaims and revivals brings the curve to no more tokens with less SOL.
   */
  lemma {:induction false} NoRunExtracts(w: World, steps: seq<Step>)
    ensures NoWorse(w.curve, Run(w, steps).curve)
    ensures 0 < w.curve.vtok && Run(w, steps).curve.vtok <= w.curve.vtok ==> w.curve.vsol <= Run(w, steps).curve.vsol
    decreases |steps|
  {
    hide Apply;
    var c' := Run(w, steps).curve;
    if steps != [] {
      StepKeepsProduct(w, steps[0]);
      NoRunExtracts(Apply(w, steps[0]), steps[1..]);
    }
    if 0 < w.curve.vtok && c'.vtok <= w.curve.vtok && c'.vsol < w.curve.vsol {
      FloorDivision.MulLe(c'.vtok, w.curve.vtok, c'.vsol);
      FloorDivision.MulLt(c'.vsol, w.curve.vsol, w.curve.vtok);
    }
  }

  // ---------- Reclaim-free runs ----------

  ghost predicate ReclaimFree(steps: seq<Step>) {
    forall s :: s in steps ==> !s.Reclaim?
  }

  /** Reserves keep their initial offsets, and bonding is complete exactly when the target is reached. */
  ghost predicate Priced(c: Curve) {
    var (ivs, ivt) := InitialVirtualReserves(c.target);
    && !c.reclaimed
    && ivs * ivt <= c.vsol * c.vtok
    && (c.migrated ==> c.complete)
    && (!c.migrated ==>
         && c.vsol == ivs + c.rsol
         && c.vtok + CURVE_SUPPLY == ivt + c.rtok
         && (c.complete <==> ResolvedTarget(c.target) <= c.rsol))
  }

  lemma StepKeepsPriced(w: World, s: Step)
    requires Priced(w.curve) && !s.Reclaim?
    ensures Priced(Apply(w, s).curve)
  {
    StepKeepsProduct(w, s);
    hide Handle, Apply, BondingCurve.QuoteBuy, TorchMath.CalcTokensOut, TorchMath.CalcSolOut;
    if s.Buy? && Handle(w, s).Ok? {
      BuyReserves(w, s);
    } else if s.Sell? && Handle(w, s).Ok? {
      SellReserves(w, s);
    } else {
      OthersLeaveReserves(w, s);
    }
  }

  lemma {:induction false} RunKeepsPriced(w: World, steps: seq<Step>)
    requires Priced(w.curve) && ReclaimFree(steps)
    ensures Priced(Run(w, steps).curve)
    decreases |steps|
  {
    hide Apply, Priced;
    if steps != [] {
      StepKeepsPriced(w, steps[0]);
      RunKeepsPriced(Apply(w, steps[0]), steps[1..]);
    }
  }

  // ---------- Where the supply is ----------

  /** The whole supply is accounted for; before migration the curve's books equal its token account. */
  ghost predicate SupplyKept(w: World) {
    && Supply(w.tokens) == TOTAL_SUPPLY
    && (!w.curve.migrated ==>
         && w.curve.rtok == w.tokens.curveVault + w.tokens.curveWithheld
         && TREASURY_LOCK_TOKENS <= Get(w.tokens.held, TreasuryLock)
         && Get(w.tokens.held, DexPool) == 0
         && w.tokens.burned == 0)
  }

  lemma BuyKeepsSupply(w: World, s: Step)
    requires SupplyKept(w) && s.Buy?
    ensures HandleBuy(w, s).Ok? ==> SupplyKept(HandleBuy(w, s).value)
  {
    hide MapSum.Sum, PayForBuy, BondingCurve.QuoteBuy, RecordVolume, TorchMath.CalcTransferFee;
  }

  lemma SellKeepsSupply(w: World, s: Step)
    requires SupplyKept(w) && s.Sell?
    ensures HandleSell(w, s).Ok? ==> SupplyKept(HandleSell(w, s).value)
  {
    hide MapSum.Sum, Wallets.PayOut, Wallets.Total, Wallets.AllBooks, TorchMath.CalcSolOut, RecordVolume,
      TorchMath.CalcTransferFee;
  }

  /** The supply is complete, and the curve's account, the lock, the pool and the burns are as before. */
  ghost predicate CollateralMoved(t: Tokens, t': Tokens) {
    && Supply(t') == Supply(t)
    && t'.curveVault == t.curveVault && t'.curveWithheld == t.curveWithheld && t'.burned == t.burned
    && Get(t'.held, TreasuryLock) == Get(t.held, TreasuryLock) && Get(t'.held, DexPool) == Get(t.held, DexPool)
  }

  lemma ToCollateralMoves(t: Tokens, from: Holder, amount: u64)
    requires from != TreasuryLock && from != DexPool && ToCollateral(t, from, amount).Ok?
    ensures CollateralMoved(t, ToCollateral(t, from, amount).value)
  {
    hide Supply, Net;
  }

  lemma FromCollateralMoves(t: Tokens, to: Holder, amount: u64)
    requires to != TreasuryLock && to != DexPool && FromCollateral(t, to, amount).Ok?
    ensures CollateralMoved(t, FromCollateral(t, to, amount).value)
  {
    hide Supply, Net;
  }

  lemma BorrowMovesCollateral(w: World, s: Step)
    requires s.Borrow? && HandleBorrow(w, s).Ok?
    ensures CollateralMoved(w.tokens, HandleBorrow(w, s).value.tokens)
  {
    hide CollateralMoved, Lending.Accrue, WithinLtv, Lend, BookLoan, Net, TokenLedger.ToCollateral, Supply,
      Wallets.PayOut, Wallets.Total, Wallets.AllBooks;
    if s.collateral > 0 {
      ToCollateralMoves(w.tokens, AtaOf(s.user, s.route), s.collateral);
    } else {
      assert CollateralMoved(w.tokens, w.tokens) by {
        NothingMoved(w.tokens);
      }
    }
  }

  lemma NothingMoved(t: Tokens)
    ensures CollateralMoved(t, t)
  {
  }

  lemma RepayMovesCollateral(w: World, s: Step)
    requires s.Repay? && HandleRepay(w, s).Ok?
    ensures CollateralMoved(w.tokens, HandleRepay(w, s).value.tokens)
  {
    hide CollateralMoved, Lending.Accrue, Collect, TokenLedger.FromCollateral, Supply, Lending.InterestPart,
      Lending.AfterPayment, Wallets.Pay, Wallets.Total, Wallets.AllBooks;
    NothingMoved(w.tokens);
    var loan := Lending.Accrue(w.loans[s.user], s.slot).value;
    if Lending.Debt(loan) <= s.sol {
      FromCollateralMoves(w.tokens, AtaOf(s.user, s.route), loan.collateral);
    }
  }

  lemma LiquidationMovesCollateral(w: World, s: Step)
    requires s.Liquidate? && HandleLiquidate(w, s).Ok?
    ensures CollateralMoved(w.tokens, HandleLiquidate(w, s).value.tokens)
  {
    hide CollateralMoved, Lending.Accrue, Lending.Seize, Collect, TokenLedger.FromCollateral, Supply,
      Lending.InterestPart, Lending.PrincipalPart, Lending.AfterLiquidation, Wallets.Pay, Wallets.Total,
        Wallets.AllBooks;
    NothingMoved(w.tokens);
    var loan := Lending.Accrue(w.loans[s.borrower], s.slot).value;
    var cut := Lending.Seize(loan, s.poolSol, s.poolTok).value;
    if cut.seized > 0 {
      FromCollateralMoves(w.tokens, AtaOf(s.liquidator, s.route), cut.seized);
    }
  }

  lemma LendingKeepsSupply(w: World, s: Step)
    requires SupplyKept(w) && IsLending(s)
    ensures SupplyKept(Apply(w, s))
  {
    hide HandleBorrow, HandleRepay, HandleLiquidate, Supply, MapSum.Sum;
    StepFrame(w, s);
    if Handle(w, s).Ok? {
      match s
      case Borrow(_, _, _, _, _, _, _) => BorrowMovesCollateral(w, s);
      case Repay(_, _, _, _) => RepayMovesCollateral(w, s);
      case Liquidate(_, _, _, _, _, _) => LiquidationMovesCollateral(w, s);
    }
  }

  lemma TransferKeepsSupply(w: World, s: Step)
    requires SupplyKept(w) && (s.TransferTokens? || s.Migrate?)
    ensures SupplyKept(Apply(w, s))
  {
    hide MapSum.Sum, TorchMath.CalcTransferFee;
  }

  lemma ClosingKeepsSupply(w: World, s: Step)
    requires SupplyKept(w) && (s.Reclaim? || s.Revive?)
    ensures SupplyKept(Apply(w, s))
  {
    hide MapSum.Sum, Supply, Wallets.Debit, Wallets.Total;
  }

  lemma StepKeepsSupply(w: World, s: Step)
    requires SupplyKept(w)
    ensures SupplyKept(Apply(w, s))
  {
    hide MapSum.Sum, HandleBuy, HandleSell;
    if s.Buy? {
      BuyKeepsSupply(w, s);
    } else if s.Sell? {
      SellKeepsSupply(w, s);
    } else {
      hide Apply, Supply;
      if IsLending(s) {
        LendingKeepsSupply(w, s);
      } else if s.TransferTokens? || s.Migrate? {
        TransferKeepsSupply(w, s);
      } else if s.Reclaim? || s.Revive? {
        ClosingKeepsSupply(w, s);
      } else {
        StepFrame(w, s);
      }
    }
  }

  /** On every run the curve, the holders, the collateral, the withheld fees and the burns make up the supply. */
  lemma {:induction false} RunKeepsSupply(w: World, steps: seq<Step>)
    requires SupplyKept(w)
    ensures SupplyKept(Run(w, steps))
    decreases |steps|
  {
    hide Apply, SupplyKept;
    if steps != [] {
      StepKeepsSupply(w, steps[0]);
      RunKeepsSupply(Apply(w, steps[0]), steps[1..]);
    }
  }
}
