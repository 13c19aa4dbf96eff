/** What holds in every state a token can reach, whatever instructions were sent and in whatever order. */
module ReachableStates {
  import opened Base
  import opened MapSum
  import opened TorchMath
  import opened TokenLedger
  import opened Wallets
  import opened Accounts
  import opened Lending
  import opened Program
  import opened LoanBook
  import opened LiquidationProperties
  import opened Exchanges
  import opened LoanHistory
  import opened RewardProperties
  import opened CashProperties
  import opened CurveProperties
  import opened CurveGuarantees

  ghost predicate Reached(w: World) {
    exists w0, steps :: IsGenesis(w0) && w == Run(w0, steps)
  }

  lemma NewTokenIsSound(w: World)
    requires IsGenesis(w)
    ensures BookSound(w) && PoolSound(w) && SupplyKept(w) && BooksMatchCash(w)
  {
    hide Priced, SupplyKept, BooksMatchCash;
    GenesisIsSound(w);
  }

  /** The loan book, the reward pool, the token supply and the cash are all in order in every reachable state. */
  lemma EveryReachedStateIsSound(w: World)
    requires Reached(w)
    ensures BookSound(w) && PoolSound(w) && SupplyKept(w) && BooksMatchCash(w)
  {
    hide BookSound, PoolSound, SupplyKept, BooksMatchCash, TotalSol, IsGenesis;
    var w0, steps :| IsGenesis(w0) && w == Run(w0, steps);
    NewTokenIsSound(w0);
    RunKeepsBook(w0, steps);
    RunKeepsPool(w0, steps);
    RunKeepsSupply(w0, steps);
    BooksEqualCash(w0, steps);
  }

  lemma RunIsReached(w0: World, steps: seq<Step>)
    requires IsGenesis(w0)
    ensures Reached(Run(w0, steps))
  {
    hide IsGenesis;
  }

  lemma ReachedAgain(w: World, s: Step)
    requires Reached(w)
    ensures Reached(Apply(w, s))
  {
    var w0, steps :| IsGenesis(w0) && w == Run(w0, steps);
    hide IsGenesis, Apply;
    RunAppends(w0, steps, s);
  }

  /** In every reachable state a complete curve has reached its target and is not reclaimed. */
  lemma EveryReachedCurveIsSettled(w: World)
    requires Reached(w)
    ensures Settled(w.curve)
  {
    hide Settled;
    var w0, steps :| IsGenesis(w0) && w == Run(w0, steps);
    NewCurveIsSettled(w0);
    hide IsGenesis;
    RunKeepsSettled(w0, steps);
  }

  lemma NewCurveIsSettled(w: World)
    requires IsGenesis(w)
    ensures Settled(w.curve)
  {
  }

  /** From creation on, the total lent is the sum of the open principals on every run whose losses all fit. */
  lemma ExactFromCreation(w0: World, steps: seq<Step>)
    requires IsGenesis(w0) && LossFreeRun(w0, steps)
    ensures Exact(Run(w0, steps))
  {
    hide LossFreeRun, Run;
    NewTokenIsSound(w0);
    ExactBeforeMigration(w0);
    RunKeepsExact(w0, steps);
  }

  // ---------- What the participants get from it ----------

  /**
   No instruction leaves reserved short collateral uncovered, or the treasury's total of what is lent above
   four times the unreserved SOL. The principals themselves are the subject of TreasurySolvency.
   */
  lemma ReservesAreNeverLent(w: World, s: Step)
    requires Reached(w)
    ensures var t := Apply(w, s).treasury;
      && t.shortReserved <= t.sol
      && t.sol - t.shortReserved + t.lent <= 5 * (t.sol - t.shortReserved)
  {
    hide Apply, Reached, PoolSound, SupplyKept, BooksMatchCash, CollateralBacked;
    ReachedAgain(w, s);
    EveryReachedStateIsSound(Apply(w, s));
  }

  /** Whoever posted short collateral finds it in the treasury, in its ledger and in its lamports. */
  lemma ShortCollateralIsThere(w: World, user: Key)
    requires Reached(w)
    ensures Get(w.shorts, user) <= w.treasury.sol <= w.treasury.lamports
  {
    hide Reached, PoolSound, SupplyKept, CollateralBacked, MapSum.Sum;
    EveryReachedStateIsSound(w);
    MapSum.Member(w.shorts, user);
  }

  lemma RepaymentFindsCollateral(w: World, s: Step, loan: Loan)
    requires s.Repay? && loan.collateral <= w.tokens.collateral
    ensures SettleRepayment(w, s, loan) != Err(InsufficientFunds)
  {
    hide Wallets.Total, Wallets.AllBooks, TokenLedger.Supply, TokenLedger.FromCollateral, AfterPayment, InterestPart;
  }

  lemma SettlementFindsCollateral(w: World, s: Step, loan: Loan, cut: Seizure)
    requires s.Liquidate? && cut.seized <= loan.collateral <= w.tokens.collateral
    ensures SettleLiquidation(w, s, loan, cut) != Err(InsufficientFunds)
  {
    hide Wallets.Total, Wallets.AllBooks, TokenLedger.Supply, TokenLedger.FromCollateral, AfterLiquidation,
      InterestPart, PrincipalPart;
  }

  /** Every position's collateral is in the vault. */
  lemma CollateralIsHeld(w: World, user: Key, slot: u64)
    requires Reached(w) && user in w.loans
    ensures w.loans[user].collateral <= w.tokens.collateral
    ensures Accrue(w.loans[user], slot).Ok? ==> Accrue(w.loans[user], slot).value.collateral == w.loans[user].collateral
  {
    EveryReachedStateIsSound(w);
    hide Reached, PoolSound, SupplyKept, BooksMatchCash, Collaterals, Principals, MapSum.Sum, Solvent,
      TorchMath.CalcInterest;
    OneOfMany(w.loans, user);
  }

  /** So a repayment never fails for want of it, */
  lemma RepaymentsReturnCollateral(w: World, s: Step)
    requires Reached(w) && s.Repay?
    ensures HandleRepay(w, s) != Err(InsufficientFunds)
  {
    hide Reached, SettleRepayment, TorchMath.CalcInterest;
    if s.user in w.loans && Accrue(w.loans[s.user], s.slot).Ok? {
      CollateralIsHeld(w, s.user, s.slot);
      RepaymentFindsCollateral(w, s, Accrue(w.loans[s.user], s.slot).value);
    }
  }

  /** and neither does a liquidation. */
  lemma LiquidationsFindCollateral(w: World, s: Step)
    requires Reached(w) && s.Liquidate?
    ensures HandleLiquidate(w, s) != Err(InsufficientFunds)
  {
    hide Reached, SettleLiquidation, TorchMath.CalcInterest, TorchMath.CalcCollateralToSeize,
      TorchMath.CalcCollateralValue,
      TorchMath.CalcLtvBps;
    if s.borrower in w.loans && Accrue(w.loans[s.borrower], s.slot).Ok? {
      CollateralIsHeld(w, s.borrower, s.slot);
      var loan := Accrue(w.loans[s.borrower], s.slot).value;
      if Seize(loan, s.poolSol, s.poolTok).Ok? {
        SettlementFindsCollateral(w, s, loan, Seize(loan, s.poolSol, s.poolTok).value);
      }
    }
  }

  lemma RepayingSucceedsIff(w: World, s: Step, loan: Loan)
    requires s.Repay? && loan.collateral <= w.tokens.collateral
    ensures SettleRepayment(w, s, loan).Ok? <==>
      && Debt(loan) <= U64_MAX
      && CanPay(w.funds, PurseOf(s.user, s.route), Min(s.sol, Debt(loan)))
      && CanCollect(w.treasury, Min(s.sol, Debt(loan)), InterestPart(loan, Min(s.sol, Debt(loan))))
  {
    hide Wallets.Pay, Wallets.Total, Wallets.AllBooks, TokenLedger.Supply, TokenLedger.FromCollateral, AfterPayment,
      InterestPart, CanPay;
    if Debt(loan) <= U64_MAX {
      PaySucceedsIff(w.funds, PurseOf(s.user, s.route), Min(s.sol, Debt(loan)));
    }
  }

  /**
   A borrower can repay, partly or in full, exactly when there is a loan, its interest and its debt fit
   64 bits, the purse can pay and the treasury's counters have room.
   */
  lemma RepaymentsSucceedIff(w: World, s: Step)
    requires Reached(w) && s.Repay?
    ensures HandleRepay(w, s).Ok? <==>
      && s.user in w.loans && 0 < w.loans[s.user].borrowed && 0 < s.sol
      && var loan := Accrue(w.loans[s.user], s.slot);
         && loan.Ok? && Debt(loan.value) <= U64_MAX
         && var paid := Min(s.sol, Debt(loan.value));
            CanPay(w.funds, PurseOf(s.user, s.route), paid)
              && CanCollect(w.treasury, paid, InterestPart(loan.value, paid))
  {
    hide Reached, SettleRepayment, Accrue, CanPay, CanCollect, InterestPart;
    if s.user in w.loans && Accrue(w.loans[s.user], s.slot).Ok? {
      CollateralIsHeld(w, s.user, s.slot);
      RepayingSucceedsIff(w, s, Accrue(w.loans[s.user], s.slot).value);
    }
  }

  /**
   A position can be liquidated exactly when there is a loan, its interest and the handler's quantities
   fit its machine integers, the debt is at the threshold, the liquidator can pay, and the treasury's
   counters have room.
   */
  lemma LiquidationsSucceedIff(w: World, s: Step)
    requires Reached(w) && s.Liquidate?
    ensures HandleLiquidate(w, s).Ok? <==>
      && s.borrower in w.loans && 0 < w.loans[s.borrower].borrowed
      && var loan := Accrue(w.loans[s.borrower], s.slot);
         && loan.Ok? && Seizable(loan.value, s.poolSol, s.poolTok)
         && var paid := Payment(loan.value, s.poolSol, s.poolTok);
            && (paid == 0 || CanPay(w.funds, PurseOf(s.liquidator, s.route), paid))
            && CanCollect(w.treasury, paid, Min(paid, loan.value.accrued))
  {
    hide Reached, SettleLiquidation, Accrue, Seize, CanPay, CanCollect, Seizable, Payment;
    if s.borrower in w.loans && Accrue(w.loans[s.borrower], s.slot).Ok? {
      var loan := Accrue(w.loans[s.borrower], s.slot).value;
      CollateralIsHeld(w, s.borrower, s.slot);
      SeizeSucceedsIff(loan, s.poolSol, s.poolTok);
      if Seizable(loan, s.poolSol, s.poolTok) {
        SettlingSucceedsIff(w, s, loan, Seize(loan, s.poolSol, s.poolTok).value);
      }
    }
  }

  /**
   In every reachable state a claim goes through exactly when it is the user's first for the epoch, the
   volume is eligible, what is due meets the minimum and can be received, and the pool's counter has room.
   */
  lemma ClaimsSucceedIff(w: World, s: Step)
    requires Reached(w) && s.Claim?
    ensures HandleClaim(w, s).Ok? <==>
      && s.user in w.stats && w.stats[s.user].lastClaimed + 1 < w.protocol.epoch
      && 2_000_000_000 <= Claimable(w, s.user) && 0 < w.protocol.volumePrevious
      && Claimable(w, s.user) * w.protocol.distributable < U64_MODULUS * w.protocol.volumePrevious
      && w.protocol.distributable * 1000 <= U64_MAX
      && var due := Due(Claimable(w, s.user), w.protocol.distributable, w.protocol.volumePrevious);
         && 100_000_000 <= due && CanReceive(w.funds, PurseOf(s.user, s.route), due)
         && w.protocol.distributed + due <= U64_MAX
  {
    hide Reached, HandleClaim, Claimed, Due, Claimable, CanReceive, BookSound, SupplyKept, BooksMatchCash, MapSum.Sum;
    EveryReachedStateIsSound(w);
    ClaimSucceedsIff(w, s);
    if s.user in w.stats && 0 < w.protocol.volumePrevious {
      DueIsATenth(Claimable(w, s.user), w.protocol.distributable, w.protocol.volumePrevious);
      ClaimedByOne(w, s.user);
    }
  }

  lemma ClaimedByOne(w: World, user: Key)
    requires user in w.stats
    ensures w.stats[user].claimed <= Sum(Claimed(w.stats))
  {
    MapSum.Member(Claimed(w.stats), user);
  }

  /** A claim never touches the pool's rent or its reserve floor. */
  lemma ClaimsLeaveTheFloor(w: World, s: Step)
    requires Reached(w) && s.Claim? && HandleClaim(w, s).Ok?
    ensures w.config.protocolRent + w.protocol.floor <= HandleClaim(w, s).value.protocol.lamports
  {
    EveryReachedStateIsSound(w);
    ClaimTerms(w, s);
    hide Reached, BookSound, SupplyKept, BooksMatchCash, MapSum.Sum, Claimed, Wallets.PayOut,
      TorchMath.CalcClaimWithCap;
  }
}
