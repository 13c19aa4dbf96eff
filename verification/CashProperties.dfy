/** Books equal cash: SOL is conserved by every step, and every account's ledger matches its lamports. */
module CashProperties {
  import opened Base
  import opened Constants
  import opened Accounts
  import opened Wallets
  import opened TokenLedger
  import opened BondingCurve
  import opened Lending
  import opened Program

  /** All the lamports the model accounts for. */
  ghost function TotalSol(w: World): nat {
    w.curve.lamports + w.treasury.lamports + w.protocol.lamports + Total(w.funds) + w.outside
  }

  /** Curve and treasury hold their rent plus what their ledgers say, and so does every vault. */
  ghost predicate BooksMatchCash(w: World) {
    && w.curve.lamports == w.config.curveRent + w.curve.rsol
    && w.treasury.lamports == w.config.treasuryRent + w.treasury.sol + w.treasury.starSol
    && AllBooks(w.funds.vaults, w.config.vaultRent)
  }

  ghost predicate CashSafe(w: World, w': World) {
    && w'.config == w.config
    && TotalSol(w') == TotalSol(w)
    && (BooksMatchCash(w) ==> BooksMatchCash(w'))
  }

  lemma BookingIsCashSafe(w: World, s: Step, q: BuyQuote, tokens: Tokens, funds: Funds)
    requires s.Buy? && BookBuy(w, s, q, tokens, funds).Ok?
    requires Total(funds) + q.toCurve + q.toTreasury + q.protocolFee == Total(w.funds)
    requires AllBooks(w.funds.vaults, w.config.vaultRent) ==> AllBooks(funds.vaults, w.config.vaultRent)
    ensures CashSafe(w, BookBuy(w, s, q, tokens, funds).value)
  {
    hide RecordVolume, Wallets.Total, Wallets.AllBooks;
  }

  lemma BuyIsCashSafe(w: World, s: Step)
    requires s.Buy? && HandleBuy(w, s).Ok?
    ensures CashSafe(w, HandleBuy(w, s).value)
  {
    hide QuoteBuy, PayForBuy, BookBuy, CashSafe, TokenLedger.FromCurve, TokenLedger.Supply, Wallets.Total,
      Wallets.AllBooks;
    SplitIsExact(w.curve, w.treasury.community, s.sol);
    var q := QuoteBuy(w.curve, w.treasury.community, s.sol).value;
    BookingIsCashSafe(w, s, q, FromCurve(w.tokens, Destination(s), q.tokensOut).value,
                      PayForBuy(w.funds, s, q, w.config).value);
  }

  lemma SellIsCashSafe(w: World, s: Step)
    requires s.Sell? && HandleSell(w, s).Ok?
    ensures CashSafe(w, HandleSell(w, s).value)
  {
    hide Wallets.PayOut, Wallets.Total, Wallets.AllBooks, TokenLedger.ToCurve, TokenLedger.Supply, QuoteSell,
      RecordVolume;
  }

  lemma MigrateIsCashSafe(w: World, s: Step)
    requires s.Migrate? && HandleMigrate(w, s).Ok?
    ensures CashSafe(w, HandleMigrate(w, s).value)
  {
  }

  lemma ReclaimIsCashSafe(w: World, s: Step)
    requires s.Reclaim? && HandleReclaim(w, s).Ok?
    ensures CashSafe(w, HandleReclaim(w, s).value)
  {
  }

  lemma ReviveIsCashSafe(w: World, s: Step)
    requires s.Revive? && HandleRevive(w, s).Ok?
    ensures CashSafe(w, HandleRevive(w, s).value)
  {
  }

  lemma StarIsCashSafe(w: World, s: Step)
    requires s.Star? && HandleStar(w, s).Ok?
    ensures CashSafe(w, HandleStar(w, s).value)
  {
    hide Wallets.Pay, Wallets.Credit, Wallets.Total, Wallets.AllBooks;
  }

  lemma BorrowIsCashSafe(w: World, s: Step, loan: Loan)
    requires s.Borrow? && SettleBorrow(w, s, loan).Ok?
    ensures CashSafe(w, SettleBorrow(w, s, loan).value)
  {
    hide Wallets.PayOut, Wallets.Total, Wallets.AllBooks, TokenLedger.ToCollateral, TokenLedger.Supply, WithinLtv,
      Lend;
  }

  lemma RepayIsCashSafe(w: World, s: Step, loan: Loan)
    requires s.Repay? && SettleRepayment(w, s, loan).Ok?
    ensures CashSafe(w, SettleRepayment(w, s, loan).value)
  {
  }

  lemma LiquidateIsCashSafe(w: World, s: Step, loan: Loan, cut: Seizure)
    requires s.Liquidate? && cut.seized <= loan.collateral && SettleLiquidation(w, s, loan, cut).Ok?
    ensures CashSafe(w, SettleLiquidation(w, s, loan, cut).value)
  {
    hide Wallets.Pay, Wallets.Total, Wallets.AllBooks, TokenLedger.FromCollateral, TokenLedger.Supply,
      AfterLiquidation;
  }

  lemma ShortsAreCashSafe(w: World, s: Step)
    requires s.PostShort? || s.ReleaseShort?
    ensures s.PostShort? && HandlePostShort(w, s).Ok? ==> CashSafe(w, HandlePostShort(w, s).value)
    ensures s.ReleaseShort? && HandleReleaseShort(w, s).Ok? ==> CashSafe(w, HandleReleaseShort(w, s).value)
  {
    hide Wallets.Pay, Wallets.PayOut, Wallets.Total, Wallets.AllBooks;
  }

  lemma RewardsAreCashSafe(w: World, s: Step)
    requires s.AdvanceEpoch? || s.Claim?
    ensures s.AdvanceEpoch? && HandleAdvanceEpoch(w, s).Ok? ==> CashSafe(w, HandleAdvanceEpoch(w, s).value)
    ensures s.Claim? && HandleClaim(w, s).Ok? ==> CashSafe(w, HandleClaim(w, s).value)
  {
    hide RolledForClaim, TorchMath.CalcClaimWithCap, Wallets.PayOut, Wallets.Total, Wallets.AllBooks;
  }

  lemma BuyElsewhereIsCashSafe(w: World, s: Step)
    requires s.BuyElsewhere? && HandleBuyElsewhere(w, s).Ok?
    ensures CashSafe(w, HandleBuyElsewhere(w, s).value)
  {
    hide Wallets.Pay, Wallets.Credit, Wallets.Total, Wallets.AllBooks, RecordVolume;
  }

  lemma SellElsewhereIsCashSafe(w: World, s: Step)
    requires s.SellElsewhere? && HandleSellElsewhere(w, s).Ok?
    ensures CashSafe(w, HandleSellElsewhere(w, s).value)
  {
    hide Wallets.PayOut, Wallets.Total, Wallets.AllBooks, RecordVolume;
  }

  lemma ReclaimElsewhereIsCashSafe(w: World, s: Step)
    requires s.ReclaimElsewhere? && HandleReclaimElsewhere(w, s).Ok?
    ensures CashSafe(w, HandleReclaimElsewhere(w, s).value)
  {
  }

  lemma StepIsCashSafe(w: World, s: Step)
    ensures CashSafe(w, Apply(w, s))
  {
    hide HandleBuy, HandleSell, HandleMigrate, HandleReclaim, HandleRevive, HandleStar, SettleBorrow, SettleRepayment,
      SettleLiquidation, HandlePostShort, HandleReleaseShort, HandleAdvanceEpoch, HandleClaim, HandleBuyElsewhere,
      HandleSellElsewhere, HandleReclaimElsewhere, Wallets.Total,
      Wallets.AllBooks, Lending.Seize;
    if Handle(w, s).Ok? {
      match s
      case Buy(_, _, _, _, _, _, _) => BuyIsCashSafe(w, s);
      case Sell(_, _, _, _, _, _, _) => SellIsCashSafe(w, s);
      case Migrate(_) => MigrateIsCashSafe(w, s);
      case Reclaim(_) => ReclaimIsCashSafe(w, s);
      case Revive(_, _, _) => ReviveIsCashSafe(w, s);
      case Star(_, _) => StarIsCashSafe(w, s);
      case Borrow(_, _, _, _, _, _, _) => BorrowIsCashSafe(w, s, Accrue(LoanOf(w, s.user), s.slot).value);
      case Repay(_, _, _, _) => RepayIsCashSafe(w, s, Accrue(w.loans[s.user], s.slot).value);
      case Liquidate(_, _, _, _, _, _) =>
        var loan := Accrue(w.loans[s.borrower], s.slot).value;
        LiquidateIsCashSafe(w, s, loan, Seize(loan, s.poolSol, s.poolTok).value);
      case PostShort(_, _, _) => ShortsAreCashSafe(w, s);
      case ReleaseShort(_, _, _) => ShortsAreCashSafe(w, s);
      case AdvanceEpoch(_) => RewardsAreCashSafe(w, s);
      case Claim(_, _) => RewardsAreCashSafe(w, s);
      case CreateVault(_) =>
      case DepositVault(_, _, _) =>
      case WithdrawVault(_, _, _) =>
      case TransferTokens(_, _, _) =>
      case TransferSol(_, _, _) =>
      case BuyElsewhere(_, _, _, _, _, _, _, _) => BuyElsewhereIsCashSafe(w, s);
      case SellElsewhere(_, _, _, _, _) => SellElsewhereIsCashSafe(w, s);
      case ReclaimElsewhere(_) => ReclaimElsewhereIsCashSafe(w, s);
    }
  }

  /** Whatever handlers run, in whatever order, no lamport appears or disappears and the books stay equal to cash. */
  lemma {:induction false} BooksEqualCash(w: World, steps: seq<Step>)
    ensures CashSafe(w, Run(w, steps))
    decreases |steps|
  {
    if steps != [] {
      StepIsCashSafe(w, steps[0]);
      BooksEqualCash(Apply(w, steps[0]), steps[1..]);
    }
  }
}
