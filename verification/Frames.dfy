/** What each instruction leaves alone. */
module Frames {
  import opened Base
  import opened TorchMath
  import opened TokenLedger
  import opened Wallets
  import opened Accounts
  import opened BondingCurve
  import opened Lending
  import opened Program

  predicate IsTrade(s: Step) {
    s.Buy? || s.Sell?
  }

  predicate IsLending(s: Step) {
    s.Borrow? || s.Repay? || s.Liquidate?
  }

  predicate IsShort(s: Step) {
    s.PostShort? || s.ReleaseShort?
  }

  /**
   The instructions that may touch the curve, the treasury, the pool, and so on; every other one leaves them
   as they are.
   */
  predicate MayTouchCurve(s: Step) {
    IsTrade(s) || s.Migrate? || s.Reclaim? || s.Revive?
  }

  predicate MayTouchTreasury(s: Step) {
    IsTrade(s) || s.Migrate? || s.Reclaim? || s.Star? || IsLending(s) || IsShort(s)
  }

  predicate MayTouchPool(s: Step) {
    IsTrade(s) || s.Reclaim? || s.AdvanceEpoch? || s.Claim? || IsElsewhere(s)
  }

  predicate MayTouchStats(s: Step) {
    IsTrade(s) || s.Claim? || s.BuyElsewhere? || s.SellElsewhere?
  }

  predicate MayTouchTokens(s: Step) {
    IsTrade(s) || s.Migrate? || IsLending(s) || s.TransferTokens?
  }

  /** `w'` differs from `w` only in what the instruction may touch. */
  ghost predicate Framed(w: World, s: Step, w': World) {
    && w'.config == w.config
    && (!MayTouchCurve(s) ==> w'.curve == w.curve)
    && (!MayTouchTreasury(s) ==> w'.treasury == w.treasury)
    && (!MayTouchPool(s) ==> w'.protocol == w.protocol)
    && (!MayTouchStats(s) ==> w'.stats == w.stats)
    && (!MayTouchTokens(s) ==> w'.tokens == w.tokens)
    && (!IsLending(s) ==> w'.loans == w.loans)
    && (!IsShort(s) ==> w'.shorts == w.shorts)
    && (!s.Star? ==> w'.starred == w.starred)
    && (!s.Migrate? && !IsElsewhere(s) ==> w'.outside == w.outside)
    && FinelyFramed(w, s, w')
  }

  /** The same for single fields of the accounts that several instructions share. */
  ghost predicate FinelyFramed(w: World, s: Step, w': World) {
    && w'.curve.target == w.curve.target && w'.protocol.floor == w.protocol.floor
    && (!s.Migrate? ==> w'.curve.migrated == w.curve.migrated)
    && (!IsTrade(s) ==> w'.curve.vsol == w.curve.vsol && w'.curve.vtok == w.curve.vtok
                        && w'.curve.complete == w.curve.complete && w'.curve.completeSlot == w.curve.completeSlot)
    && (!IsLending(s) ==> w'.treasury.lent == w.treasury.lent && w'.treasury.locked == w.treasury.locked
                          && w'.treasury.interest == w.treasury.interest
                          && w'.treasury.activeLoans == w.treasury.activeLoans)
    && (!IsLending(s) ==> w'.tokens.collateral == w.tokens.collateral)
    && (s.Star? ==> w'.treasury.sol == w.treasury.sol)
    && (!s.Star? ==> w'.treasury.starSol == w.treasury.starSol && w'.treasury.stars == w.treasury.stars
                     && w'.treasury.paidOut == w.treasury.paidOut)
    && (!IsShort(s) ==> w'.treasury.shortReserved == w.treasury.shortReserved)
    && w'.treasury.shortsEnabled == w.treasury.shortsEnabled && w'.treasury.community == w.treasury.community
    && (!s.AdvanceEpoch? ==> w'.protocol.epoch == w.protocol.epoch)
    && (!s.AdvanceEpoch? && !s.Claim? ==> w'.protocol.distributable == w.protocol.distributable)
  }

  lemma BuyFrame(w: World, s: Step)
    requires s.Buy? && HandleBuy(w, s).Ok?
    ensures Framed(w, s, HandleBuy(w, s).value)
  {
    hide QuoteBuy, PayForBuy, RecordVolume, Net, TokenLedger.Supply, Wallets.Total, Wallets.AllBooks;
  }

  lemma SellFrame(w: World, s: Step)
    requires s.Sell? && HandleSell(w, s).Ok?
    ensures Framed(w, s, HandleSell(w, s).value)
  {
    hide QuoteSell, RecordVolume, Net, TokenLedger.Supply, Wallets.PayOut, Wallets.Total,
      Wallets.AllBooks;
  }

  lemma MigrateFrame(w: World, s: Step)
    requires s.Migrate? && HandleMigrate(w, s).Ok?
    ensures Framed(w, s, HandleMigrate(w, s).value)
  {
    hide TorchMath.CalcTokensForPool, Net, TokenLedger.Supply;
  }

  lemma ReclaimFrame(w: World, s: Step)
    requires s.Reclaim? && HandleReclaim(w, s).Ok?
    ensures Framed(w, s, HandleReclaim(w, s).value)
  {
  }

  lemma ReviveFrame(w: World, s: Step)
    requires s.Revive? && HandleRevive(w, s).Ok?
    ensures Framed(w, s, HandleRevive(w, s).value)
  {
    hide Wallets.Debit, Wallets.Total;
  }

  lemma StarFrame(w: World, s: Step)
    requires s.Star? && HandleStar(w, s).Ok?
    ensures Framed(w, s, HandleStar(w, s).value)
  {
    hide Wallets.Pay, Wallets.Credit, Wallets.Total, Wallets.AllBooks;
  }

  lemma BorrowFrame(w: World, s: Step)
    requires s.Borrow? && HandleBorrow(w, s).Ok?
    ensures Framed(w, s, HandleBorrow(w, s).value)
  {
    hide Accrue, WithinLtv, Lend, Net, TokenLedger.ToCollateral, TokenLedger.Supply, Wallets.PayOut, Wallets.Total,
      Wallets.AllBooks;
  }

  lemma RepayFrame(w: World, s: Step)
    requires s.Repay? && HandleRepay(w, s).Ok?
    ensures Framed(w, s, HandleRepay(w, s).value)
  {
    hide Accrue, AfterPayment, InterestPart, TokenLedger.FromCollateral, TokenLedger.Supply, Wallets.Pay,
      Wallets.Total, Wallets.AllBooks;
  }

  lemma LiquidateFrame(w: World, s: Step)
    requires s.Liquidate? && HandleLiquidate(w, s).Ok?
    ensures Framed(w, s, HandleLiquidate(w, s).value)
  {
    hide Accrue, Seize, AfterLiquidation, InterestPart, PrincipalPart, TokenLedger.FromCollateral,
      TokenLedger.Supply, Wallets.Pay, Wallets.Total, Wallets.AllBooks;
  }

  lemma ShortFrame(w: World, s: Step)
    requires IsShort(s)
    ensures s.PostShort? && HandlePostShort(w, s).Ok? ==> Framed(w, s, HandlePostShort(w, s).value)
    ensures s.ReleaseShort? && HandleReleaseShort(w, s).Ok? ==> Framed(w, s, HandleReleaseShort(w, s).value)
  {
    hide Wallets.Pay, Wallets.PayOut, Wallets.Total, Wallets.AllBooks;
  }

  lemma RewardFrame(w: World, s: Step)
    requires s.AdvanceEpoch? || s.Claim?
    ensures s.AdvanceEpoch? && HandleAdvanceEpoch(w, s).Ok? ==> Framed(w, s, HandleAdvanceEpoch(w, s).value)
    ensures s.Claim? && HandleClaim(w, s).Ok? ==> Framed(w, s, HandleClaim(w, s).value)
  {
    hide RolledForClaim, TorchMath.CalcClaimWithCap, Wallets.PayOut, Wallets.Total, Wallets.AllBooks;
  }

  lemma ElsewhereFrame(w: World, s: Step)
    requires IsElsewhere(s)
    ensures s.BuyElsewhere? && HandleBuyElsewhere(w, s).Ok? ==> Framed(w, s, HandleBuyElsewhere(w, s).value)
    ensures s.SellElsewhere? && HandleSellElsewhere(w, s).Ok? ==> Framed(w, s, HandleSellElsewhere(w, s).value)
    ensures s.ReclaimElsewhere? && HandleReclaimElsewhere(w, s).Ok? ==> Framed(w, s, HandleReclaimElsewhere(w, s).value)
  {
    hide RecordVolume, Wallets.Pay, Wallets.Credit, Wallets.PayOut, Wallets.Total, Wallets.AllBooks;
  }

  lemma TransferFrame(w: World, s: Step)
    requires s.TransferTokens? && HandleTransferTokens(w, s).Ok?
    ensures Framed(w, s, HandleTransferTokens(w, s).value)
  {
    hide Net, TokenLedger.Supply;
  }

  /** Every instruction, successful or not, changes only what it may touch. */
  lemma StepFrame(w: World, s: Step)
    ensures Framed(w, s, Apply(w, s))
  {
    hide HandleBuy, HandleSell, HandleMigrate, HandleReclaim, HandleRevive, HandleStar, HandleBorrow, HandleRepay,
      HandleLiquidate, HandlePostShort, HandleReleaseShort, HandleAdvanceEpoch, HandleClaim, HandleBuyElsewhere,
      HandleSellElsewhere, HandleReclaimElsewhere, HandleTransferTokens, Wallets.Create, Wallets.Deposit,
      Wallets.Withdraw, TransferBetween, Wallets.Total, Wallets.AllBooks;
    if Handle(w, s).Ok? {
      match s
      case Buy(_, _, _, _, _, _, _) => BuyFrame(w, s);
      case Sell(_, _, _, _, _, _, _) => SellFrame(w, s);
      case Migrate(_) => MigrateFrame(w, s);
      case Reclaim(_) => ReclaimFrame(w, s);
      case Revive(_, _, _) => ReviveFrame(w, s);
      case Star(_, _) => StarFrame(w, s);
      case Borrow(_, _, _, _, _, _, _) => BorrowFrame(w, s);
      case Repay(_, _, _, _) => RepayFrame(w, s);
      case Liquidate(_, _, _, _, _, _) => LiquidateFrame(w, s);
      case PostShort(_, _, _) => ShortFrame(w, s);
      case ReleaseShort(_, _, _) => ShortFrame(w, s);
      case AdvanceEpoch(_) => RewardFrame(w, s);
      case Claim(_, _) => RewardFrame(w, s);
      case CreateVault(_) =>
      case DepositVault(_, _, _) =>
      case WithdrawVault(_, _, _) =>
      case TransferTokens(_, _, _) => TransferFrame(w, s);
      case TransferSol(_, _, _) =>
      case BuyElsewhere(_, _, _, _, _, _, _, _) => ElsewhereFrame(w, s);
      case SellElsewhere(_, _, _, _, _) => ElsewhereFrame(w, s);
      case ReclaimElsewhere(_) => ElsewhereFrame(w, s);
    }
  }
}
