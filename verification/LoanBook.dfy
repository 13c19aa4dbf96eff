/** The treasury's lending aggregates against the positions they summarise, on every run. */
module LoanBook {
  import opened Base
  import opened Constants
  import opened MapSum
  import opened TorchMath
  import opened TokenLedger
  import opened Accounts
  import opened Lending
  import opened Wallets
  import opened BondingCurve
  import opened Program
  import opened Frames
  import opened Exchanges

  ghost function Collaterals(loans: map<Key, Loan>): map<Key, nat> {
    map k | k in loans :: loans[k].collateral
  }

  ghost function Principals(loans: map<Key, Loan>): map<Key, nat> {
    map k | k in loans :: loans[k].borrowed
  }

  lemma SetLoan(loans: map<Key, Loan>, k: Key, l: Loan)
    ensures var before := if k in loans then loans[k] else NO_LOAN;
      && Sum(Collaterals(loans[k := l])) + before.collateral == Sum(Collaterals(loans)) + l.collateral
      && Sum(Principals(loans[k := l])) + before.borrowed == Sum(Principals(loans)) + l.borrowed
  {
    assert Collaterals(loans[k := l]) == Collaterals(loans)[k := l.collateral];
    assert Principals(loans[k := l]) == Principals(loans)[k := l.borrowed];
    MapSum.Set(Collaterals(loans), k, l.collateral);
    MapSum.Set(Principals(loans), k, l.borrowed);
  }

  lemma CloseLoan(loans: map<Key, Loan>, k: Key)
    requires k in loans
    ensures Sum(Collaterals(loans - {k})) + loans[k].collateral == Sum(Collaterals(loans))
    ensures Sum(Principals(loans - {k})) + loans[k].borrowed == Sum(Principals(loans))
  {
    assert Collaterals(loans - {k}) == Collaterals(loans) - {k};
    assert Principals(loans - {k}) == Principals(loans) - {k};
    MapSum.Delete(Collaterals(loans), k);
    MapSum.Delete(Principals(loans), k);
  }

  lemma OneOfMany(loans: map<Key, Loan>, k: Key)
    requires k in loans
    ensures loans[k].collateral <= Sum(Collaterals(loans))
    ensures loans[k].borrowed <= Sum(Principals(loans))
  {
    MapSum.Member(Collaterals(loans), k);
    MapSum.Member(Principals(loans), k);
  }

  /** Locked collateral is exactly what the positions own, and the vault really holds it. */
  ghost predicate CollateralBacked(w: World) {
    w.treasury.locked == Sum(Collaterals(w.loans)) == w.tokens.collateral
  }

  /** Short collateral is reserved in full, and the total lent is at most four times the rest. */
  ghost predicate Solvent(t: Treasury, shorts: map<Key, nat>) {
    && t.shortReserved == Sum(shorts)
    && (!t.shortsEnabled ==> t.shortReserved == 0)
    && t.shortReserved <= t.sol
    && t.lent <= 4 * (t.sol - t.shortReserved)
  }

  ghost predicate BookSound(w: World) {
    && CollateralBacked(w)
    && w.treasury.lent <= Sum(Principals(w.loans))
    && Solvent(w.treasury, w.shorts)
    && (w.curve.migrated ==> w.curve.complete)
    && (!w.curve.migrated ==> w.loans == map[] && w.treasury.lent == 0 && w.treasury.shortReserved == 0)
  }

  lemma SettledBorrowKeepsBook(w: World, s: Step, loan: Loan)
    requires BookSound(w) && w.curve.migrated
    requires s.Borrow? && SettleBorrow(w, s, loan).Ok?
    requires loan.collateral == LoanOf(w, s.user).collateral && loan.borrowed == LoanOf(w, s.user).borrowed
    ensures BookSound(SettleBorrow(w, s, loan).value)
  {
    hide Collaterals, Principals, MapSum.Sum, SettleBorrow, Net;
    BorrowPosition(w, s, loan);
    BorrowBooks(w, s, loan);
    SetLoan(w.loans, s.user, SettleBorrow(w, s, loan).value.loans[s.user]);
  }

  /** The aggregates and the vault after a borrow. */
  lemma BorrowBooks(w: World, s: Step, loan: Loan)
    requires s.Borrow? && SettleBorrow(w, s, loan).Ok?
    ensures var w' := SettleBorrow(w, s, loan).value; var t, t' := w.treasury, w'.treasury;
      && w'.curve == w.curve && w'.shorts == w.shorts
      && t' == t.(sol := t.sol - s.sol, lamports := t'.lamports, lent := t.lent + s.sol,
                  locked := t.locked + Net(s.collateral), activeLoans := t'.activeLoans)
      && w'.tokens.collateral == w.tokens.collateral + Net(s.collateral)
      && (0 < s.sol ==> t.lent + s.sol <= MaxLendable(t))
  {
    hide SettleBorrow, BookLoan, Lend, MaxLendable, Net, TokenLedger.ToCollateral, TokenLedger.Supply;
    var before, deposited := BeforeTheBooks(w, s, loan);
    BookedLoan(before, s, loan.(collateral := loan.collateral + deposited), deposited);
    NothingToNet();
  }

  lemma BookedLoan(w: World, s: Step, loan: Loan, deposited: u64)
    requires s.Borrow? && BookLoan(w, s, loan, deposited).Ok?
    ensures var t, t' := w.treasury, BookLoan(w, s, loan, deposited).value.treasury;
      t' == t.(locked := t.locked + deposited, activeLoans := t'.activeLoans)
  {
  }

  lemma SettledRepaymentKeepsBook(w: World, s: Step, loan: Loan)
    requires BookSound(w) && w.curve.migrated
    requires s.Repay? && SettleRepayment(w, s, loan).Ok? && s.user in w.loans
    requires loan.collateral == w.loans[s.user].collateral && loan.borrowed == w.loans[s.user].borrowed
    ensures BookSound(SettleRepayment(w, s, loan).value)
  {
    hide Collaterals, Principals, MapSum.Sum, SettleRepayment, Collect, Solvent;
    RepaymentBooks(w, s, loan);
    var full, paid := Debt(loan) <= s.sol, Min(s.sol, Debt(loan));
    CollectKeepsSolvent(w.treasury, w.shorts, paid, InterestPart(loan, paid), paid - InterestPart(loan, paid),
                        if full then loan.collateral else 0, full);
    if full {
      CloseLoan(w.loans, s.user);
    } else {
      SetLoan(w.loans, s.user, AfterPayment(loan, s.sol));
    }
  }

  /** Money coming in never makes the treasury less solvent. */
  lemma CollectKeepsSolvent(t: Treasury, shorts: map<Key, nat>, paid: u64, interestPart: nat, principalLoss: nat,
                            unlocked: nat, closed: bool)
    requires Solvent(t, shorts) && Collect(t, paid, interestPart, principalLoss, unlocked, closed).Ok?
    ensures var t' := Collect(t, paid, interestPart, principalLoss, unlocked, closed).value;
      && Solvent(t', shorts)
      && t'.lent == SaturatingSub(t.lent, principalLoss) && t'.locked == SaturatingSub(t.locked, unlocked)
  {
  }

  /** The positions, the aggregates and the vault after a repayment. */
  lemma RepaymentBooks(w: World, s: Step, loan: Loan)
    requires s.Repay? && SettleRepayment(w, s, loan).Ok?
    ensures var w', full, paid := SettleRepayment(w, s, loan).value, Debt(loan) <= s.sol, Min(s.sol, Debt(loan));
      && w'.curve == w.curve && w'.shorts == w.shorts
      && w'.loans == (if full then w.loans - {s.user} else w.loans[s.user := AfterPayment(loan, paid)])
      && w'.tokens.collateral + (if full then loan.collateral else 0) == w.tokens.collateral
      && Collect(w.treasury, paid, InterestPart(loan, paid), paid - InterestPart(loan, paid),
                 if full then loan.collateral else 0, full) == Ok(w'.treasury)
  {
    hide Wallets.Pay, Collect, AfterPayment, InterestPart, TokenLedger.FromCollateral, TokenLedger.Supply,
      Wallets.Total, Wallets.AllBooks;
  }

  lemma SettledLiquidationKeepsBook(w: World, s: Step, loan: Loan, cut: Seizure)
    requires BookSound(w) && w.curve.migrated
    requires s.Liquidate? && cut.seized <= loan.collateral && SettleLiquidation(w, s, loan, cut).Ok?
      && s.borrower in w.loans
    requires loan.collateral == w.loans[s.borrower].collateral && loan.borrowed == w.loans[s.borrower].borrowed
    ensures BookSound(SettleLiquidation(w, s, loan, cut).value)
  {
    hide Collaterals, Principals, MapSum.Sum, SettleLiquidation, Collect, Solvent, InterestPart, PrincipalPart;
    LiquidationBooks(w, s, loan, cut);
    CollectKeepsSolvent(w.treasury, w.shorts, cut.covered, InterestPart(loan, cut.covered),
                        PrincipalPart(loan, cut) + cut.badDebt, cut.seized, Debt(AfterLiquidation(loan, cut)) == 0);
    OneOfMany(w.loans, s.borrower);
    SetLoan(w.loans, s.borrower, AfterLiquidation(loan, cut));
  }

  /** The positions, the aggregates and the vault after a liquidation. */
  lemma LiquidationBooks(w: World, s: Step, loan: Loan, cut: Seizure)
    requires s.Liquidate? && cut.seized <= loan.collateral && SettleLiquidation(w, s, loan, cut).Ok?
    ensures var w', after := SettleLiquidation(w, s, loan, cut).value, AfterLiquidation(loan, cut);
      && w'.curve == w.curve && w'.shorts == w.shorts
      && w'.loans == w.loans[s.borrower := after]
      && w'.tokens.collateral + cut.seized == w.tokens.collateral
      && Collect(w.treasury, cut.covered, InterestPart(loan, cut.covered), PrincipalPart(loan, cut) + cut.badDebt,
                 cut.seized, Debt(after) == 0) == Ok(w'.treasury)
  {
    hide Wallets.Pay, Collect, AfterLiquidation, InterestPart, PrincipalPart, TokenLedger.FromCollateral,
      TokenLedger.Supply, Wallets.Total, Wallets.AllBooks;
  }

  lemma ShortsKeepBook(w: World, s: Step)
    requires BookSound(w) && IsShort(s)
    ensures s.PostShort? && HandlePostShort(w, s).Ok? ==> BookSound(HandlePostShort(w, s).value)
    ensures s.ReleaseShort? && HandleReleaseShort(w, s).Ok? ==> BookSound(HandleReleaseShort(w, s).value)
  {
    hide Collaterals, Principals, MapSum.Sum, Wallets.Pay, Wallets.PayOut, Wallets.Total, Wallets.AllBooks;
    MapSum.Member(w.shorts, s.user);
    if s.PostShort? {
      MapSum.Set(w.shorts, s.user, Get(w.shorts, s.user) + s.sol);
    } else if s.sol <= Get(w.shorts, s.user) {
      MapSum.Set(w.shorts, s.user, Get(w.shorts, s.user) - s.sol);
    }
  }

  lemma BuyKeepsBook(w: World, s: Step)
    requires BookSound(w) && s.Buy? && HandleBuy(w, s).Ok?
    ensures BookSound(HandleBuy(w, s).value)
  {
    hide Collaterals, Principals, MapSum.Sum, PayForBuy, BondingCurve.QuoteBuy;
  }

  lemma SellKeepsBook(w: World, s: Step)
    requires BookSound(w) && s.Sell? && HandleSell(w, s).Ok?
    ensures BookSound(HandleSell(w, s).value)
  {
    hide Collaterals, Principals, MapSum.Sum, Wallets.PayOut, BondingCurve.QuoteSell, RecordVolume, Wallets.Total,
      Wallets.AllBooks, TokenLedger.Supply, TorchMath.CalcTransferFee;
  }

  lemma MigrateKeepsBook(w: World, s: Step)
    requires BookSound(w) && s.Migrate? && HandleMigrate(w, s).Ok?
    ensures BookSound(HandleMigrate(w, s).value)
  {
    hide Collaterals, Principals, MapSum.Sum, TorchMath.CalcTokensForPool, Net, TokenLedger.Supply;
  }

  lemma ReclaimKeepsBook(w: World, s: Step)
    requires BookSound(w) && s.Reclaim? && HandleReclaim(w, s).Ok?
    ensures BookSound(HandleReclaim(w, s).value)
  {
    hide Collaterals, Principals, MapSum.Sum;
  }

  lemma BorrowKeepsBook(w: World, s: Step)
    requires BookSound(w) && s.Borrow? && HandleBorrow(w, s).Ok?
    ensures BookSound(HandleBorrow(w, s).value)
  {
    hide SettleBorrow, CollateralBacked, Solvent;
    SettledBorrowKeepsBook(w, s, Accrue(LoanOf(w, s.user), s.slot).value);
  }

  lemma RepaymentKeepsBook(w: World, s: Step)
    requires BookSound(w) && s.Repay? && HandleRepay(w, s).Ok?
    ensures BookSound(HandleRepay(w, s).value)
  {
    hide SettleRepayment, CollateralBacked, Solvent;
    SettledRepaymentKeepsBook(w, s, Accrue(w.loans[s.user], s.slot).value);
  }

  lemma LiquidationKeepsBook(w: World, s: Step)
    requires BookSound(w) && s.Liquidate? && HandleLiquidate(w, s).Ok?
    ensures BookSound(HandleLiquidate(w, s).value)
  {
    hide SettleLiquidation, Lending.Seize, CollateralBacked, Solvent;
    var loan := Accrue(w.loans[s.borrower], s.slot).value;
    SettledLiquidationKeepsBook(w, s, loan, Seize(loan, s.poolSol, s.poolTok).value);
  }

  lemma StepKeepsBook(w: World, s: Step)
    requires BookSound(w)
    ensures BookSound(Apply(w, s))
  {
    hide HandleBuy, HandleSell, HandleMigrate, HandleReclaim, HandleBorrow, HandleRepay, HandleLiquidate,
      HandlePostShort, HandleReleaseShort, Collaterals, Principals, MapSum.Sum;
    if IsTrade(s) || s.Migrate? || s.Reclaim? || IsLending(s) || IsShort(s) {
      hide BookSound;
      if Handle(w, s).Ok? {
        match s
        case Buy(_, _, _, _, _, _, _) => BuyKeepsBook(w, s);
        case Sell(_, _, _, _, _, _, _) => SellKeepsBook(w, s);
        case Migrate(_) => MigrateKeepsBook(w, s);
        case Reclaim(_) => ReclaimKeepsBook(w, s);
        case Borrow(_, _, _, _, _, _, _) => BorrowKeepsBook(w, s);
        case Repay(_, _, _, _) => RepaymentKeepsBook(w, s);
        case Liquidate(_, _, _, _, _, _) => LiquidationKeepsBook(w, s);
        case PostShort(_, _, _) => ShortsKeepBook(w, s);
        case ReleaseShort(_, _, _) => ShortsKeepBook(w, s);
      }
    } else {
      hide Apply;
      StepFrame(w, s);
    }
  }

  lemma {:induction false} RunKeepsBook(w: World, steps: seq<Step>)
    requires BookSound(w)
    ensures BookSound(Run(w, steps))
    decreases |steps|
  {
    if steps != [] {
      StepKeepsBook(w, steps[0]);
      RunKeepsBook(Apply(w, steps[0]), steps[1..]);
    }
  }
}
