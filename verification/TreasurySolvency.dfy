/** Whether what borrowers owe stays covered by the treasury's liquid SOL. */
module TreasurySolvency {
  import opened Base
  import opened MapSum
  import opened Accounts
  import opened Lending
  import opened Program
  import opened Frames
  import opened Exchanges
  import opened LoanBook
  import opened LiquidationProperties
  import opened LoanHistory
  import opened CurveGuarantees
  import opened ReachableStates
  import TokenLedger
  import Wallets

  ghost function Owing(w: World): nat {
    Sum(Principals(w.loans))
  }

  /** What the treasury's total falls short of the open principals. */
  ghost function Gap(w: World): int {
    Owing(w) - w.treasury.lent
  }

  /** The unreserved SOL. */
  ghost function Liquid(w: World): int {
    w.treasury.sol - w.treasury.shortReserved
  }

  // ---------- How each lending instruction moves the gap ----------

  /** The total and the loan both saturate, each at its own amount: the gap grows by the difference. */
  lemma LiquidationGap(w: World, s: Step, loan: Loan, cut: Seizure)
    requires s.Liquidate? && cut.seized <= loan.collateral && SettleLiquidation(w, s, loan, cut).Ok?
    requires s.borrower in w.loans && loan.borrowed == w.loans[s.borrower].borrowed
    ensures var loss := PrincipalPart(loan, cut) + cut.badDebt;
      Gap(SettleLiquidation(w, s, loan, cut).value) - Gap(w) == Min(w.treasury.lent, loss) - Min(loan.borrowed, loss)
  {
    hide Collaterals, Principals, MapSum.Sum, SettleLiquidation, InterestPart, PrincipalPart;
    LiquidationBooks(w, s, loan, cut);
    SetLoan(w.loans, s.borrower, AfterLiquidation(loan, cut));
  }

  /** A repayment can only close it. */
  lemma RepaymentGap(w: World, s: Step, loan: Loan)
    requires s.Repay? && SettleRepayment(w, s, loan).Ok?
    requires s.user in w.loans && loan.borrowed == w.loans[s.user].borrowed
    ensures var paid := Min(s.sol, Debt(loan)) - InterestPart(loan, Min(s.sol, Debt(loan)));
      Gap(SettleRepayment(w, s, loan).value) - Gap(w) == Min(w.treasury.lent, paid) - paid
  {
    hide Collaterals, Principals, MapSum.Sum, SettleRepayment;
    RepaymentBooks(w, s, loan);
    if Debt(loan) <= s.sol {
      CloseLoan(w.loans, s.user);
    } else {
      SetLoan(w.loans, s.user, AfterPayment(loan, s.sol));
    }
  }

  lemma BorrowGap(w: World, s: Step, loan: Loan)
    requires s.Borrow? && SettleBorrow(w, s, loan).Ok? && loan.borrowed == LoanOf(w, s.user).borrowed
    ensures Gap(SettleBorrow(w, s, loan).value) == Gap(w)
    ensures Owing(SettleBorrow(w, s, loan).value) == Owing(w) + s.sol
  {
    hide Collaterals, Principals, MapSum.Sum, SettleBorrow, TokenLedger.Net;
    BorrowPosition(w, s, loan);
    SetLoan(w.loans, s.user, SettleBorrow(w, s, loan).value.loans[s.user]);
  }

  // ---------- Over a run ----------

  /** The part of a liquidation's loss that is not in the loan's own principal. */
  ghost function Excess(w: World, s: Step): nat {
    if s.Liquidate? && HandleLiquidate(w, s).Ok? then
      var loan := Accrue(w.loans[s.borrower], s.slot).value;
      var cut := Seize(loan, s.poolSol, s.poolTok).value;
      Max(PrincipalPart(loan, cut) + cut.badDebt - loan.borrowed, 0)
    else 0
  }

  ghost function Excesses(w: World, steps: seq<Step>): nat
    decreases |steps|
  {
    if steps == [] then 0 else Excess(w, steps[0]) + Excesses(Apply(w, steps[0]), steps[1..])
  }

  lemma LiquidationWidensByExcess(w: World, s: Step)
    requires s.Liquidate? && HandleLiquidate(w, s).Ok?
    ensures Gap(HandleLiquidate(w, s).value) <= Gap(w) + Excess(w, s)
  {
    hide SettleLiquidation, Lending.Seize, Gap;
    var loan := Accrue(w.loans[s.borrower], s.slot).value;
    LiquidationGap(w, s, loan, Seize(loan, s.poolSol, s.poolTok).value);
  }

  lemma OtherLendingNeverWidens(w: World, s: Step)
    requires s.Borrow? || s.Repay?
    ensures s.Borrow? && HandleBorrow(w, s).Ok? ==> Gap(HandleBorrow(w, s).value) == Gap(w)
    ensures s.Repay? && HandleRepay(w, s).Ok? ==> Gap(HandleRepay(w, s).value) <= Gap(w)
  {
    hide SettleBorrow, SettleRepayment, Gap;
    if s.Borrow? && HandleBorrow(w, s).Ok? {
      BorrowGap(w, s, Accrue(LoanOf(w, s.user), s.slot).value);
    } else if s.Repay? && HandleRepay(w, s).Ok? {
      RepaymentGap(w, s, Accrue(w.loans[s.user], s.slot).value);
    }
  }

  /** Only the excess of a liquidation's loss widens the gap. */
  lemma StepGap(w: World, s: Step)
    ensures Gap(Apply(w, s)) <= Gap(w) + Excess(w, s)
  {
    hide HandleBorrow, HandleRepay, HandleLiquidate, Excess;
    if !IsLending(s) {
      hide Apply;
      StepFrame(w, s);
    } else if Handle(w, s).Ok? {
      hide Gap;
      if s.Liquidate? {
        LiquidationWidensByExcess(w, s);
      } else {
        OtherLendingNeverWidens(w, s);
      }
    }
  }

  lemma {:induction false} RunGap(w: World, steps: seq<Step>)
    ensures Gap(Run(w, steps)) <= Gap(w) + Excesses(w, steps)
    decreases |steps|
  {
    hide Apply, Gap, Excess;
    if steps != [] {
      StepGap(w, steps[0]);
      RunGap(Apply(w, steps[0]), steps[1..]);
    }
  }

  /**
   From creation on, whatever is lent, repaid and liquidated, the open principals exceed four times the
   liquid SOL by no more than the excesses of the losses on the way.
   */
  lemma PrincipalsAreBounded(w0: World, steps: seq<Step>)
    requires IsGenesis(w0)
    ensures Owing(Run(w0, steps)) <= 4 * Liquid(Run(w0, steps)) + Excesses(w0, steps)
  {
    hide Run, Reached, Principals, MapSum.Sum, CollateralBacked, Excesses;
    assert Gap(w0) <= 0 by {
      NewTokenOwesNothing(w0);
    }
    RunGap(w0, steps);
    var w := Run(w0, steps);
    assert Reached(w) by {
      RunIsReached(w0, steps);
    }
    EveryReachedStateIsSound(w);
  }

  lemma NewTokenOwesNothing(w: World)
    requires IsGenesis(w)
    ensures Gap(w) <= 0
  {
    assert Principals(w.loans) == map[];
  }

  /** So while every loss fits in its loan's principal, a fifth of the lending assets is liquid, as documented. */
  lemma LossFreeTreasuryIsSolvent(w0: World, steps: seq<Step>)
    requires IsGenesis(w0) && LossFreeRun(w0, steps)
    ensures Owing(Run(w0, steps)) <= 4 * Liquid(Run(w0, steps))
  {
    hide IsGenesis, Run, Owing;
    LossFreeHasNoExcess(w0, steps);
    PrincipalsAreBounded(w0, steps);
  }

  lemma {:induction false} LossFreeHasNoExcess(w: World, steps: seq<Step>)
    requires LossFreeRun(w, steps)
    ensures Excesses(w, steps) == 0
    decreases |steps|
  {
    hide Apply, Handle, HandleLiquidate, Lending.Seize, Lending.Accrue, PrincipalPart;
    if steps != [] {
      LossFreeHasNoExcess(Apply(w, steps[0]), steps[1..]);
    }
  }

  // ---------- Which instruction loses the documented cover ----------

  /** A fifth of the open principals is liquid. */
  ghost predicate Covered(w: World) {
    Owing(w) <= 5 * Liquid(w)
  }

  lemma BorrowKeepsCoverIff(w: World, s: Step)
    requires s.Borrow? && HandleBorrow(w, s).Ok?
    ensures Covered(HandleBorrow(w, s).value) <==> Owing(w) + 6 * s.sol <= 5 * Liquid(w)
  {
    hide SettleBorrow, Owing, TokenLedger.Net;
    var loan := Accrue(LoanOf(w, s.user), s.slot).value;
    BorrowGap(w, s, loan);
    BorrowBooks(w, s, loan);
  }

  lemma RepaymentsKeepCover(w: World, s: Step)
    requires Covered(w) && s.Repay? && HandleRepay(w, s).Ok?
    ensures Covered(HandleRepay(w, s).value)
  {
    hide SettleRepayment, Collaterals, Principals, MapSum.Sum;
    var loan := Accrue(w.loans[s.user], s.slot).value;
    RepaymentBooks(w, s, loan);
    if Debt(loan) <= s.sol {
      CloseLoan(w.loans, s.user);
    } else {
      SetLoan(w.loans, s.user, AfterPayment(loan, s.sol));
    }
  }

  lemma LiquidationsKeepCover(w: World, s: Step, loan: Loan, cut: Seizure)
    requires Covered(w) && s.Liquidate? && cut.seized <= loan.collateral && SettleLiquidation(w, s, loan, cut).Ok?
    requires s.borrower in w.loans && loan.borrowed == w.loans[s.borrower].borrowed
    ensures Covered(SettleLiquidation(w, s, loan, cut).value)
  {
    hide Collaterals, Principals, MapSum.Sum, SettleLiquidation, InterestPart, PrincipalPart;
    LiquidationBooks(w, s, loan, cut);
    SetLoan(w.loans, s.borrower, AfterLiquidation(loan, cut));
  }

  /** Before migration nothing is owed. */
  lemma CoveredBeforeMigration(w: World)
    requires BookSound(w) && w.loans == map[]
    ensures Covered(w)
  {
    assert Principals(w.loans) == map[];
    hide CollateralBacked;
  }

  lemma OthersKeepCover(w: World, s: Step)
    requires BookSound(w) && BookSound(Apply(w, s)) && Covered(w) && !IsLending(s)
    ensures Covered(Apply(w, s))
  {
    hide Handle, CollateralBacked, Principals, MapSum.Sum;
    if Handle(w, s).Ok? {
      if !w.curve.migrated {
        hide Apply;
        StepFrame(w, s);
        CoveredBeforeMigration(Apply(w, s));
      } else if s.Buy? || s.Sell? || s.Migrate? || s.Reclaim? {
        TradingHasEnded(w, s);
      } else {
        hide Apply;
        StepFrame(w, s);
        OtherStepsLeaveLending(w, s);
      }
    }
  }

  /**
   The cap on borrowing compares the treasury's total, not the principals. In every reachable state
   the cover is lost exactly by a borrow for which the principals, too, are too many.
   */
  lemma CoverIsLostIff(w: World, s: Step)
    requires Reached(w) && Covered(w)
    ensures !Covered(Apply(w, s)) <==> s.Borrow? && HandleBorrow(w, s).Ok? && 5 * Liquid(w) < Owing(w) + 6 * s.sol
  {
    hide Reached, HandleBorrow, HandleRepay, SettleLiquidation, Lending.Seize, Covered, BookSound, Owing, Liquid;
    EveryReachedStateIsSound(w);
    StepKeepsBook(w, s);
    if !IsLending(s) {
      hide Apply;
      OthersKeepCover(w, s);
    } else if Handle(w, s).Ok? {
      match s
      case Borrow(_, _, _, _, _, _, _) => BorrowKeepsCoverIff(w, s);
      case Repay(_, _, _, _) => RepaymentsKeepCover(w, s);
      case Liquidate(_, _, _, _, _, _) =>
        var loan := Accrue(w.loans[s.borrower], s.slot).value;
        LiquidationsKeepCover(w, s, loan, Seize(loan, s.poolSol, s.poolTok).value);
    }
  }
}
