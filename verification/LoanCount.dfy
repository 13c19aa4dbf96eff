/** The treasury's count of active loans: what each instruction does to it, and what it counts on every run. */
module LoanCount {
  import opened Base
  import opened Accounts
  import opened Lending
  import opened Program
  import opened Frames
  import opened Exchanges
  import opened LoanBook
  import opened CurveGuarantees
  import TokenLedger
  import Wallets

  /**
   Positions that carry debt or collateral, or did when they were last touched: never fewer than are counted
   as active.
   */
  ghost predicate CountBounded(w: World) {
    w.treasury.activeLoans <= |w.loans|
  }

  /** A new position is counted, an existing one is not counted again. */
  lemma BorrowCounts(w: World, s: Step)
    requires s.Borrow? && HandleBorrow(w, s).Ok?
    ensures var w' := HandleBorrow(w, s).value; var more := if s.user in w.loans then 0 else 1;
      w'.treasury.activeLoans == w.treasury.activeLoans + more && |w'.loans| == |w.loans| + more
  {
    hide SettleBorrow, Accrue, TokenLedger.Net;
    BorrowPosition(w, s, Accrue(LoanOf(w, s.user), s.slot).value);
    Extended(w.loans, s.user, HandleBorrow(w, s).value.loans[s.user]);
  }

  lemma Extended(loans: map<Key, Loan>, k: Key, l: Loan)
    ensures |loans[k := l]| == |loans| + (if k in loans then 0 else 1)
  {
    assert loans[k := l].Keys == loans.Keys + {k};
  }

  lemma Shortened(loans: map<Key, Loan>, k: Key)
    requires k in loans
    ensures |loans - {k}| == |loans| - 1
  {
    assert (loans - {k}).Keys == loans.Keys - {k};
  }

  /** A repayment counts a loan out exactly when it closes the position. */
  lemma RepaymentCounts(w: World, s: Step)
    requires s.Repay? && HandleRepay(w, s).Ok?
    ensures var w' := HandleRepay(w, s).value; var closed := if s.user in w'.loans then 0 else 1;
      w'.treasury.activeLoans == Max(w.treasury.activeLoans - closed, 0) && |w'.loans| == |w.loans| - closed
  {
    hide SettleRepayment, Accrue, AfterPayment, InterestPart;
    var loan := Accrue(w.loans[s.user], s.slot).value;
    RepaymentBooks(w, s, loan);
    Shortened(w.loans, s.user);
    Extended(w.loans, s.user, if Debt(loan) <= s.sol then loan else AfterPayment(loan, s.sol));
  }

  /** A liquidation counts a loan out exactly when no debt is left, though the position stays open. */
  lemma LiquidationCounts(w: World, s: Step)
    requires s.Liquidate? && HandleLiquidate(w, s).Ok?
    ensures s.borrower in HandleLiquidate(w, s).value.loans
    ensures var w' := HandleLiquidate(w, s).value; var cleared := if Debt(w'.loans[s.borrower]) == 0 then 1 else 0;
      w'.treasury.activeLoans == Max(w.treasury.activeLoans - cleared, 0) && |w'.loans| == |w.loans|
  {
    hide SettleLiquidation, Accrue, Lending.Seize, AfterLiquidation, InterestPart, PrincipalPart;
    var loan := Accrue(w.loans[s.borrower], s.slot).value;
    var cut := Lending.Seize(loan, s.poolSol, s.poolTok).value;
    LiquidationBooks(w, s, loan, cut);
    Extended(w.loans, s.borrower, AfterLiquidation(loan, cut));
  }

  lemma StepKeepsCount(w: World, s: Step)
    requires CountBounded(w)
    ensures CountBounded(Apply(w, s))
  {
    hide HandleBorrow, HandleRepay, HandleLiquidate;
    if !IsLending(s) {
      hide Apply;
      StepFrame(w, s);
    } else if Handle(w, s).Ok? {
      match s
      case Borrow(_, _, _, _, _, _, _) => BorrowCounts(w, s);
      case Repay(_, _, _, _) => RepaymentCounts(w, s);
      case Liquidate(_, _, _, _, _, _) => LiquidationCounts(w, s);
    }
  }

  lemma {:induction false} RunKeepsCount(w: World, steps: seq<Step>)
    requires CountBounded(w)
    ensures CountBounded(Run(w, steps))
    decreases |steps|
  {
    hide Apply, CountBounded;
    if steps != [] {
      StepKeepsCount(w, steps[0]);
      RunKeepsCount(Apply(w, steps[0]), steps[1..]);
    }
  }

  /** From creation on the count never exceeds the number of positions. */
  lemma ActiveLoansArePositions(w0: World, steps: seq<Step>)
    requires IsGenesis(w0)
    ensures Run(w0, steps).treasury.activeLoans <= |Run(w0, steps).loans|
  {
    assert CountBounded(w0);
    hide IsGenesis, Run;
    RunKeepsCount(w0, steps);
  }

  /** Every open position is counted exactly once. */
  ghost predicate CountIsExact(w: World) {
    w.treasury.activeLoans == |w.loans|
  }

  /** The count stops being that of the open positions only when a liquidation clears the last of a debt. */
  lemma ExactCountIsLostIff(w: World, s: Step)
    requires CountIsExact(w)
    ensures !CountIsExact(Apply(w, s)) <==>
      && s.Liquidate? && HandleLiquidate(w, s).Ok?
      && s.borrower in HandleLiquidate(w, s).value.loans
      && Debt(HandleLiquidate(w, s).value.loans[s.borrower]) == 0
  {
    hide HandleBorrow, HandleRepay, HandleLiquidate;
    if !IsLending(s) {
      hide Apply;
      StepFrame(w, s);
    } else if Handle(w, s).Ok? {
      match s
      case Borrow(_, _, _, _, _, _, _) => BorrowCounts(w, s);
      case Repay(_, _, _, _) => RepaymentCounts(w, s);
      case Liquidate(_, _, _, _, _, _) =>
        LiquidationCounts(w, s);
        Shortened(HandleLiquidate(w, s).value.loans, s.borrower);
    }
  }
}
