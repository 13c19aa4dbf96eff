/** Properties of whole lending histories: exact aggregates, cascades, fresh borrows and interest. */
module LoanHistory {
  import opened Base
  import opened Constants
  import opened MapSum
  import opened TorchMath
  import opened TokenLedger
  import opened Accounts
  import opened Lending
  import opened Program
  import opened Frames
  import opened LoanBook
  import opened LiquidationProperties
  import opened Exchanges
  import BondingCurve
  import CurveProperties
  import Wallets
  import FloorDivision

  // ---------- Exact aggregates ----------

  /** The treasury's total equals the open principal of all positions. */
  ghost predicate Exact(w: World) {
    w.treasury.lent == Sum(Principals(w.loans))
  }

  /** Liquid SOL that is not reserved, plus what is lent, less the interest ever collected. */
  ghost function LendingWealth(t: Treasury): int {
    t.sol - t.shortReserved + t.lent - t.interest
  }

  /** The debt a step writes off. */
  ghost function BadDebt(w: World, s: Step): nat {
    if s.Liquidate? && HandleLiquidate(w, s).Ok? then
      Seize(Accrue(w.loans[s.borrower], s.slot).value, s.poolSol, s.poolTok).value.badDebt
    else 0
  }

  /** If the step is a liquidation, the principal it removes is there to be removed. */
  ghost predicate LossFree(w: World, s: Step) {
    s.Liquidate? && HandleLiquidate(w, s).Ok? ==>
      var loan := Accrue(w.loans[s.borrower], s.slot).value;
      LossFits(loan, Seize(loan, s.poolSol, s.poolTok).value)
  }

  ghost predicate LossFreeRun(w: World, steps: seq<Step>)
    decreases |steps|
  {
    steps == [] || (LossFree(w, steps[0]) && LossFreeRun(Apply(w, steps[0]), steps[1..]))
  }

  ghost function WrittenOff(w: World, steps: seq<Step>): nat
    decreases |steps|
  {
    if steps == [] then 0 else BadDebt(w, steps[0]) + WrittenOff(Apply(w, steps[0]), steps[1..])
  }

  /** A liquidation leaves the total short of the principals unless the loss fits or no other loan is open. */
  lemma LiquidationIsExactIff(w: World, s: Step, loan: Loan, cut: Seizure)
    requires BookSound(w) && Exact(w)
    requires s.Liquidate? && cut.seized <= loan.collateral && SettleLiquidation(w, s, loan, cut).Ok?
      && s.borrower in w.loans
    requires loan.collateral == w.loans[s.borrower].collateral && loan.borrowed == w.loans[s.borrower].borrowed
    ensures Exact(SettleLiquidation(w, s, loan, cut).value) <==>
      LossFits(loan, cut) || Sum(Principals(w.loans)) == loan.borrowed
    ensures LossFits(loan, cut) ==>
      LendingWealth(SettleLiquidation(w, s, loan, cut).value.treasury) + cut.badDebt == LendingWealth(w.treasury)
  {
    hide Collaterals, Principals, MapSum.Sum, SettleLiquidation, InterestPart;
    LiquidationBooks(w, s, loan, cut);
    OneOfMany(w.loans, s.borrower);
    SetLoan(w.loans, s.borrower, AfterLiquidation(loan, cut));
  }

  /** Writing off can only leave the treasury's books richer than conservation would. */
  lemma LiquidationConserves(w: World, s: Step, loan: Loan, cut: Seizure)
    requires s.Liquidate? && cut.seized <= loan.collateral && SettleLiquidation(w, s, loan, cut).Ok?
    ensures LendingWealth(SettleLiquidation(w, s, loan, cut).value.treasury) + cut.badDebt >= LendingWealth(w.treasury)
    ensures SettleLiquidation(w, s, loan, cut).value.curve == w.curve
  {
    hide Wallets.Pay, Wallets.Total, Wallets.AllBooks, TokenLedger.Supply, TokenLedger.FromCollateral;
  }

  lemma RepaymentIsExact(w: World, s: Step, loan: Loan)
    requires BookSound(w)
    requires s.Repay? && SettleRepayment(w, s, loan).Ok? && s.user in w.loans
    requires loan.borrowed == w.loans[s.user].borrowed
    ensures Exact(w) ==> Exact(SettleRepayment(w, s, loan).value)
    ensures Exact(w) ==> LendingWealth(SettleRepayment(w, s, loan).value.treasury) == LendingWealth(w.treasury)
    ensures LendingWealth(SettleRepayment(w, s, loan).value.treasury) >= LendingWealth(w.treasury)
    ensures SettleRepayment(w, s, loan).value.curve == w.curve
  {
    hide Collaterals, Principals, MapSum.Sum, SettleRepayment;
    RepaymentBooks(w, s, loan);
    OneOfMany(w.loans, s.user);
    if Debt(loan) <= s.sol {
      CloseLoan(w.loans, s.user);
    } else {
      SetLoan(w.loans, s.user, AfterPayment(loan, s.sol));
    }
  }

  lemma BorrowIsExact(w: World, s: Step, loan: Loan)
    requires s.Borrow? && SettleBorrow(w, s, loan).Ok?
    requires loan.borrowed == LoanOf(w, s.user).borrowed
    ensures Exact(w) ==> Exact(SettleBorrow(w, s, loan).value)
    ensures LendingWealth(SettleBorrow(w, s, loan).value.treasury) == LendingWealth(w.treasury)
    ensures SettleBorrow(w, s, loan).value.curve == w.curve
  {
    hide Collaterals, Principals, MapSum.Sum, SettleBorrow, Net;
    BorrowPosition(w, s, loan);
    BorrowBooks(w, s, loan);
    SetLoan(w.loans, s.user, SettleBorrow(w, s, loan).value.loans[s.user]);
  }

  /** Once a token has migrated the curve's handlers refuse. */
  lemma TradingHasEnded(w: World, s: Step)
    requires w.curve.migrated && w.curve.complete
    requires s.Buy? || s.Sell? || s.Migrate? || s.Reclaim?
    ensures Apply(w, s) == w
  {
    hide SettleBuy, BondingCurve.QuoteBuy, BondingCurve.AfterSell;
  }

  /** Short collateral is no part of the lending wealth, and neither is the pot of the stars. */
  lemma ShortsLeaveLending(w: World, s: Step)
    requires IsShort(s) && Handle(w, s).Ok? && w.treasury.shortReserved == Sum(w.shorts)
    ensures LendingWealth(Handle(w, s).value.treasury) == LendingWealth(w.treasury)
  {
    hide MapSum.Sum, Wallets.Pay, Wallets.PayOut, Wallets.Total, Wallets.AllBooks;
    MapSum.Member(w.shorts, s.user);
  }

  lemma OtherStepsLeaveLending(w: World, s: Step)
    requires w.curve.migrated && !IsLending(s)
    requires !s.Buy? && !s.Sell? && !s.Migrate? && !s.Reclaim?
    requires w.treasury.shortReserved == Sum(w.shorts)
    ensures Apply(w, s).loans == w.loans && Apply(w, s).treasury.lent == w.treasury.lent
    ensures LendingWealth(Apply(w, s).treasury) == LendingWealth(w.treasury)
    ensures Apply(w, s).curve.migrated
  {
    hide Handle, MapSum.Sum;
    if Handle(w, s).Ok? {
      if IsShort(s) {
        ShortsLeaveLending(w, s);
      }
      hide Apply;
      StepFrame(w, s);
    }
  }

  /** What every instruction after migration does to the lending wealth. */
  ghost predicate Conserves(w: World, s: Step, w': World) {
    && w'.curve.migrated
    && LendingWealth(w'.treasury) + BadDebt(w, s) >= LendingWealth(w.treasury)
    && (Exact(w) && LossFree(w, s) ==>
          Exact(w') && LendingWealth(w'.treasury) + BadDebt(w, s) == LendingWealth(w.treasury))
  }

  lemma BorrowConserves(w: World, s: Step)
    requires BookSound(w) && w.curve.migrated && s.Borrow? && HandleBorrow(w, s).Ok?
    ensures Conserves(w, s, HandleBorrow(w, s).value)
  {
    hide SettleBorrow, BookSound, Exact, LendingWealth;
    BorrowIsExact(w, s, Accrue(LoanOf(w, s.user), s.slot).value);
  }

  lemma RepayConserves(w: World, s: Step)
    requires BookSound(w) && w.curve.migrated && s.Repay? && HandleRepay(w, s).Ok?
    ensures Conserves(w, s, HandleRepay(w, s).value)
  {
    hide SettleRepayment, BookSound, Exact, LendingWealth;
    RepaymentIsExact(w, s, Accrue(w.loans[s.user], s.slot).value);
  }

  lemma LiquidateConserves(w: World, s: Step)
    requires BookSound(w) && w.curve.migrated && s.Liquidate? && HandleLiquidate(w, s).Ok?
    ensures Conserves(w, s, HandleLiquidate(w, s).value)
  {
    hide SettleLiquidation, Lending.Seize, BookSound, Exact, LendingWealth;
    var loan := Accrue(w.loans[s.borrower], s.slot).value;
    var cut := Seize(loan, s.poolSol, s.poolTok).value;
    LiquidationConserves(w, s, loan, cut);
    if Exact(w) {
      LiquidationIsExactIff(w, s, loan, cut);
    }
  }

  lemma OthersConserve(w: World, s: Step)
    requires BookSound(w) && w.curve.migrated && !IsLending(s)
    ensures Conserves(w, s, Apply(w, s))
  {
    hide Apply, Handle, LendingWealth, CollateralBacked;
    if s.Buy? || s.Sell? || s.Migrate? || s.Reclaim? {
      TradingHasEnded(w, s);
    } else {
      OtherStepsLeaveLending(w, s);
    }
  }

  lemma StepConserves(w: World, s: Step)
    requires BookSound(w) && w.curve.migrated
    ensures Conserves(w, s, Apply(w, s))
  {
    hide HandleBorrow, HandleRepay, HandleLiquidate, BookSound;
    if !IsLending(s) {
      hide Apply, Conserves;
      OthersConserve(w, s);
    } else if Handle(w, s).Ok? {
      hide Conserves;
      match s
      case Borrow(_, _, _, _, _, _, _) => BorrowConserves(w, s);
      case Repay(_, _, _, _) => RepayConserves(w, s);
      case Liquidate(_, _, _, _, _, _) => LiquidateConserves(w, s);
    }
  }

  /**
   Over any run after migration, whatever is lent, repaid, liquidated and written off, the
   lending wealth plus the bad debt never falls. When every loss fits in its loan's principal it
   does not change at all, and the total lent stays equal to the sum of the principals.
   */
  lemma {:induction false} LendingIsConserved(w: World, steps: seq<Step>)
    requires BookSound(w) && w.curve.migrated
    ensures LendingWealth(Run(w, steps).treasury) + WrittenOff(w, steps) >= LendingWealth(w.treasury)
    ensures Exact(w) && LossFreeRun(w, steps) ==>
      && Exact(Run(w, steps))
      && LendingWealth(Run(w, steps).treasury) + WrittenOff(w, steps) == LendingWealth(w.treasury)
    decreases |steps|
  {
    hide BookSound, Exact, LendingWealth, Apply, LossFree, BadDebt;
    if steps != [] {
      StepConserves(w, steps[0]);
      StepKeepsBook(w, steps[0]);
      LendingIsConserved(Apply(w, steps[0]), steps[1..]);
    }
  }

  /** Before migration there are no loans, so the total is exact. */
  lemma ExactBeforeMigration(w: World)
    requires BookSound(w) && !w.curve.migrated
    ensures Exact(w)
  {
  }

  lemma StepKeepsExact(w: World, s: Step)
    requires BookSound(w) && Exact(w) && LossFree(w, s)
    ensures Exact(Apply(w, s))
  {
    if w.curve.migrated {
      hide BookSound, Exact, Apply, LossFree, BadDebt, LendingWealth;
      StepConserves(w, s);
    } else {
      StepKeepsBook(w, s);
      hide BookSound, Apply;
      if Apply(w, s).curve.migrated {
        MigrationLendsNothing(w, s);
      } else {
        ExactBeforeMigration(Apply(w, s));
      }
    }
  }

  /** The only step that migrates a token leaves its loans and its total alone. */
  lemma MigrationLendsNothing(w: World, s: Step)
    requires !w.curve.migrated && Apply(w, s).curve.migrated
    ensures Apply(w, s).loans == w.loans && Apply(w, s).treasury.lent == w.treasury.lent
  {
    StepFrame(w, s);
    hide Apply;
  }

  /** From any sound and exact state, the total stays exact on every run whose losses all fit. */
  lemma {:induction false} RunKeepsExact(w: World, steps: seq<Step>)
    requires BookSound(w) && Exact(w) && LossFreeRun(w, steps)
    ensures Exact(Run(w, steps))
    decreases |steps|
  {
    hide BookSound, Exact, Apply, LossFree;
    if steps != [] {
      StepKeepsExact(w, steps[0]);
      StepKeepsBook(w, steps[0]);
      RunKeepsExact(Apply(w, steps[0]), steps[1..]);
    }
  }

  // ---------- Liquidation cascades ----------

  function Pow2(k: nat): (r: nat)
    ensures 0 < r
  {
    if k == 0 then 1 else 2 * Pow2(k - 1)
  }

  function CeilDiv(a: nat, b: nat): nat
    requires 0 < b
  {
    (a + b - 1) / b
  }

  /** What a borrower owes once interest up to the slot is added. */
  ghost function Owed(w: World, borrower: Key, slot: u64): nat {
    match Accrue(LoanOf(w, borrower), slot)
    case Ok(loan) => Debt(loan)
    case Err(_) => 0
  }

  /** Successful liquidations of one borrower, all in one slot, against any pools. */
  ghost predicate IsCascade(w: World, steps: seq<Step>, borrower: Key, slot: u64)
    decreases |steps|
  {
    steps == [] ||
    (&& steps[0].Liquidate? && steps[0].borrower == borrower && steps[0].slot == slot
     && Handle(w, steps[0]).Ok?
     && IsCascade(Apply(w, steps[0]), steps[1..], borrower, slot))
  }

  lemma LiquidationHalves(w: World, s: Step)
    requires s.Liquidate? && HandleLiquidate(w, s).Ok?
    ensures var before, after := Owed(w, s.borrower, s.slot), Owed(HandleLiquidate(w, s).value, s.borrower, s.slot);
      && after <= before - before / 2
      && (2 <= before ==> after < before)
  {
    hide Lending.Seize, Wallets.Pay, Wallets.Total, Wallets.AllBooks, TokenLedger.Supply, TokenLedger.FromCollateral,
      Collect;
    var loan := Accrue(w.loans[s.borrower], s.slot).value;
    SeizeSucceedsIff(loan, s.poolSol, s.poolTok);
    DebtAtLeastHalves(loan, s.poolSol, s.poolTok);
  }

  /** After k liquidations in one slot at most the k-th part of the debt by powers of two is left. */
  lemma {:induction false} CascadeHalves(w: World, steps: seq<Step>, borrower: Key, slot: u64)
    requires IsCascade(w, steps, borrower, slot)
    ensures Owed(Run(w, steps), borrower, slot) <= CeilDiv(Owed(w, borrower, slot), Pow2(|steps|))
    decreases |steps|
  {
    hide Handle, HandleLiquidate, Owed, Apply;
    if steps != [] {
      var w' := Apply(w, steps[0]);
      assert w' == HandleLiquidate(w, steps[0]).value && HandleLiquidate(w, steps[0]).Ok? by {
        CascadeStep(w, steps[0]);
      }
      LiquidationHalves(w, steps[0]);
      CascadeHalves(w', steps[1..], borrower, slot);
      HalvingTwice(Owed(Run(w, steps), borrower, slot), Owed(w', borrower, slot), Owed(w, borrower, slot),
                   Pow2(|steps| - 1));
    }
  }

  lemma CascadeStep(w: World, s: Step)
    requires s.Liquidate? && Handle(w, s).Ok?
    ensures HandleLiquidate(w, s).Ok? && Apply(w, s) == HandleLiquidate(w, s).value
  {
    hide HandleLiquidate;
  }

  lemma HalvingTwice(last: nat, next: nat, first: nat, power: nat)
    requires 0 < power
    requires last <= CeilDiv(next, power) && next <= first - first / 2
    ensures last <= CeilDiv(first, 2 * power)
  {
    FloorDivision.LowerIff(last, next + power - 1, power);
    assert last * (2 * power) == 2 * (last * power);
    FloorDivision.LowerIff(last, first + 2 * power - 1, 2 * power);
  }

  // ---------- A fresh borrow cannot be liquidated in its own slot ----------

  /** The borrows after which the position's interest clock stands at the current slot. */
  ghost predicate ClockIsSet(w: World, s: Step)
    requires s.Borrow?
  {
    s.user !in w.loans || w.loans[s.user].borrowed > 0 || s.slot <= w.loans[s.user].lastSlot
  }

  /** The clock is set for a new position and for one that carried debt; an idle one keeps its old clock. */
  lemma BorrowSetsClockIff(w: World, s: Step)
    requires s.Borrow? && HandleBorrow(w, s).Ok?
    ensures s.slot <= HandleBorrow(w, s).value.loans[s.user].lastSlot <==> ClockIsSet(w, s)
  {
    hide Wallets.PayOut, Wallets.Total, Wallets.AllBooks, TokenLedger.Supply, TokenLedger.ToCollateral, WithinLtv,
      Lend;
  }

  /** The debt of a position is below 50.01% of its collateral's value. */
  ghost predicate IsWithinLtv(loan: Loan, poolSol: u64, poolTok: u64) {
    var value := CalcCollateralValue(loan.collateral, poolSol, poolTok);
    value.Some? && 0 < value.value && 0 < poolSol && 0 < poolTok && Debt(loan) * 10_000 < 5001 * value.value
  }

  lemma BorrowIsWithinLtv(w: World, s: Step)
    requires s.Borrow? && HandleBorrow(w, s).Ok?
    ensures IsWithinLtv(HandleBorrow(w, s).value.loans[s.user], s.poolSol, s.poolTok)
  {
    hide SettleBorrow, IsWithinLtv, Accrue;
    SettledBorrowIsWithinLtv(w, s, Accrue(LoanOf(w, s.user), s.slot).value);
  }

  lemma SettledBorrowIsWithinLtv(w: World, s: Step, loan: Loan)
    requires s.Borrow? && SettleBorrow(w, s, loan).Ok?
    ensures IsWithinLtv(SettleBorrow(w, s, loan).value.loans[s.user], s.poolSol, s.poolTok)
  {
    hide SettleBorrow, IsWithinLtv, WithinLtv, Net;
    BorrowPosition(w, s, loan);
    BorrowRespectsLtv(w, s, loan);
    LtvBound(loan, SettleBorrow(w, s, loan).value.loans[s.user], s.sol, s.poolSol, s.poolTok);
  }

  lemma BorrowRespectsLtv(w: World, s: Step, loan: Loan)
    requires s.Borrow? && SettleBorrow(w, s, loan).Ok?
    ensures loan.collateral + Net(s.collateral) <= U64_MAX
      && WithinLtv(loan, loan.collateral + Net(s.collateral), s.sol, s.poolSol, s.poolTok).Ok?
  {
    hide BookLoan, Wallets.PayOut, WithinLtv, Lend, Net, TokenLedger.ToCollateral, TokenLedger.Supply, Wallets.Total,
      Wallets.AllBooks;
    NothingToNet();
  }

  lemma LtvBound(loan: Loan, after: Loan, sol: u64, poolSol: u64, poolTok: u64)
    requires WithinLtv(loan, after.collateral, sol, poolSol, poolTok).Ok? && Debt(after) == Debt(loan) + sol
    ensures IsWithinLtv(after, poolSol, poolTok)
  {
    hide TorchMath.CalcCollateralValue;
    var value := CalcCollateralValue(after.collateral, poolSol, poolTok).value;
    if value > 0 {
      FloorDivision.LowerIff(5001, Debt(after) * 10_000, value);
    }
  }

  /** A position is refused liquidation exactly when its debt is below 65.01% of its collateral's value. */
  lemma NotLiquidatableIff(l: Loan, poolSol: u64, poolTok: u64, value: u64)
    requires CalcCollateralValue(l.collateral, poolSol, poolTok) == Some(value) && 0 < poolSol
    ensures Seize(l, poolSol, poolTok) == Err(NotLiquidatable) <==> Debt(l) * 10_000 < 6501 * value
  {
    assert 0 < poolTok;
    hide TorchMath.CalcCollateralValue, TorchMath.CalcCollateralToSeize;
    if value > 0 {
      FloorDivision.LowerIff(6501, Debt(l) * 10_000, value);
    }
  }

  lemma SettlingIsNoRefusal(w: World, s: Step, loan: Loan, cut: Seizure)
    requires s.Liquidate? && cut.seized <= loan.collateral
    ensures SettleLiquidation(w, s, loan, cut) != Err(NotLiquidatable)
  {
    hide Wallets.Total, Wallets.AllBooks, TokenLedger.Supply, AfterLiquidation, InterestPart, PrincipalPart;
  }

  /**
   A borrow that sets the clock leaves a position no one can liquidate in that slot, in any later
   world where the pool still values its collateral at 5001/6501 of the value at the borrow.
   */
  lemma FreshBorrowIsSafe(w: World, b: Step, later: World, q: Step)
    requires b.Borrow? && HandleBorrow(w, b).Ok? && ClockIsSet(w, b)
    requires q.Liquidate? && q.borrower == b.user && q.slot == b.slot
    requires b.user in later.loans && later.loans[b.user] == HandleBorrow(w, b).value.loans[b.user]
    requires var collateral := later.loans[b.user].collateral;
      var atBorrow, now := CalcCollateralValue(collateral, b.poolSol, b.poolTok),
        CalcCollateralValue(collateral, q.poolSol, q.poolTok);
      atBorrow.Some? && now.Some? && 5001 * atBorrow.value <= 6501 * now.value
    ensures HandleLiquidate(later, q).Err?
  {
    hide HandleBorrow, SettleLiquidation, Lending.Seize, TorchMath.CalcCollateralValue;
    BorrowSetsClockIff(w, b);
    BorrowIsWithinLtv(w, b);
    var loan := later.loans[b.user];
    if q.poolSol == 0 {
      WorthlessPool(loan.collateral, q.poolTok);
    }
    NotLiquidatableIff(loan, q.poolSol, q.poolTok, CalcCollateralValue(loan.collateral, q.poolSol, q.poolTok).value);
  }

  lemma WorthlessPool(collateral: u64, poolTok: u64)
    requires CalcCollateralValue(collateral, 0, poolTok).Some?
    ensures CalcCollateralValue(collateral, 0, poolTok) == Some(0)
  {
  }

  /** The borrow's own debt and the interest on it for the idle time stay below 65.01% of the collateral's value. */
  predicate IdleInterestIsSafe(idle: Loan, b: Step)
    requires b.Borrow?
  {
    var interest := CalcInterest(b.sol, SaturatingSub(b.slot, idle.lastSlot));
    && interest.Some? && idle.accrued + interest.value <= U64_MAX && 0 < b.poolTok
    && (b.sol + idle.accrued + interest.value) * 10_000
       < 6501 * PoolValue(idle.collateral + Net(b.collateral), b.poolSol, b.poolTok)
  }

  /**
   When the clock is not set, the borrow is charged interest for the idle time too: against an
   unchanged pool it is safe in its slot exactly when that interest stays below the threshold.
   */
  lemma IdleBorrowIsSafeIff(w: World, b: Step, q: Step)
    requires b.Borrow? && 0 < b.sol && HandleBorrow(w, b).Ok? && !ClockIsSet(w, b)
    requires q.Liquidate? && q.borrower == b.user && q.slot == b.slot && q.poolSol == b.poolSol
      && q.poolTok == b.poolTok
    ensures HandleLiquidate(HandleBorrow(w, b).value, q) == Err(NotLiquidatable) <==>
      IdleInterestIsSafe(w.loans[b.user], b)
  {
    hide HandleBorrow, SettleLiquidation, Lending.Seize, TorchMath.CalcCollateralValue, TorchMath.CalcInterest,
      PoolValue,
      Net;
    BorrowIsWithinLtv(w, b);
    IdleLoanAfter(w, b);
    var after := HandleBorrow(w, b).value;
    var loan := after.loans[b.user];
    var value := CalcCollateralValue(loan.collateral, b.poolSol, b.poolTok).value;
    ValueIsNarrowed(loan.collateral, b.poolSol, b.poolTok);
    if Accrue(loan, b.slot).Ok? {
      var accrued := Accrue(loan, b.slot).value;
      NotLiquidatableIff(accrued, q.poolSol, q.poolTok, value);
      if Seize(accrued, q.poolSol, q.poolTok).Ok? {
        SettlingIsNoRefusal(after, q, accrued, Seize(accrued, q.poolSol, q.poolTok).value);
      }
    }
  }

  lemma IdleLoanAfter(w: World, b: Step)
    requires b.Borrow? && HandleBorrow(w, b).Ok? && !ClockIsSet(w, b)
    ensures var idle, loan := w.loans[b.user], HandleBorrow(w, b).value.loans[b.user];
      && loan.collateral == idle.collateral + Net(b.collateral)
      && loan.borrowed == b.sol && loan.accrued == idle.accrued && loan.lastSlot == idle.lastSlot < b.slot
      && 0 < b.poolSol
  {
    hide SettleBorrow, Net;
    BorrowIsWithinLtv(w, b);
    BorrowPosition(w, b, w.loans[b.user]);
  }

  /** The treasury's counters have room for a payment and its interest part. */
  predicate CanCollect(t: Treasury, paid: nat, interestPart: nat) {
    t.lamports + paid <= U64_MAX && t.sol + paid <= U64_MAX && t.interest + interestPart <= U64_MAX
  }

  /** A settlement needs only a liquidator who can pay, and room in the treasury's counters. */
  lemma SettlingSucceedsIff(w: World, s: Step, loan: Loan, cut: Seizure)
    requires s.Liquidate? && cut.seized <= loan.collateral && cut.seized <= w.tokens.collateral
    ensures SettleLiquidation(w, s, loan, cut).Ok? <==>
      && (cut.covered == 0 || CanPay(w.funds, PurseOf(s.liquidator, s.route), cut.covered))
      && CanCollect(w.treasury, cut.covered, InterestPart(loan, cut.covered))
  {
    PaySucceedsIff(w.funds, PurseOf(s.liquidator, s.route), cut.covered);
    hide Wallets.Pay, Wallets.Total, Wallets.AllBooks, TokenLedger.Supply, TokenLedger.FromCollateral, AfterLiquidation,
      InterestPart, PrincipalPart, CanPay;
  }

  // ---------- Interest over split intervals ----------

  /** Interest added at each of a sequence of slots. */
  function AccrueThrough(l: Loan, slots: seq<u64>): Result<Loan>
    decreases |slots|
  {
    if slots == [] then Ok(l)
    else
      var next :- Accrue(l, slots[0]);
      AccrueThrough(next, slots[1..])
  }

  predicate Ascending(from: u64, slots: seq<u64>)
    decreases |slots|
  {
    slots == [] || (from <= slots[0] && Ascending(slots[0], slots[1..]))
  }

  lemma AscendingEnds(from: u64, slots: seq<u64>)
    requires slots != [] && Ascending(from, slots)
    ensures from <= slots[0] <= slots[|slots| - 1]
    decreases |slots|
  {
    if |slots| > 1 {
      AscendingEnds(slots[0], slots[1..]);
    }
  }

  /** Interest over two adjacent intervals against interest over both at once. */
  lemma InterestOverTwo(principal: u64, first: u64, second: u64)
    requires first + second <= U64_MAX && CalcInterest(principal, first + second).Some?
    ensures CalcInterest(principal, first).Some? && CalcInterest(principal, second).Some?
    ensures var split := CalcInterest(principal, first).value + CalcInterest(principal, second).value;
      split <= CalcInterest(principal, first + second).value <= split + 1
  {
    FloorDivision.NonNegative(principal, first);
    FloorDivision.NonNegative(principal, second);
    var a, b := principal * first * INTEREST_RATE_BPS, principal * second * INTEREST_RATE_BPS;
    assert principal * (first + second) * INTEREST_RATE_BPS == a + b by {
      assert principal * (first + second) == principal * first + principal * second;
    }
    FloorDivision.SumOfFloors(a, b, 10_000 * EPOCH_DURATION_SLOTS);
  }

  /**
   Accruing through n successive slots adds at most what one accrual over the whole time adds,
   and falls short of it by at most n - 1 lamports.
   */
  lemma {:induction false} SplitAccrual(l: Loan, slots: seq<u64>)
    requires 0 < l.borrowed && slots != [] && Ascending(l.lastSlot, slots)
    requires Accrue(l, slots[|slots| - 1]).Ok?
    ensures AccrueThrough(l, slots).Ok?
    ensures var split, whole := AccrueThrough(l, slots).value.accrued, Accrue(l, slots[|slots| - 1]).value.accrued;
      split <= whole <= split + |slots| - 1
    decreases |slots|
  {
    hide TorchMath.CalcInterest;
    AscendingEnds(l.lastSlot, slots);
    if |slots| > 1 {
      var last := slots[|slots| - 1];
      AscendingEnds(slots[0], slots[1..]);
      if l.lastSlot < slots[0] < last {
        InterestOverTwo(l.borrowed, slots[0] - l.lastSlot, last - slots[0]);
      }
      SplitAccrual(Accrue(l, slots[0]).value, slots[1..]);
    } else {
      assert AccrueThrough(l, slots) == Accrue(l, slots[0]);
    }
  }
}
