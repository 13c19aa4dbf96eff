/** When a borrow goes through, and what it leaves for the others. */
module BorrowLimits {
  import opened Base
  import opened Constants
  import opened TorchMath
  import opened TokenLedger
  import opened Accounts
  import opened Lending
  import opened Program
  import opened Exchanges
  import opened LoanBook
  import opened ReachableStates
  import CashProperties
  import CurveProperties
  import RewardProperties
  import Wallets
  import MapSum
  import FloorDivision

  // ---------- Each limit, in plain terms ----------

  /**
   What a pool of this depth allows against collateral of this value: nothing below 5 SOL, a quarter of
   the value from there, 35% from 50 SOL, 45% from 200 SOL and half from 500 SOL, each plus less than a
   basis point.
   */
  ghost predicate DepthAllows(poolSol: nat, debt: nat, value: nat) {
    || (5_000_000_000 <= poolSol < 50_000_000_000 && debt * 10_000 < 2501 * value)
    || (50_000_000_000 <= poolSol < 200_000_000_000 && debt * 10_000 < 3501 * value)
    || (200_000_000_000 <= poolSol < 500_000_000_000 && debt * 10_000 < 4501 * value)
    || (500_000_000_000 <= poolSol && debt * 10_000 < 5001 * value)
  }

  /** A deeper pool never allows less. */
  lemma DeeperPoolsAllowMore(shallow: nat, deep: nat, debt: nat, value: nat)
    requires shallow <= deep && DepthAllows(shallow, debt, value)
    ensures DepthAllows(deep, debt, value)
  {
  }

  /** The debt is inside the pool's loan-to-value band, and everything on the way fits 64 bits. */
  ghost predicate InBand(debt: nat, collateral: nat, poolSol: u64, poolTok: u64) {
    && 0 < poolTok && debt <= U64_MAX && 0 < collateral * poolSol / poolTok <= U64_MAX
    && DepthAllows(poolSol, debt, collateral * poolSol / poolTok)
  }

  lemma WithinLtvIff(loan: Loan, collateral: u64, sol: u64, poolSol: u64, poolTok: u64)
    ensures WithinLtv(loan, collateral, sol, poolSol, poolTok).Ok? <==>
      InBand(Debt(loan) + sol, collateral, poolSol, poolTok)
    ensures InBand(Debt(loan) + sol, collateral, poolSol, poolTok) ==> Debt(loan) + sol <= U64_MAX
  {
    if 0 < poolTok {
      FloorDivision.NonNegative(collateral, poolSol);
      FloorDivision.Bounds(collateral * poolSol, poolTok);
      var value := collateral * poolSol / poolTok;
      if 0 < value {
        BandIff(poolSol, Debt(loan) + sol, value);
        FloorDivision.Bounds((Debt(loan) + sol) * 10_000, value);
        hide DepthAllows, TorchMath.DepthMaxLtvBps;
      }
    }
  }

  /** The program's rounded ratio passes the program's band exactly when the pool's depth allows the debt. */
  lemma BandIff(poolSol: u64, debt: nat, value: nat)
    requires 0 < value
    ensures DepthAllows(poolSol, debt, value) <==>
      0 < DepthMaxLtvBps(poolSol) && debt * 10_000 / value <= Min(DepthMaxLtvBps(poolSol), MAX_LTV_BPS)
  {
    FloorDivision.LowerIff(DepthMaxLtvBps(poolSol) + 1, debt * 10_000, value);
  }

  /** The treasury's four fifths, and the borrower's share of them by collateral, with the cast's wrap-around. */
  ghost predicate InsideCaps(t: Treasury, borrowed: nat, collateral: nat, sol: nat) {
    && 5 * (t.lent + sol) <= 4 * SaturatingSub(t.sol, Reserved(t))
    && MaxLendable(t) * collateral * BORROW_SHARE_MULTIPLIER <= U128_MAX
    && borrowed + sol <= MaxLendable(t) * collateral * BORROW_SHARE_MULTIPLIER / TOTAL_SUPPLY % U64_MODULUS
  }

  lemma LendIff(t: Treasury, loan: Loan, collateral: u64, sol: u64)
    requires t.sol <= t.lamports && 0 < sol
    ensures Lend(t, loan, collateral, sol).Ok? <==> InsideCaps(t, loan.borrowed, collateral, sol)
  {
    FloorDivision.LowerIff(t.lent + sol, SaturatingSub(t.sol, Reserved(t)) * 8000, 10_000);
    FloorDivision.NonNegative(MaxLendable(t), collateral);
    hide MaxLendable;
    assert MaxLendable(t) * 10 <= SaturatingSub(t.sol, Reserved(t)) * 8;
  }

  // ---------- The whole handler ----------

  /** The position a borrow leaves: the collateral once the transfer fee is off. */
  function CollateralAfter(loan: Loan, s: Step): nat
    requires s.Borrow?
  {
    loan.collateral + Net(s.collateral)
  }

  /** What a borrow needs after its first guards and before its books. */
  ghost predicate CanLend(w: World, s: Step, loan: Loan)
    requires s.Borrow?
  {
    && s.collateral <= Get(w.tokens.held, AtaOf(s.user, s.route))
    && InBand(Debt(loan) + s.sol, CollateralAfter(loan, s), s.poolSol, s.poolTok)
    && (0 < s.sol ==>
          && InsideCaps(w.treasury, loan.borrowed, CollateralAfter(loan, s), s.sol)
          && CanReceive(w.funds, PurseOf(s.user, s.route), s.sol))
  }

  lemma LendingSucceedsIff(w: World, s: Step, loan: Loan)
    requires s.Borrow? && w.treasury.sol <= w.treasury.lamports && loan.collateral <= TOTAL_SUPPLY
    requires Get(w.tokens.held, AtaOf(s.user, s.route)) <= TOTAL_SUPPLY
    ensures CanLend(w, s, loan) ==>
      var collateral := CollateralAfter(loan, s);
      && (0 < s.collateral ==> ToCollateral(w.tokens, AtaOf(s.user, s.route), s.collateral).Ok?)
      && collateral <= U64_MAX && Debt(loan) + s.sol <= U64_MAX
      && WithinLtv(loan, collateral, s.sol, s.poolSol, s.poolTok).Ok?
      && Lend(w.treasury, loan, collateral, s.sol).Ok?
      && (0 < s.sol ==> Wallets.PayOut(w.funds, PurseOf(s.user, s.route), s.sol).Ok?)
    ensures SettleBorrow(w, s, loan).Ok? ==> CanLend(w, s, loan)
  {
    hide BookLoan, WithinLtv, Lend, InBand, InsideCaps, CanReceive, Net, TokenLedger.ToCollateral, TokenLedger.Supply,
      Wallets.PayOut, Wallets.Total, Wallets.AllBooks;
    NothingToNet();
    if s.collateral <= Get(w.tokens.held, AtaOf(s.user, s.route)) {
      var collateral := CollateralAfter(loan, s);
      WithinLtvIff(loan, collateral, s.sol, s.poolSol, s.poolTok);
      if 0 < s.sol {
        LendIff(w.treasury, loan, collateral, s.sol);
        PayOutSucceedsIff(w.funds, PurseOf(s.user, s.route), s.sol);
      } else {
        NothingLent(w.treasury, loan, collateral);
      }
    }
  }

  lemma SettlingABorrowSucceedsIff(w: World, s: Step, loan: Loan)
    requires s.Borrow? && w.treasury.sol <= w.treasury.lamports
    requires loan.collateral <= TOTAL_SUPPLY && w.treasury.locked <= TOTAL_SUPPLY
    requires Get(w.tokens.held, AtaOf(s.user, s.route)) <= TOTAL_SUPPLY
    ensures SettleBorrow(w, s, loan).Ok? <==>
      CanLend(w, s, loan) && (s.user !in w.loans ==> w.treasury.activeLoans < U64_MAX)
  {
    hide SettleBorrow, BookLoan, CanLend, Net;
    LendingSucceedsIff(w, s, loan);
    if CanLend(w, s, loan) {
      var before := LentBeforeBooks(w, s, loan);
      BookingALoanSucceedsIff(before, s, loan.(collateral := CollateralAfter(loan, s)), Net(s.collateral));
    }
  }

  /** A borrow that meets the limits comes down to its books. */
  lemma LentBeforeBooks(w: World, s: Step, loan: Loan) returns (before: World)
    requires s.Borrow? && w.treasury.sol <= w.treasury.lamports && loan.collateral <= TOTAL_SUPPLY
    requires Get(w.tokens.held, AtaOf(s.user, s.route)) <= TOTAL_SUPPLY && CanLend(w, s, loan)
    ensures CollateralAfter(loan, s) <= U64_MAX && loan.borrowed + s.sol <= U64_MAX
    ensures SettleBorrow(w, s, loan)
      == BookLoan(before, s, loan.(collateral := CollateralAfter(loan, s)), Net(s.collateral))
    ensures before.loans == w.loans
      && before.treasury.locked == w.treasury.locked && before.treasury.activeLoans == w.treasury.activeLoans
  {
    hide SettleBorrow, BookLoan, WithinLtv, Lend, CanLend, Net, TokenLedger.ToCollateral, Wallets.PayOut;
    LendingSucceedsIff(w, s, loan);
    before := InSteps(w, s, loan, CollateralAfter(loan, s));
  }

  lemma InSteps(w: World, s: Step, loan: Loan, collateral: u64) returns (before: World)
    requires s.Borrow? && collateral == loan.collateral + Net(s.collateral)
    requires 0 < s.collateral ==> ToCollateral(w.tokens, AtaOf(s.user, s.route), s.collateral).Ok?
    requires WithinLtv(loan, collateral, s.sol, s.poolSol, s.poolTok).Ok?
      && Lend(w.treasury, loan, collateral, s.sol).Ok?
    requires 0 < s.sol ==> Wallets.PayOut(w.funds, PurseOf(s.user, s.route), s.sol).Ok?
    ensures SettleBorrow(w, s, loan) == BookLoan(before, s, loan.(collateral := collateral), Net(s.collateral))
    ensures before.loans == w.loans
      && before.treasury.locked == w.treasury.locked && before.treasury.activeLoans == w.treasury.activeLoans
  {
    hide BookLoan, WithinLtv, Lend, Net, TokenLedger.ToCollateral, TokenLedger.Supply, Wallets.PayOut, Wallets.Total,
      Wallets.AllBooks;
    NothingToNet();
    var tokens := w.tokens;
    if s.collateral > 0 {
      tokens := ToCollateral(w.tokens, AtaOf(s.user, s.route), s.collateral).value;
    }
    var funds := w.funds;
    if s.sol > 0 {
      funds := Wallets.PayOut(w.funds, PurseOf(s.user, s.route), s.sol).value;
    }
    before := w.(treasury := Lend(w.treasury, loan, collateral, s.sol).value, tokens := tokens, funds := funds);
  }

  lemma BookingALoanSucceedsIff(w: World, s: Step, loan: Loan, deposited: u64)
    requires s.Borrow? && loan.borrowed + s.sol <= U64_MAX && w.treasury.locked + deposited <= U64_MAX
    ensures BookLoan(w, s, loan, deposited).Ok? <==> (s.user !in w.loans ==> w.treasury.activeLoans < U64_MAX)
  {
  }

  lemma NothingLent(t: Treasury, loan: Loan, collateral: u64)
    ensures Lend(t, loan, collateral, 0) == Ok(t)
  {
  }

  /** No balance and no position can exceed the supply. */
  lemma SupplyBounds(w: World, user: Key, h: Holder)
    requires Reached(w)
    ensures Get(w.tokens.held, h) <= TOTAL_SUPPLY && w.treasury.locked <= TOTAL_SUPPLY
    ensures LoanOf(w, user).collateral <= TOTAL_SUPPLY
    ensures w.treasury.sol <= w.treasury.lamports
  {
    hide Reached, MapSum.Sum, RewardProperties.PoolSound, Solvent, Wallets.AllBooks, Collaterals, Principals;
    EveryReachedStateIsSound(w);
    MapSum.Member(w.tokens.held, h);
    if user in w.loans {
      OneOfMany(w.loans, user);
    }
  }

  /**
   A borrow, of SOL against tokens or of collateral alone, goes through in a reachable state exactly
   when all of this holds; that includes the wrap-around of the borrower's cap.
   */
  lemma BorrowsSucceedIff(w: World, s: Step)
    requires Reached(w) && s.Borrow?
    ensures HandleBorrow(w, s).Ok? <==>
      && w.curve.migrated && !w.curve.reclaimed
      && (0 < s.collateral || 0 < s.sol) && (0 < s.sol ==> MIN_BORROW_AMOUNT <= s.sol)
      && Accrue(LoanOf(w, s.user), s.slot).Ok? && CanLend(w, s, Accrue(LoanOf(w, s.user), s.slot).value)
      && (s.user !in w.loans ==> w.treasury.activeLoans < U64_MAX)
  {
    hide Reached, SettleBorrow, CanLend, TorchMath.CalcInterest;
    if Accrue(LoanOf(w, s.user), s.slot).Ok? {
      SupplyBounds(w, s.user, AtaOf(s.user, s.route));
      SettlingABorrowSucceedsIff(w, s, Accrue(LoanOf(w, s.user), s.slot).value);
    }
  }

  // ---------- What a borrow leaves for the others ----------

  /** The lendable SOL falls by four fifths of what is lent, to within a lamport. */
  lemma LendableFalls(t: Treasury, t': Treasury, sol: u64)
    requires Reserved(t) + sol <= t.sol
    requires t' == t.(sol := t.sol - sol, lamports := t'.lamports, lent := t'.lent, locked := t'.locked,
                      activeLoans := t'.activeLoans)
    ensures sol * 8000 / 10_000 <= MaxLendable(t) - MaxLendable(t') <= sol * 8000 / 10_000 + 1
  {
    FloorDivision.SumOfFloors((t'.sol - Reserved(t)) * 8000, sol * 8000, 10_000);
  }

  /** A share of a smaller whole is smaller by the share of the difference, to within a lamport. */
  lemma ShareFalls(lendable: u64, less: u64, collateral: u64)
    requires less <= lendable && collateral <= TOTAL_SUPPLY
    requires lendable * collateral * BORROW_SHARE_MULTIPLIER < TOTAL_SUPPLY * U64_MODULUS
    ensures UserBorrowCap(lendable, collateral).Ok? && UserBorrowCap(less, collateral).Ok?
    ensures var fall := UserBorrowCap(lendable, collateral).value - UserBorrowCap(less, collateral).value;
      var share := (lendable - less) * collateral * BORROW_SHARE_MULTIPLIER / TOTAL_SUPPLY;
      share <= fall <= share + 1
  {
    var a, b := less * collateral * BORROW_SHARE_MULTIPLIER, (lendable - less) * collateral * BORROW_SHARE_MULTIPLIER;
    FloorDivision.NonNegative(less, collateral);
    FloorDivision.NonNegative(lendable - less, collateral);
    assert lendable * collateral * BORROW_SHARE_MULTIPLIER == a + b by {
      assert lendable * collateral == less * collateral + (lendable - less) * collateral;
    }
    FloorDivision.SumOfFloors(a, b, TOTAL_SUPPLY);
    Unwrapped(a + b);
    Unwrapped(a);
  }

  lemma Unwrapped(product: nat)
    requires product < TOTAL_SUPPLY * U64_MODULUS
    ensures product / TOTAL_SUPPLY % U64_MODULUS == product / TOTAL_SUPPLY
  {
    FloorDivision.LowerIff(U64_MODULUS, product, TOTAL_SUPPLY);
  }

  /**
   One user's borrow lowers every user's cap, by the share its collateral has in four fifths of the
   amount borrowed, to within two roundings.
   */
  lemma BorrowLowersCaps(w: World, s: Step, collateral: u64)
    requires Reached(w) && s.Borrow? && HandleBorrow(w, s).Ok? && collateral <= TOTAL_SUPPLY
    requires MaxLendable(w.treasury) * collateral * BORROW_SHARE_MULTIPLIER < TOTAL_SUPPLY * U64_MODULUS
    ensures var before := UserBorrowCap(MaxLendable(w.treasury), collateral);
      var after := UserBorrowCap(MaxLendable(HandleBorrow(w, s).value.treasury), collateral);
      var lendable := s.sol * 8000 / 10_000;
      && before.Ok? && after.Ok?
      && lendable * collateral * BORROW_SHARE_MULTIPLIER / TOTAL_SUPPLY <= before.value - after.value
           <= (lendable + 1) * collateral * BORROW_SHARE_MULTIPLIER / TOTAL_SUPPLY + 1
  {
    hide Reached, SettleBorrow, MaxLendable, UserBorrowCap, Net, TorchMath.CalcInterest;
    var t, t', lendable := w.treasury, HandleBorrow(w, s).value.treasury, s.sol * 8000 / 10_000;
    var loan := Accrue(LoanOf(w, s.user), s.slot).value;
    BorrowBooks(w, s, loan);
    assert Reserved(t) + s.sol <= t.sol by {
      EveryReachedStateIsSound(w);
      hide CollateralBacked, RewardProperties.PoolSound, CurveProperties.SupplyKept, CashProperties.BooksMatchCash;
    }
    LendableFalls(t, t', s.sol);
    ShareFalls(MaxLendable(t), MaxLendable(t'), collateral);
    var fall := MaxLendable(t) - MaxLendable(t');
    ScaledLe(lendable, fall, collateral);
    ScaledLe(fall, lendable + 1, collateral);
  }

  lemma ScaledLe(a: nat, b: nat, collateral: u64)
    requires a <= b
    ensures 0 <= a * collateral * BORROW_SHARE_MULTIPLIER / TOTAL_SUPPLY
      <= b * collateral * BORROW_SHARE_MULTIPLIER / TOTAL_SUPPLY
  {
    FloorDivision.MulLe(a, b, collateral);
    FloorDivision.NonNegative(a, collateral);
    FloorDivision.Monotone(a * collateral * BORROW_SHARE_MULTIPLIER, b * collateral * BORROW_SHARE_MULTIPLIER,
                           TOTAL_SUPPLY);
  }
}
