/**
 The run goes on past graduation and migration, to states where a natural claim about lending fails.
 */
module LendingScenarios {
  import opened Base
  import opened Constants
  import opened MapSum
  import opened TorchMath
  import opened TokenLedger
  import opened Accounts
  import opened Wallets
  import opened BondingCurve
  import opened Lending
  import opened Program
  import opened Exchanges
  import opened CashProperties
  import opened LoanBook
  import opened LiquidationProperties
  import opened LoanHistory
  import opened CurveGuarantees
  import opened ReachableStates
  import opened BorrowLimits
  import opened TreasurySolvency
  import opened TradingScenarios
  import FloorDivision

  // ---------- A migrated token with tokens to lend on ----------

  const MIGRATION_COST: u64 := 300_000_000

  /** Migrated, with SOL to lend, no loans yet, and tokens in the keeper's hands. */
  ghost predicate Lendable(w: World) {
    && Reached(w) && w.curve.migrated && !w.curve.reclaimed
    && w.loans == map[] && w.treasury.lent == 0 && w.treasury.locked == 0 && w.treasury.shortReserved == 0
    && w.treasury.activeLoans == 0 && w.treasury.interest == 0
    && 2_700_000_000 <= w.treasury.sol <= w.treasury.lamports <= 300_000_000_000
    && Get(w.funds.wallets, 7) == Get(w.funds.wallets, 8) == 0 && 700_000_000_000 <= Get(w.funds.wallets, TRADER)
    && 400_000_000_000_000 <= Get(w.tokens.held, UserAta(KEEPER))
  }

  /** The purchase of five SOL that completes the curve. */
  lemma Graduated(w: World) returns (w': World)
    requires Gathering(w) && 196_000_000_000 <= w.curve.rsol
    ensures ReachedWithoutReclaim(w') && Bounded(w') && w'.curve.complete && !w'.curve.migrated && !w'.curve.reclaimed
    ensures 200_000_000_000 <= w'.curve.rsol <= 205_000_000_000
    ensures 400_000_000_000_000 <= Get(w'.tokens.held, UserAta(KEEPER))
  {
    hide ReachedWithoutReclaim, Bounded, QuoteBuy, HandleBuy, TokenLedger.FromCurve, Net, TokenLedger.Supply;
    OpenReserves(w);
    QuoteIsModerate(w, 5_000_000_000);
    PurchaseGoesThroughIff(w, 5_000_000_000);
    w' := AfterPurchase(w, 5_000_000_000);
    DeliveredToTrader(w.tokens, Quoted(w, 5_000_000_000).value.tokensOut);
    KeeperHoldsMost(w);
    hide Gathering, Open;
  }

  lemma KeeperHoldsMost(w: World)
    requires Gathering(w) && 196_000_000_000 <= w.curve.rsol
    ensures 400_000_000_000_000 <= Get(w.tokens.held, UserAta(KEEPER))
  {
    OpenReserves(w);
    hide Open;
    FloorDivision.MulLe(271_000_000_000, w.curve.vsol, w.curve.vtok);
  }

  lemma Migrated(w: World) returns (w': World)
    requires ReachedWithoutReclaim(w) && Bounded(w) && w.curve.complete && !w.curve.migrated && !w.curve.reclaimed
    requires 200_000_000_000 <= w.curve.rsol <= 205_000_000_000
    requires 400_000_000_000_000 <= Get(w.tokens.held, UserAta(KEEPER))
    ensures Lendable(w')
  {
    var s := Migrate(MIGRATION_COST);
    ReachedAnyhow(w);
    EveryReachedStateIsSound(w);
    assert w.loans == map[] && w.treasury.lent == 0 && w.treasury.shortReserved == 0;
    assert w.treasury.locked == 0 by {
      assert Collaterals(w.loans) == map[];
    }
    assert w.curve.lamports == w.curve.rsol && w.treasury.sol <= w.treasury.lamports;
    PoolShareFits(w);
    hide ReachedWithoutReclaim, Reached, BookSound, RewardProperties.PoolSound, CurveProperties.SupplyKept,
      BooksMatchCash,
      TorchMath.CalcTokensForPool, TokenLedger.Supply, Net;
    MigrationOutcome(w);
    w' := HandleMigrate(w, s).value;
    assert w' == Apply(w, s) by {
      hide HandleMigrate, Bounded;
    }
    ReachedAgain(w, s);
    hide HandleMigrate;
  }

  lemma PoolShareFits(w: World)
    requires ReachedWithoutReclaim(w) && !w.curve.migrated && w.curve.target == BONDING_TARGET_TORCH
    ensures CalcTokensForPool(w.curve.rsol, w.curve.vtok, w.curve.vsol).Some?
  {
    ReachedIsSound(w);
    hide ReachedWithoutReclaim;
    FloorDivision.Share(w.curve.vtok, w.curve.rsol, w.curve.vsol);
  }

  lemma MigrationOutcome(w: World)
    requires w.curve.complete && !w.curve.migrated && w.curve.lamports == w.curve.rsol
    requires 1_500_000_000 <= w.treasury.sol <= w.treasury.lamports
    requires CalcTokensForPool(w.curve.rsol, w.curve.vtok, w.curve.vsol).Some?
    ensures HandleMigrate(w, Migrate(MIGRATION_COST)).Ok?
    ensures var w' := HandleMigrate(w, Migrate(MIGRATION_COST)).value;
      && w'.curve.migrated && w'.curve.reclaimed == w.curve.reclaimed && w'.loans == w.loans && w'.funds == w.funds
      && w'.treasury
        == w.treasury.(lamports := w.treasury.lamports - MIGRATION_COST, sol := w.treasury.sol - MIGRATION_COST,
                                    baselineSol := w'.treasury.baselineSol, baselineTok := w'.treasury.baselineTok,
                                    baselineSet := true)
      && Get(w'.tokens.held, UserAta(KEEPER)) == Get(w.tokens.held, UserAta(KEEPER))
  {
    hide TorchMath.CalcTokensForPool, Net, TokenLedger.Supply;
  }

  lemma SomeLendable() returns (w: World)
    ensures Lendable(w)
  {
    hide ReachedWithoutReclaim, Bounded, Launch, Lendable;
    LaunchGathers();
    var w0 := Gathered(Launch(), 196_000_000_000);
    hide Gathering;
    var w1 := Graduated(w0);
    w := Migrated(w1);
  }

  // ---------- Borrowing ----------

  const PLEDGE: u64 := 50_000_000_000_000
  const NET_PLEDGE: u64 := 49_965_000_000_000

  lemma PledgeIsNet()
    ensures Net(PLEDGE) == NET_PLEDGE && Net(0) == 0
  {
  }

  /** A reached lending state: what is liquid and what is lent, and room in every counter. */
  ghost predicate InUse(w: World, sol: nat, lent: nat) {
    && Reached(w) && w.curve.migrated && !w.curve.reclaimed
    && w.treasury.sol == sol && w.treasury.lent == lent && w.treasury.shortReserved == 0
    && w.treasury.activeLoans <= For(true, 7 in w.loans, 1) + For(true, 8 in w.loans, 1)
    && w.treasury.interest <= 100_000_000_000
    && Get(w.funds.wallets, 7) + Get(w.funds.wallets, 8) + w.treasury.lamports <= 300_000_000_000 + w.treasury.interest
    && 700_000_000_000 <= Get(w.funds.wallets, TRADER) + w.treasury.interest
  }

  /** The keeper shares the tokens with a second borrower. */
  lemma Shared(w: World) returns (w': World)
    requires Lendable(w)
    ensures InUse(w', w.treasury.sol, 0) && w'.loans == map[] && w'.treasury == w.treasury
    ensures PLEDGE <= Get(w'.tokens.held, UserAta(7)) && 2 * PLEDGE <= Get(w'.tokens.held, UserAta(8))
  {
    hide Reached, TokenLedger.Supply, Net;
    var s := TransferTokens(UserAta(KEEPER), UserAta(7), 100_000_000_000_000);
    SharedTokens(w.tokens);
    w' := w.(tokens := Move(w.tokens, UserAta(KEEPER), UserAta(7), 100_000_000_000_000).value);
    assert Apply(w, s) == w' by {
      hide TokenLedger.Move;
    }
    ReachedAgain(w, s);
    hide TokenLedger.Move, Apply;
  }

  lemma SharedTokens(t: Tokens)
    requires 400_000_000_000_000 <= Get(t.held, UserAta(KEEPER))
    ensures Move(t, UserAta(KEEPER), UserAta(7), 100_000_000_000_000).Ok?
    ensures var t' := Move(t, UserAta(KEEPER), UserAta(7), 100_000_000_000_000).value;
      PLEDGE <= Get(t'.held, UserAta(7)) && 2 * PLEDGE <= Get(t'.held, UserAta(8))
  {
    assert Net(100_000_000_000_000) == 99_930_000_000_000;
    hide Net, TokenLedger.Supply;
  }

  /** A borrow against one pledge, by a user who owes nothing yet, inside the treasury's two caps. */
  ghost predicate Affordable(w: World, s: Step, sol: nat, lent: nat)
    requires s.Borrow?
  {
    && s.route == Direct && (s.user == 7 || s.user == 8)
    && LoanOf(w, s.user).borrowed == LoanOf(w, s.user).accrued == 0
    && s.collateral <= Get(w.tokens.held, UserAta(s.user))
    && LoanOf(w, s.user).collateral + Net(s.collateral) == NET_PLEDGE
    && (if s.sol == 0 then 0 < s.collateral
        else MIN_BORROW_AMOUNT <= s.sol && 5 * (lent + s.sol) <= 4 * sol && 5000 * s.sol + 1_000_000 <= 4596 * sol)
  }

  lemma Borrowed(w: World, s: Step, sol: nat, lent: nat) returns (w': World)
    requires s.Borrow? && InUse(w, sol, lent) && Affordable(w, s, sol, lent)
    requires InBand(s.sol, NET_PLEDGE, s.poolSol, s.poolTok)
    ensures s.sol <= sol && HandleBorrow(w, s) == Ok(w')
    ensures InUse(w', sol - s.sol, lent + s.sol)
    ensures w'.loans
      == w.loans[s.user := Loan(NET_PLEDGE, s.sol, 0, if s.user in w.loans then w.loans[s.user].lastSlot else s.slot)]
    ensures forall h :: h != UserAta(s.user) ==> Get(w'.tokens.held, h) == Get(w.tokens.held, h)
    ensures Get(w'.tokens.held, UserAta(s.user)) == Get(w.tokens.held, UserAta(s.user)) - s.collateral
    ensures w'.treasury.interest == w.treasury.interest
  {
    hide Reached, InBand, SettleBorrow, HandleBorrow, Net, InUse, Affordable;
    BorrowGoesThrough(w, s, sol, lent);
    w' := HandleBorrow(w, s).value;
    BorrowStaysInUse(w, s, sol, lent);
  }

  lemma BorrowGoesThrough(w: World, s: Step, sol: nat, lent: nat)
    requires s.Borrow? && InUse(w, sol, lent) && Affordable(w, s, sol, lent)
    requires InBand(s.sol, NET_PLEDGE, s.poolSol, s.poolTok)
    ensures HandleBorrow(w, s).Ok? && HandleBorrow(w, s) == SettleBorrow(w, s, LoanOf(w, s.user))
  {
    hide Reached, InBand, CanLend, HandleBorrow, SettleBorrow, Net, Accrue;
    NothingAccrues(LoanOf(w, s.user), s.slot);
    PledgeCanBeLent(w, s, sol, lent);
    BorrowsSucceedIff(w, s);
    AccruedBorrow(w, s, LoanOf(w, s.user));
  }

  lemma AccruedBorrow(w: World, s: Step, loan: Loan)
    requires s.Borrow? && HandleBorrow(w, s).Ok? && Accrue(LoanOf(w, s.user), s.slot) == Ok(loan)
    ensures HandleBorrow(w, s) == SettleBorrow(w, s, loan)
  {
    hide Accrue, SettleBorrow;
  }

  lemma PledgeCanBeLent(w: World, s: Step, sol: nat, lent: nat)
    requires s.Borrow? && InUse(w, sol, lent) && Affordable(w, s, sol, lent)
    requires InBand(s.sol, NET_PLEDGE, s.poolSol, s.poolTok)
    ensures CanLend(w, s, LoanOf(w, s.user))
  {
    hide InUse, InBand, InsideCaps, CanReceive, CanLend, CollateralAfter, Net;
    if s.sol > 0 {
      PledgeInsideCaps(w, s, sol, lent);
    }
    PledgeMeetsLimits(w, s, LoanOf(w, s.user));
  }

  lemma PledgeMeetsLimits(w: World, s: Step, loan: Loan)
    requires s.Borrow? && s.route == Direct && s.collateral <= Get(w.tokens.held, UserAta(s.user))
    requires loan.borrowed == loan.accrued == 0 && loan.collateral + Net(s.collateral) == NET_PLEDGE
    requires InBand(s.sol, NET_PLEDGE, s.poolSol, s.poolTok)
    requires 0 < s.sol ==>
      InsideCaps(w.treasury, 0, NET_PLEDGE, s.sol) && CanReceive(w.funds, PurseOf(s.user, s.route), s.sol)
    ensures CanLend(w, s, loan)
  {
    hide InBand, InsideCaps, CanReceive, Net;
    assert CollateralAfter(loan, s) == NET_PLEDGE && Debt(loan) + s.sol == s.sol;
  }

  lemma PledgeInsideCaps(w: World, s: Step, sol: nat, lent: nat)
    requires s.Borrow? && InUse(w, sol, lent) && Affordable(w, s, sol, lent) && 0 < s.sol
    ensures InsideCaps(w.treasury, 0, NET_PLEDGE, s.sol) && CanReceive(w.funds, PurseOf(s.user, s.route), s.sol)
  {
    hide Reached, InsideCaps, Net;
    SupplyBounds(w, s.user, UserAta(s.user));
    CapsAllow(w.treasury, NET_PLEDGE, s.sol);
  }

  lemma BorrowStaysInUse(w: World, s: Step, sol: nat, lent: nat)
    requires s.Borrow? && InUse(w, sol, lent) && Affordable(w, s, sol, lent)
    requires HandleBorrow(w, s).Ok? && HandleBorrow(w, s) == SettleBorrow(w, s, LoanOf(w, s.user))
    ensures var w' := HandleBorrow(w, s).value;
      && s.sol <= sol && InUse(w', sol - s.sol, lent + s.sol) && w'.treasury.interest == w.treasury.interest
      && w'.loans
        == w.loans[s.user := Loan(NET_PLEDGE, s.sol, 0, if s.user in w.loans then w.loans[s.user].lastSlot else s.slot)]
      && (forall h :: h != UserAta(s.user) ==> Get(w'.tokens.held, h) == Get(w.tokens.held, h))
      && Get(w'.tokens.held, UserAta(s.user)) == Get(w.tokens.held, UserAta(s.user)) - s.collateral
  {
    hide Reached, HandleBorrow, SettleBorrow, MaxLendable, Net, Apply;
    var loan := LoanOf(w, s.user);
    BorrowIsAStep(w, s);
    ReachedAgain(w, s);
    BorrowPosition(w, s, loan);
    BorrowBooks(w, s, loan);
    PursesAfterBorrow(w, s, loan);
    TokensAfterBorrow(w, s, loan);
  }

  lemma NothingAccrues(loan: Loan, slot: u64)
    requires loan.borrowed == 0
    ensures Accrue(loan, slot) == Ok(loan)
  {
  }

  lemma BorrowIsAStep(w: World, s: Step)
    requires s.Borrow? && HandleBorrow(w, s).Ok?
    ensures Apply(w, s) == HandleBorrow(w, s).value
  {
    hide HandleBorrow;
  }

  lemma PursesAfterBorrow(w: World, s: Step, loan: Loan)
    requires s.Borrow? && s.route == Direct && SettleBorrow(w, s, loan).Ok?
    ensures forall k ::
      Get(SettleBorrow(w, s, loan).value.funds.wallets, k) == Get(w.funds.wallets, k) + For(k, s.user, s.sol)
    ensures SettleBorrow(w, s, loan).value.treasury.lamports + s.sol == w.treasury.lamports
    ensures SettleBorrow(w, s, loan).value.treasury.activeLoans
      == w.treasury.activeLoans + For(false, s.user in w.loans, 1)
  {
    hide SettleBorrow, Net, TokenLedger.ToCollateral, TokenLedger.Supply, Wallets.Total, Wallets.AllBooks;
    var before, deposited := BeforeTheBooks(w, s, loan);
  }

  lemma TokensAfterBorrow(w: World, s: Step, loan: Loan)
    requires s.Borrow? && s.route == Direct && SettleBorrow(w, s, loan).Ok?
    ensures var held, held' := w.tokens.held, SettleBorrow(w, s, loan).value.tokens.held;
      && (forall h :: h != UserAta(s.user) ==> Get(held', h) == Get(held, h))
      && Get(held', UserAta(s.user)) == Get(held, UserAta(s.user)) - s.collateral
  {
    hide SettleBorrow, Lend, Net, TokenLedger.Supply, Wallets.PayOut, Wallets.Total, Wallets.AllBooks;
    var before, deposited := BeforeTheBooks(w, s, loan);
  }

  lemma CapsAllow(t: Treasury, collateral: u64, sol: u64)
    requires t.sol <= 400_000_000_000 && t.shortReserved == 0 && collateral == NET_PLEDGE
    requires 5 * (t.lent + sol) <= 4 * t.sol && 5000 * sol + 1_000_000 <= 4596 * t.sol
    ensures InsideCaps(t, 0, collateral, sol)
  {
  }

  /** A deep pool lets every borrow of the scenarios through. */
  lemma DeepPoolAllows(sol: u64)
    requires sol <= 300_000_000_000
    ensures InBand(sol, NET_PLEDGE, 2_000_000_000_000, 140_000_000_000_000)
  {
    assert NET_PLEDGE * 2_000_000_000_000 / 140_000_000_000_000 == 713_785_714_285;
  }

  ghost function DeepBorrow(user: Key, collateral: u64, sol: u64, slot: u64): Step {
    Borrow(user, collateral, sol, Direct, slot, 2_000_000_000_000, 140_000_000_000_000)
  }

  /** A borrow of the whole scenario's kind: one pledge against the deep pool. */
  lemma DeeplyBorrowed(w: World, user: Key, amount: u64, slot: u64, sol: nat, lent: nat) returns (w': World)
    requires InUse(w, sol, lent) && (user == 7 || user == 8) && PLEDGE <= Get(w.tokens.held, UserAta(user))
    requires LoanOf(w, user).collateral == LoanOf(w, user).borrowed == LoanOf(w, user).accrued == 0
    requires MIN_BORROW_AMOUNT <= amount <= 300_000_000_000
    requires 5 * (lent + amount) <= 4 * sol && 5000 * amount + 1_000_000 <= 4596 * sol
    ensures amount <= sol && HandleBorrow(w, DeepBorrow(user, PLEDGE, amount, slot)) == Ok(w')
    ensures InUse(w', sol - amount, lent + amount)
    ensures w'.loans
      == w.loans[user := Loan(NET_PLEDGE, amount, 0, if user in w.loans then w.loans[user].lastSlot else slot)]
    ensures forall h :: h != UserAta(user) ==> Get(w'.tokens.held, h) == Get(w.tokens.held, h)
    ensures Get(w'.tokens.held, UserAta(user)) == Get(w.tokens.held, UserAta(user)) - PLEDGE
    ensures w'.treasury.interest == w.treasury.interest
  {
    hide InUse, InBand, Net, HandleBorrow;
    PledgeIsNet();
    DeepPoolAllows(amount);
    w' := Borrowed(w, DeepBorrow(user, PLEDGE, amount, slot), sol, lent);
  }

  // ---------- Two loans ----------

  lemma TwoOwe(loans: map<Key, Loan>, a: Loan, b: Loan)
    requires loans == map[8 := a][7 := b]
    ensures Sum(Principals(loans)) == a.borrowed + b.borrowed
  {
    assert Principals(map[]) == map[];
    SetLoan(map[], 8, a);
    SetLoan(map[8 := a], 7, b);
  }

  /** Users 8 and 7 each borrow against a pledge. */
  lemma TwoLoans(w0: World, first: u64, second: u64) returns (w: World)
    requires Lendable(w0) && MIN_BORROW_AMOUNT <= first && MIN_BORROW_AMOUNT <= second
    requires 5 * (first + second) <= 4 * (w0.treasury.sol - first)
    requires 5000 * second + 1_000_000 <= 4596 * (w0.treasury.sol - first)
    ensures InUse(w, w0.treasury.sol - first - second, first + second) && w.treasury.interest == 0
    ensures w.loans == map[8 := Loan(NET_PLEDGE, first, 0, 0)][7 := Loan(NET_PLEDGE, second, 0, 0)]
    ensures PLEDGE <= Get(w.tokens.held, UserAta(8))
  {
    hide Lendable, InUse, HandleBorrow;
    LendableTreasury(w0);
    var w1 := Shared(w0);
    var w2 := DeeplyBorrowed(w1, 8, first, 0, w0.treasury.sol, 0);
    w := DeeplyBorrowed(w2, 7, second, 0, w0.treasury.sol - first, first);
  }

  lemma LendableTreasury(w: World)
    requires Lendable(w)
    ensures w.treasury.sol <= 300_000_000_000 && w.treasury.interest == 0
  {
  }

  const FRESH: Loan := Loan(NET_PLEDGE, 400_000_000, 0, 0)

  lemma TwoFreshLoans() returns (w: World, sol: nat)
    ensures InUse(w, sol, 800_000_000) && w.loans == map[8 := FRESH][7 := FRESH] && Exact(w) && w.treasury.interest == 0
  {
    var w0 := SomeLendable();
    w := TwoLoans(w0, 400_000_000, 400_000_000);
    sol := w0.treasury.sol - 800_000_000;
    TwoOwe(w.loans, FRESH, FRESH);
  }

  // ---------- A liquidation whose loss exceeds its loan ----------

  /** After a hundred weeks two thirds of the debt are interest, and the collateral is worth next to nothing. */
  lemma StaleDebt()
    ensures Accrue(FRESH, 151_200_000) == Ok(Loan(NET_PLEDGE, 400_000_000, 800_000_000, 151_200_000))
    ensures Seize(Loan(NET_PLEDGE, 400_000_000, 800_000_000, 151_200_000), 100_000, 500_000_000_000_000)
      == Ok(Seizure(600_000_000, NET_PLEDGE, 9993, 599_990_007))
  {
    assert CalcInterest(400_000_000, 151_200_000) == Some(800_000_000);
    assert CalcCollateralValue(NET_PLEDGE, 100_000, 500_000_000_000_000) == Some(9993);
    assert CalcLtvBps(1_200_000_000, 9993) == Some(1_200_840_588);
    assert CalcCollateralToSeize(600_000_000, 500_000_000_000_000, 100_000) == Some(3_300_000_000_000_000_000);
    hide TorchMath.CalcInterest, TorchMath.CalcCollateralValue, TorchMath.CalcLtvBps, TorchMath.CalcCollateralToSeize;
  }

  /** The trader can pay for any liquidation of the scenarios. */
  lemma TraderSettles(w: World, s: Step, loan: Loan, cut: Seizure, sol: nat, lent: nat)
    requires InUse(w, sol, lent) && s.Liquidate? && s.liquidator == TRADER && s.route == Direct
    requires s.borrower in w.loans && loan.collateral == w.loans[s.borrower].collateral && cut.seized <= loan.collateral
    requires cut.covered <= 600_000_000_000
    ensures SettleLiquidation(w, s, loan, cut).Ok?
  {
    hide Reached, SettleLiquidation;
    CollateralIsHeld(w, s.borrower, 0);
    EveryReachedStateIsSound(w);
    SettlingSucceedsIff(w, s, loan, cut);
    hide BookSound, RewardProperties.PoolSound, CurveProperties.SupplyKept, BooksMatchCash;
  }

  /** Why losses must fit: a liquidation of one loan takes from the total what another borrower still owes. */
  lemma LossExceedsPrincipalExample() returns (w: World, s: Step)
    ensures Reached(w) && Exact(w)
    ensures s.Liquidate? && HandleLiquidate(w, s).Ok? && !Exact(HandleLiquidate(w, s).value)
  {
    hide Reached, Accrue, Seize, SettleLiquidation;
    var sol;
    w, sol := TwoFreshLoans();
    s := Liquidate(TRADER, 8, Direct, 151_200_000, 100_000, 500_000_000_000_000);
    StaleDebt();
    var loan, cut := Loan(NET_PLEDGE, 400_000_000, 800_000_000, 151_200_000),
      Seizure(600_000_000, NET_PLEDGE, 9993, 599_990_007);
    TraderSettles(w, s, loan, cut, sol, 800_000_000);
    EveryReachedStateIsSound(w);
    LiquidationIsExactIff(w, s, loan, cut);
    hide BookSound, RewardProperties.PoolSound, CurveProperties.SupplyKept, BooksMatchCash;
  }

  // ---------- A treasury that lends the same SOL twice ----------

  const YEARS: u64 := 1_058_400_000

  /**
   After seven hundred weeks the debt is fifteen times the principal, and the collateral is worth a twentieth
   of a SOL.
   */
  lemma AncientDebt(u: u64)
    requires 100_000_000 <= u <= 20_000_000_000
    ensures Accrue(Loan(NET_PLEDGE, 2 * u, 0, 0), YEARS) == Ok(Loan(NET_PLEDGE, 2 * u, 28 * u, YEARS))
    ensures Seize(Loan(NET_PLEDGE, 2 * u, 28 * u, YEARS), 500_000_000, 500_000_000_000_000)
      == Ok(Seizure(15 * u, NET_PLEDGE, 49_965_000, 15 * u - 49_965_000))
  {
    assert CalcInterest(2 * u, YEARS) == Some(28 * u);
    assert CalcCollateralValue(NET_PLEDGE, 500_000_000, 500_000_000_000_000) == Some(49_965_000);
    assert CalcLtvBps(30 * u, 49_965_000).Some? && CalcLtvBps(30 * u, 49_965_000).value > 6500;
    assert CalcCollateralToSeize(15 * u, 500_000_000_000_000, 500_000_000) == Some(16_500_000 * u);
    hide TorchMath.CalcInterest, TorchMath.CalcCollateralValue, TorchMath.CalcLtvBps, TorchMath.CalcCollateralToSeize;
  }

  /** The write-off empties the total although user 7 still owes twelve parts. */
  lemma Emptied(w: World, u: u64, sol: nat) returns (w': World)
    requires 100_000_000 <= u <= 20_000_000_000 && InUse(w, sol, 14 * u) && w.treasury.interest == 0
    requires w.loans == map[8 := Loan(NET_PLEDGE, 2 * u, 0, 0)][7 := Loan(NET_PLEDGE, 12 * u, 0, 0)]
    ensures InUse(w', sol + 49_965_000, 0)
    ensures w'.loans == w.loans[8 := Loan(0, 0, 0, YEARS)]
    ensures Get(w'.tokens.held, UserAta(8)) == Get(w.tokens.held, UserAta(8))
  {
    hide Accrue, Seize, SettleLiquidation, HandleLiquidate, InUse, AfterLiquidation, InterestPart, PrincipalPart;
    var s := Liquidate(TRADER, 8, Direct, YEARS, 500_000_000, 500_000_000_000_000);
    var loan, cut := Loan(NET_PLEDGE, 2 * u, 28 * u, YEARS),
      Seizure(15 * u, NET_PLEDGE, 49_965_000, 15 * u - 49_965_000);
    AncientDebt(u);
    WipedOut(u);
    w' := EmptiedBy(w, s, loan, cut, 14 * u, sol);
  }

  lemma EmptiedBy(w: World, s: Step, loan: Loan, cut: Seizure, lent: nat, sol: nat) returns (w': World)
    requires InUse(w, sol, lent) && w.treasury.interest == 0 && 7 in w.loans && 8 in w.loans
    requires s.Liquidate? && s.liquidator == TRADER && s.borrower == 8 && s.route == Direct && 0 < w.loans[8].borrowed
    requires Accrue(w.loans[8], s.slot) == Ok(loan) && Seize(loan, s.poolSol, s.poolTok) == Ok(cut)
    requires AfterLiquidation(loan, cut) == Loan(0, 0, 0, s.slot) && loan.collateral == w.loans[8].collateral
    requires cut.covered == InterestPart(loan, cut.covered) == 49_965_000
      && lent <= PrincipalPart(loan, cut) + cut.badDebt
    ensures InUse(w', sol + 49_965_000, 0)
    ensures w'.loans == w.loans[8 := Loan(0, 0, 0, s.slot)]
    ensures Get(w'.tokens.held, UserAta(8)) == Get(w.tokens.held, UserAta(8))
  {
    hide Reached, Accrue, Seize, Collect, SettleLiquidation, HandleLiquidate, InUse, AfterLiquidation, InterestPart,
      PrincipalPart, Apply;
    TraderSettles(w, s, loan, cut, sol, lent);
    PlannedLiquidation(w, s, loan, cut);
    w' := SettleLiquidation(w, s, loan, cut).value;
    LiquidationIsAStep(w, s);
    InUseIsReached(w, sol, lent);
    ReachedAgain(w, s);
    LiquidationBooks(w, s, loan, cut);
    OnlyTraderPays(w, s, loan, cut);
    EmptiedInUse(w, w', lent, sol, PrincipalPart(loan, cut) + cut.badDebt, cut.seized,
                 Debt(AfterLiquidation(loan, cut)) == 0);
  }

  lemma InUseIsReached(w: World, sol: nat, lent: nat)
    requires InUse(w, sol, lent)
    ensures Reached(w)
  {
  }

  lemma PlannedLiquidation(w: World, s: Step, loan: Loan, cut: Seizure)
    requires s.Liquidate? && s.borrower in w.loans && 0 < w.loans[s.borrower].borrowed
    requires Accrue(w.loans[s.borrower], s.slot) == Ok(loan) && Seize(loan, s.poolSol, s.poolTok) == Ok(cut)
    ensures cut.seized <= loan.collateral && HandleLiquidate(w, s) == SettleLiquidation(w, s, loan, cut)
  {
    hide Accrue, Seize, SettleLiquidation;
  }

  lemma WipedOut(u: u64)
    requires 100_000_000 <= u <= 20_000_000_000
    ensures var loan, cut := Loan(NET_PLEDGE, 2 * u, 28 * u, YEARS),
      Seizure(15 * u, NET_PLEDGE, 49_965_000, 15 * u - 49_965_000);
      && AfterLiquidation(loan, cut) == Loan(0, 0, 0, YEARS)
      && InterestPart(loan, cut.covered) == 49_965_000 && 14 * u <= PrincipalPart(loan, cut) + cut.badDebt
  {
  }

  lemma OnlyTraderPays(w: World, s: Step, loan: Loan, cut: Seizure)
    requires s.Liquidate? && s.liquidator == TRADER && s.route == Direct
    requires cut.seized <= loan.collateral && SettleLiquidation(w, s, loan, cut).Ok?
    ensures var wallets, wallets' := w.funds.wallets, SettleLiquidation(w, s, loan, cut).value.funds.wallets;
      && Get(wallets', 7) == Get(wallets, 7) && Get(wallets', 8) == Get(wallets, 8)
      && Get(wallets', TRADER) == Get(wallets, TRADER) - cut.covered
    ensures Get(SettleLiquidation(w, s, loan, cut).value.tokens.held, UserAta(8)) == Get(w.tokens.held, UserAta(8))
  {
    hide SettleLiquidation, Net;
    LiquidateExchange(w, s, loan, cut, Wallet(7), UserAta(8));
    LiquidateExchange(w, s, loan, cut, Wallet(8), UserAta(8));
    LiquidateExchange(w, s, loan, cut, Wallet(TRADER), UserAta(8));
  }

  lemma EmptiedInUse(w: World, w': World, lent: nat, sol: nat, loss: nat, unlocked: nat, closed: bool)
    requires InUse(w, sol, lent) && w.treasury.interest == 0 && Reached(w') && w'.curve == w.curve
    requires 7 in w.loans && 8 in w.loans && 7 in w'.loans && 8 in w'.loans
    requires lent <= loss && Collect(w.treasury, 49_965_000, 49_965_000, loss, unlocked, closed) == Ok(w'.treasury)
    requires Get(w'.funds.wallets, 7) == Get(w.funds.wallets, 7) && Get(w'.funds.wallets, 8) == Get(w.funds.wallets, 8)
    requires Get(w'.funds.wallets, TRADER) == Get(w.funds.wallets, TRADER) - 49_965_000
    ensures InUse(w', sol + 49_965_000, 0)
  {
    hide Reached;
  }

  lemma LiquidationIsAStep(w: World, s: Step)
    requires s.Liquidate? && HandleLiquidate(w, s).Ok?
    ensures Apply(w, s) == HandleLiquidate(w, s).value
  {
    hide HandleLiquidate;
  }

  /** Why the cover fails: the borrower whose debt was written off borrows again what the other one still owes. */
  lemma LentTwiceExample() returns (w: World)
    ensures Reached(w) && 5 * w.treasury.sol < Owing(w) && !Covered(w)
  {
    hide Reached, HandleBorrow;
    var w0 := SomeLendable();
    var u := w0.treasury.sol / 20;
    var w1 := TwoLoans(w0, 2 * u, 12 * u);
    var w2 := Emptied(w1, u, w0.treasury.sol - 14 * u);
    w := DeeplyBorrowed(w2, 8, 4 * u, YEARS, w0.treasury.sol - 14 * u + 49_965_000, 0);
    TwoOwe(w.loans, Loan(NET_PLEDGE, 4 * u, 0, YEARS), Loan(NET_PLEDGE, 12 * u, 0, 0));
  }

  // ---------- One borrower's cap and another's loan ----------

  /** Why caps are not independent: user 8 borrows, and what user 7 could borrow falls. */
  lemma CapFallsExample() returns (w: World, s: Step)
    ensures Reached(w) && s.Borrow? && s.user == 8 && HandleBorrow(w, s).Ok?
    ensures var before := UserBorrowCap(MaxLendable(w.treasury), NET_PLEDGE);
      var after := UserBorrowCap(MaxLendable(HandleBorrow(w, s).value.treasury), NET_PLEDGE);
      before.Ok? && after.Ok? && after.value < before.value
  {
    hide Reached, HandleBorrow, MaxLendable, UserBorrowCap;
    var w0 := SomeLendable();
    w := Shared(w0);
    s := DeepBorrow(8, PLEDGE, 400_000_000, 0);
    var w' := DeeplyBorrowed(w, 8, 400_000_000, 0, w0.treasury.sol, 0);
    BorrowLowersCaps(w, s, NET_PLEDGE);
  }

  // ---------- A pool too thin for the arithmetic ----------

  /** Why the bounds matter: a position far past the threshold that cannot be liquidated, as the seizure overflows. */
  lemma ThinPoolExample() returns (w: World, s: Step)
    ensures Reached(w)
    ensures s.Liquidate? && 0 < s.poolSol && 0 < s.poolTok && s.borrower in w.loans
      && Accrue(w.loans[s.borrower], s.slot).Ok?
    ensures var loan := Accrue(w.loans[s.borrower], s.slot).value;
      6501 * PoolValue(loan.collateral, s.poolSol, s.poolTok) <= Debt(loan) * 10_000
    ensures HandleLiquidate(w, s) == Err(MathOverflow)
  {
    hide Reached, Exact, Seize, SettleLiquidation, PoolValue;
    var sol;
    w, sol := TwoFreshLoans();
    s := Liquidate(TRADER, 8, Direct, 0, 100, 500_000_000_000_000);
    ThinPool();
  }

  lemma ThinPool()
    ensures Seize(FRESH, 100, 500_000_000_000_000) == Err(MathOverflow)
      && PoolValue(NET_PLEDGE, 100, 500_000_000_000_000) == 9
  {
    assert CalcCollateralValue(NET_PLEDGE, 100, 500_000_000_000_000) == Some(9);
    assert CalcLtvBps(400_000_000, 9) == Some(444_444_444_444);
    assert CalcCollateralToSeize(200_000_000, 500_000_000_000_000, 100) == None;
    hide TorchMath.CalcCollateralValue, TorchMath.CalcLtvBps, TorchMath.CalcCollateralToSeize;
  }

  // ---------- A liquidation that worsens health ----------

  /** Collateral worth 1.05 times the debt pays for half the debt with more than half of itself. */
  lemma BarelyCovered()
    ensures Accrue(FRESH, 0) == Ok(FRESH)
    ensures Seize(FRESH, 4_203_000_000, 500_000_000_000_000)
      == Ok(Seizure(200_000_000, 26_171_782_060_433, 200_000_000, 0))
    ensures AfterLiquidation(FRESH, Seizure(200_000_000, 26_171_782_060_433, 200_000_000, 0))
      == Loan(23_793_217_939_567, 200_000_000, 0, 0)
  {
    assert CalcCollateralValue(NET_PLEDGE, 4_203_000_000, 500_000_000_000_000) == Some(420_005_790);
    assert CalcLtvBps(400_000_000, 420_005_790) == Some(9523);
    assert CalcCollateralToSeize(200_000_000, 500_000_000_000_000, 4_203_000_000) == Some(26_171_782_060_433);
    hide TorchMath.CalcCollateralValue, TorchMath.CalcLtvBps, TorchMath.CalcCollateralToSeize;
  }

  /** Why cover matters: a successful liquidation after which there is more debt per token of collateral. */
  lemma HealthWorsensExample() returns (w: World, s: Step)
    ensures Reached(w) && s.Liquidate? && s.borrower in w.loans && HandleLiquidate(w, s).Ok?
    ensures s.borrower in HandleLiquidate(w, s).value.loans
    ensures LessHealthy(w.loans[s.borrower], HandleLiquidate(w, s).value.loans[s.borrower])
  {
    hide Reached, Exact, Accrue, Seize, SettleLiquidation, HandleLiquidate, AfterLiquidation, LessHealthy, InUse;
    var sol;
    w, sol := TwoFreshLoans();
    s := Liquidate(TRADER, 8, Direct, 0, 4_203_000_000, 500_000_000_000_000);
    BarelyCovered();
    var cut := Seizure(200_000_000, 26_171_782_060_433, 200_000_000, 0);
    TraderSettles(w, s, FRESH, cut, sol, 800_000_000);
    PlannedLiquidation(w, s, FRESH, cut);
    LiquidationBooks(w, s, FRESH, cut);
    HealthIsWorse();
    InUseIsReached(w, sol, 800_000_000);
  }

  lemma HealthIsWorse()
    ensures LessHealthy(FRESH, Loan(23_793_217_939_567, 200_000_000, 0, 0))
  {
  }

  // ---------- An idle position ----------

  /** Fifty weeks after a deposit without debt, a borrow of a third of the collateral's value. */
  lemma IdleInterest()
    ensures var borrowed := Loan(NET_PLEDGE, 1_700_000_000, 0, 0);
      var accrued := Loan(NET_PLEDGE, 1_700_000_000, 1_700_000_000, 75_600_000);
      && Accrue(borrowed, 75_600_000) == Ok(accrued)
      && Seize(accrued, 50_000_000_000, 500_000_000_000_000)
        == Ok(Seizure(1_700_000_000, 18_700_000_000_000, 1_700_000_000, 0))
  {
    assert CalcInterest(1_700_000_000, 75_600_000) == Some(1_700_000_000);
    assert CalcCollateralValue(NET_PLEDGE, 50_000_000_000, 500_000_000_000_000) == Some(4_996_500_000);
    assert CalcLtvBps(3_400_000_000, 4_996_500_000) == Some(6804);
    assert CalcCollateralToSeize(1_700_000_000, 500_000_000_000_000, 50_000_000_000) == Some(18_700_000_000_000);
    hide TorchMath.CalcInterest, TorchMath.CalcCollateralValue, TorchMath.CalcLtvBps, TorchMath.CalcCollateralToSeize;
  }

  lemma IdleLimits(sol: u64)
    requires sol <= 1_700_000_000
    ensures InBand(sol, NET_PLEDGE, 50_000_000_000, 500_000_000_000_000)
  {
    assert NET_PLEDGE * 50_000_000_000 / 500_000_000_000_000 == 4_996_500_000;
  }

  /** Why the clock matters: an idle position borrows within its limit and is liquidated in the same slot. */
  lemma IdlePositionExample() returns (w: World, b: Step, q: Step)
    ensures Reached(w)
    ensures b.Borrow? && b.user in w.loans && HandleBorrow(w, b).Ok?
    ensures q.Liquidate? && q.borrower == b.user && q.slot == b.slot && q.poolSol == b.poolSol && q.poolTok == b.poolTok
    ensures HandleLiquidate(HandleBorrow(w, b).value, q).Ok?
  {
    hide Reached, InBand, Net, Accrue, Seize, SettleLiquidation, HandleBorrow;
    var w0 := SomeLendable();
    var w1 := Shared(w0);
    var sol := w0.treasury.sol;
    PledgeIsNet();
    IdleLimits(0);
    IdleLimits(1_700_000_000);
    w := Borrowed(w1, Borrow(8, PLEDGE, 0, Direct, 0, 50_000_000_000, 500_000_000_000_000), sol, 0);
    b := Borrow(8, 0, 1_700_000_000, Direct, 75_600_000, 50_000_000_000, 500_000_000_000_000);
    q := Liquidate(TRADER, 8, Direct, 75_600_000, 50_000_000_000, 500_000_000_000_000);
    var w' := Borrowed(w, b, sol, 0);
    IdleInterest();
    TraderSettles(w', q, Loan(NET_PLEDGE, 1_700_000_000, 1_700_000_000, 75_600_000),
                  Seizure(1_700_000_000, 18_700_000_000_000, 1_700_000_000, 0), sol - 1_700_000_000, 1_700_000_000);
  }
}
