/**
 The handlers as functions from a world to the next one, or to the error that aborts the
 transaction. `Apply` leaves the world unchanged on an error, as the chain does.
 */
module Program {
  import opened Base
  import opened Constants
  import opened TorchMath
  import opened TokenLedger
  import opened Wallets
  import opened Accounts
  import opened BondingCurve
  import opened Lending
  import FloorDivision

  /** Whether a trader acts from their own wallet or through a Torch vault. */
  datatype Route = Direct | Via(vault: Key)

  function PurseOf(user: Key, route: Route): Purse {
    match route
    case Direct => Wallet(user)
    case Via(v) => TorchVault(v)
  }

  function AtaOf(user: Key, route: Route): Holder {
    match route
    case Direct => UserAta(user)
    case Via(v) => VaultAta(v)
  }

  datatype Step =
    | Buy(buyer: Key, sol: u64, minTokens: u64, route: Route, tokensToVault: bool, tracked: bool, slot: u64)
    | Sell(seller: Key, amount: u64, minSol: u64, route: Route, tracked: bool, withProtocol: bool, slot: u64)
    | Migrate(cost: u64)
    | Reclaim(slot: u64)
    | Revive(contributor: Key, sol: u64, slot: u64)
    | Star(user: Key, route: Route)
    | Borrow(user: Key, collateral: u64, sol: u64, route: Route, slot: u64, poolSol: u64, poolTok: u64)
    | Repay(user: Key, sol: u64, route: Route, slot: u64)
    | Liquidate(liquidator: Key, borrower: Key, route: Route, slot: u64, poolSol: u64, poolTok: u64)
    | PostShort(user: Key, sol: u64, route: Route)
    | ReleaseShort(user: Key, sol: u64, to: Purse)
    | AdvanceEpoch(now: i64)
    | Claim(user: Key, route: Route)
    | CreateVault(user: Key)
    | DepositVault(user: Key, vault: Key, sol: u64)
    | WithdrawVault(user: Key, vault: Key, sol: u64)
    | TransferTokens(from: Holder, dest: Holder, amount: u64)
    | TransferSol(payer: Key, payee: Key, sol: u64)
    | BuyElsewhere(buyer: Key, sol: u64, fee: u64, devShare: u64, creator: Key, creatorShare: u64, route: Route,
                   tracked: bool)
    | SellElsewhere(seller: Key, sol: u64, route: Route, tracked: bool, withProtocol: bool)
    | ReclaimElsewhere(sol: u64)

  predicate IsElsewhere(s: Step) {
    s.BuyElsewhere? || s.SellElsewhere? || s.ReclaimElsewhere?
  }

  // ---------- Trading on the curve ----------

  /** Adds a trade to a trader's volume, first rolling the epoch counters over. */
  function RecordVolume(s: Stats, amount: u64, epoch: u64): (r: Result<Stats>)
    ensures r.Ok? ==> r.value.claimed == s.claimed && r.value.lastClaimed == s.lastClaimed
  {
    var total :- CheckedAdd(s.totalVolume, amount);
    var rolled := if s.lastVolumeEpoch < epoch then s.(volumePrevious := s.volumeCurrent, volumeCurrent := 0) else s;
    var current :- CheckedAdd(rolled.volumeCurrent, amount);
    Ok(rolled.(totalVolume := total, volumeCurrent := current, lastVolumeEpoch := epoch))
  }

  function StatsOf(w: World, user: Key): Stats {
    if user in w.stats then w.stats[user] else NO_STATS
  }

  /** A buy's payments leave the payer; the dev wallet and the creator are paid in the same breath. */
  function PayForBuy(f: Funds, s: Step, q: BuyQuote, config: Config): (r: Result<Funds>)
    requires s.Buy?
    ensures r.Ok? && q.toCurve + q.toTreasury + q.toCreator + q.devShare + q.protocolFee == s.sol ==>
      Total(r.value) + q.toCurve + q.toTreasury + q.protocolFee == Total(f)
    ensures forall rent: nat :: r.Ok? && AllBooks(f.vaults, rent) ==> AllBooks(r.value.vaults, rent)
  {
    match s.route
    case Via(v) =>
      var paid :- Pay(f, TorchVault(v), s.sol);
      var dev :- Credit(paid, config.dev, q.devShare);
      Credit(dev, config.creator, q.toCreator)
    case Direct =>
      var dev :- PayUpToDev(f, s, q, config);
      var protocol :- Debit(dev, s.buyer, q.protocolFee);
      var creator :- Debit(protocol, s.buyer, q.toCreator);
      Credit(creator, config.creator, q.toCreator)
  }

  /** The first payments from a wallet: to the curve, the treasury and the dev wallet. */
  function PayUpToDev(f: Funds, s: Step, q: BuyQuote, config: Config): (r: Result<Funds>)
    requires s.Buy?
    ensures r.Ok? ==> Total(r.value) + q.toCurve + q.toTreasury == Total(f) && r.value.vaults == f.vaults
  {
    var curve :- Debit(f, s.buyer, q.toCurve);
    var treasury :- Debit(curve, s.buyer, q.toTreasury);
    var dev :- Debit(treasury, s.buyer, q.devShare);
    Credit(dev, config.dev, q.devShare)
  }

  /** A vault must hold the whole amount before a buy starts. */
  predicate VaultCovers(f: Funds, route: Route, sol: u64) {
    route.Via? ==> route.vault in f.vaults && sol <= f.vaults[route.vault].sol
  }

  function HandleBuy(w: World, s: Step): (r: Result<World>)
    requires s.Buy?
  {
    var _ :- Require(!w.curve.complete, BondingComplete);
    var _ :- Require(!w.curve.reclaimed, AlreadyReclaimed);
    var _ :- Require(MIN_SOL_AMOUNT <= s.sol, AmountTooSmall);
    var _ :- Require(s.tokensToVault ==> s.route.Via?, WalletNotLinked);
    var _ :- Require(VaultCovers(w.funds, s.route, s.sol), InsufficientVaultBalance);
    var q :- QuoteBuy(w.curve, w.treasury.community, s.sol);
    SettleBuy(w, s, q)
  }

  /** The token account a buy is delivered to. */
  function Destination(s: Step): Holder
    requires s.Buy?
  {
    if s.tokensToVault then AtaOf(s.buyer, s.route) else UserAta(s.buyer)
  }

  function SettleBuy(w: World, s: Step, q: BuyQuote): (r: Result<World>)
    requires s.Buy?
  {
    var _ :- Require(q.tokensOut <= w.curve.rtok, InsufficientTokens);
    var _ :- Require(s.minTokens <= q.tokensOut, SlippageExceeded);
    var balance :- CheckedAdd(Get(w.tokens.held, Destination(s)), q.tokensOut);
    var _ :- Require(balance <= MAX_WALLET_TOKENS, MaxWalletExceeded);
    var tokens :- FromCurve(w.tokens, Destination(s), q.tokensOut);
    var funds :- PayForBuy(w.funds, s, q, w.config);
    BookBuy(w, s, q, tokens, funds)
  }

  /** The program's own books after a buy whose tokens and payments have moved. */
  function BookBuy(w: World, s: Step, q: BuyQuote, tokens: Tokens, funds: Funds): (r: Result<World>)
    requires s.Buy?
  {
    var curve :- AfterBuy(w.curve, q.toCurve, q.tokensOut, s.slot);
    var treasuryLamports :- CheckedAdd(w.treasury.lamports, q.toTreasury);
    var treasurySol :- CheckedAdd(w.treasury.sol, q.toTreasury);
    var protocolLamports :- CheckedAdd(w.protocol.lamports, q.protocolFee);
    var fees :- CheckedAdd(w.protocol.feesReceived, q.protocolFee);
    var stats :- if s.tracked then RecordVolume(StatsOf(w, s.buyer), s.sol, w.protocol.epoch) else Ok(NO_STATS);
    var volume :- CheckedAdd(w.protocol.volumeCurrent, s.sol);
    Ok(w.(curve := curve,
          treasury := w.treasury.(lamports := treasuryLamports, sol := treasurySol),
          protocol := w.protocol.(lamports := protocolLamports, feesReceived := fees, volumeCurrent := volume),
          stats := if s.tracked then w.stats[s.buyer := stats] else w.stats,
          tokens := tokens,
          funds := funds))
  }

  function HandleSell(w: World, s: Step): (r: Result<World>)
    requires s.Sell?
  {
    var _ :- Require(!w.curve.complete, BondingComplete);
    var _ :- Require(!w.curve.reclaimed, AlreadyReclaimed);
    var _ :- Require(s.tracked ==> s.seller in w.stats, AccountNotInitialized);
    var _ :- Require(0 < s.amount, ZeroAmount);
    var source := AtaOf(s.seller, s.route);
    var _ :- Require(s.amount <= Get(w.tokens.held, source), InsufficientTokens);
    var solOut :- QuoteSell(w.curve, s.amount);
    var fee :- CalcFlatFee(solOut, SELL_FEE_BPS).OkOr(MathOverflow);
    var _ :- Require(solOut <= w.curve.rsol, InsufficientSol);
    var _ :- Require(s.minSol <= solOut - fee, SlippageExceeded);
    SettleSell(w, s, solOut, fee)
  }

  /** The transfers and the books of a sale whose guards have passed. */
  function SettleSell(w: World, s: Step, solOut: u64, fee: u64): (r: Result<World>)
    requires s.Sell? && fee <= solOut && s.amount <= Get(w.tokens.held, AtaOf(s.seller, s.route))
      && (s.tracked ==> s.seller in w.stats)
  {
    var source := AtaOf(s.seller, s.route);
    var tokens := ToCurve(w.tokens, source, s.amount).value;
    var funds :- PayOut(w.funds, PurseOf(s.seller, s.route), solOut - fee);
    var curve :- AfterSell(w.curve, solOut, s.amount, s.slot);
    var treasuryLamports :- CheckedAdd(w.treasury.lamports, fee);
    var treasurySol :- CheckedAdd(w.treasury.sol, fee);
    var counted := s.tracked && s.withProtocol;
    var stats :- if counted then RecordVolume(w.stats[s.seller], solOut, w.protocol.epoch) else Ok(NO_STATS);
    var volume :- if s.withProtocol then CheckedAdd(w.protocol.volumeCurrent, solOut) else Ok(w.protocol.volumeCurrent);
    Ok(w.(curve := curve,
          treasury := w.treasury.(lamports := treasuryLamports, sol := treasurySol),
          protocol := w.protocol.(volumeCurrent := volume),
          stats := if counted then w.stats[s.seller := stats] else w.stats,
          tokens := tokens,
          funds := funds))
  }

  // ---------- Migration, reclaim and revival ----------

  /** fund_migration_wsol and migrate_to_dex, which run in one transaction. */
  function HandleMigrate(w: World, s: Step): (r: Result<World>)
    requires s.Migrate?
  {
    var _ :- Require(w.curve.complete, BondingNotComplete);
    var _ :- Require(!w.curve.migrated, AlreadyMigrated);
    var _ :- Require(MIN_MIGRATION_SOL <= w.treasury.sol, InsufficientMigrationFee);
    MoveLiquidity(w, s)
  }

  /** The curve's real SOL and the matching tokens move to the pool; the treasury pays the cost. */
  function MoveLiquidity(w: World, s: Step): (r: Result<World>)
    requires s.Migrate?
  {
    var curveLamports :- CheckedSub(w.curve.lamports, w.curve.rsol);
    var matched :- CalcTokensForPool(w.curve.rsol, w.curve.vtok, w.curve.vsol).OkOr(MathOverflow);
    var seeded := Min(matched, w.tokens.curveVault);
    var treasuryLamports :- CheckedSub(w.treasury.lamports, s.cost, InsufficientMigrationFee);
    var treasurySol :- CheckedSub(w.treasury.sol, s.cost, InsufficientMigrationFee);
    Ok(w.(curve := w.curve.(lamports := curveLamports, migrated := true, rsol := 0, rtok := 0),
          treasury := w.treasury.(lamports := treasuryLamports, sol := treasurySol,
                                  baselineSol := w.curve.rsol, baselineTok := Net(Net(seeded)), baselineSet := true),
          tokens := SeedPool(w.tokens, seeded),
          outside := w.outside + w.curve.rsol + s.cost))
  }

  function HandleReclaim(w: World, s: Step): (r: Result<World>)
    requires s.Reclaim?
  {
    var _ :- Require(!w.curve.complete, BondingComplete);
    var _ :- Require(!w.curve.reclaimed, AlreadyReclaimed);
    var _ :- Require(INACTIVITY_PERIOD_SLOTS <= SaturatingSub(s.slot, w.curve.lastActivity), TokenStillActive);
    var total :- CheckedAdd(w.curve.rsol, w.treasury.sol);
    var _ :- Require(MIN_RECLAIM_THRESHOLD <= total, BelowReclaimThreshold);
    var curveLamports :- CheckedSub(w.curve.lamports, w.curve.rsol);
    var treasuryLamports :- CheckedSub(w.treasury.lamports, w.treasury.sol);
    var protocolLamports :- CheckedAdd(w.protocol.lamports, total);
    var fees :- CheckedAdd(w.protocol.feesReceived, total);
    Ok(w.(curve := w.curve.(lamports := curveLamports, rsol := 0, reclaimed := true),
          treasury := w.treasury.(lamports := treasuryLamports, sol := 0),
          protocol := w.protocol.(lamports := protocolLamports, feesReceived := fees)))
  }

  function HandleRevive(w: World, s: Step): (r: Result<World>)
    requires s.Revive?
  {
    var _ :- Require(w.curve.reclaimed, TokenNotReclaimed);
    var _ :- Require(MIN_SOL_AMOUNT <= s.sol, AmountTooSmall);
    var funds :- Debit(w.funds, s.contributor, s.sol);
    var lamports :- CheckedAdd(w.curve.lamports, s.sol);
    var rsol :- CheckedAdd(w.curve.rsol, s.sol);
    var revived := InitialVirtualReserves(w.curve.target).0 <= rsol;
    Ok(w.(curve := w.curve.(lamports := lamports, rsol := rsol,
                            reclaimed := !revived,
                            lastActivity := if revived then s.slot else w.curve.lastActivity),
          funds := funds))
  }

  function HandleStar(w: World, s: Step): (r: Result<World>)
    requires s.Star?
  {
    var _ :- Require(s.user != w.config.creator, CannotStarSelf);
    var _ :- Require(s.user !in w.starred, AccountInUse);
    var paid :- Pay(w.funds, PurseOf(s.user, s.route), STAR_COST_LAMPORTS);
    var lamports :- CheckedAdd(w.treasury.lamports, STAR_COST_LAMPORTS);
    var starSol :- CheckedAdd(w.treasury.starSol, STAR_COST_LAMPORTS);
    var stars :- CheckedAdd(w.treasury.stars, 1);
    var payout := if CREATOR_REWARD_THRESHOLD <= stars && !w.treasury.paidOut then starSol else 0;
    var lamports' :- CheckedSub(lamports, payout);
    var funds :- if payout > 0 then Credit(paid, w.config.creator, payout) else Ok(paid);
    Ok(w.(treasury := w.treasury.(lamports := lamports', starSol := starSol - payout, stars := stars,
                                  paidOut := w.treasury.paidOut || payout > 0),
          starred := w.starred + {s.user},
          funds := funds))
  }

  // ---------- Lending ----------

  /** Short sellers' collateral sits in the same balance but may not be lent. */
  function Reserved(t: Treasury): u64 {
    if t.shortsEnabled then t.shortReserved else 0
  }

  function MaxLendable(t: Treasury): (r: u64)
    ensures r * 10 <= SaturatingSub(t.sol, Reserved(t)) * 8
  {
    SaturatingSub(t.sol, Reserved(t)) * LENDING_UTILIZATION_CAP_BPS / 10_000
  }

  /** A user's share of the lendable SOL; the cast back to u64 can wrap, and does so here too. */
  function UserBorrowCap(maxLendable: u64, collateral: u64): (r: Result<u64>)
  {
    FloorDivision.NonNegative(maxLendable, collateral);
    var product := maxLendable * collateral;
    if product * BORROW_SHARE_MULTIPLIER > U128_MAX then Err(MathOverflow)
    else Ok(product * BORROW_SHARE_MULTIPLIER / TOTAL_SUPPLY % U64_MODULUS)
  }

  /** The treasury's side of lending `sol` against a loan: caps first, then the books. */
  function Lend(t: Treasury, loan: Loan, collateral: u64, sol: u64): (r: Result<Treasury>)
    ensures r.Ok? ==> r.value == t.(sol := r.value.sol, lent := r.value.lent, lamports := r.value.lamports)
    ensures r.Ok? ==> r.value.sol + sol == t.sol && r.value.lent == t.lent + sol && r.value.lamports + sol == t.lamports
    ensures r.Ok? && sol > 0 ==> t.lent + sol <= MaxLendable(t)
  {
    if sol == 0 then Ok(t)
    else
      var lent :- CheckedAdd(t.lent, sol);
      var _ :- Require(lent <= MaxLendable(t), LendingCapExceeded);
      var owed :- CheckedAdd(loan.borrowed, sol);
      var userCap :- UserBorrowCap(MaxLendable(t), collateral);
      var _ :- Require(owed <= userCap, UserBorrowCapExceeded);
      var lamports :- CheckedSub(t.lamports, sol, InsufficientTreasury);
      var left :- CheckedSub(t.sol, sol, InsufficientTreasury);
      Ok(t.(sol := left, lent := lent, lamports := lamports))
  }

  function LoanOf(w: World, user: Key): Loan {
    if user in w.loans then w.loans[user] else NO_LOAN
  }

  /** The loan-to-value limit for the position as it will be after the borrow. */
  function WithinLtv(loan: Loan, collateral: u64, sol: u64, poolSol: u64, poolTok: u64): (r: Result<bool>)
    ensures r.Ok? ==> r.value
  {
    var _ :- Require(poolSol > 0 && poolTok > 0, ZeroPoolReserves);
    var _ :- Require(DepthMaxLtvBps(poolSol) > 0, PoolTooThin);
    var value :- CalcCollateralValue(collateral, poolSol, poolTok).OkOr(MathOverflow);
    var owed :- CheckedAdd(loan.borrowed, loan.accrued);
    var debt :- CheckedAdd(owed, sol);
    var ltv :- CalcLtvBps(debt, value).OkOr(MathOverflow);
    var _ :- Require(ltv <= Min(DepthMaxLtvBps(poolSol), MAX_LTV_BPS), LtvExceeded);
    Ok(true)
  }

  function HandleBorrow(w: World, s: Step): (r: Result<World>)
    requires s.Borrow?
    ensures r.Ok? ==> s.user in r.value.loans
  {
    var _ :- Require(w.curve.migrated, LendingRequiresMigration);
    var _ :- Require(!w.curve.reclaimed, AlreadyReclaimed);
    var _ :- Require(s.collateral > 0 || s.sol > 0, EmptyBorrowRequest);
    var _ :- Require(s.sol > 0 ==> MIN_BORROW_AMOUNT <= s.sol, BorrowTooSmall);
    var loan :- Accrue(LoanOf(w, s.user), s.slot);
    SettleBorrow(w, s, loan)
  }

  function SettleBorrow(w: World, s: Step, loan: Loan): (r: Result<World>)
    requires s.Borrow?
    ensures r.Ok? ==> s.user in r.value.loans
  {
    var tokens :- if s.collateral > 0 then ToCollateral(w.tokens, AtaOf(s.user, s.route), s.collateral)
      else Ok(w.tokens);
    var deposited := if s.collateral > 0 then Net(s.collateral) else 0;
    var collateral :- CheckedAdd(loan.collateral, deposited);
    var _ :- WithinLtv(loan, collateral, s.sol, s.poolSol, s.poolTok);
    var treasury :- Lend(w.treasury, loan, collateral, s.sol);
    var funds :- if s.sol > 0 then PayOut(w.funds, PurseOf(s.user, s.route), s.sol) else Ok(w.funds);
    BookLoan(w.(treasury := treasury, tokens := tokens, funds := funds), s, loan.(collateral := collateral), deposited)
  }

  /** The position and the aggregates after a borrow whose collateral and payment have moved. */
  function BookLoan(w: World, s: Step, loan: Loan, deposited: u64): (r: Result<World>)
    requires s.Borrow?
    ensures r.Ok? ==> s.user in r.value.loans && r.value == w.(loans := r.value.loans, treasury := r.value.treasury)
  {
    var isNew := s.user !in w.loans;
    var borrowed :- CheckedAdd(loan.borrowed, s.sol);
    var locked :- CheckedAdd(w.treasury.locked, deposited);
    var activeLoans :- CheckedAdd(w.treasury.activeLoans, if isNew then 1 else 0);
    Ok(w.(loans := w.loans[s.user := loan.(borrowed := borrowed, lastSlot := if isNew then s.slot else loan.lastSlot)],
          treasury := w.treasury.(locked := locked, activeLoans := activeLoans)))
  }

  /** The treasury's side of money coming back on a loan. */
  function Collect(t: Treasury, paid: u64, interestPart: nat, principalLoss: nat, unlocked: nat,
                   closed: bool): (r: Result<Treasury>)
  {
    var lamports :- CheckedAdd(t.lamports, paid);
    var sol :- CheckedAdd(t.sol, paid);
    var interest :- CheckedAdd(t.interest, interestPart);
    Ok(t.(lamports := lamports, sol := sol, interest := interest,
          lent := SaturatingSub(t.lent, principalLoss),
          locked := SaturatingSub(t.locked, unlocked),
          activeLoans := SaturatingSub(t.activeLoans, if closed then 1 else 0)))
  }

  function HandleRepay(w: World, s: Step): (r: Result<World>)
    requires s.Repay?
  {
    var _ :- Require(s.user in w.loans && w.loans[s.user].borrowed > 0, NoActiveLoan);
    var _ :- Require(0 < s.sol, ZeroAmount);
    var loan :- Accrue(w.loans[s.user], s.slot);
    SettleRepayment(w, s, loan)
  }

  function SettleRepayment(w: World, s: Step, loan: Loan): (r: Result<World>)
    requires s.Repay?
  {
    var owed :- CheckedAdd(loan.borrowed, loan.accrued);
    var full := owed <= s.sol;
    var paid := Min(s.sol, owed);
    var tokens :- if full then FromCollateral(w.tokens, AtaOf(s.user, s.route), loan.collateral) else Ok(w.tokens);
    var funds :- Pay(w.funds, PurseOf(s.user, s.route), paid);
    var treasury :- Collect(w.treasury, paid, InterestPart(loan, paid), paid - InterestPart(loan, paid),
                            if full then loan.collateral else 0, full);
    Ok(w.(loans := if full then w.loans - {s.user} else w.loans[s.user := AfterPayment(loan, paid)],
          treasury := treasury,
          tokens := tokens,
          funds := funds))
  }

  function HandleLiquidate(w: World, s: Step): (r: Result<World>)
    requires s.Liquidate?
  {
    var _ :- Require(s.borrower in w.loans && w.loans[s.borrower].borrowed > 0, NoActiveLoan);
    var loan :- Accrue(w.loans[s.borrower], s.slot);
    var cut :- Seize(loan, s.poolSol, s.poolTok);
    SettleLiquidation(w, s, loan, cut)
  }

  function SettleLiquidation(w: World, s: Step, loan: Loan, cut: Seizure): (r: Result<World>)
    requires s.Liquidate? && cut.seized <= loan.collateral
  {
    var tokens :- if cut.seized > 0 then FromCollateral(w.tokens, AtaOf(s.liquidator, s.route), cut.seized)
      else Ok(w.tokens);
    var funds :- if cut.covered > 0 then Pay(w.funds, PurseOf(s.liquidator, s.route), cut.covered) else Ok(w.funds);
    var after := AfterLiquidation(loan, cut);
    var treasury :- Collect(w.treasury, cut.covered, InterestPart(loan, cut.covered),
                            PrincipalPart(loan, cut) + cut.badDebt,
                            cut.seized, Debt(after) == 0);
    Ok(w.(loans := w.loans[s.borrower := after],
          treasury := treasury,
          tokens := tokens,
          funds := funds))
  }

  /** The SOL leg of open_short: collateral enters the treasury and is reserved. */
  function HandlePostShort(w: World, s: Step): (r: Result<World>)
    requires s.PostShort?
  {
    var _ :- Require(w.curve.migrated, NotMigrated);
    var _ :- Require(!w.curve.reclaimed, AlreadyReclaimed);
    var _ :- Require(w.treasury.shortsEnabled, ShortNotEnabled);
    var _ :- Require(0 < s.sol, EmptyBorrowRequest);
    var funds :- Pay(w.funds, PurseOf(s.user, s.route), s.sol);
    var lamports :- CheckedAdd(w.treasury.lamports, s.sol);
    var position :- CheckedAdd(Get(w.shorts, s.user), s.sol);
    var sol :- CheckedAdd(w.treasury.sol, s.sol);
    var reserved :- CheckedAdd(w.treasury.shortReserved, s.sol);
    Ok(w.(shorts := w.shorts[s.user := position],
          treasury := w.treasury.(lamports := lamports, sol := sol, shortReserved := reserved),
          funds := funds))
  }

  /** The SOL leg of close_short and liquidate_short: part or all of a position's collateral leaves. */
  function HandleReleaseShort(w: World, s: Step): (r: Result<World>)
    requires s.ReleaseShort?
  {
    var _ :- Require(s.sol <= Get(w.shorts, s.user), NoActiveShort);
    var lamports :- CheckedSub(w.treasury.lamports, s.sol);
    var funds :- PayOut(w.funds, s.to, s.sol);
    var sol :- CheckedSub(w.treasury.sol, s.sol);
    Ok(w.(shorts := w.shorts[s.user := Get(w.shorts, s.user) - s.sol],
          treasury := w.treasury.(lamports := lamports, sol := sol,
                                  shortReserved := SaturatingSub(w.treasury.shortReserved, s.sol)),
          funds := funds))
  }

  // ---------- Epoch rewards ----------

  function HandleAdvanceEpoch(w: World, s: Step): (r: Result<World>)
    requires s.AdvanceEpoch?
  {
    var elapsed := s.now - w.protocol.lastEpochTs;
    var _ :- Require(-0x8000_0000_0000_0000 <= elapsed <= 0x7FFF_FFFF_FFFF_FFFF, MathOverflow);
    var _ :- Require(EPOCH_DURATION_SECONDS <= elapsed, EpochNotComplete);
    var epoch :- CheckedAdd(w.protocol.epoch, 1);
    var available := SaturatingSub(w.protocol.lamports, w.config.protocolRent);
    Ok(w.(protocol := w.protocol.(volumePrevious := w.protocol.volumeCurrent,
                                  balance := available,
                                  distributable := SaturatingSub(available, w.protocol.floor),
                                  volumeCurrent := 0,
                                  epoch := epoch,
                                  lastEpochTs := s.now)))
  }

  /** A claimant's counters with their last active epoch moved into the previous slot. */
  function RolledForClaim(stats: Stats, epoch: u64): Stats {
    if stats.lastVolumeEpoch < epoch && stats.volumeCurrent > 0 then
      stats.(volumePrevious := stats.volumeCurrent, volumeCurrent := 0, lastVolumeEpoch := epoch)
    else stats
  }

  function HandleClaim(w: World, s: Step): (r: Result<World>)
    requires s.Claim?
  {
    var _ :- Require(s.user in w.stats, AccountNotInitialized);
    var _ :- Require(w.protocol.epoch > 0, NoRewardsAvailable);
    var stats := RolledForClaim(w.stats[s.user], w.protocol.epoch);
    var _ :- Require(stats.lastClaimed < w.protocol.epoch - 1, AlreadyClaimed);
    var _ :- Require(w.protocol.distributable > 0, NoRewardsAvailable);
    var _ :- Require(stats.volumePrevious > 0, NoVolumeInEpoch);
    var _ :- Require(MIN_EPOCH_VOLUME_ELIGIBILITY <= stats.volumePrevious, InsufficientVolumeForRewards);
    var _ :- Require(w.protocol.volumePrevious > 0, NoVolumeInEpoch);
    var amount :- CalcClaimWithCap(stats.volumePrevious, w.protocol.distributable,
                                   w.protocol.volumePrevious).OkOr(MathOverflow);
    var _ :- Require(MIN_CLAIM_AMOUNT <= amount, ClaimBelowMinimum);
    PayClaim(w, s, stats, amount)
  }

  /** The payment of a claim and its books. */
  function PayClaim(w: World, s: Step, stats: Stats, amount: u64): (r: Result<World>)
    requires s.Claim? && 0 < w.protocol.epoch
  {
    var lamports :- CheckedSub(w.protocol.lamports, amount);
    var funds :- PayOut(w.funds, PurseOf(s.user, s.route), amount);
    var distributed :- CheckedAdd(w.protocol.distributed, amount);
    var claimed :- CheckedAdd(stats.claimed, amount);
    Ok(w.(protocol := w.protocol.(lamports := lamports,
                                  balance := SaturatingSub(w.protocol.balance, amount),
                                  distributable := SaturatingSub(w.protocol.distributable, amount),
                                  distributed := distributed),
          stats := w.stats[s.user := stats.(lastClaimed := w.protocol.epoch - 1, claimed := claimed,
                                            volumePrevious := 0)],
          funds := funds))
  }

  // ---------- Vaults and plain transfers ----------

  function WithFunds(w: World, f: Result<Funds>): Result<World> {
    match f
    case Ok(funds) => Ok(w.(funds := funds))
    case Err(e) => Err(e)
  }

  /** Before migration there is no pool to trade with, and locked tokens are not lent. */
  function HandleTransferTokens(w: World, s: Step): (r: Result<World>)
    requires s.TransferTokens?
  {
    var _ :- Require(w.curve.migrated
                     || (s.from != DexPool && s.from != TreasuryLock && s.dest != DexPool), NotMigrated);
    var tokens :- Move(w.tokens, s.from, s.dest, s.amount);
    Ok(w.(tokens := tokens))
  }

  function TransferBetween(f: Funds, payer: Key, payee: Key, sol: u64): (r: Result<Funds>)
    ensures r.Ok? ==> Total(r.value) == Total(f) && r.value.vaults == f.vaults
  {
    var paid :- Debit(f, payer, sol);
    Credit(paid, payee, sol)
  }

  // ---------- Other tokens ----------

  /**
   A buy of another token: it shares the trader's statistics, the protocol treasury and the dev wallet with
   this one.
   */
  function HandleBuyElsewhere(w: World, s: Step): (r: Result<World>)
    requires s.BuyElsewhere?
  {
    var _ :- Require(s.fee + s.devShare + s.creatorShare <= s.sol, MathOverflow);
    var paid :- Pay(w.funds, PurseOf(s.buyer, s.route), s.sol);
    var dev :- Credit(paid, w.config.dev, s.devShare);
    var funds :- Credit(dev, s.creator, s.creatorShare);
    var lamports :- CheckedAdd(w.protocol.lamports, s.fee);
    var fees :- CheckedAdd(w.protocol.feesReceived, s.fee);
    var stats :- if s.tracked then RecordVolume(StatsOf(w, s.buyer), s.sol, w.protocol.epoch) else Ok(NO_STATS);
    var volume :- CheckedAdd(w.protocol.volumeCurrent, s.sol);
    Ok(w.(protocol := w.protocol.(lamports := lamports, feesReceived := fees, volumeCurrent := volume),
          stats := if s.tracked then w.stats[s.buyer := stats] else w.stats,
          funds := funds,
          outside := w.outside + (s.sol - s.fee - s.devShare - s.creatorShare)))
  }

  /** A sale of another token, paid from that token's curve. */
  function HandleSellElsewhere(w: World, s: Step): (r: Result<World>)
    requires s.SellElsewhere?
  {
    var _ :- Require(s.tracked ==> s.seller in w.stats, AccountNotInitialized);
    var _ :- Require(s.sol <= w.outside, InsufficientSol);
    var funds :- PayOut(w.funds, PurseOf(s.seller, s.route), s.sol);
    var counted := s.tracked && s.withProtocol;
    var stats :- if counted then RecordVolume(w.stats[s.seller], s.sol, w.protocol.epoch) else Ok(NO_STATS);
    var volume :- if s.withProtocol then CheckedAdd(w.protocol.volumeCurrent, s.sol) else Ok(w.protocol.volumeCurrent);
    Ok(w.(protocol := w.protocol.(volumeCurrent := volume),
          stats := if counted then w.stats[s.seller := stats] else w.stats,
          funds := funds,
          outside := w.outside - s.sol))
  }

  /** Another token is reclaimed: its SOL reaches the shared protocol treasury. */
  function HandleReclaimElsewhere(w: World, s: Step): (r: Result<World>)
    requires s.ReclaimElsewhere?
  {
    var _ :- Require(s.sol <= w.outside, InsufficientSol);
    var lamports :- CheckedAdd(w.protocol.lamports, s.sol);
    var fees :- CheckedAdd(w.protocol.feesReceived, s.sol);
    Ok(w.(protocol := w.protocol.(lamports := lamports, feesReceived := fees), outside := w.outside - s.sol))
  }

  // ---------- Runs ----------

  function Handle(w: World, s: Step): Result<World> {
    match s
    case Buy(_, _, _, _, _, _, _) => HandleBuy(w, s)
    case Sell(_, _, _, _, _, _, _) => HandleSell(w, s)
    case Migrate(_) => HandleMigrate(w, s)
    case Reclaim(_) => HandleReclaim(w, s)
    case Revive(_, _, _) => HandleRevive(w, s)
    case Star(_, _) => HandleStar(w, s)
    case Borrow(_, _, _, _, _, _, _) => HandleBorrow(w, s)
    case Repay(_, _, _, _) => HandleRepay(w, s)
    case Liquidate(_, _, _, _, _, _) => HandleLiquidate(w, s)
    case PostShort(_, _, _) => HandlePostShort(w, s)
    case ReleaseShort(_, _, _) => HandleReleaseShort(w, s)
    case AdvanceEpoch(_) => HandleAdvanceEpoch(w, s)
    case Claim(_, _) => HandleClaim(w, s)
    case CreateVault(user) => WithFunds(w, Create(w.funds, user, w.config.vaultRent))
    case DepositVault(user, vault, sol) => WithFunds(w, Deposit(w.funds, user, vault, sol))
    case WithdrawVault(user, vault, sol) => WithFunds(w, Withdraw(w.funds, user, vault, sol))
    case TransferTokens(_, _, _) => HandleTransferTokens(w, s)
    case TransferSol(payer, payee, sol) => WithFunds(w, TransferBetween(w.funds, payer, payee, sol))
    case BuyElsewhere(_, _, _, _, _, _, _, _) => HandleBuyElsewhere(w, s)
    case SellElsewhere(_, _, _, _, _) => HandleSellElsewhere(w, s)
    case ReclaimElsewhere(_) => HandleReclaimElsewhere(w, s)
  }

  /** One transaction: a failing handler changes nothing. */
  function Apply(w: World, s: Step): World {
    match Handle(w, s)
    case Ok(w') => w'
    case Err(_) => w
  }

  /** Nothing that happens to other tokens touches this one's curve, treasury, positions or supply. */
  lemma ElsewhereLeavesToken(w: World, s: Step)
    requires IsElsewhere(s)
    ensures var w' := Apply(w, s);
      w' == w.(protocol := w'.protocol, stats := w'.stats, funds := w'.funds, outside := w'.outside)
  {
    hide Wallets.Pay, Wallets.Credit, Wallets.PayOut, Wallets.Total, Wallets.AllBooks, RecordVolume;
  }

  /** Nor do rollovers and claims. */
  lemma RewardsLeaveToken(w: World, s: Step)
    requires s.Claim? || s.AdvanceEpoch?
    ensures var w' := Apply(w, s);
      w' == w.(protocol := w'.protocol, stats := w'.stats, funds := w'.funds)
  {
    hide Wallets.PayOut, Wallets.Total, Wallets.AllBooks, TorchMath.CalcClaimWithCap;
  }

  function Run(w: World, steps: seq<Step>): World
    decreases |steps|
  {
    if steps == [] then w else Run(Apply(w, steps[0]), steps[1..])
  }

  /** A freshly created token in a world where traders already hold SOL and the reward pool may hold some too. */
  function Genesis(config: Config, target: u64, community: bool, shortsEnabled: bool, slot: u64, wallets: map<Key, nat>,
                   poolLamports: u64, now: i64): World
  {
    var (vsol, vtok) := InitialVirtualReserves(target);
    World(config,
          Curve(vsol, vtok, 0, CURVE_SUPPLY, false, 0, false, false, slot, target, config.curveRent),
          Treasury(0, 0, 0, false, 0, 0, 0, 0, 0, shortsEnabled, community, 0, 0, false, config.treasuryRent),
          Protocol(0, PROTOCOL_TREASURY_RESERVE_FLOOR, 0, 0, 0, now, 0, 0, 0, poolLamports),
          map[], map[], map[], {}, Funds(wallets, map[]),
          Tokens(CURVE_SUPPLY, 0, 0, 0, map[TreasuryLock := TREASURY_LOCK_TOKENS], 0, 0),
          0)
  }
}
