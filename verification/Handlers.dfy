/**
 The handlers in the program's own form: they check their guards and then update the accounts in
 place, and a failure in the middle leaves the accounts half-updated. `Execute` adds what the
 runtime does around them, which is to put every account back after a failure, and is proved to be
 `Program.Apply` for every instruction.
 */
module Handlers {
  import opened Base
  import opened Constants
  import opened TorchMath
  import opened TokenLedger
  import opened Wallets
  import opened Accounts
  import opened BondingCurve
  import opened Lending
  import opened Program
  import opened AccountObjects
  import MapSum

  class Market {
    const config: Config
    const curve: CurveAccount
    const treasury: TreasuryAccount
    const protocol: ProtocolAccount
    var loans: map<Key, Loan>
    var shorts: map<Key, nat>
    var stats: map<Key, Stats>
    var starred: set<Key>
    var funds: Funds
    var tokens: Tokens
    var outside: nat

    constructor (config: Config, target: u64, community: bool, shortsEnabled: bool, slot: u64, wallets: map<Key, nat>,
                 poolLamports: u64, now: i64)
      ensures fresh(curve) && fresh(treasury) && fresh(protocol)
      ensures View() == Genesis(config, target, community, shortsEnabled, slot, wallets, poolLamports, now)
    {
      this.config := config;
      curve := new CurveAccount(target, slot, config.curveRent);
      treasury := new TreasuryAccount(shortsEnabled, community, config.treasuryRent);
      protocol := new ProtocolAccount(now, poolLamports);
      loans, shorts, stats, starred := map[], map[], map[], {};
      funds := Funds(wallets, map[]);
      tokens := Tokens(CURVE_SUPPLY, 0, 0, 0, map[TreasuryLock := TREASURY_LOCK_TOKENS], 0, 0);
      outside := 0;
    }

    function View(): World
      reads this, curve, treasury, protocol
    {
      World(config, curve.View(), treasury.View(), protocol.View(), loans, shorts, stats, starred, funds, tokens,
            outside)
    }

    // ---------- One transaction ----------

    /** Runs one instruction; after a failure the runtime restores every account. */
    method Execute(s: Step) returns (r: Result<()>)
      modifies this, curve, treasury, protocol
      ensures View() == Apply(old(View()), s)
      ensures r.Ok? <==> Handle(old(View()), s).Ok?
    {
      hide HandleBuy, HandleSell, HandleMigrate, HandleReclaim, HandleRevive, HandleStar, HandleBorrow, HandleRepay,
        HandleLiquidate, HandlePostShort, HandleReleaseShort, HandleAdvanceEpoch, HandleClaim, HandleTransferTokens,
        HandleBuyElsewhere, HandleSellElsewhere, HandleReclaimElsewhere,
        Wallets.Create, Wallets.Deposit, Wallets.Withdraw, TransferBetween;
      var before := View();
      r := Dispatch(s);
      if r.Err? {
        Restore(before);
      }
    }

    /** Any number of transactions, one after the other: the objects follow the model's run. */
    method ExecuteAll(steps: seq<Step>)
      modifies this, curve, treasury, protocol
      ensures View() == Run(old(View()), steps)
    {
      hide Apply, View;
      for i := 0 to |steps|
        invariant Run(View(), steps[i..]) == Run(old(View()), steps)
      {
        assert steps[i..][1..] == steps[i + 1..];
        var _ := Execute(steps[i]);
      }
    }

    method Dispatch(s: Step) returns (r: Result<()>)
      modifies this, curve, treasury, protocol
      ensures Meets(Handle(old(View()), s), r, View())
    {
      hide HandleBuy, HandleSell, HandleMigrate, HandleReclaim, HandleRevive, HandleStar, HandleBorrow, HandleRepay,
        HandleLiquidate, HandlePostShort, HandleReleaseShort, HandleAdvanceEpoch, HandleClaim, HandleTransferTokens,
        HandleBuyElsewhere, HandleSellElsewhere, HandleReclaimElsewhere,
        Wallets.Create, Wallets.Deposit, Wallets.Withdraw, TransferBetween, WithFunds, AccountObjects.Meets, View;
      match s
      case Buy(_, _, _, _, _, _, _) => r := Buy(s);
      case Sell(_, _, _, _, _, _, _) => r := Sell(s);
      case Migrate(_) => r := Migrate(s);
      case Reclaim(_) => r := Reclaim(s);
      case Revive(_, _, _) => r := Revive(s);
      case Star(_, _) => r := StarToken(s);
      case Borrow(_, _, _, _, _, _, _) => r := Borrow(s);
      case Repay(_, _, _, _) => r := Repay(s);
      case Liquidate(_, _, _, _, _, _) => r := Liquidate(s);
      case PostShort(_, _, _) => r := PostShort(s);
      case ReleaseShort(_, _, _) => r := ReleaseShort(s);
      case AdvanceEpoch(_) => r := AdvanceEpoch(s);
      case Claim(_, _) => r := ClaimRewards(s);
      case CreateVault(_) => r := CreateVault(s);
      case DepositVault(_, _, _) => r := DepositVault(s);
      case WithdrawVault(_, _, _) => r := WithdrawVault(s);
      case TransferTokens(_, _, _) => r := TransferTokens(s);
      case TransferSol(_, _, _) => r := TransferSol(s);
      case BuyElsewhere(_, _, _, _, _, _, _, _) => r := BuyElsewhere(s);
      case SellElsewhere(_, _, _, _, _) => r := SellElsewhere(s);
      case ReclaimElsewhere(_) => r := ReclaimElsewhere(s);
    }

    method Restore(w: World)
      requires w.config == config && w.curve.target == curve.target && w.protocol.floor == protocol.floor
      requires w.treasury.shortsEnabled == treasury.shortsEnabled && w.treasury.community == treasury.community
      modifies this, curve, treasury, protocol
      ensures View() == w
    {
      hide CurveAccount.View, TreasuryAccount.View, ProtocolAccount.View;
      curve.Restore(w.curve);
      treasury.Restore(w.treasury);
      protocol.Restore(w.protocol);
      loans, shorts, stats, starred := w.loans, w.shorts, w.stats, w.starred;
      funds, tokens, outside := w.funds, w.tokens, w.outside;
    }

    // ---------- Trading on the curve ----------

    method Buy(s: Step) returns (r: Result<()>)
      requires s.Buy?
      modifies this, curve, treasury, protocol
      ensures Meets(HandleBuy(old(View()), s), r, View())
    {
      hide QuoteBuy, SettleBuy;
      if curve.complete { return Err(BondingComplete); }
      if curve.reclaimed { return Err(AlreadyReclaimed); }
      if s.sol < MIN_SOL_AMOUNT { return Err(AmountTooSmall); }
      if s.tokensToVault && !s.route.Via? { return Err(WalletNotLinked); }
      if !VaultCovers(funds, s.route, s.sol) { return Err(InsufficientVaultBalance); }
      var q :- SplitBuy(s.sol);
      r := DeliverBuy(s, q);
    }

    /** The fee and reserve arithmetic of a buy. */
    method SplitBuy(sol: u64) returns (r: Result<BuyQuote>)
      ensures r == QuoteBuy(curve.View(), treasury.community, sol)
      ensures r.Ok? ==>
        && r.value.toCurve + r.value.toTreasury + r.value.toCreator + r.value.devShare + r.value.protocolFee == sol
        && 82 * sol <= 100 * r.value.toCurve && r.value.tokensOut <= curve.vtok
    {
      hide Portion, TorchMath.CalcTreasuryRateBps, TorchMath.CalcCreatorRateBps, TorchMath.CalcTokensOut;
      var protocolFeeTotal :- CalcProtocolFee(sol, PROTOCOL_FEE_BPS).OkOr(MathOverflow);
      var devShare :- CalcDevWalletShare(protocolFeeTotal).OkOr(MathOverflow);
      var protocolFee := protocolFeeTotal - devShare;
      var treasuryFee := CalcFlatFee(sol, TREASURY_FEE_BPS).value;
      var afterFees := sol - protocolFeeTotal - treasuryFee;
      var target := if curve.target == 0 then BONDING_TARGET_LAMPORTS else curve.target;
      var treasuryRate := CalcTreasuryRateBps(curve.rsol, target).value;
      var creatorRate := CalcCreatorRateBps(curve.rsol, target).value;
      var totalSplit :- Portion(afterFees, treasuryRate);
      var creatorSol := 0;
      if !treasury.community {
        creatorSol :- Portion(afterFees, creatorRate);
      }
      var treasurySplit :- CheckedSub(totalSplit, creatorSol);
      var toCurve := afterFees - totalSplit;
      var toTreasury := treasuryFee + treasurySplit;
      var tokensOut :- CalcTokensOut(curve.vtok, curve.vsol, toCurve).OkOr(MathOverflow);
      r := Ok(BuyQuote(protocolFee, devShare, toTreasury, creatorSol, toCurve, tokensOut));
      QuoteBounds(curve.View(), treasury.community, sol);
    }

    /** The guards on the tokens bought, then the transfers, then the books. */
    method DeliverBuy(s: Step, q: BuyQuote) returns (r: Result<()>)
      requires s.Buy?
      modifies this, curve, treasury, protocol
      ensures Meets(SettleBuy(old(View()), s, q), r, View())
      ensures r.Ok? ==>
        Get(old(tokens).held, Destination(s)) + q.tokensOut <= 20_000_000_000_000 && s.minTokens <= q.tokensOut
    {
      hide Program.PayForBuy, TokenLedger.FromCurve, AfterBuy, RecordVolume, TokenLedger.Supply, Wallets.Total,
        Wallets.AllBooks;
      if curve.rtok < q.tokensOut { return Err(InsufficientTokens); }
      if q.tokensOut < s.minTokens { return Err(SlippageExceeded); }
      var balance :- CheckedAdd(Get(tokens.held, Destination(s)), q.tokensOut);
      if MAX_WALLET_TOKENS < balance { return Err(MaxWalletExceeded); }
      tokens :- FromCurve(tokens, Destination(s), q.tokensOut);
      var _ :- CollectPayments(s, q);
      r := UpdateBooks(s, q);
    }

    /** The SOL of a buy leaves the vault or, transfer by transfer, the buyer's wallet. */
    method CollectPayments(s: Step, q: BuyQuote) returns (r: Result<()>)
      requires s.Buy?
      modifies this`funds
      ensures Meets(Program.PayForBuy(old(funds), s, q, config), r, funds)
    {
      hide Wallets.Pay, Wallets.Debit, Wallets.Credit, Wallets.Total, Wallets.AllBooks;
      match s.route
      case Via(v) =>
        funds :- Pay(funds, TorchVault(v), s.sol);
        funds :- Credit(funds, config.dev, q.devShare);
        funds :- Credit(funds, config.creator, q.toCreator);
        r := Ok(());
      case Direct =>
        funds :- Debit(funds, s.buyer, q.toCurve);
        funds :- Debit(funds, s.buyer, q.toTreasury);
        funds :- Debit(funds, s.buyer, q.devShare);
        funds :- Credit(funds, config.dev, q.devShare);
        funds :- Debit(funds, s.buyer, q.protocolFee);
        funds :- Debit(funds, s.buyer, q.toCreator);
        funds :- Credit(funds, config.creator, q.toCreator);
        r := Ok(());
    }

    /** The reserves, the fee counters and the volume counters. */
    method UpdateBooks(s: Step, q: BuyQuote) returns (r: Result<()>)
      requires s.Buy?
      modifies this, curve, treasury, protocol
      ensures Meets(BookBuy(old(View()), s, q, old(tokens), old(funds)), r, View())
    {
      hide CurveAccount.View, TreasuryAccount.View, ProtocolAccount.View, AfterBuy, RecordVolume;
      var _ :- curve.Bought(q.toCurve, q.tokensOut, s.slot);
      var _ :- treasury.Receive(q.toTreasury);
      var _ :- protocol.Receive(q.protocolFee);
      if s.tracked {
        var own :- RecordVolume(if s.buyer in stats then stats[s.buyer] else NO_STATS, s.sol, protocol.View().epoch);
        stats := stats[s.buyer := own];
      }
      r := protocol.CountVolume(s.sol);
    }

    method Sell(s: Step) returns (r: Result<()>)
      requires s.Sell?
      modifies this, curve, treasury, protocol
      ensures Meets(HandleSell(old(View()), s), r, View())
    {
      hide TreasuryAccount.View, ProtocolAccount.View, QuoteSell, SettleSell;
      if curve.complete { return Err(BondingComplete); }
      if curve.reclaimed { return Err(AlreadyReclaimed); }
      if s.tracked && s.seller !in stats { return Err(AccountNotInitialized); }
      if s.amount == 0 { return Err(ZeroAmount); }
      var source := AtaOf(s.seller, s.route);
      if Get(tokens.held, source) < s.amount { return Err(InsufficientTokens); }
      var solOut :- QuoteSell(curve.View(), s.amount);
      var fee :- CalcFlatFee(solOut, SELL_FEE_BPS).OkOr(MathOverflow);
      if curve.rsol < solOut { return Err(InsufficientSol); }
      if solOut - fee < s.minSol { return Err(SlippageExceeded); }
      r := TakeBack(s, solOut, fee);
    }

    /** The tokens come back, the seller is paid, then the reserves, fees and volumes are booked. */
    method TakeBack(s: Step, solOut: u64, fee: u64) returns (r: Result<()>)
      requires s.Sell? && fee <= solOut && s.amount <= Get(tokens.held, AtaOf(s.seller, s.route))
        && (s.tracked ==> s.seller in stats)
      modifies this, curve, treasury, protocol
      ensures Meets(SettleSell(old(View()), s, solOut, fee), r, View())
    {
      hide CurveAccount.View, TreasuryAccount.View;
      hide RecordVolume, Wallets.PayOut, AfterSell, TokenLedger.ToCurve, TokenLedger.Supply, Wallets.Total,
        Wallets.AllBooks;
      tokens := ToCurve(tokens, AtaOf(s.seller, s.route), s.amount).value;
      funds :- PayOut(funds, PurseOf(s.seller, s.route), solOut - fee);
      var _ :- curve.Sold(solOut, s.amount, s.slot);
      var _ :- treasury.Receive(fee);
      if s.tracked && s.withProtocol {
        var own :- RecordVolume(stats[s.seller], solOut, protocol.epoch);
        stats := stats[s.seller := own];
      }
      if s.withProtocol {
        protocol.volumeCurrent :- CheckedAdd(protocol.volumeCurrent, solOut);
      }
      r := Ok(());
    }

    // ---------- Migration, reclaim and revival ----------

    method Migrate(s: Step) returns (r: Result<()>)
      requires s.Migrate?
      modifies this, curve, treasury
      ensures Meets(HandleMigrate(old(View()), s), r, View())
    {
      hide ProtocolAccount.View, MoveLiquidity;
      if !curve.complete { return Err(BondingNotComplete); }
      if curve.migrated { return Err(AlreadyMigrated); }
      if treasury.sol < MIN_MIGRATION_SOL { return Err(InsufficientMigrationFee); }
      r := SeedDex(s);
    }

    /** The real SOL and the matching tokens go to the pool, the excess is burned, the payer is reimbursed. */
    method SeedDex(s: Step) returns (r: Result<()>)
      requires s.Migrate?
      modifies this, curve, treasury
      ensures Meets(MoveLiquidity(old(View()), s), r, View())
      ensures r.Ok? ==> treasury.View().sol + s.cost == old(treasury.View()).sol
      ensures r.Ok? ==> treasury.View().lamports + s.cost == old(treasury.View()).lamports
    {
      hide CurveAccount.View, TreasuryAccount.View, ProtocolAccount.View;
      hide TorchMath.CalcTokensForPool, Net, TokenLedger.SeedPool, TokenLedger.Supply;
      var c := curve.View();
      var _ :- curve.HandOver();
      var matched :- CalcTokensForPool(c.rsol, c.vtok, c.vsol).OkOr(MathOverflow);
      var tokenAmount := Min(matched, tokens.curveVault);
      var _ :- treasury.Reimburses(s.cost);
      tokens := SeedPool(tokens, tokenAmount);
      outside := outside + c.rsol + s.cost;
      treasury.RecordBaseline(c.rsol, Net(Net(tokenAmount)));
      r := Ok(());
    }

    method Reclaim(s: Step) returns (r: Result<()>)
      requires s.Reclaim?
      modifies curve, treasury, protocol
      ensures Meets(HandleReclaim(old(View()), s), r, View())
    {
      hide ProtocolAccount.View;
      if curve.complete { return Err(BondingComplete); }
      if curve.reclaimed { return Err(AlreadyReclaimed); }
      if SaturatingSub(s.slot, curve.lastActivity) < INACTIVITY_PERIOD_SLOTS { return Err(TokenStillActive); }
      var total :- CheckedAdd(curve.rsol, treasury.sol);
      if total < MIN_RECLAIM_THRESHOLD { return Err(BelowReclaimThreshold); }
      var _ :- curve.GiveUp();
      var _ :- treasury.GiveUp();
      var _ :- protocol.Receive(total);
      r := Ok(());
    }

    method Revive(s: Step) returns (r: Result<()>)
      requires s.Revive?
      modifies this, curve
      ensures Meets(HandleRevive(old(View()), s), r, View())
    {
      hide TreasuryAccount.View, ProtocolAccount.View;
      hide Wallets.Debit, Wallets.Total;
      if !curve.reclaimed { return Err(TokenNotReclaimed); }
      if s.sol < MIN_SOL_AMOUNT { return Err(AmountTooSmall); }
      funds :- Debit(funds, s.contributor, s.sol);
      curve.lamports :- CheckedAdd(curve.lamports, s.sol);
      curve.rsol :- CheckedAdd(curve.rsol, s.sol);
      var (threshold, _) := InitialVirtualReserves(curve.target);
      if threshold <= curve.rsol {
        curve.reclaimed := false;
        curve.lastActivity := s.slot;
      }
      r := Ok(());
    }

    method StarToken(s: Step) returns (r: Result<()>)
      requires s.Star?
      modifies this, treasury
      ensures Meets(HandleStar(old(View()), s), r, View())
    {
      hide CurveAccount.View, TreasuryAccount.View, ProtocolAccount.View;
      hide Wallets.Pay, Wallets.Credit, Wallets.Total, Wallets.AllBooks;
      if s.user == config.creator { return Err(CannotStarSelf); }
      if s.user in starred { return Err(AccountInUse); }
      funds :- Pay(funds, PurseOf(s.user, s.route), STAR_COST_LAMPORTS);
      var payout :- treasury.ReceivesStar();
      if 0 < payout {
        funds :- Credit(funds, config.creator, payout);
      }
      starred := starred + {s.user};
      r := Ok(());
    }

    // ---------- Lending ----------

    method Borrow(s: Step) returns (r: Result<()>)
      requires s.Borrow?
      modifies this, treasury
      ensures Meets(HandleBorrow(old(View()), s), r, View())
    {
      hide Accrue, SettleBorrow;
      if !curve.migrated { return Err(LendingRequiresMigration); }
      if curve.reclaimed { return Err(AlreadyReclaimed); }
      if s.collateral == 0 && s.sol == 0 { return Err(EmptyBorrowRequest); }
      if 0 < s.sol < MIN_BORROW_AMOUNT { return Err(BorrowTooSmall); }
      var loan :- Accrue(if s.user in loans then loans[s.user] else NO_LOAN, s.slot);
      r := OpenOrExtend(s, loan);
    }

    /** Locks the collateral, checks the limits, pays the SOL out and books the loan. */
    method OpenOrExtend(s: Step, loan: Loan) returns (r: Result<()>)
      requires s.Borrow?
      modifies this, treasury
      ensures Meets(SettleBorrow(old(View()), s, loan), r, View())
    {
      hide CurveAccount.View, TreasuryAccount.View, ProtocolAccount.View;
      hide Wallets.PayOut, TokenLedger.ToCollateral, WithinLtv, Lend, BookLoan, Net, TokenLedger.Supply, Wallets.Total,
        Wallets.AllBooks;
      var deposited := 0;
      if 0 < s.collateral {
        tokens :- ToCollateral(tokens, AtaOf(s.user, s.route), s.collateral);
        deposited := Net(s.collateral);
      }
      var collateral :- CheckedAdd(loan.collateral, deposited);
      var _ :- WithinLtv(loan, collateral, s.sol, s.poolSol, s.poolTok);
      var _ :- treasury.Lends(loan, collateral, s.sol);
      if 0 < s.sol {
        funds :- PayOut(funds, PurseOf(s.user, s.route), s.sol);
      }
      r := UpdateLoan(s, loan.(collateral := collateral), deposited);
    }

    /** The position first, then the treasury's aggregates. */
    method UpdateLoan(s: Step, accrued: Loan, deposited: u64) returns (r: Result<()>)
      requires s.Borrow?
      modifies this, treasury
      ensures Meets(BookLoan(old(View()), s, accrued, deposited), r, View())
    {
      hide CurveAccount.View, TreasuryAccount.View, ProtocolAccount.View;
      var loan := accrued;
      var isNew := s.user !in loans;
      if isNew {
        loan := loan.(lastSlot := s.slot);
      }
      var borrowed :- CheckedAdd(loan.borrowed, s.sol);
      loan := loan.(borrowed := borrowed);
      var _ :- treasury.Locks(deposited, isNew);
      loans := loans[s.user := loan];
      r := Ok(());
    }

    method Repay(s: Step) returns (r: Result<()>)
      requires s.Repay?
      modifies this, treasury
      ensures Meets(HandleRepay(old(View()), s), r, View())
    {
      hide Accrue, SettleRepayment;
      if s.user !in loans || loans[s.user].borrowed == 0 { return Err(NoActiveLoan); }
      if s.sol == 0 { return Err(ZeroAmount); }
      var loan :- Accrue(loans[s.user], s.slot);
      r := PayBack(s, loan);
    }

    method PayBack(s: Step, loan: Loan) returns (r: Result<()>)
      requires s.Repay?
      modifies this, treasury
      ensures Meets(SettleRepayment(old(View()), s, loan), r, View())
    {
      hide CurveAccount.View, TreasuryAccount.View, ProtocolAccount.View;
      hide Wallets.Pay, TokenLedger.FromCollateral, Collect, AfterPayment, InterestPart, TokenLedger.Supply,
        Wallets.Total, Wallets.AllBooks;
      var totalOwed :- CheckedAdd(loan.borrowed, loan.accrued);
      var isFull := totalOwed <= s.sol;
      var actual := if isFull then totalOwed else s.sol;
      var returned := 0;
      if isFull {
        returned := loan.collateral;
        tokens :- FromCollateral(tokens, AtaOf(s.user, s.route), returned);
      }
      funds :- Pay(funds, PurseOf(s.user, s.route), actual);
      var reduced, interestPaid := PayDown(loan, actual);
      var _ :- treasury.Collects(actual, interestPaid, actual - interestPaid, returned, isFull);
      loans := if isFull then loans - {s.user} else loans[s.user := reduced];
      r := Ok(());
    }

    /** Interest first, then principal. */
    method PayDown(loan: Loan, paid: u64) returns (reduced: Loan, interestPaid: u64)
      requires paid <= Debt(loan)
      ensures reduced == AfterPayment(loan, paid) && interestPaid == InterestPart(loan, paid) <= paid
    {
      var remaining := paid;
      reduced := loan;
      if remaining <= reduced.accrued {
        interestPaid := remaining;
        reduced := reduced.(accrued := reduced.accrued - remaining);
      } else {
        interestPaid := reduced.accrued;
        remaining := remaining - reduced.accrued;
        reduced := reduced.(accrued := 0);
        reduced := reduced.(borrowed := reduced.borrowed - remaining);
      }
    }

    method Liquidate(s: Step) returns (r: Result<()>)
      requires s.Liquidate?
      modifies this, treasury
      ensures Meets(HandleLiquidate(old(View()), s), r, View())
    {
      hide Accrue, Seize, SettleLiquidation;
      if s.borrower !in loans || loans[s.borrower].borrowed == 0 { return Err(NoActiveLoan); }
      var loan :- Accrue(loans[s.borrower], s.slot);
      var cut :- PlanSeizure(loan, s.poolSol, s.poolTok);
      r := SeizeCollateral(s, loan, cut);
    }

    /** What a liquidation of this loan exchanges. */
    method PlanSeizure(loan: Loan, poolSol: u64, poolTok: u64) returns (r: Result<Seizure>)
      ensures r == Seize(loan, poolSol, poolTok)
    {
      hide TorchMath.CalcCollateralValue, TorchMath.CalcCollateralToSeize, TorchMath.CalcLtvBps;
      if poolSol == 0 || poolTok == 0 { return Err(ZeroPoolReserves); }
      var value :- CalcCollateralValue(loan.collateral, poolSol, poolTok).OkOr(MathOverflow);
      var totalDebt :- CheckedAdd(loan.borrowed, loan.accrued);
      var ltv :- CalcLtvBps(totalDebt, value).OkOr(MathOverflow);
      if ltv <= LIQUIDATION_THRESHOLD_BPS { return Err(NotLiquidatable); }
      var toCover := Min(totalDebt * LIQUIDATION_CLOSE_BPS / 10_000, totalDebt);
      var wanted :- CalcCollateralToSeize(toCover, poolTok, poolSol).OkOr(MathOverflow);
      var seized := Min(wanted, loan.collateral);
      var covered := toCover;
      if loan.collateral < wanted {
        covered := CalcCollateralValue(seized, poolSol, poolTok).value;
      }
      var kept :- CheckedAdd(covered, SaturatingSub(totalDebt, toCover));
      r := Ok(Seizure(toCover, seized, covered, SaturatingSub(totalDebt, kept)));
    }

    method SeizeCollateral(s: Step, loan: Loan, cut: Seizure) returns (r: Result<()>)
      requires s.Liquidate? && cut.seized <= loan.collateral
      modifies this, treasury
      ensures Meets(SettleLiquidation(old(View()), s, loan, cut), r, View())
    {
      hide CurveAccount.View, TreasuryAccount.View, ProtocolAccount.View;
      hide Wallets.Pay, TokenLedger.FromCollateral, Collect, AfterLiquidation, InterestPart, PrincipalPart,
        TokenLedger.Supply, Wallets.Total, Wallets.AllBooks;
      if 0 < cut.seized {
        tokens :- FromCollateral(tokens, AtaOf(s.liquidator, s.route), cut.seized);
      }
      if 0 < cut.covered {
        funds :- Pay(funds, PurseOf(s.liquidator, s.route), cut.covered);
      }
      var reduced, interestPaid, principalPaid := WriteDown(loan, cut);
      var _ :- treasury.Collects(cut.covered, interestPaid, principalPaid + cut.badDebt, cut.seized,
                                 reduced.borrowed + reduced.accrued == 0);
      loans := loans[s.borrower := reduced];
      r := Ok(());
    }

    /** The liquidator's payment, interest first, then the seized collateral, then the bad debt. */
    method WriteDown(loan: Loan, cut: Seizure) returns (reduced: Loan, interestPaid: u64, principalPaid: u64)
      requires cut.seized <= loan.collateral
      ensures reduced == AfterLiquidation(loan, cut)
      ensures interestPaid == InterestPart(loan, cut.covered) && principalPaid == PrincipalPart(loan, cut)
    {
      var remaining := cut.covered;
      reduced := loan;
      if remaining <= reduced.accrued {
        interestPaid := remaining;
        reduced := reduced.(accrued := reduced.accrued - remaining);
        remaining := 0;
      } else {
        interestPaid := reduced.accrued;
        remaining := remaining - reduced.accrued;
        reduced := reduced.(accrued := 0);
      }
      principalPaid := remaining;
      if 0 < remaining {
        reduced := reduced.(borrowed := SaturatingSub(reduced.borrowed, remaining));
      }
      reduced := reduced.(collateral := reduced.collateral - cut.seized);
      if 0 < cut.badDebt {
        reduced := reduced.(borrowed := SaturatingSub(reduced.borrowed, cut.badDebt));
        reduced := reduced.(accrued := 0);
      }
    }

    // ---------- Short collateral ----------

    method PostShort(s: Step) returns (r: Result<()>)
      requires s.PostShort?
      modifies this, treasury
      ensures Meets(HandlePostShort(old(View()), s), r, View())
    {
      hide ProtocolAccount.View;
      hide Wallets.Pay, Wallets.Total, Wallets.AllBooks;
      if !curve.migrated { return Err(NotMigrated); }
      if curve.reclaimed { return Err(AlreadyReclaimed); }
      if !treasury.shortsEnabled { return Err(ShortNotEnabled); }
      if s.sol == 0 { return Err(EmptyBorrowRequest); }
      funds :- Pay(funds, PurseOf(s.user, s.route), s.sol);
      var position :- CheckedAdd(Get(shorts, s.user), s.sol);
      var _ :- treasury.Receive(s.sol);
      treasury.shortReserved :- CheckedAdd(treasury.shortReserved, s.sol);
      shorts := shorts[s.user := position];
      r := Ok(());
    }

    method ReleaseShort(s: Step) returns (r: Result<()>)
      requires s.ReleaseShort?
      modifies this, treasury
      ensures Meets(HandleReleaseShort(old(View()), s), r, View())
    {
      hide CurveAccount.View, TreasuryAccount.View, ProtocolAccount.View;
      hide Wallets.PayOut, Wallets.Total, Wallets.AllBooks;
      if Get(shorts, s.user) < s.sol { return Err(NoActiveShort); }
      var _ :- treasury.PaysOut(s.sol);
      funds :- PayOut(funds, s.to, s.sol);
      var _ :- treasury.FreesShort(s.sol);
      shorts := shorts[s.user := Get(shorts, s.user) - s.sol];
      r := Ok(());
    }

    // ---------- Rewards ----------

    method AdvanceEpoch(s: Step) returns (r: Result<()>)
      requires s.AdvanceEpoch?
      modifies protocol
      ensures Meets(HandleAdvanceEpoch(old(View()), s), r, View())
    {
      hide CurveAccount.View, TreasuryAccount.View;
      var elapsed := s.now - protocol.lastEpochTs;
      if elapsed < -0x8000_0000_0000_0000 || 0x7FFF_FFFF_FFFF_FFFF < elapsed { return Err(MathOverflow); }
      if elapsed < EPOCH_DURATION_SECONDS { return Err(EpochNotComplete); }
      protocol.volumePrevious := protocol.volumeCurrent;
      var available := SaturatingSub(protocol.lamports, config.protocolRent);
      protocol.balance := available;
      protocol.distributable := SaturatingSub(available, protocol.floor);
      protocol.volumeCurrent := 0;
      protocol.epoch :- CheckedAdd(protocol.epoch, 1);
      protocol.lastEpochTs := s.now;
      r := Ok(());
    }

    method ClaimRewards(s: Step) returns (r: Result<()>)
      requires s.Claim?
      modifies this, protocol
      ensures Meets(HandleClaim(old(View()), s), r, View())
    {
      hide CurveAccount.View, TreasuryAccount.View;
      hide PayClaim, TorchMath.CalcClaimWithCap;
      if s.user !in stats { return Err(AccountNotInitialized); }
      if protocol.epoch == 0 { return Err(NoRewardsAvailable); }
      var own := stats[s.user];
      if own.lastVolumeEpoch < protocol.epoch && 0 < own.volumeCurrent {
        own := own.(volumePrevious := own.volumeCurrent);
        own := own.(volumeCurrent := 0);
        own := own.(lastVolumeEpoch := protocol.epoch);
      }
      var claimable := protocol.epoch - 1;
      if claimable <= own.lastClaimed { return Err(AlreadyClaimed); }
      if protocol.distributable == 0 { return Err(NoRewardsAvailable); }
      if own.volumePrevious == 0 { return Err(NoVolumeInEpoch); }
      if own.volumePrevious < MIN_EPOCH_VOLUME_ELIGIBILITY { return Err(InsufficientVolumeForRewards); }
      if protocol.volumePrevious == 0 { return Err(NoVolumeInEpoch); }
      var amount :- CalcClaimWithCap(own.volumePrevious, protocol.distributable,
                                     protocol.volumePrevious).OkOr(MathOverflow);
      if amount < MIN_CLAIM_AMOUNT { return Err(ClaimBelowMinimum); }
      r := PayReward(s, own, amount);
    }

    /** The reward leaves the pool, the claimant is marked. */
    method PayReward(s: Step, rolled: Stats, amount: u64) returns (r: Result<()>)
      requires s.Claim? && 0 < protocol.epoch
      modifies this, protocol
      ensures Meets(PayClaim(old(View()), s, rolled, amount), r, View())
    {
      hide CurveAccount.View, TreasuryAccount.View;
      hide Wallets.PayOut, Wallets.Total, Wallets.AllBooks;
      var own := rolled;
      protocol.lamports :- CheckedSub(protocol.lamports, amount);
      funds :- PayOut(funds, PurseOf(s.user, s.route), amount);
      protocol.balance := SaturatingSub(protocol.balance, amount);
      protocol.distributable := SaturatingSub(protocol.distributable, amount);
      protocol.distributed :- CheckedAdd(protocol.distributed, amount);
      own := own.(lastClaimed := protocol.epoch - 1);
      var claimed :- CheckedAdd(own.claimed, amount);
      own := own.(claimed := claimed);
      own := own.(volumePrevious := 0);
      stats := stats[s.user := own];
      r := Ok(());
    }

    // ---------- Vaults and plain transfers ----------

    method CreateVault(s: Step) returns (r: Result<()>)
      requires s.CreateVault?
      modifies this
      ensures Meets(Handle(old(View()), s), r, View())
    {
      hide CurveAccount.View, TreasuryAccount.View, ProtocolAccount.View;
      hide Wallets.Debit, Wallets.Total, Wallets.AllBooks;
      if s.user in funds.vaults { return Err(AccountInUse); }
      funds :- Debit(funds, s.user, config.vaultRent);
      funds := funds.(vaults := funds.vaults[s.user := Vault(0, 0, 0, 0, 0, config.vaultRent)]);
      r := Ok(());
    }

    method DepositVault(s: Step) returns (r: Result<()>)
      requires s.DepositVault?
      modifies this
      ensures Meets(Handle(old(View()), s), r, View())
    {
      hide CurveAccount.View, TreasuryAccount.View, ProtocolAccount.View;
      hide Wallets.Debit, Wallets.Total, Wallets.AllBooks;
      if s.sol == 0 { return Err(ZeroAmount); }
      if s.vault !in funds.vaults { return Err(AccountNotInitialized); }
      funds :- Debit(funds, s.user, s.sol);
      var v := funds.vaults[s.vault];
      var lamports :- CheckedAdd(v.lamports, s.sol);
      v := v.(lamports := lamports);
      var balance :- CheckedAdd(v.sol, s.sol);
      v := v.(sol := balance);
      var deposited :- CheckedAdd(v.deposited, s.sol);
      v := v.(deposited := deposited);
      funds := funds.(vaults := funds.vaults[s.vault := v]);
      r := Ok(());
    }

    method WithdrawVault(s: Step) returns (r: Result<()>)
      requires s.WithdrawVault?
      modifies this
      ensures Meets(Handle(old(View()), s), r, View())
    {
      hide CurveAccount.View, TreasuryAccount.View, ProtocolAccount.View;
      hide Wallets.Credit, Wallets.Total, Wallets.AllBooks;
      if s.sol == 0 { return Err(ZeroAmount); }
      if s.vault !in funds.vaults { return Err(AccountNotInitialized); }
      var v := funds.vaults[s.vault];
      if v.sol < s.sol { return Err(InsufficientVaultBalance); }
      v := v.(sol := v.sol - s.sol);
      var withdrawn :- CheckedAdd(v.withdrawn, s.sol);
      v := v.(withdrawn := withdrawn);
      var lamports :- CheckedSub(v.lamports, s.sol);
      v := v.(lamports := lamports);
      funds := funds.(vaults := funds.vaults[s.vault := v]);
      funds :- Credit(funds, s.user, s.sol);
      r := Ok(());
    }

    method TransferTokens(s: Step) returns (r: Result<()>)
      requires s.TransferTokens?
      modifies this
      ensures Meets(HandleTransferTokens(old(View()), s), r, View())
    {
      hide TreasuryAccount.View, ProtocolAccount.View;
      hide TokenLedger.Move, TokenLedger.Supply;
      if !curve.migrated && (s.from == DexPool || s.from == TreasuryLock || s.dest == DexPool) {
        return Err(NotMigrated);
      }
      tokens :- Move(tokens, s.from, s.dest, s.amount);
      r := Ok(());
    }

    method TransferSol(s: Step) returns (r: Result<()>)
      requires s.TransferSol?
      modifies this
      ensures Meets(Handle(old(View()), s), r, View())
    {
      hide CurveAccount.View, TreasuryAccount.View, ProtocolAccount.View;
      hide Wallets.Debit, Wallets.Credit, Wallets.Total, Wallets.AllBooks;
      funds :- Debit(funds, s.payer, s.sol);
      funds :- Credit(funds, s.payee, s.sol);
      r := Ok(());
    }

    // ---------- Other tokens ----------

    method BuyElsewhere(s: Step) returns (r: Result<()>)
      requires s.BuyElsewhere?
      modifies this, protocol
      ensures Meets(HandleBuyElsewhere(old(View()), s), r, View())
    {
      hide CurveAccount.View, TreasuryAccount.View;
      hide RecordVolume, Wallets.Pay, Wallets.Credit, Wallets.Total, Wallets.AllBooks;
      if s.sol < s.fee + s.devShare + s.creatorShare { return Err(MathOverflow); }
      funds :- Pay(funds, PurseOf(s.buyer, s.route), s.sol);
      funds :- Credit(funds, config.dev, s.devShare);
      funds :- Credit(funds, s.creator, s.creatorShare);
      var _ :- protocol.Receive(s.fee);
      outside := outside + (s.sol - s.fee - s.devShare - s.creatorShare);
      if s.tracked {
        var own :- RecordVolume(if s.buyer in stats then stats[s.buyer] else NO_STATS, s.sol, protocol.epoch);
        stats := stats[s.buyer := own];
      }
      protocol.volumeCurrent :- CheckedAdd(protocol.volumeCurrent, s.sol);
      r := Ok(());
    }

    method SellElsewhere(s: Step) returns (r: Result<()>)
      requires s.SellElsewhere?
      modifies this, protocol
      ensures Meets(HandleSellElsewhere(old(View()), s), r, View())
    {
      hide CurveAccount.View, TreasuryAccount.View;
      hide RecordVolume, Wallets.PayOut, Wallets.Total, Wallets.AllBooks;
      if s.tracked && s.seller !in stats { return Err(AccountNotInitialized); }
      if outside < s.sol { return Err(InsufficientSol); }
      funds :- PayOut(funds, PurseOf(s.seller, s.route), s.sol);
      outside := outside - s.sol;
      if s.tracked && s.withProtocol {
        var own :- RecordVolume(stats[s.seller], s.sol, protocol.epoch);
        stats := stats[s.seller := own];
      }
      if s.withProtocol {
        protocol.volumeCurrent :- CheckedAdd(protocol.volumeCurrent, s.sol);
      }
      r := Ok(());
    }

    method ReclaimElsewhere(s: Step) returns (r: Result<()>)
      requires s.ReclaimElsewhere?
      modifies this, protocol
      ensures Meets(HandleReclaimElsewhere(old(View()), s), r, View())
    {
      hide CurveAccount.View, TreasuryAccount.View;
      if outside < s.sol { return Err(InsufficientSol); }
      outside := outside - s.sol;
      var _ :- protocol.Receive(s.sol);
      r := Ok(());
    }
  }
}
