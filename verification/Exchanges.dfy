/**
 Who pays and who receives: for each instruction, the exact change of every purse and of every token
 account at once, so that what one participant gives is what another one gets and nobody else is touched.
 */
module Exchanges {
  import opened Base
  import opened Constants
  import opened TorchMath
  import opened TokenLedger
  import opened Wallets
  import opened Accounts
  import opened BondingCurve
  import opened Lending
  import opened Program
  import MapSum

  /** The SOL a purse can spend. */
  function Cash(f: Funds, p: Purse): nat {
    match p
    case Wallet(owner) => Get(f.wallets, owner)
    case TorchVault(k) => if k in f.vaults then f.vaults[k].sol else 0
  }

  /** `amount` if the two are the same, nothing otherwise. */
  function For<T(==)>(who: T, named: T, amount: int): int {
    if who == named then amount else 0
  }

  // ---------- The single movements ----------

  lemma PayMoves(f: Funds, from: Purse, amount: u64, p: Purse)
    ensures Pay(f, from, amount).Ok? ==> Cash(Pay(f, from, amount).value, p) == Cash(f, p) - For(p, from, amount)
  {
    hide Wallets.Total, Wallets.AllBooks;
  }

  lemma PayOutMoves(f: Funds, to: Purse, amount: u64, p: Purse)
    ensures PayOut(f, to, amount).Ok? ==> Cash(PayOut(f, to, amount).value, p) == Cash(f, p) + For(p, to, amount)
  {
    hide Wallets.Total, Wallets.AllBooks;
  }

  lemma DebitMoves(f: Funds, owner: Key, amount: u64, p: Purse)
    ensures Debit(f, owner, amount).Ok? ==>
      Cash(Debit(f, owner, amount).value, p) == Cash(f, p) - For(p, Wallet(owner), amount)
  {
    hide Wallets.Total;
  }

  lemma CreditMoves(f: Funds, owner: Key, amount: u64, p: Purse)
    ensures Credit(f, owner, amount).Ok? ==>
      Cash(Credit(f, owner, amount).value, p) == Cash(f, p) + For(p, Wallet(owner), amount)
  {
    hide Wallets.Total;
  }

  // ---------- When a movement succeeds ----------

  /** A wallet pays what it holds; a vault what its ledger and its account hold, while its counter has room. */
  predicate CanPay(f: Funds, p: Purse, amount: nat) {
    match p
    case Wallet(owner) => amount <= Get(f.wallets, owner)
    case TorchVault(k) =>
      && k in f.vaults && amount <= f.vaults[k].sol && amount <= f.vaults[k].lamports
      && f.vaults[k].spent + amount <= U64_MAX
  }

  predicate CanReceive(f: Funds, p: Purse, amount: nat) {
    match p
    case Wallet(owner) => Get(f.wallets, owner) + amount <= U64_MAX
    case TorchVault(k) =>
      && k in f.vaults && f.vaults[k].lamports + amount <= U64_MAX && f.vaults[k].sol + amount <= U64_MAX
      && f.vaults[k].received + amount <= U64_MAX
  }

  lemma PaySucceedsIff(f: Funds, p: Purse, amount: u64)
    ensures Pay(f, p, amount).Ok? <==> CanPay(f, p, amount)
  {
    hide Wallets.Total, Wallets.AllBooks;
  }

  lemma PayOutSucceedsIff(f: Funds, p: Purse, amount: u64)
    ensures PayOut(f, p, amount).Ok? <==> CanReceive(f, p, amount)
  {
    hide Wallets.Total, Wallets.AllBooks;
  }

  /** A trader's volume counters have room for one more trade. */
  predicate CanRecord(s: Stats, amount: nat, epoch: nat) {
    && s.totalVolume + amount <= U64_MAX
    && (s.lastVolumeEpoch >= epoch ==> s.volumeCurrent + amount <= U64_MAX)
  }

  lemma RecordSucceedsIff(s: Stats, amount: u64, epoch: u64)
    ensures RecordVolume(s, amount, epoch).Ok? <==> CanRecord(s, amount, epoch)
  {
  }

  // ---------- Trades ----------

  /** The five payments of a buy, as each participant sees them. */
  lemma PaymentsOfABuy(f: Funds, s: Step, q: BuyQuote, config: Config, p: Purse)
    requires s.Buy? && q.toCurve + q.toTreasury + q.toCreator + q.devShare + q.protocolFee == s.sol
    requires PayForBuy(f, s, q, config).Ok?
    ensures Cash(PayForBuy(f, s, q, config).value, p)
      == Cash(f, p) - For(p, PurseOf(s.buyer, s.route), s.sol)
         + For(p, Wallet(config.dev), q.devShare) + For(p, Wallet(config.creator), q.toCreator)
  {
    hide Wallets.Total, Wallets.AllBooks, Wallets.Pay, Wallets.Debit, Wallets.Credit, Cash;
    match s.route
    case Via(v) =>
      var paid := Pay(f, TorchVault(v), s.sol).value;
      PayMoves(f, TorchVault(v), s.sol, p);
      CreditMoves(paid, config.dev, q.devShare, p);
      CreditMoves(Credit(paid, config.dev, q.devShare).value, config.creator, q.toCreator, p);
    case Direct =>
      var f1 := Debit(f, s.buyer, q.toCurve).value;
      var f2 := Debit(f1, s.buyer, q.toTreasury).value;
      var f3 := Debit(f2, s.buyer, q.devShare).value;
      var f4 := Credit(f3, config.dev, q.devShare).value;
      var f5 := Debit(f4, s.buyer, q.protocolFee).value;
      var f6 := Debit(f5, s.buyer, q.toCreator).value;
      DebitMoves(f, s.buyer, q.toCurve, p);
      DebitMoves(f1, s.buyer, q.toTreasury, p);
      DebitMoves(f2, s.buyer, q.devShare, p);
      CreditMoves(f3, config.dev, q.devShare, p);
      DebitMoves(f4, s.buyer, q.protocolFee, p);
      DebitMoves(f5, s.buyer, q.toCreator, p);
      CreditMoves(f6, config.creator, q.toCreator, p);
  }

  /**
   What the payments of a buy need: a payer who holds the amount, and room at the two recipients for what
   they have by then. A buyer who is the dev wallet gets the share back before the last two payments.
   */
  predicate CanPayForBuy(f: Funds, s: Step, q: BuyQuote, config: Config)
    requires s.Buy?
  {
    match s.route
    case Via(v) =>
      && CanPay(f, TorchVault(v), s.sol)
      && Get(f.wallets, config.dev) + q.devShare <= U64_MAX
      && Get(f.wallets, config.creator) + For(config.creator, config.dev, q.devShare) + q.toCreator <= U64_MAX
    case Direct =>
      var first := q.toCurve + q.toTreasury + q.devShare;
      && first <= Get(f.wallets, s.buyer)
      && s.sol <= Get(f.wallets, s.buyer) + For(config.dev, s.buyer, q.devShare)
      && Get(f.wallets, config.dev) - For(config.dev, s.buyer, first) + q.devShare <= U64_MAX
      && Get(f.wallets, config.creator) - For(config.creator, s.buyer, s.sol)
         + For(config.creator, config.dev, q.devShare) + q.toCreator <= U64_MAX
  }

  /** The payments of a buy succeed exactly then. */
  lemma PaymentsSucceedIff(f: Funds, s: Step, q: BuyQuote, config: Config)
    requires s.Buy? && q.toCurve + q.toTreasury + q.toCreator + q.devShare + q.protocolFee == s.sol
    ensures PayForBuy(f, s, q, config).Ok? <==> CanPayForBuy(f, s, q, config)
  {
    hide PayForBuy, CanPayForBuy;
    match s.route
    case Via(v) => VaultPaysIff(f, s, q, config);
    case Direct => WalletPaysIff(f, s, q, config);
  }

  lemma VaultPaysIff(f: Funds, s: Step, q: BuyQuote, config: Config)
    requires s.Buy? && s.route.Via?
    ensures PayForBuy(f, s, q, config).Ok? <==> CanPayForBuy(f, s, q, config)
  {
    hide Wallets.Total, Wallets.AllBooks;
  }

  lemma WalletPaysIff(f: Funds, s: Step, q: BuyQuote, config: Config)
    requires s.Buy? && s.route.Direct? && q.toCurve + q.toTreasury + q.toCreator + q.devShare + q.protocolFee == s.sol
    ensures PayForBuy(f, s, q, config).Ok? <==> CanPayForBuy(f, s, q, config)
  {
    hide PayUpToDev, Wallets.Total, Wallets.AllBooks;
    WalletPaysDevIff(f, s, q, config);
  }

  lemma WalletPaysDevIff(f: Funds, s: Step, q: BuyQuote, config: Config)
    requires s.Buy?
    ensures var first, dev := q.toCurve + q.toTreasury + q.devShare, PayUpToDev(f, s, q, config);
      && (dev.Ok? <==>
            && first <= Get(f.wallets, s.buyer)
            && Get(f.wallets, config.dev) - For(config.dev, s.buyer, first) + q.devShare <= U64_MAX)
      && (dev.Ok? ==> forall k ::
            Get(dev.value.wallets, k) == Get(f.wallets, k) - For(k, s.buyer, first) + For(k, config.dev, q.devShare))
  {
    hide Wallets.Total, Wallets.AllBooks;
  }

  /** The books of a buy: the quoted SOL into the reserves and the treasury, the tokens out. */
  lemma BooksOfABuy(w: World, s: Step, q: BuyQuote, tokens: Tokens, funds: Funds)
    requires s.Buy? && BookBuy(w, s, q, tokens, funds).Ok?
    ensures var w' := BookBuy(w, s, q, tokens, funds).value;
      && w'.tokens == tokens && w'.funds == funds && w'.loans == w.loans
      && w.curve.rtok - w'.curve.rtok == q.tokensOut && w'.curve.rsol - w.curve.rsol == q.toCurve
      && w'.treasury.sol - w.treasury.sol == q.toTreasury
      && w'.protocol == w.protocol.(lamports := w.protocol.lamports + q.protocolFee,
                                    feesReceived := w.protocol.feesReceived + q.protocolFee,
                                    volumeCurrent := w.protocol.volumeCurrent + s.sol)
  {
    hide RecordVolume;
  }

  /** A buyer pays exactly what was asked and receives what left the curve, less the transfer fee. */
  lemma BuyExchange(w: World, s: Step, q: BuyQuote, p: Purse, h: Holder)
    requires s.Buy? && QuoteBuy(w.curve, w.treasury.community, s.sol) == Ok(q) && SettleBuy(w, s, q).Ok?
    ensures var w' := SettleBuy(w, s, q).value;
      && Cash(w'.funds, p) == Cash(w.funds, p) - For(p, PurseOf(s.buyer, s.route), s.sol)
                              + For(p, Wallet(w.config.dev), q.devShare) + For(p, Wallet(w.config.creator), q.toCreator)
      && Get(w'.tokens.held, h) == Get(w.tokens.held, h) + For(h, Destination(s), Net(q.tokensOut))
      && w.curve.rtok - w'.curve.rtok == q.tokensOut && s.minTokens <= q.tokensOut
      && w'.curve.rsol - w.curve.rsol == q.toCurve && w'.treasury.sol - w.treasury.sol == q.toTreasury
      && w'.protocol.lamports == w.protocol.lamports + q.protocolFee
      && w'.protocol.feesReceived == w.protocol.feesReceived + q.protocolFee
      && w'.loans == w.loans
  {
    SplitIsExact(w.curve, w.treasury.community, s.sol);
    hide QuoteBuy, Cash, For, PayForBuy, BookBuy, Net, TokenLedger.FromCurve, Wallets.Total, Wallets.AllBooks,
      TokenLedger.Supply;
    PaymentsOfABuy(w.funds, s, q, w.config, p);
    DeliveryFromCurve(w.tokens, Destination(s), q.tokensOut, h);
    BooksOfABuy(w, s, q, FromCurve(w.tokens, Destination(s), q.tokensOut).value,
                PayForBuy(w.funds, s, q, w.config).value);
  }

  /** Everything an untracked buy changes. */
  lemma BuyOutcome(w: World, s: Step, q: BuyQuote)
    requires s.Buy? && !s.tracked && QuoteBuy(w.curve, w.treasury.community, s.sol) == Ok(q) && HandleBuy(w, s).Ok?
    ensures var w' := HandleBuy(w, s).value;
      && AfterBuy(w.curve, q.toCurve, q.tokensOut, s.slot) == Ok(w'.curve)
      && FromCurve(w.tokens, Destination(s), q.tokensOut) == Ok(w'.tokens)
      && PayForBuy(w.funds, s, q, w.config) == Ok(w'.funds)
      && w'.treasury == w.treasury.(lamports := w'.treasury.lamports, sol := w'.treasury.sol)
      && w'.treasury.lamports == w.treasury.lamports + q.toTreasury && w'.treasury.sol == w.treasury.sol + q.toTreasury
      && w'.protocol == w.protocol.(lamports := w'.protocol.lamports, feesReceived := w'.protocol.feesReceived,
                                    volumeCurrent := w'.protocol.volumeCurrent)
      && w'.protocol.lamports == w.protocol.lamports + q.protocolFee
      && w'.protocol.feesReceived == w.protocol.feesReceived + q.protocolFee
      && w'.protocol.volumeCurrent == w.protocol.volumeCurrent + s.sol
      && w' == w.(curve := w'.curve, treasury := w'.treasury, protocol := w'.protocol, tokens := w'.tokens,
                  funds := w'.funds)
  {
    hide QuoteBuy, PayForBuy, AfterBuy, TokenLedger.FromCurve, Wallets.Total, Wallets.AllBooks, TokenLedger.Supply;
  }

  lemma DeliveryFromCurve(t: Tokens, to: Holder, amount: u64, h: Holder)
    requires FromCurve(t, to, amount).Ok?
    ensures Get(FromCurve(t, to, amount).value.held, h) == Get(t.held, h) + For(h, to, Net(amount))
  {
    hide TokenLedger.Supply, Net;
  }

  /** A seller receives exactly what left the curve. */
  lemma SellExchange(w: World, s: Step, p: Purse, h: Holder)
    requires s.Sell? && HandleSell(w, s).Ok?
    ensures var w' := HandleSell(w, s).value;
      && Cash(w'.funds, p) == Cash(w.funds, p) + For(p, PurseOf(s.seller, s.route), w.curve.rsol - w'.curve.rsol)
      && Get(w'.tokens.held, h) == Get(w.tokens.held, h)
        - For(h, AtaOf(s.seller, s.route), w'.curve.rtok - w.curve.rtok)
      && w'.curve.rtok - w.curve.rtok == s.amount && s.minSol <= w.curve.rsol - w'.curve.rsol
      && w'.tokens.curveVault == w.tokens.curveVault + Net(s.amount)
      && w'.tokens.curveWithheld == w.tokens.curveWithheld + s.amount - Net(s.amount)
      && w'.loans == w.loans
  {
    hide QuoteSell, Cash, Wallets.PayOut, RecordVolume, Net, Wallets.Total, Wallets.AllBooks, TokenLedger.Supply;
    PayOutMoves(w.funds, PurseOf(s.seller, s.route), QuoteSell(w.curve, s.amount).value, p);
  }

  // ---------- Lending ----------

  /** A borrower gives collateral and gets the SOL asked for; no other position changes. */
  lemma BorrowExchange(w: World, s: Step, loan: Loan, p: Purse, h: Holder)
    requires s.Borrow? && SettleBorrow(w, s, loan).Ok?
    ensures var w' := SettleBorrow(w, s, loan).value;
      && Cash(w'.funds, p) == Cash(w.funds, p) + For(p, PurseOf(s.user, s.route), s.sol)
      && Get(w'.tokens.held, h) == Get(w.tokens.held, h) - For(h, AtaOf(s.user, s.route), s.collateral)
      && w'.loans - {s.user} == w.loans - {s.user}
      && Debt(w'.loans[s.user]) == Debt(loan) + s.sol && w'.treasury.lent == w.treasury.lent + s.sol
      && w'.loans[s.user].collateral == loan.collateral + Net(s.collateral)
  {
    BorrowMoves(w, s, loan, p, h);
    BorrowPosition(w, s, loan);
    hide SettleBorrow, Cash, For;
  }

  /** A borrow before it is booked: the collateral is locked, the limits are checked, the SOL is paid out. */
  lemma BeforeTheBooks(w: World, s: Step, loan: Loan) returns (before: World, deposited: u64)
    requires s.Borrow? && SettleBorrow(w, s, loan).Ok?
    ensures deposited == Net(s.collateral) && loan.collateral + deposited <= U64_MAX
    ensures before == w.(treasury := before.treasury, tokens := before.tokens, funds := before.funds)
    ensures Lend(w.treasury, loan, loan.collateral + deposited, s.sol) == Ok(before.treasury)
    ensures if s.collateral > 0 then ToCollateral(w.tokens, AtaOf(s.user, s.route), s.collateral) == Ok(before.tokens)
            else before.tokens == w.tokens
    ensures if s.sol > 0 then PayOut(w.funds, PurseOf(s.user, s.route), s.sol) == Ok(before.funds)
      else before.funds == w.funds
    ensures SettleBorrow(w, s, loan) == BookLoan(before, s, loan.(collateral := loan.collateral + deposited), deposited)
  {
    NothingToNet();
    hide BookLoan, Wallets.PayOut, WithinLtv, Lend, Net, TokenLedger.ToCollateral, Wallets.Total, Wallets.AllBooks,
      TokenLedger.Supply;
    deposited := Net(s.collateral);
    before := w.(treasury := Lend(w.treasury, loan, loan.collateral + deposited, s.sol).value,
                 tokens := SettleBorrow(w, s, loan).value.tokens, funds := SettleBorrow(w, s, loan).value.funds);
  }

  lemma BorrowMoves(w: World, s: Step, loan: Loan, p: Purse, h: Holder)
    requires s.Borrow? && SettleBorrow(w, s, loan).Ok?
    ensures var w' := SettleBorrow(w, s, loan).value;
      && Cash(w'.funds, p) == Cash(w.funds, p) + For(p, PurseOf(s.user, s.route), s.sol)
      && Get(w'.tokens.held, h) == Get(w.tokens.held, h) - For(h, AtaOf(s.user, s.route), s.collateral)
  {
    hide SettleBorrow, BookLoan, Cash, Wallets.PayOut, Lend, Net, Wallets.Total, Wallets.AllBooks, TokenLedger.Supply;
    var before, deposited := BeforeTheBooks(w, s, loan);
    if s.sol > 0 {
      PayOutMoves(w.funds, PurseOf(s.user, s.route), s.sol, p);
    }
  }

  lemma BorrowPosition(w: World, s: Step, loan: Loan)
    requires s.Borrow? && SettleBorrow(w, s, loan).Ok?
    ensures var w' := SettleBorrow(w, s, loan).value;
      && w'.loans == w.loans[s.user := w'.loans[s.user]]
      && w'.loans[s.user].borrowed == loan.borrowed + s.sol && w'.loans[s.user].accrued == loan.accrued
      && w'.loans[s.user].lastSlot == (if s.user in w.loans then loan.lastSlot else s.slot)
      && w'.loans[s.user].collateral == loan.collateral + Net(s.collateral)
      && w'.treasury.lent == w.treasury.lent + s.sol
      && w'.treasury.activeLoans == w.treasury.activeLoans + (if s.user in w.loans then 0 else 1)
  {
    hide SettleBorrow, Lend, Net, TokenLedger.ToCollateral, Wallets.PayOut;
    var before, deposited := BeforeTheBooks(w, s, loan);
  }

  lemma NothingToNet()
    ensures Net(0) == 0
  {
  }

  /**
   A repayment costs at most the debt; the collateral comes back, and the position closes, exactly when it
   covers the debt.
   */
  lemma RepayExchange(w: World, s: Step, loan: Loan, p: Purse, h: Holder)
    requires s.Repay? && SettleRepayment(w, s, loan).Ok?
    ensures var w' := SettleRepayment(w, s, loan).value; var full := Debt(loan) <= s.sol;
      && Cash(w'.funds, p) == Cash(w.funds, p) - For(p, PurseOf(s.user, s.route), Min(s.sol, Debt(loan)))
      && Get(w'.tokens.held, h) == Get(w.tokens.held, h)
        + For(h, AtaOf(s.user, s.route), if full then Net(loan.collateral) else 0)
      && w'.loans - {s.user} == w.loans - {s.user}
      && (s.user in w'.loans <==> !full)
      && (!full ==>
            && Debt(w'.loans[s.user]) + s.sol == Debt(loan) && w'.loans[s.user].collateral == loan.collateral
            && w'.loans[s.user].accrued == Max(loan.accrued - s.sol, 0) && w'.loans[s.user].lastSlot == loan.lastSlot)
  {
    hide Cash, Wallets.Pay, Collect, Net, Wallets.Total, Wallets.AllBooks, TokenLedger.Supply;
    PayMoves(w.funds, PurseOf(s.user, s.route), Min(s.sol, Debt(loan)), p);
  }

  /** The liquidator pays what is covered and receives what is seized; the borrower's own accounts are untouched. */
  lemma LiquidateExchange(w: World, s: Step, loan: Loan, cut: Seizure, p: Purse, h: Holder)
    requires s.Liquidate? && cut.seized <= loan.collateral && SettleLiquidation(w, s, loan, cut).Ok?
    ensures var w' := SettleLiquidation(w, s, loan, cut).value;
      && Cash(w'.funds, p) == Cash(w.funds, p) - For(p, PurseOf(s.liquidator, s.route), cut.covered)
      && Get(w'.tokens.held, h) == Get(w.tokens.held, h) + For(h, AtaOf(s.liquidator, s.route), Net(cut.seized))
      && w'.loans - {s.borrower} == w.loans - {s.borrower}
      && w'.loans[s.borrower].collateral + cut.seized == loan.collateral
      && w'.treasury.sol == w.treasury.sol + cut.covered
  {
    hide Cash, Wallets.Pay, InterestPart, PrincipalPart, Wallets.Total, Wallets.AllBooks, TokenLedger.Supply;
    if cut.covered > 0 {
      PayMoves(w.funds, PurseOf(s.liquidator, s.route), cut.covered, p);
    }
  }

  // ---------- Stars and rewards ----------

  /** A star costs its fixed price; the star that reaches the threshold first hands the whole pot to the creator. */
  lemma StarExchange(w: World, s: Step, p: Purse)
    requires s.Star? && HandleStar(w, s).Ok?
    ensures var w' := HandleStar(w, s).value; var pot := w.treasury.starSol + STAR_COST_LAMPORTS - w'.treasury.starSol;
      && Cash(w'.funds, p) == Cash(w.funds, p) - For(p, PurseOf(s.user, s.route), STAR_COST_LAMPORTS)
                              + For(p, Wallet(w.config.creator), pot)
      && (pot > 0 <==> !w.treasury.paidOut && w'.treasury.paidOut)
      && (w'.treasury.paidOut <==> w.treasury.paidOut || CREATOR_REWARD_THRESHOLD <= w'.treasury.stars)
      && (pot > 0 ==> w'.treasury.starSol == 0)
      && w'.treasury.sol == w.treasury.sol
  {
    hide Cash, Wallets.Pay, Wallets.Credit, Wallets.Total, Wallets.AllBooks;
    PayMoves(w.funds, PurseOf(s.user, s.route), STAR_COST_LAMPORTS, p);
    CreditMoves(Pay(w.funds, PurseOf(s.user, s.route), STAR_COST_LAMPORTS).value, w.config.creator,
                Min(U64_MAX, w.treasury.starSol + STAR_COST_LAMPORTS), p);
  }

  /** A claim moves SOL from the pool to the claimant's purse and changes nobody else's counters. */
  lemma ClaimExchange(w: World, s: Step, p: Purse)
    requires s.Claim? && HandleClaim(w, s).Ok?
    ensures var w' := HandleClaim(w, s).value; var paid := w.protocol.lamports - w'.protocol.lamports;
      && Cash(w'.funds, p) == Cash(w.funds, p) + For(p, PurseOf(s.user, s.route), paid)
      && w'.protocol.distributed == w.protocol.distributed + paid
      && w'.stats[s.user].claimed == w.stats[s.user].claimed + paid
      && w'.stats - {s.user} == w.stats - {s.user}
  {
    hide Cash, Wallets.PayOut, TorchMath.CalcClaimWithCap, Wallets.Total, Wallets.AllBooks;
    PayOutMoves(w.funds, PurseOf(s.user, s.route), w.protocol.lamports - HandleClaim(w, s).value.protocol.lamports, p);
  }

  // ---------- Reclaim and revival ----------

  /**
   Only a token idle for the whole period is reclaimed; all its SOL but the star pot goes to the protocol,
   nothing else moves.
   */
  lemma ReclaimExchange(w: World, s: Step)
    requires s.Reclaim? && HandleReclaim(w, s).Ok?
    ensures var w' := HandleReclaim(w, s).value;
      && w.curve.lastActivity + INACTIVITY_PERIOD_SLOTS <= s.slot && !w.curve.complete
      && w'.protocol.lamports == w.protocol.lamports + w.curve.rsol + w.treasury.sol
      && w'.protocol.feesReceived == w.protocol.feesReceived + w.curve.rsol + w.treasury.sol
      && w'.curve.lamports == w.curve.lamports - w.curve.rsol
      && w'.treasury.lamports == w.treasury.lamports - w.treasury.sol
      && w'.curve.rsol == w'.treasury.sol == 0 && w'.curve.reclaimed
      && w'.treasury.starSol == w.treasury.starSol && w'.funds == w.funds && w'.tokens == w.tokens
      && HandleReclaim(w', s) == Err(AlreadyReclaimed)
  {
  }

  /**
   A contribution moves from the contributor to the reserves, and revives the token exactly when they reach
   its initial virtual SOL.
   */
  lemma ReviveExchange(w: World, s: Step, p: Purse)
    requires s.Revive? && HandleRevive(w, s).Ok?
    ensures var w' := HandleRevive(w, s).value;
      && Cash(w'.funds, p) == Cash(w.funds, p) - For(p, Wallet(s.contributor), s.sol)
      && w'.curve.rsol == w.curve.rsol + s.sol && w'.curve.lamports == w.curve.lamports + s.sol
      && w'.curve.vsol == w.curve.vsol && w'.curve.vtok == w.curve.vtok
      && (w'.curve.reclaimed <==> w'.curve.rsol < InitialVirtualReserves(w.curve.target).0)
  {
    hide Cash, Wallets.Debit, Wallets.Total;
    DebitMoves(w.funds, s.contributor, s.sol, p);
  }

  // ---------- Vaults ----------

  /** Withdrawing what was just deposited gives the depositor's lamports and the vault's balance back. */
  lemma WithdrawUndoesDeposit(f: Funds, user: Key, k: Key, amount: u64, p: Purse)
    requires Deposit(f, user, k, amount).Ok?
    requires Withdraw(Deposit(f, user, k, amount).value, user, k, amount).Ok?
    ensures var back := Withdraw(Deposit(f, user, k, amount).value, user, k, amount).value;
      && Cash(back, p) == Cash(f, p)
      && back.vaults[k].lamports == f.vaults[k].lamports
      && back.vaults[k].withdrawn - f.vaults[k].withdrawn == back.vaults[k].deposited - f.vaults[k].deposited == amount
  {
    hide Wallets.Total, Wallets.AllBooks;
  }
}
