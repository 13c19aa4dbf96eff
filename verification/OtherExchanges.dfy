/**
 Who pays and who receives in the remaining instructions, and when they go through: short collateral,
 transfers, other tokens.
 */
module OtherExchanges {
  import opened Base
  import opened Constants
  import opened TokenLedger
  import opened Wallets
  import opened Accounts
  import opened Program
  import opened Exchanges
  import opened LoanBook
  import opened ReachableStates
  import CashProperties
  import CurveProperties
  import RewardProperties
  import TorchMath
  import MapSum

  // ---------- Short collateral ----------

  /**
   Collateral can be posted exactly on a migrated token with shorts enabled, by whoever can pay it, while the
   counters have room.
   */
  lemma PostSucceedsIff(w: World, s: Step)
    requires s.PostShort?
    ensures HandlePostShort(w, s).Ok? <==>
      && w.curve.migrated && !w.curve.reclaimed && w.treasury.shortsEnabled && 0 < s.sol
      && CanPay(w.funds, PurseOf(s.user, s.route), s.sol)
      && w.treasury.lamports + s.sol <= U64_MAX && w.treasury.sol + s.sol <= U64_MAX
      && w.treasury.shortReserved + s.sol <= U64_MAX && Get(w.shorts, s.user) + s.sol <= U64_MAX
  {
    hide Wallets.Pay, CanPay, Wallets.Total, Wallets.AllBooks;
    PaySucceedsIff(w.funds, PurseOf(s.user, s.route), s.sol);
  }

  /** It moves from the purse into the treasury and is reserved for the position, all of it. */
  lemma PostExchange(w: World, s: Step, p: Purse, k: Key)
    requires s.PostShort? && HandlePostShort(w, s).Ok?
    ensures var w' := HandlePostShort(w, s).value;
      && Cash(w'.funds, p) == Cash(w.funds, p) - For(p, PurseOf(s.user, s.route), s.sol)
      && Get(w'.shorts, k) == Get(w.shorts, k) + For(k, s.user, s.sol)
      && w'.treasury.sol == w.treasury.sol + s.sol && w'.treasury.lamports == w.treasury.lamports + s.sol
      && w'.treasury.shortReserved == w.treasury.shortReserved + s.sol
  {
    hide Wallets.Pay, Cash, Wallets.Total, Wallets.AllBooks;
    PayMoves(w.funds, PurseOf(s.user, s.route), s.sol, p);
  }

  /** In every reachable state any part of a position's collateral can be released to a purse with room for it. */
  lemma ReleasesSucceedIff(w: World, s: Step)
    requires Reached(w) && s.ReleaseShort?
    ensures HandleReleaseShort(w, s).Ok? <==> s.sol <= Get(w.shorts, s.user) && CanReceive(w.funds, s.to, s.sol)
  {
    ShortCollateralIsThere(w, s.user);
    PayOutSucceedsIff(w.funds, s.to, s.sol);
    hide Reached, Wallets.PayOut, CanReceive, Wallets.Total, Wallets.AllBooks;
  }

  /** What is released leaves treasury, reserve and position, and reaches the purse. */
  lemma ReleaseExchange(w: World, s: Step, p: Purse, k: Key)
    requires Reached(w) && s.ReleaseShort? && HandleReleaseShort(w, s).Ok?
    ensures var w' := HandleReleaseShort(w, s).value;
      && Cash(w'.funds, p) == Cash(w.funds, p) + For(p, s.to, s.sol)
      && Get(w'.shorts, k) == Get(w.shorts, k) - For(k, s.user, s.sol)
      && w'.treasury.sol == w.treasury.sol - s.sol && w'.treasury.lamports == w.treasury.lamports - s.sol
      && w'.treasury.shortReserved == w.treasury.shortReserved - s.sol
  {
    hide Reached, Wallets.PayOut, Cash, Wallets.Total, Wallets.AllBooks;
    ReserveCovers(w, s.user);
    PayOutMoves(w.funds, s.to, s.sol, p);
  }

  lemma ReserveCovers(w: World, user: Key)
    requires Reached(w)
    ensures Get(w.shorts, user) <= w.treasury.shortReserved
  {
    hide Reached, RewardProperties.PoolSound, CurveProperties.SupplyKept, CashProperties.BooksMatchCash,
      CollateralBacked,
      MapSum.Sum;
    EveryReachedStateIsSound(w);
    MapSum.Member(w.shorts, user);
  }

  // ---------- Plain transfers ----------

  /** SOL moves from one wallet to another exactly when the one holds it and the other has room. */
  lemma SolTransfers(f: Funds, payer: Key, payee: Key, sol: u64)
    ensures TransferBetween(f, payer, payee, sol).Ok? <==>
      sol <= Get(f.wallets, payer) && Get(f.wallets, payee) - For(payee, payer, sol) + sol <= U64_MAX
    ensures TransferBetween(f, payer, payee, sol).Ok? ==>
      var f' := TransferBetween(f, payer, payee, sol).value;
      && f'.vaults == f.vaults
      && forall k :: Get(f'.wallets, k) == Get(f.wallets, k) - For(k, payer, sol) + For(k, payee, sol)
  {
    hide Wallets.Total;
  }

  /**
   Tokens move from one holder to another, less the transfer fee, exactly when the one has them; before
   migration nothing leaves the lock, and the pool neither gives nor takes.
   */
  lemma TokenTransfers(w: World, s: Step)
    requires s.TransferTokens?
    ensures HandleTransferTokens(w, s).Ok? <==>
      && s.amount <= Get(w.tokens.held, s.from)
      && (w.curve.migrated || (s.from != DexPool && s.from != TreasuryLock && s.dest != DexPool))
    ensures HandleTransferTokens(w, s).Ok? ==>
      var t, t' := w.tokens, HandleTransferTokens(w, s).value.tokens;
      && t'.withheld == t.withheld + s.amount - Net(s.amount)
      && t'.curveVault == t.curveVault && t'.collateral == t.collateral && t'.burned == t.burned
      && forall h :: Get(t'.held, h) == Get(t.held, h) - For(h, s.from, s.amount) + For(h, s.dest, Net(s.amount))
  {
    hide TorchMath.CalcTransferFee, TokenLedger.Supply;
  }

  // ---------- Other tokens ----------

  /**
   A purchase of another token is paid from the buyer's purse; protocol, dev wallet and that token's creator
   get their shares.
   */
  lemma BuyElsewhereExchange(w: World, s: Step, p: Purse)
    requires s.BuyElsewhere? && HandleBuyElsewhere(w, s).Ok?
    ensures var w' := HandleBuyElsewhere(w, s).value;
      && Cash(w'.funds, p) == Cash(w.funds, p) - For(p, PurseOf(s.buyer, s.route), s.sol)
                              + For(p, Wallet(w.config.dev), s.devShare) + For(p, Wallet(s.creator), s.creatorShare)
      && w'.protocol.lamports == w.protocol.lamports + s.fee
      && w'.protocol.feesReceived == w.protocol.feesReceived + s.fee
      && w'.outside == w.outside + s.sol - s.fee - s.devShare - s.creatorShare
  {
    hide Cash, Wallets.Pay, Wallets.Credit, RecordVolume, Wallets.Total, Wallets.AllBooks;
    PayMoves(w.funds, PurseOf(s.buyer, s.route), s.sol, p);
    var paid := Pay(w.funds, PurseOf(s.buyer, s.route), s.sol).value;
    CreditMoves(paid, w.config.dev, s.devShare, p);
    CreditMoves(Credit(paid, w.config.dev, s.devShare).value, s.creator, s.creatorShare, p);
  }

  /**
   It goes through exactly when the shares are within the amount, the purse can pay it, the two recipients
   have room for theirs, and so have pool, counters and statistics.
   */
  lemma BuyElsewhereSucceedsIff(w: World, s: Step)
    requires s.BuyElsewhere?
    ensures var spent := if s.route.Direct? then s.sol else 0;
      HandleBuyElsewhere(w, s).Ok? <==>
      && s.fee + s.devShare + s.creatorShare <= s.sol && CanPay(w.funds, PurseOf(s.buyer, s.route), s.sol)
      && Get(w.funds.wallets, w.config.dev) - For(w.config.dev, s.buyer, spent) + s.devShare <= U64_MAX
      && Get(w.funds.wallets, s.creator) - For(s.creator, s.buyer, spent) + For(s.creator, w.config.dev, s.devShare)
         + s.creatorShare <= U64_MAX
      && w.protocol.lamports + s.fee <= U64_MAX && w.protocol.feesReceived + s.fee <= U64_MAX
      && w.protocol.volumeCurrent + s.sol <= U64_MAX
      && (s.tracked ==> CanRecord(StatsOf(w, s.buyer), s.sol, w.protocol.epoch))
  {
    hide CanRecord, RecordVolume, Wallets.Total, Wallets.AllBooks;
    RecordSucceedsIff(StatsOf(w, s.buyer), s.sol, w.protocol.epoch);
  }

  /** A sale, or a reclaim, of another token goes through exactly when its SOL is there and can be received. */
  lemma OtherElsewhereSucceedsIff(w: World, s: Step)
    requires s.SellElsewhere? || s.ReclaimElsewhere?
    ensures s.SellElsewhere? ==> (HandleSellElsewhere(w, s).Ok? <==>
      && s.sol <= w.outside && (s.tracked ==> s.seller in w.stats)
      && CanReceive(w.funds, PurseOf(s.seller, s.route), s.sol)
      && (s.withProtocol ==> w.protocol.volumeCurrent + s.sol <= U64_MAX)
      && (s.tracked && s.withProtocol ==> CanRecord(w.stats[s.seller], s.sol, w.protocol.epoch)))
    ensures s.ReclaimElsewhere? ==> (HandleReclaimElsewhere(w, s).Ok? <==>
      && s.sol <= w.outside
      && w.protocol.lamports + s.sol <= U64_MAX && w.protocol.feesReceived + s.sol <= U64_MAX)
  {
    hide CanRecord, RecordVolume, CanReceive, Wallets.PayOut, Wallets.Total, Wallets.AllBooks;
    if s.SellElsewhere? {
      PayOutSucceedsIff(w.funds, PurseOf(s.seller, s.route), s.sol);
      if s.tracked && s.seller in w.stats {
        RecordSucceedsIff(w.stats[s.seller], s.sol, w.protocol.epoch);
      }
    }
  }

  /** A sale of another token pays the seller's purse; a reclaim of one pays the protocol treasury. */
  lemma OtherElsewhereExchange(w: World, s: Step, p: Purse)
    requires s.SellElsewhere? || s.ReclaimElsewhere?
    ensures s.SellElsewhere? && HandleSellElsewhere(w, s).Ok? ==>
      var w' := HandleSellElsewhere(w, s).value;
      && Cash(w'.funds, p) == Cash(w.funds, p) + For(p, PurseOf(s.seller, s.route), s.sol)
      && w'.outside == w.outside - s.sol && w'.protocol.lamports == w.protocol.lamports
    ensures s.ReclaimElsewhere? && HandleReclaimElsewhere(w, s).Ok? ==>
      var w' := HandleReclaimElsewhere(w, s).value;
      && w'.funds == w.funds && w'.outside == w.outside - s.sol
      && w'.protocol.lamports == w.protocol.lamports + s.sol
      && w'.protocol.feesReceived == w.protocol.feesReceived + s.sol
  {
    hide Cash, Wallets.PayOut, RecordVolume, Wallets.Total, Wallets.AllBooks;
    if s.SellElsewhere? {
      PayOutMoves(w.funds, PurseOf(s.seller, s.route), s.sol, p);
    }
  }
}
