/**
 Torch vaults: when they can be created, filled and emptied, and that a vault's trades leave its owner's own
 accounts alone.
 */
module VaultOperations {
  import opened Base
  import opened Constants
  import opened TokenLedger
  import opened Wallets
  import opened Accounts
  import opened BondingCurve
  import opened Lending
  import opened Program
  import opened Exchanges
  import opened ReachableStates
  import CashProperties
  import CurveProperties
  import LoanBook
  import RewardProperties
  import TorchMath

  // ---------- Creating, filling and emptying ----------

  /** A vault is created exactly when its owner has none and can pay the rent, which is all that moves. */
  lemma CreateTerms(f: Funds, owner: Key, rent: u64)
    ensures Create(f, owner, rent).Ok? <==> owner !in f.vaults && rent <= Get(f.wallets, owner)
    ensures Create(f, owner, rent).Ok? ==>
      var f' := Create(f, owner, rent).value;
      && f'.vaults == f.vaults[owner := Vault(0, 0, 0, 0, 0, rent)]
      && forall k :: Get(f'.wallets, k) == Get(f.wallets, k) - For(k, owner, rent)
  {
    hide Wallets.Total;
  }

  /** Anyone can deposit into an existing vault what their wallet holds and its counters have room for. */
  lemma DepositSucceedsIff(f: Funds, from: Key, k: Key, amount: u64)
    ensures Deposit(f, from, k, amount).Ok? <==>
      && 0 < amount <= Get(f.wallets, from) && k in f.vaults
      && f.vaults[k].lamports + amount <= U64_MAX && f.vaults[k].sol + amount <= U64_MAX
      && f.vaults[k].deposited + amount <= U64_MAX
  {
    hide Wallets.Total, Wallets.AllBooks;
  }

  /**
   A deposit moves its amount from the depositor's wallet to the vault's ledger and cash, and is counted as
   deposited.
   */
  lemma DepositMoves(f: Funds, from: Key, k: Key, amount: u64)
    requires Deposit(f, from, k, amount).Ok?
    ensures var f' := Deposit(f, from, k, amount).value; var v := f.vaults[k];
      && f'.vaults == f.vaults[k := Vault(v.sol + amount, v.deposited + amount, v.withdrawn, v.spent, v.received,
                                          v.lamports + amount)]
      && forall u :: Get(f'.wallets, u) == Get(f.wallets, u) - For(u, from, amount)
  {
    hide Wallets.Total, Wallets.AllBooks;
  }

  /** What the vault's ledger and cash hold can be taken out, by a recipient with room for it. */
  lemma WithdrawSucceedsIff(f: Funds, to: Key, k: Key, amount: u64)
    ensures Withdraw(f, to, k, amount).Ok? <==>
      && 0 < amount && k in f.vaults && amount <= f.vaults[k].sol && amount <= f.vaults[k].lamports
      && f.vaults[k].withdrawn + amount <= U64_MAX && Get(f.wallets, to) + amount <= U64_MAX
  {
    hide Wallets.Total, Wallets.AllBooks;
  }

  /** A withdrawal moves its amount from the vault to the wallet and is counted as withdrawn. */
  lemma WithdrawMoves(f: Funds, to: Key, k: Key, amount: u64)
    requires Withdraw(f, to, k, amount).Ok?
    ensures var f' := Withdraw(f, to, k, amount).value; var v := f.vaults[k];
      && f'.vaults == f.vaults[k := Vault(v.sol - amount, v.deposited, v.withdrawn + amount, v.spent, v.received,
                                          v.lamports - amount)]
      && forall u :: Get(f'.wallets, u) == Get(f.wallets, u) + For(u, to, amount)
  {
    hide Wallets.Total, Wallets.AllBooks;
  }

  /**
   In every reachable state a vault's whole balance, or any part of it, can be withdrawn: the cash is there,
   and only the counter of withdrawals and the recipient's wallet must have room.
   */
  lemma WithdrawalsSucceedIff(w: World, s: Step)
    requires Reached(w) && s.WithdrawVault?
    ensures Handle(w, s).Ok? <==>
      && 0 < s.sol && s.vault in w.funds.vaults && s.sol <= w.funds.vaults[s.vault].sol
      && w.funds.vaults[s.vault].withdrawn + s.sol <= U64_MAX && Get(w.funds.wallets, s.user) + s.sol <= U64_MAX
  {
    hide Reached, Wallets.Withdraw, LoanBook.BookSound, RewardProperties.PoolSound, CurveProperties.SupplyKept;
    EveryReachedStateIsSound(w);
    WithdrawSucceedsIff(w.funds, s.user, s.vault, s.sol);
  }

  // ---------- Trading through a vault ----------

  /**
   A buy through a vault is paid from the vault's balance. The tokens go to the vault's account if that is
   asked for and to the buyer's otherwise, and the other of the two accounts is untouched.
   */
  lemma VaultBuys(w: World, s: Step, v: Key, q: BuyQuote)
    requires s.Buy? && s.route == Via(v)
    requires QuoteBuy(w.curve, w.treasury.community, s.sol) == Ok(q) && SettleBuy(w, s, q).Ok?
    ensures var w' := SettleBuy(w, s, q).value;
      && Cash(w'.funds, TorchVault(v)) == Cash(w.funds, TorchVault(v)) - s.sol
      && Get(w'.funds.wallets, s.buyer)
           == Get(w.funds.wallets, s.buyer) + For(s.buyer, w.config.dev, q.devShare)
              + For(s.buyer, w.config.creator, q.toCreator)
      && Get(w'.tokens.held, VaultAta(v))
           == Get(w.tokens.held, VaultAta(v)) + (if s.tokensToVault then Net(q.tokensOut) else 0)
      && Get(w'.tokens.held, UserAta(s.buyer))
           == Get(w.tokens.held, UserAta(s.buyer)) + (if s.tokensToVault then 0 else Net(q.tokensOut))
  {
    hide QuoteBuy, SettleBuy, Net;
    BuyExchange(w, s, q, TorchVault(v), VaultAta(v));
    BuyExchange(w, s, q, Wallet(s.buyer), UserAta(s.buyer));
  }

  /** A sale through a vault takes the vault's tokens and pays the vault; the seller's own accounts are untouched. */
  lemma VaultSells(w: World, s: Step, v: Key)
    requires s.Sell? && s.route == Via(v) && HandleSell(w, s).Ok?
    ensures var w' := HandleSell(w, s).value;
      && Cash(w'.funds, TorchVault(v)) == Cash(w.funds, TorchVault(v)) + w.curve.rsol - w'.curve.rsol
      && Get(w'.funds.wallets, s.seller) == Get(w.funds.wallets, s.seller)
      && Get(w'.tokens.held, VaultAta(v)) + s.amount == Get(w.tokens.held, VaultAta(v))
      && Get(w'.tokens.held, UserAta(s.seller)) == Get(w.tokens.held, UserAta(s.seller))
  {
    hide HandleSell;
    SellExchange(w, s, TorchVault(v), VaultAta(v));
    SellExchange(w, s, Wallet(s.seller), UserAta(s.seller));
  }

  /** A loan taken through a vault is backed by the vault's tokens and paid to the vault. */
  lemma VaultBorrows(w: World, s: Step, v: Key, loan: Loan)
    requires s.Borrow? && s.route == Via(v) && SettleBorrow(w, s, loan).Ok?
    ensures var w' := SettleBorrow(w, s, loan).value;
      && Cash(w'.funds, TorchVault(v)) == Cash(w.funds, TorchVault(v)) + s.sol
      && Get(w'.funds.wallets, s.user) == Get(w.funds.wallets, s.user)
      && Get(w'.tokens.held, VaultAta(v)) + s.collateral == Get(w.tokens.held, VaultAta(v))
      && Get(w'.tokens.held, UserAta(s.user)) == Get(w.tokens.held, UserAta(s.user))
  {
    hide SettleBorrow;
    BorrowExchange(w, s, loan, TorchVault(v), VaultAta(v));
    BorrowExchange(w, s, loan, Wallet(s.user), UserAta(s.user));
  }

  /** A repayment through a vault is paid by the vault, and the collateral comes back to the vault. */
  lemma VaultRepays(w: World, s: Step, v: Key, loan: Loan)
    requires s.Repay? && s.route == Via(v) && SettleRepayment(w, s, loan).Ok?
    ensures var w' := SettleRepayment(w, s, loan).value; var full := Debt(loan) <= s.sol;
      && Cash(w'.funds, TorchVault(v)) == Cash(w.funds, TorchVault(v)) - Min(s.sol, Debt(loan))
      && Get(w'.funds.wallets, s.user) == Get(w.funds.wallets, s.user)
      && Get(w'.tokens.held, VaultAta(v))
           == Get(w.tokens.held, VaultAta(v)) + (if full then Net(loan.collateral) else 0)
      && Get(w'.tokens.held, UserAta(s.user)) == Get(w.tokens.held, UserAta(s.user))
  {
    hide SettleRepayment, Net;
    RepayExchange(w, s, loan, TorchVault(v), VaultAta(v));
    RepayExchange(w, s, loan, Wallet(s.user), UserAta(s.user));
  }

  /** A liquidation through a vault is paid by the vault, and what is seized goes to the vault. */
  lemma VaultLiquidates(w: World, s: Step, v: Key, loan: Loan, cut: Seizure)
    requires s.Liquidate? && s.route == Via(v)
    requires cut.seized <= loan.collateral && SettleLiquidation(w, s, loan, cut).Ok?
    ensures var w' := SettleLiquidation(w, s, loan, cut).value;
      && Cash(w'.funds, TorchVault(v)) == Cash(w.funds, TorchVault(v)) - cut.covered
      && Get(w'.funds.wallets, s.liquidator) == Get(w.funds.wallets, s.liquidator)
      && Get(w'.tokens.held, VaultAta(v)) == Get(w.tokens.held, VaultAta(v)) + Net(cut.seized)
      && Get(w'.tokens.held, UserAta(s.liquidator)) == Get(w.tokens.held, UserAta(s.liquidator))
  {
    hide SettleLiquidation, Net;
    LiquidateExchange(w, s, loan, cut, TorchVault(v), VaultAta(v));
    LiquidateExchange(w, s, loan, cut, Wallet(s.liquidator), UserAta(s.liquidator));
  }

  /** A reward claimed through a vault is paid to the vault. */
  lemma VaultClaims(w: World, s: Step, v: Key)
    requires s.Claim? && s.route == Via(v) && HandleClaim(w, s).Ok?
    ensures var w' := HandleClaim(w, s).value;
      && Cash(w'.funds, TorchVault(v)) == Cash(w.funds, TorchVault(v)) + w.protocol.lamports - w'.protocol.lamports
      && Get(w'.funds.wallets, s.user) == Get(w.funds.wallets, s.user)
  {
    hide HandleClaim;
    ClaimExchange(w, s, TorchVault(v));
    ClaimExchange(w, s, Wallet(s.user));
  }
}
