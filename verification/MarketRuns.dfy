/** What holds of the account objects themselves, after any transactions on a new token. */
module MarketRuns {
  import opened Base
  import opened Accounts
  import opened Program
  import opened Handlers
  import opened LoanBook
  import opened RewardProperties
  import opened CashProperties
  import opened CurveProperties
  import opened CurveGuarantees
  import opened ReachableStates

  /** Creates a token and executes the transactions sent to it. */
  method Operate(config: Config, target: u64, community: bool, shortsEnabled: bool, slot: u64, wallets: map<Key, nat>,
                 poolLamports: u64, now: i64, steps: seq<Step>)
    returns (market: Market)
    ensures fresh(market)
    ensures market.View()
      == Run(Genesis(config, target, community, shortsEnabled, slot, wallets, poolLamports, now), steps)
    ensures BookSound(market.View()) && PoolSound(market.View()) && SupplyKept(market.View())
      && BooksMatchCash(market.View())
  {
    hide Genesis, Run, BookSound, PoolSound, SupplyKept, BooksMatchCash, Market.View;
    market := new Market(config, target, community, shortsEnabled, slot, wallets, poolLamports, now);
    ghost var w0 := market.View();
    market.ExecuteAll(steps);
    assert IsGenesis(w0);
    EveryReachedStateIsSound(market.View());
  }
}
