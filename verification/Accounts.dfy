/** The accounts the handlers read and write. Lamports are each account's cash on chain. */
module Accounts {
  import opened Base
  import opened Constants
  import opened TokenLedger
  import opened Wallets

  datatype Curve = Curve(
    vsol: u64,              // virtual_sol_reserves
    vtok: u64,              // virtual_token_reserves
    rsol: u64,              // real_sol_reserves
    rtok: u64,              // real_token_reserves
    complete: bool,         // bonding_complete
    completeSlot: u64,
    migrated: bool,
    reclaimed: bool,
    lastActivity: u64,
    target: u64,            // bonding_target, 0 for the default tier
    lamports: u64)

  datatype Treasury = Treasury(
    sol: u64,               // sol_balance
    starSol: u64,
    stars: u64,
    paidOut: bool,          // creator_paid_out
    lent: u64,              // total_sol_lent
    locked: u64,            // total_collateral_locked
    activeLoans: u64,
    interest: u64,          // total_interest_collected
    shortReserved: u64,     // total_burned_from_buyback, reused for short collateral
    shortsEnabled: bool,    // buyback_percent_bps == SHORT_ENABLED_SENTINEL
    community: bool,        // total_bought_back == COMMUNITY_TOKEN_SENTINEL
    baselineSol: u64,
    baselineTok: u64,
    baselineSet: bool,
    lamports: u64)

  datatype Loan = Loan(collateral: u64, borrowed: u64, accrued: u64, lastSlot: u64)

  datatype Protocol = Protocol(
    balance: u64,           // current_balance
    floor: u64,             // reserve_floor
    feesReceived: u64,
    distributed: u64,
    epoch: u64,
    lastEpochTs: i64,
    volumeCurrent: u64,
    volumePrevious: u64,
    distributable: u64,
    lamports: u64)

  datatype Stats = Stats(
    totalVolume: u64,
    volumeCurrent: u64,
    volumePrevious: u64,
    lastClaimed: u64,       // last_epoch_claimed
    claimed: u64,           // total_rewards_claimed
    lastVolumeEpoch: u64)

  /** Fixed facts about one token: who is paid, and each account's rent-exempt minimum. */
  datatype Config = Config(
    creator: Key, dev: Key,
    curveRent: u64, treasuryRent: u64, protocolRent: u64, vaultRent: u64)

  /** Everything on chain that the modelled handlers touch, for one token. */
  datatype World = World(
    config: Config,
    curve: Curve,
    treasury: Treasury,
    protocol: Protocol,
    loans: map<Key, Loan>,
    shorts: map<Key, nat>,  // SOL collateral of each short position
    stats: map<Key, Stats>,
    starred: set<Key>,
    funds: Funds,
    tokens: Tokens,
    outside: nat)           // lamports held elsewhere: the DEX pool, migration fees, other tokens

  const NO_STATS := Stats(0, 0, 0, 0, 0, 0)
  const NO_LOAN := Loan(0, 0, 0, 0)
}
