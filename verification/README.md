# Torch Market: a verified model of its on-chain accounting

This project models the state of one Torch Market token and proves what its handlers guarantee. The
state is the bonding curve, the token treasury with its loan book, the traders' wallets and vaults,
the token ledger and the protocol-wide reward pool. Every handler is one atomic step; a run is any
sequence of steps by anyone, and the main results hold for every run and all machine-integer inputs.

`dafny verify dfyconfig.toml` checks the whole project (Dafny 4.11).

## How it is organised

- `Base`, `Constants`, `FloorDivision`, `MapSum`: machine integers and errors, the protocol's
  parameters, and the two pieces of mathematics everything rests on.
- `TorchMath`, `BondingCurve`, `Lending`, `TokenLedger`, `Wallets`, `Accounts`: the arithmetic and the
  accounts, as values. Token-2022's transfer fee is withheld on every transfer.
- `Program`: each handler as a function from a world to the next world or to the error it aborts with,
  guards in the program's order; `Apply`, `Run` and `Genesis` make it a state machine.
- `AccountObjects`, `Handlers`: the same handlers in the program's own form, as methods that check,
  then assign account fields one by one. A failure in the middle leaves half-updated accounts, as in
  the program, and `Market.Execute` restores them, as the runtime does. Each method is proved against
  its function, so every theorem about `Run` is about these methods too.
- `Frames`: for every instruction, the accounts it leaves alone.
- `CashProperties`, `Exchanges`: conservation of SOL, and who pays whom.
- `VaultOperations`, `OtherExchanges`, `Stars`: the same for vaults, shorts, transfers, other tokens and stars.
- `CurveProperties`, `CurveGuarantees`, `OrderSplitting`: redemption, no extraction, graduation, exactly
  which trades go through, buying in pieces.
- `Migration`, `Activity`: what a migration costs and when it goes through; who can be reclaimed, told from
  the trades of the run.
- `LoanBook`, `LoanCount`, `LiquidationProperties`, `LoanHistory`, `Interest`: aggregates, liquidation terms,
  cascades, interest.
- `TreasurySolvency`, `BorrowLimits`: whether what is owed stays covered, and when a borrow goes through.
- `RewardProperties`, `VolumeHistory`, `ProtocolVolume`: epochs, claims and the volume they are paid for.
- `ReachableStates`: all invariants together, from creation on.
- `SdkQuotes`: the SDK's second implementation of the curve arithmetic against the program's.
- `TradingScenarios`, `LendingScenarios`: runs that end where a natural claim fails. `MarketRuns`: the
  invariants, of the account objects themselves.

## Where a natural claim is false

Each of these keeps the code as it is, shows by a concrete input that the claim fails, and gives the
condition under which it holds, or bounds by how much it fails.

- `total_sol_lent` is not always the sum of the open principals. A bad-debt write-off removes the
  whole shortfall although the loan itself only saturates, so a debt that is mostly interest takes from
  other loans (`LossExceedsPrincipalExample`). It stays exact if and only if the loss fits in the loan's
  own principal or no other principal is open (`LiquidationIsExactIff`), and it fits if and only if the
  condition of `LossFitsIff` on loan and pool holds.
- Invariant I3 of docs/risk.md, that a fifth of what borrowers owe is liquid, does not always hold. The cap
  on borrowing looks at `total_sol_lent`, so SOL that a write-off has dropped from the total is lent again
  (`LentTwiceExample`). The cover is lost exactly by a borrow for which the principals themselves are too
  many (`CoverIsLostIff`). It holds on every run whose losses fit (`LossFreeTreasuryIsSolvent`), and on any
  run fails by no more than the misfits (`PrincipalsAreBounded`).
- Invariant I6, that one user's borrow leaves the others' caps alone, does not hold: a cap is a share of what
  is liquid now, which every borrow lowers (`CapFallsExample`). `BorrowLowersCaps` says by how much.
- Splitting a purchase does not always gain nothing. On the curve alone it does (`SplittingGainsNothing`),
  but the treasury's rate falls between the pieces, so two buys of a SOL beat one of two
  (`SplitBuyExample`). `SplittingABuy` bounds the gain by the fall of the rate, and the loss by a unit a cut.
- A borrower is not always safe in the slot of the borrow. A position with collateral but no debt keeps
  its old interest clock (lending.rs:33-35), so interest for the idle time falls due at once
  (`IdlePositionExample`). `BorrowSetsClockIff`, `FreshBorrowIsSafe` and `IdleBorrowIsSafeIff` give the
  exact conditions.
- An unhealthy position cannot always be liquidated. lending.rs:518-520 means it to be, however thin the
  pool, but at a nearly empty pool the seizure does not fit 64 bits and the handler fails
  (`ThinPoolExample`). `SeizeSucceedsIff` and `LiquidationsSucceedIff` say exactly when it succeeds.
- A liquidation does not always improve health. It does not worsen it at 1.1 times cover or more
  (`HealthIsKept`); below that it does (`HealthWorsensBelowCover`, `HealthWorsensExample`).
  `HealthIsKeptIff` is the exact test, on loan and pool, in every branch.
- Sold tokens are not always redeemable once a token has been reclaimed and revived
  (`RevivedCurveExample`): reclaim empties the real reserves but leaves the virtual ones. They are
  redeemable if and only if all that was sold is covered at once (`RedeemableIff`,
  `CoveredSellersArePaid`), which holds on every run without a reclaim (`EveryTokenIsRedeemable`).
- Completion is not always equivalent to reaching the target (`RevivedPastTargetExample`). A revival whose
  sum reaches the target ends the equivalence, and nothing else does (`AgreementIsLostIff`);
  `AgreementReturnsIff` says what restores it.
- A buy within the wallet cap always finds enough real token reserves (`CapImpliesEnoughTokens`), but the
  guard that checks them (market.rs:111-114) looks at the ledger. The token account is smaller by the fees
  withheld on sales. The delivery succeeds if and only if the account suffices (`BuysSucceedIff`), and
  selling unit by unit, where every unit is withheld, drains it (`WithheldFeesExample`).
- Rewards are not always for the previous epoch's volume, as the comment at protocol_treasury.rs:66 has it.
  Counters roll over only when a user trades or claims, so volume of any earlier epoch can be claimed on
  (`StaleVolumeExample`); it is the previous epoch's if and only if the user traded in that epoch
  (`ClaimsUseLastActiveEpoch`). Claims are still bounded by the pool (`EpochIsNeverOverdrawn`).
- The SDK predicts no graduation that fails to happen, but it misses some that do
  (`MissedGraduationExample`), because it passes 1% and 1% as fees where the program takes 0.5% and none.
  `PredictionFailsIff` gives the exact window, and `EveryGapCanBeMissed` finds an amount in it for every
  curve a thousand lamports or more short.

The states of these examples are reached: `TradingScenarios` and `LendingScenarios` build runs from a new
token, through some hundred purchases, past a reclaim or past graduation and migration, to each of them.
They also show that the premises of the theorems can be met.

## Where code and documentation disagree

The model follows the code. The comments in program.ts speak of 1% fees and of a treasury share from
20% to 5%; the code takes 0.5% and 17.5% to 2.5%. The default argument's comment gives the dev wallet a
tenth of the protocol fee; the program gives it half. The comment on `star_token` prices a star at 0.05
SOL; the constant is 0.02. Invariants I3 and I6 of `docs/risk.md` fail in states the program reaches, as said above.

## Model

| member | source | states |
|---|---|---|
| `ReachableStates.EveryReachedStateIsSound` | programs/torch_market/src/handlers/lending.rs:278-298 | From a new token, after any instructions in any order: locked collateral equals the sum over positions and the vault's token balance; `total_sol_lent` is at most the sum of principals; short collateral is reserved and `total_sol_lent` is at most four times the rest; claims add up to `total_distributed`; the supply is complete; every ledger equals its lamports. |
| `ReachableStates.ReservesAreNeverLent` | programs/torch_market/src/handlers/lending.rs:203-212 | In every reachable state, after any further instruction, reserved short collateral is in the treasury and `total_sol_lent` is at most four times the unreserved SOL. The principals themselves can exceed that total; their cover is the subject of TreasurySolvency. |
| `TreasurySolvency.LiquidationGap` | programs/torch_market/src/handlers/lending.rs:660-664 | A settled liquidation widens the gap between the open principals and `total_sol_lent` by exactly what the total loses less what the loan loses, each saturating on its own. |
| `TreasurySolvency.RepaymentGap` | programs/torch_market/src/handlers/lending.rs:442-457 | A repayment narrows that gap, by exactly the repaid principal the total did not have. |
| `TreasurySolvency.StepGap` | programs/torch_market/src/handlers/lending.rs:640-664 | Of all instructions only a liquidation widens the gap, by at most the part of its loss that is not in the loan's own principal. |
| `TreasurySolvency.PrincipalsAreBounded` | docs/risk.md:382-382 | From creation on, over every run, the open principals exceed four times the unreserved SOL by no more than the parts of losses that were not in their loans' principals. |
| `TreasurySolvency.LossFreeTreasuryIsSolvent` | docs/risk.md:382-382 | From creation on, on every run in which every loss fits in its loan's principal, the open principals are at most four times the unreserved SOL. |
| `TreasurySolvency.CoverIsLostIff` | programs/torch_market/src/handlers/lending.rs:192-212 | In every reachable state in which a fifth of the open principals is liquid, an instruction ends that if and only if it is a successful borrow of x with principals plus 6x above five times the unreserved SOL. |
| `LendingScenarios.LentTwiceExample` | docs/risk.md:382-382 | A run from creation to a state in which the open principals exceed five times the treasury's SOL: a liquidation writes off more than its loan, and the borrower borrows again what another one still owes. |
| `ReachableStates.ShortCollateralIsThere` | programs/torch_market/src/handlers/short.rs:264-276 | In every reachable state the SOL collateral of any one short position is in the treasury's ledger and in its lamports. |
| `ReachableStates.EveryReachedCurveIsSettled` | programs/torch_market/src/handlers/market.rs:298-301 | In every reachable state before migration, reclaims included, a complete curve has reached its target and is not reclaimed. |
| `ReachableStates.ExactFromCreation` | programs/torch_market/src/handlers/lending.rs:660-664 | From creation on, `total_sol_lent` equals the sum of the open principals on every run in which every loss fits in its loan's principal. |
| `ReachableStates.CollateralIsHeld` | programs/torch_market/src/handlers/lending.rs:138-151 | In every reachable state the collateral vault holds any one position's collateral, and accruing interest leaves it alone. |
| `ReachableStates.RepaymentsReturnCollateral` | programs/torch_market/src/handlers/lending.rs:357-370 | In every reachable state no repayment fails because the collateral vault is short of tokens. |
| `ReachableStates.LiquidationsFindCollateral` | programs/torch_market/src/handlers/lending.rs:568-593 | In every reachable state no liquidation fails because the collateral vault is short of tokens. |
| `ReachableStates.RepaymentFindsCollateral` | programs/torch_market/src/handlers/lending.rs:357-370 | A repayment whose collateral is in the vault never fails for want of tokens. |
| `ReachableStates.SettlementFindsCollateral` | programs/torch_market/src/handlers/lending.rs:568-593 | A seizure whose collateral is in the vault never fails for want of tokens. |
| `ReachableStates.RepaymentsSucceedIff` | programs/torch_market/src/handlers/lending.rs:314-476 | In every reachable state a repayment, partial or full, by wallet or by vault, succeeds if and only if the amount is positive, there is open principal, the accrued interest and the debt fit 64 bits, the purse can pay and the treasury's counters have room. |
| `ReachableStates.LiquidationsSucceedIff` | programs/torch_market/src/handlers/lending.rs:481-679 | In every reachable state a liquidation, by wallet or by vault, succeeds if and only if there is open principal, its interest can be accrued, pool and position meet the listed bounds, the debt is at the threshold, the liquidator can pay and the treasury's counters have room. |
| `BorrowLimits.BorrowsSucceedIff` | programs/torch_market/src/handlers/lending.rs:58-298 | In every reachable state a borrow, by wallet or by vault, of SOL or of collateral alone, succeeds if and only if the token has migrated, the request is not too small, interest can be accrued, the collateral is there, the debt is inside the pool's band and both caps, the purse can receive, and the loan counter has room. |
| `BorrowLimits.WithinLtvIff` | programs/torch_market/src/handlers/lending.rs:153-190 | The loan-to-value guards pass if and only if value and debt fit 64 bits and the pool's depth allows the debt, in numbers: nothing below 5 SOL, less than 25.01% of a positive value from there, 35.01% from 50 SOL, 45.01% from 200 SOL, 50.01% from 500 SOL. |
| `BorrowLimits.BandIff` | programs/torch_market/src/pool_validation.rs:185-197 | The rounded ratio passes the program's band if and only if the pool's depth, in SOL, allows the debt. |
| `BorrowLimits.DeeperPoolsAllowMore` | docs/risk.md:386-386 | A deeper pool never allows less. |
| `BorrowLimits.LendIff` | programs/torch_market/src/handlers/lending.rs:192-224 | The treasury lends if and only if its total stays within four fifths of the unreserved SOL and the borrower's within the share by collateral, taken modulo 2^64 as the narrowing cast does. |
| `BorrowLimits.BorrowLowersCaps` | programs/torch_market/src/handlers/lending.rs:203-224 | In every reachable state a borrow lowers the cap of every collateral amount by its share of four fifths of the amount borrowed, to within two roundings, as long as the cap fits 64 bits. |
| `LendingScenarios.CapFallsExample` | docs/risk.md:388-388 | A run from creation to a borrow that lowers another user's cap. |
| `ReachableStates.ClaimsLeaveTheFloor` | programs/torch_market/src/handlers/protocol_treasury.rs:44-52 | In every reachable state a successful claim leaves at least the rent and the reserve floor in the protocol treasury. |
| `Frames.StepFrame` | programs/torch_market/src/lib.rs:40-158 | Every instruction, successful or not, changes only the accounts and fields listed for it. |
| `CashProperties.StepIsCashSafe` | programs/torch_market/src/handlers/market.rs:158-284 | Every instruction conserves total SOL and keeps curve, treasury and vault ledgers equal to their lamports less rent. |
| `CashProperties.BooksEqualCash` | docs/architecture.md:315-315 | Over every run no lamport appears or disappears, and each vault's balance stays deposits plus receipts less withdrawals less spending, and equals its cash. |
| `Exchanges.PaymentsOfABuy` | programs/torch_market/src/handlers/market.rs:158-261 | For every purse at once: the payer loses exactly the purchase, the dev wallet and the creator gain exactly their shares, nobody else changes, by vault or by wallet, even when the parties coincide. |
| `Exchanges.PaySucceedsIff` | programs/torch_market/src/handlers/lending.rs:377-415 | A payment succeeds if and only if the wallet holds it, or the vault's ledger and account do and its counter has room. |
| `Exchanges.PayOutSucceedsIff` | programs/torch_market/src/handlers/market.rs:446-476 | A payout succeeds if and only if the wallet, or the vault's ledger, account and counter, have room. |
| `Exchanges.RecordSucceedsIff` | programs/torch_market/src/handlers/market.rs:323-336 | A trade can be recorded if and only if the lifetime counter, and the current one unless it rolls over, have room. |
| `Exchanges.PaymentsSucceedIff` | programs/torch_market/src/handlers/market.rs:158-261 | The payments of a buy succeed if and only if the payer holds the amount and the two recipients have room for their own shares; where buyer, creator and dev wallet coincide, each balance counts as it stands by then. |
| `Exchanges.BuyExchange` | programs/torch_market/src/handlers/market.rs:111-284 | A buy takes the whole amount from the buyer, moves the quoted SOL to reserves, treasury and protocol treasury, delivers the quoted tokens less the transfer fee to the destination and to no other account. |
| `Exchanges.SellExchange` | programs/torch_market/src/handlers/market.rs:406-507 | A seller receives exactly the SOL that leaves the reserves, at least the minimum asked, and gives exactly the tokens that enter them, of which the curve's token account receives what the transfer fee leaves; every other purse and token account is unchanged. |
| `Exchanges.BorrowExchange` | programs/torch_market/src/handlers/lending.rs:95-147 | A borrower's purse gains the SOL lent, the token account loses the collateral, the position gains the debt and the net collateral, and all other positions are unchanged. |
| `Exchanges.RepayExchange` | programs/torch_market/src/handlers/lending.rs:336-476 | A repayment costs the smaller of offer and debt; the position closes and the whole collateral comes back if and only if the offer covers the debt, otherwise interest is paid first, the debt falls by the offer, and collateral and clock stay as they were. |
| `Exchanges.LiquidateExchange` | programs/torch_market/src/handlers/lending.rs:568-657 | The liquidator pays exactly the covered amount and receives exactly the seized collateral less the transfer fee; the borrower's own accounts and all other positions are unchanged. |
| `Exchanges.StarExchange` | programs/torch_market/src/handlers/rewards.rs:25-91 | A star costs its fixed price; the pot goes to the creator once, exactly on the first star at or past the threshold. |
| `Exchanges.ClaimExchange` | programs/torch_market/src/handlers/protocol_treasury.rs:124-183 | What leaves the pool is what the claimant's purse gains and what both counters record; no other user's counters change. |
| `Exchanges.ReclaimExchange` | programs/torch_market/src/handlers/reclaim.rs:13-79 | A reclaim moves exactly the real SOL and the treasury balance to the protocol treasury, which counts them as fees; the star pot and all traders are untouched, and a second reclaim is refused. |
| `Exchanges.ReviveExchange` | programs/torch_market/src/handlers/revival.rs:21-73 | A contribution moves from the contributor to the real reserves, and the token is revived if and only if they reach its initial virtual SOL. |
| `Exchanges.WithdrawUndoesDeposit` | programs/torch_market/src/handlers/vault.rs:33-88 | Withdrawing a deposit restores every purse and the vault's lamports, and leaves equal traces in the two counters. |
| `BondingCurve.SplitIsExact` | programs/torch_market/src/handlers/market.rs:49-102 | Whenever a buy can be quoted, its five parts add up to the amount paid, at any reserve level and also past the target. |
| `BondingCurve.QuoteSucceedsIff` | programs/torch_market/src/handlers/market.rs:49-109 | With live reserves a buy can be quoted if and only if the treasury's share fits 64 bits before it is divided. |
| `BondingCurve.QuoteBounds` | programs/torch_market/src/handlers/market.rs:49-109 | At least 82% of any buy reaches the curve and at most 97.02% and two lamports; the creator gets at most 1%. |
| `BondingCurve.FeeShares` | programs/torch_market/src/handlers/market.rs:49-102 | Half a percent is the protocol's fee; the dev wallet gets half of it and never more than the protocol. The creator of a community token gets nothing, any other between 0.2% and 1% of the rest, to within a lamport. |
| `BondingCurve.SplitFollowsRates` | programs/torch_market/src/handlers/market.rs:78-102 | Of what is left after the fee treasury and creator together get the treasury's rate at the real SOL before the buy, rounded down; the creator's part is the creator's rate of it; the curve gets the rest. |
| `BondingCurve.RatesAreLinear` | programs/torch_market/src/math.rs:39-79 | Below the target the treasury's rate falls from 17.5% and the creator's grows from 0.2% in proportion to the real SOL, to within a basis point; from the target on they stay at 2.5% and 1%. |
| `BondingCurve.SwapIsMonotone` | programs/torch_market/src/math.rs:53-64 | Putting more into the curve never takes less out. |
| `BondingCurve.BuyKeepsProduct` | programs/torch_market/src/math.rs:53-57 | A buy never lowers the product of the virtual reserves. |
| `BondingCurve.SellKeepsProduct` | programs/torch_market/src/math.rs:60-64 | A sale never lowers the product of the virtual reserves. |
| `BondingCurve.SoldTokensAreRedeemable` | programs/torch_market/src/handlers/market.rs:382-399 | If virtual less real SOL has not grown and the product has not fallen, the proceeds of any part of what was sold are covered by real SOL. |
| `BondingCurve.Portion` | programs/torch_market/src/handlers/market.rs:78-96 | A basis-point part of an amount never exceeds the amount. |
| `CurveProperties.BuyReserves` | programs/torch_market/src/handlers/market.rs:103-278 | A successful buy moves exactly its quote across the reserves, on a curve that was open. |
| `CurveProperties.SellReserves` | programs/torch_market/src/handlers/market.rs:382-508 | A successful sale moves exactly the constant-product proceeds and the sold tokens. |
| `CurveProperties.StepKeepsProduct` | programs/torch_market/src/math.rs:53-64 | No instruction of any kind lowers the product of the virtual reserves. |
| `CurveProperties.OthersLeaveReserves` | programs/torch_market/src/handlers/reclaim.rs:68-69 | Instructions other than trades never move the virtual reserves; only a reclaim marks a token reclaimed, and only a migration, a reclaim or a revival touches the curve at all. |
| `CurveProperties.NoRunExtracts` | programs/torch_market/src/math.rs:53-64 | Over any run, trades, reclaims and revivals included, the product never falls, so the curve never returns to the same or a smaller inventory with less virtual SOL. |
| `CurveProperties.RunKeepsPriced` | programs/torch_market/src/handlers/market.rs:263-301 | On every reclaim-free run the offsets between virtual and real reserves stay at their initial values and completion is equivalent to reaching the target. |
| `CurveProperties.RunKeepsSupply` | docs/risk.md:378-378 | On every run the curve's account, holders, collateral, withheld fees and burns make up the supply; before migration the real token reserves equal the curve's token balance plus the fees withheld on sales. |
| `CurveGuarantees.GenesisIsSound` | programs/torch_market/src/handlers/token.rs:126-143 | A newly created token satisfies the curve, supply and cash invariants. |
| `CurveGuarantees.EveryTokenIsRedeemable` | programs/torch_market/src/handlers/market.rs:382-399 | In every state reached without a reclaim and before migration, the proceeds of any amount up to what was sold are at most the real SOL. |
| `CurveGuarantees.SellersArePaid` | programs/torch_market/src/handlers/market.rs:396-399 | In every state reached without a reclaim no sale fails with InsufficientSol. |
| `CurveGuarantees.SalesSucceedIff` | programs/torch_market/src/handlers/market.rs:358-535 | In every state reached without a reclaim a sale, by wallet or by vault, tracked or not, succeeds if and only if trading lasts, the seller holds the tokens and, if named, the statistics, the constant-product proceeds meet the minimum, and purse, statistics and volume counter have room. |
| `CurveGuarantees.SaleSucceedsIff` | programs/torch_market/src/handlers/market.rs:358-535 | On any curve whose account and token reserves are in order, reclaimed ones included, exactly these sales succeed; what reclaims can break is the real SOL. |
| `CurveGuarantees.BuysSucceedIff` | programs/torch_market/src/handlers/market.rs:18-345 | In every state reached without a reclaim a buy, by wallet or by vault, tracked or not, succeeds if and only if trading lasts, the amount is not too small, the quote meets the minimum, the destination's balance and the quote together are within the wallet cap, the curve's token account can deliver, the payments can be made, and every counter has room for its own part. |
| `CurveGuarantees.BuySucceedsIff` | programs/torch_market/src/handlers/market.rs:18-345 | The same in any world whatever, with the real token reserves and the reclaim mark among the conditions. |
| `CurveGuarantees.BuysRespectWalletCap` | programs/torch_market/src/handlers/market.rs:120-132 | For every successful buy the destination's balance before and the tokens bought are together at most 20 million tokens, and so is its balance after. |
| `CurveGuarantees.RefusedBuys` | programs/torch_market/src/handlers/market.rs:111-156 | A quoted and covered buy is refused with SlippageExceeded below its minimum, with MaxWalletExceeded past the cap, what the destination holds counted, and at the delivery when the token account is short. |
| `CurveGuarantees.PoorVaultsAreRefused` | programs/torch_market/src/handlers/market.rs:37-47 | A vault that holds too little is refused before the quote. |
| `TradingScenarios.DustSales` | programs/torch_market/src/handlers/market.rs:382-507 | In any state reached without a reclaim, selling n tokens unit by unit pays nothing, adds n to the real token reserves and nothing to the token account, and is again such a state. |
| `TradingScenarios.LeftoverFalls` | programs/torch_market/src/math.rs:53-57 | Each purchase of the scenario empties the account at least as fast as a bound on virtual SOL that ends before the target. |
| `TradingScenarios.WithheldFeesExample` | programs/torch_market/src/handlers/market.rs:111-114 | A run from creation, buying and selling back unit by unit, to a purchase that cap and real token reserves allow and the token account cannot deliver. |
| `CurveGuarantees.HoldersOwnOnlySoldTokens` | programs/torch_market/src/handlers/market.rs:504-507 | Before migration nobody but the treasury lock can hold more than the curve has sold. |
| `CurveGuarantees.RedeemableIff` | programs/torch_market/src/handlers/market.rs:382-399 | On every curve, each part of what was sold can be sold back if and only if all of it at once is covered by real SOL. |
| `CurveGuarantees.CoveredSellersArePaid` | programs/torch_market/src/handlers/market.rs:396-399 | While all that was sold is covered, no sale fails with InsufficientSol, reclaims in the history or not. |
| `TradingScenarios.RevivedCurveExample` | programs/torch_market/src/handlers/reclaim.rs:68-68 | A run from creation through a reclaim and a revival to a holder's sale that fails with InsufficientSol. |
| `CurveGuarantees.CompleteIffTargetReached` | programs/torch_market/src/handlers/market.rs:298-301 | In every state reached without a reclaim and before migration, bonding is complete if and only if real SOL has reached the target. |
| `CurveGuarantees.CompletionIsStamped` | programs/torch_market/src/handlers/market.rs:292-301 | A buy leaves the curve complete if and only if it reaches the target, and stamps its slot exactly then. |
| `CurveGuarantees.RevivalAgreesIff` | programs/torch_market/src/handlers/revival.rs:41-55 | After a revival of an incomplete curve, completion and target agree if and only if the sum of reserves and contribution is below the target. |
| `CurveGuarantees.AgreementIsLostIff` | programs/torch_market/src/handlers/revival.rs:41-55 | Before migration an instruction ends the agreement of completion and target if and only if it is a successful revival whose sum reaches the target. |
| `CurveGuarantees.AgreementReturnsIff` | programs/torch_market/src/handlers/market.rs:298-301 | The agreement returns if and only if a buy succeeds, a sale brings the reserves below the target, or the token is reclaimed. |
| `CurveGuarantees.RunKeepsSettled` | programs/torch_market/src/handlers/market.rs:298-301 | Over every run, reclaims included, a complete curve has reached its target and is not reclaimed. |
| `TradingScenarios.RevivedPastTargetExample` | programs/torch_market/src/handlers/revival.rs:41-55 | A run from creation to a revived curve at its target that is not complete. |
| `CurveGuarantees.CapImpliesEnoughTokens` | programs/torch_market/src/handlers/market.rs:111-131 | In every state reached without a reclaim, a buy within the wallet cap finds enough real tokens, for every target. |
| `CurveGuarantees.OvershootIsBounded` | programs/torch_market/src/handlers/market.rs:292-301 | For each of the three tiers, no buy leaves real SOL at or above 1.15 times the target. |
| `CurveGuarantees.TierOvershoot` | programs/torch_market/src/constants.rs:21-28 | The overshoot bound in each tier, from the tier's virtual reserves and the wallet cap. |
| `CurveGuarantees.TierReserves` | programs/torch_market/src/constants.rs:21-28 | Every tier starts with three eighths of its target as virtual SOL and 756.25 million tokens. |
| `CurveGuarantees.Overshoot` | programs/torch_market/src/math.rs:53-57 | Buying at most the wallet cap multiplies virtual SOL by less than 61/55. |
| `CurveGuarantees.TradersCannotExtract` | programs/torch_market/src/handlers/market.rs:263-278 | Over any run of trades, vault operations and transfers, if the curve ends with no more tokens than it started with, all traders together end with no more SOL. |
| `OrderSplitting.SplitProduct` | programs/torch_market/src/math.rs:53-57 | After n pieces the product exceeds the one before by less than n times the final SOL. |
| `OrderSplitting.SplittingGainsNothing` | programs/torch_market/src/math.rs:53-57 | For any n pieces of curve lamports, buying with them in turn yields at most as many tokens as buying at once and at most n - 1 base units fewer. |
| `OrderSplitting.RateFalls` | programs/torch_market/src/math.rs:39-46 | The treasury's rate never rises with the real SOL, and falls by at most its slope and a basis point. |
| `OrderSplitting.InTurnIsSplit` | programs/torch_market/src/handlers/market.rs:49-109 | Buys in turn deliver what the curve alone delivers for the parts that reach it, each at the rate of its moment. |
| `OrderSplitting.SplitPaymentKeeps` | programs/torch_market/src/math.rs:39-46 | A payment in n pieces never brings the curve fewer lamports than one payment, and more by at most the fall of the treasury's rate on the whole and two roundings a piece. |
| `OrderSplitting.SplittingABuy` | programs/torch_market/src/handlers/market.rs:49-109 | On any curve, n buys in turn deliver at most n - 1 base units fewer than one buy of their sum, and at most what that buy would with the bounded gain of lamports added. |
| `TradingScenarios.SplitBuyExample` | programs/torch_market/src/math.rs:39-46 | On a new token of the largest tier two buys of one SOL deliver 16_205_465_612_241 units and one buy of two SOL 16_199_701_044_143. |
| `Migration.SeedingTerms` | programs/torch_market/src/migration.rs:150-182 | The pool is never seeded below the curve's last price, and within one base unit of it if and only if the account holds the matching amount; seeded and burned tokens are the whole account; the recorded baseline is what the pool received. |
| `Migration.MigrationTerms` | programs/torch_market/src/migration.rs:332-367 | For every cost: the treasury's ledger and lamports each fall by exactly the cost, the curve's lamports by exactly its real SOL, both leave together, and nobody else pays or receives. |
| `Migration.MigrationSucceedsIff` | programs/torch_market/src/migration.rs:150-367 | In any world a migration succeeds if and only if bonding is complete, it is the first, the treasury's ledger holds 1.5 SOL, ledger and account hold the cost, the curve's account holds the real SOL, and the match fits 64 bits. |
| `Migration.MigrationsSucceedIff` | programs/torch_market/src/contexts.rs:629-629 | In every reachable state: if and only if bonding is complete, it is the first, the treasury holds 1.5 SOL and the cost, and the match fits. |
| `Migration.NoSecondMigration` | programs/torch_market/src/contexts.rs:621-629 | After a migration every further attempt is refused, whatever happens in between. |
| `Activity.StepClock` | programs/torch_market/src/handlers/market.rs:508-508 | The activity clock shows the slot of every successful purchase, sale and completing revival, and no other instruction moves it. |
| `Activity.RunClock` | programs/torch_market/src/handlers/reclaim.rs:24-30 | After any run the clock shows the slot of the run's last activity. |
| `Activity.ActiveTokenIsNotReclaimed` | programs/torch_market/src/handlers/reclaim.rs:24-30 | After a successful purchase or sale, or the contribution that completes a revival, no reclaim succeeds for 1_512_000 slots. |
| `Activity.ReclaimedTokensWereIdle` | programs/torch_market/src/handlers/reclaim.rs:24-30 | On every run with ascending slots: if a reclaim succeeds after it, every activity anywhere in the run lies at least 1_512_000 slots back. |
| `Activity.ReclaimSucceedsIff` | programs/torch_market/src/handlers/reclaim.rs:13-79 | In any world a reclaim succeeds if and only if the curve is open and idle for the period, real SOL and treasury hold 0.01 SOL, and accounts and counters have room. |
| `Activity.ReclaimsSucceedIff` | programs/torch_market/src/handlers/reclaim.rs:13-79 | From creation on, told from the steps of the run without the stored clock: the last activity lies 1_512_000 slots back, and the rest as before. |
| `Activity.RevivalSucceedsIff` | programs/torch_market/src/handlers/revival.rs:21-73 | A contribution succeeds if and only if the token is reclaimed, the amount is not too small, and wallet and counters can carry it. |
| `Activity.ReclaimedTokensAreNotTraded` | programs/torch_market/src/handlers/reclaim.rs:68-69 | No purchase and no sale of a reclaimed token succeeds. |
| `TorchMath.CalcTreasuryRateBps` | programs/torch_market/src/math.rs:39-46 | The treasury's rate stays between 2.5% and 17.5%, and is undefined only for a zero target. |
| `TorchMath.CalcCreatorRateBps` | programs/torch_market/src/math.rs:72-79 | The creator's rate stays between 0.2% and 1%. |
| `TorchMath.CalcTokensOut` | programs/torch_market/src/math.rs:53-57 | Tokens out never exceed the virtual inventory, so the narrowing cast loses nothing. |
| `TorchMath.CalcSolOut` | programs/torch_market/src/math.rs:60-64 | SOL out never exceeds the virtual SOL, so the narrowing cast loses nothing. |
| `TorchMath.CalcTransferFee` | programs/torch_market/src/math.rs:96-100 | The fee is the least one not below seven basis points, and never more than the amount. |
| `LoanBook.SettledBorrowKeepsBook` | programs/torch_market/src/handlers/lending.rs:138-298 | A borrow keeps the aggregates equal to the sums over positions and the treasury solvent above its reserves. |
| `LoanBook.SettledRepaymentKeepsBook` | programs/torch_market/src/handlers/lending.rs:332-476 | A repayment, partial or closing, keeps them. |
| `LoanBook.SettledLiquidationKeepsBook` | programs/torch_market/src/handlers/lending.rs:638-679 | A liquidation, with or without bad debt, keeps them. |
| `LoanBook.ShortsKeepBook` | programs/torch_market/src/handlers/short.rs:264-276 | Posting and releasing short collateral keeps the reserve equal to the sum of the posted collaterals. |
| `LoanBook.StepKeepsBook` | programs/torch_market/src/handlers/lending.rs:278-298 | Every instruction keeps the book. |
| `LoanBook.RunKeepsBook` | programs/torch_market/src/handlers/lending.rs:278-298 | Every run keeps the book. |
| `LoanHistory.LiquidationIsExactIff` | programs/torch_market/src/handlers/lending.rs:660-664 | A liquidation keeps `total_sol_lent` equal to the sum of principals if and only if the loss fits in the loan's principal or no other principal is open. |
| `LoanHistory.LiquidationConserves` | programs/torch_market/src/handlers/lending.rs:638-675 | A liquidation never leaves unreserved SOL plus lent less interest short by more than the bad debt. |
| `LoanHistory.StepConserves` | programs/torch_market/src/handlers/lending.rs:443-457 | Every instruction after migration conserves that wealth up to the bad debt, exactly when the loss fits. |
| `LoanHistory.LendingIsConserved` | programs/torch_market/src/handlers/lending.rs:638-675 | Over every run after migration, unreserved SOL plus lent less interest plus everything written off never falls; it is constant, and the total equals the sum of principals, when every loss fits. |
| `LoanHistory.RunKeepsExact` | programs/torch_market/src/handlers/lending.rs:660-664 | From every sound and exact state, the total stays exact on every run in which every loss fits. |
| `LendingScenarios.LossExceedsPrincipalExample` | programs/torch_market/src/handlers/lending.rs:660-664 | A run from creation to two borrowers and a liquidation of one, after which the total falls short of what the other still owes. |
| `LiquidationProperties.LossFitsIff` | programs/torch_market/src/handlers/lending.rs:537-564 | The loss fits in the principal if and only if the collateral suffices, or half of the debt is at most the principal plus the collateral's pool value. |
| `LiquidationProperties.SeizeSucceedsIff` | programs/torch_market/src/handlers/lending.rs:513-564 | A seizure can be computed if and only if both reserves are positive, the debt is at 65.01% of the collateral's value or more, and value, loan-to-value, seizure and remaining debt fit their integers; the payment is then given. |
| `LendingScenarios.ThinPoolExample` | programs/torch_market/src/math.rs:139-151 | A run from creation to a position far past the threshold whose liquidation fails with MathOverflow, because the seizure at a nearly empty pool does not fit 64 bits. |
| `LiquidationProperties.LossFitsWhileInterestIsSmall` | programs/torch_market/src/handlers/lending.rs:640-657 | In particular it fits while interest has not outgrown principal. |
| `LiquidationProperties.SeizureShape` | programs/torch_market/src/handlers/lending.rs:542-564 | A liquidation has two shapes: enough collateral, paid with the slice, or all of it, paid at pool value; bad debt is the slice's unpaid rest. |
| `LiquidationProperties.LiquidationLeaves` | programs/torch_market/src/handlers/lending.rs:537-659 | What a liquidation leaves, from position and pool alone: interest is covered first, collateral shrinks by what was asked for or to nothing, the unpaid rest of the slice and all interest with it are written off, the clock stays. |
| `LiquidationProperties.LiquidatorTerms` | programs/torch_market/src/handlers/lending.rs:542-556 | For every pool and position: the payment is at most 1.1 times the slice and below the debt, and the seized collateral is worth at most 1.1 times the payment and one lamport. |
| `LiquidationProperties.BadDebtMeansUnderwater` | programs/torch_market/src/handlers/lending.rs:551-564 | Debt is written off if and only if all collateral is seized and is worth less than the slice; then no collateral is left. |
| `LiquidationProperties.DebtAtLeastHalves` | programs/torch_market/src/handlers/lending.rs:537-659 | In every branch at least half of the debt, rounded down, is cleared. |
| `LiquidationProperties.HealthIsKept` | programs/torch_market/src/handlers/lending.rs:537-556 | While the collateral is worth at least 1.1 times the debt, debt per unit of collateral does not rise. |
| `LiquidationProperties.HealthIsKeptIff` | programs/torch_market/src/handlers/lending.rs:537-657 | For every liquidation, health is kept if and only if the share of collateral asked for is at most the share of debt cleared, or there is no collateral, or the write-off clears the last unit of debt, told from loan and pool. |
| `LiquidationProperties.HealthWorsensBelowCover` | programs/torch_market/src/handlers/lending.rs:543-549 | Below 1.1 times cover by more than a rounding unit, a liquidation makes health strictly worse if and only if there was collateral and debt is left. |
| `LendingScenarios.HealthWorsensExample` | programs/torch_market/src/handlers/lending.rs:543-549 | A run from creation to a successful liquidation at 1.05 times cover after which there is more debt per unit of collateral. |
| `LoanHistory.LiquidationHalves` | programs/torch_market/src/handlers/lending.rs:537-659 | A successful liquidation leaves at most half of the debt, rounded up, and strictly less when it was at least two. |
| `LoanHistory.CascadeHalves` | programs/torch_market/src/handlers/lending.rs:537-659 | After k successful liquidations of one borrower in one slot, against any pools, at most the debt divided by 2^k, rounded up, is left. |
| `LoanHistory.BorrowSetsClockIff` | programs/torch_market/src/handlers/lending.rs:264-270 | A borrow leaves the interest clock at its slot if and only if the position is new, carried debt, or was already there. |
| `LoanHistory.BorrowIsWithinLtv` | programs/torch_market/src/handlers/lending.rs:174-190 | A successful borrow leaves debt below 50.01% of the collateral's value. |
| `LoanHistory.NotLiquidatableIff` | programs/torch_market/src/handlers/lending.rs:522-535 | A position is refused liquidation if and only if its debt is below 65.01% of its collateral's value. |
| `LoanHistory.FreshBorrowIsSafe` | programs/torch_market/src/handlers/lending.rs:522-535 | After a borrow that sets the clock, no liquidation succeeds in that slot in any later state where the collateral keeps 5001/6501 of its value. |
| `LoanHistory.IdleBorrowIsSafeIff` | programs/torch_market/src/handlers/lending.rs:33-35 | After a borrow on an idle position, a same-slot liquidation at the same reserves is refused if and only if the interest charged for the idle time keeps the debt below the threshold, told from the position and the request before the borrow. |
| `LendingScenarios.IdlePositionExample` | programs/torch_market/src/handlers/lending.rs:33-35 | A run from creation to an idle position that borrows within its limit and is liquidated in the same slot. |
| `LoanHistory.SettlingSucceedsIff` | programs/torch_market/src/handlers/lending.rs:566-679 | A computed seizure whose collateral is in the vault settles if and only if the liquidator can pay and the treasury's counters have room. |
| `LoanHistory.InterestOverTwo` | programs/torch_market/src/math.rs:128-135 | Interest over two intervals falls short of the whole by at most one unit. |
| `LoanHistory.SplitAccrual` | programs/torch_market/src/handlers/lending.rs:32-53 | For any ascending slots, accruing at each adds at most the interest of accruing once and at most n - 1 units less. |
| `Interest.InterestIsCharged` | programs/torch_market/src/math.rs:128-135 | Interest is two percent of the principal per 1_512_000 slots, pro rata, rounded down, and is undefined if and only if the product does not fit 128 bits or the result 64. |
| `Interest.AWeekIsAFiftieth` | programs/torch_market/src/math.rs:128-135 | Whole weeks cost exactly a fiftieth of the principal each, rounded down once. |
| `Interest.AccrualSucceedsIff` | programs/torch_market/src/handlers/lending.rs:32-53 | Accrual succeeds if and only if the interest for the elapsed slots and its sum with the accrued fit. |
| `Interest.AccrualTerms` | programs/torch_market/src/handlers/lending.rs:32-53 | It adds exactly that interest and moves the clock on; principal and collateral stay, and no open principal or no elapsed slot changes nothing. |
| `Interest.RepaymentSetsClock` | programs/torch_market/src/handlers/lending.rs:417-440 | After a partial repayment the clock is at its slot or ahead of it, and later interest is due from there on the open principal only. |
| `Interest.LiquidationSetsClock` | programs/torch_market/src/handlers/lending.rs:638-659 | A liquidation leaves the clock at its slot or ahead of it. |
| `LoanCount.BorrowCounts` | programs/torch_market/src/handlers/lending.rs:292-298 | A borrow counts a new position as active, an existing one not again. |
| `LoanCount.RepaymentCounts` | programs/torch_market/src/handlers/lending.rs:442-457 | A repayment counts a loan out if and only if it closes the position. |
| `LoanCount.LiquidationCounts` | programs/torch_market/src/handlers/lending.rs:660-679 | A liquidation counts a loan out if and only if no debt is left, though the position stays open. |
| `LoanCount.ActiveLoansArePositions` | programs/torch_market/src/handlers/lending.rs:292-298 | After any run from a new token the count of active loans is at most the number of positions. |
| `LoanCount.ExactCountIsLostIff` | programs/torch_market/src/handlers/lending.rs:660-679 | A count that equals the number of positions stops doing so if and only if a liquidation clears the last of a debt. |
| `Lending.AfterPayment` | programs/torch_market/src/handlers/lending.rs:417-440 | A payment lowers the debt by exactly what was paid. |
| `Lending.Seize` | programs/torch_market/src/handlers/lending.rs:550-550 | Never more than the position's collateral is seized. |
| `Program.MaxLendable` | programs/torch_market/src/handlers/lending.rs:203-208 | The lendable amount is at most four fifths of the unreserved SOL. |
| `Program.Lend` | programs/torch_market/src/handlers/lending.rs:192-288 | Lending moves exactly the amount, and only within the utilisation cap. |
| `RewardProperties.RunKeepsPool` | programs/torch_market/src/handlers/protocol_treasury.rs:170-182 | On every run the users' claimed totals add up to `total_distributed`, no one is marked for the running epoch, and a positive distributable amount is in the account above rent and floor. |
| `RewardProperties.RolloverTerms` | programs/torch_market/src/handlers/protocol_treasury.rs:31-63 | A rollover makes distributable exactly what the account holds above rent and floor, moves the running volume into the previous slot, and no other rollover is accepted within the week. |
| `RewardProperties.RolloverSucceedsIff` | programs/torch_market/src/handlers/protocol_treasury.rs:31-43 | A rollover succeeds if and only if a week has passed, by a difference of times that fits 64 bits, and the epoch counter has room. |
| `RewardProperties.NoClaimBeforeEpochTwo` | programs/torch_market/src/handlers/protocol_treasury.rs:87-91 | No claim succeeds before epoch 2. |
| `RewardProperties.ClaimTerms` | programs/torch_market/src/handlers/protocol_treasury.rs:113-169 | A claim pays exactly the lesser of the pro-rata share and a tenth of what is distributable, both rounded down, at least 0.1 SOL and for at least 2 SOL of volume, and leaves the rest. |
| `RewardProperties.ClaimIsDue` | programs/torch_market/src/math.rs:154-174 | The capped share is exactly that amount, and is undefined if and only if the share or the cap's product does not fit. |
| `RewardProperties.ClaimSucceedsIff` | programs/torch_market/src/handlers/protocol_treasury.rs:67-186 | In any world a claim succeeds if and only if it is the user's first for the epoch, the volume reaches 2 SOL, what is due reaches 0.1 SOL and is there, and purse and counters have room. |
| `ReachableStates.ClaimsSucceedIff` | programs/torch_market/src/handlers/protocol_treasury.rs:67-186 | In every reachable state the same without asking whether the pool holds what is due or the user's own counter has room: both follow. |
| `RewardProperties.EpochIsNeverOverdrawn` | programs/torch_market/src/handlers/protocol_treasury.rs:165-169 | Within one epoch, with anything else in between, what is taken and what remains add up to the start, and n claims leave at least (9/10)^n of it. |
| `RewardProperties.NoSecondClaim` | programs/torch_market/src/handlers/protocol_treasury.rs:88-91 | A user marked for the epoch has no successful claim until it advances. |
| `RewardProperties.ClaimsOncePerEpoch` | programs/torch_market/src/handlers/protocol_treasury.rs:88-91 | Within one epoch each user claims at most once, whatever else happens. |
| `VolumeHistory.QuietEpochs` | programs/torch_market/src/handlers/protocol_treasury.rs:78-85 | Epochs without trading do not change which epoch counts as last active. |
| `VolumeHistory.RecordingKeepsTally` | programs/torch_market/src/handlers/market.rs:323-336 | Recording a trade, rollover included, keeps a user's counters in agreement with the volumes per epoch. |
| `VolumeHistory.ClaimingKeepsTally` | programs/torch_market/src/handlers/protocol_treasury.rs:78-85 | A claim is computed from the last active epoch before the running one, and keeps the agreement. |
| `VolumeHistory.BuyRecords` | programs/torch_market/src/handlers/market.rs:316-337 | A tracked buy adds its amount to the buyer's counters and to nobody else's. |
| `VolumeHistory.StepKeepsTally` | programs/torch_market/src/handlers/market.rs:316-337 | Every instruction keeps the agreement for every user. |
| `VolumeHistory.RunKeepsTally` | programs/torch_market/src/handlers/market.rs:316-337 | On every run every user's counters agree with the trades that user has made, of this token and of others, epoch by epoch. |
| `VolumeHistory.ClaimsUseLastActiveEpoch` | programs/torch_market/src/handlers/protocol_treasury.rs:75-111 | After any run from a new token, trades of other tokens included, a claim is paid for the claimant's last active epoch, however old; that is the previous epoch if and only if the claimant traded in it. |
| `VolumeHistory.LifetimeVolume` | programs/torch_market/src/handlers/market.rs:323-336 | After any run from a new token a user's lifetime volume is the sum of the user's counted trades over all epochs. |
| `VolumeHistory.ElsewhereRecords` | programs/torch_market/src/handlers/market.rs:316-337 | A tracked trade of another token adds its amount to the trader's counters and to nobody else's. |
| `Program.ElsewhereLeavesToken` | programs/torch_market/src/contexts.rs:221-234 | Trading and reclaiming other tokens changes only the shared statistics, the protocol treasury and the traders' SOL. |
| `RewardProperties.ElsewhereKeepsPool` | programs/torch_market/src/contexts.rs:221-234 | Trades and reclaims of other tokens keep the pool's invariants. |
| `VolumeHistory.StaleVolumeExample` | programs/torch_market/src/handlers/protocol_treasury.rs:78-85 | A run from creation to a claim in epoch 4 paid for volume of epoch 1 by a user idle in epoch 3. |
| `ProtocolVolume.StepCounts` | programs/torch_market/src/handlers/market.rs:339-345 | Every successful trade that names the protocol treasury, sales and other tokens included, adds its volume to the running epoch; a rollover moves that on; nothing else changes the two counters. |
| `ProtocolVolume.CountersAreTheTrades` | programs/torch_market/src/handlers/market.rs:525-532 | After any run from a new token the two protocol counters are the volumes of all counted trades of the running epoch and of the one before. |
| `ProtocolVolume.UserVolumesAreHistories` | programs/torch_market/src/handlers/market.rs:316-345 | The volumes summed below are the users' histories that claims are computed from. |
| `ProtocolVolume.UsersAddUp` | programs/torch_market/src/handlers/market.rs:316-345 | In every epoch of every run the users' volumes together are at most the protocol's, and equal to it if every counted trade names its trader's statistics. |
| `ProtocolVolume.FreshVolumeIsAPart` | programs/torch_market/src/math.rs:154-174 | After any run from a new token a user's volume of the previous epoch is at most what a claim divides by. |
| `Stars.StarSucceedsIff` | programs/torch_market/src/handlers/rewards.rs:14-94 | In any world a star succeeds if and only if it is the user's first, not the creator's own, can be paid, and counters and the creator's wallet have room. |
| `Stars.StarsSucceedIff` | programs/torch_market/src/handlers/rewards.rs:14-94 | The same in every reachable state, with only the price and the room left to ask for. |
| `Stars.StarIsRecorded` | programs/torch_market/src/handlers/rewards.rs:65-91 | A successful star is recorded for its user, counted once, and pays out the pot at the threshold. |
| `Stars.StarsAreUsers` | programs/torch_market/src/handlers/rewards.rs:14-94 | After any run from a new token the star counter is the number of different users who starred, the creator not among them. |
| `Stars.NoSecondStar` | programs/torch_market/src/handlers/rewards.rs:14-94 | After a successful star the same user's next one is refused, whatever happens in between. |
| `VaultOperations.CreateTerms` | programs/torch_market/src/handlers/vault.rs:10-30 | A vault is created if and only if its owner has none and can pay the rent, which is all that moves. |
| `VaultOperations.DepositSucceedsIff` | programs/torch_market/src/handlers/vault.rs:33-57 | A deposit succeeds if and only if it is positive, the vault exists, the wallet holds it and the counters have room. |
| `VaultOperations.DepositMoves` | programs/torch_market/src/handlers/vault.rs:33-57 | It moves exactly the amount from the wallet to the vault's ledger and cash; every other wallet and vault stays. |
| `VaultOperations.WithdrawSucceedsIff` | programs/torch_market/src/handlers/vault.rs:60-88 | A withdrawal succeeds if and only if ledger and cash hold it and counter and recipient have room. |
| `VaultOperations.WithdrawMoves` | programs/torch_market/src/handlers/vault.rs:60-88 | It moves exactly the amount from the vault to the wallet; every other wallet and vault stays. |
| `VaultOperations.WithdrawalsSucceedIff` | programs/torch_market/src/handlers/vault.rs:60-88 | In every reachable state any part of a vault's balance can be withdrawn; the cash is there. |
| `VaultOperations.VaultBuys` | programs/torch_market/src/handlers/market.rs:133-156 | A buy through a vault is paid from its balance and delivered to the vault's token account if asked for, to the buyer's otherwise; the other of the two accounts is untouched. |
| `VaultOperations.VaultSells` | programs/torch_market/src/handlers/market.rs:406-476 | A sale through a vault takes the vault's tokens and pays the vault; the seller's own accounts are untouched. |
| `VaultOperations.VaultBorrows` | programs/torch_market/src/handlers/lending.rs:95-263 | A loan through a vault is backed by the vault's tokens and paid to the vault. |
| `VaultOperations.VaultRepays` | programs/torch_market/src/handlers/lending.rs:336-415 | A repayment through a vault is paid by the vault, and the collateral comes back to the vault. |
| `VaultOperations.VaultLiquidates` | programs/torch_market/src/handlers/lending.rs:566-636 | A liquidation through a vault is paid by the vault, and what is seized goes to the vault. |
| `VaultOperations.VaultClaims` | programs/torch_market/src/handlers/protocol_treasury.rs:124-169 | A reward claimed through a vault is paid to the vault. |
| `OtherExchanges.PostSucceedsIff` | programs/torch_market/src/handlers/short.rs:94-134 | Short collateral can be posted if and only if the token has migrated and is not reclaimed, shorts are enabled, the amount is positive and can be paid, and the counters have room. |
| `OtherExchanges.PostExchange` | programs/torch_market/src/handlers/short.rs:94-134 | It moves exactly the amount into the treasury and reserves it for the position. |
| `OtherExchanges.ReleasesSucceedIff` | programs/torch_market/src/handlers/short.rs:382-460 | In every reachable state any part of a position's collateral can be released to a purse with room for it. |
| `OtherExchanges.ReleaseExchange` | programs/torch_market/src/handlers/short.rs:382-460 | What is released leaves treasury, reserve and position, and reaches the purse. |
| `OtherExchanges.BuyElsewhereExchange` | programs/torch_market/src/handlers/market.rs:158-284 | A purchase of another token is paid from the buyer's purse; protocol treasury, dev wallet and that token's creator get exactly their shares. |
| `OtherExchanges.OtherElsewhereExchange` | programs/torch_market/src/handlers/reclaim.rs:42-76 | A sale of another token pays the seller's purse, a reclaim of one the protocol treasury, exactly. |
| `OtherExchanges.BuyElsewhereSucceedsIff` | programs/torch_market/src/handlers/market.rs:158-345 | A purchase of another token succeeds, as seen from here, if and only if the shares are within the amount, the purse can pay, and recipients, pool, counters and statistics have room. |
| `OtherExchanges.OtherElsewhereSucceedsIff` | programs/torch_market/src/handlers/market.rs:446-532 | A sale or a reclaim of another token succeeds, as seen from here, if and only if its SOL is there and can be received and counted, and the named statistics exist. |
| `SdkQuotes.SdkAgreesWithChain` | packages/sdk/src/program.ts:281-305 | With the chain's fees the SDK and the program agree to the lamport on the SOL to the curve, the tokens and the fees. |
| `SdkQuotes.HigherFeesQuoteLess` | packages/sdk/src/program.ts:281-305 | Higher fee arguments never quote more SOL to the curve or more tokens. |
| `SdkQuotes.QuoteNeverOverPromises` | packages/sdk/src/quotes.ts:97-112 | The quote with the fees actually passed promises at most what the chain delivers. |
| `SdkQuotes.QuotedBuyNeverSlips` | packages/sdk/src/transactions.ts:236-256 | A buy with the quoted minimum on the quoted state is never rejected for slippage, for any tolerance. |
| `SdkQuotes.PredictedGraduationHappens` | packages/sdk/src/transactions.ts:246-249 | A graduation the SDK predicts happens. |
| `SdkQuotes.PredictionFailsIff` | packages/sdk/src/transactions.ts:246-249 | For a buy the chain accepts, prediction and outcome differ if and only if what is missing to the target lies above the quote with the passed fees and at most at the quote with the chain's. |
| `SdkQuotes.ExactAmount` | packages/sdk/src/program.ts:281-300 | Every number of lamports can be made to reach the curve exactly, by an amount between it and the bound. |
| `SdkQuotes.EveryGapCanBeMissed` | packages/sdk/src/transactions.ts:246-249 | On every curve at least a thousand lamports short of its target there is an amount that reaches it exactly on chain and that the SDK says does not. |
| `TradingScenarios.MissedGraduationExample` | packages/sdk/src/transactions.ts:246-249 | A run from creation to a buy that the chain accepts and that completes the curve, although the SDK says that it does not. |
| `SdkQuotes.QuotedSaleIsExact` | packages/sdk/src/quotes.ts:161-168 | The sale quote is the chain's payout, so its minimum is met. |
| `SdkQuotes.MinOutput` | packages/sdk/src/quotes.ts:112-112 | The minimum is the tolerated share of the quoted amount, rounded down. |
| `TokenLedger.FromCurve` | programs/torch_market/src/handlers/market.rs:143-156 | Delivering bought tokens conserves the supply and fails if and only if the account is short. |
| `TokenLedger.ToCurve` | programs/torch_market/src/handlers/market.rs:406-444 | Returning tokens to the curve conserves the supply and fails if and only if the holder is short. |
| `TokenLedger.ToCollateral` | programs/torch_market/src/handlers/lending.rs:95-147 | Locking collateral conserves the supply and credits the vault with exactly the net amount. |
| `TokenLedger.FromCollateral` | programs/torch_market/src/handlers/lending.rs:357-370 | Releasing collateral conserves the supply and fails if and only if the vault is short. |
| `TokenLedger.SeedPool` | programs/torch_market/src/migration.rs:160-177 | Seeding empties the curve's account: what is not seeded is burned, and the pool receives the amount less two fees. |
| `Wallets.Spend` | programs/torch_market/src/handlers/market.rs:252-261 | Spending keeps a vault's counters and cash in agreement. |
| `Wallets.Receive` | programs/torch_market/src/handlers/market.rs:457-465 | Receiving keeps them in agreement. |
| `Wallets.Pay` | programs/torch_market/src/handlers/market.rs:158-163 | A payment takes exactly its amount out of the traders' SOL and keeps every vault's books. |
| `Wallets.PayOut` | programs/torch_market/src/handlers/market.rs:446-476 | A payout adds exactly its amount and keeps every vault's books. |
| `Wallets.Create` | programs/torch_market/src/handlers/vault.rs:10-30 | Creating a vault conserves SOL and starts with agreeing counters. |
| `Wallets.Deposit` | programs/torch_market/src/handlers/vault.rs:33-57 | A deposit conserves SOL and keeps every vault's books. |
| `Wallets.Withdraw` | programs/torch_market/src/handlers/vault.rs:60-88 | A withdrawal conserves SOL and keeps every vault's books. |
| `Program.PayForBuy` | programs/torch_market/src/handlers/market.rs:158-261 | The payments of a buy take from the traders exactly what reaches curve, treasury and protocol. |
| `AccountObjects.CurveAccount.constructor` | programs/torch_market/src/handlers/token.rs:126-143 | A new curve has the tier's virtual reserves, no real SOL and the whole curve supply. |
| `AccountObjects.CurveAccount.Bought` | programs/torch_market/src/handlers/market.rs:263-315 | The in-place update of a buy moves lamports and reserves by its parts and stamps the slot as last activity; completion, or the error, is the specified one. |
| `AccountObjects.CurveAccount.Sold` | programs/torch_market/src/handlers/market.rs:492-508 | The in-place update of a sale moves lamports and reserves by its parts and stamps the slot as last activity, or fails with the specified error. |
| `AccountObjects.CurveAccount.HandOver` | programs/torch_market/src/migration.rs:62-77 | Migration takes the real SOL out of the account and closes the curve, failing exactly when the account is short. |
| `AccountObjects.CurveAccount.GiveUp` | programs/torch_market/src/handlers/reclaim.rs:42-69 | Reclaim takes the real SOL out and leaves the virtual reserves. |
| `AccountObjects.TreasuryAccount.constructor` | programs/torch_market/src/handlers/token.rs:157-199 | A new treasury is empty. |
| `AccountObjects.TreasuryAccount.Receive` | programs/torch_market/src/handlers/market.rs:484-491 | Ledger and lamports rise by the amount together, failing exactly on overflow. |
| `AccountObjects.TreasuryAccount.Lends` | programs/torch_market/src/handlers/lending.rs:192-288 | The guards and updates of lending, in order, meet their specification. |
| `AccountObjects.TreasuryAccount.ReceivesStar` | programs/torch_market/src/handlers/rewards.rs:65-91 | The star counters, the threshold and the release of the pot, failing exactly on overflow. |
| `AccountObjects.TreasuryAccount.Locks` | programs/torch_market/src/handlers/lending.rs:289-298 | Locked collateral and the loan count rise together, failing exactly on overflow. |
| `AccountObjects.TreasuryAccount.Collects` | programs/torch_market/src/handlers/lending.rs:442-457 | The updates for money coming back meet their specification. |
| `AccountObjects.TreasuryAccount.Reimburses` | programs/torch_market/src/migration.rs:332-359 | The payer's cost leaves ledger and lamports together. |
| `AccountObjects.TreasuryAccount.RecordBaseline` | programs/torch_market/src/migration.rs:365-367 | Only the baseline changes. |
| `AccountObjects.TreasuryAccount.GiveUp` | programs/torch_market/src/handlers/reclaim.rs:55-70 | Reclaim takes the whole ledger balance out. |
| `AccountObjects.ProtocolAccount.Receive` | programs/torch_market/src/handlers/market.rs:247-251 | Fees received and lamports rise together, failing exactly on overflow. |
| `AccountObjects.ProtocolAccount.CountVolume` | programs/torch_market/src/handlers/market.rs:339-345 | A trade's volume is added to the running epoch, failing exactly on overflow. |
| `AccountObjects.TreasuryAccount.PaysOut` | programs/torch_market/src/handlers/short.rs:390-418 | A short's collateral leaves the account's lamports, failing exactly when they are too few. |
| `AccountObjects.TreasuryAccount.FreesShort` | programs/torch_market/src/handlers/short.rs:453-460 | The ledger falls by the amount, failing exactly when it is too small, and the reserve saturates. |
| `Handlers.Market.constructor` | programs/torch_market/src/handlers/token.rs:122-199 | The objects of a new token are the world every run starts from. |
| `Handlers.Market.Execute` | programs/torch_market/src/lib.rs:20-158 | One transaction on the objects is one step of the model for every instruction: the new state on success, the old one restored on failure. |
| `Handlers.Market.ExecuteAll` | programs/torch_market/src/lib.rs:20-158 | Any number of transactions on the objects is the model's run. |
| `MarketRuns.Operate` | programs/torch_market/src/lib.rs:20-158 | Creating a token and executing any transactions leaves objects that satisfy the loan book, pool, supply and cash invariants. |
| `Handlers.Market.Dispatch` | programs/torch_market/src/lib.rs:20-158 | Each handler's in-place run ends in exactly the specified state or the specified error. |
| `Handlers.Market.Buy` | programs/torch_market/src/handlers/market.rs:18-345 | The buy handler meets its specification. |
| `Handlers.Market.SplitBuy` | programs/torch_market/src/handlers/market.rs:49-109 | The parts of the computed quote add up to the amount, at least 82% of it reach the curve, and the tokens never exceed the virtual inventory. |
| `Handlers.Market.DeliverBuy` | programs/torch_market/src/handlers/market.rs:111-156 | Guards, transfers and books in the handler's order meet the specification; a delivery keeps the destination, its balance counted, within 20 million tokens and meets the minimum. |
| `Handlers.Market.CollectPayments` | programs/torch_market/src/handlers/market.rs:158-261 | The payments, transfer by transfer, meet the specification. |
| `Handlers.Market.UpdateBooks` | programs/torch_market/src/handlers/market.rs:247-345 | Reserves, fee and volume counters meet the specification. |
| `Handlers.Market.Sell` | programs/torch_market/src/handlers/market.rs:358-535 | The sell handler meets its specification. |
| `Handlers.Market.TakeBack` | programs/torch_market/src/handlers/market.rs:406-532 | Transfers and books of a sale in the handler's order meet the specification. |
| `Handlers.Market.Migrate` | programs/torch_market/src/migration.rs:150-367 | Funding and migration, as one step, meet their specification. |
| `Handlers.Market.SeedDex` | programs/torch_market/src/migration.rs:150-367 | The pool's seeding, the burn, the reimbursement and the baseline meet the specification; the treasury's ledger and lamports each fall by the cost. |
| `Handlers.Market.BuyElsewhere` | programs/torch_market/src/handlers/market.rs:247-345 | A buy of another token, seen from the shared accounts, meets its specification. |
| `Handlers.Market.SellElsewhere` | programs/torch_market/src/handlers/market.rs:446-532 | A sale of another token, seen from the shared accounts, meets its specification. |
| `Handlers.Market.ReclaimElsewhere` | programs/torch_market/src/handlers/reclaim.rs:42-76 | A reclaim of another token, seen from the protocol treasury, meets its specification. |
| `Handlers.Market.Reclaim` | programs/torch_market/src/handlers/reclaim.rs:13-79 | The reclaim handler meets its specification. |
| `Handlers.Market.Revive` | programs/torch_market/src/handlers/revival.rs:21-73 | The revival handler meets its specification. |
| `Handlers.Market.StarToken` | programs/torch_market/src/handlers/rewards.rs:14-94 | The star handler meets its specification. |
| `Handlers.Market.Borrow` | programs/torch_market/src/handlers/lending.rs:58-86 | The borrow handler meets its specification. |
| `Handlers.Market.OpenOrExtend` | programs/torch_market/src/handlers/lending.rs:88-263 | Collateral, limits and payout in the handler's order meet the specification. |
| `Handlers.Market.UpdateLoan` | programs/torch_market/src/handlers/lending.rs:264-298 | The position and the aggregates, in order, meet the specification. |
| `Handlers.Market.Repay` | programs/torch_market/src/handlers/lending.rs:314-330 | The repay handler meets its specification. |
| `Handlers.Market.PayBack` | programs/torch_market/src/handlers/lending.rs:332-476 | Return of collateral, payment and books meet the specification. |
| `Handlers.Market.PayDown` | programs/torch_market/src/handlers/lending.rs:417-440 | Interest first, then principal, ends in the specified loan. |
| `Handlers.Market.Liquidate` | programs/torch_market/src/handlers/lending.rs:481-535 | The liquidate handler meets its specification. |
| `Handlers.Market.PlanSeizure` | programs/torch_market/src/handlers/lending.rs:513-564 | Slice, seizure, payment and bad debt are computed as specified. |
| `Handlers.Market.SeizeCollateral` | programs/torch_market/src/handlers/lending.rs:566-679 | Transfers and books of a liquidation meet the specification. |
| `Handlers.Market.WriteDown` | programs/torch_market/src/handlers/lending.rs:638-659 | The loan's step-by-step write-down ends in the specified loan and parts. |
| `Handlers.Market.PostShort` | programs/torch_market/src/handlers/short.rs:94-134 | The SOL leg of opening a short meets its specification. |
| `Handlers.Market.ReleaseShort` | programs/torch_market/src/handlers/short.rs:382-460 | The SOL leg of closing a short meets its specification. |
| `Handlers.Market.AdvanceEpoch` | programs/torch_market/src/handlers/protocol_treasury.rs:31-63 | The epoch rollover meets its specification. |
| `Handlers.Market.ClaimRewards` | programs/torch_market/src/handlers/protocol_treasury.rs:67-186 | The claim handler meets its specification. |
| `Handlers.Market.PayReward` | programs/torch_market/src/handlers/protocol_treasury.rs:124-183 | The payment of a claim and its books meet the specification. |
| `Handlers.Market.CreateVault` | programs/torch_market/src/handlers/vault.rs:10-30 | Vault creation meets its specification. |
| `Handlers.Market.DepositVault` | programs/torch_market/src/handlers/vault.rs:33-57 | The deposit handler meets its specification. |
| `Handlers.Market.WithdrawVault` | programs/torch_market/src/handlers/vault.rs:60-88 | The withdrawal handler meets its specification. |

## Left out

- Raydium and Token-2022 calls, program-derived addresses and byte layouts: pool reserves, the slot, the time and the migration's cost are inputs of a step, and any value is allowed.
- Signatures, wallet links and vault authorities: any user may name any vault, so the runs include more than the program admits.
- Slots and times of successive steps are not forced to grow, for the same reason.
- Handlers.Market.ReleaseShort: how much of a short's collateral is released is an input, because the token debt that decides it is not modelled.
- Short selling's token debt, interest and price limits: only its SOL leg is modelled, as posting and releasing any part of a position's collateral. A release is a checked subtraction; where liquidation of a short saturates, the two agree in every reachable state (`ShortCollateralIsThere`).
- Other tokens are seen only through what they share: trades by volume, fees, shares of dev wallet and creator, and payment; reclaims by amount. Their curves' SOL is part of the SOL outside the modelled accounts.
- Vault swaps, fee harvesting and fee swaps to SOL, token withdrawal from vaults, and admin handlers.
- Token creation beyond the initial field values; names, metadata and the mint.
- Rent paid for loan, statistics, star and short accounts; only the vault's rent is paid by its creator.
- Per-user purchase statistics (`user_position`) and the overflow of their counters, linked-wallet counts, timestamps and events.
- Harvested fees at migration: `vote_vault_amount` (migration.rs:107) is the balance of the treasury's token account, which the permissionless `harvest_fees` (treasury.rs:16) can fill from withheld fees before migration; what it finds there it burns (migration.rs:134-146), since creation sets `vote_result_return` to false (token.rs:139). Neither the harvest nor that burn is modelled, so withheld fees stay withheld.
- Handlers.Market.Migrate: funding and migration are one step. The program means one transaction to hold both, but nothing in `FundMigrationWsol` (contexts.rs:582-603) enforces it: after a lone `fund_migration_wsol` the curve's account holds its rent only while `real_sol_reserves` still counts the SOL, which is in the curve's wrapped-SOL account until migration. That state, and a migration paid for from elsewhere, are not modelled.
- The transfer fee is the program's own seven basis points, not read from the mint's configuration.
- Vaults, loans and statistics are values in maps that the methods reassign, so aliasing between two references to the same vault is not modelled; curve, treasury and protocol treasury are objects.
- LoanCount.ActiveLoansArePositions: bounds the count of active loans from above only; a fully liquidated position is counted out but stays open, and is not counted again when it borrows once more (`ExactCountIsLostIff`).
- The SDK's floating-point display prices, its DEX branch, and the exception it throws for a zero divisor.
- `sim/torch_sim.py`, wallet and transaction plumbing.
- CurveGuarantees.OvershootIsBounded: stated for the three tiers; the legacy reserves of other targets are not bounded, because they belong to no tier.
- OrderSplitting.SplittingGainsNothing: is about the lamports that reach the curve; with the fees it fails, and SplittingABuy takes its place.
- OrderSplitting.SplittingABuy: bounds what splitting gains from above; which split gains most is not determined.
- LiquidationProperties.HealthWorsensBelowCover: has a premise one rounding unit wide of 1.1 times cover; HealthIsKeptIff decides the band between.
