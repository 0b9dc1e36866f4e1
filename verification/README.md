# The gmsol market model, verified

A Dafny model of one GMX-V2-style market as implemented by the `gmsol-model` crate, and of the fixed-capacity
map of `gmsol-utils`, with proofs of what the market keeps over all its runs.

A market holds pools with a long and a short amount: liquidity, swap impact, claimable fees, position impact,
and per side of the perpetual market open interest (in USD and in tokens), collateral, and the funding amounts
per unit of size. Liquidity providers deposit and withdraw, traders swap and increase positions, and three
maintenance actions accrue funding and borrowing fees and distribute the position impact pool. Every action is
checked integer arithmetic with deliberate rounding; the properties here say that all that rounding, capping and
lazy accrual falls on the safe side.

## How it is built

- `Num`, `Fixed`, `Utils`, `Price`, `Pool`, `PriceImpact`, `Fees`, `Params`: the arithmetic, with the number range
  (`MAX`, `SMAX`) and the fixed-point one (`UNIT`) left symbolic, so that every result holds for all of them.
- `State`, `SwapAction`, `DepositAction`, `WithdrawAction`, `FundingAction`, `AccrualActions`, `PositionState`,
  `IncreaseAction`: the market as a value, and each action as a function to an optional next state.
- `LiveMarket`, `LiveFunding`, `LivePosition`: the same actions as methods on objects that are updated in place, in
  the order and with the loops of the source, each proved to compute the function of its action.
- `World`: market, positions and a ledger of vault flows; `Step` is one successful action, `Run` a sequence of them.
- `Sums`, `Invariants`, `Conservation`, `Solvency`, `BorrowingTotals`, `FundingRates`, `FundingSettlement`,
  `ImpactFarming`, `Safety`, `TraderProfits`: what every run keeps, as sums over the positions.
- `LiquidityValue`, `PendingFees`, `ShareValue`, `LazyAccrual`, `ValueNeutrality`, `KinkModel`, `PoolAccounting`,
  `Liquidation`: what single actions and computations mean.
- `UncappedValue`, `ValueRuns`: what each action, and a whole run, does to the value of a market token.
- `Example`, `FundingExample`, `ImpactExample`: a run with every kind of action, one in which funding flows and an
  increase with a positive impact, so that the general results are about something. `Limits`: concrete states just
  outside the conditions of general results.
- `SortedEntries`, `FixedMap`: the sorted array map and the abstract map that it refines.

The main results: funding stays solvent (`Solvency.SettlingEveryoneIsSolvent`), tokens are conserved exactly
(`Conservation.RunConserves`, `Conservation.VaultCoversEveryone`), aggregates are sums over positions
(`Invariants.RunKeepsConsistent`), price impact cannot be farmed (`ImpactFarming.CreditedAtMostWorsened`), a deposit
takes from the value of market tokens at most what the profit caps withhold and the borrowing fees pending before it
(`ShareValue.DepositLosesAtMost`), a withdrawal takes nothing as long as the reserve of the kink model does not round to
nothing (`ShareValue.WithdrawKeepsShareValue`), and with the same condition a deposit withdrawn at once gains nothing
beyond what a cap withholds (`ShareValue.DepositThenWithdrawGainsNothing`). Increases are neutral up to rounding
(`ValueNeutrality.IncreaseValueNeutral`), and over a whole run at one set of ordered prices, with accruals up to date
whenever something is exchanged and no cap in effect, that rounding is all that holders of market tokens can lose
(`ValueRuns.RunKeepsPoolValue`). Limits hold on both sides while prices only relieve them
(`Safety.RunSafe`), capped profits respect their limit in all (`TraderProfits.CappedProfitsWithinLimit`), and removal
from a full map goes out of bounds exactly when the key is present (`FixedMap.FixedMap.Remove`).

Six behaviours of the code are worth knowing, each with its condition and a concrete case:

- A deposit that raises a profit cap in effect lowers the value of a market token unless its fees, impact and
  rounding cover what is released (`ShareValue.DepositShareValueExactly`, `Limits.DepositUnderCapLowersShareValue`).
  The deposit's own check limits what this cause can take to a rounding on any side with liquidity
  (`ShareValue.CheckedWithholdsLittle`).
- A deposit while borrowing fees are accruing lowers them, because the larger pool lowers the rate for the time that
  has already passed: a market token can lose a large part of its value, with no cap in effect
  (`Limits.DepositLowersPendingFees`), though no more than the fees that were pending
  (`ShareValue.DepositLosesAtMost`). Nothing is lost this way if the borrowing state is updated first
  (`ShareValue.DepositKeepsShareValue`), as the on-chain program does
  (`programs/gmsol-store/src/ops/market.rs:235-262`).
- A withdrawal can do the same in one corner: when fees are accruing with the kink model and the reserve that the usage
  is measured against rounds to nothing after it (`Limits.WithdrawToRoundedReserve`,
  `ShareValue.WithdrawLosesAtMost`).
- A first deposit of two tokens is credited a pool value left over without supply twice
  (`LiquidityValue.FirstDepositMints`, `Limits.LeftoverCreditedTwice`). It is credited for too much if and only if two
  tokens are deposited and that value exceeds what the two divisions round off
  (`LiquidityValue.OvercreditedExactly`); never with one token or without such a value.
- A price move alone can take a market out of its reserve (`Safety.PriceMoveSafe`, `Limits.PriceRiseBreaksReserve`).
- Removing a present key from a full map goes out of bounds (`SortedEntries.TakeRefines`,
  `SortedEntries.RemoveFromFullFails`).

Every error of the source is `None`. Operations that abort the program instead of returning an error (`mid` on
overflowing prices, an index out of bounds) are `None` or an explicit outcome too. An invariant over runs ranges
over the actions that succeed: only swaps promise to leave the market alone when they fail.

## Model

| member | source | states |
|---|---|---|
| `Num.MulDivBounds` | crates/gmsol-model/src/num.rs:243-305 | Full-precision `a*b/d` is the floor: times `d` it is at most `a*b`, by less than `d`. |
| `Num.MulDivCeilBounds` | crates/gmsol-model/src/num.rs:250-305 | Full-precision rounded-up `a*b/d` is the ceiling: times `d` it is at least `a*b`, by less than `d`. |
| `Fixed.CheckedPowFixed` | crates/gmsol-model/src/fixed.rs:25-50 | The loop for whole exponents multiplies `exponent / UNIT` times and stops at the first overflow; other exponents go to the fractional power. |
| `Fixed.PowStepsExact` | crates/gmsol-model/src/fixed.rs:25-38 | For a base of at least one, all overflow checks of the loop together amount to one bound on the final value. |
| `Fixed.PowValueMono` | crates/gmsol-model/src/fixed.rs:25-38 | The whole-exponent power, rounding at each step included, is monotone in its base. |
| `Utils.ExponentExact` | crates/gmsol-model/src/utils.rs:64-93 | For whole exponents, the shortcuts for values below one, one, exponent zero and exponent one all agree with one closed form. |
| `Utils.PowerValueMono` | crates/gmsol-model/src/utils.rs:64-93 | That closed form is monotone, across its cut-off at one. |
| `Pool.Pool.ApplyDelta` | crates/gmsol-model/src/test.rs:72-100 | A delta moves exactly one side by exactly its amount; it fails if and only if the side would underflow or overflow. |
| `Fees.FeeParams.ApplyFees` | crates/gmsol-model/src/params/fee.rs:74-89 | What is left and the two fee parts add up to exactly the amount. |
| `Fees.CostSplits` | crates/gmsol-model/src/params/fee.rs:705-801 | The total cost of a position change is exactly the receiver's part, the pool's part and the funding. |
| `PriceImpact.ImpactBoundedByPotential` | crates/gmsol-model/src/pool/delta.rs:202-286 | One move of a pair of USD values earns at most the drop of a potential (the positive-factor impact of the whole imbalance), plus one unit if it worsens the imbalance on one side; same-side and cross-over alike. |
| `PriceImpact.ImpactCannotBeFarmed` | crates/gmsol-model/src/pool/delta.rs:202-286 | Along any chain of moves the summed impact is at most the potential given up plus one unit per worsening same-side move. |
| `ImpactFarming.CapOnlyLowers` | crates/gmsol-model/src/position.rs:578-590 | Capping a positive impact by the impact pool and by a factor of the size never raises it. |
| `ImpactFarming.RunNotFarmed` | crates/gmsol-model/src/action/increase_position.rs:275-278 | Over every run of all actions, the impacts credited to positions plus the potential of the present open interest never exceed the number of worsening moves. |
| `ImpactFarming.CreditedAtMostWorsened` | crates/gmsol-model/src/action/increase_position.rs:275-278 | From the empty market on, the credited impacts sum to at most the number of worsening moves. |
| `SwapAction.ImpactAmountBounds` | crates/gmsol-model/src/market/swap.rs:51-100 | A positive impact converts to tokens worth at most the impact with the uncovered rest, within the impact pool; a negative one to tokens worth at least its magnitude. |
| `SwapAction.SettleBounds` | crates/gmsol-model/src/action/swap.rs:133-246 | In every branch, also when a positive impact is capped on one side and topped up from the other, the value out is at most the value in after fees plus the signed impact, and the liquidity pool gives out no more than it takes in. |
| `SwapAction.SwapValueBound` | crates/gmsol-model/src/action/swap.rs:94-271 | The trader's output at the maximum price is at most the input after fees at the minimum price plus the signed impact. |
| `SwapAction.SwapKeepsLiquidityValue` | crates/gmsol-model/src/action/swap.rs:235-246 | At any prices between minimum and maximum, the liquidity pool is worth at least as much after a swap as before. |
| `SwapAction.SwapConserves` | crates/gmsol-model/src/action/swap.rs:94-311 | The three token pools together change by exactly the input and the output of the swap. |
| `DepositAction.DepositConserves` | crates/gmsol-model/src/action/deposit.rs:217-395 | A deposit adds exactly the deposited tokens to the three token pools and exactly the minted tokens to the supply, takes nothing out of the liquidity pool and changes nothing else. |
| `WithdrawAction.WithdrawConserves` | crates/gmsol-model/src/action/withdraw.rs:188-245 | A withdrawal takes exactly its outputs out of the three token pools, burns exactly the given market tokens and changes nothing else. |
| `WithdrawAction.OutputWithinShare` | crates/gmsol-model/src/action/withdraw.rs:122-172 | The tokens for a withdrawal are worth, at the maximum prices, at most the market tokens' share of the pool value, through three nested floors. |
| `LiquidityValue.PoolValueWithoutTraders` | crates/gmsol-model/src/market/liquidity.rs:78-149 | With no open interest and an empty impact pool, the pool is worth exactly its tokens. |
| `LiquidityValue.DepositValue` | crates/gmsol-model/src/action/deposit.rs:217-395 | The market tokens minted by a deposit, for both legs together, are at most the supply's share of what the pool gained, and of the deposit at minimum prices plus the signed impact, a negative one short by at most one unit of rounding. |
| `LiquidityValue.SharesWithinImpact` | crates/gmsol-model/src/action/deposit.rs:358-392 | The two rounded shares of a price impact add up to at most a positive impact, and to at most a negative one plus one unit. |
| `ShareValue.PoolValueSplits` | crates/gmsol-model/src/market/liquidity.rs:78-149 | With any traders and impact pool, the pool value is its tokens, a part that does not depend on liquidity, and the profits that the caps withhold. |
| `ShareValue.DepositShareValueExactly` | crates/gmsol-model/src/action/deposit.rs:217-395 | With any traders and impact pool, a deposit keeps the value per market token at maximum prices if and only if the profit that it releases from the caps, with the pending borrowing fees that it takes away, is covered by its own fees, impact and rounding; with less than one unit per market token of these, if and only if it loses nothing. No fees are taken away when the borrowing state has just been updated. Two-sided deposits included. |
| `ShareValue.DepositKeepsShareValue` | crates/gmsol-model/src/action/deposit.rs:217-395 | With both sides below their caps before it, and the borrowing state up to date or no borrowing fees pending for the pool, a deposit never lowers the value per market token at maximum prices. |
| `ShareValue.DepositLosesAtMost` | crates/gmsol-model/src/action/deposit.rs:217-395 | Whatever the caps and the pending fees, with the profit that the caps withhold and the pending borrowing fees, both of the state before, added to the value after it, no deposit lowers the value per market token. |
| `ShareValue.CheckedWithholdsLittle` | crates/gmsol-model/src/market/base.rs:220-306 | Because a deposit checks the profits first, what the cap of a side with liquidity can withhold before it is less than one unit above a rounding of the side's value to whole units. |
| `Limits.DepositUnderCapLowersShareValue` | crates/gmsol-model/src/action/deposit.rs:217-395 | A concrete deposit that passes every check lowers the value per market token, because a profit is above its cap by rounding. |
| `Limits.DepositLowersPendingFees` | crates/gmsol-model/src/action/deposit.rs:217-395 | A concrete deposit with no cap in effect takes at least a sixth of the value of a market token: doubling the pool halves the rate, and with it the borrowing fees pending since the last update. |
| `PendingFees.LessLiquidityLosesNoFees` | crates/gmsol-model/src/market/borrowing.rs:63-114 | Less liquidity never lowers the borrowing rate of a side or its pending fees, with the power of any exponent and through the kink, the skip for the smaller side included. The one condition: when fees are accruing with the kink model, the reserve at the lower liquidity does not round to nothing. |
| `ShareValue.WithdrawKeepsShareValue` | crates/gmsol-model/src/action/withdraw.rs:122-245 | With any traders, caps and impact pool, a withdrawal never lowers the value per market token at minimum prices, provided the kink reserve does not round to nothing after it, or the borrowing state is up to date, or nothing is borrowed; without the kink model, always. |
| `ShareValue.WithdrawLosesAtMost` | crates/gmsol-model/src/action/withdraw.rs:122-245 | Without that condition, what a withdrawal takes from the value of the market tokens that remain is at most the borrowing fees pending before it. |
| `Limits.WithdrawToRoundedReserve` | crates/gmsol-model/src/market/utils.rs:9-40 | A concrete withdrawal after which the kink reserve rounds to nothing: the usage counts as zero, the pending fees vanish and the value per market token falls. |
| `ShareValue.DepositThenWithdrawGainsNothing` | crates/gmsol-model/src/action/deposit.rs:217-395 | With any traders and impact pool, depositing and at once withdrawing the minted tokens returns, at maximum prices, at most the deposit at minimum prices plus the signed impact and its rounding, and what the caps for withdrawals withhold in between: nothing if both sides are below them. Fees may be accruing, unless the kink reserve before the deposit rounds to nothing. |
| `ShareValue.RoundTripWithholdsLittle` | crates/gmsol-model/src/action/withdraw.rs:228-234 | Because a withdrawal checks the profits at its end, what a cap withholds in between is less than one unit above a rounding of the remaining side's value to whole units. |
| `ShareValue.DepositKeepsTokenPrice` | crates/gmsol-model/src/market/liquidity.rs:152-171 | The rounded market token price never falls through a deposit below the caps with the borrowing state up to date or no borrowing fees pending. |
| `ShareValue.WithdrawKeepsTokenPrice` | crates/gmsol-model/src/market/liquidity.rs:152-171 | The rounded market token price never falls through a withdrawal that leaves supply, with the same condition on the kink reserve as for the value. |
| `ShareValue.WithoutTraders` | crates/gmsol-model/src/market/liquidity.rs:78-149 | Without traders and with an empty impact pool nothing is accruing and no cap is in effect, so the results on deposits and withdrawals need no condition. |
| `UncappedValue.PoolValueIsUncapped` | crates/gmsol-model/src/market/liquidity.rs:78-149 | At the maximum prices the pool value is never below the value with every profit paid in full, and is exactly that when both sides are below their caps. |
| `UncappedValue.MinimumWithinUncapped` | crates/gmsol-model/src/market/liquidity.rs:78-149 | The pool value at the minimum prices, by which withdrawals are paid, is at most that uncapped value when both sides are below their caps. |
| `UncappedValue.DepositKeepsUncapped` | crates/gmsol-model/src/action/deposit.rs:217-395 | In an up-to-date market, at ordered prices, a deposit never lowers the uncapped value per market token, whether a cap is in effect or not. |
| `UncappedValue.WithdrawKeepsUncapped` | crates/gmsol-model/src/action/withdraw.rs:122-245 | Nor does a withdrawal below the caps: its outputs are worth at most the withdrawn value even at the maximum prices. |
| `UncappedValue.IncreaseKeepsUncapped` | crates/gmsol-model/src/action/increase_position.rs:440-547 | In an up-to-date market, at ordered prices, an increase of any size, fees and impact costs the pool at most one collateral token and one unit: the pending fees that it settles are received by the pool, and no more is owed to traders and impact pool than before. |
| `UncappedValue.TickKeepsUncapped` | crates/gmsol-model/src/market/liquidity.rs:78-149 | Time alone never lowers the uncapped value. |
| `ValueRuns.RunKeepsPoolValue` | crates/gmsol-model/src/market/liquidity.rs:78-171 | Over any run at one set of ordered prices, spreads included, of deposits, withdrawals, swaps, increases, accruals and time, the value per market token at the maximum prices falls by at most one collateral token at its minimum price and one unit for each increase, spread over the least supply; without increases it never falls. Accruals are up to date whenever something is exchanged, no cap is in effect at the start and at withdrawals, and the value can be computed throughout. |
| `ValueRuns.ExampleOrderly` | crates/gmsol-model/src/action/deposit.rs:217-395 | The run with every kind of action is, once its first deposit is made, one of those runs. |
| `LiquidityValue.OvercreditedExactly` | crates/gmsol-model/src/action/deposit.rs:217-395 | A first deposit mints for more than the left-over pool value and what the pool gained beyond fees together if and only if two tokens are deposited and the left-over value exceeds what the two divisions round off. |
| `Limits.LeftoverCreditedTwice` | crates/gmsol-model/src/action/deposit.rs:217-395 | A concrete first deposit of twenty into a pool worth twenty without supply mints sixty. |
| `LiquidityValue.FirstDepositMints` | crates/gmsol-model/src/action/deposit.rs:217-395 | With no supply, positive impacts are ignored and each token deposited mints for what the pool gained of it beyond fees, at the minimum price; a pool value left over without supply is credited once per token deposited. |
| `PoolAccounting.PoolValueSpread` | crates/gmsol-model/src/market/liquidity.rs:78-149 | With ordered prices and profit caps of at most the whole pool, the maximised pool value is at least the minimised one, with traders present. |
| `PoolAccounting.PoolValueIsResidual` | crates/gmsol-model/src/market/liquidity.rs:78-149 | At a single index price the pool value is its tokens and pending fees less every position's uncapped profit and the impact pool; a profit cap can only add to it, and does so exactly when it takes effect. |
| `AccrualActions.UpdateBorrowingExact` | crates/gmsol-model/src/action/update_borrowing_state.rs:27-58 | The update moves each side's factor to exactly the value read lazily before it, the rate times the elapsed seconds above the old one, and changes nothing but the clock besides. |
| `LazyAccrual.UpdateBorrowingKeepsPoolValue` | crates/gmsol-model/src/action/update_borrowing_state.rs:27-58 | At one instant and the same prices, updating the borrowing state leaves the pool value unchanged, also when it cannot be computed. |
| `LazyAccrual.DistributeImpactExact` | crates/gmsol-model/src/action/distribute_position_impact.rs:57-76 | Distribution takes from the impact pool the rate times the elapsed time, rounded down, and stops at the minimum. |
| `LazyAccrual.DistributeImpactKeepsPoolValue` | crates/gmsol-model/src/action/distribute_position_impact.rs:57-76 | At one instant and the same prices, distributing the position impact leaves the pool value unchanged. |
| `LazyAccrual.DistributeRunSplits` | crates/gmsol-model/src/market/position_impact.rs:82-116 | Splitting an interval into n updates distributes at most n - 1 units less, and never takes the pool below its minimum. |
| `LazyAccrual.BorrowingRunSplits` | crates/gmsol-model/src/market/borrowing.rs:117-142 | However an interval is split, the borrowing factor grows by exactly the rate times the whole time. |
| `BorrowingTotals.TotalPendingDefined` | crates/gmsol-model/src/market/borrowing.rs:145-163 | In every consistent market the total pending fees fail if and only if a computation overflows: the subtraction of the total borrowing never underflows. |
| `BorrowingTotals.TotalPendingCoversPositions` | crates/gmsol-model/src/market/borrowing.rs:145-163 | The total is at least the sum of the pending fees of the side's n positions; with no time elapsed it exceeds that by less than 2n. |
| `BorrowingTotals.PendingIsWeight` | crates/gmsol-model/src/position.rs:611-621 | The pending fee summed above is the one the position computes. |
| `KinkModel.KinkValueMono` | crates/gmsol-model/src/params/fee.rs:224-292 | The kink rate is monotone in the usage, through the kink. |
| `KinkModel.KinkValueBounded` | crates/gmsol-model/src/params/fee.rs:224-292 | Up to full usage the rate is at most the larger of its two parameters. |
| `KinkModel.UsageMono` | crates/gmsol-model/src/market/utils.rs:9-40 | The usage factor grows with the reserved value and with the open interest. |
| `KinkModel.PowerRateMono` | crates/gmsol-model/src/market/borrowing.rs:63-114 | Without a kink and with a whole exponent the rate is monotone in the reserved value. |
| `KinkModel.BorrowingRateMono` | crates/gmsol-model/src/market/borrowing.rs:63-114 | With the kink model or a whole exponent, more reserved value and open interest on a side never lower its rate, the skip for the smaller side included. |
| `KinkModel.BorrowingRateBounded` | crates/gmsol-model/src/market/borrowing.rs:63-114 | Whenever the open interest reserve check passes and the open interest is within its maximum, the kink rate is at most the larger of its two parameters. |
| `KinkModel.RateBoundedAfterIncrease` | crates/gmsol-model/src/action/increase_position.rs:517-520 | The rate of a side is within that bound right after every increase on it. |
| `IncreaseEffects.IncreaseHasEffect` | crates/gmsol-model/src/action/increase_position.rs:440-547 | What an increase does to every pool, to the total borrowing and to the position, field by field: added collateral splits exactly into collateral, fees and funding, and every checkpoint becomes current. |
| `IncreaseEffects.ProcessCollateralEffect` | crates/gmsol-model/src/action/increase_position.rs:358-399 | The fees go to the fee pool and the liquidity pool, the rest to the collateral sum, and nothing is lost. |
| `ValueNeutrality.AcceptablePriceRespected` | crates/gmsol-model/src/action/increase_position.rs:402-432 | An execution with an acceptable price gives a long enough tokens and takes few enough from a short. |
| `ValueNeutrality.ExecutionNeutral` | crates/gmsol-model/src/action/increase_position.rs:260-351 | With one index price, an execution's profit less its impact amount is a loss of less than one price, whatever the impact. |
| `ValueNeutrality.IncreaseValueNeutral` | crates/gmsol-model/src/action/increase_position.rs:440-547 | With one index price, each increase of a non-zero size changes both sides' profits plus the impact pool by an amount in (-price, 0]. |
| `ValueNeutrality.IncreaseNeverOwesMore` | crates/gmsol-model/src/action/increase_position.rs:260-351 | With a spread as well, and for any size, both sides' profits at their lower prices plus the impact pool at its minimum price never rise in an increase. |
| `ValueNeutrality.PositiveImpactCovered` | crates/gmsol-model/src/market/perp.rs:269-304 | With ordered prices a positive impact never overdraws the position impact pool. |
| `ImpactExample.ImpactCredited` | crates/gmsol-model/src/action/increase_position.rs:440-547 | A concrete increase that succeeds with a positive price impact: a short that balances the open interest is given its size for one token less, paid out of the impact pool. |
| `ValueNeutrality.SidesGrow` | crates/gmsol-model/src/position.rs:757-800 | An increase adds its size and tokens to its own side and leaves the other side alone. |
| `Invariants.LiquidityActionsKeepTraders` | crates/gmsol-model/src/action/swap.rs:283-311 | Deposits, withdrawals, swaps, distributions and time leave everything that concerns positions unchanged. |
| `Invariants.IncreaseKeepsConsistent` | crates/gmsol-model/src/action/increase_position.rs:440-547 | An increase keeps every aggregate equal to the sum over positions, the total borrowing equal to the sum of floors, and no checkpoint ahead. |
| `Invariants.RunKeepsConsistent` | crates/gmsol-model/src/position.rs:757-823 | Over every run of all actions: open interest, tokens and collateral per side and collateral are sums over positions, total borrowing is the sum of `floor(size * checkpoint / UNIT)`, and no checkpoint is ahead of the market. |
| `Conservation.RunConserves` | crates/gmsol-model/src/market/base.rs:365-405 | Over every run, for each token: inflow less outflow is liquidity, swap impact, fees and both collateral sums, plus funding paid less funding claimed. |
| `Conservation.ExpectedBalanceIsHeld` | crates/gmsol-model/src/market/base.rs:365-405 | The market's own expected balance and total collateral are exactly what the vault received, less what left it and less the paid, unclaimed funding. |
| `Conservation.VaultCoversEveryone` | crates/gmsol-model/src/market/base.rs:365-405 | After any run the vault covers the pools, every claim and every position's collateral less the funding it still owes. |
| `FundingAction.PackUpBounds` | crates/gmsol-model/src/action/update_funding_state.rs:408-436 | The payers' amount per size, rounded up twice, covers the funding value and exceeds it by less than one price per unit of interest. |
| `FundingAction.PackDownBounds` | crates/gmsol-model/src/action/update_funding_state.rs:408-436 | The receivers' amount per size, rounded down twice, stays within the funding value and is short of it by less than one price per unit of interest. |
| `FundingAction.UpdateBacked` | crates/gmsol-model/src/action/update_funding_state.rs:31-162 | In each token an update charges the payers' interest at least what it lets the receivers' interest claim, also when nobody on the paying side uses that token. |
| `FundingAction.UpdateFundingFrame` | crates/gmsol-model/src/action/update_funding_state.rs:300-324 | An update changes the amounts per size, the stored rate and its clock, and nothing else. |
| `FundingAction.NextRateBounded` | crates/gmsol-model/src/action/update_funding_state.rs:164-293 | The stored rate and the rate in effect stay within the maximum; in adaptive mode the rate in effect is at least the minimum and agrees with the stored one in direction. |
| `FundingAction.DecreasedRateExact` | crates/gmsol-model/src/action/update_funding_state.rs:243-270 | Lowering a rate keeps its sign and stops at magnitude one. |
| `FundingRates.AdaptiveMoves` | crates/gmsol-model/src/action/update_funding_state.rs:218-293 | The stored rate moves toward the larger side, stays, or falls toward one, as the skew and the present direction decide. |
| `FundingRates.RunKeepsRateBounded` | crates/gmsol-model/src/action/update_funding_state.rs:275-293 | Over every run at fixed parameters the stored rate stays within the maximum. |
| `FundingRates.FallingRun` | crates/gmsol-model/src/action/update_funding_state.rs:218-293 | Over any run of all actions in which every funding update finds a falling rate, however the updates are spread and whatever happens in between, the rate loses the configured amount for each second from the first reset of its clock to the last, stops at magnitude one and keeps its sign. |
| `FundingRates.FallingReachesOne` | crates/gmsol-model/src/action/update_funding_state.rs:243-270 | Once the updates of such a run have covered as many seconds as the rate was large, less one, its magnitude is one. |
| `FundingRates.FallingPersists` | crates/gmsol-model/src/action/update_funding_state.rs:218-293 | A falling rate is found falling by every update of a run as long as no position is increased in it. |
| `FundingExample.ChargedIsFalling` | crates/gmsol-model/src/action/update_funding_state.rs:243-270 | A concrete market whose rate an update has just raised is one that the results on falling rates are about. |
| `FundingSettlement.PayersChargedExactly` | crates/gmsol-model/src/action/update_funding_state.rs:60-105 | Settling all n payers of a token after one update charges them the funding value due, and less than one unit of size per unit of scale and one token per position more. |
| `FundingSettlement.ReceiversClaimExactly` | crates/gmsol-model/src/action/update_funding_state.rs:60-105 | Settling all n receivers after one update pays at most the funding value due, and less than one unit of size per unit of scale and one token per position less. |
| `FundingExample.FundingFlows` | crates/gmsol-model/src/action/update_funding_state.rs:300-324 | In a concrete consistent market, one update and two settlements move funding from the long position to the short one, and all that was paid is claimed. |
| `Solvency.SettlementRounds` | crates/gmsol-model/src/position.rs:624-670 | Settling charges a position at least what it owed and pays it at most what it could claim. |
| `Solvency.UpdateFundingKeepsBacked` | crates/gmsol-model/src/action/update_funding_state.rs:300-324 | Over all positions, an update raises what is owed by at least what becomes claimable. |
| `Solvency.IncreaseKeepsBacked` | crates/gmsol-model/src/action/increase_position.rs:495-507 | An increase, which settles one position and may initialise it, keeps funding backed. |
| `Solvency.RunKeepsBacked` | crates/gmsol-model/src/action/update_funding_state.rs:110-162 | Over every run, in each token: funding paid and still owed covers funding claimed and still claimable, whichever side pays and whenever positions settle. |
| `Solvency.SettlingEveryoneIsSolvent` | crates/gmsol-model/src/position.rs:624-670 | After any run from the empty market, if every position settled now, all funding ever paid would cover all funding ever claimed, in whole tokens. |
| `Safety.SwapChecks` | crates/gmsol-model/src/action/swap.rs:255-311 | The three checks a swap makes on its cached view hold of the market that it commits, and only the three token pools differ. |
| `Safety.PriceMoveSafe` | crates/gmsol-model/src/market/base.rs:309-349 | A price move keeps a market safe if and only if the reserved value of both sides at the new prices is within the new limits; a move with no dearer index and no cheaper liquidity always does. |
| `Limits.PriceRiseBreaksReserve` | crates/gmsol-model/src/market/base.rs:309-349 | A concrete market that a rise of the index price alone takes out of its reserve. |
| `Safety.RunSafe` | crates/gmsol-model/src/market/base.rs:309-349 | While prices only move in relief of the reserve, every run at fixed parameters keeps the reserved value of both sides within the reserve at the latest prices, and both open interests within their maximum. |
| `Safety.RunSafeFromEmpty` | crates/gmsol-model/src/market/base.rs:309-349 | In particular at fixed prices, from the empty market on. |
| `Safety.MaxPnlChecked` | crates/gmsol-model/src/market/base.rs:220-306 | The profit check passes if and only if the profit is below the next larger factor of the pool value, or there is no pool value. |
| `Safety.DepositWithinAmounts` | crates/gmsol-model/src/action/deposit.rs:217-395 | After a deposit every deposited token is within its maximum amount, also when the other leg's impact adds to it later. |
| `Safety.IncreaseSafe` | crates/gmsol-model/src/action/increase_position.rs:517-520 | An increase keeps both sides within reserve and open interest limits although it checks one. |
| `Liquidation.RemainingGrowsWithCollateral` | crates/gmsol-model/src/position.rs:455-529 | The remaining collateral value depends on the collateral only through its minimum price. |
| `Liquidation.CollateralProtects` | crates/gmsol-model/src/position.rs:455-529 | Adding collateral never makes a position liquidatable. |
| `Liquidation.IncreasedThenToppedUp` | crates/gmsol-model/src/action/increase_position.rs:440-547 | A position that an increase has just accepted is not liquidatable after any amount of collateral is added to it, at the same prices. |
| `ValueNeutrality.PnlExact` | crates/gmsol-model/src/market/base.rs:186-217 | The profit of a side is its tokens at the picked price against its open interest, with the sign of the side; the empty side is no exception. |
| `TraderProfits.PnlIsSumOfPositions` | crates/gmsol-model/src/market/base.rs:186-217 | The profit of a side at its lower price is exactly the sum of its positions' uncapped profits. |
| `TraderProfits.ProfitIsUncapped` | crates/gmsol-model/src/position.rs:338-369 | The profit summed above is the one the position computes. |
| `TraderProfits.CloseRealisesAll` | crates/gmsol-model/src/position.rs:338-421 | Closing completely realises the whole capped profit. |
| `TraderProfits.TotalWithinShare` | crates/gmsol-model/src/position.rs:370-388 | A realised profit or loss is to the uncapped one at most as the cap is to the profit of the side. |
| `TraderProfits.CappedProfitsWithinLimit` | crates/gmsol-model/src/market/utils.rs:43-63 | What all the positions of a side, winning and losing, would realise by closing completely adds up to at most the configured share of the pool value. |
| `TraderProfits.GainsCovered` | crates/gmsol-model/src/market/utils.rs:43-63 | The profits paid out on a side are covered by that share of the pool value and the losses of the same side. |
| `LiveMarket.TestMarket.constructor` | crates/gmsol-model/src/test.rs:156-186 | A new market is the empty one. |
| `LiveMarket.TestMarket.MoveClockForward` | crates/gmsol-model/src/test.rs:188-190 | Time moves, nothing else. |
| `LiveMarket.TestMarket.Mint` | crates/gmsol-model/src/test.rs:594-600 | Minting adds exactly the amount to the supply and fails only on overflow. |
| `LiveMarket.TestMarket.Burn` | crates/gmsol-model/src/test.rs:602-608 | Burning takes exactly the amount and fails only if there is not enough. |
| `LiveMarket.TestMarket.ApplyDelta` | crates/gmsol-model/src/market/base.rs:413-422 | The liquidity pool takes the delta, or nothing changes. |
| `LiveMarket.TestMarket.ApplyDeltaToFee` | crates/gmsol-model/src/market/base.rs:425-434 | The fee pool takes the delta, or nothing changes. |
| `LiveMarket.TestMarket.ApplyDeltaToPositionImpact` | crates/gmsol-model/src/market/position_impact.rs:129-132 | The position impact pool takes the delta, or nothing changes. |
| `LiveMarket.TestMarket.ApplySwapImpactValueWithCap` | crates/gmsol-model/src/market/swap.rs:125-145 | The capped amount leaves, or enters, the swap impact pool and its magnitude is returned. |
| `LiveMarket.TestMarket.JustPassedForBorrowing` | crates/gmsol-model/src/test.rs:438-444 | The seconds since the last reset, zero for a clock never reset; the clock is reset. |
| `LiveMarket.TestMarket.JustPassedForFunding` | crates/gmsol-model/src/test.rs:438-444 | The same for the funding clock. |
| `LiveMarket.TestMarket.JustPassedForImpact` | crates/gmsol-model/src/test.rs:438-444 | The same for the impact distribution clock. |
| `LiveMarket.SettleShare` | crates/gmsol-model/src/action/deposit.rs:243-282 | Settling one leg's impact in place computes what the function of the same step does. |
| `LiveMarket.AddToLiquidity` | crates/gmsol-model/src/action/deposit.rs:283-311 | Adding one leg's amount in place computes what the function of the same step does. |
| `LiveMarket.ExecuteDeposit` | crates/gmsol-model/src/action/deposit.rs:217-314 | One leg, in place and in the source's order, succeeds exactly when the function does, with the same market, mint and fees. |
| `LiveMarket.DepositInto` | crates/gmsol-model/src/action/deposit.rs:323-395 | The whole deposit in place refines the deposit function the results above are about. |
| `LiveMarket.WithdrawFrom` | crates/gmsol-model/src/action/withdraw.rs:188-245 | The withdrawal, with both fees before both pool amounts, refines the function that treats one token after the other. |
| `LiveMarket.SwapIn` | crates/gmsol-model/src/action/swap.rs:283-311 | The swap in place refines the swap function, and a failed swap leaves the market untouched. |
| `LiveMarket.AccrueSide` | crates/gmsol-model/src/action/update_borrowing_state.rs:27-40 | One side's accrual in place; the reported factor is the new one. |
| `LiveMarket.UpdateBorrowingIn` | crates/gmsol-model/src/action/update_borrowing_state.rs:47-58 | Updating both sides in place refines the function; the report holds the elapsed seconds and both new factors. |
| `LiveMarket.DistributeImpactIn` | crates/gmsol-model/src/action/distribute_position_impact.rs:57-76 | Distribution in place refines the function; the report holds the elapsed seconds, what left the pool and what is left in it. |
| `LiveFunding.FromFlags` | crates/gmsol-model/src/action/update_funding_state.rs:352-359 | The four indices hold the four combinations, each its own. |
| `LiveFunding.SetDeltas` | crates/gmsol-model/src/action/update_funding_state.rs:110-162 | The loop over the collateral tokens fills the four-element arrays with exactly the payers' and receivers' deltas. |
| `LiveFunding.NextFundingAmountPerSize` | crates/gmsol-model/src/action/update_funding_state.rs:31-108 | A fresh report with the planned deltas, all zero if a side has no open interest. |
| `LiveFunding.GrowStepsIsGrowPair` | crates/gmsol-model/src/action/update_funding_state.rs:301-321 | Applying the deltas one combination at a time adds to every amount of both pools, and fails when that does. |
| `LiveFunding.ApplyDeltas` | crates/gmsol-model/src/action/update_funding_state.rs:305-321 | The loop over the four combinations updates both pairs of pools. |
| `LiveFunding.UpdateFundingIn` | crates/gmsol-model/src/action/update_funding_state.rs:300-324 | The funding update in place refines the function the funding results are about. |
| `LivePosition.TestPosition.Empty` | crates/gmsol-model/src/test.rs:844-863 | A new position is empty. |
| `LivePosition.TestPosition.UpdateFundingCheckpoints` | crates/gmsol-model/src/action/increase_position.rs:495-507 | Every funding checkpoint becomes the market's current value. |
| `LivePosition.TestPosition.InitializeIfEmptyIn` | crates/gmsol-model/src/action/increase_position.rs:234-258 | A position of size zero starts from the current checkpoints and zero tokens; any other is unchanged. |
| `LivePosition.TestPosition.ProcessCollateralIn` | crates/gmsol-model/src/action/increase_position.rs:358-399 | Charging the fees in place refines the function. |
| `LivePosition.TestPosition.UpdateTotalBorrowingIn` | crates/gmsol-model/src/position.rs:803-823 | The total borrowing changes by the position's new floor less its old one. |
| `LivePosition.TestPosition.UpdateOpenInterestIn` | crates/gmsol-model/src/position.rs:757-800 | Open interest and tokens grow on one side and collateral, with the maximum checked in between. |
| `LivePosition.TestPosition.IncreaseIn` | crates/gmsol-model/src/action/increase_position.rs:440-547 | The whole increase of position and market in place refines the function the position results are about. |
| `SortedEntries.Rank` | crates/gmsol-utils/src/fixed_map.rs:63-65 | Where a key is, or belongs, among sorted keys: everything before is smaller, nothing from there on is. |
| `SortedEntries.PutRefines` | crates/gmsol-utils/src/fixed_map.rs:101-130 | Inserting into the sorted entries keeps them sorted and within capacity and is insertion into a bounded map: replaced, refused as existing, refused as full, or added, all other entries unchanged. |
| `SortedEntries.TakeRefines` | crates/gmsol-utils/src/fixed_map.rs:133-145 | Removing from the sorted entries is removal from the map, except exactly when the key is present and the map is full: then the shift reads out of bounds. |
| `SortedEntries.ReplayRefines` | crates/gmsol-utils/src/fixed_map.rs:101-179 | Any sequence of insertions, replacements, refusals, removals and clears on the entries is the same sequence on the map. |
| `SortedEntries.CanonicalForm` | crates/gmsol-utils/src/fixed_map.rs:36-41 | Equal maps have equal entries in the same order. |
| `SortedEntries.RemoveFromFullFails` | crates/gmsol-utils/src/fixed_map.rs:133-145 | A concrete full map whose one entry cannot be removed. |
| `FixedMap.FixedMap.constructor` | crates/gmsol-utils/src/fixed_map.rs:55-59 | A new map is empty. |
| `FixedMap.FixedMap.BinarySearch` | crates/gmsol-utils/src/fixed_map.rs:63-65 | The index of the key, or its insertion point. |
| `FixedMap.FixedMap.Get` | crates/gmsol-utils/src/fixed_map.rs:68-74 | The value stored for the key, if there is one. |
| `FixedMap.FixedMap.ShiftUp` | crates/gmsol-utils/src/fixed_map.rs:121-123 | Entries from an index on move up by one, the others stay. |
| `FixedMap.FixedMap.InsertWithOptions` | crates/gmsol-utils/src/fixed_map.rs:101-130 | The in-place insertion is the bounded map's, result included, and keeps the prefix sorted and the rest blank. |
| `FixedMap.FixedMap.ShiftDown` | crates/gmsol-utils/src/fixed_map.rs:138-140 | Entries move down by one; it reads past the array exactly when the map is full. |
| `FixedMap.FixedMap.Remove` | crates/gmsol-utils/src/fixed_map.rs:133-145 | The in-place removal is the map's, and goes out of bounds if and only if the key is present and the map is full. |
| `FixedMap.FixedMap.Clear` | crates/gmsol-utils/src/fixed_map.rs:173-179 | The map becomes empty and the array blank. |

## Left out

- Decreasing and liquidating positions, and automatic deleveraging: their actions are not part of this model; only the computations on positions that they share with increases are.
- Exponents that are not whole units: the fractional power goes through a decimal library and is a parameter of the configuration (`Config.fractionalPow`), so results about powers ask for whole exponents.
- Error values: all are `None`; which error is reported is not modelled.
- State left behind by a failed action other than a swap: callers discard it.
- Validation of `min <= max` in prices: the source does not check it (`crates/gmsol-model/src/price.rs:87-89`), so results that need it ask for ordered prices.
- Pools as separate objects: they are copied values in the source's test market, so they are fields holding values here, and aliasing between pools does not arise.
- The clock map: three optional values for the three clocks that are used; sub-second time is not modelled.
- The storage of positions: a sequence indexed by order of creation; who owns a position plays no part.
- The hooks `on_increased`, `on_decreased` and `on_validate`, and virtual inventory: not modelled.
- Liquidation fees, the rounding-up variant of `div_to_factor`, and minimum profit factors after deleveraging: used only by actions that are left out.
- The hash behind the keys of the fixed map: keys are numbers, the hashed bytes in order.
- Fixed.CheckedPowFixed: whole exponents only are described; the fractional branch calls the parameter.
- ValueRuns.RunKeepsPoolValue: one set of prices for the whole run, valued at the maximum; a move of the prices changes the value by itself.
- TraderProfits.CappedProfitsWithinLimit: a position whose profit cannot be computed for overflow counts as nothing; a loss has to be computable.
- FixedMap.FixedMap.Remove: the contents after an out-of-bounds removal are not described, because the program aborts there.
- Market creation, on-chain programs, clients, order execution and oracle decoding: wrappers and I/O around this core.
