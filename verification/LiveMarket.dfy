/** The market as an object whose pools, supply, rate and clocks are updated in place (the market of
    `test.rs`), and the liquidity actions on it, step by step. Each method is proved to do exactly what
    the function of the same action computes on the viewed state. */
module LiveMarket {
  import opened Options
  import opened Arith
  import opened Num
  import opened Utils
  import opened Price
  import opened Pool
  import opened Fees
  import opened Params
  import opened State
  import opened SwapAction
  import opened DepositAction
  import opened WithdrawAction
  import opened AccrualActions

  /** The order in which loops over the collateral tokens go. */
  const COLLATERALS := [true, false]

  class TestMarket {
    const cfg: Config
    var primary: Pool
    var swapImpact: Pool
    var fee: Pool
    var openInterest: PoolPair
    var openInterestInTokens: PoolPair
    var collateralSum: PoolPair
    var positionImpact: Pool
    var borrowingFactor: Pool
    var totalBorrowing: Pool
    var fundingRate: int
    var fundingPerSize: PoolPair
    var claimablePerSize: PoolPair
    var supply: nat
    var now: nat
    var clocks: Clocks

    /** The state as a value. */
    function View(): Market
      reads this
    {
      Market(primary, swapImpact, fee, openInterest, openInterestInTokens, collateralSum, positionImpact,
             borrowingFactor, totalBorrowing, fundingRate, fundingPerSize, claimablePerSize, supply, now, clocks)
    }

    constructor (cfg: Config)
      ensures this.cfg == cfg && View() == EMPTY_MARKET
    {
      this.cfg := cfg;
      primary, swapImpact, fee := EMPTY_POOL, EMPTY_POOL, EMPTY_POOL;
      openInterest, openInterestInTokens, collateralSum := EMPTY_PAIR, EMPTY_PAIR, EMPTY_PAIR;
      positionImpact, borrowingFactor, totalBorrowing := EMPTY_POOL, EMPTY_POOL, EMPTY_POOL;
      fundingRate, fundingPerSize, claimablePerSize := 0, EMPTY_PAIR, EMPTY_PAIR;
      supply, now, clocks := 0, 0, Clocks(None, None, None);
    }

    method MoveClockForward(seconds: nat)
      modifies this`now
      ensures View() == old(View()).(now := old(now) + seconds)
    {
      now := now + seconds;
    }

    method Mint(amount: nat) returns (r: Option<()>)
      modifies this`supply
      ensures r.Some? <==> old(supply) + amount <= MAX
      ensures View() == if r.Some? then old(View()).(supply := old(supply) + amount) else old(View())
    {
      var sum :- CheckedAdd(supply, amount);
      supply := sum;
      return Some(());
    }

    method Burn(amount: nat) returns (r: Option<()>)
      modifies this`supply
      ensures r.Some? <==> amount <= old(supply)
      ensures View() == if r.Some? then old(View()).(supply := old(supply) - amount) else old(View())
    {
      var rest :- CheckedSub(supply, amount);
      supply := rest;
      return Some(());
    }

    /** Apply a delta to the liquidity pool. */
    method ApplyDelta(isLong: bool, delta: int) returns (r: Option<()>)
      modifies this`primary
      ensures r.Some? <==> old(primary).ApplyDelta(isLong, delta).Some?
      ensures View() == if r.Some? then old(View()).(primary := old(primary).ApplyDelta(isLong, delta).value)
                        else old(View())
    {
      var pool :- primary.ApplyDelta(isLong, delta);
      primary := pool;
      return Some(());
    }

    method ApplyDeltaToFee(isLong: bool, delta: int) returns (r: Option<()>)
      modifies this`fee
      ensures r.Some? <==> old(fee).ApplyDelta(isLong, delta).Some?
      ensures View() == if r.Some? then old(View()).(fee := old(fee).ApplyDelta(isLong, delta).value)
                        else old(View())
    {
      var pool :- fee.ApplyDelta(isLong, delta);
      fee := pool;
      return Some(());
    }

    method ApplyDeltaToPositionImpact(delta: int) returns (r: Option<()>)
      modifies this`positionImpact
      ensures r.Some? <==> old(positionImpact).ApplyDelta(true, delta).Some?
      ensures var pool := old(positionImpact).ApplyDelta(true, delta);
              View() == if r.Some? then old(View()).(positionImpact := pool.value) else old(View())
    {
      var pool :- positionImpact.ApplyDelta(true, delta);
      positionImpact := pool;
      return Some(());
    }

    /** Take a signed impact value out of the swap impact pool, as far as it reaches; a negative one is
        added to it. The result is the magnitude in tokens. */
    method ApplySwapImpactValueWithCap(isLongToken: bool, price: Price, usdImpact: int) returns (r: Option<nat>)
      modifies this`swapImpact
      ensures var amount := SwapImpactAmountWithCap(old(View()), isLongToken, price, usdImpact);
              && (r.Some? <==> amount.Some? && old(swapImpact).ApplyDelta(isLongToken, -amount.value.0).Some?)
              && (r.Some? ==>
                    var pool := old(swapImpact).ApplyDelta(isLongToken, -amount.value.0).value;
                    r.value == Abs(amount.value.0) && View() == old(View()).(swapImpact := pool))
    {
      var amount :- SwapImpactAmountWithCap(View(), isLongToken, price, usdImpact);
      var delta := -amount.0;
      var pool :- swapImpact.ApplyDelta(isLongToken, delta);
      swapImpact := pool;
      return Some(Abs(delta));
    }

    /** Seconds since the borrowing clock was reset, which resets it. */
    method JustPassedForBorrowing() returns (duration: nat)
      modifies this`clocks
      ensures duration == Passed(now, old(clocks).borrowing)
      ensures View() == old(View()).(clocks := old(clocks).(borrowing := Some(now)))
    {
      duration := Passed(now, clocks.borrowing);
      clocks := clocks.(borrowing := Some(now));
    }

    method JustPassedForFunding() returns (duration: nat)
      modifies this`clocks
      ensures duration == Passed(now, old(clocks).funding)
      ensures View() == old(View()).(clocks := old(clocks).(funding := Some(now)))
    {
      duration := Passed(now, clocks.funding);
      clocks := clocks.(funding := Some(now));
    }

    method JustPassedForImpact() returns (duration: nat)
      modifies this`clocks
      ensures duration == Passed(now, old(clocks).impact)
      ensures View() == old(View()).(clocks := old(clocks).(impact := Some(now)))
    {
      duration := Passed(now, clocks.impact);
      clocks := clocks.(impact := Some(now));
    }
  }

  /** Settle the impact share of one deposited token, updating the swap impact pool and, when the share is
      positive, the liquidity pool. */
  method SettleShare(market: TestMarket, isLong: bool, deposited: nat, prices: Prices, poolValue: nat, share: int)
    returns (r: Option<(nat, nat)>)
    modifies market
    ensures var spec := SettleImpact(market.cfg, old(market.View()), isLong, deposited, prices, poolValue, share);
            && (r.Some? <==> spec.Some?)
            && (r.Some? ==> market.View() == spec.value.0 && r.value == (spec.value.1, spec.value.2))
  {
    hide SwapImpactAmountWithCap, UsdToMarketTokenAmount, Pool.ApplyDelta;
    var mint, amount := 0, deposited;
    if share > 0 {
      var opposite := prices.Collateral(!isLong);
      var paid :- market.ApplySwapImpactValueWithCap(!isLong, opposite, share);
      var usd :- CheckedMul(paid, opposite.PickPrice(true));
      mint :- UsdToMarketTokenAmount(usd, poolValue, market.supply, market.cfg.usdToAmountDivisor);
      var signed :- ToSigned(paid);
      var _ :- market.ApplyDelta(!isLong, signed);
      var _ :- ValidatePoolAmount(market.cfg, market.View(), !isLong);
    } else if share < 0 {
      var taken :- market.ApplySwapImpactValueWithCap(isLong, prices.Collateral(isLong), share);
      amount :- CheckedSub(amount, taken);
    }
    return Some((amount, mint));
  }

  /** Add what is left of one deposited token, and the pool's fees, to the liquidity pool. */
  method AddToLiquidity(market: TestMarket, isLong: bool, amount: nat, forPool: nat, prices: Prices, poolValue: nat)
    returns (r: Option<nat>)
    modifies market
    ensures var spec := AddLiquidity(market.cfg, old(market.View()), isLong, amount, forPool, prices, poolValue);
            && (r.Some? <==> spec.Some?)
            && (r.Some? ==> market.View() == spec.value.0 && r.value == spec.value.1)
  {
    hide UsdToMarketTokenAmount, Pool.ApplyDelta, ValidatePoolValueForDeposit;
    var usd :- CheckedMul(amount, prices.Collateral(isLong).PickPrice(false));
    var mint :- UsdToMarketTokenAmount(usd, poolValue, market.supply, market.cfg.usdToAmountDivisor);
    var into :- CheckedAdd(amount, forPool);
    var signed :- ToSigned(into);
    var _ :- market.ApplyDelta(isLong, signed);
    var _ :- ValidatePoolAmount(market.cfg, market.View(), isLong);
    var _ :- ValidatePoolValueForDeposit(market.cfg, market.View(), prices, isLong);
    return Some(mint);
  }

  /** Deposit one of the two tokens into the market, updating it on the way; a failure may leave some of
      the updates behind. */
  method ExecuteDeposit(market: TestMarket, isLong: bool, deposited: nat, prices: Prices, poolValue: nat, share: int)
    returns (r: Option<(nat, Fees)>)
    modifies market
    ensures var spec := DepositOne(market.cfg, old(market.View()), isLong, deposited, prices, poolValue, share);
            && (r.Some? <==> spec.Some?)
            && (r.Some? ==> market.View() == spec.value.0 && r.value == (spec.value.1, spec.value.2))
  {
    hide FeeParams.ApplyFees, SettleImpact, AddLiquidity, Pool.ApplyDelta;
    if poolValue == 0 && market.supply != 0 {
      return None;
    }
    var charged :- market.cfg.swapFee.ApplyFees(share > 0, deposited);
    var fees := charged.1;
    var receiver :- ToSigned(fees.forReceiver);
    var _ :- market.ApplyDeltaToFee(isLong, receiver);
    var impact := share;
    if impact > 0 && market.supply == 0 {
      impact := 0;
    }
    var settled :- SettleShare(market, isLong, charged.0, prices, poolValue, impact);
    var added :- AddToLiquidity(market, isLong, settled.0, fees.forPool, prices, poolValue);
    var mint :- CheckedAdd(settled.1, added);
    return Some((mint, fees));
  }

  method ExecuteLeg(
    market: TestMarket, isLong: bool, amount: nat, prices: Prices, poolValue: nat, impact: int, usd: Pool)
    returns (r: Option<(nat, Fees)>)
    modifies market
    ensures var spec := DepositLeg(market.cfg, old(market.View()), isLong, amount, prices, poolValue, impact, usd);
            && (r.Some? <==> spec.Some?)
            && (r.Some? ==> market.View() == spec.value.0 && r.value == (spec.value.1, spec.value.2))
  {
    hide DepositOne, ImpactShare;
    if amount == 0 {
      return Some((0, NO_FEES));
    }
    var share :- ImpactShare(impact, usd, isLong);
    r := ExecuteDeposit(market, isLong, amount, prices, poolValue, share);
  }

  method DepositInto(market: TestMarket, long: nat, short: nat, prices: Prices) returns (r: Option<DepositReport>)
    modifies market
    ensures var spec := Deposit(market.cfg, old(market.View()), long, short, prices);
            && (r.Some? <==> spec.Some?)
            && (r.Some? ==> (market.View(), r.value) == spec.value)
  {
    hide DepositImpact, PoolValue, DepositLeg, ValidateMaxPnl;
    if long == 0 && short == 0 {
      return None;
    }
    ghost var before := market.View();
    var _ :- ValidateMaxPnl(market.cfg, market.View(), prices, MaxAfterDeposit, MaxAfterDeposit);
    var impact :- DepositImpact(market.cfg, market.View(), long, short, prices);
    var poolValue :- PoolValue(market.cfg, market.View(), prices, MaxAfterDeposit, true);
    if poolValue < 0 {
      return None;
    }
    var first :- ExecuteLeg(market, true, long, prices, Abs(poolValue), impact.0, impact.1);
    ghost var mid := market.View();
    DepositLegConserves(market.cfg, before, true, long, prices, Abs(poolValue), impact.0, impact.1);
    var second :- ExecuteLeg(market, false, short, prices, Abs(poolValue), impact.0, impact.1);
    DepositLegConserves(market.cfg, mid, false, short, prices, Abs(poolValue), impact.0, impact.1);
    var minted :- CheckedAdd(first.0, second.0);
    var _ :- market.Mint(minted);
    return Some(DepositReport(minted, impact.0, first.1, second.1));
  }

  /** Withdraw: both fees first, then both liquidity amounts, then the checks and the burn. */
  method WithdrawFrom(market: TestMarket, amount: nat, prices: Prices) returns (r: Option<WithdrawReport>)
    modifies market
    ensures var spec := Withdraw(market.cfg, old(market.View()), amount, prices);
            && (r.Some? <==> spec.Some?)
            && (r.Some? ==> (market.View(), r.value) == spec.value)
  {
    hide OutputAmounts, ValidateReserve, ValidateMaxPnl, FeeParams.ApplyFees, Pool.ApplyDelta, Prices.IsValid,
      ToSigned, ToOppositeSigned, CheckedAdd;
    if amount == 0 || !prices.IsValid() {
      return None;
    }
    var outputs :- OutputAmounts(market.cfg, market.View(), amount, prices);
    var chargedLong :- market.cfg.swapFee.ApplyFees(false, outputs.0);
    var chargedShort :- market.cfg.swapFee.ApplyFees(false, outputs.1);
    var feeLong :- ToSigned(chargedLong.1.forReceiver);
    var _ :- market.ApplyDeltaToFee(true, feeLong);
    var feeShort :- ToSigned(chargedShort.1.forReceiver);
    var _ :- market.ApplyDeltaToFee(false, feeShort);
    var leavingLong :- CheckedAdd(chargedLong.1.forReceiver, chargedLong.0);
    var deltaLong :- ToOppositeSigned(leavingLong);
    var _ :- market.ApplyDelta(true, deltaLong);
    var leavingShort :- CheckedAdd(chargedShort.1.forReceiver, chargedShort.0);
    var deltaShort :- ToOppositeSigned(leavingShort);
    var _ :- market.ApplyDelta(false, deltaShort);
    var _ :- ValidateReserve(market.cfg, market.View(), prices, true);
    var _ :- ValidateReserve(market.cfg, market.View(), prices, false);
    var _ :- ValidateMaxPnl(market.cfg, market.View(), prices, MaxAfterWithdrawal, MaxAfterWithdrawal);
    var _ :- market.Burn(amount);
    return Some(WithdrawReport(chargedLong.1, chargedShort.1, chargedLong.0, chargedShort.0));
  }

  /** Swap. Everything is computed and checked before the market is written: a failed swap leaves it
      untouched. */
  method SwapIn(market: TestMarket, isLongIn: bool, amount: nat, prices: Prices) returns (r: Option<SwapReport>)
    modifies market`primary, market`swapImpact, market`fee
    ensures var spec := Swap(market.cfg, old(market.View()), isLongIn, amount, prices);
            && (r.Some? <==> spec.Some?)
            && (r.Some? ==> (market.View(), r.value) == spec.value)
    ensures r.None? ==> market.View() == old(market.View())
  {
    hide TrySwap;
    if amount == 0 || !prices.IsValid() {
      return None;
    }
    var computed :- TrySwap(market.cfg, market.View(), isLongIn, amount, prices);
    market.primary := computed.0.liquidity;
    market.swapImpact := computed.0.swapImpact;
    market.fee := computed.0.claimableFee;
    return Some(computed.1);
  }

  method AccrueSide(market: TestMarket, prices: Prices, isLong: bool, duration: nat) returns (r: Option<nat>)
    modifies market`borrowingFactor
    ensures var spec := AccrueOneSide(market.cfg, old(market.View()), prices, isLong, duration);
            && (r.Some? <==> spec.Some?)
            && (r.Some? ==> market.View() == spec.value && r.value == market.borrowingFactor.Amount(isLong))
  {
    hide BorrowingRate;
    var next :- NextBorrowingFactor(market.cfg, market.View(), prices, isLong, duration);
    var delta :- ToSigned(next.1);
    var factors :- market.borrowingFactor.ApplyDelta(isLong, delta);
    market.borrowingFactor := factors;
    return Some(next.0);
  }

  datatype UpdateBorrowingReport = UpdateBorrowingReport(duration: nat, nextForLong: nat, nextForShort: nat)

  /** Update the borrowing factors of both sides; the report has the elapsed seconds and both new factors. */
  method UpdateBorrowingIn(market: TestMarket, prices: Prices) returns (r: Option<UpdateBorrowingReport>)
    modifies market`borrowingFactor, market`clocks
    ensures var spec := UpdateBorrowing(market.cfg, old(market.View()), prices);
            && (r.Some? <==> spec.Some?)
            && (r.Some? ==>
                  && market.View() == spec.value
                  && r.value == UpdateBorrowingReport(
                       Passed(market.now, old(market.clocks).borrowing), spec.value.borrowingFactor.long,
                       spec.value.borrowingFactor.short))
  {
    hide AccrueOneSide, Prices.IsValid;
    if !prices.IsValid() {
      return None;
    }
    var duration := market.JustPassedForBorrowing();
    ghost var started := market.View();
    var long :- AccrueSide(market, prices, true, duration);
    ghost var mid := market.View();
    AccrueExact(market.cfg, started, prices, true, duration);
    var short :- AccrueSide(market, prices, false, duration);
    AccrueExact(market.cfg, mid, prices, false, duration);
    return Some(UpdateBorrowingReport(duration, long, short));
  }

  datatype DistributionReport = DistributionReport(duration: nat, distributed: nat, next: nat)

  /** Distribute the position impact pool; the report has the elapsed seconds, what left the pool and what is
      left in it. */
  method DistributeImpactIn(market: TestMarket) returns (r: Option<DistributionReport>)
    modifies market`positionImpact, market`clocks
    ensures var spec := DistributeImpact(market.cfg, old(market.View()));
            && (r.Some? <==> spec.Some?)
            && (r.Some? ==>
                  && market.View() == spec.value
                  && r.value.duration == Passed(market.now, old(market.clocks).impact)
                  && r.value.next == market.positionImpact.long
                  && r.value.distributed == old(market.positionImpact).long - market.positionImpact.long)
  {
    var duration := market.JustPassedForImpact();
    var pending :- PendingDistribution(market.cfg, market.View(), duration);
    if pending.0 != 0 {
      var delta :- ToOppositeSigned(pending.0);
      var _ :- market.ApplyDeltaToPositionImpact(delta);
    }
    return Some(DistributionReport(duration, pending.0, pending.1));
  }
}
