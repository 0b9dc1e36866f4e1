/** The reserve and open interest limits hold on both sides after every action, although each action
    checks only the sides it considers at risk. */
module Safety {
  import opened Options
  import opened Arith
  import opened Num
  import opened Utils
  import opened Price
  import opened Pool
  import opened Fees
  import opened Params
  import opened State
  import opened SwapAction
  import opened DepositAction
  import opened WithdrawAction
  import opened FundingAction
  import opened AccrualActions
  import opened LazyAccrual
  import opened PositionState
  import opened IncreaseAction
  import opened IncreaseEffects
  import opened ValueNeutrality
  import opened World

  /** The reserved value of one side, without overflow. */
  function ReservedAt(m: Market, index: Price, isLong: bool): nat {
    if isLong then m.openInterestInTokens.forLong.Sum() * index.max else m.openInterest.forShort.Sum()
  }

  /** The most that may be reserved against one side of the liquidity pool. */
  function ReserveLimit(cfg: Config, liquidity: nat, price: Price): nat {
    liquidity * price.min * cfg.reserveFactor / UNIT
  }

  predicate WithinReserve(cfg: Config, m: Market, prices: Prices, isLong: bool) {
    ReservedAt(m, prices.index, isLong) <= ReserveLimit(cfg, m.primary.Amount(isLong), prices.Collateral(isLong))
  }

  predicate Safe(cfg: Config, m: Market, prices: Prices) {
    && WithinReserve(cfg, m, prices, true)
    && WithinReserve(cfg, m, prices, false)
    && m.openInterest.forLong.Sum() <= cfg.maxOpenInterest.long
    && m.openInterest.forShort.Sum() <= cfg.maxOpenInterest.short
  }

  /** Every price the action uses is the given one. */
  predicate AtPrices(a: Action, prices: Prices) {
    match a
    case DoDeposit(_, _, p) => p == prices
    case DoWithdraw(_, p) => p == prices
    case DoSwap(_, _, p) => p == prices
    case DoIncrease(_, params) => params.prices == prices
    case DoUpdateFunding(p) => p == prices
    case DoUpdateBorrowing(p) => p == prices
    case _ => true
  }

  lemma ReserveLimitGrows(cfg: Config, less: nat, more: nat, price: Price)
    requires less <= more
    ensures ReserveLimit(cfg, less, price) <= ReserveLimit(cfg, more, price)
  {
    MulMono(less, more, price.min);
    MulMono(less * price.min, more * price.min, cfg.reserveFactor);
    FloorMono(less * price.min * cfg.reserveFactor, more * price.min * cfg.reserveFactor, UNIT);
  }

  lemma ReservedIsAt(m: Market, index: Price, isLong: bool)
    requires ReservedValue(m, index, isLong).Some?
    ensures ReservedValue(m, index, isLong).value == ReservedAt(m, index, isLong)
  {
  }

  /** A passed reserve check means what it says. */
  lemma ReserveChecked(cfg: Config, m: Market, prices: Prices, isLong: bool)
    requires ValidateReserve(cfg, m, prices, isLong).Some?
    ensures WithinReserve(cfg, m, prices, isLong)
  {
    hide ReservedValue, ReservedAt;
    ReservedIsAt(m, prices.index, isLong);
  }

  /** The profit check passes exactly when the profit of the side is below the next larger factor of the pool
      value, or there is no pool value at all. */
  lemma MaxPnlChecked(cfg: Config, m: Market, prices: Prices, kind: PnlKind, isLong: bool, pnl: int, poolValue: nat)
    requires Pnl(m, prices.index, isLong, true) == Some(pnl)
    requires PoolValueOneSide(m, prices, isLong, false) == Some(poolValue)
    requires DivToFactorSigned(pnl, poolValue).Some?
    ensures PnlFactorOk(cfg, m, prices, kind, isLong).Some?
            <==> poolValue == 0 || pnl * UNIT < (cfg.MaxPnlFactor(kind, isLong) + 1) * poolValue
  {
    hide Pnl, PoolValueOneSide, Config.MaxPnlFactor;
    var factor := cfg.MaxPnlFactor(kind, isLong);
    if poolValue != 0 {
      if pnl > 0 {
        assert UNIT * pnl == pnl * UNIT;
        if UNIT * pnl < (factor + 1) * poolValue {
          FloorBelow(factor + 1, UNIT * pnl, poolValue);
        } else {
          FloorGreatest(factor + 1, UNIT * pnl, poolValue);
        }
      } else {
        MulNonNeg(-pnl, UNIT);
        MulNonNeg(factor + 1, poolValue);
        assert (factor + 1) * poolValue > 0;
        FloorGreatest(0, UNIT * -pnl, poolValue);
      }
    }
  }

  /** More liquidity and the same traders keep a side within its reserve. */
  lemma ReserveKept(cfg: Config, a: Market, b: Market, prices: Prices, isLong: bool)
    requires WithinReserve(cfg, a, prices, isLong)
    requires a.primary.Amount(isLong) <= b.primary.Amount(isLong)
    requires ReservedAt(a, prices.index, isLong) == ReservedAt(b, prices.index, isLong)
    ensures WithinReserve(cfg, b, prices, isLong)
  {
    hide ReserveLimit, ReservedAt;
    ReserveLimitGrows(cfg, a.primary.Amount(isLong), b.primary.Amount(isLong), prices.Collateral(isLong));
  }

  lemma LegWithinAmounts(
    cfg: Config, m: Market, isLong: bool, amount: nat, prices: Prices, poolValue: nat, impact: int, usd: Pool)
    requires DepositLeg(cfg, m, isLong, amount, prices, poolValue, impact, usd).Some?
    ensures var (next, _, _) := DepositLeg(cfg, m, isLong, amount, prices, poolValue, impact, usd).value;
            && (amount != 0 ==> next.primary.Amount(isLong) <= cfg.maxPoolAmount.Amount(isLong))
            && (next.primary.Amount(!isLong) == m.primary.Amount(!isLong)
                || next.primary.Amount(!isLong) <= cfg.maxPoolAmount.Amount(!isLong))
  {
    hide FeeParams.ApplyFees, ImpactShare, SwapImpactAmountWithCap, UsdToMarketTokenAmount, CheckedMul,
      ValidatePoolValueForDeposit;
  }

  /** After a deposit every token deposited is within its maximum, whatever the impact of the other one has
      added to it since it was checked. */
  lemma DepositWithinAmounts(cfg: Config, m: Market, long: nat, short: nat, prices: Prices)
    requires Deposit(cfg, m, long, short, prices).Some?
    ensures var next := Deposit(cfg, m, long, short, prices).value.0;
            && (long != 0 ==> next.primary.long <= cfg.maxPoolAmount.long)
            && (short != 0 ==> next.primary.short <= cfg.maxPoolAmount.short)
  {
    hide DepositImpact, PoolValue, DepositLeg, ValidateMaxPnl;
    var (impact, usd) := DepositImpact(cfg, m, long, short, prices).value;
    var poolValue := Abs(PoolValue(cfg, m, prices, MaxAfterDeposit, true).value);
    LegWithinAmounts(cfg, m, true, long, prices, poolValue, impact, usd);
    var (mid, _, _) := DepositLeg(cfg, m, true, long, prices, poolValue, impact, usd).value;
    LegWithinAmounts(cfg, mid, false, short, prices, poolValue, impact, usd);
  }

  lemma DepositSafe(cfg: Config, m: Market, long: nat, short: nat, prices: Prices)
    requires Deposit(cfg, m, long, short, prices).Some? && Safe(cfg, m, prices)
    ensures Safe(cfg, Deposit(cfg, m, long, short, prices).value.0, prices)
  {
    hide Deposit, WithinReserve;
    var next := Deposit(cfg, m, long, short, prices).value.0;
    DepositConserves(cfg, m, long, short, prices);
    ReserveKept(cfg, m, next, prices, true);
    ReserveKept(cfg, m, next, prices, false);
  }

  lemma WithdrawChecks(cfg: Config, m: Market, amount: nat, prices: Prices)
    requires Withdraw(cfg, m, amount, prices).Some?
    ensures var next := Withdraw(cfg, m, amount, prices).value.0;
            WithinReserve(cfg, next, prices, true) && WithinReserve(cfg, next, prices, false)
  {
    hide OutputAmounts, WithdrawOne, ValidateReserve, ValidateMaxPnl, ReserveLimit;
    var outputs := OutputAmounts(cfg, m, amount, prices).value;
    var short := WithdrawOne(cfg, WithdrawOne(cfg, m, true, outputs.0).value.0, false, outputs.1).value.0;
    ReserveChecked(cfg, short, prices, true);
    ReserveChecked(cfg, short, prices, false);
  }

  lemma WithdrawSafe(cfg: Config, m: Market, amount: nat, prices: Prices)
    requires Withdraw(cfg, m, amount, prices).Some? && Safe(cfg, m, prices)
    ensures Safe(cfg, Withdraw(cfg, m, amount, prices).value.0, prices)
  {
    hide Withdraw, WithinReserve;
    WithdrawChecks(cfg, m, amount, prices);
    WithdrawConserves(cfg, m, amount, prices);
  }

  /** A swap makes its three checks on the view that it then commits: the amount of the token coming in, the
      reserve of the token going out and the profits of both sides. It only adds to the token coming in. */
  lemma SwapChecks(cfg: Config, m: Market, isLongIn: bool, amount: nat, prices: Prices)
    requires Swap(cfg, m, isLongIn, amount, prices).Some?
    ensures var next := Swap(cfg, m, isLongIn, amount, prices).value.0;
            && ValidateReserve(cfg, next, prices, !isLongIn).Some?
            && ValidatePoolAmount(cfg, next, isLongIn).Some?
            && PnlFactorOk(cfg, next, prices, MaxAfterDeposit, isLongIn).Some?
            && PnlFactorOk(cfg, next, prices, MaxAfterWithdrawal, !isLongIn).Some?
            && m.primary.Amount(isLongIn) <= next.primary.Amount(isLongIn)
            && OnlyPoolsDiffer(m, next)
  {
    hide SwapImpactValue, FeeParams.ApplyFees, Settle, ValidateReserve, PnlFactorOk;
  }

  lemma SwapSafe(cfg: Config, m: Market, isLongIn: bool, amount: nat, prices: Prices)
    requires Swap(cfg, m, isLongIn, amount, prices).Some? && Safe(cfg, m, prices)
    ensures Safe(cfg, Swap(cfg, m, isLongIn, amount, prices).value.0, prices)
  {
    hide Swap, WithinReserve;
    var next := Swap(cfg, m, isLongIn, amount, prices).value.0;
    SwapChecks(cfg, m, isLongIn, amount, prices);
    ReserveChecked(cfg, next, prices, !isLongIn);
    ReserveKept(cfg, m, next, prices, isLongIn);
  }

  lemma IncreaseChecks(cfg: Config, m: Market, position: Position, params: IncreaseParams)
    requires Increase(cfg, m, position, params).Some? && params.sizeDelta != 0
    ensures ValidateReserve(cfg, Increase(cfg, m, position, params).value.0, params.prices, position.isLong).Some?
    ensures ValidateOpenInterestReserve(cfg, Increase(cfg, m, position, params).value.0, params.prices,
                                        position.isLong).Some?
  {
    hide GetExecution, ProcessCollateral, UpdateTotalBorrowing, UpdateOpenInterest, ValidateReserve,
      ValidateOpenInterestReserve, WillCollateralBeSufficient, ValidatePosition;
  }

  lemma IncreaseLiquidityGrows(cfg: Config, m: Market, position: Position, params: IncreaseParams, t: bool)
    requires Increase(cfg, m, position, params).Some?
    ensures m.primary.Amount(t) <= Increase(cfg, m, position, params).value.0.primary.Amount(t)
  {
    hide Increase, GetExecution, FeesFor, Grown, BorrowedFor, PositionFees.ForPool, PositionFees.ForReceiver;
    IncreaseHasEffect(cfg, m, position, params, true, t);
  }

  lemma OpenInterestChecked(cfg: Config, m: Market, position: Position, params: IncreaseParams)
    requires Increase(cfg, m, position, params).Some? && params.sizeDelta != 0
    ensures Increase(cfg, m, position, params).value.0.openInterest.Side(position.isLong).Sum()
            <= cfg.maxOpenInterest.Amount(position.isLong)
  {
    hide Increase, GetExecution, FeesFor, Grown, BorrowedFor, PositionFees.ForPool, PositionFees.ForReceiver;
    IncreaseHasEffect(cfg, m, position, params, true, true);
  }

  /** An increase checks only the side of its own position, and only for a non-zero size. */
  lemma IncreaseSafe(cfg: Config, m: Market, position: Position, params: IncreaseParams)
    requires Increase(cfg, m, position, params).Some? && Safe(cfg, m, params.prices)
    ensures Safe(cfg, Increase(cfg, m, position, params).value.0, params.prices)
  {
    hide Increase, WithinReserve, ValidateReserve;
    var (next, _, r) := Increase(cfg, m, position, params).value;
    var isLong := position.isLong;
    IncreaseLiquidityGrows(cfg, m, position, params, true);
    IncreaseLiquidityGrows(cfg, m, position, params, false);
    SidesGrow(cfg, m, position, params, true);
    SidesGrow(cfg, m, position, params, false);
    ReserveKept(cfg, m, next, params.prices, !isLong);
    if params.sizeDelta == 0 {
      NoTokensWithoutSize(cfg, m, position, params);
      ReserveKept(cfg, m, next, params.prices, isLong);
    } else {
      IncreaseChecks(cfg, m, position, params);
      ReserveChecked(cfg, next, params.prices, isLong);
      OpenInterestChecked(cfg, m, position, params);
    }
  }

  /** Right after an increase, at the same prices, the position has both sizes, is not liquidatable, and its
      collateral meets the requirement that the open interest of its side calls for. */
  lemma HealthyAfterIncrease(cfg: Config, m: Market, position: Position, params: IncreaseParams)
    requires Increase(cfg, m, position, params).Some?
    ensures var (next, grown, _) := Increase(cfg, m, position, params).value;
            && grown.sizeUsd == position.sizeUsd + params.sizeDelta >= cfg.position.minSizeUsd
            && grown.sizeUsd > 0 && grown.sizeTokens > 0
            && IsLiquidatable(cfg, next, grown, params.prices, true) == Some(false)
            && (params.sizeDelta != 0 ==> WillCollateralBeSufficient(cfg, next, grown, params.prices) == Some(true))
  {
    hide GetExecution, ProcessCollateral, UpdateTotalBorrowing, UpdateOpenInterest, ValidateReserve,
      ValidateOpenInterestReserve, WillCollateralBeSufficient, IsLiquidatable;
  }

  lemma NoTokensWithoutSize(cfg: Config, m: Market, position: Position, params: IncreaseParams)
    requires Increase(cfg, m, position, params).Some? && params.sizeDelta == 0
    ensures Increase(cfg, m, position, params).value.2.execution.tokens == 0
  {
    hide ProcessCollateral, UpdateTotalBorrowing, UpdateOpenInterest, ValidateIncrease;
  }

  lemma StepSafe(cfg: Config, w: World, a: Action, prices: Prices)
    requires Step(cfg, w, a).Some? && AtPrices(a, prices) && Safe(cfg, w.market, prices)
    ensures Safe(cfg, Step(cfg, w, a).value.market, prices)
  {
    hide Increase, UpdateFunding, UpdateBorrowing, BorrowingRate, NextBorrowingFactor, Deposit, Withdraw, Swap,
      TrySwap, DistributeImpact, ReserveLimit, Remaining;
    match a
    case DoDeposit(long, short, _) => DepositSafe(cfg, w.market, long, short, prices);
    case DoWithdraw(amount, _) => WithdrawSafe(cfg, w.market, amount, prices);
    case DoSwap(isLongIn, amount, _) => SwapSafe(cfg, w.market, isLongIn, amount, prices);
    case DoOpen(_, _) =>
    case DoIncrease(id, params) => IncreaseSafe(cfg, w.market, w.positions[id], params);
    case DoUpdateFunding(_) => UpdateFundingFrame(cfg, w.market, prices);
    case DoUpdateBorrowing(_) => UpdateBorrowingExact(cfg, w.market, prices, true);
    case DoDistribute => DistributeImpactExact(cfg, w.market);
    case DoTick(_) =>
  }

  /** A move of prices that relieves the reserve: the index is dearer for no long position, and the liquidity
      worth no less. */
  predicate Relieves(before: Prices, after: Prices) {
    after.index.max <= before.index.max && before.long.min <= after.long.min && before.short.min <= after.short.min
  }

  lemma ReliefKeepsReserve(cfg: Config, m: Market, before: Prices, after: Prices, isLong: bool)
    requires Relieves(before, after) && WithinReserve(cfg, m, before, isLong)
    ensures WithinReserve(cfg, m, after, isLong)
  {
    hide MulDiv;
    MulMono(after.index.max, before.index.max, m.openInterestInTokens.forLong.Sum());
    var amount, low, high := m.primary.Amount(isLong), before.Collateral(isLong).min, after.Collateral(isLong).min;
    MulMono(low, high, amount);
    MulMono(amount * low, amount * high, cfg.reserveFactor);
    FloorMono(amount * low * cfg.reserveFactor, amount * high * cfg.reserveFactor, UNIT);
  }

  /** A single move of prices keeps a market safe if and only if the reserved value of both sides, at the new
      prices, is within the new limits; a move that relieves the reserve always does. */
  lemma PriceMoveSafe(cfg: Config, m: Market, before: Prices, after: Prices)
    requires Safe(cfg, m, before)
    ensures Safe(cfg, m, after)
            <==> ReservedAt(m, after.index, true) <= ReserveLimit(cfg, m.primary.long, after.long)
                 && ReservedAt(m, after.index, false) <= ReserveLimit(cfg, m.primary.short, after.short)
    ensures Relieves(before, after) ==> Safe(cfg, m, after)
  {
    hide ReservedAt, ReserveLimit;
    if Relieves(before, after) {
      ReliefKeepsReserve(cfg, m, before, after, true);
      ReliefKeepsReserve(cfg, m, before, after, false);
    }
  }

  /** Every action uses the next prices of a sequence in which each relieves the reserve of the one before. */
  predicate AtRelievingPrices(actions: seq<Action>, start: Prices, path: seq<Prices>)
    decreases |actions|
  {
    |actions| == |path| &&
    (actions == [] || (Relieves(start, path[0]) && AtPrices(actions[0], path[0])
                       && AtRelievingPrices(actions[1..], path[0], path[1..])))
  }

  function LastPrices(start: Prices, path: seq<Prices>): Prices {
    if path == [] then start else path[|path| - 1]
  }

  /** While prices only move in relief of the reserve, every run keeps the reserved value of both sides within the
      reserve at the latest prices, and the open interest of both sides within its maximum. */
  lemma {:induction false} RunSafe(cfg: Config, w: World, actions: seq<Action>, start: Prices, path: seq<Prices>)
    requires Run(cfg, w, actions).Some? && Safe(cfg, w.market, start)
    requires AtRelievingPrices(actions, start, path)
    ensures Safe(cfg, Run(cfg, w, actions).value.market, LastPrices(start, path))
    decreases |actions|
  {
    hide Step, Safe, AtPrices, Relieves;
    if actions != [] {
      PriceMoveSafe(cfg, w.market, start, path[0]);
      StepSafe(cfg, w, actions[0], path[0]);
      RunSafe(cfg, Step(cfg, w, actions[0]).value, actions[1..], path[0], path[1..]);
    }
  }

  lemma {:induction false} FixedPrices(actions: seq<Action>, prices: Prices)
    requires forall a <- actions :: AtPrices(a, prices)
    ensures AtRelievingPrices(actions, prices, seq(|actions|, _ => prices))
    decreases |actions|
  {
    hide AtPrices;
    if actions != [] {
      FixedPrices(actions[1..], prices);
      assert seq(|actions|, _ => prices)[1..] == seq(|actions| - 1, _ => prices);
    }
  }

  /** In particular at fixed prices, from the empty market on. */
  lemma RunSafeFromEmpty(cfg: Config, actions: seq<Action>, prices: Prices)
    requires Run(cfg, EMPTY_WORLD, actions).Some?
    requires forall a <- actions :: AtPrices(a, prices)
    ensures Safe(cfg, Run(cfg, EMPTY_WORLD, actions).value.market, prices)
  {
    hide Run, Safe, AtPrices, AtRelievingPrices;
    EmptyMarketSafe(cfg, prices);
    FixedPrices(actions, prices);
    RunSafe(cfg, EMPTY_WORLD, actions, prices, seq(|actions|, _ => prices));
  }

  lemma NothingReserved(index: Price, isLong: bool)
    ensures ReservedAt(EMPTY_MARKET, index, isLong) == 0
  {
  }

  lemma EmptyMarketSafe(cfg: Config, prices: Prices)
    ensures Safe(cfg, EMPTY_MARKET, prices)
  {
    hide ReserveLimit, ReservedAt;
    NothingReserved(prices.index, true);
    NothingReserved(prices.index, false);
  }
}
