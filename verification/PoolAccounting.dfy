/** The value of the pool to its liquidity providers against what its positions are owed, and the spread
    between its maximum and its minimum. */
module PoolAccounting {
  import opened Arith
  import opened Num
  import opened Price
  import opened Pool
  import opened Params
  import opened State
  import opened LiquidityValue
  import opened PositionState
  import opened ValueNeutrality
  import opened Invariants
  import opened TraderProfits
  import Sums

  function SideValue(m: Market, prices: Prices, isLong: bool, maximize: bool): nat {
    m.primary.Amount(isLong) * prices.Collateral(isLong).PickPrice(maximize)
  }

  lemma PoolValueParts(cfg: Config, m: Market, prices: Prices, kind: PnlKind, maximize: bool)
    requires PoolValue(cfg, m, prices, kind, maximize).Some?
    ensures var longPnl := CappedPnl(cfg, m, prices, true, SideValue(m, prices, true, maximize), kind, !maximize);
            var shortPnl := CappedPnl(cfg, m, prices, false, SideValue(m, prices, false, maximize), kind, !maximize);
            var fees, impact := BorrowingFeesForPool(cfg, m, prices), ImpactPoolValue(cfg, m, prices, !maximize);
            && longPnl.Some? && shortPnl.Some? && fees.Some? && impact.Some?
            && PoolValue(cfg, m, prices, kind, maximize).value
               == SideValue(m, prices, true, maximize) + SideValue(m, prices, false, maximize) + fees.value
                  - longPnl.value - shortPnl.value - impact.value
  {
    hide BorrowingFeesForPool, CappedPnl, ImpactPoolValue;
  }

  /** Raising a value raises its share by no more, as long as the share is at most the whole. */
  lemma ShareGrowsLess(less: nat, more: nat, factor: nat)
    requires less <= more && factor <= UNIT
    ensures more * factor / UNIT <= less * factor / UNIT + (more - less)
  {
    hide *;
    FloorBounds(less * factor, UNIT);
    MulMono(factor, UNIT, more - less);
    var bound := less * factor / UNIT + (more - less);
    assert more * factor == less * factor + (more - less) * factor;
    assert (bound + 1) * UNIT == less * factor / UNIT * UNIT + UNIT + (more - less) * UNIT;
    FloorBelow(bound + 1, more * factor, UNIT);
  }

  lemma CapPnlExact(cfg: Config, isLong: bool, pnl: int, poolValue: nat, kind: PnlKind)
    requires CapPnl(cfg, isLong, pnl, poolValue, kind).Some?
    ensures CapPnl(cfg, isLong, pnl, poolValue, kind).value
            == if pnl > 0 then Min(pnl, poolValue * cfg.MaxPnlFactor(kind, isLong) / UNIT) else pnl
  {
  }

  /** Less profit against a larger side value leaves at least as much value on that side. */
  lemma CappedSideSpread(
    cfg: Config, isLong: bool, kind: PnlKind, lowPnl: int, highPnl: int, lowValue: nat, highValue: nat)
    requires lowPnl <= highPnl && lowValue <= highValue && cfg.MaxPnlFactor(kind, isLong) <= UNIT
    requires CapPnl(cfg, isLong, lowPnl, highValue, kind).Some? && CapPnl(cfg, isLong, highPnl, lowValue, kind).Some?
    ensures highValue - CapPnl(cfg, isLong, lowPnl, highValue, kind).value
            >= lowValue - CapPnl(cfg, isLong, highPnl, lowValue, kind).value
  {
    hide CapPnl, Config.MaxPnlFactor;
    var factor := cfg.MaxPnlFactor(kind, isLong);
    CapPnlExact(cfg, isLong, lowPnl, highValue, kind);
    CapPnlExact(cfg, isLong, highPnl, lowValue, kind);
    ShareGrowsLess(lowValue, highValue, factor);
    MulNonNeg(lowValue, factor);
    FloorGreatest(0, lowValue * factor, UNIT);
  }

  lemma PnlSpread(m: Market, index: Price, isLong: bool)
    requires index.IsOrdered() && Pnl(m, index, isLong, false).Some? && Pnl(m, index, isLong, true).Some?
    ensures Pnl(m, index, isLong, false).value <= Pnl(m, index, isLong, true).value
  {
    hide Pnl, Pool.Sum;
    PnlExact(m, index, isLong, false);
    PnlExact(m, index, isLong, true);
    MulMono(index.min, index.max, m.openInterestInTokens.Side(isLong).Sum());
  }

  lemma SideSpread(cfg: Config, m: Market, prices: Prices, isLong: bool, kind: PnlKind)
    requires prices.IsOrdered() && cfg.MaxPnlFactor(kind, isLong) <= UNIT
    requires CappedPnl(cfg, m, prices, isLong, SideValue(m, prices, isLong, true), kind, false).Some?
    requires CappedPnl(cfg, m, prices, isLong, SideValue(m, prices, isLong, false), kind, true).Some?
    ensures var high, low := SideValue(m, prices, isLong, true), SideValue(m, prices, isLong, false);
            high - CappedPnl(cfg, m, prices, isLong, high, kind, false).value
            >= low - CappedPnl(cfg, m, prices, isLong, low, kind, true).value
  {
    hide Pnl, CapPnl, Config.MaxPnlFactor;
    PnlSpread(m, prices.index, isLong);
    MulMono(prices.Collateral(isLong).min, prices.Collateral(isLong).max, m.primary.Amount(isLong));
    CappedSideSpread(cfg, isLong, kind, Pnl(m, prices.index, isLong, false).value,
                     Pnl(m, prices.index, isLong, true).value,
                     SideValue(m, prices, isLong, false), SideValue(m, prices, isLong, true));
  }

  lemma ImpactSpread(cfg: Config, m: Market, prices: Prices)
    requires prices.IsOrdered()
    requires ImpactPoolValue(cfg, m, prices, false).Some? && ImpactPoolValue(cfg, m, prices, true).Some?
    ensures ImpactPoolValue(cfg, m, prices, false).value <= ImpactPoolValue(cfg, m, prices, true).value
  {
    hide PendingDistribution;
    MulMono(prices.index.min, prices.index.max, PendingDistribution(cfg, m, Passed(m.now, m.clocks.impact)).value.1);
  }

  /** With ordered prices and profit caps of at most the whole pool, the maximised value of the pool is never
      below the minimised one: market tokens are never bought for less than they are sold for. */
  lemma PoolValueSpread(cfg: Config, m: Market, prices: Prices, kind: PnlKind)
    requires prices.IsOrdered()
    requires cfg.MaxPnlFactor(kind, true) <= UNIT && cfg.MaxPnlFactor(kind, false) <= UNIT
    requires PoolValue(cfg, m, prices, kind, true).Some? && PoolValue(cfg, m, prices, kind, false).Some?
    ensures PoolValue(cfg, m, prices, kind, false).value <= PoolValue(cfg, m, prices, kind, true).value
  {
    hide *;
    PoolValueParts(cfg, m, prices, kind, true);
    PoolValueParts(cfg, m, prices, kind, false);
    SideSpread(cfg, m, prices, true, kind);
    SideSpread(cfg, m, prices, false, kind);
    ImpactSpread(cfg, m, prices);
  }

  /** Tokens and pending fees, less the uncapped profits of all the positions and the impact pool, at a single
      index price. */
  ghost function Residual(cfg: Config, m: Market, ps: seq<Position>, prices: Prices, maximize: bool): int
    requires BorrowingFeesForPool(cfg, m, prices).Some? && ImpactPoolValue(cfg, m, prices, !maximize).Some?
  {
    ValueAt(m.primary, prices, maximize) + BorrowingFeesForPool(cfg, m, prices).value
    - Sums.Sum(ps, ProfitOn(true, prices.index.min)) - Sums.Sum(ps, ProfitOn(false, prices.index.min))
    - ImpactPoolValue(cfg, m, prices, !maximize).value
  }

  /** Whether the profit of a side is below its cap. */
  predicate BelowCap(cfg: Config, m: Market, prices: Prices, isLong: bool, kind: PnlKind, maximize: bool) {
    var pnl := Pnl(m, prices.index, isLong, !maximize);
    pnl.Some? ==> CapPnl(cfg, isLong, pnl.value, SideValue(m, prices, isLong, maximize), kind) == pnl
  }

  lemma SideProfitCapped(
    cfg: Config, m: Market, ps: seq<Position>, prices: Prices, isLong: bool, kind: PnlKind, maximize: bool)
    requires Consistent(m, ps) && prices.index.min == prices.index.max
    requires CappedPnl(cfg, m, prices, isLong, SideValue(m, prices, isLong, maximize), kind, !maximize).Some?
    ensures var capped := CappedPnl(cfg, m, prices, isLong, SideValue(m, prices, isLong, maximize), kind,
                                    !maximize).value;
            var profits := Sums.Sum(ps, ProfitOn(isLong, prices.index.min));
            && capped <= profits
            && (capped == profits <==> BelowCap(cfg, m, prices, isLong, kind, maximize))
  {
    hide Pnl, CapPnl, Consistent, ProfitOn, ProfitAt, SideValue;
    var pnl := Pnl(m, prices.index, isLong, !maximize).value;
    PnlExact(m, prices.index, isLong, !maximize);
    SideProfit(m, ps, isLong, prices.index.min);
    CapOnlyReduces(cfg, isLong, pnl, SideValue(m, prices, isLong, maximize), kind);
  }

  /** At a single index price, what the liquidity providers own is everything the pool holds and is owed, less
      what every position and the impact pool are owed; caps can only add to it, and add something exactly
      when one of them takes effect. */
  lemma PoolValueIsResidual(cfg: Config, m: Market, ps: seq<Position>, prices: Prices, kind: PnlKind, maximize: bool)
    requires Consistent(m, ps) && prices.index.min == prices.index.max
    requires PoolValue(cfg, m, prices, kind, maximize).Some?
    ensures BorrowingFeesForPool(cfg, m, prices).Some? && ImpactPoolValue(cfg, m, prices, !maximize).Some?
    ensures PoolValue(cfg, m, prices, kind, maximize).value >= Residual(cfg, m, ps, prices, maximize)
    ensures PoolValue(cfg, m, prices, kind, maximize).value == Residual(cfg, m, ps, prices, maximize)
            <==> BelowCap(cfg, m, prices, true, kind, maximize) && BelowCap(cfg, m, prices, false, kind, maximize)
  {
    hide PoolValue, BorrowingFeesForPool, ImpactPoolValue, CappedPnl, BelowCap, Consistent, ProfitOn;
    PoolValueParts(cfg, m, prices, kind, maximize);
    SideProfitCapped(cfg, m, ps, prices, true, kind, maximize);
    SideProfitCapped(cfg, m, ps, prices, false, kind, maximize);
  }
}
