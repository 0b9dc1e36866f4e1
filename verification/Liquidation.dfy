/** When a position may be liquidated. */
module Liquidation {
  import opened Options
  import opened Arith
  import opened Num
  import opened Utils
  import opened Price
  import opened Fees
  import opened Params
  import opened State
  import opened FundingAction
  import opened PositionState
  import opened IncreaseAction
  import opened Safety

  /** The collateral is sufficient exactly when it meets every requirement at once. */
  lemma SufficientExactly(size: nat, minFactor: nat, minValue: Option<nat>, allowZero: bool, value: int)
    requires CheckCollateral(size, minFactor, minValue, allowZero, value).Some?
    ensures CheckCollateral(size, minFactor, minValue, allowZero, value) == Some(Sufficient) <==>
              && value >= 0
              && (minValue.Some? ==> value >= minValue.value)
              && (allowZero || value != 0)
              && ApplyFactor(size, minFactor).Some? && value >= ApplyFactor(size, minFactor).value
  {
    hide ApplyFactor;
  }

  /** Sufficient collateral stays sufficient when it grows. */
  lemma CheckCollateralMono(size: nat, minFactor: nat, minValue: Option<nat>, allowZero: bool, less: int, more: int)
    requires less <= more
    requires CheckCollateral(size, minFactor, minValue, allowZero, less) == Some(Sufficient)
    requires CheckCollateral(size, minFactor, minValue, allowZero, more).Some?
    ensures CheckCollateral(size, minFactor, minValue, allowZero, more) == Some(Sufficient)
  {
    hide CheckCollateral, ApplyFactor;
    SufficientExactly(size, minFactor, minValue, allowZero, less);
    SufficientExactly(size, minFactor, minValue, allowZero, more);
  }

  /** Collateral counts at its minimum price, and nothing else in the remaining collateral depends on it. */
  lemma RemainingGrowsWithCollateral(cfg: Config, m: Market, p: Position, prices: Prices, collateral: nat)
    requires RemainingCollateral(cfg, m, p, prices).Some?
    requires RemainingCollateral(cfg, m, p.(collateral := collateral), prices).Some?
    ensures RemainingCollateral(cfg, m, p.(collateral := collateral), prices).value
            == RemainingCollateral(cfg, m, p, prices).value
            + (collateral - p.collateral) * CollateralPrice(p, prices).min
  {
    hide FeesFor, PositionPriceImpact, CapNegativeImpactForLiquidation, PositionFees.TotalCost, PnlValue,
      ToOppositeSigned;
    SameWithoutCollateral(cfg, m, p, prices, collateral);
    assert (collateral - p.collateral) * CollateralPrice(p, prices).min
           == collateral * CollateralPrice(p, prices).min - p.collateral * CollateralPrice(p, prices).min;
  }

  lemma SameWithoutCollateral(cfg: Config, m: Market, p: Position, prices: Prices, collateral: nat)
    ensures PnlValue(cfg, m, p.(collateral := collateral), prices, p.sizeUsd) == PnlValue(cfg, m, p, prices, p.sizeUsd)
    ensures forall positive ::
              FeesFor(cfg, m, p.(collateral := collateral), CollateralPrice(p, prices), p.sizeUsd, positive)
              == FeesFor(cfg, m, p, CollateralPrice(p, prices), p.sizeUsd, positive)
  {
    hide MulDiv, MulDivCeil, MulDivSigned, ProfitFrom, Pnl, CapPnl, PoolValueOneSide, UnpackAmount, ApplyFactor,
      FeeParams.ForOrder;
  }

  /** Adding collateral never makes a position liquidatable. */
  lemma CollateralProtects(cfg: Config, m: Market, p: Position, prices: Prices, collateral: nat, checkMin: bool)
    requires p.collateral <= collateral
    requires IsLiquidatable(cfg, m, p, prices, checkMin) == Some(false)
    requires IsLiquidatable(cfg, m, p.(collateral := collateral), prices, checkMin).Some?
    ensures IsLiquidatable(cfg, m, p.(collateral := collateral), prices, checkMin) == Some(false)
  {
    hide RemainingCollateral, CheckCollateral;
    RemainingGrowsWithCollateral(cfg, m, p, prices, collateral);
    MulNonNeg(collateral - p.collateral, CollateralPrice(p, prices).min);
    CheckCollateralMono(p.sizeUsd, cfg.position.minCollateralFactor,
                        if checkMin then Some(cfg.position.minCollateralValue) else None, false,
                        RemainingCollateral(cfg, m, p, prices).value,
                        RemainingCollateral(cfg, m, p.(collateral := collateral), prices).value);
  }

  /** A position that has just been increased stays safe from liquidation when collateral is added to it, at the
      same prices. */
  lemma IncreasedThenToppedUp(
    cfg: Config, m: Market, position: Position, params: IncreaseParams, next: Market, grown: Position,
    r: IncreaseReport, collateral: nat)
    requires Increase(cfg, m, position, params) == Some((next, grown, r)) && grown.collateral <= collateral
    requires IsLiquidatable(cfg, next, grown.(collateral := collateral), params.prices, true).Some?
    ensures IsLiquidatable(cfg, next, grown.(collateral := collateral), params.prices, true) == Some(false)
  {
    hide Increase, IsLiquidatable;
    HealthyAfterIncrease(cfg, m, position, params);
    CollateralProtects(cfg, next, grown, params.prices, collateral, true);
  }
}
