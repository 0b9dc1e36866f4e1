/** Positions and what is computed from them (`position.rs`, `market/perp.rs`). */
module PositionState {
  import opened Options
  import opened Arith
  import opened Num
  import opened Utils
  import opened Price
  import opened Pool
  import opened PriceImpact
  import opened Fees
  import opened Params
  import opened State
  import opened FundingAction

  datatype Position = Position(
    isLong: bool,
    isCollateralLong: bool,
    collateral: nat,
    sizeUsd: nat,
    sizeTokens: nat,
    borrowingFactor: nat,
    fundingPerSize: nat,
    claimablePerSize: Pool)

  function EmptyPosition(isLong: bool, isCollateralLong: bool): Position {
    Position(isLong, isCollateralLong, 0, 0, 0, 0, 0, EMPTY_POOL)
  }

  function CollateralPrice(p: Position, prices: Prices): Price {
    prices.Collateral(p.isCollateralLong)
  }

  /** Profit of the whole position before any cap. */
  function UncappedPnl(p: Position, prices: Prices): Option<int> {
    ProfitFrom(p.sizeUsd, p.sizeTokens, prices.index.PickPriceForPnl(p.isLong, false), p.isLong)
  }

  /** Profit of the whole position; a profit is scaled down when the profit of its side is capped. */
  function TotalPnl(cfg: Config, m: Market, p: Position, prices: Prices, uncapped: int): Option<int> {
    if uncapped <= 0 then Some(uncapped)
    else
      var poolValue :- PoolValueOneSide(m, prices, p.isLong, false);
      var poolPnl :- Pnl(m, prices.index, p.isLong, true);
      var capped :- CapPnl(cfg, p.isLong, poolPnl, poolValue, MaxForTrader);
      if capped != poolPnl && capped >= 0 && poolPnl > 0 then MulDivSigned(Abs(capped), uncapped, Abs(poolPnl))
      else Some(uncapped)
  }

  function SizeDeltaInTokens(p: Position, sizeDelta: nat): Option<nat> {
    if p.sizeUsd == sizeDelta then Some(p.sizeTokens)
    else if p.isLong then MulDivCeil(p.sizeTokens, sizeDelta, p.sizeUsd)
    else MulDiv(p.sizeTokens, sizeDelta, p.sizeUsd)
  }

  /** The profit realised by closing `sizeDelta` of the position, the same without the cap, and the
      size closed in tokens. */
  function PnlValue(cfg: Config, m: Market, p: Position, prices: Prices, sizeDelta: nat): Option<(int, int, nat)> {
    var uncapped :- UncappedPnl(p, prices);
    var total :- TotalPnl(cfg, m, p, prices, uncapped);
    var tokens :- SizeDeltaInTokens(p, sizeDelta);
    var pnl :- MulDivSigned(tokens, total, p.sizeTokens);
    var uncappedPnl :- MulDivSigned(tokens, uncapped, p.sizeTokens);
    Some((pnl, uncappedPnl, tokens))
  }

  /** The move of the open interest made by a signed change of size. */
  function SizeMove(m: Market, isLong: bool, sizeDelta: int): Option<PoolDelta> {
    var interest :- m.openInterest.Merge();
    DeltaFromValues(interest, if isLong then sizeDelta else 0, if isLong then 0 else sizeDelta, 1, 1)
  }

  function PositionPriceImpact(cfg: Config, m: Market, isLong: bool, sizeDelta: int): Option<int> {
    var move :- SizeMove(m, isLong, sizeDelta);
    ImpactOf(move, cfg.positionImpact, cfg.fractionalPow)
  }

  /** A positive impact is limited by the position impact pool and by a factor of the size. */
  function CapPositiveImpact(cfg: Config, m: Market, index: Price, sizeDelta: int, impact: int): Option<int> {
    if impact <= 0 then Some(impact)
    else
      var poolValue :- CheckedMul(m.positionImpact.long, index.PickPrice(false));
      var maxByPool :- ToSigned(poolValue);
      var limit :- ApplyFactor(Abs(sizeDelta), cfg.position.maxPositiveImpactFactor);
      var maxByFactor :- ToSigned(limit);
      Some(Min(Min(impact, maxByPool), maxByFactor))
  }

  function CapNegativeImpactForLiquidation(cfg: Config, sizeDelta: int, impact: int): Option<int> {
    if impact >= 0 then Some(impact)
    else
      var limit :- ApplyFactor(Abs(sizeDelta), cfg.position.maxImpactFactorForLiquidations);
      var minImpact :- ToOppositeSigned(limit);
      var _ :- if impact < minImpact then CheckedSigned(minImpact - impact) else Some(0);
      Some(Max(impact, minImpact))
  }

  function CappedPositiveImpact(cfg: Config, m: Market, isLong: bool, index: Price, sizeDelta: int): Option<int> {
    var impact :- PositionPriceImpact(cfg, m, isLong, sizeDelta);
    CapPositiveImpact(cfg, m, index, sizeDelta, impact)
  }

  function PendingBorrowingFeeValue(m: Market, p: Position): Option<nat> {
    var diff :- CheckedSub(m.borrowingFactor.Amount(p.isLong), p.borrowingFactor);
    ApplyFactor(p.sizeUsd, diff)
  }

  function PendingClaim(cfg: Config, m: Market, p: Position, isLongToken: bool): Option<nat> {
    UnpackAmount(cfg.fundingAdjustment, m.claimablePerSize.Side(p.isLong).Amount(isLongToken),
                 p.claimablePerSize.Amount(isLongToken), p.sizeUsd, false)
  }

  function PendingFundingFee(cfg: Config, m: Market, p: Position): Option<nat> {
    UnpackAmount(cfg.fundingAdjustment, m.fundingPerSize.Side(p.isLong).Amount(p.isCollateralLong),
                 p.fundingPerSize, p.sizeUsd, true)
  }

  function PendingFundingFees(cfg: Config, m: Market, p: Position): Option<FundingFees> {
    var amount :- PendingFundingFee(cfg, m, p);
    var claimableLong :- PendingClaim(cfg, m, p, true);
    var claimableShort :- PendingClaim(cfg, m, p, false);
    Some(FundingFees(amount, claimableLong, claimableShort))
  }

  /** The fees a change of size makes the position pay; no liquidation fee. */
  function FeesFor(
    cfg: Config, m: Market, p: Position, price: Price, sizeDelta: nat, positiveImpact: bool): Option<PositionFees> {
    var order :- cfg.orderFee.ForOrder(price, sizeDelta, positiveImpact);
    var value :- PendingBorrowingFeeValue(m, p);
    var borrowing :- BorrowingFeesFor(cfg.borrowing.receiverFactor, price, value);
    var funding :- PendingFundingFees(cfg, m, p);
    Some(PositionFees(order, borrowing, funding))
  }

  datatype CollateralCheck = Sufficient | ZeroCollateral | Negative | BelowLeverage | BelowMinimum

  function CheckCollateral(
    size: nat, minFactor: nat, minValue: Option<nat>, allowZero: bool, value: int): Option<CollateralCheck> {
    if value < 0 then Some(if minValue.Some? then BelowMinimum else Negative)
    else if minValue.Some? && value < minValue.value then Some(BelowMinimum)
    else if !allowZero && value == 0 then Some(ZeroCollateral)
    else
      var forLeverage :- ApplyFactor(size, minFactor);
      Some(if value < forLeverage then BelowLeverage else Sufficient)
  }

  /** The minimum collateral factor that the open interest of one side calls for. */
  function MinCollateralFactorForOpenInterest(cfg: Config, m: Market, delta: int, isLong: bool): Option<nat> {
    var interest :- OpenInterest(m, isLong);
    var next :- AddWithSigned(interest, delta);
    ApplyFactor(next, cfg.minCollateralFactorForOpenInterest.Amount(isLong))
  }

  function WillCollateralBeSufficient(cfg: Config, m: Market, p: Position, prices: Prices): Option<bool> {
    var value :- CheckedMul(p.collateral, CollateralPrice(p, prices).PickPrice(false));
    var remaining :- ToSigned(value);
    var forInterest :- MinCollateralFactorForOpenInterest(cfg, m, 0, p.isLong);
    var check :- CheckCollateral(p.sizeUsd, Max(forInterest, cfg.position.minCollateralFactor), None, true, remaining);
    Some(check == Sufficient)
  }

  /** The collateral value left after closing everything, as far as liquidation is concerned. */
  function RemainingCollateral(cfg: Config, m: Market, p: Position, prices: Prices): Option<int> {
    var price := CollateralPrice(p, prices);
    var pnl :- PnlValue(cfg, m, p, prices, p.sizeUsd);
    var value :- CheckedMul(p.collateral, price.PickPrice(false));
    var sizeDelta :- ToOppositeSigned(p.sizeUsd);
    var impact :- PositionPriceImpact(cfg, m, p.isLong, sizeDelta);
    var counted :- if impact < 0 then CapNegativeImpactForLiquidation(cfg, sizeDelta, impact) else Some(0);
    var fees :- FeesFor(cfg, m, p, price, p.sizeUsd, impact > 0);
    var cost :- fees.TotalCost();
    var costValue :- CheckedMul(cost, price.PickPrice(false));
    var signedValue :- ToSigned(value);
    var withPnl :- CheckedSigned(signedValue + pnl.0);
    var withImpact :- CheckedSigned(withPnl + counted);
    var signedCost :- ToSigned(costValue);
    CheckedSigned(withImpact - signedCost)
  }

  /** Whether the position may be liquidated. */
  function IsLiquidatable(cfg: Config, m: Market, p: Position, prices: Prices, checkMinCollateral: bool): Option<bool> {
    var remaining :- RemainingCollateral(cfg, m, p, prices);
    var check :- CheckCollateral(p.sizeUsd, cfg.position.minCollateralFactor,
                                 if checkMinCollateral then Some(cfg.position.minCollateralValue) else None, false,
                                 remaining);
    Some(check != Sufficient)
  }

  function ValidatePosition(cfg: Config, m: Market, p: Position, prices: Prices): Option<()> {
    var _ :- Ensure(p.sizeUsd != 0 && p.sizeTokens != 0 && p.sizeUsd >= cfg.position.minSizeUsd);
    var liquidatable :- IsLiquidatable(cfg, m, p, prices, true);
    Ensure(!liquidatable)
  }
}
