/** Opening and increasing positions (`action/increase_position.rs`, and the open-interest and
    borrowing updates of `position.rs`). */
module IncreaseAction {
  import opened Options
  import opened Arith
  import opened Num
  import opened Utils
  import opened Price
  import opened Fees
  import opened Params
  import opened State
  import opened PositionState

  datatype IncreaseParams = IncreaseParams(collateral: nat, sizeDelta: nat, acceptable: Option<nat>, prices: Prices)

  datatype Execution = Execution(impactValue: int, impactAmount: int, tokens: nat, price: nat)

  datatype IncreaseReport = IncreaseReport(execution: Execution, collateralDelta: int, fees: PositionFees)

  /** An empty position starts from the current funding checkpoints. */
  function InitializeIfEmpty(m: Market, p: Position): Position {
    if p.sizeUsd != 0 then p
    else p.(sizeTokens := 0,
            fundingPerSize := m.fundingPerSize.Side(p.isLong).Amount(p.isCollateralLong),
            claimablePerSize := m.claimablePerSize.Side(p.isLong))
  }

  /** The index tokens a price impact stands for: rounded against the trader. */
  function ImpactAmount(index: Price, impact: int): Option<int> {
    if impact > 0 then
      var price :- ToSigned(index.PickPrice(true));
      if price == 0 then None else Some(TruncDiv(impact, price))
    else RoundUpMagnitudeDiv(index.PickPrice(false), impact)
  }

  /** The tokens of a size at the index price: rounded against the trader. */
  function BaseTokens(index: Price, isLong: bool, sizeDelta: nat): Option<nat> {
    if isLong then CheckedDiv(sizeDelta, index.PickPrice(true)) else RoundUpDiv(sizeDelta, index.PickPrice(false))
  }

  function ExecutionPrice(sizeDelta: nat, tokens: nat, acceptable: Option<nat>, isLong: bool): Option<nat> {
    var price :- CheckedDiv(sizeDelta, tokens);
    var _ :- Ensure(acceptable.None? || (if isLong then price <= acceptable.value else price >= acceptable.value));
    Some(price)
  }

  function GetExecution(cfg: Config, m: Market, isLong: bool, params: IncreaseParams): Option<Execution> {
    var index := params.prices.index;
    if params.sizeDelta == 0 then Some(Execution(0, 0, 0, index.PickPrice(isLong)))
    else
      var size :- ToSigned(params.sizeDelta);
      var impact :- CappedPositiveImpact(cfg, m, isLong, index, size);
      var amount :- ImpactAmount(index, impact);
      var base :- BaseTokens(index, isLong, params.sizeDelta);
      var tokens :- if isLong then AddWithSigned(base, amount) else SubWithSigned(base, amount);
      var price :- ExecutionPrice(params.sizeDelta, tokens, params.acceptable, isLong);
      Some(Execution(impact, amount, tokens, price))
  }

  /** Charge the fees: the receiver's part goes to the fee pool, the pool's part to the liquidity pool
      and what is left of the added collateral to the collateral sum. */
  function ProcessCollateral(cfg: Config, m: Market, p: Position, params: IncreaseParams, positiveImpact: bool)
    : Option<(Market, int, PositionFees)>
  {
    var added :- ToSigned(params.collateral);
    var fees :- FeesFor(cfg, m, p, CollateralPrice(p, params.prices), params.sizeDelta, positiveImpact);
    var cost :- fees.TotalCost();
    var signedCost :- ToSigned(cost);
    var delta :- CheckedSigned(added - signedCost);
    var forReceiver :- fees.ForReceiver();
    var signedReceiver :- ToSigned(forReceiver);
    var fee :- m.fee.ApplyDelta(p.isCollateralLong, signedReceiver);
    var forPool :- fees.ForPool();
    var signedPool :- ToSigned(forPool);
    var primary :- m.primary.ApplyDelta(p.isCollateralLong, signedPool);
    var collateralSum :- m.collateralSum.ApplyDelta(p.isLong, p.isCollateralLong, delta);
    Some((m.(fee := fee, primary := primary, collateralSum := collateralSum), delta, fees))
  }

  function UpdateTotalBorrowing(m: Market, p: Position, nextSize: nat, nextFactor: nat): Option<Market> {
    var previous :- ApplyFactor(p.sizeUsd, p.borrowingFactor);
    var next :- ApplyFactor(nextSize, nextFactor);
    var delta :- SignedSub(next, previous);
    var total :- m.totalBorrowing.ApplyDelta(p.isLong, delta);
    Some(m.(totalBorrowing := total))
  }

  function UpdateOpenInterest(cfg: Config, m: Market, p: Position, sizeDelta: int, tokens: int): Option<Market> {
    if sizeDelta == 0 then Some(m)
    else
      var interest :- m.openInterest.ApplyDelta(p.isLong, p.isCollateralLong, sizeDelta);
      var _ :- if sizeDelta <= 0 then Some(())
               else
                 var total :- interest.Side(p.isLong).Total();
                 Ensure(total <= cfg.maxOpenInterest.Amount(p.isLong));
      var inTokens :- m.openInterestInTokens.ApplyDelta(p.isLong, p.isCollateralLong, tokens);
      Some(m.(openInterest := interest, openInterestInTokens := inTokens))
  }

  /** The position with its sizes grown and every checkpoint moved to the market's current value. */
  function Grown(m: Market, p: Position, collateral: nat, size: nat, tokens: nat): Position {
    p.(collateral := collateral, sizeUsd := size, sizeTokens := tokens,
       borrowingFactor := m.borrowingFactor.Amount(p.isLong),
       fundingPerSize := m.fundingPerSize.Side(p.isLong).Amount(p.isCollateralLong),
       claimablePerSize := m.claimablePerSize.Side(p.isLong))
  }

  function ValidateIncrease(cfg: Config, m: Market, p: Position, params: IncreaseParams): Option<()> {
    var _ :- if params.sizeDelta == 0 then Some(())
             else
               var _ :- ValidateReserve(cfg, m, params.prices, p.isLong);
               var _ :- ValidateOpenInterestReserve(cfg, m, params.prices, p.isLong);
               var sufficient :- WillCollateralBeSufficient(cfg, m, p, params.prices);
               Ensure(sufficient);
    ValidatePosition(cfg, m, p, params.prices)
  }

  function Increase(
    cfg: Config, m: Market, position: Position, params: IncreaseParams): Option<(Market, Position, IncreaseReport)> {
    var _ :- Ensure(params.prices.IsValid());
    var p := InitializeIfEmpty(m, position);
    var execution :- GetExecution(cfg, m, p.isLong, params);
    var processed :- ProcessCollateral(cfg, m, p, params, execution.impactValue > 0);
    var collateral :- AddWithSigned(p.collateral, processed.1);
    var _ :- CheckedSigned(-execution.impactAmount);
    var impactPool :- processed.0.positionImpact.ApplyDelta(true, -execution.impactAmount);
    var withImpact := processed.0.(positionImpact := impactPool);
    var size :- CheckedAdd(p.sizeUsd, params.sizeDelta);
    var borrowed :- UpdateTotalBorrowing(withImpact, p, size, withImpact.borrowingFactor.Amount(p.isLong));
    var tokens :- CheckedAdd(p.sizeTokens, execution.tokens);
    var grown := Grown(borrowed, p, collateral, size, tokens);
    var signedSize :- ToSigned(params.sizeDelta);
    var signedTokens :- ToSigned(execution.tokens);
    var next :- UpdateOpenInterest(cfg, borrowed, grown, signedSize, signedTokens);
    var _ :- ValidateIncrease(cfg, next, grown, params);
    Some((next, grown, IncreaseReport(execution, processed.1, processed.2)))
  }
}
