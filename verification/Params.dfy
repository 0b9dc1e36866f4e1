/** The market configuration (`params/`, and the configuration of `test.rs`). */
module Params {
  import opened Fixed
  import opened Pool
  import opened PriceImpact
  import opened Fees

  datatype PositionParams = PositionParams(
    minSizeUsd: nat, minCollateralValue: nat, minCollateralFactor: nat, maxPositiveImpactFactor: nat,
    maxNegativeImpactFactor: nat, maxImpactFactorForLiquidations: nat)

  datatype DistributionParams = DistributionParams(factor: nat, minAmount: nat)

  datatype BorrowingParams = BorrowingParams(
    receiverFactor: nat, exponent: Pool, factor: Pool, skipForSmallerSide: bool)

  datatype KinkParams = KinkParams(optimalUsage: nat, base: nat, aboveOptimal: nat)

  datatype FundingParams = FundingParams(
    exponent: nat, factor: nat, increasePerSecond: nat, decreasePerSecond: nat, maxPerSecond: nat,
    minPerSecond: nat, thresholdForStable: nat, thresholdForDecrease: nat)

  datatype PnlKind = MaxAfterDeposit | MaxAfterWithdrawal | MaxForTrader

  datatype Config = Config(
    swapImpact: PriceImpactParams,
    swapFee: FeeParams,
    position: PositionParams,
    positionImpact: PriceImpactParams,
    orderFee: FeeParams,
    distribution: DistributionParams,
    borrowing: BorrowingParams,
    kinkLong: KinkParams,
    kinkShort: KinkParams,
    funding: FundingParams,
    reserveFactor: nat,
    openInterestReserveFactor: nat,
    maxPnlAfterDeposit: Pool,
    maxPnlAfterWithdrawal: Pool,
    maxPnlForTrader: Pool,
    maxPoolAmount: Pool,
    maxPoolValueForDeposit: Pool,
    maxOpenInterest: Pool,
    minCollateralFactorForOpenInterest: Pool,
    ignoreOpenInterestForUsage: bool,
    usdToAmountDivisor: nat,
    fundingAdjustment: nat,
    fractionalPow: FractionalPow)
  {
    function Kink(isLong: bool): KinkParams {
      if isLong then kinkLong else kinkShort
    }

    function MaxPnlFactor(kind: PnlKind, isLong: bool): nat {
      match kind
      case MaxAfterDeposit => maxPnlAfterDeposit.Amount(isLong)
      case MaxAfterWithdrawal => maxPnlAfterWithdrawal.Amount(isLong)
      case MaxForTrader => maxPnlForTrader.Amount(isLong)
    }
  }
}
