/** The state of one market and the read-only computations on it (`market/base.rs`,
    `market/liquidity.rs`, `market/borrowing.rs`, `market/perp.rs`, `market/position_impact.rs`,
    `market/swap.rs`, `market/utils.rs`). */
module State {
  import opened Options
  import opened Arith
  import opened Num
  import opened Utils
  import opened Price
  import opened Pool
  import opened Params

  /** When each clock was last reset, if ever. */
  datatype Clocks = Clocks(impact: Option<nat>, borrowing: Option<nat>, funding: Option<nat>)

  datatype Market = Market(
    primary: Pool,
    swapImpact: Pool,
    fee: Pool,
    openInterest: PoolPair,
    openInterestInTokens: PoolPair,
    collateralSum: PoolPair,
    positionImpact: Pool,
    borrowingFactor: Pool,
    totalBorrowing: Pool,
    fundingRate: int,
    fundingPerSize: PoolPair,
    claimablePerSize: PoolPair,
    supply: nat,
    now: nat,
    clocks: Clocks)

  const EMPTY_MARKET := Market(
    EMPTY_POOL, EMPTY_POOL, EMPTY_POOL, EMPTY_PAIR, EMPTY_PAIR, EMPTY_PAIR, EMPTY_POOL, EMPTY_POOL,
    EMPTY_POOL, 0, EMPTY_PAIR, EMPTY_PAIR, 0, 0, Clocks(None, None, None))

  /** Seconds since a clock was last reset; zero for a clock that never was. */
  function Passed(now: nat, clock: Option<nat>): nat {
    if clock.Some? && clock.value <= now then now - clock.value else 0
  }

  function PoolValueOneSide(m: Market, prices: Prices, isLong: bool, maximize: bool): Option<nat> {
    m.primary.UsdValue(isLong, prices.Collateral(isLong).PickPrice(maximize))
  }

  function OpenInterest(m: Market, isLong: bool): Option<nat> {
    m.openInterest.Side(isLong).Total()
  }

  function OpenInterestInTokens(m: Market, isLong: bool): Option<nat> {
    m.openInterestInTokens.Side(isLong).Total()
  }

  /** Signed profit of holding `tokens` against a size of `interest` USD. */
  function ProfitFrom(interest: nat, tokens: nat, price: nat, isLong: bool): Option<int> {
    var value :- CheckedMul(tokens, price);
    var signedValue :- ToSigned(value);
    var signedInterest :- ToSigned(interest);
    CheckedSigned(if isLong then signedValue - signedInterest else signedInterest - signedValue)
  }

  /** Total profit of the traders on one side. */
  function Pnl(m: Market, index: Price, isLong: bool, maximize: bool): Option<int> {
    var interest :- OpenInterest(m, isLong);
    var tokens :- OpenInterestInTokens(m, isLong);
    if interest == 0 && tokens == 0 then Some(0)
    else ProfitFrom(interest, tokens, index.PickPriceForPnl(isLong, maximize), isLong)
  }

  /** Cap a profit at a factor of the pool value. */
  function CapPnl(cfg: Config, isLong: bool, pnl: int, poolValue: nat, kind: PnlKind): Option<int> {
    if pnl > 0 then
      var maxPnl :- ApplyFactor(poolValue, cfg.MaxPnlFactor(kind, isLong));
      var signedMax :- ToSigned(maxPnl);
      Some(Min(pnl, signedMax))
    else Some(pnl)
  }

  function PnlFactorOk(cfg: Config, m: Market, prices: Prices, kind: PnlKind, isLong: bool): Option<()> {
    var poolValue :- PoolValueOneSide(m, prices, isLong, false);
    var pnl :- Pnl(m, prices.index, isLong, true);
    var factor :- DivToFactorSigned(pnl, poolValue);
    Ensure(!(factor > 0 && Abs(factor) > cfg.MaxPnlFactor(kind, isLong)))
  }

  function ValidateMaxPnl(cfg: Config, m: Market, prices: Prices, longKind: PnlKind, shortKind: PnlKind): Option<()> {
    var _ :- PnlFactorOk(cfg, m, prices, longKind, true);
    PnlFactorOk(cfg, m, prices, shortKind, false)
  }

  function ValidatePoolAmount(cfg: Config, m: Market, isLong: bool): Option<()> {
    Ensure(m.primary.Amount(isLong) <= cfg.maxPoolAmount.Amount(isLong))
  }

  function ValidatePoolValueForDeposit(cfg: Config, m: Market, prices: Prices, isLong: bool): Option<()> {
    var value :- PoolValueOneSide(m, prices, isLong, true);
    Ensure(value <= cfg.maxPoolValueForDeposit.Amount(isLong))
  }

  /** The value that must stay available to pay the traders of one side. */
  function ReservedValue(m: Market, index: Price, isLong: bool): Option<nat> {
    if isLong then
      var tokens :- OpenInterestInTokens(m, true);
      CheckedMul(tokens, index.PickPrice(true))
    else OpenInterest(m, false)
  }

  function ValidateReserveWith(m: Market, prices: Prices, isLong: bool, factor: nat): Option<()> {
    var poolValue :- PoolValueOneSide(m, prices, isLong, false);
    var maxReserved :- ApplyFactor(poolValue, factor);
    var reserved :- ReservedValue(m, prices.index, isLong);
    Ensure(reserved <= maxReserved)
  }

  function ValidateReserve(cfg: Config, m: Market, prices: Prices, isLong: bool): Option<()> {
    ValidateReserveWith(m, prices, isLong, cfg.reserveFactor)
  }

  function ValidateOpenInterestReserve(cfg: Config, m: Market, prices: Prices, isLong: bool): Option<()> {
    ValidateReserveWith(m, prices, isLong, cfg.openInterestReserveFactor)
  }

  /** How much of the reserve, or of the open interest limit, is in use. */
  function UsageFactor(cfg: Config, m: Market, isLong: bool, reserved: nat, poolValue: nat): Option<nat> {
    var maxReserved :- ApplyFactor(poolValue, cfg.openInterestReserveFactor);
    var reserveUsage :- DivToFactor(reserved, maxReserved);
    if cfg.ignoreOpenInterestForUsage then Some(reserveUsage)
    else
      var interest :- OpenInterest(m, isLong);
      var interestUsage :- DivToFactor(interest, cfg.maxOpenInterest.Amount(isLong));
      Some(if reserveUsage > interestUsage then reserveUsage else interestUsage)
  }

  /** The borrowing rate of the kink model at a given usage. */
  function KinkRate(k: KinkParams, usage: nat): Option<nat> {
    var rate :- ApplyFactor(usage, k.base);
    if usage > k.optimalUsage && UNIT > k.optimalUsage then
      var additional := if k.aboveOptimal > k.base then k.aboveOptimal - k.base else 0;
      var extra :- MulDiv(additional, usage - k.optimalUsage, UNIT - k.optimalUsage);
      CheckedAdd(rate, extra)
    else Some(rate)
  }

  function BorrowingRateFromPool(cfg: Config, m: Market, isLong: bool, reserved: nat, poolValue: nat): Option<nat> {
    if cfg.Kink(isLong).optimalUsage != 0 then
      var usage :- UsageFactor(cfg, m, isLong, reserved, poolValue);
      KinkRate(cfg.Kink(isLong), usage)
    else
      var power :- ApplyExponentFactor(reserved, cfg.borrowing.exponent.Amount(isLong), cfg.fractionalPow);
      var ratio :- DivToFactor(power, poolValue);
      ApplyFactor(ratio, cfg.borrowing.factor.Amount(isLong))
  }

  function BorrowingRate(cfg: Config, m: Market, prices: Prices, isLong: bool): Option<nat> {
    var reserved :- ReservedValue(m, prices.index, isLong);
    if reserved == 0 then Some(0)
    else
      var smaller :- IsSmallerSide(cfg, m, isLong);
      if smaller then Some(0)
      else
        var poolValue :- PoolValueOneSide(m, prices, isLong, false);
        if poolValue == 0 then None
        else BorrowingRateFromPool(cfg, m, isLong, reserved, poolValue)
  }

  /** Whether this side is skipped because the other side has more open interest. */
  function IsSmallerSide(cfg: Config, m: Market, isLong: bool): Option<bool> {
    if !cfg.borrowing.skipForSmallerSide then Some(false)
    else
      var merged :- m.openInterest.Merge();
      Some(merged.Amount(isLong) < merged.Amount(!isLong))
  }

  /** The accumulated borrowing factor after `duration` seconds, and its growth. */
  function NextBorrowingFactor(
    cfg: Config, m: Market, prices: Prices, isLong: bool, duration: nat): Option<(nat, nat)> {
    var rate :- BorrowingRate(cfg, m, prices, isLong);
    var seconds :- Checked(duration);
    var delta :- CheckedMul(rate, seconds);
    var next :- CheckedAdd(m.borrowingFactor.Amount(isLong), delta);
    Some((next, delta))
  }

  function TotalPendingBorrowingFees(cfg: Config, m: Market, prices: Prices, isLong: bool): Option<nat> {
    var interest :- OpenInterest(m, isLong);
    var next :- NextBorrowingFactor(cfg, m, prices, isLong, Passed(m.now, m.clocks.borrowing));
    var total :- ApplyFactor(interest, next.0);
    CheckedSub(total, m.totalBorrowing.Amount(isLong))
  }

  /** Amount leaving the position impact pool after `duration` seconds, and what remains. */
  function PendingDistribution(cfg: Config, m: Market, duration: nat): Option<(nat, nat)> {
    var current := m.positionImpact.long;
    if cfg.distribution.factor == 0 || current <= cfg.distribution.minAmount then Some((0, current))
    else
      var seconds :- Checked(duration);
      var amount :- ApplyFactor(seconds, cfg.distribution.factor);
      var distributed := Min(amount, current - cfg.distribution.minAmount);
      var next :- CheckedSub(current, distributed);
      Some((distributed, next))
  }

  /** The part of the pending borrowing fees that belongs to the pool. */
  function BorrowingFeesForPool(cfg: Config, m: Market, prices: Prices): Option<int> {
    var forLong :- TotalPendingBorrowingFees(cfg, m, prices, true);
    var forShort :- TotalPendingBorrowingFees(cfg, m, prices, false);
    var total :- CheckedAdd(forLong, forShort);
    var factor :- CheckedSub(UNIT, cfg.borrowing.receiverFactor);
    var fees :- ApplyFactor(total, factor);
    ToSigned(fees)
  }

  function CappedPnl(
    cfg: Config, m: Market, prices: Prices, isLong: bool, poolValue: nat, kind: PnlKind,
    maximize: bool): Option<int> {
    var pnl :- Pnl(m, prices.index, isLong, maximize);
    CapPnl(cfg, isLong, pnl, poolValue, kind)
  }

  /** The value left in the position impact pool, which does not belong to the liquidity providers. */
  function ImpactPoolValue(cfg: Config, m: Market, prices: Prices, maximize: bool): Option<int> {
    var pending :- PendingDistribution(cfg, m, Passed(m.now, m.clocks.impact));
    var value :- CheckedMul(pending.1, prices.index.PickPrice(maximize));
    ToSigned(value)
  }

  /** The value of the pool to its liquidity providers. */
  function PoolValue(cfg: Config, m: Market, prices: Prices, kind: PnlKind, maximize: bool): Option<int> {
    var longValue :- PoolValueOneSide(m, prices, true, maximize);
    var shortValue :- PoolValueOneSide(m, prices, false, maximize);
    var tokens :- CheckedAdd(longValue, shortValue);
    var base :- ToSigned(tokens);
    var fees :- BorrowingFeesForPool(cfg, m, prices);
    var withFees :- CheckedSigned(base + fees);
    var longPnl :- CappedPnl(cfg, m, prices, true, longValue, kind, !maximize);
    var shortPnl :- CappedPnl(cfg, m, prices, false, shortValue, kind, !maximize);
    var netPnl :- CheckedSigned(longPnl + shortPnl);
    var withoutPnl :- CheckedSigned(withFees - netPnl);
    var impactValue :- ImpactPoolValue(cfg, m, prices, !maximize);
    CheckedSigned(withoutPnl - impactValue)
  }

  function MarketTokenPrice(cfg: Config, m: Market, prices: Prices, kind: PnlKind, maximize: bool): Option<nat> {
    if m.supply == 0 then Some(UNIT)
    else
      var value :- PoolValue(cfg, m, prices, kind, maximize);
      var _ :- Ensure(value >= 0);
      var one :- CheckedDiv(UNIT, cfg.usdToAmountDivisor);
      MarketTokenAmountToUsd(one, Abs(value), m.supply)
  }

  /** The tokens a positive USD impact stands for, limited to what is available, and the USD value
      that was not covered. */
  function PositiveImpactAmount(impact: nat, price: nat, available: nat): Option<(int, nat)>
    requires price != 0
  {
    var _ :- ToSigned(price);
    var _ :- ToSigned(available);
    var amount := impact / price;
    if amount > available then
      var uncovered :- CheckedMul(amount - available, price);
      Some((available, uncovered))
    else Some((amount, 0))
  }

  /** The tokens a negative USD impact stands for, the magnitude rounded up. */
  function NegativeImpactAmount(impact: int, price: nat): Option<(int, nat)>
    requires price != 0
  {
    var _ :- ToSigned(price);
    var lowered :- CheckedSigned(impact - price);
    var dividend :- CheckedSigned(lowered + 1);
    Some((TruncDiv(dividend, price), 0))
  }

  /** The token amount a signed swap impact in USD stands for, and the part of a positive impact
      that the swap impact pool could not cover. */
  function SwapImpactAmountWithCap(m: Market, isLongToken: bool, price: Price, usdImpact: int): Option<(int, nat)> {
    if price.HasZero() then None
    else if usdImpact > 0 then PositiveImpactAmount(usdImpact, price.max, m.swapImpact.Amount(isLongToken))
    else if usdImpact < 0 then NegativeImpactAmount(usdImpact, price.min)
    else Some((0, 0))
  }
}
