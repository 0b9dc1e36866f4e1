/** Swapping one token of the pool for the other (`action/swap.rs`, `market/swap.rs`). */
module SwapAction {
  import opened Options
  import opened Arith
  import opened Num
  import opened Price
  import opened Pool
  import opened PriceImpact
  import opened Fees
  import opened Params
  import opened State

  datatype SwapReport = SwapReport(fees: Fees, tokenOut: nat, impactValue: int, impactAmount: nat)

  /** Amounts of a swap once its price impact is paid: what enters and leaves the liquidity pool,
      what the trader receives and what the swap impact pool becomes. */
  datatype Settlement = Settlement(tokenIn: nat, poolOut: nat, tokenOut: nat, impactAmount: nat, swapImpact: Pool)

  /** The pools a swap rewrites; validations see them before the market does. */
  datatype Cache = Cache(liquidity: Pool, swapImpact: Pool, claimableFee: Pool) {
    function View(m: Market): Market {
      m.(primary := liquidity, swapImpact := swapImpact, fee := claimableFee)
    }
  }

  function SwapDelta(m: Market, isLongIn: bool, amount: nat, prices: Prices): Option<PoolDelta> {
    var longMid :- prices.long.Mid();
    var shortMid :- prices.short.Mid();
    var value :- CheckedMul(amount, if isLongIn then longMid else shortMid);
    var delta :- ToSigned(value);
    DeltaFromValues(m.primary, if isLongIn then delta else -delta, if isLongIn then -delta else delta, longMid,
                    shortMid)
  }

  function SwapImpactValue(cfg: Config, m: Market, isLongIn: bool, amount: nat, prices: Prices): Option<int> {
    var delta :- SwapDelta(m, isLongIn, amount, prices);
    ImpactOf(delta, cfg.swapImpact, cfg.fractionalPow)
  }

  /** A positive impact is paid in the token going out as far as its impact pool reaches; the rest
      is added to the token coming in as far as that pool reaches. */
  function SettlePositive(m: Market, isLongIn: bool, prices: Prices, after: nat, impact: int): Option<Settlement> {
    var priceIn, priceOut := prices.Collateral(isLongIn), prices.Collateral(!isLongIn);
    var capped :- SwapImpactAmountWithCap(m, !isLongIn, priceOut, impact);
    var extra :- ExtraTokenIn(m, isLongIn, priceIn, capped.1);
    var tokenIn :- CheckedAdd(after, Abs(extra));
    var swapImpact :- m.swapImpact.ApplyBoth(!isLongIn, -capped.0, -extra);
    var poolOut :- MulDiv(tokenIn, priceIn.PickPrice(false), priceOut.PickPrice(true));
    var tokenOut :- CheckedAdd(poolOut, Abs(capped.0));
    Some(Settlement(tokenIn, poolOut, tokenOut, Abs(capped.0), swapImpact))
  }

  function ExtraTokenIn(m: Market, isLongIn: bool, priceIn: Price, uncovered: nat): Option<int> {
    if uncovered == 0 then Some(0)
    else
      var signed :- ToSigned(uncovered);
      var extra :- SwapImpactAmountWithCap(m, isLongIn, priceIn, signed);
      Some(extra.0)
  }

  /** A negative impact is taken from the token coming in, rounded up. */
  function SettleNegative(m: Market, isLongIn: bool, prices: Prices, after: nat, impact: int): Option<Settlement> {
    var priceIn, priceOut := prices.Collateral(isLongIn), prices.Collateral(!isLongIn);
    var capped :- SwapImpactAmountWithCap(m, isLongIn, priceIn, impact);
    var swapImpact :- m.swapImpact.ApplyDelta(isLongIn, -capped.0);
    var tokenIn :- CheckedSub(after, Abs(capped.0));
    var _ :- Ensure(tokenIn != 0);
    var tokenOut :- MulDiv(tokenIn, priceIn.PickPrice(false), priceOut.PickPrice(true));
    Some(Settlement(tokenIn, tokenOut, tokenOut, Abs(capped.0), swapImpact))
  }

  function Settle(m: Market, isLongIn: bool, prices: Prices, after: nat, impact: int): Option<Settlement> {
    if impact > 0 then SettlePositive(m, isLongIn, prices, after, impact)
    else SettleNegative(m, isLongIn, prices, after, impact)
  }

  function ValidateSwap(cfg: Config, view: Market, isLongIn: bool, prices: Prices): Option<()> {
    var _ :- ValidatePoolAmount(cfg, view, isLongIn);
    var _ :- ValidateReserve(cfg, view, prices, !isLongIn);
    ValidateMaxPnl(cfg, view, prices,
                   if isLongIn then MaxAfterDeposit else MaxAfterWithdrawal,
                   if isLongIn then MaxAfterWithdrawal else MaxAfterDeposit)
  }

  /** Compute the new pools and the report without touching the market. */
  function TrySwap(cfg: Config, m: Market, isLongIn: bool, amount: nat, prices: Prices): Option<(Cache, SwapReport)> {
    var impact :- SwapImpactValue(cfg, m, isLongIn, amount, prices);
    var charged :- cfg.swapFee.ApplyFees(impact > 0, amount);
    var receiverFee :- ToSigned(charged.1.forReceiver);
    var fee :- m.fee.ApplyDelta(isLongIn, receiverFee);
    var s :- Settle(m, isLongIn, prices, charged.0, impact);
    var into :- CheckedAdd(s.tokenIn, charged.1.forPool);
    var signedInto :- ToSigned(into);
    var signedOut :- ToOppositeSigned(s.poolOut);
    var liquidity :- m.primary.ApplyBoth(isLongIn, signedInto, signedOut);
    var cache := Cache(liquidity, s.swapImpact, fee);
    var _ :- ValidateSwap(cfg, cache.View(m), isLongIn, prices);
    Some((cache, SwapReport(charged.1, s.tokenOut, impact, s.impactAmount)))
  }

  function Swap(cfg: Config, m: Market, isLongIn: bool, amount: nat, prices: Prices): Option<(Market, SwapReport)> {
    if amount == 0 || !prices.IsValid() then None
    else
      var r :- TrySwap(cfg, m, isLongIn, amount, prices);
      Some((r.0.View(m), r.1))
  }

  /** Tokens of one side held by the three pools a swap can touch. */
  function Held(m: Market, isLong: bool): nat {
    m.primary.Amount(isLong) + m.swapImpact.Amount(isLong) + m.fee.Amount(isLong)
  }

  lemma CappedAmount(impact: nat, price: nat, available: nat)
    requires price > 0
    requires PositiveImpactAmount(impact, price, available).Some?
    ensures var (amount, uncovered) := PositiveImpactAmount(impact, price, available).value;
            0 <= amount <= available && amount * price + uncovered <= impact
  {
    FloorBounds(impact, price);
    var q := impact / price;
    assert available * price + (q - available) * price == q * price;
  }

  lemma CeilOfNegative(impact: int, price: nat)
    requires price > 0 && impact < 0
    requires NegativeImpactAmount(impact, price).Some?
    ensures var (amount, uncovered) := NegativeImpactAmount(impact, price).value;
            amount < 0 && uncovered == 0 && amount * price <= impact
  {
    var n := -impact + price - 1;
    FloorBounds(n, price);
    FloorGreatest(1, n, price);
    assert -(n / price) * price == -(n / price * price);
  }

  lemma ImpactAmountBounds(m: Market, isLong: bool, price: Price, impact: int)
    requires SwapImpactAmountWithCap(m, isLong, price, impact).Some?
    ensures var (amount, uncovered) := SwapImpactAmountWithCap(m, isLong, price, impact).value;
            && (impact >= 0 ==> 0 <= amount <= m.swapImpact.Amount(isLong))
            && (impact >= 0 ==> amount * price.max + uncovered <= impact)
            && (impact <= 0 ==> amount <= 0 && uncovered == 0)
            && (impact <= 0 ==> amount * price.min <= impact)
  {
    hide PositiveImpactAmount, NegativeImpactAmount;
    if impact > 0 {
      CappedAmount(impact, price.max, m.swapImpact.Amount(isLong));
    } else if impact < 0 {
      CeilOfNegative(impact, price.min);
    }
  }

  lemma SettlePositiveBounds(m: Market, isLongIn: bool, prices: Prices, after: nat, impact: int)
    requires prices.IsOrdered() && impact > 0
    requires SettlePositive(m, isLongIn, prices, after, impact).Some?
    ensures var s := SettlePositive(m, isLongIn, prices, after, impact).value;
            var inMin, outMax := prices.Collateral(isLongIn).min, prices.Collateral(!isLongIn).max;
            && s.tokenOut * outMax <= after * inMin + impact
            && s.poolOut * outMax <= s.tokenIn * inMin
  {
    hide MulDiv, SwapImpactAmountWithCap;
    var s := SettlePositive(m, isLongIn, prices, after, impact).value;
    var priceIn, priceOut := prices.Collateral(isLongIn), prices.Collateral(!isLongIn);
    MulDivBounds(s.tokenIn, priceIn.min, priceOut.max);
    ImpactAmountBounds(m, !isLongIn, priceOut, impact);
    var capped := SwapImpactAmountWithCap(m, !isLongIn, priceOut, impact).value;
    var extra := ExtraTokenIn(m, isLongIn, priceIn, capped.1).value;
    if capped.1 != 0 {
      ImpactAmountBounds(m, isLongIn, priceIn, capped.1);
      MulMono(priceIn.min, priceIn.max, extra);
    }
    PositiveTotal(after, extra, s.poolOut, capped.0, priceIn.min, priceOut.max, capped.1, impact);
  }

  lemma SettleNegativeBounds(m: Market, isLongIn: bool, prices: Prices, after: nat, impact: int)
    requires impact <= 0
    requires SettleNegative(m, isLongIn, prices, after, impact).Some?
    ensures var s := SettleNegative(m, isLongIn, prices, after, impact).value;
            var inMin, outMax := prices.Collateral(isLongIn).min, prices.Collateral(!isLongIn).max;
            && s.tokenOut * outMax <= after * inMin + impact
            && s.poolOut * outMax <= s.tokenIn * inMin
  {
    hide MulDiv, SwapImpactAmountWithCap;
    var s := SettleNegative(m, isLongIn, prices, after, impact).value;
    var priceIn, priceOut := prices.Collateral(isLongIn), prices.Collateral(!isLongIn);
    MulDivBounds(s.tokenIn, priceIn.min, priceOut.max);
    ImpactAmountBounds(m, isLongIn, priceIn, impact);
    var amount := SwapImpactAmountWithCap(m, isLongIn, priceIn, impact).value.0;
    assert s.tokenIn * priceIn.min == after * priceIn.min + amount * priceIn.min;
  }

  /** In every branch the value paid out is covered by the value paid in plus the price impact, the
      liquidity pool gives out no more value than it takes in, and no token is lost. */
  lemma SettleBounds(m: Market, isLongIn: bool, prices: Prices, after: nat, impact: int)
    requires prices.IsOrdered()
    requires Settle(m, isLongIn, prices, after, impact).Some?
    ensures var s := Settle(m, isLongIn, prices, after, impact).value;
            var inMin, outMax := prices.Collateral(isLongIn).min, prices.Collateral(!isLongIn).max;
            && s.tokenOut * outMax <= after * inMin + impact
            && s.poolOut * outMax <= s.tokenIn * inMin
  {
    hide SettlePositive, SettleNegative;
    if impact > 0 {
      SettlePositiveBounds(m, isLongIn, prices, after, impact);
    } else {
      SettleNegativeBounds(m, isLongIn, prices, after, impact);
    }
  }

  lemma PositiveTotal(
    after: nat, extra: nat, poolOut: nat, amount: nat, inMin: nat, outMax: nat, uncovered: nat, impact: int)
    requires poolOut * outMax <= (after + extra) * inMin
    requires extra * inMin <= uncovered
    requires amount * outMax + uncovered <= impact
    ensures (poolOut + amount) * outMax <= after * inMin + impact
  {
    assert (poolOut + amount) * outMax == poolOut * outMax + amount * outMax;
    assert (after + extra) * inMin == after * inMin + extra * inMin;
  }

  /** A swap only moves tokens between the pools: what they hold of each token changes by exactly
      what the trader paid in and took out. */
  lemma SwapConserves(cfg: Config, m: Market, isLongIn: bool, amount: nat, prices: Prices)
    requires Swap(cfg, m, isLongIn, amount, prices).Some?
    ensures var (next, r) := Swap(cfg, m, isLongIn, amount, prices).value;
            && Held(next, isLongIn) == Held(m, isLongIn) + amount
            && Held(next, !isLongIn) == Held(m, !isLongIn) - r.tokenOut
  {
    hide SwapImpactValue, FeeParams.ApplyFees, Settle, ValidateSwap;
    var impact := SwapImpactValue(cfg, m, isLongIn, amount, prices).value;
    var after := cfg.swapFee.ApplyFees(impact > 0, amount).value.0;
    SettleMovesTokens(m, isLongIn, prices, after, impact);
  }

  lemma SettleMovesTokens(m: Market, isLongIn: bool, prices: Prices, after: nat, impact: int)
    requires Settle(m, isLongIn, prices, after, impact).Some?
    ensures var s := Settle(m, isLongIn, prices, after, impact).value;
            && s.tokenIn + s.swapImpact.Amount(isLongIn) == after + m.swapImpact.Amount(isLongIn)
            && s.tokenOut - s.poolOut == m.swapImpact.Amount(!isLongIn) - s.swapImpact.Amount(!isLongIn)
  {
    var priceIn, priceOut := prices.Collateral(isLongIn), prices.Collateral(!isLongIn);
    if impact > 0 {
      ImpactAmountBounds(m, !isLongIn, priceOut, impact);
      var uncovered := SwapImpactAmountWithCap(m, !isLongIn, priceOut, impact).value.1;
      if uncovered != 0 {
        ImpactAmountBounds(m, isLongIn, priceIn, uncovered);
      }
    } else {
      ImpactAmountBounds(m, isLongIn, priceIn, impact);
    }
  }

  /** The trader never receives more value, at the price worst for them, than the amount after fees
      plus the signed price impact. */
  lemma SwapValueBound(cfg: Config, m: Market, isLongIn: bool, amount: nat, prices: Prices)
    requires prices.IsOrdered()
    requires Swap(cfg, m, isLongIn, amount, prices).Some?
    ensures var (_, r) := Swap(cfg, m, isLongIn, amount, prices).value;
            r.tokenOut * prices.Collateral(!isLongIn).max
            <= (amount - r.fees.forReceiver - r.fees.forPool) * prices.Collateral(isLongIn).min + r.impactValue
  {
    hide SwapImpactValue, FeeParams.ApplyFees, Settle, ValidateSwap;
    var impact := SwapImpactValue(cfg, m, isLongIn, amount, prices).value;
    var after := cfg.swapFee.ApplyFees(impact > 0, amount).value.0;
    SettleBounds(m, isLongIn, prices, after, impact);
  }

  /** The liquidity pool never loses value in a swap, at any prices between the minimum and the
      maximum. */
  lemma SwapKeepsLiquidityValue(
    cfg: Config, m: Market, isLongIn: bool, amount: nat, prices: Prices, priceIn: nat, priceOut: nat)
    requires prices.IsOrdered()
    requires Swap(cfg, m, isLongIn, amount, prices).Some?
    requires prices.Collateral(isLongIn).min <= priceIn <= prices.Collateral(isLongIn).max
    requires prices.Collateral(!isLongIn).min <= priceOut <= prices.Collateral(!isLongIn).max
    ensures var (next, _) := Swap(cfg, m, isLongIn, amount, prices).value;
            next.primary.Amount(isLongIn) * priceIn + next.primary.Amount(!isLongIn) * priceOut
            >= m.primary.Amount(isLongIn) * priceIn + m.primary.Amount(!isLongIn) * priceOut
  {
    hide SwapImpactValue, FeeParams.ApplyFees, Settle, ValidateSwap;
    var impact := SwapImpactValue(cfg, m, isLongIn, amount, prices).value;
    var (after, fees) := cfg.swapFee.ApplyFees(impact > 0, amount).value;
    SettleBounds(m, isLongIn, prices, after, impact);
    var s := Settle(m, isLongIn, prices, after, impact).value;
    ExchangeGains(m.primary.Amount(isLongIn), m.primary.Amount(!isLongIn), s.tokenIn, fees.forPool, s.poolOut,
                  prices.Collateral(isLongIn).min, prices.Collateral(!isLongIn).max, priceIn, priceOut);
  }

  lemma ExchangeGains(
    x: nat, y: nat, tokenIn: nat, fee: nat, out: nat, inMin: nat, outMax: nat, priceIn: nat, priceOut: nat)
    requires out * outMax <= tokenIn * inMin
    requires inMin <= priceIn && priceOut <= outMax && out <= y
    ensures (x + tokenIn + fee) * priceIn + (y - out) * priceOut >= x * priceIn + y * priceOut
  {
    MulMono(inMin, priceIn, tokenIn);
    MulMono(priceOut, outMax, out);
    assert (x + tokenIn + fee) * priceIn == x * priceIn + tokenIn * priceIn + fee * priceIn;
    assert (y - out) * priceOut == y * priceOut - out * priceOut;
  }
}
