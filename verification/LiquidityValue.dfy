/** What deposits and withdrawals do to the value of a market token. */
module LiquidityValue {
  import opened Options
  import opened Arith
  import opened Num
  import opened Utils
  import opened Price
  import opened Pool
  import opened Fees
  import opened Params
  import opened State
  import opened SwapAction
  import opened DepositAction
  import opened WithdrawAction

  /** No open interest and an empty position impact pool. */
  predicate NoTraders(m: Market) {
    m.openInterest == EMPTY_PAIR && m.openInterestInTokens == EMPTY_PAIR && m.positionImpact.long == 0
  }

  /** The two amounts valued at a minimum or maximum price each. */
  function ValueAt(pool: Pool, prices: Prices, maximize: bool): int {
    pool.long * prices.long.PickPrice(maximize) + pool.short * prices.short.PickPrice(maximize)
  }

  lemma NoPendingFees(cfg: Config, m: Market, prices: Prices)
    requires NoTraders(m) && BorrowingFeesForPool(cfg, m, prices).Some?
    ensures BorrowingFeesForPool(cfg, m, prices).value == 0
  {
    hide NextBorrowingFactor;
  }

  lemma NoPnl(cfg: Config, m: Market, prices: Prices, isLong: bool, poolValue: nat, kind: PnlKind, maximize: bool)
    requires NoTraders(m)
    ensures CappedPnl(cfg, m, prices, isLong, poolValue, kind, maximize) == Some(0)
  {
  }

  /** Without traders the pool is worth exactly its tokens, whatever profit factor is asked for. */
  lemma PoolValueWithoutTraders(cfg: Config, m: Market, prices: Prices, kind: PnlKind, maximize: bool)
    requires NoTraders(m) && PoolValue(cfg, m, prices, kind, maximize).Some?
    ensures PoolValue(cfg, m, prices, kind, maximize).value == ValueAt(m.primary, prices, maximize)
  {
    hide BorrowingFeesForPool, CappedPnl, PendingDistribution;
    NoPendingFees(cfg, m, prices);
    NoPnl(cfg, m, prices, true, PoolValueOneSide(m, prices, true, maximize).value, kind, !maximize);
    NoPnl(cfg, m, prices, false, PoolValueOneSide(m, prices, false, maximize).value, kind, !maximize);
    NothingToDistribute(cfg, m, Passed(m.now, m.clocks.impact));
  }

  lemma NothingToDistribute(cfg: Config, m: Market, duration: nat)
    requires m.positionImpact.long == 0
    ensures PendingDistribution(cfg, m, duration) == Some((0, 0))
  {
  }

  /** Minting never gives more than the supply's share of the value. */
  lemma MintBounds(usd: nat, poolValue: nat, supply: nat, divisor: nat)
    requires supply > 0 && poolValue > 0
    requires UsdToMarketTokenAmount(usd, poolValue, supply, divisor).Some?
    ensures UsdToMarketTokenAmount(usd, poolValue, supply, divisor).value * poolValue <= supply * usd
  {
    hide MulDiv;
    MulDivBounds(supply, usd, poolValue);
  }

  /** How one settled impact share bears on values: `bonus` is what was minted for. */
  lemma SettleImpactBounds(
    cfg: Config, m: Market, isLong: bool, amount: nat, prices: Prices, poolValue: nat, impact: int)
    requires m.supply > 0 && poolValue > 0
    requires SettleImpact(cfg, m, isLong, amount, prices, poolValue, impact).Some?
    ensures var (next, rest, mint) := SettleImpact(cfg, m, isLong, amount, prices, poolValue, impact).value;
            var bonus := (next.primary.Amount(!isLong) - m.primary.Amount(!isLong)) * prices.Collateral(!isLong).max;
            && next.primary.Amount(isLong) == m.primary.Amount(isLong)
            && next.supply == m.supply
            && rest <= amount
            && m.primary.Amount(!isLong) <= next.primary.Amount(!isLong)
            && bonus <= Max(impact, 0)
            && rest * prices.Collateral(isLong).min <= amount * prices.Collateral(isLong).min + Min(impact, 0)
            && mint * poolValue <= m.supply * bonus
  {
    hide SwapImpactAmountWithCap, UsdToMarketTokenAmount;
    var opposite := prices.Collateral(!isLong);
    var deposited := amount;
    if impact > 0 {
      ImpactAmountBounds(m, !isLong, opposite, impact);
      var amount := SwapImpactAmountWithCap(m, !isLong, opposite, impact).value.0;
      MintBounds(amount * opposite.max, poolValue, m.supply, cfg.usdToAmountDivisor);
    } else if impact < 0 {
      ImpactAmountBounds(m, isLong, prices.Collateral(isLong), impact);
      var taken := SwapImpactAmountWithCap(m, isLong, prices.Collateral(isLong), impact).value.0;
      assert (deposited + taken) * prices.Collateral(isLong).min
             == deposited * prices.Collateral(isLong).min + taken * prices.Collateral(isLong).min;
    }
  }

  /** The minted tokens take no more than `value`'s share of the supply. */
  predicate MintedWithin(minted: nat, poolValue: nat, supply: nat, value: int) {
    minted * poolValue <= supply * value
  }

  lemma WidenLimit(minted: nat, poolValue: nat, supply: nat, value: int, limit: int)
    requires MintedWithin(minted, poolValue, supply, value) && value <= limit
    ensures MintedWithin(minted, poolValue, supply, limit)
  {
    MulMono(value, limit, supply);
  }

  lemma LegMinted(
    supply: nat, poolValue: nat, value: nat, bonus: nat, mint: nat, bonusMint: nat, restMint: nat, limit: int)
    requires mint == bonusMint + restMint && value + bonus <= limit
    requires bonusMint * poolValue <= supply * bonus && restMint * poolValue <= supply * value
    ensures MintedWithin(mint, poolValue, supply, limit)
  {
    assert mint * poolValue == bonusMint * poolValue + restMint * poolValue;
    assert supply * (value + bonus) == supply * value + supply * bonus;
    MulMono(value + bonus, limit, supply);
  }

  lemma LegArith(
    supply: nat, poolValue: nat, amount: nat, after: nat, rest: nat, forPool: nat, paid: nat, min: nat, max: nat,
    oppositeMin: nat, oppositeMax: nat, loss: int, mint: nat, bonusMint: nat, restMint: nat)
    requires min <= max && oppositeMin <= oppositeMax && after + forPool <= amount
    requires rest * min <= after * min + loss
    requires mint == bonusMint + restMint
    requires bonusMint * poolValue <= supply * (paid * oppositeMax)
    requires restMint * poolValue <= supply * (rest * min)
    ensures MintedWithin(mint, poolValue, supply, (rest + forPool) * max + paid * oppositeMax)
    ensures MintedWithin(mint, poolValue, supply, amount * min + loss + paid * oppositeMax)
    ensures (rest + forPool) * min + paid * oppositeMin <= amount * min + loss + paid * oppositeMax
  {
    assert (rest + forPool) * min == rest * min + forPool * min;
    assert (after + forPool) * min == after * min + forPool * min;
    MulNonNeg(forPool, min);
    MulMono(after + forPool, amount, min);
    MulMono(min, max, rest + forPool);
    MulMono(oppositeMin, oppositeMax, paid);
    LegMinted(supply, poolValue, rest * min, paid * oppositeMax, mint, bonusMint, restMint,
              (rest + forPool) * max + paid * oppositeMax);
    LegMinted(supply, poolValue, rest * min, paid * oppositeMax, mint, bonusMint, restMint,
              amount * min + loss + paid * oppositeMax);
  }

  /** The price impact share of one token of a deposit; a token that is not deposited has none. */
  function ShareOf(impact: int, usd: Pool, isLong: bool, amount: nat): int {
    if amount == 0 || ImpactShare(impact, usd, isLong).None? then 0 else ImpactShare(impact, usd, isLong).value
  }

  /** The most that one token of a deposit can be credited for. */
  function LegLimit(prices: Prices, isLong: bool, amount: nat, share: int): int {
    amount * prices.Collateral(isLong).min + share
  }

  lemma ValueOfGain(before: Pool, after: Pool, prices: Prices, isLong: bool, maximize: bool)
    ensures ValueAt(after, prices, maximize) - ValueAt(before, prices, maximize)
            == (after.Amount(isLong) - before.Amount(isLong)) * prices.Collateral(isLong).PickPrice(maximize)
               + (after.Amount(!isLong) - before.Amount(!isLong)) * prices.Collateral(!isLong).PickPrice(maximize)
  {
  }

  /** One token of a deposit mints no more than its share of the value it adds at the maximum prices,
      and no more than its share of its value at the minimum prices plus its signed share of the impact,
      which also bounds what it adds at the minimum prices. */
  lemma DepositLegValue(
    cfg: Config, m: Market, isLong: bool, amount: nat, prices: Prices, poolValue: nat, impact: int, usd: Pool)
    requires m.supply > 0 && poolValue > 0 && prices.IsOrdered()
    requires DepositLeg(cfg, m, isLong, amount, prices, poolValue, impact, usd).Some?
    ensures var (next, mint, _) := DepositLeg(cfg, m, isLong, amount, prices, poolValue, impact, usd).value;
            var limit := LegLimit(prices, isLong, amount, ShareOf(impact, usd, isLong, amount));
            && next.supply == m.supply
            && MintedWithin(mint, poolValue, m.supply,
                            ValueAt(next.primary, prices, true) - ValueAt(m.primary, prices, true))
            && MintedWithin(mint, poolValue, m.supply, limit)
            && ValueAt(next.primary, prices, false) - ValueAt(m.primary, prices, false) <= limit
  {
    if amount != 0 {
      DepositOneValue(cfg, m, isLong, amount, prices, poolValue, ImpactShare(impact, usd, isLong).value);
    }
  }

  lemma DepositOneValue(
    cfg: Config, m: Market, isLong: bool, amount: nat, prices: Prices, poolValue: nat, share: int)
    requires m.supply > 0 && poolValue > 0 && prices.IsOrdered()
    requires DepositOne(cfg, m, isLong, amount, prices, poolValue, share).Some?
    ensures var (next, mint, _) := DepositOne(cfg, m, isLong, amount, prices, poolValue, share).value;
            var limit := LegLimit(prices, isLong, amount, share);
            && next.supply == m.supply
            && MintedWithin(mint, poolValue, m.supply,
                            ValueAt(next.primary, prices, true) - ValueAt(m.primary, prices, true))
            && MintedWithin(mint, poolValue, m.supply, limit)
            && ValueAt(next.primary, prices, false) - ValueAt(m.primary, prices, false) <= limit
  {
    hide FeeParams.ApplyFees, SettleImpact, UsdToMarketTokenAmount, ValueAt, ValidatePoolValueForDeposit,
      MintedWithin;
    var (after, fees) := cfg.swapFee.ApplyFees(share > 0, amount).value;
    var charged := m.(fee := m.fee.ApplyDelta(isLong, fees.forReceiver).value);
    SettleImpactBounds(cfg, charged, isLong, after, prices, poolValue, share);
    var (settled, rest, bonusMint) := SettleImpact(cfg, charged, isLong, after, prices, poolValue, share).value;
    var (next, restMint) := AddLiquidity(cfg, settled, isLong, rest, fees.forPool, prices, poolValue).value;
    var price, opposite := prices.Collateral(isLong), prices.Collateral(!isLong);
    MintBounds(rest * price.min, poolValue, m.supply, cfg.usdToAmountDivisor);
    ValueOfGain(m.primary, next.primary, prices, isLong, true);
    ValueOfGain(m.primary, next.primary, prices, isLong, false);
    var paid := next.primary.Amount(!isLong) - m.primary.Amount(!isLong);
    LegArith(m.supply, poolValue, amount, after, rest, fees.forPool, paid, price.min, price.max,
             opposite.min, opposite.max, Min(share, 0), bonusMint + restMint, bonusMint, restMint);
    WidenLimit(bonusMint + restMint, poolValue, m.supply, amount * price.min + Min(share, 0) + paid * opposite.max,
               LegLimit(prices, isLong, amount, share));
  }

  /** The price impact of a deposit with its rounding: a negative one may be charged up to one unit short. */
  function RoundedImpact(impact: int): int {
    if impact >= 0 then impact else impact + 1
  }

  /** The two shares of a price impact add up to the impact, less rounding. */
  lemma SharesWithinImpact(impact: int, usd: Pool, long: nat, short: nat)
    requires long == 0 ==> usd.long == 0
    requires short == 0 ==> usd.short == 0
    requires long != 0 || short != 0
    requires long != 0 ==> ImpactShare(impact, usd, true).Some?
    requires short != 0 ==> ImpactShare(impact, usd, false).Some?
    ensures ShareOf(impact, usd, true, long) + ShareOf(impact, usd, false, short) <= RoundedImpact(impact)
  {
    hide ImpactShare, ShareOf;
    var total, magnitude := usd.long + usd.short, Abs(impact);
    ShareExact(impact, usd, true, long);
    ShareExact(impact, usd, false, short);
    FloorAdd(usd.long * magnitude, usd.short * magnitude, total);
    assert usd.long * magnitude + usd.short * magnitude == magnitude * total;
    FloorExact(magnitude, total);
  }

  lemma ShareExact(impact: int, usd: Pool, isLong: bool, amount: nat)
    requires amount == 0 ==> usd.Amount(isLong) == 0
    requires amount != 0 ==> ImpactShare(impact, usd, isLong).Some?
    ensures amount != 0 ==> usd.long + usd.short > 0
    ensures usd.long + usd.short > 0 ==>
              ShareOf(impact, usd, isLong, amount)
              == (if impact > 0 then usd.Amount(isLong) * Abs(impact) / (usd.long + usd.short)
                  else -(usd.Amount(isLong) * Abs(impact) / (usd.long + usd.short)))
  {
    if amount == 0 {
      assert 0 * Abs(impact) == 0;
    }
  }

  /** The most that a whole deposit can be credited for: its value at the minimum prices plus the signed price
      impact. */
  function DepositLimit(prices: Prices, long: nat, short: nat, impact: int): int {
    ValueAt(Pool(long, short), prices, false) + RoundedImpact(impact)
  }

  lemma DepositValue(cfg: Config, m: Market, long: nat, short: nat, prices: Prices)
    requires m.supply > 0 && prices.IsOrdered()
    requires Deposit(cfg, m, long, short, prices).Some?
    requires PoolValue(cfg, m, prices, MaxAfterDeposit, true).value > 0
    ensures var (next, r) := Deposit(cfg, m, long, short, prices).value;
            var poolValue := PoolValue(cfg, m, prices, MaxAfterDeposit, true).value;
            var limit := DepositLimit(prices, long, short, r.impact);
            && MintedWithin(r.minted, poolValue, m.supply,
                            ValueAt(next.primary, prices, true) - ValueAt(m.primary, prices, true))
            && MintedWithin(r.minted, poolValue, m.supply, limit)
            && ValueAt(next.primary, prices, false) - ValueAt(m.primary, prices, false) <= limit
  {
    hide DepositImpact, PoolValue, DepositLeg, ValidateMaxPnl, ValueAt, MintedWithin;
    var (impact, usd) := DepositImpact(cfg, m, long, short, prices).value;
    var poolValue := PoolValue(cfg, m, prices, MaxAfterDeposit, true).value;
    DepositLegValue(cfg, m, true, long, prices, poolValue, impact, usd);
    var (mid, mint1, _) := DepositLeg(cfg, m, true, long, prices, poolValue, impact, usd).value;
    DepositLegValue(cfg, mid, false, short, prices, poolValue, impact, usd);
    var (end, mint2, _) := DepositLeg(cfg, mid, false, short, prices, poolValue, impact, usd).value;
    SharesOfDeposit(cfg, m, long, short, prices, poolValue, impact, usd);
    var limit1 := LegLimit(prices, true, long, ShareOf(impact, usd, true, long));
    var limit2 := LegLimit(prices, false, short, ShareOf(impact, usd, false, short));
    LimitsAdd(prices, long, short, impact, ShareOf(impact, usd, true, long), ShareOf(impact, usd, false, short));
    AddMinted(mint1, mint2, poolValue, m.supply, ValueAt(mid.primary, prices, true) - ValueAt(m.primary, prices, true),
              ValueAt(end.primary, prices, true) - ValueAt(mid.primary, prices, true));
    AddMinted(mint1, mint2, poolValue, m.supply, limit1, limit2);
    WidenLimit(mint1 + mint2, poolValue, m.supply, limit1 + limit2, DepositLimit(prices, long, short, impact));
  }

  lemma SharesOfDeposit(
    cfg: Config, m: Market, long: nat, short: nat, prices: Prices, poolValue: nat, impact: int, usd: Pool)
    requires DepositImpact(cfg, m, long, short, prices) == Some((impact, usd)) && (long != 0 || short != 0)
    requires var first := DepositLeg(cfg, m, true, long, prices, poolValue, impact, usd);
             first.Some? && DepositLeg(cfg, first.value.0, false, short, prices, poolValue, impact, usd).Some?
    ensures ShareOf(impact, usd, true, long) + ShareOf(impact, usd, false, short) <= RoundedImpact(impact)
  {
    hide DepositOne, ImpactShare, DepositDelta, ShareOf, RoundedImpact;
    SharesWithinImpact(impact, usd, long, short);
  }

  lemma LimitsAdd(prices: Prices, long: nat, short: nat, impact: int, share1: int, share2: int)
    requires share1 + share2 <= RoundedImpact(impact)
    ensures LegLimit(prices, true, long, share1) + LegLimit(prices, false, short, share2)
            <= DepositLimit(prices, long, short, impact)
  {
  }

  lemma AddMinted(mint1: nat, mint2: nat, poolValue: nat, supply: nat, value1: int, value2: int)
    requires MintedWithin(mint1, poolValue, supply, value1) && MintedWithin(mint2, poolValue, supply, value2)
    ensures MintedWithin(mint1 + mint2, poolValue, supply, value1 + value2)
  {
    assert (mint1 + mint2) * poolValue == mint1 * poolValue + mint2 * poolValue;
    assert supply * (value1 + value2) == supply * value1 + supply * value2;
  }

  lemma DepositDefined(cfg: Config, m: Market, long: nat, short: nat, prices: Prices)
    requires Deposit(cfg, m, long, short, prices).Some?
    ensures PoolValue(cfg, m, prices, MaxAfterDeposit, true).Some?
    ensures PoolValue(cfg, m, prices, MaxAfterDeposit, true).value >= 0
  {
    hide DepositImpact, PoolValue, DepositLeg, ValidateMaxPnl;
  }

  lemma WithdrawDefined(cfg: Config, m: Market, amount: nat, prices: Prices)
    requires Withdraw(cfg, m, amount, prices).Some?
    ensures OutputAmounts(cfg, m, amount, prices).Some?
    ensures amount <= m.supply
  {
    hide OutputAmounts, WithdrawOne, ValidateWithdrawal;
  }

  /** The pools lose no more of each token than the amounts computed from the market tokens. */
  lemma WithdrawLeaves(cfg: Config, m: Market, amount: nat, prices: Prices)
    requires Withdraw(cfg, m, amount, prices).Some?
    ensures var (next, r) := Withdraw(cfg, m, amount, prices).value;
            var (long, short) := OutputAmounts(cfg, m, amount, prices).value;
            && m.primary.long - next.primary.long <= long && r.longOutput <= long
            && m.primary.short - next.primary.short <= short && r.shortOutput <= short
  {
    hide OutputAmounts, WithdrawOne, ValidateWithdrawal;
    var outputs := OutputAmounts(cfg, m, amount, prices).value;
    WithdrawOneMovesTokens(cfg, m, true, outputs.0);
    WithdrawOneMovesTokens(cfg, WithdrawOne(cfg, m, true, outputs.0).value.0, false, outputs.1);
  }

  lemma ValueMono(a: nat, b: nat, x: int, y: int, prices: Prices)
    requires prices.IsOrdered() && x <= a && y <= b
    ensures x * prices.long.min + y * prices.short.min <= a * prices.long.max + b * prices.short.max
  {
    MulMono(x, a, prices.long.min);
    MulMono(y, b, prices.short.min);
    MulMono(prices.long.min, prices.long.max, a);
    MulMono(prices.short.min, prices.short.max, b);
  }

  lemma MinBelowMax(pool: Pool, prices: Prices)
    requires prices.IsOrdered()
    ensures ValueAt(pool, prices, false) <= ValueAt(pool, prices, true)
  {
    ValueMono(pool.long, pool.short, pool.long, pool.short, prices);
  }

  lemma OutputValue(long: nat, short: nat, maxLong: nat, maxShort: nat, prices: Prices)
    requires long <= maxLong && short <= maxShort
    ensures ValueAt(Pool(long, short), prices, true) <= maxLong * prices.long.max + maxShort * prices.short.max
  {
    MulMono(long, maxLong, prices.long.max);
    MulMono(short, maxShort, prices.short.max);
  }

  /** What one leg of a deposit mints while there is no supply: the pool value, if any, with the leg's value
      added. */
  function FirstMint(gained: int, price: Price, poolValue: nat, divisor: nat): int
    requires divisor > 0
  {
    (poolValue + gained * price.min) / divisor
  }

  lemma FirstLegMints(
    cfg: Config, m: Market, isLong: bool, amount: nat, prices: Prices, poolValue: nat, impact: int, usd: Pool)
    requires m.supply == 0 && amount != 0
    requires DepositLeg(cfg, m, isLong, amount, prices, poolValue, impact, usd).Some?
    ensures cfg.usdToAmountDivisor > 0
    ensures var (next, mint, fees) := DepositLeg(cfg, m, isLong, amount, prices, poolValue, impact, usd).value;
            var gained := next.primary.Amount(isLong) - m.primary.Amount(isLong) - fees.forPool;
            && 0 <= gained <= amount
            && mint == FirstMint(gained, prices.Collateral(isLong), poolValue, cfg.usdToAmountDivisor)
            && next.primary.Amount(!isLong) == m.primary.Amount(!isLong)
            && next.supply == 0
  {
    hide FeeParams.ApplyFees, SettleImpact, ImpactShare, AddLiquidity, FirstMint;
    var share := ImpactShare(impact, usd, isLong).value;
    var (after, fees) := cfg.swapFee.ApplyFees(share > 0, amount).value;
    var charged := m.(fee := m.fee.ApplyDelta(isLong, fees.forReceiver).value);
    var used := if share > 0 then 0 else share;
    FirstSettlement(cfg, charged, isLong, after, prices, poolValue, used);
    var (settled, rest, _) := SettleImpact(cfg, charged, isLong, after, prices, poolValue, used).value;
    FirstAddition(cfg, settled, isLong, rest, fees.forPool, prices, poolValue);
    AddLiquidityMovesTokens(cfg, settled, isLong, rest, fees.forPool, prices, poolValue);
  }

  lemma FirstSettlement(cfg: Config, m: Market, isLong: bool, amount: nat, prices: Prices, poolValue: nat, impact: int)
    requires impact <= 0 && SettleImpact(cfg, m, isLong, amount, prices, poolValue, impact).Some?
    ensures var (next, rest, mint) := SettleImpact(cfg, m, isLong, amount, prices, poolValue, impact).value;
            rest <= amount && mint == 0 && next == m.(swapImpact := next.swapImpact)
  {
    hide SwapImpactAmountWithCap;
  }

  lemma FirstAddition(cfg: Config, m: Market, isLong: bool, amount: nat, forPool: nat, prices: Prices, poolValue: nat)
    requires m.supply == 0 && AddLiquidity(cfg, m, isLong, amount, forPool, prices, poolValue).Some?
    ensures cfg.usdToAmountDivisor > 0
    ensures AddLiquidity(cfg, m, isLong, amount, forPool, prices, poolValue).value.1
            == FirstMint(amount, prices.Collateral(isLong), poolValue, cfg.usdToAmountDivisor)
  {
    hide ValidatePoolValueForDeposit, Pool.ApplyDelta;
  }

  /** A deposit while there is no supply ignores positive impacts and mints by value: each token deposited
      mints for what the pool gained of it, at the minimum price, beyond fees. A pool value that is left over
      without supply is credited once for each of the tokens deposited. */
  lemma FirstDepositMints(cfg: Config, m: Market, long: nat, short: nat, prices: Prices, next: Market, r: DepositReport)
    requires m.supply == 0 && Deposit(cfg, m, long, short, prices) == Some((next, r))
    ensures cfg.usdToAmountDivisor > 0 && PoolValue(cfg, m, prices, MaxAfterDeposit, true).Some?
    ensures PoolValue(cfg, m, prices, MaxAfterDeposit, true).value >= 0
    ensures var poolValue := PoolValue(cfg, m, prices, MaxAfterDeposit, true).value;
            var gainedLong := next.primary.long - m.primary.long - r.longFees.forPool;
            var gainedShort := next.primary.short - m.primary.short - r.shortFees.forPool;
            var mintLong := FirstMint(gainedLong, prices.long, poolValue, cfg.usdToAmountDivisor);
            var mintShort := FirstMint(gainedShort, prices.short, poolValue, cfg.usdToAmountDivisor);
            r.minted == (if long == 0 then 0 else mintLong) + (if short == 0 then 0 else mintShort)
  {
    hide DepositImpact, PoolValue, DepositLeg, ValidateMaxPnl, FirstMint;
    var (impact, usd) := DepositImpact(cfg, m, long, short, prices).value;
    var poolValue := PoolValue(cfg, m, prices, MaxAfterDeposit, true).value;
    DepositDefined(cfg, m, long, short, prices);
    var (mid, _, _) := DepositLeg(cfg, m, true, long, prices, poolValue, impact, usd).value;
    if long != 0 {
      FirstLegMints(cfg, m, true, long, prices, poolValue, impact, usd);
    } else {
      NoLeg(cfg, m, true, prices, poolValue, impact, usd);
    }
    if short != 0 {
      FirstLegMints(cfg, mid, false, short, prices, poolValue, impact, usd);
    } else {
      NoLeg(cfg, mid, false, prices, poolValue, impact, usd);
    }
  }

  lemma NoLeg(cfg: Config, m: Market, isLong: bool, prices: Prices, poolValue: nat, impact: int, usd: Pool)
    ensures DepositLeg(cfg, m, isLong, 0, prices, poolValue, impact, usd) == Some((m, 0, NO_FEES))
  {
  }

  lemma OvercreditArith(a: int, b: int, divisor: int, both: bool, one: int, two: int, rest: int)
    requires divisor > 0 && rest >= 0
    requires one == a / divisor && two == if both then b / divisor else 0
    ensures both ==> ((one + two) * divisor > a + b - rest <==> rest > a % divisor + b % divisor)
    ensures !both ==> (one + two) * divisor <= a
    ensures both && rest == 0 ==> (one + two) * divisor <= a + b
  {
    DivisionExact(a, divisor);
    DivisionExact(b, divisor);
    assert (a / divisor + b / divisor) * divisor == a / divisor * divisor + b / divisor * divisor;
  }

  /** What a first deposit mints is worth more than the left-over pool value and what the pool gained beyond fees
      together if and only if two tokens are deposited and that pool value exceeds what the two divisions round
      off. So it never is when one token is deposited or no value is left over. */
  lemma OvercreditedExactly(
    cfg: Config, m: Market, long: nat, short: nat, prices: Prices, next: Market, r: DepositReport)
    requires m.supply == 0 && Deposit(cfg, m, long, short, prices) == Some((next, r))
    ensures PoolValue(cfg, m, prices, MaxAfterDeposit, true).Some? && cfg.usdToAmountDivisor > 0
    ensures var leftOver, d := PoolValue(cfg, m, prices, MaxAfterDeposit, true).value, cfg.usdToAmountDivisor;
            var valueLong := (next.primary.long - m.primary.long - r.longFees.forPool) * prices.long.min;
            var valueShort := (next.primary.short - m.primary.short - r.shortFees.forPool) * prices.short.min;
            var worth := leftOver + (if long == 0 then 0 else valueLong) + (if short == 0 then 0 else valueShort);
            var roundedOff := (leftOver + valueLong) % d + (leftOver + valueShort) % d;
            && (r.minted * d > worth <==> long != 0 && short != 0 && leftOver > roundedOff)
            && (long == 0 || short == 0 || leftOver == 0 ==> r.minted * d <= worth)
  {
    hide Deposit, PoolValue;
    FirstDepositMints(cfg, m, long, short, prices, next, r);
    SomeDeposited(cfg, m, long, short, prices);
    var leftOver, d := PoolValue(cfg, m, prices, MaxAfterDeposit, true).value, cfg.usdToAmountDivisor;
    var valueLong := (next.primary.long - m.primary.long - r.longFees.forPool) * prices.long.min;
    var valueShort := (next.primary.short - m.primary.short - r.shortFees.forPool) * prices.short.min;
    var a, b := leftOver + valueLong, leftOver + valueShort;
    if long == 0 {
      OvercreditArith(b, a, d, false, b / d, 0, leftOver);
    } else {
      OvercreditArith(a, b, d, short != 0, a / d, if short != 0 then b / d else 0, leftOver);
    }
  }

  lemma SomeDeposited(cfg: Config, m: Market, long: nat, short: nat, prices: Prices)
    requires Deposit(cfg, m, long, short, prices).Some?
    ensures long != 0 || short != 0
  {
    hide DepositImpact, PoolValue, DepositLeg, ValidateMaxPnl;
  }

  lemma DivisionExact(n: int, d: nat)
    requires d > 0
    ensures n == n / d * d + n % d && 0 <= n % d
  {
  }
}
