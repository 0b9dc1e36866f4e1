/** Providing liquidity (`action/deposit.rs`). */
module DepositAction {
  import opened Options
  import opened Arith
  import opened Num
  import opened Utils
  import opened Price
  import opened Pool
  import opened PriceImpact
  import opened Fees
  import opened Params
  import opened State
  import opened SwapAction

  datatype DepositReport = DepositReport(minted: nat, impact: int, longFees: Fees, shortFees: Fees)

  /** The move of the pool's values that a deposit makes. */
  function DepositDelta(m: Market, long: nat, short: nat, prices: Prices): Option<PoolDelta> {
    var signedLong :- ToSigned(long);
    var signedShort :- ToSigned(short);
    var longMid :- prices.long.Mid();
    var shortMid :- prices.short.Mid();
    var longUsd :- MulWithSigned(longMid, signedLong);
    var shortUsd :- MulWithSigned(shortMid, signedShort);
    DeltaFromValues(m.primary, longUsd, shortUsd, longMid, shortMid)
  }

  /** The price impact of a deposit and the USD value of each of its two tokens. */
  function DepositImpact(cfg: Config, m: Market, long: nat, short: nat, prices: Prices): Option<(int, Pool)> {
    var delta :- DepositDelta(m, long, short, prices);
    var impact :- ImpactOf(delta, cfg.swapImpact, cfg.fractionalPow);
    var longMid :- prices.long.Mid();
    var shortMid :- prices.short.Mid();
    Some((impact, Pool(longMid * long, shortMid * short)))
  }

  /** The part of the price impact that falls on one of the two tokens. */
  function ImpactShare(impact: int, usd: Pool, isLong: bool): Option<int> {
    var total :- CheckedAdd(usd.long, usd.short);
    MulDivSigned(usd.Amount(isLong), impact, total)
  }

  /** Settle the impact share of one token: a positive share is paid out of the other token's swap
      impact pool into the liquidity pool and minted for; a negative one is taken from the amount. */
  function SettleImpact(cfg: Config, m: Market, isLong: bool, amount: nat, prices: Prices, poolValue: nat, impact: int)
    : Option<(Market, nat, nat)>
  {
    if impact > 0 then SettlePositiveShare(cfg, m, isLong, amount, prices, poolValue, impact)
    else if impact < 0 then SettleNegativeShare(m, isLong, amount, prices, impact)
    else Some((m, amount, 0))
  }

  function SettlePositiveShare(
    cfg: Config, m: Market, isLong: bool, amount: nat, prices: Prices, poolValue: nat, impact: int)
    : Option<(Market, nat, nat)>
  {
    var opposite := prices.Collateral(!isLong);
    var capped :- SwapImpactAmountWithCap(m, !isLong, opposite, impact);
    var swapImpact :- m.swapImpact.ApplyDelta(!isLong, -capped.0);
    var usd :- CheckedMul(Abs(capped.0), opposite.PickPrice(true));
    var mint :- UsdToMarketTokenAmount(usd, poolValue, m.supply, cfg.usdToAmountDivisor);
    var signed :- ToSigned(Abs(capped.0));
    var primary :- m.primary.ApplyDelta(!isLong, signed);
    var next := m.(swapImpact := swapImpact, primary := primary);
    var _ :- ValidatePoolAmount(cfg, next, !isLong);
    Some((next, amount, mint))
  }

  function SettleNegativeShare(m: Market, isLong: bool, amount: nat, prices: Prices, impact: int)
    : Option<(Market, nat, nat)>
  {
    var capped :- SwapImpactAmountWithCap(m, isLong, prices.Collateral(isLong), impact);
    var swapImpact :- m.swapImpact.ApplyDelta(isLong, -capped.0);
    var rest :- CheckedSub(amount, Abs(capped.0));
    Some((m.(swapImpact := swapImpact), rest, 0))
  }

  /** Add the remaining amount and the pool's fees to the liquidity pool, and mint for the amount. */
  function AddLiquidity(cfg: Config, m: Market, isLong: bool, amount: nat, forPool: nat, prices: Prices, poolValue: nat)
    : Option<(Market, nat)>
  {
    var usd :- CheckedMul(amount, prices.Collateral(isLong).PickPrice(false));
    var mint :- UsdToMarketTokenAmount(usd, poolValue, m.supply, cfg.usdToAmountDivisor);
    var into :- CheckedAdd(amount, forPool);
    var signed :- ToSigned(into);
    var primary :- m.primary.ApplyDelta(isLong, signed);
    var next := m.(primary := primary);
    var _ :- ValidatePoolAmount(cfg, next, isLong);
    var _ :- ValidatePoolValueForDeposit(cfg, next, prices, isLong);
    Some((next, mint))
  }

  /** Deposit one of the two tokens. */
  function DepositOne(cfg: Config, m: Market, isLong: bool, amount: nat, prices: Prices, poolValue: nat, share: int)
    : Option<(Market, nat, Fees)>
  {
    var _ :- Ensure(poolValue != 0 || m.supply == 0);
    var charged :- cfg.swapFee.ApplyFees(share > 0, amount);
    var receiverFee :- ToSigned(charged.1.forReceiver);
    var fee :- m.fee.ApplyDelta(isLong, receiverFee);
    var impact := if share > 0 && m.supply == 0 then 0 else share;
    var settled :- SettleImpact(cfg, m.(fee := fee), isLong, charged.0, prices, poolValue, impact);
    var added :- AddLiquidity(cfg, settled.0, isLong, settled.1, charged.1.forPool, prices, poolValue);
    var mint :- CheckedAdd(settled.2, added.1);
    Some((added.0, mint, charged.1))
  }

  /** One token of a deposit, if any of it is deposited. */
  function DepositLeg(
    cfg: Config, m: Market, isLong: bool, amount: nat, prices: Prices, poolValue: nat, impact: int, usd: Pool)
    : Option<(Market, nat, Fees)>
  {
    if amount == 0 then Some((m, 0, NO_FEES))
    else
      var share :- ImpactShare(impact, usd, isLong);
      DepositOne(cfg, m, isLong, amount, prices, poolValue, share)
  }

  function Deposit(cfg: Config, m: Market, long: nat, short: nat, prices: Prices): Option<(Market, DepositReport)> {
    var _ :- Ensure(long != 0 || short != 0);
    var _ :- ValidateMaxPnl(cfg, m, prices, MaxAfterDeposit, MaxAfterDeposit);
    var impact :- DepositImpact(cfg, m, long, short, prices);
    var poolValue :- PoolValue(cfg, m, prices, MaxAfterDeposit, true);
    var _ :- Ensure(poolValue >= 0);
    var first :- DepositLeg(cfg, m, true, long, prices, Abs(poolValue), impact.0, impact.1);
    var second :- DepositLeg(cfg, first.0, false, short, prices, Abs(poolValue), impact.0, impact.1);
    var minted :- CheckedAdd(first.1, second.1);
    var supply :- CheckedAdd(m.supply, minted);
    Some((second.0.(supply := supply), DepositReport(minted, impact.0, first.2, second.2)))
  }

  /** Nothing but the three token pools differs between the two markets. */
  predicate OnlyPoolsDiffer(a: Market, b: Market) {
    a.(primary := b.primary, swapImpact := b.swapImpact, fee := b.fee) == b
  }

  lemma SettleImpactMovesTokens(
    cfg: Config, m: Market, isLong: bool, amount: nat, prices: Prices, poolValue: nat, impact: int)
    requires SettleImpact(cfg, m, isLong, amount, prices, poolValue, impact).Some?
    ensures var (next, rest, _) := SettleImpact(cfg, m, isLong, amount, prices, poolValue, impact).value;
            && rest <= amount
            && Held(next, isLong) + rest == Held(m, isLong) + amount
            && Held(next, !isLong) == Held(m, !isLong)
            && OnlyPoolsDiffer(m, next) && next.fee == m.fee
            && next.primary.Amount(isLong) == m.primary.Amount(isLong)
            && next.primary.Amount(!isLong) >= m.primary.Amount(!isLong)
  {
    hide SwapImpactAmountWithCap, UsdToMarketTokenAmount, CheckedMul;
    if impact > 0 {
      ImpactAmountBounds(m, !isLong, prices.Collateral(!isLong), impact);
    } else if impact < 0 {
      ImpactAmountBounds(m, isLong, prices.Collateral(isLong), impact);
    }
  }

  lemma AddLiquidityMovesTokens(
    cfg: Config, m: Market, isLong: bool, amount: nat, forPool: nat, prices: Prices, poolValue: nat)
    requires AddLiquidity(cfg, m, isLong, amount, forPool, prices, poolValue).Some?
    ensures var (next, _) := AddLiquidity(cfg, m, isLong, amount, forPool, prices, poolValue).value;
            && next == m.(primary := next.primary)
            && next.primary.Amount(isLong) == m.primary.Amount(isLong) + amount + forPool
            && next.primary.Amount(!isLong) == m.primary.Amount(!isLong)
  {
    hide UsdToMarketTokenAmount, CheckedMul, ValidatePoolValueForDeposit;
  }

  lemma DepositLegConserves(
    cfg: Config, m: Market, isLong: bool, amount: nat, prices: Prices, poolValue: nat, impact: int, usd: Pool)
    requires DepositLeg(cfg, m, isLong, amount, prices, poolValue, impact, usd).Some?
    ensures var (next, _, _) := DepositLeg(cfg, m, isLong, amount, prices, poolValue, impact, usd).value;
            && Held(next, isLong) == Held(m, isLong) + amount
            && Held(next, !isLong) == Held(m, !isLong)
            && OnlyPoolsDiffer(m, next)
            && m.primary.long <= next.primary.long && m.primary.short <= next.primary.short
  {
    hide FeeParams.ApplyFees, SettleImpact, ImpactShare, AddLiquidity;
    if amount != 0 {
      var share := ImpactShare(impact, usd, isLong).value;
      var (after, fees) := cfg.swapFee.ApplyFees(share > 0, amount).value;
      var fee := m.fee.ApplyDelta(isLong, fees.forReceiver).value;
      var used := if share > 0 && m.supply == 0 then 0 else share;
      SettleImpactMovesTokens(cfg, m.(fee := fee), isLong, after, prices, poolValue, used);
      var (settled, rest, _) := SettleImpact(cfg, m.(fee := fee), isLong, after, prices, poolValue, used).value;
      AddLiquidityMovesTokens(cfg, settled, isLong, rest, fees.forPool, prices, poolValue);
    }
  }

  /** A deposit adds exactly the deposited tokens to what the pools hold, exactly the minted tokens to
      the supply, and changes nothing else. */
  lemma DepositConserves(cfg: Config, m: Market, long: nat, short: nat, prices: Prices)
    requires Deposit(cfg, m, long, short, prices).Some?
    ensures var (next, r) := Deposit(cfg, m, long, short, prices).value;
            && Held(next, true) == Held(m, true) + long
            && Held(next, false) == Held(m, false) + short
            && next.supply == m.supply + r.minted
            && OnlyPoolsDiffer(m.(supply := next.supply), next)
            && m.primary.long <= next.primary.long && m.primary.short <= next.primary.short
  {
    hide DepositImpact, PoolValue, DepositLeg, ValidateMaxPnl;
    var (impact, usd) := DepositImpact(cfg, m, long, short, prices).value;
    var poolValue := Abs(PoolValue(cfg, m, prices, MaxAfterDeposit, true).value);
    DepositLegConserves(cfg, m, true, long, prices, poolValue, impact, usd);
    var first := DepositLeg(cfg, m, true, long, prices, poolValue, impact, usd).value;
    DepositLegConserves(cfg, first.0, false, short, prices, poolValue, impact, usd);
  }
}
