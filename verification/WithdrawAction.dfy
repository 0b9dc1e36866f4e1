/** Withdrawing liquidity (`action/withdraw.rs`). */
module WithdrawAction {
  import opened Options
  import opened Arith
  import opened Num
  import opened Utils
  import opened Price
  import opened Fees
  import opened Params
  import opened State
  import opened SwapAction

  datatype WithdrawReport = WithdrawReport(longFees: Fees, shortFees: Fees, longOutput: nat, shortOutput: nat)

  /** The tokens of one side for a USD value split in proportion to the liquidity pool. */
  function OutputOneSide(value: nat, sideValue: nat, totalValue: nat, price: nat): Option<nat> {
    var share :- MulDiv(value, sideValue, totalValue);
    CheckedDiv(share, price)
  }

  /** The USD value of `amount` market tokens. */
  function TokensToUsd(cfg: Config, m: Market, amount: nat, prices: Prices): Option<nat> {
    var poolValue :- PoolValue(cfg, m, prices, MaxAfterWithdrawal, false);
    var _ :- Ensure(poolValue > 0);
    MarketTokenAmountToUsd(amount, Abs(poolValue), m.supply)
  }

  /** Tokens of both sides for `amount` market tokens, before fees. */
  function OutputAmounts(cfg: Config, m: Market, amount: nat, prices: Prices): Option<(nat, nat)> {
    var longValue :- m.primary.UsdValue(true, prices.long.PickPrice(true));
    var shortValue :- m.primary.UsdValue(false, prices.short.PickPrice(true));
    var total :- CheckedAdd(longValue, shortValue);
    var value :- TokensToUsd(cfg, m, amount, prices);
    var long :- OutputOneSide(value, longValue, total, prices.long.PickPrice(true));
    var short :- OutputOneSide(value, shortValue, total, prices.short.PickPrice(true));
    Some((long, short))
  }

  /** Take one token out: the receiver's fee moves to the fee pool, the pool's fee stays. */
  function WithdrawOne(cfg: Config, m: Market, isLong: bool, amount: nat): Option<(Market, Fees, nat)> {
    var charged :- cfg.swapFee.ApplyFees(false, amount);
    var receiverFee :- ToSigned(charged.1.forReceiver);
    var fee :- m.fee.ApplyDelta(isLong, receiverFee);
    var leaving :- CheckedAdd(charged.1.forReceiver, charged.0);
    var delta :- ToOppositeSigned(leaving);
    var primary :- m.primary.ApplyDelta(isLong, delta);
    Some((m.(fee := fee, primary := primary), charged.1, charged.0))
  }

  function ValidateWithdrawal(cfg: Config, m: Market, prices: Prices): Option<()> {
    var _ :- ValidateReserve(cfg, m, prices, true);
    var _ :- ValidateReserve(cfg, m, prices, false);
    ValidateMaxPnl(cfg, m, prices, MaxAfterWithdrawal, MaxAfterWithdrawal)
  }

  function Withdraw(cfg: Config, m: Market, amount: nat, prices: Prices): Option<(Market, WithdrawReport)> {
    var _ :- Ensure(amount != 0 && prices.IsValid());
    var outputs :- OutputAmounts(cfg, m, amount, prices);
    var long :- WithdrawOne(cfg, m, true, outputs.0);
    var short :- WithdrawOne(cfg, long.0, false, outputs.1);
    var _ :- ValidateWithdrawal(cfg, short.0, prices);
    var supply :- CheckedSub(m.supply, amount);
    Some((short.0.(supply := supply), WithdrawReport(long.1, short.1, long.2, short.2)))
  }

  lemma WithdrawOneMovesTokens(cfg: Config, m: Market, isLong: bool, amount: nat)
    requires WithdrawOne(cfg, m, isLong, amount).Some?
    ensures var (next, fees, output) := WithdrawOne(cfg, m, isLong, amount).value;
            && next == m.(fee := next.fee, primary := next.primary)
            && Held(next, isLong) == Held(m, isLong) - output
            && next.primary.Amount(isLong) + output <= m.primary.Amount(isLong) <= next.primary.Amount(isLong) + amount
            && next.primary.Amount(!isLong) == m.primary.Amount(!isLong)
            && next.fee.Amount(!isLong) == m.fee.Amount(!isLong)
            && output <= amount
  {
    hide FeeParams.ApplyFees;
  }

  /** A withdrawal takes exactly the output tokens from what the pools hold, burns exactly the given
      market tokens, and changes nothing else. */
  lemma WithdrawConserves(cfg: Config, m: Market, amount: nat, prices: Prices)
    requires Withdraw(cfg, m, amount, prices).Some?
    ensures var (next, r) := Withdraw(cfg, m, amount, prices).value;
            && Held(next, true) == Held(m, true) - r.longOutput
            && Held(next, false) == Held(m, false) - r.shortOutput
            && next == m.(supply := next.supply, fee := next.fee, primary := next.primary)
            && next.supply == m.supply - amount
  {
    hide OutputAmounts, WithdrawOne, ValidateWithdrawal;
    var outputs := OutputAmounts(cfg, m, amount, prices).value;
    WithdrawOneMovesTokens(cfg, m, true, outputs.0);
    WithdrawOneMovesTokens(cfg, WithdrawOne(cfg, m, true, outputs.0).value.0, false, outputs.1);
  }

  lemma OutputOneSideBounds(value: nat, sideValue: nat, totalValue: nat, price: nat)
    requires OutputOneSide(value, sideValue, totalValue, price).Some?
    ensures totalValue > 0
    ensures OutputOneSide(value, sideValue, totalValue, price).value * price * totalValue <= value * sideValue
  {
    hide MulDiv;
    MulDivBounds(value, sideValue, totalValue);
    var share := MulDiv(value, sideValue, totalValue).value;
    FloorBounds(share, price);
    MulMono(share / price * price, share, totalValue);
  }

  /** The tokens handed out are worth, at the maximum prices, no more than the market tokens' share
      of the pool value. */
  lemma OutputWithinShare(cfg: Config, m: Market, amount: nat, prices: Prices)
    requires OutputAmounts(cfg, m, amount, prices).Some?
    ensures TokensToUsd(cfg, m, amount, prices).Some? && PoolValue(cfg, m, prices, MaxAfterWithdrawal, false).Some?
    ensures var (long, short) := OutputAmounts(cfg, m, amount, prices).value;
            var value := TokensToUsd(cfg, m, amount, prices).value;
            && long * prices.long.max + short * prices.short.max <= value
            && m.supply > 0
            && value * m.supply <= PoolValue(cfg, m, prices, MaxAfterWithdrawal, false).value * amount
  {
    hide OutputOneSide, MulDiv, PoolValue;
    var (long, short) := OutputAmounts(cfg, m, amount, prices).value;
    var value := TokensToUsd(cfg, m, amount, prices).value;
    var longValue := m.primary.long * prices.long.max;
    var shortValue := m.primary.short * prices.short.max;
    var total := longValue + shortValue;
    MulDivBounds(PoolValue(cfg, m, prices, MaxAfterWithdrawal, false).value, amount, m.supply);
    OutputOneSideBounds(value, longValue, total, prices.long.max);
    OutputOneSideBounds(value, shortValue, total, prices.short.max);
    JoinSides(long * prices.long.max, short * prices.short.max, value, longValue, shortValue);
  }

  lemma JoinSides(x: nat, y: nat, value: nat, a: nat, b: nat)
    requires x * (a + b) <= value * a && y * (a + b) <= value * b && a + b > 0
    ensures x + y <= value
  {
    assert (x + y) * (a + b) <= value * (a + b);
    MulCancel(x + y, value, a + b);
  }
}
