/** What deposits and withdrawals do to the value of a market token, with traders present. */
module ShareValue {
  import opened Options
  import opened Arith
  import opened Num
  import opened Utils
  import opened Price
  import opened Pool
  import opened Params
  import opened State
  import opened DepositAction
  import opened WithdrawAction
  import opened LiquidityValue
  import opened Safety
  import opened PendingFees
  import opened TraderProfits
  import opened PoolAccounting

  /** The profit of one side that its cap withholds from the traders, in favour of the liquidity providers. */
  function Withheld(cfg: Config, m: Market, prices: Prices, isLong: bool, kind: PnlKind, maximize: bool): int {
    OrZero(Pnl(m, prices.index, isLong, !maximize))
    - OrZero(CappedPnl(cfg, m, prices, isLong, SideValue(m, prices, isLong, maximize), kind, !maximize))
  }

  function WithheldInAll(cfg: Config, m: Market, prices: Prices, kind: PnlKind, maximize: bool): int {
    Withheld(cfg, m, prices, true, kind, maximize) + Withheld(cfg, m, prices, false, kind, maximize)
  }

  predicate BothBelowCap(cfg: Config, m: Market, prices: Prices, kind: PnlKind, maximize: bool) {
    BelowCap(cfg, m, prices, true, kind, maximize) && BelowCap(cfg, m, prices, false, kind, maximize)
  }

  /** A market without traders meets both conditions used below. */
  lemma WithoutTraders(cfg: Config, m: Market, prices: Prices, kind: PnlKind, maximize: bool)
    requires NoTraders(m)
    ensures NothingAccruing(m) && BothBelowCap(cfg, m, prices, kind, maximize)
  {
  }

  /** The part of the pool value that does not depend on the liquidity. */
  function Rest(cfg: Config, m: Market, prices: Prices, maximize: bool): int {
    OrZero(BorrowingFeesForPool(cfg, m, prices))
    - OrZero(Pnl(m, prices.index, true, !maximize)) - OrZero(Pnl(m, prices.index, false, !maximize))
    - OrZero(ImpactPoolValue(cfg, m, prices, !maximize))
  }

  /** The pool value is its tokens, what does not depend on them, and what the caps withhold. */
  lemma PoolValueSplits(cfg: Config, m: Market, prices: Prices, kind: PnlKind, maximize: bool)
    requires PoolValue(cfg, m, prices, kind, maximize).Some?
    ensures PoolValue(cfg, m, prices, kind, maximize).value
            == ValueAt(m.primary, prices, maximize) + Rest(cfg, m, prices, maximize)
               + WithheldInAll(cfg, m, prices, kind, maximize)
    ensures CappedPnl(cfg, m, prices, true, SideValue(m, prices, true, maximize), kind, !maximize).Some?
    ensures CappedPnl(cfg, m, prices, false, SideValue(m, prices, false, maximize), kind, !maximize).Some?
  {
    hide PoolValue, BorrowingFeesForPool, CappedPnl, ImpactPoolValue, Pnl;
    PoolValueParts(cfg, m, prices, kind, maximize);
  }

  lemma RestChanges(cfg: Config, a: Market, b: Market, prices: Prices, maximize: bool)
    requires OnlyLiquidityDiffers(a, b)
    ensures Rest(cfg, b, prices, maximize) == Rest(cfg, a, prices, maximize) - FeesLost(cfg, a, b, prices)
  {
    hide BorrowingFeesForPool, ProfitFrom, CheckedMul;
  }

  lemma WithheldNonNegative(cfg: Config, m: Market, prices: Prices, isLong: bool, kind: PnlKind, maximize: bool)
    requires CappedPnl(cfg, m, prices, isLong, SideValue(m, prices, isLong, maximize), kind, !maximize).Some?
    ensures Withheld(cfg, m, prices, isLong, kind, maximize) >= 0
    ensures BelowCap(cfg, m, prices, isLong, kind, maximize) ==> Withheld(cfg, m, prices, isLong, kind, maximize) == 0
  {
    hide Pnl, CapPnl, SideValue;
    CapOnlyReduces(cfg, isLong, Pnl(m, prices.index, isLong, !maximize).value, SideValue(m, prices, isLong, maximize),
                   kind);
  }

  lemma CapGrows(cfg: Config, isLong: bool, pnl: int, less: nat, more: nat, kind: PnlKind)
    requires less <= more && CapPnl(cfg, isLong, pnl, less, kind).Some? && CapPnl(cfg, isLong, pnl, more, kind).Some?
    ensures CapPnl(cfg, isLong, pnl, less, kind).value <= CapPnl(cfg, isLong, pnl, more, kind).value
  {
    hide CapPnl, Config.MaxPnlFactor;
    CapPnlExact(cfg, isLong, pnl, less, kind);
    CapPnlExact(cfg, isLong, pnl, more, kind);
    MulMono(less, more, cfg.MaxPnlFactor(kind, isLong));
    FloorMono(less * cfg.MaxPnlFactor(kind, isLong), more * cfg.MaxPnlFactor(kind, isLong), UNIT);
  }

  /** The less liquidity, the more the caps withhold. */
  lemma WithheldGrows(cfg: Config, a: Market, b: Market, prices: Prices, isLong: bool, kind: PnlKind, maximize: bool)
    requires OnlyLiquidityDiffers(a, b) && b.primary.Amount(isLong) <= a.primary.Amount(isLong)
    requires CappedPnl(cfg, a, prices, isLong, SideValue(a, prices, isLong, maximize), kind, !maximize).Some?
    requires CappedPnl(cfg, b, prices, isLong, SideValue(b, prices, isLong, maximize), kind, !maximize).Some?
    ensures Withheld(cfg, a, prices, isLong, kind, maximize) <= Withheld(cfg, b, prices, isLong, kind, maximize)
  {
    hide ProfitFrom, CapPnl;
    MulMono(b.primary.Amount(isLong), a.primary.Amount(isLong), prices.Collateral(isLong).PickPrice(maximize));
    CapGrows(cfg, isLong, OrZero(Pnl(a, prices.index, isLong, !maximize)), SideValue(b, prices, isLong, maximize),
             SideValue(a, prices, isLong, maximize), kind);
  }

  lemma DepositChangesLiquidity(
    cfg: Config, m: Market, long: nat, short: nat, prices: Prices, next: Market, r: DepositReport)
    requires Deposit(cfg, m, long, short, prices) == Some((next, r))
    ensures OnlyLiquidityDiffers(m, next) && next.supply == m.supply + r.minted
    ensures m.primary.long <= next.primary.long && m.primary.short <= next.primary.short
    ensures PoolValue(cfg, m, prices, MaxAfterDeposit, true).Some?
    ensures PoolValue(cfg, m, prices, MaxAfterDeposit, true).value >= 0
  {
    hide Deposit, PoolValue;
    DepositConserves(cfg, m, long, short, prices);
    DepositDefined(cfg, m, long, short, prices);
  }

  /** What the deposit adds beyond what it mints for, in units of value times supply: fees, impact and
      rounding. */
  function Slack(poolValue: int, supply: nat, gained: int, minted: nat): int {
    supply * gained - minted * poolValue
  }

  /** The profit that a deposit, by raising the caps, releases to the traders. */
  function Released(cfg: Config, before: Market, after: Market, prices: Prices): int {
    WithheldInAll(cfg, before, prices, MaxAfterDeposit, true) - WithheldInAll(cfg, after, prices, MaxAfterDeposit, true)
  }

  /** The share value is kept exactly when what is lost stays within what the deposit adds beyond what it mints
      for. */
  lemma ShareKeptExactly(before: int, after: int, supply: nat, minted: nat, gained: int, lost: int)
    requires after == before + gained - lost
    ensures after * supply >= before * (supply + minted) <==> supply * lost <= Slack(before, supply, gained, minted)
  {
    assert (before + gained - lost) * supply == before * supply + supply * gained - supply * lost;
    assert before * (supply + minted) == before * supply + minted * before;
  }

  /** A deposit into a market with prior supply and value, with any traders and any impact pool, keeps the value
      of a market token at the maximum prices if and only if the profit that it releases from the caps, with the
      pending fees that it takes away, is covered by its own fees, impact and rounding, which are never negative.
      With less than one unit per market token of those, it does so if and only if it loses nothing. Both tokens of
      a two-sided deposit are priced against the same supply and pool value. */
  lemma DepositShareValueExactly(
    cfg: Config, m: Market, long: nat, short: nat, prices: Prices, next: Market, r: DepositReport, before: int,
    after: int)
    requires m.supply > 0 && prices.IsOrdered()
    requires Deposit(cfg, m, long, short, prices) == Some((next, r))
    requires PoolValue(cfg, m, prices, MaxAfterDeposit, true) == Some(before) && before > 0
    requires PoolValue(cfg, next, prices, MaxAfterDeposit, true) == Some(after)
    ensures var gained := ValueAt(next.primary, prices, true) - ValueAt(m.primary, prices, true);
            var slack := Slack(before, m.supply, gained, r.minted);
            var released, feesLost := Released(cfg, m, next, prices), FeesLost(cfg, m, next, prices);
            && 0 <= slack && 0 <= released
            && (NothingAccruing(m) ==> feesLost == 0)
            && (after * m.supply >= before * next.supply <==> m.supply * (released + feesLost) <= slack)
            && (slack < m.supply ==> (after * m.supply >= before * next.supply <==> released + feesLost <= 0))
  {
    hide Deposit, PoolValue, ValueAt, Rest, Withheld, OnlyLiquidityDiffers, NothingAccruing, BorrowingFeesForPool,
      CappedPnl, SideValue, FeesLost;
    DepositChangesLiquidity(cfg, m, long, short, prices, next, r);
    DepositValue(cfg, m, long, short, prices);
    FeesDefined(cfg, m, prices, MaxAfterDeposit, true);
    FeesDefined(cfg, next, prices, MaxAfterDeposit, true);
    PoolValueSplits(cfg, m, prices, MaxAfterDeposit, true);
    PoolValueSplits(cfg, next, prices, MaxAfterDeposit, true);
    RestChanges(cfg, m, next, prices, true);
    if NothingAccruing(m) {
      NoFeesLost(cfg, m, next, prices);
    }
    SameBothWays(m, next);
    WithheldGrows(cfg, next, m, prices, true, MaxAfterDeposit, true);
    WithheldGrows(cfg, next, m, prices, false, MaxAfterDeposit, true);
    var gained := ValueAt(next.primary, prices, true) - ValueAt(m.primary, prices, true);
    var lost := Released(cfg, m, next, prices) + FeesLost(cfg, m, next, prices);
    ShareKeptExactly(before, after, m.supply, r.minted, gained, lost);
    LossWithin(m.supply, lost, Slack(before, m.supply, gained, r.minted));
  }

  lemma LossWithin(supply: nat, lost: int, slack: int)
    ensures 0 <= slack < supply ==> (supply * lost <= slack <==> lost <= 0)
  {
    if lost >= 1 {
      MulMono(1, lost, supply);
    } else {
      MulNonNeg(supply, -lost);
    }
  }

  lemma FeesDefined(cfg: Config, m: Market, prices: Prices, kind: PnlKind, maximize: bool)
    requires PoolValue(cfg, m, prices, kind, maximize).Some?
    ensures BorrowingFeesForPool(cfg, m, prices).Some?
  {
    hide BorrowingFeesForPool, CappedPnl, ImpactPoolValue;
  }

  /** With both sides below their caps and no pending fees to lose before, a deposit never lowers the value of a
      market token. */
  lemma DepositKeepsShareValue(
    cfg: Config, m: Market, long: nat, short: nat, prices: Prices, next: Market, r: DepositReport, before: int,
    after: int)
    requires m.supply > 0 && prices.IsOrdered() && NoFeesToLose(cfg, m, prices)
    requires Deposit(cfg, m, long, short, prices) == Some((next, r))
    requires PoolValue(cfg, m, prices, MaxAfterDeposit, true) == Some(before) && before > 0
    requires PoolValue(cfg, next, prices, MaxAfterDeposit, true) == Some(after)
    requires BothBelowCap(cfg, m, prices, MaxAfterDeposit, true)
    ensures after * m.supply >= before * next.supply
  {
    hide Deposit, PoolValue, FeesLost, BothBelowCap, NoFeesToLose, OnlyLiquidityDiffers;
    DepositChangesLiquidity(cfg, m, long, short, prices, next, r);
    FeesDefined(cfg, m, prices, MaxAfterDeposit, true);
    FeesDefined(cfg, next, prices, MaxAfterDeposit, true);
    FeesLostWithin(cfg, m, next, prices);
    DepositLosingNoFees(cfg, m, long, short, prices, next, r, before, after);
  }

  lemma DepositLosingNoFees(
    cfg: Config, m: Market, long: nat, short: nat, prices: Prices, next: Market, r: DepositReport, before: int,
    after: int)
    requires m.supply > 0 && prices.IsOrdered() && FeesLost(cfg, m, next, prices) <= 0
    requires Deposit(cfg, m, long, short, prices) == Some((next, r))
    requires PoolValue(cfg, m, prices, MaxAfterDeposit, true) == Some(before) && before > 0
    requires PoolValue(cfg, next, prices, MaxAfterDeposit, true) == Some(after)
    requires BothBelowCap(cfg, m, prices, MaxAfterDeposit, true)
    ensures after * m.supply >= before * next.supply
  {
    hide Deposit, PoolValue, ValueAt, NothingAccruing, Slack, BothBelowCap, FeesLost, Released;
    DepositShareValueExactly(cfg, m, long, short, prices, next, r, before, after);
    NothingReleased(cfg, m, next, prices);
    var gained := ValueAt(next.primary, prices, true) - ValueAt(m.primary, prices, true);
    NothingLost(m.supply, Released(cfg, m, next, prices) + FeesLost(cfg, m, next, prices),
                Slack(before, m.supply, gained, r.minted));
  }

  /** Whatever the caps and the pending fees, what a deposit takes from the value of a market token is bounded by the
      state before it: by the profit that the caps withhold and by the pending fees of the pool. */
  lemma DepositLosesAtMost(
    cfg: Config, m: Market, long: nat, short: nat, prices: Prices, next: Market, r: DepositReport, before: int,
    after: int)
    requires m.supply > 0 && prices.IsOrdered()
    requires Deposit(cfg, m, long, short, prices) == Some((next, r))
    requires PoolValue(cfg, m, prices, MaxAfterDeposit, true) == Some(before) && before > 0
    requires PoolValue(cfg, next, prices, MaxAfterDeposit, true) == Some(after)
    ensures BorrowingFeesForPool(cfg, m, prices).Some?
    ensures var withheld := WithheldInAll(cfg, m, prices, MaxAfterDeposit, true);
            var pending := BorrowingFeesForPool(cfg, m, prices).value;
            0 <= withheld && 0 <= pending && (after + withheld + pending) * m.supply >= before * next.supply
  {
    hide Deposit, PoolValue, ValueAt, Slack, FeesLost, NothingAccruing, Withheld, OnlyLiquidityDiffers,
      BorrowingFeesForPool, CappedPnl, SideValue;
    DepositChangesLiquidity(cfg, m, long, short, prices, next, r);
    FeesDefined(cfg, m, prices, MaxAfterDeposit, true);
    FeesDefined(cfg, next, prices, MaxAfterDeposit, true);
    FeesLostWithin(cfg, m, next, prices);
    WithheldDefined(cfg, m, prices);
    WithheldDefined(cfg, next, prices);
    DepositShareValueExactly(cfg, m, long, short, prices, next, r, before, after);
    var gained := ValueAt(next.primary, prices, true) - ValueAt(m.primary, prices, true);
    var released, lost := Released(cfg, m, next, prices), FeesLost(cfg, m, next, prices);
    PoolValueSplits(cfg, m, prices, MaxAfterDeposit, true);
    PoolValueSplits(cfg, next, prices, MaxAfterDeposit, true);
    RestChanges(cfg, m, next, prices, true);
    ShareKeptUpTo(before, after, m.supply, r.minted, gained, released + lost,
                  WithheldInAll(cfg, m, prices, MaxAfterDeposit, true) + BorrowingFeesForPool(cfg, m, prices).value);
  }

  lemma WithheldDefined(cfg: Config, m: Market, prices: Prices)
    requires PoolValue(cfg, m, prices, MaxAfterDeposit, true).Some?
    ensures WithheldInAll(cfg, m, prices, MaxAfterDeposit, true) >= 0
  {
    hide PoolValue, ValueAt, Rest, Withheld, CappedPnl, SideValue;
    PoolValueSplits(cfg, m, prices, MaxAfterDeposit, true);
    WithheldNonNegative(cfg, m, prices, true, MaxAfterDeposit, true);
    WithheldNonNegative(cfg, m, prices, false, MaxAfterDeposit, true);
  }

  lemma ShareKeptUpTo(before: int, after: int, supply: nat, minted: nat, gained: int, lost: int, limit: int)
    requires after == before + gained - lost && lost <= limit && Slack(before, supply, gained, minted) >= 0
    ensures (after + limit) * supply >= before * (supply + minted)
  {
    MulMono(before + gained, after + limit, supply);
    assert (before + gained) * supply == before * supply + supply * gained;
    assert before * (supply + minted) == before * supply + minted * before;
  }

  lemma NothingLost(supply: nat, lost: int, slack: int)
    requires lost <= 0 <= slack
    ensures supply * lost <= slack
  {
    MulNonNeg(supply, -lost);
  }

  /** Caps that withhold nothing release nothing. */
  lemma NothingReleased(cfg: Config, before: Market, after: Market, prices: Prices)
    requires PoolValue(cfg, before, prices, MaxAfterDeposit, true).Some?
    requires PoolValue(cfg, after, prices, MaxAfterDeposit, true).Some?
    requires BothBelowCap(cfg, before, prices, MaxAfterDeposit, true)
    ensures Released(cfg, before, after, prices) <= 0
  {
    hide PoolValue, ValueAt, Rest, Withheld, CappedPnl, SideValue, BelowCap;
    PoolValueSplits(cfg, before, prices, MaxAfterDeposit, true);
    PoolValueSplits(cfg, after, prices, MaxAfterDeposit, true);
    WithheldNonNegative(cfg, before, prices, true, MaxAfterDeposit, true);
    WithheldNonNegative(cfg, before, prices, false, MaxAfterDeposit, true);
    WithheldNonNegative(cfg, after, prices, true, MaxAfterDeposit, true);
    WithheldNonNegative(cfg, after, prices, false, MaxAfterDeposit, true);
  }

  /** A deposit checks the profits against the caps first. So what the cap of a side that has liquidity can
      withhold before it, and hence release, is one unit more than a rounding of the side's value to whole
      units, at most. */
  lemma CheckedWithholdsLittle(cfg: Config, m: Market, prices: Prices, isLong: bool, kind: PnlKind, maximize: bool)
    requires prices.IsOrdered() && PnlFactorOk(cfg, m, prices, kind, isLong).Some?
    requires SideValue(m, prices, isLong, false) != 0
    requires CappedPnl(cfg, m, prices, isLong, SideValue(m, prices, isLong, maximize), kind, !maximize).Some?
    ensures (Withheld(cfg, m, prices, isLong, kind, maximize) - 1) * UNIT < SideValue(m, prices, isLong, false)
  {
    hide Pnl, CapPnl, Config.MaxPnlFactor, DivToFactorSigned;
    var poolValue, used := SideValue(m, prices, isLong, false), SideValue(m, prices, isLong, maximize);
    var pnl := Pnl(m, prices.index, isLong, !maximize).value;
    var checked := Pnl(m, prices.index, isLong, true).value;
    MaxPnlChecked(cfg, m, prices, kind, isLong, checked, poolValue);
    if maximize {
      PnlSpread(m, prices.index, isLong);
    }
    MulMono(prices.Collateral(isLong).min, prices.Collateral(isLong).PickPrice(maximize), m.primary.Amount(isLong));
    CapPnlExact(cfg, isLong, pnl, used, kind);
    LittleArith(pnl, checked, poolValue, used, cfg.MaxPnlFactor(kind, isLong));
  }

  lemma LittleArith(pnl: int, checked: int, poolValue: nat, used: nat, factor: nat)
    requires pnl <= checked && poolValue <= used && 0 < poolValue
    requires checked * UNIT < (factor + 1) * poolValue
    ensures var capped := if pnl > 0 then Min(pnl, used * factor / UNIT) else pnl;
            (pnl - capped - 1) * UNIT < poolValue
  {
    var cap := used * factor / UNIT;
    FloorBounds(used * factor, UNIT);
    MulMono(poolValue, used, factor);
    MulMono(pnl, checked, UNIT);
    assert (factor + 1) * poolValue == poolValue * factor + poolValue;
    assert (pnl - cap - 1) * UNIT == pnl * UNIT - cap * UNIT - UNIT;
  }

  /** A withdrawal, with any traders and any impact pool, never lowers the value of the market tokens that remain, at
      the minimum prices: less liquidity only lowers the caps and raises the pending fees. Only where the reserve of
      the kink model rounds to nothing afterwards, and fees are accruing, it may. */
  lemma WithdrawKeepsShareValue(
    cfg: Config, m: Market, amount: nat, prices: Prices, next: Market, r: WithdrawReport, before: int, after: int)
    requires prices.IsOrdered() && FeesFollowLiquidity(cfg, next, prices)
    requires Withdraw(cfg, m, amount, prices) == Some((next, r))
    requires PoolValue(cfg, m, prices, MaxAfterWithdrawal, false) == Some(before)
    requires PoolValue(cfg, next, prices, MaxAfterWithdrawal, false) == Some(after)
    ensures after * m.supply >= before * next.supply
  {
    hide Withdraw, PoolValue, OutputAmounts, FeesFollowLiquidity, FeesLost, OnlyLiquidityDiffers;
    WithdrawChangesLiquidity(cfg, m, amount, prices, next, r);
    FeesDefined(cfg, m, prices, MaxAfterWithdrawal, false);
    FeesDefined(cfg, next, prices, MaxAfterWithdrawal, false);
    LessLiquidityLosesNoFees(cfg, m, next, prices);
    WithdrawLosingFees(cfg, m, amount, prices, next, r, before, after, 0);
  }

  /** Without any condition on the reserve, a withdrawal takes from the value of the market tokens that remain at most
      the pending fees of the pool before it. */
  lemma WithdrawLosesAtMost(
    cfg: Config, m: Market, amount: nat, prices: Prices, next: Market, r: WithdrawReport, before: int, after: int)
    requires prices.IsOrdered() && Withdraw(cfg, m, amount, prices) == Some((next, r))
    requires PoolValue(cfg, m, prices, MaxAfterWithdrawal, false) == Some(before)
    requires PoolValue(cfg, next, prices, MaxAfterWithdrawal, false) == Some(after)
    ensures BorrowingFeesForPool(cfg, m, prices).Some?
    ensures var pending := BorrowingFeesForPool(cfg, m, prices).value;
            0 <= pending && (after + pending) * m.supply >= before * next.supply
  {
    hide Withdraw, PoolValue, OutputAmounts, FeesLost, OnlyLiquidityDiffers, BorrowingFeesForPool;
    WithdrawChangesLiquidity(cfg, m, amount, prices, next, r);
    FeesDefined(cfg, m, prices, MaxAfterWithdrawal, false);
    FeesDefined(cfg, next, prices, MaxAfterWithdrawal, false);
    FeesLostWithin(cfg, m, next, prices);
    WithdrawLosingFees(cfg, m, amount, prices, next, r, before, after, BorrowingFeesForPool(cfg, m, prices).value);
  }

  lemma WithdrawLosingFees(
    cfg: Config, m: Market, amount: nat, prices: Prices, next: Market, r: WithdrawReport, before: int, after: int,
    lost: nat)
    requires prices.IsOrdered() && FeesLost(cfg, m, next, prices) <= lost
    requires Withdraw(cfg, m, amount, prices) == Some((next, r))
    requires PoolValue(cfg, m, prices, MaxAfterWithdrawal, false) == Some(before)
    requires PoolValue(cfg, next, prices, MaxAfterWithdrawal, false) == Some(after)
    ensures (after + lost) * m.supply >= before * next.supply
  {
    hide Withdraw, OutputAmounts, TokensToUsd, PoolValue, ValueAt, Rest, Withheld, OnlyLiquidityDiffers,
      BorrowingFeesForPool, CappedPnl, SideValue, FeesLost;
    WithdrawChangesLiquidity(cfg, m, amount, prices, next, r);
    WithdrawLosesWithin(cfg, m, amount, prices, next, r);
    PoolValueSplits(cfg, m, prices, MaxAfterWithdrawal, false);
    PoolValueSplits(cfg, next, prices, MaxAfterWithdrawal, false);
    RestChanges(cfg, m, next, prices, false);
    WithheldGrows(cfg, m, next, prices, true, MaxAfterWithdrawal, false);
    WithheldGrows(cfg, m, next, prices, false, MaxAfterWithdrawal, false);
    OutputWithinShare(cfg, m, amount, prices);
    ShareKept(before, after + lost, m.supply, amount, TokensToUsd(cfg, m, amount, prices).value);
  }

  lemma WithdrawChangesLiquidity(cfg: Config, m: Market, amount: nat, prices: Prices, next: Market, r: WithdrawReport)
    requires Withdraw(cfg, m, amount, prices) == Some((next, r))
    ensures OnlyLiquidityDiffers(m, next) && next.supply == m.supply - amount
    ensures next.primary.long <= m.primary.long && next.primary.short <= m.primary.short
    ensures OutputAmounts(cfg, m, amount, prices).Some?
  {
    hide OutputAmounts, WithdrawOne, ValidateWithdrawal;
    var outputs := OutputAmounts(cfg, m, amount, prices).value;
    WithdrawOneMovesTokens(cfg, m, true, outputs.0);
    WithdrawOneMovesTokens(cfg, WithdrawOne(cfg, m, true, outputs.0).value.0, false, outputs.1);
  }

  /** What leaves the pool is worth at most the value that is withdrawn. */
  lemma WithdrawLosesWithin(cfg: Config, m: Market, amount: nat, prices: Prices, next: Market, r: WithdrawReport)
    requires prices.IsOrdered() && Withdraw(cfg, m, amount, prices) == Some((next, r))
    ensures OutputAmounts(cfg, m, amount, prices).Some? && TokensToUsd(cfg, m, amount, prices).Some?
    ensures ValueAt(m.primary, prices, false) - ValueAt(next.primary, prices, false)
            <= TokensToUsd(cfg, m, amount, prices).value
  {
    hide Withdraw, OutputAmounts, TokensToUsd, PoolValue;
    WithdrawDefined(cfg, m, amount, prices);
    WithdrawLeaves(cfg, m, amount, prices);
    OutputWithinShare(cfg, m, amount, prices);
    var (long, short) := OutputAmounts(cfg, m, amount, prices).value;
    ValueMono(long, short, m.primary.long - next.primary.long, m.primary.short - next.primary.short, prices);
    ValueOfGain(m.primary, next.primary, prices, true, false);
  }

  lemma ShareKept(before: int, after: int, supply: nat, amount: nat, value: nat)
    requires before - after <= value && value * supply <= before * amount
    ensures after * supply >= before * (supply - amount)
  {
    MulMono(before - after, value, supply);
    assert (before - after) * supply == before * supply - after * supply;
    assert before * (supply - amount) == before * supply - before * amount;
  }

  /** What does not depend on the liquidity counts for at least as much at the maximum as at the minimum. */
  lemma RestSpread(cfg: Config, m: Market, prices: Prices)
    requires prices.IsOrdered()
    requires Pnl(m, prices.index, true, true).Some? && Pnl(m, prices.index, true, false).Some?
    requires Pnl(m, prices.index, false, true).Some? && Pnl(m, prices.index, false, false).Some?
    requires ImpactPoolValue(cfg, m, prices, true).Some? && ImpactPoolValue(cfg, m, prices, false).Some?
    ensures Rest(cfg, m, prices, false) <= Rest(cfg, m, prices, true)
  {
    hide Pnl, ImpactPoolValue, BorrowingFeesForPool;
    PnlSpread(m, prices.index, true);
    PnlSpread(m, prices.index, false);
    ImpactSpread(cfg, m, prices);
  }

  /** The parts of a pool value that the spread compares. */
  lemma PartsDefined(cfg: Config, m: Market, prices: Prices, kind: PnlKind, maximize: bool)
    requires PoolValue(cfg, m, prices, kind, maximize).Some?
    ensures Pnl(m, prices.index, true, !maximize).Some? && Pnl(m, prices.index, false, !maximize).Some?
    ensures ImpactPoolValue(cfg, m, prices, !maximize).Some?
  {
    hide PoolValue, BorrowingFeesForPool, ImpactPoolValue, Pnl, SideValue;
    PoolValueParts(cfg, m, prices, kind, maximize);
  }

  lemma PnlSame(a: Market, b: Market, index: Price, isLong: bool, maximize: bool)
    requires OnlyLiquidityDiffers(a, b)
    ensures Pnl(a, index, isLong, maximize) == Pnl(b, index, isLong, maximize)
  {
    hide ProfitFrom;
  }

  lemma ImpactSame(cfg: Config, a: Market, b: Market, prices: Prices, maximize: bool)
    requires OnlyLiquidityDiffers(a, b)
    ensures ImpactPoolValue(cfg, a, prices, maximize) == ImpactPoolValue(cfg, b, prices, maximize)
  {
    hide CheckedMul;
  }

  /** After a deposit the pool is worth for a withdrawal at most what it was worth for the deposit, with the most
      that the deposit can be credited for and what the caps then withhold. */
  lemma ValueAfterDeposit(
    cfg: Config, m: Market, long: nat, short: nat, prices: Prices, next: Market, r: DepositReport, before: int,
    after: int)
    requires m.supply > 0 && prices.IsOrdered() && FeesFollowLiquidity(cfg, m, prices)
    requires Deposit(cfg, m, long, short, prices) == Some((next, r))
    requires PoolValue(cfg, m, prices, MaxAfterDeposit, true) == Some(before) && before > 0
    requires PoolValue(cfg, next, prices, MaxAfterWithdrawal, false) == Some(after)
    ensures after <= before + DepositLimit(prices, long, short, r.impact)
                     + WithheldInAll(cfg, next, prices, MaxAfterWithdrawal, false)
    ensures MintedWithin(r.minted, before, m.supply, DepositLimit(prices, long, short, r.impact))
    ensures next.supply == m.supply + r.minted
  {
    hide Deposit, PoolValue, FeesLost, ValueAt, Rest, Withheld, OnlyLiquidityDiffers, FeesFollowLiquidity,
      BorrowingFeesForPool, CappedPnl, SideValue, DepositLimit, MintedWithin, Pnl, ImpactPoolValue;
    DepositChangesLiquidity(cfg, m, long, short, prices, next, r);
    DepositValue(cfg, m, long, short, prices);
    FeesDefined(cfg, m, prices, MaxAfterDeposit, true);
    FeesDefined(cfg, next, prices, MaxAfterWithdrawal, false);
    PartsDefined(cfg, m, prices, MaxAfterDeposit, true);
    PartsDefined(cfg, next, prices, MaxAfterWithdrawal, false);
    PnlSame(m, next, prices.index, true, true);
    PnlSame(m, next, prices.index, false, true);
    ImpactSame(cfg, m, next, prices, true);
    RestSpread(cfg, m, prices);
    RestChanges(cfg, m, next, prices, false);
    MoreLiquidityGainsNoFees(cfg, m, next, prices);
    PoolValueSplits(cfg, m, prices, MaxAfterDeposit, true);
    PoolValueSplits(cfg, next, prices, MaxAfterWithdrawal, false);
    WithheldNonNegative(cfg, m, prices, true, MaxAfterDeposit, true);
    WithheldNonNegative(cfg, m, prices, false, MaxAfterDeposit, true);
    MinBelowMax(m.primary, prices);
  }

  /** Depositing and at once withdrawing exactly the minted tokens, at the same prices and with any traders and
      impact pool, returns tokens worth at the maximum prices no more than the deposit was worth at the minimum
      prices plus the signed price impact, except for what the caps for withdrawals withhold after the deposit:
      nothing if neither side is above its cap. */
  lemma DepositThenWithdrawGainsNothing(
    cfg: Config, m: Market, long: nat, short: nat, prices: Prices, next: Market, r: DepositReport, end: Market,
    w: WithdrawReport)
    requires m.supply > 0 && prices.IsOrdered() && FeesFollowLiquidity(cfg, m, prices)
    requires Deposit(cfg, m, long, short, prices) == Some((next, r))
    requires PoolValue(cfg, m, prices, MaxAfterDeposit, true).value > 0
    requires Withdraw(cfg, next, r.minted, prices) == Some((end, w))
    ensures var withheld := WithheldInAll(cfg, next, prices, MaxAfterWithdrawal, false);
            var outputs := ValueAt(Pool(w.longOutput, w.shortOutput), prices, true);
            var limit := DepositLimit(prices, long, short, r.impact);
            && 0 <= withheld
            && outputs <= limit + withheld
            && (BothBelowCap(cfg, next, prices, MaxAfterWithdrawal, false) ==> outputs <= limit)
  {
    hide Deposit, Withdraw, FeesLost, OutputAmounts, TokensToUsd, PoolValue, ValueAt, MintedWithin, DepositLimit,
      FeesFollowLiquidity, Withheld, BelowCap, CappedPnl, SideValue;
    WithdrawDefined(cfg, next, r.minted, prices);
    WithdrawLeaves(cfg, next, r.minted, prices);
    OutputWithinShare(cfg, next, r.minted, prices);
    DepositDefined(cfg, m, long, short, prices);
    var before := PoolValue(cfg, m, prices, MaxAfterDeposit, true).value;
    var after := PoolValue(cfg, next, prices, MaxAfterWithdrawal, false).value;
    ValueAfterDeposit(cfg, m, long, short, prices, next, r, before, after);
    PoolValueSplits(cfg, next, prices, MaxAfterWithdrawal, false);
    WithheldNonNegative(cfg, next, prices, true, MaxAfterWithdrawal, false);
    WithheldNonNegative(cfg, next, prices, false, MaxAfterWithdrawal, false);
    var (outLong, outShort) := OutputAmounts(cfg, next, r.minted, prices).value;
    OutputValue(w.longOutput, w.shortOutput, outLong, outShort, prices);
    RoundTripArith(before, after, m.supply, r.minted, DepositLimit(prices, long, short, r.impact),
                   TokensToUsd(cfg, next, r.minted, prices).value,
                   WithheldInAll(cfg, next, prices, MaxAfterWithdrawal, false));
  }

  lemma RoundTripArith(before: nat, after: int, supply: nat, minted: nat, limit: int, value: nat, withheld: nat)
    requires supply > 0
    requires after <= before + limit + withheld
    requires MintedWithin(minted, before, supply, limit)
    requires value * (supply + minted) <= after * minted
    ensures value <= limit + withheld
  {
    MulMono(after, before + limit + withheld, minted);
    assert (before + limit + withheld) * minted == minted * before + limit * minted + withheld * minted;
    assert (limit + withheld) * (supply + minted)
           == supply * limit + limit * minted + withheld * supply + withheld * minted;
    MulNonNeg(withheld, supply);
    MulCancel(value, limit + withheld, supply + minted);
  }

  /** A withdrawal checks the profits against the caps at its end, when they are lowest. So what the caps of a
      side with liquidity left withhold in between is at most one unit more than a rounding as well. */
  lemma RoundTripWithholdsLittle(
    cfg: Config, m: Market, amount: nat, prices: Prices, next: Market, r: WithdrawReport, isLong: bool)
    requires prices.IsOrdered() && Withdraw(cfg, m, amount, prices) == Some((next, r))
    requires SideValue(next, prices, isLong, false) != 0
    requires CappedPnl(cfg, m, prices, isLong, SideValue(m, prices, isLong, false), MaxAfterWithdrawal, true).Some?
    requires CappedPnl(cfg, next, prices, isLong, SideValue(next, prices, isLong, false), MaxAfterWithdrawal,
                       true).Some?
    ensures (Withheld(cfg, m, prices, isLong, MaxAfterWithdrawal, false) - 1) * UNIT
            < SideValue(next, prices, isLong, false)
  {
    hide Withdraw, SideValue, CappedPnl, Withheld, OnlyLiquidityDiffers, PnlFactorOk;
    WithdrawChangesLiquidity(cfg, m, amount, prices, next, r);
    WithdrawChecksPnl(cfg, m, amount, prices, next, r, isLong);
    WithheldGrows(cfg, m, next, prices, isLong, MaxAfterWithdrawal, false);
    CheckedWithholdsLittle(cfg, next, prices, isLong, MaxAfterWithdrawal, false);
    MulMono(Withheld(cfg, m, prices, isLong, MaxAfterWithdrawal, false) - 1,
            Withheld(cfg, next, prices, isLong, MaxAfterWithdrawal, false) - 1, UNIT);
  }

  lemma WithdrawChecksPnl(
    cfg: Config, m: Market, amount: nat, prices: Prices, next: Market, r: WithdrawReport, isLong: bool)
    requires Withdraw(cfg, m, amount, prices) == Some((next, r))
    ensures PnlFactorOk(cfg, next, prices, MaxAfterWithdrawal, isLong).Some?
  {
    hide OutputAmounts, WithdrawOne, ValidateReserve, PnlFactorOk;
    var outputs := OutputAmounts(cfg, m, amount, prices).value;
    var left := WithdrawOne(cfg, WithdrawOne(cfg, m, true, outputs.0).value.0, false, outputs.1).value.0;
    PnlCheckFrame(cfg, left, next, prices, MaxAfterWithdrawal, isLong);
  }

  lemma PnlCheckFrame(cfg: Config, a: Market, b: Market, prices: Prices, kind: PnlKind, isLong: bool)
    requires b == a.(supply := b.supply)
    ensures PnlFactorOk(cfg, a, prices, kind, isLong) == PnlFactorOk(cfg, b, prices, kind, isLong)
  {
    hide ProfitFrom, DivToFactorSigned, CheckedMul;
  }

  /** A larger value per token gives at least the same rounded price. */
  lemma PriceMono(value: nat, supply: nat, nextValue: nat, nextSupply: nat, one: nat)
    requires supply > 0 && nextSupply > 0 && nextValue * supply >= value * nextSupply
    ensures value * one / supply <= nextValue * one / nextSupply
  {
    hide *;
    var q := value * one / supply;
    FloorBounds(value * one, supply);
    MulMono(q * supply, value * one, nextSupply);
    MulMono(value * nextSupply, nextValue * supply, one);
    assert value * one * nextSupply == value * nextSupply * one;
    assert nextValue * supply * one == nextValue * one * supply;
    assert q * supply * nextSupply == q * nextSupply * supply;
    MulCancel(q * nextSupply, nextValue * one, supply);
    FloorGreatest(q, nextValue * one, nextSupply);
  }

  lemma TokenPriceMono(
    cfg: Config, a: Market, b: Market, prices: Prices, kind: PnlKind, maximize: bool, before: int, after: int)
    requires a.supply > 0 && b.supply > 0
    requires PoolValue(cfg, a, prices, kind, maximize) == Some(before)
    requires PoolValue(cfg, b, prices, kind, maximize) == Some(after)
    requires MarketTokenPrice(cfg, a, prices, kind, maximize).Some?
    requires MarketTokenPrice(cfg, b, prices, kind, maximize).Some?
    requires after * a.supply >= before * b.supply
    ensures MarketTokenPrice(cfg, a, prices, kind, maximize).value
            <= MarketTokenPrice(cfg, b, prices, kind, maximize).value
  {
    hide PoolValue;
    var one := CheckedDiv(UNIT, cfg.usdToAmountDivisor).value;
    PriceMono(before, a.supply, after, b.supply, one);
  }

  /** So the price of a market token never falls through a deposit below the caps and with no pending fees to lose, at
      the maximum prices. */
  lemma DepositKeepsTokenPrice(
    cfg: Config, m: Market, long: nat, short: nat, prices: Prices, next: Market, r: DepositReport)
    requires m.supply > 0 && prices.IsOrdered() && NoFeesToLose(cfg, m, prices)
    requires Deposit(cfg, m, long, short, prices) == Some((next, r))
    requires PoolValue(cfg, m, prices, MaxAfterDeposit, true).value > 0
    requires BothBelowCap(cfg, m, prices, MaxAfterDeposit, true)
    requires MarketTokenPrice(cfg, m, prices, MaxAfterDeposit, true).Some?
    requires MarketTokenPrice(cfg, next, prices, MaxAfterDeposit, true).Some?
    ensures MarketTokenPrice(cfg, m, prices, MaxAfterDeposit, true).value
            <= MarketTokenPrice(cfg, next, prices, MaxAfterDeposit, true).value
  {
    hide Deposit, PoolValue, NoFeesToLose, BothBelowCap, OnlyLiquidityDiffers;
    DepositChangesLiquidity(cfg, m, long, short, prices, next, r);
    var before := PoolValue(cfg, m, prices, MaxAfterDeposit, true).value;
    var after := PoolValue(cfg, next, prices, MaxAfterDeposit, true).value;
    DepositKeepsShareValue(cfg, m, long, short, prices, next, r, before, after);
    TokenPriceMono(cfg, m, next, prices, MaxAfterDeposit, true, before, after);
  }

  /** Nor through a withdrawal that leaves some supply, at the minimum prices, as long as the reserve is measured. */
  lemma WithdrawKeepsTokenPrice(cfg: Config, m: Market, amount: nat, prices: Prices, next: Market, r: WithdrawReport)
    requires prices.IsOrdered() && FeesFollowLiquidity(cfg, next, prices)
    requires Withdraw(cfg, m, amount, prices) == Some((next, r)) && next.supply > 0
    requires MarketTokenPrice(cfg, m, prices, MaxAfterWithdrawal, false).Some?
    requires MarketTokenPrice(cfg, next, prices, MaxAfterWithdrawal, false).Some?
    ensures MarketTokenPrice(cfg, m, prices, MaxAfterWithdrawal, false).value
            <= MarketTokenPrice(cfg, next, prices, MaxAfterWithdrawal, false).value
  {
    hide Withdraw, PoolValue, FeesFollowLiquidity, OnlyLiquidityDiffers;
    WithdrawChangesLiquidity(cfg, m, amount, prices, next, r);
    var before := PoolValue(cfg, m, prices, MaxAfterWithdrawal, false).value;
    var after := PoolValue(cfg, next, prices, MaxAfterWithdrawal, false).value;
    WithdrawKeepsShareValue(cfg, m, amount, prices, next, r, before, after);
    TokenPriceMono(cfg, m, next, prices, MaxAfterWithdrawal, false, before, after);
  }
}
