/** The value of the pool if every profit is paid in full, and what the actions do to it per market token. */
module UncappedValue {
  import opened Options
  import opened Arith
  import opened Num
  import opened Utils
  import opened Price
  import opened Pool
  import opened Fees
  import opened Params
  import opened State
  import opened SwapAction
  import opened DepositAction
  import opened WithdrawAction
  import opened FundingAction
  import opened AccrualActions
  import opened LazyAccrual
  import opened PositionState
  import opened IncreaseAction
  import opened IncreaseEffects
  import opened ValueNeutrality
  import opened LiquidityValue
  import opened PoolAccounting
  import opened BorrowingTotals
  import opened KinkModel
  import opened PendingFees
  import opened ShareValue

  /** Borrowing and the distribution of the impact pool are up to date. */
  predicate Settled(m: Market) {
    Passed(m.now, m.clocks.borrowing) == 0 && Passed(m.now, m.clocks.impact) == 0
  }

  /** The tokens of the pool and its pending fees, less the profits of all traders and the impact pool, as the pool is
      valued at its maximum: tokens at the maximum prices, what is owed at its least. */
  function Uncapped(cfg: Config, m: Market, prices: Prices): int {
    ValueAt(m.primary, prices, true) + Rest(cfg, m, prices, true)
  }

  /** All of these can be computed. */
  predicate Valued(cfg: Config, m: Market, prices: Prices) {
    && BorrowingFeesForPool(cfg, m, prices).Some?
    && Pnl(m, prices.index, true, false).Some? && Pnl(m, prices.index, false, false).Some?
    && ImpactPoolValue(cfg, m, prices, false).Some?
  }

  /** The pool value at the maximum prices is at least the uncapped value, and exactly that below the caps. */
  lemma PoolValueIsUncapped(cfg: Config, m: Market, prices: Prices, kind: PnlKind)
    requires PoolValue(cfg, m, prices, kind, true).Some?
    ensures Valued(cfg, m, prices)
    ensures PoolValue(cfg, m, prices, kind, true).value >= Uncapped(cfg, m, prices)
    ensures BothBelowCap(cfg, m, prices, kind, true) ==>
              PoolValue(cfg, m, prices, kind, true).value == Uncapped(cfg, m, prices)
  {
    hide PoolValue, BorrowingFeesForPool, CappedPnl, SideValue, Pnl, ImpactPoolValue, Withheld, BelowCap;
    PoolValueSplits(cfg, m, prices, kind, true);
    PartsDefined(cfg, m, prices, kind, true);
    FeesDefined(cfg, m, prices, kind, true);
    WithheldNonNegative(cfg, m, prices, true, kind, true);
    WithheldNonNegative(cfg, m, prices, false, kind, true);
  }

  /** Below the caps, the pool value at the minimum prices is at most the uncapped value. */
  lemma MinimumWithinUncapped(cfg: Config, m: Market, prices: Prices, kind: PnlKind)
    requires prices.IsOrdered() && Valued(cfg, m, prices)
    requires PoolValue(cfg, m, prices, kind, false).Some? && BothBelowCap(cfg, m, prices, kind, false)
    ensures PoolValue(cfg, m, prices, kind, false).value <= Uncapped(cfg, m, prices)
  {
    hide PoolValue, BorrowingFeesForPool, CappedPnl, SideValue, Pnl, ImpactPoolValue, Withheld, BelowCap, Rest, ValueAt;
    PoolValueSplits(cfg, m, prices, kind, false);
    PartsDefined(cfg, m, prices, kind, false);
    WithheldNonNegative(cfg, m, prices, true, kind, false);
    WithheldNonNegative(cfg, m, prices, false, kind, false);
    RestSpread(cfg, m, prices);
    MinBelowMax(m.primary, prices);
  }

  lemma SupplyMeansValue(
    cfg: Config, m: Market, long: nat, short: nat, prices: Prices, next: Market, r: DepositReport)
    requires m.supply > 0 && Deposit(cfg, m, long, short, prices) == Some((next, r))
    ensures PoolValue(cfg, m, prices, MaxAfterDeposit, true).Some?
    ensures PoolValue(cfg, m, prices, MaxAfterDeposit, true).value > 0
  {
    hide DepositImpact, PoolValue, ImpactShare, SettleImpact, AddLiquidity, FeeParams.ApplyFees, ValidateMaxPnl;
  }

  /** A deposit never lowers the uncapped value of a market token: it mints by the pool value, which is no less. */
  lemma DepositKeepsUncapped(
    cfg: Config, m: Market, long: nat, short: nat, prices: Prices, next: Market, r: DepositReport)
    requires m.supply > 0 && prices.IsOrdered() && Settled(m)
    requires Valued(cfg, m, prices) && Valued(cfg, next, prices)
    requires Deposit(cfg, m, long, short, prices) == Some((next, r))
    ensures Uncapped(cfg, next, prices) * m.supply >= Uncapped(cfg, m, prices) * next.supply
  {
    hide Deposit, PoolValue, ValueAt, Rest, OnlyLiquidityDiffers, BorrowingFeesForPool, FeesLost, Pnl, ImpactPoolValue,
      BothBelowCap;
    SupplyMeansValue(cfg, m, long, short, prices, next, r);
    DepositChangesLiquidity(cfg, m, long, short, prices, next, r);
    DepositValue(cfg, m, long, short, prices);
    PoolValueIsUncapped(cfg, m, prices, MaxAfterDeposit);
    RestChanges(cfg, m, next, prices, true);
    NoFeesLost(cfg, m, next, prices);
    var before := Uncapped(cfg, m, prices);
    var gained := ValueAt(next.primary, prices, true) - ValueAt(m.primary, prices, true);
    MulMono(before, PoolValue(cfg, m, prices, MaxAfterDeposit, true).value, r.minted);
    assert (before + gained) * m.supply == before * m.supply + m.supply * gained;
    assert before * (m.supply + r.minted) == before * m.supply + r.minted * before;
  }

  /** Nor does a withdrawal below the caps. */
  lemma WithdrawKeepsUncapped(cfg: Config, m: Market, amount: nat, prices: Prices, next: Market, r: WithdrawReport)
    requires prices.IsOrdered() && Settled(m) && Valued(cfg, m, prices) && Valued(cfg, next, prices)
    requires Withdraw(cfg, m, amount, prices) == Some((next, r))
    requires BothBelowCap(cfg, m, prices, MaxAfterWithdrawal, false)
    ensures Uncapped(cfg, next, prices) * m.supply >= Uncapped(cfg, m, prices) * next.supply
  {
    hide Withdraw, OutputAmounts, TokensToUsd, PoolValue, Rest, OnlyLiquidityDiffers, BorrowingFeesForPool, FeesLost,
      Pnl, ImpactPoolValue, BothBelowCap;
    WithdrawChangesLiquidity(cfg, m, amount, prices, next, r);
    WithdrawTakesWithin(cfg, m, amount, prices, next, r);
    OutputWithinShare(cfg, m, amount, prices);
    MinimumWithinUncapped(cfg, m, prices, MaxAfterWithdrawal);
    RestChanges(cfg, m, next, prices, true);
    NoFeesLost(cfg, m, next, prices);
    MulMono(PoolValue(cfg, m, prices, MaxAfterWithdrawal, false).value, Uncapped(cfg, m, prices), amount);
    ShareKept(Uncapped(cfg, m, prices), Uncapped(cfg, next, prices), m.supply, amount,
              TokensToUsd(cfg, m, amount, prices).value);
  }

  /** What leaves the pool is worth, even at the maximum prices, at most the value that is withdrawn. */
  lemma WithdrawTakesWithin(cfg: Config, m: Market, amount: nat, prices: Prices, next: Market, r: WithdrawReport)
    requires Withdraw(cfg, m, amount, prices) == Some((next, r))
    ensures OutputAmounts(cfg, m, amount, prices).Some? && TokensToUsd(cfg, m, amount, prices).Some?
    ensures ValueAt(m.primary, prices, true) - ValueAt(next.primary, prices, true)
            <= TokensToUsd(cfg, m, amount, prices).value
  {
    hide Withdraw, OutputAmounts, TokensToUsd, PoolValue;
    WithdrawDefined(cfg, m, amount, prices);
    WithdrawLeaves(cfg, m, amount, prices);
    OutputWithinShare(cfg, m, amount, prices);
    var (long, short) := OutputAmounts(cfg, m, amount, prices).value;
    MulMono(m.primary.long - next.primary.long, long, prices.long.max);
    MulMono(m.primary.short - next.primary.short, short, prices.short.max);
    ValueOfGain(m.primary, next.primary, prices, true, true);
  }

  /** A swap leaves the supply alone and the pool at least as much. */
  lemma SwapKeepsUncapped(
    cfg: Config, m: Market, isLongIn: bool, amount: nat, prices: Prices, next: Market, r: SwapReport)
    requires prices.IsOrdered() && Settled(m) && Valued(cfg, m, prices) && Valued(cfg, next, prices)
    requires Swap(cfg, m, isLongIn, amount, prices) == Some((next, r))
    ensures Uncapped(cfg, next, prices) >= Uncapped(cfg, m, prices) && next.supply == m.supply
  {
    hide TrySwap, Rest, BorrowingFeesForPool, FeesLost, Pnl, ImpactPoolValue;
    SwapKeepsLiquidityValue(cfg, m, isLongIn, amount, prices, prices.Collateral(isLongIn).max,
                            prices.Collateral(!isLongIn).max);
    RestChanges(cfg, m, next, prices, true);
    NoFeesLost(cfg, m, next, prices);
  }

  /** The value reads the tokens, the traders, the pending fees and the impact pool. */
  lemma UncappedFrame(cfg: Config, a: Market, b: Market, prices: Prices)
    requires a.primary == b.primary
    requires a.openInterest == b.openInterest && a.openInterestInTokens == b.openInterestInTokens
    ensures OrZero(BorrowingFeesForPool(cfg, a, prices)) - OrZero(ImpactPoolValue(cfg, a, prices, false))
            >= OrZero(BorrowingFeesForPool(cfg, b, prices)) - OrZero(ImpactPoolValue(cfg, b, prices, false))
            ==> Uncapped(cfg, a, prices) >= Uncapped(cfg, b, prices)
  {
    hide BorrowingFeesForPool, ImpactPoolValue, ProfitFrom;
  }

  lemma UpdateBorrowingKeepsUncapped(cfg: Config, m: Market, prices: Prices)
    requires UpdateBorrowing(cfg, m, prices).Some?
    ensures Uncapped(cfg, UpdateBorrowing(cfg, m, prices).value, prices) >= Uncapped(cfg, m, prices)
  {
    hide UpdateBorrowing, TotalPendingBorrowingFees, Uncapped, ApplyFactor, CheckedMul;
    UpdateBorrowingExact(cfg, m, prices, true);
    PendingFeesUnchanged(cfg, m, prices, true);
    PendingFeesUnchanged(cfg, m, prices, false);
    UncappedFrame(cfg, UpdateBorrowing(cfg, m, prices).value, m, prices);
  }

  lemma DistributeKeepsUncapped(cfg: Config, m: Market, prices: Prices)
    requires DistributeImpact(cfg, m).Some?
    ensures Uncapped(cfg, DistributeImpact(cfg, m).value, prices) >= Uncapped(cfg, m, prices)
  {
    hide DistributeImpact, BorrowingFeesForPool, Remaining, CheckedMul, Uncapped;
    var next := DistributeImpact(cfg, m).value;
    DistributeImpactExact(cfg, m);
    NothingLeft(cfg, next);
    PendingFeesFrame(cfg, next, m, prices);
    UncappedFrame(cfg, next, m, prices);
  }

  lemma UpdateFundingKeepsUncapped(cfg: Config, m: Market, prices: Prices)
    requires UpdateFunding(cfg, m, prices).Some?
    ensures Uncapped(cfg, UpdateFunding(cfg, m, prices).value.0, prices) >= Uncapped(cfg, m, prices)
  {
    hide UpdateFunding, Uncapped, BorrowingFeesForPool, ImpactPoolValue;
    var next := UpdateFunding(cfg, m, prices).value.0;
    UpdateFundingFrame(cfg, m, prices);
    FundingAside(cfg, m, next, prices, true);
    FundingAside(cfg, m, next, prices, false);
    FeesOfSides(cfg, next, m, prices);
    UncappedFrame(cfg, next, m, prices);
  }

  lemma FeesOfSides(cfg: Config, a: Market, b: Market, prices: Prices)
    requires TotalPendingBorrowingFees(cfg, a, prices, true) == TotalPendingBorrowingFees(cfg, b, prices, true)
    requires TotalPendingBorrowingFees(cfg, a, prices, false) == TotalPendingBorrowingFees(cfg, b, prices, false)
    ensures BorrowingFeesForPool(cfg, a, prices) == BorrowingFeesForPool(cfg, b, prices)
  {
    hide TotalPendingBorrowingFees, ApplyFactor;
  }

  /** Neither pending fees nor the impact pool depend on the funding state. */
  lemma FundingAside(cfg: Config, m: Market, next: Market, prices: Prices, isLong: bool)
    requires next == m.(fundingPerSize := next.fundingPerSize, claimablePerSize := next.claimablePerSize,
                        fundingRate := next.fundingRate, clocks := m.clocks.(funding := next.clocks.funding))
    ensures TotalPendingBorrowingFees(cfg, next, prices, isLong) == TotalPendingBorrowingFees(cfg, m, prices, isLong)
    ensures ImpactPoolValue(cfg, next, prices, false) == ImpactPoolValue(cfg, m, prices, false)
  {
    hide BorrowingRate, ApplyFactor, CheckedMul;
    RateFrame(cfg, next, m, prices, isLong);
  }

  /** The market some time later. */
  function Later(m: Market, seconds: nat): Market {
    m.(now := m.now + seconds)
  }

  lemma FactorRises(cfg: Config, m: Market, prices: Prices, isLong: bool, first: nat, second: nat, later: Market)
    requires first <= second && later == m.(now := later.now)
    requires NextBorrowingFactor(cfg, m, prices, isLong, first).Some?
    requires NextBorrowingFactor(cfg, later, prices, isLong, second).Some?
    ensures NextBorrowingFactor(cfg, m, prices, isLong, first).value.0
            <= NextBorrowingFactor(cfg, later, prices, isLong, second).value.0
  {
    hide BorrowingRate;
    RateFrame(cfg, later, m, prices, isLong);
    MulMono(first, second, BorrowingRate(cfg, m, prices, isLong).value);
  }

  lemma PendingRises(cfg: Config, m: Market, prices: Prices, isLong: bool, seconds: nat)
    requires TotalPendingBorrowingFees(cfg, m, prices, isLong).Some?
    requires TotalPendingBorrowingFees(cfg, Later(m, seconds), prices, isLong).Some?
    ensures TotalPendingBorrowingFees(cfg, m, prices, isLong).value
            <= TotalPendingBorrowingFees(cfg, Later(m, seconds), prices, isLong).value
  {
    hide NextBorrowingFactor, BorrowedFor, TotalPendingBorrowingFees;
    var later := Later(m, seconds);
    PendingNeedsFactor(cfg, m, prices, isLong);
    PendingNeedsFactor(cfg, later, prices, isLong);
    TotalPendingExact(cfg, m, prices, isLong);
    TotalPendingExact(cfg, later, prices, isLong);
    var first, second := Passed(m.now, m.clocks.borrowing), Passed(later.now, m.clocks.borrowing);
    FactorRises(cfg, m, prices, isLong, first, second, later);
    BorrowedForMono(m.openInterest.Side(isLong).Sum(), NextBorrowingFactor(cfg, m, prices, isLong, first).value.0,
                    NextBorrowingFactor(cfg, later, prices, isLong, second).value.0);
  }

  lemma FeesRise(cfg: Config, m: Market, prices: Prices, seconds: nat)
    requires BorrowingFeesForPool(cfg, m, prices).Some? && BorrowingFeesForPool(cfg, Later(m, seconds), prices).Some?
    ensures BorrowingFeesForPool(cfg, m, prices).value <= BorrowingFeesForPool(cfg, Later(m, seconds), prices).value
  {
    hide TotalPendingBorrowingFees, ApplyFactor, Later;
    var later := Later(m, seconds);
    PendingRises(cfg, m, prices, true, seconds);
    PendingRises(cfg, m, prices, false, seconds);
    ApplyFactorMono(TotalPendingBorrowingFees(cfg, m, prices, true).value
                    + TotalPendingBorrowingFees(cfg, m, prices, false).value,
                    TotalPendingBorrowingFees(cfg, later, prices, true).value
                    + TotalPendingBorrowingFees(cfg, later, prices, false).value,
                    UNIT - cfg.borrowing.receiverFactor);
  }

  lemma ImpactFalls(cfg: Config, m: Market, prices: Prices, seconds: nat)
    requires ImpactPoolValue(cfg, m, prices, false).Some?
    requires ImpactPoolValue(cfg, Later(m, seconds), prices, false).Some?
    ensures ImpactPoolValue(cfg, Later(m, seconds), prices, false).value <= ImpactPoolValue(cfg, m, prices, false).value
  {
    hide PendingDistribution;
    var first, second := Passed(m.now, m.clocks.impact), Passed(m.now + seconds, m.clocks.impact);
    SameDistribution(cfg, m, seconds, second);
    RemainsLess(cfg, m, first, second);
    MulMono(PendingDistribution(cfg, m, second).value.1, PendingDistribution(cfg, m, first).value.1, prices.index.min);
  }

  lemma SameDistribution(cfg: Config, m: Market, seconds: nat, duration: nat)
    ensures PendingDistribution(cfg, Later(m, seconds), duration) == PendingDistribution(cfg, m, duration)
  {
    hide ApplyFactor;
  }

  lemma RemainsLess(cfg: Config, m: Market, first: nat, second: nat)
    requires first <= second
    requires PendingDistribution(cfg, m, first).Some? && PendingDistribution(cfg, m, second).Some?
    ensures PendingDistribution(cfg, m, second).value.1 <= PendingDistribution(cfg, m, first).value.1
  {
    hide ApplyFactor;
    if cfg.distribution.factor != 0 && m.positionImpact.long > cfg.distribution.minAmount {
      ApplyFactorMono(first, second, cfg.distribution.factor);
    }
  }

  /** Time only adds fees and distributes impact. */
  lemma TickKeepsUncapped(cfg: Config, m: Market, prices: Prices, seconds: nat)
    requires Valued(cfg, m, prices) && Valued(cfg, Later(m, seconds), prices)
    ensures Uncapped(cfg, Later(m, seconds), prices) >= Uncapped(cfg, m, prices)
  {
    hide BorrowingFeesForPool, ImpactPoolValue, Uncapped, Pnl;
    FeesRise(cfg, m, prices, seconds);
    ImpactFalls(cfg, m, prices, seconds);
    UncappedFrame(cfg, Later(m, seconds), m, prices);
  }

  /** Without time passed, what is pending on a side is what its open interest has borrowed beyond its positions. */
  lemma SettledPending(cfg: Config, m: Market, prices: Prices, isLong: bool)
    requires Settled(m) && TotalPendingBorrowingFees(cfg, m, prices, isLong).Some?
    ensures TotalPendingBorrowingFees(cfg, m, prices, isLong).value
            == BorrowedFor(m.openInterest.Side(isLong).Sum(), m.borrowingFactor.Amount(isLong))
               - m.totalBorrowing.Amount(isLong)
  {
    hide NextBorrowingFactor, BorrowedFor, TotalPendingBorrowingFees;
    PendingNeedsFactor(cfg, m, prices, isLong);
    TotalPendingExact(cfg, m, prices, isLong);
    NoTimeNoAccrual(cfg, m, prices, isLong);
  }

  /** Growing a position by `size` and moving its checkpoint takes its pending fee from its side, and at most two
      units of rounding. */
  lemma BorrowedArith(interest: nat, size: nat, held: nat, factor: nat, checkpoint: nat)
    requires checkpoint <= factor
    ensures (BorrowedFor(interest + size, factor) - BorrowedFor(interest, factor))
            - (BorrowedFor(held + size, factor) - BorrowedFor(held, checkpoint))
            >= -(BorrowedFor(held, factor - checkpoint) as int) - 2
  {
    hide *;
    BorrowedAdds(interest, size, factor);
    BorrowedAdds(held, size, factor);
    BorrowedAddsFactors(held, checkpoint, factor - checkpoint);
  }

  lemma BorrowedAdds(a: nat, b: nat, factor: nat)
    ensures BorrowedFor(a, factor) + BorrowedFor(b, factor) <= BorrowedFor(a + b, factor)
            <= BorrowedFor(a, factor) + BorrowedFor(b, factor) + 1
  {
    assert (a + b) * factor == a * factor + b * factor;
    FloorAdd(a * factor, b * factor, UNIT);
  }

  lemma BorrowedAddsFactors(size: nat, f: nat, g: nat)
    ensures BorrowedFor(size, f + g) <= BorrowedFor(size, f) + BorrowedFor(size, g) + 1
  {
    assert size * (f + g) == size * f + size * g;
    FloorAdd(size * f, size * g, UNIT);
  }

  /** What is pending on each side after an increase, all but the position's own fee. */
  lemma PendingAfterIncrease(
    cfg: Config, m: Market, position: Position, params: IncreaseParams, prices: Prices, isLong: bool, next: Market,
    grown: Position, r: IncreaseReport, due: nat)
    requires Increase(cfg, m, position, params) == Some((next, grown, r)) && Settled(m)
    requires PendingBorrowingFeeValue(m, InitializeIfEmpty(m, position)) == Some(due)
    requires TotalPendingBorrowingFees(cfg, m, prices, isLong).Some?
    requires TotalPendingBorrowingFees(cfg, next, prices, isLong).Some?
    ensures TotalPendingBorrowingFees(cfg, next, prices, isLong).value
            >= TotalPendingBorrowingFees(cfg, m, prices, isLong).value - When(position.isLong == isLong, due + 2)
  {
    hide Increase, GetExecution, FeesFor, Grown, BorrowedFor, TotalPendingBorrowingFees, Pool.Sum;
    IncreaseHasEffect(cfg, m, position, params, isLong, true);
    SidesGrow(cfg, m, position, params, isLong);
    SettledPending(cfg, m, prices, isLong);
    SettledPending(cfg, next, prices, isLong);
    if position.isLong == isLong {
      var p, factor := InitializeIfEmpty(m, position), m.borrowingFactor.Amount(isLong);
      GrownFacts(m, m, p, p.collateral + r.collateralDelta, p.sizeUsd + params.sizeDelta,
                 p.sizeTokens + r.execution.tokens);
      DueIsBorrowed(m, p, due);
      BorrowedArith(m.openInterest.Side(isLong).Sum(), params.sizeDelta, p.sizeUsd, factor, p.borrowingFactor);
    }
  }

  lemma DueIsBorrowed(m: Market, p: Position, due: nat)
    requires PendingBorrowingFeeValue(m, p) == Some(due)
    ensures p.borrowingFactor <= m.borrowingFactor.Amount(p.isLong)
    ensures due == BorrowedFor(p.sizeUsd, m.borrowingFactor.Amount(p.isLong) - p.borrowingFactor)
  {
  }

  /** A drop of what is pending by `due + 2` costs the pool at most its part of `due`, rounded up, and two. */
  lemma PoolPartDrops(before: nat, after: nat, due: nat, factor: nat)
    requires after >= before - due - 2 && factor <= UNIT
    ensures after * factor / UNIT >= before * factor / UNIT - CeilDiv(due * factor, UNIT) - 2
  {
    hide *;
    FloorBounds(before * factor, UNIT);
    CeilBounds(due * factor, UNIT);
    MulMono(before - due - 2, after, factor);
    assert (before - due - 2) * factor == before * factor - due * factor - 2 * factor;
    var x, c := before * factor / UNIT, CeilDiv(due * factor, UNIT);
    assert (x - c - 2) * UNIT == x * UNIT - c * UNIT - 2 * UNIT;
    FloorGreatest(x - c - 2, after * factor, UNIT);
  }

  lemma PoolFeesAfterIncrease(
    cfg: Config, m: Market, position: Position, params: IncreaseParams, prices: Prices, next: Market, grown: Position,
    r: IncreaseReport, due: nat)
    requires Increase(cfg, m, position, params) == Some((next, grown, r)) && Settled(m)
    requires PendingBorrowingFeeValue(m, InitializeIfEmpty(m, position)) == Some(due)
    requires BorrowingFeesForPool(cfg, m, prices).Some? && BorrowingFeesForPool(cfg, next, prices).Some?
    ensures cfg.borrowing.receiverFactor <= UNIT
    ensures BorrowingFeesForPool(cfg, next, prices).value
            >= BorrowingFeesForPool(cfg, m, prices).value
               - CeilDiv(due * (UNIT - cfg.borrowing.receiverFactor), UNIT) - 2
  {
    hide Increase, TotalPendingBorrowingFees, PendingBorrowingFeeValue, InitializeIfEmpty, Settled, CeilDiv;
    PendingAfterIncrease(cfg, m, position, params, prices, true, next, grown, r, due);
    PendingAfterIncrease(cfg, m, position, params, prices, false, next, grown, r, due);
    var before := TotalPendingBorrowingFees(cfg, m, prices, true).value
                  + TotalPendingBorrowingFees(cfg, m, prices, false).value;
    var after := TotalPendingBorrowingFees(cfg, next, prices, true).value
                 + TotalPendingBorrowingFees(cfg, next, prices, false).value;
    PoolPartDrops(before, after, due, UNIT - cfg.borrowing.receiverFactor);
  }

  /** The pool receives its part of a borrowing fee, rounded up, but for less than one token. */
  lemma PoolReceives(due: nat, price: nat, receiverFactor: nat)
    requires price > 0 && receiverFactor <= UNIT
    ensures (due / price - due / price * receiverFactor / UNIT) * price
            >= CeilDiv(due * (UNIT - receiverFactor), UNIT) - price + 1
  {
    hide *;
    var amount, rest := due / price, UNIT - receiverFactor;
    var kept := amount - amount * receiverFactor / UNIT;
    FloorBounds(due, price);
    FloorBounds(amount * receiverFactor, UNIT);
    assert kept * UNIT == amount * UNIT - amount * receiverFactor / UNIT * UNIT;
    assert amount * UNIT == amount * receiverFactor + amount * rest;
    PartOfDue(due, price, amount, kept, rest);
    CeilAtMost(due * rest, UNIT, kept * price + price - 1);
  }

  lemma PartOfDue(due: nat, price: nat, amount: nat, kept: int, rest: nat)
    requires due <= amount * price + price - 1 && kept * UNIT >= amount * rest && rest <= UNIT && price > 0
    ensures due * rest <= (kept * price + price - 1) * UNIT
  {
    hide *;
    MulMono(due, amount * price + price - 1, rest);
    MulMono(amount * rest, kept * UNIT, price);
    MulMono(rest, UNIT, price - 1);
    Spread(amount, price, price - 1, rest);
    Spread(kept, price, price - 1, UNIT);
  }

  lemma Spread(a: int, b: int, c: int, d: int)
    ensures (a * b + c) * d == a * d * b + c * d
  {
    assert (a * b + c) * d == a * b * d + c * d;
    assert a * b * d == a * d * b;
  }

  lemma CeilAtMost(n: int, d: int, q: int)
    requires d > 0 && n <= q * d
    ensures CeilDiv(n, d) <= q
  {
    FloorBelow(q + 1, n + d - 1, d);
  }

  lemma FeesReachPool(
    cfg: Config, m: Market, p: Position, price: Price, sizeDelta: nat, positiveImpact: bool, fees: PositionFees)
    requires FeesFor(cfg, m, p, price, sizeDelta, positiveImpact) == Some(fees) && fees.ForPool().Some?
    requires cfg.borrowing.receiverFactor <= UNIT
    ensures PendingBorrowingFeeValue(m, p).Some?
    ensures fees.ForPool().value * price.min
            >= CeilDiv(PendingBorrowingFeeValue(m, p).value * (UNIT - cfg.borrowing.receiverFactor), UNIT)
               - price.min + 1
  {
    hide FeeParams.ForOrder, PendingBorrowingFeeValue, PendingFundingFees, CeilDiv, MulDiv;
    var due := PendingBorrowingFeeValue(m, p).value;
    BorrowingPart(cfg.borrowing.receiverFactor, price, due, fees.borrowing);
    PoolReceives(due, price.min, cfg.borrowing.receiverFactor);
    var kept := due / price.min - due / price.min * cfg.borrowing.receiverFactor / UNIT;
    MulMono(kept, fees.ForPool().value, price.min);
  }

  lemma BorrowingPart(receiverFactor: nat, price: Price, due: nat, fees: BorrowingFees)
    requires BorrowingFeesFor(receiverFactor, price, due) == Some(fees)
    ensures price.min > 0
    ensures fees.amount == due / price.min && fees.forReceiver == due / price.min * receiverFactor / UNIT
  {
  }

  /** With the distribution up to date, the rest of the value is the pending fees less what is owed. */
  lemma SettledRest(cfg: Config, m: Market, prices: Prices)
    requires Settled(m) && Valued(cfg, m, prices)
    ensures Owed(m, prices.index).Some?
    ensures Rest(cfg, m, prices, true)
            == BorrowingFeesForPool(cfg, m, prices).value - Owed(m, prices.index).value
  {
    hide BorrowingFeesForPool, Pnl;
    NothingLeft(cfg, m);
  }

  lemma PoolGains(m: Market, next: Market, prices: Prices, isLong: bool, amount: nat)
    requires next.primary.long == m.primary.long + When(isLong, amount)
    requires next.primary.short == m.primary.short + When(!isLong, amount)
    ensures ValueAt(next.primary, prices, true)
            == ValueAt(m.primary, prices, true) + amount * prices.Collateral(isLong).max
  {
    if isLong {
      assert (m.primary.long + amount) * prices.long.max == m.primary.long * prices.long.max + amount * prices.long.max;
    } else {
      assert (m.primary.short + amount) * prices.short.max
             == m.primary.short * prices.short.max + amount * prices.short.max;
    }
  }

  lemma PoolPartReceived(
    cfg: Config, m: Market, position: Position, params: IncreaseParams, next: Market, grown: Position,
    r: IncreaseReport) returns (due: nat)
    requires Increase(cfg, m, position, params) == Some((next, grown, r)) && cfg.borrowing.receiverFactor <= UNIT
    requires params.prices.IsOrdered()
    ensures PendingBorrowingFeeValue(m, InitializeIfEmpty(m, position)) == Some(due)
    ensures ValueAt(next.primary, params.prices, true)
            >= ValueAt(m.primary, params.prices, true)
               + CeilDiv(due * (UNIT - cfg.borrowing.receiverFactor), UNIT)
               - params.prices.Collateral(position.isCollateralLong).min + 1
  {
    hide Increase, FeesFor, GetExecution, Grown, BorrowedFor, CeilDiv, ValueAt, PendingBorrowingFeeValue,
      PositionFees.ForPool, PositionFees.ForReceiver;
    var p := InitializeIfEmpty(m, position);
    var price := params.prices.Collateral(position.isCollateralLong);
    IncreaseHasEffect(cfg, m, position, params, true, true);
    IncreaseHasEffect(cfg, m, position, params, true, false);
    FeesReachPool(cfg, m, p, price, params.sizeDelta, r.execution.impactValue > 0, r.fees);
    PoolGains(m, next, params.prices, position.isCollateralLong, r.fees.ForPool().value);
    MulMono(price.min, price.max, r.fees.ForPool().value);
    due := PendingBorrowingFeeValue(m, p).value;
  }

  /** An increase of an up-to-date market costs the pool at most one collateral token and one unit, whatever its size,
      impact and fees: the pending fees that it settles are received, and nothing more becomes owed. */
  lemma IncreaseKeepsUncapped(
    cfg: Config, m: Market, position: Position, params: IncreaseParams, next: Market, grown: Position,
    r: IncreaseReport)
    requires Increase(cfg, m, position, params) == Some((next, grown, r)) && params.prices.IsOrdered()
    requires Settled(m) && Valued(cfg, m, params.prices) && Valued(cfg, next, params.prices)
    ensures Uncapped(cfg, next, params.prices)
            >= Uncapped(cfg, m, params.prices) - params.prices.Collateral(position.isCollateralLong).min - 1
    ensures next.supply == m.supply
  {
    hide Increase, Settled, Valued, Rest, ValueAt, BorrowingFeesForPool, Owed, PendingBorrowingFeeValue, CeilDiv,
      InitializeIfEmpty;
    SamePerSettled(cfg, m, position, params, next, grown, r);
    IncreaseNeverOwesMore(cfg, m, position, params, next, grown, r);
    var due := PoolPartReceived(cfg, m, position, params, next, grown, r);
    PoolFeesAfterIncrease(cfg, m, position, params, params.prices, next, grown, r, due);
  }

  lemma SamePerSettled(
    cfg: Config, m: Market, position: Position, params: IncreaseParams, next: Market, grown: Position,
    r: IncreaseReport)
    requires Increase(cfg, m, position, params) == Some((next, grown, r))
    requires Settled(m) && Valued(cfg, m, params.prices) && Valued(cfg, next, params.prices)
    ensures cfg.borrowing.receiverFactor <= UNIT && next.supply == m.supply
    ensures BorrowingFeesForPool(cfg, m, params.prices).Some? && BorrowingFeesForPool(cfg, next, params.prices).Some?
    ensures Owed(m, params.prices.index).Some? && Owed(next, params.prices.index).Some?
    ensures Rest(cfg, m, params.prices, true)
            == BorrowingFeesForPool(cfg, m, params.prices).value - Owed(m, params.prices.index).value
    ensures Rest(cfg, next, params.prices, true)
            == BorrowingFeesForPool(cfg, next, params.prices).value - Owed(next, params.prices.index).value
  {
    hide Increase, Rest, Owed, FeesFor, GetExecution, Grown, BorrowedFor, ImpactPoolValue, Pnl,
      TotalPendingBorrowingFees;
    IncreaseHasEffect(cfg, m, position, params, true, true);
    SettledRest(cfg, m, params.prices);
    SettledRest(cfg, next, params.prices);
  }
}
