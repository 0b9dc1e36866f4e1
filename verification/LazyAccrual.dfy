/** Reading accrued values lazily agrees with accruing them. */
module LazyAccrual {
  import opened Options
  import opened Arith
  import opened Num
  import opened Utils
  import opened Price
  import opened Params
  import opened State
  import opened AccrualActions

  /** At one instant, the pending fees are the same before and after an update of the factors. */
  lemma PendingFeesUnchanged(cfg: Config, m: Market, prices: Prices, isLong: bool)
    requires UpdateBorrowing(cfg, m, prices).Some?
    ensures var next := UpdateBorrowing(cfg, m, prices).value;
            TotalPendingBorrowingFees(cfg, next, prices, isLong) == TotalPendingBorrowingFees(cfg, m, prices, isLong)
  {
    hide UpdateBorrowing, BorrowingRate, ApplyFactor, CheckedSub;
    var next := UpdateBorrowing(cfg, m, prices).value;
    UpdateBorrowingExact(cfg, m, prices, isLong);
    RateFrame(cfg, next, m, prices, isLong);
  }

  lemma PnlFrame(
    cfg: Config, a: Market, b: Market, prices: Prices, isLong: bool, poolValue: nat, kind: PnlKind, maximize: bool)
    requires a.openInterest == b.openInterest && a.openInterestInTokens == b.openInterestInTokens
    ensures CappedPnl(cfg, a, prices, isLong, poolValue, kind, maximize)
            == CappedPnl(cfg, b, prices, isLong, poolValue, kind, maximize)
  {
    hide CheckedMul, CapPnl;
  }

  /** Two markets with the same tokens, traders, pending fees and impact pool value are worth the same. */
  lemma PoolValueFrame(cfg: Config, a: Market, b: Market, prices: Prices, kind: PnlKind, maximize: bool)
    requires a.primary == b.primary
    requires a.openInterest == b.openInterest && a.openInterestInTokens == b.openInterestInTokens
    requires BorrowingFeesForPool(cfg, a, prices) == BorrowingFeesForPool(cfg, b, prices)
    requires ImpactPoolValue(cfg, a, prices, !maximize) == ImpactPoolValue(cfg, b, prices, !maximize)
    ensures PoolValue(cfg, a, prices, kind, maximize) == PoolValue(cfg, b, prices, kind, maximize)
  {
    hide BorrowingFeesForPool, ImpactPoolValue, CappedPnl, CheckedMul;
    if PoolValueOneSide(a, prices, true, maximize).Some? && PoolValueOneSide(a, prices, false, maximize).Some? {
      PnlFrame(cfg, a, b, prices, true, PoolValueOneSide(a, prices, true, maximize).value, kind, !maximize);
      PnlFrame(cfg, a, b, prices, false, PoolValueOneSide(a, prices, false, maximize).value, kind, !maximize);
    }
  }

  /** Updating the borrowing state does not change what the pool is worth at the same prices. */
  lemma UpdateBorrowingKeepsPoolValue(cfg: Config, m: Market, prices: Prices, kind: PnlKind, maximize: bool)
    requires UpdateBorrowing(cfg, m, prices).Some?
    ensures PoolValue(cfg, UpdateBorrowing(cfg, m, prices).value, prices, kind, maximize)
            == PoolValue(cfg, m, prices, kind, maximize)
  {
    hide UpdateBorrowing, NextBorrowingFactor, TotalPendingBorrowingFees, ApplyFactor, CheckedMul, PoolValue;
    UpdateBorrowingExact(cfg, m, prices, true);
    PendingFeesUnchanged(cfg, m, prices, true);
    PendingFeesUnchanged(cfg, m, prices, false);
    PoolValueFrame(cfg, UpdateBorrowing(cfg, m, prices).value, m, prices, kind, maximize);
  }

  /** The position impact pool after `duration` seconds, without overflow. */
  function Remaining(p: DistributionParams, amount: nat, duration: nat): nat {
    if p.factor == 0 || amount <= p.minAmount then amount else Max(p.minAmount, amount - duration * p.factor / UNIT)
  }

  lemma DistributeImpactExact(cfg: Config, m: Market)
    requires DistributeImpact(cfg, m).Some?
    ensures var next := DistributeImpact(cfg, m).value;
            var duration := Passed(m.now, m.clocks.impact);
            && PendingDistribution(cfg, m, duration).Some?
            && next.positionImpact == m.positionImpact.(long := PendingDistribution(cfg, m, duration).value.1)
            && next.positionImpact.long == Remaining(cfg.distribution, m.positionImpact.long, duration)
            && next == m.(positionImpact := next.positionImpact, clocks := m.clocks.(impact := Some(m.now)))
  {
  }

  /** Distributing the position impact pool does not change what the pool is worth at the same
      prices. */
  lemma DistributeImpactKeepsPoolValue(cfg: Config, m: Market, prices: Prices, kind: PnlKind, maximize: bool)
    requires DistributeImpact(cfg, m).Some?
    ensures PoolValue(cfg, DistributeImpact(cfg, m).value, prices, kind, maximize)
            == PoolValue(cfg, m, prices, kind, maximize)
  {
    hide DistributeImpact, BorrowingFeesForPool, Remaining, CheckedMul, PoolValue;
    var next := DistributeImpact(cfg, m).value;
    DistributeImpactExact(cfg, m);
    NothingLeft(cfg, next);
    PendingFeesFrame(cfg, next, m, prices);
    PoolValueFrame(cfg, next, m, prices, kind, maximize);
  }

  lemma NothingLeft(cfg: Config, m: Market)
    ensures PendingDistribution(cfg, m, 0).Some? && PendingDistribution(cfg, m, 0).value.1 == m.positionImpact.long
  {
  }

  lemma PendingFeesFrame(cfg: Config, a: Market, b: Market, prices: Prices)
    requires a == b.(positionImpact := a.positionImpact, clocks := b.clocks.(impact := a.clocks.impact))
    ensures BorrowingFeesForPool(cfg, a, prices) == BorrowingFeesForPool(cfg, b, prices)
  {
    hide BorrowingRate, ApplyFactor, CheckedMul;
    RateFrame(cfg, a, b, prices, true);
    RateFrame(cfg, a, b, prices, false);
  }

  /** Wait, then distribute, for each of the given intervals. */
  function DistributeRun(cfg: Config, m: Market, waits: seq<nat>): Option<Market>
    decreases |waits|
  {
    if waits == [] then Some(m)
    else
      var next :- DistributeImpact(cfg, m.(now := m.now + waits[0]));
      DistributeRun(cfg, next, waits[1..])
  }

  /** Two intervals one after the other leave at most one unit more than both at once. */
  lemma RemainingSplits(p: DistributionParams, amount: nat, first: nat, second: nat)
    ensures Remaining(p, amount, first + second) <= Remaining(p, Remaining(p, amount, first), second)
            <= Remaining(p, amount, first + second) + 1
  {
    FloorAdd(first * p.factor, second * p.factor, UNIT);
    assert (first + second) * p.factor == first * p.factor + second * p.factor;
    FloorGreatest(0, first * p.factor, UNIT);
    FloorGreatest(0, second * p.factor, UNIT);
  }

  /** Splitting an interval into n distributes at most n - 1 units less, and never takes the pool below
      its minimum. */
  lemma {:induction false} DistributeRunSplits(cfg: Config, m: Market, waits: seq<nat>)
    requires waits != [] && m.clocks.impact == Some(m.now)
    requires DistributeRun(cfg, m, waits).Some?
    ensures var last := DistributeRun(cfg, m, waits).value;
            var once := Remaining(cfg.distribution, m.positionImpact.long, Total(waits));
            && once <= last.positionImpact.long <= once + |waits| - 1
            && Min(m.positionImpact.long, cfg.distribution.minAmount) <= last.positionImpact.long
            && last.now == m.now + Total(waits)
    decreases |waits|
  {
    hide DistributeImpact, Remaining;
    var waited := m.(now := m.now + waits[0]);
    DistributeImpactExact(cfg, waited);
    var next := DistributeImpact(cfg, waited).value;
    var rest := waits[1..];
    RemainingSplits(cfg.distribution, m.positionImpact.long, waits[0], Total(rest));
    RemainingFloor(cfg.distribution, m.positionImpact.long, waits[0]);
    RemainingFloor(cfg.distribution, m.positionImpact.long, Total(waits));
    if rest == [] {
      assert DistributeRun(cfg, next, rest) == Some(next);
      assert Total(waits) == waits[0];
    } else {
      DistributeRunSplits(cfg, next, rest);
    }
  }

  lemma RemainingFloor(p: DistributionParams, amount: nat, duration: nat)
    ensures Min(amount, p.minAmount) <= Remaining(p, amount, duration)
  {
  }

  /** Wait, then update the borrowing factors, for each of the given intervals. */
  function BorrowingRun(cfg: Config, m: Market, prices: Prices, waits: seq<nat>): Option<Market>
    decreases |waits|
  {
    if waits == [] then Some(m)
    else
      var next :- UpdateBorrowing(cfg, m.(now := m.now + waits[0]), prices);
      BorrowingRun(cfg, next, prices, waits[1..])
  }

  /** Splitting an interval is exact for borrowing: at the same prices the factor grows by the rate
      times the total time, however it is split. */
  lemma {:induction false} BorrowingRunSplits(cfg: Config, m: Market, prices: Prices, waits: seq<nat>, isLong: bool)
    requires waits != [] && m.clocks.borrowing == Some(m.now)
    requires BorrowingRun(cfg, m, prices, waits).Some?
    ensures BorrowingRate(cfg, m, prices, isLong).Some?
    ensures var last := BorrowingRun(cfg, m, prices, waits).value;
            && last.borrowingFactor.Amount(isLong)
               == m.borrowingFactor.Amount(isLong) + BorrowingRate(cfg, m, prices, isLong).value * Total(waits)
            && last == m.(now := m.now + Total(waits), borrowingFactor := last.borrowingFactor,
                          clocks := m.clocks.(borrowing := Some(last.now)))
    decreases |waits|
  {
    hide UpdateBorrowing, BorrowingRate, NextBorrowingFactor;
    var waited := m.(now := m.now + waits[0]);
    UpdateBorrowingExact(cfg, waited, prices, isLong);
    var next := UpdateBorrowing(cfg, waited, prices).value;
    RateFrame(cfg, waited, m, prices, isLong);
    RateFrame(cfg, next, m, prices, isLong);
    var rest := waits[1..];
    var rate := BorrowingRate(cfg, m, prices, isLong).value;
    assert rate * Total(waits) == rate * waits[0] + rate * Total(rest);
    if rest == [] {
      assert BorrowingRun(cfg, next, prices, rest) == Some(next);
    } else {
      BorrowingRunSplits(cfg, next, prices, rest, isLong);
    }
  }
}
