/** The market's pending borrowing fees against those of its positions. */
module BorrowingTotals {
  import opened Arith
  import opened Num
  import opened Utils
  import opened Price
  import opened Pool
  import opened Params
  import opened State
  import opened PositionState
  import opened IncreaseEffects
  import opened Invariants
  import opened Solvency
  import Sums

  function CountOn(isLong: bool): Sums.Weight {
    (p: Position) => When(p.isLong == isLong, 1)
  }

  /** Borrowing of every position if its checkpoint were `factor`. */
  function FloorAt(isLong: bool, factor: nat): Sums.Weight {
    (p: Position) => When(p.isLong == isLong, BorrowedFor(p.sizeUsd, factor))
  }

  /** The pending borrowing fee of every position on one side. */
  function PendingOn(m: Market, isLong: bool): Sums.Weight {
    (p: Position) =>
      When(p.isLong == isLong, p.sizeUsd * (m.borrowingFactor.Amount(isLong) - p.borrowingFactor) / UNIT)
  }

  /** The floor of a sum over n positions is at least the sum of the floors, and less than n above it. */
  lemma {:induction false} SumOfFloors(ps: seq<Position>, isLong: bool, factor: nat)
    ensures var n, sizes := Sums.Sum(ps, CountOn(isLong)), Sums.Sum(ps, SideSize(isLong));
            var floors := Sums.Sum(ps, FloorAt(isLong, factor));
            && 0 <= n && 0 <= sizes && (n == 0 ==> sizes == 0)
            && floors <= BorrowedFor(sizes, factor) <= floors + Max(n - 1, 0)
  {
    if ps != [] {
      SumOfFloors(ps[1..], isLong, factor);
      var size, sizes := ps[0].sizeUsd, Sums.Sum(ps[1..], SideSize(isLong));
      if ps[0].isLong == isLong {
        assert (size + sizes) * factor == size * factor + sizes * factor;
        FloorAdd(size * factor, sizes * factor, UNIT);
      }
    } else {
      assert 0 * factor / UNIT == 0;
    }
  }

  /** Splitting a position's borrowing at its checkpoint loses at most one unit. */
  lemma PendingSplits(size: nat, factor: nat, checkpoint: nat)
    requires checkpoint <= factor
    ensures var pending := size * (factor - checkpoint) / UNIT;
            BorrowedFor(size, checkpoint) + pending <= BorrowedFor(size, factor)
            <= BorrowedFor(size, checkpoint) + pending + 1
  {
    assert size * factor == size * checkpoint + size * (factor - checkpoint);
    FloorAdd(size * checkpoint, size * (factor - checkpoint), UNIT);
  }

  lemma {:induction false} SumOfPending(m: Market, ps: seq<Position>, isLong: bool)
    requires forall p <- ps :: CheckpointsBehind(m, p)
    ensures var pending, borrowed := Sums.Sum(ps, PendingOn(m, isLong)), Sums.Sum(ps, BorrowedIn(isLong));
            var floors := Sums.Sum(ps, FloorAt(isLong, m.borrowingFactor.Amount(isLong)));
            borrowed + pending <= floors <= borrowed + pending + Sums.Sum(ps, CountOn(isLong))
  {
    hide BorrowedFor;
    if ps != [] {
      SumOfPending(m, ps[1..], isLong);
      assert CheckpointsBehind(m, ps[0]);
      if ps[0].isLong == isLong {
        PendingSplits(ps[0].sizeUsd, m.borrowingFactor.Amount(isLong), ps[0].borrowingFactor);
      }
    }
  }

  lemma InterestIsSum(m: Market, isLong: bool)
    ensures OpenInterest(m, isLong).Some? ==> OpenInterest(m, isLong).value == m.openInterest.Side(isLong).Sum()
  {
  }

  lemma FactorGrows(cfg: Config, m: Market, prices: Prices, isLong: bool, duration: nat)
    requires NextBorrowingFactor(cfg, m, prices, isLong, duration).Some?
    ensures NextBorrowingFactor(cfg, m, prices, isLong, duration).value.0 >= m.borrowingFactor.Amount(isLong)
  {
    hide BorrowingRate;
  }

  lemma ApplyFactorIsBorrowed(size: nat, factor: nat)
    ensures ApplyFactor(size, factor) == Checked(BorrowedFor(size, factor))
  {
  }

  /** What `TotalPendingBorrowingFees` computes, once the accrued factor is known. */
  lemma TotalPendingExact(cfg: Config, m: Market, prices: Prices, isLong: bool)
    requires NextBorrowingFactor(cfg, m, prices, isLong, Passed(m.now, m.clocks.borrowing)).Some?
    ensures var next := NextBorrowingFactor(cfg, m, prices, isLong, Passed(m.now, m.clocks.borrowing)).value.0;
            var total := BorrowedFor(m.openInterest.Side(isLong).Sum(), next);
            && next >= m.borrowingFactor.Amount(isLong)
            && (OpenInterest(m, isLong).Some? && total <= MAX ==>
                  TotalPendingBorrowingFees(cfg, m, prices, isLong)
                  == CheckedSub(total, m.totalBorrowing.Amount(isLong)))
            && (TotalPendingBorrowingFees(cfg, m, prices, isLong).Some? ==>
                  && OpenInterest(m, isLong).Some? && total <= MAX
                  && TotalPendingBorrowingFees(cfg, m, prices, isLong).value == total - m.totalBorrowing.Amount(isLong))
  {
    hide NextBorrowingFactor, OpenInterest, Pool.Sum, Pool.Amount, PoolPair.Side, BorrowedFor, ApplyFactor;
    var next := NextBorrowingFactor(cfg, m, prices, isLong, Passed(m.now, m.clocks.borrowing)).value.0;
    FactorGrows(cfg, m, prices, isLong, Passed(m.now, m.clocks.borrowing));
    InterestIsSum(m, isLong);
    ApplyFactorIsBorrowed(m.openInterest.Side(isLong).Sum(), next);
  }

  /** In a consistent market the borrowing accrued by all the open interest covers the total borrowing
      with the pending fees of every position on top of it. */
  lemma AccruedCovers(m: Market, ps: seq<Position>, isLong: bool, next: nat)
    requires Consistent(m, ps) && next >= m.borrowingFactor.Amount(isLong)
    ensures BorrowedFor(m.openInterest.Side(isLong).Sum(), next)
            >= m.totalBorrowing.Amount(isLong) + Sums.Sum(ps, PendingOn(m, isLong))
    ensures 0 <= Sums.Sum(ps, PendingOn(m, isLong))
  {
    hide SideSize, CountOn, FloorAt, AggregatesAt, Pool.Sum, PendingOn, BorrowedIn, CheckpointsBehind;
    var factor, interest := m.borrowingFactor.Amount(isLong), m.openInterest.Side(isLong).Sum();
    SideSizeIsInterest(m, ps, isLong);
    SumOfFloors(ps, isLong, factor);
    SumOfPending(m, ps, isLong);
    MulMono(factor, next, interest);
    FloorMono(interest * factor, interest * next, UNIT);
    assert BorrowingAt(m, ps, isLong);
    PendingNonNegative(m, ps, isLong);
  }

  lemma {:induction false} PendingNonNegative(m: Market, ps: seq<Position>, isLong: bool)
    requires forall p <- ps :: CheckpointsBehind(m, p)
    ensures 0 <= Sums.Sum(ps, PendingOn(m, isLong))
  {
    if ps != [] {
      PendingNonNegative(m, ps[1..], isLong);
      assert CheckpointsBehind(m, ps[0]);
      if ps[0].isLong == isLong {
        MulNonNeg(ps[0].sizeUsd, m.borrowingFactor.Amount(isLong) - ps[0].borrowingFactor);
        FloorGreatest(0, ps[0].sizeUsd * (m.borrowingFactor.Amount(isLong) - ps[0].borrowingFactor), UNIT);
      }
    }
  }

  /** The final subtraction of the total pending fees never underflows: the fees fail to compute only
      if the accrued factor or the product with the open interest overflows. */
  lemma TotalPendingDefined(cfg: Config, m: Market, ps: seq<Position>, prices: Prices, isLong: bool)
    requires Consistent(m, ps)
    ensures var next := NextBorrowingFactor(cfg, m, prices, isLong, Passed(m.now, m.clocks.borrowing));
            TotalPendingBorrowingFees(cfg, m, prices, isLong).Some? <==>
              && OpenInterest(m, isLong).Some? && next.Some?
              && BorrowedFor(m.openInterest.Side(isLong).Sum(), next.value.0) <= MAX
  {
    hide Consistent, NextBorrowingFactor;
    if NextBorrowingFactor(cfg, m, prices, isLong, Passed(m.now, m.clocks.borrowing)).Some? {
      TotalPendingExact(cfg, m, prices, isLong);
      AccruedCovers(m, ps, isLong,
                    NextBorrowingFactor(cfg, m, prices, isLong, Passed(m.now, m.clocks.borrowing)).value.0);
    }
  }

  /** The total is never less than what the positions on that side owe, and when no time has passed since
      the last update it exceeds it by less than two units for each of them. */
  lemma TotalPendingCoversPositions(cfg: Config, m: Market, ps: seq<Position>, prices: Prices, isLong: bool)
    requires Consistent(m, ps)
    requires TotalPendingBorrowingFees(cfg, m, prices, isLong).Some?
    ensures var total := TotalPendingBorrowingFees(cfg, m, prices, isLong).value;
            var pending, n := Sums.Sum(ps, PendingOn(m, isLong)), Sums.Sum(ps, CountOn(isLong));
            && pending <= total
            && (Passed(m.now, m.clocks.borrowing) == 0 ==> total - pending <= Max(2 * n - 1, 0))
  {
    hide Consistent, NextBorrowingFactor, SideSize, CountOn, FloorAt, Pool.Sum, PendingOn, AggregatesAt, BorrowedIn;
    TotalPendingDefined(cfg, m, ps, prices, isLong);
    TotalPendingExact(cfg, m, prices, isLong);
    var next := NextBorrowingFactor(cfg, m, prices, isLong, Passed(m.now, m.clocks.borrowing)).value.0;
    AccruedCovers(m, ps, isLong, next);
    if Passed(m.now, m.clocks.borrowing) == 0 {
      NoTimeNoAccrual(cfg, m, prices, isLong);
      ExcessAtMost(m, ps, isLong);
    }
  }

  lemma NoTimeNoAccrual(cfg: Config, m: Market, prices: Prices, isLong: bool)
    requires NextBorrowingFactor(cfg, m, prices, isLong, 0).Some?
    ensures NextBorrowingFactor(cfg, m, prices, isLong, 0).value.0 == m.borrowingFactor.Amount(isLong)
  {
    hide BorrowingRate;
  }

  lemma ExcessAtMost(m: Market, ps: seq<Position>, isLong: bool)
    requires Consistent(m, ps)
    ensures BorrowedFor(m.openInterest.Side(isLong).Sum(), m.borrowingFactor.Amount(isLong))
            - m.totalBorrowing.Amount(isLong) - Sums.Sum(ps, PendingOn(m, isLong))
            <= Max(2 * Sums.Sum(ps, CountOn(isLong)) - 1, 0)
  {
    hide SideSize, CountOn, FloorAt, AggregatesAt, Pool.Sum, PendingOn, BorrowedIn, CheckpointsBehind;
    SideSizeIsInterest(m, ps, isLong);
    SumOfFloors(ps, isLong, m.borrowingFactor.Amount(isLong));
    SumOfPending(m, ps, isLong);
    assert BorrowingAt(m, ps, isLong);
  }

  /** A position's own pending fee is the weight summed above. */
  lemma PendingIsWeight(m: Market, p: Position)
    requires PendingBorrowingFeeValue(m, p).Some?
    ensures PendingBorrowingFeeValue(m, p).value == PendingOn(m, p.isLong)(p)
  {
  }
}
