/** Accruing borrowing fees and distributing the position impact pool
    (`action/update_borrowing_state.rs`, `action/distribute_position_impact.rs`). */
module AccrualActions {
  import opened Options
  import opened Num
  import opened Utils
  import opened Price
  import opened Params
  import opened State

  /** Add the growth of one side's borrowing factor over `duration` seconds. */
  function AccrueOneSide(cfg: Config, m: Market, prices: Prices, isLong: bool, duration: nat): Option<Market> {
    var next :- NextBorrowingFactor(cfg, m, prices, isLong, duration);
    var delta :- ToSigned(next.1);
    var factors :- m.borrowingFactor.ApplyDelta(isLong, delta);
    Some(m.(borrowingFactor := factors))
  }

  function UpdateBorrowing(cfg: Config, m: Market, prices: Prices): Option<Market> {
    var _ :- Ensure(prices.IsValid());
    var duration := Passed(m.now, m.clocks.borrowing);
    var started := m.(clocks := m.clocks.(borrowing := Some(m.now)));
    var long :- AccrueOneSide(cfg, started, prices, true, duration);
    AccrueOneSide(cfg, long, prices, false, duration)
  }

  function DistributeImpact(cfg: Config, m: Market): Option<Market> {
    var duration := Passed(m.now, m.clocks.impact);
    var started := m.(clocks := m.clocks.(impact := Some(m.now)));
    var pending :- PendingDistribution(cfg, started, duration);
    if pending.0 == 0 then Some(started)
    else
      var delta :- ToOppositeSigned(pending.0);
      var pool :- started.positionImpact.ApplyDelta(true, delta);
      Some(started.(positionImpact := pool))
  }

  /** The rate reads the liquidity pool and the open interest only. */
  lemma RateFrame(cfg: Config, a: Market, b: Market, prices: Prices, isLong: bool)
    requires a.primary == b.primary
    requires a.openInterest == b.openInterest && a.openInterestInTokens == b.openInterestInTokens
    ensures BorrowingRate(cfg, a, prices, isLong) == BorrowingRate(cfg, b, prices, isLong)
  {
    hide CheckedMul, ApplyFactor, KinkRate, DivToFactor, ApplyExponentFactor;
  }

  /** The update moves each side's factor to exactly the value that is read lazily before it. */
  lemma UpdateBorrowingExact(cfg: Config, m: Market, prices: Prices, isLong: bool)
    requires UpdateBorrowing(cfg, m, prices).Some?
    ensures var next := UpdateBorrowing(cfg, m, prices).value;
            var duration := Passed(m.now, m.clocks.borrowing);
            && BorrowingRate(cfg, m, prices, isLong).Some?
            && NextBorrowingFactor(cfg, m, prices, isLong, duration).Some?
            && next.borrowingFactor.Amount(isLong) == NextBorrowingFactor(cfg, m, prices, isLong, duration).value.0
            && next.borrowingFactor.Amount(isLong)
               == m.borrowingFactor.Amount(isLong) + BorrowingRate(cfg, m, prices, isLong).value * duration
            && next == m.(borrowingFactor := next.borrowingFactor, clocks := m.clocks.(borrowing := Some(m.now)))
  {
    hide BorrowingRate;
    var duration := Passed(m.now, m.clocks.borrowing);
    var clocks := m.clocks.(borrowing := Some(m.now));
    var started := m.(clocks := clocks);
    RateFrame(cfg, started, m, prices, isLong);
    var long := AccrueOneSide(cfg, started, prices, true, duration).value;
    RateFrame(cfg, long, m, prices, isLong);
    AccrueExact(cfg, started, prices, true, duration);
    AccrueExact(cfg, long, prices, false, duration);
  }

  lemma AccrueExact(cfg: Config, m: Market, prices: Prices, isLong: bool, duration: nat)
    requires AccrueOneSide(cfg, m, prices, isLong, duration).Some?
    ensures var next := AccrueOneSide(cfg, m, prices, isLong, duration).value;
            && BorrowingRate(cfg, m, prices, isLong).Some?
            && duration <= MAX
            && next.borrowingFactor.Amount(isLong)
               == m.borrowingFactor.Amount(isLong) + BorrowingRate(cfg, m, prices, isLong).value * duration <= MAX
            && next.borrowingFactor.Amount(!isLong) == m.borrowingFactor.Amount(!isLong)
            && next == m.(borrowingFactor := next.borrowingFactor)
  {
    hide BorrowingRate;
  }
}
