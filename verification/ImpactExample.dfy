/** An increase that is credited a positive price impact: the results about it have something to say. */
module ImpactExample {
  import opened Options
  import opened Arith
  import opened Num
  import opened Utils
  import opened Price
  import opened Pool
  import opened PriceImpact
  import opened Fees
  import opened Params
  import opened State
  import opened PositionState
  import opened IncreaseAction
  import opened Example
  import opened FundingExample

  /** The smallest price impact. */
  const MOVED := CONFIG.(
    positionImpact := PriceImpactParams(UNIT, 1, 1), position := CONFIG.position.(maxPositiveImpactFactor := UNIT),
    maxPnlForTrader := Pool(UNIT, UNIT))

  /** A market with only long positions, and enough in its impact pool to pay a short for balancing them. */
  const LOPSIDED := EMPTY_MARKET.(
    primary := Pool(10 * UNIT, 10 * UNIT), supply := 20 * UNIT, openInterest := PoolPair(Pool(3 * UNIT, 0), EMPTY_POOL),
    openInterestInTokens := PoolPair(Pool(3 * UNIT, 0), EMPTY_POOL),
    collateralSum := PoolPair(Pool(5 * UNIT, 0), EMPTY_POOL), positionImpact := Pool(5, 0))
  const BALANCE := IncreaseParams(5 * UNIT, UNIT, None, ONE)
  const SHORT := EmptyPosition(false, true)
  const OPENED_SHORT := SHORT.(collateral := 5 * UNIT, sizeUsd := UNIT, sizeTokens := UNIT - 1)
  const BALANCED := LOPSIDED.(
    openInterest := PoolPair(Pool(3 * UNIT, 0), Pool(UNIT, 0)),
    openInterestInTokens := PoolPair(Pool(3 * UNIT, 0), Pool(UNIT - 1, 0)),
    collateralSum := PoolPair(Pool(5 * UNIT, 0), Pool(5 * UNIT, 0)), positionImpact := Pool(4, 0))

  lemma OneEach(k: nat)
    requires SMAX >= 100 * UNIT && 2 <= k <= 3
    ensures MulDiv(k * UNIT, 1, UNIT) == Some(k)
  {
    FloorExact(k, UNIT);
  }

  /** Opening the short moves the imbalance from three to two, closing it would move it back. */
  lemma ImpactOfShort()
    requires SMAX >= 100 * UNIT
    ensures CappedPositiveImpact(MOVED, LOPSIDED, false, ONE.index, UNIT) == Some(1)
    ensures PositionPriceImpact(MOVED, BALANCED, false, -(UNIT as int)) == Some(-1)
  {
    hide MulDiv, ImpactOf;
    BackAndForth();
    MulDivBack(UNIT, UNIT);
  }

  lemma BackAndForth()
    requires SMAX >= 100 * UNIT
    ensures ImpactOf(PoolDelta(Pool(3 * UNIT, 0), Pool(3 * UNIT, UNIT)), MOVED.positionImpact, MOVED.fractionalPow)
            == Some(1)
    ensures ImpactOf(PoolDelta(Pool(3 * UNIT, UNIT), Pool(3 * UNIT, 0)), MOVED.positionImpact, MOVED.fractionalPow)
            == Some(-1)
  {
    hide MulDiv;
    OneEach(3);
    OneEach(2);
  }

  lemma ShortExecution()
    requires SMAX >= 100 * UNIT && UNIT >= 2
    ensures GetExecution(MOVED, LOPSIDED, false, BALANCE) == Some(Execution(1, 1, UNIT - 1, UNIT / (UNIT - 1)))
  {
    hide CappedPositiveImpact;
    ImpactOfShort();
    FloorExact(1, 1);
    FloorExact(UNIT, 1);
  }

  /** Nothing is due from a short that starts at the market's checkpoints. */
  lemma NoFeesFromShort(m: Market, p: Position, positiveImpact: bool)
    requires SMAX >= 100 * UNIT && (p == SHORT || p == OPENED_SHORT)
    requires m.borrowingFactor == EMPTY_POOL && m.fundingPerSize == EMPTY_PAIR == m.claimablePerSize
    ensures FeesFor(MOVED, m, p, Price(1, 1), UNIT, positiveImpact) == Some(NOTHING)
  {
    hide FeeParams.ForOrder, PendingFundingFees, PendingBorrowingFeeValue, ApplyFactor;
    NoOrderFee(Price(1, 1), UNIT, positiveImpact);
    NoBorrowingFee(m, p);
    NoFundingFromShort(m, p);
    FactorFacts(0);
  }

  lemma NoFundingFromShort(m: Market, p: Position)
    requires SMAX >= 100 * UNIT && (p == SHORT || p == OPENED_SHORT)
    requires m.fundingPerSize == EMPTY_PAIR == m.claimablePerSize
    ensures PendingFundingFees(MOVED, m, p) == Some(FundingFees(0, 0, 0))
  {
    hide MulDiv, MulDivCeil;
    NoUnits(UNIT);
  }

  lemma ShortProfit()
    requires SMAX >= 100 * UNIT && UNIT >= 2
    ensures PnlValue(MOVED, BALANCED, OPENED_SHORT, ONE, UNIT) == Some((1, 1, UNIT - 1))
  {
    hide MulDiv;
    MulDivBack(1, UNIT - 1);
    MulDivBack(10 * UNIT, UNIT);
  }

  lemma ShortRemains()
    requires SMAX >= 100 * UNIT && UNIT >= 2
    ensures RemainingCollateral(MOVED, BALANCED, OPENED_SHORT, ONE) == Some(5 * UNIT + 1)
  {
    hide PnlValue, PositionPriceImpact, FeesFor, CapNegativeImpactForLiquidation;
    ShortProfit();
    ImpactOfShort();
    NotCounted(MOVED, UNIT);
    NoFeesFromShort(BALANCED, OPENED_SHORT, false);
    assert 5 * UNIT * 1 == 5 * UNIT;
  }

  /** With a liquidation factor of zero a negative impact does not count. */
  lemma NotCounted(cfg: Config, size: nat)
    requires cfg.position.maxImpactFactorForLiquidations == 0
    ensures CapNegativeImpactForLiquidation(cfg, -(size as int), -1) == Some(0)
  {
    hide ApplyFactor;
    FactorFacts(size);
  }

  lemma ShortAccepted()
    requires SMAX >= 100 * UNIT && UNIT >= 2
    ensures ValidateIncrease(MOVED, BALANCED, OPENED_SHORT, BALANCE).Some?
  {
    hide RemainingCollateral, ApplyFactor;
    ShortRemains();
    FactorFacts(UNIT);
    FactorFacts(10 * UNIT);
  }

  /** A short that makes up for part of the long imbalance is credited one unit of price impact: it owes one token
      less for the same size, and the impact pool holds one less. */
  lemma ImpactCredited()
    requires SMAX >= 100 * UNIT && UNIT >= 2
    ensures var execution := Execution(1, 1, UNIT - 1, UNIT / (UNIT - 1));
            Increase(MOVED, LOPSIDED, SHORT, BALANCE)
            == Some((BALANCED, OPENED_SHORT, IncreaseReport(execution, 5 * UNIT, NOTHING)))
  {
    hide GetExecution, FeesFor, ValidateIncrease, ApplyFactor;
    ShortExecution();
    NoFeesFromShort(LOPSIDED, SHORT, true);
    ShortAccepted();
    FactorFacts(0);
    FactorFacts(UNIT);
  }
}
