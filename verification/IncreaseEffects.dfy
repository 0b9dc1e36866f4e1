/** What one increase of a position does to the market and to the position. */
module IncreaseEffects {
  import opened Options
  import opened Num
  import opened Pool
  import opened Fees
  import opened Params
  import opened State
  import opened PositionState
  import opened IncreaseAction

  /** `amount` where the condition holds, zero elsewhere. */
  function When(condition: bool, amount: int): int {
    if condition then amount else 0
  }

  function BorrowedFor(size: nat, factor: nat): nat {
    size * factor / UNIT
  }

  /** The part of the total borrowing that a position accounts for. */
  function Borrowed(p: Position): nat {
    BorrowedFor(p.sizeUsd, p.borrowingFactor)
  }

  lemma ProcessCollateralEffect(
    cfg: Config, m: Market, p: Position, params: IncreaseParams, positiveImpact: bool, isLong: bool, t: bool)
    requires ProcessCollateral(cfg, m, p, params, positiveImpact).Some?
    ensures var (next, delta, fees) := ProcessCollateral(cfg, m, p, params, positiveImpact).value;
            && FeesFor(cfg, m, p, CollateralPrice(p, params.prices), params.sizeDelta, positiveImpact) == Some(fees)
            && fees.ForReceiver().Some? && fees.ForPool().Some?
            && next == m.(fee := next.fee, primary := next.primary, collateralSum := next.collateralSum)
            && next.fee.Amount(t) == m.fee.Amount(t) + When(p.isCollateralLong == t, fees.ForReceiver().value)
            && next.primary.Amount(t) == m.primary.Amount(t) + When(p.isCollateralLong == t, fees.ForPool().value)
            && next.collateralSum.Side(isLong).Amount(t)
               == m.collateralSum.Side(isLong).Amount(t) + When(p.isLong == isLong && p.isCollateralLong == t, delta)
            && params.collateral == delta + fees.ForReceiver().value + fees.ForPool().value + fees.funding.amount
  {
    hide FeesFor;
    CostSplits(ProcessCollateral(cfg, m, p, params, positiveImpact).value.2);
  }

  lemma UpdateTotalBorrowingEffect(m: Market, p: Position, nextSize: nat, nextFactor: nat, isLong: bool)
    requires UpdateTotalBorrowing(m, p, nextSize, nextFactor).Some?
    ensures var next := UpdateTotalBorrowing(m, p, nextSize, nextFactor).value;
            && next == m.(totalBorrowing := next.totalBorrowing)
            && next.totalBorrowing.Amount(isLong)
               == m.totalBorrowing.Amount(isLong)
               + When(p.isLong == isLong, BorrowedFor(nextSize, nextFactor) - Borrowed(p))
  {
  }

  lemma UpdateOpenInterestEffect(
    cfg: Config, m: Market, p: Position, sizeDelta: int, tokens: int, isLong: bool, t: bool)
    requires UpdateOpenInterest(cfg, m, p, sizeDelta, tokens).Some?
    requires sizeDelta == 0 ==> tokens == 0
    requires sizeDelta >= 0
    ensures var next := UpdateOpenInterest(cfg, m, p, sizeDelta, tokens).value;
            && next == m.(openInterest := next.openInterest, openInterestInTokens := next.openInterestInTokens)
            && next.openInterest.Side(isLong).Amount(t)
               == m.openInterest.Side(isLong).Amount(t) + When(p.isLong == isLong && p.isCollateralLong == t, sizeDelta)
            && next.openInterestInTokens.Side(isLong).Amount(t)
               == m.openInterestInTokens.Side(isLong).Amount(t)
               + When(p.isLong == isLong && p.isCollateralLong == t, tokens)
            && (sizeDelta > 0 ==> next.openInterest.Side(p.isLong).Sum() <= cfg.maxOpenInterest.Amount(p.isLong))
  {
  }

  /** A zero size buys no tokens and causes no impact. */
  lemma NoSizeNoTokens(cfg: Config, m: Market, isLong: bool, params: IncreaseParams)
    requires GetExecution(cfg, m, isLong, params).Some? && params.sizeDelta == 0
    ensures var e := GetExecution(cfg, m, isLong, params).value;
            e.tokens == 0 && e.impactAmount == 0 && e.impactValue == 0
  {
  }

  /** The market and position after an increase, field by field. */
  predicate IncreaseEffect(
    cfg: Config, m: Market, position: Position, params: IncreaseParams, next: Market, grown: Position,
    r: IncreaseReport, isLong: bool, t: bool)
  {
    var p := InitializeIfEmpty(m, position);
    var e := r.execution;
    && GetExecution(cfg, m, p.isLong, params) == Some(e)
    && FeesFor(cfg, m, p, CollateralPrice(p, params.prices), params.sizeDelta, e.impactValue > 0) == Some(r.fees)
    && r.fees.ForReceiver().Some? && r.fees.ForPool().Some?
    && params.collateral
       == r.collateralDelta + r.fees.ForReceiver().value + r.fees.ForPool().value + r.fees.funding.amount
    && p.collateral + r.collateralDelta >= 0
    && grown == Grown(m, p, p.collateral + r.collateralDelta, p.sizeUsd + params.sizeDelta, p.sizeTokens + e.tokens)
    && next == m.(primary := next.primary, fee := next.fee, openInterest := next.openInterest,
                  openInterestInTokens := next.openInterestInTokens, collateralSum := next.collateralSum,
                  positionImpact := next.positionImpact, totalBorrowing := next.totalBorrowing)
    && next.primary.Amount(t) == m.primary.Amount(t) + When(p.isCollateralLong == t, r.fees.ForPool().value)
    && next.fee.Amount(t) == m.fee.Amount(t) + When(p.isCollateralLong == t, r.fees.ForReceiver().value)
    && next.openInterest.Side(isLong).Amount(t)
       == m.openInterest.Side(isLong).Amount(t) + When(p.isLong == isLong && p.isCollateralLong == t, params.sizeDelta)
    && next.openInterestInTokens.Side(isLong).Amount(t)
       == m.openInterestInTokens.Side(isLong).Amount(t) + When(p.isLong == isLong && p.isCollateralLong == t, e.tokens)
    && next.collateralSum.Side(isLong).Amount(t)
       == m.collateralSum.Side(isLong).Amount(t)
       + When(p.isLong == isLong && p.isCollateralLong == t, r.collateralDelta)
    && next.positionImpact.Amount(true) == m.positionImpact.Amount(true) - e.impactAmount
    && next.totalBorrowing.Amount(isLong)
       == m.totalBorrowing.Amount(isLong) + When(p.isLong == isLong, Borrowed(grown) - Borrowed(p))
    && (params.sizeDelta > 0 ==> next.openInterest.Side(p.isLong).Sum() <= cfg.maxOpenInterest.Amount(p.isLong))
  }

  /** The states an increase passes through. */
  lemma IncreaseParts(cfg: Config, m: Market, position: Position, params: IncreaseParams)
    returns (processed: Market, withImpact: Market, borrowed: Market)
    requires Increase(cfg, m, position, params).Some?
    ensures var (next, grown, r) := Increase(cfg, m, position, params).value;
            var p, e := InitializeIfEmpty(m, position), r.execution;
            && GetExecution(cfg, m, p.isLong, params) == Some(e)
            && ProcessCollateral(cfg, m, p, params, e.impactValue > 0) == Some((processed, r.collateralDelta, r.fees))
            && withImpact == processed.(positionImpact := withImpact.positionImpact)
            && withImpact.positionImpact.Amount(true) == processed.positionImpact.Amount(true) - e.impactAmount
            && UpdateTotalBorrowing(withImpact, p, p.sizeUsd + params.sizeDelta,
                                    withImpact.borrowingFactor.Amount(p.isLong))
               == Some(borrowed)
            && p.collateral + r.collateralDelta >= 0
            && grown == Grown(borrowed, p, p.collateral + r.collateralDelta, p.sizeUsd + params.sizeDelta,
                              p.sizeTokens + e.tokens)
            && UpdateOpenInterest(cfg, borrowed, grown, params.sizeDelta, e.tokens) == Some(next)
  {
    hide GetExecution, ProcessCollateral, UpdateTotalBorrowing, UpdateOpenInterest, ValidateIncrease,
      InitializeIfEmpty, Grown;
    var p := InitializeIfEmpty(m, position);
    var e := GetExecution(cfg, m, p.isLong, params).value;
    processed := ProcessCollateral(cfg, m, p, params, e.impactValue > 0).value.0;
    withImpact := processed.(positionImpact := processed.positionImpact.ApplyDelta(true, -e.impactAmount).value);
    borrowed := UpdateTotalBorrowing(withImpact, p, p.sizeUsd + params.sizeDelta,
                                     withImpact.borrowingFactor.Amount(p.isLong)).value;
  }

  lemma GrownFacts(m: Market, borrowed: Market, p: Position, collateral: nat, size: nat, tokens: nat)
    requires borrowed.borrowingFactor == m.borrowingFactor
    requires borrowed.fundingPerSize == m.fundingPerSize && borrowed.claimablePerSize == m.claimablePerSize
    ensures var grown := Grown(borrowed, p, collateral, size, tokens);
            && grown == Grown(m, p, collateral, size, tokens)
            && grown.isLong == p.isLong && grown.isCollateralLong == p.isCollateralLong
            && Borrowed(grown) == BorrowedFor(size, m.borrowingFactor.Amount(p.isLong))
  {
    hide BorrowedFor;
  }

  lemma IncreaseHasEffect(cfg: Config, m: Market, position: Position, params: IncreaseParams, isLong: bool, t: bool)
    requires Increase(cfg, m, position, params).Some?
    ensures var (next, grown, r) := Increase(cfg, m, position, params).value;
            IncreaseEffect(cfg, m, position, params, next, grown, r, isLong, t)
  {
    hide Increase, GetExecution, ProcessCollateral, UpdateTotalBorrowing, UpdateOpenInterest, FeesFor, BorrowedFor,
      PositionFees.ForReceiver, PositionFees.ForPool, When, Pool.Amount, PoolPair.Side, Pool.Sum, InitializeIfEmpty,
      Grown, Borrowed;
    var (next, grown, r) := Increase(cfg, m, position, params).value;
    var processed, withImpact, borrowed := IncreaseParts(cfg, m, position, params);
    var p, e := InitializeIfEmpty(m, position), r.execution;
    if params.sizeDelta == 0 {
      NoSizeNoTokens(cfg, m, p.isLong, params);
    }
    ProcessCollateralEffect(cfg, m, p, params, e.impactValue > 0, isLong, t);
    UpdateTotalBorrowingEffect(withImpact, p, p.sizeUsd + params.sizeDelta,
                               withImpact.borrowingFactor.Amount(p.isLong), isLong);
    GrownFacts(m, borrowed, p, p.collateral + r.collateralDelta, p.sizeUsd + params.sizeDelta, p.sizeTokens + e.tokens);
    UpdateOpenInterestEffect(cfg, borrowed, grown, params.sizeDelta, e.tokens, isLong, t);
  }
}
