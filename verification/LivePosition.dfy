/** A position as an object (the position of `test.rs`), and its increase, which updates the position and
    the market in place. */
module LivePosition {
  import opened Options
  import opened Num
  import opened Utils
  import opened Price
  import opened Pool
  import opened Fees
  import opened State
  import opened PositionState
  import opened IncreaseAction
  import opened LiveMarket

  /** The update of the total borrowing does not depend on the collateral of the position. */
  lemma CollateralUnused(m: Market, p: Position, collateral: nat, nextSize: nat, nextFactor: nat)
    ensures UpdateTotalBorrowing(m, p.(collateral := collateral), nextSize, nextFactor)
            == UpdateTotalBorrowing(m, p, nextSize, nextFactor)
  {
  }

  class TestPosition {
    const isLong: bool
    const isCollateralLong: bool
    var collateral: nat
    var sizeUsd: nat
    var sizeTokens: nat
    var borrowingFactor: nat
    var fundingPerSize: nat
    var claimablePerSize: Pool

    function View(): Position
      reads this
    {
      Position(isLong, isCollateralLong, collateral, sizeUsd, sizeTokens, borrowingFactor, fundingPerSize,
               claimablePerSize)
    }

    constructor Empty(isLong: bool, isCollateralLong: bool)
      ensures View() == EmptyPosition(isLong, isCollateralLong)
    {
      this.isLong := isLong;
      this.isCollateralLong := isCollateralLong;
      collateral, sizeUsd, sizeTokens, borrowingFactor, fundingPerSize := 0, 0, 0, 0, 0;
      claimablePerSize := EMPTY_POOL;
    }

    /** Move every funding checkpoint to the market's current value. */
    method UpdateFundingCheckpoints(market: TestMarket)
      modifies this`fundingPerSize, this`claimablePerSize
      ensures View() == old(View()).(
                          fundingPerSize := market.fundingPerSize.Side(isLong).Amount(isCollateralLong),
                          claimablePerSize := market.claimablePerSize.Side(isLong))
    {
      fundingPerSize := market.fundingPerSize.Side(isLong).Amount(isCollateralLong);
      ghost var latest := market.claimablePerSize.Side(isLong);
      for i := 0 to |COLLATERALS|
        invariant fundingPerSize == market.fundingPerSize.Side(isLong).Amount(isCollateralLong)
        invariant i > 0 ==> claimablePerSize.long == latest.long
        invariant i > 1 ==> claimablePerSize.short == latest.short
      {
        claimablePerSize := claimablePerSize.With(COLLATERALS[i],
                                                  market.claimablePerSize.Side(isLong).Amount(COLLATERALS[i]));
      }
    }

    method InitializeIfEmptyIn(market: TestMarket)
      modifies this
      ensures View() == InitializeIfEmpty(market.View(), old(View()))
    {
      if sizeUsd == 0 {
        sizeTokens := 0;
        UpdateFundingCheckpoints(market);
      }
    }

    /** Charge the fees and distribute them over the pools. */
    method ProcessCollateralIn(market: TestMarket, params: IncreaseParams, positiveImpact: bool)
      returns (r: Option<(int, PositionFees)>)
      modifies market
      ensures var spec := ProcessCollateral(market.cfg, old(market.View()), View(), params, positiveImpact);
              && (r.Some? <==> spec.Some?)
              && (r.Some? ==> market.View() == spec.value.0 && r.value == (spec.value.1, spec.value.2))
    {
      hide FeesFor, PositionFees.TotalCost, PositionFees.ForReceiver, PositionFees.ForPool, Pool.ApplyDelta;
      var delta :- ToSigned(params.collateral);
      var fees :- FeesFor(market.cfg, market.View(), View(), CollateralPrice(View(), params.prices),
                          params.sizeDelta, positiveImpact);
      var cost :- fees.TotalCost();
      var signedCost :- ToSigned(cost);
      delta :- CheckedSigned(delta - signedCost);
      var forReceiver :- fees.ForReceiver();
      var signedReceiver :- ToSigned(forReceiver);
      var _ :- market.ApplyDeltaToFee(isCollateralLong, signedReceiver);
      var forPool :- fees.ForPool();
      var signedPool :- ToSigned(forPool);
      var _ :- market.ApplyDelta(isCollateralLong, signedPool);
      var sum :- market.collateralSum.ApplyDelta(isLong, isCollateralLong, delta);
      market.collateralSum := sum;
      return Some((delta, fees));
    }

    /** Replace the position's part of the total borrowing. */
    method UpdateTotalBorrowingIn(market: TestMarket, nextSize: nat, nextFactor: nat) returns (r: Option<()>)
      modifies market`totalBorrowing
      ensures var spec := UpdateTotalBorrowing(old(market.View()), View(), nextSize, nextFactor);
              (r.Some? <==> spec.Some?) && (r.Some? ==> market.View() == spec.value)
    {
      var previous :- ApplyFactor(sizeUsd, borrowingFactor);
      var next :- ApplyFactor(nextSize, nextFactor);
      var delta :- SignedSub(next, previous);
      var total :- market.totalBorrowing.ApplyDelta(isLong, delta);
      market.totalBorrowing := total;
      return Some(());
    }

    /** Add to the open interest; a positive change is checked against the maximum before the tokens are
        added. */
    method UpdateOpenInterestIn(market: TestMarket, sizeDelta: int, tokens: int) returns (r: Option<()>)
      modifies market`openInterest, market`openInterestInTokens
      ensures var spec := UpdateOpenInterest(market.cfg, old(market.View()), View(), sizeDelta, tokens);
              (r.Some? <==> spec.Some?) && (r.Some? ==> market.View() == spec.value)
    {
      hide Pool.ApplyDelta;
      if sizeDelta == 0 {
        return Some(());
      }
      var interest :- market.openInterest.ApplyDelta(isLong, isCollateralLong, sizeDelta);
      market.openInterest := interest;
      if sizeDelta > 0 {
        var total :- market.openInterest.Side(isLong).Total();
        if total > market.cfg.maxOpenInterest.Amount(isLong) {
          return None;
        }
      }
      var inTokens :- market.openInterestInTokens.ApplyDelta(isLong, isCollateralLong, tokens);
      market.openInterestInTokens := inTokens;
      return Some(());
    }

    /** Open or increase the position. */
    method IncreaseIn(market: TestMarket, params: IncreaseParams) returns (r: Option<IncreaseReport>)
      modifies this, market
      ensures var spec := Increase(market.cfg, old(market.View()), old(View()), params);
              && (r.Some? <==> spec.Some?)
              && (r.Some? ==> (market.View(), View(), r.value) == spec.value)
    {
      hide GetExecution, ProcessCollateral, UpdateTotalBorrowing, UpdateOpenInterest, ValidateIncrease,
        Prices.IsValid, Pool.ApplyDelta;
      if !params.prices.IsValid() {
        return None;
      }
      InitializeIfEmptyIn(market);
      var execution :- GetExecution(market.cfg, market.View(), isLong, params);
      var processed :- ProcessCollateralIn(market, params, execution.impactValue > 0);
      collateral :- AddWithSigned(collateral, processed.0);
      var impactDelta :- CheckedSigned(-execution.impactAmount);
      var _ :- market.ApplyDeltaToPositionImpact(impactDelta);
      var nextSize :- CheckedAdd(sizeUsd, params.sizeDelta);
      var nextFactor := market.borrowingFactor.Amount(isLong);
      CollateralUnused(market.View(), InitializeIfEmpty(old(market.View()), old(View())), collateral, nextSize,
                       nextFactor);
      var _ :- UpdateTotalBorrowingIn(market, nextSize, nextFactor);
      sizeUsd := nextSize;
      sizeTokens :- CheckedAdd(sizeTokens, execution.tokens);
      UpdateFundingCheckpoints(market);
      borrowingFactor := nextFactor;
      var sizeDelta :- ToSigned(params.sizeDelta);
      var tokensDelta :- ToSigned(execution.tokens);
      var _ :- UpdateOpenInterestIn(market, sizeDelta, tokensDelta);
      var _ :- ValidateIncrease(market.cfg, market.View(), View(), params);
      return Some(IncreaseReport(execution, processed.0, processed.1));
    }
  }
}
