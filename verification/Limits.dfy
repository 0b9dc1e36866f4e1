/** Concrete states just outside the conditions of the general results. */
module Limits {
  import opened Options
  import opened Arith
  import opened Num
  import opened Utils
  import opened Price
  import opened Pool
  import opened PriceImpact
  import opened Fees
  import opened Params
  import opened State
  import opened DepositAction
  import opened WithdrawAction
  import opened PendingFees
  import opened ShareValue
  import opened Safety
  import opened Example

  /** A rise of the index price alone takes the reserved value above the reserve. */
  lemma PriceRiseBreaksReserve()
    requires SMAX >= 100
    ensures Safe(CONFIG, INCREASED, ONE)
    ensures !Safe(CONFIG, INCREASED, ONE.(index := Price(3, 3)))
  {
    hide ReserveLimit;
    Limit(ONE.long);
  }

  lemma Limit(price: Price)
    requires price == Price(1, 1)
    ensures ReserveLimit(CONFIG, 10, price) == 10
  {
    FloorExact(10, UNIT);
  }

  /** A market whose value is left over without any supply. */
  const LEFTOVER := EMPTY_MARKET.(primary := Pool(10, 10))

  lemma LeftoverLeg(m: Market, isLong: bool)
    requires SMAX >= 100 && m.supply == 0 && m.fee == EMPTY_POOL && m.primary.Amount(isLong) == 10
    ensures DepositLeg(CONFIG, m, isLong, 10, ONE, 20, 0, Pool(10, 10))
            == Some((m.(primary := m.primary.With(isLong, 20)), 30, NO_FEES))
  {
    hide FeeParams.ApplyFees, ImpactShare;
    FreeOfFees(false, 10);
    NoShare(isLong);
  }

  /** A first deposit of twenty into a pool worth twenty mints sixty, of which the left-over value makes up forty. */
  lemma LeftoverCreditedTwice()
    requires SMAX >= 100
    ensures PoolValue(CONFIG, LEFTOVER, ONE, MaxAfterDeposit, true) == Some(20)
    ensures Deposit(CONFIG, LEFTOVER, 10, 10, ONE)
            == Some((LEFTOVER.(primary := Pool(20, 20), supply := 60), DepositReport(60, 0, NO_FEES, NO_FEES)))
  {
    hide PoolValue, DepositLeg, ImpactOf, ValidateMaxPnl;
    LeftoverValue();
    LeftoverChecked();
    NoImpact(DepositDelta(LEFTOVER, 10, 10, ONE).value);
    LeftoverLeg(LEFTOVER, true);
    LeftoverLeg(LEFTOVER.(primary := Pool(20, 10)), false);
  }

  lemma LeftoverValue()
    requires SMAX >= 100
    ensures PoolValue(CONFIG, LEFTOVER, ONE, MaxAfterDeposit, true) == Some(20)
  {
    hide BorrowingFeesForPool, Pnl;
    NothingOpen(LEFTOVER, true);
    NothingOpen(LEFTOVER, false);
    NothingPending(LEFTOVER);
  }

  lemma LeftoverChecked()
    requires SMAX >= 100
    ensures ValidateMaxPnl(CONFIG, LEFTOVER, ONE, MaxAfterDeposit, MaxAfterDeposit).Some?
  {
    assert UNIT * 0 == 0;
    assert DivToFactorSigned(0, 10) == Some(0);
  }

  /** The smallest possible cap, and a long side whose profit of two is above its cap of one by rounding. */
  const CAPPED := CONFIG.(maxPnlAfterDeposit := Pool(1, 1))
  const DEAR := ONE.(index := Price(2, 2))
  const TIGHT := EMPTY_MARKET.(
    primary := Pool(2 * UNIT - 1, 0), openInterest := PoolPair(Pool(2, 0), EMPTY_POOL),
    openInterestInTokens := PoolPair(Pool(2, 0), EMPTY_POOL), supply := 2 * UNIT - 1)
  const LOOSENED := TIGHT.(primary := Pool(2 * UNIT, 0), supply := 2 * UNIT)

  lemma TightPnl(m: Market, maximize: bool)
    requires SMAX >= 100 * UNIT && m.openInterest == TIGHT.openInterest
    requires m.openInterestInTokens == TIGHT.openInterestInTokens
    ensures Pnl(m, DEAR.index, true, maximize) == Some(2) && Pnl(m, DEAR.index, false, maximize) == Some(0)
  {
  }

  lemma TightChecked()
    requires SMAX >= 100 * UNIT && UNIT >= 2
    ensures ValidateMaxPnl(CAPPED, TIGHT, DEAR, MaxAfterDeposit, MaxAfterDeposit).Some?
  {
    hide Pnl;
    TightPnl(TIGHT, true);
    FloorGreatest(1, UNIT * 2, 2 * UNIT - 1);
    FloorBelow(2, UNIT * 2, 2 * UNIT - 1);
    assert DivToFactorSigned(2, 2 * UNIT - 1) == Some(1);
  }

  lemma TightPower(divisor: nat)
    requires SMAX >= 100 * UNIT && divisor >= 1
    ensures ApplyExponentFactor(4, UNIT, CONFIG.fractionalPow).Some?
    ensures DivToFactor(ApplyExponentFactor(4, UNIT, CONFIG.fractionalPow).value, divisor).Some?
  {
    var power := ApplyExponentFactor(4, UNIT, CONFIG.fractionalPow).value;
    MulMono(power, 4, UNIT);
    MulMono(1, divisor, 4 * UNIT + 1);
    FloorBelow(4 * UNIT + 1, power * UNIT, divisor);
    FloorGreatest(0, power * UNIT, divisor);
  }

  lemma TightFees(m: Market, isLong: bool)
    requires SMAX >= 100 * UNIT && UNIT >= 2
    requires m == TIGHT || m == LOOSENED
    ensures TotalPendingBorrowingFees(CAPPED, m, DEAR, isLong) == Some(0)
  {
    hide ApplyFactor, ApplyExponentFactor;
    FactorFacts(2);
    FactorFacts(0);
    if isLong {
      TightPower(m.primary.long);
      FactorFacts(DivToFactor(ApplyExponentFactor(4, UNIT, CONFIG.fractionalPow).value, m.primary.long).value);
    }
  }

  lemma TightCap(poolValue: nat, capped: int)
    requires UNIT >= 2 && SMAX >= 100
    requires (poolValue == 2 * UNIT - 1 && capped == 1) || (poolValue == 2 * UNIT && capped == 2)
    ensures CapPnl(CAPPED, true, 2, poolValue, MaxAfterDeposit) == Some(capped)
  {
    FloorGreatest(capped, poolValue, UNIT);
    FloorBelow(capped + 1, poolValue, UNIT);
    assert poolValue * 1 == poolValue;
    assert ApplyFactor(poolValue, 1) == Some(capped);
  }

  lemma NoProfitToCap(poolValue: nat)
    ensures CapPnl(CAPPED, false, 0, poolValue, MaxAfterDeposit) == Some(0)
  {
  }

  lemma TightValue(m: Market)
    requires SMAX >= 100 * UNIT && UNIT >= 2
    requires m == TIGHT || m == LOOSENED
    ensures PoolValue(CAPPED, m, DEAR, MaxAfterDeposit, true) == Some(2 * UNIT - 2)
  {
    hide ApplyFactor, TotalPendingBorrowingFees, Pnl, CapPnl;
    FactorFacts(UNIT);
    TightFees(m, true);
    TightFees(m, false);
    TightPnl(m, false);
    TightCap(m.primary.long, if m == TIGHT then 1 else 2);
    NoProfitToCap(0);
  }

  lemma TightLeg()
    requires SMAX >= 100 * UNIT && UNIT >= 2
    ensures DepositLeg(CAPPED, TIGHT, true, 1, DEAR, 2 * UNIT - 2, 0, Pool(1, 0))
            == Some((TIGHT.(primary := Pool(2 * UNIT, 0)), 1, NO_FEES))
  {
    hide FeeParams.ApplyFees, ImpactShare, MulDiv;
    FreeOfFees(false, 1);
    TightShare();
    TightMint();
  }

  lemma TightShare()
    ensures ImpactShare(0, Pool(1, 0), true) == Some(0)
  {
  }

  lemma TightMint()
    requires SMAX >= 100 * UNIT && UNIT >= 2
    ensures MulDiv(2 * UNIT - 1, 1, 2 * UNIT - 2) == Some(1)
  {
    FloorGreatest(1, 2 * UNIT - 1, 2 * UNIT - 2);
    FloorBelow(2, 2 * UNIT - 1, 2 * UNIT - 2);
    assert (2 * UNIT - 1) * 1 == 2 * UNIT - 1;
  }

  lemma TightAboveCap()
    requires SMAX >= 100 * UNIT && UNIT >= 2
    ensures !BothBelowCap(CAPPED, TIGHT, DEAR, MaxAfterDeposit, true)
  {
    hide Pnl, CapPnl;
    TightPnl(TIGHT, false);
    TightCap(2 * UNIT - 1, 1);
  }

  /** A deposit of one token lifts the cap of the tight market by one whole unit, which releases more profit than
      the deposit is worth beyond what it mints for: the value of a market token falls. */
  lemma DepositUnderCapLowersShareValue()
    requires SMAX >= 100 * UNIT && UNIT >= 2
    ensures Deposit(CAPPED, TIGHT, 1, 0, DEAR) == Some((LOOSENED, DepositReport(1, 0, NO_FEES, NO_FEES)))
    ensures !BothBelowCap(CAPPED, TIGHT, DEAR, MaxAfterDeposit, true)
    ensures var before := PoolValue(CAPPED, TIGHT, DEAR, MaxAfterDeposit, true);
            var after := PoolValue(CAPPED, LOOSENED, DEAR, MaxAfterDeposit, true);
            before.Some? && after.Some? && after.value * TIGHT.supply < before.value * LOOSENED.supply
  {
    hide Deposit, PoolValue, BothBelowCap;
    TightDeposit();
    TightValue(TIGHT);
    TightValue(LOOSENED);
    TightAboveCap();
    assert (2 * UNIT - 2) * (2 * UNIT) == (2 * UNIT - 2) * (2 * UNIT - 1) + (2 * UNIT - 2);
  }

  lemma TightDeposit()
    requires SMAX >= 100 * UNIT && UNIT >= 2
    ensures Deposit(CAPPED, TIGHT, 1, 0, DEAR) == Some((LOOSENED, DepositReport(1, 0, NO_FEES, NO_FEES)))
  {
    hide PoolValue, DepositOne, ImpactOf, ValidateMaxPnl;
    TightValue(TIGHT);
    TightChecked();
    NoImpact(DepositDelta(TIGHT, 1, 0, DEAR).value);
    TightLeg();
  }

  /** Borrowing at a rate of the reserved value over the pool value, and a side that reserves all of its pool for
      one second. */
  const LENDING := CONFIG.(borrowing := BorrowingParams(0, Pool(UNIT, UNIT), Pool(UNIT, UNIT), false))
  const BORROWED := EMPTY_MARKET.(
    primary := Pool(4 * UNIT, 0), openInterest := PoolPair(Pool(4 * UNIT, 0), EMPTY_POOL),
    openInterestInTokens := PoolPair(Pool(4 * UNIT, 0), EMPTY_POOL), supply := 8 * UNIT, now := 1,
    clocks := Clocks(None, Some(0), None))
  const REFILLED := BORROWED.(primary := Pool(8 * UNIT, 0), supply := 12 * UNIT)

  lemma LendingRate(m: Market, rate: nat)
    requires SMAX >= 100 * UNIT
    requires (m == BORROWED && rate == UNIT) || (m == REFILLED && rate == UNIT / 2)
    ensures BorrowingRate(LENDING, m, ONE, true) == Some(rate) && BorrowingRate(LENDING, m, ONE, false) == Some(0)
  {
    hide ApplyFactor;
    LendingRatio(m.primary.long, rate);
    FactorFacts(rate);
  }

  lemma LendingRatio(poolValue: nat, rate: nat)
    requires SMAX >= 100 * UNIT
    requires (poolValue == 4 * UNIT && rate == UNIT) || (poolValue == 8 * UNIT && rate == UNIT / 2)
    ensures DivToFactor(4 * UNIT, poolValue) == Some(rate)
  {
    if poolValue == 4 * UNIT {
      WholeRatio(UNIT);
    } else {
      HalfRatio(UNIT);
    }
  }

  lemma WholeRatio(unit: nat)
    requires unit > 0
    ensures 4 * unit * unit / (4 * unit) == unit
  {
    hide *;
    assert 4 * unit * unit == unit * (4 * unit);
    FloorExact(unit, 4 * unit);
  }

  lemma HalfRatio(unit: nat)
    requires unit > 0
    ensures 4 * unit * unit / (8 * unit) == unit / 2
  {
    hide *;
    var rate := unit / 2;
    assert 4 * unit * unit == unit * (4 * unit);
    MulMono(2 * rate, unit, 4 * unit);
    MulMono(unit + 1, 2 * (rate + 1), 4 * unit);
    assert 2 * rate * (4 * unit) == rate * (8 * unit);
    assert 2 * (rate + 1) * (4 * unit) == (rate + 1) * (8 * unit);
    assert (unit + 1) * (4 * unit) == unit * (4 * unit) + 4 * unit;
    FloorGreatest(rate, 4 * unit * unit, 8 * unit);
    FloorBelow(rate + 1, 4 * unit * unit, 8 * unit);
  }

  lemma LendingPnl(m: Market, isLong: bool, kind: PnlKind, maximize: bool)
    requires SMAX >= 100 * UNIT && m.openInterest == BORROWED.openInterest
    requires m.openInterestInTokens == BORROWED.openInterestInTokens
    ensures Pnl(m, ONE.index, isLong, maximize) == Some(0)
    ensures forall poolValue: nat :: CapPnl(LENDING, isLong, 0, poolValue, kind) == Some(0)
  {
  }

  lemma LendingFees(m: Market, rate: nat)
    requires SMAX >= 100 * UNIT && rate <= UNIT
    requires BorrowingRate(LENDING, m, ONE, true) == Some(rate) && BorrowingRate(LENDING, m, ONE, false) == Some(0)
    requires m == BORROWED || m == REFILLED
    ensures BorrowingFeesForPool(LENDING, m, ONE) == Some(4 * rate)
  {
    hide BorrowingRate, ApplyFactor;
    LendingPart(rate);
    FactorFacts(0);
    FactorFacts(4 * rate);
  }

  lemma LendingPart(rate: nat)
    requires SMAX >= 100 * UNIT && rate <= UNIT
    ensures ApplyFactor(4 * UNIT, rate) == Some(4 * rate)
  {
    assert 4 * UNIT * rate == 4 * rate * UNIT;
    FloorExact(4 * rate, UNIT);
  }

  lemma LendingValue(m: Market, rate: nat)
    requires SMAX >= 100 * UNIT
    requires (m == BORROWED && rate == UNIT) || (m == REFILLED && rate == UNIT / 2)
    ensures BorrowingFeesForPool(LENDING, m, ONE) == Some(4 * rate)
    ensures PoolValue(LENDING, m, ONE, MaxAfterDeposit, true) == Some(m.primary.long + 4 * rate)
    ensures BothBelowCap(LENDING, m, ONE, MaxAfterDeposit, true)
  {
    hide BorrowingFeesForPool, BorrowingRate, Pnl, CapPnl;
    LendingRate(m, rate);
    LendingFees(m, rate);
    LendingPnl(m, true, MaxAfterDeposit, false);
    LendingPnl(m, false, MaxAfterDeposit, false);
  }

  lemma LendingChecked()
    requires SMAX >= 100 * UNIT
    ensures ValidateMaxPnl(LENDING, BORROWED, ONE, MaxAfterDeposit, MaxAfterDeposit).Some?
  {
    hide Pnl;
    LendingPnl(BORROWED, true, MaxAfterDeposit, true);
    LendingPnl(BORROWED, false, MaxAfterDeposit, true);
    assert UNIT * 0 == 0;
    assert DivToFactorSigned(0, 4 * UNIT) == Some(0);
  }

  lemma LendingLeg()
    requires SMAX >= 100 * UNIT
    ensures DepositLeg(LENDING, BORROWED, true, 4 * UNIT, ONE, 8 * UNIT, 0, Pool(4 * UNIT, 0))
            == Some((BORROWED.(primary := Pool(8 * UNIT, 0)), 4 * UNIT, NO_FEES))
  {
    hide FeeParams.ApplyFees, ImpactShare, MulDiv;
    FreeOfFees(false, 4 * UNIT);
    LendingShare();
    LendingMint();
  }

  lemma LendingMint()
    requires SMAX >= 100 * UNIT
    ensures MulDiv(8 * UNIT, 4 * UNIT, 8 * UNIT) == Some(4 * UNIT)
  {
    assert 8 * UNIT * (4 * UNIT) == 4 * UNIT * (8 * UNIT);
    FloorExact(4 * UNIT, 8 * UNIT);
  }

  lemma LendingShare()
    requires SMAX >= 100 * UNIT
    ensures ImpactShare(0, Pool(4 * UNIT, 0), true) == Some(0)
  {
  }

  lemma LendingDeposit()
    requires SMAX >= 100 * UNIT
    ensures Deposit(LENDING, BORROWED, 4 * UNIT, 0, ONE)
            == Some((REFILLED, DepositReport(4 * UNIT, 0, NO_FEES, NO_FEES)))
  {
    hide PoolValue, DepositLeg, DepositImpact, ValidateMaxPnl;
    LendingValue(BORROWED, UNIT);
    LendingChecked();
    LendingImpact();
    LendingLeg();
    NothingDeposited(REFILLED.(supply := 8 * UNIT));
  }

  lemma LendingImpact()
    requires SMAX >= 100 * UNIT
    ensures DepositImpact(LENDING, BORROWED, 4 * UNIT, 0, ONE) == Some((0, Pool(4 * UNIT, 0)))
  {
    hide ImpactOf;
    NoImpact(DepositDelta(BORROWED, 4 * UNIT, 0, ONE).value);
  }

  lemma NothingDeposited(m: Market)
    ensures DepositLeg(LENDING, m, false, 0, ONE, 8 * UNIT, 0, Pool(4 * UNIT, 0)) == Some((m, 0, NO_FEES))
  {
  }

  /** Doubling the pool halves the borrowing rate, and with it the fees pending since the last update. With both sides
      below their caps and nothing rounded but the new rate, a market token loses at least a sixth of its value. */
  lemma DepositLowersPendingFees()
    requires SMAX >= 100 * UNIT
    ensures Deposit(LENDING, BORROWED, 4 * UNIT, 0, ONE)
            == Some((REFILLED, DepositReport(4 * UNIT, 0, NO_FEES, NO_FEES)))
    ensures BothBelowCap(LENDING, BORROWED, ONE, MaxAfterDeposit, true)
    ensures BothBelowCap(LENDING, REFILLED, ONE, MaxAfterDeposit, true)
    ensures FeesLost(LENDING, BORROWED, REFILLED, ONE) >= 2 * UNIT
    ensures var before := PoolValue(LENDING, BORROWED, ONE, MaxAfterDeposit, true);
            var after := PoolValue(LENDING, REFILLED, ONE, MaxAfterDeposit, true);
            before.Some? && after.Some? && 6 * after.value * BORROWED.supply <= 5 * before.value * REFILLED.supply
  {
    hide Deposit, PoolValue, BothBelowCap, BorrowingFeesForPool;
    LendingDeposit();
    LendingValue(BORROWED, UNIT);
    LendingValue(REFILLED, UNIT / 2);
    MulMono(6 * (8 * UNIT + 4 * (UNIT / 2)), 60 * UNIT, 8 * UNIT);
    assert 60 * UNIT * (8 * UNIT) == 5 * (8 * UNIT) * (12 * UNIT);
  }

  /** A kink model whose reserve is one unit of USD for a whole unit of liquidity, and nothing for any less. */
  const STEEP := KinkParams(UNIT, UNIT, UNIT)
  const KINKED := CONFIG.(kinkLong := STEEP, kinkShort := STEEP, openInterestReserveFactor := 1)
  const MEASURED := EMPTY_MARKET.(
    primary := Pool(UNIT, 0), openInterest := PoolPair(Pool(1, 0), EMPTY_POOL),
    openInterestInTokens := PoolPair(Pool(1, 0), EMPTY_POOL), supply := UNIT, now := 1,
    clocks := Clocks(None, Some(0), None))
  const UNMEASURED := MEASURED.(primary := Pool(UNIT - 1, 0), supply := UNIT - 1)

  lemma KinkedRate(m: Market, rate: nat)
    requires SMAX >= 100 * UNIT && UNIT >= 2
    requires (m == MEASURED && rate == UNIT) || (m == UNMEASURED && rate == 0)
    ensures BorrowingRate(KINKED, m, ONE, true) == Some(rate) && BorrowingRate(KINKED, m, ONE, false) == Some(0)
  {
    hide ApplyFactor, DivToFactor;
    KinkedReserve(m.primary.long, rate / UNIT);
    FloorExact(1, 1);
    FactorFacts(rate);
    assert 1 * UNIT / 1 == UNIT;
    KinkedUsage();
    FloorExact(1, UNIT);
    FloorExact(0, UNIT);
  }

  lemma KinkedUsage()
    requires SMAX >= 100 * UNIT
    ensures DivToFactor(1, 1) == Some(UNIT) && DivToFactor(1, 0) == Some(0)
  {
    assert 1 * UNIT / 1 == UNIT;
  }

  lemma KinkedReserve(liquidity: nat, reserve: nat)
    requires SMAX >= 100 * UNIT && UNIT >= 2
    requires (liquidity == UNIT && reserve == 1) || (liquidity == UNIT - 1 && reserve == 0)
    ensures ApplyFactor(liquidity, 1) == Some(reserve)
  {
    FloorGreatest(reserve, liquidity, UNIT);
    FloorBelow(reserve + 1, liquidity, UNIT);
    assert liquidity * 1 == liquidity;
  }

  lemma KinkedPnl(m: Market, isLong: bool, kind: PnlKind, maximize: bool)
    requires SMAX >= 100 * UNIT
    requires m.openInterest == MEASURED.openInterest && m.openInterestInTokens == MEASURED.openInterestInTokens
    ensures Pnl(m, ONE.index, isLong, maximize) == Some(0)
    ensures forall poolValue: nat :: CapPnl(KINKED, isLong, 0, poolValue, kind) == Some(0)
  {
  }

  lemma KinkedFees(m: Market, rate: nat)
    requires SMAX >= 100 * UNIT && UNIT >= 2
    requires (m == MEASURED && rate == UNIT) || (m == UNMEASURED && rate == 0)
    ensures BorrowingFeesForPool(KINKED, m, ONE) == Some(rate / UNIT)
  {
    hide BorrowingRate, ApplyFactor;
    KinkedRate(m, rate);
    FloorExact(1, UNIT);
    FloorExact(0, UNIT);
    FactorFacts(0);
    FactorFacts(1);
  }

  lemma KinkedValue(m: Market, rate: nat)
    requires SMAX >= 100 * UNIT && UNIT >= 2
    requires (m == MEASURED && rate == UNIT) || (m == UNMEASURED && rate == 0)
    ensures PoolValue(KINKED, m, ONE, MaxAfterWithdrawal, false) == Some(m.primary.long + rate / UNIT)
  {
    hide BorrowingFeesForPool, Pnl, CapPnl;
    FloorExact(1, UNIT);
    FloorExact(0, UNIT);
    KinkedFees(m, rate);
    KinkedPnl(m, true, MaxAfterWithdrawal, true);
    KinkedPnl(m, false, MaxAfterWithdrawal, true);
  }

  lemma KinkedOutputs()
    requires SMAX >= 100 * UNIT && UNIT >= 2
    ensures OutputAmounts(KINKED, MEASURED, 1, ONE) == Some((1, 0))
  {
    hide PoolValue;
    FloorExact(1, UNIT);
    KinkedValue(MEASURED, UNIT);
    FloorGreatest(1, UNIT + 1, UNIT);
    FloorBelow(2, UNIT + 1, UNIT);
    assert (UNIT + 1) * 1 == UNIT + 1;
    assert 1 * UNIT == UNIT && 1 * 0 == 0;
    FloorExact(0, UNIT);
  }

  lemma KinkedChecked(m: Market)
    requires SMAX >= 100 * UNIT && UNIT >= 2 && m == UNMEASURED.(supply := UNIT)
    ensures ValidateWithdrawal(KINKED, m, ONE).Some?
  {
    hide ApplyFactor, Pnl;
    FactorFacts(0);
    FactorFacts(UNIT - 1);
    KinkedPnl(m, true, MaxAfterWithdrawal, true);
    KinkedPnl(m, false, MaxAfterWithdrawal, true);
    assert UNIT * 0 == 0;
    assert DivToFactorSigned(0, UNIT - 1) == Some(0);
  }

  /** The smallest withdrawal takes the reserve that the usage is measured against from one to nothing. The rate then
      counts as zero, the pending fees vanish, and the value of the market tokens that remain falls. */
  lemma WithdrawToRoundedReserve()
    requires SMAX >= 100 * UNIT && UNIT >= 2
    ensures Withdraw(KINKED, MEASURED, 1, ONE) == Some((UNMEASURED, WithdrawReport(NO_FEES, NO_FEES, 1, 0)))
    ensures !FeesFollowLiquidity(KINKED, UNMEASURED, ONE)
    ensures var before := PoolValue(KINKED, MEASURED, ONE, MaxAfterWithdrawal, false);
            var after := PoolValue(KINKED, UNMEASURED, ONE, MaxAfterWithdrawal, false);
            before.Some? && after.Some? && after.value * MEASURED.supply < before.value * UNMEASURED.supply
  {
    hide OutputAmounts, WithdrawOne, ValidateWithdrawal, PoolValue;
    KinkedOutputs();
    OutSucceeds(KINKED, MEASURED, true, 1);
    OutSucceeds(KINKED, UNMEASURED.(supply := UNIT), false, 0);
    KinkedChecked(UNMEASURED.(supply := UNIT));
    KinkedValue(MEASURED, UNIT);
    KinkedValue(UNMEASURED, 0);
    FloorExact(1, UNIT);
    FloorExact(0, UNIT);
    FloorBelow(1, UNIT - 1, UNIT);
    assert (UNIT + 1) * (UNIT - 1) == (UNIT - 1) * UNIT + (UNIT - 1);
  }
}
