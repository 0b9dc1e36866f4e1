/** How a change of liquidity bears on the pending borrowing fees. */
module PendingFees {
  import opened Options
  import opened Arith
  import opened Num
  import opened Utils
  import opened Price
  import opened Pool
  import opened Params
  import opened State
  import opened IncreaseEffects
  import opened BorrowingTotals
  import opened KinkModel

  /** No borrowing fee is pending beyond the recorded factors: the borrowing state has just been updated, or
      there is nothing to borrow. */
  predicate NothingAccruing(m: Market) {
    m.openInterest == EMPTY_PAIR || Passed(m.now, m.clocks.borrowing) == 0
  }

  /** Only the token pools and the supply differ. */
  predicate OnlyLiquidityDiffers(a: Market, b: Market) {
    a.(primary := b.primary, swapImpact := b.swapImpact, fee := b.fee, supply := b.supply) == b
  }

  function OrZero(value: Option<int>): int {
    if value.Some? then value.value else 0
  }

  lemma SameBothWays(a: Market, b: Market)
    requires OnlyLiquidityDiffers(a, b)
    ensures OnlyLiquidityDiffers(b, a)
  {
  }

  lemma PendingFeesSame(cfg: Config, a: Market, b: Market, prices: Prices, isLong: bool)
    requires OnlyLiquidityDiffers(a, b) && NothingAccruing(a)
    requires TotalPendingBorrowingFees(cfg, a, prices, isLong).Some?
    requires TotalPendingBorrowingFees(cfg, b, prices, isLong).Some?
    ensures TotalPendingBorrowingFees(cfg, a, prices, isLong) == TotalPendingBorrowingFees(cfg, b, prices, isLong)
  {
    hide NextBorrowingFactor, BorrowedFor, TotalPendingBorrowingFees;
    PendingNeedsFactor(cfg, a, prices, isLong);
    PendingNeedsFactor(cfg, b, prices, isLong);
    TotalPendingExact(cfg, a, prices, isLong);
    TotalPendingExact(cfg, b, prices, isLong);
    if a.openInterest == EMPTY_PAIR {
      NothingBorrowedFor(NextBorrowingFactor(cfg, a, prices, isLong, Passed(a.now, a.clocks.borrowing)).value.0);
      NothingBorrowedFor(NextBorrowingFactor(cfg, b, prices, isLong, Passed(b.now, b.clocks.borrowing)).value.0);
    } else {
      NoTimeNoAccrual(cfg, a, prices, isLong);
      NoTimeNoAccrual(cfg, b, prices, isLong);
    }
  }

  lemma NothingBorrowedFor(factor: nat)
    ensures BorrowedFor(0, factor) == 0
  {
    assert 0 * factor == 0;
  }

  lemma PendingNeedsFactor(cfg: Config, m: Market, prices: Prices, isLong: bool)
    requires TotalPendingBorrowingFees(cfg, m, prices, isLong).Some?
    ensures NextBorrowingFactor(cfg, m, prices, isLong, Passed(m.now, m.clocks.borrowing)).Some?
  {
    hide NextBorrowingFactor;
  }

  lemma FeesSame(cfg: Config, a: Market, b: Market, prices: Prices)
    requires OnlyLiquidityDiffers(a, b) && NothingAccruing(a)
    requires BorrowingFeesForPool(cfg, a, prices).Some? && BorrowingFeesForPool(cfg, b, prices).Some?
    ensures BorrowingFeesForPool(cfg, a, prices) == BorrowingFeesForPool(cfg, b, prices)
  {
    hide TotalPendingBorrowingFees, ApplyFactor, OnlyLiquidityDiffers, NothingAccruing;
    PendingFeesSame(cfg, a, b, prices, true);
    PendingFeesSame(cfg, a, b, prices, false);
  }

  /** The pending fees that a change of liquidity, by changing the borrowing rate, takes from the pool value. */
  function FeesLost(cfg: Config, before: Market, after: Market, prices: Prices): int {
    OrZero(BorrowingFeesForPool(cfg, before, prices)) - OrZero(BorrowingFeesForPool(cfg, after, prices))
  }

  /** None, if nothing is accruing. */
  lemma NoFeesLost(cfg: Config, a: Market, b: Market, prices: Prices)
    requires OnlyLiquidityDiffers(a, b) && NothingAccruing(a)
    requires BorrowingFeesForPool(cfg, a, prices).Some? && BorrowingFeesForPool(cfg, b, prices).Some?
    ensures FeesLost(cfg, a, b, prices) == 0
  {
    hide BorrowingFeesForPool, OnlyLiquidityDiffers, NothingAccruing;
    FeesSame(cfg, a, b, prices);
  }

  /** No pending fees can be lost: nothing is accruing, or none are pending for the pool. */
  predicate NoFeesToLose(cfg: Config, m: Market, prices: Prices) {
    NothingAccruing(m) || BorrowingFeesForPool(cfg, m, prices) == Some(0)
  }

  /** At most the pending fees are lost. */
  lemma FeesLostWithin(cfg: Config, a: Market, b: Market, prices: Prices)
    requires OnlyLiquidityDiffers(a, b)
    requires BorrowingFeesForPool(cfg, a, prices).Some? && BorrowingFeesForPool(cfg, b, prices).Some?
    ensures 0 <= BorrowingFeesForPool(cfg, a, prices).value
    ensures FeesLost(cfg, a, b, prices) <= BorrowingFeesForPool(cfg, a, prices).value
    ensures NoFeesToLose(cfg, a, prices) ==> FeesLost(cfg, a, b, prices) <= 0
  {
    hide BorrowingFeesForPool, NothingAccruing, OnlyLiquidityDiffers;
    FeesNonNegative(cfg, a, prices);
    FeesNonNegative(cfg, b, prices);
    if NothingAccruing(a) {
      NoFeesLost(cfg, a, b, prices);
    }
  }

  lemma FeesNonNegative(cfg: Config, m: Market, prices: Prices)
    requires BorrowingFeesForPool(cfg, m, prices).Some?
    ensures BorrowingFeesForPool(cfg, m, prices).value >= 0
  {
    hide TotalPendingBorrowingFees, ApplyFactor;
  }

  /** With the kink model, the reserve that the usage of one side is measured against does not round to nothing. */
  predicate ReserveMeasured(cfg: Config, m: Market, prices: Prices, isLong: bool) {
    cfg.Kink(isLong).optimalUsage != 0 ==>
      m.primary.Amount(isLong) * prices.Collateral(isLong).min * cfg.openInterestReserveFactor / UNIT > 0
  }

  /** The rate of a side falls with its liquidity: nothing is accruing, or both sides are measured. */
  predicate FeesFollowLiquidity(cfg: Config, m: Market, prices: Prices) {
    NothingAccruing(m) || (ReserveMeasured(cfg, m, prices, true) && ReserveMeasured(cfg, m, prices, false))
  }

  lemma RatioFalls(x: nat, less: nat, more: nat)
    requires 0 < less <= more
    ensures x / more <= x / less
  {
    hide *;
    FloorBounds(x, more);
    FloorGreatest(0, x, more);
    MulMono(less, more, x / more);
    FloorGreatest(x / more, x, less);
  }

  lemma DivToFactorFalls(x: nat, less: nat, more: nat)
    requires 0 < less <= more && DivToFactor(x, less).Some? && DivToFactor(x, more).Some?
    ensures DivToFactor(x, more).value <= DivToFactor(x, less).value
  {
    RatioFalls(x * UNIT, less, more);
  }

  /** The usage factor falls as the pool value grows, as long as its reserve is measured. */
  lemma UsageFalls(cfg: Config, a: Market, b: Market, isLong: bool, reserved: nat, less: nat, more: nat)
    requires less <= more && a.openInterest == b.openInterest
    requires less * cfg.openInterestReserveFactor / UNIT > 0
    requires UsageFactor(cfg, a, isLong, reserved, more).Some? && UsageFactor(cfg, b, isLong, reserved, less).Some?
    ensures UsageFactor(cfg, a, isLong, reserved, more).value <= UsageFactor(cfg, b, isLong, reserved, less).value
  {
    hide DivToFactor, ApplyFactor;
    var f := cfg.openInterestReserveFactor;
    ApplyFactorIsBorrowed(less, f);
    ApplyFactorIsBorrowed(more, f);
    ApplyFactorMono(less, more, f);
    DivToFactorFalls(reserved, ApplyFactor(less, f).value, ApplyFactor(more, f).value);
  }

  lemma RateFromPoolFalls(cfg: Config, a: Market, b: Market, isLong: bool, reserved: nat, less: nat, more: nat)
    requires 0 < less <= more && a.openInterest == b.openInterest
    requires cfg.Kink(isLong).optimalUsage != 0 ==> less * cfg.openInterestReserveFactor / UNIT > 0
    requires BorrowingRateFromPool(cfg, a, isLong, reserved, more).Some?
    requires BorrowingRateFromPool(cfg, b, isLong, reserved, less).Some?
    ensures BorrowingRateFromPool(cfg, a, isLong, reserved, more).value
            <= BorrowingRateFromPool(cfg, b, isLong, reserved, less).value
  {
    if cfg.Kink(isLong).optimalUsage == 0 {
      PowerRateFalls(cfg, a, b, isLong, reserved, less, more);
    } else {
      hide BorrowingRateFromPool, UsageFactor, KinkValue;
      KinkFromPool(cfg, a, isLong, reserved, more);
      KinkFromPool(cfg, b, isLong, reserved, less);
      UsageFalls(cfg, a, b, isLong, reserved, less, more);
      KinkValueMono(cfg.Kink(isLong), UsageFactor(cfg, a, isLong, reserved, more).value,
                    UsageFactor(cfg, b, isLong, reserved, less).value);
    }
  }

  lemma PowerRateFalls(cfg: Config, a: Market, b: Market, isLong: bool, reserved: nat, less: nat, more: nat)
    requires 0 < less <= more && cfg.Kink(isLong).optimalUsage == 0
    requires BorrowingRateFromPool(cfg, a, isLong, reserved, more).Some?
    requires BorrowingRateFromPool(cfg, b, isLong, reserved, less).Some?
    ensures BorrowingRateFromPool(cfg, a, isLong, reserved, more).value
            <= BorrowingRateFromPool(cfg, b, isLong, reserved, less).value
  {
    hide ApplyExponentFactor, DivToFactor, ApplyFactor;
    var power := ApplyExponentFactor(reserved, cfg.borrowing.exponent.Amount(isLong), cfg.fractionalPow).value;
    DivToFactorFalls(power, less, more);
    ApplyFactorMono(DivToFactor(power, more).value, DivToFactor(power, less).value,
                    cfg.borrowing.factor.Amount(isLong));
  }

  /** Less liquidity never lowers the rate of a side. */
  lemma RateFalls(cfg: Config, a: Market, b: Market, prices: Prices, isLong: bool)
    requires OnlyLiquidityDiffers(a, b) && b.primary.Amount(isLong) <= a.primary.Amount(isLong)
    requires ReserveMeasured(cfg, b, prices, isLong)
    requires BorrowingRate(cfg, a, prices, isLong).Some? && BorrowingRate(cfg, b, prices, isLong).Some?
    ensures BorrowingRate(cfg, a, prices, isLong).value <= BorrowingRate(cfg, b, prices, isLong).value
  {
    hide BorrowingRateFromPool, IsSmallerSide, ReservedValue;
    SameRateInputs(cfg, a, b, prices, isLong);
    var reserved := ReservedValue(a, prices.index, isLong).value;
    if reserved != 0 && IsSmallerSide(cfg, a, isLong) == Some(false) {
      var price := prices.Collateral(isLong).min;
      MulMono(b.primary.Amount(isLong), a.primary.Amount(isLong), price);
      RateFromPoolFalls(cfg, a, b, isLong, reserved, b.primary.Amount(isLong) * price,
                        a.primary.Amount(isLong) * price);
    }
  }

  lemma SameRateInputs(cfg: Config, a: Market, b: Market, prices: Prices, isLong: bool)
    requires OnlyLiquidityDiffers(a, b)
    ensures ReservedValue(a, prices.index, isLong) == ReservedValue(b, prices.index, isLong)
    ensures IsSmallerSide(cfg, a, isLong) == IsSmallerSide(cfg, b, isLong)
  {
    hide CheckedMul;
  }

  lemma FactorFalls(cfg: Config, a: Market, b: Market, prices: Prices, isLong: bool, duration: nat)
    requires OnlyLiquidityDiffers(a, b) && b.primary.Amount(isLong) <= a.primary.Amount(isLong)
    requires ReserveMeasured(cfg, b, prices, isLong)
    requires NextBorrowingFactor(cfg, a, prices, isLong, duration).Some?
    requires NextBorrowingFactor(cfg, b, prices, isLong, duration).Some?
    ensures NextBorrowingFactor(cfg, a, prices, isLong, duration).value.0
            <= NextBorrowingFactor(cfg, b, prices, isLong, duration).value.0
  {
    hide BorrowingRate, ReserveMeasured;
    RateFalls(cfg, a, b, prices, isLong);
    MulMono(BorrowingRate(cfg, a, prices, isLong).value, BorrowingRate(cfg, b, prices, isLong).value, duration);
  }

  lemma BorrowedForMono(size: nat, less: nat, more: nat)
    requires less <= more
    ensures BorrowedFor(size, less) <= BorrowedFor(size, more)
  {
    MulMono(less, more, size);
    FloorMono(size * less, size * more, UNIT);
  }

  lemma PendingFalls(cfg: Config, a: Market, b: Market, prices: Prices, isLong: bool)
    requires OnlyLiquidityDiffers(a, b) && b.primary.Amount(isLong) <= a.primary.Amount(isLong)
    requires ReserveMeasured(cfg, b, prices, isLong)
    requires TotalPendingBorrowingFees(cfg, a, prices, isLong).Some?
    requires TotalPendingBorrowingFees(cfg, b, prices, isLong).Some?
    ensures TotalPendingBorrowingFees(cfg, a, prices, isLong).value
            <= TotalPendingBorrowingFees(cfg, b, prices, isLong).value
  {
    hide NextBorrowingFactor, BorrowedFor, TotalPendingBorrowingFees, ReserveMeasured;
    PendingNeedsFactor(cfg, a, prices, isLong);
    PendingNeedsFactor(cfg, b, prices, isLong);
    TotalPendingExact(cfg, a, prices, isLong);
    TotalPendingExact(cfg, b, prices, isLong);
    var duration := Passed(a.now, a.clocks.borrowing);
    FactorFalls(cfg, a, b, prices, isLong, duration);
    BorrowedForMono(a.openInterest.Side(isLong).Sum(), NextBorrowingFactor(cfg, a, prices, isLong, duration).value.0,
                    NextBorrowingFactor(cfg, b, prices, isLong, duration).value.0);
  }

  /** Less liquidity takes no pending fees away: the rate, and with it what is pending, only rises. The one thing
      asked is that the kink model's reserve, at the lower liquidity, does not round to nothing. */
  lemma LessLiquidityLosesNoFees(cfg: Config, a: Market, b: Market, prices: Prices)
    requires OnlyLiquidityDiffers(a, b) && FeesFollowLiquidity(cfg, b, prices)
    requires b.primary.long <= a.primary.long && b.primary.short <= a.primary.short
    requires BorrowingFeesForPool(cfg, a, prices).Some? && BorrowingFeesForPool(cfg, b, prices).Some?
    ensures FeesLost(cfg, a, b, prices) <= 0
  {
    SameAccrual(a, b);
    if NothingAccruing(a) {
      NoFeesLost(cfg, a, b, prices);
    } else {
      hide TotalPendingBorrowingFees, ApplyFactor, OnlyLiquidityDiffers, NothingAccruing, ReserveMeasured;
      PendingFalls(cfg, a, b, prices, true);
      PendingFalls(cfg, a, b, prices, false);
      var less := TotalPendingBorrowingFees(cfg, a, prices, true).value
                  + TotalPendingBorrowingFees(cfg, a, prices, false).value;
      var more := TotalPendingBorrowingFees(cfg, b, prices, true).value
                  + TotalPendingBorrowingFees(cfg, b, prices, false).value;
      ApplyFactorMono(less, more, UNIT - cfg.borrowing.receiverFactor);
    }
  }

  /** And more liquidity adds none, measured at the lower liquidity again. */
  lemma MoreLiquidityGainsNoFees(cfg: Config, a: Market, b: Market, prices: Prices)
    requires OnlyLiquidityDiffers(a, b) && FeesFollowLiquidity(cfg, a, prices)
    requires a.primary.long <= b.primary.long && a.primary.short <= b.primary.short
    requires BorrowingFeesForPool(cfg, a, prices).Some? && BorrowingFeesForPool(cfg, b, prices).Some?
    ensures FeesLost(cfg, a, b, prices) >= 0
  {
    hide BorrowingFeesForPool, FeesFollowLiquidity;
    SameBothWays(a, b);
    LessLiquidityLosesNoFees(cfg, b, a, prices);
  }

  lemma SameAccrual(a: Market, b: Market)
    requires OnlyLiquidityDiffers(a, b)
    ensures NothingAccruing(a) <==> NothingAccruing(b)
  {
  }
}
