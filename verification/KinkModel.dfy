/** The borrowing rate of the kink model: monotone in what is used, and bounded within the limits. */
module KinkModel {
  import opened Options
  import opened Arith
  import opened Num
  import opened Utils
  import opened Price
  import opened Pool
  import opened Params
  import opened State
  import opened PositionState
  import opened IncreaseAction
  import opened Safety

  /** The rate without overflow. */
  function KinkValue(k: KinkParams, usage: nat): int {
    usage * k.base / UNIT
    + if usage > k.optimalUsage && UNIT > k.optimalUsage
      then Max(k.aboveOptimal - k.base, 0) * (usage - k.optimalUsage) / (UNIT - k.optimalUsage)
      else 0
  }

  lemma KinkRateExact(k: KinkParams, usage: nat)
    requires KinkRate(k, usage).Some?
    ensures KinkRate(k, usage).value == KinkValue(k, usage)
  {
  }

  lemma KinkValueMono(k: KinkParams, a: nat, b: nat)
    requires a <= b
    ensures KinkValue(k, a) <= KinkValue(k, b)
  {
    var extra, rest := Max(k.aboveOptimal - k.base, 0), UNIT - k.optimalUsage;
    MulMono(a, b, k.base);
    FloorMono(a * k.base, b * k.base, UNIT);
    if b > k.optimalUsage && rest > 0 {
      MulNonNeg(extra, b - k.optimalUsage);
      FloorGreatest(0, extra * (b - k.optimalUsage), rest);
      if a > k.optimalUsage {
        MulMono(a - k.optimalUsage, b - k.optimalUsage, extra);
        FloorMono(extra * (a - k.optimalUsage), extra * (b - k.optimalUsage), rest);
      }
    }
  }

  lemma ScaledWithin(x: nat, part: nat, whole: nat)
    requires part <= whole && 0 < whole
    ensures x * part / whole <= x
  {
    MulMono(part, whole, x);
    FloorMono(x * part, x * whole, whole);
    FloorExact(x, whole);
  }

  /** Within full usage the rate is at most the larger of its two parameters. */
  lemma KinkValueBounded(k: KinkParams, usage: nat)
    requires usage <= UNIT
    ensures KinkValue(k, usage) <= Max(k.base, k.aboveOptimal)
  {
    assert usage * k.base == k.base * usage;
    ScaledWithin(k.base, usage, UNIT);
    if usage > k.optimalUsage {
      ScaledWithin(Max(k.aboveOptimal - k.base, 0), usage - k.optimalUsage, UNIT - k.optimalUsage);
    }
  }

  lemma DivToFactorMono(a: nat, b: nat, divisor: nat)
    requires a <= b && DivToFactor(a, divisor).Some? && DivToFactor(b, divisor).Some?
    ensures DivToFactor(a, divisor).value <= DivToFactor(b, divisor).value
  {
    if divisor != 0 {
      MulMono(a, b, UNIT);
      FloorMono(a * UNIT, b * UNIT, divisor);
    }
  }

  lemma DivToFactorWithin(a: nat, divisor: nat)
    requires a <= divisor && DivToFactor(a, divisor).Some?
    ensures DivToFactor(a, divisor).value <= UNIT
  {
    if divisor != 0 {
      assert a * UNIT == UNIT * a;
      ScaledWithin(UNIT, a, divisor);
    }
  }

  /** The usage grows with the reserved value and with the open interest. */
  lemma UsageMono(cfg: Config, a: Market, b: Market, isLong: bool, reservedA: nat, reservedB: nat, poolValue: nat)
    requires reservedA <= reservedB
    requires a.openInterest.Side(isLong).Sum() <= b.openInterest.Side(isLong).Sum()
    requires UsageFactor(cfg, a, isLong, reservedA, poolValue).Some?
    requires UsageFactor(cfg, b, isLong, reservedB, poolValue).Some?
    ensures UsageFactor(cfg, a, isLong, reservedA, poolValue).value
            <= UsageFactor(cfg, b, isLong, reservedB, poolValue).value
  {
    hide DivToFactor, ApplyFactor;
    DivToFactorMono(reservedA, reservedB, ApplyFactor(poolValue, cfg.openInterestReserveFactor).value);
    if !cfg.ignoreOpenInterestForUsage {
      DivToFactorMono(a.openInterest.Side(isLong).Sum(), b.openInterest.Side(isLong).Sum(),
                      cfg.maxOpenInterest.Amount(isLong));
    }
  }

  /** Within both limits the usage is at most full. */
  lemma UsageWithin(cfg: Config, m: Market, isLong: bool, reserved: nat, poolValue: nat)
    requires UsageFactor(cfg, m, isLong, reserved, poolValue).Some?
    requires reserved <= ApplyFactor(poolValue, cfg.openInterestReserveFactor).value
    requires m.openInterest.Side(isLong).Sum() <= cfg.maxOpenInterest.Amount(isLong)
    ensures UsageFactor(cfg, m, isLong, reserved, poolValue).value <= UNIT
  {
    hide DivToFactor, ApplyFactor;
    DivToFactorWithin(reserved, ApplyFactor(poolValue, cfg.openInterestReserveFactor).value);
    if !cfg.ignoreOpenInterestForUsage {
      DivToFactorWithin(m.openInterest.Side(isLong).Sum(), cfg.maxOpenInterest.Amount(isLong));
    }
  }

  /** More open interest on one side, and nothing else changed that the rate of that side reads except
      its reserved value, which must not fall. */
  predicate MoreUsed(a: Market, b: Market, index: Price, isLong: bool) {
    && a.primary == b.primary
    && ReservedAt(a, index, isLong) <= ReservedAt(b, index, isLong)
    && a.openInterest.Side(isLong).Sum() <= b.openInterest.Side(isLong).Sum()
    && a.openInterest.Side(!isLong).Sum() == b.openInterest.Side(!isLong).Sum()
  }

  lemma SmallerMono(cfg: Config, a: Market, b: Market, index: Price, isLong: bool)
    requires MoreUsed(a, b, index, isLong)
    requires IsSmallerSide(cfg, a, isLong).Some? && IsSmallerSide(cfg, b, isLong) == Some(true)
    ensures IsSmallerSide(cfg, a, isLong) == Some(true)
  {
    hide ReservedAt;
  }

  lemma KinkFromPool(cfg: Config, m: Market, isLong: bool, reserved: nat, poolValue: nat)
    requires cfg.Kink(isLong).optimalUsage != 0
    requires BorrowingRateFromPool(cfg, m, isLong, reserved, poolValue).Some?
    ensures UsageFactor(cfg, m, isLong, reserved, poolValue).Some?
    ensures BorrowingRateFromPool(cfg, m, isLong, reserved, poolValue).value
            == KinkValue(cfg.Kink(isLong), UsageFactor(cfg, m, isLong, reserved, poolValue).value)
  {
    hide UsageFactor, KinkRate, KinkValue;
    KinkRateExact(cfg.Kink(isLong), UsageFactor(cfg, m, isLong, reserved, poolValue).value);
  }

  /** Without a kink the rate follows a power of the reserved value. */
  lemma PowerRateMono(cfg: Config, a: Market, b: Market, isLong: bool, reservedA: nat, reservedB: nat, poolValue: nat)
    requires cfg.Kink(isLong).optimalUsage == 0 && WholeExponent(cfg.borrowing.exponent.Amount(isLong))
    requires reservedA <= reservedB
    requires BorrowingRateFromPool(cfg, a, isLong, reservedA, poolValue).Some?
    requires BorrowingRateFromPool(cfg, b, isLong, reservedB, poolValue).Some?
    ensures BorrowingRateFromPool(cfg, a, isLong, reservedA, poolValue).value
            <= BorrowingRateFromPool(cfg, b, isLong, reservedB, poolValue).value
  {
    hide ApplyExponentFactor, DivToFactor, ApplyFactor, PowerValue;
    var exponent, factor := cfg.borrowing.exponent.Amount(isLong), cfg.borrowing.factor.Amount(isLong);
    ExponentExact(reservedA, exponent, cfg.fractionalPow);
    ExponentExact(reservedB, exponent, cfg.fractionalPow);
    PowerValueMono(reservedA, reservedB, exponent);
    var x, y := PowerValue(reservedA, exponent), PowerValue(reservedB, exponent);
    DivToFactorMono(x, y, poolValue);
    ApplyFactorMono(DivToFactor(x, poolValue).value, DivToFactor(y, poolValue).value, factor);
  }

  lemma ApplyFactorMono(a: nat, b: nat, factor: nat)
    requires a <= b && ApplyFactor(a, factor).Some? && ApplyFactor(b, factor).Some?
    ensures ApplyFactor(a, factor).value <= ApplyFactor(b, factor).value
  {
    MulMono(a, b, factor);
    FloorMono(a * factor, b * factor, UNIT);
  }

  lemma RateFromPoolMono(
    cfg: Config, a: Market, b: Market, isLong: bool, reservedA: nat, reservedB: nat, poolValue: nat)
    requires cfg.Kink(isLong).optimalUsage != 0 || WholeExponent(cfg.borrowing.exponent.Amount(isLong))
    requires reservedA <= reservedB && a.openInterest.Side(isLong).Sum() <= b.openInterest.Side(isLong).Sum()
    requires BorrowingRateFromPool(cfg, a, isLong, reservedA, poolValue).Some?
    requires BorrowingRateFromPool(cfg, b, isLong, reservedB, poolValue).Some?
    ensures BorrowingRateFromPool(cfg, a, isLong, reservedA, poolValue).value
            <= BorrowingRateFromPool(cfg, b, isLong, reservedB, poolValue).value
  {
    hide BorrowingRateFromPool, UsageFactor, KinkValue, WholeExponent;
    if cfg.Kink(isLong).optimalUsage == 0 {
      PowerRateMono(cfg, a, b, isLong, reservedA, reservedB, poolValue);
    } else {
      KinkFromPool(cfg, a, isLong, reservedA, poolValue);
      KinkFromPool(cfg, b, isLong, reservedB, poolValue);
      UsageMono(cfg, a, b, isLong, reservedA, reservedB, poolValue);
      KinkValueMono(cfg.Kink(isLong), UsageFactor(cfg, a, isLong, reservedA, poolValue).value,
                    UsageFactor(cfg, b, isLong, reservedB, poolValue).value);
    }
  }

  /** With the kink model, or with a whole exponent, more reserved value and more open interest on a side
      never lower its rate, including when they make it stop being the smaller side. */
  lemma BorrowingRateMono(cfg: Config, a: Market, b: Market, prices: Prices, isLong: bool)
    requires cfg.Kink(isLong).optimalUsage != 0 || WholeExponent(cfg.borrowing.exponent.Amount(isLong))
    requires MoreUsed(a, b, prices.index, isLong)
    requires BorrowingRate(cfg, a, prices, isLong).Some? && BorrowingRate(cfg, b, prices, isLong).Some?
    ensures BorrowingRate(cfg, a, prices, isLong).value <= BorrowingRate(cfg, b, prices, isLong).value
  {
    hide BorrowingRateFromPool, ReservedAt, ReservedValue, IsSmallerSide, CheckedMul, Pool.Sum, WholeExponent;
    ReservedIsAt(a, prices.index, isLong);
    ReservedIsAt(b, prices.index, isLong);
    var reservedA, reservedB := ReservedValue(a, prices.index, isLong).value,
                                ReservedValue(b, prices.index, isLong).value;
    if reservedA != 0 && IsSmallerSide(cfg, a, isLong) == Some(false) {
      if IsSmallerSide(cfg, b, isLong) == Some(true) {
        SmallerMono(cfg, a, b, prices.index, isLong);
      }
      var poolValue := PoolValueOneSide(a, prices, isLong, false).value;
      RateFromPoolMono(cfg, a, b, isLong, reservedA, reservedB, poolValue);
    }
  }

  /** Whenever the open interest reserve check passes and the open interest is within its maximum, the
      rate of the kink model is at most the larger of its two parameters. */
  lemma BorrowingRateBounded(cfg: Config, m: Market, prices: Prices, isLong: bool)
    requires cfg.Kink(isLong).optimalUsage != 0
    requires ValidateOpenInterestReserve(cfg, m, prices, isLong).Some?
    requires m.openInterest.Side(isLong).Sum() <= cfg.maxOpenInterest.Amount(isLong)
    requires BorrowingRate(cfg, m, prices, isLong).Some?
    ensures BorrowingRate(cfg, m, prices, isLong).value
            <= Max(cfg.Kink(isLong).base, cfg.Kink(isLong).aboveOptimal)
  {
    hide UsageFactor, KinkValue, BorrowingRateFromPool, ReservedValue, IsSmallerSide, CheckedMul, Pool.Sum,
      ApplyFactor;
    var reserved := ReservedValue(m, prices.index, isLong).value;
    if reserved != 0 && IsSmallerSide(cfg, m, isLong) == Some(false) {
      var poolValue := PoolValueOneSide(m, prices, isLong, false).value;
      KinkFromPool(cfg, m, isLong, reserved, poolValue);
      UsageWithin(cfg, m, isLong, reserved, poolValue);
      KinkValueBounded(cfg.Kink(isLong), UsageFactor(cfg, m, isLong, reserved, poolValue).value);
    }
  }

  /** In particular the rate of a side is bounded right after every increase on it. */
  lemma RateBoundedAfterIncrease(cfg: Config, m: Market, position: Position, params: IncreaseParams)
    requires Increase(cfg, m, position, params).Some? && params.sizeDelta != 0
    requires cfg.Kink(position.isLong).optimalUsage != 0
    ensures var next := Increase(cfg, m, position, params).value.0;
            var k := cfg.Kink(position.isLong);
            var rate := BorrowingRate(cfg, next, params.prices, position.isLong);
            rate.Some? ==> rate.value <= Max(k.base, k.aboveOptimal)
  {
    hide *;
    var next := Increase(cfg, m, position, params).value.0;
    IncreaseChecks(cfg, m, position, params);
    OpenInterestChecked(cfg, m, position, params);
    if BorrowingRate(cfg, next, params.prices, position.isLong).Some? {
      BorrowingRateBounded(cfg, next, params.prices, position.isLong);
    }
  }
}
