/** Factors, exponents and market-token conversion (`utils.rs`). */
module Utils {
  import opened Options
  import opened Arith
  import opened Num
  import opened Fixed

  /** Market tokens minted for a USD value. */
  function UsdToMarketTokenAmount(usdValue: nat, poolValue: nat, supply: nat, divisor: nat): Option<nat> {
    if divisor == 0 then None
    else if supply == 0 && poolValue == 0 then CheckedDiv(usdValue, divisor)
    else if supply == 0 then
      var total :- CheckedAdd(poolValue, usdValue);
      CheckedDiv(total, divisor)
    else MulDiv(supply, usdValue, poolValue)
  }

  /** USD value of an amount of market tokens. */
  function MarketTokenAmountToUsd(amount: nat, poolValue: nat, supply: nat): Option<nat> {
    MulDiv(poolValue, amount, supply)
  }

  /** `value * factor` for a fixed-point factor, rounded down. */
  function ApplyFactor(value: nat, factor: nat): Option<nat> {
    MulDiv(value, factor, UNIT)
  }

  /** `value ^ exponent`; values below one count as zero. */
  function ApplyExponentFactor(value: nat, exponent: nat, fractional: FractionalPow): Option<nat> {
    if value < UNIT then Some(0)
    else if value == UNIT then Some(UNIT)
    else if exponent == 0 then Some(UNIT)
    else if exponent == UNIT then Some(value)
    else PowFixed(value, exponent, fractional)
  }

  /** `factor * value ^ exponent`. */
  function ApplyFactors(value: nat, factor: nat, exponent: nat, fractional: FractionalPow): Option<nat> {
    var power :- ApplyExponentFactor(value, exponent, fractional);
    FixedMul(power, factor)
  }

  /** `value / divisor` as a factor; zero when the divisor is zero. */
  function DivToFactor(value: nat, divisor: nat): Option<nat> {
    if divisor == 0 then Some(0) else MulDiv(value, UNIT, divisor)
  }

  function DivToFactorSigned(value: int, divisor: nat): Option<int> {
    if divisor == 0 then Some(0) else MulDivSigned(UNIT, value, divisor)
  }

  predicate WholeExponent(exponent: nat) {
    exponent % UNIT == 0
  }

  /** For whole exponents the power without overflow, in closed form. */
  function PowerValue(value: nat, exponent: nat): nat {
    if value < UNIT then 0 else PowValue(value, exponent / UNIT)
  }

  lemma {:induction false} PowValueOfOne(n: nat)
    ensures PowValue(UNIT, n) == UNIT
  {
    if n > 0 {
      PowValueOfOne(n - 1);
      FloorExact(UNIT, UNIT);
    }
  }

  lemma PowValueOfExponentOne(value: nat)
    ensures PowValue(value, 1) == value
  {
    hide *;
    FirstPower(value);
    FloorExact(value, UNIT);
  }

  lemma FirstPower(value: nat)
    ensures PowValue(value, 1) == value * UNIT / UNIT
  {
    assert PowValue(value, 0) == UNIT;
    assert UNIT * value == value * UNIT;
  }

  /** The loop, for a base above one and a whole exponent, gives the closed form if it gives anything. */
  lemma LoopExact(value: nat, exponent: nat, fractional: FractionalPow)
    requires WholeExponent(exponent) && value > UNIT
    ensures PowFixed(value, exponent, fractional).Some? ==>
              PowFixed(value, exponent, fractional).value == PowValue(value, exponent / UNIT)
  {
    hide PowSteps, PowValue;
    PowStepsExact(value, exponent / UNIT);
  }

  /** Every branch of the exponentiation, the three shortcuts included, computes `PowerValue`. */
  lemma ExponentExact(value: nat, exponent: nat, fractional: FractionalPow)
    requires WholeExponent(exponent)
    ensures ApplyExponentFactor(value, exponent, fractional).Some? ==>
              ApplyExponentFactor(value, exponent, fractional).value == PowerValue(value, exponent)
  {
    hide PowFixed, PowValue;
    if value == UNIT {
      PowValueOfOne(exponent / UNIT);
    } else if value > UNIT {
      if exponent == 0 {
        PowValueOfZero(value);
      } else if exponent == UNIT {
        PowValueOfExponentOne(value);
      } else {
        LoopExact(value, exponent, fractional);
      }
    }
  }

  lemma PowValueOfZero(value: nat)
    ensures PowValue(value, 0 / UNIT) == UNIT
  {
    FloorExact(0, UNIT);
  }

  lemma PowerValueMono(a: nat, b: nat, exponent: nat)
    requires a <= b
    ensures PowerValue(a, exponent) <= PowerValue(b, exponent)
  {
    PowValueMono(a, b, exponent / UNIT);
  }
}
