/** Fixed-point multiplication and power (`fixed.rs`). */
module Fixed {
  import opened Options
  import opened Arith
  import opened Num

  /** The power for exponents that are not whole units: code outside the repository, a parameter. */
  type FractionalPow = (nat, nat) -> Option<nat>

  function FixedMul(a: nat, b: nat): Option<nat> {
    MulDiv(a, b, UNIT)
  }

  /** `n` multiplications by `base`, starting from one and stopping at the first overflow. */
  function PowSteps(base: nat, n: nat): Option<nat> {
    if n == 0 then Some(UNIT)
    else
      var previous :- PowSteps(base, n - 1);
      FixedMul(previous, base)
  }

  function PowFixed(base: nat, exponent: nat, fractional: FractionalPow): Option<nat> {
    if exponent % UNIT == 0 then PowSteps(base, exponent / UNIT) else fractional(base, exponent)
  }

  lemma {:induction false} PowStepsNoneStays(base: nat, k: nat, n: nat)
    requires k <= n && PowSteps(base, k).None?
    ensures PowSteps(base, n).None?
  {
    if k < n {
      PowStepsNoneStays(base, k, n - 1);
    }
  }

  method CheckedPowFixed(base: nat, exponent: nat, fractional: FractionalPow) returns (r: Option<nat>)
    ensures r == PowFixed(base, exponent, fractional)
  {
    if exponent % UNIT == 0 {
      var exp := exponent / UNIT;
      var ans := UNIT as nat;
      for i := 0 to exp
        invariant PowSteps(base, i) == Some(ans)
      {
        var next := FixedMul(ans, base);
        if next.None? {
          PowStepsNoneStays(base, i + 1, exp);
          return None;
        }
        ans := next.value;
      }
      return Some(ans);
    }
    return fractional(base, exponent);
  }

  /** The power without any bound on the intermediate values. */
  function PowValue(base: nat, n: nat): nat {
    if n == 0 then UNIT else PowValue(base, n - 1) * base / UNIT
  }

  lemma {:induction false} PowGrows(base: nat, n: nat)
    requires base >= UNIT
    ensures UNIT <= PowValue(base, n) <= PowValue(base, n + 1)
  {
    if n > 0 {
      PowGrows(base, n - 1);
    }
    MulMono(UNIT, base, PowValue(base, n));
    FloorGreatest(PowValue(base, n), PowValue(base, n) * base, UNIT);
  }

  /** The checks of the loop amount to one bound on the final value: for a base of at least one,
      the power is defined exactly when that value fits. */
  lemma {:induction false} PowStepsExact(base: nat, n: nat)
    requires base >= UNIT
    ensures PowSteps(base, n) == Checked(PowValue(base, n))
  {
    if n > 0 {
      PowStepsExact(base, n - 1);
      PowGrows(base, n - 1);
    }
  }

  lemma {:induction false} PowValueMono(a: nat, b: nat, n: nat)
    requires a <= b
    ensures PowValue(a, n) <= PowValue(b, n)
  {
    if n > 0 {
      PowValueMono(a, b, n - 1);
      var p, q := PowValue(a, n - 1), PowValue(b, n - 1);
      MulMono(p, q, a);
      MulMono(a, b, q);
      FloorMono(p * a, q * b, UNIT);
    }
  }
}
