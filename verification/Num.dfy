/** The checked number operations of `num.rs`. Unsigned numbers are naturals, signed numbers are
    integers; `MAX` and `SMAX` are the largest unsigned and signed values of whichever machine
    type is used (`u64`/`i64`, `u128`/`i128`) and `UNIT` is the fixed-point one. None of the
    three is given a value, so every result holds for all of them. */
module Num {
  import opened Options
  import opened Arith

  type Positive = n: int | 0 < n witness 1

  const SMAX: Positive
  const MAX: nat := 2 * SMAX + 1

  type UnitValue = n: int | 0 < n <= SMAX witness 1

  const UNIT: UnitValue

  predicate InSigned(x: int) {
    -1 - SMAX <= x <= SMAX
  }

  function Checked(x: nat): Option<nat> {
    if x <= MAX then Some(x) else None
  }

  function CheckedSigned(x: int): Option<int> {
    if InSigned(x) then Some(x) else None
  }

  function CheckedAdd(a: nat, b: nat): Option<nat> {
    Checked(a + b)
  }

  function CheckedSub(a: nat, b: nat): Option<nat> {
    if b <= a then Some(a - b) else None
  }

  function CheckedMul(a: nat, b: nat): Option<nat> {
    Checked(a * b)
  }

  function CheckedDiv(a: nat, b: nat): Option<nat> {
    if b == 0 then None else Some(a / b)
  }

  /** Division rounding up; the sum with the divisor may overflow. */
  function RoundUpDiv(a: nat, d: nat): Option<nat> {
    if d == 0 then None
    else
      var sum :- CheckedAdd(a, d);
      Some((sum - 1) / d)
  }

  function ToSigned(a: nat): Option<int> {
    if a <= SMAX then Some(a) else None
  }

  function ToOppositeSigned(a: nat): Option<int> {
    var s :- ToSigned(a);
    Some(-s)
  }

  function ToSignedWithSign(a: nat, negative: bool): Option<int> {
    if negative then ToOppositeSigned(a) else ToSigned(a)
  }

  function Diff(a: nat, b: nat): nat {
    if a >= b then a - b else b - a
  }

  /** Signed `a - b`. */
  function SignedSub(a: nat, b: nat): Option<int> {
    if a >= b then ToSigned(a - b) else ToOppositeSigned(b - a)
  }

  function AddWithSigned(a: nat, x: int): Option<nat> {
    if x > 0 then CheckedAdd(a, Abs(x)) else CheckedSub(a, Abs(x))
  }

  function SubWithSigned(a: nat, x: int): Option<nat> {
    if x > 0 then CheckedSub(a, Abs(x)) else CheckedAdd(a, Abs(x))
  }

  function MulWithSigned(a: nat, x: int): Option<int> {
    var product :- CheckedMul(a, Abs(x));
    ToSignedWithSign(product, x < 0)
  }

  /** `dividend / divisor`, the magnitude rounded up. */
  function RoundUpMagnitudeDiv(divisor: nat, dividend: int): Option<int> {
    if divisor == 0 then None
    else
      var d :- ToSigned(divisor);
      if dividend < 0 then
        var a :- CheckedSigned(dividend - d);
        var b :- CheckedSigned(a + 1);
        Some(TruncDiv(b, d))
      else
        var a :- CheckedSigned(dividend + d);
        var b :- CheckedSigned(a - 1);
        Some(TruncDiv(b, d))
  }

  /** floor(a * b / d) with full precision. */
  function MulDiv(a: nat, b: nat, d: nat): Option<nat> {
    if d == 0 then None else Checked(a * b / d)
  }

  /** ceil(a * b / d) with full precision. */
  function MulDivCeil(a: nat, b: nat, d: nat): Option<nat> {
    if d == 0 then None else Checked(CeilDiv(a * b, d))
  }

  function MulDivSigned(a: nat, x: int, d: nat): Option<int> {
    var magnitude :- MulDiv(a, Abs(x), d);
    var s :- ToSigned(magnitude);
    Some(if x > 0 then s else -s)
  }

  /** Clamp the magnitude of `value` into `[min, max]`, keeping its sign (zero counts as positive). */
  function BoundMagnitude(value: int, min: nat, max: nat): Option<int> {
    if min > max then None
    else if Abs(value) < min then ToSignedWithSign(min, value < 0)
    else if Abs(value) > max then ToSignedWithSign(max, value < 0)
    else Some(value)
  }

  lemma MulDivBounds(a: nat, b: nat, d: nat)
    requires MulDiv(a, b, d).Some?
    ensures d > 0 && MulDiv(a, b, d).value * d <= a * b < MulDiv(a, b, d).value * d + d
  {
    FloorBounds(a * b, d);
  }

  lemma MulDivCeilBounds(a: nat, b: nat, d: nat)
    requires MulDivCeil(a, b, d).Some?
    ensures d > 0 && MulDivCeil(a, b, d).value * d - d < a * b <= MulDivCeil(a, b, d).value * d
  {
    CeilBounds(a * b, d);
  }
}
