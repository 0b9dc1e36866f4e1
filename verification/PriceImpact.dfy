/** Price impact of moving a pair of USD values (`pool/delta.rs`, `params/price_impact.rs`), and
    why it cannot be farmed. */
module PriceImpact {
  import opened Options
  import opened Arith
  import opened Num
  import opened Fixed
  import opened Utils
  import opened Pool

  datatype PriceImpactParams = PriceImpactParams(exponent: nat, positiveFactor: nat, negativeFactor: nat) {
    /** The positive factor is never allowed above the negative one. */
    function AdjustedPositive(): nat {
      if positiveFactor > negativeFactor then negativeFactor else positiveFactor
    }
  }

  /** USD values before and after a move. */
  datatype PoolDelta = PoolDelta(current: Pool, next: Pool) {
    predicate IsSameSideRebalance() {
      (current.long <= current.short) == (next.long <= next.short)
    }
  }

  function DiffValue(v: Pool): nat {
    Diff(v.long, v.short)
  }

  /** The delta from signed USD changes. */
  function DeltaFromValues(
    pool: Pool, deltaLong: int, deltaShort: int, longPrice: nat, shortPrice: nat): Option<PoolDelta> {
    var long :- pool.UsdValue(true, longPrice);
    var short :- pool.UsdValue(false, shortPrice);
    var nextLong :- AddWithSigned(long, deltaLong);
    var nextShort :- AddWithSigned(short, deltaShort);
    Some(PoolDelta(Pool(long, short), Pool(nextLong, nextShort)))
  }

  function SameSideImpact(d: PoolDelta, p: PriceImpactParams, fractional: FractionalPow): Option<int> {
    var positive := DiffValue(d.next) < DiffValue(d.current);
    var factor := if positive then p.AdjustedPositive() else p.negativeFactor;
    var initial :- ApplyFactors(DiffValue(d.current), factor, p.exponent, fractional);
    var next :- ApplyFactors(DiffValue(d.next), factor, p.exponent, fractional);
    ToSignedWithSign(Diff(initial, next), !positive)
  }

  function CrossOverImpact(d: PoolDelta, p: PriceImpactParams, fractional: FractionalPow): Option<int> {
    var gain :- ApplyFactors(DiffValue(d.current), p.AdjustedPositive(), p.exponent, fractional);
    var loss :- ApplyFactors(DiffValue(d.next), p.negativeFactor, p.exponent, fractional);
    ToSignedWithSign(Diff(gain, loss), gain <= loss)
  }

  function ImpactOf(d: PoolDelta, p: PriceImpactParams, fractional: FractionalPow): Option<int> {
    if d.IsSameSideRebalance() then SameSideImpact(d, p, fractional) else CrossOverImpact(d, p, fractional)
  }

  /** A same-side move that increases the imbalance. */
  predicate IsWorsening(d: PoolDelta) {
    d.IsSameSideRebalance() && DiffValue(d.current) < DiffValue(d.next)
  }

  /** `factor * imbalance ^ exponent`, without overflow. */
  function FactorValue(diff: nat, factor: nat, exponent: nat): nat {
    PowerValue(diff, exponent) * factor / UNIT
  }

  /** The potential: the impact the whole imbalance would earn if it were removed. */
  function Potential(v: Pool, p: PriceImpactParams): nat {
    FactorValue(DiffValue(v), p.AdjustedPositive(), p.exponent)
  }

  lemma ApplyFactorsExact(diff: nat, factor: nat, exponent: nat, fractional: FractionalPow)
    requires WholeExponent(exponent)
    ensures ApplyFactors(diff, factor, exponent, fractional).Some? ==>
              ApplyFactors(diff, factor, exponent, fractional).value == FactorValue(diff, factor, exponent)
  {
    ExponentExact(diff, exponent, fractional);
  }

  lemma FactorValueMono(a: nat, b: nat, f: nat, g: nat, exponent: nat)
    requires a <= b && f <= g
    ensures FactorValue(a, f, exponent) <= FactorValue(b, g, exponent)
  {
    PowerValueMono(a, b, exponent);
    var x, y := PowerValue(a, exponent), PowerValue(b, exponent);
    MulMono(x, y, f);
    MulMono(f, g, y);
    FloorMono(x * f, y * g, UNIT);
  }

  /** Scaling a gain by a smaller factor loses it up to one unit of rounding. */
  lemma FloorDifference(x: nat, y: nat, f: nat, g: nat, d: nat)
    requires x <= y && f <= g && 0 < d
    ensures y * f / d - x * f / d <= y * g / d - x * g / d + 1
  {
    hide *;
    MulMono(f, g, y - x);
    assert (y - x) * f == y * f - x * f;
    assert (y - x) * g == y * g - x * g;
    DifferenceOfFloors(y * f, x * f, y * g, x * g, d);
  }

  /** If one difference is at most another, so are the differences of the floors, up to one. */
  lemma DifferenceOfFloors(a: int, b: int, k: int, l: int, d: nat)
    requires a - b <= k - l && 0 < d
    ensures a / d - b / d <= k / d - l / d + 1
  {
    hide *;
    FloorAdd(a, l, d);
    FloorAdd(k, b, d);
    FloorMono(a + l, k + b, d);
  }

  /** One move: its impact is at most the drop of the potential, plus one unit of rounding when the
      move worsens the imbalance on one side. */
  lemma ImpactBoundedByPotential(d: PoolDelta, p: PriceImpactParams, fractional: FractionalPow)
    requires WholeExponent(p.exponent)
    requires ImpactOf(d, p, fractional).Some?
    ensures ImpactOf(d, p, fractional).value
            <= Potential(d.current, p) - Potential(d.next, p) + (if IsWorsening(d) then 1 else 0)
  {
    var i, n, e := DiffValue(d.current), DiffValue(d.next), p.exponent;
    var f, g := p.AdjustedPositive(), p.negativeFactor;
    ApplyFactorsExact(i, f, e, fractional);
    ApplyFactorsExact(n, f, e, fractional);
    ApplyFactorsExact(i, g, e, fractional);
    ApplyFactorsExact(n, g, e, fractional);
    if !d.IsSameSideRebalance() {
      FactorValueMono(n, n, f, g, e);
    } else if n < i {
      FactorValueMono(n, i, f, f, e);
    } else {
      FactorValueMono(i, n, g, g, e);
      PowerValueMono(i, n, e);
      FloorDifference(PowerValue(i, e), PowerValue(n, e), f, g, UNIT);
    }
  }

  /** Total impact along a chain of pool values, if every move has one. */
  function ChainImpact(chain: seq<Pool>, p: PriceImpactParams, fractional: FractionalPow): Option<int> {
    if |chain| < 2 then Some(0)
    else
      var first :- ImpactOf(PoolDelta(chain[0], chain[1]), p, fractional);
      var rest :- ChainImpact(chain[1..], p, fractional);
      Some(first + rest)
  }

  function Worsenings(chain: seq<Pool>): nat {
    if |chain| < 2 then 0
    else (if IsWorsening(PoolDelta(chain[0], chain[1])) then 1 else 0) + Worsenings(chain[1..])
  }

  /** No sequence of moves earns more than the potential it gives up, plus one unit per worsening
      same-side move; in particular no round trip does. */
  lemma {:induction false} ImpactCannotBeFarmed(chain: seq<Pool>, p: PriceImpactParams, fractional: FractionalPow)
    requires WholeExponent(p.exponent) && |chain| > 0
    requires ChainImpact(chain, p, fractional).Some?
    ensures ChainImpact(chain, p, fractional).value
            <= Potential(chain[0], p) - Potential(chain[|chain| - 1], p) + Worsenings(chain)
  {
    if |chain| >= 2 {
      ImpactBoundedByPotential(PoolDelta(chain[0], chain[1]), p, fractional);
      ImpactCannotBeFarmed(chain[1..], p, fractional);
    }
  }
}
