/** Integer facts about products, floors and ceilings. Everything nonlinear in the project is
    proved here, on plain integers, so that the lemmas about market states stay linear. */
module Arith {
  /** The ceiling of `n / d`. */
  function CeilDiv(n: int, d: int): int
    requires d > 0
  {
    (n + d - 1) / d
  }

  /** Signed division that truncates toward zero, as Rust's does. */
  function TruncDiv(n: int, d: int): int
    requires d > 0
  {
    if n >= 0 then n / d else -(-n / d)
  }

  function Abs(x: int): nat {
    if x >= 0 then x else -x
  }

  function Max(a: int, b: int): int {
    if a >= b then a else b
  }

  function Min(a: int, b: int): int {
    if a <= b then a else b
  }

  lemma MulMono(a: int, b: int, c: int)
    requires a <= b && 0 <= c
    ensures a * c <= b * c
    ensures c * a <= c * b
  {
    assert (b - a) * c >= 0;
  }

  lemma MulNonNeg(a: int, b: int)
    requires 0 <= a && 0 <= b
    ensures 0 <= a * b
  {
  }

  /** A positive common factor can be cancelled from an inequality. */
  lemma MulCancel(a: int, b: int, c: int)
    requires a * c <= b * c && 0 < c
    ensures a <= b
  {
    if a > b {
      MulMono(b + 1, a, c);
    }
  }

  lemma FloorBounds(n: int, d: int)
    requires d > 0
    ensures n / d * d <= n < n / d * d + d
  {
  }

  /** The floor is the greatest integer whose multiple fits. */
  lemma FloorGreatest(q: int, n: int, d: int)
    requires d > 0 && q * d <= n
    ensures q <= n / d
  {
    FloorBounds(n, d);
    if n / d < q {
      MulMono(n / d + 1, q, d);
    }
  }

  lemma FloorBelow(q: int, n: int, d: int)
    requires d > 0 && n < q * d
    ensures n / d < q
  {
    FloorBounds(n, d);
    if q <= n / d {
      MulMono(q, n / d, d);
    }
  }

  lemma FloorMono(a: int, b: int, d: int)
    requires d > 0 && a <= b
    ensures a / d <= b / d
  {
    hide *;
    FloorBounds(a, d);
    FloorGreatest(a / d, b, d);
  }

  lemma CeilBounds(n: int, d: int)
    requires d > 0
    ensures CeilDiv(n, d) * d - d < n <= CeilDiv(n, d) * d
  {
    FloorBounds(n + d - 1, d);
  }

  /** Two floors never exceed the floor of the sum, and fall short of it by at most one. */
  lemma FloorAdd(a: int, b: int, d: int)
    requires d > 0
    ensures a / d + b / d <= (a + b) / d <= a / d + b / d + 1
  {
    FloorBounds(a, d);
    FloorBounds(b, d);
    FloorGreatest(a / d + b / d, a + b, d);
    FloorBelow(a / d + b / d + 2, a + b, d);
  }

  /** Dividing a multiple gives the factor back. */
  lemma FloorExact(q: int, d: int)
    requires d > 0
    ensures q * d / d == q
  {
    FloorGreatest(q, q * d, d);
    FloorBelow(q + 1, q * d, d);
  }

  function Total(xs: seq<nat>): nat {
    if xs == [] then 0 else xs[0] + Total(xs[1..])
  }
}
