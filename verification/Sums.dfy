/** Sums over all positions. */
module Sums {
  import opened PositionState

  type Weight = Position -> int

  ghost function Sum(ps: seq<Position>, f: Weight): int {
    if ps == [] then 0 else f(ps[0]) + Sum(ps[1..], f)
  }

  lemma {:induction false} SumAppend(ps: seq<Position>, q: Position, f: Weight)
    ensures Sum(ps + [q], f) == Sum(ps, f) + f(q)
  {
    if ps == [] {
      assert ps + [q] == [q];
    } else {
      SumAppend(ps[1..], q, f);
      assert (ps + [q])[1..] == ps[1..] + [q];
    }
  }

  lemma {:induction false} SumUpdate(ps: seq<Position>, i: nat, q: Position, f: Weight)
    requires i < |ps|
    ensures Sum(ps[i := q], f) == Sum(ps, f) - f(ps[i]) + f(q)
  {
    if i == 0 {
      assert ps[0 := q][1..] == ps[1..];
    } else {
      SumUpdate(ps[1..], i - 1, q, f);
      assert ps[i := q][1..] == ps[1..][i - 1 := q];
    }
  }

  /** A weight that is, position by position, another plus a multiple of a third sums accordingly. */
  lemma {:induction false} SumLinear(ps: seq<Position>, f: Weight, g: Weight, k: int, h: Weight)
    requires forall p <- ps :: f(p) == g(p) + k * h(p)
    ensures Sum(ps, f) == Sum(ps, g) + k * Sum(ps, h)
  {
    if ps != [] {
      SumLinear(ps[1..], f, g, k, h);
      assert k * (h(ps[0]) + Sum(ps[1..], h)) == k * h(ps[0]) + k * Sum(ps[1..], h);
    }
  }

  lemma {:induction false} SumMono(ps: seq<Position>, f: Weight, g: Weight)
    requires forall p <- ps :: f(p) <= g(p)
    ensures Sum(ps, f) <= Sum(ps, g)
  {
    if ps != [] {
      SumMono(ps[1..], f, g);
    }
  }

  lemma {:induction false} SumScaled(ps: seq<Position>, f: Weight, k: int, g: Weight)
    requires forall p <- ps :: f(p) == k * g(p)
    ensures Sum(ps, f) == k * Sum(ps, g)
  {
    if ps != [] {
      SumScaled(ps[1..], f, k, g);
      assert k * (g(ps[0]) + Sum(ps[1..], g)) == k * g(ps[0]) + k * Sum(ps[1..], g);
    }
  }
}
