/** Pools holding a long and a short amount (`pool/mod.rs`, `pool/balance.rs` and the pool of
    `test.rs`). */
module Pool {
  import opened Options
  import opened Num

  datatype Pool = Pool(long: nat, short: nat) {
    function Amount(isLong: bool): nat {
      if isLong then long else short
    }

    function With(isLong: bool, amount: nat): Pool {
      if isLong then this.(long := amount) else this.(short := amount)
    }

    /** Add a signed delta to one side: overflow and underflow fail, the other side stays. */
    function ApplyDelta(isLong: bool, delta: int): (r: Option<Pool>)
      ensures r.Some? <==> 0 <= Amount(isLong) + delta && (delta > 0 ==> Amount(isLong) + delta <= MAX)
      ensures r.Some? ==> r.value.Amount(isLong) == Amount(isLong) + delta
      ensures r.Some? ==> r.value.Amount(!isLong) == Amount(!isLong)
    {
      var amount :- AddWithSigned(Amount(isLong), delta);
      Some(With(isLong, amount))
    }

    /** Apply `first` to the side `isLongFirst` and `second` to the other. */
    function ApplyBoth(isLongFirst: bool, first: int, second: int): Option<Pool> {
      var pool :- ApplyDelta(isLongFirst, first);
      pool.ApplyDelta(!isLongFirst, second)
    }

    function UsdValue(isLong: bool, price: nat): Option<nat> {
      CheckedMul(Amount(isLong), price)
    }

    /** Both amounts together, as one side of a merged balance. */
    function Total(): Option<nat> {
      CheckedAdd(long, short)
    }

    function Sum(): nat {
      long + short
    }
  }

  /** One pool for long positions and one for short positions. */
  datatype PoolPair = PoolPair(forLong: Pool, forShort: Pool) {
    function Side(isLong: bool): Pool {
      if isLong then forLong else forShort
    }

    function WithSide(isLong: bool, pool: Pool): PoolPair {
      if isLong then this.(forLong := pool) else this.(forShort := pool)
    }

    function ApplyDelta(isLong: bool, isLongCollateral: bool, delta: int): Option<PoolPair> {
      var pool :- Side(isLong).ApplyDelta(isLongCollateral, delta);
      Some(WithSide(isLong, pool))
    }

    /** The merged balance: the total of the long pool and the total of the short pool. */
    function Merge(): Option<Pool> {
      var long :- forLong.Total();
      var short :- forShort.Total();
      Some(Pool(long, short))
    }
  }

  const EMPTY_POOL := Pool(0, 0)
  const EMPTY_PAIR := PoolPair(EMPTY_POOL, EMPTY_POOL)
}
