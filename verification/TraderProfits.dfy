/** The profits of all the positions of one side: they add up to the profit of the side, and when it is
    capped their capped profits together respect the cap. */
module TraderProfits {
  import opened Options
  import opened Arith
  import opened Num
  import opened Utils
  import opened Price
  import opened Pool
  import opened Params
  import opened State
  import opened PositionState
  import opened IncreaseEffects
  import opened ValueNeutrality
  import opened Invariants
  import opened Solvency
  import Sums

  /** The uncapped profit of every position of one side at an index price. */
  function ProfitOn(isLong: bool, price: nat): Sums.Weight {
    (p: Position) => When(p.isLong == isLong, ProfitAt(p.sizeUsd, p.sizeTokens, price, isLong))
  }

  function SideTokens(isLong: bool): Sums.Weight {
    (p: Position) => When(p.isLong == isLong, p.sizeTokens)
  }

  lemma ProfitAdds(s1: int, t1: int, s2: int, t2: int, price: int, isLong: bool)
    ensures ProfitAt(s1 + s2, t1 + t2, price, isLong)
            == ProfitAt(s1, t1, price, isLong) + ProfitAt(s2, t2, price, isLong)
    ensures ProfitAt(0, 0, price, isLong) == 0
  {
    assert (t1 + t2) * price == t1 * price + t2 * price;
  }

  lemma {:induction false} SumOfProfits(ps: seq<Position>, isLong: bool, price: nat)
    ensures Sums.Sum(ps, ProfitOn(isLong, price))
            == ProfitAt(Sums.Sum(ps, SideSize(isLong)), Sums.Sum(ps, SideTokens(isLong)), price, isLong)
  {
    hide ProfitAt;
    if ps == [] {
      ProfitAdds(0, 0, 0, 0, price, isLong);
    } else {
      SumOfProfits(ps[1..], isLong, price);
      ProfitAdds(ps[0].sizeUsd, ps[0].sizeTokens, Sums.Sum(ps[1..], SideSize(isLong)),
                 Sums.Sum(ps[1..], SideTokens(isLong)), price, isLong);
    }
  }

  lemma SideTokensIsInterest(m: Market, ps: seq<Position>, isLong: bool)
    requires AggregatesAt(m, ps, isLong, true) && AggregatesAt(m, ps, isLong, false)
    ensures Sums.Sum(ps, SideTokens(isLong)) == m.openInterestInTokens.Side(isLong).Sum()
  {
    Sums.SumLinear(ps, SideTokens(isLong), TokensIn(isLong, true), 1, TokensIn(isLong, false));
  }

  lemma SideProfit(m: Market, ps: seq<Position>, isLong: bool, price: nat)
    requires Consistent(m, ps)
    ensures Sums.Sum(ps, ProfitOn(isLong, price))
            == ProfitAt(m.openInterest.Side(isLong).Sum(), m.openInterestInTokens.Side(isLong).Sum(), price, isLong)
  {
    hide AggregatesAt, ProfitAt, ProfitOn;
    assert AggregatesAt(m, ps, isLong, true) && AggregatesAt(m, ps, isLong, false);
    SumOfProfits(ps, isLong, price);
    SideSizeIsInterest(m, ps, isLong);
    SideTokensIsInterest(m, ps, isLong);
  }

  /** The profit of a side, taken at its lower price, is exactly the sum of the uncapped profits of its
      positions. */
  lemma PnlIsSumOfPositions(m: Market, ps: seq<Position>, index: Price, isLong: bool)
    requires Consistent(m, ps) && Pnl(m, index, isLong, false).Some?
    ensures Pnl(m, index, isLong, false).value
            == Sums.Sum(ps, ProfitOn(isLong, index.PickPriceForPnl(isLong, false)))
  {
    hide *;
    PnlExact(m, index, isLong, false);
    SideProfit(m, ps, isLong, index.PickPriceForPnl(isLong, false));
  }

  /** The weight above is each position's own uncapped profit. */
  lemma ProfitIsUncapped(p: Position, prices: Prices)
    requires UncappedPnl(p, prices).Some?
    ensures UncappedPnl(p, prices).value
            == ProfitOn(p.isLong, prices.index.PickPriceForPnl(p.isLong, false))(p)
  {
    hide ProfitFrom, ProfitAt;
    ProfitFromExact(p.sizeUsd, p.sizeTokens, prices.index.PickPriceForPnl(p.isLong, false), p.isLong);
  }

  /** With ordered prices the profit of a side at its higher price is at least that at its lower one. */
  lemma PnlAboveSum(m: Market, ps: seq<Position>, index: Price, isLong: bool)
    requires Consistent(m, ps) && index.IsOrdered() && Pnl(m, index, isLong, true).Some?
    ensures Sums.Sum(ps, ProfitOn(isLong, index.PickPriceForPnl(isLong, false))) <= Pnl(m, index, isLong, true).value
  {
    hide Pnl, Consistent, ProfitOn, Pool.Sum;
    PnlExact(m, index, isLong, true);
    SideProfit(m, ps, isLong, index.PickPriceForPnl(isLong, false));
    MulMono(index.min, index.max, m.openInterestInTokens.Side(isLong).Sum());
  }

  /** What a position would receive by closing completely, as far as it can be computed. */
  function CloseProfit(cfg: Config, m: Market, p: Position, prices: Prices): int {
    var pnl := PnlValue(cfg, m, p, prices, p.sizeUsd);
    if pnl.Some? then pnl.value.0 else 0
  }

  function CloseOn(cfg: Config, m: Market, prices: Prices, isLong: bool): Sums.Weight {
    (p: Position) => When(p.isLong == isLong, CloseProfit(cfg, m, p, prices))
  }

  lemma MulDivSignedWhole(a: nat, x: int)
    requires MulDivSigned(a, x, a).Some?
    ensures MulDivSigned(a, x, a).value == x
  {
    assert a * Abs(x) == Abs(x) * a;
    FloorExact(Abs(x), a);
  }

  /** Closing completely realises the whole capped profit. */
  lemma CloseRealisesAll(cfg: Config, m: Market, p: Position, prices: Prices)
    requires PnlValue(cfg, m, p, prices, p.sizeUsd).Some?
    ensures UncappedPnl(p, prices).Some?
    ensures TotalPnl(cfg, m, p, prices, UncappedPnl(p, prices).value) == Some(CloseProfit(cfg, m, p, prices))
  {
    hide UncappedPnl, TotalPnl, MulDivSigned;
    MulDivSignedWhole(p.sizeTokens, TotalPnl(cfg, m, p, prices, UncappedPnl(p, prices).value).value);
  }

  /** The cap on the profits of one side, if it can be computed. */
  function TraderCap(cfg: Config, m: Market, prices: Prices, isLong: bool): Option<int> {
    var poolValue :- PoolValueOneSide(m, prices, isLong, false);
    var poolPnl :- Pnl(m, prices.index, isLong, true);
    CapPnl(cfg, isLong, poolPnl, poolValue, MaxForTrader)
  }

  /** A position's share: what it realises is to its uncapped profit at most as the cap is to the profit of
      the side. A loss is realised in full, which is no more than its share because the cap only reduces. */
  predicate WithinShare(closed: int, uncapped: int, cap: int, poolPnl: int) {
    closed * poolPnl <= cap * uncapped
  }

  lemma CapOnlyReduces(cfg: Config, isLong: bool, pnl: int, poolValue: nat, kind: PnlKind)
    requires CapPnl(cfg, isLong, pnl, poolValue, kind).Some?
    ensures CapPnl(cfg, isLong, pnl, poolValue, kind).value <= pnl
  {
    hide ApplyFactor;
  }

  lemma TotalWithinShare(cfg: Config, m: Market, p: Position, prices: Prices, uncapped: int, cap: int, poolPnl: int)
    requires TotalPnl(cfg, m, p, prices, uncapped).Some?
    requires TraderCap(cfg, m, prices, p.isLong) == Some(cap) && Pnl(m, prices.index, p.isLong, true) == Some(poolPnl)
    requires poolPnl > 0 && cap >= 0
    ensures WithinShare(TotalPnl(cfg, m, p, prices, uncapped).value, uncapped, cap, poolPnl)
  {
    hide Pnl, PoolValueOneSide, CapPnl, MulDiv;
    if uncapped > 0 && cap != poolPnl {
      MulDivBounds(cap, uncapped, poolPnl);
    } else if uncapped < 0 {
      CapOnlyReduces(cfg, p.isLong, poolPnl, PoolValueOneSide(m, prices, p.isLong, false).value, MaxForTrader);
      MulMono(cap, poolPnl, -uncapped);
    }
  }

  /** The uncapped profit of a position. */
  function UncappedProfit(p: Position, prices: Prices): int {
    ProfitAt(p.sizeUsd, p.sizeTokens, prices.index.PickPriceForPnl(p.isLong, false), p.isLong)
  }

  /** A loss counts at what closing realises, so it has to be computable; a profit that is not counts as
      nothing. */
  predicate LossComputed(cfg: Config, m: Market, p: Position, prices: Prices) {
    UncappedProfit(p, prices) < 0 ==> PnlValue(cfg, m, p, prices, p.sizeUsd).Some?
  }

  lemma CloseWithinShare(cfg: Config, m: Market, p: Position, prices: Prices, cap: int, poolPnl: int)
    requires TraderCap(cfg, m, prices, p.isLong) == Some(cap) && Pnl(m, prices.index, p.isLong, true) == Some(poolPnl)
    requires poolPnl > 0 && cap >= 0 && LossComputed(cfg, m, p, prices)
    ensures WithinShare(CloseProfit(cfg, m, p, prices), UncappedProfit(p, prices), cap, poolPnl)
  {
    hide TotalPnl, TraderCap, Pnl, ProfitAt, UncappedPnl, PnlValue;
    if PnlValue(cfg, m, p, prices, p.sizeUsd).Some? {
      CloseRealisesAll(cfg, m, p, prices);
      ProfitIsUncapped(p, prices);
      TotalWithinShare(cfg, m, p, prices, UncappedProfit(p, prices), cap, poolPnl);
    } else {
      MulNonNeg(cap, UncappedProfit(p, prices));
    }
  }

  lemma WeightWithinShare(
    cfg: Config, m: Market, p: Position, prices: Prices, isLong: bool, cap: int, poolPnl: int)
    requires TraderCap(cfg, m, prices, isLong) == Some(cap) && Pnl(m, prices.index, isLong, true) == Some(poolPnl)
    requires poolPnl > 0 && cap >= 0 && (p.isLong == isLong ==> LossComputed(cfg, m, p, prices))
    ensures WithinShare(CloseOn(cfg, m, prices, isLong)(p),
                        ProfitOn(isLong, prices.index.PickPriceForPnl(isLong, false))(p), cap, poolPnl)
  {
    hide CloseProfit, ProfitAt, TraderCap, Pnl, LossComputed;
    if p.isLong == isLong {
      CloseWithinShare(cfg, m, p, prices, cap, poolPnl);
    }
  }

  lemma {:induction false} SumWithinShare(
    cfg: Config, m: Market, ps: seq<Position>, prices: Prices, isLong: bool, cap: int, poolPnl: int)
    requires TraderCap(cfg, m, prices, isLong) == Some(cap) && Pnl(m, prices.index, isLong, true) == Some(poolPnl)
    requires poolPnl > 0 && cap >= 0
    requires forall p <- ps | p.isLong == isLong :: LossComputed(cfg, m, p, prices)
    ensures WithinShare(Sums.Sum(ps, CloseOn(cfg, m, prices, isLong)),
                        Sums.Sum(ps, ProfitOn(isLong, prices.index.PickPriceForPnl(isLong, false))), cap, poolPnl)
  {
    if ps != [] {
      hide CloseOn, ProfitOn, TraderCap, Pnl, WithinShare, LossComputed;
      var closed := CloseOn(cfg, m, prices, isLong);
      var profit := ProfitOn(isLong, prices.index.PickPriceForPnl(isLong, false));
      SumWithinShare(cfg, m, ps[1..], prices, isLong, cap, poolPnl);
      WeightWithinShare(cfg, m, ps[0], prices, isLong, cap, poolPnl);
      SharesAdd(closed(ps[0]), Sums.Sum(ps[1..], closed), profit(ps[0]), Sums.Sum(ps[1..], profit), cap, poolPnl);
    }
  }

  lemma SharesAdd(c1: int, c2: int, u1: int, u2: int, cap: int, poolPnl: int)
    requires WithinShare(c1, u1, cap, poolPnl) && WithinShare(c2, u2, cap, poolPnl)
    ensures WithinShare(c1 + c2, u1 + u2, cap, poolPnl)
  {
  }

  /** What the cap on traders' profits allows in all. */
  function ProfitLimit(cfg: Config, m: Market, prices: Prices, isLong: bool): nat {
    m.primary.Amount(isLong) * prices.Collateral(isLong).min * cfg.maxPnlForTrader.Amount(isLong) / UNIT
  }

  lemma CapWithinLimit(cfg: Config, m: Market, prices: Prices, isLong: bool)
    requires TraderCap(cfg, m, prices, isLong).Some? && Pnl(m, prices.index, isLong, true).value > 0
    ensures 0 <= TraderCap(cfg, m, prices, isLong).value <= ProfitLimit(cfg, m, prices, isLong)
  {
    hide Pnl, Pool.Amount, Prices.Collateral;
  }

  /** Without a positive, computable cap no position realises more than its uncapped profit, and nothing
      positive at all if the cap cannot be computed. */
  lemma CloseUncapped(cfg: Config, m: Market, p: Position, prices: Prices)
    requires LossComputed(cfg, m, p, prices)
    requires TraderCap(cfg, m, prices, p.isLong).None? || Pnl(m, prices.index, p.isLong, true).value <= 0
    ensures CloseProfit(cfg, m, p, prices)
            <= (if TraderCap(cfg, m, prices, p.isLong).None? then 0 else UncappedProfit(p, prices))
  {
    hide Pnl, PoolValueOneSide, CapPnl, MulDivSigned, ProfitAt, UncappedPnl, PnlValue;
    if PnlValue(cfg, m, p, prices, p.sizeUsd).Some? {
      CloseRealisesAll(cfg, m, p, prices);
      ProfitIsUncapped(p, prices);
    }
  }

  /** What all the positions of a side would realise by closing completely, losses against capped profits,
      is at most the configured share of the pool value, although each profit is scaled and rounded on its
      own. */
  lemma CappedProfitsWithinLimit(cfg: Config, m: Market, ps: seq<Position>, prices: Prices, isLong: bool)
    requires Consistent(m, ps) && prices.index.IsOrdered()
    requires forall p <- ps | p.isLong == isLong :: LossComputed(cfg, m, p, prices)
    ensures Sums.Sum(ps, CloseOn(cfg, m, prices, isLong)) <= ProfitLimit(cfg, m, prices, isLong)
  {
    hide Consistent, CloseProfit, ProfitAt, TraderCap, Pnl, ProfitLimit, LossComputed, ProfitOn;
    var cap := TraderCap(cfg, m, prices, isLong);
    var profit := ProfitOn(isLong, prices.index.PickPriceForPnl(isLong, false));
    if cap.None? {
      NothingRealised(cfg, m, ps, prices, isLong);
    } else {
      CapNeedsPnl(cfg, m, prices, isLong);
      var poolPnl := Pnl(m, prices.index, isLong, true).value;
      PnlAboveSum(m, ps, prices.index, isLong);
      if poolPnl > 0 {
        CapWithinLimit(cfg, m, prices, isLong);
        SumWithinShare(cfg, m, ps, prices, isLong, cap.value, poolPnl);
        ShareOfCap(Sums.Sum(ps, CloseOn(cfg, m, prices, isLong)), Sums.Sum(ps, profit), cap.value, poolPnl);
      } else {
        AtMostUncapped(cfg, m, ps, prices, isLong);
      }
    }
  }

  function GainOn(cfg: Config, m: Market, prices: Prices, isLong: bool): Sums.Weight {
    (p: Position) => When(p.isLong == isLong, Max(CloseProfit(cfg, m, p, prices), 0))
  }

  function LossOn(cfg: Config, m: Market, prices: Prices, isLong: bool): Sums.Weight {
    (p: Position) => When(p.isLong == isLong, Max(-CloseProfit(cfg, m, p, prices), 0))
  }

  /** So the profits paid out on a side are covered by that share of the pool value and the losses of the same
      side. */
  lemma GainsCovered(cfg: Config, m: Market, ps: seq<Position>, prices: Prices, isLong: bool)
    requires Consistent(m, ps) && prices.index.IsOrdered()
    requires forall p <- ps | p.isLong == isLong :: LossComputed(cfg, m, p, prices)
    ensures Sums.Sum(ps, GainOn(cfg, m, prices, isLong))
            <= ProfitLimit(cfg, m, prices, isLong) + Sums.Sum(ps, LossOn(cfg, m, prices, isLong))
  {
    hide CloseProfit, Consistent, LossComputed, ProfitLimit;
    CappedProfitsWithinLimit(cfg, m, ps, prices, isLong);
    Sums.SumLinear(ps, CloseOn(cfg, m, prices, isLong), GainOn(cfg, m, prices, isLong), -1,
                   LossOn(cfg, m, prices, isLong));
  }

  lemma CapNeedsPnl(cfg: Config, m: Market, prices: Prices, isLong: bool)
    requires TraderCap(cfg, m, prices, isLong).Some?
    ensures Pnl(m, prices.index, isLong, true).Some?
  {
    hide Pnl, PoolValueOneSide, CapPnl;
  }

  lemma ShareOfCap(closed: int, profit: int, cap: int, poolPnl: int)
    requires WithinShare(closed, profit, cap, poolPnl) && profit <= poolPnl && 0 < poolPnl && 0 <= cap
    ensures closed <= cap
  {
    MulMono(profit, poolPnl, cap);
    MulCancel(closed, cap, poolPnl);
  }

  lemma {:induction false} NothingRealised(cfg: Config, m: Market, ps: seq<Position>, prices: Prices, isLong: bool)
    requires TraderCap(cfg, m, prices, isLong).None?
    requires forall p <- ps | p.isLong == isLong :: LossComputed(cfg, m, p, prices)
    ensures Sums.Sum(ps, CloseOn(cfg, m, prices, isLong)) <= 0
  {
    hide CloseProfit, TraderCap, LossComputed;
    if ps != [] {
      NothingRealised(cfg, m, ps[1..], prices, isLong);
      if ps[0].isLong == isLong {
        assert LossComputed(cfg, m, ps[0], prices);
        CloseUncapped(cfg, m, ps[0], prices);
      }
    }
  }

  lemma AtMostUncapped(cfg: Config, m: Market, ps: seq<Position>, prices: Prices, isLong: bool)
    requires TraderCap(cfg, m, prices, isLong).Some? && Pnl(m, prices.index, isLong, true).Some?
    requires Pnl(m, prices.index, isLong, true).value <= 0
    requires forall p <- ps | p.isLong == isLong :: LossComputed(cfg, m, p, prices)
    ensures Sums.Sum(ps, CloseOn(cfg, m, prices, isLong))
            <= Sums.Sum(ps, ProfitOn(isLong, prices.index.PickPriceForPnl(isLong, false)))
  {
    hide CloseProfit, TraderCap, LossComputed, ProfitAt, Pnl;
    var profit := ProfitOn(isLong, prices.index.PickPriceForPnl(isLong, false));
    forall p <- ps ensures CloseOn(cfg, m, prices, isLong)(p) <= profit(p) {
      if p.isLong == isLong {
        CloseUncapped(cfg, m, p, prices);
      }
    }
    Sums.SumMono(ps, CloseOn(cfg, m, prices, isLong), profit);
  }
}
