/** Increasing a position takes no value from the liquidity providers. */
module ValueNeutrality {
  import opened Options
  import opened Arith
  import opened Num
  import opened Utils
  import opened Price
  import opened Pool
  import opened Params
  import opened State
  import opened PositionState
  import opened IncreaseAction
  import opened IncreaseEffects

  /** Profit of one side without the special case for an empty side. */
  function ProfitAt(interest: int, tokens: int, price: int, isLong: bool): int {
    if isLong then tokens * price - interest else interest - tokens * price
  }

  lemma ProfitFromExact(interest: nat, tokens: nat, price: nat, isLong: bool)
    ensures ProfitFrom(interest, tokens, price, isLong).Some? ==>
              ProfitFrom(interest, tokens, price, isLong).value == ProfitAt(interest, tokens, price, isLong)
    ensures ProfitAt(0, 0, price, isLong) == 0
  {
  }

  lemma PnlExact(m: Market, index: Price, isLong: bool, maximize: bool)
    requires Pnl(m, index, isLong, maximize).Some?
    ensures Pnl(m, index, isLong, maximize).value
            == ProfitAt(m.openInterest.Side(isLong).Sum(), m.openInterestInTokens.Side(isLong).Sum(),
                        index.PickPriceForPnl(isLong, maximize), isLong)
  {
    hide ProfitFrom, ProfitAt;
    ProfitFromExact(m.openInterest.Side(isLong).Sum(), m.openInterestInTokens.Side(isLong).Sum(),
                    index.PickPriceForPnl(isLong, maximize), isLong);
  }

  /** The tokens of the base size: worth at most the size for a long, at least the size for a short. */
  lemma BaseTokensBounds(index: Price, isLong: bool, sizeDelta: nat, price: int)
    requires BaseTokens(index, isLong, sizeDelta).Some? && price == index.PickPrice(isLong)
    ensures var base := BaseTokens(index, isLong, sizeDelta).value;
            if isLong then sizeDelta - price < base * price <= sizeDelta
            else sizeDelta <= base * price < sizeDelta + price
  {
    if isLong {
      FloorBounds(sizeDelta, index.max);
    } else {
      CeilBounds(sizeDelta, index.min);
    }
  }

  /** The tokens of an execution are its base tokens moved by the impact, in the trader's favour when
      the impact is positive. */
  lemma ExecutionParts(cfg: Config, m: Market, isLong: bool, params: IncreaseParams)
    requires GetExecution(cfg, m, isLong, params).Some? && params.sizeDelta != 0
    ensures var e := GetExecution(cfg, m, isLong, params).value;
            && BaseTokens(params.prices.index, isLong, params.sizeDelta).Some?
            && e.tokens == BaseTokens(params.prices.index, isLong, params.sizeDelta).value
                           + (if isLong then e.impactAmount else -e.impactAmount)
            && CappedPositiveImpact(cfg, m, isLong, params.prices.index, params.sizeDelta) == Some(e.impactValue)
            && ImpactAmount(params.prices.index, e.impactValue) == Some(e.impactAmount)
  {
    hide CappedPositiveImpact, ImpactAmount, BaseTokens, ExecutionPrice;
  }

  /** A size is only ever exchanged within the acceptable price: a long gets enough tokens for it, a short
      gives up few enough, up to the rounding of the price. */
  lemma AcceptablePriceRespected(cfg: Config, m: Market, isLong: bool, params: IncreaseParams)
    requires GetExecution(cfg, m, isLong, params).Some? && params.sizeDelta != 0 && params.acceptable.Some?
    ensures var tokens := GetExecution(cfg, m, isLong, params).value.tokens;
            && tokens > 0
            && if isLong then params.sizeDelta < (params.acceptable.value + 1) * tokens
               else params.acceptable.value * tokens <= params.sizeDelta
  {
    hide CappedPositiveImpact, ImpactAmount, BaseTokens;
    var e := GetExecution(cfg, m, isLong, params).value;
    FloorBounds(params.sizeDelta, e.tokens);
    if isLong {
      MulMono(e.price, params.acceptable.value, e.tokens);
    } else {
      MulMono(params.acceptable.value, e.price, e.tokens);
    }
  }

  /** What an execution adds to the profit of its side, beyond what its impact takes out of the impact
      pool at the same price, is a rounding loss of less than one price. */
  lemma ExecutionNeutral(cfg: Config, m: Market, isLong: bool, params: IncreaseParams, e: Execution, price: nat)
    requires GetExecution(cfg, m, isLong, params) == Some(e) && params.sizeDelta != 0
    requires price == params.prices.index.min == params.prices.index.max
    ensures -(price as int) < ProfitAt(params.sizeDelta, e.tokens, price, isLong) - e.impactAmount * price <= 0
  {
    hide GetExecution, BaseTokens, ProfitAt, CappedPositiveImpact, ImpactAmount;
    ExecutionParts(cfg, m, isLong, params);
    BaseTokensBounds(params.prices.index, isLong, params.sizeDelta, price);
    NeutralArith(BaseTokens(params.prices.index, isLong, params.sizeDelta).value, e.impactAmount, price,
                 params.sizeDelta, isLong);
  }

  lemma NeutralArith(base: int, impact: int, price: int, size: int, isLong: bool)
    requires if isLong then size - price < base * price <= size else size <= base * price < size + price
    ensures -price < ProfitAt(size, base + (if isLong then impact else -impact), price, isLong) - impact * price <= 0
  {
    assert (base + impact) * price == base * price + impact * price;
    assert (base - impact) * price == base * price - impact * price;
  }

  /** The profit of all traders plus the value of the impact pool: what the market owes beyond its
      liquidity. */
  function Owed(m: Market, index: Price): Option<int> {
    var longPnl :- Pnl(m, index, true, false);
    var shortPnl :- Pnl(m, index, false, false);
    Some(longPnl + shortPnl + m.positionImpact.Amount(true) * index.min)
  }

  /** The same on plain numbers: profits of longs at the lower price, of shorts at the higher one. */
  function OwedAt(m: Market, index: Price): int {
    ProfitAt(m.openInterest.forLong.Sum(), m.openInterestInTokens.forLong.Sum(), index.min, true)
    + ProfitAt(m.openInterest.forShort.Sum(), m.openInterestInTokens.forShort.Sum(), index.max, false)
    + m.positionImpact.Amount(true) * index.min
  }

  lemma OwedExact(m: Market, index: Price)
    requires Owed(m, index).Some?
    ensures Owed(m, index).value == OwedAt(m, index)
  {
    hide Pnl, ProfitAt;
    PnlExact(m, index, true, false);
    PnlExact(m, index, false, false);
  }

  /** What is owed falls, if at all, by less than one price, and never rises. */
  predicate OnlyRounds(before: Option<int>, after: Option<int>, price: nat) {
    before.Some? && after.Some? ==> 0 <= before.value - after.value < price
  }

  /** With a single index price, every increase of a non-zero size changes what the market owes by
      less than one price, and never in the trader's favour, whatever the price impact is. */
  lemma IncreaseValueNeutral(
    cfg: Config, m: Market, position: Position, params: IncreaseParams, next: Market, grown: Position,
    r: IncreaseReport)
    requires Increase(cfg, m, position, params) == Some((next, grown, r)) && params.sizeDelta != 0
    requires params.prices.index.min == params.prices.index.max
    ensures OnlyRounds(Owed(m, params.prices.index), Owed(next, params.prices.index), params.prices.index.min)
  {
    hide Increase, Owed, OwedAt, ProfitAt, GetExecution, FeesFor, Grown, BorrowedFor;
    var index := params.prices.index;
    if Owed(m, index).Some? && Owed(next, index).Some? {
      OwedExact(m, index);
      OwedExact(next, index);
      IncreaseHasEffect(cfg, m, position, params, true, true);
      ExecutionNeutral(cfg, m, position.isLong, params, r.execution, index.min);
      SidesGrow(cfg, m, position, params, true);
      SidesGrow(cfg, m, position, params, false);
      OwedChanges(m, next, position.isLong, params.sizeDelta, r.execution.tokens, r.execution.impactAmount, index);
    }
  }

  lemma OwedChanges(m: Market, next: Market, isLong: bool, size: nat, tokens: nat, impact: int, index: Price)
    requires next.openInterest.Side(isLong).Sum() == m.openInterest.Side(isLong).Sum() + size
    requires next.openInterestInTokens.Side(isLong).Sum() == m.openInterestInTokens.Side(isLong).Sum() + tokens
    requires next.openInterest.Side(!isLong).Sum() == m.openInterest.Side(!isLong).Sum()
    requires next.openInterestInTokens.Side(!isLong).Sum() == m.openInterestInTokens.Side(!isLong).Sum()
    requires next.positionImpact.Amount(true) == m.positionImpact.Amount(true) - impact
    ensures OwedAt(next, index)
            == OwedAt(m, index) + ProfitAt(size, tokens, index.PickPriceForPnl(isLong, false), isLong)
               - impact * index.min
  {
    hide Pool.Sum, Pool.Amount;
    var before, pool := m.openInterestInTokens.Side(isLong).Sum(), m.positionImpact.Amount(true);
    var price := index.PickPriceForPnl(isLong, false);
    assert (before + tokens) * price == before * price + tokens * price;
    assert (pool - impact) * index.min == pool * index.min - impact * index.min;
  }

  /** With a spread as well, an execution never profits by more than its impact takes out of the impact pool: what it
      buys or sells is valued at the other end of the spread. */
  lemma ExecutionNeverProfits(cfg: Config, m: Market, isLong: bool, params: IncreaseParams, e: Execution)
    requires GetExecution(cfg, m, isLong, params) == Some(e) && params.sizeDelta != 0
    requires params.prices.index.IsOrdered()
    ensures var index := params.prices.index;
            ProfitAt(params.sizeDelta, e.tokens, index.PickPriceForPnl(isLong, false), isLong)
            <= e.impactAmount * index.min
  {
    hide GetExecution, BaseTokens, ProfitAt, CappedPositiveImpact, ImpactAmount;
    var index := params.prices.index;
    ExecutionParts(cfg, m, isLong, params);
    BaseTokensBounds(index, isLong, params.sizeDelta, index.PickPrice(isLong));
    SpreadArith(BaseTokens(index, isLong, params.sizeDelta).value, e.impactAmount, index.min, index.max,
                params.sizeDelta, isLong, e.tokens);
  }

  lemma SpreadArith(base: nat, impact: int, low: nat, high: nat, size: int, isLong: bool, tokens: nat)
    requires low <= high && tokens == base + (if isLong then impact else -impact)
    requires if isLong then base * high <= size else size <= base * low
    ensures ProfitAt(size, tokens, if isLong then low else high, isLong) <= impact * low
  {
    MulMono(low, high, if isLong then base else tokens);
    assert (base + impact) * low == base * low + impact * low;
    assert (base - impact) * low == base * low - impact * low;
  }

  /** At ordered prices, what is owed to the traders and the impact pool never rises in an increase, whatever its size
      and price impact. */
  lemma IncreaseNeverOwesMore(
    cfg: Config, m: Market, position: Position, params: IncreaseParams, next: Market, grown: Position,
    r: IncreaseReport)
    requires Increase(cfg, m, position, params) == Some((next, grown, r)) && params.prices.index.IsOrdered()
    requires Owed(m, params.prices.index).Some? && Owed(next, params.prices.index).Some?
    ensures Owed(next, params.prices.index).value <= Owed(m, params.prices.index).value
  {
    hide Increase, Owed, OwedAt, ProfitAt, GetExecution, FeesFor, Grown, BorrowedFor;
    var index := params.prices.index;
    OwedExact(m, index);
    OwedExact(next, index);
    IncreaseHasEffect(cfg, m, position, params, true, true);
    SidesGrow(cfg, m, position, params, true);
    SidesGrow(cfg, m, position, params, false);
    OwedChanges(m, next, position.isLong, params.sizeDelta, r.execution.tokens, r.execution.impactAmount, index);
    if params.sizeDelta == 0 {
      NoSizeNoTokens(cfg, m, position.isLong, params);
      ProfitFromExact(0, 0, index.PickPriceForPnl(position.isLong, false), position.isLong);
    } else {
      ExecutionNeverProfits(cfg, m, position.isLong, params, r.execution);
    }
  }

  lemma SidesGrow(cfg: Config, m: Market, position: Position, params: IncreaseParams, isLong: bool)
    requires Increase(cfg, m, position, params).Some?
    ensures var (next, _, r) := Increase(cfg, m, position, params).value;
            && next.openInterest.Side(isLong).Sum()
               == m.openInterest.Side(isLong).Sum() + When(position.isLong == isLong, params.sizeDelta)
            && next.openInterestInTokens.Side(isLong).Sum()
               == m.openInterestInTokens.Side(isLong).Sum() + When(position.isLong == isLong, r.execution.tokens)
  {
    hide Increase, GetExecution, FeesFor, Grown;
    IncreaseHasEffect(cfg, m, position, params, isLong, true);
    IncreaseHasEffect(cfg, m, position, params, isLong, false);
  }

  /** With ordered prices a positive impact never takes more than the position impact pool holds. */
  lemma PositiveImpactCovered(cfg: Config, m: Market, isLong: bool, params: IncreaseParams)
    requires GetExecution(cfg, m, isLong, params).Some?
    requires params.prices.index.IsOrdered()
    ensures GetExecution(cfg, m, isLong, params).value.impactAmount <= m.positionImpact.long
    ensures GetExecution(cfg, m, isLong, params).value.impactAmount > 0 ==>
              m.positionImpact.ApplyDelta(true, -GetExecution(cfg, m, isLong, params).value.impactAmount).Some?
  {
    hide GetExecution, ImpactAmount, CappedPositiveImpact, BaseTokens;
    var e := GetExecution(cfg, m, isLong, params).value;
    if params.sizeDelta == 0 {
      NoSizeNoTokens(cfg, m, isLong, params);
    } else {
      ExecutionParts(cfg, m, isLong, params);
      CapWithinPool(cfg, m, isLong, params.prices.index, params.sizeDelta);
      ImpactAmountSign(params.prices.index, e.impactValue);
      if e.impactAmount > 0 {
        MulMono(params.prices.index.min, params.prices.index.max, m.positionImpact.long);
        MulCancel(e.impactAmount, m.positionImpact.long, params.prices.index.max);
      }
    }
  }

  lemma CapWithinPool(cfg: Config, m: Market, isLong: bool, index: Price, sizeDelta: int)
    requires CappedPositiveImpact(cfg, m, isLong, index, sizeDelta).Some?
    ensures CappedPositiveImpact(cfg, m, isLong, index, sizeDelta).value <= m.positionImpact.long * index.min
  {
    hide PositionPriceImpact, ApplyFactor;
    MulNonNeg(m.positionImpact.long, index.min);
  }

  lemma ImpactAmountSign(index: Price, impact: int)
    requires ImpactAmount(index, impact).Some?
    ensures impact > 0 ==> index.max > 0 && 0 <= ImpactAmount(index, impact).value * index.max <= impact
    ensures impact <= 0 ==> ImpactAmount(index, impact).value <= 0
  {
    hide RoundUpMagnitudeDiv;
    if impact > 0 {
      FloorBounds(impact, index.max);
      FloorGreatest(0, impact, index.max);
      MulNonNeg(impact / index.max, index.max);
    } else {
      RoundUpMagnitudeSign(index.min, impact);
    }
  }

  lemma RoundUpMagnitudeSign(divisor: nat, dividend: int)
    requires dividend <= 0 && RoundUpMagnitudeDiv(divisor, dividend).Some?
    ensures RoundUpMagnitudeDiv(divisor, dividend).value <= 0
  {
    if dividend < 0 {
      FloorGreatest(0, -(dividend - divisor + 1), divisor);
    } else {
      FloorBelow(1, divisor - 1, divisor);
    }
  }
}
