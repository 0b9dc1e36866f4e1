/** What a market token is worth over a whole run. */
module ValueRuns {
  import opened Options
  import opened Arith
  import opened Num
  import opened Price
  import opened Params
  import opened State
  import opened DepositAction
  import opened WithdrawAction
  import opened SwapAction
  import opened FundingAction
  import opened AccrualActions
  import opened LazyAccrual
  import opened IncreaseAction
  import opened World
  import opened Safety
  import opened ShareValue
  import opened UncappedValue
  import opened Example

  /** What is asked of the state before an action: the accruals are up to date before anything is exchanged, and a
      withdrawal is not paid for profit that a cap withholds. */
  predicate Ready(cfg: Config, m: Market, a: Action, prices: Prices) {
    match a
    case DoDeposit(_, _, _) => Settled(m)
    case DoWithdraw(_, _) => Settled(m) && BothBelowCap(cfg, m, prices, MaxAfterWithdrawal, false)
    case DoSwap(_, _, _) => Settled(m)
    case DoIncrease(_, _) => Settled(m)
    case _ => true
  }

  /** A successful run at the given prices in which every action finds the market ready, the value can always be
      computed and the supply never falls below `least`. */
  predicate Orderly(cfg: Config, w: World, actions: seq<Action>, prices: Prices, least: nat)
    decreases |actions|
  {
    && Valued(cfg, w.market, prices) && least <= w.market.supply
    && (actions != [] ==>
          && AtPrices(actions[0], prices) && Ready(cfg, w.market, actions[0], prices)
          && Step(cfg, w, actions[0]).Some?
          && Orderly(cfg, Step(cfg, w, actions[0]).value, actions[1..], prices, least))
  }

  function Increases(actions: seq<Action>): nat {
    if actions == [] then 0 else (if actions[0].DoIncrease? then 1 else 0) + Increases(actions[1..])
  }

  /** The most that one increase can cost the pool. */
  function IncreaseLoss(prices: Prices): nat {
    Max(prices.long.min, prices.short.min) + 1
  }

  function LossOf(a: Action, prices: Prices): nat {
    if a.DoIncrease? then IncreaseLoss(prices) else 0
  }

  function Loss(actions: seq<Action>, prices: Prices): nat {
    if actions == [] then 0 else LossOf(actions[0], prices) + Loss(actions[1..], prices)
  }

  /** The value per market token falls by at most `loss` over the least supply, all denominators multiplied out. */
  predicate KeepsUpTo(value: int, supply: nat, nextValue: int, nextSupply: nat, loss: nat, least: nat) {
    nextValue * least * supply >= (value * least - loss * supply) * nextSupply
  }

  lemma KeptOutright(value: int, supply: nat, nextValue: int, nextSupply: nat, least: nat)
    requires nextValue * supply >= value * nextSupply
    ensures KeepsUpTo(value, supply, nextValue, nextSupply, 0, least)
  {
    MulMono(value * nextSupply, nextValue * supply, least);
    assert value * nextSupply * least == value * least * nextSupply;
    assert nextValue * supply * least == nextValue * least * supply;
  }

  lemma KeptSameSupply(value: int, supply: nat, nextValue: int, least: nat)
    requires nextValue >= value
    ensures KeepsUpTo(value, supply, nextValue, supply, 0, least)
  {
    MulMono(value, nextValue, supply);
    KeptOutright(value, supply, nextValue, supply, least);
  }

  lemma KeptBut(value: int, supply: nat, nextValue: int, loss: nat, least: nat)
    requires nextValue >= value - loss && least <= supply
    ensures KeepsUpTo(value, supply, nextValue, supply, loss, least)
  {
    MulMono(value - loss, nextValue, least);
    assert (value - loss) * least == value * least - loss * least;
    MulMono(least, supply, loss);
    MulMono(value * least - loss * supply, nextValue * least, supply);
  }

  lemma KeptThrough(
    value: int, supply: nat, midValue: int, midSupply: nat, endValue: int, endSupply: nat, first: nat, second: nat,
    least: nat)
    requires midSupply > 0
    requires KeepsUpTo(value, supply, midValue, midSupply, first, least)
    requires KeepsUpTo(midValue, midSupply, endValue, endSupply, second, least)
    ensures KeepsUpTo(value, supply, endValue, endSupply, first + second, least)
  {
    assert second * midSupply * supply == second * supply * midSupply;
    assert (first + second) * supply == first * supply + second * supply;
    Chain(value * least, supply, midValue * least, midSupply, endValue * least, endSupply, first * supply,
          second * supply, second * midSupply);
  }

  lemma Chain(v: int, s: nat, w: int, t: nat, x: int, u: nat, a: int, b: int, c: int)
    requires t > 0 && c * s == b * t
    requires w * s >= (v - a) * t && x * t >= (w - c) * u
    ensures x * s >= (v - a - b) * u
  {
    hide *;
    assert (w - c) * s == w * s - c * s;
    assert (v - a - b) * t == (v - a) * t - b * t;
    MulMono((v - a - b) * t, (w - c) * s, u);
    MulMono((w - c) * u, x * t, s);
    Swapped(w - c, s, u);
    Swapped(v - a - b, t, u);
    Swapped(x, t, s);
    MulCancel((v - a - b) * u, x * s, t);
  }

  lemma Swapped(a: int, b: int, c: int)
    ensures a * b * c == a * c * b
  {
  }

  /** From one market to another the uncapped value per market token falls by at most `loss`. */
  predicate Keeps(cfg: Config, m: Market, end: Market, prices: Prices, loss: nat, least: nat) {
    KeepsUpTo(Uncapped(cfg, m, prices), m.supply, Uncapped(cfg, end, prices), end.supply, loss, least)
  }

  lemma KeepsJoin(
    cfg: Config, m: Market, mid: Market, end: Market, prices: Prices, first: nat, second: nat, least: nat)
    requires mid.supply > 0
    requires Keeps(cfg, m, mid, prices, first, least) && Keeps(cfg, mid, end, prices, second, least)
    ensures Keeps(cfg, m, end, prices, first + second, least)
  {
    hide Uncapped, KeepsUpTo;
    KeptThrough(Uncapped(cfg, m, prices), m.supply, Uncapped(cfg, mid, prices), mid.supply, Uncapped(cfg, end, prices),
                end.supply, first, second, least);
  }

  /** One action: only an increase may cost the holders anything. */
  lemma StepKeepsUncapped(cfg: Config, w: World, a: Action, prices: Prices, least: nat, next: World)
    requires prices.IsOrdered() && 0 < least <= w.market.supply
    requires AtPrices(a, prices) && Ready(cfg, w.market, a, prices) && Step(cfg, w, a) == Some(next)
    requires Valued(cfg, w.market, prices) && Valued(cfg, next.market, prices)
    ensures Keeps(cfg, w.market, next.market, prices, LossOf(a, prices), least)
  {
    hide Deposit, Withdraw, Swap, Increase, UpdateFunding, UpdateBorrowing, DistributeImpact, Uncapped, Valued, Settled,
      KeepsUpTo, BothBelowCap, IncreaseLedger, Plus, OneSide;
    var m, end := w.market, next.market;
    var before, after := Uncapped(cfg, m, prices), Uncapped(cfg, end, prices);
    match a
    case DoDeposit(long, short, _) =>
      DepositKeepsUncapped(cfg, m, long, short, prices, end, Deposit(cfg, m, long, short, prices).value.1);
      KeptOutright(before, m.supply, after, end.supply, least);
    case DoWithdraw(amount, _) =>
      WithdrawKeepsUncapped(cfg, m, amount, prices, end, Withdraw(cfg, m, amount, prices).value.1);
      KeptOutright(before, m.supply, after, end.supply, least);
    case DoSwap(isLongIn, amount, _) =>
      SwapKeepsUncapped(cfg, m, isLongIn, amount, prices, end, Swap(cfg, m, isLongIn, amount, prices).value.1);
      KeptSameSupply(before, m.supply, after, least);
    case DoIncrease(id, params) =>
      var (_, grown, r) := Increase(cfg, m, w.positions[id], params).value;
      IncreaseKeepsUncapped(cfg, m, w.positions[id], params, end, grown, r);
      KeptBut(before, m.supply, after, IncreaseLoss(prices), least);
    case _ =>
      AccrualKeepsUncapped(cfg, w, a, prices, next);
      KeptSameSupply(before, m.supply, after, least);
  }

  /** What only opens a position, passes time or accrues never lowers the value. */
  lemma AccrualKeepsUncapped(cfg: Config, w: World, a: Action, prices: Prices, next: World)
    requires a.DoOpen? || a.DoUpdateFunding? || a.DoUpdateBorrowing? || a.DoDistribute? || a.DoTick?
    requires AtPrices(a, prices) && Step(cfg, w, a) == Some(next)
    requires Valued(cfg, w.market, prices) && Valued(cfg, next.market, prices)
    ensures Uncapped(cfg, next.market, prices) >= Uncapped(cfg, w.market, prices)
    ensures next.market.supply == w.market.supply
  {
    hide UpdateFunding, UpdateBorrowing, DistributeImpact, Uncapped, Valued;
    var m := w.market;
    match a
    case DoUpdateFunding(_) =>
      UpdateFundingFrame(cfg, m, prices);
      UpdateFundingKeepsUncapped(cfg, m, prices);
    case DoUpdateBorrowing(_) =>
      UpdateBorrowingExact(cfg, m, prices, true);
      UpdateBorrowingKeepsUncapped(cfg, m, prices);
    case DoDistribute =>
      DistributeImpactExact(cfg, m);
      DistributeKeepsUncapped(cfg, m, prices);
    case DoTick(seconds) => TickKeepsUncapped(cfg, m, prices, seconds);
    case _ =>
  }

  lemma OrderlySplits(cfg: Config, w: World, actions: seq<Action>, prices: Prices, least: nat)
    requires actions != [] && Orderly(cfg, w, actions, prices, least)
    ensures Valued(cfg, w.market, prices) && least <= w.market.supply
    ensures AtPrices(actions[0], prices) && Ready(cfg, w.market, actions[0], prices)
    ensures Step(cfg, w, actions[0]).Some?
    ensures Orderly(cfg, Step(cfg, w, actions[0]).value, actions[1..], prices, least)
    ensures Valued(cfg, Step(cfg, w, actions[0]).value.market, prices)
    ensures least <= Step(cfg, w, actions[0]).value.market.supply
    ensures Loss(actions, prices) == LossOf(actions[0], prices) + Loss(actions[1..], prices)
    ensures Run(cfg, w, actions) == Run(cfg, Step(cfg, w, actions[0]).value, actions[1..])
  {
    hide Step, Valued, Ready, AtPrices;
  }

  lemma {:induction false} RunKeepsUncapped(cfg: Config, w: World, actions: seq<Action>, prices: Prices, least: nat)
    requires prices.IsOrdered() && 0 < least && Orderly(cfg, w, actions, prices, least)
    ensures Run(cfg, w, actions).Some?
    ensures var end := Run(cfg, w, actions).value.market;
            && Valued(cfg, end, prices) && least <= end.supply
            && Keeps(cfg, w.market, end, prices, Loss(actions, prices), least)
    decreases |actions|
  {
    hide Step, Keeps, Valued, LossOf, Loss, AtPrices, Ready, Orderly, Run;
    if actions == [] {
      NothingDone(cfg, w, actions, prices, least);
    } else {
      OrderlySplits(cfg, w, actions, prices, least);
      var next := Step(cfg, w, actions[0]).value;
      RunKeepsUncapped(cfg, next, actions[1..], prices, least);
      StepKeepsUncapped(cfg, w, actions[0], prices, least, next);
      KeepsJoin(cfg, w.market, next.market, Run(cfg, next, actions[1..]).value.market, prices,
                LossOf(actions[0], prices), Loss(actions[1..], prices), least);
    }
  }

  lemma NothingDone(cfg: Config, w: World, actions: seq<Action>, prices: Prices, least: nat)
    requires actions == [] && Orderly(cfg, w, actions, prices, least)
    ensures Run(cfg, w, actions) == Some(w) && Valued(cfg, w.market, prices) && least <= w.market.supply
    ensures Keeps(cfg, w.market, w.market, prices, Loss(actions, prices), least)
  {
    hide KeepsUpTo, IncreaseLoss, Uncapped, Valued;
    KeptSameSupply(Uncapped(cfg, w.market, prices), w.market.supply, Uncapped(cfg, w.market, prices), least);
  }

  lemma {:induction false} LossCounted(actions: seq<Action>, prices: Prices)
    ensures Loss(actions, prices) == Increases(actions) * IncreaseLoss(prices)
  {
    hide IncreaseLoss;
    if actions == [] {
      assert 0 * IncreaseLoss(prices) == 0;
    } else {
      LossCounted(actions[1..], prices);
      OneMore(Increases(actions[1..]), IncreaseLoss(prices));
    }
  }

  lemma OneMore(n: nat, loss: nat)
    ensures (n + 1) * loss == n * loss + loss
  {
  }

  /** Over any run at one set of prices, spreads included, whatever is deposited, withdrawn, swapped, borrowed, charged
      and traded in it, the value of a market token at the maximum prices falls by at most one collateral token and one
      unit for each increase, spread over the least supply; without increases it never falls. No cap is in effect
      before it, nor at its withdrawals. */
  lemma RunKeepsPoolValue(
    cfg: Config, w: World, actions: seq<Action>, prices: Prices, least: nat, kind: PnlKind, before: int, after: int)
    requires prices.IsOrdered() && 0 < least && Orderly(cfg, w, actions, prices, least)
    requires BothBelowCap(cfg, w.market, prices, kind, true)
    requires PoolValue(cfg, w.market, prices, kind, true) == Some(before)
    requires Run(cfg, w, actions).Some?
    requires PoolValue(cfg, Run(cfg, w, actions).value.market, prices, kind, true) == Some(after)
    ensures var supply, endSupply := w.market.supply, Run(cfg, w, actions).value.market.supply;
            && after * least * supply
               >= (before * least - Increases(actions) * IncreaseLoss(prices) * supply) * endSupply
            && (Increases(actions) == 0 ==> after * supply >= before * endSupply)
  {
    hide Run, Uncapped, Valued, PoolValue, BothBelowCap, Orderly, IncreaseLoss, Increases;
    RunKeepsUncapped(cfg, w, actions, prices, least);
    LossCounted(actions, prices);
    var end := Run(cfg, w, actions).value.market;
    PoolValueIsUncapped(cfg, w.market, prices, kind);
    PoolValueIsUncapped(cfg, end, prices, kind);
    MulMono(Uncapped(cfg, end, prices), after, least);
    MulMono(Uncapped(cfg, end, prices) * least, after * least, w.market.supply);
    if Increases(actions) == 0 {
      WithoutLoss(before, w.market.supply, after, end.supply, least);
    }
  }

  lemma WithoutLoss(value: int, supply: nat, nextValue: int, nextSupply: nat, least: nat)
    requires 0 < least && KeepsUpTo(value, supply, nextValue, nextSupply, 0, least)
    ensures nextValue * supply >= value * nextSupply
  {
    Swapped(nextValue, least, supply);
    Swapped(value, least, nextSupply);
    MulCancel(value * nextSupply, nextValue * supply, least);
  }

  function ActionsFrom(k: nat): seq<Action>
    requires k <= 9
    decreases 9 - k
  {
    if k == 9 then [] else [ActionAt(k)] + ActionsFrom(k + 1)
  }

  lemma ExampleValued(k: nat)
    requires SMAX >= 100 && 1 <= k <= 9
    ensures Valued(CONFIG, MarketAt(k), ONE) && 18 <= MarketAt(k).supply
  {
    hide BorrowingFeesForPool, Pnl;
    if k <= 2 {
      NothingPending(MarketAt(k));
      NothingOpen(MarketAt(k), true);
      NothingOpen(MarketAt(k), false);
    } else {
      NothingBorrowed(MarketAt(k));
      NoProfit(MarketAt(k), MaxAfterWithdrawal, true);
      NoProfit(MarketAt(k), MaxAfterWithdrawal, false);
    }
  }

  lemma ExampleReady(k: nat)
    requires SMAX >= 100 && 1 <= k < 9
    ensures Ready(CONFIG, MarketAt(k), ActionAt(k), ONE) && AtPrices(ActionAt(k), ONE)
  {
    hide Pnl;
    NoProfit(MarketAt(8), MaxAfterWithdrawal, true);
    NoProfit(MarketAt(8), MaxAfterWithdrawal, false);
  }

  /** Orderly runs exist: the example run is one, once its first deposit is made. */
  lemma {:induction false} ExampleOrderly(w: World, k: nat)
    requires SMAX >= 100 && 1 <= k <= 9 && w.market == MarketAt(k) && w.positions == PositionsAt(k)
    ensures Orderly(CONFIG, w, ActionsFrom(k), ONE, 18)
    decreases 9 - k
  {
    hide Step, Valued, Ready, AtPrices, MarketAt, PositionsAt, ActionAt;
    ExampleValued(k);
    if k < 9 {
      ExampleReady(k);
      StepAt(w, k);
      ExampleOrderly(Step(CONFIG, w, ActionAt(k)).value, k + 1);
      assert ActionsFrom(k)[0] == ActionAt(k) && ActionsFrom(k)[1..] == ActionsFrom(k + 1);
    }
  }
}
