/** The funding rate as a state machine: bounded over all runs, and how it behaves while it falls. */
module FundingRates {
  import opened Options
  import opened Arith
  import opened Num
  import opened Utils
  import opened Price
  import opened Params
  import opened State
  import opened SwapAction
  import opened DepositAction
  import opened WithdrawAction
  import opened FundingAction
  import opened AccrualActions
  import opened LazyAccrual
  import opened PositionState
  import opened IncreaseAction
  import opened IncreaseEffects
  import opened World
  import opened Invariants

  lemma IncreaseKeepsRate(cfg: Config, m: Market, position: Position, params: IncreaseParams)
    requires Increase(cfg, m, position, params).Some?
    ensures var next := Increase(cfg, m, position, params).value.0;
            next.fundingRate == m.fundingRate && next.clocks == m.clocks && next.now == m.now
  {
    hide Increase, GetExecution, FeesFor, Grown, BorrowedFor;
    IncreaseHasEffect(cfg, m, position, params, true, true);
  }

  lemma StepKeepsRateBounded(cfg: Config, w: World, a: Action)
    requires Step(cfg, w, a).Some? && Abs(w.market.fundingRate) <= cfg.funding.maxPerSecond
    ensures Abs(Step(cfg, w, a).value.market.fundingRate) <= cfg.funding.maxPerSecond
  {
    hide Increase, UpdateFunding, UpdateBorrowing, BorrowingRate, NextBorrowingFactor;
    if IsLiquidityAction(a) {
      hide Step;
      LiquidityActionsKeepTraders(cfg, w, a);
    } else {
      match a
      case DoOpen(_, _) =>
      case DoIncrease(id, params) => IncreaseKeepsRate(cfg, w.market, w.positions[id], params);
      case DoUpdateFunding(prices) => StoredRateBounded(cfg, w.market, prices);
      case DoUpdateBorrowing(prices) => UpdateBorrowingExact(cfg, w.market, prices, true);
    }
  }

  /** Over every run at fixed parameters the stored rate stays within the maximum. */
  lemma {:induction false} RunKeepsRateBounded(cfg: Config, w: World, actions: seq<Action>)
    requires Run(cfg, w, actions).Some? && Abs(w.market.fundingRate) <= cfg.funding.maxPerSecond
    ensures Abs(Run(cfg, w, actions).value.market.fundingRate) <= cfg.funding.maxPerSecond
    decreases |actions|
  {
    hide Step;
    if actions != [] {
      StepKeepsRateBounded(cfg, w, actions[0]);
      RunKeepsRateBounded(cfg, Step(cfg, w, actions[0]).value, actions[1..]);
    }
  }

  /** Adaptive mode, both sides open, and the skew so small that the rate, which follows it, falls. */
  predicate Falling(cfg: Config, m: Market) {
    && cfg.funding.increasePerSecond != 0
    && m.openInterest.Merge().Some?
    && var interest := m.openInterest.Merge().value;
    && interest.long != 0 && interest.short != 0
    && (m.fundingRate > 0 ==> interest.long > interest.short)
    && (m.fundingRate < 0 ==> interest.long < interest.short)
    && m.fundingRate != 0
    && Skew(cfg, interest.long, interest.short).Some?
    && Skew(cfg, interest.long, interest.short).value < cfg.funding.thresholdForDecrease
    && Skew(cfg, interest.long, interest.short).value <= cfg.funding.thresholdForStable
  }

  /** The magnitude falls by the configured amount per second, but not below one, and the sign stays. */
  predicate FellBy(before: int, after: int, decrease: nat) {
    && Abs(after) == Max(1, Abs(before) - decrease)
    && (after > 0 <==> before > 0)
  }

  lemma AdaptiveFalls(p: FundingParams, rate: int, long: nat, short: nat, skew: nat, duration: nat)
    requires AdaptiveRate(p, rate, long, short, skew, duration).Some?
    requires RateChangeFor(p, rate, long, short, skew) == DecreaseRate && rate != 0
    requires Abs(rate) <= p.maxPerSecond
    ensures FellBy(rate, AdaptiveRate(p, rate, long, short, skew, duration).value.stored,
                   p.decreasePerSecond * duration)
  {
    hide DecreasedRate;
    DecreasedRateExact(rate, p.decreasePerSecond * duration);
  }

  /** In adaptive mode the stored rate moves toward the larger side, stays, or falls toward one, as the skew
      and the present direction decide. */
  lemma AdaptiveMoves(p: FundingParams, rate: int, long: nat, short: nat, skew: nat, duration: nat)
    requires AdaptiveRate(p, rate, long, short, skew, duration).Some? && Abs(rate) <= p.maxPerSecond
    ensures var next := AdaptiveRate(p, rate, long, short, skew, duration).value.stored;
            match RateChangeFor(p, rate, long, short, skew)
            case IncreaseRate => if long < short then next <= rate else next >= rate
            case NoChange => next == rate
            case DecreaseRate => rate != 0 && FellBy(rate, next, p.decreasePerSecond * duration)
  {
    hide FellBy, DecreasedRate, ApplyFactor;
    if RateChangeFor(p, rate, long, short, skew) == DecreaseRate {
      AdaptiveFalls(p, rate, long, short, skew, duration);
    }
  }

  lemma NextRateFalls(cfg: Config, rate: int, long: nat, short: nat, duration: nat)
    requires NextRate(cfg, rate, long, short, duration).Some? && cfg.funding.increasePerSecond != 0
    requires Abs(rate) <= cfg.funding.maxPerSecond && rate != 0
    requires Skew(cfg, long, short).Some? && (rate > 0 ==> long > short) && (rate < 0 ==> long < short)
    requires Skew(cfg, long, short).value < cfg.funding.thresholdForDecrease
    requires Skew(cfg, long, short).value <= cfg.funding.thresholdForStable
    ensures FellBy(rate, NextRate(cfg, rate, long, short, duration).value.stored,
                   cfg.funding.decreasePerSecond * duration)
  {
    hide Skew, AdaptiveRate, FellBy;
    AdaptiveFalls(cfg.funding, rate, long, short, Skew(cfg, long, short).value, duration);
  }

  lemma UpdateStoresNextRate(cfg: Config, m: Market, prices: Prices)
    requires UpdateFunding(cfg, m, prices).Some? && Falling(cfg, m)
    ensures var interest := m.openInterest.Merge().value;
            var next := NextRate(cfg, m.fundingRate, interest.long, interest.short, Passed(m.now, m.clocks.funding));
            next.Some? && UpdateFunding(cfg, m, prices).value.0.fundingRate == next.value.stored
  {
    hide NextRate, PayerDelta, ReceiverDelta, GrowPair, MulDiv, CheckedMul, ApplyFactor, Skew;
  }

  /** One update while the rate is falling: it falls by the configured amount for the elapsed seconds, and
      is falling still. */
  lemma UpdateFalls(cfg: Config, m: Market, prices: Prices)
    requires UpdateFunding(cfg, m, prices).Some? && Falling(cfg, m)
    requires Abs(m.fundingRate) <= cfg.funding.maxPerSecond
    ensures var next := UpdateFunding(cfg, m, prices).value.0;
            && FellBy(m.fundingRate, next.fundingRate, cfg.funding.decreasePerSecond * Passed(m.now, m.clocks.funding))
            && Falling(cfg, next)
            && Abs(next.fundingRate) <= cfg.funding.maxPerSecond
            && next.now == m.now && next.clocks.funding == Some(m.now)
  {
    hide UpdateFunding, NextRate, Skew;
    var interest := m.openInterest.Merge().value;
    UpdateStoresNextRate(cfg, m, prices);
    UpdateFundingFrame(cfg, m, prices);
    NextRateFalls(cfg, m.fundingRate, interest.long, interest.short, Passed(m.now, m.clocks.funding));
    StoredRateBounded(cfg, m, prices);
  }

  lemma FellTwice(a: int, b: int, c: int, first: nat, second: nat)
    requires FellBy(a, b, first) && FellBy(b, c, second)
    ensures FellBy(a, c, first + second)
  {
  }

  /** A successful run in which every update of the funding state finds a falling rate. */
  predicate UpdatesFind(cfg: Config, w: World, actions: seq<Action>)
    decreases |actions|
  {
    actions != [] ==>
      && (actions[0].DoUpdateFunding? ==> Falling(cfg, w.market))
      && Step(cfg, w, actions[0]).Some?
      && UpdatesFind(cfg, Step(cfg, w, actions[0]).value, actions[1..])
  }

  /** From one market to another the clock was reset, if at all, at a later time, and the rate fell for the time from
      one reset to the other. */
  predicate FellSince(cfg: Config, m: Market, end: Market) {
    && m.clocks.funding.Some? && end.clocks.funding.Some?
    && m.clocks.funding.value <= end.clocks.funding.value <= end.now
    && FellBy(m.fundingRate, end.fundingRate,
              cfg.funding.decreasePerSecond * (end.clocks.funding.value - m.clocks.funding.value))
  }

  lemma FellOn(cfg: Config, m: Market, mid: Market, end: Market)
    requires FellSince(cfg, m, mid) && FellSince(cfg, mid, end)
    ensures FellSince(cfg, m, end)
  {
    hide FellBy;
    var d, first := cfg.funding.decreasePerSecond, mid.clocks.funding.value - m.clocks.funding.value;
    var second := end.clocks.funding.value - mid.clocks.funding.value;
    assert d * (first + second) == d * first + d * second;
    FellTwice(m.fundingRate, mid.fundingRate, end.fundingRate, d * first, d * second);
  }

  /** Only a funding update touches the rate and its clock, and time does not run backwards. */
  lemma OthersKeepRate(cfg: Config, w: World, a: Action, next: World)
    requires Step(cfg, w, a) == Some(next) && !a.DoUpdateFunding?
    ensures next.market.fundingRate == w.market.fundingRate
    ensures next.market.clocks.funding == w.market.clocks.funding && w.market.now <= next.market.now
  {
    hide Deposit, Withdraw, Swap, Increase, UpdateBorrowing, DistributeImpact;
    var m := w.market;
    match a
    case DoDeposit(long, short, prices) => DepositConserves(cfg, m, long, short, prices);
    case DoWithdraw(amount, prices) => WithdrawConserves(cfg, m, amount, prices);
    case DoSwap(isLongIn, amount, prices) => SwapFrame(cfg, m, isLongIn, amount, prices);
    case DoIncrease(id, params) => IncreaseKeepsRate(cfg, m, w.positions[id], params);
    case DoUpdateBorrowing(prices) => UpdateBorrowingExact(cfg, m, prices, true);
    case DoDistribute => DistributeImpactExact(cfg, m);
    case _ =>
  }

  lemma StepFalls(cfg: Config, w: World, a: Action, next: World)
    requires Step(cfg, w, a) == Some(next) && (a.DoUpdateFunding? ==> Falling(cfg, w.market))
    requires w.market.fundingRate != 0 && Abs(w.market.fundingRate) <= cfg.funding.maxPerSecond
    requires w.market.clocks.funding.Some? && w.market.clocks.funding.value <= w.market.now
    ensures FellSince(cfg, w.market, next.market)
  {
    hide UpdateFunding, Falling, FellBy, Deposit, Withdraw, Swap, Increase, UpdateBorrowing, DistributeImpact;
    if a.DoUpdateFunding? {
      UpdateFalls(cfg, w.market, a.prices);
    } else {
      hide Step;
      OthersKeepRate(cfg, w, a, next);
      NothingFell(cfg, w.market);
      SameRate(cfg, w.market, next.market);
    }
  }

  lemma SameRate(cfg: Config, m: Market, next: Market)
    requires FellSince(cfg, m, m) && m.fundingRate == next.fundingRate
    requires m.clocks.funding == next.clocks.funding && m.now <= next.now
    ensures FellSince(cfg, m, next)
  {
    hide FellBy;
  }

  /** However updates are spread over a run, and whatever else happens in between, a rate that every update finds
      falling loses the configured amount for each second from the first reset of its clock to the last, stops at
      magnitude one and never changes its sign. */
  lemma {:induction false} FallingRun(cfg: Config, w: World, actions: seq<Action>, end: World)
    requires UpdatesFind(cfg, w, actions) && Run(cfg, w, actions) == Some(end)
    requires w.market.fundingRate != 0 && Abs(w.market.fundingRate) <= cfg.funding.maxPerSecond
    requires w.market.clocks.funding.Some? && w.market.clocks.funding.value <= w.market.now
    ensures FellSince(cfg, w.market, end.market)
    decreases |actions|
  {
    hide Step, Falling, FellSince;
    if actions == [] {
      NothingFell(cfg, w.market);
    } else {
      var next := Step(cfg, w, actions[0]).value;
      StepFalls(cfg, w, actions[0], next);
      StepKeepsRateBounded(cfg, w, actions[0]);
      FellMeans(cfg, w.market, next.market);
      FallingRun(cfg, next, actions[1..], end);
      FellOn(cfg, w.market, next.market, end.market);
    }
  }

  lemma NothingFell(cfg: Config, m: Market)
    requires m.fundingRate != 0 && m.clocks.funding.Some? && m.clocks.funding.value <= m.now
    ensures FellSince(cfg, m, m)
  {
    assert cfg.funding.decreasePerSecond * 0 == 0;
  }

  lemma FellMeans(cfg: Config, m: Market, end: Market)
    requires FellSince(cfg, m, end)
    ensures end.fundingRate != 0 && end.clocks.funding.Some? && end.clocks.funding.value <= end.now
  {
  }

  /** Once the updates of such a run have covered as many seconds as the rate was large, its magnitude is one. */
  lemma FallingReachesOne(cfg: Config, w: World, actions: seq<Action>, end: World)
    requires UpdatesFind(cfg, w, actions) && Run(cfg, w, actions) == Some(end)
    requires w.market.fundingRate != 0 && Abs(w.market.fundingRate) <= cfg.funding.maxPerSecond
    requires w.market.clocks.funding.Some? && w.market.clocks.funding.value <= w.market.now
    requires cfg.funding.decreasePerSecond >= 1
    ensures end.market.clocks.funding.Some?
    ensures var covered := end.market.clocks.funding.value - w.market.clocks.funding.value;
            covered >= Abs(w.market.fundingRate) - 1 ==> Abs(end.market.fundingRate) == 1
  {
    hide Run, Falling, UpdatesFind;
    FallingRun(cfg, w, actions, end);
    MulMono(1, cfg.funding.decreasePerSecond, end.market.clocks.funding.value - w.market.clocks.funding.value);
  }

  /** A falling rate keeps falling as long as no position is increased: then every update finds it so. */
  lemma {:induction false} FallingPersists(cfg: Config, w: World, actions: seq<Action>)
    requires Run(cfg, w, actions).Some? && Falling(cfg, w.market)
    requires Abs(w.market.fundingRate) <= cfg.funding.maxPerSecond
    requires forall a <- actions :: !a.DoIncrease?
    ensures UpdatesFind(cfg, w, actions)
    decreases |actions|
  {
    hide Step, Falling;
    if actions != [] {
      var next := Step(cfg, w, actions[0]).value;
      StillFalling(cfg, w, actions[0], next);
      StepKeepsRateBounded(cfg, w, actions[0]);
      FallingPersists(cfg, next, actions[1..]);
    }
  }

  lemma StillFalling(cfg: Config, w: World, a: Action, next: World)
    requires Step(cfg, w, a) == Some(next) && !a.DoIncrease? && Falling(cfg, w.market)
    requires Abs(w.market.fundingRate) <= cfg.funding.maxPerSecond
    ensures Falling(cfg, next.market)
  {
    hide UpdateFunding, Skew;
    if a.DoUpdateFunding? {
      hide Falling;
      UpdateFalls(cfg, w.market, a.prices);
    } else {
      hide Step;
      OthersKeepRate(cfg, w, a, next);
      OthersKeepInterest(cfg, w, a, next);
    }
  }

  lemma OthersKeepInterest(cfg: Config, w: World, a: Action, next: World)
    requires Step(cfg, w, a) == Some(next) && !a.DoUpdateFunding? && !a.DoIncrease?
    ensures next.market.openInterest == w.market.openInterest
  {
    hide Deposit, Withdraw, Swap, UpdateBorrowing, DistributeImpact;
    if IsLiquidityAction(a) {
      hide Step;
      LiquidityActionsKeepTraders(cfg, w, a);
    } else if a.DoUpdateBorrowing? {
      UpdateBorrowingExact(cfg, w.market, a.prices, true);
    }
  }
}
