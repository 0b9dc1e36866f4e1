/** Price impact cannot be farmed by increasing positions, over whole runs of the market. */
module ImpactFarming {
  import opened Options
  import opened Num
  import opened Utils
  import opened Price
  import opened Pool
  import opened PriceImpact
  import opened Params
  import opened State
  import opened FundingAction
  import opened AccrualActions
  import opened PositionState
  import opened IncreaseAction
  import opened IncreaseEffects
  import opened ValueNeutrality
  import opened World
  import opened Invariants

  /** The total open interest of each side. */
  function Totals(m: Market): Pool {
    Pool(m.openInterest.forLong.Sum(), m.openInterest.forShort.Sum())
  }

  /** What has been credited, together with what removing the present imbalance would earn, is at most
      one unit for each move that worsened the imbalance on one side. */
  predicate NotFarmed(cfg: Config, w: World) {
    w.ledger.credited + Potential(Totals(w.market), cfg.positionImpact) <= w.ledger.worsened
  }

  lemma SizeMoveIsTotals(m: Market, isLong: bool, sizeDelta: int)
    requires SizeMove(m, isLong, sizeDelta).Some?
    ensures var d := SizeMove(m, isLong, sizeDelta).value;
            && d.current == Totals(m)
            && d.next.Amount(isLong) == Totals(m).Amount(isLong) + sizeDelta
            && d.next.Amount(!isLong) == Totals(m).Amount(!isLong)
  {
  }

  /** The impact used by an execution is at most the uncapped impact of its move. */
  lemma CapOnlyLowers(cfg: Config, m: Market, isLong: bool, index: Price, sizeDelta: int)
    requires CappedPositiveImpact(cfg, m, isLong, index, sizeDelta).Some?
    ensures SizeMove(m, isLong, sizeDelta).Some?
    ensures ImpactOf(SizeMove(m, isLong, sizeDelta).value, cfg.positionImpact, cfg.fractionalPow).Some?
    ensures CappedPositiveImpact(cfg, m, isLong, index, sizeDelta).value
            <= ImpactOf(SizeMove(m, isLong, sizeDelta).value, cfg.positionImpact, cfg.fractionalPow).value
  {
    hide SizeMove, ImpactOf, CheckedMul, ApplyFactor;
  }

  lemma TotalsGrow(cfg: Config, m: Market, position: Position, params: IncreaseParams)
    requires Increase(cfg, m, position, params).Some?
    ensures var (next, _, _) := Increase(cfg, m, position, params).value;
            && Totals(next).Amount(position.isLong) == Totals(m).Amount(position.isLong) + params.sizeDelta
            && Totals(next).Amount(!position.isLong) == Totals(m).Amount(!position.isLong)
  {
    hide Increase;
    SidesGrow(cfg, m, position, params, true);
    SidesGrow(cfg, m, position, params, false);
  }

  lemma ExecutionImpact(cfg: Config, m: Market, position: Position, params: IncreaseParams)
    requires Increase(cfg, m, position, params).Some?
    ensures var (_, _, r) := Increase(cfg, m, position, params).value;
            GetExecution(cfg, m, position.isLong, params) == Some(r.execution)
  {
    hide Increase, GetExecution, FeesFor, Grown, BorrowedFor;
    IncreaseHasEffect(cfg, m, position, params, true, true);
  }

  lemma IncreaseNotFarmed(cfg: Config, w: World, id: nat, params: IncreaseParams)
    requires Step(cfg, w, DoIncrease(id, params)).Some?
    requires WholeExponent(cfg.positionImpact.exponent) && NotFarmed(cfg, w)
    ensures NotFarmed(cfg, Step(cfg, w, DoIncrease(id, params)).value)
  {
    hide Increase, GetExecution, Potential, IsWorsening, CappedPositiveImpact, SizeMove, Totals, ImpactOf,
      ImpactAmount, BaseTokens;
    var m, position := w.market, w.positions[id];
    var (next, grown, r) := Increase(cfg, m, position, params).value;
    ExecutionImpact(cfg, m, position, params);
    TotalsGrow(cfg, m, position, params);
    if params.sizeDelta == 0 {
      NoSizeNoTokens(cfg, m, position.isLong, params);
      assert Totals(next) == Totals(m);
    } else {
      ExecutionParts(cfg, m, position.isLong, params);
      CapOnlyLowers(cfg, m, position.isLong, params.prices.index, params.sizeDelta);
      SizeMoveIsTotals(m, position.isLong, params.sizeDelta);
      var d := SizeMove(m, position.isLong, params.sizeDelta).value;
      ImpactBoundedByPotential(d, cfg.positionImpact, cfg.fractionalPow);
      assert d.next == Totals(next);
    }
  }

  lemma StepNotFarmed(cfg: Config, w: World, a: Action)
    requires Step(cfg, w, a).Some?
    requires WholeExponent(cfg.positionImpact.exponent) && NotFarmed(cfg, w)
    ensures NotFarmed(cfg, Step(cfg, w, a).value)
  {
    hide Increase, UpdateFunding, UpdateBorrowing, BorrowingRate, NextBorrowingFactor, Potential;
    if IsLiquidityAction(a) {
      hide Step;
      LiquidityActionsKeepTraders(cfg, w, a);
    } else {
      match a
      case DoOpen(_, _) =>
      case DoIncrease(id, params) => IncreaseNotFarmed(cfg, w, id, params);
      case DoUpdateFunding(prices) => UpdateFundingFrame(cfg, w.market, prices);
      case DoUpdateBorrowing(prices) => UpdateBorrowingExact(cfg, w.market, prices, true);
    }
  }

  lemma {:induction false} RunNotFarmed(cfg: Config, w: World, actions: seq<Action>)
    requires WholeExponent(cfg.positionImpact.exponent) && NotFarmed(cfg, w)
    requires Run(cfg, w, actions).Some?
    ensures NotFarmed(cfg, Run(cfg, w, actions).value)
    decreases |actions|
  {
    hide Step, NotFarmed;
    if actions != [] {
      StepNotFarmed(cfg, w, actions[0]);
      RunNotFarmed(cfg, Step(cfg, w, actions[0]).value, actions[1..]);
    }
  }

  lemma EmptyPotential(factor: nat, exponent: nat)
    ensures FactorValue(0, factor, exponent) == 0
  {
    assert 0 * factor / UNIT == 0;
  }

  /** From the empty market on, the capped price impacts credited to positions sum to at most the number
      of moves that worsened the imbalance on one side. */
  lemma CreditedAtMostWorsened(cfg: Config, actions: seq<Action>)
    requires WholeExponent(cfg.positionImpact.exponent)
    requires Run(cfg, EMPTY_WORLD, actions).Some?
    ensures var ledger := Run(cfg, EMPTY_WORLD, actions).value.ledger;
            ledger.credited <= ledger.worsened
  {
    hide Run, FactorValue;
    EmptyPotential(cfg.positionImpact.AdjustedPositive(), cfg.positionImpact.exponent);
    RunNotFarmed(cfg, EMPTY_WORLD, actions);
  }
}
