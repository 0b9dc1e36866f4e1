/** Exact conservation of tokens: over every run, what came into the vault and has not left it is what
    the pools, the collateral of the positions and the unclaimed funding add up to. */
module Conservation {
  import opened Options
  import opened Num
  import opened Fees
  import opened Params
  import opened State
  import opened SwapAction
  import opened DepositAction
  import opened WithdrawAction
  import opened FundingAction
  import opened AccrualActions
  import opened LazyAccrual
  import opened PositionState
  import opened IncreaseAction
  import opened IncreaseEffects
  import opened World
  import opened Invariants
  import opened Solvency
  import Sums

  /** Tokens of one side that the market accounts for. */
  function Accounted(m: Market, t: bool): nat {
    Held(m, t) + m.collateralSum.forLong.Amount(t) + m.collateralSum.forShort.Amount(t)
  }

  predicate Conserved(w: World, t: bool) {
    w.ledger.inflow.Amount(t) - w.ledger.outflow.Amount(t)
    == Accounted(w.market, t) + w.ledger.paid.Amount(t) - w.ledger.claimed.Amount(t)
  }

  lemma LiquidityConserves(cfg: Config, w: World, a: Action, t: bool)
    requires IsLiquidityAction(a) && Step(cfg, w, a).Some? && Conserved(w, t)
    ensures Conserved(Step(cfg, w, a).value, t)
  {
    hide Deposit, Withdraw, Swap, TrySwap, DistributeImpact;
    LiquidityActionsKeepTraders(cfg, w, a);
    match a
    case DoDeposit(long, short, prices) => DepositConserves(cfg, w.market, long, short, prices);
    case DoWithdraw(amount, prices) => WithdrawConserves(cfg, w.market, amount, prices);
    case DoSwap(isLongIn, amount, prices) => SwapConserves(cfg, w.market, isLongIn, amount, prices);
    case DoDistribute => DistributeImpactExact(cfg, w.market);
    case DoTick(seconds) =>
  }

  lemma IncreaseConserves(cfg: Config, w: World, id: nat, params: IncreaseParams, t: bool)
    requires Step(cfg, w, DoIncrease(id, params)).Some? && Conserved(w, t)
    ensures Conserved(Step(cfg, w, DoIncrease(id, params)).value, t)
  {
    hide Increase, GetExecution, FeesFor, BorrowedFor, MoveOf, Grown, PositionFees.ForReceiver, PositionFees.ForPool;
    var (next, grown, r) := Increase(cfg, w.market, w.positions[id], params).value;
    IncreaseHasEffect(cfg, w.market, w.positions[id], params, true, t);
    IncreaseHasEffect(cfg, w.market, w.positions[id], params, false, t);
  }

  lemma StepConserves(cfg: Config, w: World, a: Action, t: bool)
    requires Step(cfg, w, a).Some? && Conserved(w, t)
    ensures Conserved(Step(cfg, w, a).value, t)
  {
    hide Increase, UpdateFunding, UpdateBorrowing, BorrowingRate, NextBorrowingFactor;
    if IsLiquidityAction(a) {
      hide *;
      LiquidityConserves(cfg, w, a, t);
    } else {
      match a
      case DoOpen(_, _) =>
      case DoIncrease(id, params) => IncreaseConserves(cfg, w, id, params, t);
      case DoUpdateFunding(prices) => UpdateFundingFrame(cfg, w.market, prices);
      case DoUpdateBorrowing(prices) => UpdateBorrowingExact(cfg, w.market, prices, true);
    }
  }

  /** No branch of any action, whatever its fees, price impacts and caps, creates or loses a token. */
  lemma {:induction false} RunConserves(cfg: Config, w: World, actions: seq<Action>, t: bool)
    requires Conserved(w, t) && Run(cfg, w, actions).Some?
    ensures Conserved(Run(cfg, w, actions).value, t)
    decreases |actions|
  {
    hide Step, Conserved;
    if actions != [] {
      StepConserves(cfg, w, actions[0], t);
      RunConserves(cfg, Step(cfg, w, actions[0]).value, actions[1..], t);
    }
  }

  lemma EmptyWorldConserved(t: bool)
    ensures Conserved(EMPTY_WORLD, t)
  {
  }

  /** The balance the market expects to hold in the three token pools. */
  function ExpectedBalance(m: Market, t: bool): Option<nat> {
    var withImpact :- CheckedAdd(m.primary.Amount(t), m.swapImpact.Amount(t));
    CheckedAdd(withImpact, m.fee.Amount(t))
  }

  function TotalCollateral(m: Market, t: bool): Option<nat> {
    CheckedAdd(m.collateralSum.forLong.Amount(t), m.collateralSum.forShort.Amount(t))
  }

  /** After any run from the empty world, the expected balance and the collateral are exactly what the vault
      received, less what left it and less the funding that was paid and is not claimed. */
  lemma ExpectedBalanceIsHeld(cfg: Config, actions: seq<Action>, t: bool)
    requires Run(cfg, EMPTY_WORLD, actions).Some?
    requires var m := Run(cfg, EMPTY_WORLD, actions).value.market;
             ExpectedBalance(m, t).Some? && TotalCollateral(m, t).Some?
    ensures var w := Run(cfg, EMPTY_WORLD, actions).value;
            ExpectedBalance(w.market, t).value + TotalCollateral(w.market, t).value
            == w.ledger.inflow.Amount(t) - w.ledger.outflow.Amount(t)
               - (w.ledger.paid.Amount(t) - w.ledger.claimed.Amount(t))
  {
    hide Run;
    EmptyWorldConserved(t);
    RunConserves(cfg, EMPTY_WORLD, actions, t);
  }

  function CollateralOf(t: bool): Sums.Weight {
    (p: Position) => When(p.isCollateralLong == t, p.collateral)
  }

  lemma CollateralIsSum(m: Market, ps: seq<Position>, t: bool)
    requires AggregatesAt(m, ps, true, t) && AggregatesAt(m, ps, false, t)
    ensures Sums.Sum(ps, CollateralOf(t)) == m.collateralSum.forLong.Amount(t) + m.collateralSum.forShort.Amount(t)
  {
    Sums.SumLinear(ps, CollateralOf(t), CollateralIn(true, t), 1, CollateralIn(false, t));
  }

  /** After any run from the empty world the tokens in the vault cover the pools, every position's
      collateral and every claim, once the funding that positions still owe is taken from their
      collateral. */
  lemma VaultCoversEveryone(cfg: Config, actions: seq<Action>, t: bool)
    requires Run(cfg, EMPTY_WORLD, actions).Some? && Scale(cfg) > 0
    requires var w := Run(cfg, EMPTY_WORLD, actions).value;
             forall p <- w.positions :: PendingFundingFee(cfg, w.market, p).Some?
    ensures var w := Run(cfg, EMPTY_WORLD, actions).value;
            w.ledger.inflow.Amount(t) - w.ledger.outflow.Amount(t)
            >= Held(w.market, t) + Sums.Sum(w.positions, CollateralOf(t))
               - Sums.Sum(w.positions, DueNow(cfg, w.market, t)) + Sums.Sum(w.positions, ClaimNow(cfg, w.market, t))
  {
    hide Run, Scale, OwedBy, ClaimableBy, DueNow, ClaimNow, CollateralOf, AggregatesAt, Held;
    var w := Run(cfg, EMPTY_WORLD, actions).value;
    EmptyWorldConserved(t);
    EmptyWorldConsistent();
    RunConserves(cfg, EMPTY_WORLD, actions, t);
    RunKeepsConsistent(cfg, EMPTY_WORLD, actions);
    CollateralIsSum(w.market, w.positions, t);
    SettlingEveryoneIsSolvent(cfg, actions, t);
  }
}
