/** What every run of the market keeps about its positions: the aggregates are sums, the total
    borrowing is a sum of floors, checkpoints never run ahead, and funding stays backed. */
module Invariants {
  import opened Options
  import opened Price
  import opened Fees
  import opened Params
  import opened State
  import opened SwapAction
  import opened DepositAction
  import opened WithdrawAction
  import opened FundingAction
  import opened AccrualActions
  import opened LazyAccrual
  import opened PositionState
  import opened IncreaseAction
  import opened IncreaseEffects
  import opened World
  import Sums

  function SizeIn(isLong: bool, t: bool): Sums.Weight {
    (p: Position) => When(p.isLong == isLong && p.isCollateralLong == t, p.sizeUsd)
  }

  function TokensIn(isLong: bool, t: bool): Sums.Weight {
    (p: Position) => When(p.isLong == isLong && p.isCollateralLong == t, p.sizeTokens)
  }

  function CollateralIn(isLong: bool, t: bool): Sums.Weight {
    (p: Position) => When(p.isLong == isLong && p.isCollateralLong == t, p.collateral)
  }

  function BorrowedIn(isLong: bool): Sums.Weight {
    (p: Position) => When(p.isLong == isLong, Borrowed(p))
  }

  /** The market's aggregates for one side and one collateral token are the sums over its positions. */
  ghost predicate AggregatesAt(m: Market, ps: seq<Position>, isLong: bool, t: bool) {
    && m.openInterest.Side(isLong).Amount(t) == Sums.Sum(ps, SizeIn(isLong, t))
    && m.openInterestInTokens.Side(isLong).Amount(t) == Sums.Sum(ps, TokensIn(isLong, t))
    && m.collateralSum.Side(isLong).Amount(t) == Sums.Sum(ps, CollateralIn(isLong, t))
  }

  ghost predicate BorrowingAt(m: Market, ps: seq<Position>, isLong: bool) {
    m.totalBorrowing.Amount(isLong) == Sums.Sum(ps, BorrowedIn(isLong))
  }

  /** No checkpoint is ahead of the market, and a position without a size has no tokens either. */
  predicate CheckpointsBehind(m: Market, p: Position) {
    && p.borrowingFactor <= m.borrowingFactor.Amount(p.isLong)
    && p.fundingPerSize <= m.fundingPerSize.Side(p.isLong).Amount(p.isCollateralLong)
    && p.claimablePerSize.long <= m.claimablePerSize.Side(p.isLong).long
    && p.claimablePerSize.short <= m.claimablePerSize.Side(p.isLong).short
    && (p.sizeUsd == 0 ==> p.sizeTokens == 0)
  }

  ghost predicate Consistent(m: Market, ps: seq<Position>) {
    && (forall isLong, t :: AggregatesAt(m, ps, isLong, t))
    && (forall isLong :: BorrowingAt(m, ps, isLong))
    && (forall p <- ps :: CheckpointsBehind(m, p))
  }

  /** Everything the consistency of the positions depends on is the same in both markets. */
  predicate SameTraders(a: Market, b: Market) {
    && a.openInterest == b.openInterest
    && a.openInterestInTokens == b.openInterestInTokens
    && a.collateralSum == b.collateralSum
    && a.totalBorrowing == b.totalBorrowing
    && a.borrowingFactor == b.borrowingFactor
    && a.fundingPerSize == b.fundingPerSize
    && a.claimablePerSize == b.claimablePerSize
  }

  /** The actions that only concern liquidity and time. */
  predicate IsLiquidityAction(a: Action) {
    a.DoDeposit? || a.DoWithdraw? || a.DoSwap? || a.DoDistribute? || a.DoTick?
  }

  lemma LiquidityActionsKeepTraders(cfg: Config, w: World, a: Action)
    requires IsLiquidityAction(a) && Step(cfg, w, a).Some?
    ensures var next := Step(cfg, w, a).value;
            && next.positions == w.positions
            && SameTraders(w.market, next.market) && w.market.fundingRate == next.market.fundingRate
            && next.ledger == w.ledger.(inflow := next.ledger.inflow, outflow := next.ledger.outflow)
  {
    hide Deposit, Withdraw, Swap, TrySwap, DistributeImpact;
    match a
    case DoDeposit(long, short, prices) => DepositConserves(cfg, w.market, long, short, prices);
    case DoWithdraw(amount, prices) => WithdrawConserves(cfg, w.market, amount, prices);
    case DoSwap(isLongIn, amount, prices) => SwapFrame(cfg, w.market, isLongIn, amount, prices);
    case DoDistribute => DistributeImpactExact(cfg, w.market);
    case DoTick(seconds) =>
  }

  lemma SwapFrame(cfg: Config, m: Market, isLongIn: bool, amount: nat, prices: Prices)
    requires Swap(cfg, m, isLongIn, amount, prices).Some?
    ensures OnlyPoolsDiffer(m, Swap(cfg, m, isLongIn, amount, prices).value.0)
  {
    hide TrySwap;
  }

  /** A new, empty position adds nothing to any sum. */
  lemma OpenKeepsConsistent(m: Market, ps: seq<Position>, q: Position)
    requires Consistent(m, ps) && q == EmptyPosition(q.isLong, q.isCollateralLong)
    ensures Consistent(m, ps + [q])
  {
    forall isLong, t ensures AggregatesAt(m, ps + [q], isLong, t) {
      assert AggregatesAt(m, ps, isLong, t);
      Sums.SumAppend(ps, q, SizeIn(isLong, t));
      Sums.SumAppend(ps, q, TokensIn(isLong, t));
      Sums.SumAppend(ps, q, CollateralIn(isLong, t));
    }
    forall isLong ensures BorrowingAt(m, ps + [q], isLong) {
      assert BorrowingAt(m, ps, isLong);
      Sums.SumAppend(ps, q, BorrowedIn(isLong));
      assert Borrowed(q) == 0;
    }
  }

  lemma IncreaseKeepsAggregates(
    cfg: Config, m: Market, ps: seq<Position>, id: nat, params: IncreaseParams, next: Market, grown: Position,
    r: IncreaseReport, isLong: bool, t: bool)
    requires id < |ps| && Increase(cfg, m, ps[id], params) == Some((next, grown, r))
    requires CheckpointsBehind(m, ps[id])
    requires AggregatesAt(m, ps, isLong, t)
    ensures AggregatesAt(next, ps[id := grown], isLong, t)
  {
    hide Increase, GetExecution, FeesFor, BorrowedFor, PositionFees.ForReceiver, PositionFees.ForPool;
    IncreaseHasEffect(cfg, m, ps[id], params, isLong, t);
    Sums.SumUpdate(ps, id, grown, SizeIn(isLong, t));
    Sums.SumUpdate(ps, id, grown, TokensIn(isLong, t));
    Sums.SumUpdate(ps, id, grown, CollateralIn(isLong, t));
  }

  lemma IncreaseKeepsBorrowing(
    cfg: Config, m: Market, ps: seq<Position>, id: nat, params: IncreaseParams, next: Market, grown: Position,
    r: IncreaseReport, isLong: bool)
    requires id < |ps| && Increase(cfg, m, ps[id], params) == Some((next, grown, r))
    requires BorrowingAt(m, ps, isLong)
    ensures BorrowingAt(next, ps[id := grown], isLong)
  {
    hide Increase, GetExecution, FeesFor, BorrowedFor, PositionFees.ForReceiver, PositionFees.ForPool;
    IncreaseHasEffect(cfg, m, ps[id], params, isLong, true);
    Sums.SumUpdate(ps, id, grown, BorrowedIn(isLong));
  }

  lemma IncreaseKeepsCheckpoints(
    cfg: Config, m: Market, position: Position, params: IncreaseParams, next: Market, grown: Position,
    r: IncreaseReport)
    requires Increase(cfg, m, position, params) == Some((next, grown, r))
    requires CheckpointsBehind(m, position)
    ensures CheckpointsBehind(next, grown)
    ensures forall p :: CheckpointsBehind(m, p) ==> CheckpointsBehind(next, p)
  {
    hide Increase, GetExecution, FeesFor, BorrowedFor, PositionFees.ForReceiver, PositionFees.ForPool;
    IncreaseHasEffect(cfg, m, position, params, true, true);
    if params.sizeDelta == 0 {
      NoSizeNoTokens(cfg, m, position.isLong, params);
    }
  }

  lemma IncreaseKeepsConsistent(
    cfg: Config, m: Market, ps: seq<Position>, id: nat, params: IncreaseParams, next: Market, grown: Position,
    r: IncreaseReport)
    requires id < |ps| && Increase(cfg, m, ps[id], params) == Some((next, grown, r))
    requires Consistent(m, ps)
    ensures Consistent(next, ps[id := grown])
  {
    hide Increase, AggregatesAt, BorrowingAt, CheckpointsBehind;
    var qs := ps[id := grown];
    forall isLong, t ensures AggregatesAt(next, qs, isLong, t) {
      IncreaseKeepsAggregates(cfg, m, ps, id, params, next, grown, r, isLong, t);
    }
    forall isLong ensures BorrowingAt(next, qs, isLong) {
      IncreaseKeepsBorrowing(cfg, m, ps, id, params, next, grown, r, isLong);
    }
    IncreaseKeepsCheckpoints(cfg, m, ps[id], params, next, grown, r);
  }

  lemma UpdateFundingKeepsConsistent(cfg: Config, m: Market, ps: seq<Position>, prices: Prices)
    requires UpdateFunding(cfg, m, prices).Some? && Consistent(m, ps)
    ensures Consistent(UpdateFunding(cfg, m, prices).value.0, ps)
  {
    hide UpdateFunding, GrowPair;
    var (next, report) := UpdateFunding(cfg, m, prices).value;
    UpdateFundingFrame(cfg, m, prices);
    forall isLong, t ensures AggregatesAt(next, ps, isLong, t) {
      assert AggregatesAt(m, ps, isLong, t);
    }
    forall isLong ensures BorrowingAt(next, ps, isLong) {
      assert BorrowingAt(m, ps, isLong);
    }
    forall p <- ps ensures CheckpointsBehind(next, p) {
      GrowPairExact(m.fundingPerSize, report.deltaFunding, p.isLong, p.isCollateralLong);
      GrowPairExact(m.claimablePerSize, report.deltaClaimable, p.isLong, true);
      GrowPairExact(m.claimablePerSize, report.deltaClaimable, p.isLong, false);
    }
  }

  lemma UpdateBorrowingKeepsConsistent(cfg: Config, m: Market, ps: seq<Position>, prices: Prices)
    requires UpdateBorrowing(cfg, m, prices).Some? && Consistent(m, ps)
    ensures Consistent(UpdateBorrowing(cfg, m, prices).value, ps)
  {
    hide UpdateBorrowing, BorrowingRate, NextBorrowingFactor;
    var next := UpdateBorrowing(cfg, m, prices).value;
    UpdateBorrowingExact(cfg, m, prices, true);
    UpdateBorrowingExact(cfg, m, prices, false);
    forall isLong, t ensures AggregatesAt(next, ps, isLong, t) {
      assert AggregatesAt(m, ps, isLong, t);
    }
    forall isLong ensures BorrowingAt(next, ps, isLong) {
      assert BorrowingAt(m, ps, isLong);
    }
    forall p <- ps ensures CheckpointsBehind(next, p) {
      assert CheckpointsBehind(m, p);
    }
  }

  lemma StepKeepsConsistent(cfg: Config, w: World, a: Action)
    requires Consistent(w.market, w.positions) && Step(cfg, w, a).Some?
    ensures Consistent(Step(cfg, w, a).value.market, Step(cfg, w, a).value.positions)
  {
    hide Increase, UpdateFunding, UpdateBorrowing, Deposit, Withdraw, Swap, DistributeImpact, AggregatesAt,
      BorrowingAt, CheckpointsBehind;
    if IsLiquidityAction(a) {
      LiquidityActionsKeepTraders(cfg, w, a);
      SameTradersConsistent(w.market, Step(cfg, w, a).value.market, w.positions);
    } else {
      match a
      case DoOpen(isLong, t) => OpenKeepsConsistent(w.market, w.positions, EmptyPosition(isLong, t));
      case DoIncrease(id, params) =>
        var (next, grown, r) := Increase(cfg, w.market, w.positions[id], params).value;
        IncreaseKeepsConsistent(cfg, w.market, w.positions, id, params, next, grown, r);
      case DoUpdateFunding(prices) => UpdateFundingKeepsConsistent(cfg, w.market, w.positions, prices);
      case DoUpdateBorrowing(prices) => UpdateBorrowingKeepsConsistent(cfg, w.market, w.positions, prices);
    }
  }

  lemma SameTradersConsistent(a: Market, b: Market, ps: seq<Position>)
    requires SameTraders(a, b) && Consistent(a, ps)
    ensures Consistent(b, ps)
  {
    forall isLong, t ensures AggregatesAt(b, ps, isLong, t) {
      assert AggregatesAt(a, ps, isLong, t);
    }
    forall isLong ensures BorrowingAt(b, ps, isLong) {
      assert BorrowingAt(a, ps, isLong);
    }
    forall p <- ps ensures CheckpointsBehind(b, p) {
      assert CheckpointsBehind(a, p);
    }
  }

  lemma EmptyWorldConsistent()
    ensures Consistent(EMPTY_MARKET, [])
  {
  }

  /** In every state that a run reaches from the empty market, each aggregate is the sum over the
      positions it stands for, the total borrowing is the sum of the rounded parts of the positions, and
      no checkpoint is ahead of the market. */
  lemma {:induction false} RunKeepsConsistent(cfg: Config, w: World, actions: seq<Action>)
    requires Consistent(w.market, w.positions) && Run(cfg, w, actions).Some?
    ensures Consistent(Run(cfg, w, actions).value.market, Run(cfg, w, actions).value.positions)
    decreases |actions|
  {
    hide Step, Consistent;
    if actions != [] {
      StepKeepsConsistent(cfg, w, actions[0]);
      RunKeepsConsistent(cfg, Step(cfg, w, actions[0]).value, actions[1..]);
    }
  }
}
