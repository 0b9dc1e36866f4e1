/** Funding stays backed: over every run, what positions paid in funding fees and still owe covers
    what they claimed and may still claim, in each collateral token. */
module Solvency {
  import opened Options
  import opened Arith
  import opened Num
  import opened Price
  import opened Pool
  import opened Fees
  import opened Params
  import opened State
  import opened FundingAction
  import opened AccrualActions
  import opened PositionState
  import opened IncreaseAction
  import opened IncreaseEffects
  import opened World
  import opened Invariants
  import Sums

  /** Units of the per-size amounts in one token. */
  function Scale(cfg: Config): nat {
    cfg.fundingAdjustment * UNIT
  }

  /** What a position owes in token `t` and has not paid yet, before rounding and scaled up. */
  function OwedBy(funding: PoolPair, t: bool): Sums.Weight {
    (p: Position) => When(p.isCollateralLong == t, p.sizeUsd * (funding.Side(p.isLong).Amount(t) - p.fundingPerSize))
  }

  /** What a position may claim in token `t` and has not claimed yet, before rounding and scaled up. */
  function ClaimableBy(claimable: PoolPair, t: bool): Sums.Weight {
    (p: Position) => p.sizeUsd * (claimable.Side(p.isLong).Amount(t) - p.claimablePerSize.Amount(t))
  }

  function SideSize(isLong: bool): Sums.Weight {
    (p: Position) => When(p.isLong == isLong, p.sizeUsd)
  }

  ghost predicate FundingBacked(cfg: Config, w: World, t: bool) {
    Scale(cfg) * w.ledger.paid.Amount(t) + Sums.Sum(w.positions, OwedBy(w.market.fundingPerSize, t))
    >= Scale(cfg) * w.ledger.claimed.Amount(t) + Sums.Sum(w.positions, ClaimableBy(w.market.claimablePerSize, t))
  }

  /** Raising the funding per size of one side by `k` makes its positions owe `k` per size more. */
  lemma OwedGrows(ps: seq<Position>, a: PoolPair, b: PoolPair, isLong: bool, t: bool, k: int, total: int)
    requires b.Side(isLong).Amount(t) == a.Side(isLong).Amount(t) + k
    requires b.Side(!isLong).Amount(t) == a.Side(!isLong).Amount(t)
    requires total == Sums.Sum(ps, SizeIn(isLong, t))
    ensures Sums.Sum(ps, OwedBy(b, t)) == Sums.Sum(ps, OwedBy(a, t)) + total * k
  {
    forall p <- ps ensures OwedBy(b, t)(p) == OwedBy(a, t)(p) + k * SizeIn(isLong, t)(p) {
      if p.isLong == isLong {
        Distribute(p.sizeUsd, a.Side(isLong).Amount(t) - p.fundingPerSize, k);
      }
    }
    Sums.SumLinear(ps, OwedBy(b, t), OwedBy(a, t), k, SizeIn(isLong, t));
  }

  lemma ClaimableGrows(ps: seq<Position>, a: PoolPair, b: PoolPair, isLong: bool, t: bool, k: int, total: int)
    requires b.Side(isLong).Amount(t) == a.Side(isLong).Amount(t) + k
    requires b.Side(!isLong).Amount(t) == a.Side(!isLong).Amount(t)
    requires total == Sums.Sum(ps, SideSize(isLong))
    ensures Sums.Sum(ps, ClaimableBy(b, t)) == Sums.Sum(ps, ClaimableBy(a, t)) + total * k
  {
    forall p <- ps ensures ClaimableBy(b, t)(p) == ClaimableBy(a, t)(p) + k * SideSize(isLong)(p) {
      if p.isLong == isLong {
        Distribute(p.sizeUsd, a.Side(isLong).Amount(t) - p.claimablePerSize.Amount(t), k);
      }
    }
    Sums.SumLinear(ps, ClaimableBy(b, t), ClaimableBy(a, t), k, SideSize(isLong));
  }

  lemma Distribute(size: int, diff: int, k: int)
    ensures size * (diff + k) == size * diff + k * size
  {
  }

  lemma SideSizeIsInterest(m: Market, ps: seq<Position>, isLong: bool)
    requires AggregatesAt(m, ps, isLong, true) && AggregatesAt(m, ps, isLong, false)
    ensures Sums.Sum(ps, SideSize(isLong)) == m.openInterest.Side(isLong).Sum()
  {
    Sums.SumLinear(ps, SideSize(isLong), SizeIn(isLong, true), 1, SizeIn(isLong, false));
  }

  lemma OwedGrowsByCharge(m: Market, ps: seq<Position>, next: PoolPair, delta: PoolPair, t: bool)
    requires Consistent(m, ps) && GrowPair(m.fundingPerSize, delta) == Some(next)
    ensures Sums.Sum(ps, OwedBy(next, t)) == Sums.Sum(ps, OwedBy(m.fundingPerSize, t)) + ChargedPerUpdate(m, delta, t)
  {
    hide OwedBy, SizeIn, GrowPair, Pool.Amount;
    GrowPairExact(m.fundingPerSize, delta, true, t);
    GrowPairExact(m.fundingPerSize, delta, false, t);
    var half := m.fundingPerSize.WithSide(true, next.forLong);
    assert AggregatesAt(m, ps, true, t) && AggregatesAt(m, ps, false, t);
    OwedGrows(ps, m.fundingPerSize, half, true, t, delta.forLong.Amount(t), m.openInterest.forLong.Amount(t));
    OwedGrows(ps, half, next, false, t, delta.forShort.Amount(t), m.openInterest.forShort.Amount(t));
  }

  lemma ClaimableGrowsByShare(m: Market, ps: seq<Position>, next: PoolPair, delta: PoolPair, t: bool)
    requires Consistent(m, ps) && GrowPair(m.claimablePerSize, delta) == Some(next)
    ensures Sums.Sum(ps, ClaimableBy(next, t))
            == Sums.Sum(ps, ClaimableBy(m.claimablePerSize, t)) + ClaimablePerUpdate(m, delta, t)
  {
    hide ClaimableBy, SideSize, GrowPair, AggregatesAt, Pool.Amount, Pool.Sum;
    GrowPairExact(m.claimablePerSize, delta, true, t);
    GrowPairExact(m.claimablePerSize, delta, false, t);
    var half := m.claimablePerSize.WithSide(true, next.forLong);
    SideSizeIsInterest(m, ps, true);
    SideSizeIsInterest(m, ps, false);
    ClaimableGrows(ps, m.claimablePerSize, half, true, t, delta.forLong.Amount(t), m.openInterest.forLong.Sum());
    ClaimableGrows(ps, half, next, false, t, delta.forShort.Amount(t), m.openInterest.forShort.Sum());
  }

  /** A funding update raises what is owed by at least as much as what may be claimed. */
  lemma UpdateFundingKeepsBacked(cfg: Config, m: Market, ps: seq<Position>, prices: Prices, t: bool)
    requires UpdateFunding(cfg, m, prices).Some? && Consistent(m, ps)
    ensures var (next, _) := UpdateFunding(cfg, m, prices).value;
            Sums.Sum(ps, OwedBy(next.fundingPerSize, t)) - Sums.Sum(ps, OwedBy(m.fundingPerSize, t))
            >= Sums.Sum(ps, ClaimableBy(next.claimablePerSize, t)) - Sums.Sum(ps, ClaimableBy(m.claimablePerSize, t))
  {
    hide *;
    var (next, report) := UpdateFunding(cfg, m, prices).value;
    UpdateFundingFrame(cfg, m, prices);
    UpdateBacked(cfg, m, prices, t);
    OwedGrowsByCharge(m, ps, next.fundingPerSize, report.deltaFunding, t);
    ClaimableGrowsByShare(m, ps, next.claimablePerSize, report.deltaClaimable, t);
  }

  /** Settling charges a position at least what it owed, rounding up, and pays it at most what it could
      claim, rounding down; afterwards neither is left. */
  lemma SettlementRounds(cfg: Config, m: Market, p: Position, f: FundingFees, t: bool)
    requires PendingFundingFees(cfg, m, p) == Some(f)
    ensures OwedBy(m.fundingPerSize, t)(p) <= Scale(cfg) * When(p.isCollateralLong == t, f.amount)
    ensures Scale(cfg) * f.Claimable(t) <= ClaimableBy(m.claimablePerSize, t)(p)
  {
    hide MulDiv, MulDivCeil;
    var funding := m.fundingPerSize.Side(p.isLong).Amount(p.isCollateralLong) - p.fundingPerSize;
    MulDivCeilBounds(p.sizeUsd, funding, Scale(cfg));
    var claimable := m.claimablePerSize.Side(p.isLong).Amount(t) - p.claimablePerSize.Amount(t);
    MulDivBounds(p.sizeUsd, claimable, Scale(cfg));
  }

  lemma NothingLeftToSettle(m: Market, p: Position, collateral: nat, size: nat, tokens: nat, t: bool)
    ensures var grown := Grown(m, p, collateral, size, tokens);
            OwedBy(m.fundingPerSize, t)(grown) == 0 == ClaimableBy(m.claimablePerSize, t)(grown)
  {
  }

  lemma InitializingSettlesNothing(m: Market, p: Position, t: bool)
    ensures OwedBy(m.fundingPerSize, t)(InitializeIfEmpty(m, p)) == OwedBy(m.fundingPerSize, t)(p)
    ensures ClaimableBy(m.claimablePerSize, t)(InitializeIfEmpty(m, p)) == ClaimableBy(m.claimablePerSize, t)(p)
  {
  }

  /** The fees of an increase contain the pending funding of the position. */
  lemma FeesContainFunding(cfg: Config, m: Market, p: Position, price: Price, sizeDelta: nat, positiveImpact: bool)
    requires FeesFor(cfg, m, p, price, sizeDelta, positiveImpact).Some?
    ensures PendingFundingFees(cfg, m, p) == Some(FeesFor(cfg, m, p, price, sizeDelta, positiveImpact).value.funding)
  {
    hide PendingFundingFees, PendingBorrowingFeeValue;
  }

  lemma IncreaseKeepsBacked(cfg: Config, w: World, id: nat, params: IncreaseParams, t: bool)
    requires Step(cfg, w, DoIncrease(id, params)).Some?
    requires FundingBacked(cfg, w, t)
    ensures FundingBacked(cfg, Step(cfg, w, DoIncrease(id, params)).value, t)
  {
    hide Increase, GetExecution, FeesFor, BorrowedFor, OwedBy, ClaimableBy, Scale, InitializeIfEmpty,
      PendingFundingFees, MoveOf, Grown;
    var m, ps := w.market, w.positions;
    var (next, grown, r) := Increase(cfg, m, ps[id], params).value;
    var p := InitializeIfEmpty(m, ps[id]);
    IncreaseHasEffect(cfg, m, ps[id], params, true, true);
    FeesContainFunding(cfg, m, p, CollateralPrice(p, params.prices), params.sizeDelta, r.execution.impactValue > 0);
    SettlementRounds(cfg, m, p, r.fees.funding, t);
    InitializingSettlesNothing(m, ps[id], t);
    NothingLeftToSettle(m, p, p.collateral + r.collateralDelta, p.sizeUsd + params.sizeDelta,
                        p.sizeTokens + r.execution.tokens, t);
    Sums.SumUpdate(ps, id, grown, OwedBy(m.fundingPerSize, t));
    Sums.SumUpdate(ps, id, grown, ClaimableBy(m.claimablePerSize, t));
    InitializeKeepsSides(m, ps[id]);
    var paid := When(p.isCollateralLong == t, r.fees.funding.amount);
    assert Step(cfg, w, DoIncrease(id, params)).value.ledger.paid.Amount(t) == w.ledger.paid.Amount(t) + paid;
    ScaleAdds(Scale(cfg), w.ledger.paid.Amount(t), paid);
    ScaleAdds(Scale(cfg), w.ledger.claimed.Amount(t), r.fees.funding.Claimable(t));
  }

  lemma ScaleAdds(scale: int, a: int, b: int)
    ensures scale * (a + b) == scale * a + scale * b
  {
  }

  lemma InitializeKeepsSides(m: Market, p: Position)
    ensures var q := InitializeIfEmpty(m, p);
            && q.isLong == p.isLong && q.isCollateralLong == p.isCollateralLong
            && q.sizeUsd == p.sizeUsd && q.collateral == p.collateral
  {
  }

  lemma OpenKeepsBacked(cfg: Config, w: World, isLong: bool, isCollateralLong: bool, t: bool)
    requires FundingBacked(cfg, w, t)
    ensures FundingBacked(cfg, Step(cfg, w, DoOpen(isLong, isCollateralLong)).value, t)
  {
    var q := EmptyPosition(isLong, isCollateralLong);
    Sums.SumAppend(w.positions, q, OwedBy(w.market.fundingPerSize, t));
    Sums.SumAppend(w.positions, q, ClaimableBy(w.market.claimablePerSize, t));
  }

  lemma StepKeepsBacked(cfg: Config, w: World, a: Action, t: bool)
    requires Consistent(w.market, w.positions) && FundingBacked(cfg, w, t)
    requires Step(cfg, w, a).Some?
    ensures FundingBacked(cfg, Step(cfg, w, a).value, t)
  {
    hide Increase, UpdateFunding, UpdateBorrowing, BorrowingRate, NextBorrowingFactor, Consistent;
    if IsLiquidityAction(a) {
      hide *;
      LiquidityActionsKeepTraders(cfg, w, a);
      SameFundingBacked(cfg, w, Step(cfg, w, a).value, t);
    } else {
      match a
      case DoOpen(isLong, isCollateralLong) => OpenKeepsBacked(cfg, w, isLong, isCollateralLong, t);
      case DoIncrease(id, params) => IncreaseKeepsBacked(cfg, w, id, params, t);
      case DoUpdateFunding(prices) => UpdateFundingKeepsBacked(cfg, w.market, w.positions, prices, t);
      case DoUpdateBorrowing(prices) => UpdateBorrowingExact(cfg, w.market, prices, true);
    }
  }

  lemma SameFundingBacked(cfg: Config, w: World, next: World, t: bool)
    requires FundingBacked(cfg, w, t) && next.positions == w.positions && SameTraders(w.market, next.market)
    requires next.ledger.paid == w.ledger.paid && next.ledger.claimed == w.ledger.claimed
    ensures FundingBacked(cfg, next, t)
  {
  }

  /** In every state that a run reaches from the empty world, whichever side paid and whenever each
      position settled. */
  lemma {:induction false} RunKeepsBacked(cfg: Config, w: World, actions: seq<Action>, t: bool)
    requires Consistent(w.market, w.positions) && FundingBacked(cfg, w, t)
    requires Run(cfg, w, actions).Some?
    ensures FundingBacked(cfg, Run(cfg, w, actions).value, t)
    decreases |actions|
  {
    hide Step, Consistent, FundingBacked;
    if actions != [] {
      var next := Step(cfg, w, actions[0]).value;
      StepKeepsConsistent(cfg, w, actions[0]);
      StepKeepsBacked(cfg, w, actions[0], t);
      RunKeepsBacked(cfg, next, actions[1..], t);
    }
  }

  lemma EmptyWorldBacked(cfg: Config, t: bool)
    ensures FundingBacked(cfg, EMPTY_WORLD, t)
  {
  }

  /** Tokens a position would pay, and receive, if it settled its funding now. */
  function DueOf(cfg: Config, m: Market, p: Position): nat {
    var due := PendingFundingFee(cfg, m, p);
    if due.Some? then due.value else 0
  }

  function ClaimOf(cfg: Config, m: Market, p: Position, t: bool): nat {
    var claim := PendingClaim(cfg, m, p, t);
    if claim.Some? then claim.value else 0
  }

  function DueNow(cfg: Config, m: Market, t: bool): Sums.Weight {
    (p: Position) => When(p.isCollateralLong == t, DueOf(cfg, m, p))
  }

  function ClaimNow(cfg: Config, m: Market, t: bool): Sums.Weight {
    (p: Position) => ClaimOf(cfg, m, p, t)
  }

  lemma DueCovers(cfg: Config, m: Market, p: Position, t: bool)
    requires PendingFundingFee(cfg, m, p).Some?
    ensures OwedBy(m.fundingPerSize, t)(p) <= Scale(cfg) * DueNow(cfg, m, t)(p)
  {
    hide MulDivCeil;
    var diff := m.fundingPerSize.Side(p.isLong).Amount(p.isCollateralLong) - p.fundingPerSize;
    MulDivCeilBounds(p.sizeUsd, diff, Scale(cfg));
  }

  lemma ClaimWithin(cfg: Config, m: Market, p: Position, t: bool)
    requires CheckpointsBehind(m, p)
    ensures Scale(cfg) * ClaimNow(cfg, m, t)(p) <= ClaimableBy(m.claimablePerSize, t)(p)
  {
    hide MulDiv;
    var diff := m.claimablePerSize.Side(p.isLong).Amount(t) - p.claimablePerSize.Amount(t);
    MulNonNeg(p.sizeUsd, diff);
    if PendingClaim(cfg, m, p, t).Some? {
      MulDivBounds(p.sizeUsd, diff, Scale(cfg));
    }
  }

  lemma DueCoversOwed(cfg: Config, m: Market, ps: seq<Position>, t: bool)
    requires forall p <- ps :: PendingFundingFee(cfg, m, p).Some?
    ensures Sums.Sum(ps, OwedBy(m.fundingPerSize, t)) <= Scale(cfg) * Sums.Sum(ps, DueNow(cfg, m, t))
  {
    hide OwedBy, DueNow, Scale, PendingFundingFee;
    var scaled: Sums.Weight := (p: Position) => Scale(cfg) * DueNow(cfg, m, t)(p);
    forall p <- ps ensures OwedBy(m.fundingPerSize, t)(p) <= scaled(p) {
      DueCovers(cfg, m, p, t);
    }
    Sums.SumMono(ps, OwedBy(m.fundingPerSize, t), scaled);
    Sums.SumScaled(ps, scaled, Scale(cfg), DueNow(cfg, m, t));
  }

  lemma ClaimWithinClaimable(cfg: Config, m: Market, ps: seq<Position>, t: bool)
    requires forall p <- ps :: CheckpointsBehind(m, p)
    ensures Scale(cfg) * Sums.Sum(ps, ClaimNow(cfg, m, t)) <= Sums.Sum(ps, ClaimableBy(m.claimablePerSize, t))
  {
    hide ClaimableBy, ClaimNow, Scale, CheckpointsBehind;
    var scaled: Sums.Weight := (p: Position) => Scale(cfg) * ClaimNow(cfg, m, t)(p);
    forall p <- ps ensures scaled(p) <= ClaimableBy(m.claimablePerSize, t)(p) {
      ClaimWithin(cfg, m, p, t);
    }
    Sums.SumMono(ps, scaled, ClaimableBy(m.claimablePerSize, t));
    Sums.SumScaled(ps, scaled, Scale(cfg), ClaimNow(cfg, m, t));
  }

  /** After any run from the empty world: if every position settled now, everything ever paid in funding
      fees in a token would cover everything ever claimed in it, whole token by whole token. */
  lemma SettlingEveryoneIsSolvent(cfg: Config, actions: seq<Action>, t: bool)
    requires Run(cfg, EMPTY_WORLD, actions).Some? && Scale(cfg) > 0
    requires var w := Run(cfg, EMPTY_WORLD, actions).value;
             forall p <- w.positions :: PendingFundingFee(cfg, w.market, p).Some?
    ensures var w := Run(cfg, EMPTY_WORLD, actions).value;
            w.ledger.claimed.Amount(t) + Sums.Sum(w.positions, ClaimNow(cfg, w.market, t))
            <= w.ledger.paid.Amount(t) + Sums.Sum(w.positions, DueNow(cfg, w.market, t))
  {
    hide Run, Scale, OwedBy, ClaimableBy, DueNow, ClaimNow, PendingFundingFee, CheckpointsBehind, AggregatesAt,
      BorrowingAt;
    var w := Run(cfg, EMPTY_WORLD, actions).value;
    EmptyWorldConsistent();
    EmptyWorldBacked(cfg, t);
    RunKeepsConsistent(cfg, EMPTY_WORLD, actions);
    RunKeepsBacked(cfg, EMPTY_WORLD, actions, t);
    DueCoversOwed(cfg, w.market, w.positions, t);
    ClaimWithinClaimable(cfg, w.market, w.positions, t);
    var claimed, paid := w.ledger.claimed.Amount(t), w.ledger.paid.Amount(t);
    var claim := Sums.Sum(w.positions, ClaimNow(cfg, w.market, t));
    var due := Sums.Sum(w.positions, DueNow(cfg, w.market, t));
    ScaleAdds(Scale(cfg), claimed, claim);
    ScaleAdds(Scale(cfg), paid, due);
    MulCancel(claimed + claim, paid + due, Scale(cfg));
  }
}
