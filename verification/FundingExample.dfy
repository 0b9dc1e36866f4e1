/** A run in which one side pays the other: the funding results have something to say. */
module FundingExample {
  import opened Options
  import opened Arith
  import opened Num
  import opened Fixed
  import opened Utils
  import opened Price
  import opened Pool
  import opened PriceImpact
  import opened Fees
  import opened Params
  import opened State
  import opened FundingAction
  import opened FundingRates
  import opened PositionState
  import opened IncreaseAction
  import opened World
  import opened Invariants
  import opened Example
  import Sums

  /** The rate grows by the square of the imbalance and falls by one per second while the imbalance is small. */
  const FUNDED := CONFIG.(funding := FundingParams(2 * UNIT, 0, UNIT, 1, UNIT, 0, 2 * UNIT, 2 * UNIT))

  const BUSY := EMPTY_MARKET.(
    primary := Pool(10 * UNIT, 10 * UNIT), supply := 20 * UNIT, now := 1, clocks := Clocks(None, None, Some(0)),
    openInterest := PoolPair(Pool(3 * UNIT, 0), Pool(UNIT, 0)),
    openInterestInTokens := PoolPair(Pool(3 * UNIT, 0), Pool(UNIT, 0)),
    collateralSum := PoolPair(Pool(5 * UNIT, 0), Pool(5 * UNIT, 0)))
  const PAYER := EmptyPosition(true, true).(collateral := 5 * UNIT, sizeUsd := 3 * UNIT, sizeTokens := 3 * UNIT)
  const RECEIVER := EmptyPosition(false, true).(collateral := 5 * UNIT, sizeUsd := UNIT, sizeTokens := UNIT)
  const START := World(BUSY, [PAYER, RECEIVER], EMPTY_LEDGER)

  /** One update later each unit of long size owes one token unit and each unit of short size may claim three. */
  const CHARGED := BUSY.(
    fundingPerSize := PoolPair(Pool(UNIT, 0), EMPTY_POOL), claimablePerSize := PoolPair(EMPTY_POOL, Pool(3 * UNIT, 0)),
    fundingRate := UNIT, clocks := Clocks(None, None, Some(1)))

  lemma StartConsistent()
    ensures Consistent(BUSY, [PAYER, RECEIVER])
  {
    var ps := [PAYER, RECEIVER];
    forall isLong, t ensures AggregatesAt(BUSY, ps, isLong, t) {
      SumOfTwo(PAYER, RECEIVER, SizeIn(isLong, t));
      SumOfTwo(PAYER, RECEIVER, TokensIn(isLong, t));
      SumOfTwo(PAYER, RECEIVER, CollateralIn(isLong, t));
    }
    forall isLong ensures BorrowingAt(BUSY, ps, isLong) {
      SumOfTwo(PAYER, RECEIVER, BorrowedIn(isLong));
      FloorExact(0, UNIT);
      assert 3 * UNIT * 0 == 0 == UNIT * 0;
    }
  }

  lemma SumOfTwo(p: Position, q: Position, f: Sums.Weight)
    ensures Sums.Sum([p, q], f) == f(p) + f(q)
  {
    var none: seq<Position> := [];
    Sums.SumAppend(none, p, f);
    Sums.SumAppend([p], q, f);
    assert none + [p] == [p] && [p] + [q] == [p, q];
  }

  lemma MulDivBack(x: nat, d: nat)
    requires 0 < d && x <= MAX
    ensures MulDiv(x, d, d) == Some(x) && MulDiv(d, x, d) == Some(x) && MulDivCeil(x, d, d) == Some(x)
  {
    FloorExact(x, d);
    assert d * x == x * d;
    FloorGreatest(x, x * d + d - 1, d);
    FloorBelow(x + 1, x * d + d - 1, d);
  }

  lemma SquareOfTwo()
    requires SMAX >= 100 * UNIT
    ensures ApplyExponentFactor(2 * UNIT, 2 * UNIT, CONFIG.fractionalPow) == Some(4 * UNIT)
  {
    hide MulDiv;
    FloorExact(2, UNIT);
    assert 2 * UNIT % UNIT == 0;
    MulDivBack(2 * UNIT, UNIT);
    DoubleOfTwo();
    assert PowSteps(2 * UNIT, 0) == Some(UNIT);
    assert PowSteps(2 * UNIT, 1) == Some(2 * UNIT);
    assert PowSteps(2 * UNIT, 2) == Some(4 * UNIT);
  }

  lemma DoubleOfTwo()
    requires SMAX >= 100 * UNIT
    ensures MulDiv(2 * UNIT, 2 * UNIT, UNIT) == Some(4 * UNIT)
  {
    FloorExact(4 * UNIT, UNIT);
    assert 2 * UNIT * (2 * UNIT) == 4 * UNIT * UNIT;
  }

  lemma SkewOfStart()
    requires SMAX >= 100 * UNIT
    ensures Skew(FUNDED, 3 * UNIT, UNIT) == Some(UNIT)
  {
    hide ApplyExponentFactor, MulDiv;
    SquareOfTwo();
    MulDivBack(UNIT, 4 * UNIT);
  }

  lemma RateOfStart()
    requires SMAX >= 100 * UNIT
    ensures NextRate(FUNDED, 0, 3 * UNIT, UNIT, 1) == Some(RateDecision(UNIT, true, UNIT))
  {
    hide Skew, MulDiv;
    SkewOfStart();
    MulDivBack(UNIT, UNIT);
  }

  const PLAN := FundingPlan(true, 3 * UNIT, 0, UNIT)

  lemma PlanOfStart()
    requires SMAX >= 100 * UNIT
    ensures PlanFunding(FUNDED, BUSY, 1) == Some(PLAN)
  {
    hide NextRate, MulDiv;
    RateOfStart();
    MulDivBack(3 * UNIT, UNIT);
    MulDivBack(3 * UNIT, 3 * UNIT);
    MulDivBack(0, 3 * UNIT);
    NothingDue();
  }

  lemma NothingDue()
    ensures MulDiv(3 * UNIT, 0, 3 * UNIT) == Some(0)
  {
    assert 3 * UNIT * 0 == 0;
  }

  lemma DeltasOfStart()
    requires SMAX >= 100 * UNIT
    ensures PayerDelta(FUNDED, BUSY, ONE, PLAN, true) == Some(UNIT)
    ensures PayerDelta(FUNDED, BUSY, ONE, PLAN, false) == Some(0)
    ensures ReceiverDelta(FUNDED, BUSY, ONE, PLAN, true) == Some(3 * UNIT)
    ensures ReceiverDelta(FUNDED, BUSY, ONE, PLAN, false) == Some(0)
  {
    hide MulDiv, MulDivCeil;
    MulDivBack(UNIT, 3 * UNIT);
    CeilBack();
    MulDivBack(3 * UNIT, UNIT);
  }

  lemma CeilBack()
    requires SMAX >= 100 * UNIT
    ensures MulDivCeil(3 * UNIT, UNIT, 3 * UNIT) == Some(UNIT)
  {
    MulDivBack(UNIT, 3 * UNIT);
    assert 3 * UNIT * UNIT == UNIT * (3 * UNIT);
  }

  lemma UpdateSucceeds()
    requires SMAX >= 100 * UNIT
    ensures UpdateFunding(FUNDED, BUSY, ONE).Some?
    ensures UpdateFunding(FUNDED, BUSY, ONE).value.0 == CHARGED
    ensures PLAN.For(true) != 0
  {
    hide PlanFunding, FundingDeltas, GrowPair;
    PlanOfStart();
    ReportOfStart();
    GrowthOfStart();
  }

  const REPORT := FundingReport(
    1, UNIT, PoolPair(Pool(UNIT, 0), EMPTY_POOL), PoolPair(EMPTY_POOL, Pool(3 * UNIT, 0)))

  lemma ReportOfStart()
    requires SMAX >= 100 * UNIT
    ensures FundingDeltas(FUNDED, BUSY, ONE, PLAN, 1) == Some(REPORT)
  {
    hide PayerDelta, ReceiverDelta;
    DeltasOfStart();
  }

  lemma GrowthOfStart()
    requires SMAX >= 100 * UNIT
    ensures GrowPair(EMPTY_PAIR, REPORT.deltaFunding) == Some(CHARGED.fundingPerSize)
    ensures GrowPair(EMPTY_PAIR, REPORT.deltaClaimable) == Some(CHARGED.claimablePerSize)
  {
  }

  /** After the update the rate is falling: the results about falling rates apply from here on. */
  lemma ChargedIsFalling()
    requires SMAX >= 100 * UNIT
    ensures Falling(FUNDED, CHARGED) && Abs(CHARGED.fundingRate) <= FUNDED.funding.maxPerSecond
    ensures CHARGED.clocks.funding == Some(CHARGED.now)
  {
    hide Skew;
    SkewOfStart();
  }

  const SETTLE := IncreaseParams(0, 0, None, ONE)
  const PAID := FundingFees(3 * UNIT, 0, 0)
  const CLAIMED := FundingFees(0, 3 * UNIT, 0)

  function FeesWith(funding: FundingFees): PositionFees {
    PositionFees(OrderFees(NO_FEES, 0), BorrowingFees(0, 0), funding)
  }

  lemma NoUnits(d: nat)
    requires d > 0
    ensures forall x: nat :: MulDivCeil(x, 0, d) == Some(0) && MulDiv(x, 0, d) == Some(0)
  {
    forall x: nat ensures MulDivCeil(x, 0, d) == Some(0) && MulDiv(x, 0, d) == Some(0) {
      assert x * 0 == 0;
      FloorExact(0, d);
      FloorGreatest(0, d - 1, d);
      FloorBelow(1, d - 1, d);
    }
  }

  lemma FundingDue()
    requires SMAX >= 100 * UNIT
    ensures PendingFundingFees(FUNDED, CHARGED, PAYER) == Some(PAID)
    ensures PendingFundingFees(FUNDED, CHARGED, RECEIVER) == Some(CLAIMED)
  {
    hide MulDiv, MulDivCeil;
    MulDivBack(3 * UNIT, UNIT);
    NoUnits(UNIT);
  }

  /** What an unpaid order costs. */
  lemma NoOrderFee(price: Price, sizeDelta: nat, positiveImpact: bool)
    requires price == Price(1, 1)
    ensures FREE.ForOrder(price, sizeDelta, positiveImpact) == Some(OrderFees(NO_FEES, 0))
  {
    hide ApplyFactor;
    FactorFacts(sizeDelta);
    FactorFacts(0);
  }

  lemma NoBorrowingFee(m: Market, p: Position)
    requires m.borrowingFactor == EMPTY_POOL && p.borrowingFactor == 0
    ensures PendingBorrowingFeeValue(m, p) == Some(0)
  {
    FactorFacts(p.sizeUsd);
  }

  lemma FeesSettled(m: Market, p: Position, sizeDelta: nat, positiveImpact: bool, funding: FundingFees)
    requires m.borrowingFactor == EMPTY_POOL && p.borrowingFactor == 0
    requires PendingFundingFees(FUNDED, m, p) == Some(funding)
    ensures FeesFor(FUNDED, m, p, Price(1, 1), sizeDelta, positiveImpact) == Some(FeesWith(funding))
  {
    hide FeeParams.ForOrder, PendingFundingFees, PendingBorrowingFeeValue, ApplyFactor;
    NoOrderFee(Price(1, 1), sizeDelta, positiveImpact);
    NoBorrowingFee(m, p);
    FactorFacts(0);
  }

  /** The market and the two positions after the payer, and then the receiver, has settled. */
  const PAYER_SETTLED := PAYER.(collateral := 2 * UNIT, fundingPerSize := UNIT)
  const RECEIVER_SETTLED := RECEIVER.(claimablePerSize := Pool(3 * UNIT, 0))
  const SETTLED := CHARGED.(collateralSum := PoolPair(Pool(2 * UNIT, 0), Pool(5 * UNIT, 0)))

  lemma NothingDueNow(p: Position)
    requires SMAX >= 100 * UNIT && (p == PAYER_SETTLED || p == RECEIVER_SETTLED)
    ensures PendingFundingFees(FUNDED, SETTLED, p) == Some(FundingFees(0, 0, 0))
  {
    hide MulDiv, MulDivCeil;
    NoUnits(UNIT);
  }

  /** Without profit, impact and fees all the collateral remains. */
  lemma AllRemains(p: Position)
    requires p.collateral <= SMAX && p.sizeUsd <= SMAX
    requires PnlValue(FUNDED, SETTLED, p, ONE, p.sizeUsd) == Some((0, 0, p.sizeTokens))
    requires PositionPriceImpact(FUNDED, SETTLED, p.isLong, -(p.sizeUsd as int)) == Some(0)
    requires FeesFor(FUNDED, SETTLED, p, Price(1, 1), p.sizeUsd, false) == Some(FeesWith(FundingFees(0, 0, 0)))
    ensures RemainingCollateral(FUNDED, SETTLED, p, ONE) == Some(p.collateral)
  {
    hide PnlValue, PositionPriceImpact, FeesFor;
  }

  lemma NothingTaken(p: Position)
    requires SMAX >= 100 * UNIT && (p == PAYER_SETTLED || p == RECEIVER_SETTLED)
    ensures RemainingCollateral(FUNDED, SETTLED, p, ONE) == Some(p.collateral)
  {
    hide ImpactOf, FeesFor, PnlValue, PendingFundingFees, RemainingCollateral;
    NothingDueNow(p);
    FeesSettled(SETTLED, p, p.sizeUsd, false, FundingFees(0, 0, 0));
    NoImpact(SizeMove(SETTLED, p.isLong, -(p.sizeUsd as int)).value);
    EvenTrade(p);
    AllRemains(p);
  }

  lemma StaysHealthy(p: Position)
    requires SMAX >= 100 * UNIT && (p == PAYER_SETTLED || p == RECEIVER_SETTLED)
    ensures ValidatePosition(FUNDED, SETTLED, p, ONE).Some?
  {
    hide RemainingCollateral, ApplyFactor;
    NothingTaken(p);
    FactorFacts(p.sizeUsd);
  }

  lemma EvenTrade(p: Position)
    requires SMAX >= 100 * UNIT && (p == PAYER_SETTLED || p == RECEIVER_SETTLED)
    ensures PnlValue(FUNDED, SETTLED, p, ONE, p.sizeUsd) == Some((0, 0, p.sizeTokens))
  {
    hide MulDiv;
    NoUnits(p.sizeTokens);
  }

  const PAYER_REPORT := IncreaseReport(Execution(0, 0, 0, 1), -3 * UNIT, FeesWith(PAID))
  const RECEIVER_REPORT := IncreaseReport(Execution(0, 0, 0, 1), 0, FeesWith(CLAIMED))

  lemma PayerSettles()
    requires SMAX >= 100 * UNIT
    ensures Increase(FUNDED, CHARGED, PAYER, SETTLE)
            == Some((SETTLED, PAYER_SETTLED, PAYER_REPORT))
  {
    hide FeesFor, ValidatePosition, ApplyFactor, PendingFundingFees;
    FundingDue();
    FeesSettled(CHARGED, PAYER, 0, false, PAID);
    FactorFacts(3 * UNIT);
    StaysHealthy(PAYER_SETTLED);
  }

  lemma ReceiverSettles()
    requires SMAX >= 100 * UNIT
    ensures Increase(FUNDED, SETTLED, RECEIVER, SETTLE)
            == Some((SETTLED, RECEIVER_SETTLED, RECEIVER_REPORT))
  {
    hide FeesFor, ValidatePosition, ApplyFactor, PendingFundingFees;
    FundingDue();
    ClaimDue();
    FeesSettled(SETTLED, RECEIVER, 0, false, CLAIMED);
    FactorFacts(UNIT);
    StaysHealthy(RECEIVER_SETTLED);
  }

  lemma ClaimDue()
    requires PendingFundingFees(FUNDED, CHARGED, RECEIVER) == Some(CLAIMED)
    ensures PendingFundingFees(FUNDED, SETTLED, RECEIVER) == Some(CLAIMED)
  {
    hide MulDiv, MulDivCeil;
  }

  /** Funding has only flowed in the long token, by the given amounts. */
  predicate Flowed(l: Ledger, paid: int, claimed: int) {
    l.paid.long == paid && l.paid.short == 0 && l.claimed.long == claimed && l.claimed.short == 0
  }

  const ACTIONS := [DoUpdateFunding(ONE), DoIncrease(0, SETTLE), DoIncrease(1, SETTLE)]

  /** From a consistent market, one update and the settlement of both positions move three units of funding from
      the long position to the short one, to the last token. */
  lemma FundingFlows()
    requires SMAX >= 100 * UNIT
    ensures Consistent(START.market, START.positions)
    ensures Run(FUNDED, START, ACTIONS).Some?
    ensures Flowed(Run(FUNDED, START, ACTIONS).value.ledger, 3 * UNIT, 3 * UNIT)
  {
    hide Step;
    StartConsistent();
    var w1 := UpdateStep();
    var w2 := PayerStep(w1);
    var w3 := ReceiverStep(w2);
    assert ACTIONS[1..] == [DoIncrease(0, SETTLE), DoIncrease(1, SETTLE)];
    assert ACTIONS[1..][1..] == [DoIncrease(1, SETTLE)];
    assert ACTIONS[1..][1..][1..] == [];
    assert Run(FUNDED, w3, []) == Some(w3);
    assert Run(FUNDED, w2, ACTIONS[1..][1..]) == Some(w3);
    assert Run(FUNDED, w1, ACTIONS[1..]) == Some(w3);
  }

  lemma UpdateStep() returns (w: World)
    requires SMAX >= 100 * UNIT
    ensures Step(FUNDED, START, DoUpdateFunding(ONE)) == Some(w)
    ensures w.market == CHARGED && w.positions == [PAYER, RECEIVER]
    ensures Flowed(w.ledger, 0, 0)
  {
    hide UpdateFunding;
    UpdateSucceeds();
    w := World(CHARGED, START.positions, EMPTY_LEDGER);
  }

  /** One settlement: the new market and position, and what the ledger records. */
  lemma SettleStep(v: World, id: nat, next: Market, grown: Position, r: IncreaseReport) returns (w: World)
    requires id < |v.positions| && Increase(FUNDED, v.market, v.positions[id], SETTLE) == Some((next, grown, r))
    ensures Step(FUNDED, v, DoIncrease(id, SETTLE)) == Some(w)
    ensures w.market == next && w.positions == v.positions[id := grown]
    ensures w.ledger.paid == Plus(v.ledger.paid, OneSide(v.positions[id].isCollateralLong, r.fees.funding.amount))
    ensures w.ledger.claimed
            == Plus(v.ledger.claimed, Pool(r.fees.funding.claimableLong, r.fees.funding.claimableShort))
  {
    hide Increase, MoveOf;
    w := Step(FUNDED, v, DoIncrease(id, SETTLE)).value;
  }

  lemma FlowAdds(l: Ledger, next: Ledger, funding: FundingFees, paid: int, claimed: int)
    requires Flowed(l, paid, claimed) && funding.claimableShort == 0
    requires next.paid == Plus(l.paid, OneSide(true, funding.amount))
    requires next.claimed == Plus(l.claimed, Pool(funding.claimableLong, funding.claimableShort))
    ensures Flowed(next, paid + funding.amount, claimed + funding.claimableLong)
  {
  }

  lemma ReplaceFirst(p: Position, q: Position, r: Position)
    ensures [p, q][0 := r] == [r, q]
  {
  }

  lemma PayerStep(v: World) returns (w: World)
    requires SMAX >= 100 * UNIT && v.market == CHARGED && v.positions == [PAYER, RECEIVER]
    requires Flowed(v.ledger, 0, 0)
    ensures Step(FUNDED, v, DoIncrease(0, SETTLE)) == Some(w)
    ensures w.market == SETTLED && w.positions == [PAYER_SETTLED, RECEIVER]
    ensures Flowed(w.ledger, 3 * UNIT, 0)
  {
    hide Increase, Step, Flowed, Plus, OneSide;
    PayerSettles();
    w := SettleStep(v, 0, SETTLED, PAYER_SETTLED, PAYER_REPORT);
    ReplaceFirst(PAYER, RECEIVER, PAYER_SETTLED);
    FlowAdds(v.ledger, w.ledger, PAID, 0, 0);
  }

  lemma ReceiverStep(v: World) returns (w: World)
    requires SMAX >= 100 * UNIT && v.market == SETTLED && v.positions == [PAYER_SETTLED, RECEIVER]
    requires Flowed(v.ledger, 3 * UNIT, 0)
    ensures Step(FUNDED, v, DoIncrease(1, SETTLE)) == Some(w)
    ensures Flowed(w.ledger, 3 * UNIT, 3 * UNIT)
  {
    hide Increase, Step;
    ReceiverSettles();
    w := SettleStep(v, 1, SETTLED, RECEIVER_SETTLED, RECEIVER_REPORT);
  }
}
