/** A market in which actions succeed: the results about runs are about something. */
module Example {
  import opened Options
  import opened Arith
  import opened Num
  import opened Utils
  import opened Price
  import opened Pool
  import opened PriceImpact
  import opened Fees
  import opened Params
  import opened State
  import opened SwapAction
  import opened DepositAction
  import opened WithdrawAction
  import opened FundingAction
  import opened AccrualActions
  import opened PositionState
  import opened IncreaseAction
  import opened World

  const WIDE := Pool(MAX, MAX)
  const ONE := Prices(Price(1, 1), Price(1, 1), Price(1, 1))
  const NO_IMPACT := PriceImpactParams(UNIT, 0, 0)
  const FREE := FeeParams(0, 0, 0, None)

  /** No fees, no price impact, no accrual and wide limits. */
  const CONFIG := Config(
    NO_IMPACT, FREE, PositionParams(1, 1, 0, 0, 0, 0), NO_IMPACT, FREE, DistributionParams(0, 0),
    BorrowingParams(0, Pool(UNIT, UNIT), Pool(0, 0), false), KinkParams(0, 0, 0), KinkParams(0, 0, 0),
    FundingParams(UNIT, 0, 0, 0, 0, 0, 0, 0), UNIT, UNIT, WIDE, WIDE, WIDE, WIDE, WIDE, WIDE, Pool(0, 0), true, 1, 1,
    (_, _) => None)

  const DEPOSITED := EMPTY_MARKET.(primary := Pool(10, 10), supply := 20)

  lemma FactorFacts(x: nat)
    ensures ApplyFactor(0, x) == Some(0) && ApplyFactor(x, 0) == Some(0)
    ensures x <= MAX ==> ApplyFactor(x, UNIT) == Some(x)
  {
    FloorExact(0, UNIT);
    FloorExact(x, UNIT);
    assert 0 * x == 0 == x * 0;
  }

  lemma FreeOfFees(positiveImpact: bool, amount: nat)
    ensures FREE.ApplyFees(positiveImpact, amount) == Some((amount, NO_FEES))
  {
    hide ApplyFactor;
    FactorFacts(amount);
    FactorFacts(0);
  }

  lemma NoImpact(d: PoolDelta)
    ensures ImpactOf(d, NO_IMPACT, CONFIG.fractionalPow) == Some(0)
  {
    hide ApplyFactors;
    FreePower(DiffValue(d.current));
    FreePower(DiffValue(d.next));
  }

  lemma FreePower(value: nat)
    ensures ApplyFactors(value, 0, UNIT, CONFIG.fractionalPow) == Some(0)
  {
    FactorFacts(if value < UNIT then 0 else value);
  }

  lemma NothingOpen(m: Market, isLong: bool)
    requires m.openInterest == EMPTY_PAIR == m.openInterestInTokens
    ensures Pnl(m, ONE.index, isLong, true) == Some(0) == Pnl(m, ONE.index, isLong, false)
  {
  }

  lemma NothingPending(m: Market)
    requires SMAX >= 100 && m.openInterest == EMPTY_PAIR == m.openInterestInTokens && m.now == 0
    requires m.borrowingFactor == EMPTY_POOL == m.totalBorrowing
    ensures BorrowingFeesForPool(CONFIG, m, ONE) == Some(0)
  {
    hide ApplyFactor;
    FactorFacts(0);
    FactorFacts(UNIT);
  }

  lemma EmptyPoolValue()
    requires SMAX >= 100
    ensures PoolValue(CONFIG, EMPTY_MARKET, ONE, MaxAfterDeposit, true) == Some(0)
  {
    hide BorrowingFeesForPool, Pnl;
    NothingOpen(EMPTY_MARKET, true);
    NothingOpen(EMPTY_MARKET, false);
    NothingPending(EMPTY_MARKET);
  }

  lemma EmptyChecked()
    ensures ValidateMaxPnl(CONFIG, EMPTY_MARKET, ONE, MaxAfterDeposit, MaxAfterDeposit).Some?
  {
    hide Pnl;
    NothingOpen(EMPTY_MARKET, true);
    NothingOpen(EMPTY_MARKET, false);
  }

  lemma LegSucceeds(m: Market, isLong: bool)
    requires SMAX >= 100 && m.supply == 0 && m.fee == EMPTY_POOL
    requires m.primary == if isLong then EMPTY_POOL else Pool(10, 0)
    ensures DepositLeg(CONFIG, m, isLong, 10, ONE, 0, 0, Pool(10, 10))
            == Some((m.(primary := m.primary.With(isLong, 10)), 10, NO_FEES))
  {
    hide FeeParams.ApplyFees, ImpactShare;
    FreeOfFees(false, 10);
    assert ImpactShare(0, Pool(10, 10), isLong) == Some(0) by {
      NoShare(isLong);
    }
  }

  lemma NoShare(isLong: bool)
    requires SMAX >= 100
    ensures ImpactShare(0, Pool(10, 10), isLong) == Some(0)
  {
    assert 10 * 0 / 20 == 0;
  }

  /** The first deposit of ten of each token at price one mints twenty market tokens. */
  lemma DepositSucceeds()
    requires SMAX >= 100
    ensures Deposit(CONFIG, EMPTY_MARKET, 10, 10, ONE) == Some((DEPOSITED, DepositReport(20, 0, NO_FEES, NO_FEES)))
  {
    hide PoolValue, DepositLeg, ImpactOf, ValidateMaxPnl;
    EmptyPoolValue();
    EmptyChecked();
    NoImpact(DepositDelta(EMPTY_MARKET, 10, 10, ONE).value);
    LegSucceeds(EMPTY_MARKET, true);
    LegSucceeds(EMPTY_MARKET.(primary := Pool(10, 0)), false);
  }

  const OPENED := EmptyPosition(true, true)
  const PARAMS := IncreaseParams(5, 4, None, ONE)
  const NOTHING := PositionFees(OrderFees(NO_FEES, 0), BorrowingFees(0, 0), FundingFees(0, 0, 0))
  const INCREASED := DEPOSITED.(
    openInterest := PoolPair(Pool(4, 0), EMPTY_POOL), openInterestInTokens := PoolPair(Pool(4, 0), EMPTY_POOL),
    collateralSum := PoolPair(Pool(5, 0), EMPTY_POOL))
  const GROWN := OPENED.(collateral := 5, sizeUsd := 4, sizeTokens := 4)

  lemma ExecutionSucceeds()
    requires SMAX >= 100
    ensures GetExecution(CONFIG, DEPOSITED, true, PARAMS) == Some(Execution(0, 0, 4, 1))
  {
    hide ImpactOf;
    NoImpact(SizeMove(DEPOSITED, true, 4).value);
  }

  /** A position at the market's checkpoints owes nothing. */
  lemma NoFeesDue(m: Market, p: Position, sizeDelta: nat, positiveImpact: bool)
    requires SMAX >= 100 && p.sizeUsd <= 10 && sizeDelta <= 10
    requires m.borrowingFactor == EMPTY_POOL && m.fundingPerSize == EMPTY_PAIR && m.claimablePerSize == EMPTY_PAIR
    requires p.borrowingFactor == 0 && p.fundingPerSize == 0 && p.claimablePerSize == EMPTY_POOL
    ensures FeesFor(CONFIG, m, p, Price(1, 1), sizeDelta, positiveImpact) == Some(NOTHING)
  {
    hide ApplyFactor;
    FactorFacts(0);
    FactorFacts(p.sizeUsd);
    FactorFacts(sizeDelta);
    assert p.sizeUsd * 0 == 0;
    FloorExact(0, UNIT);
    FloorBelow(1, UNIT - 1, UNIT);
    FloorGreatest(0, UNIT - 1, UNIT);
  }

  lemma PositionHealthy()
    requires SMAX >= 100
    ensures ValidatePosition(CONFIG, INCREASED, GROWN, ONE).Some?
  {
    hide ImpactOf, FeesFor, ApplyFactor;
    NoFeesDue(INCREASED, GROWN, 4, false);
    NoImpact(SizeMove(INCREASED, true, -4).value);
    FactorFacts(4);
  }

  lemma IncreaseSucceeds()
    requires SMAX >= 100
    ensures Increase(CONFIG, DEPOSITED, OPENED, PARAMS)
            == Some((INCREASED, GROWN, IncreaseReport(Execution(0, 0, 4, 1), 5, NOTHING)))
  {
    hide GetExecution, FeesFor, ValidatePosition, ApplyFactor;
    ExecutionSucceeds();
    NoFeesDue(DEPOSITED, OPENED, 4, false);
    PositionHealthy();
    FactorFacts(0);
    FactorFacts(4);
    FactorFacts(10);
  }

  const WAITED := INCREASED.(now := 7)
  const ACCRUED := WAITED.(clocks := Clocks(Some(7), Some(7), Some(7)))
  const SWAPPED := ACCRUED.(primary := Pool(12, 8))
  const WITHDRAWN := ACCRUED.(primary := Pool(11, 8), supply := 18)

  lemma FundingSucceeds()
    requires SMAX >= 100
    ensures UpdateFunding(CONFIG, WAITED, ONE).Some?
    ensures UpdateFunding(CONFIG, WAITED, ONE).value.0 == WAITED.(clocks := Clocks(None, None, Some(7)))
  {
  }

  /** Without a borrowing factor the rate is zero, however much is reserved. */
  lemma NoBorrowing(m: Market, isLong: bool)
    requires SMAX >= 100 && 10 <= m.primary.long <= 12 && m.primary.short <= 10
    requires m.openInterest == INCREASED.openInterest && m.openInterestInTokens == INCREASED.openInterestInTokens
    ensures BorrowingRate(CONFIG, m, ONE, isLong) == Some(0)
  {
    hide ApplyExponentFactor, ApplyFactor;
    if isLong {
      SmallPower(4, m.primary.long);
      FactorFacts(DivToFactor(ApplyExponentFactor(4, UNIT, CONFIG.fractionalPow).value, m.primary.long).value);
    }
  }

  lemma SmallPower(value: nat, divisor: nat)
    requires value <= 10 <= divisor && SMAX >= 100
    ensures ApplyExponentFactor(value, UNIT, CONFIG.fractionalPow).Some?
    ensures DivToFactor(ApplyExponentFactor(value, UNIT, CONFIG.fractionalPow).value, divisor).Some?
  {
    var power := ApplyExponentFactor(value, UNIT, CONFIG.fractionalPow).value;
    MulMono(power, divisor, UNIT);
    FloorBelow(UNIT + 1, power * UNIT, divisor);
    FloorGreatest(0, power * UNIT, divisor);
  }

  lemma BorrowingSucceeds(m: Market)
    requires SMAX >= 100 && m == WAITED.(clocks := Clocks(None, None, Some(7)))
    ensures UpdateBorrowing(CONFIG, m, ONE) == Some(m.(clocks := Clocks(None, Some(7), Some(7))))
  {
    hide BorrowingRate;
    NoBorrowing(m.(clocks := Clocks(None, Some(7), Some(7))), true);
    NoBorrowing(m.(clocks := Clocks(None, Some(7), Some(7))), false);
  }

  lemma NoProfit(m: Market, kind: PnlKind, isLong: bool)
    requires SMAX >= 100 && m.primary.long <= 12 && m.primary.short <= 10
    requires m.openInterest == INCREASED.openInterest && m.openInterestInTokens == INCREASED.openInterestInTokens
    ensures Pnl(m, ONE.index, isLong, true) == Some(0) == Pnl(m, ONE.index, isLong, false)
    ensures PnlFactorOk(CONFIG, m, ONE, kind, isLong).Some?
  {
    var poolValue := PoolValueOneSide(m, ONE, isLong, false).value;
    assert UNIT * 0 == 0;
    assert DivToFactorSigned(0, poolValue) == Some(0);
  }

  lemma Reserved(m: Market, isLong: bool)
    requires SMAX >= 100 && 5 <= m.primary.Amount(isLong) <= 12
    requires m.openInterest == INCREASED.openInterest && m.openInterestInTokens == INCREASED.openInterestInTokens
    ensures ValidateReserve(CONFIG, m, ONE, isLong).Some?
  {
    hide ApplyFactor;
    FactorFacts(m.primary.Amount(isLong));
  }

  lemma SwapSucceeds()
    requires SMAX >= 100
    ensures Swap(CONFIG, ACCRUED, true, 2, ONE) == Some((SWAPPED, SwapReport(NO_FEES, 2, 0, 0)))
  {
    hide ImpactOf, FeeParams.ApplyFees, Settle, ValidateSwap;
    NoImpact(SwapDelta(ACCRUED, true, 2, ONE).value);
    FreeOfFees(false, 2);
    SettleSucceeds();
    SwapChecked();
  }

  lemma SwapChecked()
    requires SMAX >= 100
    ensures ValidateSwap(CONFIG, SWAPPED, true, ONE).Some?
  {
    hide ValidateReserve, PnlFactorOk;
    Reserved(SWAPPED, false);
    NoProfit(SWAPPED, MaxAfterDeposit, true);
    NoProfit(SWAPPED, MaxAfterWithdrawal, false);
  }

  lemma SettleSucceeds()
    requires SMAX >= 100
    ensures Settle(ACCRUED, true, ONE, 2, 0) == Some(Settlement(2, 2, 2, 0, EMPTY_POOL))
  {
  }

  lemma WorthTwenty()
    requires SMAX >= 100
    ensures PoolValue(CONFIG, SWAPPED, ONE, MaxAfterWithdrawal, false) == Some(20)
  {
    hide BorrowingFeesForPool, Pnl;
    NoProfit(SWAPPED, MaxAfterWithdrawal, true);
    NoProfit(SWAPPED, MaxAfterWithdrawal, false);
    NothingBorrowed(SWAPPED);
  }

  lemma NothingBorrowed(m: Market)
    requires SMAX >= 100 && 10 <= m.primary.long <= 12 && m.primary.short <= 10 && m.now <= 7
    requires m.openInterest == INCREASED.openInterest && m.openInterestInTokens == INCREASED.openInterestInTokens
    requires m.borrowingFactor == EMPTY_POOL == m.totalBorrowing
    ensures BorrowingFeesForPool(CONFIG, m, ONE) == Some(0)
  {
    hide BorrowingRate, ApplyFactor;
    NoBorrowing(m, true);
    NoBorrowing(m, false);
    FactorFacts(4);
    FactorFacts(0);
    FactorFacts(UNIT);
  }

  lemma OutputsSucceed()
    requires SMAX >= 100
    ensures OutputAmounts(CONFIG, SWAPPED, 2, ONE) == Some((1, 0))
  {
    hide PoolValue;
    WorthTwenty();
  }

  lemma OutSucceeds(cfg: Config, m: Market, isLong: bool, amount: nat)
    requires SMAX >= 100 && cfg.swapFee == FREE && m.fee == EMPTY_POOL
    requires amount <= 100 && amount <= m.primary.Amount(isLong) <= SMAX
    ensures WithdrawOne(cfg, m, isLong, amount)
            == Some((m.(primary := m.primary.With(isLong, m.primary.Amount(isLong) - amount)), NO_FEES, amount))
  {
    hide FeeParams.ApplyFees;
    FreeOfFees(false, amount);
  }

  lemma WithdrawSucceeds()
    requires SMAX >= 100
    ensures Withdraw(CONFIG, SWAPPED, 2, ONE) == Some((WITHDRAWN, WithdrawReport(NO_FEES, NO_FEES, 1, 0)))
  {
    hide OutputAmounts, WithdrawOne, ValidateReserve, PnlFactorOk;
    OutputsSucceed();
    OutSucceeds(CONFIG, SWAPPED, true, 1);
    OutSucceeds(CONFIG, WITHDRAWN.(supply := 20), false, 0);
    var left := WITHDRAWN.(supply := 20);
    Reserved(left, true);
    Reserved(left, false);
    NoProfit(left, MaxAfterWithdrawal, true);
    NoProfit(left, MaxAfterWithdrawal, false);
  }

  function ActionAt(k: nat): Action {
    match k
    case 0 => DoDeposit(10, 10, ONE)
    case 1 => DoOpen(true, true)
    case 2 => DoIncrease(0, PARAMS)
    case 3 => DoTick(7)
    case 4 => DoUpdateFunding(ONE)
    case 5 => DoUpdateBorrowing(ONE)
    case 6 => DoDistribute
    case 7 => DoSwap(true, 2, ONE)
    case _ => DoWithdraw(2, ONE)
  }

  function ActionsTo(k: nat): seq<Action> {
    if k == 0 then [] else ActionsTo(k - 1) + [ActionAt(k - 1)]
  }

  function MarketAt(k: nat): Market {
    match k
    case 0 => EMPTY_MARKET
    case 1 => DEPOSITED
    case 2 => DEPOSITED
    case 3 => INCREASED
    case 4 => WAITED
    case 5 => WAITED.(clocks := Clocks(None, None, Some(7)))
    case 6 => WAITED.(clocks := Clocks(None, Some(7), Some(7)))
    case 7 => ACCRUED
    case 8 => SWAPPED
    case _ => WITHDRAWN
  }

  function PositionsAt(k: nat): seq<Position> {
    if k < 2 then [] else if k == 2 then [OPENED] else [GROWN]
  }

  /** The k-th action takes the k-th market to the next. */
  lemma StepAt(w: World, k: nat)
    requires SMAX >= 100 && k < 9 && w.market == MarketAt(k) && w.positions == PositionsAt(k)
    ensures Step(CONFIG, w, ActionAt(k)).Some?
    ensures Step(CONFIG, w, ActionAt(k)).value.market == MarketAt(k + 1)
    ensures Step(CONFIG, w, ActionAt(k)).value.positions == PositionsAt(k + 1)
  {
    hide Deposit, Withdraw, Swap, Increase, UpdateFunding, UpdateBorrowing, MoveOf, Plus, Claims;
    match k
    case 0 => DepositSucceeds();
    case 2 => IncreaseSucceeds();
    case 4 => FundingSucceeds();
    case 5 => BorrowingSucceeds(MarketAt(5));
    case 7 => SwapSucceeds();
    case 8 => WithdrawSucceeds();
    case _ =>
  }

  /** A run with every kind of action succeeds from the empty market, at any range of numbers that holds a
      hundred. */
  lemma {:induction false} RunSucceeds(k: nat) returns (w: World)
    requires SMAX >= 100 && k <= 9
    ensures Run(CONFIG, EMPTY_WORLD, ActionsTo(k)) == Some(w)
    ensures w.market == MarketAt(k) && w.positions == PositionsAt(k)
  {
    if k == 0 {
      w := EMPTY_WORLD;
    } else {
      hide Step, Run, ActionAt, MarketAt, PositionsAt;
      var previous := RunSucceeds(k - 1);
      StepAt(previous, k - 1);
      RunAppend(CONFIG, EMPTY_WORLD, ActionsTo(k - 1), ActionAt(k - 1));
      w := Step(CONFIG, previous, ActionAt(k - 1)).value;
    }
  }
}
