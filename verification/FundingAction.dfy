/** Updating the funding state (`action/update_funding_state.rs`, `params/fee.rs`). */
module FundingAction {
  import opened Options
  import opened Arith
  import opened Num
  import opened Utils
  import opened Price
  import opened Pool
  import opened Params
  import opened State

  datatype RateChange = NoChange | IncreaseRate | DecreaseRate

  /** How the stored rate reacts to the skew of the open interest. */
  function RateChangeFor(p: FundingParams, rate: int, long: nat, short: nat, skew: nat): RateChange {
    if (rate > 0 && long > short) || (rate < 0 && long < short) then
      if skew > p.thresholdForStable then IncreaseRate
      else if skew < p.thresholdForDecrease then DecreaseRate
      else NoChange
    else IncreaseRate
  }

  /** The imbalance of the open interest as a factor of the total. */
  function Skew(cfg: Config, long: nat, short: nat): Option<nat> {
    var total :- CheckedAdd(long, short);
    var _ :- Ensure(total != 0);
    var power :- ApplyExponentFactor(Diff(long, short), cfg.funding.exponent, cfg.fractionalPow);
    DivToFactor(power, total)
  }

  function IncreasedRate(p: FundingParams, rate: int, long: nat, short: nat, skew: nat, duration: nat): Option<int> {
    var step :- ApplyFactor(skew, p.increasePerSecond);
    var increase :- CheckedMul(step, duration);
    var signed :- ToSignedWithSign(increase, long < short);
    CheckedSigned(rate + signed)
  }

  /** Lower the magnitude of a non-zero rate by `decrease`, stopping at one. */
  function DecreasedRate(rate: int, decrease: nat): Option<int>
    requires rate != 0
  {
    if Abs(rate) <= decrease then
      var magnitude :- ToSigned(Abs(rate));
      Some(TruncDiv(rate, magnitude))
    else ToSignedWithSign(Abs(rate) - decrease, rate < 0)
  }

  /** The stored rate before it is bounded. */
  function UnboundedRate(p: FundingParams, rate: int, long: nat, short: nat, skew: nat, duration: nat): Option<int> {
    match RateChangeFor(p, rate, long, short, skew)
    case IncreaseRate => IncreasedRate(p, rate, long, short, skew, duration)
    case DecreaseRate =>
      if rate == 0 then Some(rate)
      else
        var decrease :- CheckedMul(p.decreasePerSecond, duration);
        DecreasedRate(rate, decrease)
    case NoChange => Some(rate)
  }

  /** What one update decides: the rate in effect, who pays it, and the rate to store. */
  datatype RateDecision = RateDecision(rate: nat, longsPay: bool, stored: int)

  /** Without an increase factor the rate follows the skew and nothing is stored. */
  function FallbackRate(p: FundingParams, long: nat, short: nat, skew: nat): Option<RateDecision> {
    var rate :- ApplyFactor(skew, p.factor);
    Some(RateDecision(if rate > p.maxPerSecond then p.maxPerSecond else rate, long > short, 0))
  }

  function AdaptiveRate(
    p: FundingParams, rate: int, long: nat, short: nat, skew: nat, duration: nat): Option<RateDecision> {
    var seconds :- Checked(duration);
    var unbounded :- UnboundedRate(p, rate, long, short, skew, seconds);
    var stored :- BoundMagnitude(unbounded, 0, p.maxPerSecond);
    var effective :- BoundMagnitude(stored, p.minPerSecond, p.maxPerSecond);
    Some(RateDecision(Abs(effective), effective > 0, stored))
  }

  function NextRate(cfg: Config, rate: int, long: nat, short: nat, duration: nat): Option<RateDecision> {
    if long == short && cfg.funding.increasePerSecond == 0 then Some(RateDecision(0, true, 0))
    else
      var skew :- Skew(cfg, long, short);
      if cfg.funding.increasePerSecond == 0 then FallbackRate(cfg.funding, long, short, skew)
      else AdaptiveRate(cfg.funding, rate, long, short, skew, duration)
  }

  /** Funding value due from the payers of each collateral token, and the rate to store. */
  datatype FundingPlan = FundingPlan(longsPay: bool, forLong: nat, forShort: nat, stored: int) {
    function For(isLongCollateral: bool): nat {
      if isLongCollateral then forLong else forShort
    }
  }

  const NO_FUNDING := FundingPlan(true, 0, 0, 0)

  function PlanFunding(cfg: Config, m: Market, duration: nat): Option<FundingPlan> {
    var interest :- m.openInterest.Merge();
    if interest.long == 0 || interest.short == 0 then Some(NO_FUNDING)
    else
      var next :- NextRate(cfg, m.fundingRate, interest.long, interest.short, duration);
      var seconds :- Checked(duration);
      var factor :- CheckedMul(seconds, next.rate);
      var value :- ApplyFactor(Max(interest.long, interest.short), factor);
      var payers := interest.Amount(next.longsPay);
      var forLong :- MulDiv(value, m.openInterest.Side(next.longsPay).long, payers);
      var forShort :- MulDiv(value, m.openInterest.Side(next.longsPay).short, payers);
      Some(FundingPlan(next.longsPay, forLong, forShort, next.stored))
  }

  /** A funding value as an amount of tokens per unit of size. */
  function PackPerSize(adjustment: nat, value: nat, interest: nat, price: nat, roundUp: bool): Option<nat> {
    if value == 0 || interest == 0 then Some(0)
    else
      var numerator :- CheckedMul(adjustment, UNIT);
      if roundUp then
        var perSize :- MulDivCeil(value, numerator, interest);
        RoundUpDiv(perSize, price)
      else
        var perSize :- MulDiv(value, numerator, interest);
        CheckedDiv(perSize, price)
  }

  /** The tokens a position of the given size owes or may claim since its checkpoint. */
  function UnpackAmount(adjustment: nat, latest: nat, checkpoint: nat, size: nat, roundUp: bool): Option<nat> {
    var diff :- CheckedSub(latest, checkpoint);
    var divisor :- CheckedMul(adjustment, UNIT);
    if roundUp then MulDivCeil(size, diff, divisor) else MulDiv(size, diff, divisor)
  }

  datatype FundingReport = FundingReport(duration: nat, nextRate: int, deltaFunding: PoolPair, deltaClaimable: PoolPair)

  function PayerDelta(cfg: Config, m: Market, prices: Prices, plan: FundingPlan, isLongCollateral: bool): Option<nat> {
    PackPerSize(cfg.fundingAdjustment, plan.For(isLongCollateral),
                m.openInterest.Side(plan.longsPay).Amount(isLongCollateral),
                prices.Collateral(isLongCollateral).PickPrice(true), true)
  }

  function ReceiverDelta(
    cfg: Config, m: Market, prices: Prices, plan: FundingPlan, isLongCollateral: bool): Option<nat> {
    PackPerSize(cfg.fundingAdjustment, plan.For(isLongCollateral), m.openInterest.Side(!plan.longsPay).Sum(),
                prices.Collateral(isLongCollateral).PickPrice(true), false)
  }

  /** Growth of the per-size amounts: the payers' funding and the receivers' claims. */
  function FundingDeltas(
    cfg: Config, m: Market, prices: Prices, plan: FundingPlan, duration: nat): Option<FundingReport> {
    var payerLong :- PayerDelta(cfg, m, prices, plan, true);
    var receiverLong :- ReceiverDelta(cfg, m, prices, plan, true);
    var payerShort :- PayerDelta(cfg, m, prices, plan, false);
    var receiverShort :- ReceiverDelta(cfg, m, prices, plan, false);
    Some(FundingReport(
           duration, plan.stored,
           EMPTY_PAIR.WithSide(plan.longsPay, Pool(payerLong, payerShort)),
           EMPTY_PAIR.WithSide(!plan.longsPay, Pool(receiverLong, receiverShort))))
  }

  /** Add to every amount of a pair of pools. */
  function GrowPair(pair: PoolPair, delta: PoolPair): Option<PoolPair> {
    var forLong :- GrowPool(pair.forLong, delta.forLong);
    var forShort :- GrowPool(pair.forShort, delta.forShort);
    Some(PoolPair(forLong, forShort))
  }

  function GrowPool(pool: Pool, delta: Pool): Option<Pool> {
    var long :- ToSigned(delta.long);
    var short :- ToSigned(delta.short);
    pool.ApplyBoth(true, long, short)
  }

  function UpdateFunding(cfg: Config, m: Market, prices: Prices): Option<(Market, FundingReport)> {
    var _ :- Ensure(prices.IsValid());
    var duration := Passed(m.now, m.clocks.funding);
    var plan :- PlanFunding(cfg, m, duration);
    var report :- FundingDeltas(cfg, m, prices, plan, duration);
    var funding :- GrowPair(m.fundingPerSize, report.deltaFunding);
    var claimable :- GrowPair(m.claimablePerSize, report.deltaClaimable);
    Some((m.(fundingPerSize := funding, claimablePerSize := claimable, fundingRate := report.nextRate,
             clocks := m.clocks.(funding := Some(m.now))), report))
  }

  lemma GrowPairExact(pair: PoolPair, delta: PoolPair, isLong: bool, isLongCollateral: bool)
    requires GrowPair(pair, delta).Some?
    ensures GrowPair(pair, delta).value.Side(isLong).Amount(isLongCollateral)
            == pair.Side(isLong).Amount(isLongCollateral) + delta.Side(isLong).Amount(isLongCollateral)
  {
  }

  lemma CeilDivBounds(x: nat, price: nat)
    requires RoundUpDiv(x, price).Some?
    ensures price > 0 && x <= RoundUpDiv(x, price).value * price < x + price
  {
    CeilBounds(x, price);
  }

  /** The payers' amount per size, times their interest, covers the funding value, by less than one
      unit of size per unit of price beyond it. */
  lemma PackUpBounds(adjustment: nat, value: nat, interest: nat, price: nat)
    requires PackPerSize(adjustment, value, interest, price, true).Some?
    requires value != 0 && interest != 0
    ensures var perSize := PackPerSize(adjustment, value, interest, price, true).value;
            && price > 0
            && value * (adjustment * UNIT) <= perSize * price * interest
            && perSize * price * interest < value * (adjustment * UNIT) + price * interest
  {
    hide MulDivCeil, RoundUpDiv;
    var numerator := adjustment * UNIT;
    var perSize := MulDivCeil(value, numerator, interest).value;
    MulDivCeilBounds(value, numerator, interest);
    CeilDivBounds(perSize, price);
    var packed := RoundUpDiv(perSize, price).value;
    NestedCeil(value * numerator, interest, price, perSize, packed);
  }

  /** Rounding up twice is rounding up once. */
  lemma NestedCeil(n: nat, a: nat, b: nat, inner: nat, outer: nat)
    requires a > 0 && b > 0
    requires inner * a - a < n <= inner * a
    requires inner <= outer * b < inner + b
    ensures n <= outer * b * a < n + b * a
  {
    MulMono(inner, outer * b, a);
    MulMono(outer * b, inner + b - 1, a);
    assert (inner + b - 1) * a == inner * a + b * a - a;
  }

  /** The receivers' amount per size, times their interest, never exceeds the funding value. */
  lemma PackDownBounds(adjustment: nat, value: nat, interest: nat, price: nat)
    requires PackPerSize(adjustment, value, interest, price, false).Some?
    requires value != 0 && interest != 0
    ensures var perSize := PackPerSize(adjustment, value, interest, price, false).value;
            && price > 0
            && perSize * price * interest <= value * (adjustment * UNIT)
            && value * (adjustment * UNIT) < perSize * price * interest + price * interest
  {
    hide MulDiv;
    var numerator := adjustment * UNIT;
    var perSize := MulDiv(value, numerator, interest).value;
    MulDivBounds(value, numerator, interest);
    FloorBounds(perSize, price);
    NestedFloor(value * numerator, interest, price, perSize, perSize / price);
  }

  lemma NestedFloor(n: nat, a: nat, b: nat, inner: nat, outer: nat)
    requires a > 0 && b > 0
    requires inner * a <= n < inner * a + a
    requires outer * b <= inner < outer * b + b
    ensures outer * b * a <= n < outer * b * a + b * a
  {
    MulMono(outer * b, inner, a);
    MulMono(inner, outer * b + b - 1, a);
    assert (outer * b + b - 1) * a == outer * b * a + b * a - a;
  }

  /** No interest, no funding value: the funding value of a collateral nobody pays in is zero. */
  lemma NoPayersNoValue(cfg: Config, m: Market, duration: nat, isLongCollateral: bool)
    requires PlanFunding(cfg, m, duration).Some?
    requires m.openInterest.Side(PlanFunding(cfg, m, duration).value.longsPay).Amount(isLongCollateral) == 0
    ensures PlanFunding(cfg, m, duration).value.For(isLongCollateral) == 0
  {
    hide NextRate, MulDiv, ApplyFactor, CheckedMul, PoolPair.Merge;
    NothingOfAny();
  }

  lemma NothingOfAny()
    ensures forall x: nat, d: nat :: MulDiv(x, 0, d).Some? ==> MulDiv(x, 0, d).value == 0
  {
    forall x: nat, d: nat | MulDiv(x, 0, d).Some? ensures MulDiv(x, 0, d).value == 0 {
      assert x * 0 == 0;
    }
  }

  /** For each collateral token, what the payers are charged over all of their interest covers what
      the receivers may claim over all of theirs. */
  lemma DeltasBacked(cfg: Config, m: Market, prices: Prices, plan: FundingPlan, isLongCollateral: bool)
    requires PayerDelta(cfg, m, prices, plan, isLongCollateral).Some?
    requires ReceiverDelta(cfg, m, prices, plan, isLongCollateral).Some?
    requires m.openInterest.Side(plan.longsPay).Amount(isLongCollateral) == 0 ==> plan.For(isLongCollateral) == 0
    ensures m.openInterest.Side(plan.longsPay).Amount(isLongCollateral)
              * PayerDelta(cfg, m, prices, plan, isLongCollateral).value
            >= m.openInterest.Side(!plan.longsPay).Sum() * ReceiverDelta(cfg, m, prices, plan, isLongCollateral).value
  {
    hide PackPerSize;
    PackedBacked(cfg.fundingAdjustment, plan.For(isLongCollateral),
                 m.openInterest.Side(plan.longsPay).Amount(isLongCollateral),
                 m.openInterest.Side(!plan.longsPay).Sum(), prices.Collateral(isLongCollateral).max);
  }

  lemma PackedBacked(adjustment: nat, value: nat, paying: nat, receiving: nat, price: nat)
    requires PackPerSize(adjustment, value, paying, price, true).Some?
    requires PackPerSize(adjustment, value, receiving, price, false).Some?
    requires paying == 0 ==> value == 0
    ensures paying * PackPerSize(adjustment, value, paying, price, true).value
            >= receiving * PackPerSize(adjustment, value, receiving, price, false).value
  {
    hide PackPerSize;
    var up := PackPerSize(adjustment, value, paying, price, true).value;
    if value == 0 || receiving == 0 {
      PackZero(adjustment, value, receiving, price, false);
      MulNonNeg(paying, up);
    } else {
      PackUpBounds(adjustment, value, paying, price);
      PackDownBounds(adjustment, value, receiving, price);
      var down := PackPerSize(adjustment, value, receiving, price, false).value;
      Covers(paying, up, receiving, down, price, value * (adjustment * UNIT));
    }
  }

  lemma Covers(paying: nat, up: nat, receiving: nat, down: nat, price: nat, n: nat)
    requires price > 0
    requires down * price * receiving <= n <= up * price * paying
    ensures receiving * down <= paying * up
  {
    assert paying * up * price == up * price * paying;
    assert receiving * down * price == down * price * receiving;
    MulCancel(receiving * down, paying * up, price);
  }

  lemma PackZero(adjustment: nat, value: nat, interest: nat, price: nat, roundUp: bool)
    ensures value == 0 || interest == 0 ==> PackPerSize(adjustment, value, interest, price, roundUp) == Some(0)
  {
  }

  /** What one update adds to the amounts per size, weighted by all the interest they apply to: the
      payers' total for a collateral token, and the receivers' total. */
  function ChargedPerUpdate(m: Market, delta: PoolPair, isLongCollateral: bool): int {
    m.openInterest.forLong.Amount(isLongCollateral) * delta.forLong.Amount(isLongCollateral)
    + m.openInterest.forShort.Amount(isLongCollateral) * delta.forShort.Amount(isLongCollateral)
  }

  function ClaimablePerUpdate(m: Market, delta: PoolPair, isLongCollateral: bool): int {
    m.openInterest.forLong.Sum() * delta.forLong.Amount(isLongCollateral)
    + m.openInterest.forShort.Sum() * delta.forShort.Amount(isLongCollateral)
  }

  /** Every funding update charges at least what it lets the other side claim, in each token. */
  lemma UpdateBacked(cfg: Config, m: Market, prices: Prices, isLongCollateral: bool)
    requires UpdateFunding(cfg, m, prices).Some?
    ensures var (_, report) := UpdateFunding(cfg, m, prices).value;
            ChargedPerUpdate(m, report.deltaFunding, isLongCollateral)
            >= ClaimablePerUpdate(m, report.deltaClaimable, isLongCollateral)
  {
    hide PlanFunding, PayerDelta, ReceiverDelta, GrowPair;
    var duration := Passed(m.now, m.clocks.funding);
    var plan := PlanFunding(cfg, m, duration).value;
    if m.openInterest.Side(plan.longsPay).Amount(isLongCollateral) == 0 {
      NoPayersNoValue(cfg, m, duration, isLongCollateral);
    }
    DeltasBacked(cfg, m, prices, plan, isLongCollateral);
  }

  /** A funding update changes the per-size amounts, the stored rate and its clock, nothing else. */
  lemma UpdateFundingFrame(cfg: Config, m: Market, prices: Prices)
    requires UpdateFunding(cfg, m, prices).Some?
    ensures var (next, report) := UpdateFunding(cfg, m, prices).value;
            && next == m.(fundingPerSize := next.fundingPerSize, claimablePerSize := next.claimablePerSize,
                          fundingRate := report.nextRate, clocks := m.clocks.(funding := Some(m.now)))
            && GrowPair(m.fundingPerSize, report.deltaFunding) == Some(next.fundingPerSize)
            && GrowPair(m.claimablePerSize, report.deltaClaimable) == Some(next.claimablePerSize)
  {
    hide PlanFunding, FundingDeltas, GrowPair;
  }

  /** The stored rate never exceeds the maximum in magnitude, whatever the update decides. */
  lemma StoredRateBounded(cfg: Config, m: Market, prices: Prices)
    requires UpdateFunding(cfg, m, prices).Some?
    ensures Abs(UpdateFunding(cfg, m, prices).value.0.fundingRate) <= cfg.funding.maxPerSecond
  {
    hide PayerDelta, ReceiverDelta, GrowPair, NextRate, MulDiv, ApplyFactor, CheckedMul;
    var interest := m.openInterest.Merge().value;
    var duration := Passed(m.now, m.clocks.funding);
    if interest.long != 0 && interest.short != 0 {
      NextRateBounded(cfg, m.fundingRate, interest.long, interest.short, duration);
    }
  }

  /** Both the stored rate and the rate in effect stay within the configured limits; in adaptive mode
      the rate in effect also stays above the minimum, and agrees with the stored rate in direction. */
  lemma NextRateBounded(cfg: Config, rate: int, long: nat, short: nat, duration: nat)
    requires NextRate(cfg, rate, long, short, duration).Some?
    ensures var d := NextRate(cfg, rate, long, short, duration).value;
            && Abs(d.stored) <= cfg.funding.maxPerSecond
            && d.rate <= cfg.funding.maxPerSecond
            && (cfg.funding.increasePerSecond != 0 ==>
                  && cfg.funding.minPerSecond <= d.rate
                  && (d.stored != 0 ==> d.longsPay == (d.stored > 0))
                  && (Abs(d.stored) >= cfg.funding.minPerSecond ==> d.rate == Abs(d.stored)))
  {
    hide Skew, UnboundedRate, ApplyFactor;
  }

  /** One Decrease step: the sign stays, the magnitude falls by `decrease` but not below one. */
  lemma DecreasedRateExact(rate: int, decrease: nat)
    requires rate != 0 && DecreasedRate(rate, decrease).Some?
    ensures var next := DecreasedRate(rate, decrease).value;
            && Abs(next) == Max(1, Abs(rate) - decrease)
            && (next > 0 <==> rate > 0)
            && Abs(next) <= Abs(rate)
  {
    if Abs(rate) <= decrease {
      assert Abs(rate) / Abs(rate) == 1;
    }
  }
}
