/** Updating the funding state of the market object in place: the report's arrays are filled by a loop
    over the collateral tokens and applied by a loop over all four combinations. */
module LiveFunding {
  import opened Options
  import opened Num
  import opened Utils
  import opened Price
  import opened Pool
  import opened Params
  import opened State
  import opened FundingAction
  import opened LiveMarket

  const MATRIX := [(true, true), (true, false), (false, true), (false, false)]

  function FlagsToIndex(isLong: bool, isLongCollateral: bool): nat {
    if isLongCollateral then if isLong then 0 else 1 else if isLong then 2 else 3
  }

  /** The pair of pools that an array of four amounts stands for. */
  function FromFlags(amounts: seq<nat>): (pair: PoolPair)
    requires |amounts| == 4
    ensures forall isLong, t :: pair.Side(isLong).Amount(t) == amounts[FlagsToIndex(isLong, t)]
  {
    PoolPair(Pool(amounts[0], amounts[2]), Pool(amounts[1], amounts[3]))
  }

  class UpdateFundingReport {
    const duration: nat
    var nextRate: int
    const deltaFunding: array<nat>
    const deltaClaimable: array<nat>

    ghost predicate Valid()
      reads this, deltaFunding, deltaClaimable
    {
      deltaFunding.Length == deltaClaimable.Length == 4 && deltaFunding != deltaClaimable
    }

    function View(): FundingReport
      requires Valid()
      reads this, deltaFunding, deltaClaimable
    {
      FundingReport(duration, nextRate, FromFlags(deltaFunding[..]), FromFlags(deltaClaimable[..]))
    }

    constructor Empty(duration: nat)
      ensures Valid() && fresh(deltaFunding) && fresh(deltaClaimable)
      ensures View() == FundingReport(duration, 0, EMPTY_PAIR, EMPTY_PAIR)
    {
      this.duration := duration;
      nextRate := 0;
      deltaFunding := new nat[4](_ => 0);
      deltaClaimable := new nat[4](_ => 0);
    }
  }

  /** The deltas set after `n` collateral tokens. */
  function DeltasAfter(
    cfg: Config, m: Market, prices: Prices, plan: FundingPlan, n: nat, isLong: bool, t: bool, paid: bool): nat
    requires forall i :: 0 <= i < n <= 2 ==>
               && PayerDelta(cfg, m, prices, plan, COLLATERALS[i]).Some?
               && ReceiverDelta(cfg, m, prices, plan, COLLATERALS[i]).Some?
    requires n <= 2
  {
    if (paid && isLong != plan.longsPay) || (!paid && isLong == plan.longsPay) || (if t then n < 1 else n < 2) then 0
    else
      assert t == COLLATERALS[if t then 0 else 1];
      if paid then PayerDelta(cfg, m, prices, plan, t).value
      else ReceiverDelta(cfg, m, prices, plan, t).value
  }

  /** Fill in the deltas of payers and receivers, one collateral token after the other. */
  method SetDeltas(
    market: TestMarket, prices: Prices, report: UpdateFundingReport, plan: FundingPlan) returns (r: Option<()>)
    requires report.Valid()
    requires FromFlags(report.deltaFunding[..]) == EMPTY_PAIR == FromFlags(report.deltaClaimable[..])
    requires report.nextRate == plan.stored
    modifies report.deltaFunding, report.deltaClaimable
    ensures var spec := FundingDeltas(market.cfg, market.View(), prices, plan, report.duration);
            (r.Some? <==> spec.Some?) && (r.Some? ==> report.View() == spec.value)
  {
    hide PackPerSize;
    var cfg := market.cfg;
    ghost var m := market.View();
    for i := 0 to |COLLATERALS|
      invariant forall k :: 0 <= k < i ==>
                  PayerDelta(cfg, m, prices, plan, COLLATERALS[k]).Some?
                  && ReceiverDelta(cfg, m, prices, plan, COLLATERALS[k]).Some?
      invariant forall isLong, t ::
                  report.deltaFunding[FlagsToIndex(isLong, t)] == DeltasAfter(cfg, m, prices, plan, i, isLong, t, true)
      invariant forall isLong, t ::
                  report.deltaClaimable[FlagsToIndex(isLong, t)]
                  == DeltasAfter(cfg, m, prices, plan, i, isLong, t, false)
    {
      var t := COLLATERALS[i];
      var payer, receiver := FlagsToIndex(plan.longsPay, t), FlagsToIndex(!plan.longsPay, t);
      var price := prices.Collateral(t).PickPrice(true);
      var funding :- PackPerSize(cfg.fundingAdjustment, plan.For(t),
                                 market.openInterest.Side(plan.longsPay).Amount(t), price, true);
      report.deltaFunding[payer] := funding;
      var claimable :- PackPerSize(cfg.fundingAdjustment, plan.For(t),
                                   market.openInterest.Side(!plan.longsPay).Sum(), price, false);
      report.deltaClaimable[receiver] := claimable;
    }
    assert COLLATERALS[0] && !COLLATERALS[1];
    SamePair(FromFlags(report.deltaFunding[..]),
             FundingDeltas(cfg, m, prices, plan, report.duration).value.deltaFunding);
    SamePair(FromFlags(report.deltaClaimable[..]),
             FundingDeltas(cfg, m, prices, plan, report.duration).value.deltaClaimable);
    return Some(());
  }

  lemma SamePair(a: PoolPair, b: PoolPair)
    requires forall isLong, t :: a.Side(isLong).Amount(t) == b.Side(isLong).Amount(t)
    ensures a == b
  {
    assert a.Side(true).Amount(true) == b.Side(true).Amount(true);
    assert a.Side(true).Amount(false) == b.Side(true).Amount(false);
    assert a.Side(false).Amount(true) == b.Side(false).Amount(true);
    assert a.Side(false).Amount(false) == b.Side(false).Amount(false);
  }

  /** The first `n` of the four combinations added to a pair of pools. */
  function GrowSteps(pair: PoolPair, delta: PoolPair, n: nat): Option<PoolPair>
    requires n <= 4
  {
    if n == 0 then Some(pair)
    else
      var (isLong, t) := MATRIX[n - 1];
      var previous :- GrowSteps(pair, delta, n - 1);
      var amount :- ToSigned(delta.Side(isLong).Amount(t));
      previous.ApplyDelta(isLong, t, amount)
  }

  lemma {:induction false} GrowStepsNoneStays(pair: PoolPair, delta: PoolPair, k: nat, n: nat)
    requires k <= n <= 4 && GrowSteps(pair, delta, k).None?
    ensures GrowSteps(pair, delta, n).None?
  {
    if k < n {
      GrowStepsNoneStays(pair, delta, k, n - 1);
    }
  }

  /** The loop over the four combinations adds to every amount of both pools. */
  lemma GrowStepsIsGrowPair(pair: PoolPair, delta: PoolPair)
    ensures GrowSteps(pair, delta, 4) == GrowPair(pair, delta)
  {
    var zero := GrowSteps(pair, delta, 0);
    var one := GrowSteps(pair, delta, 1);
    var two := GrowSteps(pair, delta, 2);
    var three := GrowSteps(pair, delta, 3);
    assert zero == Some(pair);
    if GrowPool(pair.forLong, delta.forLong).Some? {
      assert two == Some(pair.(forLong := GrowPool(pair.forLong, delta.forLong).value));
    } else {
      assert two == None;
      GrowStepsNoneStays(pair, delta, 2, 4);
    }
  }

  /** With open interest missing on a side nothing is due, and all deltas are zero. */
  lemma NoInterestNoDeltas(cfg: Config, m: Market, prices: Prices, duration: nat)
    requires m.openInterest.Merge().Some?
    requires m.openInterest.Merge().value.long == 0 || m.openInterest.Merge().value.short == 0
    ensures PlanFunding(cfg, m, duration) == Some(NO_FUNDING)
    ensures FundingDeltas(cfg, m, prices, NO_FUNDING, duration)
            == Some(FundingReport(duration, 0, EMPTY_PAIR, EMPTY_PAIR))
  {
  }

  /** What an update does to the amounts per size, before it is applied. */
  method NextFundingAmountPerSize(
    market: TestMarket, prices: Prices, duration: nat) returns (r: Option<UpdateFundingReport>)
    ensures var plan := PlanFunding(market.cfg, market.View(), duration);
            && (r.Some? <==> plan.Some? && FundingDeltas(market.cfg, market.View(), prices, plan.value, duration).Some?)
            && (r.Some? ==> fresh(r.value) && r.value.Valid()
                            && FundingDeltas(market.cfg, market.View(), prices, plan.value, duration)
                               == Some(r.value.View()))
  {
    hide PayerDelta, ReceiverDelta, NextRate;
    var report := new UpdateFundingReport.Empty(duration);
    var interest :- market.openInterest.Merge();
    if interest.long == 0 || interest.short == 0 {
      NoInterestNoDeltas(market.cfg, market.View(), prices, duration);
      return Some(report);
    }
    var plan :- PlanFunding(market.cfg, market.View(), duration);
    report.nextRate := plan.stored;
    var _ :- SetDeltas(market, prices, report, plan);
    return Some(report);
  }

  /** Add all the deltas of a report to the market, combination by combination. */
  method ApplyDeltas(market: TestMarket, report: UpdateFundingReport) returns (r: Option<()>)
    requires report.Valid()
    modifies market`fundingPerSize, market`claimablePerSize
    ensures var funding := GrowPair(old(market.fundingPerSize), report.View().deltaFunding);
            var claimable := GrowPair(old(market.claimablePerSize), report.View().deltaClaimable);
            && (r.Some? <==> funding.Some? && claimable.Some?)
            && (r.Some? ==>
                  market.View()
                  == old(market.View()).(fundingPerSize := funding.value, claimablePerSize := claimable.value))
  {
    hide GrowPair;
    ghost var before, view := market.View(), report.View();
    ghost var funding, claimable := view.deltaFunding, view.deltaClaimable;
    GrowStepsIsGrowPair(before.fundingPerSize, funding);
    GrowStepsIsGrowPair(before.claimablePerSize, claimable);
    for i := 0 to |MATRIX|
      invariant report.View() == view
      invariant GrowSteps(before.fundingPerSize, funding, i) == Some(market.fundingPerSize)
      invariant GrowSteps(before.claimablePerSize, claimable, i) == Some(market.claimablePerSize)
      invariant market.View()
               == before.(fundingPerSize := market.fundingPerSize, claimablePerSize := market.claimablePerSize)
    {
      var (isLong, t) := MATRIX[i];
      if GrowSteps(before.fundingPerSize, funding, i + 1).None? {
        GrowStepsNoneStays(before.fundingPerSize, funding, i + 1, 4);
      }
      if GrowSteps(before.claimablePerSize, claimable, i + 1).None? {
        GrowStepsNoneStays(before.claimablePerSize, claimable, i + 1, 4);
      }
      var charged :- ToSigned(report.deltaFunding[FlagsToIndex(isLong, t)]);
      var grown :- market.fundingPerSize.ApplyDelta(isLong, t, charged);
      market.fundingPerSize := grown;
      var claimed :- ToSigned(report.deltaClaimable[FlagsToIndex(isLong, t)]);
      var grownClaimable :- market.claimablePerSize.ApplyDelta(isLong, t, claimed);
      market.claimablePerSize := grownClaimable;
    }
    return Some(());
  }

  /** Update the funding state: reset the clock, add all deltas and store the next rate. */
  method UpdateFundingIn(market: TestMarket, prices: Prices) returns (r: Option<UpdateFundingReport>)
    modifies market`fundingPerSize, market`claimablePerSize, market`fundingRate, market`clocks
    ensures var spec := UpdateFunding(market.cfg, old(market.View()), prices);
            && (r.Some? <==> spec.Some?)
            && (r.Some? ==> r.value.Valid() && (market.View(), r.value.View()) == spec.value)
  {
    hide PlanFunding, FundingDeltas, GrowPair, Prices.IsValid, FromFlags;
    if !prices.IsValid() {
      return None;
    }
    ghost var before := market.View();
    var duration := market.JustPassedForFunding();
    PlanFrame(market.cfg, before, market.View(), prices, duration);
    var report :- NextFundingAmountPerSize(market, prices, duration);
    var _ :- ApplyDeltas(market, report);
    market.fundingRate := report.nextRate;
    return Some(report);
  }

  /** Planning does not read the clocks. */
  lemma PlanFrame(cfg: Config, a: Market, b: Market, prices: Prices, duration: nat)
    requires b == a.(clocks := b.clocks)
    ensures PlanFunding(cfg, a, duration) == PlanFunding(cfg, b, duration)
    ensures var plan := PlanFunding(cfg, a, duration);
            plan.Some? ==>
              FundingDeltas(cfg, a, prices, plan.value, duration) == FundingDeltas(cfg, b, prices, plan.value, duration)
  {
    hide NextRate, MulDiv, ApplyFactor, CheckedMul, PackPerSize;
  }
}
