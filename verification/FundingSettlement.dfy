/** One funding update followed by everyone settling: the nested roundings of packing per size and
    unpacking per position stay within one unit of size and one token per position. */
module FundingSettlement {
  import opened Options
  import opened Arith
  import opened Num
  import opened Price
  import opened Pool
  import opened Params
  import opened State
  import opened FundingAction
  import opened PositionState
  import opened IncreaseEffects
  import opened Invariants
  import opened Solvency
  import Sums

  /** Whether a position pays, on side `isLong`, in token `t`. */
  predicate PaysIn(p: Position, isLong: bool, t: bool) {
    p.isLong == isLong && p.isCollateralLong == t
  }

  function CountIn(isLong: bool, t: bool): Sums.Weight {
    (p: Position) => When(p.isLong == isLong && p.isCollateralLong == t, 1)
  }

  function CountSide(isLong: bool): Sums.Weight {
    (p: Position) => When(p.isLong == isLong, 1)
  }

  /** Funding fees that the positions of one side and collateral would pay now. */
  function DueOn(cfg: Config, m: Market, isLong: bool, t: bool): Sums.Weight {
    (p: Position) => When(PaysIn(p, isLong, t), DueOf(cfg, m, p))
  }

  /** Tokens `t` that the positions of one side would claim now. */
  function ClaimOn(cfg: Config, m: Market, isLong: bool, t: bool): Sums.Weight {
    (p: Position) => When(p.isLong == isLong, ClaimOf(cfg, m, p, t))
  }

  /** A position of the paying side that had settled before an update which raised the per-size amount
      by `delta`, and can pay. */
  predicate PayerSettled(cfg: Config, m: Market, p: Position, isLong: bool, t: bool, delta: nat) {
    PaysIn(p, isLong, t) ==>
      && p.fundingPerSize + delta == m.fundingPerSize.Side(isLong).Amount(t)
      && PendingFundingFee(cfg, m, p).Some?
  }

  predicate ReceiverSettled(cfg: Config, m: Market, p: Position, isLong: bool, t: bool, delta: nat) {
    p.isLong == isLong ==>
      && p.claimablePerSize.Amount(t) + delta == m.claimablePerSize.Side(isLong).Amount(t)
      && PendingClaim(cfg, m, p, t).Some?
  }

  /** Tokens for n positions with the given total size differ from its exact share only by rounding:
      by at least `low` and at most `high` for each, scaled up. */
  predicate Within(scale: int, tokens: int, sizes: int, delta: int, n: int, low: int, high: int) {
    sizes * delta + n * low <= scale * tokens <= sizes * delta + n * high
  }

  lemma DueOfOne(cfg: Config, m: Market, p: Position, isLong: bool, t: bool, delta: nat)
    requires PayerSettled(cfg, m, p, isLong, t, delta) && PaysIn(p, isLong, t)
    ensures Within(Scale(cfg), DueOn(cfg, m, isLong, t)(p), p.sizeUsd, delta, 1, 0, Scale(cfg) - 1)
  {
    hide MulDivCeil;
    assert PendingFundingFee(cfg, m, p) == MulDivCeil(p.sizeUsd, delta, Scale(cfg));
    MulDivCeilBounds(p.sizeUsd, delta, Scale(cfg));
    DueOnIs(cfg, m, p, isLong, t);
  }

  lemma DueOnIs(cfg: Config, m: Market, p: Position, isLong: bool, t: bool)
    requires PaysIn(p, isLong, t) && PendingFundingFee(cfg, m, p).Some?
    ensures DueOn(cfg, m, isLong, t)(p) == PendingFundingFee(cfg, m, p).value
  {
    hide PendingFundingFee;
  }

  lemma ClaimOfOne(cfg: Config, m: Market, p: Position, isLong: bool, t: bool, delta: nat)
    requires ReceiverSettled(cfg, m, p, isLong, t, delta) && p.isLong == isLong
    ensures Within(Scale(cfg), ClaimOn(cfg, m, isLong, t)(p), p.sizeUsd, delta, 1, 1 - Scale(cfg), 0)
  {
    hide MulDiv;
    assert PendingClaim(cfg, m, p, t) == MulDiv(p.sizeUsd, delta, Scale(cfg));
    MulDivBounds(p.sizeUsd, delta, Scale(cfg));
    ClaimOnIs(cfg, m, p, isLong, t);
  }

  lemma ClaimOnIs(cfg: Config, m: Market, p: Position, isLong: bool, t: bool)
    requires p.isLong == isLong && PendingClaim(cfg, m, p, t).Some?
    ensures ClaimOn(cfg, m, isLong, t)(p) == PendingClaim(cfg, m, p, t).value
  {
    hide PendingClaim;
  }

  lemma WithinAdds(scale: int, x: int, total: int, size: int, sizes: int, delta: int, n: int, low: int, high: int)
    requires Within(scale, x, size, delta, 1, low, high) && Within(scale, total, sizes, delta, n, low, high)
    ensures Within(scale, x + total, size + sizes, delta, 1 + n, low, high)
  {
    assert (size + sizes) * delta == size * delta + sizes * delta;
    assert scale * (x + total) == scale * x + scale * total;
    assert (1 + n) * low == low + n * low && (1 + n) * high == high + n * high;
  }

  lemma {:induction false} SumOfDue(cfg: Config, m: Market, ps: seq<Position>, isLong: bool, t: bool, delta: nat)
    requires forall p <- ps :: PayerSettled(cfg, m, p, isLong, t, delta)
    ensures Within(Scale(cfg), Sums.Sum(ps, DueOn(cfg, m, isLong, t)), Sums.Sum(ps, SizeIn(isLong, t)), delta,
                   Sums.Sum(ps, CountIn(isLong, t)), 0, Scale(cfg) - 1)
  {
    if ps != [] {
      hide Scale, DueOf, PayerSettled, Within;
      SumOfDue(cfg, m, ps[1..], isLong, t, delta);
      assert PayerSettled(cfg, m, ps[0], isLong, t, delta);
      if PaysIn(ps[0], isLong, t) {
        DueOfOne(cfg, m, ps[0], isLong, t, delta);
        WithinAdds(Scale(cfg), DueOn(cfg, m, isLong, t)(ps[0]), Sums.Sum(ps[1..], DueOn(cfg, m, isLong, t)),
                   ps[0].sizeUsd, Sums.Sum(ps[1..], SizeIn(isLong, t)), delta,
                   Sums.Sum(ps[1..], CountIn(isLong, t)), 0, Scale(cfg) - 1);
      }
    }
  }

  lemma {:induction false} SumOfClaims(cfg: Config, m: Market, ps: seq<Position>, isLong: bool, t: bool, delta: nat)
    requires forall p <- ps :: ReceiverSettled(cfg, m, p, isLong, t, delta)
    ensures Within(Scale(cfg), Sums.Sum(ps, ClaimOn(cfg, m, isLong, t)), Sums.Sum(ps, SideSize(isLong)), delta,
                   Sums.Sum(ps, CountSide(isLong)), 1 - Scale(cfg), 0)
  {
    if ps != [] {
      hide Scale, ClaimOf, ReceiverSettled, Within;
      SumOfClaims(cfg, m, ps[1..], isLong, t, delta);
      assert ReceiverSettled(cfg, m, ps[0], isLong, t, delta);
      if ps[0].isLong == isLong {
        ClaimOfOne(cfg, m, ps[0], isLong, t, delta);
        WithinAdds(Scale(cfg), ClaimOn(cfg, m, isLong, t)(ps[0]), Sums.Sum(ps[1..], ClaimOn(cfg, m, isLong, t)),
                   ps[0].sizeUsd, Sums.Sum(ps[1..], SideSize(isLong)), delta,
                   Sums.Sum(ps[1..], CountSide(isLong)), 1 - Scale(cfg), 0);
      }
    }
  }

  /** What one update plans for a token: the payers, the value due and the growth of the amounts per
      size on both sides. */
  lemma PlanOfUpdate(cfg: Config, m: Market, prices: Prices, t: bool, plan: FundingPlan)
    requires UpdateFunding(cfg, m, prices).Some?
    requires PlanFunding(cfg, m, Passed(m.now, m.clocks.funding)) == Some(plan)
    ensures var (next, report) := UpdateFunding(cfg, m, prices).value;
            var paying, receiving := plan.longsPay, !plan.longsPay;
            && PayerDelta(cfg, m, prices, plan, t) == Some(report.deltaFunding.Side(paying).Amount(t))
            && ReceiverDelta(cfg, m, prices, plan, t) == Some(report.deltaClaimable.Side(receiving).Amount(t))
            && next.fundingPerSize.Side(paying).Amount(t)
               == m.fundingPerSize.Side(paying).Amount(t) + report.deltaFunding.Side(paying).Amount(t)
            && next.claimablePerSize.Side(receiving).Amount(t)
               == m.claimablePerSize.Side(receiving).Amount(t) + report.deltaClaimable.Side(receiving).Amount(t)
            && next.fundingPerSize.Side(receiving).Amount(t) == m.fundingPerSize.Side(receiving).Amount(t)
            && next.claimablePerSize.Side(paying).Amount(t) == m.claimablePerSize.Side(paying).Amount(t)
  {
    hide PlanFunding, PayerDelta, ReceiverDelta, GrowPair;
    var (next, report) := UpdateFunding(cfg, m, prices).value;
    GrowPairExact(m.fundingPerSize, report.deltaFunding, true, t);
    GrowPairExact(m.fundingPerSize, report.deltaFunding, false, t);
    GrowPairExact(m.claimablePerSize, report.deltaClaimable, true, t);
    GrowPairExact(m.claimablePerSize, report.deltaClaimable, false, t);
  }

  lemma ValueNeedsReceivers(cfg: Config, m: Market, duration: nat, plan: FundingPlan, t: bool)
    requires PlanFunding(cfg, m, duration) == Some(plan) && plan.For(t) != 0
    ensures m.openInterest.Side(!plan.longsPay).Sum() != 0
    ensures m.openInterest.Side(plan.longsPay).Amount(t) != 0
  {
    hide NextRate;
    if m.openInterest.Side(plan.longsPay).Amount(t) == 0 {
      NoPayersNoValue(cfg, m, duration, t);
    }
  }

  /** How the packed amounts per size relate to the funding value, in terms of the interest they apply
      to: the payers' rounds up, the receivers' down, by less than one price per unit of size. */
  lemma DeltaBounds(cfg: Config, m: Market, prices: Prices, plan: FundingPlan, t: bool, up: nat, down: nat)
    requires plan.For(t) != 0
    requires m.openInterest.Side(plan.longsPay).Amount(t) != 0 && m.openInterest.Side(!plan.longsPay).Sum() != 0
    requires PayerDelta(cfg, m, prices, plan, t) == Some(up) && ReceiverDelta(cfg, m, prices, plan, t) == Some(down)
    ensures var value, price := plan.For(t) * Scale(cfg), prices.Collateral(t).max;
            var paying, receiving := m.openInterest.Side(plan.longsPay).Amount(t),
                                     m.openInterest.Side(!plan.longsPay).Sum();
            && value <= up * price * paying < value + price * paying
            && down * price * receiving <= value < down * price * receiving + price * receiving
  {
    hide PackPerSize, Pool.Amount, Pool.Sum, FundingPlan.For;
    var price := prices.Collateral(t).max;
    PackUpBounds(cfg.fundingAdjustment, plan.For(t), m.openInterest.Side(plan.longsPay).Amount(t), price);
    PackDownBounds(cfg.fundingAdjustment, plan.For(t), m.openInterest.Side(!plan.longsPay).Sum(), price);
  }

  lemma ChargeArith(scale: nat, due: int, interest: nat, delta: nat, n: int, value: nat, price: nat)
    requires Within(scale, due, interest, delta, n, 0, scale - 1)
    requires value * scale <= delta * price * interest < value * scale + price * interest
    ensures value * scale <= price * (scale * due) < value * scale + price * interest + n * (scale - 1) * price
  {
    WithinBounds(scale, due, interest, delta, n, 0, scale - 1);
    hide *;
    Reorder(delta, price, interest);
    MulMono(interest * delta, scale * due, price);
    MulMono(scale * due, interest * delta + n * (scale - 1), price);
    SpreadPrice(price, interest * delta, n, scale - 1);
  }

  lemma ClaimArith(scale: nat, claims: int, interest: nat, delta: nat, n: int, value: nat, price: nat)
    requires Within(scale, claims, interest, delta, n, 1 - scale, 0)
    requires delta * price * interest <= value * scale < delta * price * interest + price * interest
    ensures value * scale - price * interest - n * (scale - 1) * price < price * (scale * claims) <= value * scale
  {
    WithinBounds(scale, claims, interest, delta, n, 1 - scale, 0);
    hide *;
    Reorder(delta, price, interest);
    MulMono(scale * claims, interest * delta, price);
    MulMono(interest * delta + n * (1 - scale), scale * claims, price);
    SpreadPrice(price, interest * delta, n, 1 - scale);
    assert n * (1 - scale) * price == -(n * (scale - 1) * price);
  }

  lemma WithinBounds(scale: int, tokens: int, sizes: int, delta: int, n: int, low: int, high: int)
    requires Within(scale, tokens, sizes, delta, n, low, high)
    ensures sizes * delta + n * low <= scale * tokens <= sizes * delta + n * high
  {
  }

  lemma Reorder(delta: int, price: int, interest: int)
    ensures delta * price * interest == price * (interest * delta)
  {
  }

  lemma SpreadPrice(price: int, total: int, n: int, each: int)
    ensures price * (total + n * each) == price * total + n * each * price
  {
  }

  /** If the n paying positions of a collateral token had all settled before an update, then settling
      after it charges them together at least the funding value due in that token, and less than one
      unit of size per unit of scale and one token per position beyond it. */
  lemma PayersChargedExactly(
    cfg: Config, m: Market, ps: seq<Position>, prices: Prices, t: bool, plan: FundingPlan, next: Market,
    report: FundingReport)
    requires Consistent(m, ps) && UpdateFunding(cfg, m, prices) == Some((next, report))
    requires PlanFunding(cfg, m, Passed(m.now, m.clocks.funding)) == Some(plan) && plan.For(t) != 0
    requires var delta := report.deltaFunding.Side(plan.longsPay).Amount(t);
             forall p <- ps :: PayerSettled(cfg, next, p, plan.longsPay, t, delta)
    ensures var charged := Sums.Sum(ps, DueOn(cfg, next, plan.longsPay, t));
            var n, interest := Sums.Sum(ps, CountIn(plan.longsPay, t)), m.openInterest.Side(plan.longsPay).Amount(t);
            var price, scale := prices.Collateral(t).max, Scale(cfg);
            plan.For(t) * scale <= price * (scale * charged)
            < plan.For(t) * scale + price * interest + n * (scale - 1) * price
  {
    hide *;
    var delta := report.deltaFunding.Side(plan.longsPay).Amount(t);
    var interest, price := m.openInterest.Side(plan.longsPay).Amount(t), prices.Collateral(t).max;
    PlanOfUpdate(cfg, m, prices, t, plan);
    ValueNeedsReceivers(cfg, m, Passed(m.now, m.clocks.funding), plan, t);
    DeltaBounds(cfg, m, prices, plan, t, report.deltaFunding.Side(plan.longsPay).Amount(t),
                report.deltaClaimable.Side(!plan.longsPay).Amount(t));
    SumOfDue(cfg, next, ps, plan.longsPay, t, delta);
    InterestIsSize(m, ps, plan.longsPay, t);
    ChargeArith(Scale(cfg), Sums.Sum(ps, DueOn(cfg, next, plan.longsPay, t)), interest, delta,
                Sums.Sum(ps, CountIn(plan.longsPay, t)), plan.For(t), price);
  }

  lemma InterestIsSize(m: Market, ps: seq<Position>, isLong: bool, t: bool)
    requires Consistent(m, ps)
    ensures m.openInterest.Side(isLong).Amount(t) == Sums.Sum(ps, SizeIn(isLong, t))
    ensures m.openInterest.Side(isLong).Sum() == Sums.Sum(ps, SideSize(isLong))
  {
    assert AggregatesAt(m, ps, isLong, true) && AggregatesAt(m, ps, isLong, false);
    SideSizeIsInterest(m, ps, isLong);
  }

  /** If the n positions of the receiving side had all settled before an update, then what they may claim
      in a token after it is together at most the funding value due in that token, and short of it by
      less than one unit of size per unit of scale and one token per position. */
  lemma ReceiversClaimExactly(
    cfg: Config, m: Market, ps: seq<Position>, prices: Prices, t: bool, plan: FundingPlan, next: Market,
    report: FundingReport)
    requires Consistent(m, ps) && UpdateFunding(cfg, m, prices) == Some((next, report))
    requires PlanFunding(cfg, m, Passed(m.now, m.clocks.funding)) == Some(plan) && plan.For(t) != 0
    requires var delta := report.deltaClaimable.Side(!plan.longsPay).Amount(t);
             forall p <- ps :: ReceiverSettled(cfg, next, p, !plan.longsPay, t, delta)
    ensures var claimed := Sums.Sum(ps, ClaimOn(cfg, next, !plan.longsPay, t));
            var n, interest := Sums.Sum(ps, CountSide(!plan.longsPay)), m.openInterest.Side(!plan.longsPay).Sum();
            var price, scale := prices.Collateral(t).max, Scale(cfg);
            plan.For(t) * scale - price * interest - n * (scale - 1) * price < price * (scale * claimed)
            <= plan.For(t) * scale
  {
    hide *;
    var delta := report.deltaClaimable.Side(!plan.longsPay).Amount(t);
    var interest, price := m.openInterest.Side(!plan.longsPay).Sum(), prices.Collateral(t).max;
    PlanOfUpdate(cfg, m, prices, t, plan);
    ValueNeedsReceivers(cfg, m, Passed(m.now, m.clocks.funding), plan, t);
    DeltaBounds(cfg, m, prices, plan, t, report.deltaFunding.Side(plan.longsPay).Amount(t),
                report.deltaClaimable.Side(!plan.longsPay).Amount(t));
    SumOfClaims(cfg, next, ps, !plan.longsPay, t, delta);
    InterestIsSize(m, ps, !plan.longsPay, t);
    ClaimArith(Scale(cfg), Sums.Sum(ps, ClaimOn(cfg, next, !plan.longsPay, t)), interest, delta,
               Sums.Sum(ps, CountSide(!plan.longsPay)), plan.For(t), price);
  }
}
