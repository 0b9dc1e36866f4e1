/** Fee parameters and the fees they produce (`params/fee.rs`). */
module Fees {
  import opened Options
  import opened Num
  import opened Utils
  import opened Price

  datatype Fees = Fees(forReceiver: nat, forPool: nat)

  const NO_FEES := Fees(0, 0)

  datatype FeeParams = FeeParams(
    positiveImpactFactor: nat, negativeImpactFactor: nat, receiverFactor: nat, discountFactor: Option<nat>)
  {
    function Factor(positiveImpact: bool): nat {
      if positiveImpact then positiveImpactFactor else negativeImpactFactor
    }

    function Discount(): nat {
      if discountFactor.Some? then discountFactor.value else 0
    }

    /** The fee after discount. */
    function Fee(positiveImpact: bool, amount: nat): Option<nat> {
      var fee :- ApplyFactor(amount, Factor(positiveImpact));
      var discount :- ApplyFactor(fee, Discount());
      CheckedSub(fee, discount)
    }

    function ReceiverFee(fee: nat): Option<nat> {
      ApplyFactor(fee, receiverFactor)
    }

    /** The amount left after fees, and the fees: together they are exactly the amount. */
    function ApplyFees(positiveImpact: bool, amount: nat): (r: Option<(nat, Fees)>)
      ensures r.Some? ==> r.value.0 + r.value.1.forReceiver + r.value.1.forPool == amount
    {
      var fee :- Fee(positiveImpact, amount);
      var receiver :- ReceiverFee(fee);
      var pool :- CheckedSub(fee, receiver);
      var after :- CheckedSub(amount, fee);
      Some((after, Fees(receiver, pool)))
    }

    /** Order fees in collateral tokens for a change of size in USD. */
    function ForOrder(price: Price, sizeDelta: nat, positiveImpact: bool): Option<OrderFees> {
      if price.HasZero() then None
      else
        var value :- Fee(positiveImpact, sizeDelta);
        var amount :- CheckedDiv(value, price.PickPrice(false));
        var receiver :- ReceiverFee(amount);
        var pool :- CheckedSub(amount, receiver);
        Some(OrderFees(Fees(receiver, pool), value))
    }
  }

  datatype OrderFees = OrderFees(base: Fees, value: nat)

  datatype BorrowingFees = BorrowingFees(amount: nat, forReceiver: nat) {
    function ForPool(): Option<nat> {
      CheckedSub(amount, forReceiver)
    }
  }

  datatype FundingFees = FundingFees(amount: nat, claimableLong: nat, claimableShort: nat) {
    function Claimable(isLongToken: bool): nat {
      if isLongToken then claimableLong else claimableShort
    }
  }

  /** Fees of a position change other than a liquidation. */
  datatype PositionFees = PositionFees(order: OrderFees, borrowing: BorrowingFees, funding: FundingFees) {
    function ForReceiver(): Option<nat> {
      CheckedAdd(order.base.forReceiver, borrowing.forReceiver)
    }

    function ForPool(): Option<nat> {
      var borrowingForPool :- borrowing.ForPool();
      CheckedAdd(order.base.forPool, borrowingForPool)
    }

    function TotalCostExcludingFunding(): Option<nat> {
      var base :- CheckedAdd(order.base.forPool, order.base.forReceiver);
      CheckedAdd(base, borrowing.amount)
    }

    function TotalCost(): Option<nat> {
      var cost :- TotalCostExcludingFunding();
      CheckedAdd(cost, funding.amount)
    }
  }

  function BorrowingFeesFor(receiverFactor: nat, price: Price, value: nat): Option<BorrowingFees> {
    var amount :- CheckedDiv(value, price.PickPrice(false));
    var receiver :- ApplyFactor(amount, receiverFactor);
    Some(BorrowingFees(amount, receiver))
  }

  /** What a position pays splits exactly into the receiver's part, the pool's part and funding. */
  lemma CostSplits(f: PositionFees)
    requires f.TotalCost().Some? && f.ForReceiver().Some? && f.ForPool().Some?
    ensures f.TotalCost().value == f.ForReceiver().value + f.ForPool().value + f.funding.amount
  {
  }
}
