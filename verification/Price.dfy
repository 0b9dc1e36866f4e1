/** Prices with a minimum and a maximum (`price.rs`). */
module Price {
  import opened Options
  import opened Num

  datatype Price = Price(min: nat, max: nat) {
    function PickPrice(maximize: bool): nat {
      if maximize then max else min
    }

    function PickPriceForPnl(isLong: bool, maximize: bool): nat {
      if isLong != maximize then min else max
    }

    predicate HasZero() {
      min == 0 || max == 0
    }

    /** The midpoint, rounded down. */
    function Mid(): Option<nat> {
      var sum :- CheckedAdd(min, max);
      Some(sum / 2)
    }

    predicate IsValid() {
      min != 0 && max != 0 && Mid().Some?
    }

    /** Not part of `IsValid`: the source does not check it. */
    predicate IsOrdered() {
      min <= max
    }
  }

  datatype Prices = Prices(index: Price, long: Price, short: Price) {
    function Collateral(isLong: bool): Price {
      if isLong then long else short
    }

    predicate IsValid() {
      index.IsValid() && long.IsValid() && short.IsValid()
    }

    predicate IsOrdered() {
      index.IsOrdered() && long.IsOrdered() && short.IsOrdered()
    }
  }
}
