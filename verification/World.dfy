/** The market together with its positions and a ledger of the tokens that enter and leave the vault:
    the state machine whose steps are the actions. */
module World {
  import opened Options
  import opened Price
  import opened Pool
  import opened PriceImpact
  import opened Params
  import opened State
  import opened SwapAction
  import opened DepositAction
  import opened WithdrawAction
  import opened FundingAction
  import opened AccrualActions
  import opened PositionState
  import opened IncreaseAction

  /** Tokens received and paid by the vault, funding fees paid and claimed by positions, and the price
      impact credited to positions against the number of moves that worsened the imbalance. */
  datatype Ledger = Ledger(inflow: Pool, outflow: Pool, paid: Pool, claimed: Pool, credited: int, worsened: nat)

  const EMPTY_LEDGER := Ledger(EMPTY_POOL, EMPTY_POOL, EMPTY_POOL, EMPTY_POOL, 0, 0)

  datatype World = World(market: Market, positions: seq<Position>, ledger: Ledger)

  const EMPTY_WORLD := World(EMPTY_MARKET, [], EMPTY_LEDGER)

  datatype Action =
    | DoDeposit(long: nat, short: nat, prices: Prices)
    | DoWithdraw(amount: nat, prices: Prices)
    | DoSwap(isLongIn: bool, amount: nat, prices: Prices)
    | DoOpen(isLong: bool, isCollateralLong: bool)
    | DoIncrease(id: nat, params: IncreaseParams)
    | DoUpdateFunding(prices: Prices)
    | DoUpdateBorrowing(prices: Prices)
    | DoDistribute
    | DoTick(seconds: nat)

  function Plus(a: Pool, b: Pool): Pool {
    Pool(a.long + b.long, a.short + b.short)
  }

  function OneSide(isLong: bool, amount: nat): Pool {
    EMPTY_POOL.With(isLong, amount)
  }

  function Claims(r: IncreaseReport): Pool {
    Pool(r.fees.funding.claimableLong, r.fees.funding.claimableShort)
  }

  /** The move of the open interest that an increase makes, if it makes one. */
  function MoveOf(m: Market, p: Position, params: IncreaseParams): Option<PoolDelta> {
    if params.sizeDelta == 0 then None else SizeMove(m, p.isLong, params.sizeDelta)
  }

  function IncreaseLedger(l: Ledger, m: Market, p: Position, params: IncreaseParams, r: IncreaseReport): Ledger {
    var move := MoveOf(m, p, params);
    Ledger(Plus(l.inflow, OneSide(p.isCollateralLong, params.collateral)),
           Plus(l.outflow, Claims(r)),
           Plus(l.paid, OneSide(p.isCollateralLong, r.fees.funding.amount)),
           Plus(l.claimed, Claims(r)),
           l.credited + r.execution.impactValue,
           l.worsened + (if move.Some? && IsWorsening(move.value) then 1 else 0))
  }

  /** One successful action; a failed one leaves the caller to discard the state. */
  function Step(cfg: Config, w: World, a: Action): Option<World> {
    match a
    case DoDeposit(long, short, prices) =>
      var r :- Deposit(cfg, w.market, long, short, prices);
      Some(w.(market := r.0, ledger := w.ledger.(inflow := Plus(w.ledger.inflow, Pool(long, short)))))
    case DoWithdraw(amount, prices) =>
      var r :- Withdraw(cfg, w.market, amount, prices);
      Some(w.(market := r.0,
              ledger := w.ledger.(outflow := Plus(w.ledger.outflow, Pool(r.1.longOutput, r.1.shortOutput)))))
    case DoSwap(isLongIn, amount, prices) =>
      var r :- Swap(cfg, w.market, isLongIn, amount, prices);
      Some(w.(market := r.0,
              ledger := w.ledger.(inflow := Plus(w.ledger.inflow, OneSide(isLongIn, amount)),
                                  outflow := Plus(w.ledger.outflow, OneSide(!isLongIn, r.1.tokenOut)))))
    case DoOpen(isLong, isCollateralLong) =>
      Some(w.(positions := w.positions + [EmptyPosition(isLong, isCollateralLong)]))
    case DoIncrease(id, params) =>
      if id >= |w.positions| then None
      else
        var r :- Increase(cfg, w.market, w.positions[id], params);
        Some(World(r.0, w.positions[id := r.1], IncreaseLedger(w.ledger, w.market, w.positions[id], params, r.2)))
    case DoUpdateFunding(prices) =>
      var r :- UpdateFunding(cfg, w.market, prices);
      Some(w.(market := r.0))
    case DoUpdateBorrowing(prices) =>
      var r :- UpdateBorrowing(cfg, w.market, prices);
      Some(w.(market := r))
    case DoDistribute =>
      var r :- DistributeImpact(cfg, w.market);
      Some(w.(market := r))
    case DoTick(seconds) => Some(w.(market := w.market.(now := w.market.now + seconds)))
  }

  /** The state after a sequence of successful actions. */
  function Run(cfg: Config, w: World, actions: seq<Action>): Option<World>
    decreases |actions|
  {
    if actions == [] then Some(w)
    else
      var next :- Step(cfg, w, actions[0]);
      Run(cfg, next, actions[1..])
  }

  /** Running one action more is one step more. */
  lemma {:induction false} RunAppend(cfg: Config, w: World, actions: seq<Action>, a: Action)
    requires Run(cfg, w, actions).Some?
    ensures Run(cfg, w, actions + [a]) == Step(cfg, Run(cfg, w, actions).value, a)
    decreases |actions|
  {
    hide Step;
    if actions == [] {
      var next := Step(cfg, w, a);
      assert [a][1..] == [];
      assert next.Some? ==> Run(cfg, next.value, []) == next;
    } else {
      RunAppend(cfg, Step(cfg, w, actions[0]).value, actions[1..], a);
      assert (actions + [a])[1..] == actions[1..] + [a];
    }
  }
}
