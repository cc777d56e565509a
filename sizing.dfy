/** Position sizing and order outcome of the trend-following trading agent.

    Money amounts (exact decimals in the source) and the weight (a double in the source)
    are modelled as reals. One side of the market is described by its sizing policy; the
    sell side uses the BTC limits and the bid arrow, the buy side the local-currency limits
    and the ask arrow. */
module Sizing {

  datatype Option<T> = None | Some(value: T)

  /** Order type handed to the exchange: ASK sells BTC, BID buys BTC. */
  datatype Side = Ask | Bid

  /** Why a run ended without an order. */
  datatype Reason =
    | NoSignal              // the resolver chose neither path
    | UnfavourablePrice     // current bid not above VWAP (sell) or ask not below VWAP (buy)
    | BalanceUnavailable    // the account collaborator returned no balance
    | EmptyBalance          // the balance is zero
    | InsufficientMomentum  // the sized order is below the configured minimum
    | TrendTradesDisabled   // the global kill switch is set

  /** What the account collaborator answers when asked for a balance. */
  datatype BalanceReply = WalletNotFound | NullBalance | Balance(amount: real)

  /** The result of one run. `submitted` records whether the exchange was contacted;
      `success` is the flag the source reports on. Fatal stands for the process exit
      that follows a missing wallet. */
  datatype Outcome =
    | NoAction(reason: Reason)
    | Order(side: Side, qty: real, submitted: bool, success: bool)
    | Fatal

  /** The configuration one side of the market is sized with. */
  datatype Policy = Policy(algorithm: int, maxWeight: real, min: real, max: real)

  function Abs(x: real): real
  {
    if x < 0.0 then -x else x
  }

  /** The weight before taking its absolute value and clamping it. Algorithm 1 is the
      linear blend of the directional arrow and the trend arrow; any other algorithm is
      the product of the two arrows, each normalised by the ticker size. */
  function RawWeight(algorithm: int, arrow: real, trendArrow: real, tickerSize: int): real
    requires tickerSize > 0
  {
    var t := tickerSize as real;
    if algorithm == 1 then (arrow + trendArrow) / t else arrow / t * trendArrow / t
  }

  /** The weight actually applied: the absolute raw weight, limited to maxWeight
      (the minimum of the two). */
  function Weight(algorithm: int, maxWeight: real, arrow: real, trendArrow: real, tickerSize: int): (w: real)
    requires tickerSize > 0
    ensures w <= maxWeight
    ensures w <= Abs(RawWeight(algorithm, arrow, trendArrow, tickerSize))
    ensures w == maxWeight || w == Abs(RawWeight(algorithm, arrow, trendArrow, tickerSize))
    ensures 0.0 <= maxWeight ==> 0.0 <= w
  {
    var a := Abs(RawWeight(algorithm, arrow, trendArrow, tickerSize));
    if a > maxWeight then maxWeight else a
  }

  /** The amount the weight is applied to: the whole balance for algorithm 1, otherwise
      the lesser of the balance and the maximum order size. */
  function BaseAmount(algorithm: int, balance: real, max: real): (b: real)
    ensures algorithm == 1 ==> b == balance
    ensures algorithm != 1 ==> b <= balance && b <= max && (b == balance || b == max)
  {
    if algorithm == 1 then balance
    else if balance >= max then max
    else balance
  }

  /** The sized order before it is reduced to the maximum. */
  function Quantity(p: Policy, arrow: real, trendArrow: real, tickerSize: int, balance: real): real
    requires tickerSize > 0
  {
    BaseAmount(p.algorithm, balance, p.max) * Weight(p.algorithm, p.maxWeight, arrow, trendArrow, tickerSize)
  }

  /** The quantity that goes to the minimum check: the sized order reduced to the maximum. */
  function OrderSize(p: Policy, arrow: real, trendArrow: real, tickerSize: int, balance: real): real
    requires tickerSize > 0
  {
    ReduceToMax(Quantity(p, arrow, trendArrow, tickerSize, balance), p.max)
  }

  /** An order above the maximum is reduced to the maximum: the lesser of the two. */
  function ReduceToMax(qty: real, max: real): (q: real)
    ensures q <= max && q <= qty
    ensures q == qty || q == max
  {
    if qty > max then max else qty
  }

  /** Submitting a market order: in simulation mode the exchange is not contacted and the
      order counts as successful; otherwise it succeeds iff the exchange returned a reference. */
  function Execute(side: Side, qty: real, simMode: bool, reply: Option<string>): (o: Outcome)
    ensures o.Order? && o.side == side && o.qty == qty
    ensures o.submitted <==> !simMode
    ensures o.success <==> simMode || reply.Some?
  {
    Order(side, qty, !simMode, simMode || reply.Some?)
  }

  /** True when a balance reply holds a usable, non-zero amount. */
  predicate Usable(balance: BalanceReply)
  {
    balance.Balance? && balance.amount != 0.0
  }

  /** The whole sizing decision for one side. `favourable` is the VWAP gate (bid above
      VWAP when selling, ask below VWAP when buying). */
  function SideOutcome(side: Side, p: Policy, arrow: real, trendArrow: real, tickerSize: int,
                       favourable: bool, balance: BalanceReply, trendTradesDisabled: bool,
                       simMode: bool, reply: Option<string>): Outcome
    requires tickerSize > 0
  {
    if !favourable then NoAction(UnfavourablePrice)
    else match balance
      case WalletNotFound => Fatal
      case NullBalance => NoAction(BalanceUnavailable)
      case Balance(amount) =>
        if amount == 0.0 then NoAction(EmptyBalance)
        else
          var qty := OrderSize(p, arrow, trendArrow, tickerSize, amount);
          if qty < p.min then NoAction(InsufficientMomentum)
          else if trendTradesDisabled then NoAction(TrendTradesDisabled)
          else Execute(side, qty, simMode, reply)
  }

  /** The runs that end without an order: an unfavourable price, a missing wallet (fatal),
      no balance, a zero balance, a quantity under the minimum, or the kill switch. */
  lemma SideOutcomeNoOrder(side: Side, p: Policy, arrow: real, trendArrow: real, tickerSize: int,
                           favourable: bool, balance: BalanceReply, trendTradesDisabled: bool,
                           simMode: bool, reply: Option<string>)
    requires tickerSize > 0
    ensures var o := SideOutcome(side, p, arrow, trendArrow, tickerSize, favourable, balance,
                                 trendTradesDisabled, simMode, reply);
            && (!favourable ==> o == NoAction(UnfavourablePrice))
            && (o == Fatal <==> favourable && balance.WalletNotFound?)
            && (favourable && balance.NullBalance? ==> o == NoAction(BalanceUnavailable))
            && (favourable && balance == Balance(0.0) ==> o == NoAction(EmptyBalance))
            && (o == NoAction(InsufficientMomentum) <==>
                  favourable && Usable(balance)
                  && OrderSize(p, arrow, trendArrow, tickerSize, balance.amount) < p.min)
            && (o == NoAction(TrendTradesDisabled) <==>
                  favourable && Usable(balance) && trendTradesDisabled
                  && p.min <= OrderSize(p, arrow, trendArrow, tickerSize, balance.amount))
  {
  }

  /** An order is produced exactly when the price is favourable, the balance is present and
      non-zero, the reduced quantity reaches the minimum and the kill switch is off; the order
      then carries that quantity, which lies between the minimum and the maximum. */
  lemma SideOutcomeOrder(side: Side, p: Policy, arrow: real, trendArrow: real, tickerSize: int,
                         favourable: bool, balance: BalanceReply, trendTradesDisabled: bool,
                         simMode: bool, reply: Option<string>)
    requires tickerSize > 0
    ensures var o := SideOutcome(side, p, arrow, trendArrow, tickerSize, favourable, balance,
                                 trendTradesDisabled, simMode, reply);
            && (o.Order? <==>
                  favourable && Usable(balance) && !trendTradesDisabled
                  && p.min <= OrderSize(p, arrow, trendArrow, tickerSize, balance.amount))
            && (o.Order? ==> p.min <= o.qty <= p.max && o.side == side)
            && (o.Order? ==>
                  o == Execute(side, OrderSize(p, arrow, trendArrow, tickerSize, balance.amount), simMode, reply))
  {
  }

  /** Reducing to the maximum twice is the same as reducing once. */
  lemma ReduceToMaxIdempotent(qty: real, max: real)
    ensures ReduceToMax(ReduceToMax(qty, max), max) == ReduceToMax(qty, max)
  {
  }

  /** For any algorithm other than 1, with a weight ceiling in [0, 1] and a non-negative
      maximum, the sized order never exceeds the maximum, so the reduction step leaves it as is. */
  lemma ProductAlgorithmSelfLimiting(p: Policy, arrow: real, trendArrow: real, tickerSize: int, balance: real)
    requires tickerSize > 0
    requires p.algorithm != 1 && 0.0 <= p.maxWeight <= 1.0 && 0.0 <= p.max
    ensures Quantity(p, arrow, trendArrow, tickerSize, balance) <= p.max
    ensures ReduceToMax(Quantity(p, arrow, trendArrow, tickerSize, balance), p.max)
            == Quantity(p, arrow, trendArrow, tickerSize, balance)
  {
    var b := BaseAmount(p.algorithm, balance, p.max);
    var w := Weight(p.algorithm, p.maxWeight, arrow, trendArrow, tickerSize);
    assert Quantity(p, arrow, trendArrow, tickerSize, balance) == b * w;
    assert 0.0 <= w <= 1.0 && b <= p.max;
    if b >= 0.0 {
      assert b * w <= b * 1.0 == b;
    } else {
      assert b * w <= 0.0;
    }
  }

  /** Sell side with algorithm 2, bid arrow 4, trend arrow 2, ticker size 2, balance 10,
      maximum 5, minimum 0.1 and weight ceiling 0.9: the weight (4/2)*(2/2) = 2 is limited
      to 0.9, the base is the maximum 5, and 4.5 BTC is sold. */
  lemma WorkedSellSizing()
    ensures RawWeight(2, 4.0, 2.0, 2) == 2.0
    ensures Weight(2, 0.9, 4.0, 2.0, 2) == 0.9
    ensures BaseAmount(2, 10.0, 5.0) == 5.0
    ensures Quantity(Policy(2, 0.9, 0.1, 5.0), 4.0, 2.0, 2, 10.0) == 4.5
    ensures SideOutcome(Ask, Policy(2, 0.9, 0.1, 5.0), 4.0, 2.0, 2, true, Balance(10.0), false, true, None)
            == Order(Ask, 4.5, false, true)
  {
  }
}
