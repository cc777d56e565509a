/** The trend-following trading agent: one run reads an indicator snapshot, resolves a
    decision from the enabled detectors and, on a sell or buy decision, sizes and submits
    a market order. Collaborators (indicator observer, account manager, arbitrage engine's
    kill switch, exchange) are inputs to the run. */
module Agent {
  import opened Signals
  import opened Sizing

  /** The indicator values read from the observer at the start of a run. `bid` and `ask`
      are the current prices of the last tick. */
  datatype Snapshot = Snapshot(
    trendArrow: real, bidArrow: real, askArrow: real,
    vwap: real, bid: real, ask: real, tickerSize: int,
    emaShort: real, emaLong: real, smaShort: real, smaLong: real)

  /** Which detectors are enabled for this run. */
  datatype Flags = Flags(useADS: bool, useEMA: bool, useSMA: bool)

  /** What the collaborators answer during a run: the two balances, the kill switch,
      simulation mode and the exchange's reply to an order. */
  datatype Env = Env(
    btcBalance: BalanceReply, localBalance: BalanceReply,
    trendTradesDisabled: bool, simMode: bool, orderReply: Option<string>)

  /** The agent's configuration, fixed at construction. */
  datatype Config = Config(
    maxBTC: real, minBTC: real, maxLocal: real, minLocal: real,
    maxWeight: real, algorithm: int)

  /** The resolver applied to the detectors computed from a snapshot. */
  function Decide(flags: Flags, snap: Snapshot): Decision
  {
    Resolve(AdsSignal(flags.useADS, snap.trendArrow, snap.bidArrow, snap.askArrow),
            CrossSignal(flags.useEMA, snap.emaShort, snap.emaLong),
            CrossSignal(flags.useSMA, snap.smaShort, snap.smaLong))
  }

  function SellPolicy(c: Config): Policy
  {
    Policy(c.algorithm, c.maxWeight, c.minBTC, c.maxBTC)
  }

  function BuyPolicy(c: Config): Policy
  {
    Policy(c.algorithm, c.maxWeight, c.minLocal, c.maxLocal)
  }

  /** Selling BTC: gated on the current bid being above VWAP, sized from the bid arrow
      and the BTC balance within the BTC limits. */
  function SellOutcome(c: Config, snap: Snapshot, env: Env): Outcome
    requires snap.tickerSize > 0
  {
    SideOutcome(Ask, SellPolicy(c), snap.bidArrow, snap.trendArrow, snap.tickerSize,
                snap.bid > snap.vwap, env.btcBalance, env.trendTradesDisabled, env.simMode, env.orderReply)
  }

  /** Buying BTC: gated on the current ask being below VWAP, sized from the ask arrow
      and the local-currency balance within the local-currency limits. */
  function BuyOutcome(c: Config, snap: Snapshot, env: Env): Outcome
    requires snap.tickerSize > 0
  {
    SideOutcome(Bid, BuyPolicy(c), snap.askArrow, snap.trendArrow, snap.tickerSize,
                snap.ask < snap.vwap, env.localBalance, env.trendTradesDisabled, env.simMode, env.orderReply)
  }

  /** One complete run. */
  function RunOutcome(c: Config, flags: Flags, snap: Snapshot, env: Env): Outcome
    requires snap.tickerSize > 0
  {
    match Decide(flags, snap)
    case Sell => SellOutcome(c, snap, env)
    case Buy => BuyOutcome(c, snap, env)
    case Hold => NoAction(NoSignal)
  }

  /** What a run can end in: holding exactly when the resolver holds; a sell order only on a
      sell decision with the bid above VWAP and a quantity within the BTC limits; a buy order
      only on a buy decision with the ask below VWAP and a quantity within the local limits;
      no order under the kill switch; a fatal end exactly when the chosen side's price gate
      opened and its wallet is missing. */
  lemma RunOutcomeProperties(c: Config, flags: Flags, snap: Snapshot, env: Env)
    requires snap.tickerSize > 0
    ensures var o := RunOutcome(c, flags, snap, env);
            && (o == NoAction(NoSignal) <==> Decide(flags, snap) == Hold)
            && (o.Order? && o.side == Ask ==>
                  Decide(flags, snap) == Sell && snap.bid > snap.vwap && c.minBTC <= o.qty <= c.maxBTC)
            && (o.Order? && o.side == Bid ==>
                  Decide(flags, snap) == Buy && snap.ask < snap.vwap && c.minLocal <= o.qty <= c.maxLocal)
            && (o.Order? ==> !env.trendTradesDisabled && (o.submitted <==> !env.simMode))
            && (o == Fatal <==>
                  (Decide(flags, snap) == Sell && snap.bid > snap.vwap && env.btcBalance == WalletNotFound)
                  || (Decide(flags, snap) == Buy && snap.ask < snap.vwap && env.localBalance == WalletNotFound))
  {
  }

  class TrendTradingAgent {
    const maxBTC: real
    const maxLocal: real
    const minBTC: real
    const minLocal: real
    const maxWeight: real
    const algorithm: int

    /** The configuration values, read once when the agent is created. */
    constructor (maxBTC: real, maxLocal: real, minBTC: real, minLocal: real, maxWeight: real, algorithm: int)
      ensures Settings() == Config(maxBTC, minBTC, maxLocal, minLocal, maxWeight, algorithm)
    {
      this.maxBTC := maxBTC;
      this.maxLocal := maxLocal;
      this.minBTC := minBTC;
      this.minLocal := minLocal;
      this.maxWeight := maxWeight;
      this.algorithm := algorithm;
    }

    function Settings(): Config
    {
      Config(maxBTC, minBTC, maxLocal, minLocal, maxWeight, algorithm)
    }

    /** One run: the three detectors, the resolver (sell tested before buy), and the
        hand-off to the sizing of the chosen side. */
    method Run(flags: Flags, snap: Snapshot, env: Env) returns (o: Outcome)
      requires snap.tickerSize > 0
      ensures o == RunOutcome(Settings(), flags, snap, env)
    {
      var adsUp, adsDown := false, false;
      var emaUp, emaDown := false, false;
      var smaUp, smaDown := false, false;
      var useADS, useEMA, useSMA := flags.useADS, flags.useEMA, flags.useSMA;

      if useADS {
        if snap.trendArrow > 0.0 && snap.bidArrow > 0.0 {
          adsUp := true;
        } else if snap.trendArrow < 0.0 && snap.askArrow < 0.0 {
          adsDown := true;
        }
      }
      if useEMA {
        if snap.emaShort > snap.emaLong {
          emaUp := true;
        } else if snap.emaShort < snap.emaLong {
          emaDown := true;
        }
      }
      if useSMA {
        if snap.smaShort > snap.smaLong {
          smaUp := true;
        } else if snap.smaShort < snap.smaLong {
          smaDown := true;
        }
      }

      var evalAsk := (adsUp && ((!useSMA && (emaDown || !useEMA)) || (smaDown && (!useEMA || emaDown))))
                     || (!useADS && ((emaUp && (smaDown || !useSMA)) || (!useEMA && smaUp)));
      var evalBid := (adsDown && ((!useEMA && (smaUp || !useSMA)) || (emaUp && (!useSMA || smaUp))))
                     || (!useADS && ((emaDown && (smaUp || !useSMA)) || (!useEMA && smaDown)));

      assert Signal(useADS, adsUp, adsDown) == AdsSignal(useADS, snap.trendArrow, snap.bidArrow, snap.askArrow);
      assert Signal(useEMA, emaUp, emaDown) == CrossSignal(useEMA, snap.emaShort, snap.emaLong);
      assert Signal(useSMA, smaUp, smaDown) == CrossSignal(useSMA, snap.smaShort, snap.smaLong);

      if evalAsk {
        o := EvalAsk(snap, env);
      } else if evalBid {
        o := EvalBid(snap, env);
      } else {
        o := NoAction(NoSignal);
      }
    }

    /** Whether and how much BTC to sell. */
    method EvalAsk(snap: Snapshot, env: Env) returns (o: Outcome)
      requires snap.tickerSize > 0
      ensures o == SellOutcome(Settings(), snap, env)
    {
      var currentBid := snap.bid;
      if currentBid > snap.vwap {
        var weight := AbsoluteWeight(snap.bidArrow, snap.trendArrow, snap.tickerSize);
        if weight > maxWeight {
          weight := maxWeight;
        }
        assert weight == Weight(algorithm, maxWeight, snap.bidArrow, snap.trendArrow, snap.tickerSize);
        match env.btcBalance
        case WalletNotFound =>
          o := Fatal;
        case NullBalance =>
          o := NoAction(BalanceUnavailable);
        case Balance(balanceBTC) =>
          if balanceBTC == 0.0 {
            return NoAction(EmptyBalance);
          }
          var bigWeight := weight;
          var qtyToSell: real;
          if algorithm == 1 {
            qtyToSell := balanceBTC * bigWeight;
          } else if balanceBTC >= maxBTC {
            qtyToSell := maxBTC * bigWeight;
          } else {
            qtyToSell := balanceBTC * bigWeight;
          }
          assert qtyToSell == Quantity(SellPolicy(Settings()), snap.bidArrow, snap.trendArrow, snap.tickerSize, balanceBTC);
          if qtyToSell > maxBTC {
            qtyToSell := maxBTC;
          }
          assert qtyToSell == OrderSize(SellPolicy(Settings()), snap.bidArrow, snap.trendArrow, snap.tickerSize, balanceBTC);
          if qtyToSell < minBTC {
            return NoAction(InsufficientMomentum);
          }
          if !env.trendTradesDisabled {
            o := MarketOrder(qtyToSell, Ask, env.simMode, env.orderReply);
          } else {
            o := NoAction(TrendTradesDisabled);
          }
      } else {
        o := NoAction(UnfavourablePrice);
      }
    }

    /** Whether and how much BTC to buy. The weight is first converted before it is
        clamped and converted again afterwards; the clamped value is the one applied. */
    method EvalBid(snap: Snapshot, env: Env) returns (o: Outcome)
      requires snap.tickerSize > 0
      ensures o == BuyOutcome(Settings(), snap, env)
    {
      var currentAsk := snap.ask;
      if currentAsk < snap.vwap {
        var weight := AbsoluteWeight(snap.askArrow, snap.trendArrow, snap.tickerSize);
        // The conversion of the unclamped weight; its value is never used, because the
        // weight is converted again after the clamp.
        var bigWeight := weight;
        if weight > maxWeight {
          weight := maxWeight;
        }
        assert weight == Weight(algorithm, maxWeight, snap.askArrow, snap.trendArrow, snap.tickerSize);
        match env.localBalance
        case WalletNotFound =>
          o := Fatal;
        case NullBalance =>
          o := NoAction(BalanceUnavailable);
        case Balance(balanceLocal) =>
          if balanceLocal == 0.0 {
            return NoAction(EmptyBalance);
          }
          bigWeight := weight;
          var qtyToBuy: real;
          if algorithm == 1 {
            qtyToBuy := balanceLocal * bigWeight;
          } else if balanceLocal >= maxLocal {
            qtyToBuy := maxLocal * bigWeight;
          } else {
            qtyToBuy := balanceLocal * bigWeight;
          }
          assert qtyToBuy == Quantity(BuyPolicy(Settings()), snap.askArrow, snap.trendArrow, snap.tickerSize, balanceLocal);
          if qtyToBuy > maxLocal {
            qtyToBuy := maxLocal;
          }
          assert qtyToBuy == OrderSize(BuyPolicy(Settings()), snap.askArrow, snap.trendArrow, snap.tickerSize, balanceLocal);
          if qtyToBuy < minLocal {
            return NoAction(InsufficientMomentum);
          }
          if !env.trendTradesDisabled {
            o := MarketOrder(qtyToBuy, Bid, env.simMode, env.orderReply);
          } else {
            o := NoAction(TrendTradesDisabled);
          }
      } else {
        o := NoAction(UnfavourablePrice);
      }
    }

    /** The weight formula selected by the algorithm, followed by its absolute value;
        the same code opens both the sell and the buy sizing. */
    method AbsoluteWeight(arrow: real, trendArrow: real, tickerSize: int) returns (weight: real)
      requires tickerSize > 0
      ensures 0.0 <= weight
      ensures weight == Abs(RawWeight(algorithm, arrow, trendArrow, tickerSize))
    {
      if algorithm == 1 {
        weight := (arrow + trendArrow) / tickerSize as real;
      } else {
        weight := arrow / tickerSize as real * trendArrow / tickerSize as real;
      }
      if weight < 0.0 {
        weight := -weight;
      }
    }

    /** Submits (or, in simulation mode, only pretends to submit) a market order and
        reports whether it succeeded. */
    method MarketOrder(qty: real, orderType: Side, simMode: bool, reply: Option<string>) returns (o: Outcome)
      ensures o == Execute(orderType, qty, simMode, reply)
    {
      var success := true;
      var submitted := false;
      if !simMode {
        var marketOrderReturnValue := reply;
        submitted := true;
        success := marketOrderReturnValue.Some?;
      }
      o := Order(orderType, qty, submitted, success);
    }
  }

  /** Sell and buy orders never both come out of one snapshot: whichever side an order is
      on, the resolver chose that side and no other. */
  lemma OrderSideMatchesDecision(c: Config, flags: Flags, snap: Snapshot, env: Env)
    requires snap.tickerSize > 0
    ensures var o := RunOutcome(c, flags, snap, env);
            o.Order? ==> (o.side == Ask <==> Decide(flags, snap) == Sell)
                         && (o.side == Bid <==> Decide(flags, snap) == Buy)
  {
  }

  /** With the kill switch set no run produces an order. */
  lemma KillSwitchBlocksOrders(c: Config, flags: Flags, snap: Snapshot, env: Env)
    requires snap.tickerSize > 0 && env.trendTradesDisabled
    ensures !RunOutcome(c, flags, snap, env).Order?
  {
  }

  /** In simulation mode the exchange is never contacted, and any order counts as a success. */
  lemma SimulationNeverSubmits(c: Config, flags: Flags, snap: Snapshot, env: Env)
    requires snap.tickerSize > 0 && env.simMode
    ensures var o := RunOutcome(c, flags, snap, env);
            o.Order? ==> !o.submitted && o.success
  {
  }

  /** A live order succeeds exactly when the exchange returns a reference. */
  lemma LiveOrderSuccess(c: Config, flags: Flags, snap: Snapshot, env: Env)
    requires snap.tickerSize > 0 && !env.simMode
    ensures var o := RunOutcome(c, flags, snap, env);
            o.Order? ==> o.submitted && (o.success <==> env.orderReply.Some?)
  {
  }

  /** The sell-side scenario run end to end with ADS alone enabled: trend arrow 2 and bid
      arrow 4 point up, the bid is above VWAP, and 4.5 BTC is sold. */
  lemma WorkedSellRun()
    ensures RunOutcome(Config(5.0, 0.1, 1000.0, 10.0, 0.9, 2),
                       Flags(true, false, false),
                       Snapshot(2.0, 4.0, 1.0, 100.0, 101.0, 102.0, 2, 0.0, 0.0, 0.0, 0.0),
                       Env(Balance(10.0), Balance(500.0), false, false, Some("order-1")))
            == Order(Ask, 4.5, true, true)
  {
  }

  /** A sized order below the minimum ends the run without an order and without an error. */
  lemma BelowMinimumIsNoOp()
    ensures RunOutcome(Config(5.0, 0.1, 1000.0, 10.0, 0.9, 2),
                       Flags(true, false, false),
                       Snapshot(0.1, 0.1, 1.0, 100.0, 101.0, 102.0, 2, 0.0, 0.0, 0.0, 0.0),
                       Env(Balance(10.0), Balance(500.0), false, false, Some("order-1")))
            == NoAction(InsufficientMomentum)
  {
  }
}
