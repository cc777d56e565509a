# Trend-following trading agent: decision and sizing model

This project models the decision core of `TrendTradingAgent`, the component of the AidoATP
trading bot that, on each market-data tick, decides whether to sell BTC, buy BTC or hold,
sizes the order under the configured risk limits and hands it to the exchange.

It covers four parts:

- **Trend detectors** (module `Signals`). Advance/Decline spread (ADS), EMA crossover and
  SMA crossover. Each one is gated by its own enable flag and leaves an (up, down) pair. A
  disabled detector leaves both false, which is also what a flat detector leaves. The
  resolver tells the two apart through the enable flag, so the model keeps that flag in
  every `Signal`.
- **Decision resolver** (`Signals.Resolve`). The two boolean formulas of the source
  (`evalAsk`, `evalBid`) are reproduced exactly as written. The sell formula is tested
  first, then the buy formula, and holding is the fallback.
- **Position sizer** (module `Sizing`, methods `EvalAsk`/`EvalBid`). The steps are:
  - the VWAP gate;
  - the weight formula chosen by `algorithm`, its absolute value, and the clamp to
    `maxWeight`;
  - the balance lookup (wallet missing, no balance, zero balance);
  - the quantity formula and its reduction to the maximum;
  - the minimum check;
  - the kill switch.
- **Order outcome** (`MarketOrder`). In simulation mode the order succeeds without the
  exchange. Otherwise it succeeds iff the exchange returns a reference.

The class `Agent.TrendTradingAgent` holds the configuration, which never changes after
the constructor, as `const` fields. Its methods follow the source step for step: local
booleans set inside if-branches, and a `weight` and quantity reassigned, with early
returns. Each method is proved equal to a specification function (`RunOutcome`,
`SellOutcome`, `BuyOutcome`, `Execute`). The lemmas state the properties of those
functions.

Money amounts (exact decimals in the source) and the weight (a `Double` in the source)
are `real`s. The ticker size is an integer and must be positive.

The indicator snapshot, the enable flags and the collaborators' answers are parameters
of a run:
- the two balances, each one of `WalletNotFound`, `NullBalance` or `Balance(amount)`;
- the arbitrage engine's kill switch;
- simulation mode;
- the exchange's reply.

A run ends in an `Outcome`:
- `NoAction(reason)`;
- `Order(side, qty, submitted, success)`, where `submitted` records whether the exchange
  was contacted;
- `Fatal`, which stands for the process exit after a missing wallet.

The comments at TrendTradingAgent.java lines 204-234 describe the two paths with buy and
sell swapped. The code is unambiguous: `evalAsk` leads to an `ASK` (sell) order at line
328, and `evalBid` to a `BID` (buy) order at line 422. The model follows the code. So with
ADS and EMA disabled, an SMA that is up selects the sell path (the term `!useEMA && smaUp`
of line 219). The source's own comment at lines 204-217 gives the swapped reading: it
lists "AD spread is disabled and EMA is disabled SMA is trending up" under "Look to Buy".

## Model

| member | source | states |
|---|---|---|
| `Signals.AdsSignal` | src/org/open/payment/alliance/isis/atp/TrendTradingAgent.java:124-132 | ADS is up iff it is enabled and the trend and bid arrows are both positive. It is down iff it is enabled and the trend and ask arrows are both negative. Never both; a disabled detector is neither. |
| `Signals.CrossSignal` | src/org/open/payment/alliance/isis/atp/TrendTradingAgent.java:151-185 | EMA/SMA is up iff it is enabled and short > long, and down iff it is enabled and short < long. Never both; a disabled detector is neither. |
| `Signals.ReadingOf` | src/org/open/payment/alliance/isis/atp/TrendTradingAgent.java:69-75 | The (enabled, up, down) triple is the same as an optional Up/Down/Flat reading. Absent iff disabled, Flat iff enabled and neither up nor down. |
| `Signals.Resolve` | src/org/open/payment/alliance/isis/atp/TrendTradingAgent.java:238-244 | Sell iff the sell formula holds. Buy iff the sell formula fails and the buy formula holds. Hold iff neither holds. |
| `Signals.ResolveMatchesRules` | src/org/open/payment/alliance/isis/atp/TrendTradingAgent.java:219-236 | The boolean formulas agree, in both directions, with the same rules stated over optional trinary readings (a disabled detector is Absent, not Flat). |
| `Signals.SellAndBuyExclusive` | src/org/open/payment/alliance/isis/atp/TrendTradingAgent.java:219-244 | For well-formed detector outputs, the sell and buy formulas are never both true. So the resolver buys exactly when the buy formula holds. |
| `Signals.DetectorsNeverBothPaths` | src/org/open/payment/alliance/isis/atp/TrendTradingAgent.java:124-236 | For every choice of flags and indicator values, the detectors never make both formulas true. |
| `Signals.AllDisabledHolds` | src/org/open/payment/alliance/isis/atp/TrendTradingAgent.java:219-244 | With all three detectors disabled the agent holds. |
| `Signals.FlatAdsHolds` | src/org/open/payment/alliance/isis/atp/TrendTradingAgent.java:219-244 | An enabled ADS that is neither up nor down makes the agent hold, whatever EMA and SMA say. |
| `Signals.SmaAloneDecides` | src/org/open/payment/alliance/isis/atp/TrendTradingAgent.java:219-244 | With ADS and EMA disabled: SMA up sells, SMA down buys, otherwise the agent holds. |
| `Signals.EmaAndSmaUpHolds` | src/org/open/payment/alliance/isis/atp/TrendTradingAgent.java:219-244 | With ADS disabled, EMA up together with SMA up makes the agent hold. |
| `Signals.DisabledIsNotFlat` | src/org/open/payment/alliance/isis/atp/TrendTradingAgent.java:219 | Disabling EMA and leaving it enabled but flat give different decisions for the same SMA. |
| `Sizing.Weight` | src/org/open/payment/alliance/isis/atp/TrendTradingAgent.java:263-277 | The weight applied is the lesser of the absolute raw weight and `maxWeight`. It is not negative when `maxWeight` is not negative. |
| `Sizing.BaseAmount` | src/org/open/payment/alliance/isis/atp/TrendTradingAgent.java:306-314 | The weight is applied to the whole balance for algorithm 1. Otherwise it is applied to the lesser of the balance and the maximum. |
| `Sizing.ReduceToMax` | src/org/open/payment/alliance/isis/atp/TrendTradingAgent.java:317-321 | The reduced quantity is the lesser of the quantity and the maximum. |
| `Sizing.ReduceToMaxIdempotent` | src/org/open/payment/alliance/isis/atp/TrendTradingAgent.java:411-414 | Reducing an already reduced quantity changes nothing. |
| `Sizing.ProductAlgorithmSelfLimiting` | src/org/open/payment/alliance/isis/atp/TrendTradingAgent.java:306-321 | For algorithms other than 1, with `0 <= maxWeight <= 1` and a non-negative maximum, the sized order never exceeds the maximum. So the reduction step never changes it. |
| `Sizing.Execute` | src/org/open/payment/alliance/isis/atp/TrendTradingAgent.java:437-458 | The order keeps its side and quantity. The exchange is contacted iff not in simulation mode. Success iff in simulation mode or the exchange returned a reference. |
| `Sizing.SideOutcomeNoOrder` | src/org/open/payment/alliance/isis/atp/TrendTradingAgent.java:252-344 | An unfavourable price means no action. A missing wallet is fatal iff the price was favourable. A null or zero balance means no action. Too small a quantity means no action. With the kill switch set, an order of sufficient size is not placed. |
| `Sizing.SideOutcomeOrder` | src/org/open/payment/alliance/isis/atp/TrendTradingAgent.java:297-331 | An order results iff the price is favourable, the balance is present and non-zero, the reduced quantity reaches the minimum and the kill switch is off. The order then has min <= qty <= max and is the reduced quantity submitted on the side. |
| `Sizing.WorkedSellSizing` | src/org/open/payment/alliance/isis/atp/TrendTradingAgent.java:263-328 | Algorithm 2, bid arrow 4, trend 2, ticker size 2, balance 10, max 5, min 0.1 and `maxWeight` 0.9: the raw weight (4/2)*(2/2) is 2, clamped to 0.9. The balance 10 is at least the maximum, so the base is 5. The quantity is 4.5 and the order sells 4.5. |
| `Agent.RunOutcomeProperties` | src/org/open/payment/alliance/isis/atp/TrendTradingAgent.java:238-244 | A run holds iff the resolver holds. A sell order needs a sell decision and bid > VWAP, with qty within the BTC limits. A buy order needs a buy decision and ask < VWAP, with qty within the local limits. No order under the kill switch. A fatal end iff the chosen side's gate opened and its wallet is missing. |
| `Agent.OrderSideMatchesDecision` | src/org/open/payment/alliance/isis/atp/TrendTradingAgent.java:238-244 | An order is an ASK iff the resolver chose sell, and a BID iff it chose buy. |
| `Agent.KillSwitchBlocksOrders` | src/org/open/payment/alliance/isis/atp/TrendTradingAgent.java:327-331 | With the kill switch set, no run produces an order. |
| `Agent.SimulationNeverSubmits` | src/org/open/payment/alliance/isis/atp/TrendTradingAgent.java:439-447 | In simulation mode the exchange is never contacted and every order is a success. |
| `Agent.LiveOrderSuccess` | src/org/open/payment/alliance/isis/atp/TrendTradingAgent.java:441-444 | Outside simulation mode an order is submitted, and it succeeds iff the exchange returns a reference. |
| `Agent.WorkedSellRun` | src/org/open/payment/alliance/isis/atp/TrendTradingAgent.java:124-328 | The worked sell scenario run end to end, with ADS alone enabled, sells 4.5 BTC. |
| `Agent.BelowMinimumIsNoOp` | src/org/open/payment/alliance/isis/atp/TrendTradingAgent.java:322-326 | A sized order under the minimum ends as a no-action, not an error. |
| `Agent.TrendTradingAgent.constructor` | src/org/open/payment/alliance/isis/atp/TrendTradingAgent.java:52-65 | The limits, the weight ceiling and the algorithm are fixed at construction. |
| `Agent.TrendTradingAgent.Run` | src/org/open/payment/alliance/isis/atp/TrendTradingAgent.java:67-249 | The detectors set by if-branches, the two formulas, and the sell-first dispatch give exactly `RunOutcome`. |
| `Agent.TrendTradingAgent.EvalAsk` | src/org/open/payment/alliance/isis/atp/TrendTradingAgent.java:252-344 | The step-by-step sell sizing gives exactly `SellOutcome`: bid above VWAP, bid arrow, BTC balance and BTC limits. |
| `Agent.TrendTradingAgent.EvalBid` | src/org/open/payment/alliance/isis/atp/TrendTradingAgent.java:347-435 | The step-by-step buy sizing gives exactly `BuyOutcome`: ask below VWAP, ask arrow, local balance and local limits. The weight converted again after the clamp (line 399) is the one applied. |
| `Agent.TrendTradingAgent.AbsoluteWeight` | src/org/open/payment/alliance/isis/atp/TrendTradingAgent.java:355-361 | The algorithm's weight formula followed by `Math.abs`: a non-negative value equal to the absolute raw weight. Both sides share this step; the sell side has the same code at lines 265-272. |
| `Agent.TrendTradingAgent.MarketOrder` | src/org/open/payment/alliance/isis/atp/TrendTradingAgent.java:437-458 | Success starts true and, outside simulation mode only, becomes whether the exchange returned a reference. The result is `Execute`. |

## Left out

- Logging and message construction (lines 87-122, the detector messages, all `log.*`
  calls). They have no effect on the decision. The ADS message follows the sign of the
  trend arrow, not the detector's result.
- The exchange, `PollingTradeService.placeMarketOrder`, the construction of the
  `MarketOrder` object, `AccountManager`, `ArbitrageEngine` and the `Application`
  configuration. These are foreign calls. Their answers are parameters, and the
  configuration values arrive already parsed, so the `"1"` string comparison for the
  enable flags is not modelled.
- The instance fields that `run` fills from the observer (`trendArrow`, `vwap`, the
  averages, the last tick, the ticker size). They are overwritten at the start of each
  run, before they are read, so they are a `Snapshot` parameter rather than mutable
  fields.
- The null checks on the configured limits (lines 286-295, 380-389). The limits are
  always present in this model.
- Profit/loss reporting after a successful order (lines 460-472). It is double-precision
  arithmetic on values that are only logged.
- The process exit (lines 337, 429) is the `Fatal` outcome. The generic exception
  handler of `run` (lines 245-248) is not modelled.
- Weight: IEEE double behaviour is not modelled. The weight is an exact real and the
  ticker size must be positive. This excludes the infinities and NaN that a zero ticker
  size produces, the exact `BigDecimal` conversion of a double, and the rounding that is
  used only in log messages. It also excludes overflow of the double formula (lines 266,
  268, 356, 358) to Infinity, or NaN from Infinity times 0, with a positive ticker size.
  In that case the two sides differ. `evalBid` converts the unclamped weight with
  `new BigDecimal(weight)` at line 364, which throws `NumberFormatException`, so the run
  ends in the generic handler of lines 245-248. `evalAsk` clamps at line 274 before it
  converts at line 305.
- Exchange and balance calls that block, and concurrent runs, are outside the model.
