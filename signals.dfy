/** Trend detectors and the decision resolver of the trend-following trading agent.

    Each of the three detectors (Advance/Decline spread, EMA crossover, SMA crossover)
    is gated by its own enable flag and leaves an (up, down) pair of booleans. A disabled
    detector leaves both booleans false, exactly as a flat one does; the two are told apart
    only by the enable flag, which the resolver formulas read directly. */
module Signals {

  /** What one detector leaves behind for the resolver. */
  datatype Signal = Signal(enabled: bool, up: bool, down: bool)

  /** The three-valued reading of an enabled detector. */
  datatype Trend = Up | Down | Flat

  /** A reading that may be absent, for a detector that is switched off. */
  datatype Reading = Absent | Present(trend: Trend)

  /** The resolver's single answer per run. */
  datatype Decision = Sell | Buy | Hold

  /** What every detector output satisfies: it never says up and down at once,
      and a disabled detector says neither. */
  predicate WellFormed(s: Signal)
  {
    !(s.up && s.down) && (!s.enabled ==> !s.up && !s.down)
  }

  /** Advance/Decline spread: up when the trend and bid arrows are both positive,
      down when the trend and ask arrows are both negative. */
  function AdsSignal(useADS: bool, trendArrow: real, bidArrow: real, askArrow: real): (s: Signal)
    ensures WellFormed(s)
    ensures s.enabled == useADS
    ensures s.up <==> useADS && trendArrow > 0.0 && bidArrow > 0.0
    ensures s.down <==> useADS && trendArrow < 0.0 && askArrow < 0.0
  {
    if !useADS then Signal(false, false, false)
    else if trendArrow > 0.0 && bidArrow > 0.0 then Signal(true, true, false)
    else if trendArrow < 0.0 && askArrow < 0.0 then Signal(true, false, true)
    else Signal(true, false, false)
  }

  /** Moving-average crossover (used for both EMA and SMA): up when the short average
      is above the long one, down when it is below. */
  function CrossSignal(enabled: bool, short: real, long: real): (s: Signal)
    ensures WellFormed(s)
    ensures s.enabled == enabled
    ensures s.up <==> enabled && short > long
    ensures s.down <==> enabled && short < long
  {
    if !enabled then Signal(false, false, false)
    else if short > long then Signal(true, true, false)
    else if short < long then Signal(true, false, true)
    else Signal(true, false, false)
  }

  /** The optional trinary view of a detector output. */
  function ReadingOf(s: Signal): (r: Reading)
    requires WellFormed(s)
    ensures r == Absent <==> !s.enabled
    ensures r == Present(Up) <==> s.up
    ensures r == Present(Down) <==> s.down
    ensures r == Present(Flat) <==> s.enabled && !s.up && !s.down
  {
    if !s.enabled then Absent
    else if s.up then Present(Up)
    else if s.down then Present(Down)
    else Present(Flat)
  }

  /** The sell condition (the boolean named evalAsk in the source), as written. */
  predicate SellCondition(ads: Signal, ema: Signal, sma: Signal)
  {
    (ads.up && ((!sma.enabled && (ema.down || !ema.enabled)) || (sma.down && (!ema.enabled || ema.down))))
    || (!ads.enabled && ((ema.up && (sma.down || !sma.enabled)) || (!ema.enabled && sma.up)))
  }

  /** The buy condition (the boolean named evalBid in the source), as written. */
  predicate BuyCondition(ads: Signal, ema: Signal, sma: Signal)
  {
    (ads.down && ((!ema.enabled && (sma.up || !sma.enabled)) || (ema.up && (!sma.enabled || sma.up))))
    || (!ads.enabled && ((ema.down && (sma.up || !sma.enabled)) || (!ema.enabled && sma.down)))
  }

  /** The resolver: the sell path is tested first, then the buy path, and holding is the fallback. */
  function Resolve(ads: Signal, ema: Signal, sma: Signal): (d: Decision)
    ensures d == Sell <==> SellCondition(ads, ema, sma)
    ensures d == Buy <==> !SellCondition(ads, ema, sma) && BuyCondition(ads, ema, sma)
    ensures d == Hold <==> !SellCondition(ads, ema, sma) && !BuyCondition(ads, ema, sma)
  {
    if SellCondition(ads, ema, sma) then Sell
    else if BuyCondition(ads, ema, sma) then Buy
    else Hold
  }

  /** Reference statement of the sell rule over optional trinary readings. */
  predicate SellRule(ads: Reading, ema: Reading, sma: Reading)
  {
    (ads == Present(Up) && ((sma == Absent && (ema == Present(Down) || ema == Absent))
                            || (sma == Present(Down) && (ema == Absent || ema == Present(Down)))))
    || (ads == Absent && ((ema == Present(Up) && (sma == Present(Down) || sma == Absent))
                          || (ema == Absent && sma == Present(Up))))
  }

  /** Reference statement of the buy rule over optional trinary readings. */
  predicate BuyRule(ads: Reading, ema: Reading, sma: Reading)
  {
    (ads == Present(Down) && ((ema == Absent && (sma == Present(Up) || sma == Absent))
                              || (ema == Present(Up) && (sma == Absent || sma == Present(Up)))))
    || (ads == Absent && ((ema == Present(Down) && (sma == Present(Up) || sma == Absent))
                          || (ema == Absent && sma == Present(Down))))
  }

  /** The boolean encoding agrees with the rules over optional trinary readings. */
  lemma ResolveMatchesRules(ads: Signal, ema: Signal, sma: Signal)
    requires WellFormed(ads) && WellFormed(ema) && WellFormed(sma)
    ensures SellCondition(ads, ema, sma) <==> SellRule(ReadingOf(ads), ReadingOf(ema), ReadingOf(sma))
    ensures BuyCondition(ads, ema, sma) <==> BuyRule(ReadingOf(ads), ReadingOf(ema), ReadingOf(sma))
  {
  }

  /** The two paths never both fire, so the sell-first ordering never overrides a buy. */
  lemma SellAndBuyExclusive(ads: Signal, ema: Signal, sma: Signal)
    requires WellFormed(ads) && WellFormed(ema) && WellFormed(sma)
    ensures !(SellCondition(ads, ema, sma) && BuyCondition(ads, ema, sma))
    ensures Resolve(ads, ema, sma) == Buy <==> BuyCondition(ads, ema, sma)
  {
  }

  /** The same, stated over the raw indicator values and enable flags. */
  lemma DetectorsNeverBothPaths(useADS: bool, useEMA: bool, useSMA: bool,
                                trendArrow: real, bidArrow: real, askArrow: real,
                                emaShort: real, emaLong: real, smaShort: real, smaLong: real)
    ensures var ads := AdsSignal(useADS, trendArrow, bidArrow, askArrow);
            var ema := CrossSignal(useEMA, emaShort, emaLong);
            var sma := CrossSignal(useSMA, smaShort, smaLong);
            !(SellCondition(ads, ema, sma) && BuyCondition(ads, ema, sma))
  {
    SellAndBuyExclusive(AdsSignal(useADS, trendArrow, bidArrow, askArrow),
                        CrossSignal(useEMA, emaShort, emaLong),
                        CrossSignal(useSMA, smaShort, smaLong));
  }

  /** With every detector switched off the agent holds. */
  lemma AllDisabledHolds(ads: Signal, ema: Signal, sma: Signal)
    requires WellFormed(ads) && WellFormed(ema) && WellFormed(sma)
    requires !ads.enabled && !ema.enabled && !sma.enabled
    ensures Resolve(ads, ema, sma) == Hold
  {
  }

  /** An enabled but flat ADS detector vetoes trading, whatever EMA and SMA say. */
  lemma FlatAdsHolds(ads: Signal, ema: Signal, sma: Signal)
    requires WellFormed(ads) && WellFormed(ema) && WellFormed(sma)
    requires ads.enabled && !ads.up && !ads.down
    ensures Resolve(ads, ema, sma) == Hold
  {
  }

  /** With ADS and EMA switched off the decision follows SMA alone: up sells, down buys,
      flat or absent holds. */
  lemma SmaAloneDecides(ads: Signal, ema: Signal, sma: Signal)
    requires WellFormed(ads) && WellFormed(ema) && WellFormed(sma)
    requires !ads.enabled && !ema.enabled
    ensures sma.up ==> Resolve(ads, ema, sma) == Sell
    ensures sma.down ==> Resolve(ads, ema, sma) == Buy
    ensures !sma.up && !sma.down ==> Resolve(ads, ema, sma) == Hold
  {
  }

  /** With ADS switched off, EMA and SMA both up is a disagreement and the agent holds. */
  lemma EmaAndSmaUpHolds(ads: Signal, ema: Signal, sma: Signal)
    requires WellFormed(ads) && WellFormed(ema) && WellFormed(sma)
    requires !ads.enabled && ema.up && sma.up
    ensures Resolve(ads, ema, sma) == Hold
  {
  }

  /** Switching a detector off is not the same as it reading flat: with ADS and EMA off an
      up SMA sells, while the same SMA with EMA enabled and flat holds. */
  lemma DisabledIsNotFlat()
    ensures Resolve(Signal(false, false, false), Signal(false, false, false), Signal(true, true, false)) == Sell
    ensures Resolve(Signal(false, false, false), Signal(true, false, false), Signal(true, true, false)) == Hold
  {
  }
}
