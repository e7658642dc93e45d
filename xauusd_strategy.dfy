/** The pullback-in-trend signal generator of the TypeScript trading core, with its
    stop-loss, R-multiple take-profit and trailing-stop formulas. The indicator
    modules it calls are not part of this model: a `Strategy` carries them as the
    function `indicatorsOf`. */
module XauusdStrategy {
  import opened Common
  import opened TradingTypes

  datatype Trend = Up | Down
  datatype Bands = Bands(upper: real, middle: real, lower: real)
  datatype MacdValue = MacdValue(macd: real, signal: real, histogram: real)
  datatype SuperTrendValue = SuperTrendValue(value: real, trend: Trend)

  /** The snapshot of every indicator at the latest candle of a window. */
  datatype IndicatorValues = IndicatorValues(
    keltner: Bands,
    bollinger: Bands,
    macd: MacdValue,
    cci: real,
    supertrend: SuperTrendValue,
    atr: real)

  type Aggressiveness = a: int | 1 <= a <= 3 witness 1

  /** The strategy and risk settings the strategy reads; an absent number is `None`. */
  datatype StrategyConfig = StrategyConfig(
    aggressiveness: Aggressiveness,
    trailingActivation: Option<real>,
    trailingDistance: Option<real>,
    stopLossMultiple: Option<real>,
    takeProfitLevels: Option<seq<real>>)

  /** A strategy instance: its configuration and the indicator computation it delegates to. */
  datatype Strategy = Strategy(config: StrategyConfig, indicatorsOf: seq<Candle> -> Option<IndicatorValues>)

  /** Windows shorter than this never get indicators. */
  const MinCandles: nat := 35

  function CalculateIndicators(s: Strategy, candles: seq<Candle>): (r: Option<IndicatorValues>)
    ensures |candles| < MinCandles ==> r.None?
    ensures |candles| >= MinCandles ==> r == s.indicatorsOf(candles)
  {
    if |candles| < MinCandles then None else s.indicatorsOf(candles)
  }

  // ---------------------------------------------------------------------------
  // Entry rules

  /** Which condition an entry check stopped at, or `Entered`. */
  datatype EntryReason =
    | Entered
    | TrendAgainst
    | NoPullback
    | MacdAgainst
    | CciExtreme
    | CandleAgainst
    | CciFilter

  datatype EntryCheck = EntryCheck(signal: bool, reason: EntryReason)

  /** The long rule: a bullish candle pulling back below the Bollinger midline in an up trend. */
  function CheckLongEntry(price: real, ind: IndicatorValues, latest: Candle, aggressiveness: Aggressiveness): (r: EntryCheck)
    ensures r.signal <==>
      ind.supertrend.trend == Up &&
      price <= ind.bollinger.middle * 0.995 &&
      ind.macd.macd > ind.macd.signal &&
      ind.cci > -100.0 &&
      latest.close > latest.open &&
      (aggressiveness == 1 ==> ind.cci > 0.0) &&
      (aggressiveness == 2 ==> ind.cci > -50.0)
    ensures r.signal <==> r.reason == Entered
  {
    if ind.supertrend.trend != Up then EntryCheck(false, TrendAgainst)
    else if !(price <= ind.bollinger.middle * 0.995) then EntryCheck(false, NoPullback)
    else if !(ind.macd.macd > ind.macd.signal) then EntryCheck(false, MacdAgainst)
    else if !(ind.cci > -100.0) then EntryCheck(false, CciExtreme)
    else if !(latest.close > latest.open) then EntryCheck(false, CandleAgainst)
    else if aggressiveness == 1 && ind.cci <= 0.0 then EntryCheck(false, CciFilter)
    else if aggressiveness == 2 && ind.cci <= -50.0 then EntryCheck(false, CciFilter)
    else EntryCheck(true, Entered)
  }

  /** The short rule, the mirror image of the long rule. */
  function CheckShortEntry(price: real, ind: IndicatorValues, latest: Candle, aggressiveness: Aggressiveness): (r: EntryCheck)
    ensures r.signal <==>
      ind.supertrend.trend == Down &&
      price >= ind.bollinger.middle * 1.005 &&
      ind.macd.macd < ind.macd.signal &&
      ind.cci < 100.0 &&
      latest.close < latest.open &&
      (aggressiveness == 1 ==> ind.cci < 0.0) &&
      (aggressiveness == 2 ==> ind.cci < 50.0)
    ensures r.signal <==> r.reason == Entered
  {
    if ind.supertrend.trend != Down then EntryCheck(false, TrendAgainst)
    else if !(price >= ind.bollinger.middle * 1.005) then EntryCheck(false, NoPullback)
    else if !(ind.macd.macd < ind.macd.signal) then EntryCheck(false, MacdAgainst)
    else if !(ind.cci < 100.0) then EntryCheck(false, CciExtreme)
    else if !(latest.close < latest.open) then EntryCheck(false, CandleAgainst)
    else if aggressiveness == 1 && ind.cci >= 0.0 then EntryCheck(false, CciFilter)
    else if aggressiveness == 2 && ind.cci >= 50.0 then EntryCheck(false, CciFilter)
    else EntryCheck(true, Entered)
  }

  /** The two rules never fire together: they need opposite trends. */
  lemma LongShortExclusive(price: real, ind: IndicatorValues, latest: Candle, aggressiveness: Aggressiveness)
    ensures !(CheckLongEntry(price, ind, latest, aggressiveness).signal &&
              CheckShortEntry(price, ind, latest, aggressiveness).signal)
  {
  }

  // ---------------------------------------------------------------------------
  // Signal generation

  datatype SignalType = LongSignal | ShortSignal | NoSignal

  datatype SignalReason = NoCandleData | InsufficientData | LongPullback | ShortPullback | NoEntryConditions

  datatype Signal = Signal(
    kind: SignalType,
    reason: SignalReason,
    timestamp: int,
    price: real,
    indicators: Option<IndicatorValues>)

  /** Whether the long rule fires on a window (of at least `MinCandles` candles with indicators). */
  predicate LongFires(s: Strategy, candles: seq<Candle>)
    requires |candles| > 0
  {
    var ind := CalculateIndicators(s, candles);
    var latest := candles[|candles| - 1];
    ind.Some? && CheckLongEntry(latest.close, ind.value, latest, s.config.aggressiveness).signal
  }

  predicate ShortFires(s: Strategy, candles: seq<Candle>)
    requires |candles| > 0
  {
    var ind := CalculateIndicators(s, candles);
    var latest := candles[|candles| - 1];
    ind.Some? && CheckShortEntry(latest.close, ind.value, latest, s.config.aggressiveness).signal
  }

  /** Evaluates the strategy on a window of candles; `now` is the clock reading used
      only when the window is empty. */
  function GenerateSignal(s: Strategy, candles: seq<Candle>, now: int): (r: Signal)
    ensures |candles| == 0 ==> r == Signal(NoSignal, NoCandleData, now, 0.0, None)
    ensures 0 < |candles| ==> r.price == candles[|candles| - 1].close && r.timestamp == candles[|candles| - 1].closeTime
    ensures 0 < |candles| < MinCandles ==> r.kind == NoSignal && r.reason == InsufficientData && r.indicators.None?
    ensures r.kind == LongSignal <==> 0 < |candles| && LongFires(s, candles)
    ensures r.kind == ShortSignal <==> 0 < |candles| && !LongFires(s, candles) && ShortFires(s, candles)
    ensures r.kind != NoSignal ==> r.indicators == CalculateIndicators(s, candles) && r.indicators.Some?
  {
    if |candles| == 0 then Signal(NoSignal, NoCandleData, now, 0.0, None)
    else
      var latest := candles[|candles| - 1];
      var price := latest.close;
      var ind := CalculateIndicators(s, candles);
      if ind.None? then Signal(NoSignal, InsufficientData, latest.closeTime, price, None)
      else if CheckLongEntry(price, ind.value, latest, s.config.aggressiveness).signal then
        Signal(LongSignal, LongPullback, latest.closeTime, price, ind)
      else if CheckShortEntry(price, ind.value, latest, s.config.aggressiveness).signal then
        Signal(ShortSignal, ShortPullback, latest.closeTime, price, ind)
      else Signal(NoSignal, NoEntryConditions, latest.closeTime, price, ind)
  }

  // ---------------------------------------------------------------------------
  // Stop-loss, take-profit, trailing stop

  function StopLossMultiple(cfg: StrategyConfig): real {
    NumberOr(cfg.stopLossMultiple, 2.0)
  }

  /** The initial stop, a fixed ATR distance on the losing side of the entry. */
  function CalculateStopLoss(s: Strategy, entryPrice: real, side: Side, ind: IndicatorValues): (r: real)
    ensures Abs(entryPrice - r) == Abs(ind.atr * StopLossMultiple(s.config))
    ensures ind.atr * StopLossMultiple(s.config) >= 0.0 ==>
      (side == Long ==> r <= entryPrice) && (side == Short ==> r >= entryPrice)
    ensures s.config.stopLossMultiple.None? ==> Abs(entryPrice - r) == Abs(ind.atr * 2.0)
  {
    var distance := ind.atr * StopLossMultiple(s.config);
    if side == Long then entryPrice - distance else entryPrice + distance
  }

  /** The configured R-multiples; a missing list defaults to 3R, 6R, 9R (an empty list is kept). */
  function RMultiples(cfg: StrategyConfig): seq<real> {
    if cfg.takeProfitLevels.Some? then cfg.takeProfitLevels.value else [3.0, 6.0, 9.0]
  }

  function TakeProfitAt(entryPrice: real, risk: real, side: Side, rMultiple: real): real {
    if side == Long then entryPrice + risk * rMultiple else entryPrice - risk * rMultiple
  }

  /** One target per R-multiple, at that many risk distances beyond the entry. */
  function CalculateTakeProfitLevels(s: Strategy, entryPrice: real, stopLoss: real, side: Side): (r: seq<real>)
    ensures |r| == |RMultiples(s.config)|
    ensures forall k :: 0 <= k < |r| ==>
      r[k] == TakeProfitAt(entryPrice, Abs(entryPrice - stopLoss), side, RMultiples(s.config)[k])
  {
    var risk := Abs(entryPrice - stopLoss);
    var rs := RMultiples(s.config);
    seq(|rs|, k requires 0 <= k < |rs| => TakeProfitAt(entryPrice, risk, side, rs[k]))
  }

  /** Each target lies `|r|` risk distances from the entry, on the winning side when `r > 0`. */
  lemma TakeProfitPlacement(s: Strategy, entryPrice: real, stopLoss: real, side: Side, k: nat)
    requires k < |RMultiples(s.config)|
    ensures var levels := CalculateTakeProfitLevels(s, entryPrice, stopLoss, side);
      var rk := RMultiples(s.config)[k];
      Abs(levels[k] - entryPrice) == Abs(entryPrice - stopLoss) * Abs(rk) &&
      (entryPrice != stopLoss && rk > 0.0 ==>
        (side == Long ==> levels[k] > entryPrice) && (side == Short ==> levels[k] < entryPrice))
  {
    var risk := Abs(entryPrice - stopLoss);
    var rk := RMultiples(s.config)[k];
    AbsProduct(risk, rk);
    if entryPrice != stopLoss && rk > 0.0 {
      assert risk > 0.0;
      assert risk * rk > 0.0;
    }
  }

  lemma AbsProduct(a: real, b: real)
    requires a >= 0.0
    ensures Abs(a * b) == a * Abs(b) && Abs(-(a * b)) == a * Abs(b)
  {
    if b < 0.0 {
      assert a * b <= 0.0;
    } else {
      assert a * b >= 0.0;
    }
  }

  /** The first take-profit target of a trade whose stop comes from `CalculateStopLoss`
      sits `r` ATR multiples from the entry, on the winning side. */
  lemma FirstTargetDistance(s: Strategy, entryPrice: real, side: Side, ind: IndicatorValues)
    requires ind.atr >= 0.0 && StopLossMultiple(s.config) > 0.0
    requires |RMultiples(s.config)| > 0
    ensures var stop := CalculateStopLoss(s, entryPrice, side, ind);
            var tp := CalculateTakeProfitLevels(s, entryPrice, stop, side)[0];
            tp == TakeProfitAt(entryPrice, ind.atr * StopLossMultiple(s.config), side, RMultiples(s.config)[0])
  {
    var d := ind.atr * StopLossMultiple(s.config);
    assert d >= 0.0;
    var stop := CalculateStopLoss(s, entryPrice, side, ind);
    assert Abs(entryPrice - stop) == d;
  }

  datatype TrailingResult = TrailingResult(trailingStop: Option<real>, highestPrice: real, lowestPrice: real, active: bool)

  function TrailingActivation(cfg: StrategyConfig): real { NumberOr(cfg.trailingActivation, 1.5) }
  function TrailingDistance(cfg: StrategyConfig): real { NumberOr(cfg.trailingDistance, 1.0) }

  /** Whether `profit / risk >= activation` holds in floating point, where a zero risk
      gives an infinity (or NaN for a zero profit). */
  predicate ReachesActivation(profit: real, risk: real, activation: real)
    requires risk >= 0.0
  {
    if risk > 0.0 then profit / risk >= activation else profit > 0.0
  }

  /** The long half of the trailing stop: a new high-water mark, and once the profit
      reaches the activation R-multiple a stop that locks in at least 1R and trails
      the high by an ATR distance. */
  function TrailLong(entryPrice: real, currentPrice: real, highestPrice: Option<real>, risk: real,
                     activation: real, distance: real, atr: real): (r: TrailingResult)
    requires risk >= 0.0
    ensures r.active <==> ReachesActivation(currentPrice - entryPrice, risk, activation)
    ensures !r.active <==> r.trailingStop.None?
    ensures r.lowestPrice == 0.0 && r.highestPrice >= currentPrice
    ensures highestPrice.Some? ==> r.highestPrice >= highestPrice.value
    ensures r.highestPrice == currentPrice || (highestPrice.Some? && r.highestPrice == highestPrice.value)
    ensures r.active ==>
      r.trailingStop.value >= entryPrice + risk &&
      r.trailingStop.value >= r.highestPrice - atr * distance &&
      (r.trailingStop.value == entryPrice + risk || r.trailingStop.value == r.highestPrice - atr * distance)
  {
    var newHighest := if highestPrice.None? then currentPrice else Max(highestPrice.value, currentPrice);
    var profitR := JsDiv(currentPrice - entryPrice, risk);
    if AtLeast(profitR, activation) then
      var profitLock := entryPrice + risk * 1.0;
      TrailingResult(Some(Max(profitLock, newHighest - atr * distance)), newHighest, 0.0, true)
    else
      TrailingResult(None, newHighest, 0.0, false)
  }

  /** The short half, mirrored around the low-water mark. */
  function TrailShort(entryPrice: real, currentPrice: real, lowestPrice: Option<real>, risk: real,
                      activation: real, distance: real, atr: real): (r: TrailingResult)
    requires risk >= 0.0
    ensures r.active <==> ReachesActivation(entryPrice - currentPrice, risk, activation)
    ensures !r.active <==> r.trailingStop.None?
    ensures r.highestPrice == 0.0 && r.lowestPrice <= currentPrice
    ensures lowestPrice.Some? ==> r.lowestPrice <= lowestPrice.value
    ensures r.lowestPrice == currentPrice || (lowestPrice.Some? && r.lowestPrice == lowestPrice.value)
    ensures r.active ==>
      r.trailingStop.value <= entryPrice - risk &&
      r.trailingStop.value <= r.lowestPrice + atr * distance &&
      (r.trailingStop.value == entryPrice - risk || r.trailingStop.value == r.lowestPrice + atr * distance)
  {
    var newLowest := if lowestPrice.None? then currentPrice else Min(lowestPrice.value, currentPrice);
    var profitR := JsDiv(entryPrice - currentPrice, risk);
    if AtLeast(profitR, activation) then
      var profitLock := entryPrice - risk * 1.0;
      TrailingResult(Some(Min(profitLock, newLowest + atr * distance)), 0.0, newLowest, true)
    else
      TrailingResult(None, 0.0, newLowest, false)
  }

  /** The trailing-stop step for either side, with the configured activation and distance. */
  function CalculateTrailingStop(
    s: Strategy, entryPrice: real, currentPrice: real, highestPrice: Option<real>, lowestPrice: Option<real>,
    initialStopLoss: real, side: Side, atr: real): (r: TrailingResult)
    ensures side == Long ==> r == TrailLong(entryPrice, currentPrice, highestPrice, Abs(entryPrice - initialStopLoss),
                                            TrailingActivation(s.config), TrailingDistance(s.config), atr)
    ensures side == Short ==> r == TrailShort(entryPrice, currentPrice, lowestPrice, Abs(entryPrice - initialStopLoss),
                                              TrailingActivation(s.config), TrailingDistance(s.config), atr)
  {
    var risk := Abs(entryPrice - initialStopLoss);
    if side == Long then TrailLong(entryPrice, currentPrice, highestPrice, risk, TrailingActivation(s.config), TrailingDistance(s.config), atr)
    else TrailShort(entryPrice, currentPrice, lowestPrice, risk, TrailingActivation(s.config), TrailingDistance(s.config), atr)
  }
}
