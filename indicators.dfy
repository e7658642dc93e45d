/** The technical indicators of the Python system (`Indicators`): the crossover
    flags, the true range and its rolling mean, the Keltner and Bollinger bands, the
    CCI, and the two stateful loops, SuperTrend and ZigZag.

    A series is a list of values in index order. A value pandas would hold as NaN is
    `None`; every comparison with it is false, as in pandas. The moving averages that
    feed the band middles (`ewm`, `rolling().mean()`) and the rolling standard
    deviation are inputs here. */
module Indicators {
  import opened Common

  /** One row of a price frame. */
  datatype Ohlc = Ohlc(open: real, high: real, low: real, close: real)

  /** A bar whose open and close lie within its low-high range. */
  predicate Consistent(bar: Ohlc) {
    bar.low <= bar.open <= bar.high && bar.low <= bar.close <= bar.high
  }

  // ---------------------------------------------------------------------------
  // Crossover flags

  /** `macd_crossover` at bar `i`. The shifted series is NaN at the first bar, so no
      crossover is seen there. The bearish flag is written last. */
  function MacdCrossAt(macd: seq<real>, signal: seq<real>, i: nat): int
    requires |macd| == |signal| && i < |macd|
  {
    if i > 0 && macd[i] < signal[i] && macd[i - 1] >= signal[i - 1] then -1
    else if i > 0 && macd[i] > signal[i] && macd[i - 1] <= signal[i - 1] then 1
    else 0
  }

  /** `macd_crossover`: 1 where the MACD line crosses above the signal line, -1 where
      it crosses below, 0 elsewhere; the two crossings exclude each other. */
  function MacdCrossover(macd: seq<real>, signal: seq<real>): (r: seq<int>)
    requires |macd| == |signal|
    ensures |r| == |macd|
    ensures forall i :: 0 <= i < |r| ==> -1 <= r[i] <= 1
    ensures forall i :: 0 <= i < |r| ==>
      (r[i] == 1 <==> i > 0 && macd[i] > signal[i] && macd[i - 1] <= signal[i - 1])
    ensures forall i :: 0 <= i < |r| ==>
      (r[i] == -1 <==> i > 0 && macd[i] < signal[i] && macd[i - 1] >= signal[i - 1])
  {
    seq(|macd|, i requires 0 <= i < |macd| => MacdCrossAt(macd, signal, i))
  }

  /** `rsi_crossover` at bar `i`: the sign of `rsi.diff()`, which is NaN at the first
      bar and wherever either RSI value is. */
  function RsiCrossAt(rsi: seq<Option<real>>, i: nat): int
    requires i < |rsi|
  {
    if i == 0 || rsi[i].None? || rsi[i - 1].None? then 0
    else if rsi[i].value - rsi[i - 1].value < 0.0 then -1
    else if rsi[i].value - rsi[i - 1].value > 0.0 then 1
    else 0
  }

  /** `rsi_crossover`: 1 where the RSI rose, -1 where it fell, 0 where it stayed or a
      value is missing. */
  function RsiCrossover(rsi: seq<Option<real>>): (r: seq<int>)
    ensures |r| == |rsi|
    ensures forall i :: 0 <= i < |r| ==>
      (r[i] == 1 <==> i > 0 && rsi[i].Some? && rsi[i - 1].Some? && rsi[i].value > rsi[i - 1].value)
    ensures forall i :: 0 <= i < |r| ==>
      (r[i] == -1 <==> i > 0 && rsi[i].Some? && rsi[i - 1].Some? && rsi[i].value < rsi[i - 1].value)
    ensures forall i :: 0 <= i < |r| ==>
      (r[i] == 0 <==> i == 0 || rsi[i].None? || rsi[i - 1].None? || rsi[i].value == rsi[i - 1].value)
  {
    seq(|rsi|, i requires 0 <= i < |rsi| => RsiCrossAt(rsi, i))
  }

  // ---------------------------------------------------------------------------
  // True range, ATR and the bands

  /** The true range of bar `i`: the largest of its range and its distances from the
      previous close. The first bar has no previous close, and the row maximum skips
      missing values, so its true range is its range. */
  function TrueRange(bars: seq<Ohlc>, i: nat): (r: real)
    requires i < |bars|
    ensures r >= bars[i].high - bars[i].low
    ensures i > 0 ==> r >= Abs(bars[i].high - bars[i - 1].close) && r >= Abs(bars[i].low - bars[i - 1].close)
    ensures r == bars[i].high - bars[i].low ||
      (i > 0 && (r == Abs(bars[i].high - bars[i - 1].close) || r == Abs(bars[i].low - bars[i - 1].close)))
  {
    var range := bars[i].high - bars[i].low;
    if i == 0 then range
    else Max(range, Max(Abs(bars[i].high - bars[i - 1].close), Abs(bars[i].low - bars[i - 1].close)))
  }

  function TrueRanges(bars: seq<Ohlc>): (r: seq<real>)
    ensures |r| == |bars| && forall i :: 0 <= i < |bars| ==> r[i] == TrueRange(bars, i)
  {
    seq(|bars|, i requires 0 <= i < |bars| => TrueRange(bars, i))
  }

  function Ranges(bars: seq<Ohlc>): (r: seq<real>)
    ensures |r| == |bars| && forall i :: 0 <= i < |bars| ==> r[i] == bars[i].high - bars[i].low
  {
    seq(|bars|, i requires 0 <= i < |bars| => bars[i].high - bars[i].low)
  }

  /** `rolling(window=period).mean()` at index `i`: missing until `period` values exist,
      then the mean of the last `period` values. */
  function RollingMean(xs: seq<real>, period: nat, i: nat): (r: Option<real>)
    requires 0 < period && i < |xs|
    ensures r.None? <==> i + 1 < period
  {
    if i + 1 < period then None else Some(Mean(xs[i + 1 - period..i + 1]))
  }

  /** `atr(data, period)` at index `i`. */
  function Atr(bars: seq<Ohlc>, period: nat, i: nat): (r: Option<real>)
    requires 0 < period && i < |bars|
    ensures r.None? <==> i + 1 < period
  {
    RollingMean(TrueRanges(bars), period, i)
  }

  /** The ATR is at least the mean high-low range over its window, and it is never
      negative once its window has passed the first bar. */
  lemma AtrBounds(bars: seq<Ohlc>, period: nat, i: nat)
    requires 0 < period && i < |bars| && Atr(bars, period, i).Some?
    ensures Atr(bars, period, i).value >= RollingMean(Ranges(bars), period, i).value
    ensures i >= period ==> Atr(bars, period, i).value >= 0.0
  {
    var lo := i + 1 - period;
    var trs := TrueRanges(bars)[lo..i + 1];
    var ranges := Ranges(bars)[lo..i + 1];
    forall k | 0 <= k < |trs|
      ensures ranges[k] <= trs[k] && (lo + k > 0 ==> trs[k] >= 0.0)
    {
      assert trs[k] == TrueRange(bars, lo + k) && ranges[k] == bars[lo + k].high - bars[lo + k].low;
    }
    assert Atr(bars, period, i) == Some(Mean(trs));
    assert RollingMean(Ranges(bars), period, i) == Some(Mean(ranges));
    MeanMonotone(ranges, trs);
    if i >= period {
      MeanOfNonnegatives(trs);
    }
  }

  /** A band around a middle line: `middle ± width·multiple`, missing where the middle
      or the width is. */
  datatype Channel = Channel(middle: Option<real>, upper: Option<real>, lower: Option<real>)

  function Band(middle: Option<real>, width: Option<real>, multiple: real): (c: Channel)
    ensures c.middle == middle
    ensures c.upper.Some? <==> middle.Some? && width.Some?
    ensures c.lower.Some? <==> middle.Some? && width.Some?
    ensures c.upper.Some? ==>
      c.upper.value - middle.value == width.value * multiple && middle.value - c.lower.value == width.value * multiple
    ensures c.upper.Some? && width.value >= 0.0 && multiple >= 0.0 ==> c.lower.value <= middle.value <= c.upper.value
  {
    if middle.Some? && width.Some? then
      Channel(middle, Some(middle.value + width.value * multiple), Some(middle.value - width.value * multiple))
    else Channel(middle, None, None)
  }

  /** The price the Keltner middle line averages (`ma_price`): 0 open, 1 high, 2 low,
      3 the high-low median, anything else the close. It lies within a consistent bar. */
  function KeltnerPrice(bar: Ohlc, maPrice: int): (p: real)
    ensures Consistent(bar) ==> bar.low <= p <= bar.high
    ensures maPrice !in {0, 1, 2, 3} ==> p == bar.close
  {
    if maPrice == 3 then (bar.high + bar.low) / 2.0
    else if maPrice == 0 then bar.open
    else if maPrice == 1 then bar.high
    else if maPrice == 2 then bar.low
    else bar.close
  }

  /** `keltner_channel`: the given middle line (the moving average of the Keltner
      prices) banded by the ATR times `atr_multiple`. */
  function KeltnerChannel(bars: seq<Ohlc>, middle: seq<Option<real>>, atrPeriod: nat, multiple: real): (r: seq<Channel>)
    requires |middle| == |bars| && atrPeriod > 0
    ensures |r| == |bars|
    ensures forall i :: 0 <= i < |r| ==> r[i] == Band(middle[i], Atr(bars, atrPeriod, i), multiple)
  {
    seq(|bars|, i requires 0 <= i < |bars| => Band(middle[i], Atr(bars, atrPeriod, i), multiple))
  }

  /** Past the ATR's warm-up, a nonnegative multiple puts the Keltner middle line
      between its bands. */
  lemma KeltnerContainsMiddle(bars: seq<Ohlc>, middle: seq<Option<real>>, atrPeriod: nat, multiple: real, i: nat)
    requires |middle| == |bars| && atrPeriod > 0 && atrPeriod <= i < |bars|
    requires middle[i].Some? && multiple >= 0.0
    ensures var c := KeltnerChannel(bars, middle, atrPeriod, multiple)[i];
      c.upper.Some? && c.lower.value <= middle[i].value <= c.upper.value
  {
    AtrBounds(bars, atrPeriod, i);
  }

  /** `bollinger_bands`: the middle line banded by `deviation` standard deviations. */
  function BollingerBands(middle: seq<Option<real>>, std: seq<Option<real>>, deviation: real): (r: seq<Channel>)
    requires |middle| == |std|
    ensures |r| == |middle|
    ensures forall i :: 0 <= i < |r| ==> r[i].middle == middle[i] && (r[i].upper.Some? <==> middle[i].Some? && std[i].Some?)
    ensures forall i :: 0 <= i < |r| ==> (r[i].lower.Some? <==> middle[i].Some? && std[i].Some?)
    ensures forall i :: 0 <= i < |r| && r[i].upper.Some? ==>
      r[i].upper.value - middle[i].value == middle[i].value - r[i].lower.value == std[i].value * deviation
    ensures forall i :: 0 <= i < |r| && r[i].upper.Some? && std[i].value >= 0.0 && deviation >= 0.0 ==>
      r[i].lower.value <= middle[i].value <= r[i].upper.value
  {
    seq(|middle|, i requires 0 <= i < |middle| => Band(middle[i], std[i], deviation))
  }

  // ---------------------------------------------------------------------------
  // CCI

  function TypicalPrice(bar: Ohlc): real {
    (bar.high + bar.low + bar.close) / 3.0
  }

  function TypicalPrices(bars: seq<Ohlc>): (r: seq<real>)
    ensures |r| == |bars| && forall i :: 0 <= i < |bars| ==> r[i] == TypicalPrice(bars[i])
  {
    seq(|bars|, i requires 0 <= i < |bars| => TypicalPrice(bars[i]))
  }

  function Deviations(xs: seq<real>, m: real): (r: seq<real>)
    ensures |r| == |xs| && forall k :: 0 <= k < |xs| ==> r[k] == Abs(xs[k] - m)
  {
    seq(|xs|, k requires 0 <= k < |xs| => Abs(xs[k] - m))
  }

  /** The mean absolute deviation of a window from its mean: never negative, and zero
      exactly when every value equals the mean. */
  function MeanDeviation(xs: seq<real>): (r: real)
    ensures r >= 0.0
    ensures r == 0.0 <==> forall k :: 0 <= k < |xs| ==> xs[k] == Mean(xs)
  {
    var devs := Deviations(xs, Mean(xs));
    MeanOfNonnegatives(devs);
    Mean(devs)
  }

  /** The CCI of the last value of a window of typical prices: its distance from the
      window's mean in units of 0.015 mean deviations. A flat window divides 0 by 0
      and gives NaN; otherwise the result is finite, so it is never infinite, and its
      sign is the sign of that distance. */
  function CciOf(window: seq<real>): (r: Num)
    requires |window| > 0
    ensures !r.PosInf? && !r.NegInf?
    ensures r.NaN? <==> forall k :: 0 <= k < |window| ==> window[k] == Mean(window)
    ensures r.Finite? ==> (r.r > 0.0 <==> window[|window| - 1] > Mean(window))
    ensures r.Finite? ==> (r.r < 0.0 <==> window[|window| - 1] < Mean(window))
  {
    var distance := window[|window| - 1] - Mean(window);
    var mad := MeanDeviation(window);
    QuotientSign(distance, 0.015 * mad);
    JsDiv(distance, 0.015 * mad)
  }

  /** `cci(data, period)` at index `i`: missing until `period` bars exist, then the CCI
      of the typical price over the last `period` bars. */
  function Cci(bars: seq<Ohlc>, period: nat, i: nat): (r: Option<Num>)
    requires period > 0 && i < |bars|
    ensures r.None? <==> i + 1 < period
    ensures r.Some? ==> var window := TypicalPrices(bars)[i + 1 - period..i + 1];
      window[|window| - 1] == TypicalPrice(bars[i]) && r.value == CciOf(window)
  {
    if i + 1 < period then None else Some(CciOf(TypicalPrices(bars)[i + 1 - period..i + 1]))
  }

  // ---------------------------------------------------------------------------
  // SuperTrend

  /** The loop's `a <= b` against a band value: false when the band is NaN. */
  predicate NotAbove(x: real, band: Option<real>) {
    band.Some? && x <= band.value
  }

  /** The loop's `a >= b` against a band value: false when the band is NaN. */
  predicate NotBelow(x: real, band: Option<real>) {
    band.Some? && x >= band.value
  }

  /** Python's `min(a, b)`: `b` only when it compares less than `a`. */
  function PyMin(a: Option<real>, b: Option<real>): (r: Option<real>)
    ensures a.Some? && b.Some? ==> r == Some(Min(a.value, b.value))
    ensures a.None? || b.None? ==> r == a
  {
    if a.Some? && b.Some? && b.value < a.value then b else a
  }

  /** Python's `max(a, b)`: `b` only when it compares greater than `a`. */
  function PyMax(a: Option<real>, b: Option<real>): (r: Option<real>)
    ensures a.Some? && b.Some? ==> r == Some(Max(a.value, b.value))
    ensures a.None? || b.None? ==> r == a
  {
    if a.Some? && b.Some? && b.value > a.value then b else a
  }

  /** The basic SuperTrend bands: the high-low average of each bar ± the multiplier
      times the ATR. */
  function BasicBands(bars: seq<Ohlc>, period: nat, multiplier: real): (r: seq<Channel>)
    requires period > 0
    ensures |r| == |bars|
    ensures forall i :: 0 <= i < |bars| ==> r[i] == Band(Some((bars[i].high + bars[i].low) / 2.0), Atr(bars, period, i), multiplier)
  {
    seq(|bars|, i requires 0 <= i < |bars| => Band(Some((bars[i].high + bars[i].low) / 2.0), Atr(bars, period, i), multiplier))
  }

  datatype Bands = Bands(upper: Option<real>, lower: Option<real>)

  /** The bands at index `i` after the loop has adjusted them: while the previous close
      was at or below the previous upper band, the upper band may only come down; while
      it was at or above the previous lower band, the lower band may only go up. */
  function Adjusted(close: seq<real>, basic: seq<Channel>, i: nat): Bands
    requires |close| == |basic| && i < |close|
  {
    if i == 0 then Bands(basic[0].upper, basic[0].lower)
    else
      var prev := Adjusted(close, basic, i - 1);
      Bands(
        if NotAbove(close[i - 1], prev.upper) then PyMin(basic[i].upper, prev.upper) else basic[i].upper,
        if NotBelow(close[i - 1], prev.lower) then PyMax(basic[i].lower, prev.lower) else basic[i].lower)
  }

  /** The upper band never rises over a stretch in which every close stayed at or below
      it and every basic upper band is defined. */
  lemma {:induction false} UpperBandRatchets(close: seq<real>, basic: seq<Channel>, i: nat, j: nat)
    requires |close| == |basic| && i <= j < |close|
    requires Adjusted(close, basic, i).upper.Some?
    requires forall k :: i <= k < j ==> NotAbove(close[k], Adjusted(close, basic, k).upper) && basic[k + 1].upper.Some?
    ensures Adjusted(close, basic, j).upper.Some?
    ensures Adjusted(close, basic, j).upper.value <= Adjusted(close, basic, i).upper.value
    decreases j
  {
    if j > i {
      UpperBandRatchets(close, basic, i, j - 1);
    }
  }

  /** The lower band never falls over a stretch in which every close stayed at or above
      it and every basic lower band is defined. */
  lemma {:induction false} LowerBandRatchets(close: seq<real>, basic: seq<Channel>, i: nat, j: nat)
    requires |close| == |basic| && i <= j < |close|
    requires Adjusted(close, basic, i).lower.Some?
    requires forall k :: i <= k < j ==> NotBelow(close[k], Adjusted(close, basic, k).lower) && basic[k + 1].lower.Some?
    ensures Adjusted(close, basic, j).lower.Some?
    ensures Adjusted(close, basic, j).lower.value >= Adjusted(close, basic, i).lower.value
    decreases j
  {
    if j > i {
      LowerBandRatchets(close, basic, i, j - 1);
    }
  }

  /** The body of the `supertrend` loop at bar `i`: adjusts the two bands at `i`,
      then sets the direction and the line there. */
  method SuperTrendVisit(close: seq<real>, basic: seq<Channel>, i: nat,
                         upper: seq<Option<real>>, lower: seq<Option<real>>, st: seq<Option<real>>, dir: seq<int>)
    returns (upper': seq<Option<real>>, lower': seq<Option<real>>, st': seq<Option<real>>, dir': seq<int>)
    requires 1 <= i < |close| == |basic| && |upper| == |lower| == |st| == |dir| == |close|
    requires upper[i - 1] == Adjusted(close, basic, i - 1).upper && lower[i - 1] == Adjusted(close, basic, i - 1).lower
    requires upper[i] == basic[i].upper && lower[i] == basic[i].lower
    ensures var b := Adjusted(close, basic, i);
      && upper' == upper[i := b.upper] && lower' == lower[i := b.lower]
      && dir' == dir[i := if NotAbove(close[i], b.upper) then -1 else 1]
      && st' == st[i := if NotAbove(close[i], b.upper) then b.upper else b.lower]
  {
    upper', lower', st', dir' := upper, lower, st, dir;
    if NotAbove(close[i - 1], upper'[i - 1]) {
      upper' := upper'[i := PyMin(upper'[i], upper'[i - 1])];
    }
    if NotBelow(close[i - 1], lower'[i - 1]) {
      lower' := lower'[i := PyMax(lower'[i], lower'[i - 1])];
    }
    if NotAbove(close[i], upper'[i]) {
      dir' := dir'[i := -1];
      st' := st'[i := upper'[i]];
    } else {
      dir' := dir'[i := 1];
      st' := st'[i := lower'[i]];
    }
    if dir'[i] == 1 && dir'[i - 1] == -1 {
      st' := st'[i := lower'[i]];
    } else if dir'[i] == -1 && dir'[i - 1] == 1 {
      st' := st'[i := upper'[i]];
    }
  }

  /** `supertrend`: the direction is 1 at the first bar and afterwards -1 exactly when
      the close is at or below the adjusted upper band; the line is 0 at the first bar
      and afterwards the adjusted upper band in a downtrend, the lower band in an
      uptrend. */
  method SuperTrend(close: seq<real>, basic: seq<Channel>) returns (line: seq<Option<real>>, direction: seq<int>)
    requires |close| == |basic|
    ensures |line| == |close| && |direction| == |close|
    ensures |close| > 0 ==> direction[0] == 1 && line[0] == Some(0.0)
    ensures forall i :: 1 <= i < |close| ==>
      direction[i] == (if NotAbove(close[i], Adjusted(close, basic, i).upper) then -1 else 1)
    ensures forall i :: 1 <= i < |close| ==>
      line[i] == (if direction[i] == -1 then Adjusted(close, basic, i).upper else Adjusted(close, basic, i).lower)
  {
    var n := |close|;
    if n == 0 {
      return [], [];
    }
    var upper := seq(n, i requires 0 <= i < n => basic[i].upper);
    var lower := seq(n, i requires 0 <= i < n => basic[i].lower);
    var st := seq(n, i => Some(0.0));
    var dir := seq(n, i => 1);
    var i := 1;
    while i < n
      invariant 1 <= i <= n
      invariant |upper| == |lower| == |st| == |dir| == n
      invariant forall k :: 0 <= k < i ==> upper[k] == Adjusted(close, basic, k).upper
      invariant forall k :: 0 <= k < i ==> lower[k] == Adjusted(close, basic, k).lower
      invariant forall k :: i <= k < n ==> upper[k] == basic[k].upper && lower[k] == basic[k].lower
      invariant dir[0] == 1 && st[0] == Some(0.0)
      invariant forall k :: 1 <= k < i ==> dir[k] == (if NotAbove(close[k], upper[k]) then -1 else 1)
      invariant forall k :: 1 <= k < i ==> st[k] == (if dir[k] == -1 then upper[k] else lower[k])
    {
      upper, lower, st, dir := SuperTrendVisit(close, basic, i, upper, lower, st, dir);
      i := i + 1;
    }
    line, direction := st, dir;
  }

  // ---------------------------------------------------------------------------
  // ZigZag

  datatype PivotKind = HighPivot | LowPivot

  /** The loop variables of `zigzag`: the last pivot's price, index and kind, and the
      trend written at each bar. */
  datatype ZigZagState = ZigZagState(lastPivot: Option<real>, lastPivotIdx: int, lastKind: Option<PivotKind>, trend: int)

  const ZigZagStart := ZigZagState(None, 0, None, 0)

  /** One bar `i` of the loop: a bar whose high is the highest of the last `depth + 1`
      highs becomes a high pivot when the last pivot was a low (or there was none) and
      it is above that low; otherwise a bar whose low is the lowest of the window
      becomes a low pivot under the mirrored conditions. */
  function ZigZagStep(high: seq<real>, low: seq<real>, depth: nat, i: nat, s: ZigZagState): ZigZagState
    requires |high| == |low| && depth <= i < |high|
  {
    var swingHigh := MaxOf(high[i - depth..i + 1]);
    var swingLow := MinOf(low[i - depth..i + 1]);
    if high[i] == swingHigh then
      if (s.lastKind == Some(LowPivot) || s.lastPivot.None?) && (s.lastPivot.None? || high[i] > s.lastPivot.value)
      then ZigZagState(Some(high[i]), i, Some(HighPivot), -1)
      else s
    else if low[i] == swingLow then
      if (s.lastKind == Some(HighPivot) || s.lastPivot.None?) && (s.lastPivot.None? || low[i] < s.lastPivot.value)
      then ZigZagState(Some(low[i]), i, Some(LowPivot), 1)
      else s
    else s
  }

  /** The loop variables once the bars `depth .. i - 1` are processed. */
  function ZigZagAfter(high: seq<real>, low: seq<real>, depth: nat, i: nat): ZigZagState
    requires |high| == |low| && depth <= i <= |high|
    decreases i
  {
    if i == depth then ZigZagStart
    else ZigZagStep(high, low, depth, i - 1, ZigZagAfter(high, low, depth, i - 1))
  }

  /** The trend always names the kind of the last pivot: 0 before any pivot, -1 after
      a high pivot, 1 after a low one. */
  ghost predicate TrendMatchesPivot(s: ZigZagState) {
    && (s.lastKind.None? <==> s.lastPivot.None?)
    && (s.lastKind.None? ==> s.trend == 0)
    && (s.lastKind == Some(HighPivot) ==> s.trend == -1)
    && (s.lastKind == Some(LowPivot) ==> s.trend == 1)
    && -1 <= s.trend <= 1
  }

  lemma {:induction false} ZigZagTrendMatchesPivot(high: seq<real>, low: seq<real>, depth: nat, i: nat)
    requires |high| == |low| && depth <= i <= |high|
    ensures TrendMatchesPivot(ZigZagAfter(high, low, depth, i))
    decreases i
  {
    if i > depth {
      ZigZagTrendMatchesPivot(high, low, depth, i - 1);
    }
  }

  /** Pivots alternate: a step that records a new pivot records the other kind than
      the last one, a high pivot above the low before it and a low pivot below the high
      before it. */
  lemma ZigZagPivotsAlternate(high: seq<real>, low: seq<real>, depth: nat, i: nat)
    requires |high| == |low| && depth <= i < |high|
    ensures var s := ZigZagAfter(high, low, depth, i);
      var t := ZigZagAfter(high, low, depth, i + 1);
      t != s ==>
        && t.lastKind != s.lastKind && t.lastKind.Some? && t.lastPivotIdx == i
        && (s.lastPivot.Some? && t.lastKind == Some(HighPivot) ==> t.lastPivot.value > s.lastPivot.value)
        && (s.lastPivot.Some? && t.lastKind == Some(LowPivot) ==> t.lastPivot.value < s.lastPivot.value)
  {
    ZigZagTrendMatchesPivot(high, low, depth, i);
  }

  /** The body of the `zigzag` loop at bar `i`. */
  method ZigZagVisit(high: seq<real>, low: seq<real>, depth: nat, i: nat,
                     lastPivot: Option<real>, lastPivotIdx: int, lastKind: Option<PivotKind>, trend: int)
    returns (lastPivot': Option<real>, lastPivotIdx': int, lastKind': Option<PivotKind>, trend': int)
    requires |high| == |low| && depth <= i < |high|
    ensures ZigZagState(lastPivot', lastPivotIdx', lastKind', trend') ==
      ZigZagStep(high, low, depth, i, ZigZagState(lastPivot, lastPivotIdx, lastKind, trend))
  {
    lastPivot', lastPivotIdx', lastKind', trend' := lastPivot, lastPivotIdx, lastKind, trend;
    var swingHigh := MaxOf(high[i - depth..i + 1]);
    var swingLow := MinOf(low[i - depth..i + 1]);
    var currentHigh := high[i];
    var currentLow := low[i];
    if currentHigh == swingHigh {
      if lastKind == Some(LowPivot) || lastPivot.None? {
        if lastPivot.None? || currentHigh > lastPivot.value {
          lastPivot' := Some(currentHigh);
          lastPivotIdx' := i;
          lastKind' := Some(HighPivot);
          trend' := -1;
        }
      }
    } else if currentLow == swingLow {
      if lastKind == Some(HighPivot) || lastPivot.None? {
        if lastPivot.None? || currentLow < lastPivot.value {
          lastPivot' := Some(currentLow);
          lastPivotIdx' := i;
          lastKind' := Some(LowPivot);
          trend' := 1;
        }
      }
    }
  }

  /** `zigzag`: 0 before index `depth`, and from there on the trend of the last pivot
      (-1 after a high pivot, 1 after a low one, 0 before the first). */
  method ZigZag(high: seq<real>, low: seq<real>, depth: nat) returns (zigzag: seq<int>)
    requires |high| == |low|
    ensures |zigzag| == |high|
    ensures forall i :: 0 <= i < |zigzag| && i < depth ==> zigzag[i] == 0
    ensures forall i :: depth <= i < |zigzag| ==> zigzag[i] == ZigZagAfter(high, low, depth, i + 1).trend
    ensures forall i :: 0 <= i < |zigzag| ==> -1 <= zigzag[i] <= 1
  {
    zigzag := seq(|high|, i => 0);
    if |high| <= depth {
      return;
    }
    var lastPivot: Option<real> := None;
    var lastPivotIdx := 0;
    var lastKind: Option<PivotKind> := None;
    var trend := 0;
    var i := depth;
    while i < |high|
      invariant depth <= i <= |high| && |zigzag| == |high|
      invariant forall k :: 0 <= k < |zigzag| && (k < depth || k >= i) ==> zigzag[k] == 0
      invariant forall k :: depth <= k < i ==> zigzag[k] == ZigZagAfter(high, low, depth, k + 1).trend
      invariant ZigZagState(lastPivot, lastPivotIdx, lastKind, trend) == ZigZagAfter(high, low, depth, i)
    {
      ghost var before := ZigZagState(lastPivot, lastPivotIdx, lastKind, trend);
      lastPivot, lastPivotIdx, lastKind, trend := ZigZagVisit(high, low, depth, i, lastPivot, lastPivotIdx, lastKind, trend);
      assert ZigZagAfter(high, low, depth, i + 1) == ZigZagStep(high, low, depth, i, before);
      zigzag := zigzag[i := trend];
      i := i + 1;
    }
    forall k | depth <= k < |zigzag|
      ensures -1 <= zigzag[k] <= 1
    {
      ZigZagTrendMatchesPivot(high, low, depth, k + 1);
    }
  }
}
