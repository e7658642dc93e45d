/** The hybrid optimised strategy of the Python system: Keltner and Bollinger
    breakouts confirmed by a MACD crossover on one-minute bars, with aggressiveness
    filters, a trailing stop, a news exit, three take-profit targets, a daily-loss
    and drawdown gate, and optional progressive lot sizing.

    A price bar is the last row of an indicator frame; a column the frame lacks is
    `None` and takes the default the strategy reads it with. Times are naive
    datetimes in whole seconds. */
module Hybrid {
  import opened Common
  import opened TradingTypes
  import News
  import opened HybridRisk
  import opened HybridStatistics

  // ---------------------------------------------------------------------------
  // Bars and entry rules

  datatype Bar = Bar(
    close: real,
    atr: Option<real>,
    kcUpper: Option<real>,
    kcLower: Option<real>,
    bbUpper: Option<real>,
    bbLower: Option<real>,
    macd: Option<real>,
    macdSignal: Option<real>,
    macdCrossover: Option<real>,
    cci: Option<real>)
  {
    function Atr(): real { atr.GetOr(0.0001) }
    function KcUpper(): real { kcUpper.GetOr(close + Atr()) }
    function KcLower(): real { kcLower.GetOr(close - Atr()) }
    function BbUpper(): real { bbUpper.GetOr(close + Atr()) }
    function BbLower(): real { bbLower.GetOr(close - Atr()) }
    function Macd(): real { macd.GetOr(0.0) }
    function MacdSignal(): real { macdSignal.GetOr(0.0) }
    function MacdCrossover(): real { macdCrossover.GetOr(0.0) }
    function Cci(): real { cci.GetOr(0.0) }
  }

  function Last(bars: seq<Bar>): Bar
    requires |bars| > 0
  {
    bars[|bars| - 1]
  }

  /** The one-minute CCI a conservative (1) or moderate (2) entry must exceed. */
  function CciThreshold(aggressiveness: int): (r: int)
    ensures aggressiveness == 1 ==> r == 50
    ensures aggressiveness == 2 ==> r == 20
    ensures aggressiveness != 1 && aggressiveness != 2 ==> r == 0
  {
    if aggressiveness == 1 then 50 else if aggressiveness == 2 then 20 else 0
  }

  /** Close above both upper bands on an upward MACD crossover. */
  predicate LongBreakout(b: Bar) {
    b.close > b.KcUpper() && b.close > b.BbUpper() && b.MacdCrossover() == 1.0
  }

  /** Close below both lower bands on a downward MACD crossover. */
  predicate ShortBreakout(b: Bar) {
    b.close < b.KcLower() && b.close < b.BbLower() && b.MacdCrossover() == -1.0
  }

  predicate LongFilter(aggressiveness: int, threshold: int, b1: Bar, b5: Bar) {
    if aggressiveness == 1 then b1.Cci() > threshold as real && b5.Macd() > b5.MacdSignal() && b5.Cci() > 0.0
    else if aggressiveness == 2 then b1.Cci() > threshold as real && b5.Macd() > b5.MacdSignal()
    else b1.Macd() > b1.MacdSignal()
  }

  predicate ShortFilter(aggressiveness: int, threshold: int, b1: Bar, b5: Bar) {
    if aggressiveness == 1 then b1.Cci() < -threshold as real && b5.Macd() < b5.MacdSignal() && b5.Cci() < 0.0
    else if aggressiveness == 2 then b1.Cci() < -threshold as real && b5.Macd() < b5.MacdSignal()
    else b1.Macd() < b1.MacdSignal()
  }

  /** The side an entry takes on the latest one- and five-minute bars, if any. A bar
      cannot break out both ways, so the long rule never masks the short one. */
  function EntrySide(aggressiveness: int, threshold: int, b1: Bar, b5: Bar): (r: Option<Side>)
    ensures r == Some(Long) <==> LongBreakout(b1) && LongFilter(aggressiveness, threshold, b1, b5)
    ensures r == Some(Short) <==> ShortBreakout(b1) && ShortFilter(aggressiveness, threshold, b1, b5)
  {
    if LongBreakout(b1) && LongFilter(aggressiveness, threshold, b1, b5) then Some(Long)
    else if ShortBreakout(b1) && ShortFilter(aggressiveness, threshold, b1, b5) then Some(Short)
    else None
  }

  /** A conservative entry is also a moderate entry on the same bars. */
  lemma ConservativeEntriesAreModerate(b1: Bar, b5: Bar)
    requires EntrySide(1, CciThreshold(1), b1, b5).Some?
    ensures EntrySide(2, CciThreshold(2), b1, b5) == EntrySide(1, CciThreshold(1), b1, b5)
  {
    if EntrySide(1, CciThreshold(1), b1, b5) == Some(Long) {
      assert LongFilter(2, 20, b1, b5);
    } else {
      assert ShortFilter(2, 20, b1, b5);
    }
  }

  /** The signal confidence: 0.5, raised by 0.2 when both CCIs agree with the side and
      by 0.3 when both are beyond 100 in its direction. */
  function Confidence(b1: Bar, b5: Bar, side: Side): (r: real)
    ensures 0.5 <= r <= 0.8
    ensures r > 0.5 <==>
      (side == Long && b1.Cci() > 0.0 && b5.Cci() > 0.0) || (side == Short && b1.Cci() < 0.0 && b5.Cci() < 0.0)
    ensures r == 0.8 <==>
      (side == Long && b1.Cci() > 100.0 && b5.Cci() > 100.0) || (side == Short && b1.Cci() < -100.0 && b5.Cci() < -100.0)
  {
    Min(0.5 + ConfidenceBonus(b1.Cci(), b5.Cci(), side), 1.0)
  }

  function ConfidenceBonus(c1: real, c5: real, side: Side): (r: real)
    ensures r == 0.0 || r == 0.2 || r == 0.3
    ensures r > 0.0 <==> (side == Long && c1 > 0.0 && c5 > 0.0) || (side == Short && c1 < 0.0 && c5 < 0.0)
    ensures r == 0.3 <==> (side == Long && c1 > 100.0 && c5 > 100.0) || (side == Short && c1 < -100.0 && c5 < -100.0)
  {
    match side
    case Long => if c1 > 100.0 && c5 > 100.0 then 0.3 else if c1 > 0.0 && c5 > 0.0 then 0.2 else 0.0
    case Short => if c1 < -100.0 && c5 < -100.0 then 0.3 else if c1 < 0.0 && c5 < 0.0 then 0.2 else 0.0
  }

  // ---------------------------------------------------------------------------
  // Signals

  datatype Signal = Signal(
    symbol: string,
    direction: Side,
    entryPrice: real,
    stopLoss: real,
    takeProfit: seq<real>,
    timestamp: int,
    confidence: real)

  /** The take-profit targets in multiples of the initial risk. */
  const TargetMultiples: seq<real> := [1.5, 2.5, 4.0]

  /** The target `multiple` risks away from `entry` on the winning side of `stop`'s mirror. */
  function TargetPrice(side: Side, entry: real, stop: real, multiple: real): real {
    if side == Long then entry + (entry - stop) * multiple else entry - (stop - entry) * multiple
  }

  /** The protective stop: the lower of the two lower bands for a long, the higher of
      the two upper bands for a short. */
  function SignalStop(side: Side, b1: Bar): (r: real)
    ensures side == Long ==> r <= b1.KcLower() && r <= b1.BbLower() && (r == b1.KcLower() || r == b1.BbLower())
    ensures side == Short ==> r >= b1.KcUpper() && r >= b1.BbUpper() && (r == b1.KcUpper() || r == b1.BbUpper())
  {
    if side == Long then Min(b1.KcLower(), b1.BbLower()) else Max(b1.KcUpper(), b1.BbUpper())
  }

  /** The signal the latest bars give, once the risk gate and the data-length check pass. */
  function BuildSignal(aggressiveness: int, threshold: int, symbol: string, timestamp: int, b1: Bar, b5: Bar): (r: Option<Signal>)
    ensures r.Some? <==> EntrySide(aggressiveness, threshold, b1, b5).Some?
    ensures r.Some? ==>
      var s := r.value;
      && s.direction == EntrySide(aggressiveness, threshold, b1, b5).value
      && s.symbol == symbol && s.timestamp == timestamp && s.entryPrice == b1.close
      && s.stopLoss == SignalStop(s.direction, b1)
      && s.confidence == Confidence(b1, b5, s.direction)
      && |s.takeProfit| == |TargetMultiples|
      && forall k :: 0 <= k < |TargetMultiples| ==>
           s.takeProfit[k] == TargetPrice(s.direction, b1.close, s.stopLoss, TargetMultiples[k])
  {
    match EntrySide(aggressiveness, threshold, b1, b5)
    case None => None
    case Some(side) =>
      var stop := SignalStop(side, b1);
      Some(Signal(symbol, side, b1.close, stop,
                  [TargetPrice(side, b1.close, stop, 1.5),
                   TargetPrice(side, b1.close, stop, 2.5),
                   TargetPrice(side, b1.close, stop, 4.0)],
                  timestamp, Confidence(b1, b5, side)))
  }

  /** With ordered Keltner bands a signal's stop lies on the losing side of the entry and
      its three targets lie beyond the entry on the winning side, nearest first. */
  lemma SignalGeometry(aggressiveness: int, threshold: int, symbol: string, timestamp: int, b1: Bar, b5: Bar)
    requires b1.KcLower() <= b1.KcUpper()
    requires BuildSignal(aggressiveness, threshold, symbol, timestamp, b1, b5).Some?
    ensures var s := BuildSignal(aggressiveness, threshold, symbol, timestamp, b1, b5).value;
      if s.direction == Long then
        s.stopLoss < s.entryPrice < s.takeProfit[0] < s.takeProfit[1] < s.takeProfit[2]
      else
        s.stopLoss > s.entryPrice > s.takeProfit[0] > s.takeProfit[1] > s.takeProfit[2]
  {
    var s := BuildSignal(aggressiveness, threshold, symbol, timestamp, b1, b5).value;
    var risk := if s.direction == Long then s.entryPrice - s.stopLoss else s.stopLoss - s.entryPrice;
    assert risk > 0.0;
    assert risk * 1.5 < risk * 2.5 < risk * 4.0;
  }

  // ---------------------------------------------------------------------------
  // Trailing stop

  /** The part of a position the trailing stop reads and updates. */
  datatype TrailState = TrailState(
    stopLoss: real,
    highestPrice: Option<real>,
    lowestPrice: Option<real>,
    trailingActive: bool)

  /** The open profit in multiples of the initial risk; 0 when there is no risk. */
  function ProfitR(side: Side, entry: real, initialStop: real, price: real): (r: real)
    ensures Abs(entry - initialStop) == 0.0 ==> r == 0.0
    ensures Abs(entry - initialStop) > 0.0 ==>
      r * Abs(entry - initialStop) == (if side == Long then price - entry else entry - price)
  {
    var risk := Abs(entry - initialStop);
    var profit := if side == Long then price - entry else entry - price;
    if risk > 0.0 then profit / risk else 0.0
  }

  /** One trailing-stop update at `price`: the extreme is tracked, the trail switches on
      (for good) once the profit reaches `activation` risks, and from then on the stop
      follows the extreme at `distance` ATRs without ever moving back. */
  function TrailUpdate(side: Side, entry: real, initialStop: real, st: TrailState, price: real, atr: real,
                       activation: real, distance: real): (r: TrailState)
    ensures side == Long ==> r.stopLoss >= st.stopLoss
    ensures side == Short ==> r.stopLoss <= st.stopLoss
    ensures r.trailingActive <==> st.trailingActive || ProfitR(side, entry, initialStop, price) >= activation
    ensures ProfitR(side, entry, initialStop, price) < activation ==> r.stopLoss == st.stopLoss
    ensures side == Long ==>
      && r.lowestPrice == st.lowestPrice && r.highestPrice.Some? && r.highestPrice.value >= price
      && (r.highestPrice.value == price || Some(r.highestPrice.value) == st.highestPrice)
      && (st.highestPrice.Some? ==> r.highestPrice.value >= st.highestPrice.value)
    ensures side == Short ==>
      && r.highestPrice == st.highestPrice && r.lowestPrice.Some? && r.lowestPrice.value <= price
      && (r.lowestPrice.value == price || Some(r.lowestPrice.value) == st.lowestPrice)
      && (st.lowestPrice.Some? ==> r.lowestPrice.value <= st.lowestPrice.value)
    ensures side == Long && ProfitR(side, entry, initialStop, price) >= activation ==>
      r.stopLoss >= r.highestPrice.value - atr * distance
    ensures side == Short && ProfitR(side, entry, initialStop, price) >= activation ==>
      r.stopLoss <= r.lowestPrice.value + atr * distance
    ensures side == Long ==> r.stopLoss == st.stopLoss || r.stopLoss == r.highestPrice.value - atr * distance
    ensures side == Short ==> r.stopLoss == st.stopLoss || r.stopLoss == r.lowestPrice.value + atr * distance
  {
    var reached := ProfitR(side, entry, initialStop, price) >= activation;
    if side == Long then
      var highest := if st.highestPrice.None? || price > st.highestPrice.value then price else st.highestPrice.value;
      var candidate := highest - atr * distance;
      var stop := if reached && candidate > st.stopLoss then candidate else st.stopLoss;
      TrailState(stop, Some(highest), st.lowestPrice, st.trailingActive || reached)
    else
      var lowest := if st.lowestPrice.None? || price < st.lowestPrice.value then price else st.lowestPrice.value;
      var candidate := lowest + atr * distance;
      var stop := if reached && candidate < st.stopLoss then candidate else st.stopLoss;
      TrailState(stop, st.highestPrice, Some(lowest), st.trailingActive || reached)
  }

  // ---------------------------------------------------------------------------
  // Exits

  datatype ExitReason = NewsEvent | TrailingStop | StopLoss | TakeProfit | NoExit

  datatype ExitDecision = ExitDecision(shouldExit: bool, exitPrice: Option<real>, reason: ExitReason)

  /** The price has gone through `level` against the position. */
  predicate Crossed(side: Side, price: real, level: real) {
    if side == Long then price <= level else price >= level
  }

  /** The price has reached `target` in the position's favour. */
  predicate Reached(side: Side, price: real, target: real) {
    if side == Long then price >= target else price <= target
  }

  /** The index of the first target, in list order, that the price has reached. */
  function FirstTarget(side: Side, targets: seq<real>, price: real): (r: Option<nat>)
    ensures r.Some? ==> r.value < |targets| && Reached(side, price, targets[r.value])
    ensures r.Some? ==> forall j :: 0 <= j < r.value ==> !Reached(side, price, targets[j])
    ensures r.None? <==> forall j :: 0 <= j < |targets| ==> !Reached(side, price, targets[j])
  {
    if |targets| == 0 then None
    else if Reached(side, price, targets[0]) then Some(0)
    else
      match FirstTarget(side, targets[1..], price)
      case None =>
        assert forall j :: 1 <= j < |targets| ==> targets[j] == targets[1..][j - 1];
        None
      case Some(i) =>
        assert forall j :: 1 <= j < i + 1 ==> targets[j] == targets[1..][j - 1];
        Some(i + 1)
  }

  /** The exit checks after the trailing update, in priority order: the trailing stop
      (once active), the initial stop, then the first target reached. */
  function ExitRule(side: Side, trailingActive: bool, stopLoss: real, initialStop: real,
                    targets: seq<real>, price: real): (d: ExitDecision)
    ensures d.shouldExit <==> d.reason != NoExit
    ensures d.shouldExit <==> d.exitPrice.Some?
    ensures d.reason != NewsEvent
    ensures d.reason == TrailingStop <==> trailingActive && Crossed(side, price, stopLoss)
    ensures d.reason == TrailingStop ==> d.exitPrice == Some(stopLoss)
    ensures d.reason == StopLoss <==> !(trailingActive && Crossed(side, price, stopLoss)) && Crossed(side, price, initialStop)
    ensures d.reason == StopLoss ==> d.exitPrice == Some(initialStop)
    ensures d.reason == TakeProfit <==>
      && !(trailingActive && Crossed(side, price, stopLoss)) && !Crossed(side, price, initialStop)
      && exists k :: 0 <= k < |targets| && Reached(side, price, targets[k])
    ensures d.reason == TakeProfit ==>
      exists k :: 0 <= k < |targets| && d.exitPrice == Some(targets[k]) && Reached(side, price, targets[k])
                  && forall j :: 0 <= j < k ==> !Reached(side, price, targets[j])
  {
    if trailingActive && Crossed(side, price, stopLoss) then ExitDecision(true, Some(stopLoss), TrailingStop)
    else if Crossed(side, price, initialStop) then ExitDecision(true, Some(initialStop), StopLoss)
    else
      match FirstTarget(side, targets, price)
      case Some(k) => ExitDecision(true, Some(targets[k]), TakeProfit)
      case None => ExitDecision(false, None, NoExit)
  }

  // ---------------------------------------------------------------------------
  // P&L

  /** Dollars per unit of price per lot: 100 ounces for gold, 100 000 units otherwise. */
  function ContractMultiplier(symbol: string): (r: real)
    ensures r == 100.0 <==> Contains(symbol, "XAU")
    ensures r == 100.0 || r == 100000.0
  {
    if Contains(symbol, "XAU") then 100.0 else 100000.0
  }

  /** The P&L in dollars of a position closed at `exit`. */
  function PositionPnl(side: Side, entry: real, exit: real, size: real, symbol: string): real {
    (if side == Long then exit - entry else entry - exit) * size * ContractMultiplier(symbol)
  }

  /** The P&L is the price move times the lots times the contract size, and a
      position of positive size makes money exactly when the price moved its way. */
  lemma PositionPnlMeaning(side: Side, entry: real, exit: real, size: real, symbol: string)
    ensures var r := PositionPnl(side, entry, exit, size, symbol);
      && Abs(r) == Abs(exit - entry) * Abs(size) * ContractMultiplier(symbol)
      && (size > 0.0 ==> (r > 0.0 <==> (side == Long && exit > entry) || (side == Short && exit < entry)))
  {
    var move := if side == Long then exit - entry else entry - exit;
    var c := ContractMultiplier(symbol);
    AbsMul3(move, size, c);
    assert Abs(move) == Abs(exit - entry);
    SignOfProduct(move, size, c);
    assert move > 0.0 <==> (side == Long && exit > entry) || (side == Short && exit < entry);
  }

  // ---------------------------------------------------------------------------
  // Positions and the strategy

  class Position {
    const symbol: string
    const direction: Side
    const entryPrice: real
    var stopLoss: real
    const initialStopLoss: real
    const takeProfit: seq<real>
    const size: real
    const entryTime: int
    var exitPrice: Option<real>
    var exitTime: Option<int>
    var pnl: Option<real>
    var highestPrice: Option<real>
    var lowestPrice: Option<real>
    var trailingActive: bool

    /** A new position opened on `signal` with `size` lots; the extreme of its side
        starts at the entry price. */
    constructor(signal: Signal, size: real)
      ensures symbol == signal.symbol && direction == signal.direction && entryPrice == signal.entryPrice
      ensures stopLoss == signal.stopLoss && initialStopLoss == signal.stopLoss
      ensures takeProfit == signal.takeProfit && this.size == size && entryTime == signal.timestamp
      ensures exitPrice.None? && exitTime.None? && pnl.None? && !trailingActive
      ensures highestPrice == (if signal.direction == Long then Some(signal.entryPrice) else None)
      ensures lowestPrice == (if signal.direction == Short then Some(signal.entryPrice) else None)
    {
      symbol := signal.symbol;
      direction := signal.direction;
      entryPrice := signal.entryPrice;
      stopLoss := signal.stopLoss;
      initialStopLoss := signal.stopLoss;
      takeProfit := signal.takeProfit;
      this.size := size;
      entryTime := signal.timestamp;
      exitPrice := None;
      exitTime := None;
      pnl := None;
      highestPrice := if signal.direction == Long then Some(signal.entryPrice) else None;
      lowestPrice := if signal.direction == Short then Some(signal.entryPrice) else None;
      trailingActive := false;
    }

    function Trail(): TrailState
      reads this
    {
      TrailState(stopLoss, highestPrice, lowestPrice, trailingActive)
    }

    /** Sets the exit fields `close_position` fills in. */
    method RecordExit(price: real, time: int, pnl: real)
      modifies this
      ensures exitPrice == Some(price) && exitTime == Some(time) && this.pnl == Some(pnl)
      ensures Trail() == old(Trail())
    {
      exitPrice := Some(price);
      exitTime := Some(time);
      this.pnl := Some(pnl);
    }
  }

  /** The P&L of closed positions, in closing order. */
  function PnlsOf(ps: seq<Position>): (r: seq<real>)
    reads ps
    requires forall k :: 0 <= k < |ps| ==> ps[k].pnl.Some?
    ensures |r| == |ps|
    ensures forall k :: 0 <= k < |ps| ==> r[k] == ps[k].pnl.value
  {
    if |ps| == 0 then []
    else PnlsOf(ps[..|ps| - 1]) + [ps[|ps| - 1].pnl.value]
  }

  /** The configuration the strategy reads; a key the configuration lacks is `None`. */
  datatype HybridConfig = HybridConfig(
    positionSizes: map<string, real>,
    progressiveLotsEnabled: Option<bool>,
    profitThreshold: Option<real>,
    lotIncrease: Option<real>,
    frequencyDays: Option<int>,
    initialCapital: Option<real>,
    maxDailyLoss: Option<real>,
    maxDrawdown: Option<real>,
    aggressiveness: Option<int>,
    trailingActivation: Option<real>,
    trailingDistance: Option<real>)

  class HybridOptimizedStrategy {
    const aggressiveness: int
    const cciThreshold: int
    /** Stored for the caller; the entry rules themselves apply the five-minute filter by level. */
    const requireFiveMinuteAlignment: bool
    const trailingActivationR: real
    const trailingDistanceAtr: real
    const initialCapital: real
    const maxDailyLoss: real
    const maxDrawdownPct: real
    const maxDrawdownValue: real
    const enableProgressiveLots: bool
    const profitThreshold: real
    const lotIncrease: real
    const increaseFrequencyDays: int
    const monthlyStartCapital: real
    const basePositionSizes: map<string, real>
    const newsCalendar: News.NewsCalendar

    var positionSizes: map<string, real>
    var lastLotIncreaseTime: Option<int>
    var lotIncreasesThisMonth: nat
    var positions: map<string, Position>
    var closedPositions: seq<Position>
    var dailyPnl: real
    var currentDay: Option<int>
    var peakCapital: real
    var tradingEnabled: bool

    /** Every closed position carries its P&L. */
    ghost predicate Valid()
      reads this, closedPositions
    {
      forall k :: 0 <= k < |closedPositions| ==> closedPositions[k].pnl.Some?
    }

    function ClosedPnls(): seq<real>
      reads this, closedPositions
      requires Valid()
    {
      PnlsOf(closedPositions)
    }

    /** The initial capital plus the P&L of every closed position. */
    function CurrentCapital(): real
      reads this, closedPositions
      requires Valid()
    {
      initialCapital + Sum(ClosedPnls())
    }

    function RiskStateOf(): RiskState
      reads this
    {
      RiskState(dailyPnl, currentDay, peakCapital, tradingEnabled)
    }

    /** A strategy with no positions, the configured (or default) parameters, and a news
        calendar in backtest mode. */
    constructor(config: HybridConfig, feed: News.CalendarFeed)
      ensures aggressiveness == config.aggressiveness.GetOr(2)
      ensures cciThreshold == CciThreshold(aggressiveness)
      ensures requireFiveMinuteAlignment == (aggressiveness <= 2)
      ensures trailingActivationR == config.trailingActivation.GetOr(0.8)
      ensures trailingDistanceAtr == config.trailingDistance.GetOr(1.0)
      ensures initialCapital == config.initialCapital.GetOr(10000.0) && monthlyStartCapital == initialCapital
      ensures maxDailyLoss == config.maxDailyLoss.GetOr(500.0)
      ensures maxDrawdownPct == config.maxDrawdown.GetOr(0.20) && maxDrawdownValue == initialCapital * maxDrawdownPct
      ensures enableProgressiveLots == config.progressiveLotsEnabled.GetOr(false)
      ensures profitThreshold == config.profitThreshold.GetOr(0.20)
      ensures lotIncrease == config.lotIncrease.GetOr(0.05)
      ensures increaseFrequencyDays == config.frequencyDays.GetOr(7)
      ensures positionSizes == config.positionSizes && basePositionSizes == config.positionSizes
      ensures lastLotIncreaseTime.None? && lotIncreasesThisMonth == 0
      ensures positions == map[] && closedPositions == []
      ensures RiskStateOf() == RiskState(0.0, None, initialCapital, true)
      ensures fresh(newsCalendar) && newsCalendar.backtestMode && newsCalendar.newsEvents == []
      ensures Valid()
    {
      positionSizes := config.positionSizes;
      basePositionSizes := config.positionSizes;
      enableProgressiveLots := config.progressiveLotsEnabled.GetOr(false);
      profitThreshold := config.profitThreshold.GetOr(0.20);
      lotIncrease := config.lotIncrease.GetOr(0.05);
      increaseFrequencyDays := config.frequencyDays.GetOr(7);
      var capital := config.initialCapital.GetOr(10000.0);
      initialCapital := capital;
      monthlyStartCapital := capital;
      lastLotIncreaseTime := None;
      lotIncreasesThisMonth := 0;
      maxDailyLoss := config.maxDailyLoss.GetOr(500.0);
      var ddPct := config.maxDrawdown.GetOr(0.20);
      maxDrawdownPct := ddPct;
      maxDrawdownValue := capital * ddPct;
      dailyPnl := 0.0;
      currentDay := None;
      peakCapital := capital;
      tradingEnabled := true;
      var level := config.aggressiveness.GetOr(2);
      aggressiveness := level;
      trailingActivationR := config.trailingActivation.GetOr(0.8);
      trailingDistanceAtr := config.trailingDistance.GetOr(1.0);
      cciThreshold := if level == 1 then 50 else if level == 2 then 20 else 0;
      requireFiveMinuteAlignment := level <= 2;
      positions := map[];
      closedPositions := [];
      // Built with backtest support disabled, so the calendar never fetches here.
      newsCalendar := new News.NewsCalendar(feed, false);
    }

    /** `_check_risk_limits` at `currentTime`. */
    method CheckRiskLimits(currentTime: int) returns (allowed: bool)
      requires Valid()
      modifies this
      ensures Valid()
      ensures var v := HybridRisk.CheckRiskLimits(old(RiskStateOf()), DayOf(currentTime), old(CurrentCapital()),
                                                  maxDailyLoss, maxDrawdownValue);
        allowed == v.allowed && RiskStateOf() == v.next
      ensures positions == old(positions) && closedPositions == old(closedPositions)
      ensures positionSizes == old(positionSizes) && lastLotIncreaseTime == old(lastLotIncreaseTime)
      ensures lotIncreasesThisMonth == old(lotIncreasesThisMonth)
    {
      ghost var v := HybridRisk.CheckRiskLimits(RiskStateOf(), DayOf(currentTime), CurrentCapital(),
                                                maxDailyLoss, maxDrawdownValue);
      if !tradingEnabled {
        return false;
      }
      var today := DayOf(currentTime);
      if currentDay.None? || currentDay.value != today {
        currentDay := Some(today);
        dailyPnl := 0.0;
      }
      if dailyPnl <= -maxDailyLoss {
        tradingEnabled := false;
        assert RiskStateOf() == v.next;
        return false;
      }
      var capital := CurrentCapital();
      if capital > peakCapital {
        peakCapital := capital;
      }
      if peakCapital - capital >= maxDrawdownValue {
        tradingEnabled := false;
        assert RiskStateOf() == v.next;
        return false;
      }
      assert RiskStateOf() == v.next;
      return true;
    }

    /** `_update_daily_pnl`. */
    method UpdateDailyPnl(pnl: real)
      requires Valid()
      modifies this
      ensures Valid()
      ensures dailyPnl == old(dailyPnl) + pnl
      ensures currentDay == old(currentDay) && peakCapital == old(peakCapital) && tradingEnabled == old(tradingEnabled)
      ensures positions == old(positions) && closedPositions == old(closedPositions)
      ensures positionSizes == old(positionSizes) && lastLotIncreaseTime == old(lastLotIncreaseTime)
      ensures lotIncreasesThisMonth == old(lotIncreasesThisMonth)
    {
      dailyPnl := dailyPnl + pnl;
    }

    /** `_update_progressive_lots` at `currentTime`; `divisionByZero` reports the error a
        zero monthly start capital raises. */
    method UpdateProgressiveLots(currentTime: int) returns (divisionByZero: bool)
      requires Valid()
      modifies this
      ensures Valid()
      ensures var d := LotDecisionAt(enableProgressiveLots, old(CurrentCapital()), monthlyStartCapital, profitThreshold,
                                     old(lastLotIncreaseTime), currentTime, increaseFrequencyDays);
        && (divisionByZero <==> d == DivisionByZero)
        && (d == IncreaseSizes ==>
              positionSizes == RaisedSizes(old(positionSizes), lotIncrease) &&
              lastLotIncreaseTime == Some(currentTime) && lotIncreasesThisMonth == old(lotIncreasesThisMonth) + 1)
        && (d != IncreaseSizes ==>
              positionSizes == old(positionSizes) && lastLotIncreaseTime == old(lastLotIncreaseTime) &&
              lotIncreasesThisMonth == old(lotIncreasesThisMonth))
      ensures RiskStateOf() == old(RiskStateOf())
      ensures positions == old(positions) && closedPositions == old(closedPositions)
    {
      if !enableProgressiveLots {
        return false;
      }
      var capital := CurrentCapital();
      if monthlyStartCapital == 0.0 {
        return true;
      }
      var monthlyProfit := (capital - monthlyStartCapital) / monthlyStartCapital;
      if monthlyProfit < profitThreshold {
        return false;
      }
      if lastLotIncreaseTime.Some? {
        var daysSinceLastIncrease := (currentTime - lastLotIncreaseTime.value) / SecondsPerDay;
        if daysSinceLastIncrease < increaseFrequencyDays {
          return false;
        }
      }
      var pending := positionSizes.Keys;
      ghost var before := positionSizes;
      while pending != {}
        invariant pending <= before.Keys
        invariant positionSizes.Keys == before.Keys
        invariant forall sym :: sym in before && sym !in pending ==> positionSizes[sym] == before[sym] + lotIncrease
        invariant forall sym :: sym in pending ==> positionSizes[sym] == before[sym]
        invariant closedPositions == old(closedPositions) && positions == old(positions)
        invariant RiskStateOf() == old(RiskStateOf())
        invariant lastLotIncreaseTime == old(lastLotIncreaseTime) && lotIncreasesThisMonth == old(lotIncreasesThisMonth)
        decreases pending
      {
        var sym :| sym in pending;
        positionSizes := positionSizes[sym := positionSizes[sym] + lotIncrease];
        pending := pending - {sym};
      }
      assert positionSizes == RaisedSizes(before, lotIncrease);
      lastLotIncreaseTime := Some(currentTime);
      lotIncreasesThisMonth := lotIncreasesThisMonth + 1;
      return false;
    }

    /** `_update_trailing_stop` for `position` at `currentPrice`. */
    method UpdateTrailingStop(position: Position, currentPrice: real, atr: real)
      modifies position
      ensures position.Trail() ==
        TrailUpdate(position.direction, position.entryPrice, position.initialStopLoss, old(position.Trail()),
                    currentPrice, atr, trailingActivationR, trailingDistanceAtr)
      ensures position.exitPrice == old(position.exitPrice) && position.exitTime == old(position.exitTime)
      ensures position.pnl == old(position.pnl)
    {
      var risk := Abs(position.entryPrice - position.initialStopLoss);
      if position.direction == Long {
        if position.highestPrice.None? || currentPrice > position.highestPrice.value {
          position.highestPrice := Some(currentPrice);
        }
        var profit := currentPrice - position.entryPrice;
        var profitR := if risk > 0.0 then profit / risk else 0.0;
        if profitR >= trailingActivationR {
          if !position.trailingActive {
            position.trailingActive := true;
          }
          var newTrailing := position.highestPrice.value - atr * trailingDistanceAtr;
          if newTrailing > position.stopLoss {
            position.stopLoss := newTrailing;
          }
        }
      } else {
        if position.lowestPrice.None? || currentPrice < position.lowestPrice.value {
          position.lowestPrice := Some(currentPrice);
        }
        var profit := position.entryPrice - currentPrice;
        var profitR := if risk > 0.0 then profit / risk else 0.0;
        if profitR >= trailingActivationR {
          if !position.trailingActive {
            position.trailingActive := true;
          }
          var newTrailing := position.lowestPrice.value + atr * trailingDistanceAtr;
          if newTrailing < position.stopLoss {
            position.stopLoss := newTrailing;
          }
        }
      }
    }

    /** `check_exit` for `position` on the latest one-minute bar: the news exit first,
        then the trailing update, then the exit rule. */
    method CheckExit(position: Position, data1m: seq<Bar>, currentTime: int, now: int)
      returns (shouldExit: bool, exitPrice: Option<real>, reason: ExitReason)
      requires |data1m| > 0
      modifies position, newsCalendar
      ensures var bar := Last(data1m);
        reason == NewsEvent <==>
          !newsCalendar.backtestMode && News.ScanForNews(newsCalendar.newsEvents, currentTime, position.symbol, 1)
      ensures newsCalendar.backtestMode ==> reason != NewsEvent
      ensures reason == NewsEvent ==>
        shouldExit && exitPrice == Some(Last(data1m).close) && position.Trail() == old(position.Trail())
      ensures reason != NewsEvent ==>
        && position.Trail() ==
             TrailUpdate(position.direction, position.entryPrice, position.initialStopLoss, old(position.Trail()),
                         Last(data1m).close, Last(data1m).Atr(), trailingActivationR, trailingDistanceAtr)
        && ExitDecision(shouldExit, exitPrice, reason) ==
             ExitRule(position.direction, position.trailingActive, position.stopLoss, position.initialStopLoss,
                      position.takeProfit, Last(data1m).close)
      ensures position.exitPrice == old(position.exitPrice) && position.pnl == old(position.pnl)
    {
      var latest := Last(data1m);
      var currentPrice := latest.close;
      var atr := latest.Atr();
      var news := newsCalendar.ShouldClosePosition(currentTime, position.symbol, 1, now);
      if news {
        return true, Some(currentPrice), NewsEvent;
      }
      UpdateTrailingStop(position, currentPrice, atr);
      var side := position.direction;
      if position.trailingActive && Crossed(side, currentPrice, position.stopLoss) {
        return true, Some(position.stopLoss), TrailingStop;
      }
      if Crossed(side, currentPrice, position.initialStopLoss) {
        return true, Some(position.initialStopLoss), StopLoss;
      }
      var targets := position.takeProfit;
      var k := 0;
      while k < |targets|
        invariant 0 <= k <= |targets|
        invariant forall j :: 0 <= j < k ==> !Reached(side, currentPrice, targets[j])
      {
        if Reached(side, currentPrice, targets[k]) {
          assert FirstTarget(side, targets, currentPrice) == Some(k);
          return true, Some(targets[k]), TakeProfit;
        }
        k := k + 1;
      }
      return false, None, NoExit;
    }

    /** `open_position`: updates the lot sizes, then opens a position of the symbol's lot
        size (0.1 when it has none) and files it under its symbol. `None` is the
        division-by-zero error of the lot update. */
    method OpenPosition(signal: Signal) returns (position: Option<Position>)
      requires Valid()
      modifies this
      ensures Valid()
      ensures position.None? <==>
        LotDecisionAt(enableProgressiveLots, old(CurrentCapital()), monthlyStartCapital, profitThreshold,
                      old(lastLotIncreaseTime), signal.timestamp, increaseFrequencyDays) == DivisionByZero
      ensures position.None? ==> positions == old(positions)
      ensures position.Some? ==>
        var p := position.value;
        && fresh(p)
        && p.symbol == signal.symbol && p.direction == signal.direction && p.entryPrice == signal.entryPrice
        && p.stopLoss == signal.stopLoss && p.initialStopLoss == signal.stopLoss && p.takeProfit == signal.takeProfit
        && p.entryTime == signal.timestamp && !p.trailingActive && p.pnl.None?
        && p.size == (if signal.symbol in positionSizes then positionSizes[signal.symbol] else 0.1)
        && positions == old(positions)[signal.symbol := p]
      ensures var d := LotDecisionAt(enableProgressiveLots, old(CurrentCapital()), monthlyStartCapital, profitThreshold,
                                     old(lastLotIncreaseTime), signal.timestamp, increaseFrequencyDays);
        && (d == IncreaseSizes ==>
              positionSizes == RaisedSizes(old(positionSizes), lotIncrease) &&
              lastLotIncreaseTime == Some(signal.timestamp) && lotIncreasesThisMonth == old(lotIncreasesThisMonth) + 1)
        && (d != IncreaseSizes ==>
              positionSizes == old(positionSizes) && lastLotIncreaseTime == old(lastLotIncreaseTime) &&
              lotIncreasesThisMonth == old(lotIncreasesThisMonth))
      ensures closedPositions == old(closedPositions) && RiskStateOf() == old(RiskStateOf())
    {
      var failed := UpdateProgressiveLots(signal.timestamp);
      if failed {
        return None;
      }
      var size := if signal.symbol in positionSizes then positionSizes[signal.symbol] else 0.1;
      var p := new Position(signal, size);
      positions := positions[signal.symbol := p];
      return Some(p);
    }

    /** `close_position`: books the P&L of `position` at `exitPrice`, moves it to the
        closed list, removes its symbol from the open positions and adds the P&L to
        the day's total. */
    method ClosePosition(position: Position, exitPrice: real, exitTime: int, reason: ExitReason) returns (pnl: real)
      requires Valid()
      modifies this, position
      ensures Valid()
      ensures pnl == PositionPnl(position.direction, position.entryPrice, exitPrice, position.size, position.symbol)
      ensures position.exitPrice == Some(exitPrice) && position.exitTime == Some(exitTime) && position.pnl == Some(pnl)
      ensures position.Trail() == old(position.Trail())
      ensures closedPositions == old(closedPositions) + [position]
      ensures positions == old(positions) - {position.symbol}
      ensures dailyPnl == old(dailyPnl) + pnl
      ensures currentDay == old(currentDay) && peakCapital == old(peakCapital) && tradingEnabled == old(tradingEnabled)
      ensures positionSizes == old(positionSizes) && lastLotIncreaseTime == old(lastLotIncreaseTime)
      ensures old(position !in closedPositions) ==> CurrentCapital() == old(CurrentCapital()) + pnl
    {
      pnl := PositionPnl(position.direction, position.entryPrice, exitPrice, position.size, position.symbol);
      position.RecordExit(exitPrice, exitTime, pnl);
      closedPositions := closedPositions + [position];
      assert Valid();
      if position.symbol in positions {
        positions := positions - {position.symbol};
      }
      UpdateDailyPnl(pnl);
      if old(position !in closedPositions) {
        CloseAddsToCapital(position);
      }
    }

    /** Closing a position that was not already closed adds its P&L to the capital. */
    twostate lemma CloseAddsToCapital(position: Position)
      requires old(Valid()) && Valid()
      requires position !in old(closedPositions) && position.pnl.Some?
      requires closedPositions == old(closedPositions) + [position]
      requires forall k :: 0 <= k < |old(closedPositions)| ==> unchanged(old(closedPositions)[k])
      ensures CurrentCapital() == old(CurrentCapital()) + position.pnl.value
    {
      var before := old(closedPositions);
      assert closedPositions[..|closedPositions| - 1] == before;
      assert PnlsOf(before) == old(PnlsOf(before));
      SumAppend(PnlsOf(before), position.pnl.value);
    }

    /** `get_statistics` over the closed positions; none before the first close. */
    function GetStatistics(): (r: Option<Stats>)
      reads this, closedPositions
      requires Valid()
      ensures r.None? <==> |closedPositions| == 0
      ensures r.Some? ==> r.value.totalTrades == |closedPositions| && r.value.totalPnl == CurrentCapital() - initialCapital
    {
      Statistics(ClosedPnls())
    }

    /** `generate_signals`: the risk gate, then the data-length check, then the entry rules. */
    method GenerateSignals(data1m: seq<Bar>, data5m: seq<Bar>, symbol: string, timestamp: int)
      returns (signal: Option<Signal>)
      requires Valid()
      modifies this
      ensures Valid()
      ensures var v := HybridRisk.CheckRiskLimits(old(RiskStateOf()), DayOf(timestamp), old(CurrentCapital()),
                                                  maxDailyLoss, maxDrawdownValue);
        && RiskStateOf() == v.next
        && signal == (if !v.allowed || |data1m| < 50 || |data5m| < 20 then None
                      else BuildSignal(aggressiveness, cciThreshold, symbol, timestamp, Last(data1m), Last(data5m)))
      ensures positions == old(positions) && closedPositions == old(closedPositions)
      ensures positionSizes == old(positionSizes)
    {
      var allowed := CheckRiskLimits(timestamp);
      if !allowed {
        return None;
      }
      if |data1m| < 50 || |data5m| < 20 {
        return None;
      }
      signal := BuildSignal(aggressiveness, cciThreshold, symbol, timestamp, Last(data1m), Last(data5m));
    }
  }
}
