/** The TypeScript backtest engine: it replays candles through the strategy, keeps
    at most one open trade, books each closed trade's P&L into the capital and
    records one equity point per candle after the warm-up.

    The risk manager it consults is not part of this model. Its observable inputs
    are recorded in a `RiskLog` (the capital it was reset to, the closed trades it
    was told about, the capitals it was told as possible peaks), and its answers are
    the functions of a `RiskManager` value, applied to that log. */
module BacktestEngine {
  import opened Common
  import opened TradingTypes
  import opened XauusdStrategy
  import opened BacktestResults

  datatype RiskConfig = RiskConfig(maxDailyLoss: real, maxDrawdown: real, maxPositions: int, positionSize: real)
  datatype TradingConfig = TradingConfig(symbol: string, strategy: StrategyConfig, risk: RiskConfig)
  datatype BacktestConfig = BacktestConfig(startDate: int, endDate: int, initialCapital: real, tradingConfig: TradingConfig)

  /** Everything the engine has told the risk manager since its last reset. */
  datatype RiskLog = RiskLog(resetCapital: real, dailyPnlTrades: seq<Trade>, peakUpdates: seq<real>)

  /** The risk manager's two answers, as functions of its configuration and of what it was told. */
  datatype RiskManager = RiskManager(
    canOpenNewTrade: (RiskConfig, RiskLog, nat, real, int) -> bool,
    getPositionSize: (RiskConfig, RiskLog) -> real)

  /** The relaxed limits a backtest runs under: a 90% daily loss and a 50% drawdown. */
  function BacktestRiskConfig(config: BacktestConfig): RiskConfig {
    config.tradingConfig.risk.(maxDailyLoss := config.initialCapital * 0.9, maxDrawdown := 0.5)
  }

  const WarmupPeriod: nat := 100

  predicate InDateRange(config: BacktestConfig, c: Candle) {
    config.startDate <= c.closeTime <= config.endDate
  }

  /** Whether a candle's close time lies in the configured window, as a filter callback. */
  function InWindow(config: BacktestConfig): Candle -> bool {
    c => InDateRange(config, c)
  }

  /** The candles whose close time lies in the configured window, in their original order:
      the same as `candles.filter(c => ...)` on the window, which is `Filter` here. */
  function FilterByDate(config: BacktestConfig, candles: seq<Candle>): (r: seq<Candle>)
    ensures |r| <= |candles|
    ensures forall c :: c in r <==> c in candles && InDateRange(config, c)
    ensures r == Filter(candles, InWindow(config))
  {
    if |candles| == 0 then []
    else
      var rest := FilterByDate(config, candles[..|candles| - 1]);
      var last := candles[|candles| - 1];
      assert candles == candles[..|candles| - 1] + [last];
      FilterAppend(candles[..|candles| - 1], [last], InWindow(config));
      assert Filter([last], InWindow(config)) == if InDateRange(config, last) then [last] else [];
      if InDateRange(config, last) then rest + [last] else rest
  }

  // ---------------------------------------------------------------------------
  // P&L

  /** One lot of gold is 100 ounces; every other symbol trades one unit per contract. */
  function ContractSize(symbol: string): (r: real)
    ensures r == 100.0 <==> Contains(symbol, "XAU")
    ensures r == 100.0 || r == 1.0
  {
    if Contains(symbol, "XAU") then 100.0 else 1.0
  }

  /** The profit of a trade at its exit price; 0 when the exit price or the size is missing or 0. */
  function CalculatePnL(t: Trade): (r: real)
    ensures t.exitPrice.None? || t.exitPrice.value == 0.0 || t.positionSize == 0.0 ==> r == 0.0
    ensures t.exitPrice.Some? && t.exitPrice.value != 0.0 && t.positionSize != 0.0 ==>
      Abs(r) == Abs(t.exitPrice.value - t.entryPrice) * Abs(t.positionSize) * ContractSize(t.symbol)
    ensures t.exitPrice.Some? && t.exitPrice.value != 0.0 && t.positionSize > 0.0 ==>
      (r > 0.0 <==> (t.side == Long && t.exitPrice.value > t.entryPrice) || (t.side == Short && t.exitPrice.value < t.entryPrice))
  {
    if t.exitPrice.None? || t.exitPrice.value == 0.0 || t.positionSize == 0.0 then 0.0
    else
      var exit := t.exitPrice.value;
      var priceDiff := if t.side == Long then exit - t.entryPrice else t.entryPrice - exit;
      var c := ContractSize(t.symbol);
      AbsMul3(priceDiff, t.positionSize, c);
      assert Abs(priceDiff) == Abs(exit - t.entryPrice);
      SignOfProduct(priceDiff, t.positionSize, c);
      assert priceDiff > 0.0 <==> (t.side == Long && exit > t.entryPrice) || (t.side == Short && exit < t.entryPrice);
      assert t.positionSize > 0.0 ==> (priceDiff * t.positionSize * c > 0.0 <==> priceDiff > 0.0);
      priceDiff * t.positionSize * c
  }

  /** A long and a short over the same prices win and lose exactly opposite amounts. */
  lemma PnLMirror(t: Trade)
    ensures CalculatePnL(t.(side := Long)) == -CalculatePnL(t.(side := Short))
  {
  }

  // ---------------------------------------------------------------------------
  // Exits

  predicate StopHit(t: Trade, c: Candle) {
    (t.side == Long && c.low <= t.stopLoss) || (t.side == Short && c.high >= t.stopLoss)
  }

  predicate TrailingHit(t: Trade, c: Candle) {
    t.trailingStop.Some? &&
    ((t.side == Long && c.low <= t.trailingStop.value) || (t.side == Short && c.high >= t.trailingStop.value))
  }

  predicate TargetHit(t: Trade, c: Candle) {
    t.takeProfit.Some? &&
    ((t.side == Long && c.high >= t.takeProfit.value) || (t.side == Short && c.low <= t.takeProfit.value))
  }

  predicate OppositeSignal(t: Trade, kind: SignalType) {
    (t.side == Long && kind == ShortSignal) || (t.side == Short && kind == LongSignal)
  }

  datatype ExitCheck = ExitCheck(shouldExit: bool, exitPrice: real, reason: Option<ExitReason>)

  /** Decides whether an open trade leaves on this candle: stop-loss first, then the
      trailing stop, then the take-profit, then a signal for the other side. The signal
      is evaluated on the candles up to this one; its clock argument only matters for
      an empty window. */
  function CheckExit(s: Strategy, t: Trade, c: Candle, history: seq<Candle>): (r: ExitCheck)
    ensures r.shouldExit <==> r.reason.Some?
    ensures r.reason == Some(StopLoss) <==> StopHit(t, c)
    ensures r.reason == Some(TrailingStopExit) <==> !StopHit(t, c) && TrailingHit(t, c)
    ensures r.reason == Some(TakeProfit) <==> !StopHit(t, c) && !TrailingHit(t, c) && TargetHit(t, c)
    ensures r.reason == Some(SignalExit) <==>
      !StopHit(t, c) && !TrailingHit(t, c) && !TargetHit(t, c) && OppositeSignal(t, GenerateSignal(s, history, c.closeTime).kind)
    ensures r.reason == Some(StopLoss) ==> r.exitPrice == t.stopLoss
    ensures r.reason == Some(TrailingStopExit) ==> r.exitPrice == t.trailingStop.value
    ensures r.reason == Some(TakeProfit) ==> r.exitPrice == t.takeProfit.value
    ensures r.reason == Some(SignalExit) ==> r.exitPrice == c.close
    ensures !r.shouldExit ==> r.exitPrice == 0.0
  {
    if StopHit(t, c) then ExitCheck(true, t.stopLoss, Some(StopLoss))
    else if TrailingHit(t, c) then ExitCheck(true, t.trailingStop.value, Some(TrailingStopExit))
    else if TargetHit(t, c) then ExitCheck(true, t.takeProfit.value, Some(TakeProfit))
    else if OppositeSignal(t, GenerateSignal(s, history, c.closeTime).kind) then ExitCheck(true, c.close, Some(SignalExit))
    else ExitCheck(false, 0.0, None)
  }

  /** The trade a long or short signal opens at the candle's close, or `None` when the
      signal carries no indicators. */
  function OpenTrade(s: Strategy, symbol: string, positionSize: real, signal: Signal, c: Candle): (r: Option<Trade>)
    ensures r.None? <==> signal.indicators.None?
    ensures r.Some? ==>
      var t := r.value;
      t.status == Open && t.symbol == symbol && t.positionSize == positionSize &&
      t.entryPrice == c.close && t.entryTime == c.closeTime &&
      (t.side == Long <==> signal.kind == LongSignal) &&
      t.stopLoss == t.initialStopLoss &&
      t.stopLoss == CalculateStopLoss(s, c.close, t.side, signal.indicators.value) &&
      (var levels := CalculateTakeProfitLevels(s, c.close, t.stopLoss, t.side);
       t.takeProfit == if |levels| > 0 then Some(levels[0]) else None) &&
      t.trailingStop.None? &&
      (t.side == Long ==> t.highestPrice == Some(c.close) && t.lowestPrice.None?) &&
      (t.side == Short ==> t.lowestPrice == Some(c.close) && t.highestPrice.None?) &&
      t.exitTime.None? && t.exitPrice.None? && t.exitReason.None? && t.pnl.None? && t.pnlPercent.None?
  {
    if signal.indicators.None? then None
    else
      var side := if signal.kind == LongSignal then Long else Short;
      var entryPrice := c.close;
      var stopLoss := CalculateStopLoss(s, entryPrice, side, signal.indicators.value);
      var levels := CalculateTakeProfitLevels(s, entryPrice, stopLoss, side);
      Some(Trade(
        symbol, side, c.closeTime, entryPrice, positionSize, stopLoss, stopLoss,
        if |levels| > 0 then Some(levels[0]) else None,
        None,
        if side == Long then Some(entryPrice) else None,
        if side == Short then Some(entryPrice) else None,
        Open, None, None, None, None, None))
  }

  /** Whether a trailing-stop proposal replaces a trade's stop: it is active and there
      is no stop yet, or it lies above a long's stop or below a short's. */
  predicate TightensStop(t: Trade, tr: TrailingResult)
    requires tr.active ==> tr.trailingStop.Some?
  {
    tr.active &&
    (t.trailingStop.None? ||
     (t.side == Long && tr.trailingStop.value > t.trailingStop.value) ||
     (t.side == Short && tr.trailingStop.value < t.trailingStop.value))
  }

  /** Folds a trailing-stop proposal into an open trade: the stop only ever tightens,
      and the running extremes are taken over as computed. */
  function ApplyTrailing(t: Trade, tr: TrailingResult): (r: Trade)
    requires tr.active ==> tr.trailingStop.Some?
    ensures r.(trailingStop := t.trailingStop, highestPrice := t.highestPrice, lowestPrice := t.lowestPrice) == t
    ensures r.highestPrice == Some(tr.highestPrice) && r.lowestPrice == Some(tr.lowestPrice)
    ensures !tr.active ==> r.trailingStop == t.trailingStop
    ensures t.trailingStop.None? ==> r.trailingStop == (if tr.active then tr.trailingStop else None)
    ensures t.trailingStop.Some? && t.side == Long ==> r.trailingStop.Some? && r.trailingStop.value >= t.trailingStop.value
    ensures t.trailingStop.Some? && t.side == Short ==> r.trailingStop.Some? && r.trailingStop.value <= t.trailingStop.value
    ensures TightensStop(t, tr) ==> r.trailingStop == tr.trailingStop
    ensures !TightensStop(t, tr) ==> r.trailingStop == t.trailingStop
  {
    var tighter := tr.active &&
      (t.trailingStop.None? ||
       (t.side == Long && tr.trailingStop.value > t.trailingStop.value) ||
       (t.side == Short && tr.trailingStop.value < t.trailingStop.value));
    t.(trailingStop := if tighter then tr.trailingStop else t.trailingStop,
       highestPrice := Some(tr.highestPrice),
       lowestPrice := Some(tr.lowestPrice))
  }

  /** Closes a trade at a time, price and reason, and books its P&L as a percentage of `capital`. */
  function CloseTrade(t: Trade, time: int, price: real, reason: ExitReason, capital: real): (r: Trade)
    ensures r.status == Closed && r.exitTime == Some(time) && r.exitPrice == Some(price) && r.exitReason == Some(reason)
    ensures r.pnl == Some(CalculatePnL(r))
    ensures r.pnlPercent == Some(Percent(r.pnl.value, capital))
    ensures r.(status := t.status, exitTime := t.exitTime, exitPrice := t.exitPrice, exitReason := t.exitReason,
               pnl := t.pnl, pnlPercent := t.pnlPercent) == t
  {
    var closed := t.(exitTime := Some(time), exitPrice := Some(price), exitReason := Some(reason), status := Closed);
    var pnl := CalculatePnL(closed);
    assert CalculatePnL(closed.(pnl := Some(pnl), pnlPercent := Some(Percent(pnl, capital)))) == pnl;
    closed.(pnl := Some(pnl), pnlPercent := Some(Percent(pnl, capital)))
  }

  lemma PrefixOfAppend(ts: seq<Trade>, t: Trade, m: nat)
    requires m <= |ts|
    ensures (ts + [t])[..m] == ts[..m]
  {
  }

  /** A list cut after position `j` and followed by `tail`: its element `j`, the list
      without it, and the list with it replaced. */
  lemma SplitAt<T>(xs: seq<T>, tail: seq<T>, j: int)
    requires 0 <= j < |xs|
    ensures var r := xs[..j + 1] + tail;
      r[j] == xs[j] && r[..j] + r[j + 1..] == xs[..j] + tail &&
      xs[..j + 1][..j] == xs[..j] && xs[..j + 1][j] == xs[j] &&
      forall x :: r[j := x] == xs[..j] + ([x] + tail)
  {
    var r := xs[..j + 1] + tail;
    assert r[..j] == xs[..j];
    assert r[j + 1..] == tail;
    forall x
      ensures r[j := x] == xs[..j] + ([x] + tail)
    {
      assert r[j := x] == r[..j] + [x] + r[j + 1..];
    }
  }

  lemma AppendAssoc<T>(a: seq<T>, b: seq<T>, c: seq<T>)
    ensures (a + b) + c == a + (b + c)
  {
  }

  datatype RunOutcome = Completed(result: BacktestResult) | NoCandlesInRange

  predicate AllOpen(ts: seq<Trade>) {
    forall k :: 0 <= k < |ts| ==> ts[k].status == Open
  }

  // ---------------------------------------------------------------------------
  // What one candle does to the open trades, stated as functions

  /** What the inner loop does to one open trade on a candle: whether it leaves, the
      trade closed at a given capital when it does, and the trade trailed when it stays. */
  datatype Pass = Pass(leaves: Trade -> bool, close: (Trade, real) -> Trade, trail: Trade -> Trade)

  datatype Processed = Processed(booked: seq<Trade>, rest: seq<Trade>)

  /** The inner loop over the open trades, from the last to the first: `booked` are the
      trades closed in that order, each at the capital plus what was booked before it,
      and `rest` the trades that stay open. */
  function ProcessSpec(p: Pass, open: seq<Trade>, capital: real): (r: Processed)
    ensures |r.booked| + |r.rest| == |open|
    decreases |open|
  {
    if |open| == 0 then Processed([], [])
    else
      var t := open[|open| - 1];
      if p.leaves(t) then
        var closed := p.close(t, capital);
        var q := ProcessSpec(p, open[..|open| - 1], capital + PnlOf(closed));
        Processed([closed] + q.booked, q.rest)
      else
        var q := ProcessSpec(p, open[..|open| - 1], capital);
        Processed(q.booked, q.rest + [p.trail(t)])
  }

  /** Whether a trade stays open on a pass, as a filter callback. */
  function Stays(p: Pass): Trade -> bool {
    t => !p.leaves(t)
  }

  /** Every trade of a list, trailed. */
  function TrailAll(p: Pass, ts: seq<Trade>): (r: seq<Trade>)
    ensures |r| == |ts| && forall k :: 0 <= k < |ts| ==> r[k] == p.trail(ts[k])
  {
    seq(|ts|, k requires 0 <= k < |ts| => p.trail(ts[k]))
  }

  /** Trades closed from the last to the first, each at the capital plus what was booked
      before it. */
  function CloseLastFirst(p: Pass, ts: seq<Trade>, capital: real): (r: seq<Trade>)
    ensures |r| == |ts|
    decreases |ts|
  {
    if |ts| == 0 then []
    else
      var closed := p.close(ts[|ts| - 1], capital);
      [closed] + CloseLastFirst(p, ts[..|ts| - 1], capital + PnlOf(closed))
  }

  lemma ProcessSpecLeaves(p: Pass, open: seq<Trade>, capital: real)
    requires |open| > 0 && p.leaves(open[|open| - 1])
    ensures var closed := p.close(open[|open| - 1], capital);
      var q := ProcessSpec(p, open[..|open| - 1], capital + PnlOf(closed));
      ProcessSpec(p, open, capital) == Processed([closed] + q.booked, q.rest)
  {
  }

  lemma ProcessSpecStays(p: Pass, open: seq<Trade>, capital: real)
    requires |open| > 0 && !p.leaves(open[|open| - 1])
    ensures var q := ProcessSpec(p, open[..|open| - 1], capital);
      ProcessSpec(p, open, capital) == Processed(q.booked, q.rest + [p.trail(open[|open| - 1])])
  {
  }

  /** The inner loop's state once the trades from position `n` on have been visited:
      `rest` still holds the unvisited trades first, the trades booked so far follow
      `trades0`, and finishing the pass from here gives the whole pass. */
  ghost predicate Midway(p: Pass, open: seq<Trade>, capital0: real, trades0: seq<Trade>, n: nat,
                         rest: seq<Trade>, trades: seq<Trade>, capital: real)
  {
    n <= |open| && n <= |rest| && rest[..n] == open[..n] && trades0 <= trades &&
    var q := ProcessSpec(p, open[..n], capital);
    ProcessSpec(p, open, capital0) == Processed(trades[|trades0|..] + q.booked, q.rest + rest[n..])
  }

  lemma MidwayStart(p: Pass, open: seq<Trade>, capital: real, trades: seq<Trade>)
    ensures Midway(p, open, capital, trades, |open|, open, trades, capital)
  {
    assert open[..|open|] == open && trades[|trades|..] == [] && open[|open|..] == [];
  }

  lemma MidwayDone(p: Pass, open: seq<Trade>, capital0: real, trades0: seq<Trade>,
                   rest: seq<Trade>, trades: seq<Trade>, capital: real)
    requires Midway(p, open, capital0, trades0, 0, rest, trades, capital)
    ensures var q := ProcessSpec(p, open, capital0);
      trades == trades0 + q.booked && rest == q.rest
  {
    assert open[..0] == [] && rest[0..] == rest;
    assert trades == trades0 + trades[|trades0|..];
  }

  /** One turn of the inner loop over position `n - 1`: a trade that leaves is booked,
      closed at the capital so far, and removed; one that stays is trailed in place. */
  lemma MidwayStep(p: Pass, open: seq<Trade>, capital0: real, trades0: seq<Trade>, n: nat,
                   rest: seq<Trade>, trades: seq<Trade>, capital: real)
    requires n > 0 && Midway(p, open, capital0, trades0, n, rest, trades, capital)
    ensures rest[n - 1] == open[n - 1]
    ensures var j, t := n - 1, open[n - 1];
      if p.leaves(t) then
        var closed := p.close(t, capital);
        Midway(p, open, capital0, trades0, j, rest[..j] + rest[j + 1..], trades + [closed], capital + PnlOf(closed))
      else
        Midway(p, open, capital0, trades0, j, rest[j := p.trail(t)], trades, capital)
  {
    var j, t := n - 1, open[n - 1];
    var booked, tail := trades[|trades0|..], rest[n..];
    assert rest[..n][j] == open[..n][j];
    if p.leaves(t) {
      var closed := p.close(t, capital);
      ProcessStepLeaves(p, open, j, capital0, capital, booked, tail);
      var rest', trades' := rest[..j] + rest[j + 1..], trades + [closed];
      assert rest'[..j] == rest[..n][..j] == open[..n][..j] == open[..j];
      assert rest'[j..] == tail;
      assert trades'[|trades0|..] == booked + [closed];
    } else {
      ProcessStepStays(p, open, j, capital0, capital, booked, tail);
      var rest' := rest[j := p.trail(t)];
      assert rest'[..j] == rest[..n][..j] == open[..n][..j] == open[..j];
      assert rest'[j..] == [p.trail(t)] + tail;
    }
  }

  /** Visiting position `j` as the engine does it keeps the inner loop on course. */
  lemma MidwayVisit(p: Pass, open: seq<Trade>, capital0: real, trades0: seq<Trade>, j: nat,
                    rest: seq<Trade>, trades: seq<Trade>, capital: real,
                    rest': seq<Trade>, trades': seq<Trade>, capital': real)
    requires Midway(p, open, capital0, trades0, j + 1, rest, trades, capital)
    requires j < |rest|
    requires if p.leaves(rest[j]) then
        var closed := p.close(rest[j], capital);
        trades' == trades + [closed] && capital' == capital + PnlOf(closed) && rest' == rest[..j] + rest[j + 1..]
      else
        trades' == trades && capital' == capital && rest' == rest[j := p.trail(rest[j])]
    ensures Midway(p, open, capital0, trades0, j, rest', trades', capital')
  {
    MidwayStep(p, open, capital0, trades0, j + 1, rest, trades, capital);
  }

  /** One turn of the inner loop over position `j` when that trade leaves: the booked
      trades grow by it, closed at the capital so far. */
  lemma ProcessStepLeaves(p: Pass, open: seq<Trade>, j: int, capital0: real, capital: real, booked: seq<Trade>, tail: seq<Trade>)
    requires 0 <= j < |open| && p.leaves(open[j])
    requires var q := ProcessSpec(p, open[..j + 1], capital);
      ProcessSpec(p, open, capital0) == Processed(booked + q.booked, q.rest + tail)
    ensures var closed := p.close(open[j], capital);
      var q := ProcessSpec(p, open[..j], capital + PnlOf(closed));
      ProcessSpec(p, open, capital0) == Processed((booked + [closed]) + q.booked, q.rest + tail)
  {
    assert open[..j + 1][..j] == open[..j] && open[..j + 1][j] == open[j];
    ProcessSpecLeaves(p, open[..j + 1], capital);
    var closed := p.close(open[j], capital);
    AppendAssoc(booked, [closed], ProcessSpec(p, open[..j], capital + PnlOf(closed)).booked);
  }

  /** One turn of the inner loop over position `j` when that trade stays: it joins the
      kept trades, trailed. */
  lemma ProcessStepStays(p: Pass, open: seq<Trade>, j: int, capital0: real, capital: real, booked: seq<Trade>, tail: seq<Trade>)
    requires 0 <= j < |open| && !p.leaves(open[j])
    requires var q := ProcessSpec(p, open[..j + 1], capital);
      ProcessSpec(p, open, capital0) == Processed(booked + q.booked, q.rest + tail)
    ensures var q := ProcessSpec(p, open[..j], capital);
      ProcessSpec(p, open, capital0) == Processed(booked + q.booked, q.rest + ([p.trail(open[j])] + tail))
  {
    assert open[..j + 1][..j] == open[..j] && open[..j + 1][j] == open[j];
    ProcessSpecStays(p, open[..j + 1], capital);
    AppendAssoc(ProcessSpec(p, open[..j], capital).rest, [p.trail(open[j])], tail);
  }

  /** The trades that stay open after a pass are those that do not leave, in their
      order, each trailed. */
  lemma {:induction false} ProcessRest(p: Pass, open: seq<Trade>, capital: real)
    ensures ProcessSpec(p, open, capital).rest == TrailAll(p, Filter(open, Stays(p)))
    decreases |open|
  {
    if |open| > 0 {
      var front, t := open[..|open| - 1], open[|open| - 1];
      var kept := Filter(front, Stays(p));
      if p.leaves(t) {
        var capital' := capital + PnlOf(p.close(t, capital));
        calc {
          ProcessSpec(p, open, capital).rest;
          { ProcessSpecLeaves(p, open, capital); }
          ProcessSpec(p, front, capital').rest;
          { ProcessRest(p, front, capital'); }
          TrailAll(p, kept);
          { FilterLast(open, Stays(p)); assert kept + [] == kept; }
          TrailAll(p, Filter(open, Stays(p)));
        }
      } else {
        calc {
          ProcessSpec(p, open, capital).rest;
          { ProcessSpecStays(p, open, capital); }
          ProcessSpec(p, front, capital).rest + [p.trail(t)];
          { ProcessRest(p, front, capital); }
          TrailAll(p, kept) + [p.trail(t)];
          { assert TrailAll(p, kept + [t]) == TrailAll(p, kept) + [p.trail(t)]; }
          TrailAll(p, kept + [t]);
          { FilterLast(open, Stays(p)); }
          TrailAll(p, Filter(open, Stays(p)));
        }
      }
    }
  }

  lemma CloseLastFirstAppend(p: Pass, ts: seq<Trade>, t: Trade, capital: real)
    ensures CloseLastFirst(p, ts + [t], capital)
         == [p.close(t, capital)] + CloseLastFirst(p, ts, capital + PnlOf(p.close(t, capital)))
  {
    assert (ts + [t])[..|ts|] == ts;
    assert (ts + [t])[|ts|] == t;
  }

  /** The trades booked by a pass are those that leave, closed from the last to the first. */
  lemma {:induction false} ProcessBooked(p: Pass, open: seq<Trade>, capital: real)
    ensures ProcessSpec(p, open, capital).booked == CloseLastFirst(p, Filter(open, p.leaves), capital)
    decreases |open|
  {
    if |open| > 0 {
      var front, t := open[..|open| - 1], open[|open| - 1];
      var before := Filter(front, p.leaves);
      if p.leaves(t) {
        var capital' := capital + PnlOf(p.close(t, capital));
        calc {
          ProcessSpec(p, open, capital).booked;
          { ProcessSpecLeaves(p, open, capital); }
          [p.close(t, capital)] + ProcessSpec(p, front, capital').booked;
          { ProcessBooked(p, front, capital'); }
          [p.close(t, capital)] + CloseLastFirst(p, before, capital');
          { CloseLastFirstAppend(p, before, t, capital); }
          CloseLastFirst(p, before + [t], capital);
          { FilterLast(open, p.leaves); }
          CloseLastFirst(p, Filter(open, p.leaves), capital);
        }
      } else {
        calc {
          ProcessSpec(p, open, capital).booked;
          { ProcessSpecStays(p, open, capital); }
          ProcessSpec(p, front, capital).booked;
          { ProcessBooked(p, front, capital); }
          CloseLastFirst(p, before, capital);
          { FilterLast(open, p.leaves); assert before + [] == before; }
          CloseLastFirst(p, Filter(open, p.leaves), capital);
        }
      }
    }
  }

  /** What holds of every trade a pass closes holds of each trade `CloseLastFirst` returns,
      matched with the trade it closed. */
  lemma {:induction false} CloseLastFirstKeeps(p: Pass, ts: seq<Trade>, capital: real, ok: (Trade, Trade) -> bool)
    requires forall k :: 0 <= k < |ts| ==> p.leaves(ts[k])
    requires forall t, cap :: p.leaves(t) ==> ok(t, p.close(t, cap))
    ensures var r := CloseLastFirst(p, ts, capital);
      forall k :: 0 <= k < |r| ==> ok(ts[|ts| - 1 - k], r[k])
    decreases |ts|
  {
    if |ts| > 0 {
      var front := ts[..|ts| - 1];
      var closed := p.close(ts[|ts| - 1], capital);
      CloseLastFirstKeeps(p, front, capital + PnlOf(closed), ok);
      var r := CloseLastFirst(p, ts, capital);
      assert r == [closed] + CloseLastFirst(p, front, capital + PnlOf(closed));
      forall k | 1 <= k < |r|
        ensures ok(ts[|ts| - 1 - k], r[k])
      {
        assert ts[|ts| - 1 - k] == front[|front| - 1 - (k - 1)];
      }
    }
  }

  /** An open trade that did not exit on this candle: when the signal carries indicators
      its trailing stop and running extremes are moved, otherwise it stays as it was. */
  function Trailed(s: Strategy, c: Candle, history: seq<Candle>, t: Trade): (r: Trade)
    ensures r.(trailingStop := t.trailingStop, highestPrice := t.highestPrice, lowestPrice := t.lowestPrice) == t
    ensures GenerateSignal(s, history, c.closeTime).indicators.None? ==> r == t
    ensures t.trailingStop.Some? && t.side == Long ==> r.trailingStop.Some? && r.trailingStop.value >= t.trailingStop.value
    ensures t.trailingStop.Some? && t.side == Short ==> r.trailingStop.Some? && r.trailingStop.value <= t.trailingStop.value
  {
    var signal := GenerateSignal(s, history, c.closeTime);
    if signal.indicators.Some? then
      ApplyTrailing(t, CalculateTrailingStop(s, t.entryPrice, c.close, t.highestPrice, t.lowestPrice,
                                             t.initialStopLoss, t.side, signal.indicators.value.atr))
    else t
  }

  /** A trade that exits on this candle, closed at the exit price and for the reason
      `CheckExit` gives, with its P&L percentage on `capital`. */
  function ClosedOn(s: Strategy, c: Candle, history: seq<Candle>, t: Trade, capital: real): Trade {
    var exit := CheckExit(s, t, c, history);
    if exit.shouldExit then CloseTrade(t, c.closeTime, exit.exitPrice, exit.reason.value, capital) else t
  }

  /** The engine's pass over the open trades on candle `c`, with the candles up to it. */
  function CandlePass(s: Strategy, c: Candle, history: seq<Candle>): Pass {
    Pass(t => CheckExit(s, t, c, history).shouldExit,
         (t, capital) => ClosedOn(s, c, history, t, capital),
         t => Trailed(s, c, history, t))
  }

  /** How a trade closed on candle `c` relates to the trade it closed. */
  predicate ExitedOn(s: Strategy, c: Candle, history: seq<Candle>, t: Trade, r: Trade) {
    var exit := CheckExit(s, t, c, history);
    r.status == Closed && r.exitTime == Some(c.closeTime) && r.exitReason == exit.reason &&
    r.exitPrice == Some(exit.exitPrice) && r.pnl == Some(CalculatePnL(r))
  }

  /** A trade that `CheckExit` lets leave is closed as it says. */
  lemma ClosesAsExited(s: Strategy, c: Candle, history: seq<Candle>, t: Trade, capital: real)
    requires CheckExit(s, t, c, history).shouldExit
    ensures ExitedOn(s, c, history, t, ClosedOn(s, c, history, t, capital))
  {
  }

  /** Every trade a filter keeps passes it. */
  lemma FilterPasses(open: seq<Trade>, keep: Trade -> bool)
    ensures var kept := Filter(open, keep);
      forall k :: 0 <= k < |kept| ==> keep(kept[k])
  {
    var kept := Filter(open, keep);
    forall k | 0 <= k < |kept|
      ensures keep(kept[k])
    {
      assert kept[k] in kept;
    }
  }

  /** On a candle, the trades `CheckExit` says leave are closed from the last to the
      first, at the exit price and for the reason it gives. */
  lemma ProcessExits(s: Strategy, c: Candle, history: seq<Candle>, open: seq<Trade>, capital: real)
    ensures var p := CandlePass(s, c, history);
      var booked := ProcessSpec(p, open, capital).booked;
      var leaving := Filter(open, p.leaves);
      |booked| == |leaving| &&
      forall k :: 0 <= k < |booked| ==> ExitedOn(s, c, history, leaving[|leaving| - 1 - k], booked[k])
  {
    var p := CandlePass(s, c, history);
    ProcessBooked(p, open, capital);
    var leaving := Filter(open, p.leaves);
    FilterPasses(open, p.leaves);
    var ok := (t, r) => ExitedOn(s, c, history, t, r);
    forall t, cap | p.leaves(t)
      ensures ok(t, p.close(t, cap))
    {
      ClosesAsExited(s, c, history, t, cap);
    }
    CloseLastFirstKeeps(p, leaving, capital, ok);
    var booked := ProcessSpec(p, open, capital).booked;
    forall k | 0 <= k < |booked|
      ensures ExitedOn(s, c, history, leaving[|leaving| - 1 - k], booked[k])
    {
      assert ok(leaving[|leaving| - 1 - k], booked[k]);
    }
  }

  /** On a candle, the trades `CheckExit` says leave are closed from the last to the
      first, at the exit price and for the reason it gives, and the others stay open in
      their order with their trailing stops moved. */
  lemma ProcessPartition(s: Strategy, c: Candle, history: seq<Candle>, open: seq<Trade>, capital: real)
    ensures var p := CandlePass(s, c, history);
      var q := ProcessSpec(p, open, capital);
      var leaving := Filter(open, p.leaves);
      q.rest == TrailAll(p, Filter(open, Stays(p))) &&
      |q.booked| == |leaving| &&
      forall k :: 0 <= k < |q.booked| ==> ExitedOn(s, c, history, leaving[|leaving| - 1 - k], q.booked[k])
  {
    ProcessRest(CandlePass(s, c, history), open, capital);
    ProcessExits(s, c, history, open, capital);
  }

  /** The trades still open after a candle's exits are open. */
  lemma RestStaysOpen(s: Strategy, c: Candle, history: seq<Candle>, open: seq<Trade>, capital: real)
    requires AllOpen(open)
    ensures AllOpen(ProcessSpec(CandlePass(s, c, history), open, capital).rest)
  {
    var p := CandlePass(s, c, history);
    ProcessRest(p, open, capital);
    var kept := Filter(open, Stays(p));
    forall k | 0 <= k < |kept|
      ensures kept[k].status == Open
    {
      assert kept[k] in open;
    }
  }

  /** The trade opened after the exits of a candle: one exactly when the risk gate allowed
      it, no trade is left open and the signal is long or short; it is the trade
      `OpenTrade` builds from that signal. */
  function Entry(s: Strategy, symbol: string, allowed: bool, rest: seq<Trade>, positionSize: real,
                 c: Candle, history: seq<Candle>): (r: seq<Trade>)
    ensures |r| <= 1
    ensures |r| == 1 <==> allowed && |rest| == 0 && GenerateSignal(s, history, c.closeTime).kind != NoSignal
    ensures |r| == 1 ==> Some(r[0]) == OpenTrade(s, symbol, positionSize, GenerateSignal(s, history, c.closeTime), c)
  {
    if allowed && |rest| == 0 then
      var signal := GenerateSignal(s, history, c.closeTime);
      if signal.kind == LongSignal || signal.kind == ShortSignal then
        var t := OpenTrade(s, symbol, positionSize, signal, c);
        if t.Some? then [t.value] else []
      else []
    else []
  }

  /** What the engine keeps fixed during a run. */
  datatype Setup = Setup(strategy: Strategy, riskManager: RiskManager, riskConfig: RiskConfig, initialCapital: real, symbol: string)

  /** The capitals the risk manager has been told as possible peaks: after each booked trade. */
  function Peaks(initialCapital: real, ts: seq<Trade>): (r: seq<real>)
    ensures |r| == |ts| && forall k :: 0 <= k < |ts| ==> r[k] == initialCapital + SumPnl(ts[..k + 1])
  {
    seq(|ts|, k requires 0 <= k < |ts| => initialCapital + SumPnl(ts[..k + 1]))
  }

  /** What the risk manager has been told during the candle loop once `ts` are booked. */
  function LogOf(initialCapital: real, ts: seq<Trade>): RiskLog {
    RiskLog(initialCapital, ts, Peaks(initialCapital, ts))
  }

  /** The state of a run's candle loop: the booked trades, the open ones and the equity curve. */
  datatype Sim = Sim(trades: seq<Trade>, open: seq<Trade>, curve: seq<EquityPoint>)

  /** One candle of the main loop: the equity point at the capital so far, the risk gate
      asked before the exits, the exits and trailing updates, then at most one entry. */
  function StepSpec(e: Setup, f: seq<Candle>, i: nat, st: Sim): (r: Sim)
    requires i < |f|
    ensures st.trades <= r.trades && |r.curve| == |st.curve| + 1
    ensures r.curve[|st.curve|] == EquityPoint(f[i].closeTime, e.initialCapital + SumPnl(st.trades))
    ensures r.curve[..|st.curve|] == st.curve
    ensures AllOpen(st.open) && |st.open| <= 1 ==> AllOpen(r.open) && |r.open| <= 1
  {
    var c := f[i];
    var history := f[..i + 1];
    var capital := e.initialCapital + SumPnl(st.trades);
    var allowed := e.riskManager.canOpenNewTrade(e.riskConfig, LogOf(e.initialCapital, st.trades), |st.open|, capital, c.closeTime);
    var q := ProcessSpec(CandlePass(e.strategy, c, history), st.open, capital);
    var booked := st.trades + q.booked;
    var size := e.riskManager.getPositionSize(e.riskConfig, LogOf(e.initialCapital, booked));
    var entry := Entry(e.strategy, e.symbol, allowed, q.rest, size, c, history);
    assert |entry| == 1 ==> entry[0].status == Open;
    assert AllOpen(st.open) ==> AllOpen(q.rest) by {
      if AllOpen(st.open) { RestStaysOpen(e.strategy, c, history, st.open, capital); }
    }
    Sim(booked, q.rest + entry, st.curve + [EquityPoint(c.closeTime, capital)])
  }

  /** A state reached from `st` the way the engine handles candle `i` is the state
      `StepSpec` gives. */
  lemma StepAgrees(e: Setup, f: seq<Candle>, i: nat, st: Sim, capital: real, allowed: bool, size: real,
                   trades: seq<Trade>, rest: seq<Trade>, next: seq<Trade>, curve: seq<EquityPoint>)
    requires i < |f|
    requires capital == e.initialCapital + SumPnl(st.trades)
    requires allowed == e.riskManager.canOpenNewTrade(e.riskConfig, LogOf(e.initialCapital, st.trades), |st.open|, capital, f[i].closeTime)
    requires size == e.riskManager.getPositionSize(e.riskConfig, LogOf(e.initialCapital, trades))
    requires var q := ProcessSpec(CandlePass(e.strategy, f[i], f[..i + 1]), st.open, capital);
      trades == st.trades + q.booked && rest == q.rest
    requires curve == st.curve + [EquityPoint(f[i].closeTime, capital)]
    requires next == rest + Entry(e.strategy, e.symbol, allowed, rest, size, f[i], f[..i + 1])
    ensures Sim(trades, next, curve) == StepSpec(e, f, i, st)
  {
  }

  /** The main loop from candle `i` to the end. */
  function RunSpec(e: Setup, f: seq<Candle>, i: nat, st: Sim): (r: Sim)
    ensures st.trades <= r.trades
    ensures |r.curve| == |st.curve| + (if i < |f| then |f| - i else 0)
    ensures AllOpen(st.open) && |st.open| <= 1 ==> AllOpen(r.open) && |r.open| <= 1
    decreases |f| - i
  {
    if i >= |f| then st else RunSpec(e, f, i + 1, StepSpec(e, f, i, st))
  }

  lemma RunSpecStep(e: Setup, f: seq<Candle>, i: nat, st: Sim)
    requires i < |f|
    ensures RunSpec(e, f, i, st) == RunSpec(e, f, i + 1, StepSpec(e, f, i, st))
  {
  }

  /** Each candle adds the equity point stamped with its close time. */
  lemma StepStamps(e: Setup, f: seq<Candle>, i: nat, st: Sim)
    requires WarmupPeriod <= i < |f| && |st.curve| == i - WarmupPeriod
    requires forall k :: 0 <= k < |st.curve| ==> st.curve[k].timestamp == f[WarmupPeriod + k].closeTime
    ensures var r := StepSpec(e, f, i, st);
      forall k :: 0 <= k < |r.curve| ==> r.curve[k].timestamp == f[WarmupPeriod + k].closeTime
  {
    var r := StepSpec(e, f, i, st);
    forall k | 0 <= k < |r.curve|
      ensures r.curve[k].timestamp == f[WarmupPeriod + k].closeTime
    {
      if k < |st.curve| {
        assert r.curve[k] == r.curve[..|st.curve|][k];
      }
    }
  }

  /** Trades closed from the first to the last, each by `close` at the capital plus the
      P&L of the trades closed before it. */
  function CloseInOrder(close: (Trade, real) -> Trade, ts: seq<Trade>, capital: real): (r: seq<Trade>)
    ensures |r| == |ts|
    decreases |ts|
  {
    if |ts| == 0 then []
    else
      var init := CloseInOrder(close, ts[..|ts| - 1], capital);
      init + [close(ts[|ts| - 1], capital + SumPnl(init))]
  }

  lemma CloseInOrderStep(close: (Trade, real) -> Trade, ts: seq<Trade>, capital: real, k: nat)
    requires k < |ts|
    ensures var init := CloseInOrder(close, ts[..k], capital);
      CloseInOrder(close, ts[..k + 1], capital) == init + [close(ts[k], capital + SumPnl(init))]
  {
    assert ts[..k + 1][..k] == ts[..k];
  }

  /** The `k`-th closed trade is the `k`-th trade closed at the capital plus the P&L of
      the trades closed before it. */
  predicate ClosedInTurn(close: (Trade, real) -> Trade, ts: seq<Trade>, capital: real, r: seq<Trade>, k: nat) {
    k < |ts| && k < |r| && r[k] == close(ts[k], capital + SumPnl(r[..k]))
  }

  lemma {:induction false} CloseInOrderMeaning(close: (Trade, real) -> Trade, ts: seq<Trade>, capital: real)
    ensures forall k :: 0 <= k < |ts| ==> ClosedInTurn(close, ts, capital, CloseInOrder(close, ts, capital), k)
    decreases |ts|
  {
    if |ts| > 0 {
      var n := |ts| - 1;
      CloseInOrderMeaning(close, ts[..n], capital);
      var init := CloseInOrder(close, ts[..n], capital);
      var r := CloseInOrder(close, ts, capital);
      assert r == init + [close(ts[n], capital + SumPnl(init))];
      forall k | 0 <= k < |ts|
        ensures ClosedInTurn(close, ts, capital, r, k)
      {
        if k < n {
          assert ClosedInTurn(close, ts[..n], capital, init, k);
          assert ts[..n][k] == ts[k] && r[k] == init[k] && r[..k] == init[..k];
        } else {
          assert r[..k] == init;
        }
      }
    }
  }

  /** How the close-out after the candle loop closes a trade: at the last candle's close
      and time, for reason `SignalExit`. */
  function AtLastCandle(last: Candle): (Trade, real) -> Trade {
    (t, capital) => CloseTrade(t, last.closeTime, last.close, SignalExit, capital)
  }

  /** The close-out after the candle loop, first trade first. */
  function CloseOut(open: seq<Trade>, last: Candle, capital: real): (r: seq<Trade>)
    ensures |r| == |open|
  {
    CloseInOrder(AtLastCandle(last), open, capital)
  }

  /** Each trade of the close-out is its open trade as `CloseTrade` closes it at the last
      candle, at the capital plus the P&L of the trades closed before it. */
  lemma CloseOutMeaning(open: seq<Trade>, last: Candle, capital: real)
    ensures var r := CloseOut(open, last, capital);
      forall k {:trigger open[k]} :: 0 <= k < |open| ==>
        r[k] == CloseTrade(open[k], last.closeTime, last.close, SignalExit, capital + SumPnl(r[..k]))
  {
    var r := CloseOut(open, last, capital);
    CloseInOrderMeaning(AtLastCandle(last), open, capital);
    forall k {:trigger open[k]} | 0 <= k < |open|
      ensures r[k] == CloseTrade(open[k], last.closeTime, last.close, SignalExit, capital + SumPnl(r[..k]))
    {
      assert ClosedInTurn(AtLastCandle(last), open, capital, r, k);
    }
  }

  /** One more trade closed out: the next `CloseTrade` at the capital so far. */
  lemma CloseOutStep(open: seq<Trade>, last: Candle, capital: real, k: nat)
    requires k < |open|
    ensures var done := CloseOut(open[..k], last, capital);
      var closed := CloseTrade(open[k], last.closeTime, last.close, SignalExit, capital + SumPnl(done));
      CloseOut(open[..k + 1], last, capital) == done + [closed] &&
      SumPnl(CloseOut(open[..k + 1], last, capital)) == SumPnl(done) + closed.pnl.value
  {
    var done := CloseOut(open[..k], last, capital);
    CloseInOrderStep(AtLastCandle(last), open, capital, k);
    var closed := CloseTrade(open[k], last.closeTime, last.close, SignalExit, capital + SumPnl(done));
    SumPnlAppend(done, closed);
  }

  /** Every trade of the close-out is closed, with a P&L, at the last candle's close and
      time, for reason `SignalExit`. */
  lemma CloseOutExits(open: seq<Trade>, last: Candle, capital: real)
    ensures var r := CloseOut(open, last, capital);
      forall k :: 0 <= k < |r| ==>
        r[k].status == Closed && r[k].pnl.Some? && r[k].exitReason == Some(SignalExit) &&
        r[k].exitPrice == Some(last.close) && r[k].exitTime == Some(last.closeTime)
  {
    var r := CloseOut(open, last, capital);
    CloseOutMeaning(open, last, capital);
    forall k | 0 <= k < |r|
      ensures r[k].status == Closed && r[k].pnl.Some? && r[k].exitReason == Some(SignalExit) &&
        r[k].exitPrice == Some(last.close) && r[k].exitTime == Some(last.closeTime)
    {
      assert r[k] == CloseTrade(open[k], last.closeTime, last.close, SignalExit, capital + SumPnl(r[..k]));
    }
  }

  /** The trade list after the close-out: the earlier trades followed by trades exited at
      the last candle. */
  lemma CloseOutAppended(before: seq<Trade>, open: seq<Trade>, last: Candle, capital: real)
    ensures var after := before + CloseOut(open, last, capital);
      before <= after && |after| == |before| + |open| &&
      forall m :: |before| <= m < |after| ==>
        after[m].exitReason == Some(SignalExit) &&
        after[m].exitPrice == Some(last.close) && after[m].exitTime == Some(last.closeTime)
  {
    var r := CloseOut(open, last, capital);
    CloseOutExits(open, last, capital);
    assert forall m :: |before| <= m < |before + r| ==> (before + r)[m] == r[m - |before|];
  }

  /** The close-out loop after `k` trades: the trade list and the capital. */
  ghost predicate ClosedOutTo(open: seq<Trade>, last: Candle, capital0: real, trades0: seq<Trade>, k: nat,
                              trades: seq<Trade>, capital: real)
  {
    k <= |open| &&
    trades == trades0 + CloseOut(open[..k], last, capital0) &&
    capital == capital0 + SumPnl(CloseOut(open[..k], last, capital0))
  }

  lemma ClosedOutNext(open: seq<Trade>, last: Candle, capital0: real, trades0: seq<Trade>, k: nat,
                      trades: seq<Trade>, capital: real)
    requires k < |open| && ClosedOutTo(open, last, capital0, trades0, k, trades, capital)
    ensures var closed := CloseTrade(open[k], last.closeTime, last.close, SignalExit, capital);
      closed.status == Closed && closed.pnl.Some? &&
      ClosedOutTo(open, last, capital0, trades0, k + 1, trades + [closed], capital + closed.pnl.value)
  {
    CloseOutStep(open, last, capital0, k);
  }

  lemma ClosedOutDone(open: seq<Trade>, last: Candle, capital0: real, trades0: seq<Trade>,
                      trades: seq<Trade>, capital: real)
    requires ClosedOutTo(open, last, capital0, trades0, |open|, trades, capital)
    ensures trades == trades0 + CloseOut(open, last, capital0)
    ensures capital == capital0 + SumPnl(CloseOut(open, last, capital0))
    ensures trades0 <= trades && |trades| == |trades0| + |open|
    ensures forall m :: |trades0| <= m < |trades| ==>
      trades[m].exitReason == Some(SignalExit) &&
      trades[m].exitPrice == Some(last.close) && trades[m].exitTime == Some(last.closeTime)
  {
    assert open[..|open|] == open;
    CloseOutAppended(trades0, open, last, capital0);
  }

  /** The trades of a whole run over a non-empty window: those the candle loop books,
      then the close-out of the trades still open after the last candle. */
  ghost function RunTrades(e: Setup, f: seq<Candle>): seq<Trade>
    requires |f| > 0
  {
    var s := RunSpec(e, f, WarmupPeriod, Sim([], [], []));
    s.trades + CloseOut(s.open, f[|f| - 1], e.initialCapital + SumPnl(s.trades))
  }

  lemma RunTradesAre(e: Setup, f: seq<Candle>, booked: seq<Trade>, open: seq<Trade>, curve: seq<EquityPoint>, capital: real)
    requires |f| > 0 && Sim(booked, open, curve) == RunSpec(e, f, WarmupPeriod, Sim([], [], []))
    requires capital == e.initialCapital + SumPnl(booked)
    ensures RunTrades(e, f) == booked + CloseOut(open, f[|f| - 1], capital)
  {
  }

  class Engine {
    const config: BacktestConfig
    const strategy: Strategy
    const riskConfig: RiskConfig
    const riskManager: RiskManager
    var trades: seq<Trade>
    var capital: real
    var equityCurve: seq<EquityPoint>
    var riskLog: RiskLog
    /** For each equity point, how many trades had been closed when it was recorded. */
    ghost var equityMarks: seq<nat>

    /** Capital is the initial capital plus the booked P&L, and each equity point is the
        capital after some prefix of the closed trades. */
    ghost predicate Valid()
      reads this
    {
      |equityMarks| == |equityCurve| &&
      capital == config.initialCapital + SumPnl(trades) &&
      (forall k :: 0 <= k < |equityMarks| ==>
        equityMarks[k] <= |trades| && equityCurve[k].equity == config.initialCapital + SumPnl(trades[..equityMarks[k]])) &&
      (forall k :: 0 <= k < |trades| ==> trades[k].status == Closed && trades[k].pnl.Some?) &&
      riskLog.resetCapital == config.initialCapital &&
      riskLog.dailyPnlTrades <= trades &&
      |riskLog.peakUpdates| == |riskLog.dailyPnlTrades| &&
      (forall k :: 0 <= k < |riskLog.peakUpdates| ==>
        riskLog.peakUpdates[k] == config.initialCapital + SumPnl(trades[..k + 1]))
    }

    /** During the candle loop the risk manager has been told of every closed trade. */
    ghost predicate Synced()
      reads this
    {
      riskLog.dailyPnlTrades == trades
    }

    constructor(config: BacktestConfig, indicatorsOf: seq<Candle> -> Option<IndicatorValues>, riskManager: RiskManager)
      ensures this.config == config && this.riskManager == riskManager
      ensures strategy == Strategy(config.tradingConfig.strategy, indicatorsOf)
      ensures riskConfig == BacktestRiskConfig(config)
      ensures trades == [] && equityCurve == [] && capital == config.initialCapital
      ensures riskLog == RiskLog(config.initialCapital, [], [])
      ensures Valid() && Synced()
    {
      this.config := config;
      this.strategy := Strategy(config.tradingConfig.strategy, indicatorsOf);
      this.riskConfig := BacktestRiskConfig(config);
      this.riskManager := riskManager;
      trades := [];
      capital := config.initialCapital;
      equityCurve := [];
      equityMarks := [];
      riskLog := RiskLog(config.initialCapital, [], []);
    }

    /** Books a trade closed inside the candle loop: capital, trade list and risk manager. */
    method BookClosed(closed: Trade)
      requires Valid() && Synced()
      requires closed.status == Closed && closed.pnl.Some?
      modifies this
      ensures Valid() && Synced()
      ensures trades == old(trades) + [closed]
      ensures capital == old(capital) + closed.pnl.value
      ensures equityCurve == old(equityCurve) && equityMarks == old(equityMarks)
      ensures riskLog.peakUpdates == old(riskLog.peakUpdates) + [capital]
    {
      SumPnlAppend(trades, closed);
      forall m | 0 <= m <= |trades| {
        PrefixOfAppend(trades, closed, m);
      }
      capital := capital + closed.pnl.value;
      trades := trades + [closed];
      riskLog := RiskLog(riskLog.resetCapital, riskLog.dailyPnlTrades + [closed], riskLog.peakUpdates + [capital]);
      assert trades[..|trades|] == trades;
    }

    /** The run's fixed parameters. */
    function Parameters(): Setup {
      Setup(strategy, riskManager, riskConfig, config.initialCapital, config.tradingConfig.symbol)
    }

    /** During the candle loop the risk log is determined by the booked trades. */
    lemma LogIsDetermined()
      requires Valid() && Synced()
      ensures riskLog == LogOf(config.initialCapital, trades)
    {
      assert riskLog.peakUpdates == Peaks(config.initialCapital, trades);
    }

    /** One turn of the inner loop: the trade at position `j` either exits on this candle
        and is booked and removed, or has its trailing stop updated in place. */
    method VisitTrade(c: Candle, history: seq<Candle>, rest: seq<Trade>, j: nat) returns (rest': seq<Trade>)
      requires j < |rest|
      requires Valid() && Synced()
      modifies this
      ensures Valid() && Synced()
      ensures var pass := CandlePass(strategy, c, history);
        if pass.leaves(rest[j]) then
          var closed := pass.close(rest[j], old(capital));
          trades == old(trades) + [closed] && capital == old(capital) + PnlOf(closed) && rest' == rest[..j] + rest[j + 1..]
        else
          trades == old(trades) && capital == old(capital) && rest' == rest[j := pass.trail(rest[j])]
      ensures equityCurve == old(equityCurve) && equityMarks == old(equityMarks)
    {
      var trade := rest[j];
      var exit := CheckExit(strategy, trade, c, history);
      if exit.shouldExit {
        var closed := CloseTrade(trade, c.closeTime, exit.exitPrice, exit.reason.value, capital);
        BookClosed(closed);
        rest' := rest[..j] + rest[j + 1..];
      } else {
        var signal := GenerateSignal(strategy, history, c.closeTime);
        rest' := rest;
        if signal.indicators.Some? {
          var tr := CalculateTrailingStop(strategy, trade.entryPrice, c.close, trade.highestPrice, trade.lowestPrice,
                                          trade.initialStopLoss, trade.side, signal.indicators.value.atr);
          rest' := rest[j := ApplyTrailing(trade, tr)];
        } else {
          assert rest == rest[j := trade];
        }
      }
    }

    /** The inner loop over the open trades, last to first. */
    method ProcessOpenTrades(c: Candle, history: seq<Candle>, open: seq<Trade>) returns (rest: seq<Trade>)
      requires Valid() && Synced() && AllOpen(open)
      modifies this
      ensures Valid() && Synced() && AllOpen(rest)
      ensures var q := ProcessSpec(CandlePass(strategy, c, history), open, old(capital));
        trades == old(trades) + q.booked && rest == q.rest
      ensures equityCurve == old(equityCurve) && equityMarks == old(equityMarks)
    {
      ghost var pass := CandlePass(strategy, c, history);
      MidwayStart(pass, open, capital, trades);
      rest := open;
      var j := |open|;
      while j > 0
        invariant 0 <= j && Midway(pass, open, old(capital), old(trades), j, rest, trades, capital)
        invariant Valid() && Synced()
        invariant equityCurve == old(equityCurve) && equityMarks == old(equityMarks)
      {
        var k := j - 1;
        ghost var rest0, trades0, capital0 := rest, trades, capital;
        rest := VisitTrade(c, history, rest, k);
        MidwayVisit(pass, open, old(capital), old(trades), k, rest0, trades0, capital0, rest, trades, capital);
        j := k;
      }
      MidwayDone(pass, open, old(capital), old(trades), rest, trades, capital);
      RestStaysOpen(strategy, c, history, open, old(capital));
    }

    /** One candle of the main loop: record equity, ask the risk gate, process exits,
        then open a trade on a signal when allowed and flat. */
    method Step(candles: seq<Candle>, i: nat, open: seq<Trade>) returns (next: seq<Trade>)
      requires i < |candles|
      requires Valid() && Synced() && AllOpen(open) && |open| <= 1
      modifies this
      ensures Valid() && Synced() && AllOpen(next) && |next| <= 1
      ensures Sim(trades, next, equityCurve) == StepSpec(Parameters(), candles, i, Sim(old(trades), open, old(equityCurve)))
    {
      ghost var st, capital0 := Sim(trades, open, equityCurve), capital;
      var c := candles[i];
      var history := candles[..i + 1];
      LogIsDetermined();
      assert trades[..|trades|] == trades;
      equityCurve := equityCurve + [EquityPoint(c.closeTime, capital)];
      equityMarks := equityMarks + [|trades|];
      var allowed := riskManager.canOpenNewTrade(riskConfig, riskLog, |open|, capital, c.closeTime);
      next := ProcessOpenTrades(c, history, open);
      LogIsDetermined();
      ghost var rest := next;
      if allowed && |next| == 0 {
        var signal := GenerateSignal(strategy, history, c.closeTime);
        if signal.kind == LongSignal || signal.kind == ShortSignal {
          var t := OpenTrade(strategy, config.tradingConfig.symbol, riskManager.getPositionSize(riskConfig, riskLog), signal, c);
          if t.Some? {
            next := next + [t.value];
          }
        }
      }
      assert next == rest + Entry(strategy, config.tradingConfig.symbol, allowed, rest,
                                  riskManager.getPositionSize(riskConfig, riskLog), c, history);
      StepAgrees(Parameters(), candles, i, st, capital0, allowed, riskManager.getPositionSize(riskConfig, riskLog),
                 trades, rest, next, equityCurve);
    }

    /** The main loop over the candles after the warm-up; returns the trades still open. */
    method RunCandles(f: seq<Candle>) returns (open: seq<Trade>)
      requires Valid() && Synced() && trades == [] && equityCurve == []
      modifies this
      ensures Valid() && Synced() && AllOpen(open) && |open| <= 1
      ensures Sim(trades, open, equityCurve) == RunSpec(Parameters(), f, WarmupPeriod, Sim([], [], []))
      ensures |equityCurve| == (if |f| > WarmupPeriod then |f| - WarmupPeriod else 0)
      ensures forall k :: 0 <= k < |equityCurve| ==> equityCurve[k].timestamp == f[WarmupPeriod + k].closeTime
    {
      open := [];
      var i := WarmupPeriod;
      while i < |f|
        invariant WarmupPeriod <= i <= (if |f| > WarmupPeriod then |f| else WarmupPeriod)
        invariant |equityCurve| == i - WarmupPeriod
        invariant forall k :: 0 <= k < |equityCurve| ==> equityCurve[k].timestamp == f[WarmupPeriod + k].closeTime
        invariant Valid() && Synced() && AllOpen(open) && |open| <= 1
        invariant RunSpec(Parameters(), f, i, Sim(trades, open, equityCurve)) == RunSpec(Parameters(), f, WarmupPeriod, Sim([], [], []))
      {
        ghost var st := Sim(trades, open, equityCurve);
        RunSpecStep(Parameters(), f, i, st);
        StepStamps(Parameters(), f, i, st);
        open := Step(f, i, open);
        i := i + 1;
      }
    }

    /** Closes every trade still open at the last candle's close, with reason `SignalExit`;
        the risk manager is not told of these. */
    method CloseRemaining(open: seq<Trade>, last: Candle)
      requires Valid()
      modifies this
      ensures Valid()
      ensures riskLog == old(riskLog) && equityCurve == old(equityCurve)
      ensures old(trades) <= trades && |trades| == |old(trades)| + |open|
      ensures forall m :: |old(trades)| <= m < |trades| ==>
        trades[m].exitReason == Some(SignalExit) &&
        trades[m].exitPrice == Some(last.close) && trades[m].exitTime == Some(last.closeTime)
      ensures trades == old(trades) + CloseOut(open, last, old(capital))
      ensures capital == old(capital) + SumPnl(CloseOut(open, last, old(capital)))
    {
      ghost var trades0, capital0 := trades, capital;
      var k := 0;
      while k < |open|
        invariant 0 <= k <= |open|
        invariant Valid() && riskLog == old(riskLog) && equityCurve == old(equityCurve)
        invariant ClosedOutTo(open, last, capital0, trades0, k, trades, capital)
      {
        var closed := CloseTrade(open[k], last.closeTime, last.close, SignalExit, capital);
        ClosedOutNext(open, last, capital0, trades0, k, trades, capital);
        AppendClosed(closed);
        k := k + 1;
      }
      ClosedOutDone(open, last, capital0, trades0, trades, capital);
      CloseOutAppended(trades0, open, last, capital0);
    }

    /** Books a trade closed after the candle loop: capital and trade list only. */
    method AppendClosed(closed: Trade)
      requires Valid()
      requires closed.status == Closed && closed.pnl.Some?
      modifies this
      ensures Valid()
      ensures trades == old(trades) + [closed]
      ensures capital == old(capital) + closed.pnl.value
      ensures riskLog == old(riskLog) && equityCurve == old(equityCurve) && equityMarks == old(equityMarks)
    {
      SumPnlAppend(trades, closed);
      forall m | 0 <= m <= |trades| {
        PrefixOfAppend(trades, closed, m);
      }
      capital := capital + closed.pnl.value;
      trades := trades + [closed];
    }

    /** The candle loop and the final close-out of a run over a non-empty window. */
    method Simulate(f: seq<Candle>)
      requires |f| > 0 && Valid() && Synced() && trades == [] && equityCurve == []
      modifies this
      ensures Valid()
      ensures |equityCurve| == (if |f| > WarmupPeriod then |f| - WarmupPeriod else 0)
      ensures forall k :: 0 <= k < |equityCurve| ==> equityCurve[k].timestamp == f[WarmupPeriod + k].closeTime
      ensures |trades| <= |riskLog.dailyPnlTrades| + 1
      ensures forall k :: |riskLog.dailyPnlTrades| <= k < |trades| ==>
        trades[k].exitReason == Some(SignalExit) &&
        trades[k].exitPrice == Some(f[|f| - 1].close) && trades[k].exitTime == Some(f[|f| - 1].closeTime)
      ensures var s := RunSpec(Parameters(), f, WarmupPeriod, Sim([], [], []));
        riskLog.dailyPnlTrades == s.trades && equityCurve == s.curve
      ensures trades == RunTrades(Parameters(), f)
      ensures capital == config.initialCapital + SumPnl(trades)
    {
      var open := RunCandles(f);
      ghost var booked, curve, capital0 := trades, equityCurve, capital;
      RunTradesAre(Parameters(), f, booked, open, curve, capital0);
      CloseRemaining(open, f[|f| - 1]);
      assert riskLog.dailyPnlTrades == booked && |trades| == |booked| + |open|;
    }

    /** The state at the start of every run: the initial capital, no trades, no equity
        points and a fresh risk log. */
    method Reset()
      modifies this
      ensures trades == [] && equityCurve == [] && capital == config.initialCapital
      ensures riskLog == RiskLog(config.initialCapital, [], [])
      ensures Valid() && Synced()
    {
      trades := [];
      capital := config.initialCapital;
      equityCurve := [];
      equityMarks := [];
      riskLog := RiskLog(config.initialCapital, [], []);
    }

    /** Runs a backtest over the candles that fall in the configured window. */
    method RunBacktest(candles1m: seq<Candle>) returns (r: RunOutcome)
      modifies this
      ensures Valid()
      ensures var f := FilterByDate(config, candles1m);
        (r.NoCandlesInRange? <==> |f| == 0) &&
        (|f| == 0 ==> trades == [] && equityCurve == [] && capital == config.initialCapital &&
                      riskLog == RiskLog(config.initialCapital, [], [])) &&
        (|f| > 0 ==> r == Completed(Results(trades, capital, equityCurve, config.initialCapital, config.startDate, config.endDate))) &&
        |equityCurve| == (if |f| > WarmupPeriod then |f| - WarmupPeriod else 0) &&
        (forall k :: 0 <= k < |equityCurve| ==> equityCurve[k].timestamp == f[WarmupPeriod + k].closeTime) &&
        |trades| <= |riskLog.dailyPnlTrades| + 1
      ensures var f := FilterByDate(config, candles1m);
        |f| > 0 ==>
        forall k :: |riskLog.dailyPnlTrades| <= k < |trades| ==>
          trades[k].exitReason == Some(SignalExit) &&
          trades[k].exitPrice == Some(f[|f| - 1].close) && trades[k].exitTime == Some(f[|f| - 1].closeTime)
      ensures var f := FilterByDate(config, candles1m);
        |f| > 0 ==>
        var s := RunSpec(Parameters(), f, WarmupPeriod, Sim([], [], []));
        riskLog.dailyPnlTrades == s.trades && equityCurve == s.curve &&
        trades == RunTrades(Parameters(), f) && capital == config.initialCapital + SumPnl(trades)
    {
      Reset();
      var f := FilterByDate(config, candles1m);
      if |f| == 0 {
        return NoCandlesInRange;
      }
      r := RunWindow(f);
    }

    /** A run over a non-empty window: the candle loop, the close-out and the metrics. */
    method RunWindow(f: seq<Candle>) returns (r: RunOutcome)
      requires |f| > 0 && Valid() && Synced() && trades == [] && equityCurve == []
      modifies this
      ensures Valid()
      ensures r == Completed(Results(trades, capital, equityCurve, config.initialCapital, config.startDate, config.endDate))
      ensures |equityCurve| == (if |f| > WarmupPeriod then |f| - WarmupPeriod else 0)
      ensures forall k :: 0 <= k < |equityCurve| ==> equityCurve[k].timestamp == f[WarmupPeriod + k].closeTime
      ensures |trades| <= |riskLog.dailyPnlTrades| + 1
      ensures forall k :: |riskLog.dailyPnlTrades| <= k < |trades| ==>
        trades[k].exitReason == Some(SignalExit) &&
        trades[k].exitPrice == Some(f[|f| - 1].close) && trades[k].exitTime == Some(f[|f| - 1].closeTime)
      ensures var s := RunSpec(Parameters(), f, WarmupPeriod, Sim([], [], []));
        riskLog.dailyPnlTrades == s.trades && equityCurve == s.curve
      ensures trades == RunTrades(Parameters(), f)
      ensures capital == config.initialCapital + SumPnl(trades)
    {
      Simulate(f);
      var result := CalculateResults();
      r := Completed(result);
    }

    /** The drawdown loop over the equity curve: the running peak, and the largest drop
        from it with its percentage of that peak. */
    method ScanDrawdown() returns (dd: DrawdownState)
      ensures dd == Scan(config.initialCapital, equityCurve)
    {
      var maxDrawdown := 0.0;
      var maxDrawdownPercent := Finite(0.0);
      var peak := config.initialCapital;
      var k := 0;
      while k < |equityCurve|
        invariant 0 <= k <= |equityCurve|
        invariant Scan(config.initialCapital, equityCurve[..k]) == DrawdownState(peak, maxDrawdown, maxDrawdownPercent)
      {
        var point := equityCurve[k];
        assert equityCurve[..k + 1][..k] == equityCurve[..k];
        if point.equity > peak {
          peak := point.equity;
        }
        var drawdown := peak - point.equity;
        var drawdownPercent := Percent(drawdown, peak);
        if drawdown > maxDrawdown {
          maxDrawdown := drawdown;
          maxDrawdownPercent := drawdownPercent;
        }
        k := k + 1;
      }
      assert equityCurve[..k] == equityCurve;
      dd := DrawdownState(peak, maxDrawdown, maxDrawdownPercent);
    }

    /** The summary metrics of the current run. */
    method CalculateResults() returns (r: BacktestResult)
      ensures r == Results(trades, capital, equityCurve, config.initialCapital, config.startDate, config.endDate)
    {
      var dd := ScanDrawdown();
      var wins := Wins(trades);
      var losses := Losses(trades);
      r := BacktestResult(
        trades, |trades|, |wins|, |losses|,
        WinRate(trades), ProfitFactor(trades),
        capital - config.initialCapital, Percent(capital - config.initialCapital, config.initialCapital),
        dd.maxDrawdown, dd.maxDrawdownPercent,
        Average(wins), Average(losses),
        if |wins| > 0 then MaxPnl(wins) else 0.0,
        if |losses| > 0 then MinPnl(losses) else 0.0,
        TradesPerDay(|trades|, config.startDate, config.endDate),
        config.initialCapital, capital, config.startDate, config.endDate, equityCurve);
    }
  }

  /** A run's reported total P&L is the sum of its trades' P&L, split into wins and losses. */
  lemma TotalPnlIsBookedPnl(trades: seq<Trade>, curve: seq<EquityPoint>, initialCapital: real, startDate: int, endDate: int)
    ensures var r := Results(trades, initialCapital + SumPnl(trades), curve, initialCapital, startDate, endDate);
      r.totalPnl == SumPnl(Wins(trades)) + SumPnl(Losses(trades)) && r.endCapital - r.startCapital == r.totalPnl
  {
    var capital := initialCapital + SumPnl(trades);
    ResultsCapital(trades, capital, curve, initialCapital, startDate, endDate);
    SumSplitsIntoWinsAndLosses(trades);
    GainOverStart(initialCapital, SumPnl(trades), SumPnl(Wins(trades)), SumPnl(Losses(trades)));
  }

  lemma GainOverStart(start: real, gain: real, wins: real, losses: real)
    requires gain == wins + losses
    ensures (start + gain) - start == wins + losses
  {
  }

  lemma ResultsCapital(trades: seq<Trade>, capital: real, curve: seq<EquityPoint>, initialCapital: real, startDate: int, endDate: int)
    ensures var r := Results(trades, capital, curve, initialCapital, startDate, endDate);
      r.totalPnl == capital - initialCapital && r.endCapital == capital && r.startCapital == initialCapital
  {
  }
}
