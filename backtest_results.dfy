/** Trades as the TypeScript backtest engine records them, and the summary metrics
    it reduces a finished run to: win rate, profit factor, drawdown, averages. */
module BacktestResults {
  import opened Common
  import opened TradingTypes

  datatype ExitReason = StopLoss | TrailingStopExit | TakeProfit | SignalExit
  datatype TradeStatus = Open | Closed

  /** One simulated trade. Optional fields are the ones the source leaves `undefined`. */
  datatype Trade = Trade(
    symbol: string,
    side: Side,
    entryTime: int,
    entryPrice: real,
    positionSize: real,
    stopLoss: real,
    initialStopLoss: real,
    takeProfit: Option<real>,
    trailingStop: Option<real>,
    highestPrice: Option<real>,
    lowestPrice: Option<real>,
    status: TradeStatus,
    exitTime: Option<int>,
    exitPrice: Option<real>,
    exitReason: Option<ExitReason>,
    pnl: Option<real>,
    pnlPercent: Option<Num>)

  datatype EquityPoint = EquityPoint(timestamp: int, equity: real)

  /** `t.pnl || 0`. */
  function PnlOf(t: Trade): real { t.pnl.GetOr(0.0) }

  /** The total profit and loss of a list of trades. */
  function SumPnl(ts: seq<Trade>): real {
    if |ts| == 0 then 0.0 else SumPnl(ts[..|ts| - 1]) + PnlOf(ts[|ts| - 1])
  }

  lemma SumPnlAppend(ts: seq<Trade>, t: Trade)
    ensures SumPnl(ts + [t]) == SumPnl(ts) + PnlOf(t)
  {
    assert (ts + [t])[..|ts|] == ts;
  }

  /** The winning trades, in order. */
  function Wins(ts: seq<Trade>): seq<Trade> {
    if |ts| == 0 then []
    else Wins(ts[..|ts| - 1]) + (if PnlOf(ts[|ts| - 1]) > 0.0 then [ts[|ts| - 1]] else [])
  }

  /** The losing trades, in order. */
  function Losses(ts: seq<Trade>): seq<Trade> {
    if |ts| == 0 then []
    else Losses(ts[..|ts| - 1]) + (if PnlOf(ts[|ts| - 1]) < 0.0 then [ts[|ts| - 1]] else [])
  }

  /** The trades that broke even, which count as neither wins nor losses. */
  function Flat(ts: seq<Trade>): seq<Trade> {
    if |ts| == 0 then []
    else Flat(ts[..|ts| - 1]) + (if PnlOf(ts[|ts| - 1]) == 0.0 then [ts[|ts| - 1]] else [])
  }

  /** Every trade is exactly one of winning, losing or flat, and the filters keep
      exactly the trades of their kind. */
  lemma {:induction false} Partition(ts: seq<Trade>)
    ensures |Wins(ts)| + |Losses(ts)| + |Flat(ts)| == |ts|
    ensures forall k :: 0 <= k < |Wins(ts)| ==> PnlOf(Wins(ts)[k]) > 0.0 && Wins(ts)[k] in ts
    ensures forall k :: 0 <= k < |Losses(ts)| ==> PnlOf(Losses(ts)[k]) < 0.0 && Losses(ts)[k] in ts
    ensures forall t :: t in ts && PnlOf(t) > 0.0 ==> t in Wins(ts)
    ensures forall t :: t in ts && PnlOf(t) < 0.0 ==> t in Losses(ts)
  {
    if |ts| > 0 {
      var init := ts[..|ts| - 1];
      Partition(init);
      assert ts == init + [ts[|ts| - 1]];
    }
  }

  /** The sum over the winning trades is positive as soon as there is one. */
  lemma {:induction false} WinsSumPositive(ts: seq<Trade>)
    ensures SumPnl(Wins(ts)) >= 0.0
    ensures |Wins(ts)| > 0 ==> SumPnl(Wins(ts)) > 0.0
  {
    if |ts| > 0 {
      var init := ts[..|ts| - 1];
      var last := ts[|ts| - 1];
      WinsSumPositive(init);
      if PnlOf(last) > 0.0 {
        SumPnlAppend(Wins(init), last);
      } else {
        assert Wins(ts) == Wins(init);
      }
    }
  }

  /** The sum over the losing trades is negative as soon as there is one. */
  lemma {:induction false} LossesSumNegative(ts: seq<Trade>)
    ensures SumPnl(Losses(ts)) <= 0.0
    ensures |Losses(ts)| > 0 ==> SumPnl(Losses(ts)) < 0.0
  {
    if |ts| > 0 {
      var init := ts[..|ts| - 1];
      var last := ts[|ts| - 1];
      LossesSumNegative(init);
      if PnlOf(last) < 0.0 {
        SumPnlAppend(Losses(init), last);
      } else {
        assert Losses(ts) == Losses(init);
      }
    }
  }

  /** The total P&L is the sum of the wins plus the sum of the losses: flat trades add nothing. */
  lemma {:induction false} SumSplitsIntoWinsAndLosses(ts: seq<Trade>)
    ensures SumPnl(ts) == SumPnl(Wins(ts)) + SumPnl(Losses(ts))
  {
    if |ts| > 0 {
      var init := ts[..|ts| - 1];
      var last := ts[|ts| - 1];
      SumSplitsIntoWinsAndLosses(init);
      if PnlOf(last) > 0.0 {
        SumPnlAppend(Wins(init), last);
        assert Losses(ts) == Losses(init);
      } else if PnlOf(last) < 0.0 {
        SumPnlAppend(Losses(init), last);
        assert Wins(ts) == Wins(init);
      } else {
        assert Wins(ts) == Wins(init);
        assert Losses(ts) == Losses(init);
      }
    }
  }

  /** `100 * wins / total`, or 0 without trades. */
  function WinRate(ts: seq<Trade>): (r: real)
    ensures 0.0 <= r <= 100.0
    ensures r == 0.0 <==> |Wins(ts)| == 0
    ensures r == 100.0 <==> |ts| > 0 && |Wins(ts)| == |ts|
  {
    Partition(ts);
    if |ts| > 0 then
      RatioAtMostOne(|Wins(ts)| as real, |ts| as real);
      (|Wins(ts)| as real / |ts| as real) * 100.0
    else 0.0
  }

  lemma RatioAtMostOne(w: real, n: real)
    requires 0.0 <= w <= n && n > 0.0
    ensures 0.0 <= w / n <= 1.0
    ensures w / n == 0.0 <==> w == 0.0
    ensures w / n == 1.0 <==> w == n
  {
    var q := w / n;
    assert q * n == w;
    assert (1.0 - q) * n == n - w;
    assert (1.0 - q) * n >= 0.0;
  }

  /** Gross profit over gross loss; `PosInf` when there are wins and no losses, 0 when neither. */
  function ProfitFactor(ts: seq<Trade>): (r: Num)
    ensures r == PosInf <==> |Wins(ts)| > 0 && |Losses(ts)| == 0
    ensures r != NegInf && r != NaN
    ensures |Wins(ts)| == 0 && |Losses(ts)| == 0 ==> r == Finite(0.0)
    ensures |Losses(ts)| > 0 ==> r.Finite? && r.r >= 0.0 && IsRatio(r.r, SumPnl(Wins(ts)), Abs(SumPnl(Losses(ts))))
  {
    WinsSumPositive(ts);
    LossesSumNegative(ts);
    var totalWins := SumPnl(Wins(ts));
    var totalLosses := Abs(SumPnl(Losses(ts)));
    assert |Losses(ts)| > 0 <==> totalLosses > 0.0;
    if totalLosses > 0.0 then Finite(Quotient(totalWins, totalLosses))
    else if totalWins > 0.0 then PosInf
    else Finite(0.0)
  }

  /** `a / b` for a positive divisor. */
  function Quotient(a: real, b: real): (q: real)
    requires a >= 0.0 && b > 0.0
    ensures q >= 0.0 && IsRatio(q, a, b)
  {
    a / b
  }

  /** The mean P&L of a non-empty list, or 0. */
  function Average(ts: seq<Trade>): real {
    if |ts| > 0 then SumPnl(ts) / |ts| as real else 0.0
  }

  /** `Math.max(...ts.map(pnl))` on a non-empty list. */
  function MaxPnl(ts: seq<Trade>): (r: real)
    requires |ts| > 0
    ensures forall k :: 0 <= k < |ts| ==> PnlOf(ts[k]) <= r
    ensures exists k :: 0 <= k < |ts| && PnlOf(ts[k]) == r
  {
    if |ts| == 1 then PnlOf(ts[0])
    else
      var m := MaxPnl(ts[..|ts| - 1]);
      assert PnlOf(ts[..|ts| - 1][0]) == PnlOf(ts[0]);
      if PnlOf(ts[|ts| - 1]) > m then PnlOf(ts[|ts| - 1]) else m
  }

  /** `Math.min(...ts.map(pnl))` on a non-empty list. */
  function MinPnl(ts: seq<Trade>): (r: real)
    requires |ts| > 0
    ensures forall k :: 0 <= k < |ts| ==> r <= PnlOf(ts[k])
    ensures exists k :: 0 <= k < |ts| && PnlOf(ts[k]) == r
  {
    if |ts| == 1 then PnlOf(ts[0])
    else
      var m := MinPnl(ts[..|ts| - 1]);
      assert PnlOf(ts[..|ts| - 1][0]) == PnlOf(ts[0]);
      if PnlOf(ts[|ts| - 1]) < m then PnlOf(ts[|ts| - 1]) else m
  }

  // ---------------------------------------------------------------------------
  // Drawdown

  /** The running state of the drawdown scan: the peak so far, the largest drawdown
      so far and its percentage of the peak it was measured from. */
  datatype DrawdownState = DrawdownState(peak: real, maxDrawdown: real, maxDrawdownPercent: Num)

  /** The drawdown scan over an equity curve, starting from a peak at the initial capital. */
  function Scan(initialCapital: real, curve: seq<EquityPoint>): DrawdownState {
    if |curve| == 0 then DrawdownState(initialCapital, 0.0, Finite(0.0))
    else
      var s := Scan(initialCapital, curve[..|curve| - 1]);
      ScanStep(s, curve[|curve| - 1].equity)
  }

  function ScanStep(s: DrawdownState, equity: real): DrawdownState {
    var peak := if equity > s.peak then equity else s.peak;
    var drawdown := peak - equity;
    if drawdown > s.maxDrawdown then DrawdownState(peak, drawdown, Percent(drawdown, peak))
    else DrawdownState(peak, s.maxDrawdown, s.maxDrawdownPercent)
  }

  /** The peak is the largest of the initial capital and every equity seen. */
  lemma {:induction false} ScanPeak(initialCapital: real, curve: seq<EquityPoint>)
    ensures Scan(initialCapital, curve).peak >= initialCapital
    ensures forall k :: 0 <= k < |curve| ==> Scan(initialCapital, curve).peak >= curve[k].equity
    ensures Scan(initialCapital, curve).peak == initialCapital ||
            exists k :: 0 <= k < |curve| && Scan(initialCapital, curve).peak == curve[k].equity
  {
    if |curve| > 0 {
      var init := curve[..|curve| - 1];
      ScanPeak(initialCapital, init);
      assert forall k :: 0 <= k < |init| ==> init[k] == curve[k];
    }
  }

  /** The drawdown at point `k`: how far its equity sits below the peak reached by then. */
  function DrawdownAt(initialCapital: real, curve: seq<EquityPoint>, k: nat): real
    requires k < |curve|
  {
    Scan(initialCapital, curve[..k + 1]).peak - curve[k].equity
  }

  /** The reported maximum drawdown is never negative, bounds the drawdown at every
      point, and is attained at some point unless it is 0. */
  lemma {:induction false} MaxDrawdownIsMaximum(initialCapital: real, curve: seq<EquityPoint>)
    ensures Scan(initialCapital, curve).maxDrawdown >= 0.0
    ensures forall k :: 0 <= k < |curve| ==> DrawdownAt(initialCapital, curve, k) <= Scan(initialCapital, curve).maxDrawdown
    ensures Scan(initialCapital, curve).maxDrawdown == 0.0 ||
            exists k :: 0 <= k < |curve| && DrawdownAt(initialCapital, curve, k) == Scan(initialCapital, curve).maxDrawdown
  {
    if |curve| > 0 {
      var n := |curve|;
      var init := curve[..n - 1];
      MaxDrawdownIsMaximum(initialCapital, init);
      assert curve[..n] == curve;
      forall k | 0 <= k < n - 1
        ensures DrawdownAt(initialCapital, curve, k) == DrawdownAt(initialCapital, init, k)
      {
        assert curve[..k + 1] == init[..k + 1];
      }
      var s := Scan(initialCapital, curve);
      assert DrawdownAt(initialCapital, curve, n - 1) == s.peak - curve[n - 1].equity;
      if s.maxDrawdown != Scan(initialCapital, init).maxDrawdown {
        assert DrawdownAt(initialCapital, curve, n - 1) == s.maxDrawdown;
      } else if s.maxDrawdown != 0.0 {
        var k :| 0 <= k < n - 1 && DrawdownAt(initialCapital, init, k) == s.maxDrawdown;
        assert DrawdownAt(initialCapital, curve, k) == s.maxDrawdown;
      }
    }
  }

  /** A flat or rising curve never draws down. */
  lemma {:induction false} NoDrawdownWhenNeverBelowStart(initialCapital: real, curve: seq<EquityPoint>)
    requires forall k :: 0 <= k < |curve| ==> curve[k].equity >= initialCapital
    requires forall j, k :: 0 <= j < k < |curve| ==> curve[j].equity <= curve[k].equity
    ensures Scan(initialCapital, curve).maxDrawdown == 0.0
    ensures |curve| > 0 ==> Scan(initialCapital, curve).peak == curve[|curve| - 1].equity
  {
    if |curve| > 0 {
      NoDrawdownWhenNeverBelowStart(initialCapital, curve[..|curve| - 1]);
    }
  }

  // ---------------------------------------------------------------------------
  // The result record

  datatype BacktestResult = BacktestResult(
    trades: seq<Trade>,
    totalTrades: nat,
    winningTrades: nat,
    losingTrades: nat,
    winRate: real,
    profitFactor: Num,
    totalPnl: real,
    totalPnlPercent: Num,
    maxDrawdown: real,
    maxDrawdownPercent: Num,
    averageWin: real,
    averageLoss: real,
    largestWin: real,
    largestLoss: real,
    tradesPerDay: real,
    startCapital: real,
    endCapital: real,
    startDate: int,
    endDate: int,
    equityCurve: seq<EquityPoint>)

  const MillisPerDay: real := 86400000.0

  /** Trades per calendar day of the configured window, or 0 for an empty window. */
  function TradesPerDay(count: nat, startDate: int, endDate: int): (r: real)
    ensures endDate <= startDate ==> r == 0.0
    ensures endDate > startDate ==> IsRatio(r, count as real, (endDate - startDate) as real / MillisPerDay)
  {
    var tradingDays := (endDate - startDate) as real / MillisPerDay;
    if tradingDays > 0.0 then Quotient(count as real, tradingDays) else 0.0
  }

  /** The metrics of a finished run. */
  function Results(trades: seq<Trade>, capital: real, curve: seq<EquityPoint>,
                   initialCapital: real, startDate: int, endDate: int): (r: BacktestResult)
    ensures r.trades == trades && r.totalTrades == |trades| && r.winningTrades + r.losingTrades <= r.totalTrades
    ensures 0.0 <= r.winRate <= 100.0 && r.totalPnl == capital - initialCapital
    ensures r.maxDrawdown >= 0.0 && r.startCapital == initialCapital && r.endCapital == capital
    ensures r.averageWin >= 0.0 && r.averageLoss <= 0.0 && r.largestWin >= 0.0 && r.largestLoss <= 0.0
  {
    CountBound(trades);
    MaxDrawdownIsMaximum(initialCapital, curve);
    AverageSigns(trades);
    ExtremeSigns(trades);
    var wins := Wins(trades);
    var losses := Losses(trades);
    var dd := Scan(initialCapital, curve);
    BacktestResult(
      trades, |trades|, |wins|, |losses|,
      WinRate(trades), ProfitFactor(trades),
      capital - initialCapital, Percent(capital - initialCapital, initialCapital),
      dd.maxDrawdown, dd.maxDrawdownPercent,
      Average(wins), Average(losses),
      if |wins| > 0 then MaxPnl(wins) else 0.0,
      if |losses| > 0 then MinPnl(losses) else 0.0,
      TradesPerDay(|trades|, startDate, endDate),
      initialCapital, capital, startDate, endDate, curve)
  }

  /** The mean of the winners is never negative, and that of the losers never positive. */
  lemma AverageSigns(trades: seq<Trade>)
    ensures Average(Wins(trades)) >= 0.0 && Average(Losses(trades)) <= 0.0
  {
    WinsSumPositive(trades);
    LossesSumNegative(trades);
    var wins, losses := Wins(trades), Losses(trades);
    if |wins| > 0 {
      DivSign(SumPnl(wins), |wins| as real);
    }
    if |losses| > 0 {
      DivSign(SumPnl(losses), |losses| as real);
    }
  }

  lemma DivSign(a: real, n: real)
    requires n > 0.0
    ensures a >= 0.0 ==> a / n >= 0.0
    ensures a <= 0.0 ==> a / n <= 0.0
  {
    assert (a / n) * n == a;
  }

  /** The largest win is a win and the largest loss a loss. */
  lemma ExtremeSigns(trades: seq<Trade>)
    ensures |Wins(trades)| > 0 ==> MaxPnl(Wins(trades)) > 0.0
    ensures |Losses(trades)| > 0 ==> MinPnl(Losses(trades)) < 0.0
  {
    Partition(trades);
    var wins := Wins(trades);
    var losses := Losses(trades);
    if |wins| > 0 {
      assert PnlOf(wins[0]) <= MaxPnl(wins);
    }
    if |losses| > 0 {
      assert MinPnl(losses) <= PnlOf(losses[0]);
    }
  }

  lemma CountBound(ts: seq<Trade>)
    ensures |Wins(ts)| + |Losses(ts)| <= |ts|
  {
    Partition(ts);
  }
}
