/** The multi-symbol backtester of the Python system: it walks the sorted union of
    all symbols' bar times, stops at the first breach of its risk limits, settles
    exits (with slippage and commission), opens new positions while fewer than
    `max_positions` are open, and records one equity point per processed time.

    The trading strategy it drives is not part of this model: it is given as a
    `Strategy` value (its exit check, the P&L its `close_position` returns, its
    signal generator and the position its `open_position` creates), and the
    strategy's table of open positions is kept here as `positions`, in the order
    the positions were opened, as a Python dict keeps it. A data frame is reduced
    to its bar times and closes. */
module Backtester {
  import opened Common
  import opened TradingTypes
  import Hybrid

  datatype Bar = Bar(time: int, close: real)

  /** One entry of the `data_dict` argument: a symbol and its bars, in index order. */
  datatype Series = Series(symbol: string, bars: seq<Bar>)

  /** What the backtester reads of an open position. */
  datatype Held = Held(direction: Side, entryPrice: real, size: real)

  /** One entry of the strategy's `positions` dict. */
  datatype Holding = Holding(symbol: string, position: Held)

  datatype Signal = Signal(direction: Side, entryPrice: real)

  datatype Strategy = Strategy(
    checkExit: (Held, seq<Bar>) -> Option<real>,
    closePnl: (Held, real) -> real,
    generateSignal: (seq<Bar>, string) -> Option<Signal>,
    openPosition: (Signal, real) -> Held)

  datatype Config = Config(
    initialCapital: real,
    leverage: real,
    commission: real,
    slippage: real,
    positionSizes: map<string, real>,
    maxDailyLoss: real,
    maxDrawdown: real,
    maxPositions: int)

  datatype EquityPoint = EquityPoint(timestamp: int, equity: real, cash: real, openPnl: real, positions: nat)

  /** The holdings that remain and the money a pass realised (or spent). */
  datatype Pass = Pass(holdings: seq<Holding>, amount: real)

  // ---------------------------------------------------------------------------
  // Data frames

  /** `data_dict[symbol]`, if the symbol has data. */
  function SeriesOf(data: seq<Series>, symbol: string): (r: Option<seq<Bar>>)
    ensures r.Some? <==> exists k :: 0 <= k < |data| && data[k].symbol == symbol
    ensures r.Some? ==> exists k :: 0 <= k < |data| && data[k].symbol == symbol && data[k].bars == r.value
  {
    if |data| == 0 then None
    else if data[0].symbol == symbol then Some(data[0].bars)
    else
      var r := SeriesOf(data[1..], symbol);
      assert forall k :: 1 <= k < |data| ==> data[k] == data[1..][k - 1];
      r
  }

  /** `df.loc[timestamp, 'close']` when `timestamp in df.index`. */
  function BarAt(bars: seq<Bar>, t: int): (r: Option<real>)
    ensures r.Some? <==> exists k :: 0 <= k < |bars| && bars[k].time == t
    ensures r.Some? ==> exists k :: 0 <= k < |bars| && bars[k].time == t && bars[k].close == r.value
  {
    if |bars| == 0 then None
    else if bars[0].time == t then Some(bars[0].close)
    else
      var r := BarAt(bars[1..], t);
      assert forall k :: 1 <= k < |bars| ==> bars[k] == bars[1..][k - 1];
      r
  }

  /** `df.loc[:timestamp]`: the bars up to and including `t`, in order. */
  function Upto(bars: seq<Bar>, t: int): seq<Bar>
  {
    if |bars| == 0 then []
    else if bars[0].time <= t then [bars[0]] + Upto(bars[1..], t)
    else Upto(bars[1..], t)
  }

  /** Whether some symbol has a bar at `t`. */
  predicate HasTime(data: seq<Series>, t: int) {
    exists k :: 0 <= k < |data| && BarAt(data[k].bars, t).Some?
  }

  predicate StrictlyIncreasing(ts: seq<int>) {
    forall i, j :: 0 <= i < j < |ts| ==> ts[i] < ts[j]
  }

  /** The bar times of every symbol, in `data_dict` order (with repeats). */
  function Times(data: seq<Series>): (r: seq<int>)
    ensures forall t :: t in r <==> HasTime(data, t)
  {
    if |data| == 0 then []
    else
      var rest := Times(data[1..]);
      assert forall k :: 1 <= k < |data| ==> data[k] == data[1..][k - 1];
      assert forall t :: HasTime(data[1..], t) ==> HasTime(data, t) by {
        forall t | HasTime(data[1..], t) ensures HasTime(data, t) {
          var k :| 0 <= k < |data[1..]| && BarAt(data[1..][k].bars, t).Some?;
          assert BarAt(data[k + 1].bars, t).Some?;
        }
      }
      BarTimes(data[0].bars) + rest
  }

  function BarTimes(bars: seq<Bar>): (r: seq<int>)
    ensures forall t :: t in r <==> BarAt(bars, t).Some?
  {
    if |bars| == 0 then []
    else
      var rest := BarTimes(bars[1..]);
      assert forall k :: 1 <= k < |bars| ==> bars[k] == bars[1..][k - 1];
      [bars[0].time] + rest
  }

  /** The smallest of a nonempty list of times. */
  function Earliest(ts: seq<int>): (m: int)
    requires |ts| > 0
    ensures m in ts && forall t :: t in ts ==> m <= t
  {
    if |ts| == 1 then ts[0]
    else
      var rest := Earliest(ts[1..]);
      assert forall t :: t in ts ==> t == ts[0] || t in ts[1..];
      if ts[0] <= rest then ts[0] else rest
  }

  /** The list without any occurrence of `v`. */
  function Without(ts: seq<int>, v: int): (r: seq<int>)
    ensures forall t :: t in r <==> t in ts && t != v
    ensures v in ts ==> |r| < |ts|
    ensures |r| <= |ts|
  {
    if |ts| == 0 then []
    else
      var rest := Without(ts[1..], v);
      assert forall t :: t in ts ==> t == ts[0] || t in ts[1..];
      if ts[0] == v then rest else [ts[0]] + rest
  }

  /** The distinct values of `ts`, smallest first, picked one minimum at a time. */
  function Ascending(ts: seq<int>): seq<int>
    decreases |ts|
  {
    if |ts| == 0 then []
    else
      var m := Earliest(ts);
      [m] + Ascending(Without(ts, m))
  }

  /** `Ascending` lists every value of `ts` once, in increasing order. */
  lemma {:induction false} AscendingSorts(ts: seq<int>)
    ensures StrictlyIncreasing(Ascending(ts))
    ensures forall t :: t in Ascending(ts) <==> t in ts
    decreases |ts|
  {
    if |ts| > 0 {
      var m := Earliest(ts);
      var rest := Without(ts, m);
      AscendingSorts(rest);
      var r := Ascending(ts);
      assert r == [m] + Ascending(rest);
      forall i, j | 0 <= i < j < |r|
        ensures r[i] < r[j]
      {
        if i > 0 {
          assert r[i] == Ascending(rest)[i - 1] && r[j] == Ascending(rest)[j - 1];
        } else {
          assert r[j] == Ascending(rest)[j - 1] && r[j] in rest;
        }
      }
    }
  }

  /** Two increasing lists of the same values are the same list. */
  lemma {:induction false} IncreasingUnique(a: seq<int>, b: seq<int>)
    requires StrictlyIncreasing(a) && StrictlyIncreasing(b)
    requires forall t :: t in a <==> t in b
    ensures a == b
    decreases |a|
  {
    if |a| > 0 || |b| > 0 {
      if |a| == 0 {
        assert false;
      }
      assert a[0] in a;
      var j :| 0 <= j < |b| && b[j] == a[0];
      assert b[0] in b;
      var i :| 0 <= i < |a| && a[i] == b[0];
      assert b[0] <= b[j] && a[0] <= a[i];
      forall t
        ensures t in a[1..] <==> t in b[1..]
      {
        assert t in a[1..] <==> t in a && t != a[0];
        assert t in b[1..] <==> t in b && t != b[0];
      }
      IncreasingUnique(a[1..], b[1..]);
      assert a == [a[0]] + a[1..] && b == [b[0]] + b[1..];
    }
  }

  /** The bar times a run walks through. */
  function Timeline(data: seq<Series>): seq<int> {
    Ascending(Times(data))
  }

  /** `sorted(set().union(*(df.index for df in data_dict.values())))`: every bar time
      once, in increasing order. */
  method SortedTimestamps(data: seq<Series>) returns (ts: seq<int>)
    ensures StrictlyIncreasing(ts)
    ensures forall t :: t in ts <==> HasTime(data, t)
    ensures ts == Timeline(data)
  {
    var pending := Times(data);
    ts := [];
    while |pending| > 0
      invariant StrictlyIncreasing(ts)
      invariant forall t :: HasTime(data, t) <==> t in ts || t in pending
      invariant forall t, k :: t in pending && 0 <= k < |ts| ==> ts[k] < t
      decreases |pending|
    {
      var m := Earliest(pending);
      ts := ts + [m];
      pending := Without(pending, m);
    }
    AscendingSorts(Times(data));
    IncreasingUnique(ts, Timeline(data));
  }

  // ---------------------------------------------------------------------------
  // Sizing, margin and commission

  /** `position_sizes.get(symbol, 0.1)`. */
  function LotSize(cfg: Config, symbol: string): (r: real)
    ensures r in cfg.positionSizes.Values || (symbol !in cfg.positionSizes && r == 0.1)
  {
    if symbol in cfg.positionSizes then cfg.positionSizes[symbol] else 0.1
  }

  /** The approximate price the margin and commission rules use. */
  function ReferencePrice(symbol: string): real {
    if Contains(symbol, "XAU") then 2000.0 else 1.0
  }

  /** `size * contract_size * price` with the rules' fixed contract sizes and prices. */
  function TradeValue(size: real, symbol: string): (r: real)
    ensures Contains(symbol, "XAU") ==> r == size * 200000.0
    ensures !Contains(symbol, "XAU") ==> r == size * 100000.0
  {
    size * Hybrid.ContractMultiplier(symbol) * ReferencePrice(symbol)
  }

  /** `_calculate_commission`: the commission rate applied to the trade value. */
  function Commission(size: real, symbol: string, rate: real): (r: real)
    ensures Contains(symbol, "XAU") ==> r == size * 200000.0 * rate
    ensures !Contains(symbol, "XAU") ==> r == size * 100000.0 * rate
  {
    TradeValue(size, symbol) * rate
  }

  /** `_validate_position_size`: the margin of the symbol's lot must not exceed half the
      capital. A zero leverage is a Python `ZeroDivisionError`, excluded here. */
  function MarginOk(cfg: Config, capital: real, symbol: string): bool
    requires cfg.leverage != 0.0
  {
    TradeValue(LotSize(cfg, symbol), symbol) / cfg.leverage <= capital * 0.5
  }

  /** With a positive leverage the margin rule compares the trade value with half the
      leveraged capital. */
  lemma MarginRule(cfg: Config, capital: real, symbol: string)
    requires cfg.leverage > 0.0
    ensures MarginOk(cfg, capital, symbol) <==>
      TradeValue(LotSize(cfg, symbol), symbol) <= capital * 0.5 * cfg.leverage
  {
    var v := TradeValue(LotSize(cfg, symbol), symbol);
    assert (v / cfg.leverage) * cfg.leverage == v;
    if v / cfg.leverage <= capital * 0.5 {
      assert (v / cfg.leverage) * cfg.leverage <= capital * 0.5 * cfg.leverage;
    } else {
      assert (v / cfg.leverage) * cfg.leverage > capital * 0.5 * cfg.leverage;
    }
  }

  /** `_check_risk_limits`: both limits are strict, so a loss or drawdown exactly at
      its limit still lets the run go on. */
  function WithinRiskLimits(cfg: Config, dailyStartCapital: real, capital: real, drawdown: real): (ok: bool)
    ensures dailyStartCapital - capital == cfg.maxDailyLoss && drawdown <= cfg.maxDrawdown ==> ok
    ensures dailyStartCapital - capital <= cfg.maxDailyLoss && drawdown == cfg.maxDrawdown ==> ok
    ensures capital >= dailyStartCapital && cfg.maxDailyLoss >= 0.0 && drawdown <= cfg.maxDrawdown ==> ok
    ensures dailyStartCapital - capital > cfg.maxDailyLoss ==> !ok
    ensures ok <==> dailyStartCapital - capital <= cfg.maxDailyLoss && drawdown <= cfg.maxDrawdown
  {
    if dailyStartCapital - capital > cfg.maxDailyLoss then false
    else if drawdown > cfg.maxDrawdown then false
    else true
  }

  // ---------------------------------------------------------------------------
  // The passes of one time step

  /** The exit price after slippage: worse for the position's side. */
  function Slipped(side: Side, price: real, slippage: real): (r: real)
    ensures slippage >= 0.0 && side == Long ==> r <= price
    ensures slippage >= 0.0 && side == Short ==> r >= price
    ensures Abs(r - price) == Abs(slippage)
  {
    if side == Long then price - slippage else price + slippage
  }

  datatype SettleRule = AtSignal(t: int) | AtEnd

  /** What settling one holding yields: nothing (it stays open), or the P&L credited
      to the capital when it is closed. At a signal the exit is taken at the strategy's
      price moved by the slippage and the commission is charged; at the end of the data
      the position is closed at the last close without either. */
  function SettleNet(cfg: Config, strategy: Strategy, data: seq<Series>, rule: SettleRule, h: Holding): Option<real> {
    match SeriesOf(data, h.symbol)
    case None => None
    case Some(bars) =>
      match rule
      case AtSignal(t) =>
        if BarAt(bars, t).None? then None
        else (
          match strategy.checkExit(h.position, Upto(bars, t))
          case None => None
          case Some(price) =>
            var exitPrice := Slipped(h.position.direction, price, cfg.slippage);
            Some(strategy.closePnl(h.position, exitPrice) - Commission(h.position.size, h.symbol, cfg.commission)))
      case AtEnd =>
        if |bars| == 0 then None else Some(strategy.closePnl(h.position, bars[|bars| - 1].close))
  }

  /** Settles the holdings in order; the ones that stay open keep their order. */
  function Settle(cfg: Config, strategy: Strategy, data: seq<Series>, rule: SettleRule, hs: seq<Holding>): (r: Pass)
    ensures |r.holdings| <= |hs|
  {
    if |hs| == 0 then Pass([], 0.0)
    else
      var init := hs[..|hs| - 1];
      var h := hs[|hs| - 1];
      var p := Settle(cfg, strategy, data, rule, init);
      match SettleNet(cfg, strategy, data, rule, h)
      case None => Pass(p.holdings + [h], p.amount)
      case Some(net) => Pass(p.holdings, p.amount + net)
  }

  predicate HeldSymbol(hs: seq<Holding>, symbol: string) {
    exists k :: 0 <= k < |hs| && hs[k].symbol == symbol
  }

  /** At most one position per symbol. */
  predicate DistinctSymbols(hs: seq<Holding>) {
    forall i, j :: 0 <= i < j < |hs| ==> hs[i].symbol != hs[j].symbol
  }

  /** The position a symbol's series would open at `t`: the strategy's position for
      its signal, sized by `position_sizes`. */
  function EntryOf(strategy: Strategy, cfg: Config, s: Series, t: int): Option<Holding> {
    match strategy.generateSignal(Upto(s.bars, t), s.symbol)
    case None => None
    case Some(signal) => Some(Holding(s.symbol, strategy.openPosition(signal, LotSize(cfg, s.symbol))))
  }

  /** The entry pass over the symbols in `data_dict` order: a symbol with a bar at
      `t` and no open position opens one when the strategy signals and the margin
      rule allows, and its commission is paid at once. */
  function Enter(cfg: Config, strategy: Strategy, data: seq<Series>, t: int, hs: seq<Holding>, capital: real): (r: Pass)
    requires cfg.leverage != 0.0
    ensures hs <= r.holdings
    ensures |r.holdings| <= |hs| + |data|
    ensures forall k :: |hs| <= k < |r.holdings| ==>
      !HeldSymbol(hs, r.holdings[k].symbol) &&
      exists j :: 0 <= j < |data| && data[j].symbol == r.holdings[k].symbol && BarAt(data[j].bars, t).Some?
    ensures DistinctSymbols(hs) ==> DistinctSymbols(r.holdings)
  {
    if |data| == 0 then Pass(hs, capital)
    else
      var s := data[|data| - 1];
      var p := Enter(cfg, strategy, data[..|data| - 1], t, hs, capital);
      assert forall j :: 0 <= j < |data| - 1 ==> data[..|data| - 1][j] == data[j];
      assert forall k :: 0 <= k < |hs| ==> p.holdings[k] == hs[k];
      if BarAt(s.bars, t).None? || HeldSymbol(p.holdings, s.symbol) then p
      else
        match strategy.generateSignal(Upto(s.bars, t), s.symbol)
        case None => p
        case Some(signal) =>
          if !MarginOk(cfg, p.amount, s.symbol) then p
          else
            var size := LotSize(cfg, s.symbol);
            var entry := Holding(s.symbol, strategy.openPosition(signal, size));
            Pass(p.holdings + [entry], p.amount - Commission(size, s.symbol, cfg.commission))
  }

  /** Whether the entry pass opens a position for the `j`-th series: it has a bar at
      `t`, its symbol was not held before the pass, the strategy signals, and the margin
      rule allows the lot at the capital left once the earlier series were handled. */
  predicate OpensAt(cfg: Config, strategy: Strategy, data: seq<Series>, t: int, hs: seq<Holding>, capital: real, j: nat)
    requires cfg.leverage != 0.0 && j < |data|
  {
    var s := data[j];
    BarAt(s.bars, t).Some? && !HeldSymbol(hs, s.symbol) && EntryOf(strategy, cfg, s, t).Some? &&
    MarginOk(cfg, Enter(cfg, strategy, data[..j], t, hs, capital).amount, s.symbol)
  }

  /** The entry pass on a nonempty `data_dict`, by its last series. */
  lemma EnterLast(cfg: Config, strategy: Strategy, data: seq<Series>, t: int, hs: seq<Holding>, capital: real)
    requires cfg.leverage != 0.0 && |data| > 0
    ensures var p := Enter(cfg, strategy, data[..|data| - 1], t, hs, capital);
      var s := data[|data| - 1];
      var e := EntryOf(strategy, cfg, s, t);
      Enter(cfg, strategy, data, t, hs, capital) ==
        if BarAt(s.bars, t).Some? && !HeldSymbol(p.holdings, s.symbol) && e.Some? && MarginOk(cfg, p.amount, s.symbol)
        then Pass(p.holdings + [e.value], p.amount - Commission(LotSize(cfg, s.symbol), s.symbol, cfg.commission))
        else p
  {
  }

  /** A symbol held after `hs` grew into `hs'` but not held in `hs` is among the added holdings. */
  lemma HeldInAdded(hs: seq<Holding>, hs': seq<Holding>, symbol: string)
    requires hs <= hs'
    ensures HeldSymbol(hs', symbol) && !HeldSymbol(hs, symbol) ==> HeldSymbol(hs'[|hs|..], symbol)
    ensures HeldSymbol(hs, symbol) ==> HeldSymbol(hs', symbol)
  {
    if HeldSymbol(hs', symbol) && !HeldSymbol(hs, symbol) {
      var k :| 0 <= k < |hs'| && hs'[k].symbol == symbol;
      if k >= |hs| {
        assert hs'[|hs|..][k - |hs|] == hs'[k];
      }
    }
    if HeldSymbol(hs, symbol) {
      var k :| 0 <= k < |hs| && hs[k].symbol == symbol;
      assert hs'[k] == hs[k];
    }
  }

  /** Whether the `j`-th series opens does not depend on the series after it. */
  lemma OpensAtFront(cfg: Config, strategy: Strategy, data: seq<Series>, t: int, hs: seq<Holding>, capital: real, j: nat)
    requires cfg.leverage != 0.0 && j < |data| - 1
    ensures data[..|data| - 1][j] == data[j]
    ensures OpensAt(cfg, strategy, data[..|data| - 1], t, hs, capital, j) == OpensAt(cfg, strategy, data, t, hs, capital, j)
  {
    assert data[..|data| - 1][..j] == data[..j];
  }

  /** Whether `x` is the strategy's position for some series the entry pass opens at. */
  predicate OpenedFrom(cfg: Config, strategy: Strategy, data: seq<Series>, t: int, hs: seq<Holding>, capital: real, x: Holding)
    requires cfg.leverage != 0.0
  {
    exists j :: 0 <= j < |data| && OpensAt(cfg, strategy, data, t, hs, capital, j) && EntryOf(strategy, cfg, data[j], t) == Some(x)
  }

  lemma OpenedFromFront(cfg: Config, strategy: Strategy, data: seq<Series>, t: int, hs: seq<Holding>, capital: real, x: Holding)
    requires cfg.leverage != 0.0 && |data| > 0
    requires OpenedFrom(cfg, strategy, data[..|data| - 1], t, hs, capital, x)
    ensures OpenedFrom(cfg, strategy, data, t, hs, capital, x)
  {
    var front := data[..|data| - 1];
    var j :| 0 <= j < |front| && OpensAt(cfg, strategy, front, t, hs, capital, j) && EntryOf(strategy, cfg, front[j], t) == Some(x);
    OpensAtFront(cfg, strategy, data, t, hs, capital, j);
  }

  /** Each position the entry pass adds is the strategy's position for a series it
      opens at. */
  lemma {:induction false} EnterAddsOpened(cfg: Config, strategy: Strategy, data: seq<Series>, t: int, hs: seq<Holding>, capital: real)
    requires cfg.leverage != 0.0
    ensures var added := Enter(cfg, strategy, data, t, hs, capital).holdings[|hs|..];
      forall k :: 0 <= k < |added| ==> OpenedFrom(cfg, strategy, data, t, hs, capital, added[k])
    decreases |data|
  {
    var r := Enter(cfg, strategy, data, t, hs, capital);
    var added := r.holdings[|hs|..];
    if |data| > 0 {
      var n := |data|;
      var front, s := data[..n - 1], data[n - 1];
      var p := Enter(cfg, strategy, front, t, hs, capital);
      var addedP := p.holdings[|hs|..];
      EnterAddsOpened(cfg, strategy, front, t, hs, capital);
      EnterLast(cfg, strategy, data, t, hs, capital);
      var e := EntryOf(strategy, cfg, s, t);
      var cond := BarAt(s.bars, t).Some? && !HeldSymbol(p.holdings, s.symbol) && e.Some? && MarginOk(cfg, p.amount, s.symbol);
      if cond {
        SuffixAppend(p.holdings, e.value, |hs|);
        assert added == addedP + [e.value];
        HeldInAdded(hs, p.holdings, s.symbol);
        assert OpensAt(cfg, strategy, data, t, hs, capital, n - 1);
      } else {
        assert added == addedP;
      }
      forall k | 0 <= k < |added|
        ensures OpenedFrom(cfg, strategy, data, t, hs, capital, added[k])
      {
        if k < |addedP| {
          assert added[k] == addedP[k];
          OpenedFromFront(cfg, strategy, data, t, hs, capital, added[k]);
        }
      }
    } else {
      assert added == [];
    }
  }

  /** The positions added over all the series extend those added over all but the last. */
  lemma AddedGrows(cfg: Config, strategy: Strategy, data: seq<Series>, t: int, hs: seq<Holding>, capital: real)
    requires cfg.leverage != 0.0 && |data| > 0
    ensures Enter(cfg, strategy, data[..|data| - 1], t, hs, capital).holdings[|hs|..] <=
            Enter(cfg, strategy, data, t, hs, capital).holdings[|hs|..]
  {
    var p := Enter(cfg, strategy, data[..|data| - 1], t, hs, capital);
    var s := data[|data| - 1];
    var e := EntryOf(strategy, cfg, s, t);
    EnterLast(cfg, strategy, data, t, hs, capital);
    if BarAt(s.bars, t).Some? && !HeldSymbol(p.holdings, s.symbol) && e.Some? && MarginOk(cfg, p.amount, s.symbol) {
      SuffixAppend(p.holdings, e.value, |hs|);
    }
  }

  /** When the entry pass opens at the last series, an added position holds its symbol. */
  lemma OpensLastHeld(cfg: Config, strategy: Strategy, data: seq<Series>, t: int, hs: seq<Holding>, capital: real)
    requires cfg.leverage != 0.0 && |data| > 0
    requires OpensAt(cfg, strategy, data, t, hs, capital, |data| - 1)
    ensures HeldSymbol(Enter(cfg, strategy, data, t, hs, capital).holdings[|hs|..], data[|data| - 1].symbol)
  {
    var n := |data|;
    var s := data[n - 1];
    var p := Enter(cfg, strategy, data[..n - 1], t, hs, capital);
    var added := Enter(cfg, strategy, data, t, hs, capital).holdings[|hs|..];
    var addedP := p.holdings[|hs|..];
    var e := EntryOf(strategy, cfg, s, t);
    EnterLast(cfg, strategy, data, t, hs, capital);
    HeldInAdded(hs, p.holdings, s.symbol);
    AddedGrows(cfg, strategy, data, t, hs, capital);
    if HeldSymbol(p.holdings, s.symbol) {
      HeldInAdded(addedP, added, s.symbol);
    } else {
      SuffixAppend(p.holdings, e.value, |hs|);
      assert added[|addedP|] == e.value;
    }
  }

  /** Every series the entry pass opens at ends up with its symbol held by an added
      position. */
  lemma {:induction false} EnterOpensAll(cfg: Config, strategy: Strategy, data: seq<Series>, t: int, hs: seq<Holding>, capital: real)
    requires cfg.leverage != 0.0
    ensures var added := Enter(cfg, strategy, data, t, hs, capital).holdings[|hs|..];
      forall j :: 0 <= j < |data| && OpensAt(cfg, strategy, data, t, hs, capital, j) ==> HeldSymbol(added, data[j].symbol)
    decreases |data|
  {
    if |data| > 0 {
      var n := |data|;
      var front := data[..n - 1];
      var added := Enter(cfg, strategy, data, t, hs, capital).holdings[|hs|..];
      var addedP := Enter(cfg, strategy, front, t, hs, capital).holdings[|hs|..];
      EnterOpensAll(cfg, strategy, front, t, hs, capital);
      AddedGrows(cfg, strategy, data, t, hs, capital);
      forall j | 0 <= j < n && OpensAt(cfg, strategy, data, t, hs, capital, j)
        ensures HeldSymbol(added, data[j].symbol)
      {
        if j < n - 1 {
          OpensAtFront(cfg, strategy, data, t, hs, capital, j);
          HeldInAdded(addedP, added, data[j].symbol);
        } else {
          OpensLastHeld(cfg, strategy, data, t, hs, capital);
        }
      }
    }
  }

  /** What each entry costs: the commission on its configured lot. */
  function Commissions(cfg: Config, entries: seq<Holding>): (r: seq<real>)
    ensures |r| == |entries|
  {
    seq(|entries|, k requires 0 <= k < |entries| => Commission(LotSize(cfg, entries[k].symbol), entries[k].symbol, cfg.commission))
  }

  lemma SuffixAppend<T>(xs: seq<T>, x: T, m: nat)
    requires m <= |xs|
    ensures (xs + [x])[m..] == xs[m..] + [x]
  {
  }

  lemma CommissionsAppend(cfg: Config, entries: seq<Holding>, e: Holding)
    ensures Commissions(cfg, entries + [e]) == Commissions(cfg, entries) + [Commission(LotSize(cfg, e.symbol), e.symbol, cfg.commission)]
  {
  }

  /** The entry pass spends exactly the commissions of the positions it opens. */
  lemma {:induction false} EnterCharges(cfg: Config, strategy: Strategy, data: seq<Series>, t: int, hs: seq<Holding>, capital: real)
    requires cfg.leverage != 0.0
    ensures Enter(cfg, strategy, data, t, hs, capital).amount ==
      capital - Sum(Commissions(cfg, Enter(cfg, strategy, data, t, hs, capital).holdings[|hs|..]))
    decreases |data|
  {
    var r := Enter(cfg, strategy, data, t, hs, capital);
    if |data| == 0 {
      assert r.holdings[|hs|..] == [];
    } else {
      var s := data[|data| - 1];
      var p := Enter(cfg, strategy, data[..|data| - 1], t, hs, capital);
      EnterCharges(cfg, strategy, data[..|data| - 1], t, hs, capital);
      EnterLast(cfg, strategy, data, t, hs, capital);
      if r != p {
        var e := EntryOf(strategy, cfg, s, t).value;
        var before := p.holdings[|hs|..];
        assert hs <= p.holdings;
        SuffixAppend(p.holdings, e, |hs|);
        CommissionsAppend(cfg, before, e);
        SumAppend(Commissions(cfg, before), Commission(LotSize(cfg, s.symbol), s.symbol, cfg.commission));
      }
    }
  }

  /** The exits of one time step, then — only if fewer than `max_positions` positions
      are then open — the entries. The count is checked once, before the entry pass, so
      a step can open up to one position per symbol beyond the limit. */
  function Trade(cfg: Config, strategy: Strategy, data: seq<Series>, t: int, hs: seq<Holding>, capital: real): (r: Pass)
    requires cfg.leverage != 0.0
    ensures |r.holdings| <= |hs| || |r.holdings| < cfg.maxPositions + |data|
  {
    var exits := Settle(cfg, strategy, data, AtSignal(t), hs);
    var afterExits := capital + exits.amount;
    if |exits.holdings| < cfg.maxPositions then Enter(cfg, strategy, data, t, exits.holdings, afterExits)
    else Pass(exits.holdings, afterExits)
  }

  lemma TradeUnfold(cfg: Config, strategy: Strategy, data: seq<Series>, t: int, hs: seq<Holding>, capital: real)
    requires cfg.leverage != 0.0
    ensures var exits := Settle(cfg, strategy, data, AtSignal(t), hs);
      |exits.holdings| < cfg.maxPositions ==>
        Trade(cfg, strategy, data, t, hs, capital) == Enter(cfg, strategy, data, t, exits.holdings, capital + exits.amount)
    ensures var exits := Settle(cfg, strategy, data, AtSignal(t), hs);
      |exits.holdings| >= cfg.maxPositions ==>
        Trade(cfg, strategy, data, t, hs, capital) == Pass(exits.holdings, capital + exits.amount)
  {
  }

  /** A time step settles first and enters second: the holdings that stay open keep
      their place in front, entries are looked for only when fewer than `max_positions`
      remain, and then from the cash the exits left (`SettleAmount` and `EnterCharges`
      say how much that is). */
  lemma TradeComposes(cfg: Config, strategy: Strategy, data: seq<Series>, t: int, hs: seq<Holding>, capital: real)
    requires cfg.leverage != 0.0
    ensures var exits := Settle(cfg, strategy, data, AtSignal(t), hs);
      var r := Trade(cfg, strategy, data, t, hs, capital);
      exits.holdings <= r.holdings &&
      (|exits.holdings| < cfg.maxPositions ==> r == Enter(cfg, strategy, data, t, exits.holdings, capital + exits.amount)) &&
      (|exits.holdings| >= cfg.maxPositions ==> r == Pass(exits.holdings, capital + exits.amount))
  {
    TradeUnfold(cfg, strategy, data, t, hs, capital);
  }

  /** The unrealised P&L of one holding at `t`, or 0 when its symbol has no bar then. */
  function Unrealised(data: seq<Series>, t: int, h: Holding): real {
    match SeriesOf(data, h.symbol)
    case None => 0.0
    case Some(bars) =>
      match BarAt(bars, t)
      case None => 0.0
      case Some(close) => Hybrid.PositionPnl(h.position.direction, h.position.entryPrice, close, h.position.size, h.symbol)
  }

  function OpenPnl(data: seq<Series>, t: int, hs: seq<Holding>): real {
    if |hs| == 0 then 0.0 else OpenPnl(data, t, hs[..|hs| - 1]) + Unrealised(data, t, hs[|hs| - 1])
  }

  /** Holdings whose symbol has no bar at `t` contribute nothing to the open P&L. */
  lemma {:induction false} OpenPnlOfUnpricedHoldings(data: seq<Series>, t: int, hs: seq<Holding>)
    requires forall k :: 0 <= k < |hs| ==>
      SeriesOf(data, hs[k].symbol).None? || BarAt(SeriesOf(data, hs[k].symbol).value, t).None?
    ensures OpenPnl(data, t, hs) == 0.0
  {
    if |hs| > 0 {
      OpenPnlOfUnpricedHoldings(data, t, hs[..|hs| - 1]);
    }
  }

  /** `max_positions` bounds the number of positions only before the entry pass: with
      no position open, a limit of one and two symbols signalling at the same time,
      both are opened. */
  lemma MaxPositionsCanBeExceeded()
    ensures var cfg := Config(10000.0, 100.0, 0.0, 0.0, map[], 500.0, 0.2, 1);
      var strategy := Strategy((h, bars) => None, (h, price) => 0.0,
                               (bars, symbol) => Some(Signal(Long, 1.0)), (signal, size) => Held(Long, 1.0, size));
      var data := [Series("EURUSD", [Bar(60, 1.0)]), Series("GBPUSD", [Bar(60, 1.0)])];
      |Trade(cfg, strategy, data, 60, [], cfg.initialCapital).holdings| == 2 > cfg.maxPositions
  {
    var cfg := Config(10000.0, 100.0, 0.0, 0.0, map[], 500.0, 0.2, 1);
    var strategy := Strategy((h, bars) => None, (h, price) => 0.0,
                             (bars, symbol) => Some(Signal(Long, 1.0)), (signal, size) => Held(Long, 1.0, size));
    var data := [Series("EURUSD", [Bar(60, 1.0)]), Series("GBPUSD", [Bar(60, 1.0)])];
    NotContainsWithoutFirstChar("EURUSD", "XAU");
    NotContainsWithoutFirstChar("GBPUSD", "XAU");
    assert TradeValue(0.1, "EURUSD") == 10000.0 && TradeValue(0.1, "GBPUSD") == 10000.0;
    assert MarginOk(cfg, 10000.0, "EURUSD") && MarginOk(cfg, 10000.0, "GBPUSD");
    assert BarAt([Bar(60, 1.0)], 60) == Some(1.0);
    assert LotSize(cfg, "EURUSD") == 0.1;
    assert strategy.generateSignal(Upto([Bar(60, 1.0)], 60), "EURUSD") == Some(Signal(Long, 1.0));
    assert strategy.openPosition(Signal(Long, 1.0), 0.1) == Held(Long, 1.0, 0.1);
    var first := Enter(cfg, strategy, data[..1], 60, [], cfg.initialCapital);
    assert data[..1][..0] == [] && data[..1] == [data[0]];
    assert Enter(cfg, strategy, data[..1][..0], 60, [], cfg.initialCapital) == Pass([], 10000.0);
    assert first.holdings == [Holding("EURUSD", Held(Long, 1.0, 0.1))];
    assert !HeldSymbol(first.holdings, "GBPUSD");
  }

  // ---------------------------------------------------------------------------
  // The backtester

  /** Every open position whose symbol has data has at least one bar, so the closing
      pass at the end of the run has a last close to use. */
  predicate FramesCover(data: seq<Series>, hs: seq<Holding>) {
    forall k :: 0 <= k < |hs| && SeriesOf(data, hs[k].symbol).Some? ==> |SeriesOf(data, hs[k].symbol).value| > 0
  }

  /** Settling keeps only holdings that were there, and entering adds only symbols
      with a bar at `t`, so the frames still cover the open positions. */
  lemma TradeKeepsFramesCovered(cfg: Config, strategy: Strategy, data: seq<Series>, t: int, hs: seq<Holding>, capital: real)
    requires cfg.leverage != 0.0 && DistinctSeries(data) && FramesCover(data, hs)
    ensures FramesCover(data, Trade(cfg, strategy, data, t, hs, capital).holdings)
    ensures DistinctSymbols(hs) ==> DistinctSymbols(Trade(cfg, strategy, data, t, hs, capital).holdings)
  {
    var exits := Settle(cfg, strategy, data, AtSignal(t), hs);
    SettleKeeps(cfg, strategy, data, AtSignal(t), hs);
    assert FramesCover(data, exits.holdings) by {
      forall k | 0 <= k < |exits.holdings| && SeriesOf(data, exits.holdings[k].symbol).Some?
        ensures |SeriesOf(data, exits.holdings[k].symbol).value| > 0
      {
        var i :| 0 <= i < |hs| && hs[i] == exits.holdings[k];
      }
    }
    if DistinctSymbols(hs) {
      SettleKeepsDistinct(cfg, strategy, data, AtSignal(t), hs);
    }
    var r := Trade(cfg, strategy, data, t, hs, capital);
    forall k | 0 <= k < |r.holdings| && SeriesOf(data, r.holdings[k].symbol).Some?
      ensures |SeriesOf(data, r.holdings[k].symbol).value| > 0
    {
      if k >= |exits.holdings| {
        var j :| 0 <= j < |data| && data[j].symbol == r.holdings[k].symbol && BarAt(data[j].bars, t).Some?;
        SeriesOfDistinct(data, j);
      }
    }
  }

  /** The holdings that stay open after settling are exactly those the rule keeps. */
  lemma {:induction false} SettleKeeps(cfg: Config, strategy: Strategy, data: seq<Series>, rule: SettleRule, hs: seq<Holding>)
    ensures var r := Settle(cfg, strategy, data, rule, hs);
      && (forall k :: 0 <= k < |r.holdings| ==>
            r.holdings[k] in hs && SettleNet(cfg, strategy, data, rule, r.holdings[k]).None?)
      && (forall h :: h in hs && SettleNet(cfg, strategy, data, rule, h).None? ==> h in r.holdings)
  {
    if |hs| > 0 {
      var init := hs[..|hs| - 1];
      var h := hs[|hs| - 1];
      var p := Settle(cfg, strategy, data, rule, init);
      SettleKeeps(cfg, strategy, data, rule, init);
      assert hs == init + [h];
      if SettleNet(cfg, strategy, data, rule, h).None? {
        assert Settle(cfg, strategy, data, rule, hs).holdings == p.holdings + [h];
      } else {
        assert Settle(cfg, strategy, data, rule, hs).holdings == p.holdings;
      }
    }
  }

  /** Whether a holding stays open under a settling rule, as a filter callback. */
  function StaysOpen(cfg: Config, strategy: Strategy, data: seq<Series>, rule: SettleRule): Holding -> bool {
    h => SettleNet(cfg, strategy, data, rule, h).None?
  }

  /** What settling each holding realises, zero for those that stay open. */
  function Nets(cfg: Config, strategy: Strategy, data: seq<Series>, rule: SettleRule, hs: seq<Holding>): (r: seq<real>)
    ensures |r| == |hs|
  {
    seq(|hs|, k requires 0 <= k < |hs| => SettleNet(cfg, strategy, data, rule, hs[k]).GetOr(0.0))
  }

  /** Settling keeps, in order, exactly the holdings the rule does not close. */
  lemma {:induction false} SettleKeepsOpen(cfg: Config, strategy: Strategy, data: seq<Series>, rule: SettleRule, hs: seq<Holding>)
    ensures Settle(cfg, strategy, data, rule, hs).holdings == Filter(hs, StaysOpen(cfg, strategy, data, rule))
  {
    if |hs| > 0 {
      SettleKeepsOpen(cfg, strategy, data, rule, hs[..|hs| - 1]);
      SettleLast(cfg, strategy, data, rule, hs);
      FilterLast(hs, StaysOpen(cfg, strategy, data, rule));
    }
  }

  /** Settling realises the sum of what closing each holding yields. */
  lemma {:induction false} SettleAmount(cfg: Config, strategy: Strategy, data: seq<Series>, rule: SettleRule, hs: seq<Holding>)
    ensures Settle(cfg, strategy, data, rule, hs).amount == Sum(Nets(cfg, strategy, data, rule, hs))
  {
    if |hs| > 0 {
      var init := hs[..|hs| - 1];
      SettleAmount(cfg, strategy, data, rule, init);
      SettleLast(cfg, strategy, data, rule, hs);
      assert Nets(cfg, strategy, data, rule, hs)[..|hs| - 1] == Nets(cfg, strategy, data, rule, init);
    }
  }

  /** The `k`-th holding kept by `Settle` sits at some index of the holdings settled. */
  lemma KeptIsHeld(cfg: Config, strategy: Strategy, data: seq<Series>, rule: SettleRule, hs: seq<Holding>, k: nat)
    requires k < |Settle(cfg, strategy, data, rule, hs).holdings|
    ensures exists i :: 0 <= i < |hs| && hs[i] == Settle(cfg, strategy, data, rule, hs).holdings[k]
  {
    SettleKeeps(cfg, strategy, data, rule, hs);
    var h := Settle(cfg, strategy, data, rule, hs).holdings[k];
    assert h in hs;
  }

  /** `Settle` on a nonempty list, by its last holding. */
  lemma SettleLast(cfg: Config, strategy: Strategy, data: seq<Series>, rule: SettleRule, hs: seq<Holding>)
    requires |hs| > 0
    ensures var p := Settle(cfg, strategy, data, rule, hs[..|hs| - 1]);
      var h := hs[|hs| - 1];
      var net := SettleNet(cfg, strategy, data, rule, h);
      && (net.None? ==> Settle(cfg, strategy, data, rule, hs) == Pass(p.holdings + [h], p.amount))
      && (net.Some? ==> Settle(cfg, strategy, data, rule, hs) == Pass(p.holdings, p.amount + net.value))
  {
  }

  /** Removing the element just after a prefix `a` from `a + b`. */
  lemma SkipOne<T>(a: seq<T>, b: seq<T>)
    requires |b| > 0
    ensures (a + b)[..|a|] + (a + b)[|a| + 1..] == a + b[1..]
  {
    assert (a + b)[..|a|] == a;
    assert (a + b)[|a| + 1..] == b[1..];
  }

  /** The symbols of a `data_dict` are distinct. */
  predicate DistinctSeries(data: seq<Series>) {
    forall i, j :: 0 <= i < j < |data| ==> data[i].symbol != data[j].symbol
  }

  lemma SeriesOfDistinct(data: seq<Series>, j: nat)
    requires DistinctSeries(data) && j < |data|
    ensures SeriesOf(data, data[j].symbol) == Some(data[j].bars)
  {
    if j > 0 {
      assert data[1..][j - 1] == data[j];
      SeriesOfDistinct(data[1..], j - 1);
    }
  }

  lemma {:induction false} SettleKeepsDistinct(cfg: Config, strategy: Strategy, data: seq<Series>, rule: SettleRule, hs: seq<Holding>)
    requires DistinctSymbols(hs)
    ensures DistinctSymbols(Settle(cfg, strategy, data, rule, hs).holdings)
  {
    if |hs| > 0 {
      var init := hs[..|hs| - 1];
      var h := hs[|hs| - 1];
      SettleKeepsDistinct(cfg, strategy, data, rule, init);
      var p := Settle(cfg, strategy, data, rule, init);
      forall k | 0 <= k < |p.holdings|
        ensures p.holdings[k].symbol != h.symbol
      {
        KeptIsHeld(cfg, strategy, data, rule, init, k);
        var i :| 0 <= i < |init| && init[i] == p.holdings[k];
        assert hs[i] == init[i];
      }
    }
  }

  /** When every held symbol with data has a bar, the closing pass at the end of the
      data closes every position whose symbol has data; only the others stay open. */
  lemma CloseAllLeavesUnpriced(cfg: Config, strategy: Strategy, data: seq<Series>, hs: seq<Holding>)
    requires FramesCover(data, hs)
    ensures var r := Settle(cfg, strategy, data, AtEnd, hs);
      forall k :: 0 <= k < |r.holdings| ==> SeriesOf(data, r.holdings[k].symbol).None?
  {
    var r := Settle(cfg, strategy, data, AtEnd, hs);
    SettleKeeps(cfg, strategy, data, AtEnd, hs);
    forall k | 0 <= k < |r.holdings|
      ensures SeriesOf(data, r.holdings[k].symbol).None?
    {
      assert r.holdings[k] in hs && SettleNet(cfg, strategy, data, AtEnd, r.holdings[k]).None?;
      var i :| 0 <= i < |hs| && hs[i] == r.holdings[k];
    }
  }

  /** A drawdown measured from a positive peak the equity has not passed is between
      0 and 1 (for a nonnegative equity). */
  lemma DrawdownBounds(peak: real, equity: real)
    requires peak > 0.0 && equity <= peak
    ensures 0.0 <= (peak - equity) / peak
    ensures equity >= 0.0 ==> (peak - equity) / peak <= 1.0
  {
    var d := (peak - equity) / peak;
    assert d * peak == peak - equity;
  }

  /** Settling one position: at a signal time, the exit check of a position whose
      symbol has a bar at `t`, with the slipped exit price and the commission; at the
      end of the data, the close at the symbol's last bar. `None` when it stays open. */
  method SettleOne(cfg: Config, strategy: Strategy, data: seq<Series>, rule: SettleRule, h: Holding)
    returns (settled: Option<real>)
    ensures settled == SettleNet(cfg, strategy, data, rule, h)
  {
    settled := None;
    var frame := SeriesOf(data, h.symbol);
    if frame.None? {
      return;
    }
    var bars := frame.value;
    match rule {
      case AtSignal(t) =>
        if BarAt(bars, t).Some? {
          var exit := strategy.checkExit(h.position, Upto(bars, t));
          if exit.Some? {
            var exitPrice := exit.value;
            if h.position.direction == Long {
              exitPrice := exitPrice - cfg.slippage;
            } else {
              exitPrice := exitPrice + cfg.slippage;
            }
            var pnl := strategy.closePnl(h.position, exitPrice);
            var commissionCost := Commission(h.position.size, h.symbol, cfg.commission);
            settled := Some(pnl - commissionCost);
          }
        }
      case AtEnd =>
        if |bars| > 0 {
          settled := Some(strategy.closePnl(h.position, bars[|bars| - 1].close));
        }
    }
  }

  /** One turn of the settling loop: settles the `k`-th position of the snapshot,
      which sits at index `kept` of the open positions. */
  method SettleTurn(cfg: Config, strategy: Strategy, data: seq<Series>, rule: SettleRule,
                    positions: seq<Holding>, k: nat, kept: nat, open: seq<Holding>, amount: real)
    returns (kept': nat, open': seq<Holding>, amount': real)
    requires k < |positions| && SettledUpTo(cfg, strategy, data, rule, positions, k, kept, open, amount)
    ensures SettledUpTo(cfg, strategy, data, rule, positions, k + 1, kept', open', amount')
  {
    var settled := SettleOne(cfg, strategy, data, rule, positions[k]);
    SettleNext(cfg, strategy, data, rule, positions, k, kept, open, amount, settled);
    if settled.Some? {
      kept', open', amount' := kept, open[..kept] + open[kept + 1..], amount + settled.value;
    } else {
      kept', open', amount' := kept + 1, open, amount;
    }
  }

  /** The loop over a snapshot of the open positions that settles each in turn. */
  method SettlePass(cfg: Config, strategy: Strategy, data: seq<Series>, rule: SettleRule, positions: seq<Holding>, capital: real)
    returns (open: seq<Holding>, cash: real)
    ensures var p := Settle(cfg, strategy, data, rule, positions);
      open == p.holdings && cash == capital + p.amount
  {
    open := positions;
    var amount := 0.0;
    var kept := 0;
    var k := 0;
    while k < |positions|
      invariant 0 <= k <= |positions|
      invariant SettledUpTo(cfg, strategy, data, rule, positions, k, kept, open, amount)
    {
      kept, open, amount := SettleTurn(cfg, strategy, data, rule, positions, k, kept, open, amount);
      k := k + 1;
    }
    assert positions[..k] == positions;
    cash := capital + amount;
  }

  /** The state of the settling loop after the first `k` holdings: `kept` of them
      stay, in front of the holdings still to be visited, and `amount` was realised. */
  ghost predicate SettledUpTo(cfg: Config, strategy: Strategy, data: seq<Series>, rule: SettleRule,
                              hs: seq<Holding>, k: nat, kept: nat, open: seq<Holding>, amount: real)
    requires k <= |hs|
  {
    var done := Settle(cfg, strategy, data, rule, hs[..k]);
    kept == |done.holdings| && open == done.holdings + hs[k..] && amount == done.amount
  }

  lemma SettleNext(cfg: Config, strategy: Strategy, data: seq<Series>, rule: SettleRule,
                   hs: seq<Holding>, k: nat, kept: nat, open: seq<Holding>, amount: real, settled: Option<real>)
    requires k < |hs| && SettledUpTo(cfg, strategy, data, rule, hs, k, kept, open, amount)
    requires settled == SettleNet(cfg, strategy, data, rule, hs[k])
    ensures settled.Some? ==> (kept < |open| &&
      SettledUpTo(cfg, strategy, data, rule, hs, k + 1, kept, open[..kept] + open[kept + 1..], amount + settled.value))
    ensures settled.None? ==> SettledUpTo(cfg, strategy, data, rule, hs, k + 1, kept + 1, open, amount)
  {
    var done := Settle(cfg, strategy, data, rule, hs[..k]);
    assert hs[..k + 1][..k] == hs[..k] && hs[..k + 1][k] == hs[k];
    SettleLast(cfg, strategy, data, rule, hs[..k + 1]);
    var next := Settle(cfg, strategy, data, rule, hs[..k + 1]);
    assert hs[k..][1..] == hs[k + 1..];
    if settled.Some? {
      assert next == Pass(done.holdings, done.amount + settled.value);
      SkipOne(done.holdings, hs[k..]);
    } else {
      assert next == Pass(done.holdings + [hs[k]], done.amount);
      assert open == (done.holdings + [hs[k]]) + hs[k + 1..] by {
        assert hs[k..] == [hs[k]] + hs[k + 1..];
      }
    }
  }

  /** The equity points recorded after index `n0` carry the first `m` of the sorted
      bar times: they are bar times, in increasing order, all before the next time,
      and all of them once every time is done. */
  lemma RecordedTimes(curve: seq<EquityPoint>, n0: nat, ts: seq<int>, m: nat, data: seq<Series>)
    requires n0 + m == |curve| && m <= |ts| && StrictlyIncreasing(ts)
    requires forall t :: t in ts <==> HasTime(data, t)
    requires forall j :: n0 <= j < |curve| ==> curve[j].timestamp == ts[j - n0]
    ensures forall j :: n0 <= j < |curve| ==> HasTime(data, curve[j].timestamp)
    ensures forall i, j :: n0 <= i < j < |curve| ==> curve[i].timestamp < curve[j].timestamp
    ensures m < |ts| ==> forall j :: n0 <= j < |curve| ==> curve[j].timestamp < ts[m]
    ensures m == |ts| ==> forall t :: HasTime(data, t) ==> exists j :: n0 <= j < |curve| && curve[j].timestamp == t
  {
    forall j | n0 <= j < |curve|
      ensures HasTime(data, curve[j].timestamp)
    {
      assert ts[j - n0] in ts;
    }
    if m == |ts| {
      forall t | HasTime(data, t)
        ensures exists j :: n0 <= j < |curve| && curve[j].timestamp == t
      {
        var k :| 0 <= k < |ts| && ts[k] == t;
        assert curve[n0 + k].timestamp == ts[n0 + k - n0];
      }
    }
  }

  datatype StepOutcome = Proceed | RiskBreached | ZeroPeak

  /** How a run ended: after the last timestamp, at the first timestamp whose risk
      check failed, or by a `ZeroDivisionError` in the drawdown at a zero peak. */
  datatype RunOutcome = Completed | StoppedByRisk(at: int) | ZeroDivisionError(at: int)

  /** What `run` carries from one bar time to the next: the strategy's open positions,
      the capital, the equity curve, its peak, the current drawdown, and the day and
      the capital the daily loss is measured from. */
  datatype RunState = RunState(positions: seq<Holding>, capital: real, curve: seq<EquityPoint>,
                               peak: real, drawdown: real, date: Option<int>, dailyStart: real)

  /** One bar time of `run`: on a new day the daily start capital is reset to the
      capital; a failed risk check stops the run with nothing else changed; otherwise
      the exits and entries of `Trade` are made, the equity point of `t` is recorded at
      the new capital plus the open P&L, the peak rises to that equity if it is higher,
      and the drawdown is measured from the peak, except that a zero peak makes that
      division fail and leaves the drawdown as it was. */
  function RunStep(cfg: Config, strategy: Strategy, data: seq<Series>, t: int, s: RunState): (r: (StepOutcome, RunState))
    requires cfg.leverage != 0.0
    ensures r.1.date == Some(DayOf(t))
    ensures r.0 == RiskBreached <==> !WithinRiskLimits(cfg, r.1.dailyStart, s.capital, s.drawdown)
    ensures r.0 == RiskBreached ==>
      r.1.positions == s.positions && r.1.capital == s.capital && r.1.curve == s.curve &&
      r.1.peak == s.peak && r.1.drawdown == s.drawdown
    ensures r.0 != RiskBreached ==>
      && |r.1.curve| == |s.curve| + 1 && s.curve <= r.1.curve
      && r.1.curve[|s.curve|].timestamp == t && s.peak <= r.1.peak && r.1.curve[|s.curve|].equity <= r.1.peak
      && (r.0 == ZeroPeak <==> r.1.peak == 0.0)
  {
    var date := Some(DayOf(t));
    var dailyStart := if s.date == date then s.dailyStart else s.capital;
    if !WithinRiskLimits(cfg, dailyStart, s.capital, s.drawdown) then
      (RiskBreached, s.(date := date, dailyStart := dailyStart))
    else
      var p := Trade(cfg, strategy, data, t, s.positions, s.capital);
      var openPnl := OpenPnl(data, t, p.holdings);
      var equity := p.amount + openPnl;
      var peak := Max(s.peak, equity);
      var curve := s.curve + [EquityPoint(t, equity, p.amount, openPnl, |p.holdings|)];
      if peak == 0.0 then
        (ZeroPeak, RunState(p.holdings, p.amount, curve, peak, s.drawdown, date, dailyStart))
      else
        (Proceed, RunState(p.holdings, p.amount, curve, peak, (peak - equity) / peak, date, dailyStart))
  }

  /** `RunStep` over a fixed configuration, strategy and data. */
  function Stepper(cfg: Config, strategy: Strategy, data: seq<Series>): (int, RunState) -> (StepOutcome, RunState)
    requires cfg.leverage != 0.0
  {
    (t, s) => RunStep(cfg, strategy, data, t, s)
  }

  /** The loop of `run` from the `i`-th of the times `ts` on, with `step` the work
      of one time: one step per time until the times run out, a risk check fails,
      or a zero peak raises the `ZeroDivisionError`. */
  function RunFrom(step: (int, RunState) -> (StepOutcome, RunState), ts: seq<int>, i: nat, s: RunState): (RunOutcome, RunState)
    requires i <= |ts|
    decreases |ts| - i
  {
    if i == |ts| then (Completed, s)
    else
      var r := step(ts[i], s);
      if r.0 == RiskBreached then (StoppedByRisk(ts[i]), r.1)
      else if r.0 == ZeroPeak then (ZeroDivisionError(ts[i]), r.1)
      else RunFrom(step, ts, i + 1, r.1)
  }

  /** The whole of `run` from the state `s` (which `run` starts with no current day
      and the day's starting capital equal to the capital): the loop over every bar
      time, in increasing order; then, unless the loop ended by the
      `ZeroDivisionError`, `_close_all_positions` at the end of the data. */
  function RunResult(cfg: Config, strategy: Strategy, data: seq<Series>, s: RunState): (RunOutcome, RunState)
    requires cfg.leverage != 0.0
  {
    var r := RunFrom(Stepper(cfg, strategy, data), Timeline(data), 0, s);
    if r.0.ZeroDivisionError? then r
    else
      var p := Settle(cfg, strategy, data, AtEnd, r.1.positions);
      (r.0, r.1.(positions := p.holdings, capital := r.1.capital + p.amount))
  }

  /** What a step does to the run's state, as `RunStep` promises it. */
  predicate StepShape(cfg: Config, t: int, s: RunState, r: (StepOutcome, RunState)) {
    && r.1.date == Some(DayOf(t))
    && (r.0 == RiskBreached <==> !WithinRiskLimits(cfg, r.1.dailyStart, s.capital, s.drawdown))
    && (r.0 == RiskBreached ==>
          r.1.positions == s.positions && r.1.capital == s.capital && r.1.curve == s.curve &&
          r.1.peak == s.peak && r.1.drawdown == s.drawdown)
    && (r.0 != RiskBreached ==>
          && |r.1.curve| == |s.curve| + 1 && s.curve <= r.1.curve
          && r.1.curve[|s.curve|].timestamp == t && s.peak <= r.1.peak && r.1.curve[|s.curve|].equity <= r.1.peak
          && (r.0 == ZeroPeak <==> r.1.peak == 0.0))
  }

  lemma StepperShape(cfg: Config, strategy: Strategy, data: seq<Series>)
    requires cfg.leverage != 0.0
    ensures forall t, s :: StepShape(cfg, t, s, Stepper(cfg, strategy, data)(t, s))
  {
    forall t, s
      ensures StepShape(cfg, t, s, Stepper(cfg, strategy, data)(t, s))
    {
      var r := RunStep(cfg, strategy, data, t, s);
      assert Stepper(cfg, strategy, data)(t, s) == r;
    }
  }

  /** What the loop of `run` does to the equity curve and when it stops: it keeps the
      points it had and appends one point for each time it got through, carrying
      those times in order, under a peak that never falls. It completes only after
      every remaining time; it stops for risk at the time right after the last point
      it recorded, because the limits fail in the state it stopped in, after every
      earlier time passed its check and recorded its point; and a zero peak stops it
      at the point it has just recorded. */
  lemma {:induction false} RunFromRecords(cfg: Config, step: (int, RunState) -> (StepOutcome, RunState),
                                          ts: seq<int>, i: nat, s: RunState)
    requires i <= |ts|
    requires forall t, s :: StepShape(cfg, t, s, step(t, s))
    ensures var r := RunFrom(step, ts, i, s);
      var n := |r.1.curve| - |s.curve|;
      && s.curve <= r.1.curve && i + n <= |ts|
      && (forall j :: |s.curve| <= j < |r.1.curve| ==> r.1.curve[j].timestamp == ts[i + (j - |s.curve|)])
      && r.1.peak >= s.peak
      && (forall j :: |s.curve| <= j < |r.1.curve| ==> r.1.curve[j].equity <= r.1.peak)
      && (r.0 == Completed ==> i + n == |ts|)
      && (r.0.StoppedByRisk? ==> i + n < |ts| && r.0.at == ts[i + n] && r.1.date == Some(DayOf(ts[i + n])) &&
                                 !WithinRiskLimits(cfg, r.1.dailyStart, r.1.capital, r.1.drawdown))
      && (r.0.ZeroDivisionError? ==> n > 0 && r.0.at == ts[i + n - 1] && r.1.peak == 0.0)
    decreases |ts| - i
  {
    if i < |ts| {
      var next := step(ts[i], s);
      assert StepShape(cfg, ts[i], s, next);
      if next.0 == Proceed {
        RunFromRecords(cfg, step, ts, i + 1, next.1);
        var r := RunFrom(step, ts, i + 1, next.1);
        assert r == RunFrom(step, ts, i, s);
        forall j | |s.curve| <= j < |r.1.curve|
          ensures r.1.curve[j].timestamp == ts[i + (j - |s.curve|)] && r.1.curve[j].equity <= r.1.peak
        {
          if j == |s.curve| {
            assert r.1.curve[j] == next.1.curve[j];
          }
        }
      }
    }
  }

  /** A state reached as `Step` describes it is the state `RunStep` gives. */
  lemma StepIsRunStep(cfg: Config, strategy: Strategy, data: seq<Series>, t: int, s: RunState, outcome: StepOutcome, r: RunState)
    requires cfg.leverage != 0.0
    requires r.date == Some(DayOf(t))
    requires r.dailyStart == if s.date == Some(DayOf(t)) then s.dailyStart else s.capital
    requires outcome == RiskBreached <==> !WithinRiskLimits(cfg, r.dailyStart, s.capital, s.drawdown)
    requires outcome == RiskBreached ==>
      r.positions == s.positions && r.capital == s.capital && r.curve == s.curve && r.peak == s.peak && r.drawdown == s.drawdown
    requires outcome != RiskBreached ==>
      var openPnl := OpenPnl(data, t, r.positions);
      var equity := r.capital + openPnl;
      && Pass(r.positions, r.capital) == Trade(cfg, strategy, data, t, s.positions, s.capital)
      && r.curve == s.curve + [EquityPoint(t, equity, r.capital, openPnl, |r.positions|)]
      && r.peak == Max(s.peak, equity)
      && (outcome == ZeroPeak <==> r.peak == 0.0)
      && (r.peak != 0.0 ==> r.drawdown == (r.peak - equity) / r.peak)
      && (r.peak == 0.0 ==> r.drawdown == s.drawdown)
    ensures RunStep(cfg, strategy, data, t, s) == (outcome, r)
  {
  }

  /** What a run leaves in the equity curve, from the curve `before` and the peak
      `peak0` to the curve `curve` and the peak `peak`, when it ends with `outcome`:
      it only appends, the peak never falls, every appended point is at a bar time
      and under the peak, in increasing time order; a completed run has a point for
      every bar time; a risk stop happens at a bar time after every appended point;
      a division by zero happens at the time of the last point, with a zero peak. */
  ghost predicate RecordsRun(data: seq<Series>, before: seq<EquityPoint>, peak0: real,
                             curve: seq<EquityPoint>, peak: real, outcome: RunOutcome)
  {
    && before <= curve && peak >= peak0
    && (forall j :: |before| <= j < |curve| ==> HasTime(data, curve[j].timestamp) && curve[j].equity <= peak)
    && (forall i, j :: |before| <= i < j < |curve| ==> curve[i].timestamp < curve[j].timestamp)
    && (outcome == Completed ==> forall t :: HasTime(data, t) ==>
          exists j :: |before| <= j < |curve| && curve[j].timestamp == t)
    && (outcome.StoppedByRisk? ==>
          && HasTime(data, outcome.at)
          && forall j :: |before| <= j < |curve| ==> curve[j].timestamp < outcome.at)
    && (outcome.ZeroDivisionError? ==>
          && peak == 0.0 && |curve| > |before|
          && curve[|curve| - 1].timestamp == outcome.at)
  }

  /** The loop of `run` over every bar time, for any step that behaves as `RunStep`
      does: the points it appends carry bar times in increasing order, each at most
      the peak, which never falls; a completed loop has a point for every bar time; a
      loop stopped for risk stops at a bar time after every point it recorded, where
      the limits fail; and a `ZeroDivisionError` ends the loop at the point just
      recorded, under a zero peak. */
  lemma TimelineRecords(cfg: Config, step: (int, RunState) -> (StepOutcome, RunState), data: seq<Series>, s: RunState)
    requires forall t, s :: StepShape(cfg, t, s, step(t, s))
    ensures var r := RunFrom(step, Timeline(data), 0, s);
      && RecordsRun(data, s.curve, s.peak, r.1.curve, r.1.peak, r.0)
      && (r.0.StoppedByRisk? ==> !WithinRiskLimits(cfg, r.1.dailyStart, r.1.capital, r.1.drawdown))
  {
    RunFromRecords(cfg, step, Timeline(data), 0, s);
    LoopRecords(data, s.curve, s.peak, RunFrom(step, Timeline(data), 0, s));
  }

  /** `RecordsRun` for a loop over every bar time that appended one point per time
      it got through, as `RunFromRecords` describes it. */
  lemma LoopRecords(data: seq<Series>, before: seq<EquityPoint>, peak0: real, r: (RunOutcome, RunState))
    requires var n := |r.1.curve| - |before|;
      && before <= r.1.curve && n <= |Timeline(data)|
      && (forall j :: |before| <= j < |r.1.curve| ==> r.1.curve[j].timestamp == Timeline(data)[0 + (j - |before|)])
      && r.1.peak >= peak0
      && (forall j :: |before| <= j < |r.1.curve| ==> r.1.curve[j].equity <= r.1.peak)
      && (r.0 == Completed ==> 0 + n == |Timeline(data)|)
      && (r.0.StoppedByRisk? ==> 0 + n < |Timeline(data)| && r.0.at == Timeline(data)[0 + n])
      && (r.0.ZeroDivisionError? ==> n > 0 && r.0.at == Timeline(data)[0 + n - 1] && r.1.peak == 0.0)
    ensures RecordsRun(data, before, peak0, r.1.curve, r.1.peak, r.0)
  {
    var ts := Timeline(data);
    AscendingSorts(Times(data));
    RecordedTimes(r.1.curve, |before|, ts, |r.1.curve| - |before|, data);
    if r.0.StoppedByRisk? {
      assert r.0.at in ts;
    }
  }

  class Backtester {
    const config: Config
    const strategy: Strategy
    var capital: real
    /** The strategy's open positions, one per symbol, in the order they were opened. */
    var positions: seq<Holding>
    var equityCurve: seq<EquityPoint>
    var peakEquity: real
    var currentDrawdown: real

    ghost predicate Valid()
      reads this
    {
      config.leverage != 0.0 && DistinctSymbols(positions)
    }

    /** The run's state, with the loop's current day and daily start capital. */
    function Snapshot(date: Option<int>, dailyStart: real): RunState
      reads this
    {
      RunState(positions, capital, equityCurve, peakEquity, currentDrawdown, date, dailyStart)
    }

    constructor(config: Config, strategy: Strategy)
      requires config.leverage != 0.0
      ensures this.config == config && this.strategy == strategy
      ensures capital == config.initialCapital && peakEquity == config.initialCapital
      ensures positions == [] && equityCurve == [] && currentDrawdown == 0.0
      ensures Valid()
    {
      this.config := config;
      this.strategy := strategy;
      capital := config.initialCapital;
      positions := [];
      equityCurve := [];
      peakEquity := config.initialCapital;
      currentDrawdown := 0.0;
    }

    /** The exit loop of one timestamp: every position whose symbol has a bar at `t`
        is offered to the strategy's exit check; an exit is taken at the slipped
        price, and the P&L less the commission is credited to the capital. Closing a
        position removes its entry. */
    method CheckExits(data: seq<Series>, t: int)
      modifies this
      ensures var p := Settle(config, strategy, data, AtSignal(t), old(positions));
        positions == p.holdings && capital == old(capital) + p.amount
      ensures equityCurve == old(equityCurve) && peakEquity == old(peakEquity) && currentDrawdown == old(currentDrawdown)
    {
      positions, capital := SettlePass(config, strategy, data, AtSignal(t), positions, capital);
    }

    /** The entry loop of one timestamp, over the symbols in `data_dict` order. */
    method CheckEntries(data: seq<Series>, t: int)
      requires Valid()
      modifies this
      ensures Pass(positions, capital) == Enter(config, strategy, data, t, old(positions), old(capital))
      ensures equityCurve == old(equityCurve) && peakEquity == old(peakEquity) && currentDrawdown == old(currentDrawdown)
      ensures Valid()
    {
      var k := 0;
      ghost var start := positions;
      while k < |data|
        invariant 0 <= k <= |data|
        invariant Pass(positions, capital) == Enter(config, strategy, data[..k], t, start, old(capital))
        invariant equityCurve == old(equityCurve) && peakEquity == old(peakEquity) && currentDrawdown == old(currentDrawdown)
        invariant Valid()
      {
        var series := data[k];
        assert data[..k + 1][..k] == data[..k] && data[..k + 1][k] == series;
        if BarAt(series.bars, t).Some? && !HeldSymbol(positions, series.symbol) {
          var signal := strategy.generateSignal(Upto(series.bars, t), series.symbol);
          if signal.Some? && MarginOk(config, capital, series.symbol) {
            var size := LotSize(config, series.symbol);
            var position := strategy.openPosition(signal.value, size);
            positions := positions + [Holding(series.symbol, position)];
            var commissionCost := Commission(size, series.symbol, config.commission);
            capital := capital - commissionCost;
          }
        }
        k := k + 1;
      }
      assert data[..k] == data;
    }

    /** The exits of timestamp `t`, then its entries if fewer than `max_positions`
        positions are left open. */
    method TradeAt(data: seq<Series>, t: int)
      requires Valid()
      modifies this
      ensures Pass(positions, capital) == Trade(config, strategy, data, t, old(positions), old(capital))
      ensures equityCurve == old(equityCurve) && peakEquity == old(peakEquity) && currentDrawdown == old(currentDrawdown)
      ensures Valid()
    {
      ghost var exits := Settle(config, strategy, data, AtSignal(t), positions);
      ghost var trade := Trade(config, strategy, data, t, positions, capital);
      SettleKeepsDistinct(config, strategy, data, AtSignal(t), positions);
      CheckExits(data, t);
      if |positions| < config.maxPositions {
        assert trade == Enter(config, strategy, data, t, positions, capital);
        CheckEntries(data, t);
      } else {
        assert trade == Pass(positions, capital);
      }
    }

    /** `_calculate_open_pnl`: the unrealised P&L of the positions priced at `t`. */
    method CalculateOpenPnl(data: seq<Series>, t: int) returns (total: real)
      ensures total == OpenPnl(data, t, positions)
    {
      total := 0.0;
      var k := 0;
      while k < |positions|
        invariant 0 <= k <= |positions|
        invariant total == OpenPnl(data, t, positions[..k])
      {
        var h := positions[k];
        assert positions[..k + 1][..k] == positions[..k] && positions[..k + 1][k] == h;
        var frame := SeriesOf(data, h.symbol);
        if frame.Some? {
          var close := BarAt(frame.value, t);
          if close.Some? {
            var pnl := Hybrid.PositionPnl(h.position.direction, h.position.entryPrice, close.value, h.position.size, h.symbol);
            total := total + pnl;
          }
        }
        k := k + 1;
      }
      assert positions[..k] == positions;
    }

    /** Appends the equity point of `t` and updates the peak and the drawdown; a zero
        peak makes the drawdown a division by zero. */
    method RecordEquity(t: int, openPnl: real) returns (outcome: StepOutcome)
      modifies this
      ensures var equity := old(capital) + openPnl;
        && equityCurve == old(equityCurve) + [EquityPoint(t, equity, old(capital), openPnl, |old(positions)|)]
        && peakEquity == Max(old(peakEquity), equity)
        && (outcome == ZeroPeak <==> peakEquity == 0.0)
        && (outcome == Proceed <==> peakEquity != 0.0)
        && (peakEquity != 0.0 ==> currentDrawdown == (peakEquity - equity) / peakEquity)
        && (peakEquity == 0.0 ==> currentDrawdown == old(currentDrawdown))
      ensures capital == old(capital) && positions == old(positions)
    {
      var currentEquity := capital + openPnl;
      equityCurve := equityCurve + [EquityPoint(t, currentEquity, capital, openPnl, |positions|)];
      if currentEquity > peakEquity {
        peakEquity := currentEquity;
      }
      if peakEquity == 0.0 {
        return ZeroPeak;
      }
      currentDrawdown := (peakEquity - currentEquity) / peakEquity;
      return Proceed;
    }

    /** One timestamp of the run: the day rollover of the daily start capital, the risk
        check (which stops the run and changes nothing when it fails), the exits, the
        entries while fewer than `max_positions` are open, and the equity point. */
    method Step(data: seq<Series>, t: int, currentDate: Option<int>, dailyStartCapital: real)
      returns (date: Option<int>, dailyStart: real, outcome: StepOutcome)
      requires Valid()
      modifies this
      ensures date == Some(DayOf(t))
      ensures dailyStart == if currentDate == Some(DayOf(t)) then dailyStartCapital else old(capital)
      ensures outcome == RiskBreached <==> !WithinRiskLimits(config, dailyStart, old(capital), old(currentDrawdown))
      ensures outcome == RiskBreached ==>
        capital == old(capital) && positions == old(positions) && equityCurve == old(equityCurve) &&
        peakEquity == old(peakEquity) && currentDrawdown == old(currentDrawdown)
      ensures outcome != RiskBreached ==>
        Traded(data, t, outcome, old(positions), old(capital), old(equityCurve), old(peakEquity))
      ensures outcome == ZeroPeak ==> currentDrawdown == old(currentDrawdown)
      ensures Valid()
    {
      date := currentDate;
      dailyStart := dailyStartCapital;
      if date != Some(DayOf(t)) {
        date := Some(DayOf(t));
        dailyStart := capital;
      }
      if !WithinRiskLimits(config, dailyStart, capital, currentDrawdown) {
        return date, dailyStart, RiskBreached;
      }
      outcome := TradeAndRecord(data, t);
    }

    /** The state after the trades of `t` and its equity point, from the positions,
        capital, equity curve and peak before them: the positions and capital are those
        of `Trade`, the curve gains the point of `t` valued at the new capital plus the
        open P&L, the peak rises to that equity if it is higher, the step reports a zero
        peak exactly when the peak is zero, and otherwise the drawdown is measured from
        the peak. */
    ghost predicate Traded(data: seq<Series>, t: int, outcome: StepOutcome, positions0: seq<Holding>,
                           capital0: real, curve0: seq<EquityPoint>, peak0: real)
      reads this
    {
      var equity := capital + OpenPnl(data, t, positions);
      && config.leverage != 0.0
      && Pass(positions, capital) == Trade(config, strategy, data, t, positions0, capital0)
      && equityCurve == curve0 + [EquityPoint(t, equity, capital, OpenPnl(data, t, positions), |positions|)]
      && peakEquity == Max(peak0, equity)
      && (outcome == ZeroPeak <==> peakEquity == 0.0)
      && (peakEquity != 0.0 ==> currentDrawdown == (peakEquity - equity) / peakEquity)
    }

    /** The part of `Step` after a passed risk check: the trades of `t`, then its
        equity point. */
    method TradeAndRecord(data: seq<Series>, t: int) returns (outcome: StepOutcome)
      requires Valid()
      modifies this
      ensures outcome != RiskBreached
      ensures Traded(data, t, outcome, old(positions), old(capital), old(equityCurve), old(peakEquity))
      ensures outcome == ZeroPeak ==> currentDrawdown == old(currentDrawdown)
      ensures Valid()
    {
      TradeAt(data, t);
      var openPnl := CalculateOpenPnl(data, t);
      outcome := RecordEquity(t, openPnl);
    }

    /** `_close_all_positions`: every open position whose symbol has data is closed at
        its symbol's last close, without slippage or commission. */
    method CloseAllPositions(data: seq<Series>)
      modifies this
      ensures var p := Settle(config, strategy, data, AtEnd, old(positions));
        positions == p.holdings && capital == old(capital) + p.amount
      ensures equityCurve == old(equityCurve) && peakEquity == old(peakEquity) && currentDrawdown == old(currentDrawdown)
      ensures old(Valid()) ==> Valid()
    {
      if Valid() {
        SettleKeepsDistinct(config, strategy, data, AtEnd, positions);
      }
      positions, capital := SettlePass(config, strategy, data, AtEnd, positions, capital);
    }

    /** `Step` as the run sees it: the step of `RunStep` from the state before, so
        the rollover, the risk check and, when it passes, the trades of `Trade` and
        the equity point; the positions stay within the data, and the peak never
        falls. */
    method Advance(data: seq<Series>, t: int, currentDate: Option<int>, dailyStartCapital: real)
      returns (date: Option<int>, dailyStart: real, outcome: StepOutcome)
      requires Valid() && DistinctSeries(data) && FramesCover(data, positions)
      modifies this
      ensures Valid() && FramesCover(data, positions)
      ensures outcome == RiskBreached <==> !WithinRiskLimits(config, dailyStart, old(capital), old(currentDrawdown))
      ensures outcome != RiskBreached ==>
        Traded(data, t, outcome, old(positions), old(capital), old(equityCurve), old(peakEquity))
      ensures RunStep(config, strategy, data, t, old(Snapshot(currentDate, dailyStartCapital))) == (outcome, Snapshot(date, dailyStart))
      ensures peakEquity >= old(peakEquity)
      ensures outcome == RiskBreached ==> equityCurve == old(equityCurve)
      ensures outcome != RiskBreached ==> (|equityCurve| == |old(equityCurve)| + 1 &&
        equityCurve[..|old(equityCurve)|] == old(equityCurve) &&
        equityCurve[|old(equityCurve)|].timestamp == t && equityCurve[|old(equityCurve)|].equity <= peakEquity)
      ensures outcome == ZeroPeak ==> peakEquity == 0.0
    {
      TradeKeepsFramesCovered(config, strategy, data, t, positions, capital);
      ghost var before := Snapshot(currentDate, dailyStartCapital);
      date, dailyStart, outcome := Step(data, t, currentDate, dailyStartCapital);
      ghost var after := Snapshot(date, dailyStart);
      assert before == RunState(old(positions), old(capital), old(equityCurve), old(peakEquity), old(currentDrawdown),
                                currentDate, dailyStartCapital);
      assert after == RunState(positions, capital, equityCurve, peakEquity, currentDrawdown, date, dailyStart);
      StepIsRunStep(config, strategy, data, t, before, outcome, after);
    }

    /** The loop of `run` over every bar time, in increasing order, from no current
        day: the fold `RunFrom` of `RunStep` over `Timeline(data)`, with what that
        fold does to the equity curve. */
    method RunLoop(data: seq<Series>) returns (outcome: RunOutcome)
      requires Valid() && DistinctSeries(data) && FramesCover(data, positions)
      modifies this
      ensures Valid() && FramesCover(data, positions)
      ensures var r := RunFrom(Stepper(config, strategy, data), Timeline(data), 0, old(Snapshot(None, capital)));
        && outcome == r.0 && positions == r.1.positions && capital == r.1.capital
        && equityCurve == r.1.curve && peakEquity == r.1.peak && currentDrawdown == r.1.drawdown
      ensures RecordsRun(data, old(equityCurve), old(peakEquity), equityCurve, peakEquity, outcome)
    {
      var ts := SortedTimestamps(data);
      var dailyStartCapital := capital;
      var currentDate: Option<int> := None;
      ghost var step := Stepper(config, strategy, data);
      ghost var start := Snapshot(currentDate, dailyStartCapital);
      StepperShape(config, strategy, data);
      TimelineRecords(config, step, data, start);
      outcome := Completed;
      var i := 0;
      while i < |ts|
        invariant 0 <= i <= |ts|
        invariant Valid() && FramesCover(data, positions)
        invariant RunFrom(step, ts, 0, start) == RunFrom(step, ts, i, Snapshot(currentDate, dailyStartCapital))
        invariant outcome == Completed
      {
        var t := ts[i];
        ghost var before := Snapshot(currentDate, dailyStartCapital);
        var stepOutcome;
        currentDate, dailyStartCapital, stepOutcome := Advance(data, t, currentDate, dailyStartCapital);
        assert step(t, before) == (stepOutcome, Snapshot(currentDate, dailyStartCapital));
        if stepOutcome == RiskBreached {
          outcome := StoppedByRisk(t);
          break;
        }
        if stepOutcome == ZeroPeak {
          return ZeroDivisionError(t);
        }
        i := i + 1;
      }
    }

    /** `run`: one step per bar time of any symbol, in increasing order, until the
        times run out, a risk check fails or a zero peak makes the drawdown a division
        by zero (which ends the run at once); unless it ended by that error, every
        position whose symbol has data is then closed. The whole run is `RunResult`. */
    method Run(data: seq<Series>) returns (outcome: RunOutcome)
      requires Valid() && DistinctSeries(data) && FramesCover(data, positions)
      modifies this
      ensures Valid()
      ensures var r := RunResult(config, strategy, data, old(Snapshot(None, capital)));
        && outcome == r.0 && positions == r.1.positions && capital == r.1.capital
        && equityCurve == r.1.curve && peakEquity == r.1.peak && currentDrawdown == r.1.drawdown
      ensures RecordsRun(data, old(equityCurve), old(peakEquity), equityCurve, peakEquity, outcome)
      ensures !outcome.ZeroDivisionError? ==> forall k :: 0 <= k < |positions| ==> SeriesOf(data, positions[k].symbol).None?
    {
      outcome := RunLoop(data);
      if outcome.ZeroDivisionError? {
        return;
      }
      CloseAllLeavesUnpriced(config, strategy, data, positions);
      CloseAllPositions(data);
    }
  }
}
