/** The summary figures the hybrid strategy reports over the P&L of its closed
    positions (`get_statistics`). */
module HybridStatistics {
  import opened Common

  /** The profitable P&L values, in order. */
  function Gains(xs: seq<real>): (r: seq<real>)
    ensures |r| <= |xs|
    ensures forall k :: 0 <= k < |r| ==> r[k] > 0.0
    ensures forall k :: 0 <= k < |xs| && xs[k] > 0.0 ==> |r| > 0
  {
    if |xs| == 0 then []
    else
      var init := xs[..|xs| - 1];
      assert forall k :: 0 <= k < |init| ==> init[k] == xs[k];
      Gains(init) + (if xs[|xs| - 1] > 0.0 then [xs[|xs| - 1]] else [])
  }

  /** The losing P&L values, in order. */
  function Losses(xs: seq<real>): (r: seq<real>)
    ensures |r| <= |xs|
    ensures forall k :: 0 <= k < |r| ==> r[k] < 0.0
    ensures forall k :: 0 <= k < |xs| && xs[k] < 0.0 ==> |r| > 0
  {
    if |xs| == 0 then []
    else
      var init := xs[..|xs| - 1];
      assert forall k :: 0 <= k < |init| ==> init[k] == xs[k];
      Losses(init) + (if xs[|xs| - 1] < 0.0 then [xs[|xs| - 1]] else [])
  }

  /** A break-even value is neither a gain nor a loss. */
  lemma {:induction false} GainsAndLossesDisjoint(xs: seq<real>)
    ensures |Gains(xs)| + |Losses(xs)| <= |xs|
    ensures |Gains(xs)| == |xs| <==> forall k :: 0 <= k < |xs| ==> xs[k] > 0.0
  {
    if |xs| > 0 {
      var init := xs[..|xs| - 1];
      GainsAndLossesDisjoint(init);
      assert forall k :: 0 <= k < |init| ==> init[k] == xs[k];
      if |Gains(xs)| == |xs| {
        assert |Gains(init)| == |init| && xs[|xs| - 1] > 0.0;
      }
    }
  }

  lemma {:induction false} SumOfPositives(xs: seq<real>)
    requires forall k :: 0 <= k < |xs| ==> xs[k] > 0.0
    ensures Sum(xs) >= 0.0
    ensures |xs| > 0 ==> Sum(xs) > 0.0
  {
    if |xs| > 0 {
      SumOfPositives(xs[..|xs| - 1]);
    }
  }

  lemma {:induction false} SumOfNegatives(xs: seq<real>)
    requires forall k :: 0 <= k < |xs| ==> xs[k] < 0.0
    ensures Sum(xs) <= 0.0
    ensures |xs| > 0 ==> Sum(xs) < 0.0
  {
    if |xs| > 0 {
      SumOfNegatives(xs[..|xs| - 1]);
    }
  }

  datatype Stats = Stats(
    totalTrades: nat,
    winningTrades: nat,
    losingTrades: nat,
    winRate: real,
    totalPnl: real,
    avgWin: real,
    avgLoss: real,
    largestWin: real,
    largestLoss: real,
    profitFactor: real)

  /** `a / n` for a count `a` out of `n`. */
  function Fraction(a: nat, n: nat): (r: real)
    requires a <= n && n > 0
    ensures 0.0 <= r <= 1.0
    ensures r * n as real == a as real
    ensures r == 0.0 <==> a == 0
    ensures r == 1.0 <==> a == n
  {
    FractionFacts(a as real, n as real);
    a as real / n as real
  }

  lemma FractionFacts(a: real, n: real)
    requires 0.0 <= a <= n && n > 0.0
    ensures (a / n) * n == a
    ensures 0.0 <= a / n <= 1.0
    ensures a / n == 0.0 <==> a == 0.0
    ensures a / n == 1.0 <==> a == n
  {
    var q := a / n;
    assert q * n == a;
    assert (1.0 - q) * n == n - a;
  }

  /** `total_wins / total_losses if total_losses > 0 else 0`. */
  function ProfitFactor(totalWins: real, totalLosses: real): (r: real)
    ensures totalLosses <= 0.0 ==> r == 0.0
    ensures totalLosses > 0.0 ==> r * totalLosses == totalWins
    ensures totalLosses > 0.0 && totalWins >= 0.0 ==> r >= 0.0
    ensures totalLosses > 0.0 && totalWins > 0.0 ==> r > 0.0
  {
    if totalLosses > 0.0 then totalWins / totalLosses else 0.0
  }

  /** The summary of a list of closed-position P&L values; an empty list has none. */
  function Statistics(pnls: seq<real>): (r: Option<Stats>)
    ensures r.None? <==> |pnls| == 0
    ensures r.Some? ==> r.value.totalTrades == |pnls| && r.value.totalPnl == Sum(pnls)
    ensures r.Some? ==> r.value.winningTrades + r.value.losingTrades <= r.value.totalTrades
    ensures r.Some? ==> r.value.winRate == Fraction(r.value.winningTrades, |pnls|)
    ensures r.Some? ==> (r.value.winRate == 1.0 <==> forall k :: 0 <= k < |pnls| ==> pnls[k] > 0.0)
    ensures r.Some? ==> forall k :: 0 <= k < |pnls| ==> r.value.largestLoss <= pnls[k] <= r.value.largestWin
    ensures r.Some? ==> r.value.largestWin in pnls && r.value.largestLoss in pnls
  {
    if |pnls| == 0 then None
    else
      var wins := Gains(pnls);
      var losses := Losses(pnls);
      GainsAndLossesDisjoint(pnls);
      var rate := Fraction(|wins|, |pnls|);
      var pf := ProfitFactor(Sum(wins), Abs(Sum(losses)));
      Some(Stats(
        |pnls|, |wins|, |losses|, rate, Sum(pnls),
        Mean(wins), Mean(losses), MaxOf(pnls), MinOf(pnls), pf))
  }

  /** The profit factor and the averages have the signs their names promise; the
      profit factor is zero when nothing was lost. */
  lemma StatisticsSigns(pnls: seq<real>)
    requires |pnls| > 0
    ensures var s := Statistics(pnls).value;
      && (s.winningTrades > 0 ==> s.avgWin > 0.0)
      && (s.winningTrades == 0 ==> s.avgWin == 0.0)
      && (s.losingTrades > 0 ==> s.avgLoss < 0.0)
      && (s.losingTrades == 0 ==> s.avgLoss == 0.0 && s.profitFactor == 0.0)
      && s.profitFactor >= 0.0
      && s.profitFactor == ProfitFactor(Sum(Gains(pnls)), Abs(Sum(Losses(pnls))))
      && (s.losingTrades > 0 && s.winningTrades > 0 ==> s.profitFactor > 0.0)
  {
    var wins := Gains(pnls);
    var losses := Losses(pnls);
    var s := Statistics(pnls).value;
    assert s.profitFactor == ProfitFactor(Sum(wins), Abs(Sum(losses)));
    SumOfPositives(wins);
    SumOfNegatives(losses);
    if |wins| > 0 {
      MeanSign(wins);
    }
    if |losses| > 0 {
      MeanSign(losses);
    }
  }

  predicate IsWin(x: real) { x > 0.0 }

  predicate IsLoss(x: real) { x < 0.0 }

  /** The gains are the profitable values and the losses the losing ones, each in order. */
  lemma {:induction false} GainsAndLossesFilter(xs: seq<real>)
    ensures Gains(xs) == Filter(xs, IsWin) && Losses(xs) == Filter(xs, IsLoss)
  {
    if |xs| > 0 {
      GainsAndLossesFilter(xs[..|xs| - 1]);
      FilterLast(xs, IsWin);
      FilterLast(xs, IsLoss);
    }
  }

  /** The counts and averages of the summary: the number of winning and of losing
      values, and the mean of each group, 0 for an empty group. */
  lemma StatisticsFigures(pnls: seq<real>)
    requires |pnls| > 0
    ensures var s := Statistics(pnls).value;
      var wins, losses := Filter(pnls, IsWin), Filter(pnls, IsLoss);
      && s.winningTrades == |wins| && s.losingTrades == |losses|
      && (|wins| > 0 ==> s.avgWin == Sum(wins) / |wins| as real)
      && (|wins| == 0 ==> s.avgWin == 0.0)
      && (|losses| > 0 ==> s.avgLoss == Sum(losses) / |losses| as real)
      && (|losses| == 0 ==> s.avgLoss == 0.0)
  {
    GainsAndLossesFilter(pnls);
  }

  lemma MeanSign(xs: seq<real>)
    requires |xs| > 0
    ensures Sum(xs) > 0.0 ==> Mean(xs) > 0.0
    ensures Sum(xs) < 0.0 ==> Mean(xs) < 0.0
  {
    var n := |xs| as real;
    assert Mean(xs) * n == Sum(xs);
  }
}
