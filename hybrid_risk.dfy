/** The risk gate and the progressive lot sizing of the hybrid strategy, as functions
    of the strategy's risk state. */
module HybridRisk {
  import opened Common

  /** The part of the strategy that `_check_risk_limits` reads and updates. */
  datatype RiskState = RiskState(
    dailyPnl: real,
    currentDay: Option<int>,
    peakCapital: real,
    tradingEnabled: bool)

  datatype RiskVerdict = RiskVerdict(allowed: bool, next: RiskState)

  /** One risk check at calendar day `day` with the current closed-trade capital.
      Once trading is disabled the check returns at once, so the new-day reset (and
      the re-enabling inside it) is never reached again. */
  function CheckRiskLimits(s: RiskState, day: int, capital: real, maxDailyLoss: real, maxDrawdownValue: real): (v: RiskVerdict)
    ensures !s.tradingEnabled ==> v == RiskVerdict(false, s)
    ensures s.tradingEnabled ==> v.next.currentDay == Some(day)
    ensures s.tradingEnabled ==> v.next.dailyPnl == (if s.currentDay == Some(day) then s.dailyPnl else 0.0)
    ensures v.next.peakCapital >= s.peakCapital
    ensures v.allowed ==> v.next.peakCapital >= capital
    ensures v.allowed <==>
      s.tradingEnabled && v.next.dailyPnl > -maxDailyLoss && v.next.peakCapital - capital < maxDrawdownValue
    ensures v.next.tradingEnabled <==> v.allowed
  {
    if !s.tradingEnabled then RiskVerdict(false, s)
    else
      var daily := if s.currentDay.None? || s.currentDay.value != day then 0.0 else s.dailyPnl;
      var reset := RiskState(daily, Some(day), s.peakCapital, true);
      if daily <= -maxDailyLoss then RiskVerdict(false, reset.(tradingEnabled := false))
      else
        var peak := if capital > s.peakCapital then capital else s.peakCapital;
        if peak - capital >= maxDrawdownValue then RiskVerdict(false, reset.(peakCapital := peak, tradingEnabled := false))
        else RiskVerdict(true, reset.(peakCapital := peak))
  }

  /** The inputs of one risk check: the calendar day and the capital at that time. */
  datatype RiskInput = RiskInput(day: int, capital: real)

  /** The risk state after a series of checks. */
  function RunChecks(s: RiskState, inputs: seq<RiskInput>, maxDailyLoss: real, maxDrawdownValue: real): RiskState
    decreases |inputs|
  {
    if |inputs| == 0 then s
    else RunChecks(CheckRiskLimits(s, inputs[0].day, inputs[0].capital, maxDailyLoss, maxDrawdownValue).next,
                   inputs[1..], maxDailyLoss, maxDrawdownValue)
  }

  /** Whether check `k` of a series starting in `s` lets trading go on. */
  function AllowedAt(s: RiskState, inputs: seq<RiskInput>, k: nat, maxDailyLoss: real, maxDrawdownValue: real): bool
    requires k < |inputs|
  {
    CheckRiskLimits(RunChecks(s, inputs[..k], maxDailyLoss, maxDrawdownValue),
                    inputs[k].day, inputs[k].capital, maxDailyLoss, maxDrawdownValue).allowed
  }

  lemma {:induction false} RunChecksAppend(s: RiskState, a: seq<RiskInput>, b: seq<RiskInput>, mdl: real, mdv: real)
    ensures RunChecks(s, a + b, mdl, mdv) == RunChecks(RunChecks(s, a, mdl, mdv), b, mdl, mdv)
    decreases |a|
  {
    if |a| > 0 {
      assert (a + b)[1..] == a[1..] + b;
      assert (a + b)[0] == a[0];
      RunChecksAppend(CheckRiskLimits(s, a[0].day, a[0].capital, mdl, mdv).next, a[1..], b, mdl, mdv);
    } else {
      assert a + b == b;
    }
  }

  /** A disabled strategy stays exactly as it is, whatever checks follow. */
  lemma {:induction false} DisabledIsAbsorbing(s: RiskState, inputs: seq<RiskInput>, mdl: real, mdv: real)
    requires !s.tradingEnabled
    ensures RunChecks(s, inputs, mdl, mdv) == s
  {
    if |inputs| > 0 {
      DisabledIsAbsorbing(s, inputs[1..], mdl, mdv);
    }
  }

  /** Once a check refuses, every later check refuses too, on every later day: the
      daily-loss stop is never lifted. */
  lemma OnceRefusedAlwaysRefused(s: RiskState, inputs: seq<RiskInput>, k: nat, j: nat, mdl: real, mdv: real)
    requires k <= j < |inputs|
    requires !AllowedAt(s, inputs, k, mdl, mdv)
    ensures !AllowedAt(s, inputs, j, mdl, mdv)
  {
    var before := RunChecks(s, inputs[..k], mdl, mdv);
    var disabled := CheckRiskLimits(before, inputs[k].day, inputs[k].capital, mdl, mdv).next;
    assert !disabled.tradingEnabled;
    if j > k {
      assert inputs[..j] == inputs[..k] + ([inputs[k]] + inputs[k + 1..j]);
      RunChecksAppend(s, inputs[..k], [inputs[k]] + inputs[k + 1..j], mdl, mdv);
      assert ([inputs[k]] + inputs[k + 1..j])[1..] == inputs[k + 1..j];
      assert RunChecks(before, [inputs[k]] + inputs[k + 1..j], mdl, mdv) == RunChecks(disabled, inputs[k + 1..j], mdl, mdv);
      DisabledIsAbsorbing(disabled, inputs[k + 1..j], mdl, mdv);
    }
  }

  /** A daily loss at or beyond the limit on the day of the check refuses trading. */
  lemma DailyLossRefuses(s: RiskState, day: int, capital: real, mdl: real, mdv: real)
    requires s.currentDay == Some(day) && s.dailyPnl <= -mdl
    ensures !CheckRiskLimits(s, day, capital, mdl, mdv).allowed
  {
  }

  // ---------------------------------------------------------------------------
  // Progressive lot sizing

  datatype LotDecision = KeepSizes | IncreaseSizes | DivisionByZero

  /** Whether `_update_progressive_lots` raises every lot size at `now`: the monthly
      return must reach the threshold and the last increase must be at least
      `frequencyDays` whole days old. A zero monthly start capital makes the return a
      division by zero, which Python raises as an error. */
  function LotDecisionAt(enabled: bool, capital: real, monthlyStart: real, threshold: real,
                         lastIncrease: Option<int>, now: int, frequencyDays: int): (d: LotDecision)
    ensures d == DivisionByZero <==> enabled && monthlyStart == 0.0
    ensures d == IncreaseSizes <==>
      enabled && monthlyStart != 0.0 &&
      (capital - monthlyStart) / monthlyStart >= threshold &&
      (lastIncrease.None? || (now - lastIncrease.value) / SecondsPerDay >= frequencyDays)
  {
    if !enabled then KeepSizes
    else if monthlyStart == 0.0 then DivisionByZero
    else if (capital - monthlyStart) / monthlyStart < threshold then KeepSizes
    else if lastIncrease.Some? && (now - lastIncrease.value) / SecondsPerDay < frequencyDays then KeepSizes
    else IncreaseSizes
  }

  /** Two increases are at least `frequencyDays` whole days apart. */
  lemma IncreasesAreSpaced(enabled: bool, capital: real, monthlyStart: real, threshold: real,
                           last: int, now: int, frequencyDays: int)
    requires LotDecisionAt(enabled, capital, monthlyStart, threshold, Some(last), now, frequencyDays) == IncreaseSizes
    ensures now - last >= frequencyDays * SecondsPerDay
  {
  }

  /** Every configured symbol's lot size raised by `increase`. */
  function RaisedSizes(sizes: map<string, real>, increase: real): (r: map<string, real>)
    ensures r.Keys == sizes.Keys
    ensures forall sym :: sym in sizes ==> r[sym] == sizes[sym] + increase
  {
    map sym | sym in sizes :: sizes[sym] + increase
  }
}
