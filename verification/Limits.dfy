/** The parts of a registry that are not about projects: spending thresholds, soft mode,
    runtime limits, the bot's address and the transient patterns. Amounts are real numbers. */
module Limits {
  import opened Wrappers
  import opened Text
  import opened Problems

  datatype Threshold = Threshold(soft: Option<real>, hard: Option<real>)

  datatype Efficiency = Efficiency(enabled: bool, window: string, multiple: real, minResolutions: int)

  datatype Forecast = Forecast(enabled: bool, warnAt: real)

  datatype Budgets = Budgets(
    perIncident: real, dailyGlobal: Threshold, dailyPerProject: Threshold, weeklyGlobal: Threshold,
    monthlyGlobal: Threshold, weekStart: string, efficiency: Efficiency, forecast: Forecast)

  datatype SoftMode = SoftMode(parkTier2: bool, downgradeModel: bool, forcePROnly: bool, minConfidence: Option<real>)

  datatype RuntimeLimits = RuntimeLimits(
    maxAgents: int, minRam: int, minDisk: int, tier2Confidence: real, maxInputTokens: int)

  const WEEK_STARTS := {"monday", "sunday"}
  const WINDOW_KINDS := {"day", "week", "month"}

  /** Positive where given, and the soft one below the hard one. */
  predicate ThresholdOk(t: Threshold) {
    && (t.soft.Some? ==> t.soft.value > 0.0) && (t.hard.Some? ==> t.hard.value > 0.0)
    && (t.soft.Some? && t.hard.Some? ==> t.soft.value < t.hard.value)
  }

  /** Every global window has a hard limit; signals are checked only when enabled. */
  predicate BudgetsOk(b: Budgets) {
    && b.perIncident > 0.0
    && ThresholdOk(b.dailyGlobal) && ThresholdOk(b.dailyPerProject)
    && ThresholdOk(b.weeklyGlobal) && ThresholdOk(b.monthlyGlobal)
    && b.dailyGlobal.hard.Some? && b.weeklyGlobal.hard.Some? && b.monthlyGlobal.hard.Some?
    && b.weekStart in WEEK_STARTS
    && (b.efficiency.enabled ==>
          b.efficiency.window in WINDOW_KINDS && b.efficiency.multiple > 1.0 && b.efficiency.minResolutions >= 1)
    && (b.forecast.enabled ==> 0.0 < b.forecast.warnAt <= 1.0)
  }

  /** Crossing a soft limit must change something. */
  predicate SoftModeOk(s: SoftMode) {
    && (s.parkTier2 || s.downgradeModel || s.forcePROnly || s.minConfidence.Some?)
    && (s.minConfidence.Some? ==> 0.0 <= s.minConfidence.value <= 1.0)
  }

  predicate RuntimeOk(r: RuntimeLimits) {
    && r.maxAgents >= 1 && r.minRam >= 0 && r.minDisk >= 0 && 0.0 <= r.tier2Confidence <= 1.0
    && r.maxInputTokens >= 1000
  }

  predicate BotOk(email: string, isAddress: string -> bool) { TrimSpace(email) != "" && isAddress(email) }

  predicate PatternsOk(patterns: seq<string>, compiles: string -> bool) {
    forall i :: 0 <= i < |patterns| ==> compiles(patterns[i])
  }

  method ValidateThreshold(problems: seq<Problem>, t: Threshold, field: Field) returns (r: seq<Problem>)
    ensures r == [] <==> problems == [] && ThresholdOk(t)
    ensures About(problems, None) ==> About(r, None)
  {
    r := Check(problems, t.soft.Some? ==> t.soft.value > 0.0, None, field);
    r := Check(r, t.hard.Some? ==> t.hard.value > 0.0, None, field);
    r := Check(r, t.soft.Some? && t.hard.Some? ==> t.soft.value < t.hard.value, None, field);
  }

  method ValidateBudgets(b: Budgets) returns (r: seq<Problem>)
    ensures r == [] <==> BudgetsOk(b)
    ensures About(r, None)
  {
    r := Check([], b.perIncident > 0.0, None, PerIncident);
    r := ValidateThreshold(r, b.dailyGlobal, DailyGlobal);
    r := ValidateThreshold(r, b.dailyPerProject, DailyPerProject);
    r := ValidateThreshold(r, b.weeklyGlobal, WeeklyGlobal);
    r := ValidateThreshold(r, b.monthlyGlobal, MonthlyGlobal);
    r := Check(r, b.dailyGlobal.hard.Some?, None, DailyGlobal);
    r := Check(r, b.weeklyGlobal.hard.Some?, None, WeeklyGlobal);
    r := Check(r, b.monthlyGlobal.hard.Some?, None, MonthlyGlobal);
    r := Check(r, b.weekStart in WEEK_STARTS, None, WeekStart);
    if b.efficiency.enabled {
      r := Check(r, b.efficiency.window in WINDOW_KINDS, None, EfficiencyWindow);
      r := Check(r, b.efficiency.multiple > 1.0, None, Multiple);
      r := Check(r, b.efficiency.minResolutions >= 1, None, MinResolutions);
    }
    if b.forecast.enabled {
      r := Check(r, 0.0 < b.forecast.warnAt <= 1.0, None, WarnAt);
    }
  }

  method ValidateSoftMode(s: SoftMode) returns (r: seq<Problem>)
    ensures r == [] <==> SoftModeOk(s)
    ensures About(r, None)
  {
    if !s.parkTier2 && !s.downgradeModel && !s.forcePROnly && s.minConfidence.None? {
      r := Check([], false, None, NoSoftAction);
      return;
    }
    r := Check([], s.minConfidence.Some? ==> 0.0 <= s.minConfidence.value <= 1.0, None, MinConfidence);
  }

  method ValidateRuntime(l: RuntimeLimits) returns (r: seq<Problem>)
    ensures r == [] <==> RuntimeOk(l)
    ensures About(r, None)
  {
    r := Check([], l.maxAgents >= 1, None, MaxAgents);
    r := Check(r, l.minRam >= 0, None, MinRam);
    r := Check(r, l.minDisk >= 0, None, MinDisk);
    r := Check(r, 0.0 <= l.tier2Confidence <= 1.0, None, Tier2Confidence);
    r := Check(r, l.maxInputTokens >= 1000, None, MaxInputTokens);
  }

  method ValidateBot(email: string, isAddress: string -> bool) returns (r: seq<Problem>)
    ensures r == [] <==> BotOk(email, isAddress)
    ensures About(r, None)
  {
    if TrimSpace(email) == "" {
      r := Check([], false, None, BotEmail);
      return;
    }
    r := Check([], isAddress(email), None, BotEmail);
  }

  /** Stops at the first pattern that does not compile. */
  method ValidateTriage(patterns: seq<string>, compiles: string -> bool) returns (r: seq<Problem>)
    ensures r == [] <==> PatternsOk(patterns, compiles)
    ensures About(r, None)
  {
    for i := 0 to |patterns|
      invariant forall j :: 0 <= j < i ==> compiles(patterns[j])
    {
      if !compiles(patterns[i]) {
        r := Check([], false, None, TransientPattern);
        return;
      }
    }
    r := [];
  }
}
