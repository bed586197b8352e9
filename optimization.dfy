/** `applyOptimization`'s simulated effect of optimizing a skill for one
    metric, and the optimization-data document (`optimization-data.json`)
    that records it. */
module Optimization {
  import opened Wrappers
  import opened Metrics
  import opened Analyzer
  import opened Suggestions

  /** The `improvement` object: before and after figures for the metric;
      `NoImprovement` is the `{}` left for a metric the source does not
      know. A success rate is `None` where JavaScript computes NaN. */
  datatype Improvement =
    | SpeedUp(beforeAvgTime: real, afterAvgTime: real)
    | MoreReliable(beforeRate: Option<real>, afterRate: Option<real>)
    | FewerTokens(beforeAvgTokens: real, afterAvgTokens: real)
    | NoImprovement

  const SpeedFactor: real := 0.75
  const ReliabilityGain: real := 0.1
  const ReliabilityCap: real := 0.98
  const TokenFactor: real := 0.6

  function MinReal(a: real, b: real): real { if a < b then a else b }

  function AvgTokens(s: SkillStats): real {
    s.totalTokens / Max1(s.successCount) as real
  }

  function ImprovementFor(s: SkillStats, metric: string): Improvement {
    if metric == "speed" then
      SpeedUp(AvgTime(s), AvgTime(s) * SpeedFactor)
    else if metric == "reliability" then
      if s.invocations > 0 then
        var rate := SuccessRate(s);
        MoreReliable(Some(rate), Some(MinReal(ReliabilityCap, rate + ReliabilityGain)))
      else MoreReliable(None, None)
    else if metric == "tokens" then
      FewerTokens(AvgTokens(s), AvgTokens(s) * TokenFactor)
    else NoImprovement
  }

  /** The gain the report announces, `improvement || reduction`; nothing
      for `{}`. */
  function Claimed(i: Improvement): Option<string> {
    match i
    case SpeedUp(_, _) => Some("25%")
    case MoreReliable(_, _) => Some("+10%")
    case FewerTokens(_, _) => Some("40%")
    case NoImprovement => None
  }

  /** The figures agree with the announced gain: times drop by a quarter,
      tokens by two fifths, and a success rate rises by ten points up to a
      ceiling of 98%. The metric name alone picks the kind of entry. */
  lemma ImprovementMatchesClaim(s: SkillStats, metric: string)
    ensures var i := ImprovementFor(s, metric);
      && (i.SpeedUp? <==> metric == "speed")
      && (i.MoreReliable? <==> metric == "reliability")
      && (i.FewerTokens? <==> metric == "tokens")
      && (i.NoImprovement? <==> Claimed(i).None?)
      && (i.SpeedUp? ==> i.beforeAvgTime == AvgTime(s) && 100.0 * (i.beforeAvgTime - i.afterAvgTime) == 25.0 * i.beforeAvgTime)
      && (i.FewerTokens? ==> i.beforeAvgTokens == AvgTokens(s) && 100.0 * (i.beforeAvgTokens - i.afterAvgTokens) == 40.0 * i.beforeAvgTokens)
      && (i.MoreReliable? ==>
            && (i.beforeRate.Some? <==> s.invocations > 0)
            && (i.beforeRate.Some? <==> i.afterRate.Some?)
            && (i.beforeRate.Some? ==>
                  && i.beforeRate.value == SuccessRate(s)
                  && i.afterRate.value <= ReliabilityCap
                  && i.afterRate.value <= i.beforeRate.value + ReliabilityGain
                  && (i.beforeRate.value + ReliabilityGain <= ReliabilityCap ==> i.afterRate.value == i.beforeRate.value + ReliabilityGain)
                  && (i.beforeRate.value + ReliabilityGain > ReliabilityCap ==> i.afterRate.value == ReliabilityCap)))
  {
  }

  /** The ceiling makes the announced "+10%" a drop for a skill that
      already succeeds more than 98% of the time. */
  lemma ReliabilityCapLowersPerfectSkill()
    ensures var i := ImprovementFor(SkillStats(10, 10, 0, 20.0, 0.0, []), "reliability");
      i == MoreReliable(Some(1.0), Some(0.98)) && i.afterRate.value < i.beforeRate.value
  {
    assert SuccessRate(SkillStats(10, 10, 0, 20.0, 0.0, [])) == 1.0;
  }

  datatype AppliedImprovement = AppliedImprovement(timestamp: string, skill: string, metric: string, improvement: Improvement)

  /** The optimization-data document. Its `performance_trends` object is
      never filled by the server and is not modelled. */
  datatype Ledger = Ledger(version: string, lastAnalysis: Option<string>, suggestions: seq<Suggestion>,
                           applied: seq<AppliedImprovement>)

  /** The document used when none exists yet or it cannot be parsed. */
  function DefaultLedger(): (l: Ledger)
    ensures l.lastAnalysis.None? && l.suggestions == [] && l.applied == []
  {
    Ledger("2.0.0", None, [], [])
  }

  /** The history entry an optimization leaves in the metrics document. */
  function OptimizationEvent(name: string, metric: string, now: string): ImprovementEvent {
    ImprovementEvent(now, 1, ["Optimized " + name + " for " + metric])
  }

  /** The metrics document after an optimization has been applied: one more
      improvement executed and on record, nothing else but the stamp. */
  function AfterOptimization(m: Snapshot, name: string, metric: string, now: string): (r: Snapshot)
    ensures r.improvementsExecuted == m.improvementsExecuted + 1
    ensures |r.improvementHistory| == |m.improvementHistory| + 1
    ensures r.improvementHistory[..|m.improvementHistory|] == m.improvementHistory
    ensures r.improvementHistory[|m.improvementHistory|] == OptimizationEvent(name, metric, now)
    ensures r.skills == m.skills && r.skillOrder == m.skillOrder && r.failedRequests == m.failedRequests
    ensures r.totalInvocations == m.totalInvocations
    ensures r.version == m.version && r.lastUpdated == now
  {
    m.(lastUpdated := now,
       improvementsExecuted := m.improvementsExecuted + 1,
       improvementHistory := m.improvementHistory + [OptimizationEvent(name, metric, now)])
  }

  /** An optimization changes only the trend part of a later analysis. */
  lemma OptimizationOnlyMovesTrends(m: Snapshot, name: string, metric: string, now: string)
    requires WellFormed(m)
    ensures var r := AfterOptimization(m, name, metric, now);
      && WellFormed(r)
      && PatternsOf(r).frequent == PatternsOf(m).frequent
      && PatternsOf(r).failing == PatternsOf(m).failing
      && PatternsOf(r).slow == PatternsOf(m).slow
      && PatternsOf(r).missing == PatternsOf(m).missing
      && (|m.improvementHistory| >= 1 <==> PatternsOf(r).trends.Trend?)
  {
  }

  /** The optimization-data document after recording an improvement. */
  function Recorded(l: Ledger, name: string, metric: string, i: Improvement, now: string): (r: Ledger)
    ensures r.applied == l.applied + [AppliedImprovement(now, name, metric, i)]
    ensures r.suggestions == l.suggestions && r.lastAnalysis == Some(now)
  {
    l.(lastAnalysis := Some(now), applied := l.applied + [AppliedImprovement(now, name, metric, i)])
  }
}
