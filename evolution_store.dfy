/** The evolution server's persistent state — the metrics document and the
    optimization-data document — and the tools that read and change it. */
module EvolutionStore {
  import opened Wrappers
  import opened Metrics
  import opened Analyzer
  import opened Suggestions
  import opened Optimization

  /** What `apply_evolution` reports. */
  datatype Outcome = ConfirmationRequired | Applied(improvement: Improvement, claimed: Option<string>) | Failed(reason: string)

  /** `x || 0` for an optional number. */
  function OrZero(x: Option<real>): real {
    if x.Some? then x.value else 0.0
  }

  class Store {
    var metrics: Snapshot
    var ledger: Ledger

    /** The key order matches the skills, counters are balanced, and every
        executed improvement has its history entry. */
    predicate Valid()
      reads this
    {
      && WellFormed(metrics)
      && AllBalanced(metrics)
      && metrics.improvementsExecuted == |metrics.improvementHistory|
    }

    /** The documents as first read, before either file exists. */
    constructor (now: string)
      ensures metrics == DefaultSnapshot(now) && ledger == DefaultLedger()
      ensures Valid()
    {
      metrics := DefaultSnapshot(now);
      ledger := DefaultLedger();
    }

    /** `recordInvocation`. */
    method RecordInvocation(name: string, success: bool, time: real, tokens: real, error: Option<string>, now: string)
      requires Valid()
      modifies this
      ensures metrics == AfterInvocation(old(metrics), name, success, time, tokens, error, now)
      ensures ledger == old(ledger)
      ensures Valid()
    {
      InvocationKeepsInvariants(metrics, name, success, time, tokens, error, now);
      metrics := AfterInvocation(metrics, name, success, time, tokens, error, now);
    }

    /** The `track_metrics` tool: missing numbers count as zero; it reports
        the skill's counters and the grand total. */
    method TrackMetrics(name: string, success: bool, time: Option<real>, tokens: Option<real>,
                        error: Option<string>, now: string) returns (stats: SkillStats, total: nat)
      requires Valid()
      modifies this
      ensures metrics == AfterInvocation(old(metrics), name, success, OrZero(time), OrZero(tokens), error, now)
      ensures ledger == old(ledger)
      ensures stats == metrics.skills[name] && stats.invocations >= 1 && Balanced(stats)
      ensures total == metrics.totalInvocations
      ensures Valid()
    {
      RecordInvocation(name, success, OrZero(time), OrZero(tokens), error, now);
      stats := metrics.skills[name];
      total := metrics.totalInvocations;
    }

    /** The `analyze_performance` tool's analysis. */
    method AnalyzePerformance() returns (p: Patterns)
      requires Valid()
      ensures p == PatternsOf(metrics)
    {
      p := AnalyzeUsagePatterns(metrics);
    }

    /** The `generate_improvements` tool: the filtered suggestions replace
        the stored ones. */
    method GenerateImprovements(priority: Option<string>, kind: Option<string>, now: string)
      returns (s: seq<Suggestion>)
      requires Valid()
      modifies this
      ensures s == FilterSuggestions(SuggestionsFor(PatternsOf(old(metrics))), priority, kind)
      ensures metrics == old(metrics)
      ensures ledger == old(ledger).(lastAnalysis := Some(now), suggestions := s)
      ensures Valid()
    {
      var patterns := AnalyzeUsagePatterns(metrics);
      var all := GenerateSuggestions(patterns);
      s := FilterSuggestions(all, priority, kind);
      ledger := ledger.(lastAnalysis := Some(now), suggestions := s);
    }

    /** `applyOptimization`: an unknown skill changes nothing; otherwise the
        improvement is recorded in both documents, even for a metric it
        does not know. */
    method ApplyOptimization(name: string, metric: string, now: string) returns (r: Result<Improvement, string>)
      requires Valid()
      modifies this
      ensures name !in old(metrics).skills ==>
        r == Err("Skill not found") && metrics == old(metrics) && ledger == old(ledger)
      ensures name in old(metrics).skills ==>
        && r == Ok(ImprovementFor(old(metrics).skills[name], metric))
        && metrics == AfterOptimization(old(metrics), name, metric, now)
        && ledger == Recorded(old(ledger), name, metric, r.value, now)
      ensures Valid()
    {
      if name !in metrics.skills {
        return Err("Skill not found");
      }
      var improvement := ImprovementFor(metrics.skills[name], metric);
      ledger := Recorded(ledger, name, metric, improvement, now);
      metrics := AfterOptimization(metrics, name, metric, now);
      r := Ok(improvement);
    }

    /** The `apply_evolution` tool: without `auto` it only asks for
        confirmation. */
    method ApplyEvolution(name: string, metric: string, auto: bool, now: string) returns (o: Outcome)
      requires Valid()
      modifies this
      ensures !auto ==> o == ConfirmationRequired && metrics == old(metrics) && ledger == old(ledger)
      ensures auto && name !in old(metrics).skills ==>
        o == Failed("Skill not found") && metrics == old(metrics) && ledger == old(ledger)
      ensures auto && name in old(metrics).skills ==>
        var i := ImprovementFor(old(metrics).skills[name], metric);
        && o == Applied(i, Claimed(i))
        && metrics == AfterOptimization(old(metrics), name, metric, now)
        && ledger == Recorded(old(ledger), name, metric, i, now)
      ensures Valid()
    {
      if !auto {
        return ConfirmationRequired;
      }
      var r := ApplyOptimization(name, metric, now);
      match r
      case Ok(i) => o := Applied(i, Claimed(i));
      case Err(e) => o := Failed(e);
    }
  }
}
