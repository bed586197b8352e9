/** The usage-metrics document of the evolution server (`usage-metrics.json`)
    and the effect of recording one skill invocation on it. */
module Metrics {
  import opened Wrappers
  import opened Capability

  /** One logged failure of a skill. */
  datatype SkillError = SkillError(timestamp: string, error: string, executionTime: real)

  /** The per-skill counters. */
  datatype SkillStats = SkillStats(
    invocations: nat,
    successCount: nat,
    errorCount: nat,
    totalExecutionTime: real,
    totalTokens: real,
    errors: seq<SkillError>)

  /** The record a skill gets on its first invocation. */
  const FreshStats := SkillStats(0, 0, 0, 0.0, 0.0, [])

  /** A failed request, with the capability guessed from its error text. */
  datatype FailedRequest = FailedRequest(timestamp: string, skill: string, error: string, requestedCapability: string)

  /** One entry of `improvement_history`. */
  datatype ImprovementEvent = ImprovementEvent(timestamp: string, count: int, actions: seq<string>)

  /** The metrics document. `skills` is a JavaScript object; `skillOrder`
      keeps its keys in insertion order, the order `Object.entries` yields. */
  datatype Snapshot = Snapshot(
    version: string,
    lastUpdated: string,
    totalInvocations: nat,
    skills: map<string, SkillStats>,
    skillOrder: seq<string>,
    failedRequests: seq<FailedRequest>,
    improvementsExecuted: nat,
    improvementHistory: seq<ImprovementEvent>)

  predicate Distinct<T(==)>(s: seq<T>) {
    forall i, j :: 0 <= i < j < |s| ==> s[i] != s[j]
  }

  /** `skillOrder` lists every key of `skills` exactly once. */
  predicate WellFormed(m: Snapshot) {
    && Distinct(m.skillOrder)
    && (forall n :: n in m.skills ==> n in m.skillOrder)
    && (forall k :: 0 <= k < |m.skillOrder| ==> m.skillOrder[k] in m.skills)
  }

  /** Every invocation of a skill is counted as a success or as an error. */
  predicate Balanced(s: SkillStats) {
    s.invocations == s.successCount + s.errorCount
  }

  predicate AllBalanced(m: Snapshot) {
    forall n :: n in m.skills ==> Balanced(m.skills[n])
  }

  /** The document used when none exists yet or it cannot be parsed. */
  function DefaultSnapshot(now: string): (m: Snapshot)
    ensures WellFormed(m) && AllBalanced(m)
    ensures m.totalInvocations == 0 && m.skills == map[] && m.failedRequests == []
  {
    Snapshot("2.0.0", now, 0, map[], [], [], 0, [])
  }

  /** The counters of a skill, fresh ones when it was never recorded. */
  function StatsOf(m: Snapshot, name: string): SkillStats {
    if name in m.skills then m.skills[name] else FreshStats
  }

  /** An error is logged only when it is given and not the empty string
      (JavaScript truthiness). */
  predicate Logged(error: Option<string>) {
    error.Some? && error.value != ""
  }

  /** The counters after one invocation. */
  function Counted(s: SkillStats, success: bool, time: real, tokens: real, error: Option<string>, now: string): (r: SkillStats)
    ensures r.invocations == s.invocations + 1
    ensures success ==> r.successCount == s.successCount + 1 && r.errorCount == s.errorCount
    ensures !success ==> r.errorCount == s.errorCount + 1 && r.successCount == s.successCount
    ensures r.totalExecutionTime == s.totalExecutionTime + (if success then time else 0.0)
    ensures r.totalTokens == s.totalTokens + (if success then tokens else 0.0)
    ensures !success && Logged(error) ==> r.errors == s.errors + [SkillError(now, error.value, time)]
    ensures success || !Logged(error) ==> r.errors == s.errors
  {
    if success then
      s.(invocations := s.invocations + 1,
         successCount := s.successCount + 1,
         totalExecutionTime := s.totalExecutionTime + time,
         totalTokens := s.totalTokens + tokens)
    else
      s.(invocations := s.invocations + 1,
         errorCount := s.errorCount + 1,
         errors := s.errors + if Logged(error) then [SkillError(now, error.value, time)] else [])
  }

  /** `recordInvocation` followed by `writeMetrics`, which stamps the
      document with the current time. */
  function AfterInvocation(m: Snapshot, name: string, success: bool, time: real, tokens: real,
                           error: Option<string>, now: string): (r: Snapshot)
    ensures r.totalInvocations == m.totalInvocations + 1
    ensures r.skills.Keys == m.skills.Keys + {name}
    ensures r.skills[name] == Counted(StatsOf(m, name), success, time, tokens, error, now)
    ensures forall n :: n in m.skills && n != name ==> r.skills[n] == m.skills[n]
    ensures r.skillOrder == if name in m.skills then m.skillOrder else m.skillOrder + [name]
    ensures !success && Logged(error) ==>
      r.failedRequests == m.failedRequests + [FailedRequest(now, name, error.value, ExtractCapability(error.value))]
    ensures success || !Logged(error) ==> r.failedRequests == m.failedRequests
    ensures r.improvementsExecuted == m.improvementsExecuted && r.improvementHistory == m.improvementHistory
    ensures r.version == m.version && r.lastUpdated == now
  {
    var logged := !success && Logged(error);
    var stats := Counted(StatsOf(m, name), success, time, tokens, error, now);
    var order := if name in m.skills then m.skillOrder else m.skillOrder + [name];
    var failed := if logged then [FailedRequest(now, name, error.value, ExtractCapability(error.value))] else [];
    Snapshot(m.version, now, m.totalInvocations + 1, m.skills[name := stats], order,
             m.failedRequests + failed, m.improvementsExecuted, m.improvementHistory)
  }

  /** Recording an invocation keeps the key order in step with the skills
      and every skill balanced. */
  lemma InvocationKeepsInvariants(m: Snapshot, name: string, success: bool, time: real, tokens: real,
                                  error: Option<string>, now: string)
    ensures var r := AfterInvocation(m, name, success, time, tokens, error, now);
      (WellFormed(m) ==> WellFormed(r)) && (AllBalanced(m) ==> AllBalanced(r))
  {
    var r := AfterInvocation(m, name, success, time, tokens, error, now);
    if WellFormed(m) && name !in m.skills {
      assert name !in m.skillOrder;
      forall i, j | 0 <= i < j < |r.skillOrder| ensures r.skillOrder[i] != r.skillOrder[j] {
        if j == |m.skillOrder| {
          assert r.skillOrder[i] == m.skillOrder[i];
        }
      }
    }
  }

  /** Every failed request the server logs names a capability: the guess is
      never empty, so the analyzer never skips it. */
  lemma LoggedRequestsNameCapability(m: Snapshot, name: string, success: bool, time: real, tokens: real,
                                     error: Option<string>, now: string)
    requires forall k :: 0 <= k < |m.failedRequests| ==> m.failedRequests[k].requestedCapability != []
    ensures var r := AfterInvocation(m, name, success, time, tokens, error, now);
      forall k :: 0 <= k < |r.failedRequests| ==> r.failedRequests[k].requestedCapability != []
  {
    if !success && Logged(error) {
      ExtractCapabilityMeaning(error.value);
    }
  }

  /** One call of the `track_metrics` tool. */
  datatype Invocation = Invocation(skill: string, success: bool, executionTime: real, tokensUsed: real,
                                   error: Option<string>, at: string)

  /** The document after a series of calls, in order. */
  function Replay(m: Snapshot, calls: seq<Invocation>): Snapshot
    decreases |calls|
  {
    if calls == [] then m
    else
      var c := calls[|calls| - 1];
      AfterInvocation(Replay(m, calls[..|calls| - 1]), c.skill, c.success, c.executionTime, c.tokensUsed, c.error, c.at)
  }

  /** Calls naming a skill. */
  function CallsOf(calls: seq<Invocation>, name: string): nat
    decreases |calls|
  {
    if calls == [] then 0
    else CallsOf(calls[..|calls| - 1], name) + if calls[|calls| - 1].skill == name then 1 else 0
  }

  /** Over any series of calls the document stays well formed, every
      skill's counters stay balanced, the grand total grows by the number
      of calls and each skill's count by the number of calls naming it. */
  lemma {:induction false} ReplayCounts(m: Snapshot, calls: seq<Invocation>, name: string)
    requires WellFormed(m) && AllBalanced(m)
    ensures var r := Replay(m, calls);
      && WellFormed(r) && AllBalanced(r)
      && r.totalInvocations == m.totalInvocations + |calls|
      && StatsOf(r, name).invocations == StatsOf(m, name).invocations + CallsOf(calls, name)
      && (name in r.skills <==> name in m.skills || CallsOf(calls, name) > 0)
    decreases |calls|
  {
    if calls != [] {
      var prefix := calls[..|calls| - 1];
      var c := calls[|calls| - 1];
      ReplayCounts(m, prefix, name);
      InvocationKeepsInvariants(Replay(m, prefix), c.skill, c.success, c.executionTime, c.tokensUsed, c.error, c.at);
      InvocationCounts(Replay(m, prefix), c, name);
    }
  }

  /** One invocation adds one to the calls of its own skill and to no
      other, and makes its skill known. */
  lemma InvocationCounts(m: Snapshot, c: Invocation, name: string)
    ensures var r := AfterInvocation(m, c.skill, c.success, c.executionTime, c.tokensUsed, c.error, c.at);
      && StatsOf(r, name).invocations == StatsOf(m, name).invocations + (if c.skill == name then 1 else 0)
      && (name in r.skills <==> name in m.skills || c.skill == name)
  {
  }
}
