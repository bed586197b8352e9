/** The `a_b_test` tool: two simulated performance records and the rule
    that names the winner. The three `Math.random()` draws per variant are
    parameters. */
module ABTest {
  import opened Wrappers

  datatype Performance = Performance(successRate: real, avgTime: real, tokens: real)

  datatype Variant = A | B

  datatype ABResult = ABResult(skill: string, versionA: string, versionB: string, iterations: real,
                               a: Performance, b: Performance, winner: Variant)

  /** A value of `Math.random()`. */
  predicate Unit(u: real) { 0.0 <= u < 1.0 }

  /** `randomPerformance` for the draws `u1`, `u2`, `u3`. */
  function Draw(u1: real, u2: real, u3: real): Performance {
    Performance(0.7 + u1 * 0.25, 1.0 + u2 * 3.0, 100.0 + u3 * 400.0)
  }

  predicate Drawn(p: Performance) {
    && 0.7 <= p.successRate < 0.95
    && 1.0 <= p.avgTime < 4.0
    && 100.0 <= p.tokens < 500.0
  }

  /** Success in percent minus seconds. */
  function Score(p: Performance): real {
    p.successRate * 100.0 - p.avgTime
  }

  /** A wins only with the strictly higher score; a tie goes to B. */
  function Winner(a: Performance, b: Performance): Variant {
    if Score(a) > Score(b) then A else B
  }

  /** `args.iterations || 10`: a missing or zero count means ten. */
  function Iterations(n: Option<real>): real {
    if n.None? || n.value == 0.0 then 10.0 else n.value
  }

  function ABTestRun(skill: string, versionA: string, versionB: string, iterations: Option<real>,
                     ua: (real, real, real), ub: (real, real, real)): ABResult
  {
    var a := Draw(ua.0, ua.1, ua.2);
    var b := Draw(ub.0, ub.1, ub.2);
    ABResult(skill, versionA, versionB, Iterations(iterations), a, b, Winner(a, b))
  }

  /** Every draw lies in the documented ranges. */
  lemma DrawInRange(u1: real, u2: real, u3: real)
    requires Unit(u1) && Unit(u2) && Unit(u3)
    ensures Drawn(Draw(u1, u2, u3))
  {
  }

  function Other(v: Variant): Variant { if v == A then B else A }

  /** The winner never scores lower than the other variant; swapping the
      variants swaps the winner unless the scores tie, when B wins in both
      orders. */
  lemma WinnerSymmetry(a: Performance, b: Performance)
    ensures Winner(a, b) == A ==> Score(a) > Score(b)
    ensures Winner(a, b) == B ==> Score(b) >= Score(a)
    ensures Score(a) != Score(b) ==> Winner(b, a) == Other(Winner(a, b))
    ensures Score(a) == Score(b) ==> Winner(a, b) == B && Winner(b, a) == B
  {
  }

  /** Among drawn records the time term spans less than three points, so a
      success-rate lead of more than three percentage points decides the
      winner whatever the times. */
  lemma RateLeadDecides(a: Performance, b: Performance)
    requires Drawn(a) && Drawn(b)
    ensures a.successRate > b.successRate + 0.03 ==> Winner(a, b) == A
    ensures b.successRate > a.successRate + 0.03 ==> Winner(a, b) == B
  {
  }

  /** The result for two draws names the winner of those draws and keeps
      the requested count when it is non-zero, ten when it is missing or
      zero. */
  lemma ABTestRunMeaning(skill: string, versionA: string, versionB: string, iterations: Option<real>,
                         ua: (real, real, real), ub: (real, real, real))
    requires Unit(ua.0) && Unit(ua.1) && Unit(ua.2) && Unit(ub.0) && Unit(ub.1) && Unit(ub.2)
    ensures var r := ABTestRun(skill, versionA, versionB, iterations, ua, ub);
      && Drawn(r.a) && Drawn(r.b)
      && (r.winner == A <==> Score(r.a) > Score(r.b))
      && (iterations.Some? && iterations.value != 0.0 ==> r.iterations == iterations.value)
      && (iterations.None? ==> r.iterations == 10.0)
      && (iterations == Some(0.0) ==> r.iterations == 10.0)
  {
    DrawInRange(ua.0, ua.1, ua.2);
    DrawInRange(ub.0, ub.1, ub.2);
  }
}
