/** `analyzeUsagePatterns`: which skills are used often, fail often or run
    slowly, which capabilities failed requests keep asking for, and the
    recent trend of applied improvements. */
module Analyzer {
  import opened Wrappers
  import opened Text
  import opened Metrics

  datatype FrequentSkill = FrequentSkill(name: string, invocations: nat, avgTime: Option<real>, successRate: real)
  datatype FailingSkill = FailingSkill(name: string, successRate: real, errors: nat)
  datatype SlowSkill = SlowSkill(name: string, avgTime: real)
  datatype MissingCapability = MissingCapability(capability: string, frequency: nat)

  /** `trends` stays an empty object until two improvements are recorded. */
  datatype Trends = NoTrend | Trend(improvementRate: nat, avgImprovements: real)

  datatype Patterns = Patterns(
    frequent: seq<FrequentSkill>,
    failing: seq<FailingSkill>,
    slow: seq<SlowSkill>,
    missing: seq<MissingCapability>,
    trends: Trends)

  /** Thresholds of the three skill categories. */
  const FrequentAbove: nat := 5
  const SlowAbove: real := 5.0
  const MinRequests: nat := 2
  const TrendWindow: nat := 5

  function Max1(n: nat): nat { if n < 1 then 1 else n }

  function SuccessRate(s: SkillStats): real
    requires s.invocations > 0
  {
    s.successCount as real / s.invocations as real
  }

  /** Average time of a successful run; a skill that never succeeded
      counts as one run. */
  function AvgTime(s: SkillStats): real {
    s.totalExecutionTime / Max1(s.successCount) as real
  }

  predicate IsFrequent(s: SkillStats) { s.invocations > FrequentAbove }

  /** Failing: some error and a success rate below 80%, written without
      division so that a skill with no invocations (rate NaN) is excluded
      as it is in JavaScript. */
  predicate IsFailing(s: SkillStats) {
    s.errorCount > 0 && 5 * s.successCount < 4 * s.invocations
  }

  predicate IsSlow(s: SkillStats) { AvgTime(s) > SlowAbove }

  /** The integer form of the failing rule is the rate comparison of the
      source, in both directions. */
  lemma FailingMeansLowRate(s: SkillStats)
    ensures IsFailing(s) <==> s.errorCount > 0 && s.invocations > 0 && SuccessRate(s) < 0.8
  {
    if s.invocations > 0 {
      var n, k := s.invocations as real, s.successCount as real;
      assert SuccessRate(s) * n == k;
      if SuccessRate(s) < 0.8 {
        assert k < 0.8 * n;
      }
      if k < 0.8 * n {
        assert SuccessRate(s) * n < 0.8 * n;
      }
    }
  }

  /** `avg_time` of a frequent skill is NaN when it never succeeded; that
      is `None` here. */
  function FrequentEntry(name: string, s: SkillStats): FrequentSkill
    requires s.invocations > 0
  {
    FrequentSkill(name, s.invocations,
                  if s.successCount > 0 then Some(s.totalExecutionTime / s.successCount as real) else None,
                  SuccessRate(s))
  }

  function FailingEntry(name: string, s: SkillStats): FailingSkill
    requires s.invocations > 0
  {
    FailingSkill(name, SuccessRate(s), s.errorCount)
  }

  function SlowEntry(name: string, s: SkillStats): SlowSkill {
    SlowSkill(name, AvgTime(s))
  }

  predicate Known(skills: map<string, SkillStats>, names: seq<string>) {
    forall k :: 0 <= k < |names| ==> names[k] in skills
  }

  /** The frequent skills among `names`, in their order. */
  function FrequentOf(skills: map<string, SkillStats>, names: seq<string>): seq<FrequentSkill>
    requires Known(skills, names)
    decreases |names|
  {
    if names == [] then []
    else
      var n := names[|names| - 1];
      var init := names[..|names| - 1];
      assert forall k :: 0 <= k < |init| ==> init[k] == names[k];
      FrequentOf(skills, init) + if IsFrequent(skills[n]) then [FrequentEntry(n, skills[n])] else []
  }
  /** One entry for every skill of `names` that passes the rule, in the
      order of `names` and once per name, carrying
      that skill's figures, and for no other. */
  lemma FrequentOfMeaning(skills: map<string, SkillStats>, names: seq<string>)
    requires Known(skills, names)
    ensures var f := FrequentOf(skills, names);
      && (forall j :: 0 <= j < |f| ==>
            f[j].name in names && IsFrequent(skills[f[j].name]) && f[j] == FrequentEntry(f[j].name, skills[f[j].name]))
      && (forall n :: n in names && IsFrequent(skills[n]) ==> exists j :: 0 <= j < |f| && f[j].name == n)
      && |f| == |Qualifying(skills, names, Frequent)|
      && (forall j :: 0 <= j < |f| ==> f[j].name == Qualifying(skills, names, Frequent)[j])
      && (Distinct(names) ==> forall i, j :: 0 <= i < j < |f| ==> f[i].name != f[j].name)
  {
    FrequentOfSound(skills, names);
    FrequentOfComplete(skills, names);
    FrequentOfNames(skills, names);
    if Distinct(names) { QualifyingDistinct(skills, names, Frequent); }
    forall n | n in names && IsFrequent(skills[n])
      ensures exists j :: 0 <= j < |FrequentOf(skills, names)| && FrequentOf(skills, names)[j].name == n
    {
      var k :| 0 <= k < |names| && names[k] == n;
    }
  }

  lemma {:induction false} FrequentOfSound(skills: map<string, SkillStats>, names: seq<string>)
    requires Known(skills, names)
    ensures forall j :: 0 <= j < |FrequentOf(skills, names)| ==>
      var e := FrequentOf(skills, names)[j];
      e.name in names && IsFrequent(skills[e.name]) && e == FrequentEntry(e.name, skills[e.name])
    decreases |names|
  {
    if names != [] {
      var init := names[..|names| - 1];
      assert forall k :: 0 <= k < |init| ==> init[k] == names[k];
      FrequentOfSound(skills, init);
      var f, g := FrequentOf(skills, names), FrequentOf(skills, init);
      assert f[..|g|] == g;
      assert forall j :: 0 <= j < |g| ==>
        g[j].name in init && IsFrequent(skills[g[j].name]) && g[j] == FrequentEntry(g[j].name, skills[g[j].name]);
      forall j | 0 <= j < |f|
        ensures f[j].name in names && IsFrequent(skills[f[j].name]) && f[j] == FrequentEntry(f[j].name, skills[f[j].name])
      {
        if j < |g| {
          assert f[j] == g[j];
          assert g[j].name in init;
        }
      }
    }
  }

  predicate FrequentListed(f: seq<FrequentSkill>, n: string) {
    exists j :: 0 <= j < |f| && f[j].name == n
  }

  lemma {:induction false} FrequentOfComplete(skills: map<string, SkillStats>, names: seq<string>)
    requires Known(skills, names)
    ensures forall k :: 0 <= k < |names| && IsFrequent(skills[names[k]]) ==> FrequentListed(FrequentOf(skills, names), names[k])
    decreases |names|
  {
    if names != [] {
      var init := names[..|names| - 1];
      assert forall k :: 0 <= k < |init| ==> init[k] == names[k];
      FrequentOfComplete(skills, init);
      var f, g := FrequentOf(skills, names), FrequentOf(skills, init);
      assert f[..|g|] == g;
      forall k | 0 <= k < |names| && IsFrequent(skills[names[k]])
        ensures FrequentListed(f, names[k])
      {
        if k == |names| - 1 {
          assert f[|f| - 1].name == names[k];
        } else {
          assert init[k] == names[k];
          var j :| 0 <= j < |g| && g[j].name == init[k];
          assert f[j] == g[j];
        }
      }
    }
  }


  /** The failing skills among `names`, in their order. */
  function FailingOf(skills: map<string, SkillStats>, names: seq<string>): seq<FailingSkill>
    requires Known(skills, names)
    decreases |names|
  {
    if names == [] then []
    else
      var n := names[|names| - 1];
      var init := names[..|names| - 1];
      assert forall k :: 0 <= k < |init| ==> init[k] == names[k];
      FailingOf(skills, init) + if IsFailing(skills[n]) then [FailingEntry(n, skills[n])] else []
  }
  /** One entry for every skill of `names` that passes the rule, in the
      order of `names` and once per name, carrying
      that skill's figures, and for no other. */
  lemma FailingOfMeaning(skills: map<string, SkillStats>, names: seq<string>)
    requires Known(skills, names)
    ensures var f := FailingOf(skills, names);
      && (forall j :: 0 <= j < |f| ==>
            f[j].name in names && IsFailing(skills[f[j].name]) && f[j] == FailingEntry(f[j].name, skills[f[j].name]))
      && (forall n :: n in names && IsFailing(skills[n]) ==> exists j :: 0 <= j < |f| && f[j].name == n)
      && |f| == |Qualifying(skills, names, Failing)|
      && (forall j :: 0 <= j < |f| ==> f[j].name == Qualifying(skills, names, Failing)[j])
      && (Distinct(names) ==> forall i, j :: 0 <= i < j < |f| ==> f[i].name != f[j].name)
  {
    FailingOfSound(skills, names);
    FailingOfComplete(skills, names);
    FailingOfNames(skills, names);
    if Distinct(names) { QualifyingDistinct(skills, names, Failing); }
    forall n | n in names && IsFailing(skills[n])
      ensures exists j :: 0 <= j < |FailingOf(skills, names)| && FailingOf(skills, names)[j].name == n
    {
      var k :| 0 <= k < |names| && names[k] == n;
    }
  }

  lemma {:induction false} FailingOfSound(skills: map<string, SkillStats>, names: seq<string>)
    requires Known(skills, names)
    ensures forall j :: 0 <= j < |FailingOf(skills, names)| ==>
      var e := FailingOf(skills, names)[j];
      e.name in names && IsFailing(skills[e.name]) && e == FailingEntry(e.name, skills[e.name])
    decreases |names|
  {
    if names != [] {
      var init := names[..|names| - 1];
      assert forall k :: 0 <= k < |init| ==> init[k] == names[k];
      FailingOfSound(skills, init);
      var f, g := FailingOf(skills, names), FailingOf(skills, init);
      assert f[..|g|] == g;
      assert forall j :: 0 <= j < |g| ==>
        g[j].name in init && IsFailing(skills[g[j].name]) && g[j] == FailingEntry(g[j].name, skills[g[j].name]);
      forall j | 0 <= j < |f|
        ensures f[j].name in names && IsFailing(skills[f[j].name]) && f[j] == FailingEntry(f[j].name, skills[f[j].name])
      {
        if j < |g| {
          assert f[j] == g[j];
          assert g[j].name in init;
        }
      }
    }
  }

  predicate FailingListed(f: seq<FailingSkill>, n: string) {
    exists j :: 0 <= j < |f| && f[j].name == n
  }

  lemma {:induction false} FailingOfComplete(skills: map<string, SkillStats>, names: seq<string>)
    requires Known(skills, names)
    ensures forall k :: 0 <= k < |names| && IsFailing(skills[names[k]]) ==> FailingListed(FailingOf(skills, names), names[k])
    decreases |names|
  {
    if names != [] {
      var init := names[..|names| - 1];
      assert forall k :: 0 <= k < |init| ==> init[k] == names[k];
      FailingOfComplete(skills, init);
      var f, g := FailingOf(skills, names), FailingOf(skills, init);
      assert f[..|g|] == g;
      forall k | 0 <= k < |names| && IsFailing(skills[names[k]])
        ensures FailingListed(f, names[k])
      {
        if k == |names| - 1 {
          assert f[|f| - 1].name == names[k];
        } else {
          assert init[k] == names[k];
          var j :| 0 <= j < |g| && g[j].name == init[k];
          assert f[j] == g[j];
        }
      }
    }
  }


  /** The slow skills among `names`, in their order. */
  function SlowOf(skills: map<string, SkillStats>, names: seq<string>): seq<SlowSkill>
    requires Known(skills, names)
    decreases |names|
  {
    if names == [] then []
    else
      var n := names[|names| - 1];
      var init := names[..|names| - 1];
      assert forall k :: 0 <= k < |init| ==> init[k] == names[k];
      SlowOf(skills, init) + if IsSlow(skills[n]) then [SlowEntry(n, skills[n])] else []
  }
  /** One entry for every skill of `names` that passes the rule, in the
      order of `names` and once per name, carrying
      that skill's figures, and for no other. */
  lemma SlowOfMeaning(skills: map<string, SkillStats>, names: seq<string>)
    requires Known(skills, names)
    ensures var f := SlowOf(skills, names);
      && (forall j :: 0 <= j < |f| ==>
            f[j].name in names && IsSlow(skills[f[j].name]) && f[j] == SlowEntry(f[j].name, skills[f[j].name]))
      && (forall n :: n in names && IsSlow(skills[n]) ==> exists j :: 0 <= j < |f| && f[j].name == n)
      && |f| == |Qualifying(skills, names, Slow)|
      && (forall j :: 0 <= j < |f| ==> f[j].name == Qualifying(skills, names, Slow)[j])
      && (Distinct(names) ==> forall i, j :: 0 <= i < j < |f| ==> f[i].name != f[j].name)
  {
    SlowOfSound(skills, names);
    SlowOfComplete(skills, names);
    SlowOfNames(skills, names);
    if Distinct(names) { QualifyingDistinct(skills, names, Slow); }
    forall n | n in names && IsSlow(skills[n])
      ensures exists j :: 0 <= j < |SlowOf(skills, names)| && SlowOf(skills, names)[j].name == n
    {
      var k :| 0 <= k < |names| && names[k] == n;
    }
  }

  lemma {:induction false} SlowOfSound(skills: map<string, SkillStats>, names: seq<string>)
    requires Known(skills, names)
    ensures forall j :: 0 <= j < |SlowOf(skills, names)| ==>
      var e := SlowOf(skills, names)[j];
      e.name in names && IsSlow(skills[e.name]) && e == SlowEntry(e.name, skills[e.name])
    decreases |names|
  {
    if names != [] {
      var init := names[..|names| - 1];
      assert forall k :: 0 <= k < |init| ==> init[k] == names[k];
      SlowOfSound(skills, init);
      var f, g := SlowOf(skills, names), SlowOf(skills, init);
      assert f[..|g|] == g;
      assert forall j :: 0 <= j < |g| ==>
        g[j].name in init && IsSlow(skills[g[j].name]) && g[j] == SlowEntry(g[j].name, skills[g[j].name]);
      forall j | 0 <= j < |f|
        ensures f[j].name in names && IsSlow(skills[f[j].name]) && f[j] == SlowEntry(f[j].name, skills[f[j].name])
      {
        if j < |g| {
          assert f[j] == g[j];
          assert g[j].name in init;
        }
      }
    }
  }

  predicate SlowListed(f: seq<SlowSkill>, n: string) {
    exists j :: 0 <= j < |f| && f[j].name == n
  }

  lemma {:induction false} SlowOfComplete(skills: map<string, SkillStats>, names: seq<string>)
    requires Known(skills, names)
    ensures forall k :: 0 <= k < |names| && IsSlow(skills[names[k]]) ==> SlowListed(SlowOf(skills, names), names[k])
    decreases |names|
  {
    if names != [] {
      var init := names[..|names| - 1];
      assert forall k :: 0 <= k < |init| ==> init[k] == names[k];
      SlowOfComplete(skills, init);
      var f, g := SlowOf(skills, names), SlowOf(skills, init);
      assert f[..|g|] == g;
      forall k | 0 <= k < |names| && IsSlow(skills[names[k]])
        ensures SlowListed(f, names[k])
      {
        if k == |names| - 1 {
          assert f[|f| - 1].name == names[k];
        } else {
          assert init[k] == names[k];
          var j :| 0 <= j < |g| && g[j].name == init[k];
          assert f[j] == g[j];
        }
      }
    }
  }


  /** The three lists `analyzeUsagePatterns` sorts skills into. */
  datatype Category = Frequent | Failing | Slow

  predicate InCategory(c: Category, s: SkillStats) {
    match c
    case Frequent => IsFrequent(s)
    case Failing => IsFailing(s)
    case Slow => IsSlow(s)
  }

  /** `names` with every name that is not a skill in category `c` dropped:
      what a single pass over the skills, pushing each one that passes the
      rule, lists. */
  function Qualifying(skills: map<string, SkillStats>, names: seq<string>, c: Category): (q: seq<string>)
    ensures |q| <= |names|
  {
    if names == [] then []
    else
      (if names[0] in skills && InCategory(c, skills[names[0]]) then [names[0]] else [])
      + Qualifying(skills, names[1..], c)
  }

  /** Filtering a concatenation filters each part. */
  lemma {:induction false} QualifyingAppend(skills: map<string, SkillStats>, a: seq<string>, b: seq<string>, c: Category)
    ensures Qualifying(skills, a + b, c) == Qualifying(skills, a, c) + Qualifying(skills, b, c)
    decreases |a|
  {
    if a == [] {
      assert a + b == b;
    } else {
      assert (a + b)[0] == a[0] && (a + b)[1..] == a[1..] + b;
      QualifyingAppend(skills, a[1..], b, c);
    }
  }

  /** Every name kept comes from `names`. */
  lemma {:induction false} QualifyingFrom(skills: map<string, SkillStats>, names: seq<string>, c: Category)
    ensures forall n :: n in Qualifying(skills, names, c) ==> n in names
    decreases |names|
  {
    if names != [] {
      QualifyingFrom(skills, names[1..], c);
      assert forall n :: n in names[1..] ==> n in names;
    }
  }

  /** A list of distinct names keeps each name at most once. */
  lemma {:induction false} QualifyingDistinct(skills: map<string, SkillStats>, names: seq<string>, c: Category)
    requires Distinct(names)
    ensures Distinct(Qualifying(skills, names, c))
    decreases |names|
  {
    if names != [] {
      var tail := names[1..];
      assert Distinct(tail) by {
        assert forall i :: 0 <= i < |tail| ==> tail[i] == names[i + 1];
      }
      QualifyingDistinct(skills, tail, c);
      QualifyingFrom(skills, tail, c);
      assert names[0] !in tail;
    }
  }

  /** The frequent list names exactly the frequent skills, in the order of
      `names`. */
  lemma {:induction false} FrequentOfNames(skills: map<string, SkillStats>, names: seq<string>)
    requires Known(skills, names)
    ensures var f, q := FrequentOf(skills, names), Qualifying(skills, names, Frequent);
      |f| == |q| && forall j :: 0 <= j < |f| ==> f[j].name == q[j]
    decreases |names|
  {
    if names != [] {
      var n, init := names[|names| - 1], names[..|names| - 1];
      assert forall k :: 0 <= k < |init| ==> init[k] == names[k];
      assert names == init + [n];
      FrequentOfNames(skills, init);
      QualifyingAppend(skills, init, [n], Frequent);
      var f, g := FrequentOf(skills, names), FrequentOf(skills, init);
      var q, p := Qualifying(skills, names, Frequent), Qualifying(skills, init, Frequent);
      assert f[..|g|] == g;
      assert q[..|p|] == p;
      forall j | 0 <= j < |f|
        ensures f[j].name == q[j]
      {
        if j < |g| {
          assert f[j] == g[j] && q[j] == p[j];
        }
      }
    }
  }

  /** The failing list names exactly the failing skills, in the order of
      `names`. */
  lemma {:induction false} FailingOfNames(skills: map<string, SkillStats>, names: seq<string>)
    requires Known(skills, names)
    ensures var f, q := FailingOf(skills, names), Qualifying(skills, names, Failing);
      |f| == |q| && forall j :: 0 <= j < |f| ==> f[j].name == q[j]
    decreases |names|
  {
    if names != [] {
      var n, init := names[|names| - 1], names[..|names| - 1];
      assert forall k :: 0 <= k < |init| ==> init[k] == names[k];
      assert names == init + [n];
      FailingOfNames(skills, init);
      QualifyingAppend(skills, init, [n], Failing);
      var f, g := FailingOf(skills, names), FailingOf(skills, init);
      var q, p := Qualifying(skills, names, Failing), Qualifying(skills, init, Failing);
      assert f[..|g|] == g;
      assert q[..|p|] == p;
      forall j | 0 <= j < |f|
        ensures f[j].name == q[j]
      {
        if j < |g| {
          assert f[j] == g[j] && q[j] == p[j];
        }
      }
    }
  }

  /** The slow list names exactly the slow skills, in the order of
      `names`. */
  lemma {:induction false} SlowOfNames(skills: map<string, SkillStats>, names: seq<string>)
    requires Known(skills, names)
    ensures var f, q := SlowOf(skills, names), Qualifying(skills, names, Slow);
      |f| == |q| && forall j :: 0 <= j < |f| ==> f[j].name == q[j]
    decreases |names|
  {
    if names != [] {
      var n, init := names[|names| - 1], names[..|names| - 1];
      assert forall k :: 0 <= k < |init| ==> init[k] == names[k];
      assert names == init + [n];
      SlowOfNames(skills, init);
      QualifyingAppend(skills, init, [n], Slow);
      var f, g := SlowOf(skills, names), SlowOf(skills, init);
      var q, p := Qualifying(skills, names, Slow), Qualifying(skills, init, Slow);
      assert f[..|g|] == g;
      assert q[..|p|] == p;
      forall j | 0 <= j < |f|
        ensures f[j].name == q[j]
      {
        if j < |g| {
          assert f[j] == g[j] && q[j] == p[j];
        }
      }
    }
  }


  /** A failed request counts towards the lower-cased capability it names;
      one naming the empty string is skipped. */
  predicate Requests(r: FailedRequest, c: string) {
    r.requestedCapability != [] && Lower(r.requestedCapability) == c
  }

  /** How many of the requests ask for capability `c`. */
  function CountOf(rs: seq<FailedRequest>, c: string): nat
    decreases |rs|
  {
    if rs == [] then 0
    else CountOf(rs[..|rs| - 1], c) + if Requests(rs[|rs| - 1], c) then 1 else 0
  }

  /** Position of the first request asking for `c`, or `|rs|` when none
      does. */
  function FirstRequest(rs: seq<FailedRequest>, c: string): (r: nat)
    ensures r <= |rs|
    decreases |rs|
  {
    if rs == [] then 0
    else
      var f := FirstRequest(rs[..|rs| - 1], c);
      if f < |rs| - 1 then f
      else if Requests(rs[|rs| - 1], c) then |rs| - 1
      else |rs|
  }

  /** The first request asking for `c` does so, none before it does, and
      there is one exactly when `c` is asked for at all. */
  lemma {:induction false} FirstRequestMeaning(rs: seq<FailedRequest>, c: string)
    ensures var r := FirstRequest(rs, c);
      && (r < |rs| ==> Requests(rs[r], c))
      && (forall j :: 0 <= j < r ==> !Requests(rs[j], c))
      && (r == |rs| <==> CountOf(rs, c) == 0)
    decreases |rs|
  {
    if rs != [] {
      var init := rs[..|rs| - 1];
      FirstRequestMeaning(init, c);
      assert forall j :: 0 <= j < |init| ==> init[j] == rs[j];
    }
  }

  /** The `capabilityCounts` object: counts and key insertion order. */
  datatype Tally = Tally(counts: map<string, nat>, order: seq<string>)

  function Tallied(t: Tally, r: FailedRequest): Tally {
    if r.requestedCapability == [] then t
    else
      var c := Lower(r.requestedCapability);
      if c in t.counts then Tally(t.counts[c := t.counts[c] + 1], t.order)
      else Tally(t.counts[c := 1], t.order + [c])
  }

  function TallyOf(rs: seq<FailedRequest>): (t: Tally)
    ensures forall c :: c in t.counts ==> t.counts[c] == CountOf(rs, c) && t.counts[c] >= 1
    ensures forall c :: c !in t.counts ==> CountOf(rs, c) == 0
    ensures Distinct(t.order)
    ensures forall c :: c in t.counts ==> c in t.order
    ensures forall k :: 0 <= k < |t.order| ==> t.order[k] in t.counts
    decreases |rs|
  {
    if rs == [] then Tally(map[], [])
    else Tallied(TallyOf(rs[..|rs| - 1]), rs[|rs| - 1])
  }

  /** Every key of `order` is asked for by some request of `rs`. */
  predicate AllAsked(rs: seq<FailedRequest>, order: seq<string>) {
    forall k :: 0 <= k < |order| ==> FirstRequest(rs, order[k]) < |rs|
  }

  /** The keys of `order` are listed in the order in which `rs` first asks
      for them. */
  predicate OrderedByFirst(rs: seq<FailedRequest>, order: seq<string>) {
    forall a, b :: 0 <= a < b < |order| ==> FirstRequest(rs, order[a]) < FirstRequest(rs, order[b])
  }

  /** The keys of the tally follow the order in which the requests first
      ask for them, as the insertion order of `capabilityCounts` does. */
  lemma {:induction false} TallyOrder(rs: seq<FailedRequest>)
    ensures AllAsked(rs, TallyOf(rs).order) && OrderedByFirst(rs, TallyOf(rs).order)
    decreases |rs|
  {
    if rs != [] {
      var init := rs[..|rs| - 1];
      TallyOrder(init);
      var t, u := TallyOf(rs), TallyOf(init);
      KeysKept(rs, u.order);
      TallyStep(rs);
      if t.order != u.order {
        KeyAdded(rs, u.order, t.order[|t.order| - 1]);
      }
    }
  }

  /** Keys already asked for stay asked for, in the same order, when one
      more request arrives. */
  lemma KeysKept(rs: seq<FailedRequest>, order: seq<string>)
    requires rs != [] && AllAsked(rs[..|rs| - 1], order) && OrderedByFirst(rs[..|rs| - 1], order)
    ensures AllAsked(rs, order) && OrderedByFirst(rs, order)
    ensures forall k :: 0 <= k < |order| ==> FirstRequest(rs, order[k]) < |rs| - 1
  {
    forall k | 0 <= k < |order|
      ensures FirstRequest(rs, order[k]) == FirstRequest(rs[..|rs| - 1], order[k])
    {
      FirstRequestKept(rs, order[k]);
    }
  }

  /** A key first asked for by the last request goes after all the others. */
  lemma KeyAdded(rs: seq<FailedRequest>, order: seq<string>, c: string)
    requires OrderedByFirst(rs, order) && FirstRequest(rs, c) == |rs| - 1
    requires forall k :: 0 <= k < |order| ==> FirstRequest(rs, order[k]) < |rs| - 1
    ensures AllAsked(rs, order + [c]) && OrderedByFirst(rs, order + [c])
  {
    var o := order + [c];
    forall a, b | 0 <= a < b < |o| ensures FirstRequest(rs, o[a]) < FirstRequest(rs, o[b]) {
      assert o[a] == order[a];
      if b < |order| {
        assert o[b] == order[b];
      }
    }
    forall k | 0 <= k < |o| ensures FirstRequest(rs, o[k]) < |rs| {
      if k < |order| {
        assert o[k] == order[k];
      }
    }
  }

  /** A capability already asked for keeps its first request when one more
      request arrives. */
  lemma FirstRequestKept(rs: seq<FailedRequest>, c: string)
    requires rs != [] && FirstRequest(rs[..|rs| - 1], c) < |rs| - 1
    ensures FirstRequest(rs, c) == FirstRequest(rs[..|rs| - 1], c)
  {
  }

  /** One more request leaves the keys of the tally alone or adds the key
      it asks for, whose first request it is. */
  lemma TallyStep(rs: seq<FailedRequest>)
    requires rs != []
    ensures var t, u := TallyOf(rs), TallyOf(rs[..|rs| - 1]);
      || t.order == u.order
      || (t.order == u.order + [t.order[|t.order| - 1]] && FirstRequest(rs, t.order[|t.order| - 1]) == |rs| - 1)
  {
    var init := rs[..|rs| - 1];
    var t, u := TallyOf(rs), TallyOf(init);
    var r := rs[|rs| - 1];
    if r.requestedCapability != [] && Lower(r.requestedCapability) !in u.counts {
      var c := Lower(r.requestedCapability);
      assert t.order == u.order + [c];
      assert CountOf(init, c) == 0;
      FirstRequestMeaning(init, c);
      assert FirstRequest(init, c) == |init|;
      assert Requests(r, c);
    }
  }

  /** The capabilities among `order` asked for at least twice. */
  function MissingFrom(t: Tally, order: seq<string>): seq<MissingCapability>
    requires forall k :: 0 <= k < |order| ==> order[k] in t.counts
    decreases |order|
  {
    if order == [] then []
    else
      var c := order[|order| - 1];
      var init := order[..|order| - 1];
      assert forall k :: 0 <= k < |init| ==> init[k] == order[k];
      MissingFrom(t, init) + if t.counts[c] >= MinRequests then [MissingCapability(c, t.counts[c])] else []
  }
  lemma {:induction false} MissingFromMeaning(t: Tally, order: seq<string>)
    requires forall k :: 0 <= k < |order| ==> order[k] in t.counts
    ensures var ms := MissingFrom(t, order);
      && (forall j :: 0 <= j < |ms| ==>
            ms[j].capability in order && ms[j].frequency == t.counts[ms[j].capability] >= MinRequests)
      && (forall c :: c in order && t.counts[c] >= MinRequests ==> exists j :: 0 <= j < |ms| && ms[j].capability == c)
      && (Distinct(order) ==> forall i, j :: 0 <= i < j < |ms| ==> ms[i].capability != ms[j].capability)
    decreases |order|
  {
    if order != [] {
      var init := order[..|order| - 1];
      var last := order[|order| - 1];
      assert forall k :: 0 <= k < |init| ==> init[k] == order[k];
      MissingFromMeaning(t, init);
      var ms, g := MissingFrom(t, order), MissingFrom(t, init);
      assert ms[..|g|] == g;
      forall c | c in order && t.counts[c] >= MinRequests
        ensures exists j :: 0 <= j < |ms| && ms[j].capability == c
      {
        if c == last {
          assert ms[|ms| - 1].capability == c;
        } else {
          assert c in init;
          var j :| 0 <= j < |g| && g[j].capability == c;
          assert ms[j] == g[j];
        }
      }
      forall j | 0 <= j < |ms|
        ensures ms[j].capability in order && ms[j].frequency == t.counts[ms[j].capability] >= MinRequests
      {
        if j < |g| {
          assert ms[j] == g[j];
          assert g[j].capability in init;
        }
      }
      if Distinct(order) {
        assert Distinct(init);
        assert last !in init;
        forall i, j | 0 <= i < j < |ms| ensures ms[i].capability != ms[j].capability {
          if j >= |g| {
            assert ms[i] == g[i];
          } else {
            assert ms[i] == g[i] && ms[j] == g[j];
          }
        }
      }
    }
  }


  /** The reported capabilities are listed in the order in which `rs`
      first asks for them. */
  predicate CapsOrdered(rs: seq<FailedRequest>, ms: seq<MissingCapability>) {
    forall i, j :: 0 <= i < j < |ms| ==> FirstRequest(rs, ms[i].capability) < FirstRequest(rs, ms[j].capability)
  }

  /** None of the reported capabilities is first asked for after `c`. */
  predicate CapsNotAfter(rs: seq<FailedRequest>, ms: seq<MissingCapability>, c: string) {
    forall j :: 0 <= j < |ms| ==> FirstRequest(rs, ms[j].capability) <= FirstRequest(rs, c)
  }

  /** Reporting keeps the relative order of the keys it reports, none of
      them later than the last key. */
  lemma {:induction false} MissingFromOrder(t: Tally, order: seq<string>, rs: seq<FailedRequest>)
    requires forall k :: 0 <= k < |order| ==> order[k] in t.counts
    requires OrderedByFirst(rs, order)
    ensures CapsOrdered(rs, MissingFrom(t, order))
    ensures order != [] ==> CapsNotAfter(rs, MissingFrom(t, order), order[|order| - 1])
    decreases |order|
  {
    if order != [] {
      var init := order[..|order| - 1];
      var last := order[|order| - 1];
      assert forall k :: 0 <= k < |init| ==> init[k] == order[k];
      MissingFromOrder(t, init, rs);
      var g := MissingFrom(t, init);
      var x := if t.counts[last] >= MinRequests then [MissingCapability(last, t.counts[last])] else [];
      assert MissingFrom(t, order) == g + x;
      if init == [] {
        assert g == [];
        assert CapsOrdered(rs, x) && CapsNotAfter(rs, x, last);
        assert g + x == x;
      } else {
        assert FirstRequest(rs, init[|init| - 1]) < FirstRequest(rs, last);
        CapsSnoc(rs, g, x, init[|init| - 1], last);
      }
    }
  }

  /** Reporting one more capability, first asked for after all the others,
      keeps the order. */
  lemma CapsSnoc(rs: seq<FailedRequest>, g: seq<MissingCapability>, x: seq<MissingCapability>, c: string, d: string)
    requires CapsOrdered(rs, g) && CapsNotAfter(rs, g, c) && FirstRequest(rs, c) < FirstRequest(rs, d)
    requires |x| <= 1 && forall k :: 0 <= k < |x| ==> x[k].capability == d
    ensures CapsOrdered(rs, g + x) && CapsNotAfter(rs, g + x, d)
  {
    CapsSnocNotAfter(rs, g, x, c, d);
    var ms := g + x;
    forall i, j | 0 <= i < j < |ms| ensures FirstRequest(rs, ms[i].capability) < FirstRequest(rs, ms[j].capability) {
      assert ms[i] == g[i];
      if j < |g| {
        assert ms[j] == g[j];
      }
    }
  }

  lemma CapsSnocNotAfter(rs: seq<FailedRequest>, g: seq<MissingCapability>, x: seq<MissingCapability>, c: string, d: string)
    requires CapsNotAfter(rs, g, c) && FirstRequest(rs, c) < FirstRequest(rs, d)
    requires |x| <= 1 && forall k :: 0 <= k < |x| ==> x[k].capability == d
    ensures CapsNotAfter(rs, g + x, d)
    ensures forall j :: 0 <= j < |g| ==> FirstRequest(rs, g[j].capability) < FirstRequest(rs, d)
  {
    var ms := g + x;
    forall j | 0 <= j < |ms| ensures FirstRequest(rs, ms[j].capability) <= FirstRequest(rs, d) {
      if j < |g| {
        assert ms[j] == g[j];
      } else {
        assert ms[j] == x[0];
      }
    }
  }

  function MissingCapabilities(rs: seq<FailedRequest>): seq<MissingCapability> {
    var t := TallyOf(rs);
    MissingFrom(t, t.order)
  }

  /** A capability is reported exactly when at least two failed requests
      ask for it, with the number of those requests, at most once, and in
      the order in which the requests first ask for them. */
  lemma MissingCapabilitiesMeaning(rs: seq<FailedRequest>)
    ensures var ms := MissingCapabilities(rs);
      && (forall j :: 0 <= j < |ms| ==> ms[j].frequency == CountOf(rs, ms[j].capability) >= MinRequests)
      && (forall c :: CountOf(rs, c) >= MinRequests ==> exists j :: 0 <= j < |ms| && ms[j].capability == c)
      && (forall i, j :: 0 <= i < j < |ms| ==> ms[i].capability != ms[j].capability)
      && CapsOrdered(rs, ms)
  {
    var t := TallyOf(rs);
    var ms := MissingCapabilities(rs);
    assert ms == MissingFrom(t, t.order);
    MissingFromMeaning(t, t.order);
    TallyOrder(rs);
    MissingFromOrder(t, t.order, rs);
    forall j | 0 <= j < |ms| ensures ms[j].frequency == CountOf(rs, ms[j].capability) {
      assert ms[j].capability in t.order;
      assert ms[j].capability in t.counts;
    }
  }

  function SumCounts(h: seq<ImprovementEvent>): int
    decreases |h|
  {
    if h == [] then 0 else SumCounts(h[..|h| - 1]) + h[|h| - 1].count
  }

  /** With two or more improvements on record: how many of the last five
      are considered, and their mean count. */
  function TrendsOf(h: seq<ImprovementEvent>): (t: Trends)
    ensures t.Trend? <==> |h| >= 2
    ensures t.Trend? ==>
      && 2 <= t.improvementRate <= TrendWindow
      && t.improvementRate == (if |h| < TrendWindow then |h| else TrendWindow)
      && t.avgImprovements * t.improvementRate as real == SumCounts(h[|h| - t.improvementRate..]) as real
  {
    if |h| >= 2 then
      var recent := h[|h| - (if |h| < TrendWindow then |h| else TrendWindow)..];
      Trend(|recent|, SumCounts(recent) as real / |recent| as real)
    else NoTrend
  }

  function PatternsOf(m: Snapshot): Patterns
    requires WellFormed(m)
  {
    Patterns(FrequentOf(m.skills, m.skillOrder), FailingOf(m.skills, m.skillOrder), SlowOf(m.skills, m.skillOrder),
             MissingCapabilities(m.failedRequests), TrendsOf(m.improvementHistory))
  }

  /** The analysis as the source performs it: one pass over the skills,
      one over the failed requests, one over the tallied capabilities. */
  method AnalyzeUsagePatterns(m: Snapshot) returns (p: Patterns)
    requires WellFormed(m)
    ensures p == PatternsOf(m)
  {
    var frequent, failing, slow := ClassifySkills(m.skills, m.skillOrder);
    var tally := TallyRequests(m.failedRequests);
    var missing := MissingIn(tally);
    p := Patterns(frequent, failing, slow, missing, TrendsOf(m.improvementHistory));
  }

  /** The pass over the skills, in key order. */
  method ClassifySkills(skills: map<string, SkillStats>, names: seq<string>)
    returns (frequent: seq<FrequentSkill>, failing: seq<FailingSkill>, slow: seq<SlowSkill>)
    requires Known(skills, names)
    ensures frequent == FrequentOf(skills, names)
    ensures failing == FailingOf(skills, names)
    ensures slow == SlowOf(skills, names)
  {
    frequent, failing, slow := [], [], [];
    var i := 0;
    while i < |names|
      invariant 0 <= i <= |names|
      invariant frequent == FrequentOf(skills, names[..i])
      invariant failing == FailingOf(skills, names[..i])
      invariant slow == SlowOf(skills, names[..i])
    {
      var name := names[i];
      var data := skills[name];
      var seen := names[..i + 1];
      assert seen[..i] == names[..i] && seen[i] == name;
      assert Known(skills, seen);
      if IsFrequent(data) {
        frequent := frequent + [FrequentEntry(name, data)];
      }
      if IsFailing(data) {
        failing := failing + [FailingEntry(name, data)];
      }
      if AvgTime(data) > SlowAbove {
        slow := slow + [SlowEntry(name, data)];
      }
      i := i + 1;
    }
    assert names[..i] == names;
  }

  /** The pass over the failed requests, building `capabilityCounts`. */
  method TallyRequests(rs: seq<FailedRequest>) returns (tally: Tally)
    ensures tally == TallyOf(rs)
  {
    tally := Tally(map[], []);
    var r := 0;
    while r < |rs|
      invariant 0 <= r <= |rs|
      invariant tally == TallyOf(rs[..r])
    {
      assert rs[..r + 1][..r] == rs[..r];
      tally := Tallied(tally, rs[r]);
      r := r + 1;
    }
    assert rs[..r] == rs;
  }

  /** The pass over the tallied capabilities, in insertion order. */
  method MissingIn(tally: Tally) returns (missing: seq<MissingCapability>)
    requires forall k :: 0 <= k < |tally.order| ==> tally.order[k] in tally.counts
    ensures missing == MissingFrom(tally, tally.order)
  {
    missing := [];
    var order := tally.order;
    var k := 0;
    while k < |order|
      invariant 0 <= k <= |order|
      invariant missing == MissingFrom(tally, order[..k])
    {
      var cap := order[k];
      assert order[..k + 1][..k] == order[..k];
      if tally.counts[cap] >= MinRequests {
        missing := missing + [MissingCapability(cap, tally.counts[cap])];
      }
      k := k + 1;
    }
    assert order[..k] == order;
  }
}
