/** `generateSuggestions` and the filters of the `generate_improvements`
    tool. */
module Suggestions {
  import opened Wrappers
  import opened Text
  import opened Analyzer

  datatype Kind = Optimization | Fix | Creation | Composition
  datatype Priority = High | Medium | Low

  /** What the `reason` text reports, without its number formatting. */
  datatype Reason =
    | AverageTime(seconds: real)
    | ErrorsDetected(successRate: real, errors: nat)
    | RequestedTimes(frequency: nat)
    | FrequentCombination(skills: seq<string>)

  datatype Suggestion = Suggestion(kind: Kind, skill: string, priority: Priority, reason: Reason, impact: string)

  function KindName(k: Kind): string {
    match k
    case Optimization => "optimization"
    case Fix => "fix"
    case Creation => "creation"
    case Composition => "composition"
  }

  function PriorityName(p: Priority): string {
    match p
    case High => "high"
    case Medium => "medium"
    case Low => "low"
  }

  /** The name of the skill proposed for a missing capability: each run of
      whitespace becomes one hyphen (`replace(/\s+/g, "-")`). */
  function CreationTarget(capability: string): string {
    CollapseSpaces(capability, "-") + "-handler"
  }

  function OptimizeSuggestion(s: SlowSkill): Suggestion {
    Suggestion(Optimization, s.name, Medium, AverageTime(s.avgTime), "25% faster")
  }

  function FixSuggestion(f: FailingSkill): Suggestion {
    Suggestion(Fix, f.name, High, ErrorsDetected(f.successRate, f.errors), "Improved reliability")
  }

  function CreationSuggestion(c: MissingCapability): Suggestion {
    Suggestion(Creation, CreationTarget(c.capability), High, RequestedTimes(c.frequency), "New capability")
  }

  /** Frequent skills needed before a composite is proposed. */
  const CompositeFrom: nat := 3

  function CompositionSuggestion(fs: seq<FrequentSkill>): Suggestion
    requires |fs| >= CompositeFrom
  {
    Suggestion(Composition, "frequent-workflow-composite", Low,
               FrequentCombination([fs[0].name, fs[1].name, fs[2].name]), "Streamlined workflow")
  }

  /** The suggestions for a set of patterns, group by group. */
  function SuggestionsFor(p: Patterns): seq<Suggestion> {
    seq(|p.slow|, k requires 0 <= k < |p.slow| => OptimizeSuggestion(p.slow[k]))
    + seq(|p.failing|, k requires 0 <= k < |p.failing| => FixSuggestion(p.failing[k]))
    + seq(|p.missing|, k requires 0 <= k < |p.missing| => CreationSuggestion(p.missing[k]))
    + (if |p.frequent| >= CompositeFrom then [CompositionSuggestion(p.frequent)] else [])
  }

  /** The source's four passes, one loop per group. */
  method GenerateSuggestions(p: Patterns) returns (out: seq<Suggestion>)
    ensures out == SuggestionsFor(p)
  {
    out := [];
    var i := 0;
    while i < |p.slow|
      invariant 0 <= i <= |p.slow|
      invariant out == seq(i, k requires 0 <= k < i => OptimizeSuggestion(p.slow[k]))
    {
      out := out + [OptimizeSuggestion(p.slow[i])];
      i := i + 1;
    }
    var a := out;
    i := 0;
    while i < |p.failing|
      invariant 0 <= i <= |p.failing|
      invariant out == a + seq(i, k requires 0 <= k < i => FixSuggestion(p.failing[k]))
    {
      out := out + [FixSuggestion(p.failing[i])];
      i := i + 1;
    }
    var b := out;
    i := 0;
    while i < |p.missing|
      invariant 0 <= i <= |p.missing|
      invariant out == b + seq(i, k requires 0 <= k < i => CreationSuggestion(p.missing[k]))
    {
      out := out + [CreationSuggestion(p.missing[i])];
      i := i + 1;
    }
    if |p.frequent| >= CompositeFrom {
      out := out + [CompositionSuggestion(p.frequent)];
    }
  }

  /** Position of a kind in the output: the groups never interleave. */
  function Rank(k: Kind): nat {
    match k
    case Optimization => 0
    case Fix => 1
    case Creation => 2
    case Composition => 3
  }

  /** The priority that comes with each kind. */
  function PriorityOf(k: Kind): Priority {
    match k
    case Optimization => Medium
    case Fix => High
    case Creation => High
    case Composition => Low
  }

  predicate Grouped(s: seq<Suggestion>) {
    forall i, j :: 0 <= i < j < |s| ==> Rank(s[i].kind) <= Rank(s[j].kind)
  }

  /** One suggestion per slow skill, failing skill and missing capability,
      each made from it at its place, plus one composite exactly when at
      least three skills are frequent; grouped by kind, each with its kind's
      priority, the composite last. */
  lemma SuggestionsShape(p: Patterns)
    ensures var s := SuggestionsFor(p);
      && |s| == |p.slow| + |p.failing| + |p.missing| + (if |p.frequent| >= CompositeFrom then 1 else 0)
      && (forall k :: 0 <= k < |p.slow| ==> s[k] == OptimizeSuggestion(p.slow[k]))
      && (forall k :: 0 <= k < |p.failing| ==> s[|p.slow| + k] == FixSuggestion(p.failing[k]))
      && (forall k :: 0 <= k < |p.missing| ==>
            s[|p.slow| + |p.failing| + k] == CreationSuggestion(p.missing[k]))
      && (|p.frequent| >= CompositeFrom ==> s[|s| - 1] == CompositionSuggestion(p.frequent))
      && (|p.frequent| >= CompositeFrom <==> s != [] && s[|s| - 1].kind == Composition)
      && Grouped(s)
      && (forall i :: 0 <= i < |s| ==> s[i].priority == PriorityOf(s[i].kind))
      && (forall i :: 0 <= i < |s| && s[i].kind == Composition ==> i == |s| - 1)
  {
    SuggestionsBlocks(p);
    SuggestionsOrder(p);
  }

  /** Where each suggestion comes from: the slow, failing and missing
      blocks in turn, then the composite when there is one. */
  lemma SuggestionsBlocks(p: Patterns)
    ensures var s := SuggestionsFor(p);
      && |s| == |p.slow| + |p.failing| + |p.missing| + (if |p.frequent| >= CompositeFrom then 1 else 0)
      && (forall k :: 0 <= k < |p.slow| ==> s[k] == OptimizeSuggestion(p.slow[k]))
      && (forall k :: 0 <= k < |p.failing| ==> s[|p.slow| + k] == FixSuggestion(p.failing[k]))
      && (forall k :: 0 <= k < |p.missing| ==>
            s[|p.slow| + |p.failing| + k] == CreationSuggestion(p.missing[k]))
      && (|p.frequent| >= CompositeFrom ==> s[|s| - 1] == CompositionSuggestion(p.frequent))
      && (|p.frequent| >= CompositeFrom <==> s != [] && s[|s| - 1].kind == Composition)
  {
    var s := SuggestionsFor(p);
    var (a, b, c, d) := Blocks(p);
    assert s == a + b + c + d;
    BlockIndex(a, b, c, d);
    SuggestionsLast(p);
  }

  /** The positions of four concatenated blocks. */
  lemma BlockIndex(a: seq<Suggestion>, b: seq<Suggestion>, c: seq<Suggestion>, d: seq<Suggestion>)
    ensures forall k :: 0 <= k < |a| ==> (a + b + c + d)[k] == a[k]
    ensures forall k :: 0 <= k < |b| ==> (a + b + c + d)[|a| + k] == b[k]
    ensures forall k :: 0 <= k < |c| ==> (a + b + c + d)[|a| + |b| + k] == c[k]
  {
  }

  /** The four groups of `SuggestionsFor`. */
  function Blocks(p: Patterns): (seq<Suggestion>, seq<Suggestion>, seq<Suggestion>, seq<Suggestion>) {
    (seq(|p.slow|, k requires 0 <= k < |p.slow| => OptimizeSuggestion(p.slow[k])),
     seq(|p.failing|, k requires 0 <= k < |p.failing| => FixSuggestion(p.failing[k])),
     seq(|p.missing|, k requires 0 <= k < |p.missing| => CreationSuggestion(p.missing[k])),
     if |p.frequent| >= CompositeFrom then [CompositionSuggestion(p.frequent)] else [])
  }

  /** The last suggestion is the composite exactly when one is proposed. */
  lemma SuggestionsLast(p: Patterns)
    ensures var s := SuggestionsFor(p);
      && (|p.frequent| >= CompositeFrom ==> s != [] && s[|s| - 1] == CompositionSuggestion(p.frequent))
      && (|p.frequent| >= CompositeFrom <==> s != [] && s[|s| - 1].kind == Composition)
  {
    var s := SuggestionsFor(p);
    var (a, b, c, d) := Blocks(p);
    assert s == a + b + c + d;
    if |p.frequent| >= CompositeFrom {
      assert s[|s| - 1] == d[0];
    } else if s != [] {
      var last := |s| - 1;
      assert d == [];
      if last < |a| {
        assert s[last] == a[last];
      } else if last < |a| + |b| {
        assert s[last] == b[last - |a|];
      } else {
        assert s[last] == c[last - |a| - |b|];
      }
    }
  }

  /** The kinds come in rank order, each with its priority. */
  lemma SuggestionsOrder(p: Patterns)
    ensures var s := SuggestionsFor(p);
      && Grouped(s)
      && (forall i :: 0 <= i < |s| ==> s[i].priority == PriorityOf(s[i].kind))
      && (forall i :: 0 <= i < |s| && s[i].kind == Composition ==> i == |s| - 1)
  {
    var s := SuggestionsFor(p);
    var a := seq(|p.slow|, k requires 0 <= k < |p.slow| => OptimizeSuggestion(p.slow[k]));
    var b := seq(|p.failing|, k requires 0 <= k < |p.failing| => FixSuggestion(p.failing[k]));
    var c := seq(|p.missing|, k requires 0 <= k < |p.missing| => CreationSuggestion(p.missing[k]));
    var d := if |p.frequent| >= CompositeFrom then [CompositionSuggestion(p.frequent)] else [];
    assert s == a + b + c + d;
    forall i | 0 <= i < |s|
      ensures Rank(s[i].kind) == GroupOf(i, |a|, |b|, |c|)
      ensures s[i].priority == PriorityOf(s[i].kind)
    {
      if i < |a| {
        assert s[i] == a[i];
      } else if i < |a| + |b| {
        assert s[i] == b[i - |a|];
      } else if i < |a| + |b| + |c| {
        assert s[i] == c[i - |a| - |b|];
      } else {
        assert s[i] == d[0];
      }
    }
  }

  /** The group an output position falls in, given the sizes of the first
      three groups. */
  function GroupOf(i: nat, a: nat, b: nat, c: nat): nat {
    if i < a then 0 else if i < a + b then 1 else if i < a + b + c then 2 else 3
  }

  /** A proposed skill name holds no whitespace and ends in "-handler". */
  lemma CreationTargetShape(capability: string)
    ensures NoSpace(CreationTarget(capability))
    ensures var t := CreationTarget(capability); |t| >= 8 && t[|t| - 8..] == "-handler"
  {
    CollapseRemovesSpaces(capability, "-");
    var c := CollapseSpaces(capability, "-");
    HandlerHasNoSpace();
    NoSpaceConcat(c, "-handler");
    assert (c + "-handler")[|c|..] == "-handler";
  }

  lemma HandlerHasNoSpace()
    ensures NoSpace("-handler")
  {
    var h := "-handler";
    assert h[0] == '-' && h[1] == 'h' && h[2] == 'a' && h[3] == 'n';
    assert h[4] == 'd' && h[5] == 'l' && h[6] == 'e' && h[7] == 'r';
  }

  /** A filter given as the empty string is no filter (JavaScript
      truthiness). */
  predicate Given(f: Option<string>) { f.Some? && f.value != "" }

  predicate Matches(s: Suggestion, priority: Option<string>, kind: Option<string>) {
    && (Given(priority) ==> PriorityName(s.priority) == priority.value)
    && (Given(kind) ==> KindName(s.kind) == kind.value)
  }

  /** The `priority` and `type` filters of `generate_improvements`. */
  function FilterSuggestions(s: seq<Suggestion>, priority: Option<string>, kind: Option<string>): seq<Suggestion>
    decreases |s|
  {
    if s == [] then []
    else
      FilterSuggestions(s[..|s| - 1], priority, kind)
      + if Matches(s[|s| - 1], priority, kind) then [s[|s| - 1]] else []
  }

  /** Filtering keeps exactly the matching suggestions, in their order, so
      the grouping survives and no filter keeps everything. */
  lemma FilterMeaning(s: seq<Suggestion>, priority: Option<string>, kind: Option<string>)
    ensures var r := FilterSuggestions(s, priority, kind);
      && (forall x :: x in r <==> x in s && Matches(x, priority, kind))
      && |r| <= |s|
      && (Grouped(s) ==> Grouped(r))
      && (!Given(priority) && !Given(kind) ==> r == s)
  {
    FilterKeeps(s, priority, kind);
    if Grouped(s) {
      FilterGrouped(s, priority, kind);
    }
  }

  /** Filtering goes suggestion by suggestion: the filter of a
      concatenation is the concatenation of the filters, and a single
      suggestion is kept exactly when it matches. So the result is the
      matching suggestions in their order, each as often as in the input. */
  lemma FilterOrder(a: seq<Suggestion>, b: seq<Suggestion>, priority: Option<string>, kind: Option<string>)
    ensures FilterSuggestions(a + b, priority, kind) == FilterSuggestions(a, priority, kind) + FilterSuggestions(b, priority, kind)
    ensures forall x :: FilterSuggestions([x], priority, kind) == if Matches(x, priority, kind) then [x] else []
  {
    FilterAppend(a, b, priority, kind);
    forall x ensures FilterSuggestions([x], priority, kind) == if Matches(x, priority, kind) then [x] else [] {
      FilterSingle(x, priority, kind);
    }
  }

  lemma FilterSingle(x: Suggestion, priority: Option<string>, kind: Option<string>)
    ensures FilterSuggestions([x], priority, kind) == if Matches(x, priority, kind) then [x] else []
  {
    assert [x][..0] == [];
  }

  lemma {:induction false} FilterAppend(a: seq<Suggestion>, b: seq<Suggestion>, priority: Option<string>, kind: Option<string>)
    ensures FilterSuggestions(a + b, priority, kind) == FilterSuggestions(a, priority, kind) + FilterSuggestions(b, priority, kind)
    decreases |b|
  {
    if b == [] {
      assert a + b == a;
    } else {
      var init, last := b[..|b| - 1], b[|b| - 1];
      var t := if Matches(last, priority, kind) then [last] else [];
      FilterAppend(a, init, priority, kind);
      assert (a + b)[..|a + b| - 1] == a + init;
      assert (a + b)[|a + b| - 1] == last;
      assert FilterSuggestions(a + b, priority, kind) == FilterSuggestions(a + init, priority, kind) + t;
      assert FilterSuggestions(b, priority, kind) == FilterSuggestions(init, priority, kind) + t;
      SuggestionsAssociate(FilterSuggestions(a, priority, kind), FilterSuggestions(init, priority, kind), t);
    }
  }

  lemma SuggestionsAssociate(x: seq<Suggestion>, y: seq<Suggestion>, z: seq<Suggestion>)
    ensures (x + y) + z == x + (y + z)
  {
  }

  lemma {:induction false} FilterKeeps(s: seq<Suggestion>, priority: Option<string>, kind: Option<string>)
    ensures var r := FilterSuggestions(s, priority, kind);
      && (forall x :: x in r <==> x in s && Matches(x, priority, kind))
      && |r| <= |s|
      && (!Given(priority) && !Given(kind) ==> r == s)
    decreases |s|
  {
    if s != [] {
      var init := s[..|s| - 1];
      FilterKeeps(init, priority, kind);
      assert s == init + [s[|s| - 1]];
    }
  }

  lemma {:induction false} FilterGrouped(s: seq<Suggestion>, priority: Option<string>, kind: Option<string>)
    requires Grouped(s)
    ensures Grouped(FilterSuggestions(s, priority, kind))
    decreases |s|
  {
    if s != [] {
      var init, last := s[..|s| - 1], s[|s| - 1];
      assert Grouped(init);
      FilterGrouped(init, priority, kind);
      var g := FilterSuggestions(init, priority, kind);
      if Matches(last, priority, kind) {
        FilterWithin(init, priority, kind);
        forall i | 0 <= i < |g| ensures Rank(g[i].kind) <= Rank(last.kind) {
          assert g[i] in g;
          var k :| 0 <= k < |init| && init[k] == g[i];
          assert s[k] == g[i];
        }
        GroupedSnoc(g, last);
      }
    }
  }

  /** Every kept suggestion is one of the input's. */
  lemma {:induction false} FilterWithin(s: seq<Suggestion>, priority: Option<string>, kind: Option<string>)
    ensures forall x :: x in FilterSuggestions(s, priority, kind) ==> x in s
    decreases |s|
  {
    if s != [] {
      var init := s[..|s| - 1];
      FilterWithin(init, priority, kind);
      assert forall x :: x in init ==> x in s;
    }
  }

  lemma GroupedSnoc(g: seq<Suggestion>, x: Suggestion)
    requires Grouped(g)
    requires forall i :: 0 <= i < |g| ==> Rank(g[i].kind) <= Rank(x.kind)
    ensures Grouped(g + [x])
  {
    var r := g + [x];
    forall i, j | 0 <= i < j < |r| ensures Rank(r[i].kind) <= Rank(r[j].kind) {
      assert r[i] == g[i];
      if j < |g| {
        assert r[j] == g[j];
      }
    }
  }
}
