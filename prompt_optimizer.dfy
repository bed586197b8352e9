/** `optimizePrompt`: a line-by-line normaliser that drops leading blank
    lines, copies code-fenced regions unchanged, collapses white-space runs
    in the other lines, keeps at most one empty line in a row and strips
    trailing empty lines. */
module PromptOptimizer {
  import opened Wrappers
  import opened Text
  import opened Rounding

  const Fence: string := "```"

  /** A line holding a fence opens or closes a code region. */
  predicate IsFence(line: string) {
    Contains(line, Fence)
  }

  /** The loop state: lines emitted so far and whether a code region is
      open. */
  datatype Scan = Scan(out: seq<string>, inCode: bool)

  /** One iteration of the source's loop. */
  function Step(st: Scan, line: string): Scan {
    if st.out == [] && IsBlank(line) then st
    else if IsFence(line) then Scan(st.out + [line], !st.inCode)
    else if st.inCode then Scan(st.out + [line], true)
    else if !IsBlank(line) then Scan(st.out + [CollapseSpaces(line, " ")], false)
    else if st.out[|st.out| - 1] != "" then Scan(st.out + [""], false)
    else st
  }

  function ScanFrom(st: Scan, lines: seq<string>): Scan
    decreases |lines|
  {
    if lines == [] then st else ScanFrom(Step(st, lines[0]), lines[1..])
  }

  /** The pop loop: trailing empty lines removed. */
  function StripTrailing(out: seq<string>): seq<string>
    decreases |out|
  {
    if out != [] && out[|out| - 1] == "" then StripTrailing(out[..|out| - 1]) else out
  }

  /** The optimized lines of a prompt text. */
  function OptimizedLines(text: string): seq<string> {
    StripTrailing(ScanFrom(Scan([], false), Split(text, "\n")).out)
  }

  // ---------------------------------------------------------------------
  // A reference reading of a list of lines: which lines are code (fences
  // and the lines between an opening and a closing fence) and which are
  // text; blank text lines are layout and carry no part.

  datatype Part = Code(line: string) | Text(line: string) | Gap

  function Parts(lines: seq<string>, inCode: bool): seq<Part>
    decreases |lines|
  {
    if lines == [] then []
    else
      var l := lines[0];
      if IsFence(l) then [Code(l)] + Parts(lines[1..], !inCode)
      else if inCode then [Code(l)] + Parts(lines[1..], true)
      else if IsBlank(l) then Parts(lines[1..], false)
      else [Text(l)] + Parts(lines[1..], false)
  }

  /** Whether a code region is open after the lines. */
  function OpenAfter(lines: seq<string>, inCode: bool): bool
    decreases |lines|
  {
    if lines == [] then inCode else OpenAfter(lines[1..], if IsFence(lines[0]) then !inCode else inCode)
  }

  /** The parts the optimizer should produce: code kept, text collapsed. */
  function Normalized(ps: seq<Part>): seq<Part>
    decreases |ps|
  {
    if ps == [] then []
    else
      (match ps[0]
       case Code(l) => [Code(l)]
       case Text(l) => [Text(CollapseSpaces(l, " "))]
       case Gap => [Gap])
      + Normalized(ps[1..])
  }

  lemma {:induction false} PartsAppend(a: seq<string>, b: seq<string>, inCode: bool)
    ensures Parts(a + b, inCode) == Parts(a, inCode) + Parts(b, OpenAfter(a, inCode))
    ensures OpenAfter(a + b, inCode) == OpenAfter(b, OpenAfter(a, inCode))
    decreases |a|
  {
    if a != [] {
      assert (a + b)[0] == a[0] && (a + b)[1..] == a[1..] + b;
      PartsAppend(a[1..], b, if IsFence(a[0]) then !inCode else inCode);
    } else {
      assert a + b == b;
    }
  }

  lemma {:induction false} NormalizedAppend(a: seq<Part>, b: seq<Part>)
    ensures Normalized(a + b) == Normalized(a) + Normalized(b)
    decreases |a|
  {
    if a != [] {
      assert (a + b)[0] == a[0] && (a + b)[1..] == a[1..] + b;
      NormalizedAppend(a[1..], b);
    } else {
      assert a + b == b;
    }
  }

  lemma FenceHasNoSpace()
    ensures NoSpace(Fence) && Fence != []
  {
  }

  /** A collapsed text line is neither blank nor a fence. */
  lemma CollapsedTextLine(l: string)
    requires !IsBlank(l) && !IsFence(l)
    ensures !IsBlank(CollapseSpaces(l, " ")) && !IsFence(CollapseSpaces(l, " "))
  {
    CollapseNonBlank(l);
    FenceHasNoSpace();
    CollapseNoNewOccurrence(l, Fence);
  }

  lemma EmptyIsBlankText()
    ensures IsBlank("") && !IsFence("")
  {
    EmptyContainsNothing(Fence);
  }

  /** What the scan keeps true: the emitted lines read as the normalised
      reading of the consumed lines, the code flag is the region state of
      the emitted lines, the first emitted line is not blank, and no text
      empty line follows an empty line. */
  predicate ScanInvariant(st: Scan) {
    && OpenAfter(st.out, false) == st.inCode
    && (st.out == [] ==> !st.inCode)
    && (st.out != [] ==> !IsBlank(st.out[0]))
    && NoDoubleEmpty(st.out)
  }

  /** An empty line outside code never directly follows an empty line. */
  predicate NoDoubleEmpty(out: seq<string>) {
    forall i :: 0 < i < |out| && out[i] == "" && !OpenAfter(out[..i], false) ==> out[i - 1] != ""
  }

  lemma OpenAfterSnoc(a: seq<string>, l: string)
    ensures OpenAfter(a + [l], false) == if IsFence(l) then !OpenAfter(a, false) else OpenAfter(a, false)
  {
    PartsAppend(a, [l], false);
  }

  lemma NoDoubleEmptySnoc(a: seq<string>, l: string)
    requires NoDoubleEmpty(a)
    requires l == "" && !OpenAfter(a, false) ==> a != [] && a[|a| - 1] != ""
    ensures NoDoubleEmpty(a + [l])
  {
    var b := a + [l];
    forall i | 0 < i < |b| && b[i] == "" && !OpenAfter(b[..i], false) ensures b[i - 1] != "" {
      if i < |a| {
        assert b[..i] == a[..i];
      } else {
        assert b[..i] == a;
      }
    }
  }

  lemma BlankIsNotFence(l: string)
    requires IsBlank(l)
    ensures !IsFence(l)
  {
    forall i | 0 <= i <= |l| - |Fence| ensures !OccursAt(l, Fence, i) {
      assert IsSpace(l[i]);
      assert l[i..i + |Fence|][0] == l[i];
    }
  }

  /** Outside code, a run of blank lines after a non-empty line leaves
      exactly one empty line. */
  lemma BlankRunKeepsOne(st: Scan, blanks: seq<string>)
    requires !st.inCode && st.out != [] && st.out[|st.out| - 1] != ""
    requires blanks != [] && forall k :: 0 <= k < |blanks| ==> IsBlank(blanks[k])
    ensures ScanFrom(st, blanks) == Scan(st.out + [""], false)
  {
    BlankIsNotFence(blanks[0]);
    var st1 := Step(st, blanks[0]);
    assert st1 == Scan(st.out + [""], false);
    BlanksAfterEmpty(st1, blanks[1..]);
  }

  /** Outside code, blank lines after an empty line add nothing. */
  lemma {:induction false} BlanksAfterEmpty(st: Scan, blanks: seq<string>)
    requires !st.inCode && st.out != [] && st.out[|st.out| - 1] == ""
    requires forall k :: 0 <= k < |blanks| ==> IsBlank(blanks[k])
    ensures ScanFrom(st, blanks) == st
    decreases |blanks|
  {
    if blanks != [] {
      BlankIsNotFence(blanks[0]);
      assert Step(st, blanks[0]) == st;
      BlanksAfterEmpty(st, blanks[1..]);
    }
  }

  /** One step keeps the invariant and extends the reading by the
      normalised reading of the consumed line. */
  lemma StepSimulates(st: Scan, l: string)
    requires ScanInvariant(st)
    ensures ScanInvariant(Step(st, l))
    ensures Parts(Step(st, l).out, false) == Parts(st.out, false) + Normalized(Parts([l], st.inCode))
    ensures Step(st, l).inCode == OpenAfter([l], st.inCode)
  {
    var st' := Step(st, l);
    PartsAppend(st.out, [l], false);
    OpenAfterSnoc(st.out, l);
    EmptyIsBlankText();
    assert Parts([l][1..], true) == [] && Parts([l][1..], false) == [];
    if st.out == [] && IsBlank(l) {
      BlankIsNotFence(l);
      assert Parts([l], st.inCode) == [];
    } else if IsFence(l) {
      NoDoubleEmptySnoc(st.out, l);
      assert Normalized([Code(l)]) == [Code(l)];
    } else if st.inCode {
      NoDoubleEmptySnoc(st.out, l);
      assert Normalized([Code(l)]) == [Code(l)];
    } else if !IsBlank(l) {
      var c := CollapseSpaces(l, " ");
      CollapsedTextLine(l);
      assert c != "";
      NoDoubleEmptySnoc(st.out, c);
      PartsAppend(st.out, [c], false);
      OpenAfterSnoc(st.out, c);
      assert Parts([c], false) == [Text(c)];
      assert Normalized([Text(l)]) == [Text(c)];
    } else if st.out[|st.out| - 1] != "" {
      NoDoubleEmptySnoc(st.out, "");
      PartsAppend(st.out, [""], false);
      OpenAfterSnoc(st.out, "");
      assert Parts([""], false) == [];
    }
  }

  lemma {:induction false} ScanSimulates(st: Scan, lines: seq<string>)
    requires ScanInvariant(st)
    ensures ScanInvariant(ScanFrom(st, lines))
    ensures Parts(ScanFrom(st, lines).out, false) == Parts(st.out, false) + Normalized(Parts(lines, st.inCode))
    ensures ScanFrom(st, lines).inCode == OpenAfter(lines, st.inCode)
    decreases |lines|
  {
    if lines != [] {
      var l, rest := lines[0], lines[1..];
      var st1 := Step(st, l);
      StepSimulates(st, l);
      ScanSimulates(st1, rest);
      assert ScanFrom(st, lines) == ScanFrom(st1, rest);
      assert lines == [l] + rest;
      PartsAppend([l], rest, st.inCode);
      var final := ScanFrom(st1, rest);
      ChainReadings(Parts(st.out, false), Parts(st1.out, false), Parts(final.out, false),
                    Parts([l], st.inCode), Parts(rest, st1.inCode));
    }
  }

  /** Two readings extended one after the other extend the first by the
      normalised reading of both parts. */
  lemma ChainReadings(x: seq<Part>, y: seq<Part>, z: seq<Part>, h: seq<Part>, t: seq<Part>)
    requires y == x + Normalized(h) && z == y + Normalized(t)
    ensures z == x + Normalized(h + t)
  {
    NormalizedAppend(h, t);
    AppendAssociates(x, Normalized(h), Normalized(t));
  }

  lemma AppendAssociates<T>(a: seq<T>, b: seq<T>, c: seq<T>)
    ensures (a + b) + c == a + (b + c)
  {
  }

  /** Stripping trailing empty lines drops only parts that are empty code
      lines, and none when every code region is closed. */
  lemma {:induction false} StripSimulates(out: seq<string>)
    requires NoDoubleEmpty(out)
    ensures var s := StripTrailing(out);
      && s <= out
      && NoDoubleEmpty(s)
      && (s != [] ==> s[|s| - 1] != "")
      && (forall k :: |s| <= k < |out| ==> out[k] == "")
      && Parts(s, false) <= Parts(out, false)
      && (forall j :: |Parts(s, false)| <= j < |Parts(out, false)| ==> Parts(out, false)[j] == Code(""))
      && (!OpenAfter(out, false) ==> Parts(s, false) == Parts(out, false))
    decreases |out|
  {
    if out != [] && out[|out| - 1] == "" {
      var init := out[..|out| - 1];
      NoDoubleEmptyInit(out);
      StripSimulates(init);
      assert out == init + [""];
      EmptyLineParts(init);
    }
  }

  lemma NoDoubleEmptyInit(out: seq<string>)
    requires out != [] && NoDoubleEmpty(out)
    ensures NoDoubleEmpty(out[..|out| - 1])
  {
    var init := out[..|out| - 1];
    forall i | 0 < i < |init| && init[i] == "" && !OpenAfter(init[..i], false) ensures init[i - 1] != "" {
      assert init[..i] == out[..i];
    }
  }

  /** An empty line adds an empty code part inside a code region and
      nothing outside one. */
  lemma EmptyLineParts(a: seq<string>)
    ensures Parts(a + [""], false) == Parts(a, false) + (if OpenAfter(a, false) then [Code("")] else [])
    ensures OpenAfter(a + [""], false) == OpenAfter(a, false)
  {
    PartsAppend(a, [""], false);
    EmptyIsBlankText();
    assert Parts([""][1..], true) == [];
    assert Parts([""][1..], false) == [];
  }

  /** The optimized lines, read as code and text, are exactly the
      normalised reading of the input lines, except that empty lines at the
      end of a code region left open may be gone. */
  lemma OptimizedMeaning(text: string)
    ensures var out := OptimizedLines(text);
      var want := Normalized(Parts(Split(text, "\n"), false));
      && (out != [] ==> !IsBlank(out[0]) && out[|out| - 1] != "")
      && NoDoubleEmpty(out)
      && Parts(out, false) <= want
      && (forall j :: |Parts(out, false)| <= j < |want| ==> want[j] == Code(""))
      && (!OpenAfter(Split(text, "\n"), false) ==> Parts(out, false) == want)
  {
    var lines := Split(text, "\n");
    var full := ScanFrom(Scan([], false), lines);
    ScanSimulates(Scan([], false), lines);
    assert Parts([], false) == [];
    StripSimulates(full.out);
    var out := StripTrailing(full.out);
    assert Parts(full.out, false) == Normalized(Parts(lines, false));
    if out != [] {
      assert out[0] == full.out[0];
    }
  }

  // ---------------------------------------------------------------------
  // A second reference reading that keeps the layout: every line is one
  // part, a blank line outside code being a gap. The spacing policy then
  // drops the gaps before the first line and every gap after a gap.

  function Layout(lines: seq<string>, inCode: bool): seq<Part>
    decreases |lines|
  {
    if lines == [] then []
    else
      var l := lines[0];
      var p := if IsFence(l) || inCode then Code(l) else if IsBlank(l) then Gap else Text(l);
      [p] + Layout(lines[1..], if IsFence(l) then !inCode else inCode)
  }

  /** The spacing policy: `afterGap` holds at the start and after a gap. */
  function Squeeze(ps: seq<Part>, afterGap: bool): seq<Part>
    decreases |ps|
  {
    if ps == [] then []
    else if ps[0].Gap? then (if afterGap then [] else [Gap]) + Squeeze(ps[1..], true)
    else [ps[0]] + Squeeze(ps[1..], false)
  }

  function FreshAfter(ps: seq<Part>, afterGap: bool): bool {
    if ps == [] then afterGap else ps[|ps| - 1].Gap?
  }

  /** The line a part stands for; a gap is an empty line. */
  function LineOf(p: Part): string {
    if p.Gap? then "" else p.line
  }

  function LinesOf(ps: seq<Part>): seq<string>
    decreases |ps|
  {
    if ps == [] then [] else [LineOf(ps[0])] + LinesOf(ps[1..])
  }

  /** The text the optimizer should produce, line by line. */
  function Tidied(lines: seq<string>): seq<string> {
    StripTrailing(LinesOf(Squeeze(Normalized(Layout(lines, false)), true)))
  }

  lemma {:induction false} LayoutAppend(a: seq<string>, b: seq<string>, inCode: bool)
    ensures Layout(a + b, inCode) == Layout(a, inCode) + Layout(b, OpenAfter(a, inCode))
    decreases |a|
  {
    if a != [] {
      assert (a + b)[0] == a[0] && (a + b)[1..] == a[1..] + b;
      LayoutAppend(a[1..], b, if IsFence(a[0]) then !inCode else inCode);
    } else {
      assert a + b == b;
    }
  }

  lemma {:induction false} SqueezeAppend(a: seq<Part>, b: seq<Part>, afterGap: bool)
    ensures Squeeze(a + b, afterGap) == Squeeze(a, afterGap) + Squeeze(b, FreshAfter(a, afterGap))
    decreases |a|
  {
    if a != [] {
      var head := if a[0].Gap? then (if afterGap then [] else [Gap]) else [a[0]];
      TailOfAppend(a, b);
      assert Squeeze(a + b, afterGap) == head + Squeeze(a[1..] + b, a[0].Gap?);
      assert Squeeze(a, afterGap) == head + Squeeze(a[1..], a[0].Gap?);
      SqueezeAppend(a[1..], b, a[0].Gap?);
      FreshAfterTail(a, afterGap);
      AppendAssociates(head, Squeeze(a[1..], a[0].Gap?), Squeeze(b, FreshAfter(a, afterGap)));
    } else {
      assert a + b == b;
    }
  }

  lemma TailOfAppend<T>(a: seq<T>, b: seq<T>)
    requires a != []
    ensures (a + b)[0] == a[0] && (a + b)[1..] == a[1..] + b
  {
    assert forall k :: 0 <= k < |a| - 1 + |b| ==> (a + b)[1..][k] == (a[1..] + b)[k];
  }

  lemma FreshAfterTail(a: seq<Part>, afterGap: bool)
    requires a != []
    ensures FreshAfter(a[1..], a[0].Gap?) == FreshAfter(a, afterGap)
  {
    if |a| > 1 {
      assert a[1..][|a| - 2] == a[|a| - 1];
    }
  }

  lemma {:induction false} LinesOfAppend(a: seq<Part>, b: seq<Part>)
    ensures LinesOf(a + b) == LinesOf(a) + LinesOf(b)
    decreases |a|
  {
    if a != [] {
      assert (a + b)[0] == a[0] && (a + b)[1..] == a[1..] + b;
      LinesOfAppend(a[1..], b);
    } else {
      assert a + b == b;
    }
  }

  /** The scan state is afterGap at the start and after an emitted gap. */
  predicate Fresh(st: Scan) {
    st.out == [] || (!st.inCode && st.out[|st.out| - 1] == "")
  }

  /** One step emits the laid-out reading of its line under the spacing
      policy. */
  lemma StepLaysOut(st: Scan, l: string)
    requires ScanInvariant(st)
    ensures var ps := Normalized(Layout([l], st.inCode));
      && Step(st, l).out == st.out + LinesOf(Squeeze(ps, Fresh(st)))
      && Fresh(Step(st, l)) == FreshAfter(ps, Fresh(st))
  {
    assert Layout([l][1..], !st.inCode) == [] && Layout([l][1..], st.inCode) == [];
    if IsFence(l) || st.inCode {
      if IsBlank(l) {
        BlankIsNotFence(l);
      }
      FenceHasNoSpace();
      EmptyContainsNothing(Fence);
      assert Normalized([Code(l)]) == [Code(l)];
      assert Squeeze([Code(l)], Fresh(st)) == [Code(l)];
      assert LinesOf([Code(l)]) == [l];
    } else if IsBlank(l) {
      assert Normalized([Gap]) == [Gap];
      assert Squeeze([Gap], true) == [] && Squeeze([Gap], false) == [Gap];
      assert LinesOf([Gap]) == [""];
    } else {
      var c := CollapseSpaces(l, " ");
      CollapsedTextLine(l);
      EmptyIsBlankText();
      assert Normalized([Text(l)]) == [Text(c)];
      assert Squeeze([Text(c)], Fresh(st)) == [Text(c)];
      assert LinesOf([Text(c)]) == [c];
    }
  }

  lemma {:induction false} ScanLaysOut(st: Scan, lines: seq<string>)
    requires ScanInvariant(st)
    ensures ScanFrom(st, lines).out == st.out + LinesOf(Squeeze(Normalized(Layout(lines, st.inCode)), Fresh(st)))
    decreases |lines|
  {
    if lines != [] {
      var l, rest := lines[0], lines[1..];
      var st1 := Step(st, l);
      StepSimulates(st, l);
      StepLaysOut(st, l);
      ScanLaysOut(st1, rest);
      assert ScanFrom(st, lines) == ScanFrom(st1, rest);
      assert lines == [l] + rest;
      LayoutAppend([l], rest, st.inCode);
      ChainLayouts(st.out, st1.out, ScanFrom(st1, rest).out, Layout([l], st.inCode), Layout(rest, st1.inCode),
                   Fresh(st), Fresh(st1));
    }
  }

  /** Two laid-out extensions one after the other extend the first by the
      laid-out reading of both parts. */
  lemma ChainLayouts(x: seq<string>, y: seq<string>, z: seq<string>, h: seq<Part>, t: seq<Part>, f: bool, g: bool)
    requires y == x + LinesOf(Squeeze(Normalized(h), f))
    requires g == FreshAfter(Normalized(h), f)
    requires z == y + LinesOf(Squeeze(Normalized(t), g))
    ensures z == x + LinesOf(Squeeze(Normalized(h + t), f))
  {
    var a, b := Normalized(h), Normalized(t);
    NormalizedAppend(h, t);
    SqueezeAppend(a, b, f);
    LinesOfAppend(Squeeze(a, f), Squeeze(b, g));
    AppendAssociates(x, LinesOf(Squeeze(a, f)), LinesOf(Squeeze(b, g)));
  }

  /** The optimizer's lines are exactly the tidied input: every line laid
      out as code, text or gap, code kept, text collapsed, no gap before
      the first line or after a gap, and no empty line at the end. In
      particular an empty line outside code stands for a run of blank
      input lines between two lines that are kept. */
  lemma OptimizedIsTidied(text: string)
    ensures OptimizedLines(text) == Tidied(Split(text, "\n"))
  {
    var lines := Split(text, "\n");
    var st := Scan([], false);
    assert ScanInvariant(st) && Fresh(st);
    ScanLaysOut(st, lines);
    var want := LinesOf(Squeeze(Normalized(Layout(lines, false)), true));
    assert ScanFrom(st, lines).out == [] + want == want;
  }

  // ---------------------------------------------------------------------
  // The reported figures.

  /** The `reduction` percentage; JavaScript computes NaN for an empty
      prompt, which is `None` here. */
  function Reduction(original: nat, optimized: nat): Option<int> {
    if original == 0 then None else Some(RoundRatio(100 * (original - optimized), original))
  }

  function Improvements(text: string, reduction: Option<int>): seq<string> {
    (if reduction.Some? && reduction.value > 0 then ["Reduced length by " + IntToString(reduction.value) + "%"] else [])
    + (if Contains(text, "##") then ["Clear section headers"] else [])
    + (if Contains(text, "Example") then ["Includes examples"] else [])
  }

  function IntToString(n: int): string {
    if n < 0 then "-" + NatToString(-n) else NatToString(n)
  }

  datatype Optimization = Optimization(
    optimized: string,
    improvements: seq<string>,
    originalLength: nat,
    optimizedLength: nat,
    lineCount: nat,
    reduction: Option<int>)

  /** `optimizePrompt` as the source runs it: the scan loop, then the pop
      loop, then the figures. */
  method OptimizePrompt(text: string) returns (r: Optimization)
    ensures var out := OptimizedLines(text);
      && r.optimized == Join(out, "\n")
      && r.lineCount == |out|
      && r.originalLength == |text|
      && r.optimizedLength == |r.optimized|
      && r.reduction == Reduction(|text|, |r.optimized|)
      && r.improvements == Improvements(text, r.reduction)
  {
    var lines := Split(text, "\n");
    var optimized: seq<string> := [];
    var inCode := false;
    var i := 0;
    while i < |lines|
      invariant 0 <= i <= |lines|
      invariant ScanFrom(Scan(optimized, inCode), lines[i..]) == ScanFrom(Scan([], false), lines)
    {
      var line := lines[i];
      assert lines[i..] == [line] + lines[i + 1..];
      if optimized == [] && IsBlank(line) {
      } else if IsFence(line) {
        inCode := !inCode;
        optimized := optimized + [line];
      } else if inCode {
        optimized := optimized + [line];
      } else if !IsBlank(line) {
        optimized := optimized + [CollapseSpaces(line, " ")];
      } else if optimized[|optimized| - 1] != "" {
        optimized := optimized + [""];
      }
      i := i + 1;
    }
    assert ScanFrom(Scan(optimized, inCode), lines[i..]) == Scan(optimized, inCode);
    while optimized != [] && optimized[|optimized| - 1] == ""
      invariant StripTrailing(optimized) == OptimizedLines(text)
      decreases |optimized|
    {
      optimized := optimized[..|optimized| - 1];
    }
    var joined := Join(optimized, "\n");
    var reduction := Reduction(|text|, |joined|);
    r := Optimization(joined, Improvements(text, reduction), |text|, |joined|, |optimized|, reduction);
  }
}
