/** `validatePrompt`'s seven structural checks and the verdict of the
    `prompt_validate` tool: strict mode, score and quality grade. */
module PromptValidation {
  import opened Wrappers
  import opened Text
  import opened PromptTemplates
  import opened Rounding

  /** ✅, ❌ and ⚠️. */
  datatype Status = Passed | Failed | Warned

  datatype Check = Check(name: string, status: Status, error: Option<string>)

  /** A section is present when the text holds its heading or its label. A
      missing required section fails; a missing optional one warns. */
  datatype Section = Section(name: string, heading: string, marker: string, required: bool, missing: string)

  const Sections: seq<Section> := [
    Section("Role definition", "## Role", "Role:", true, "Missing role"),
    Section("Task definition", "## Task", "Task:", true, "Missing task"),
    Section("Input specification", "## Input", "Input:", false, "Optional but recommended"),
    Section("Process steps", "## Process", "Process:", true, "Missing process"),
    Section("Output format", "## Output", "Output Format", false, "No output format specified"),
    Section("Constraints", "## Constraints", "Constraints:", false, "No constraints")
  ]

  const CheckCount: nat := 7
  const MinLines: nat := 10
  const MaxLines: nat := 200

  predicate Has(text: string, s: Section) {
    Contains(text, s.heading) || Contains(text, s.marker)
  }

  function SectionCheck(text: string, s: Section): Check {
    if Has(text, s) then Check(s.name, Passed, None)
    else Check(s.name, if s.required then Failed else Warned, Some(s.missing))
  }

  /** `text.split("\n").length`. */
  function LineCount(text: string): nat {
    |Split(text, "\n")|
  }

  /** The warning text as the source writes it: `lines < 10` picks "short",
      so a prompt of exactly ten lines, which fails for being too short, is
      called too long. */
  function LengthMessageAsWritten(lines: nat): string {
    "Too " + (if lines < MinLines then "short" else "long") + " (" + NatToString(lines) + " lines)"
  }

  /** The warning text with the boundary the pass rule uses. */
  function LengthMessage(lines: nat): string {
    "Too " + (if lines <= MinLines then "short" else "long") + " (" + NatToString(lines) + " lines)"
  }

  /** The length check as the source writes it, message included. */
  function LengthCheck(text: string): Check {
    var n := LineCount(text);
    if MinLines < n < MaxLines then Check("Length", Passed, None)
    else Check("Length", Warned, Some(LengthMessageAsWritten(n)))
  }

  /** The checks in the order the source appends them. */
  function ChecksFor(text: string): seq<Check> {
    seq(|Sections|, k requires 0 <= k < |Sections| => SectionCheck(text, Sections[k])) + [LengthCheck(text)]
  }

  /** `validatePrompt`, appending one check after another. */
  method ValidatePrompt(text: string) returns (checks: seq<Check>)
    ensures checks == ChecksFor(text)
  {
    checks := [];
    checks := checks + [SectionCheck(text, Sections[0])];
    checks := checks + [SectionCheck(text, Sections[1])];
    checks := checks + [SectionCheck(text, Sections[2])];
    checks := checks + [SectionCheck(text, Sections[3])];
    checks := checks + [SectionCheck(text, Sections[4])];
    checks := checks + [SectionCheck(text, Sections[5])];
    checks := checks + [LengthCheck(text)];
  }

  /** Seven checks with fixed names; only a missing Role, Task or Process
      fails, a missing Input, Output or Constraints warns, the length
      passes exactly strictly between 10 and 200 lines, and an error text
      comes with every check that does not pass. */
  lemma ChecksMeaning(text: string)
    ensures var c := ChecksFor(text);
      && |c| == CheckCount
      && c[0].name == "Role definition" && c[1].name == "Task definition"
      && c[2].name == "Input specification" && c[3].name == "Process steps"
      && c[4].name == "Output format" && c[5].name == "Constraints" && c[6].name == "Length"
      && (forall k :: 0 <= k < |Sections| ==> (c[k].status == Passed <==> Has(text, Sections[k])))
      && (forall k :: 0 <= k < |c| ==> (c[k].status == Failed <==> k in {0, 1, 3} && !Has(text, Sections[k])))
      && (c[6].status == Passed <==> MinLines < LineCount(text) < MaxLines)
      && (forall k :: 0 <= k < |c| ==> (c[k].error.None? <==> c[k].status == Passed))
  {
  }

  /** The failed checks, in order. */
  function Failures(checks: seq<Check>): seq<Check>
    decreases |checks|
  {
    if checks == [] then []
    else Failures(checks[..|checks| - 1]) + if checks[|checks| - 1].status == Failed then [checks[|checks| - 1]] else []
  }

  function PassedCount(checks: seq<Check>): nat
    decreases |checks|
  {
    if checks == [] then 0
    else PassedCount(checks[..|checks| - 1]) + if checks[|checks| - 1].status == Passed then 1 else 0
  }

  lemma {:induction false} FailuresMeaning(checks: seq<Check>)
    ensures var f := Failures(checks);
      && (forall x :: x in f <==> x in checks && x.status == Failed)
      && (f == [] <==> forall k :: 0 <= k < |checks| ==> checks[k].status != Failed)
    decreases |checks|
  {
    if checks != [] {
      var init := checks[..|checks| - 1];
      FailuresMeaning(init);
      assert checks == init + [checks[|checks| - 1]];
      if Failures(checks) == [] {
        forall k | 0 <= k < |checks| ensures checks[k].status != Failed {
          if k < |init| {
            assert checks[k] == init[k];
          }
        }
      }
    }
  }

  function PromptQuality(score: int): string {
    if score >= 90 then "Excellent"
    else if score >= 75 then "Good"
    else if score >= 60 then "Fair"
    else "Needs Work"
  }

  datatype Verdict =
    | StrictFailure(missing: seq<Check>)
    | Report(passed: nat, total: nat, score: int, quality: string, checks: seq<Check>)

  function VerdictOf(checks: seq<Check>, strict: bool): Verdict
    requires |checks| > 0
  {
    if strict && Failures(checks) != [] then StrictFailure(Failures(checks))
    else
      var passed := PassedCount(checks);
      var score := RoundRatio(100 * passed, |checks|);
      Report(passed, |checks|, score, PromptQuality(score), checks)
  }

  /** The `prompt_validate` tool on a prompt text. */
  method PromptValidate(text: string, strict: bool) returns (v: Verdict)
    ensures v == VerdictOf(ChecksFor(text), strict)
  {
    var checks := ValidatePrompt(text);
    v := VerdictOf(checks, strict);
  }

  /** Strict validation fails exactly when a required section is missing,
      and then lists exactly the failed checks. */
  lemma StrictMeaning(text: string, strict: bool)
    ensures var v := VerdictOf(ChecksFor(text), strict);
      && (v.StrictFailure? <==> strict && (!Has(text, Sections[0]) || !Has(text, Sections[1]) || !Has(text, Sections[3])))
      && (v.StrictFailure? ==> forall x :: x in v.missing <==> x in ChecksFor(text) && x.status == Failed)
  {
    var c := ChecksFor(text);
    ChecksMeaning(text);
    FailuresMeaning(c);
    if !Has(text, Sections[0]) {
      assert c[0].status == Failed;
    } else if !Has(text, Sections[1]) {
      assert c[1].status == Failed;
    } else if !Has(text, Sections[3]) {
      assert c[3].status == Failed;
    }
  }

  /** With seven checks the grade follows from the number passed: all
      seven is Excellent, six Good, five Fair, fewer Needs Work. */
  lemma QualityByPassed(passed: nat)
    requires passed <= CheckCount
    ensures var q := PromptQuality(RoundRatio(100 * passed, CheckCount));
      && (q == "Excellent" <==> passed == 7)
      && (q == "Good" <==> passed == 6)
      && (q == "Fair" <==> passed == 5)
      && (q == "Needs Work" <==> passed <= 4)
  {
    var r := RoundRatio(100 * passed, CheckCount);
    assert 14 * r <= 200 * passed + 7 < 14 * (r + 1);
    if passed == 7 { assert r == 100; }
    else if passed == 6 { assert r == 86; }
    else if passed == 5 { assert r == 71; }
    else { assert r <= 57; }
  }

  /** The grade bands of any score. */
  lemma QualityBands(score: int)
    ensures PromptQuality(score) == "Excellent" <==> score >= 90
    ensures PromptQuality(score) == "Good" <==> 75 <= score < 90
    ensures PromptQuality(score) == "Fair" <==> 60 <= score < 75
    ensures PromptQuality(score) == "Needs Work" <==> score < 60
  {
  }

  /** As written, the warning for a ten-line prompt calls it too long,
      though ten lines fail the rule for being too few. */
  lemma LengthMessageAsWrittenMislabels()
    ensures !(MinLines < 10 < MaxLines)
    ensures LengthMessageAsWritten(10) == "Too long (10 lines)"
  {
    assert NatToString(10) == "10";
  }

  /** So a prompt of ten lines gets the length warning "Too long (10 lines)". */
  lemma TenLinePromptWarnedLong(text: string)
    requires LineCount(text) == 10
    ensures ChecksFor(text)[6] == Check("Length", Warned, Some("Too long (10 lines)"))
  {
    LengthMessageAsWrittenMislabels();
  }

  /** The corrected text differs from the written one at ten lines only. */
  lemma LengthMessagesAgree(lines: nat)
    ensures LengthMessage(lines) == LengthMessageAsWritten(lines) <==> lines != MinLines
  {
    if lines == MinLines {
      assert LengthMessage(lines)[4] == 's' && LengthMessageAsWritten(lines)[4] == 'l';
    }
  }

  /** Corrected, the warning names the side of the range the count misses. */
  lemma LengthMessageNamesSide(lines: nat)
    requires !(MinLines < lines < MaxLines)
    ensures lines <= MinLines <==> LengthMessage(lines)[..9] == "Too short"
    ensures lines >= MaxLines <==> LengthMessage(lines)[..8] == "Too long"
  {
    var rest := " (" + NatToString(lines) + " lines)";
    if lines <= MinLines {
      assert LengthMessage(lines) == "Too short" + rest;
      assert LengthMessage(lines)[..9] == "Too short";
      assert LengthMessage(lines)[..8][4] == 's';
    } else {
      assert LengthMessage(lines) == "Too long" + rest;
      assert LengthMessage(lines)[..8] == "Too long";
      assert LengthMessage(lines)[..9][4] == 'l';
    }
  }

  lemma {:induction false} JoinHasPart(parts: seq<string>, sep: string, k: nat)
    requires k < |parts|
    ensures Contains(Join(parts, sep), parts[k])
    decreases k
  {
    if |parts| == 1 {
      ContainsSelf(parts[0]);
    } else if k == 0 {
      ContainsSelf(parts[0]);
      ContainsIn(parts[0], sep + Join(parts[1..], sep), parts[0]);
      assert Join(parts, sep) == parts[0] + (sep + Join(parts[1..], sep));
    } else {
      var rest := parts[1..];
      assert rest[k - 1] == parts[k];
      JoinHasPart(rest, sep, k - 1);
      assert Join(parts, sep) == (parts[0] + sep) + Join(rest, sep);
      ContainsIn(parts[0] + sep, Join(rest, sep), parts[k]);
    }
  }

  lemma ContainsSelf(p: string)
    ensures Contains(p, p)
  {
    assert p[0..|p|] == p;
    assert OccursAt(p, p, 0);
  }

  /** A text holding the three required sections passes strict mode. */
  lemma RequiredPresentPasses(text: string)
    requires Has(text, Sections[0]) && Has(text, Sections[1]) && Has(text, Sections[3])
    ensures VerdictOf(ChecksFor(text), true).Report?
  {
    ChecksMeaning(text);
    FailuresMeaning(ChecksFor(text));
  }

  lemma HeadingsPresent(text: string)
    requires Contains(text, "## Role") && Contains(text, "## Task") && Contains(text, "## Process")
    ensures Has(text, Sections[0]) && Has(text, Sections[1]) && Has(text, Sections[3])
  {
    assert Sections[0].heading == "## Role";
    assert Sections[1].heading == "## Task";
    assert Sections[3].heading == "## Process";
  }

  /** A template given by its lines, with the three required headings
      among them, passes strict mode. */
  lemma LinesPassStrict(lines: seq<string>, role: nat, task: nat, process: nat)
    requires role < |lines| && task < |lines| && process < |lines|
    requires lines[role] == "## Role" && lines[task] == "## Task" && lines[process] == "## Process"
    ensures VerdictOf(ChecksFor(Join(lines, "\n")), true).Report?
  {
    var text := Join(lines, "\n");
    JoinHasPart(lines, "\n", role);
    JoinHasPart(lines, "\n", task);
    JoinHasPart(lines, "\n", process);
    HeadingsPresent(text);
    RequiredPresentPasses(text);
  }

  lemma SkillCreationPasses()
    ensures VerdictOf(ChecksFor(Join(SkillCreation, "\n")), true).Report?
  {
    LinesPassStrict(SkillCreation, 2, 5, 13);
  }

  lemma AgentCreationPasses()
    ensures VerdictOf(ChecksFor(Join(AgentCreation, "\n")), true).Report?
  {
    LinesPassStrict(AgentCreation, 2, 5, 13);
  }

  lemma PromptOptimizationPasses()
    ensures VerdictOf(ChecksFor(Join(PromptOptimization, "\n")), true).Report?
  {
    LinesPassStrict(PromptOptimization, 2, 5, 12);
  }

  lemma WorkflowCompositionPasses()
    ensures VerdictOf(ChecksFor(Join(WorkflowComposition, "\n")), true).Report?
  {
    LinesPassStrict(WorkflowComposition, 2, 5, 14);
  }

  /** Every built-in template passes strict validation. */
  lemma BuiltInTemplatesPassStrict(name: string)
    requires name in TemplateNames
    ensures VerdictOf(ChecksFor(ReadTemplate(name).value), true).Report?
  {
    if name == "skill-creation" {
      SkillCreationPasses();
    } else if name == "agent-creation" {
      AgentCreationPasses();
    } else if name == "prompt-optimization" {
      PromptOptimizationPasses();
    } else {
      WorkflowCompositionPasses();
    }
  }
}
