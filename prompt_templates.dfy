/** The built-in prompt templates of the prompt manager (`readTemplate`)
    and placeholder substitution (`composeFromTemplate`). */
module PromptTemplates {
  import opened Wrappers
  import opened Text

  /** The "skill-creation" template, line by line. */
  const SkillCreation: seq<string> := [
    "# Skill Creation Prompt",
    "",
    "## Role",
    "Expert skill architect specializing in MAS-compatible skill design.",
    "",
    "## Task",
    "Create a complete skill package following MAS v2.0 standards.",
    "",
    "## Input",
    "- Skill name: [hyphen-case]",
    "- Purpose: [what it does]",
    "- Triggers: [when to activate]",
    "",
    "## Process",
    "1. Analyze requirements",
    "2. Choose design pattern (workflow/task/reference/capabilities)",
    "3. Generate SKILL.md with proper frontmatter",
    "4. Create resource directories",
    "5. Add validation checklist",
    "",
    "## Output Format",
    "Complete skill directory with:",
    "- skill.json (v2.0 spec)",
    "- SKILL.md (validated structure)",
    "- scripts/ (optional)",
    "- references/ (optional)",
    "- assets/ (optional)",
    "",
    "## Constraints",
    "- Name: lowercase, digits, hyphens only",
    "- Description: < 1024 chars, includes \"what\" and \"when\"",
    "- Body: < 500 lines",
    "- No absolute paths",
    "- Forward slashes only",
    "",
    "## Examples",
    "[Include 3+ complete skill examples]"
  ]

  /** The "agent-creation" template, line by line. */
  const AgentCreation: seq<string> := [
    "# Agent Creation Prompt",
    "",
    "## Role",
    "Agent architect specializing in multi-agent coordination.",
    "",
    "## Task",
    "Generate complete agent configuration with commands and capabilities.",
    "",
    "## Input",
    "- Agent name: [verb-noun format]",
    "- Domain: [specialization area]",
    "- Integration needs: [related agents/skills]",
    "",
    "## Process",
    "1. Define domain and scope",
    "2. Design 3-5 focused commands",
    "3. Specify measurable capabilities",
    "4. Map integrations",
    "5. Create configuration YAML",
    "",
    "## Output Format",
    "```yaml",
    "---",
    "name: [agent-name]",
    "description: [what + when]",
    "commands: [...]",
    "capabilities: [...]",
    "integrations: [...]",
    "---",
    "```",
    "",
    "## Constraints",
    "- Commands: 3-5 maximum",
    "- Descriptions: complete (what + when)",
    "- Capabilities: action-oriented and measurable",
    "- Integrations: explicit relationships"
  ]

  /** The "prompt-optimization" template, line by line. */
  const PromptOptimization: seq<string> := [
    "# Prompt Optimization Prompt",
    "",
    "## Role",
    "Prompt optimization specialist.",
    "",
    "## Task",
    "Analyze and improve prompts for clarity, efficiency, and effectiveness.",
    "",
    "## Input",
    "- Current prompt: [full text]",
    "- Optimization goals: [speed, clarity, tokens, etc.]",
    "",
    "## Process",
    "1. Analyze for inefficiencies",
    "2. Identify ambiguity",
    "3. Check token usage",
    "4. Suggest improvements",
    "5. Create optimized version",
    "",
    "## Output Format",
    "- Analysis report",
    "- Optimized prompt",
    "- Improvement metrics",
    "- Validation checklist"
  ]

  /** The "workflow-composition" template, line by line. */
  const WorkflowComposition: seq<string> := [
    "# Workflow Composition Prompt",
    "",
    "## Role",
    "Workflow designer for complex multi-step processes.",
    "",
    "## Task",
    "Compose workflows from multiple skills and agents.",
    "",
    "## Input",
    "- Workflow goal: [end-to-end objective]",
    "- Available skills: [list]",
    "- Available agents: [list]",
    "- Constraints: [limitations]",
    "",
    "## Process",
    "1. Break down into steps",
    "2. Map skills to steps",
    "3. Assign agents",
    "4. Define data flow",
    "5. Add error handling",
    "",
    "## Output Format",
    "```yaml",
    "workflow:",
    "  name: [workflow-name]",
    "  steps:",
    "    - step: 1",
    "      action: [skill/agent]",
    "      input: [source]",
    "      output: [destination]",
    "      validation: [check]",
    "  error_handling: [strategy]",
    "```"
  ]

  const TemplateNames: seq<string> := ["skill-creation", "agent-creation", "prompt-optimization", "workflow-composition"]

  function TemplateLines(name: string): Option<seq<string>> {
    if name == "skill-creation" then Some(SkillCreation)
    else if name == "agent-creation" then Some(AgentCreation)
    else if name == "prompt-optimization" then Some(PromptOptimization)
    else if name == "workflow-composition" then Some(WorkflowComposition)
    else None
  }

  /** `readTemplate`: the template text, whose lines are separated by line
      feeds, or nothing for a name that is not built in. */
  function ReadTemplate(name: string): (r: Option<string>)
    ensures r.Some? <==> name in TemplateNames
    ensures r.Some? ==> r.value == Join(TemplateLines(name).value, "\n")
  {
    match TemplateLines(name)
    case Some(lines) => Some(Join(lines, "\n"))
    case None => None
  }

  /** The text a variable named `key` replaces. */
  function Placeholder(key: string): (p: string)
    ensures p != [] && p[0] == '[' && p[|p| - 1] == ']'
  {
    "[" + key + "]"
  }

  /** The template after substituting the variables in order, each by a
      split on its placeholder and a join with its value. */
  function Substituted(t: string, vars: seq<(string, string)>): string
    decreases |vars|
  {
    if vars == [] then t
    else
      var v := vars[|vars| - 1];
      ReplaceAll(Substituted(t, vars[..|vars| - 1]), Placeholder(v.0), v.1)
  }

  /** `composeFromTemplate`, with the variables in `Object.entries` order. */
  method ComposeFromTemplate(name: string, vars: seq<(string, string)>) returns (r: Option<string>)
    ensures r.None? <==> name !in TemplateNames
    ensures r.Some? ==> r.value == Substituted(ReadTemplate(name).value, vars)
  {
    var found := ReadTemplate(name);
    if found.None? {
      return None;
    }
    var composed := SubstituteAll(found.value, vars);
    r := Some(composed);
  }

  /** The substitution loop: one split and join per variable. */
  method SubstituteAll(t: string, vars: seq<(string, string)>) returns (out: string)
    ensures out == Substituted(t, vars)
  {
    out := t;
    var i := 0;
    while i < |vars|
      invariant 0 <= i <= |vars|
      invariant out == Substituted(t, vars[..i])
    {
      assert vars[..i + 1][..i] == vars[..i];
      var (key, value) := vars[i];
      out := ReplaceAll(out, Placeholder(key), value);
      i := i + 1;
    }
    assert vars[..i] == vars;
  }

  function SumLengths(parts: seq<string>): nat
    decreases |parts|
  {
    if parts == [] then 0 else |parts[0]| + SumLengths(parts[1..])
  }

  /** The length of `n` pieces of length `len` laid end to end. */
  function Scaled(n: nat, len: nat): nat {
    if n == 0 then 0 else len + Scaled(n - 1, len)
  }

  lemma {:induction false} ScaledProduct(n: nat, len: nat)
    ensures Scaled(n, len) == n * len
  {
    if n > 0 {
      ScaledProduct(n - 1, len);
    }
  }

  lemma {:induction false} JoinLength(parts: seq<string>, sep: string)
    requires |parts| >= 1
    ensures |Join(parts, sep)| == SumLengths(parts) + Scaled(|parts| - 1, |sep|)
    decreases |parts|
  {
    if |parts| > 1 {
      JoinLength(parts[1..], sep);
      assert |Join(parts, sep)| == |parts[0]| + |sep| + |Join(parts[1..], sep)|;
    } else {
      assert parts[1..] == [];
    }
  }

  /** Substituting one variable changes the length by the length
      difference for each replaced occurrence, of which there are one fewer
      than the pieces the split produces; a placeholder that does not occur
      leaves the text as it is. */
  lemma SubstitutionLength(t: string, key: string, value: string)
    ensures |Substituted(t, [(key, value)])| + Scaled(|Split(t, Placeholder(key))| - 1, |Placeholder(key)|)
         == |t| + Scaled(|Split(t, Placeholder(key))| - 1, |value|)
    ensures !Contains(t, Placeholder(key)) ==> Substituted(t, [(key, value)]) == t
  {
    SubstitutionJoins(t, key, value);
    JoinSwap(Split(t, Placeholder(key)), value, Placeholder(key), Substituted(t, [(key, value)]), t);
  }

  /** Joining the same pieces with two separators: the lengths differ by
      the separator difference once per gap. */
  lemma JoinSwap(parts: seq<string>, a: string, b: string, x: string, y: string)
    requires |parts| >= 1 && x == Join(parts, a) && y == Join(parts, b)
    ensures |x| + Scaled(|parts| - 1, |b|) == |y| + Scaled(|parts| - 1, |a|)
  {
    JoinLength(parts, a);
    JoinLength(parts, b);
  }

  /** One substitution joins the pieces between the placeholders with the
      value, where the template joins them with the placeholder. */
  lemma SubstitutionJoins(t: string, key: string, value: string)
    ensures Substituted(t, [(key, value)]) == Join(Split(t, Placeholder(key)), value)
    ensures Join(Split(t, Placeholder(key)), Placeholder(key)) == t
    ensures !Contains(t, Placeholder(key)) ==> Substituted(t, [(key, value)]) == t
  {
    var p := Placeholder(key);
    assert [(key, value)][..0] == [];
    assert Substituted(t, []) == t;
    assert Substituted(t, [(key, value)]) == ReplaceAll(t, p, value);
    ReplaceAllMeaning(t, p, value);
  }
}
