# A verified model of the MAS meta-system servers

The meta-system has three Model Context Protocol servers, and this project
models the decision logic at the core of each in Dafny:

- **Evolution server (`evolution.js`).**
  - It records every skill invocation in a metrics document: counters, times, tokens, and the errors logged.
  - It guesses which capability a failed request was missing.
  - It finds frequent, failing and slow skills, repeatedly requested capabilities, and the trend of recent improvements.
  - It turns those patterns into ranked suggestions.
  - It applies a simulated optimization and keeps the record of it.
  - It names the winner of a simulated A/B test.
- **Prompt manager (`prompt-manager.js`).**
  - It serves four built-in prompt templates and fills in their `[placeholder]`s.
  - It checks a prompt for its six sections and its length, then scores and grades it, with a strict mode.
  - It normalizes a prompt line by line. Code-fenced regions are left alone.
- **Marketplace (`marketplace.js`).**
  - It validates a skill's `skill.json` manifest.
  - It keeps the registry of installed and published skills. Storing a skill replaces the entry with the same name, or appends one.
  - It computes the quality score, percentage and grade of a skill directory.

The model follows the source's own shape:

- **Pure helpers** become functions with named results.
- **Loops** become methods whose loop invariants tie them to those functions. This covers the analysis passes, the suggestion lists, the template substitution, the prompt scan and the registry lookup.
- **The two persistent documents** of the evolution server are the fields of the `EvolutionStore.Store` class.
- **The registry file** is the `SkillRegistry.Registry` class, whose list of entries the methods replace in place or extend.

Outside state becomes parameters:

- the clock (`now`)
- `Math.random()` draws
- file existence and file contents
- whether the v2.0 schema file can be read

Files are modelled as follows:

- `wrappers.dfy`: `Option` and `Result`.
- `text.dfy`: the string primitives: JavaScript white space, ASCII lower-casing, `includes`, `split`/`join`, and `replace(/\s+/g, …)`.
- `rounding.dfy`: `Math.round` of a ratio.
- `capability.dfy`, `metrics.dfy`, `analyzer.dfy`, `suggestions.dfy`, `optimization.dfy`, `ab_test.dfy`, `evolution_store.dfy`: the evolution server.
- `prompt_templates.dfy`, `prompt_validation.dfy`, `prompt_optimizer.dfy`: the prompt manager.
- `skill_manifest.dfy`, `skill_registry.dfy`, `skill_quality.dfy`: the marketplace.

Some modelling choices need a word:

- **Capability guess.** `extractCapability` is stated as "the first space-separated word that mentions a keyword, with up to two words of context on each side". The source instead takes the leftmost case-insensitive regular-expression match, then the first word holding that match. The two agree for every input:
  - No keyword holds a space, so the leftmost match lies inside a single word.
  - An earlier word holding any keyword would give an earlier match.
  - A case-insensitive pattern without the `u` flag never matches a non-ASCII character against an ASCII letter, so ASCII lower-casing is exact here.
- **JavaScript objects.** The metrics `skills` object and the capability tally are each a map plus the key insertion order, which is the order `Object.entries` visits them in.
- **Numbers.** Counters are unbounded naturals. Times, tokens and rates are exact reals. A division JavaScript would turn into `NaN` gives `None`.

## Model

| member | source | states |
|---|---|---|
| Metrics.DefaultSnapshot | _bmad/meta-system/mcp-servers/evolution.js:38-50 | the metrics document used when none exists has no invocations, no skills and no failed requests, and satisfies the document invariants |
| Metrics.Counted | _bmad/meta-system/mcp-servers/evolution.js:122-146 | one more invocation; a success adds one success, its time and its tokens; a failure adds one error, and logs an error entry exactly when a non-empty message is given |
| Metrics.AfterInvocation | _bmad/meta-system/mcp-servers/evolution.js:106-148 | the total grows by one; the skill is created when new, with its key appended to the key order, and counted; every other skill is unchanged; a failed request is logged exactly when a failure carries a message; the improvement fields are untouched |
| Metrics.InvocationKeepsInvariants | _bmad/meta-system/mcp-servers/evolution.js:106-148 | recording an invocation keeps the key order duplicate-free and in step with the skills, and keeps invocations = successes + errors for every skill |
| Metrics.LoggedRequestsNameCapability | _bmad/meta-system/mcp-servers/evolution.js:139-144 | every logged failed request names a non-empty capability, so the analyzer never skips one |
| Metrics.ReplayCounts | _bmad/meta-system/mcp-servers/evolution.js:106-148 | over any series of invocations the invariants hold, the total grows by the number of calls and each skill's count by the number of calls naming it |
| Capability.FirstMentioning | _bmad/meta-system/mcp-servers/evolution.js:155 | the index found is the first word mentioning a keyword, or -1 when no word does |
| Capability.ExtractCapabilityMeaning | _bmad/meta-system/mcp-servers/evolution.js:151-159 | the result is "unknown" exactly when the error mentions no keyword; otherwise its words are the first word mentioning a keyword with up to two words on each side, so it mentions a keyword itself and has one to five words; it is never empty |
| Capability.JoinedMentionsAny | _bmad/meta-system/mcp-servers/evolution.js:156 | words joined by spaces mention a keyword exactly when one of the words does |
| Analyzer.FailingMeansLowRate | _bmad/meta-system/mcp-servers/evolution.js:184 | the integer form of the failing rule is the source's: some error and a success rate below 0.8 |
| Analyzer.FrequentOfMeaning | _bmad/meta-system/mcp-servers/evolution.js:173-181 | the frequent list holds exactly the skills with more than five invocations, each with its own figures; its names are the key order filtered by the rule, so no skill appears twice when the keys are distinct |
| Analyzer.FailingOfMeaning | _bmad/meta-system/mcp-servers/evolution.js:183-190 | the failing list holds exactly the skills with errors whose success rate is below 80%, each with its figures; its names are the key order filtered by the rule, so no skill appears twice when the keys are distinct |
| Analyzer.SlowOfMeaning | _bmad/meta-system/mcp-servers/evolution.js:192-199 | the slow list holds exactly the skills whose mean time per success exceeds 5 seconds, each with its mean; its names are the key order filtered by the rule, so no skill appears twice when the keys are distinct |
| Analyzer.QualifyingAppend | _bmad/meta-system/mcp-servers/evolution.js:172-199 | the reference filter over the skill keys distributes over concatenation, as one pass over the keys pushing each qualifying skill does |
| Analyzer.QualifyingFrom | _bmad/meta-system/mcp-servers/evolution.js:172-199 | every name the filter keeps is one of the skill keys |
| Analyzer.QualifyingDistinct | _bmad/meta-system/mcp-servers/evolution.js:172-199 | distinct skill keys give distinct kept names, so no skill is pushed twice |
| Analyzer.FrequentOfNames | _bmad/meta-system/mcp-servers/evolution.js:173-181 | the frequent list's names are, position by position, the skill keys that pass the frequency rule, in key order |
| Analyzer.FailingOfNames | _bmad/meta-system/mcp-servers/evolution.js:183-190 | the failing list's names are, position by position, the skill keys that pass the failure rule, in key order |
| Analyzer.SlowOfNames | _bmad/meta-system/mcp-servers/evolution.js:192-199 | the slow list's names are, position by position, the skill keys that pass the slowness rule, in key order |
| Analyzer.TallyOf | _bmad/meta-system/mcp-servers/evolution.js:203-209 | the tally counts each lower-cased capability as often as failed requests name it, lists each counted capability once, and has nothing else |
| Analyzer.FirstRequestMeaning | _bmad/meta-system/mcp-servers/evolution.js:203-209 | the first request asking for a capability does so, no earlier one does, and there is one exactly when some request asks for it |
| Analyzer.TallyOrder | _bmad/meta-system/mcp-servers/evolution.js:203-209 | every key of the tally is asked for, and the keys are in the order in which the failed requests first ask for them, as `capabilityCounts` inserts them |
| Analyzer.MissingCapabilitiesMeaning | _bmad/meta-system/mcp-servers/evolution.js:211-218 | the missing capabilities are exactly those requested at least twice, each once, with its true frequency, in the order of their first request |
| Analyzer.TrendsOf | _bmad/meta-system/mcp-servers/evolution.js:220-225 | a trend exists exactly when there are two or more improvements; its rate is the number of recent events considered, at most five, and its mean times the rate is their summed count |
| Analyzer.AnalyzeUsagePatterns | _bmad/meta-system/mcp-servers/evolution.js:162-228 | the three loops produce exactly the specified patterns |
| Suggestions.GenerateSuggestions | _bmad/meta-system/mcp-servers/evolution.js:231-284 | the loops produce the specified suggestions in order: slow, failing, missing, then the composite |
| Suggestions.SuggestionsShape | _bmad/meta-system/mcp-servers/evolution.js:231-284 | one suggestion per slow skill, failing skill and missing capability, each the one built from that item and placed at its offset in its block, plus one composite, built from the frequent skills, exactly when at least three skills are frequent; grouped by kind, each with its kind's priority, and the composite last |
| Suggestions.CreationTargetShape | _bmad/meta-system/mcp-servers/evolution.js:263 | a proposed skill name holds no white space and ends in "-handler" |
| Suggestions.FilterMeaning | _bmad/meta-system/mcp-servers/evolution.js:489-495 | the priority and type filters keep exactly the matching suggestions, keep the grouping, and keep everything when no filter is given |
| Suggestions.FilterOrder | _bmad/meta-system/mcp-servers/evolution.js:489-495 | filtering distributes over concatenation and keeps a single suggestion exactly when it matches, so the matching suggestions are kept in their order, each as often as in the input |
| Optimization.ImprovementMatchesClaim | _bmad/meta-system/mcp-servers/evolution.js:296-320 | the metric picks the kind of entry; times drop by 25%, tokens by 40%, and the success rate becomes min(0.98, rate + 0.1): ten points more when that stays within 0.98, else exactly 0.98; an unknown metric gives the empty improvement and no claim |
| Optimization.ReliabilityCapLowersPerfectSkill | _bmad/meta-system/mcp-servers/evolution.js:308-313 | for a skill that always succeeded, the "+10%" reliability optimization reports a rate of 0.98, a drop from 1.0 |
| Optimization.DefaultLedger | _bmad/meta-system/mcp-servers/evolution.js:75-83 | the optimization document used when none exists has no analysis time, suggestions or applied improvements |
| Optimization.AfterOptimization | _bmad/meta-system/mcp-servers/evolution.js:333-340 | one more executed improvement, with one history event appended; skills, key order, failed requests, total and version unchanged; `last_updated` stamped |
| Optimization.OptimizationOnlyMovesTrends | _bmad/meta-system/mcp-servers/evolution.js:333-340 | after an optimization the frequent, failing, slow and missing patterns are as before, and a trend appears exactly when one earlier improvement existed |
| Optimization.Recorded | _bmad/meta-system/mcp-servers/evolution.js:322-331 | the improvement is appended to the applied list with the analysis time updated and the suggestions kept |
| ABTest.DrawInRange | _bmad/meta-system/mcp-servers/evolution.js:627-631 | every simulated record has a success rate in [0.7, 0.95), a time in [1, 4) and tokens in [100, 500) |
| ABTest.WinnerSymmetry | _bmad/meta-system/mcp-servers/evolution.js:637-640 | A wins only with a strictly higher score; swapping the versions swaps the winner unless the scores tie, when B wins both ways |
| ABTest.RateLeadDecides | _bmad/meta-system/mcp-servers/evolution.js:637-640 | for simulated records a success-rate lead of more than three points decides the winner whatever the times |
| ABTest.ABTestRunMeaning | _bmad/meta-system/mcp-servers/evolution.js:613-640 | the result's winner has the higher score, both records lie in range, and the iteration count is the one requested when it is non-zero and ten when it is missing or zero |
| EvolutionStore.Store.constructor | _bmad/meta-system/mcp-servers/evolution.js:38-50 | both documents start empty and the store invariant holds |
| EvolutionStore.Store.RecordInvocation | _bmad/meta-system/mcp-servers/evolution.js:106-148 | the metrics become the recorded snapshot; the optimization document is untouched; the invariant is kept |
| EvolutionStore.Store.TrackMetrics | _bmad/meta-system/mcp-servers/evolution.js:360-367 | a missing time or token count is recorded as 0; the reported skill has at least one invocation and balanced counters, and the reported total is the new total |
| EvolutionStore.Store.AnalyzePerformance | _bmad/meta-system/mcp-servers/evolution.js:404-405 | the analysis is the specified pattern set of the current metrics |
| EvolutionStore.Store.GenerateImprovements | _bmad/meta-system/mcp-servers/evolution.js:484-501 | the filtered suggestions are returned and saved in the optimization document with the time; the metrics are unchanged |
| EvolutionStore.Store.ApplyOptimization | _bmad/meta-system/mcp-servers/evolution.js:287-343 | an unknown skill gives "Skill not found" and changes nothing; otherwise the improvement is returned and recorded in both documents, even for an unknown metric |
| EvolutionStore.Store.ApplyEvolution | _bmad/meta-system/mcp-servers/evolution.js:556-596 | without the auto flag only confirmation is asked for and nothing changes; otherwise the optimization's outcome and claimed gain are reported |
| PromptTemplates.ReadTemplate | _bmad/meta-system/mcp-servers/prompt-manager.js:34-172 | a template exists exactly for the four built-in names and is their lines joined by line feeds |
| PromptTemplates.Placeholder | _bmad/meta-system/mcp-servers/prompt-manager.js:316 | a placeholder is bracketed |
| PromptTemplates.ComposeFromTemplate | _bmad/meta-system/mcp-servers/prompt-manager.js:308-322 | an unknown template gives nothing; otherwise each variable in order replaces every occurrence of its placeholder |
| PromptTemplates.SubstitutionLength | _bmad/meta-system/mcp-servers/prompt-manager.js:315-318 | one substitution changes the length by the length difference once per occurrence, and a placeholder that does not occur leaves the text unchanged; `Scaled(n, len)` is `n * len` (PromptTemplates.ScaledProduct) |
| PromptValidation.ValidatePrompt | _bmad/meta-system/mcp-servers/prompt-manager.js:175-229 | the seven appends produce exactly the specified checks, the length warning with the source's own message |
| PromptValidation.ChecksMeaning | _bmad/meta-system/mcp-servers/prompt-manager.js:175-229 | seven checks in the source's order; a section passes exactly when its heading or label occurs; only role, task and process can fail; length passes exactly strictly between 10 and 200 lines; an error text comes with every check that does not pass |
| PromptValidation.FailuresMeaning | _bmad/meta-system/mcp-servers/prompt-manager.js:510 | the failures are exactly the failed checks, and there are none exactly when no check failed |
| PromptValidation.PromptValidate | _bmad/meta-system/mcp-servers/prompt-manager.js:506-527 | the report is the specified verdict on the text's checks, as the source words them |
| PromptValidation.StrictMeaning | _bmad/meta-system/mcp-servers/prompt-manager.js:508-521 | strict validation fails exactly when role, task or process is missing, and then lists exactly the failed checks |
| PromptValidation.QualityByPassed | _bmad/meta-system/mcp-servers/prompt-manager.js:523-527 | with seven checks, all passed is Excellent, six Good, five Fair and fewer Needs Work |
| PromptValidation.QualityBands | _bmad/meta-system/mcp-servers/prompt-manager.js:527 | the four grades partition the scores at 90, 75 and 60 |
| PromptValidation.LengthMessageAsWrittenMislabels | _bmad/meta-system/mcp-servers/prompt-manager.js:222-227 | a ten-line prompt fails the length rule yet, as written, is called "Too long (10 lines)" |
| PromptValidation.TenLinePromptWarnedLong | _bmad/meta-system/mcp-servers/prompt-manager.js:222-227 | the validator warns a ten-line prompt with "Too long (10 lines)" |
| PromptValidation.LengthMessagesAgree | _bmad/meta-system/mcp-servers/prompt-manager.js:222-227 | the source's length message and the corrected one differ exactly at 10 lines |
| PromptValidation.LengthMessageNamesSide | _bmad/meta-system/mcp-servers/prompt-manager.js:222-227 | with the corrected boundary, a failing length is called short exactly when it is at most 10 lines and long exactly when it is at least 200 |
| PromptValidation.RequiredPresentPasses | _bmad/meta-system/mcp-servers/prompt-manager.js:508-521 | a text with role, task and process passes strict validation |
| PromptValidation.SkillCreationPasses | _bmad/meta-system/mcp-servers/prompt-manager.js:36-72 | the skill-creation template passes strict validation |
| PromptValidation.AgentCreationPasses | _bmad/meta-system/mcp-servers/prompt-manager.js:74-109 | the agent-creation template passes strict validation |
| PromptValidation.PromptOptimizationPasses | _bmad/meta-system/mcp-servers/prompt-manager.js:111-134 | the prompt-optimization template passes strict validation |
| PromptValidation.WorkflowCompositionPasses | _bmad/meta-system/mcp-servers/prompt-manager.js:136-168 | the workflow-composition template passes strict validation |
| PromptValidation.BuiltInTemplatesPassStrict | _bmad/meta-system/mcp-servers/prompt-manager.js:34-172 | every built-in template passes strict validation |
| Rounding.RoundRatio | _bmad/meta-system/mcp-servers/prompt-manager.js:523 | `Math.round` of a ratio: the nearest integer, halves rounded up |
| PromptOptimizer.StepSimulates | _bmad/meta-system/mcp-servers/prompt-manager.js:241-273 | one loop iteration emits the normalized reading of its line and tracks whether a code region is open |
| PromptOptimizer.ScanSimulates | _bmad/meta-system/mcp-servers/prompt-manager.js:232-274 | the whole scan emits the normalized reading of all lines: code lines verbatim, text lines with white-space runs collapsed, blank text lines as layout only |
| PromptOptimizer.StripSimulates | _bmad/meta-system/mcp-servers/prompt-manager.js:276-279 | dropping trailing empty lines keeps the reading except for empty lines at the end of an open code region |
| PromptOptimizer.OptimizedMeaning | _bmad/meta-system/mcp-servers/prompt-manager.js:232-279 | the output starts with a non-blank line, ends with a non-empty one, never has two empty text lines in a row, and reads as the input's normalized reading, exactly so when no code region is left open |
| PromptOptimizer.StepLaysOut | _bmad/meta-system/mcp-servers/prompt-manager.js:241-271 | one loop iteration emits its line's laid-out reading under the spacing policy: a blank line outside code is dropped at the start or after an empty line and becomes one empty line otherwise |
| PromptOptimizer.ScanLaysOut | _bmad/meta-system/mcp-servers/prompt-manager.js:239-271 | the whole scan emits exactly the lines of the laid-out reading of its input, code kept, text collapsed, gaps squeezed |
| PromptOptimizer.OptimizedIsTidied | _bmad/meta-system/mcp-servers/prompt-manager.js:232-275 | the optimized lines equal, line for line, the tidied input: each input line read as code, text or gap, gaps before the first kept line or after a gap dropped, trailing empty lines stripped; so an empty text line in the output always stands for a run of blank input lines |
| PromptOptimizer.BlankRunKeepsOne | _bmad/meta-system/mcp-servers/prompt-manager.js:262-268 | outside code, a run of blank lines after a non-empty line leaves exactly one empty line |
| PromptOptimizer.OptimizePrompt | _bmad/meta-system/mcp-servers/prompt-manager.js:232-305 | the two loops produce the specified lines, joined by line feeds; the lengths, line count, rounded reduction (none for an empty prompt) and improvement notes follow |
| SkillManifest.MissingFields | _bmad/meta-system/mcp-servers/marketplace.js:119-120 | the missing fields are exactly the required fields that are absent or empty, and there are none exactly when all four are present |
| SkillManifest.MissingFieldsOrdered | _bmad/meta-system/mcp-servers/marketplace.js:119-124 | the missing fields are reported in the order name, version, type, description |
| SkillManifest.ValidateSkillJsonMeaning | _bmad/meta-system/mcp-servers/marketplace.js:103-150 | a manifest is valid exactly when it parsed to an object, the schema is present and every rule holds (fields present, type allowed, name of lower-case letters, digits and hyphens, description of at most 1024 characters with trigger context); the valid manifest is the one read; each error names a broken rule; a content rule is reported only once all fields are present and the content rules before it (type, name, description length, trigger) hold |
| SkillManifest.ValidateSkillJsonOrder | _bmad/meta-system/mcp-servers/marketplace.js:106-116 | a missing file is reported first, then a parse failure, then a missing schema |
| SkillRegistry.IndexOf | _bmad/meta-system/mcp-servers/marketplace.js:160 | the first position holding the name, or -1 when none does |
| SkillRegistry.OrElse | _bmad/meta-system/mcp-servers/marketplace.js:164 | a present, non-empty value is used, otherwise the fallback |
| SkillRegistry.UpsertedMeaning | _bmad/meta-system/mcp-servers/marketplace.js:171-175 | storing an entry keeps the length when the name was known and appends otherwise; the entry is found under its name; entries of other names keep their places and lookups; unique names stay unique |
| SkillRegistry.UpsertedIdempotent | _bmad/meta-system/mcp-servers/marketplace.js:171-175 | storing the same entry twice is storing it once |
| SkillRegistry.UpsertedLastWins | _bmad/meta-system/mcp-servers/marketplace.js:852-857 | a later entry with the same name replaces an earlier one entirely |
| SkillRegistry.InstallEntry | _bmad/meta-system/mcp-servers/marketplace.js:162-169 | an installed entry has the name, the source and time, the given version or "latest", the manifest's type and capabilities (none when absent), no description, and the path of its directory under the skills directory |
| SkillRegistry.PublishEntry | _bmad/meta-system/mcp-servers/marketplace.js:840-849 | a published entry has the name, the time, the skill's path, a non-empty version (the requested one when given, the manifest's otherwise), the manifest's type and description, and its capabilities or none |
| SkillRegistry.Registry.constructor | _bmad/meta-system/mcp-servers/marketplace.js:154-157 | the registry used when none exists is version "2.0.0" with no skills |
| SkillRegistry.Registry.FindSkill | _bmad/meta-system/mcp-servers/marketplace.js:160 | the lookup loop finds the specified index |
| SkillRegistry.Registry.Store | _bmad/meta-system/mcp-servers/marketplace.js:171-175 | the entry replaces the one found or is appended |
| SkillRegistry.Registry.RecordInstall | _bmad/meta-system/mcp-servers/marketplace.js:299-316 | an invalid manifest fails the install with its error and leaves the registry alone; a valid one stores the install entry |
| SkillRegistry.Registry.PublishLocal | _bmad/meta-system/mcp-servers/marketplace.js:749-857 | a missing skill directory gives "Skill not found" and an invalid manifest stops publication with its error, both leaving the registry alone; a valid one stores the local entry |
| SkillQuality.CheckContents | _bmad/meta-system/mcp-servers/marketplace.js:527-577 | the checks after the manifest parsed to an object, with the points earned and 35 points on offer, 50 with the test check |
| SkillQuality.ValidateSkill | _bmad/meta-system/mcp-servers/marketplace.js:480-588 | an unknown skill is not found; otherwise the specified checks are listed, the score is their points, the maximum is the specified total, and the percentage and grade follow from them |
| SkillQuality.ChecksPoints | _bmad/meta-system/mcp-servers/marketplace.js:500-585 | the points earned, case by case: nothing without a manifest, 10 for unparsable JSON, and 20 plus each passing check otherwise |
| SkillQuality.PercentageMeaning | _bmad/meta-system/mcp-servers/marketplace.js:587 | 0 with nothing on offer; between 0 and 100 otherwise; for maxima below 200, 100 exactly for full marks |
| SkillQuality.GradeBands | _bmad/meta-system/mcp-servers/marketplace.js:588 | the four grades partition the percentages at 90, 75 and 60 |
| SkillQuality.FullMarksMeaning | _bmad/meta-system/mcp-servers/marketplace.js:500-588 | the score never exceeds the maximum; full marks, and so 100%, come exactly when every check the validator runs passes |
| SkillQuality.NullManifestListedTwice | _bmad/meta-system/mcp-servers/marketplace.js:510-581 | for the JSON value `null`, the JSON check is listed both as passed and as failed, the required-fields check is never listed though its 15 points are on offer, and the grade is Poor |

## Left out

- Reading and writing the JSON and YAML files is not modelled. A corrupt file falls back to the empty document in the source; here it simply starts as the empty document. Each document is state that the methods update.
- The `agents` object of the metrics document and the `performance_trends` object of the optimization document are never used by the core and are not modelled.
- The formatted report texts are not modelled. That covers the `toFixed` figures, the suggestion `action`, `reason` and `estimated_impact` texts, and the `Math.round` of `toFixed` displays. The model keeps the figures and kinds those texts are built from.
- Floating point is not modelled. Times, tokens and rates are exact reals, so rounding of JavaScript doubles is left out. The percentages rounded by `Math.round` have no exact ties for the maxima that can occur (7 checks, and 10 to 90 points). So exact rounding and double rounding agree except where a double quotient lands next to a half.
- String lengths count Unicode code points, not UTF-16 units. A description with characters outside the Basic Multilingual Plane is longer in the source.
- Lower-casing changes only ASCII letters. This is exact for the case-insensitive patterns. `toLowerCase` on capabilities does more, in the capability tally, and that is not modelled.
- Object key order is insertion order. JavaScript lists integer-like keys first, and names such as `__proto__` or `constructor` collide with the object prototype. Neither is modelled.
- The `skillName` filter of `analyze_performance` and the report texts of the analysis tools are not modelled.
- The `prompt_create` tool is not modelled: its custom templates and the file it saves. The goals of `prompt_optimize` are not modelled, nor are `prompt_compose`'s file save and validate flag. Reading a prompt from a file is not modelled either: the text is a parameter.
- `a_b_test`'s `Math.random()` draws are parameters, and a non-numeric `iterations` argument is not modelled.
- PromptValidation.BuiltInTemplatesPassStrict: covers strict acceptance only. It does not prove that each built-in template also passes the length check.
- Installing from GitHub, npm or a URL is not modelled: the download, unzip, backup and update tools. Searching the marketplace and the `prepare` and `submit` publish modes are not modelled either. `construction.js` and the server entry points are not part of this model.
- SkillManifest.ValidateSkillJson: models manifest fields as strings. A number, boolean or array in a field is coerced by the source's checks and is not modelled. A `skill.json` whose top-level value is not an object, other than `null`, is modelled as a manifest with no fields. The source would then read array and string properties, which does not change the outcome for the four required keys.
- SkillQuality.ValidateSkill: models `SKILL.md` as either absent or readable. An entry that exists but cannot be read is not modelled. The schema file is read once and `skill.json` is assumed not to change between the two reads.
- SkillRegistry.InstallEntry: the skill's path is the skills directory, a slash and the name. `path.join`'s normalization is not modelled. A registry file without `components.skills` makes the source throw and is not modelled.
- Every tool call is modelled as atomic and run one at a time. The source reads a document, changes it and writes it back without locking, so two overlapping calls can lose an update; that is not modelled.
- EvolutionStore.Store.ApplyOptimization: updates both documents in one step. The source writes the optimization document and then the metrics document (evolution.js:322-340). A failure between the two writes would leave `improvements_executed` out of step with the applied list; that is not modelled.
- The `Math.round` inputs of the evolution reports are not modelled, and neither is the `NaN` they produce for a skill without successes. For the frequent skills' mean time, the `NaN` appears as `None`.

## Findings

| source | as written | input that shows it | evidently intended | confidence | as-written member | corrected member |
|---|---|---|---|---|---|---|
| _bmad/meta-system/mcp-servers/prompt-manager.js:222-227 | the length check passes only strictly more than 10 lines, but its warning says "short" only below 10 | a prompt of exactly 10 lines fails the length check and is warned as "Too long (10 lines)" | a failing prompt of at most 10 lines is called too short | high; not executed | PromptValidation.LengthMessageAsWritten, PromptValidation.LengthMessageAsWrittenMislabels | PromptValidation.LengthMessage, PromptValidation.LengthMessageNamesSide |
