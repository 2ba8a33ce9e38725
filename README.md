# Ethicist MCP server: a verified model of its dispatch-and-render core

The Ethicist MCP server answers three kinds of request.

- **`call_tool`** takes a tool name and an argument mapping. Five tools render Markdown reports from the server's knowledge tables: the four ethical frameworks, the eight AI ethics guidelines, and each tool's local tables. Any other name is answered with the text `Unknown tool: <name>`.
- **`read_resource`** resolves an `ethicist://` URI to a part of the knowledge tables. It raises `ValueError` for an unknown framework or URI.
- **`get_prompt`** fills one of three prompt templates with the caller's arguments or with placeholder phrases. It raises `ValueError` for an unknown prompt.

The three registries `list_tools`, `list_resources` and `list_prompts` are literal lists. This project models all of the above in Dafny and proves how they behave and how they agree with one another.

The modules follow the structure of `ethicist_mcp/server.py`:

- `Wrappers`: `Option`, `Result`, and the two Python exceptions the server can raise.
- `Text`: the string operations the handlers use, over `seq<char>` (ASCII case mapping, `title`, `join`, substring test). It also has `ConcatMap`, the text a `for` loop appends.
- `Knowledge`: the two global tables as ordered key/value sequences (a dict iterates in insertion order), dict lookup, and the first-match substring search.
- `Registry`: the three registries and the argument shapes the tool schemas declare.
- `Reports`: each tool branch as a pure specification function, plus the dispatcher `ToolResponse`.
- `Dispatch`: `call_tool` as the server runs it, with the server's own tables (including the techniques table with its upper-case "LLM" key, see Findings). It appends to a local string in `for` loops, with `break` and `for`/`else` searches. Every method is proved to produce exactly the text its `Reports` function specifies.
- `Responses`: what the dispatcher answers for each name. Known tools answer with one Markdown document or raise `AttributeError`; unknown names get the unknown-tool text.
- `ReportProperties`: the contents of the reports. It covers defaults, skipped unknown keys, numbering, the first-match rules, the checklist rule, and the techniques-table finding below.
- `ToolProperties`: the tool registry against the handlers.
- `Resources`: `read_resource`.
- `Prompts`: `get_prompt`.

A missing string argument is modelled as the server handles it:

- `arguments.get(key)` yields `None`, which an f-string prints as `None`.
- Calling `.title()` on a missing `project_type` raises `AttributeError`, and so does calling `.lower()` on a missing `system_type`. Both are modelled as the `Failure` outcome of the call.

The server never checks a schema's `required` list, and the model does not either. The only thing a tool call demands of its caller is that each supplied argument has the JSON type its schema declares (`ArgsWellTyped`).

Further details of the code that the model follows:

- An empty argument is substituted verbatim.
- `read_resource` selects a framework by the last `/`-separated segment of any URI under `ethicist://frameworks/`. That means `ethicist://frameworks/x/virtue` reads the virtue framework.
- The `required` flags of prompt arguments are not enforced.
- The descriptions `get_prompt` returns differ from those `list_prompts` advertises.
- The risk level is compared case-sensitively, so `"High"` adds no high-risk items.

## Model

| member | source | states |
|---|---|---|
| Dispatch.CallTool | ethicist_mcp/server.py:210-481 | routes a name to its branch and returns exactly the answer `ToolResponse` specifies for every well-typed argument mapping |
| Dispatch.AnalyzeEthicalScenario | ethicist_mcp/server.py:214-237 | the scenario analysis built by appending: header, one section per known requested framework, the five recommendations |
| Dispatch.AppendFrameworkSections | ethicist_mcp/server.py:220-228 | the loop over requested framework keys appends, in request order, the section of each known key and nothing for an unknown key |
| Dispatch.RenderFrameworkSection | ethicist_mcp/server.py:223-228 | a framework's section: name, description, every principle as a bullet, the analysis line |
| Dispatch.EvaluateAiSystem | ethicist_mcp/server.py:239-282 | the evaluation built by appending: header, the stakeholders line only for a non-empty list, one section per guideline in table order, the recommendations |
| Dispatch.RenderGuidelineSection | ethicist_mcp/server.py:254-274 | a guideline's section with its title-cased key, description and assessment questions |
| Dispatch.CheckBias | ethicist_mcp/server.py:284-323 | the bias report built by appending: header, one section per known requested bias type, the action items |
| Dispatch.AppendBiasSections | ethicist_mcp/server.py:299-315 | the loop over requested bias types appends the section of each known type in request order and skips unknown types |
| Dispatch.RenderBiasSection | ethicist_mcp/server.py:301-315 | a bias type's section with its title, description and mitigation strategies |
| Dispatch.GenerateEthicalGuidelines | ethicist_mcp/server.py:325-396 | raises `AttributeError` when `project_type` is missing; otherwise builds the guidelines text the specification function gives |
| Dispatch.RenderGuidelinesHeader | ethicist_mcp/server.py:330-336 | title-cased project type, upper-cased risk level, regulations line only when regulations are given |
| Dispatch.AppendNumberedPrinciples | ethicist_mcp/server.py:339-340 | the `enumerate(..., 1)` loop appends entry i numbered i + 1 |
| Dispatch.AppendDomainConsiderations | ethicist_mcp/server.py:372-381 | the `for`/`else` search appends the considerations of the first domain named in the lower-cased project type, or the three generic lines |
| Dispatch.AppendChecklist | ethicist_mcp/server.py:383-394 | the six base items, then the three high-risk items for "high" or "critical" |
| Dispatch.AssessTransparency | ethicist_mcp/server.py:398-478 | raises `AttributeError` when `system_type` is missing; otherwise builds the transparency text the specification function gives, searching the techniques table exactly as the server spells it |
| Dispatch.AppendTechniques | ethicist_mcp/server.py:440-448 | for any techniques table, the search appends the techniques of the first system type named in the lower-cased system type, then stops; nothing when none is named |
| Dispatch.RenderTechniques | ethicist_mcp/server.py:443-446 | one system type's block: the "Recommended for" line, one bullet per technique in order, a blank line |
| Dispatch.AppendStakeholderLine | ethicist_mcp/server.py:461-466 | one stakeholder group gets the recommendation of the first key in its lower-cased name, or no line |
| Dispatch.AppendStakeholderRecommendations | ethicist_mcp/server.py:460-469 | one search per named group, or every recommendation under its title-cased key when no group is named |
| Responses.KnownToolsAnswerWithHeading | ethicist_mcp/server.py:214-478 | every advertised tool that does not raise answers with exactly one text item, a Markdown document whose first character is `#`; the exact opening line of each tool is stated in the five rows below |
| Reports.ToolResponse | ethicist_mcp/server.py:210-481 | the definition of `call_tool`'s answer: a success is one text item and a failure is an `AttributeError`; exactly which calls fail is stated by `Responses.ToolResponseOutcome`, the unknown-name answer by `Responses.UnknownToolIffUnlisted` |
| Responses.ToolResponseOutcome | ethicist_mcp/server.py:210-481 | a call raises exactly when `generate_ethical_guidelines` lacks `project_type` or `assess_transparency` lacks `system_type`, with the matching `AttributeError` message; every other call answers with one item |
| Responses.UnknownToolIffUnlisted | ethicist_mcp/server.py:480-481 | the answer is the single item `Unknown tool: <name>` if and only if `list_tools` does not advertise the name |
| Responses.RequiredArgumentsSuffice | ethicist_mcp/server.py:160-205 | a call that supplies every argument its schema marks as required never raises |
| Responses.ScenarioAnswerHeading | ethicist_mcp/server.py:214-237 | `analyze_ethical_scenario` always answers with one item that opens with `# Ethical Analysis of Scenario` and a blank line, even with no arguments |
| Responses.EvaluationAnswerHeading | ethicist_mcp/server.py:239-282 | `evaluate_ai_system` always answers with one item that opens with `# AI System Ethical Evaluation` and a blank line |
| Responses.BiasAnswerHeading | ethicist_mcp/server.py:284-323 | `check_bias` always answers with one item that opens with `# Bias Assessment Report` and a blank line |
| Responses.GuidelinesAnswerHeading | ethicist_mcp/server.py:325-396 | with `project_type` present, `generate_ethical_guidelines` answers with one item that opens with `# Ethical Guidelines for <Title-cased project type> AI Project` and a blank line |
| Responses.TransparencyAnswerHeading | ethicist_mcp/server.py:398-478 | with `system_type` present, `assess_transparency` answers with one item that opens with `# Transparency Assessment` and a blank line |
| Responses.ScenarioReportHeading | ethicist_mcp/server.py:218 | the scenario analysis begins with the line `# Ethical Analysis of Scenario` and a blank line, whatever the scenario and frameworks |
| Responses.EvaluationReportHeading | ethicist_mcp/server.py:244-251 | the evaluation begins with the line `# AI System Ethical Evaluation` and a blank line, whatever the inputs |
| Responses.BiasReportHeading | ethicist_mcp/server.py:288-298 | the bias report begins with the line `# Bias Assessment Report` and a blank line, whatever the inputs |
| Responses.GuidelinesReportHeading | ethicist_mcp/server.py:330-336 | the guidelines begin with the line `# Ethical Guidelines for <Title-cased project type> AI Project` and a blank line, whatever the risk level and regulations |
| Responses.TransparencyReportHeading | ethicist_mcp/server.py:403-408 | for any techniques table, the transparency assessment begins with the line `# Transparency Assessment` and a blank line, whatever the inputs |
| ToolProperties.ToolNames | ethicist_mcp/server.py:88-207 | the advertised names are exactly `analyze_ethical_scenario`, `evaluate_ai_system`, `check_bias`, `generate_ethical_guidelines` and `assess_transparency`, in that order, one per listed tool |
| Registry.ListTools | ethicist_mcp/server.py:88-207 | the definition of `list_tools`: five tools; names, schemas and branches are stated by `ToolProperties.ToolRegistryShape` |
| ToolProperties.ToolRegistryShape | ethicist_mcp/server.py:88-207 | exactly five tools, under distinct names, each with a `call_tool` branch; every required name is a declared property |
| ToolProperties.SchemaIsHandlerTyping | ethicist_mcp/server.py:88-207 | the argument typing each handler relies on is exactly the typing its schema declares |
| ToolProperties.SchemaEnumsAdvertised | ethicist_mcp/server.py:102-181 | the `frameworks`, `bias_types` and `risk_level` schemas advertise the framework keys, the bias types and the four risk levels |
| ToolProperties.EnumsAreTableKeys | ethicist_mcp/server.py:102-286 | the advertised framework and bias-type enumerations (schemas at lines 102-156) and the handlers' defaults (lines 216 and 286) are the tables' keys in table order |
| ToolProperties.SchemaRequirements | ethicist_mcp/server.py:160-205 | the two tools that can raise mark the argument they need as required |
| ReportProperties.DefaultFrameworksCoverTable | ethicist_mcp/server.py:216-228 | the default frameworks render the section of every framework in the table, in table order |
| ReportProperties.UnknownFrameworksIgnored | ethicist_mcp/server.py:220-221 | requested frameworks the table lacks are skipped: the analysis equals that of the known ones in request order |
| ReportProperties.OmittedFrameworksAnalyseAll | ethicist_mcp/server.py:216 | without `frameworks` the analysis is the header, every framework's section in table order, and the recommendations |
| ReportProperties.OmittedScenarioShownAsNone | ethicist_mcp/server.py:215-218 | a missing scenario reads exactly as the text "None" |
| ReportProperties.SelectedPrinciplesShown | ethicist_mcp/server.py:220-227 | every principle of every requested known framework appears as a bullet line in the analysis |
| ReportProperties.EveryGuidelineAssessed | ethicist_mcp/server.py:253-274 | every one of the guidelines gets its section in the evaluation |
| ReportProperties.QuestionsForFiveGuidelines | ethicist_mcp/server.py:258-272 | assessment questions exist exactly for the first five guideline keys |
| ReportProperties.DefaultBiasTypesCoverTable | ethicist_mcp/server.py:286-302 | the default bias types render the section of every described bias type, in table order |
| ReportProperties.UnknownBiasTypesIgnored | ethicist_mcp/server.py:299-300 | bias types the table lacks are skipped |
| ReportProperties.OmittedBiasTypesCheckAll | ethicist_mcp/server.py:286 | without `bias_types` the report covers every bias type in table order |
| ReportProperties.MitigationsListed | ethicist_mcp/server.py:305-313 | mitigation lines exist if and only if the bias type is selection, algorithmic or representation |
| ReportProperties.NumberedPrinciplesFromOne | ethicist_mcp/server.py:339-340 | the principles are numbered 1, 2, ... from the front, as an independent front-to-back numbering defines |
| ReportProperties.OmittedRiskLevelIsMedium | ethicist_mcp/server.py:327 | omitting `risk_level` is the same as giving "medium", which adds no high-risk item |
| ReportProperties.DomainConsiderationsChoice | ethicist_mcp/server.py:372-381 | the considerations are those of the first domain named in the lower-cased project type, and the generic lines when none is named |
| ReportProperties.ChecklistByRisk | ethicist_mcp/server.py:383-394 | the checklist renders the base items followed by the high-risk items exactly when the risk level is "high" or "critical" |
| ReportProperties.OmittedExplanationMethod | ethicist_mcp/server.py:400 | omitting `explanation_method` is the same as giving "None specified" |
| Knowledge.FirstKeyInIsFirstMatch | ethicist_mcp/server.py:442-448 | the search returns index i if and only if key i occurs and no earlier key does, and nothing if and only if no key occurs |
| ReportProperties.TechniquesBlockChoice | ethicist_mcp/server.py:440-448 | for any techniques table, the server's as written included, the block is that of the first system type in table order that occurs in the lower-cased system type, and empty when none occurs |
| ReportProperties.UpperCaseTechniqueNeverSelected | ethicist_mcp/server.py:437-443 | with the table as written, no system type ever selects the "LLM" techniques |
| ReportProperties.LlmAsWrittenGetsNoTechniques | ethicist_mcp/server.py:434-448 | with the table as written, the system type "LLM" gets no techniques block at all |
| ReportProperties.LlmCallGetsNoTechniques | ethicist_mcp/server.py:398-478 | `assess_transparency` with `system_type` "LLM" answers with the header and the transparency dimensions followed directly by the stakeholder recommendations and the action items: no techniques block |
| ReportProperties.LlmCallMissesIntendedReport | ethicist_mcp/server.py:434-448 | that answer differs from the assessment the lower-case table gives for the same arguments |
| ReportProperties.EveryTechniqueKeySelectsItself | ethicist_mcp/server.py:434-443 | with lower-case keys, every system type of the table selects its own techniques |
| ReportProperties.LlmTechniquesSelectable | ethicist_mcp/server.py:441-443 | with lower-case keys, a system type naming "llm" and neither earlier key selects the LLM techniques |
| ReportProperties.LlmGetsItsTechniques | ethicist_mcp/server.py:441-448 | with lower-case keys, the system type "LLM" gets the LLM techniques |
| ReportProperties.StakeholderLineChoice | ethicist_mcp/server.py:461-466 | a named group gets the recommendation of the first key in its lower-cased name, and no line when none occurs |
| ReportProperties.UnmatchedStakeholdersIgnored | ethicist_mcp/server.py:460-466 | named groups that match no key contribute nothing |
| ReportProperties.AllRecommendationsWhenNoneNamed | ethicist_mcp/server.py:467-469 | with no group named, every recommendation of the table is given |
| Knowledge.Lookup | ethicist_mcp/server.py:221-222 | `key in d` / `d[key]`: absent exactly when the key is not among the keys, otherwise a stored value |
| Knowledge.FirstKeyIn | ethicist_mcp/server.py:373-381 | the first key in table order that occurs in the text, with no earlier key occurring; none when no key occurs |
| Knowledge.KnowledgeKeysDistinct | ethicist_mcp/server.py:36-85 | both knowledge tables have distinct keys |
| Knowledge.FrameworksWellFormed | ethicist_mcp/server.py:36-73 | every framework has a name and at least three principles |
| Resources.ReadResource | ethicist_mcp/server.py:527-546 | the definition of `read_resource`: a URI is read only when it is one of the two exact URIs or lies under the frameworks prefix, and every failure is a `ValueError`; case by case in `Resources.ReadResourceCases` |
| Resources.ReadResourceCases | ethicist_mcp/server.py:527-546 | the two exact URIs yield the whole tables; other framework URIs yield the framework named by the last segment or raise `Unknown framework`; all else raises `Unknown resource URI` |
| Resources.LastSegment | ethicist_mcp/server.py:539 | `split("/")[-1]`: a slash-free suffix that is all of the text or follows its last slash |
| Registry.ListResources | ethicist_mcp/server.py:484-524 | the definition of `list_resources`: six JSON resources under distinct URIs; their coverage of the frameworks is stated by `Resources.ResourcesCoverEveryFramework` |
| Resources.ResourcesCoverEveryFramework | ethicist_mcp/server.py:484-524 | six resources; every framework has one under its key's URI and its display name |
| Resources.ListedResourcesResolve | ethicist_mcp/server.py:484-546 | every advertised resource URI reads without error |
| Resources.ListedResourceResolves | ethicist_mcp/server.py:484-546 | the k-th advertised resource URI reads without error |
| Resources.ExactUrisResolve | ethicist_mcp/server.py:532-536 | the two table URIs yield the whole frameworks and guidelines tables |
| Resources.FrameworkUriResolves | ethicist_mcp/server.py:538-541 | each framework's own URI yields that framework |
| Resources.SingleFrameworkShape | ethicist_mcp/server.py:538-541 | a successful single-framework read is an object with the framework's `name` and at least three `key_principles` |
| Resources.ExtraSegmentsIgnored | ethicist_mcp/server.py:538-541 | segments between the prefix and the last segment are ignored |
| Resources.NotAnExactUri | ethicist_mcp/server.py:532-538 | a URI with a framework key after the prefix is neither exact URI |
| Registry.ListPrompts | ethicist_mcp/server.py:549-591 | the definition of `list_prompts`: three prompts under distinct names, each with a required first argument; which are served is stated by `Prompts.GetPromptServesListed` |
| Prompts.GetPrompt | ethicist_mcp/server.py:594-748 | the definition of `get_prompt`: a served prompt is one user message, and any other name raises `ValueError("Unknown prompt: <name>")`; which names are served is stated by `Prompts.GetPromptServesListed` |
| Prompts.GetPromptServesListed | ethicist_mcp/server.py:594-748 | a name is served exactly when `list_prompts` advertises it, with one user message; any other name raises `Unknown prompt: <name>` |
| Prompts.ArgumentOr | ethicist_mcp/server.py:599 | a supplied argument is used, and a missing map or key gives the default |
| Prompts.PromptDefaults | ethicist_mcp/server.py:594-691 | no map, an empty map or a map without the declared keys give the placeholder phrases |
| Prompts.PromptArgumentRecoverable | ethicist_mcp/server.py:598-687 | the single-argument prompts contain their argument verbatim and it can be read back |
| Prompts.SameLookupsSamePrompt | ethicist_mcp/server.py:594-691 | two argument maps that give the same values (or defaults) for the keys the named prompt looks up give the same prompt |
| Prompts.UndeclaredArgumentsIgnored | ethicist_mcp/server.py:594-691 | arguments a prompt does not declare have no effect |
| Prompts.ExtractFill | ethicist_mcp/server.py:608 | reading back a filled template gives the substituted argument |
| Prompts.FillExtract | ethicist_mcp/server.py:608 | whatever is read back fills the template to the same text |
| Prompts.FillInjective | ethicist_mcp/server.py:654 | different arguments give different prompt texts |
| Prompts.RiskArgumentsRecoverable | ethicist_mcp/server.py:700-701 | a single-line system description and the deployment context can both be read back from the risk prompt |
| Prompts.RiskArgumentsAmbiguous | ethicist_mcp/server.py:700-701 | with a line break in the description, two argument pairs render the same risk prompt |

## Left out

- The MCP `Server` object, its decorators and `async`: framework plumbing with no logic of its own.
- The stdio and HTTP transports, the entry points and logging: I/O and side effects only. `ethicist_mcp/http_server.py` is not part of this model.
- The byte layout of `json.dumps(..., indent=2)`: `read_resource` returns the selected subtree as a JSON value instead of a string.
- Unicode case mapping: `lower`, `upper` and `title` are modelled for ASCII letters only.
- Pydantic `AnyUrl` normalisation: the URI is taken as an already stringified input.
- Arguments of a type other than the declared one (a number, `null`, a string where an array is expected): the model requires well-typed arguments, as the schemas declare.
- A `None` argument mapping for `call_tool`: the model takes a mapping, possibly empty.
- The demo and test drivers: they print and call the server; they are not modelled.
- Repeated `get_prompt` calls give identical results because every Dafny function is deterministic; no separate lemma states it.
- Dispatch: each branch appends whole rendered sections (or whole fixed blocks) rather than the single lines the server appends one after another; the resulting text is the same and is proved equal.

## Findings

| source | as written | input that shows it | evidently intended | confidence | as-written member | corrected member |
|---|---|---|---|---|---|---|
| ethicist_mcp/server.py:437-443 | the techniques key "LLM" is upper case but is compared against the lower-cased system type, so that entry can never be selected | `assess_transparency` with `system_type` "LLM" gets no techniques block | the key should be "llm", so that an LLM system is recommended prompt engineering, chain-of-thought, attribution methods and attention weights | high (not executed) | ReportProperties.LlmCallGetsNoTechniques | ReportProperties.EveryTechniqueKeySelectsItself |

The model of `call_tool` keeps the table as written (`Reports.TECHNIQUES`), so `Dispatch.CallTool` and `Reports.ToolResponse` reproduce the missing block. The corrected table `Reports.LOWER_CASE_TECHNIQUES` differs only in that key; `ReportProperties.LlmGetsItsTechniques` and `ReportProperties.EveryTechniqueKeySelectsItself` state what it would give.
