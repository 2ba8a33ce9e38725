/** What `call_tool` answers, as pure functions: one report function per tool branch, built
    from the knowledge tables and the branch's own tables, and the dispatcher `ToolResponse`.
    The imperative construction of the same texts is in module Dispatch. */
module Reports {
  import opened Wrappers
  import opened Text
  import opened Knowledge
  import opened Registry

  datatype Content = TextContent(text: string)

  /** A tool call either returns content items or raises (only a missing argument that the
      handler calls a string method on makes it raise). */
  type ToolResult = Result<seq<Content>, PyError>

  /** An f-string rendering of `arguments.get(key)`: a missing argument prints as `None`. */
  function Show(v: Option<string>): string
  {
    match v
    case Some(s) => s
    case None => "None"
  }

  /** `arguments.get(key)` for a string argument. */
  function GetString(args: Arguments, key: string): Option<string>
    requires StringOrAbsent(args, key)
  {
    if key in args then Some(args[key].text) else None
  }

  /** `arguments.get(key, default)` for a string argument. */
  function GetStringOr(args: Arguments, key: string, default: string): string
    requires StringOrAbsent(args, key)
  {
    if key in args then args[key].text else default
  }

  /** `arguments.get(key, default)` for an array argument. */
  function GetArrayOr(args: Arguments, key: string, default: seq<string>): seq<string>
    requires ArrayOrAbsent(args, key)
  {
    if key in args then args[key].items else default
  }

  function Bullet(item: string): string
  {
    "- " + item + "\n"
  }

  function ItemLines(items: seq<string>): string
  {
    ConcatMap(Bullet, items)
  }

  /** `key.replace('_', ' ').title()`: how a table key is shown as a heading. */
  function KeyTitle(key: string): string
  {
    Title(ReplaceChar(key, '_', ' '))
  }

  // ---------------------------------------------------------------- analyze_ethical_scenario

  const DEFAULT_FRAMEWORKS := ["utilitarian", "deontological", "virtue", "care"]

  function ScenarioHeader(scenario: Option<string>): string
  {
    "# Ethical Analysis of Scenario\n\n" + "**Scenario:** " + Show(scenario) + "\n\n"
  }

  function FrameworkAnalysisLine(f: Framework): string
  {
    "\n**Analysis:** This scenario should be evaluated considering whether it aligns with "
    + Lower(f.name) + " principles, particularly focusing on "
    + Lower(Join(", ", Take(f.keyPrinciples, 2))) + ".\n"
  }

  /** The section one framework contributes to a scenario analysis. */
  function FrameworkSection(f: Framework): string
  {
    "\n## " + f.name + "\n\n" + f.description + "\n\n" + "**Key Principles:**\n"
    + ItemLines(f.keyPrinciples) + FrameworkAnalysisLine(f)
  }

  /** The section a requested framework key contributes: nothing for an unknown key. */
  function FrameworkItem(key: string): string
  {
    match Lookup(ETHICAL_FRAMEWORKS, key)
    case Some(f) => FrameworkSection(f)
    case None => ""
  }

  const SCENARIO_RECOMMENDATIONS :=
    "\n## Recommendations\n\n"
    + "1. Consider all stakeholders and their interests\n"
    + "2. Evaluate both short-term and long-term consequences\n"
    + "3. Ensure decisions respect human dignity and autonomy\n"
    + "4. Seek input from diverse perspectives\n"
    + "5. Document the reasoning process for accountability\n"

  function ScenarioReport(scenario: Option<string>, frameworks: seq<string>): string
  {
    ScenarioHeader(scenario) + ConcatMap(FrameworkItem, frameworks) + SCENARIO_RECOMMENDATIONS
  }

  function AnalyzeScenarioText(args: Arguments): string
    requires ArgsWellTyped(ANALYZE_ETHICAL_SCENARIO, args)
  {
    ScenarioReport(GetString(args, "scenario"), GetArrayOr(args, "frameworks", DEFAULT_FRAMEWORKS))
  }

  // ---------------------------------------------------------------- evaluate_ai_system

  function EvaluationHeader(system: Option<string>, useCase: Option<string>, stakeholders: seq<string>): string
  {
    var opening := "# AI System Ethical Evaluation\n\n" + "**System:** " + Show(system) + "\n\n"
                   + "**Use Case:** " + Show(useCase) + "\n\n";
    var named := if stakeholders != [] then opening + "**Stakeholders:** " + Join(", ", stakeholders) + "\n\n"
                 else opening;
    named + "## Ethical Guidelines Assessment\n\n"
  }

  /** The assessment questions asked about one guideline (none for the last three). */
  function AssessmentQuestions(guideline: string): string
  {
    if guideline == "fairness" then
      "- Does the system treat all user groups equitably?\n"
      + "- Are there mechanisms to detect and mitigate bias?\n"
    else if guideline == "transparency" then
      "- Can users understand how decisions are made?\n"
      + "- Is the system's logic documented and accessible?\n"
    else if guideline == "accountability" then
      "- Who is responsible for system failures?\n"
      + "- Are there audit trails for decisions?\n"
    else if guideline == "privacy" then
      "- How is personal data collected and protected?\n"
      + "- Are privacy-by-design principles followed?\n"
    else if guideline == "safety" then
      "- What safeguards prevent harmful outcomes?\n"
      + "- How are edge cases and failures handled?\n"
    else ""
  }

  function GuidelineSection(g: (string, string)): string
  {
    "### " + KeyTitle(g.0) + "\n" + g.1 + "\n\n" + "**Assessment Questions:**\n"
    + AssessmentQuestions(g.0) + "\n"
  }

  const EVALUATION_RECOMMENDATIONS :=
    "## Recommendations\n\n"
    + "- Conduct regular ethical audits\n"
    + "- Establish an AI ethics review board\n"
    + "- Implement continuous monitoring for bias and fairness\n"
    + "- Provide clear documentation and user education\n"

  function EvaluationReport(system: Option<string>, useCase: Option<string>, stakeholders: seq<string>): string
  {
    EvaluationHeader(system, useCase, stakeholders)
    + ConcatMap(GuidelineSection, AI_ETHICS_GUIDELINES) + EVALUATION_RECOMMENDATIONS
  }

  function EvaluateSystemText(args: Arguments): string
    requires ArgsWellTyped(EVALUATE_AI_SYSTEM, args)
  {
    EvaluationReport(GetString(args, "system_description"), GetString(args, "use_case"),
                     GetArrayOr(args, "stakeholders", []))
  }

  // ---------------------------------------------------------------- check_bias

  const DEFAULT_BIAS_TYPES := ["selection", "confirmation", "algorithmic", "representation", "measurement"]

  const BIAS_DESCRIPTIONS: Table<string> := [
    ("selection", "Occurs when the data sample is not representative of the population"),
    ("confirmation", "Tendency to interpret information confirming existing beliefs"),
    ("algorithmic", "Systematic errors introduced by algorithm design choices"),
    ("representation", "Underrepresentation or misrepresentation of certain groups"),
    ("measurement", "Errors in how variables are defined and measured")
  ]

  function BiasHeader(context: Option<string>): string
  {
    "# Bias Assessment Report\n\n" + "**Context:** " + Show(context) + "\n\n" + "## Bias Types to Check\n\n"
  }

  /** The mitigation strategies listed for one bias type (none for confirmation and measurement). */
  function Mitigations(biasType: string): string
  {
    if biasType == "selection" then
      "- Use stratified sampling to ensure representation\n"
      + "- Validate data against known population distributions\n"
    else if biasType == "algorithmic" then
      "- Test algorithm performance across different groups\n"
      + "- Use fairness-aware machine learning techniques\n"
    else if biasType == "representation" then
      "- Ensure diverse data collection\n"
      + "- Include underrepresented groups in testing\n"
    else ""
  }

  function BiasSectionOf(biasType: string, description: string): string
  {
    "### " + Title(biasType) + " Bias\n" + description + "\n\n" + "**Mitigation Strategies:**\n"
    + Mitigations(biasType) + "\n"
  }

  /** The section a requested bias type contributes: nothing for an unknown type. */
  function BiasItem(biasType: string): string
  {
    match Lookup(BIAS_DESCRIPTIONS, biasType)
    case Some(d) => BiasSectionOf(biasType, d)
    case None => ""
  }

  const BIAS_ACTION_ITEMS :=
    "## Action Items\n\n"
    + "1. Conduct thorough data audit\n"
    + "2. Implement bias detection metrics\n"
    + "3. Establish diverse review teams\n"
    + "4. Create feedback mechanisms for affected users\n"

  function BiasReport(context: Option<string>, biasTypes: seq<string>): string
  {
    BiasHeader(context) + ConcatMap(BiasItem, biasTypes) + BIAS_ACTION_ITEMS
  }

  function CheckBiasText(args: Arguments): string
    requires ArgsWellTyped(CHECK_BIAS, args)
  {
    BiasReport(GetString(args, "context"), GetArrayOr(args, "bias_types", DEFAULT_BIAS_TYPES))
  }

  // ---------------------------------------------------------------- generate_ethical_guidelines

  /** The messages of the AttributeError raised when a missing argument's string method is called. */
  const NONE_HAS_NO_TITLE := "'NoneType' object has no attribute 'title'"
  const NONE_HAS_NO_LOWER := "'NoneType' object has no attribute 'lower'"

  /** The header of a guidelines report, given the project type already title-cased and the
      risk level already upper-cased. */
  function GuidelinesHeader(projectTitle: string, riskLabel: string, regulations: seq<string>): string
  {
    var opening := "# Ethical Guidelines for " + projectTitle + " AI Project\n\n"
                   + "**Risk Level:** " + riskLabel + "\n\n";
    var regulated := if regulations != [] then opening + "**Applicable Regulations:** " + Join(", ", regulations) + "\n\n"
                     else opening;
    regulated + "## Core Ethical Principles\n\n"
  }

  function NumberedPrinciple(index: nat, g: (string, string)): string
  {
    NatToString(index) + ". **" + KeyTitle(g.0) + ":** " + g.1 + "\n"
  }

  /** The loop over `enumerate(d.items(), 1)`: the last entry carries the number |t|. */
  function NumberedPrinciples(t: Table<string>): string
    decreases |t|
  {
    if t == [] then "" else NumberedPrinciples(t[..|t| - 1]) + NumberedPrinciple(|t|, t[|t| - 1])
  }

  const DOMAIN_SPECIFIC: Table<seq<string>> := [
    ("healthcare", [
      "Patient privacy and confidentiality (HIPAA compliance)",
      "Clinical decision support transparency",
      "Doctor-patient relationship preservation",
      "Equitable access to care"]),
    ("finance", [
      "Fair lending practices",
      "Transparent credit decisions",
      "Financial inclusion",
      "Regulatory compliance (SOX, PCI-DSS)"]),
    ("education", [
      "Student data protection (FERPA compliance)",
      "Equal learning opportunities",
      "Educator autonomy preservation",
      "Developmental appropriateness"]),
    ("criminal justice", [
      "Presumption of innocence",
      "Due process rights",
      "Bias prevention in risk assessment",
      "Transparency in sentencing recommendations"])
  ]

  const GENERIC_CONSIDERATIONS :=
    "- Identify domain-specific ethical concerns\n"
    + "- Consult with subject matter experts\n"
    + "- Review relevant industry standards\n"

  /** The considerations of the first domain, in table order, named inside the lower-cased
      project type; the three generic lines when no domain is. */
  function DomainConsiderations(projectType: string): string
  {
    match FirstKeyIn(DOMAIN_SPECIFIC, Lower(projectType))
    case Some(i) => ItemLines(DOMAIN_SPECIFIC[i].1)
    case None => GENERIC_CONSIDERATIONS
  }

  const BASE_CHECKLIST := [
    "Establish ethics review board",
    "Create ethical risk assessment process",
    "Develop incident response plan",
    "Implement continuous monitoring",
    "Provide stakeholder training",
    "Document all ethical decisions"
  ]

  const HIGH_RISK_CHECKLIST := [
    "Conduct third-party ethical audit",
    "Establish public transparency reports",
    "Create external advisory board"
  ]

  function CheckboxLine(item: string): string
  {
    "- [ ] " + item + "\n"
  }

  /** The implementation checklist: the base items, then the high-risk items for a "high" or
      "critical" risk level. */
  function Checklist(riskLevel: string): string
  {
    ConcatMap(CheckboxLine, BASE_CHECKLIST)
    + (if riskLevel in ["high", "critical"] then ConcatMap(CheckboxLine, HIGH_RISK_CHECKLIST) else "")
  }

  function GuidelinesReport(projectType: string, riskLevel: string, regulations: seq<string>): string
  {
    GuidelinesHeader(Title(projectType), Upper(riskLevel), regulations)
    + NumberedPrinciples(AI_ETHICS_GUIDELINES)
    + "\n## Project-Specific Considerations\n\n"
    + DomainConsiderations(projectType)
    + "\n## Implementation Checklist\n\n"
    + Checklist(riskLevel)
  }

  function GenerateGuidelinesText(args: Arguments): Result<string, PyError>
    requires ArgsWellTyped(GENERATE_ETHICAL_GUIDELINES, args)
  {
    if "project_type" !in args then Failure(AttributeError(NONE_HAS_NO_TITLE))
    else
      Success(GuidelinesReport(args["project_type"].text, GetStringOr(args, "risk_level", "medium"),
                               GetArrayOr(args, "regulations", [])))
  }

  // ---------------------------------------------------------------- assess_transparency

  function TransparencyHeader(systemType: string, explanationMethod: string, stakeholderNeeds: seq<string>): string
  {
    var opening := "# Transparency Assessment\n\n" + "**System Type:** " + systemType + "\n"
                   + "**Explanation Method:** " + explanationMethod + "\n\n";
    if stakeholderNeeds != [] then opening + "**Stakeholder Groups:** " + Join(", ", stakeholderNeeds) + "\n\n"
    else opening
  }

  const TRANSPARENCY_DIMENSIONS :=
    "## Transparency Dimensions\n\n"
    + "### 1. Input Transparency\n"
    + "- What data is collected?\n"
    + "- How is data preprocessed?\n"
    + "- Are data sources disclosed?\n\n"
    + "### 2. Process Transparency\n"
    + "- Can the decision-making process be explained?\n"
    + "- Are algorithmic steps documented?\n"
    + "- Is the model architecture understandable?\n\n"
    + "### 3. Output Transparency\n"
    + "- Are confidence levels provided?\n"
    + "- Can predictions be justified?\n"
    + "- Are alternative outcomes shown?\n\n"
    + "### 4. Performance Transparency\n"
    + "- Are accuracy metrics disclosed?\n"
    + "- Are limitations clearly stated?\n"
    + "- Are failure modes documented?\n\n"
    + "## Explainability Techniques\n\n"

  /** The explainability techniques table as the server spells it: its third key is upper
      case although it is compared against a lower-cased system type. */
  const TECHNIQUES: Table<seq<string>> := [
    ("neural network", ["LIME", "SHAP", "Attention visualization", "Layer-wise relevance propagation"]),
    ("decision tree", ["Tree visualization", "Feature importance", "Decision paths"]),
    ("LLM", ["Prompt engineering", "Chain-of-thought", "Attribution methods", "Attention weights"]),
    ("ensemble", ["Feature importance", "Partial dependence plots", "Individual predictions"])
  ]

  /** The same table with every key in lower case, as the comparison requires; the server
      does not use it (see the findings on `TECHNIQUES`). */
  const LOWER_CASE_TECHNIQUES: Table<seq<string>> := [
    ("neural network", ["LIME", "SHAP", "Attention visualization", "Layer-wise relevance propagation"]),
    ("decision tree", ["Tree visualization", "Feature importance", "Decision paths"]),
    ("llm", ["Prompt engineering", "Chain-of-thought", "Attribution methods", "Attention weights"]),
    ("ensemble", ["Feature importance", "Partial dependence plots", "Individual predictions"])
  ]

  /** The techniques recommended for the first system type in `table` that occurs in the
      lower-cased system type; nothing when none does. */
  function TechniquesBlock(table: Table<seq<string>>, systemType: string): string
  {
    match FirstKeyIn(table, Lower(systemType))
    case Some(i) => "**Recommended for " + systemType + ":**\n" + ItemLines(table[i].1) + "\n"
    case None => ""
  }

  const STAKEHOLDER_RECOMMENDATIONS: Table<string> := [
    ("users", "Provide simple, jargon-free explanations of how the system affects them"),
    ("developers", "Maintain comprehensive technical documentation and model cards"),
    ("regulators", "Ensure audit trails and compliance documentation"),
    ("executives", "Create high-level summaries of system capabilities and limitations"),
    ("affected parties", "Offer clear information about data use and decision appeals")
  ]

  /** The recommendation line for one named stakeholder group: that of the first key, in
      table order, occurring in its lower-cased name; nothing when no key does. */
  function StakeholderLine(stakeholder: string): string
  {
    match FirstKeyIn(STAKEHOLDER_RECOMMENDATIONS, Lower(stakeholder))
    case Some(i) => "**" + stakeholder + ":** " + STAKEHOLDER_RECOMMENDATIONS[i].1 + "\n\n"
    case None => ""
  }

  function DefaultRecommendation(r: (string, string)): string
  {
    "**" + Title(r.0) + ":** " + r.1 + "\n\n"
  }

  function StakeholderRecommendations(stakeholderNeeds: seq<string>): string
  {
    if stakeholderNeeds != [] then ConcatMap(StakeholderLine, stakeholderNeeds)
    else ConcatMap(DefaultRecommendation, STAKEHOLDER_RECOMMENDATIONS)
  }

  const TRANSPARENCY_ACTION_ITEMS :=
    "## Action Items\n\n"
    + "1. Implement appropriate explainability techniques\n"
    + "2. Create documentation for different audiences\n"
    + "3. Establish user feedback mechanisms\n"
    + "4. Conduct transparency audits\n"
    + "5. Provide training on system interpretation\n"

  /** The transparency assessment, with the explainability techniques taken from
      `techniques`; the server passes its own table `TECHNIQUES`. */
  function TransparencyReport(techniques: Table<seq<string>>, systemType: string, explanationMethod: string,
                              stakeholderNeeds: seq<string>): string
  {
    TransparencyHeader(systemType, explanationMethod, stakeholderNeeds)
    + TRANSPARENCY_DIMENSIONS
    + TechniquesBlock(techniques, systemType)
    + "## Stakeholder-Specific Recommendations\n\n"
    + StakeholderRecommendations(stakeholderNeeds)
    + TRANSPARENCY_ACTION_ITEMS
  }

  function AssessTransparencyText(args: Arguments): Result<string, PyError>
    requires ArgsWellTyped(ASSESS_TRANSPARENCY, args)
  {
    if "system_type" !in args then Failure(AttributeError(NONE_HAS_NO_LOWER))
    else
      Success(TransparencyReport(TECHNIQUES, args["system_type"].text,
                                 GetStringOr(args, "explanation_method", "None specified"),
                                 GetArrayOr(args, "stakeholder_needs", [])))
  }

  // ---------------------------------------------------------------- the dispatcher

  function AsContent(r: Result<string, PyError>): ToolResult
  {
    match r
    case Success(text) => Success([TextContent(text)])
    case Failure(e) => Failure(e)
  }

  /** `call_tool(name, arguments)`: the branch named `name`, or one text item for an unknown name. */
  function ToolResponse(name: string, args: Arguments): (r: ToolResult)
    requires ArgsWellTyped(name, args)
    ensures r.Success? ==> |r.value| == 1
    ensures r.Failure? ==> r.error.AttributeError?
  {
    if name == ANALYZE_ETHICAL_SCENARIO then Success([TextContent(AnalyzeScenarioText(args))])
    else if name == EVALUATE_AI_SYSTEM then Success([TextContent(EvaluateSystemText(args))])
    else if name == CHECK_BIAS then Success([TextContent(CheckBiasText(args))])
    else if name == GENERATE_ETHICAL_GUIDELINES then AsContent(GenerateGuidelinesText(args))
    else if name == ASSESS_TRANSPARENCY then AsContent(AssessTransparencyText(args))
    else Success([TextContent("Unknown tool: " + name)])
  }
}
