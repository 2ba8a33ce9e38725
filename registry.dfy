/** The three registries the server advertises (`list_tools`, `list_resources`,
    `list_prompts`) as literal lists, and the shape of tool arguments those schemas declare. */
module Registry {
  import opened Wrappers

  const ANALYZE_ETHICAL_SCENARIO := "analyze_ethical_scenario"
  const EVALUATE_AI_SYSTEM := "evaluate_ai_system"
  const CHECK_BIAS := "check_bias"
  const GENERATE_ETHICAL_GUIDELINES := "generate_ethical_guidelines"
  const ASSESS_TRANSPARENCY := "assess_transparency"

  /** A JSON argument value as the tool schemas type them: a string or an array of strings. */
  datatype Value = Str(text: string) | Strs(items: seq<string>)

  /** The `arguments` mapping of a tool call; an absent key is an argument not supplied. */
  type Arguments = map<string, Value>

  datatype Kind = StringKind | StringArrayKind

  function KindOf(v: Value): Kind
  {
    match v
    case Str(_) => StringKind
    case Strs(_) => StringArrayKind
  }

  /** One property of a tool's `inputSchema`. */
  datatype Param = Param(
    name: string,
    kind: Kind,
    description: string,
    allowed: Option<seq<string>>,
    default: Option<Value>)

  datatype ToolDef = ToolDef(name: string, description: string, properties: seq<Param>, required: seq<string>)

  datatype ResourceDef = ResourceDef(uri: string, name: string, mimeType: string, description: string)

  datatype PromptArgument = PromptArgument(name: string, description: string, required: bool)

  datatype PromptDef = PromptDef(name: string, description: string, arguments: seq<PromptArgument>)

  const FRAMEWORK_ENUM := ["utilitarian", "deontological", "virtue", "care"]

  const BIAS_TYPE_ENUM := ["selection", "confirmation", "algorithmic", "representation", "measurement"]

  const RISK_LEVEL_ENUM := ["low", "medium", "high", "critical"]

  /** `list_tools()`: the five tools. */
  function ListTools(): (tools: seq<ToolDef>)
    ensures |tools| == 5
  {
    [ ToolDef(
        ANALYZE_ETHICAL_SCENARIO,
        "Analyze an ethical scenario using multiple ethical frameworks and provide comprehensive guidance",
        [ Param("scenario", StringKind, "The ethical scenario or dilemma to analyze", None, None),
          Param("frameworks", StringArrayKind, "Ethical frameworks to apply (default: all)",
                Some(FRAMEWORK_ENUM), Some(Strs(FRAMEWORK_ENUM))) ],
        ["scenario"]),
      ToolDef(
        EVALUATE_AI_SYSTEM,
        "Evaluate an AI system against ethical guidelines and principles",
        [ Param("system_description", StringKind, "Description of the AI system to evaluate", None, None),
          Param("use_case", StringKind, "The intended use case or application domain", None, None),
          Param("stakeholders", StringArrayKind, "List of stakeholder groups affected by the system", None, None) ],
        ["system_description", "use_case"]),
      ToolDef(
        CHECK_BIAS,
        "Check for potential biases in AI system design, data, or decision-making",
        [ Param("context", StringKind, "Context or description of where bias might occur", None, None),
          Param("bias_types", StringArrayKind, "Types of bias to check for", Some(BIAS_TYPE_ENUM), None) ],
        ["context"]),
      ToolDef(
        GENERATE_ETHICAL_GUIDELINES,
        "Generate customized ethical guidelines for a specific AI project or use case",
        [ Param("project_type", StringKind, "Type of AI project (e.g., healthcare, finance, education)", None, None),
          Param("risk_level", StringKind, "Risk level of the project", Some(RISK_LEVEL_ENUM), None),
          Param("regulations", StringArrayKind, "Applicable regulations or standards (e.g., GDPR, HIPAA)", None, None) ],
        ["project_type"]),
      ToolDef(
        ASSESS_TRANSPARENCY,
        "Assess the transparency and explainability of an AI system",
        [ Param("system_type", StringKind, "Type of AI system (e.g., neural network, decision tree, LLM)", None, None),
          Param("explanation_method", StringKind, "Method used for explaining decisions (if any)", None, None),
          Param("stakeholder_needs", StringArrayKind, "Different stakeholder groups needing explanations", None, None) ],
        ["system_type"])
    ]
  }

  const FRAMEWORKS_ALL_URI := "ethicist://frameworks/all"
  const GUIDELINES_URI := "ethicist://guidelines/ai-ethics"
  const FRAMEWORKS_PREFIX := "ethicist://frameworks/"

  /** `list_resources()`: six JSON resources under distinct URIs. */
  function ListResources(): (resources: seq<ResourceDef>)
    ensures |resources| == 6
    ensures forall i :: 0 <= i < |resources| ==> resources[i].mimeType == "application/json"
    ensures forall i, j :: 0 <= i < j < |resources| ==> resources[i].uri != resources[j].uri
  {
    [ ResourceDef(FRAMEWORKS_ALL_URI, "Ethical Frameworks", "application/json",
        "Complete database of major ethical frameworks and their principles"),
      ResourceDef(GUIDELINES_URI, "AI Ethics Guidelines", "application/json",
        "Comprehensive AI ethics guidelines and principles"),
      ResourceDef(FRAMEWORKS_PREFIX + "utilitarian", "Utilitarian Ethics", "application/json",
        "Utilitarian ethical framework details"),
      ResourceDef(FRAMEWORKS_PREFIX + "deontological", "Deontological Ethics", "application/json",
        "Deontological ethical framework details"),
      ResourceDef(FRAMEWORKS_PREFIX + "virtue", "Virtue Ethics", "application/json",
        "Virtue ethics framework details"),
      ResourceDef(FRAMEWORKS_PREFIX + "care", "Ethics of Care", "application/json",
        "Ethics of care framework details")
    ]
  }

  const ETHICAL_DECISION_MAKING := "ethical_decision_making"
  const STAKEHOLDER_ANALYSIS := "stakeholder_analysis"
  const AI_RISK_ASSESSMENT := "ai_risk_assessment"

  /** `list_prompts()`: three prompts under distinct names, each with a required first
      argument. */
  function ListPrompts(): (prompts: seq<PromptDef>)
    ensures |prompts| == 3
    ensures forall i, j :: 0 <= i < j < |prompts| ==> prompts[i].name != prompts[j].name
    ensures forall i :: 0 <= i < |prompts| ==> prompts[i].arguments != [] && prompts[i].arguments[0].required
  {
    [ PromptDef(ETHICAL_DECISION_MAKING,
        "Guide users through a structured ethical decision-making process",
        [PromptArgument("situation", "The ethical situation or decision to be made", true)]),
      PromptDef(STAKEHOLDER_ANALYSIS,
        "Help analyze and consider all stakeholders affected by a decision",
        [PromptArgument("decision", "The decision or action being considered", true)]),
      PromptDef(AI_RISK_ASSESSMENT,
        "Assess potential ethical risks of an AI system",
        [ PromptArgument("system_description", "Description of the AI system", true),
          PromptArgument("deployment_context", "Where and how the system will be deployed", false) ])
    ]
  }

  /** Every supplied argument that a schema declares has the declared JSON type. */
  predicate ConformsTo(properties: seq<Param>, args: Arguments)
  {
    forall i :: 0 <= i < |properties| && properties[i].name in args ==>
      KindOf(args[properties[i].name]) == properties[i].kind
  }

  predicate StringOrAbsent(args: Arguments, key: string) { key in args ==> args[key].Str? }

  predicate ArrayOrAbsent(args: Arguments, key: string) { key in args ==> args[key].Strs? }

  /** The argument typing the handler of tool `name` relies on, key by key. Only the types
      are demanded: the handler itself never checks the schema's `required` list. */
  predicate ArgsWellTyped(name: string, args: Arguments)
  {
    if name == ANALYZE_ETHICAL_SCENARIO then
      StringOrAbsent(args, "scenario") && ArrayOrAbsent(args, "frameworks")
    else if name == EVALUATE_AI_SYSTEM then
      StringOrAbsent(args, "system_description") && StringOrAbsent(args, "use_case")
      && ArrayOrAbsent(args, "stakeholders")
    else if name == CHECK_BIAS then
      StringOrAbsent(args, "context") && ArrayOrAbsent(args, "bias_types")
    else if name == GENERATE_ETHICAL_GUIDELINES then
      StringOrAbsent(args, "project_type") && StringOrAbsent(args, "risk_level")
      && ArrayOrAbsent(args, "regulations")
    else if name == ASSESS_TRANSPARENCY then
      StringOrAbsent(args, "system_type") && StringOrAbsent(args, "explanation_method")
      && ArrayOrAbsent(args, "stakeholder_needs")
    else true
  }
}
