/** Properties of `call_tool` as a whole: which calls raise, what every answer looks like,
    and how an unknown name is told apart from a known one. */
module Responses {
  import opened Wrappers
  import opened Text
  import opened Knowledge
  import opened Registry
  import opened Reports
  import opened ToolProperties

  /** A text that opens with a Markdown heading. */
  predicate Headed(s: string)
  {
    s != [] && s[0] == '#'
  }

  /** `s` begins with the line(s) `h`. */
  predicate OpensWith(s: string, h: string)
  {
    h <= s
  }

  lemma {:induction false} OpensWithAppend(h: string, a: string, b: string)
    requires OpensWith(a, h)
    ensures OpensWith(a + b, h)
  {
    assert (a + b)[..|h|] == a[..|h|];
  }

  /** Two more parts appended to a text keep its opening. */
  lemma OpensWithTwo(h: string, s: string, a: string, b: string)
    requires OpensWith(s, h)
    ensures OpensWith(s + a + b, h)
  {
    OpensWithAppend(h, s, a);
    OpensWithAppend(h, s + a, b);
  }

  /** Five more parts appended to a text keep its opening. */
  lemma OpensWithChain(h: string, s: string, a: string, b: string, c: string, d: string, e: string)
    requires OpensWith(s, h)
    ensures OpensWith(s + a + b + c + d + e, h)
  {
    OpensWithAppend(h, s, a);
    OpensWithAppend(h, s + a, b);
    OpensWithAppend(h, s + a + b, c);
    OpensWithAppend(h, s + a + b + c, d);
    OpensWithAppend(h, s + a + b + c + d, e);
  }

  /** A text that opens with a heading line is headed. */
  lemma {:induction false} OpeningHeading(s: string, h: string)
    requires OpensWith(s, h) && Headed(h)
    ensures Headed(s)
  {
    assert s[0] == s[..|h|][0] == h[0];
  }

  lemma ScenarioHeaderOpening(scenario: Option<string>)
    ensures OpensWith(ScenarioHeader(scenario), "# Ethical Analysis of Scenario\n\n")
  {
    var title := "# Ethical Analysis of Scenario\n\n";
    OpensWithAppend(title, title, "**Scenario:** ");
    OpensWithAppend(title, title + "**Scenario:** ", Show(scenario));
    OpensWithAppend(title, title + "**Scenario:** " + Show(scenario), "\n\n");
  }

  lemma ScenarioReportHeading(scenario: Option<string>, frameworks: seq<string>)
    ensures OpensWith(ScenarioReport(scenario, frameworks), "# Ethical Analysis of Scenario\n\n")
  {
    ScenarioHeaderOpening(scenario);
    OpensWithTwo("# Ethical Analysis of Scenario\n\n", ScenarioHeader(scenario),
                ConcatMap(FrameworkItem, frameworks), SCENARIO_RECOMMENDATIONS);
  }

  lemma EvaluationOpening(system: Option<string>, useCase: Option<string>)
    ensures OpensWith("# AI System Ethical Evaluation\n\n" + "**System:** " + Show(system) + "\n\n"
                      + "**Use Case:** " + Show(useCase) + "\n\n", "# AI System Ethical Evaluation\n\n")
  {
    var title := "# AI System Ethical Evaluation\n\n";
    OpensWithChain(title, title, "**System:** ", Show(system), "\n\n", "**Use Case:** ", Show(useCase));
    OpensWithAppend(title, title + "**System:** " + Show(system) + "\n\n" + "**Use Case:** " + Show(useCase), "\n\n");
  }

  lemma EvaluationHeaderOpening(system: Option<string>, useCase: Option<string>, stakeholders: seq<string>)
    ensures OpensWith(EvaluationHeader(system, useCase, stakeholders), "# AI System Ethical Evaluation\n\n")
  {
    var title := "# AI System Ethical Evaluation\n\n";
    var opening := "# AI System Ethical Evaluation\n\n" + "**System:** " + Show(system) + "\n\n"
                   + "**Use Case:** " + Show(useCase) + "\n\n";
    EvaluationOpening(system, useCase);
    OpensWithAppend(title, opening, "**Stakeholders:** ");
    OpensWithAppend(title, opening + "**Stakeholders:** ", Join(", ", stakeholders));
    OpensWithAppend(title, opening + "**Stakeholders:** " + Join(", ", stakeholders), "\n\n");
    var named := if stakeholders != [] then opening + "**Stakeholders:** " + Join(", ", stakeholders) + "\n\n"
                 else opening;
    OpensWithAppend(title, named, "## Ethical Guidelines Assessment\n\n");
  }

  lemma EvaluationReportHeading(system: Option<string>, useCase: Option<string>, stakeholders: seq<string>)
    ensures OpensWith(EvaluationReport(system, useCase, stakeholders), "# AI System Ethical Evaluation\n\n")
  {
    EvaluationHeaderOpening(system, useCase, stakeholders);
    OpensWithTwo("# AI System Ethical Evaluation\n\n", EvaluationHeader(system, useCase, stakeholders),
                ConcatMap(GuidelineSection, AI_ETHICS_GUIDELINES), EVALUATION_RECOMMENDATIONS);
  }

  lemma BiasHeaderOpening(context: Option<string>)
    ensures OpensWith(BiasHeader(context), "# Bias Assessment Report\n\n")
  {
    var title := "# Bias Assessment Report\n\n";
    OpensWithAppend(title, title, "**Context:** ");
    OpensWithAppend(title, title + "**Context:** ", Show(context));
    OpensWithAppend(title, title + "**Context:** " + Show(context), "\n\n");
    OpensWithAppend(title, title + "**Context:** " + Show(context) + "\n\n", "## Bias Types to Check\n\n");
  }

  lemma BiasReportHeading(context: Option<string>, biasTypes: seq<string>)
    ensures OpensWith(BiasReport(context, biasTypes), "# Bias Assessment Report\n\n")
  {
    BiasHeaderOpening(context);
    OpensWithTwo("# Bias Assessment Report\n\n", BiasHeader(context), ConcatMap(BiasItem, biasTypes), BIAS_ACTION_ITEMS);
  }

  /** The guidelines header opens with its title line whatever the risk level and
      regulations printed after it. */
  lemma GuidelinesHeaderOpening(projectTitle: string, riskLabel: string, regulations: seq<string>)
    ensures OpensWith(GuidelinesHeader(projectTitle, riskLabel, regulations),
                      "# Ethical Guidelines for " + projectTitle + " AI Project\n\n")
  {
    var title := "# Ethical Guidelines for " + projectTitle + " AI Project\n\n";
    var opening := title + "**Risk Level:** " + riskLabel + "\n\n";
    OpensWithAppend(title, title, "**Risk Level:** ");
    OpensWithAppend(title, title + "**Risk Level:** ", riskLabel);
    OpensWithAppend(title, title + "**Risk Level:** " + riskLabel, "\n\n");
    if regulations != [] {
      var regulated := opening + "**Applicable Regulations:** " + Join(", ", regulations) + "\n\n";
      OpensWithAppend(title, opening, "**Applicable Regulations:** ");
      OpensWithAppend(title, opening + "**Applicable Regulations:** ", Join(", ", regulations));
      OpensWithAppend(title, opening + "**Applicable Regulations:** " + Join(", ", regulations), "\n\n");
      OpensWithAppend(title, regulated, "## Core Ethical Principles\n\n");
    } else {
      OpensWithAppend(title, opening, "## Core Ethical Principles\n\n");
    }
  }

  /** The fixed title lines of four reports are Markdown headings. */
  lemma TitlesHeaded()
    ensures Headed("# Ethical Analysis of Scenario\n\n")
    ensures Headed("# AI System Ethical Evaluation\n\n")
    ensures Headed("# Bias Assessment Report\n\n")
    ensures Headed("# Transparency Assessment\n\n")
  {
  }

  lemma {:induction false} GuidelinesTitleHeaded(projectTitle: string)
    ensures Headed("# Ethical Guidelines for " + projectTitle + " AI Project\n\n")
  {
    var title := "# Ethical Guidelines for " + projectTitle + " AI Project\n\n";
    assert title[0] == "# Ethical Guidelines for "[0];
  }

  lemma GuidelinesReportHeading(projectType: string, riskLevel: string, regulations: seq<string>)
    ensures OpensWith(GuidelinesReport(projectType, riskLevel, regulations),
                      "# Ethical Guidelines for " + Title(projectType) + " AI Project\n\n")
  {
    var projectTitle := Title(projectType);
    var title := "# Ethical Guidelines for " + projectTitle + " AI Project\n\n";
    GuidelinesHeaderOpening(projectTitle, Upper(riskLevel), regulations);
    OpensWithChain(title, GuidelinesHeader(projectTitle, Upper(riskLevel), regulations),
                     NumberedPrinciples(AI_ETHICS_GUIDELINES), "\n## Project-Specific Considerations\n\n",
                     DomainConsiderations(projectType), "\n## Implementation Checklist\n\n", Checklist(riskLevel));
  }

  lemma TransparencyHeaderOpening(systemType: string, explanationMethod: string, stakeholderNeeds: seq<string>)
    ensures OpensWith(TransparencyHeader(systemType, explanationMethod, stakeholderNeeds), "# Transparency Assessment\n\n")
  {
    var title := "# Transparency Assessment\n\n";
    OpensWithChain(title, title, "**System Type:** ", systemType, "\n", "**Explanation Method:** ", explanationMethod);
    var opening := title + "**System Type:** " + systemType + "\n" + "**Explanation Method:** " + explanationMethod + "\n\n";
    OpensWithAppend(title, title + "**System Type:** " + systemType + "\n" + "**Explanation Method:** " + explanationMethod, "\n\n");
    OpensWithAppend(title, opening, "**Stakeholder Groups:** ");
    OpensWithAppend(title, opening + "**Stakeholder Groups:** ", Join(", ", stakeholderNeeds));
    OpensWithAppend(title, opening + "**Stakeholder Groups:** " + Join(", ", stakeholderNeeds), "\n\n");
  }

  lemma TransparencyReportHeading(techniques: Table<seq<string>>, systemType: string, explanationMethod: string,
                                  stakeholderNeeds: seq<string>)
    ensures OpensWith(TransparencyReport(techniques, systemType, explanationMethod, stakeholderNeeds),
                      "# Transparency Assessment\n\n")
  {
    TransparencyHeaderOpening(systemType, explanationMethod, stakeholderNeeds);
    OpensWithChain("# Transparency Assessment\n\n", TransparencyHeader(systemType, explanationMethod, stakeholderNeeds),
                     TRANSPARENCY_DIMENSIONS, TechniquesBlock(techniques, systemType),
                     "## Stakeholder-Specific Recommendations\n\n", StakeholderRecommendations(stakeholderNeeds),
                     TRANSPARENCY_ACTION_ITEMS);
  }

  // Each report, whatever its inputs, starts with a Markdown heading.

  lemma ScenarioReportHeaded(scenario: Option<string>, frameworks: seq<string>)
    ensures Headed(ScenarioReport(scenario, frameworks))
  {
    ScenarioReportHeading(scenario, frameworks);
    TitlesHeaded();
    OpeningHeading(ScenarioReport(scenario, frameworks), "# Ethical Analysis of Scenario\n\n");
  }

  lemma EvaluationReportHeaded(system: Option<string>, useCase: Option<string>, stakeholders: seq<string>)
    ensures Headed(EvaluationReport(system, useCase, stakeholders))
  {
    EvaluationReportHeading(system, useCase, stakeholders);
    TitlesHeaded();
    OpeningHeading(EvaluationReport(system, useCase, stakeholders), "# AI System Ethical Evaluation\n\n");
  }

  lemma BiasReportHeaded(context: Option<string>, biasTypes: seq<string>)
    ensures Headed(BiasReport(context, biasTypes))
  {
    BiasReportHeading(context, biasTypes);
    TitlesHeaded();
    OpeningHeading(BiasReport(context, biasTypes), "# Bias Assessment Report\n\n");
  }

  lemma GuidelinesReportHeaded(projectType: string, riskLevel: string, regulations: seq<string>)
    ensures Headed(GuidelinesReport(projectType, riskLevel, regulations))
  {
    GuidelinesReportHeading(projectType, riskLevel, regulations);
    GuidelinesTitleHeaded(Title(projectType));
    OpeningHeading(GuidelinesReport(projectType, riskLevel, regulations),
                   "# Ethical Guidelines for " + Title(projectType) + " AI Project\n\n");
  }

  lemma TransparencyReportHeaded(techniques: Table<seq<string>>, systemType: string, explanationMethod: string,
                                 stakeholderNeeds: seq<string>)
    ensures Headed(TransparencyReport(techniques, systemType, explanationMethod, stakeholderNeeds))
  {
    TransparencyReportHeading(techniques, systemType, explanationMethod, stakeholderNeeds);
    TitlesHeaded();
    OpeningHeading(TransparencyReport(techniques, systemType, explanationMethod, stakeholderNeeds),
                   "# Transparency Assessment\n\n");
  }

  lemma ScenarioTextHeading(args: Arguments)
    requires ArgsWellTyped(ANALYZE_ETHICAL_SCENARIO, args)
    ensures OpensWith(AnalyzeScenarioText(args), "# Ethical Analysis of Scenario\n\n") && Headed(AnalyzeScenarioText(args))
  {
    var scenario, frameworks := GetString(args, "scenario"), GetArrayOr(args, "frameworks", DEFAULT_FRAMEWORKS);
    ScenarioReportHeading(scenario, frameworks);
    ScenarioReportHeaded(scenario, frameworks);
  }

  lemma EvaluationTextHeading(args: Arguments)
    requires ArgsWellTyped(EVALUATE_AI_SYSTEM, args)
    ensures OpensWith(EvaluateSystemText(args), "# AI System Ethical Evaluation\n\n") && Headed(EvaluateSystemText(args))
  {
    var system, useCase := GetString(args, "system_description"), GetString(args, "use_case");
    var stakeholders := GetArrayOr(args, "stakeholders", []);
    EvaluationReportHeading(system, useCase, stakeholders);
    EvaluationReportHeaded(system, useCase, stakeholders);
  }

  lemma BiasTextHeading(args: Arguments)
    requires ArgsWellTyped(CHECK_BIAS, args)
    ensures OpensWith(CheckBiasText(args), "# Bias Assessment Report\n\n") && Headed(CheckBiasText(args))
  {
    var context, biasTypes := GetString(args, "context"), GetArrayOr(args, "bias_types", DEFAULT_BIAS_TYPES);
    BiasReportHeading(context, biasTypes);
    BiasReportHeaded(context, biasTypes);
  }

  lemma GuidelinesTextHeading(args: Arguments)
    requires ArgsWellTyped(GENERATE_ETHICAL_GUIDELINES, args)
    requires "project_type" in args
    ensures GenerateGuidelinesText(args).Success?
    ensures OpensWith(GenerateGuidelinesText(args).value,
                      "# Ethical Guidelines for " + Title(args["project_type"].text) + " AI Project\n\n")
    ensures Headed(GenerateGuidelinesText(args).value)
  {
    var projectType, riskLevel := args["project_type"].text, GetStringOr(args, "risk_level", "medium");
    var regulations := GetArrayOr(args, "regulations", []);
    GuidelinesReportHeading(projectType, riskLevel, regulations);
    GuidelinesReportHeaded(projectType, riskLevel, regulations);
    assert GenerateGuidelinesText(args) == Success(GuidelinesReport(projectType, riskLevel, regulations));
  }

  lemma TransparencyTextHeading(args: Arguments)
    requires ArgsWellTyped(ASSESS_TRANSPARENCY, args)
    requires "system_type" in args
    ensures AssessTransparencyText(args).Success?
    ensures OpensWith(AssessTransparencyText(args).value, "# Transparency Assessment\n\n")
    ensures Headed(AssessTransparencyText(args).value)
  {
    var systemType, explanationMethod := args["system_type"].text, GetStringOr(args, "explanation_method", "None specified");
    var stakeholderNeeds := GetArrayOr(args, "stakeholder_needs", []);
    var report := TransparencyReport(TECHNIQUES, systemType, explanationMethod, stakeholderNeeds);
    TransparencyReportHeading(TECHNIQUES, systemType, explanationMethod, stakeholderNeeds);
    TransparencyReportHeaded(TECHNIQUES, systemType, explanationMethod, stakeholderNeeds);
    assert AssessTransparencyText(args) == Success(report);
  }

  /** A successful answer made of one text item that opens with a Markdown heading. */
  predicate HeadedAnswer(r: ToolResult)
  {
    r.Success? && |r.value| == 1 && Headed(r.value[0].text)
  }

  /** A successful answer made of one text item that opens with the line(s) `h`. */
  predicate AnswerOpensWith(r: ToolResult, h: string)
  {
    r.Success? && |r.value| == 1 && OpensWith(r.value[0].text, h)
  }

  // The branch of `call_tool` each known name selects.

  lemma AnalyzeRoute(args: Arguments)
    requires ArgsWellTyped(ANALYZE_ETHICAL_SCENARIO, args)
    ensures ToolResponse(ANALYZE_ETHICAL_SCENARIO, args) == Success([TextContent(AnalyzeScenarioText(args))])
  {
  }

  lemma EvaluateRoute(args: Arguments)
    requires ArgsWellTyped(EVALUATE_AI_SYSTEM, args)
    ensures ToolResponse(EVALUATE_AI_SYSTEM, args) == Success([TextContent(EvaluateSystemText(args))])
  {
  }

  lemma BiasRoute(args: Arguments)
    requires ArgsWellTyped(CHECK_BIAS, args)
    ensures ToolResponse(CHECK_BIAS, args) == Success([TextContent(CheckBiasText(args))])
  {
  }

  lemma GuidelinesRoute(args: Arguments)
    requires ArgsWellTyped(GENERATE_ETHICAL_GUIDELINES, args)
    ensures ToolResponse(GENERATE_ETHICAL_GUIDELINES, args) == AsContent(GenerateGuidelinesText(args))
  {
  }

  lemma TransparencyRoute(args: Arguments)
    requires ArgsWellTyped(ASSESS_TRANSPARENCY, args)
    ensures ToolResponse(ASSESS_TRANSPARENCY, args) == AsContent(AssessTransparencyText(args))
  {
  }

  lemma ScenarioAnswerHeading(args: Arguments)
    requires ArgsWellTyped(ANALYZE_ETHICAL_SCENARIO, args)
    ensures AnswerOpensWith(ToolResponse(ANALYZE_ETHICAL_SCENARIO, args), "# Ethical Analysis of Scenario\n\n")
    ensures HeadedAnswer(ToolResponse(ANALYZE_ETHICAL_SCENARIO, args))
  {
    AnalyzeRoute(args);
    ScenarioTextHeading(args);
  }

  lemma EvaluationAnswerHeading(args: Arguments)
    requires ArgsWellTyped(EVALUATE_AI_SYSTEM, args)
    ensures AnswerOpensWith(ToolResponse(EVALUATE_AI_SYSTEM, args), "# AI System Ethical Evaluation\n\n")
    ensures HeadedAnswer(ToolResponse(EVALUATE_AI_SYSTEM, args))
  {
    EvaluateRoute(args);
    EvaluationTextHeading(args);
  }

  lemma BiasAnswerHeading(args: Arguments)
    requires ArgsWellTyped(CHECK_BIAS, args)
    ensures AnswerOpensWith(ToolResponse(CHECK_BIAS, args), "# Bias Assessment Report\n\n")
    ensures HeadedAnswer(ToolResponse(CHECK_BIAS, args))
  {
    BiasRoute(args);
    BiasTextHeading(args);
  }

  lemma GuidelinesAnswerHeading(args: Arguments)
    requires ArgsWellTyped(GENERATE_ETHICAL_GUIDELINES, args)
    requires "project_type" in args
    ensures AnswerOpensWith(ToolResponse(GENERATE_ETHICAL_GUIDELINES, args),
                            "# Ethical Guidelines for " + Title(args["project_type"].text) + " AI Project\n\n")
    ensures HeadedAnswer(ToolResponse(GENERATE_ETHICAL_GUIDELINES, args))
  {
    GuidelinesRoute(args);
    GuidelinesTextHeading(args);
  }

  lemma TransparencyAnswerHeading(args: Arguments)
    requires ArgsWellTyped(ASSESS_TRANSPARENCY, args)
    requires "system_type" in args
    ensures AnswerOpensWith(ToolResponse(ASSESS_TRANSPARENCY, args), "# Transparency Assessment\n\n")
    ensures HeadedAnswer(ToolResponse(ASSESS_TRANSPARENCY, args))
  {
    TransparencyRoute(args);
    TransparencyTextHeading(args);
  }

  /** Every answer of a known tool that does not raise is a report opening with a Markdown
      heading. */
  lemma KnownToolsAnswerWithHeading(name: string, args: Arguments)
    requires ArgsWellTyped(name, args)
    requires name in ToolNames()
    requires !RaisesOnMissingArgument(name, args)
    ensures HeadedAnswer(ToolResponse(name, args))
  {
    ToolRegistryShape();
    if name == ANALYZE_ETHICAL_SCENARIO {
      ScenarioAnswerHeading(args);
    } else if name == EVALUATE_AI_SYSTEM {
      EvaluationAnswerHeading(args);
    } else if name == CHECK_BIAS {
      BiasAnswerHeading(args);
    } else if name == GENERATE_ETHICAL_GUIDELINES {
      GuidelinesAnswerHeading(args);
    } else {
      TransparencyAnswerHeading(args);
    }
  }

  /** The handlers that call a string method on an argument the call left out: `.title()` on
      a missing project type, `.lower()` on a missing system type. */
  predicate RaisesOnMissingArgument(name: string, args: Arguments)
  {
    (name == GENERATE_ETHICAL_GUIDELINES && "project_type" !in args)
    || (name == ASSESS_TRANSPARENCY && "system_type" !in args)
  }

  /** The outcome `call_tool` has for `name` and `args`: one text item, except for the two
      handlers that call a string method on a missing argument, which raise the
      AttributeError of that method. */
  predicate ExpectedOutcome(r: ToolResult, name: string, args: Arguments)
  {
    && (r.Failure? <==> RaisesOnMissingArgument(name, args))
    && (r.Failure? ==>
          r.error == AttributeError(if name == GENERATE_ETHICAL_GUIDELINES then NONE_HAS_NO_TITLE else NONE_HAS_NO_LOWER))
    && (r.Success? ==> |r.value| == 1)
  }

  lemma ToolResponseOutcome(name: string, args: Arguments)
    requires ArgsWellTyped(name, args)
    ensures ExpectedOutcome(ToolResponse(name, args), name, args)
  {
    if name == GENERATE_ETHICAL_GUIDELINES {
      GuidelinesOutcome(args);
    } else if name == ASSESS_TRANSPARENCY {
      TransparencyOutcome(args);
    } else {
      OtherOutcome(name, args);
    }
  }

  /** The three tools that never raise, and an unknown name, answer with one text item. */
  lemma OtherOutcome(name: string, args: Arguments)
    requires ArgsWellTyped(name, args)
    requires name != GENERATE_ETHICAL_GUIDELINES && name != ASSESS_TRANSPARENCY
    ensures ExpectedOutcome(ToolResponse(name, args), name, args)
  {
  }

  /** `generate_ethical_guidelines` raises exactly when `project_type` is missing. */
  lemma GuidelinesOutcome(args: Arguments)
    requires ArgsWellTyped(GENERATE_ETHICAL_GUIDELINES, args)
    ensures ExpectedOutcome(ToolResponse(GENERATE_ETHICAL_GUIDELINES, args), GENERATE_ETHICAL_GUIDELINES, args)
  {
    GuidelinesRoute(args);
  }

  /** `assess_transparency` raises exactly when `system_type` is missing. */
  lemma TransparencyOutcome(args: Arguments)
    requires ArgsWellTyped(ASSESS_TRANSPARENCY, args)
    ensures ExpectedOutcome(ToolResponse(ASSESS_TRANSPARENCY, args), ASSESS_TRANSPARENCY, args)
  {
    TransparencyRoute(args);
  }

  /** An unknown name is answered with "Unknown tool: <name>", and only an unknown name is. */
  lemma UnknownToolIffUnlisted(name: string, args: Arguments)
    requires ArgsWellTyped(name, args)
    ensures ToolResponse(name, args) == Success([TextContent("Unknown tool: " + name)]) <==>
      name !in ToolNames()
  {
    ToolRegistryShape();
    if name in ToolNames() {
      if RaisesOnMissingArgument(name, args) {
        ToolResponseOutcome(name, args);
      } else {
        KnownToolsAnswerWithHeading(name, args);
        var unknown := "Unknown tool: " + name;
        assert unknown[0] == 'U';
      }
    }
  }

  /** Supplying every argument a tool's schema marks as required is enough for the tool to
      answer without raising. */
  lemma RequiredArgumentsSuffice(k: nat, args: Arguments)
    requires k < |ListTools()|
    requires ArgsWellTyped(ListTools()[k].name, args)
    requires forall r :: r in ListTools()[k].required ==> r in args
    ensures ToolResponse(ListTools()[k].name, args).Success?
  {
    var name := ListTools()[k].name;
    SchemaRequirements();
    ToolResponseOutcome(name, args);
  }

}
