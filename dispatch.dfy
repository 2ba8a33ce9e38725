/** `call_tool` as the server runs it: each branch builds its report by appending to a local
    string, in `for` loops over the argument lists and the tables, with first-match searches
    that stop at the first hit. Every method is proved to produce the text that module
    Reports specifies. Where the handler appends a section line by line, the methods
    collect that section in a local buffer first and then append it; the resulting text is
    the same. */
module Dispatch {
  import opened Wrappers
  import opened Text
  import opened Knowledge
  import opened Registry
  import opened Reports

  /** The step of the `enumerate(..., 1)` loop: entry i is numbered i + 1. */
  lemma NumberedPrinciplesSnoc(t: Table<string>, i: nat, prefix: string)
    requires i < |t|
    ensures prefix + NumberedPrinciples(t[..i + 1]) == prefix + NumberedPrinciples(t[..i]) + NumberedPrinciple(i + 1, t[i])
  {
    assert t[..i + 1][..i] == t[..i];
  }

  /** The lines one framework contributes to a scenario analysis, with the loop over its principles. */
  method RenderFrameworkSection(framework: Framework) returns (section: string)
    ensures section == FrameworkSection(framework)
  {
    section := "\n## " + framework.name + "\n\n";
    section := section + framework.description + "\n\n";
    section := section + "**Key Principles:**\n";
    var principles := framework.keyPrinciples;
    var head := section;
    for j := 0 to |principles|
      invariant section == head + ItemLines(principles[..j])
    {
      ConcatMapSnoc(Bullet, principles, j, head);
      section := section + Bullet(principles[j]);
    }
    ConcatMapAll(Bullet, principles);
    section := section + FrameworkAnalysisLine(framework);
  }

  /** The loop over the requested framework keys: known keys append their section, unknown
      keys are skipped. */
  method AppendFrameworkSections(analysis: string, frameworks: seq<string>) returns (result: string)
    ensures result == analysis + ConcatMap(FrameworkItem, frameworks)
  {
    result := analysis;
    for i := 0 to |frameworks|
      invariant result == analysis + ConcatMap(FrameworkItem, frameworks[..i])
    {
      var found := Lookup(ETHICAL_FRAMEWORKS, frameworks[i]);
      if found.Some? {
        var section := RenderFrameworkSection(found.value);
        result := result + section;
      }
      ConcatMapSnoc(FrameworkItem, frameworks, i, analysis);
    }
    ConcatMapAll(FrameworkItem, frameworks);
  }

  method AnalyzeEthicalScenario(args: Arguments) returns (analysis: string)
    requires ArgsWellTyped(ANALYZE_ETHICAL_SCENARIO, args)
    ensures analysis == AnalyzeScenarioText(args)
  {
    var scenario := GetString(args, "scenario");
    var frameworks := GetArrayOr(args, "frameworks", DEFAULT_FRAMEWORKS);
    analysis := "# Ethical Analysis of Scenario\n\n" + "**Scenario:** " + Show(scenario) + "\n\n";
    analysis := AppendFrameworkSections(analysis, frameworks);
    analysis := analysis + SCENARIO_RECOMMENDATIONS;
  }

  /** The lines one guideline contributes to an evaluation. */
  method RenderGuidelineSection(entry: (string, string)) returns (section: string)
    ensures section == GuidelineSection(entry)
  {
    var (guideline, description) := entry;
    section := "### " + KeyTitle(guideline) + "\n";
    section := section + description + "\n\n";
    section := section + "**Assessment Questions:**\n";
    section := section + AssessmentQuestions(guideline);
    section := section + "\n";
  }

  method EvaluateAiSystem(args: Arguments) returns (evaluation: string)
    requires ArgsWellTyped(EVALUATE_AI_SYSTEM, args)
    ensures evaluation == EvaluateSystemText(args)
  {
    var systemDescription := GetString(args, "system_description");
    var useCase := GetString(args, "use_case");
    var stakeholders := GetArrayOr(args, "stakeholders", []);
    evaluation := "# AI System Ethical Evaluation\n\n";
    evaluation := evaluation + "**System:** " + Show(systemDescription) + "\n\n";
    evaluation := evaluation + "**Use Case:** " + Show(useCase) + "\n\n";
    if stakeholders != [] {
      evaluation := evaluation + "**Stakeholders:** " + Join(", ", stakeholders) + "\n\n";
    }
    evaluation := evaluation + "## Ethical Guidelines Assessment\n\n";
    var header := evaluation;
    for i := 0 to |AI_ETHICS_GUIDELINES|
      invariant evaluation == header + ConcatMap(GuidelineSection, AI_ETHICS_GUIDELINES[..i])
    {
      var section := RenderGuidelineSection(AI_ETHICS_GUIDELINES[i]);
      evaluation := evaluation + section;
      ConcatMapSnoc(GuidelineSection, AI_ETHICS_GUIDELINES, i, header);
    }
    ConcatMapAll(GuidelineSection, AI_ETHICS_GUIDELINES);
    evaluation := evaluation + EVALUATION_RECOMMENDATIONS;
  }

  /** The lines one known bias type contributes to a bias report. */
  method RenderBiasSection(biasType: string, description: string) returns (section: string)
    ensures section == BiasSectionOf(biasType, description)
  {
    section := "### " + Title(biasType) + " Bias\n";
    section := section + description + "\n\n";
    section := section + "**Mitigation Strategies:**\n";
    section := section + Mitigations(biasType);
    section := section + "\n";
  }

  /** The loop over the requested bias types: known types append their section, unknown
      types are skipped. */
  method AppendBiasSections(report: string, biasTypes: seq<string>) returns (result: string)
    ensures result == report + ConcatMap(BiasItem, biasTypes)
  {
    result := report;
    for i := 0 to |biasTypes|
      invariant result == report + ConcatMap(BiasItem, biasTypes[..i])
    {
      var found := Lookup(BIAS_DESCRIPTIONS, biasTypes[i]);
      if found.Some? {
        var section := RenderBiasSection(biasTypes[i], found.value);
        result := result + section;
      }
      ConcatMapSnoc(BiasItem, biasTypes, i, report);
    }
    ConcatMapAll(BiasItem, biasTypes);
  }

  method CheckBias(args: Arguments) returns (report: string)
    requires ArgsWellTyped(CHECK_BIAS, args)
    ensures report == CheckBiasText(args)
  {
    var context := GetString(args, "context");
    var biasTypes := GetArrayOr(args, "bias_types", DEFAULT_BIAS_TYPES);
    report := "# Bias Assessment Report\n\n" + "**Context:** " + Show(context) + "\n\n";
    report := report + "## Bias Types to Check\n\n";
    report := AppendBiasSections(report, biasTypes);
    report := report + BIAS_ACTION_ITEMS;
  }

  /** The `for domain, considerations in domain_specific.items()` loop: the first domain
      named in the project type contributes its considerations and ends the search; when
      the loop runs out (its `else`), three generic lines are appended instead. */
  method AppendDomainConsiderations(guidelines: string, projectType: string) returns (result: string)
    ensures result == guidelines + DomainConsiderations(projectType)
  {
    result := guidelines;
    var projectLower := Lower(projectType);
    var d := 0;
    while d < |DOMAIN_SPECIFIC|
      invariant d <= |DOMAIN_SPECIFIC|
      invariant forall j :: 0 <= j < d ==> !Contains(projectLower, DOMAIN_SPECIFIC[j].0)
      invariant result == guidelines
    {
      if Contains(projectLower, DOMAIN_SPECIFIC[d].0) {
        var considerations := DOMAIN_SPECIFIC[d].1;
        for k := 0 to |considerations|
          invariant result == guidelines + ItemLines(considerations[..k])
        {
          ConcatMapSnoc(Bullet, considerations, k, guidelines);
          result := result + Bullet(considerations[k]);
        }
        ConcatMapAll(Bullet, considerations);
        break;
      }
      d := d + 1;
    }
    if d == |DOMAIN_SPECIFIC| {
      result := result + "- Identify domain-specific ethical concerns\n";
      result := result + "- Consult with subject matter experts\n";
      result := result + "- Review relevant industry standards\n";
    }
  }

  /** The header lines of `generate_ethical_guidelines`, the regulations line only when
      regulations were given. */
  method RenderGuidelinesHeader(projectType: string, riskLevel: string, regulations: seq<string>)
    returns (header: string)
    ensures header == GuidelinesHeader(Title(projectType), Upper(riskLevel), regulations)
  {
    header := "# Ethical Guidelines for " + Title(projectType) + " AI Project\n\n";
    header := header + "**Risk Level:** " + Upper(riskLevel) + "\n\n";
    if regulations != [] {
      header := header + "**Applicable Regulations:** " + Join(", ", regulations) + "\n\n";
    }
    header := header + "## Core Ethical Principles\n\n";
  }

  /** The numbered list of the AI ethics guidelines, numbered from 1 by `enumerate(..., 1)`. */
  method AppendNumberedPrinciples(guidelines: string) returns (result: string)
    ensures result == guidelines + NumberedPrinciples(AI_ETHICS_GUIDELINES)
  {
    result := guidelines;
    for i := 0 to |AI_ETHICS_GUIDELINES|
      invariant result == guidelines + NumberedPrinciples(AI_ETHICS_GUIDELINES[..i])
    {
      NumberedPrinciplesSnoc(AI_ETHICS_GUIDELINES, i, guidelines);
      result := result + NumberedPrinciple(i + 1, AI_ETHICS_GUIDELINES[i]);
    }
    assert AI_ETHICS_GUIDELINES[..|AI_ETHICS_GUIDELINES|] == AI_ETHICS_GUIDELINES;
  }

  /** The base checklist, then the high-risk items for a "high" or "critical" risk level. */
  method AppendChecklist(guidelines: string, riskLevel: string) returns (result: string)
    ensures result == guidelines + Checklist(riskLevel)
  {
    result := guidelines + ConcatMap(CheckboxLine, BASE_CHECKLIST);
    if riskLevel in ["high", "critical"] {
      result := result + ConcatMap(CheckboxLine, HIGH_RISK_CHECKLIST);
    }
  }

  method GenerateEthicalGuidelines(args: Arguments) returns (result: Result<string, PyError>)
    requires ArgsWellTyped(GENERATE_ETHICAL_GUIDELINES, args)
    ensures result == GenerateGuidelinesText(args)
  {
    if "project_type" !in args {
      return Failure(AttributeError(NONE_HAS_NO_TITLE));
    }
    var projectType := args["project_type"].text;
    var riskLevel := GetStringOr(args, "risk_level", "medium");
    var regulations := GetArrayOr(args, "regulations", []);

    var guidelines := RenderGuidelinesHeader(projectType, riskLevel, regulations);
    guidelines := AppendNumberedPrinciples(guidelines);
    guidelines := guidelines + "\n## Project-Specific Considerations\n\n";
    guidelines := AppendDomainConsiderations(guidelines, projectType);
    guidelines := guidelines + "\n## Implementation Checklist\n\n";
    guidelines := AppendChecklist(guidelines, riskLevel);
    result := Success(guidelines);
  }

  /** The block for one system type: its heading line, then one bullet per technique. */
  method RenderTechniques(systemType: string, methods: seq<string>) returns (block: string)
    ensures block == "**Recommended for " + systemType + ":**\n" + ItemLines(methods) + "\n"
  {
    block := "**Recommended for " + systemType + ":**\n";
    var head := block;
    for k := 0 to |methods|
      invariant block == head + ItemLines(methods[..k])
    {
      ConcatMapSnoc(Bullet, methods, k, head);
      block := block + Bullet(methods[k]);
    }
    ConcatMapAll(Bullet, methods);
    block := block + "\n";
  }

  /** The `for sys_type, methods in techniques.items()` loop over the table `techniques`: the
      techniques of the first system type named in the lower-cased system type, then `break`. */
  method AppendTechniques(assessment: string, techniques: Table<seq<string>>, systemType: string)
    returns (result: string)
    ensures result == assessment + TechniquesBlock(techniques, systemType)
  {
    result := assessment;
    var systemLower := Lower(systemType);
    var t := 0;
    while t < |techniques|
      invariant t <= |techniques|
      invariant forall j :: 0 <= j < t ==> !Contains(systemLower, techniques[j].0)
      invariant result == assessment
    {
      if Contains(systemLower, techniques[t].0) {
        FirstKeyInIsFirstMatch(techniques, systemLower, t);
        var block := RenderTechniques(systemType, techniques[t].1);
        result := result + block;
        return;
      }
      t := t + 1;
    }
    FirstKeyInIsFirstMatch(techniques, systemLower, 0);
    assert result + "" == result;
  }

  /** The search for one stakeholder group's recommendation: the first key, in table order,
      that occurs in the lower-cased group name, then `break`. */
  method AppendStakeholderLine(assessment: string, stakeholder: string) returns (result: string)
    ensures result == assessment + StakeholderLine(stakeholder)
  {
    result := assessment;
    var stakeholderLower := Lower(stakeholder);
    var k := 0;
    while k < |STAKEHOLDER_RECOMMENDATIONS|
      invariant k <= |STAKEHOLDER_RECOMMENDATIONS|
      invariant forall j :: 0 <= j < k ==> !Contains(stakeholderLower, STAKEHOLDER_RECOMMENDATIONS[j].0)
      invariant result == assessment
    {
      if Contains(stakeholderLower, STAKEHOLDER_RECOMMENDATIONS[k].0) {
        var line := "**" + stakeholder + ":** " + STAKEHOLDER_RECOMMENDATIONS[k].1 + "\n\n";
        result := result + line;
        break;
      }
      k := k + 1;
    }
  }

  /** The stakeholder-specific recommendations: one search per named group, or, when no
      group is named, every recommendation under its title-cased key. */
  method AppendStakeholderRecommendations(assessment: string, stakeholderNeeds: seq<string>) returns (result: string)
    ensures result == assessment + StakeholderRecommendations(stakeholderNeeds)
  {
    result := assessment;
    if stakeholderNeeds != [] {
      for s := 0 to |stakeholderNeeds|
        invariant result == assessment + ConcatMap(StakeholderLine, stakeholderNeeds[..s])
      {
        result := AppendStakeholderLine(result, stakeholderNeeds[s]);
        ConcatMapSnoc(StakeholderLine, stakeholderNeeds, s, assessment);
      }
      ConcatMapAll(StakeholderLine, stakeholderNeeds);
    } else {
      for k := 0 to |STAKEHOLDER_RECOMMENDATIONS|
        invariant result == assessment + ConcatMap(DefaultRecommendation, STAKEHOLDER_RECOMMENDATIONS[..k])
      {
        var (stakeholder, recommendation) := STAKEHOLDER_RECOMMENDATIONS[k];
        var line := "**" + Title(stakeholder) + ":** " + recommendation + "\n\n";
        result := result + line;
        ConcatMapSnoc(DefaultRecommendation, STAKEHOLDER_RECOMMENDATIONS, k, assessment);
      }
      ConcatMapAll(DefaultRecommendation, STAKEHOLDER_RECOMMENDATIONS);
    }
  }

  method AssessTransparency(args: Arguments) returns (result: Result<string, PyError>)
    requires ArgsWellTyped(ASSESS_TRANSPARENCY, args)
    ensures result == AssessTransparencyText(args)
  {
    if "system_type" !in args {
      return Failure(AttributeError(NONE_HAS_NO_LOWER));
    }
    var systemType := args["system_type"].text;
    var explanationMethod := GetStringOr(args, "explanation_method", "None specified");
    var stakeholderNeeds := GetArrayOr(args, "stakeholder_needs", []);

    var assessment := "# Transparency Assessment\n\n";
    assessment := assessment + "**System Type:** " + systemType + "\n";
    assessment := assessment + "**Explanation Method:** " + explanationMethod + "\n\n";
    if stakeholderNeeds != [] {
      assessment := assessment + "**Stakeholder Groups:** " + Join(", ", stakeholderNeeds) + "\n\n";
    }
    assessment := assessment + TRANSPARENCY_DIMENSIONS;
    assessment := AppendTechniques(assessment, TECHNIQUES, systemType);
    assessment := assessment + "## Stakeholder-Specific Recommendations\n\n";
    assessment := AppendStakeholderRecommendations(assessment, stakeholderNeeds);
    assessment := assessment + TRANSPARENCY_ACTION_ITEMS;
    result := Success(assessment);
  }

  /** `call_tool`: route the name to its branch; an unknown name is answered, not raised. */
  method CallTool(name: string, args: Arguments) returns (result: ToolResult)
    requires ArgsWellTyped(name, args)
    ensures result == ToolResponse(name, args)
  {
    if name == ANALYZE_ETHICAL_SCENARIO {
      var text := AnalyzeEthicalScenario(args);
      result := Success([TextContent(text)]);
    } else if name == EVALUATE_AI_SYSTEM {
      var text := EvaluateAiSystem(args);
      result := Success([TextContent(text)]);
    } else if name == CHECK_BIAS {
      var text := CheckBias(args);
      result := Success([TextContent(text)]);
    } else if name == GENERATE_ETHICAL_GUIDELINES {
      var text := GenerateEthicalGuidelines(args);
      result := AsContent(text);
    } else if name == ASSESS_TRANSPARENCY {
      var text := AssessTransparency(args);
      result := AsContent(text);
    } else {
      result := Success([TextContent("Unknown tool: " + name)]);
    }
  }
}
