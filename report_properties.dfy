/** Properties of the reports `call_tool` composes: which table entries a request selects,
    what an omitted argument stands for, how principles are numbered, which domain, technique
    and stakeholder entries a free-text argument picks, and the checklist's risk rule. */
module ReportProperties {
  import opened Wrappers
  import opened Text
  import opened Knowledge
  import opened Registry
  import opened Reports

  // ---------------------------------------------------------------- selecting table entries

  /** A framework key that `ETHICAL_FRAMEWORKS` holds. */
  predicate KnownFramework(key: string) { key in Keys(ETHICAL_FRAMEWORKS) }

  /** The section of a table entry. */
  function FrameworkEntrySection(e: (string, Framework)): string
  {
    FrameworkSection(e.1)
  }

  /** Requesting the default frameworks renders every framework of the table, in table order. */
  lemma DefaultFrameworksCoverTable()
    ensures ConcatMap(FrameworkItem, DEFAULT_FRAMEWORKS) == ConcatMap(FrameworkEntrySection, ETHICAL_FRAMEWORKS)
  {
    KnowledgeKeysDistinct();
    forall i | 0 <= i < |DEFAULT_FRAMEWORKS|
      ensures FrameworkItem(DEFAULT_FRAMEWORKS[i]) == FrameworkEntrySection(ETHICAL_FRAMEWORKS[i])
    {
      assert DEFAULT_FRAMEWORKS[i] == ETHICAL_FRAMEWORKS[i].0;
      LookupAt(ETHICAL_FRAMEWORKS, i);
    }
    ConcatMapPointwise(FrameworkItem, DEFAULT_FRAMEWORKS, FrameworkEntrySection, ETHICAL_FRAMEWORKS);
  }

  /** A requested framework that the table lacks contributes nothing: the analysis is that of
      the known frameworks among the requested ones, in the requested order. */
  lemma UnknownFrameworksIgnored(frameworks: seq<string>)
    ensures ConcatMap(FrameworkItem, frameworks) == ConcatMap(FrameworkItem, Filter(KnownFramework, frameworks))
  {
    forall x | x in frameworks && !KnownFramework(x) ensures FrameworkItem(x) == "" {
    }
    ConcatMapFilter(FrameworkItem, KnownFramework, frameworks);
  }

  /** A bias type that `BIAS_DESCRIPTIONS` holds. */
  predicate KnownBiasType(key: string) { key in Keys(BIAS_DESCRIPTIONS) }

  function BiasEntrySection(e: (string, string)): string
  {
    BiasSectionOf(e.0, e.1)
  }

  /** Requesting the default bias types renders every bias description, in table order. */
  lemma DefaultBiasTypesCoverTable()
    ensures ConcatMap(BiasItem, DEFAULT_BIAS_TYPES) == ConcatMap(BiasEntrySection, BIAS_DESCRIPTIONS)
  {
    assert DistinctKeys(BIAS_DESCRIPTIONS);
    forall i | 0 <= i < |DEFAULT_BIAS_TYPES|
      ensures BiasItem(DEFAULT_BIAS_TYPES[i]) == BiasEntrySection(BIAS_DESCRIPTIONS[i])
    {
      assert DEFAULT_BIAS_TYPES[i] == BIAS_DESCRIPTIONS[i].0;
      LookupAt(BIAS_DESCRIPTIONS, i);
    }
    ConcatMapPointwise(BiasItem, DEFAULT_BIAS_TYPES, BiasEntrySection, BIAS_DESCRIPTIONS);
  }

  /** A requested bias type the table lacks contributes nothing. */
  lemma UnknownBiasTypesIgnored(biasTypes: seq<string>)
    ensures ConcatMap(BiasItem, biasTypes) == ConcatMap(BiasItem, Filter(KnownBiasType, biasTypes))
  {
    forall x | x in biasTypes && !KnownBiasType(x) ensures BiasItem(x) == "" {
    }
    ConcatMapFilter(BiasItem, KnownBiasType, biasTypes);
  }

  /** Mitigation strategies are listed for three bias types and for no other. */
  lemma MitigationsListed(biasType: string)
    ensures Mitigations(biasType) != "" <==>
      biasType == "selection" || biasType == "algorithmic" || biasType == "representation"
  {
  }

  /** Assessment questions are asked about the first five guidelines and about no other key. */
  lemma QuestionsForFiveGuidelines(guideline: string)
    ensures AssessmentQuestions(guideline) != "" <==> guideline in Keys(AI_ETHICS_GUIDELINES)[..5]
  {
    assert Keys(AI_ETHICS_GUIDELINES)[..5] == ["fairness", "transparency", "accountability", "privacy", "safety"];
  }

  // ---------------------------------------------------------------- numbering the principles

  /** A reference numbering read from the front: the first entry gets `start`, the next
      `start + 1`, and so on. */
  function NumberedFrom(start: nat, t: Table<string>): string
    decreases |t|
  {
    if t == [] then "" else NumberedPrinciple(start, t[0]) + NumberedFrom(start + 1, t[1..])
  }

  lemma {:induction false} NumberedFromSnoc(start: nat, t: Table<string>, g: (string, string))
    ensures NumberedFrom(start, t + [g]) == NumberedFrom(start, t) + NumberedPrinciple(start + |t|, g)
    decreases |t|
  {
    if t == [] {
      assert (t + [g])[1..] == [];
    } else {
      assert (t + [g])[0] == t[0];
      assert (t + [g])[1..] == t[1..] + [g];
      NumberedFromSnoc(start + 1, t[1..], g);
    }
  }

  /** `enumerate(d.items(), 1)`: the principles are numbered 1, 2, ... in table order. */
  lemma {:induction false} NumberedPrinciplesFromOne(t: Table<string>)
    ensures NumberedPrinciples(t) == NumberedFrom(1, t)
    decreases |t|
  {
    if t != [] {
      var init := t[..|t| - 1];
      NumberedPrinciplesFromOne(init);
      NumberedFromSnoc(1, init, t[|t| - 1]);
      assert init + [t[|t| - 1]] == t;
    }
  }

  // ---------------------------------------------------------------- the implementation checklist

  /** The high-risk items are appended exactly for the risk levels "high" and "critical"
      (compared as given, so "High" does not qualify). */
  lemma ChecklistByRisk(riskLevel: string)
    ensures Checklist(riskLevel) == ConcatMap(CheckboxLine,
      if riskLevel == "high" || riskLevel == "critical" then BASE_CHECKLIST + HIGH_RISK_CHECKLIST
      else BASE_CHECKLIST)
  {
    ConcatMapAppend(CheckboxLine, BASE_CHECKLIST, HIGH_RISK_CHECKLIST);
  }

  // ---------------------------------------------------------------- free-text selections

  /** The considerations are those of the first domain, in table order, named in the
      lower-cased project type, and the generic ones when none is named. */
  lemma DomainConsiderationsChoice(projectType: string, i: nat)
    ensures i < |DOMAIN_SPECIFIC| && Contains(Lower(projectType), DOMAIN_SPECIFIC[i].0)
      && (forall j :: 0 <= j < i ==> !Contains(Lower(projectType), DOMAIN_SPECIFIC[j].0))
      ==> DomainConsiderations(projectType) == ItemLines(DOMAIN_SPECIFIC[i].1)
    ensures (forall j :: 0 <= j < |DOMAIN_SPECIFIC| ==> !Contains(Lower(projectType), DOMAIN_SPECIFIC[j].0))
      ==> DomainConsiderations(projectType) == GENERIC_CONSIDERATIONS
  {
    FirstKeyInIsFirstMatch(DOMAIN_SPECIFIC, Lower(projectType), i);
  }

  /** A named stakeholder group gets the recommendation of the first key, in table order,
      occurring in its lower-cased name, and no line when no key occurs. */
  lemma StakeholderLineChoice(stakeholder: string, i: nat)
    ensures i < |STAKEHOLDER_RECOMMENDATIONS| && Contains(Lower(stakeholder), STAKEHOLDER_RECOMMENDATIONS[i].0)
      && (forall j :: 0 <= j < i ==> !Contains(Lower(stakeholder), STAKEHOLDER_RECOMMENDATIONS[j].0))
      ==> StakeholderLine(stakeholder) == "**" + stakeholder + ":** " + STAKEHOLDER_RECOMMENDATIONS[i].1 + "\n\n"
    ensures (forall j :: 0 <= j < |STAKEHOLDER_RECOMMENDATIONS| ==> !Contains(Lower(stakeholder), STAKEHOLDER_RECOMMENDATIONS[j].0))
      ==> StakeholderLine(stakeholder) == ""
  {
    FirstKeyInIsFirstMatch(STAKEHOLDER_RECOMMENDATIONS, Lower(stakeholder), i);
  }

  /** Named stakeholder groups that match no key are skipped. */
  predicate MatchesStakeholderKey(stakeholder: string)
  {
    FirstKeyIn(STAKEHOLDER_RECOMMENDATIONS, Lower(stakeholder)).Some?
  }

  lemma UnmatchedStakeholdersIgnored(stakeholderNeeds: seq<string>)
    requires stakeholderNeeds != []
    ensures StakeholderRecommendations(stakeholderNeeds)
      == ConcatMap(StakeholderLine, Filter(MatchesStakeholderKey, stakeholderNeeds))
  {
    forall x | x in stakeholderNeeds && !MatchesStakeholderKey(x) ensures StakeholderLine(x) == "" {
    }
    ConcatMapFilter(StakeholderLine, MatchesStakeholderKey, stakeholderNeeds);
  }

  // ---------------------------------------------------------------- omitted arguments

  /** Omitting `frameworks` analyses the scenario under every framework of the table. */
  lemma OmittedFrameworksAnalyseAll(args: Arguments)
    requires ArgsWellTyped(ANALYZE_ETHICAL_SCENARIO, args)
    requires "frameworks" !in args
    ensures AnalyzeScenarioText(args) == ScenarioHeader(GetString(args, "scenario"))
      + ConcatMap(FrameworkEntrySection, ETHICAL_FRAMEWORKS) + SCENARIO_RECOMMENDATIONS
  {
    DefaultFrameworksCoverTable();
  }

  /** A missing scenario is shown as the text "None". */
  lemma OmittedScenarioShownAsNone(args: Arguments)
    requires ArgsWellTyped(ANALYZE_ETHICAL_SCENARIO, args)
    requires "scenario" !in args
    ensures ArgsWellTyped(ANALYZE_ETHICAL_SCENARIO, args["scenario" := Str("None")])
    ensures AnalyzeScenarioText(args) == AnalyzeScenarioText(args["scenario" := Str("None")])
  {
  }

  /** Omitting `bias_types` checks every bias type of the table. */
  lemma OmittedBiasTypesCheckAll(args: Arguments)
    requires ArgsWellTyped(CHECK_BIAS, args)
    requires "bias_types" !in args
    ensures CheckBiasText(args) == BiasHeader(GetString(args, "context"))
      + ConcatMap(BiasEntrySection, BIAS_DESCRIPTIONS) + BIAS_ACTION_ITEMS
  {
    DefaultBiasTypesCoverTable();
  }

  /** Omitting `risk_level` is the same as asking for "medium", which adds no high-risk item. */
  lemma OmittedRiskLevelIsMedium(args: Arguments)
    requires ArgsWellTyped(GENERATE_ETHICAL_GUIDELINES, args)
    requires "risk_level" !in args
    ensures ArgsWellTyped(GENERATE_ETHICAL_GUIDELINES, args["risk_level" := Str("medium")])
    ensures GenerateGuidelinesText(args) == GenerateGuidelinesText(args["risk_level" := Str("medium")])
    ensures Checklist("medium") == ConcatMap(CheckboxLine, BASE_CHECKLIST)
  {
    ChecklistByRisk("medium");
  }

  /** Omitting `explanation_method` is the same as giving "None specified". */
  lemma OmittedExplanationMethod(args: Arguments)
    requires ArgsWellTyped(ASSESS_TRANSPARENCY, args)
    requires "explanation_method" !in args
    ensures ArgsWellTyped(ASSESS_TRANSPARENCY, args["explanation_method" := Str("None specified")])
    ensures AssessTransparencyText(args) == AssessTransparencyText(args["explanation_method" := Str("None specified")])
  {
  }

  // ---------------------------------------------------------------- explainability techniques

  /** A key longer than the text cannot occur in it. */
  lemma LongerNeverContained(hay: string, needle: string)
    requires |needle| > |hay|
    ensures !Contains(hay, needle)
  {
  }

  /** A key that starts with an upper-case letter never occurs in a lower-cased text. */
  lemma UpperCaseNeverContained(s: string, needle: string)
    requires needle != [] && IsUpper(needle[0])
    ensures !Contains(Lower(s), needle)
  {
  }

  /** As written, the third entry of the techniques table is never selected, whatever the
      system type, because its key "LLM" is compared against a lower-cased text. */
  lemma UpperCaseTechniqueNeverSelected(systemType: string)
    ensures FirstKeyIn(TECHNIQUES, Lower(systemType)) != Some(2)
  {
    UpperCaseNeverContained(systemType, TECHNIQUES[2].0);
  }

  lemma LowerLlm()
    ensures Lower("LLM") == "llm"
  {
  }

  /** As written, the system type "LLM" gets no recommended techniques at all. */
  lemma LlmAsWrittenGetsNoTechniques()
    ensures TechniquesBlock(TECHNIQUES, "LLM") == ""
  {
    LowerLlm();
    LongerNeverContained("llm", TECHNIQUES[0].0);
    LongerNeverContained("llm", TECHNIQUES[1].0);
    UpperCaseNeverContained("LLM", TECHNIQUES[2].0);
    LongerNeverContained("llm", TECHNIQUES[3].0);
    FirstKeyInIsFirstMatch(TECHNIQUES, "llm", 0);
  }

  /** Two tables whose techniques blocks for a system type differ in length give different
      transparency assessments for it. */
  lemma {:induction false} TransparencyReportsDiffer(t1: Table<seq<string>>, t2: Table<seq<string>>, systemType: string,
                                                     explanation: string, needs: seq<string>)
    requires |TechniquesBlock(t1, systemType)| != |TechniquesBlock(t2, systemType)|
    ensures TransparencyReport(t1, systemType, explanation, needs) != TransparencyReport(t2, systemType, explanation, needs)
  {
    assert |TransparencyReport(t1, systemType, explanation, needs)| - |TechniquesBlock(t1, systemType)|
        == |TransparencyReport(t2, systemType, explanation, needs)| - |TechniquesBlock(t2, systemType)|;
  }

  /** With an empty techniques block the dimensions run straight into the stakeholder
      recommendations. */
  lemma ReportWithoutTechniques(techniques: Table<seq<string>>, systemType: string, explanation: string,
                                needs: seq<string>)
    requires TechniquesBlock(techniques, systemType) == ""
    ensures TransparencyReport(techniques, systemType, explanation, needs)
      == TransparencyHeader(systemType, explanation, needs) + TRANSPARENCY_DIMENSIONS
         + "## Stakeholder-Specific Recommendations\n\n" + StakeholderRecommendations(needs)
         + TRANSPARENCY_ACTION_ITEMS
  {
    DropEmpty(TransparencyHeader(systemType, explanation, needs), TRANSPARENCY_DIMENSIONS, TechniquesBlock(techniques, systemType),
              "## Stakeholder-Specific Recommendations\n\n", StakeholderRecommendations(needs), TRANSPARENCY_ACTION_ITEMS);
  }

  lemma DropEmpty(h: string, a: string, b: string, c: string, d: string, e: string)
    requires b == ""
    ensures h + a + b + c + d + e == h + a + c + d + e
  {
    assert a + b == a;
  }

  /** As written, `assess_transparency` for the system type "LLM" goes straight from the
      transparency dimensions to the stakeholder recommendations. */
  lemma LlmCallGetsNoTechniques(args: Arguments)
    requires ArgsWellTyped(ASSESS_TRANSPARENCY, args)
    requires "system_type" in args && args["system_type"].text == "LLM"
    ensures var needs := GetArrayOr(args, "stakeholder_needs", []);
            AssessTransparencyText(args)
              == Success(TransparencyHeader("LLM", GetStringOr(args, "explanation_method", "None specified"), needs)
                         + TRANSPARENCY_DIMENSIONS
                         + "## Stakeholder-Specific Recommendations\n\n" + StakeholderRecommendations(needs)
                         + TRANSPARENCY_ACTION_ITEMS)
  {
    LlmAsWrittenGetsNoTechniques();
    ReportWithoutTechniques(TECHNIQUES, "LLM", GetStringOr(args, "explanation_method", "None specified"),
                            GetArrayOr(args, "stakeholder_needs", []));
  }

  /** So the answer to that call is not the report the lower-case table would give. */
  lemma LlmCallMissesIntendedReport(args: Arguments)
    requires ArgsWellTyped(ASSESS_TRANSPARENCY, args)
    requires "system_type" in args && args["system_type"].text == "LLM"
    ensures AssessTransparencyText(args).Success?
    ensures AssessTransparencyText(args).value
      != TransparencyReport(LOWER_CASE_TECHNIQUES, "LLM", GetStringOr(args, "explanation_method", "None specified"),
                            GetArrayOr(args, "stakeholder_needs", []))
  {
    LlmAsWrittenGetsNoTechniques();
    LlmTechniquesNonEmpty();
    TransparencyReportsDiffer(TECHNIQUES, LOWER_CASE_TECHNIQUES, "LLM",
                              GetStringOr(args, "explanation_method", "None specified"),
                              GetArrayOr(args, "stakeholder_needs", []));
  }

  lemma LlmTechniquesNonEmpty()
    ensures TechniquesBlock(LOWER_CASE_TECHNIQUES, "LLM") != ""
  {
    LlmGetsItsTechniques();
  }

  /** With the key in lower case, a system type naming "llm" (and neither of the two earlier
      keys) selects the LLM techniques. */
  lemma LlmTechniquesSelectable(systemType: string)
    ensures Contains(Lower(systemType), "llm")
      && !Contains(Lower(systemType), "neural network") && !Contains(Lower(systemType), "decision tree")
      ==> FirstKeyIn(LOWER_CASE_TECHNIQUES, Lower(systemType)) == Some(2)
  {
    FirstKeyInIsFirstMatch(LOWER_CASE_TECHNIQUES, Lower(systemType), 2);
  }

  /** With the key in lower case, the system type "LLM" gets the LLM techniques. */
  lemma LlmGetsItsTechniques()
    ensures TechniquesBlock(LOWER_CASE_TECHNIQUES, "LLM") == "**Recommended for LLM:**\n" + ItemLines(LOWER_CASE_TECHNIQUES[2].1) + "\n"
  {
    LowerLlm();
    assert "llm" <= "llm"[0..];
    LongerNeverContained("llm", LOWER_CASE_TECHNIQUES[0].0);
    LongerNeverContained("llm", LOWER_CASE_TECHNIQUES[1].0);
    LlmTechniquesSelectable("LLM");
  }

  /** A text free of upper-case letters is its own lower-casing. */
  lemma LowerOfLowerCase(s: string)
    requires forall k :: 0 <= k < |s| ==> !IsUpper(s[k])
    ensures Lower(s) == s
  {
  }

  /** With every key in lower case, each system type of the table selects its own entry. */
  lemma EveryTechniqueKeySelectsItself(i: nat)
    requires i < |LOWER_CASE_TECHNIQUES|
    ensures FirstKeyIn(LOWER_CASE_TECHNIQUES, Lower(LOWER_CASE_TECHNIQUES[i].0)) == Some(i)
  {
    var key := LOWER_CASE_TECHNIQUES[i].0;
    LowerOfLowerCase(key);
    assert key <= key[0..];
    forall j | 0 <= j < i ensures !Contains(key, LOWER_CASE_TECHNIQUES[j].0) {
      if i == 3 && j == 2 {
        assert key == "ensemble";
        forall k | 0 <= k <= |key| ensures !("llm" <= key[k..]) {
          if k < 6 {
            assert key[k] != 'l' || key[k + 1] != 'l';
          }
        }
      } else {
        LongerNeverContained(key, LOWER_CASE_TECHNIQUES[j].0);
      }
    }
    FirstKeyInIsFirstMatch(LOWER_CASE_TECHNIQUES, key, i);
  }

  // ---------------------------------------------------------------- what a report shows

  /** Every principle of every requested framework that the table holds is listed, as a
      bullet line, in the scenario analysis. */
  lemma SelectedPrinciplesShown(scenario: Option<string>, frameworks: seq<string>, k: nat, p: string)
    requires k < |ETHICAL_FRAMEWORKS| && ETHICAL_FRAMEWORKS[k].0 in frameworks
    requires p in ETHICAL_FRAMEWORKS[k].1.keyPrinciples
    ensures Contains(ScenarioReport(scenario, frameworks), Bullet(p))
  {
    var f := ETHICAL_FRAMEWORKS[k].1;
    KnowledgeKeysDistinct();
    LookupAt(ETHICAL_FRAMEWORKS, k);
    var sections := ConcatMap(FrameworkItem, frameworks);
    ConcatMapContains(FrameworkItem, frameworks, ETHICAL_FRAMEWORKS[k].0);
    ConcatMapContains(Bullet, f.keyPrinciples, p);
    var before := "\n## " + f.name + "\n\n" + f.description + "\n\n" + "**Key Principles:**\n";
    ContainsInMiddle(before, ItemLines(f.keyPrinciples), FrameworkAnalysisLine(f));
    ContainsTransitive(FrameworkSection(f), ItemLines(f.keyPrinciples), Bullet(p));
    ContainsTransitive(sections, FrameworkSection(f), Bullet(p));
    ContainsInMiddle(ScenarioHeader(scenario), sections, SCENARIO_RECOMMENDATIONS);
    ContainsTransitive(ScenarioReport(scenario, frameworks), sections, Bullet(p));
  }

  /** Every guideline of the table gets its section in an evaluation. */
  lemma EveryGuidelineAssessed(system: Option<string>, useCase: Option<string>, stakeholders: seq<string>, i: nat)
    requires i < |AI_ETHICS_GUIDELINES|
    ensures Contains(EvaluationReport(system, useCase, stakeholders), GuidelineSection(AI_ETHICS_GUIDELINES[i]))
  {
    var sections := ConcatMap(GuidelineSection, AI_ETHICS_GUIDELINES);
    ConcatMapContains(GuidelineSection, AI_ETHICS_GUIDELINES, AI_ETHICS_GUIDELINES[i]);
    ContainsInMiddle(EvaluationHeader(system, useCase, stakeholders), sections, EVALUATION_RECOMMENDATIONS);
    ContainsTransitive(EvaluationReport(system, useCase, stakeholders), sections, GuidelineSection(AI_ETHICS_GUIDELINES[i]));
  }

  /** When no stakeholder group is named, every recommendation of the table is given. */
  lemma AllRecommendationsWhenNoneNamed(i: nat)
    requires i < |STAKEHOLDER_RECOMMENDATIONS|
    ensures Contains(StakeholderRecommendations([]), STAKEHOLDER_RECOMMENDATIONS[i].1)
  {
    var r := STAKEHOLDER_RECOMMENDATIONS[i];
    ConcatMapContains(DefaultRecommendation, STAKEHOLDER_RECOMMENDATIONS, r);
    ContainsInMiddle("**" + Title(r.0) + ":** ", r.1, "\n\n");
    ContainsTransitive(StakeholderRecommendations([]), DefaultRecommendation(r), r.1);
  }

  /** Whatever the table, the techniques block is that of the first system type, in table
      order, named in the lower-cased system type, and empty when none is named. */
  lemma TechniquesBlockChoice(techniques: Table<seq<string>>, systemType: string, i: nat)
    ensures i < |techniques| && Contains(Lower(systemType), techniques[i].0)
      && (forall j :: 0 <= j < i ==> !Contains(Lower(systemType), techniques[j].0))
      ==> TechniquesBlock(techniques, systemType) == "**Recommended for " + systemType + ":**\n" + ItemLines(techniques[i].1) + "\n"
    ensures (forall j :: 0 <= j < |techniques| ==> !Contains(Lower(systemType), techniques[j].0))
      ==> TechniquesBlock(techniques, systemType) == ""
  {
    FirstKeyInIsFirstMatch(techniques, Lower(systemType), i);
  }
}
