/** `get_prompt`: three prompt templates, each a fixed text with the caller's arguments
    substituted at fixed places, and a `ValueError` for any other name. `list_prompts`
    itself is in the registry. */
module Prompts {
  import opened Wrappers
  import opened Registry

  datatype Role = User

  datatype PromptMessage = PromptMessage(role: Role, text: string)

  datatype PromptResult = PromptResult(description: string, messages: seq<PromptMessage>)

  /** A text with one hole: `before + argument + after`. */
  datatype Template = Template(before: string, after: string)

  function Fill(t: Template, argument: string): string
  {
    t.before + argument + t.after
  }

  /** Recovers the argument a text was filled with, if the text has the template's shape. */
  function Extract(t: Template, text: string): (r: Option<string>)
    ensures r.Some? ==> |r.value| == |text| - |t.before| - |t.after|
  {
    if |t.before| + |t.after| <= |text| && t.before <= text && t.after == text[|text| - |t.after|..] then
      Some(text[|t.before|..|text| - |t.after|])
    else None
  }

  /** Extracting from a filled template gives the argument back. */
  lemma ExtractFill(t: Template, argument: string)
    ensures Extract(t, Fill(t, argument)) == Some(argument)
  {
    var text := Fill(t, argument);
    assert text[..|t.before|] == t.before;
    assert text[|text| - |t.after|..] == t.after;
    assert text[|t.before|..|text| - |t.after|] == argument;
  }

  /** Whatever is extracted fills the template back to the same text. */
  lemma FillExtract(t: Template, text: string)
    requires Extract(t, text).Some?
    ensures Fill(t, Extract(t, text).value) == text
  {
    var a := Extract(t, text).value;
    assert text == text[..|t.before|] + a + text[|text| - |t.after|..];
  }

  /** Filling a template loses nothing: different arguments give different texts. */
  lemma FillInjective(t: Template, a: string, b: string)
    requires Fill(t, a) == Fill(t, b)
    ensures a == b
  {
    ExtractFill(t, a);
    ExtractFill(t, b);
  }

  const DECISION_MAKING_TEMPLATE := Template(
    @"I need help thinking through an ethical decision: ",
    @"

Please help me analyze this using a structured approach:

1. **Clarify the Situation**
   - What are the key facts?
   - What is the core ethical question?
   - What is at stake?

2. **Identify Stakeholders**
   - Who will be affected by this decision?
   - What are their interests and concerns?
   - Who has power and who is vulnerable?

3. **Consider Multiple Perspectives**
   - Utilitarian: What produces the greatest good?
   - Deontological: What are my duties and obligations?
   - Virtue Ethics: What would a person of good character do?
   - Care Ethics: How can I maintain relationships and care for those affected?

4. **Evaluate Options**
   - What are the possible courses of action?
   - What are the likely consequences of each?
   - Which aligns best with ethical principles?

5. **Make a Decision**
   - What is the most ethical choice?
   - How will I implement it?
   - How will I monitor the outcome?

Please guide me through this process.")

  const STAKEHOLDER_TEMPLATE := Template(
    @"I need to analyze stakeholders for: ",
    @"

Help me identify and analyze all stakeholders:

1. **Direct Stakeholders** (immediately affected)
   - Who benefits directly from this decision?
   - Who might be harmed directly?
   - What are their rights and interests?

2. **Indirect Stakeholders** (secondarily affected)
   - Who else might be impacted?
   - What are the ripple effects?
   - Are there future generations to consider?

3. **Power Analysis**
   - Who has decision-making power?
   - Who is vulnerable or powerless?
   - How can we ensure fair representation?

4. **Stakeholder Engagement**
   - Who should be consulted?
   - How can we gather their input?
   - How do we balance competing interests?

5. **Equity Considerations**
   - Are any groups disproportionately affected?
   - How can we ensure fairness?
   - What are the implications for social justice?

Please help me work through each of these areas.")

  const RISK_OPENING := @"I need to assess ethical risks for: "

  const RISK_SEPARATOR := "\nDeployment context: "

  const RISK_CLOSING := @"

Please help me evaluate:

1. **Fairness Risks**
   - Could the system discriminate against protected groups?
   - Is the training data representative?
   - Are there historical biases to consider?
   - How will we measure and ensure fairness?

2. **Transparency Risks**
   - Can users understand how decisions are made?
   - Is the system's logic explainable?
   - Are there ""black box"" concerns?
   - What documentation is needed?

3. **Privacy Risks**
   - What personal data is collected?
   - How is data protected?
   - Are privacy regulations followed?
   - Could data be misused?

4. **Safety and Security Risks**
   - What could go wrong?
   - How are errors handled?
   - Could the system be manipulated?
   - What are the failure modes?

5. **Autonomy and Control Risks**
   - Does the system preserve human agency?
   - Can decisions be appealed?
   - Is there appropriate human oversight?
   - Could it create dependency?

6. **Social Impact Risks**
   - How might this affect employment?
   - Could it increase inequality?
   - What are the environmental impacts?
   - Are there unintended consequences?

Please help me assess each risk category and recommend mitigations."

  /** The risk prompt has two holes; as a one-hole template its argument is
      `system_description + RISK_SEPARATOR + deployment_context`. */
  const RISK_TEMPLATE := Template(RISK_OPENING, RISK_CLOSING)

  function RiskText(systemDescription: string, deploymentContext: string): string
  {
    Fill(RISK_TEMPLATE, systemDescription + RISK_SEPARATOR + deploymentContext)
  }

  /** `arguments.get(key, default) if arguments else default`. The truthiness test is
      redundant: an absent map, an empty map and a map without `key` all give the default. */
  function ArgumentOr(arguments: Option<map<string, string>>, key: string, default: string): (r: string)
    ensures arguments.Some? && key in arguments.value ==> r == arguments.value[key]
    ensures !(arguments.Some? && key in arguments.value) ==> r == default
  {
    if arguments.Some? && arguments.value != map[] then
      if key in arguments.value then arguments.value[key] else default
    else default
  }

  function UserPrompt(description: string, text: string): PromptResult
  {
    PromptResult(description, [PromptMessage(User, text)])
  }

  /** `get_prompt(name, arguments)`: a served prompt is one user message, and a name that is
      not served raises `ValueError("Unknown prompt: <name>")`. */
  function GetPrompt(name: string, arguments: Option<map<string, string>>): (r: Result<PromptResult, PyError>)
    ensures r.Success? ==> |r.value.messages| == 1 && r.value.messages[0].role == User
    ensures r.Failure? ==> r.error == ValueError("Unknown prompt: " + name)
  {
    if name == ETHICAL_DECISION_MAKING then
      var situation := ArgumentOr(arguments, "situation", "a difficult choice");
      Success(UserPrompt("Structured ethical decision-making process",
                         Fill(DECISION_MAKING_TEMPLATE, situation)))
    else if name == STAKEHOLDER_ANALYSIS then
      var decision := ArgumentOr(arguments, "decision", "this decision");
      Success(UserPrompt("Comprehensive stakeholder analysis",
                         Fill(STAKEHOLDER_TEMPLATE, decision)))
    else if name == AI_RISK_ASSESSMENT then
      var systemDescription := ArgumentOr(arguments, "system_description", "an AI system");
      var deploymentContext := ArgumentOr(arguments, "deployment_context", "various contexts");
      Success(UserPrompt("AI ethical risk assessment",
                         RiskText(systemDescription, deploymentContext)))
    else
      Failure(ValueError("Unknown prompt: " + name))
  }

  /** A name is served exactly when `list_prompts` advertises it; a served prompt is one user
      message, and any other name raises `ValueError("Unknown prompt: <name>")`. */
  lemma GetPromptServesListed(name: string, arguments: Option<map<string, string>>)
    ensures GetPrompt(name, arguments).Success? <==>
      exists k :: 0 <= k < |ListPrompts()| && ListPrompts()[k].name == name
    ensures GetPrompt(name, arguments).Success? ==>
      |GetPrompt(name, arguments).value.messages| == 1
      && GetPrompt(name, arguments).value.messages[0].role == User
    ensures GetPrompt(name, arguments).Failure? ==>
      GetPrompt(name, arguments).error == ValueError("Unknown prompt: " + name)
  {
    if name in {ETHICAL_DECISION_MAKING, STAKEHOLDER_ANALYSIS, AI_RISK_ASSESSMENT} {
      var k := if name == ETHICAL_DECISION_MAKING then 0 else if name == STAKEHOLDER_ANALYSIS then 1 else 2;
      assert ListPrompts()[k].name == name;
    }
  }

  /** The argument a caller passes (or its default) can be read back from the prompt text:
      the single-argument prompts substitute it verbatim, even when it is empty. */
  lemma PromptArgumentRecoverable(arguments: Option<map<string, string>>)
    ensures Extract(DECISION_MAKING_TEMPLATE, GetPrompt(ETHICAL_DECISION_MAKING, arguments).value.messages[0].text)
      == Some(ArgumentOr(arguments, "situation", "a difficult choice"))
    ensures Extract(STAKEHOLDER_TEMPLATE, GetPrompt(STAKEHOLDER_ANALYSIS, arguments).value.messages[0].text)
      == Some(ArgumentOr(arguments, "decision", "this decision"))
  {
    ExtractFill(DECISION_MAKING_TEMPLATE, ArgumentOr(arguments, "situation", "a difficult choice"));
    ExtractFill(STAKEHOLDER_TEMPLATE, ArgumentOr(arguments, "decision", "this decision"));
  }

  /** No arguments, an empty map, or a map without the declared keys all yield the default
      texts; "required" arguments are not enforced. */
  lemma PromptDefaults(name: string, m: map<string, string>)
    requires forall k :: 0 <= k < |ListPrompts()| ==>
      forall a :: a in ListPrompts()[k].arguments ==> a.name !in m
    ensures GetPrompt(name, None) == GetPrompt(name, Some(map[])) == GetPrompt(name, Some(m))
    ensures name == ETHICAL_DECISION_MAKING ==>
      GetPrompt(name, None).value.messages[0].text == Fill(DECISION_MAKING_TEMPLATE, "a difficult choice")
    ensures name == STAKEHOLDER_ANALYSIS ==>
      GetPrompt(name, None).value.messages[0].text == Fill(STAKEHOLDER_TEMPLATE, "this decision")
    ensures name == AI_RISK_ASSESSMENT ==>
      GetPrompt(name, None).value.messages[0].text == RiskText("an AI system", "various contexts")
  {
    assert ListPrompts()[0].arguments[0].name == "situation";
    assert ListPrompts()[1].arguments[0].name == "decision";
    assert ListPrompts()[2].arguments[0].name == "system_description";
    assert ListPrompts()[2].arguments[1].name == "deployment_context";
  }

  /** The names of the arguments a listed prompt declares. */
  function DeclaredArguments(p: PromptDef): set<string>
  {
    set a | a in p.arguments :: a.name
  }

  /** Dropping the keys outside `keys` leaves the lookup of a key inside `keys` unchanged. */
  lemma KeptArgument(m: map<string, string>, keys: set<string>, key: string, default: string)
    requires key in keys
    ensures ArgumentOr(Some(m), key, default)
         == ArgumentOr(Some(map k | k in m && k in keys :: m[k]), key, default)
  {
  }

  /** `get_prompt` reads nothing of its arguments but the ones the named prompt looks up. */
  lemma SameLookupsSamePrompt(name: string, a: Option<map<string, string>>, b: Option<map<string, string>>)
    requires name == ETHICAL_DECISION_MAKING ==>
      ArgumentOr(a, "situation", "a difficult choice") == ArgumentOr(b, "situation", "a difficult choice")
    requires name == STAKEHOLDER_ANALYSIS ==>
      ArgumentOr(a, "decision", "this decision") == ArgumentOr(b, "decision", "this decision")
    requires name == AI_RISK_ASSESSMENT ==>
      ArgumentOr(a, "system_description", "an AI system") == ArgumentOr(b, "system_description", "an AI system")
      && ArgumentOr(a, "deployment_context", "various contexts") == ArgumentOr(b, "deployment_context", "various contexts")
    ensures GetPrompt(name, a) == GetPrompt(name, b)
  {
  }

  /** Arguments that a prompt does not declare have no effect on it. */
  lemma UndeclaredArgumentsIgnored(k: nat, m: map<string, string>)
    requires k < |ListPrompts()|
    ensures var p := ListPrompts()[k];
      GetPrompt(p.name, Some(m)) ==
      GetPrompt(p.name, Some(map key | key in m && key in DeclaredArguments(p) :: m[key]))
  {
    var p := ListPrompts()[k];
    var declared := DeclaredArguments(p);
    var kept := map key | key in m && key in declared :: m[key];
    assert p.arguments[0] in p.arguments;
    if k == 0 {
      KeptArgument(m, declared, "situation", "a difficult choice");
    } else if k == 1 {
      KeptArgument(m, declared, "decision", "this decision");
    } else {
      assert p.arguments[1] in p.arguments;
      KeptArgument(m, declared, "system_description", "an AI system");
      KeptArgument(m, declared, "deployment_context", "various contexts");
    }
    SameLookupsSamePrompt(p.name, Some(m), Some(kept));
  }

  /** Position of the first `c` in `s`, or `|s|` when there is none. */
  function IndexOf(s: string, c: char): (r: nat)
    ensures r <= |s| && c !in s[..r]
    ensures r < |s| ==> s[r] == c
  {
    if s == [] then 0
    else if s[0] == c then 0
    else
      var r := 1 + IndexOf(s[1..], c);
      assert s[..r] == [s[0]] + s[1..][..r - 1];
      r
  }

  /** Reads both arguments back from a risk-assessment text, splitting at its first line
      break after the opening. */
  function SplitRisk(text: string): Option<(string, string)>
  {
    match Extract(RISK_TEMPLATE, text)
    case None => None
    case Some(middle) =>
      var i := IndexOf(middle, '\n');
      if RISK_SEPARATOR <= middle[i..] then Some((middle[..i], middle[i + |RISK_SEPARATOR|..]))
      else None
  }

  /** Splitting `a + sep + b` at its first line break recovers `a` and `b` when `sep`
      starts with the line break and `a` has none. */
  lemma {:induction false} SplitAtFirstNewline(a: string, sep: string, b: string)
    requires sep != [] && sep[0] == '\n' && '\n' !in a
    ensures var middle := a + sep + b;
      var i := IndexOf(middle, '\n');
      i == |a| && middle[..i] == a && sep <= middle[i..] && middle[i + |sep|..] == b
  {
    var middle := a + sep + b;
    var i := IndexOf(middle, '\n');
    assert middle[|a|] == '\n';
    assert middle[..|a|] == a;
    assert !(i < |a|) by {
      assert forall j :: 0 <= j < |a| ==> middle[j] == a[j];
    }
    assert !(i > |a|) by {
      assert forall j :: |a| < j <= |middle| ==> middle[..j][|a|] == '\n';
    }
    assert middle[i..] == sep + b;
    assert middle[i + |sep|..] == b;
  }

  /** When the system description is a single line, both arguments of the risk prompt can be
      read back from its text. */
  lemma RiskArgumentsRecoverable(systemDescription: string, deploymentContext: string)
    requires '\n' !in systemDescription
    ensures SplitRisk(RiskText(systemDescription, deploymentContext)) == Some((systemDescription, deploymentContext))
  {
    var middle := systemDescription + RISK_SEPARATOR + deploymentContext;
    ExtractFill(RISK_TEMPLATE, middle);
    SplitAtFirstNewline(systemDescription, RISK_SEPARATOR, deploymentContext);
  }

  /** Without that condition the risk prompt can render two different argument pairs as the
      same text. */
  lemma RiskArgumentsAmbiguous()
    ensures RiskText("a" + RISK_SEPARATOR + "b", "c") == RiskText("a", "b" + RISK_SEPARATOR + "c")
    ensures "a" + RISK_SEPARATOR + "b" != "a"
  {
    assert ("a" + RISK_SEPARATOR + "b") + RISK_SEPARATOR + "c" == "a" + RISK_SEPARATOR + ("b" + RISK_SEPARATOR + "c");
  }
}
