/** Properties of the tool registry `list_tools`: its names, its schemas and how they match
    what the handlers read. */
module ToolProperties {
  import opened Wrappers
  import opened Text
  import opened Knowledge
  import opened Registry
  import opened Reports

  /** The names `list_tools` advertises, in order: the five tools `call_tool` dispatches on. */
  function ToolNames(): (names: seq<string>)
    ensures |names| == |ListTools()|
    ensures forall k :: 0 <= k < |ListTools()| ==> names[k] == ListTools()[k].name
    ensures names == [ANALYZE_ETHICAL_SCENARIO, EVALUATE_AI_SYSTEM, CHECK_BIAS,
                      GENERATE_ETHICAL_GUIDELINES, ASSESS_TRANSPARENCY]
  {
    seq(|ListTools()|, k requires 0 <= k < |ListTools()| => ListTools()[k].name)
  }

  /** `list_tools` advertises five tools under distinct names, and every name a schema marks
      as required is one of that schema's properties. */
  lemma ToolRegistryShape()
    ensures ToolNames() == [ANALYZE_ETHICAL_SCENARIO, EVALUATE_AI_SYSTEM, CHECK_BIAS,
                            GENERATE_ETHICAL_GUIDELINES, ASSESS_TRANSPARENCY]
    ensures forall a, b :: 0 <= a < b < |ToolNames()| ==> ToolNames()[a] != ToolNames()[b]
    ensures forall k, r :: 0 <= k < |ListTools()| && r in ListTools()[k].required ==>
      exists i :: 0 <= i < |ListTools()[k].properties| && ListTools()[k].properties[i].name == r
  {
    var names := ToolNames();
    assert names == [ANALYZE_ETHICAL_SCENARIO, EVALUATE_AI_SYSTEM, CHECK_BIAS,
                     GENERATE_ETHICAL_GUIDELINES, ASSESS_TRANSPARENCY];
    forall k, r | 0 <= k < |ListTools()| && r in ListTools()[k].required
      ensures exists i :: 0 <= i < |ListTools()[k].properties| && ListTools()[k].properties[i].name == r
    {
      var props := ListTools()[k].properties;
      if r == props[0].name {
      } else {
        assert k == 1 && r == props[1].name;
      }
    }
  }

  /** One declared property is respected by the arguments. */
  predicate Respects(p: Param, args: Arguments)
  {
    p.name in args ==> KindOf(args[p.name]) == p.kind
  }

  lemma {:induction false} RespectsIsTyping(p: Param, args: Arguments)
    ensures p.kind == StringKind ==> (Respects(p, args) <==> StringOrAbsent(args, p.name))
    ensures p.kind == StringArrayKind ==> (Respects(p, args) <==> ArrayOrAbsent(args, p.name))
  {
    if p.name in args {
      match args[p.name]
      case Str(_) =>
      case Strs(_) =>
    }
  }

  lemma {:induction false} ConformsToEach(properties: seq<Param>, args: Arguments)
    ensures ConformsTo(properties, args) <==> forall i :: 0 <= i < |properties| ==> Respects(properties[i], args)
  {
  }

  /** The typing the handlers rely on is exactly the typing each advertised schema declares. */
  lemma SchemaIsHandlerTyping(k: nat, args: Arguments)
    requires k < |ListTools()|
    ensures ArgsWellTyped(ListTools()[k].name, args) <==> ConformsTo(ListTools()[k].properties, args)
  {
    var t := ListTools()[k];
    var ps := t.properties;
    ConformsToEach(ps, args);
    forall i | 0 <= i < |ps| {
      RespectsIsTyping(ps[i], args);
    }
    if k == 0 || k == 2 {
      assert |ps| == 2;
      assert ConformsTo(ps, args) <==> Respects(ps[0], args) && Respects(ps[1], args);
    } else {
      assert |ps| == 3;
      assert ConformsTo(ps, args) <==> Respects(ps[0], args) && Respects(ps[1], args) && Respects(ps[2], args);
    }
  }

  /** The enumerations the schemas advertise are the registry's enumeration constants, and
      the risk levels the guidelines handler singles out are among them. */
  lemma SchemaEnumsAdvertised()
    ensures ListTools()[0].properties[1].allowed == Some(FRAMEWORK_ENUM)
    ensures ListTools()[2].properties[1].allowed == Some(BIAS_TYPE_ENUM)
    ensures ListTools()[3].properties[1].allowed == Some(RISK_LEVEL_ENUM)
    ensures "medium" in RISK_LEVEL_ENUM && "high" in RISK_LEVEL_ENUM && "critical" in RISK_LEVEL_ENUM
  {
  }

  /** The advertised enumerations and the handlers' defaults are exactly the keys of the
      tables the handlers read, in table order. */
  lemma EnumsAreTableKeys()
    ensures FRAMEWORK_ENUM == DEFAULT_FRAMEWORKS == Keys(ETHICAL_FRAMEWORKS)
    ensures BIAS_TYPE_ENUM == DEFAULT_BIAS_TYPES == Keys(BIAS_DESCRIPTIONS)
  {
  }

  /** The two tools whose handlers can raise mark the argument they need as required. */
  lemma SchemaRequirements()
    ensures ListTools()[0].name == ANALYZE_ETHICAL_SCENARIO
    ensures ListTools()[1].name == EVALUATE_AI_SYSTEM
    ensures ListTools()[2].name == CHECK_BIAS
    ensures ListTools()[3].name == GENERATE_ETHICAL_GUIDELINES && "project_type" in ListTools()[3].required
    ensures ListTools()[4].name == ASSESS_TRANSPARENCY && "system_type" in ListTools()[4].required
  {
  }
}
