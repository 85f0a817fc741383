/**
 * `DomainKnowledge.from_dict`, `CaseLibrary.from_dict`,
 * `DomainConfig.from_dict` and `DomainConfig.to_dict`.
 *
 * The dataclass constructors are called with `**kwargs`: an unknown key or a
 * missing required field raises `TypeError`. A field whose document value
 * has the wrong type also fails here (the Python class would store it).
 */
module Serialization {
  import opened Wrappers
  import opened Document
  import opened Knowledge
  import Assoc

  /** The keyword arguments of a dict accepted by a dataclass constructor. */
  predicate KwargsFit(entries: seq<(string, Value)>, allowed: set<string>, required: set<string>) {
    (forall i | 0 <= i < |entries| :: entries[i].0 in allowed)
    && (forall k | k in required :: Assoc.HasKey(entries, k))
  }

  function AsString(v: Value): Result<string> {
    if v.Str? then Success(v.s) else Failure(TypeError("expected a string"))
  }

  function AsStrings(v: Value): (r: Result<seq<string>>)
    ensures r.Success? ==> v == List(StrList(r.value))
  {
    if v.List? then StringItems(v.items) else Failure(TypeError("expected a list of strings"))
  }

  function StringItems(items: seq<Value>): (r: Result<seq<string>>)
    ensures r.Success? ==> items == StrList(r.value)
  {
    if items == [] then Success([])
    else if !items[0].Str? then Failure(TypeError("expected a string"))
    else
      match StringItems(items[1..])
      case Failure(e) => Failure(e)
      case Success(rest) => Success([items[0].s] + rest)
  }

  function AsStrMap(v: Value): Result<seq<(string, string)>> {
    if v.Dict? then StrEntryItems(v.entries) else Failure(TypeError("expected a mapping"))
  }

  function StrEntryItems(entries: seq<(string, Value)>): (r: Result<seq<(string, string)>>)
    ensures r.Success? ==> entries == StrEntries(r.value)
  {
    if entries == [] then Success([])
    else if !entries[0].1.Str? then Failure(TypeError("expected a string value"))
    else
      match StrEntryItems(entries[1..])
      case Failure(e) => Failure(e)
      case Success(rest) => Success([(entries[0].0, entries[0].1.s)] + rest)
  }

  /** `QualityCriterion(**qc)`. */
  function CriterionFromKwargs(e: seq<(string, Value)>): Result<QualityCriterion> {
    if !KwargsFit(e, {"name", "weight", "description", "evaluation_prompt"}, {"name", "weight"}) then
      Failure(TypeError("QualityCriterion() got unexpected or missing arguments"))
    else
      var name := Get(e, "name", Null);
      var weight := Get(e, "weight", Null);
      var desc := Get(e, "description", Str(""));
      var prompt := Get(e, "evaluation_prompt", Str(""));
      if name.Str? && weight.Num? && desc.Str? && prompt.Str? then
        Success(QualityCriterion(name.s, weight.n, desc.s, prompt.s))
      else Failure(TypeError("QualityCriterion field of the wrong type"))
  }

  /** `ExpertPersona(**ep)`. */
  function PersonaFromKwargs(e: seq<(string, Value)>): Result<ExpertPersona> {
    if !KwargsFit(e, {"role", "focus", "background", "thinking_approach"}, {"role", "focus"}) then
      Failure(TypeError("ExpertPersona() got unexpected or missing arguments"))
    else
      var role := Get(e, "role", Null);
      var focus := Get(e, "focus", Null);
      var bg := Get(e, "background", Str(""));
      var approach := Get(e, "thinking_approach", Str(""));
      if role.Str? && focus.Str? && bg.Str? && approach.Str? then
        Success(ExpertPersona(role.s, focus.s, bg.s, approach.s))
      else Failure(TypeError("ExpertPersona field of the wrong type"))
  }

  /** `CaseExample(**case)`. */
  function CaseFromKwargs(e: seq<(string, Value)>): Result<CaseExample> {
    if !KwargsFit(e, {"question", "expected_elements", "forbidden_elements", "category", "difficulty", "explanation"},
                  {"question"}) then
      Failure(TypeError("CaseExample() got unexpected or missing arguments"))
    else
      var q := Get(e, "question", Null);
      var expected := AsStrings(Get(e, "expected_elements", List([])));
      var forbidden := AsStrings(Get(e, "forbidden_elements", List([])));
      var cat := Get(e, "category", Str(""));
      var diff := Get(e, "difficulty", Str("medium"));
      var expl := Get(e, "explanation", Str(""));
      if q.Str? && expected.Success? && forbidden.Success? && cat.Str? && diff.Str? && expl.Str? then
        Success(CaseExample(q.s, expected.value, forbidden.value, cat.s, diff.s, expl.s))
      else Failure(TypeError("CaseExample field of the wrong type"))
  }

  /** The criteria loop of `DomainKnowledge.from_dict`: dict entries become criteria, others are skipped. */
  function CriteriaItems(items: seq<Value>): Result<seq<QualityCriterion>> {
    if items == [] then Success([])
    else
      var head: Result<seq<QualityCriterion>> :=
        if items[0].Dict? then
          match CriterionFromKwargs(items[0].entries)
          case Failure(e) => Failure(e)
          case Success(c) => Success([c])
        else Success([]);
      match head
      case Failure(e) => Failure(e)
      case Success(h) =>
        match CriteriaItems(items[1..])
        case Failure(e) => Failure(e)
        case Success(rest) => Success(h + rest)
  }

  function PersonaItems(items: seq<Value>): Result<seq<ExpertPersona>> {
    if items == [] then Success([])
    else
      var head: Result<seq<ExpertPersona>> :=
        if items[0].Dict? then
          match PersonaFromKwargs(items[0].entries)
          case Failure(e) => Failure(e)
          case Success(p) => Success([p])
        else Success([]);
      match head
      case Failure(e) => Failure(e)
      case Success(h) =>
        match PersonaItems(items[1..])
        case Failure(e) => Failure(e)
        case Success(rest) => Success(h + rest)
  }

  /** `DomainKnowledge.from_dict`. */
  function KnowledgeFromDict(data: Value): Result<DomainKnowledge> {
    if !data.Dict? then Failure(AttributeError("object has no attribute 'get'"))
    else
      var d := data.entries;
      match Iterate(Get(d, "quality_criteria", List([])))
      case Failure(e) => Failure(e)
      case Success(qcItems) =>
        match CriteriaItems(qcItems)
        case Failure(e) => Failure(e)
        case Success(criteria) =>
          match Iterate(Get(d, "expert_personas", List([])))
          case Failure(e) => Failure(e)
          case Success(epItems) =>
            match PersonaItems(epItems)
            case Failure(e) => Failure(e)
            case Success(personas) =>
              var principles := AsStrings(Get(d, "principles", List([])));
              var constraints := AsStrings(Get(d, "constraints", List([])));
              var styles := AsStrings(Get(d, "thinking_styles", List([])));
              var terms := AsStrMap(Get(d, "terminology", Dict([])));
              var patterns := AsStrings(Get(d, "patterns", List([])));
              var anti := AsStrings(Get(d, "anti_patterns", List([])));
              if principles.Success? && constraints.Success? && styles.Success? && terms.Success?
                 && patterns.Success? && anti.Success? then
                Success(DomainKnowledge(principles.value, constraints.value, criteria, styles.value,
                                        personas, terms.value, patterns.value, anti.value))
              else Failure(TypeError("knowledge field of the wrong type"))
  }

  /** The inner loop of `parse_cases`: stamp the group's category on every dict case, skip the rest. */
  function GroupCases(items: seq<Value>, category: Value): Result<seq<CaseExample>> {
    if items == [] then Success([])
    else
      var head: Result<seq<CaseExample>> :=
        if items[0].Dict? then
          match CaseFromKwargs(Assoc.Put(items[0].entries, "category", category))
          case Failure(e) => Failure(e)
          case Success(c) => Success([c])
        else Success([]);
      match head
      case Failure(e) => Failure(e)
      case Success(h) =>
        match GroupCases(items[1..], category)
        case Failure(e) => Failure(e)
        case Success(rest) => Success(h + rest)
  }

  /** `parse_cases`: flatten the category groups of one bucket, in order. */
  function ParseCases(groups: seq<Value>): Result<seq<CaseExample>> {
    if groups == [] then Success([])
    else if !groups[0].Dict? then Failure(AttributeError("object has no attribute 'get'"))
    else
      var g := groups[0].entries;
      match Iterate(Get(g, "cases", List([])))
      case Failure(e) => Failure(e)
      case Success(cases) =>
        match GroupCases(cases, Get(g, "category", Str("")))
        case Failure(e) => Failure(e)
        case Success(h) =>
          match ParseCases(groups[1..])
          case Failure(e) => Failure(e)
          case Success(rest) => Success(h + rest)
  }

  function ParseBucket(d: seq<(string, Value)>, key: string): Result<seq<CaseExample>> {
    match Iterate(Get(d, key, List([])))
    case Failure(e) => Failure(e)
    case Success(groups) => ParseCases(groups)
  }

  /** `CaseLibrary.from_dict`. */
  function CaseLibraryFromDict(data: Value): Result<CaseLibrary> {
    if !data.Dict? then Failure(AttributeError("object has no attribute 'get'"))
    else
      match ParseBucket(data.entries, "critical_cases")
      case Failure(e) => Failure(e)
      case Success(critical) =>
        match ParseBucket(data.entries, "edge_cases")
        case Failure(e) => Failure(e)
        case Success(edge) =>
          match ParseBucket(data.entries, "common_cases")
          case Failure(e) => Failure(e)
          case Success(common) => Success(CaseLibrary(critical, edge, common))
  }

  /** `DomainConfig.from_dict`. */
  function ConfigFromDict(data: Value): (r: Result<DomainConfig>)
    ensures !data.Dict? ==> r.Failure?
    ensures r.Success? ==> r.value.validators == []
    ensures r.Success? && !Assoc.HasKey(data.entries, "domain_name") ==> r.value.domainName == r.value.domainType
    ensures r.Success? && !Assoc.HasKey(data.entries, "domain_type") ==> r.value.domainType == "general"
    ensures r.Success? && Assoc.HasKey(data.entries, "tacit_knowledge")
         ==> KnowledgeFromDict(Get(data.entries, "tacit_knowledge", Null)) == Success(r.value.knowledge)
    ensures r.Success? && !Assoc.HasKey(data.entries, "tacit_knowledge") && Assoc.HasKey(data.entries, "knowledge")
         ==> KnowledgeFromDict(Get(data.entries, "knowledge", Null)) == Success(r.value.knowledge)
    ensures r.Success? && !Assoc.HasKey(data.entries, "tacit_knowledge") && !Assoc.HasKey(data.entries, "knowledge")
         ==> r.value.knowledge == EmptyKnowledge
  {
    if !data.Dict? then Failure(AttributeError("object has no attribute 'get'"))
    else
      var d := data.entries;
      Assoc.LookupFound(d, "domain_name");
      Assoc.LookupFound(d, "domain_type");
      Assoc.LookupFound(d, "tacit_knowledge");
      Assoc.LookupFound(d, "knowledge");
      match KnowledgeFromDict(Get(d, "tacit_knowledge", Get(d, "knowledge", Dict([]))))
      case Failure(e) => Failure(e)
      case Success(knowledge) =>
        match CaseLibraryFromDict(Get(d, "case_library", Dict([])))
        case Failure(e) => Failure(e)
        case Success(library) =>
          var dtype := Get(d, "domain_type", Str("general"));
          var dname := Get(d, "domain_name", Get(d, "domain_type", Str("general")));
          var desc := Get(d, "description", Str(""));
          var critique := Get(d, "critique_template", Str(""));
          var refine := Get(d, "refinement_template", Str(""));
          var meta := Get(d, "metadata", Dict([]));
          if dtype.Str? && dname.Str? && desc.Str? && critique.Str? && refine.Str? && meta.Dict? then
            Success(DomainConfig(dtype.s, dname.s, desc.s, knowledge, critique.s, refine.s,
                                 library, meta.entries, []))
          else Failure(TypeError("config field of the wrong type"))
  }

  function CriterionDoc(qc: QualityCriterion): Value {
    Dict([("name", Str(qc.name)), ("weight", Num(qc.weight)), ("description", Str(qc.description))])
  }

  function PersonaDoc(ep: ExpertPersona): Value {
    Dict([("role", Str(ep.role)), ("focus", Str(ep.focus)), ("background", Str(ep.background))])
  }

  function CriteriaDocs(qcs: seq<QualityCriterion>): (r: seq<Value>)
    ensures |r| == |qcs|
  {
    if qcs == [] then [] else [CriterionDoc(qcs[0])] + CriteriaDocs(qcs[1..])
  }

  function PersonaDocs(eps: seq<ExpertPersona>): (r: seq<Value>)
    ensures |r| == |eps|
  {
    if eps == [] then [] else [PersonaDoc(eps[0])] + PersonaDocs(eps[1..])
  }

  function KnowledgeDoc(k: DomainKnowledge): Value {
    Dict([
      ("principles", List(StrList(k.principles))),
      ("constraints", List(StrList(k.constraints))),
      ("quality_criteria", List(CriteriaDocs(k.qualityCriteria))),
      ("thinking_styles", List(StrList(k.thinkingStyles))),
      ("expert_personas", List(PersonaDocs(k.expertPersonas))),
      ("terminology", Dict(StrEntries(k.terminology))),
      ("patterns", List(StrList(k.patterns))),
      ("anti_patterns", List(StrList(k.antiPatterns)))])
  }

  /**
   * `DomainConfig.to_dict`: the summary view. It leaves out the case library,
   * the validators, criterion evaluation prompts and persona thinking approaches.
   */
  function ConfigToDict(c: DomainConfig): Value {
    Dict(ConfigEntries(c.domainType, c.domainName, c.description, KnowledgeDoc(c.knowledge),
                       c.critiqueTemplate, c.refinementTemplate, c.metadata))
  }

  /** The `to_dict` entries, in the order the dict literal lists them. */
  function ConfigEntries(dtype: string, dname: string, desc: string, knowledge: Value,
                         critique: string, refine: string, meta: seq<(string, Value)>): seq<(string, Value)> {
    [("domain_type", Str(dtype)),
     ("domain_name", Str(dname)),
     ("description", Str(desc)),
     ("tacit_knowledge", knowledge),
     ("critique_template", Str(critique)),
     ("refinement_template", Str(refine)),
     ("metadata", Dict(meta))]
  }

  /** What survives `to_dict` followed by `from_dict`. */
  function Summarized(c: DomainConfig): DomainConfig {
    c.(knowledge := c.knowledge.(qualityCriteria := StripPrompts(c.knowledge.qualityCriteria),
                                 expertPersonas := StripApproaches(c.knowledge.expertPersonas)),
       caseLibrary := EmptyLibrary,
       validators := [])
  }

  function StripPrompts(qcs: seq<QualityCriterion>): (r: seq<QualityCriterion>)
    ensures |r| == |qcs|
    ensures forall i | 0 <= i < |qcs| :: r[i] == qcs[i].(evaluationPrompt := "")
  {
    if qcs == [] then [] else [qcs[0].(evaluationPrompt := "")] + StripPrompts(qcs[1..])
  }

  function StripApproaches(eps: seq<ExpertPersona>): (r: seq<ExpertPersona>)
    ensures |r| == |eps|
    ensures forall i | 0 <= i < |eps| :: r[i] == eps[i].(thinkingApproach := "")
  {
    if eps == [] then [] else [eps[0].(thinkingApproach := "")] + StripApproaches(eps[1..])
  }

  lemma {:induction false} StringsRoundTrip(xs: seq<string>)
    ensures StringItems(StrList(xs)) == Success(xs)
  {
    if xs != [] {
      var l := StrList(xs);
      assert l[0] == Str(xs[0]) && l[1..] == StrList(xs[1..]);
      StringsRoundTrip(xs[1..]);
      assert StringItems(l) == Success([xs[0]] + xs[1..]);
      assert [xs[0]] + xs[1..] == xs;
    }
  }

  lemma {:induction false} StrMapRoundTrip(m: seq<(string, string)>)
    ensures StrEntryItems(StrEntries(m)) == Success(m)
  {
    if m != [] {
      var l := StrEntries(m);
      assert l[0] == (m[0].0, Str(m[0].1)) && l[1..] == StrEntries(m[1..]);
      StrMapRoundTrip(m[1..]);
      assert StrEntryItems(l) == Success([(m[0].0, m[0].1)] + m[1..]);
      assert [(m[0].0, m[0].1)] + m[1..] == m;
    }
  }

  lemma {:induction false} CriteriaRoundTrip(qcs: seq<QualityCriterion>)
    ensures CriteriaItems(CriteriaDocs(qcs)) == Success(StripPrompts(qcs))
  {
    if qcs != [] {
      var e := CriterionDoc(qcs[0]).entries;
      assert Assoc.Keys(e) == ["name", "weight", "description"];
      Assoc.LookupAt(e, 0);
      Assoc.LookupAt(e, 1);
      Assoc.LookupAt(e, 2);
      Assoc.LookupAbsent(e, "evaluation_prompt");
      assert CriterionFromKwargs(e) == Success(qcs[0].(evaluationPrompt := ""));
      assert CriteriaDocs(qcs)[1..] == CriteriaDocs(qcs[1..]);
      CriteriaRoundTrip(qcs[1..]);
      assert StripPrompts(qcs) == [qcs[0].(evaluationPrompt := "")] + StripPrompts(qcs[1..]);
    }
  }

  lemma {:induction false} PersonasRoundTrip(eps: seq<ExpertPersona>)
    ensures PersonaItems(PersonaDocs(eps)) == Success(StripApproaches(eps))
  {
    if eps != [] {
      var e := PersonaDoc(eps[0]).entries;
      assert Assoc.Keys(e) == ["role", "focus", "background"];
      Assoc.LookupAt(e, 0);
      Assoc.LookupAt(e, 1);
      Assoc.LookupAt(e, 2);
      Assoc.LookupAbsent(e, "thinking_approach");
      assert PersonaFromKwargs(e) == Success(eps[0].(thinkingApproach := ""));
      assert PersonaDocs(eps)[1..] == PersonaDocs(eps[1..]);
      PersonasRoundTrip(eps[1..]);
      assert StripApproaches(eps) == [eps[0].(thinkingApproach := "")] + StripApproaches(eps[1..]);
    }
  }

  lemma KnowledgeDocFields(k: DomainKnowledge)
    ensures var d := KnowledgeDoc(k).entries;
      && Get(d, "principles", List([])) == List(StrList(k.principles))
      && Get(d, "constraints", List([])) == List(StrList(k.constraints))
      && Get(d, "quality_criteria", List([])) == List(CriteriaDocs(k.qualityCriteria))
      && Get(d, "thinking_styles", List([])) == List(StrList(k.thinkingStyles))
      && Get(d, "expert_personas", List([])) == List(PersonaDocs(k.expertPersonas))
      && Get(d, "terminology", Dict([])) == Dict(StrEntries(k.terminology))
      && Get(d, "patterns", List([])) == List(StrList(k.patterns))
      && Get(d, "anti_patterns", List([])) == List(StrList(k.antiPatterns))
  {
    var d := KnowledgeDoc(k).entries;
    forall i | 0 <= i < |d|
      ensures Assoc.Lookup(d, d[i].0) == Some(d[i].1)
    {
      Assoc.LookupAt(d, i);
    }
  }

  lemma KnowledgeRoundTrip(k: DomainKnowledge)
    ensures KnowledgeFromDict(KnowledgeDoc(k))
         == Success(k.(qualityCriteria := StripPrompts(k.qualityCriteria),
                       expertPersonas := StripApproaches(k.expertPersonas)))
  {
    StringsRoundTrip(k.principles);
    StringsRoundTrip(k.constraints);
    StringsRoundTrip(k.thinkingStyles);
    StringsRoundTrip(k.patterns);
    StringsRoundTrip(k.antiPatterns);
    StrMapRoundTrip(k.terminology);
    CriteriaRoundTrip(k.qualityCriteria);
    PersonasRoundTrip(k.expertPersonas);
    KnowledgeDocFields(k);
  }

  /** Where each field sits in the `to_dict` document; there is no case library. */
  lemma ConfigDocFields(dtype: string, dname: string, desc: string, knowledge: Value,
                        critique: string, refine: string, meta: seq<(string, Value)>)
    ensures Get(ConfigEntries(dtype, dname, desc, knowledge, critique, refine, meta), "domain_type", Str("general")) == Str(dtype)
    ensures Get(ConfigEntries(dtype, dname, desc, knowledge, critique, refine, meta), "domain_name", Null) == Str(dname)
    ensures Get(ConfigEntries(dtype, dname, desc, knowledge, critique, refine, meta), "description", Str("")) == Str(desc)
    ensures Get(ConfigEntries(dtype, dname, desc, knowledge, critique, refine, meta), "tacit_knowledge", Null) == knowledge
    ensures Get(ConfigEntries(dtype, dname, desc, knowledge, critique, refine, meta), "critique_template", Str("")) == Str(critique)
    ensures Get(ConfigEntries(dtype, dname, desc, knowledge, critique, refine, meta), "refinement_template", Str("")) == Str(refine)
    ensures Get(ConfigEntries(dtype, dname, desc, knowledge, critique, refine, meta), "metadata", Dict([])) == Dict(meta)
    ensures Get(ConfigEntries(dtype, dname, desc, knowledge, critique, refine, meta), "case_library", Dict([])) == Dict([])
  {
    var d := ConfigEntries(dtype, dname, desc, knowledge, critique, refine, meta);
    assert Get(d, "domain_type", Str("general")) == Str(dtype) by { Assoc.LookupAt(d, 0); }
    assert Get(d, "domain_name", Null) == Str(dname) by { assert "domain_type"[7] != "domain_name"[7]; Assoc.LookupAt(d, 1); }
    assert Get(d, "description", Str("")) == Str(desc) by { assert "domain_type"[1] != "description"[1] && "domain_name"[1] != "description"[1]; Assoc.LookupAt(d, 2); }
    assert Get(d, "tacit_knowledge", Null) == knowledge by { Assoc.LookupAt(d, 3); }
    assert Get(d, "critique_template", Str("")) == Str(critique) by { Assoc.LookupAt(d, 4); }
    assert Get(d, "refinement_template", Str("")) == Str(refine) by { Assoc.LookupAt(d, 5); }
    assert Get(d, "metadata", Dict([])) == Dict(meta) by { Assoc.LookupAt(d, 6); }
    assert Get(d, "case_library", Dict([])) == Dict([]) by { Assoc.LookupAbsent(d, "case_library"); }
  }

  /**
   * `from_dict(to_dict(c))` keeps type, name, description, templates,
   * metadata and all knowledge lists; criteria keep name, weight and
   * description, personas role, focus and background; the case library
   * comes back empty.
   */
  lemma ConfigRoundTrip(c: DomainConfig)
    ensures ConfigFromDict(ConfigToDict(c)) == Success(Summarized(c))
  {
    KnowledgeRoundTrip(c.knowledge);
    ConfigDocFields(c.domainType, c.domainName, c.description, KnowledgeDoc(c.knowledge),
                    c.critiqueTemplate, c.refinementTemplate, c.metadata);
    assert CaseLibraryFromDict(Dict([])) == Success(EmptyLibrary);
  }

  /** Number of dict entries in a document list. */
  function DictCount(items: seq<Value>): nat {
    if items == [] then 0 else (if items[0].Dict? then 1 else 0) + DictCount(items[1..])
  }

  /** Each dict of a group becomes one case carrying the group's category, whatever its own dict said; other entries are skipped. */
  lemma {:induction false} GroupCasesStampCategory(items: seq<Value>, category: string)
    requires GroupCases(items, Str(category)).Success?
    ensures forall c | c in GroupCases(items, Str(category)).value :: c.category == category
    ensures |GroupCases(items, Str(category)).value| == DictCount(items)
  {
    if items != [] {
      GroupCasesStampCategory(items[1..], category);
      if items[0].Dict? {
        Assoc.PutLookup(items[0].entries, "category", Str(category));
      }
    }
  }
}
