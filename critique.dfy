/**
 * `DomainCritiqueGenerator`: the critique and refinement prompts, from a
 * custom `{placeholder}` template or from the fixed default layout.
 */
module Critique {
  import opened Wrappers
  import opened Text
  import opened Knowledge
  import opened Template
  import Scoring

  // ---------------------------------------------------------------------
  // List, criteria and score formatting.

  /** `f"{i+1}. {item}"` for each item, numbering from `start + 1`. */
  function NumberedFrom(items: seq<string>, start: nat): (r: seq<string>)
    ensures |r| == |items|
    ensures forall i | 0 <= i < |items| :: r[i] == NatToString(start + i + 1) + ". " + items[i]
    decreases |items|
  {
    if items == [] then []
    else [NatToString(start + 1) + ". " + items[0]] + NumberedFrom(items[1..], start + 1)
  }

  /** `_format_list`. */
  function FormatList(items: seq<string>): string {
    if items == [] then "(없음)" else Join("\n", NumberedFrom(items, 0))
  }

  /** One line of `_format_criteria`: name, truncated percentage weight, optional description. */
  function CriterionLine(qc: QualityCriterion): string {
    "- " + qc.name + " (가중치: " + IntToString(Trunc(qc.weight * 100.0)) + "%)"
      + (if qc.description != "" then " - " + qc.description else "")
  }

  function CriterionLines(criteria: seq<QualityCriterion>): (r: seq<string>)
    ensures |r| == |criteria|
    ensures forall i | 0 <= i < |criteria| :: r[i] == CriterionLine(criteria[i])
  {
    if criteria == [] then [] else [CriterionLine(criteria[0])] + CriterionLines(criteria[1..])
  }

  /** `_format_criteria`. */
  function FormatCriteria(criteria: seq<QualityCriterion>): string {
    if criteria == [] then "(기본 품질 기준 적용)" else Join("\n", CriterionLines(criteria))
  }

  /** The loop of `_format_criteria` that appends one line per criterion. */
  method CollectCriterionLines(criteria: seq<QualityCriterion>) returns (lines: seq<string>)
    ensures |lines| == |criteria|
    ensures forall i | 0 <= i < |criteria| :: lines[i] == CriterionLine(criteria[i])
  {
    ghost var all := CriterionLines(criteria);
    lines := [];
    var i := 0;
    while i < |criteria|
      invariant 0 <= i <= |criteria|
      invariant lines == all[..i]
    {
      var line := CriterionLine(criteria[i]);
      TakeOneMore(all, i);
      lines := lines + [line];
      i := i + 1;
    }
    assert all[..i] == all;
  }

  function ScoreLine(entry: (string, real)): string {
    "- " + entry.0 + ": " + IntToString(Trunc(entry.1 * 100.0)) + "%"
  }

  function ScoreLines(scores: Scoring.ScoreMap): (r: seq<string>)
    ensures |r| == |scores|
    ensures forall i | 0 <= i < |scores| :: r[i] == ScoreLine(scores[i])
  {
    if scores == [] then [] else [ScoreLine(scores[0])] + ScoreLines(scores[1..])
  }

  /** `_format_scores`: one line per metric, in the map's order; "" for no scores. */
  function FormatScores(scores: Scoring.ScoreMap): string {
    if scores == [] then "" else Join("\n", ScoreLines(scores))
  }

  /** The loop of `_format_scores`. */
  method CollectScoreLines(scores: Scoring.ScoreMap) returns (lines: seq<string>)
    ensures |lines| == |scores|
    ensures forall i | 0 <= i < |scores| :: lines[i] == ScoreLine(scores[i])
  {
    ghost var all := ScoreLines(scores);
    lines := [];
    var i := 0;
    while i < |scores|
      invariant 0 <= i <= |scores|
      invariant lines == all[..i]
    {
      var line := ScoreLine(scores[i]);
      TakeOneMore(all, i);
      lines := lines + [line];
      i := i + 1;
    }
    assert all[..i] == all;
  }

  // ---------------------------------------------------------------------
  // Properties of the formatting.

  predicate NoNewlineIn(items: seq<string>) {
    forall i | 0 <= i < |items| :: '\n' !in items[i]
  }

  lemma JoinStartsWith(sep: string, xs: seq<string>)
    requires xs != []
    ensures StartsWith(Join(sep, xs), xs[0])
  {
  }

  lemma NatToStringNoNewline(n: nat)
    ensures '\n' !in NatToString(n)
  {
  }

  lemma NumberedLineNoNewline(n: nat, item: string)
    requires '\n' !in item
    ensures '\n' !in NatToString(n) + ". " + item
  {
    NatToStringNoNewline(n);
  }

  lemma IntToStringNoNewline(i: int)
    ensures '\n' !in IntToString(i)
  {
    IntToStringDigits(i);
  }

  lemma CriterionLineNoNewline(qc: QualityCriterion)
    requires '\n' !in qc.name && '\n' !in qc.description
    ensures '\n' !in CriterionLine(qc)
  {
    IntToStringNoNewline(Trunc(qc.weight * 100.0));
  }

  lemma ScoreLineNoNewline(entry: (string, real))
    requires '\n' !in entry.0
    ensures '\n' !in ScoreLine(entry)
  {
    IntToStringNoNewline(Trunc(entry.1 * 100.0));
  }

  /** An empty list and only an empty list is shown as "(없음)". */
  lemma FormatListEmpty(items: seq<string>)
    ensures FormatList(items) == "(없음)" <==> items == []
  {
    if items != [] {
      var lines := NumberedFrom(items, 0);
      JoinStartsWith("\n", lines);
      var s := NatToString(1);
      assert IsDigit(s[0]);
      assert FormatList(items)[0] == lines[0][0] == s[0];
    }
  }

  /** The lines of a non-empty formatted list are the numbered items, `1.` first. */
  lemma FormatListLines(items: seq<string>)
    requires items != [] && NoNewlineIn(items)
    ensures SplitOn(FormatList(items), '\n') == NumberedFrom(items, 0)
    ensures forall i | 0 <= i < |items| :: SplitOn(FormatList(items), '\n')[i] == NatToString(i + 1) + ". " + items[i]
  {
    var lines := NumberedFrom(items, 0);
    forall i | 0 <= i < |lines| ensures '\n' !in lines[i] {
      NumberedLineNoNewline(i + 1, items[i]);
    }
    SplitJoin(lines, '\n');
  }

  /** The lines of the formatted criteria are the criteria, one each, in order. */
  lemma FormatCriteriaLines(criteria: seq<QualityCriterion>)
    requires criteria != []
    requires forall i | 0 <= i < |criteria| :: '\n' !in criteria[i].name && '\n' !in criteria[i].description
    ensures SplitOn(FormatCriteria(criteria), '\n') == CriterionLines(criteria)
  {
    var lines := CriterionLines(criteria);
    forall i | 0 <= i < |lines| ensures '\n' !in lines[i] {
      CriterionLineNoNewline(criteria[i]);
    }
    SplitJoin(lines, '\n');
  }

  /** The lines of the formatted scores are the metrics, one each, in the map's order. */
  lemma FormatScoresLines(scores: Scoring.ScoreMap)
    requires scores != []
    requires forall i | 0 <= i < |scores| :: '\n' !in scores[i].0
    ensures SplitOn(FormatScores(scores), '\n') == ScoreLines(scores)
  {
    var lines := ScoreLines(scores);
    forall i | 0 <= i < |lines| ensures '\n' !in lines[i] {
      ScoreLineNoNewline(scores[i]);
    }
    SplitJoin(lines, '\n');
  }

  // ---------------------------------------------------------------------
  // Where one piece of text sits inside a concatenation.

  lemma PrefixOfConcat(a: string, b: string)
    ensures StartsWith(a + b, a)
  {
    assert (a + b)[..|a|] == a;
  }

  lemma PrefixExtends(s: string, p: string, t: string)
    requires StartsWith(s, p)
    ensures StartsWith(s + t, p)
  {
    assert (s + t)[..|p|] == s[..|p|];
  }

  lemma SuffixOfConcat(a: string, b: string)
    ensures EndsWith(a + b, b)
  {
    assert (a + b)[|a + b| - |b|..] == b;
  }

  lemma DropSuffix(a: string, b: string)
    ensures (a + b)[..|a + b| - |b|] == a
  {
  }

  lemma ContainsMiddle(a: string, b: string, c: string)
    ensures Contains(a + (b + c), b)
  {
    var t := a + (b + c);
    assert t[|a|..|a| + |b|] == b;
    assert OccursAt(t, b, |a|);
  }

  lemma ContainsAfter(s: string, t: string, n: string)
    requires Contains(t, n)
    ensures Contains(s + t, n)
  {
    var i :| 0 <= i <= |t| - |n| && OccursAt(t, n, i);
    assert (s + t)[|s| + i..|s| + i + |n|] == t[i..i + |n|];
    assert OccursAt(s + t, n, |s| + i);
  }

  lemma ContainsBefore(s: string, t: string, n: string)
    requires Contains(s, n)
    ensures Contains(s + t, n)
  {
    var i :| 0 <= i <= |s| - |n| && OccursAt(s, n, i);
    assert (s + t)[i..i + |n|] == s[i..i + |n|];
    assert OccursAt(s + t, n, i);
  }

  // ---------------------------------------------------------------------
  // The critique prompt.

  /** `if scores:` — a non-empty score dictionary. */
  predicate HasScores(scores: Option<Scoring.ScoreMap>) {
    scores.Some? && scores.value != []
  }

  /** The variables offered to a custom critique template, in dictionary order. */
  function CritiqueVariables(config: DomainConfig, instruction: string, examples: string,
                             scores: Option<Scoring.ScoreMap>): (vars: Variables)
    ensures |vars| == 9
    ensures Assoc.Keys(vars) == ["instruction", "examples", "domain_type", "domain_name", "principles",
                                 "constraints", "quality_criteria", "thinking_styles", "scores"]
  {
    [("instruction", instruction),
     ("examples", examples),
     ("domain_type", config.domainType),
     ("domain_name", config.domainName),
     ("principles", FormatList(config.knowledge.principles)),
     ("constraints", FormatList(config.knowledge.constraints)),
     ("quality_criteria", FormatCriteria(config.knowledge.qualityCriteria)),
     ("thinking_styles", FormatList(config.knowledge.thinkingStyles)),
     ("scores", if HasScores(scores) then FormatScores(scores.value) else "")]
  }

  /** The generic expert sentence. */
  function Greeting(domainName: string): string {
    "당신은 " + domainName + " 분야의 전문가입니다."
  }

  /** A heading, its body and the blank line after it. */
  function Section(heading: string, body: string): string {
    heading + body + "\n\n"
  }

  const CritiqueIntro: string := "다음 프롬프트 지시문과 예제 응답을 평가하고 개선점을 제시하세요.\n\n"

  /** Everything of the default critique before the optional score block. */
  function CritiqueHead(config: DomainConfig, instruction: string, examples: string): string {
    (Greeting(config.domainName) + "\n")
    + (CritiqueIntro
    + (Section("## 현재 프롬프트 지시문:\n", instruction)
    + (Section("## 예제 응답:\n", examples)
    + (Section("## 도메인 원칙 (이 원칙들이 잘 반영되었는지 확인):\n", FormatList(config.knowledge.principles))
    + (Section("## 도메인 제약조건 (위반사항이 없는지 확인):\n", FormatList(config.knowledge.constraints))
    + ("## 품질 평가 기준:\n" + FormatCriteria(config.knowledge.qualityCriteria) + "\n"))))))
  }

  function ScoreBlock(scores: Scoring.ScoreMap): string {
    "\n## 현재 평가 점수:\n" + FormatScores(scores) + "\n"
  }

  /** The five fixed numbered requests that close every default critique. */
  const CritiqueRequests: string :=
    "\n## 비평 요청:\n"
    + "위의 도메인 지식을 바탕으로 다음 관점에서 프롬프트를 비평해주세요:\n"
    + "1. 도메인 원칙 반영도: 핵심 원칙들이 충분히 반영되어 있는가?\n"
    + "2. 제약조건 준수: 위반 가능성이 있는 부분은 없는가?\n"
    + "3. 품질 기준 충족: 각 품질 기준에서 개선이 필요한 부분은?\n"
    + "4. 전문성 수준: 도메인 전문가 관점에서 부족한 점은?\n"
    + "5. 구체적 개선 제안: 어떻게 수정하면 더 나은 결과를 얻을 수 있는가?\n\n"
    + "비평 결과를 상세히 작성해주세요.\n"

  /** `_generate_default_critique`. */
  function DefaultCritique(config: DomainConfig, instruction: string, examples: string,
                           scores: Option<Scoring.ScoreMap>): string {
    CritiqueHead(config, instruction, examples)
      + (if HasScores(scores) then ScoreBlock(scores.value) else "")
      + CritiqueRequests
  }

  /** `generate_critique_prompt`: the custom template when one is set, else the default layout. */
  function GenerateCritiquePrompt(config: DomainConfig, instruction: string, examples: string,
                                  scores: Option<Scoring.ScoreMap>): Result<string> {
    if config.critiqueTemplate != "" then
      RenderTemplate(config.critiqueTemplate, CritiqueVariables(config, instruction, examples, scores))
    else Success(DefaultCritique(config, instruction, examples, scores))
  }

  /**
   * The default critique greets the domain expert, quotes the instruction,
   * and always ends with the five requests.
   */
  lemma DefaultCritiqueShape(config: DomainConfig, instruction: string, examples: string,
                             scores: Option<Scoring.ScoreMap>)
    ensures var r := DefaultCritique(config, instruction, examples, scores);
      StartsWith(r, Greeting(config.domainName) + "\n")
      && EndsWith(r, CritiqueRequests)
      && Contains(r, Section("## 현재 프롬프트 지시문:\n", instruction))
  {
    var greeting := Greeting(config.domainName) + "\n";
    var quoted := Section("## 현재 프롬프트 지시문:\n", instruction);
    var after := Section("## 예제 응답:\n", examples)
      + (Section("## 도메인 원칙 (이 원칙들이 잘 반영되었는지 확인):\n", FormatList(config.knowledge.principles))
      + (Section("## 도메인 제약조건 (위반사항이 없는지 확인):\n", FormatList(config.knowledge.constraints))
      + ("## 품질 평가 기준:\n" + FormatCriteria(config.knowledge.qualityCriteria) + "\n")));
    var head := CritiqueHead(config, instruction, examples);
    assert head == greeting + (CritiqueIntro + (quoted + after));
    var middle := if HasScores(scores) then ScoreBlock(scores.value) else "";
    PrefixOfConcat(greeting, CritiqueIntro + (quoted + after));
    PrefixExtends(head, greeting, middle);
    PrefixExtends(head + middle, greeting, CritiqueRequests);
    SuffixOfConcat(head + middle, CritiqueRequests);
    ContainsMiddle(CritiqueIntro, quoted, after);
    ContainsAfter(greeting, CritiqueIntro + (quoted + after), quoted);
    ContainsBefore(head, middle, quoted);
    ContainsBefore(head + middle, CritiqueRequests, quoted);
  }

  /**
   * The score block is the only part that depends on the scores: without
   * scores (None or empty) the critique is the one with no scores at all, and
   * with scores it is that critique with the block inserted before the requests.
   */
  lemma DefaultCritiqueScoreBlock(config: DomainConfig, instruction: string, examples: string,
                                  scores: Option<Scoring.ScoreMap>)
    ensures var without := DefaultCritique(config, instruction, examples, None);
      |without| >= |CritiqueRequests|
      && (!HasScores(scores) ==> DefaultCritique(config, instruction, examples, scores) == without)
      && (HasScores(scores) ==>
            DefaultCritique(config, instruction, examples, scores)
            == without[..|without| - |CritiqueRequests|] + ScoreBlock(scores.value) + CritiqueRequests)
  {
    var head := CritiqueHead(config, instruction, examples);
    var without := DefaultCritique(config, instruction, examples, None);
    assert head + "" == head;
    DropSuffix(head, CritiqueRequests);
  }

  /** A custom template of literal text and known-name fields renders as substitution. */
  lemma CustomCritiqueSubstitutes(config: DomainConfig, instruction: string, examples: string,
                                  scores: Option<Scoring.ScoreMap>, segs: seq<Segment>)
    requires config.critiqueTemplate == TemplateText(segs) && config.critiqueTemplate != ""
    requires WellFormed(segs)
    requires ValuesBraceFree(CritiqueVariables(config, instruction, examples, scores))
    ensures GenerateCritiquePrompt(config, instruction, examples, scores)
            == Success(Substitute(segs, CritiqueVariables(config, instruction, examples, scores)))
  {
    RenderSubstitutes(segs, CritiqueVariables(config, instruction, examples, scores));
  }

  // ---------------------------------------------------------------------
  // The refinement prompt.

  function RefinementVariables(config: DomainConfig, instruction: string, examples: string,
                               critique: string): (vars: Variables)
    ensures |vars| == 8
    ensures Assoc.Keys(vars) == ["instruction", "examples", "critique", "domain_type", "domain_name",
                                 "principles", "constraints", "thinking_styles"]
  {
    [("instruction", instruction),
     ("examples", examples),
     ("critique", critique),
     ("domain_type", config.domainType),
     ("domain_name", config.domainName),
     ("principles", FormatList(config.knowledge.principles)),
     ("constraints", FormatList(config.knowledge.constraints)),
     ("thinking_styles", FormatList(config.knowledge.thinkingStyles))]
  }

  function PersonaSentence(persona: ExpertPersona): string {
    "당신은 " + persona.role + "로서, " + persona.focus + "에 집중합니다."
  }

  /** The role sentence: the first persona's, else the generic expert sentence. */
  function RoleLine(config: DomainConfig): string {
    if config.knowledge.expertPersonas != [] then PersonaSentence(config.knowledge.expertPersonas[0])
    else Greeting(config.domainName)
  }

  const ImprovedPromptTags: string := "<IMPROVED_PROMPT></IMPROVED_PROMPT>"

  const RefinementAsk: string :=
    "## 개선 요청:\n"
    + "위의 비평과 도메인 지식을 바탕으로 프롬프트를 개선해주세요.\n\n"
    + "개선 시 다음 사항을 반드시 포함하세요:\n"
    + "1. 도메인 원칙이 명시적으로 반영되도록 수정\n"
    + "2. 제약조건 위반을 방지하는 가이드라인 추가\n"
    + "3. 전문가 사고방식을 유도하는 지시문 포함\n"
    + "4. 품질 기준을 충족하도록 구체화\n\n"
    + "개선된 프롬프트를 "

  /** The closing request for the refined prompt inside `<IMPROVED_PROMPT>` tags. */
  const RefinementRequest: string := RefinementAsk + (ImprovedPromptTags + " 태그 안에 작성해주세요.\n")

  /** The sections between the role and the closing request. */
  function RefinementBody(config: DomainConfig, instruction: string, critique: string): string {
    "\n\n"
    + (Section("## 현재 프롬프트 지시문:\n", instruction)
    + (Section("## 비평 내용:\n", critique)
    + (Section("## 도메인 핵심 원칙:\n", FormatList(config.knowledge.principles))
    + (Section("## 준수해야 할 제약조건:\n", FormatList(config.knowledge.constraints))
    + Section("## 권장 사고방식:\n", FormatList(config.knowledge.thinkingStyles))))))
  }

  /** `_generate_default_refinement`; the examples are not shown. */
  function DefaultRefinement(config: DomainConfig, instruction: string, examples: string,
                             critique: string): string {
    ("## 역할\n" + RoleLine(config)) + RefinementBody(config, instruction, critique) + RefinementRequest
  }

  /** `generate_refinement_prompt`. */
  function GenerateRefinementPrompt(config: DomainConfig, instruction: string, examples: string,
                                    critique: string): Result<string> {
    if config.refinementTemplate != "" then
      RenderTemplate(config.refinementTemplate, RefinementVariables(config, instruction, examples, critique))
    else Success(DefaultRefinement(config, instruction, examples, critique))
  }

  /**
   * The default refinement opens with the first persona's role and focus when
   * there is a persona, else with the generic domain sentence, and always
   * ends by asking for the `<IMPROVED_PROMPT>` tags.
   */
  lemma DefaultRefinementShape(config: DomainConfig, instruction: string, examples: string, critique: string)
    ensures var r := DefaultRefinement(config, instruction, examples, critique);
      EndsWith(r, RefinementRequest)
      && Contains(r, ImprovedPromptTags)
      && (config.knowledge.expertPersonas != [] ==>
            StartsWith(r, "## 역할\n" + PersonaSentence(config.knowledge.expertPersonas[0])))
      && (config.knowledge.expertPersonas == [] ==> StartsWith(r, "## 역할\n" + Greeting(config.domainName)))
  {
    var opening := "## 역할\n" + RoleLine(config);
    var body := RefinementBody(config, instruction, critique);
    PrefixOfConcat(opening, body);
    PrefixExtends(opening + body, opening, RefinementRequest);
    SuffixOfConcat(opening + body, RefinementRequest);
    ContainsMiddle(RefinementAsk, ImprovedPromptTags, " 태그 안에 작성해주세요.\n");
    ContainsAfter(opening + body, RefinementRequest, ImprovedPromptTags);
  }
}
