/**
 * The domain-enhanced critique-and-refine technique: the optimizer it builds
 * when constructed, and the steps it overrides to use that optimizer. The
 * language model, the base technique and the dataset processor are
 * parameters.
 */
module Enhanced {
  import opened Wrappers
  import opened Text
  import opened Knowledge
  import Assoc
  import Scoring
  import Template
  import Registry
  import Validators
  import Optimizer

  /** A dataset example: a dict of string fields (dict equality ignores order, as map equality does). */
  type Example = map<string, string>

  /** `example.get(key, "")`. */
  function Field(example: Example, key: string): string {
    if key in example then example[key] else ""
  }

  /** The parts of the prompt pool the technique reads. */
  datatype PromptPool = PromptPool(
    thinkingStyles: seq<string>,
    metaSampleTemplate: string,
    metaCritiqueTemplate: string,
    metaPositiveCritiqueTemplate: string,
    critiqueRefineTemplate: string,
    expertProfile: string)

  /**
   * The collaborators the technique calls but that are not part of this
   * model: the language model (`chat(prompt, system)`, and `mutate(prompt,
   * round)` for the mutation rounds), the two delimiter patterns of the
   * dataset processor, its example collation, and the dataset keys.
   */
  datatype Services = Services(
    chat: (string, string) -> string,
    mutate: (string, nat) -> string,
    delimited: string -> seq<string>,
    mutationDelimited: string -> seq<string>,
    collate: seq<Example> -> string,
    answerKey: string,
    questionKey: string)

  // ---------------------------------------------------------------------
  // Construction.

  /** What construction leaves: the domain optimizer and the domain configuration. */
  datatype Setup = Setup(optimizer: Option<Optimizer.Optimizer>, config: Option<DomainConfig>)

  /** There is a configuration exactly when there is an optimizer, and it is the optimizer's. */
  predicate Consistent(s: Setup) {
    (s.optimizer.Some? <==> s.config.Some?)
    && (s.optimizer.Some? ==> s.config.value == s.optimizer.value.config)
  }

  /**
   * `__init__`: an optimizer on the given configuration; else, for a
   * non-empty domain type, the factory's optimizer, where a `ValueError`
   * is caught and leaves neither; else neither. Any other exception
   * would propagate.
   */
  function Resolve(domainConfig: Option<DomainConfig>, domainType: Option<string>, reg: Registry.Contents): (r: Result<Setup>)
    ensures r.Success? ==> Consistent(r.value)
  {
    if domainConfig.Some? then Success(Setup(Some(Optimizer.Construct(domainConfig.value, None, reg)), domainConfig))
    else if domainType.Some? && domainType.value != [] then
      match Optimizer.CreateOptimizer(domainType.value, None, reg)
      case Success(o) => Success(Setup(Some(o), Some(o.config)))
      case Failure(e) => if e.ValueError? then Success(Setup(None, None)) else Failure(e)
    else Success(Setup(None, None))
  }

  /** The factory fails only with `ValueError`. */
  lemma FactoryFailsWithValueError(domainType: string, custom: Option<DomainConfig>, reg: Registry.Contents)
    ensures Optimizer.CreateOptimizer(domainType, custom, reg).Failure? ==>
      Optimizer.CreateOptimizer(domainType, custom, reg).error == ValueError("Unknown domain type: " + domainType)
  {
  }

  /** Construction never raises, and a given configuration always wins over the domain type. */
  lemma ResolveOutcomes(domainConfig: Option<DomainConfig>, domainType: Option<string>, reg: Registry.Contents)
    ensures Resolve(domainConfig, domainType, reg).Success?
    ensures domainConfig.Some? ==>
      Resolve(domainConfig, domainType, reg).value.optimizer == Some(Optimizer.Construct(domainConfig.value, None, reg))
    ensures domainConfig.None? && (domainType.None? || domainType.value == []) ==>
      Resolve(domainConfig, domainType, reg).value == Setup(None, None)
  {
    if domainConfig.None? && domainType.Some? && domainType.value != [] {
      FactoryFailsWithValueError(domainType.value, None, reg);
    }
  }

  /** An unknown, unregistered domain type leaves no optimizer instead of raising. */
  lemma UnknownTypeSwallowed(t: string, reg: Registry.Contents)
    requires t != [] && t !in reg.domains && Optimizer.BuiltinConfig(t).None?
    ensures Resolve(None, Some(t), reg) == Success(Setup(None, None))
  {
  }

  /** A domain type the factory knows gives the factory's optimizer and its configuration. */
  lemma KnownTypeUsesFactory(t: string, reg: Registry.Contents)
    requires t != [] && (t in reg.domains || Optimizer.BuiltinConfig(t).Some?)
    ensures var r := Resolve(None, Some(t), reg);
      r.Success? && r.value.optimizer.Some? && Optimizer.CreateOptimizer(t, None, reg) == Success(r.value.optimizer.value)
  {
  }

  // ---------------------------------------------------------------------
  // `gen_different_styles`.

  /** The domain styles in full, then `pool[:count - len(domain)]`; without domain styles, `pool[:count]`. */
  function CombinedStyles(domainStyles: seq<string>, pool: seq<string>, count: int): (r: seq<string>)
    ensures forall x | x in r :: x in domainStyles || x in pool
  {
    if domainStyles != [] then domainStyles + SliceTo(pool, count - |domainStyles|)
    else SliceTo(pool, count)
  }

  /**
   * The domain styles are a prefix, never truncated; with room left the
   * pool fills up to `count`, and with more domain styles than `count` the
   * negative bound drops that many styles from the end of the pool.
   */
  lemma CombinedStylesShape(domainStyles: seq<string>, pool: seq<string>, count: int)
    requires domainStyles != []
    ensures var r := CombinedStyles(domainStyles, pool, count);
      |r| >= |domainStyles| && r[..|domainStyles|] == domainStyles
      && (|domainStyles| <= count <= |domainStyles| + |pool| ==> |r| == count)
      && (count < |domainStyles| && |domainStyles| - count <= |pool| ==>
            r == domainStyles + pool[..|pool| - (|domainStyles| - count)])
      && (count < |domainStyles| && |domainStyles| - count > |pool| ==> r == domainStyles)
  {
    var r := CombinedStyles(domainStyles, pool, count);
    assert r[..|domainStyles|] == domainStyles;
  }

  /** Without domain styles, at most `count` pool styles, in order. */
  lemma CombinedStylesPoolOnly(pool: seq<string>, count: nat)
    ensures CombinedStyles([], pool, count) == pool[..if count < |pool| then count else |pool|]
  {
  }

  /** The prompt of one mutation round. */
  function MutationPrompt(template: string, taskDescription: string, styles: seq<string>, instruction: string): Result<string> {
    Template.Format(template, [("task_description", taskDescription), ("meta_prompts", Join("\n", styles)),
                               ("num_variations", IntToString(|styles|)), ("prompt_instruction", instruction)])
  }

  /** The prompts found in the replies of the first `n` mutation rounds, in round order. */
  function RoundOutputs(prompt: string, sv: Services, n: nat): seq<string> {
    if n == 0 then [] else RoundOutputs(prompt, sv, n - 1) + sv.mutationDelimited(sv.mutate(prompt, n - 1))
  }

  /** The candidate list: `task_description + "\n" + instruction` first, then every round's prompts. */
  function Candidates(first: string, prompt: Result<string>, sv: Services, rounds: int): Result<seq<string>> {
    if rounds <= 0 then Success([first])
    else match prompt
      case Failure(e) => Failure(e)
      case Success(p) => Success([first] + RoundOutputs(p, sv, rounds))
  }

  /** The round loop of `gen_different_styles`; each round formats the same mutation prompt, so a failure stops the first round. */
  method MutationRounds(first: string, prompt: Result<string>, sv: Services, rounds: int) returns (r: Result<seq<string>>)
    ensures r == Candidates(first, prompt, sv, rounds)
  {
    var candidates := [first];
    var round: nat := 0;
    while round < rounds
      invariant round == 0 || (round <= rounds && prompt.Success?)
      invariant round > 0 ==> candidates == [first] + RoundOutputs(prompt.value, sv, round)
      invariant round == 0 ==> candidates == [first]
    {
      if prompt.Failure? {
        return Failure(prompt.error);
      }
      var reply := sv.mutate(prompt.value, round);
      candidates := candidates + sv.mutationDelimited(reply);
      round := round + 1;
    }
    r := Success(candidates);
  }

  /** Later rounds only append. */
  lemma {:induction false} RoundOutputsExtend(prompt: string, sv: Services, n: nat, m: nat)
    requires n <= m
    ensures |RoundOutputs(prompt, sv, n)| <= |RoundOutputs(prompt, sv, m)|
    ensures RoundOutputs(prompt, sv, m)[..|RoundOutputs(prompt, sv, n)|] == RoundOutputs(prompt, sv, n)
    decreases m
  {
    if n < m {
      RoundOutputsExtend(prompt, sv, n, m - 1);
      var a := RoundOutputs(prompt, sv, n);
      var b := RoundOutputs(prompt, sv, m - 1);
      assert RoundOutputs(prompt, sv, m)[..|b|] == b;
      assert b[..|a|] == a;
    }
  }

  /** The first candidate is the task description and the instruction; it is never displaced. */
  lemma CandidatesFirst(first: string, prompt: Result<string>, sv: Services, rounds: int)
    ensures var r := Candidates(first, prompt, sv, rounds);
      (rounds <= 0 || prompt.Success? ==> r.Success?)
      && (r.Success? ==> |r.value| >= 1 && r.value[0] == first)
  {
  }

  // ---------------------------------------------------------------------
  // `critique_and_refine`.

  /** The scores handed to the critique: only the first example's answer is scored, and only when it is non-empty. */
  function CritiqueScores(o: Optimizer.Optimizer, examples: seq<Example>, answerKey: string): Option<Scoring.ScoreMap> {
    if examples != [] && Field(examples[0], answerKey) != [] then
      Some(Optimizer.ResponseScores(o, Field(examples[0], answerKey), "", ""))
    else None
  }

  /** Nothing past the first example affects the scores. */
  lemma CritiqueScoresFirstOnly(o: Optimizer.Optimizer, examples: seq<Example>, answerKey: string)
    ensures CritiqueScores(o, examples, answerKey) == CritiqueScores(o, SliceTo(examples, 1), answerKey)
    ensures CritiqueScores(o, examples, answerKey).None? <==> examples == [] || Field(examples[0], answerKey) == []
  {
  }

  const ImprovedOpen := "<IMPROVED_PROMPT>"
  const ImprovedClose := "</IMPROVED_PROMPT>"
  const FormatError := "The LLM output is not in the expected format. Please rerun the code..."

  /**
   * The group of the first match of `<IMPROVED_PROMPT>(.*?)</IMPROVED_PROMPT>`
   * with DOTALL: only the first opening tag can start a match, and the
   * lazy group ends at the first closing tag after it.
   */
  function FirstTagged(s: string): Option<string> {
    match Validators.IndexFrom(s, ImprovedOpen, 0)
    case None => None
    case Some(i) =>
      match Validators.IndexFrom(s, ImprovedClose, i + |ImprovedOpen|)
      case None => None
      case Some(k) => Some(s[i + |ImprovedOpen|..k])
  }

  /**
   * The extraction as written: with no delimited match, the tag pattern is
   * searched in `str(refined_prompts)`, the text of the empty match list.
   */
  function ExtractRefinedAsWritten(output: string, matches: seq<string>): (r: Result<string>)
    ensures matches != [] ==> r == Success(matches[0])
  {
    if matches != [] then Success(matches[0])
    else match FirstTagged("[]")
      case Some(body) => Success(Strip(body))
      case None => Failure(ValueError(FormatError))
  }

  /** The evidently intended extraction: with no delimited match, the tags are searched in the model's reply. */
  function ExtractRefined(output: string, matches: seq<string>): (r: Result<string>)
    ensures matches != [] ==> r == Success(matches[0])
    ensures r.Failure? <==> matches == [] && FirstTagged(output).None?
    ensures r.Failure? ==> r.error == ValueError(FormatError)
  {
    if matches != [] then Success(matches[0])
    else match FirstTagged(output)
      case Some(body) => Success(Strip(body))
      case None => Failure(ValueError(FormatError))
  }

  /** As written, the fallback never fires: without a delimited match the result is always `ValueError`. */
  lemma AsWrittenFallbackDead(output: string)
    ensures ExtractRefinedAsWritten(output, []) == Failure(ValueError(FormatError))
  {
    assert Validators.IndexFrom("[]", ImprovedOpen, 0) == None;
  }

  predicate NoOpenAngle(s: string) {
    forall j | 0 <= j < |s| :: s[j] != '<'
  }

  /** A tagged prompt in the reply, with no `<` before or inside it, is recovered by the intended extraction. */
  lemma TaggedRecovered(pre: string, body: string, post: string)
    requires NoOpenAngle(pre) && NoOpenAngle(body)
    ensures ExtractRefined(pre + (ImprovedOpen + (body + (ImprovedClose + post))), []) == Success(Strip(body))
  {
    var s := pre + (ImprovedOpen + (body + (ImprovedClose + post)));
    var b := |pre| + |ImprovedOpen|;
    var k := b + |body|;
    assert s[|pre|..b] == ImprovedOpen;
    assert s[b..k] == body;
    assert s[k..k + |ImprovedClose|] == ImprovedClose;
    forall j | 0 <= j < |pre| ensures s[j] != ImprovedOpen[0] {
      assert s[j] == pre[j];
    }
    Validators.FirstOccurrenceAt(s, ImprovedOpen, |pre|, 0);
    forall j | b <= j < k ensures s[j] != ImprovedClose[0] {
      assert s[j] == body[j - b];
    }
    Validators.FirstOccurrenceAt(s, ImprovedClose, k, b);
  }

  /** A reply holding only a tagged prompt: the code as written fails, the intended extraction returns the prompt. */
  lemma TaggedReplyDiscrepancy()
    ensures ExtractRefinedAsWritten(ImprovedOpen + "x" + ImprovedClose, []).Failure?
    ensures ExtractRefined(ImprovedOpen + "x" + ImprovedClose, []) == Success("x")
  {
    AsWrittenFallbackDead(ImprovedOpen + "x" + ImprovedClose);
    assert ImprovedOpen + "x" + ImprovedClose == [] + (ImprovedOpen + ("x" + (ImprovedClose + [])));
    TaggedRecovered([], "x", []);
    assert Strip("x") == "x";
  }

  // ---------------------------------------------------------------------
  // `get_domain_enhanced_final_prompt`.

  const FinalConstraintsHeading: string := "\n\n## 중요 준수사항:\n"
  const FinalQualityHeading: string := "\n\n## 응답 품질 기준:\n"

  function QualityLine(qc: QualityCriterion): string {
    "- " + qc.name + ": " + qc.description
  }

  /** The `- name: description` lines, each ended by a newline. */
  function QualityLines(criteria: seq<QualityCriterion>): string {
    if criteria == [] then "" else QualityLines(criteria[..|criteria| - 1]) + QualityLine(criteria[|criteria| - 1]) + "\n"
  }

  function CriterionBullets(criteria: seq<QualityCriterion>): (r: seq<string>)
    ensures |r| == |criteria|
    ensures forall i | 0 <= i < |criteria| :: r[i] == QualityLine(criteria[i])
  {
    if criteria == [] then [] else CriterionBullets(criteria[..|criteria| - 1]) + [QualityLine(criteria[|criteria| - 1])]
  }

  function ConstraintsSection(constraints: seq<string>): string {
    if constraints == [] then "" else FinalConstraintsHeading + Optimizer.TopBullets(constraints)
  }

  function QualitySection(criteria: seq<QualityCriterion>): string {
    if criteria == [] then "" else FinalQualityHeading + QualityLines(SliceTo(criteria, 3))
  }

  /** The final prompt for a set-up technique: unchanged without an optimizer, else with the two reminder sections. */
  function FinalPrompt(s: Setup, basePrompt: string): string
    requires Consistent(s)
  {
    if s.optimizer.None? then basePrompt
    else
      var k := s.config.value.knowledge;
      basePrompt + ConstraintsSection(k.constraints) + QualitySection(k.qualityCriteria)
  }

  /** The base prompt always leads; without an optimizer, or with neither list, it is all there is. */
  lemma FinalPromptShape(s: Setup, basePrompt: string)
    requires Consistent(s)
    ensures StartsWith(FinalPrompt(s, basePrompt), basePrompt)
    ensures s.optimizer.None? ==> FinalPrompt(s, basePrompt) == basePrompt
    ensures s.optimizer.Some? && s.config.value.knowledge.constraints == [] && s.config.value.knowledge.qualityCriteria == [] ==>
      FinalPrompt(s, basePrompt) == basePrompt
  {
    var r := FinalPrompt(s, basePrompt);
    assert r[..|basePrompt|] == basePrompt;
  }

  /** Each line followed by a newline. */
  function Terminated(lines: seq<string>): string {
    if lines == [] then "" else Terminated(lines[..|lines| - 1]) + lines[|lines| - 1] + "\n"
  }

  /** Lines ended by newlines are the bullets joined by newlines, plus one final newline. */
  lemma QualityLinesJoin(criteria: seq<QualityCriterion>)
    requires criteria != []
    ensures QualityLines(criteria) == Join("\n", CriterionBullets(criteria)) + "\n"
  {
    QualityLinesTerminated(criteria);
    TerminatedJoin(CriterionBullets(criteria));
  }

  lemma {:induction false} QualityLinesTerminated(criteria: seq<QualityCriterion>)
    ensures QualityLines(criteria) == Terminated(CriterionBullets(criteria))
    decreases |criteria|
  {
    if criteria != [] {
      var init := criteria[..|criteria| - 1];
      QualityLinesTerminated(init);
      var bullets := CriterionBullets(criteria);
      assert bullets[..|bullets| - 1] == CriterionBullets(init);
    }
  }

  lemma {:induction false} TerminatedJoin(lines: seq<string>)
    requires lines != []
    ensures Terminated(lines) == Join("\n", lines) + "\n"
    decreases |lines|
  {
    var init := lines[..|lines| - 1];
    var last := lines[|lines| - 1];
    if init == [] {
      assert Join("\n", lines) == last;
    } else {
      TerminatedJoin(init);
      assert lines == init + [last];
      JoinSnoc(init, last);
      var j := Join("\n", init);
      assert (j + "\n") + last + "\n" == (j + "\n" + last) + "\n";
    }
  }

  lemma {:induction false} JoinSnoc(xs: seq<string>, x: string)
    requires xs != []
    ensures Join("\n", xs + [x]) == Join("\n", xs) + "\n" + x
    decreases |xs|
  {
    if |xs| > 1 {
      assert (xs + [x])[1..] == xs[1..] + [x];
      JoinSnoc(xs[1..], x);
    } else {
      assert (xs + [x])[1..] == [x];
    }
  }

  /**
   * With single-line names and descriptions, the quality section is its
   * heading and one `- name: description` line for each of at most the
   * first three criteria.
   */
  lemma QualitySectionLines(criteria: seq<QualityCriterion>)
    requires criteria != []
    requires forall i | 0 <= i < |criteria| :: '\n' !in criteria[i].name && '\n' !in criteria[i].description
    ensures var lines := CriterionBullets(SliceTo(criteria, 3));
      QualitySection(criteria) == FinalQualityHeading + Join("\n", lines) + "\n"
      && SplitOn(Join("\n", lines), '\n') == lines
      && |lines| == (if |criteria| < 3 then |criteria| else 3)
      && forall i | 0 <= i < |lines| :: lines[i] == QualityLine(criteria[i])
  {
    var top := SliceTo(criteria, 3);
    var lines := CriterionBullets(top);
    QualityLinesJoin(top);
    forall i | 0 <= i < |lines| ensures '\n' !in lines[i] {
      assert top[i] == criteria[i];
      assert lines[i] == "- " + top[i].name + ": " + top[i].description;
    }
    SplitJoin(lines, '\n');
  }

  /** With single-line constraints, the constraints section is its heading and one `- c` line for each of at most the first three. */
  lemma ConstraintsSectionLines(constraints: seq<string>)
    requires constraints != []
    requires forall i | 0 <= i < |constraints| :: '\n' !in constraints[i]
    ensures ConstraintsSection(constraints) == FinalConstraintsHeading + Optimizer.TopBullets(constraints)
    ensures SplitOn(Optimizer.TopBullets(constraints), '\n') == Optimizer.Bullets(SliceTo(constraints, 3))
    ensures |Optimizer.Bullets(SliceTo(constraints, 3))| == (if |constraints| < 3 then |constraints| else 3)
  {
    Optimizer.TopBulletLines(constraints);
  }

  // ---------------------------------------------------------------------
  // `evaluate`: flagging constraint violations.

  /** `scores.get('constraint_compliance', 1.0)`. */
  function Compliance(scores: Scoring.ScoreMap): real {
    Assoc.Lookup(scores, "constraint_compliance").GetOr(1.0)
  }

  /** The domain evaluation of the generated text, for an example's question, flags a violation. */
  predicate Violates(o: Optimizer.Optimizer, text: string, questionKey: string, example: Example) {
    Compliance(Optimizer.ResponseScores(o, text, "", Field(example, questionKey))) < 0.5
  }

  /** The wrong-example list after scanning `subset`: an example not yet listed is appended when it violates. */
  function Flagged(o: Optimizer.Optimizer, text: string, questionKey: string, subset: seq<Example>, wrong: seq<Example>): seq<Example> {
    if subset == [] then wrong
    else
      var prev := Flagged(o, text, questionKey, subset[..|subset| - 1], wrong);
      var example := subset[|subset| - 1];
      if example !in prev && Violates(o, text, questionKey, example) then prev + [example] else prev
  }

  /** What `evaluate` returns, given the base evaluation's wrong examples. */
  function EvaluateResult(s: Setup, text: string, questionKey: string, subset: seq<Example>, baseWrong: seq<Example>): seq<Example> {
    if s.optimizer.Some? && subset != [] then Flagged(s.optimizer.value, text, questionKey, subset, baseWrong)
    else baseWrong
  }

  /**
   * Flagging only appends: the base list stays a prefix, and every added
   * example comes from the subset, violates, was not listed before, and is
   * added once.
   */
  lemma {:induction false} FlaggedAppends(o: Optimizer.Optimizer, text: string, questionKey: string, subset: seq<Example>, wrong: seq<Example>)
    ensures var r := Flagged(o, text, questionKey, subset, wrong);
      |wrong| <= |r| && r[..|wrong|] == wrong
      && (forall i | |wrong| <= i < |r| :: r[i] in subset && Violates(o, text, questionKey, r[i]) && r[i] !in wrong)
      && (forall i, j | |wrong| <= i < j < |r| :: r[i] != r[j])
    decreases |subset|
  {
    if subset != [] {
      var init := subset[..|subset| - 1];
      FlaggedAppends(o, text, questionKey, init, wrong);
      var prev := Flagged(o, text, questionKey, init, wrong);
      var r := Flagged(o, text, questionKey, subset, wrong);
      forall i | |wrong| <= i < |prev| ensures prev[i] in subset {
        assert prev[i] in init;
      }
      if r != prev {
        assert r == prev + [subset[|subset| - 1]];
        assert r[..|prev|] == prev;
        assert r[..|wrong|] == prev[..|wrong|];
        assert subset[|subset| - 1] !in prev;
        forall i | |wrong| <= i < |prev| ensures r[i] == prev[i] { }
        assert subset[|subset| - 1] !in wrong;
      }
    }
  }

  /** Every violating example of the subset ends up listed, whether it was wrong before or not. */
  lemma {:induction false} FlaggedComplete(o: Optimizer.Optimizer, text: string, questionKey: string, subset: seq<Example>, wrong: seq<Example>)
    ensures var r := Flagged(o, text, questionKey, subset, wrong);
      (forall x | x in wrong :: x in r) && (forall x | x in subset && Violates(o, text, questionKey, x) :: x in r)
    decreases |subset|
  {
    if subset != [] {
      var init := subset[..|subset| - 1];
      FlaggedComplete(o, text, questionKey, init, wrong);
      forall x | x in subset && Violates(o, text, questionKey, x)
        ensures x in Flagged(o, text, questionKey, subset, wrong)
      {
        if x != subset[|subset| - 1] {
          var j :| 0 <= j < |subset| && subset[j] == x;
          assert init[j] == x;
        }
      }
    }
  }

  // ---------------------------------------------------------------------
  // The technique object; its fields are set once, by the constructor.

  class DomainEnhancedCritiqueNRefine {
    const pool: PromptPool
    const domainOptimizer: Option<Optimizer.Optimizer>
    const domainConfig: Option<DomainConfig>

    function State(): Setup {
      Setup(domainOptimizer, domainConfig)
    }

    constructor (pool: PromptPool, domainConfig: Option<DomainConfig>, domainType: Option<string>,
                 registry: Registry.DomainRegistry)
      ensures Resolve(domainConfig, domainType, registry.State()) == Success(State())
      ensures Consistent(State()) && this.pool == pool
    {
      var o: Option<Optimizer.Optimizer> := None;
      var c := domainConfig;
      if domainConfig.Some? {
        var built := Optimizer.NewOptimizer(domainConfig.value, None, registry);
        o := Some(built);
      } else if domainType.Some? && domainType.value != [] {
        FactoryFailsWithValueError(domainType.value, None, registry.State());
        var created := Optimizer.CreateDomainOptimizer(domainType.value, None, registry);
        if created.Success? {
          o := Some(created.value);
          c := Some(created.value.config);
        }
      }
      this.pool := pool;
      this.domainOptimizer := o;
      this.domainConfig := c;
    }

    /** The instruction the candidates start from: enhanced when there is an optimizer. */
    function Instruction(baseInstruction: string): string {
      if domainOptimizer.Some? then Optimizer.EnhancedInstruction(domainOptimizer.value.config, baseInstruction)
      else baseInstruction
    }

    function Styles(count: int): seq<string> {
      var domainStyles := if domainOptimizer.Some? then Optimizer.ThinkingStyles(domainOptimizer.value) else [];
      CombinedStyles(domainStyles, pool.thinkingStyles, count)
    }

    /** `gen_different_styles`: the first candidate, then the prompts found in each round's reply. */
    method GenDifferentStyles(baseInstruction: string, taskDescription: string, mutationRounds: int,
                              thinkingStylesCount: int, sv: Services)
      returns (r: Result<seq<string>>)
      ensures r == Candidates(taskDescription + "\n" + Instruction(baseInstruction),
                              MutationPrompt(pool.metaSampleTemplate, taskDescription, Styles(thinkingStylesCount),
                                             Instruction(baseInstruction)),
                              sv, mutationRounds)
    {
      var enhanced := baseInstruction;
      if domainOptimizer.Some? {
        enhanced := Optimizer.EnhancedInstruction(domainOptimizer.value.config, baseInstruction);
      }
      var domainStyles: seq<string> := [];
      if domainOptimizer.Some? {
        domainStyles := Optimizer.ThinkingStyles(domainOptimizer.value);
      }
      var combined: seq<string>;
      if domainStyles != [] {
        combined := domainStyles + SliceTo(pool.thinkingStyles, thinkingStylesCount - |domainStyles|);
      } else {
        combined := SliceTo(pool.thinkingStyles, thinkingStylesCount);
      }
      assert enhanced == Instruction(baseInstruction);
      assert combined == Styles(thinkingStylesCount);
      r := MutationRounds(taskDescription + "\n" + enhanced,
                          MutationPrompt(pool.metaSampleTemplate, taskDescription, combined, enhanced), sv, mutationRounds);
    }

    /** The critique prompt: the domain critique with the first example's scores, else the pool's template. */
    function CritiquePrompt(prompt: string, exampleString: string, examples: seq<Example>, furtherEnhance: bool,
                            answerKey: string): Result<string> {
      if domainOptimizer.Some? then
        Optimizer.DomainCritique(domainOptimizer.value, prompt, exampleString,
                                 CritiqueScores(domainOptimizer.value, examples, answerKey))
      else
        var template := if furtherEnhance then pool.metaPositiveCritiqueTemplate else pool.metaCritiqueTemplate;
        Template.Format(template, [("instruction", prompt), ("examples", exampleString)])
    }

    /** The system prompt of both model calls. */
    function ExpertProfile(): string {
      if domainOptimizer.Some? then Optimizer.DomainExpertPrompt(domainOptimizer.value.config) else pool.expertProfile
    }

    function RefinePrompt(prompt: string, exampleString: string, critique: string): Result<string> {
      if domainOptimizer.Some? then Optimizer.DomainRefinement(domainOptimizer.value, prompt, exampleString, critique)
      else Template.Format(pool.critiqueRefineTemplate,
                           [("instruction", prompt), ("examples", exampleString), ("critique", critique),
                            ("steps_per_sample", "1")])
    }

    /** The model's reply to the refinement request, after the critique round; a template error propagates. */
    function RefineReply(prompt: string, examples: seq<Example>, furtherEnhance: bool, sv: Services): Result<string> {
      var exampleString := sv.collate(examples);
      match CritiquePrompt(prompt, exampleString, examples, furtherEnhance, sv.answerKey)
      case Failure(e) => Failure(e)
      case Success(critiquePrompt) =>
        var critique := sv.chat(critiquePrompt, ExpertProfile());
        match RefinePrompt(prompt, exampleString, critique)
        case Failure(e) => Failure(e)
        case Success(refinePrompt) => Success(sv.chat(refinePrompt, ExpertProfile()))
    }

    /**
     * `critique_and_refine`: critique, refine, then extract the refined prompt
     * from the reply. The extraction is the corrected one; it agrees with the
     * code as written whenever the delimiters match.
     */
    function CritiqueAndRefine(prompt: string, examples: seq<Example>, furtherEnhance: bool, sv: Services): (r: Result<string>)
      ensures RefineReply(prompt, examples, furtherEnhance, sv).Failure? ==>
        r == Failure(RefineReply(prompt, examples, furtherEnhance, sv).error)
      ensures RefineReply(prompt, examples, furtherEnhance, sv).Success? ==>
        var reply := RefineReply(prompt, examples, furtherEnhance, sv).value;
        (sv.delimited(reply) != [] ==> r == Success(sv.delimited(reply)[0])
                                       && r == ExtractRefinedAsWritten(reply, sv.delimited(reply)))
        && (r.Failure? <==> sv.delimited(reply) == [] && FirstTagged(reply).None?)
      ensures r.Failure? && RefineReply(prompt, examples, furtherEnhance, sv).Success? ==> r.error == ValueError(FormatError)
    {
      match RefineReply(prompt, examples, furtherEnhance, sv)
      case Failure(e) => Failure(e)
      case Success(reply) => ExtractRefined(reply, sv.delimited(reply))
    }

    /** `evaluate`: the base wrong examples with the domain's constraint violations appended. */
    method Evaluate(generatedText: string, subset: seq<Example>, baseWrong: seq<Example>, questionKey: string)
      returns (wrong: seq<Example>)
      ensures wrong == EvaluateResult(State(), generatedText, questionKey, subset, baseWrong)
    {
      wrong := baseWrong;
      if domainOptimizer.Some? && subset != [] {
        var o := domainOptimizer.value;
        var i := 0;
        while i < |subset|
          invariant 0 <= i <= |subset|
          invariant wrong == Flagged(o, generatedText, questionKey, subset[..i], baseWrong)
        {
          assert subset[..i + 1][..i] == subset[..i];
          var example := subset[i];
          if example !in wrong {
            var question := Field(example, questionKey);
            var scores := Optimizer.EvaluateResponse(o, generatedText, "", question);
            if Compliance(scores) < 0.5 {
              if example !in wrong {
                wrong := wrong + [example];
              }
            }
          }
          i := i + 1;
        }
        assert subset[..i] == subset;
      }
    }

    /** `generate_expert_identity`: the domain expert prompt, else the base technique's identity. */
    function ExpertIdentity(baseIdentity: string): string {
      if domainOptimizer.Some? then Optimizer.DomainExpertPrompt(domainOptimizer.value.config) else baseIdentity
    }

    /** `get_domain_enhanced_final_prompt`. */
    method DomainEnhancedFinalPrompt(basePrompt: string) returns (r: string)
      requires Consistent(State())
      ensures r == FinalPrompt(State(), basePrompt)
    {
      if domainOptimizer.None? {
        return basePrompt;
      }
      var knowledge := domainConfig.value.knowledge;
      var parts := basePrompt;
      if knowledge.constraints != [] {
        var section := FinalConstraintsHeading;
        section := section + Join("\n", Optimizer.Bullets(SliceTo(knowledge.constraints, 3)));
        parts := parts + section;
      }
      if knowledge.qualityCriteria != [] {
        var section := BuildQualitySection(knowledge.qualityCriteria);
        parts := parts + section;
      }
      r := parts;
    }
  }

  /** The quality reminder of `get_domain_enhanced_final_prompt`, one line per criterion of the first three. */
  method BuildQualitySection(criteria: seq<QualityCriterion>) returns (section: string)
    requires criteria != []
    ensures section == QualitySection(criteria)
  {
    var top := SliceTo(criteria, 3);
    section := FinalQualityHeading;
    var i := 0;
    while i < |top|
      invariant 0 <= i <= |top|
      invariant section == FinalQualityHeading + QualityLines(top[..i])
    {
      QualityLinesStep(top, i);
      section := section + ("- " + top[i].name + ": " + top[i].description + "\n");
      i := i + 1;
    }
    assert top[..i] == top;
  }

  lemma QualityLinesStep(criteria: seq<QualityCriterion>, i: nat)
    requires i < |criteria|
    ensures QualityLines(criteria[..i + 1]) == QualityLines(criteria[..i]) + QualityLine(criteria[i]) + "\n"
  {
    assert criteria[..i + 1][..i] == criteria[..i];
  }

  /** Without an optimizer every override takes the base path. */
  lemma NoOptimizerBasePaths(t: DomainEnhancedCritiqueNRefine, text: string, subset: seq<Example>, baseWrong: seq<Example>,
                             key: string, base: string, count: int)
    requires t.domainOptimizer.None?
    ensures t.Instruction(base) == base && t.ExpertIdentity(base) == base && t.ExpertProfile() == t.pool.expertProfile
    ensures t.Styles(count) == SliceTo(t.pool.thinkingStyles, count)
    ensures EvaluateResult(t.State(), text, key, subset, baseWrong) == baseWrong
  {
  }
}
