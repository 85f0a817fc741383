/**
 * `DomainAwarePromptOptimizer` and `create_domain_optimizer`: instruction
 * enhancement, the persona prompt, the fallback evaluator, validation
 * against the case library through a response callback, and the
 * factory's domain resolution.
 */
module Optimizer {
  import opened Wrappers
  import opened Text
  import opened Knowledge
  import opened Document
  import Scoring
  import Evaluation
  import Medical
  import Registry
  import Critique
  import Serialization
  import Fixtures
  import Assoc

  /** The optimizer: its configuration and the evaluator chosen when it was built. */
  datatype Optimizer = Optimizer(config: DomainConfig, evaluator: Option<Evaluation.Evaluator>)

  // ---------------------------------------------------------------------
  // Construction.

  /** The explicit evaluator, else the registered class instantiated on the configuration, else none. */
  function ChooseEvaluator(config: DomainConfig, explicit: Option<Evaluation.Evaluator>,
                           registered: Option<Registry.EvaluatorClass>): Option<Evaluation.Evaluator> {
    if explicit.Some? then explicit
    else if registered.Some? then Some(Evaluation.Evaluator(registered.value, config))
    else None
  }

  /** The optimizer `__init__` builds against a registry state. */
  function Construct(config: DomainConfig, explicit: Option<Evaluation.Evaluator>, reg: Registry.Contents): Optimizer {
    Optimizer(config, ChooseEvaluator(config, explicit, Registry.EvaluatorOf(reg, config.domainType)))
  }

  /** `__init__`: the registry is consulted only when no evaluator is passed. */
  method NewOptimizer(config: DomainConfig, explicit: Option<Evaluation.Evaluator>, registry: Registry.DomainRegistry)
    returns (o: Optimizer)
    ensures o == Construct(config, explicit, registry.State())
  {
    var evaluator := explicit;
    if explicit.None? {
      var evaluatorClass := registry.GetEvaluator(config.domainType);
      if evaluatorClass.Some? {
        evaluator := Some(Evaluation.Evaluator(evaluatorClass.value, config));
      }
    }
    o := Optimizer(config, evaluator);
  }

  /**
   * An explicit evaluator always wins; without one, the class registered for
   * the configuration's type is instantiated on that configuration, and
   * with none registered there is no evaluator.
   */
  lemma ConstructEvaluator(config: DomainConfig, explicit: Option<Evaluation.Evaluator>, reg: Registry.Contents,
                           cls: Registry.EvaluatorClass)
    ensures explicit.Some? ==> Construct(config, explicit, reg).evaluator == explicit
    ensures explicit.None? ==>
      Construct(config, explicit, Registry.Register(reg, config, Some(cls))).evaluator
        == Some(Evaluation.Evaluator(cls, config))
    ensures explicit.None? && config.domainType !in reg.evaluators ==> Construct(config, explicit, reg).evaluator == None
    ensures Construct(config, explicit, reg).config == config
  {
    Registry.RegisterThenGet(reg, config, Some(cls), config.domainType);
  }

  // ---------------------------------------------------------------------
  // `enhance_base_instruction`.

  /** `f"- {x}"` for each item. */
  function Bullets(items: seq<string>): (r: seq<string>)
    ensures |r| == |items|
    ensures forall i | 0 <= i < |items| :: r[i] == "- " + items[i]
  {
    if items == [] then [] else ["- " + items[0]] + Bullets(items[1..])
  }

  /** The bullet lines of at most the first three items. */
  function TopBullets(items: seq<string>): string {
    Join("\n", Bullets(SliceTo(items, 3)))
  }

  /** A heading followed by the bullet lines of at most the first three items. */
  function HeadedList(heading: string, items: seq<string>): string {
    heading + TopBullets(items)
  }

  /** A headed part of the domain context, with the newline `"\n".join` puts before it; absent for no items. */
  function ContextPart(heading: string, items: seq<string>): string {
    if items == [] then "" else "\n" + HeadedList(heading, items)
  }

  const PrinciplesHeading: string := "\n핵심 원칙:\n"

  const ConstraintsHeading: string := "\n준수사항:\n"

  /** The enhanced instruction: the domain context, a blank line, then the base instruction. */
  function EnhancedInstruction(config: DomainConfig, base: string): string {
    Critique.Greeting(config.domainName)
      + (ContextPart(PrinciplesHeading, config.knowledge.principles)
      + (ContextPart(ConstraintsHeading, config.knowledge.constraints)
      + ("\n\n" + base)))
  }

  lemma JoinCons(sep: string, a: string, rest: seq<string>)
    ensures Join(sep, [a] + rest) == a + (if rest == [] then "" else sep + Join(sep, rest))
  {
    assert ([a] + rest)[1..] == rest;
  }

  /** Joining the first part with up to two optional parts puts a newline before each optional part present. */
  lemma JoinParts(g: string, a: string, b: string, hasA: bool, hasB: bool)
    ensures Join("\n", [g] + ((if hasA then [a] else []) + (if hasB then [b] else [])))
      == g + ((if hasA then "\n" + a else "") + (if hasB then "\n" + b else ""))
  {
    var later := (if hasA then [a] else []) + (if hasB then [b] else []);
    JoinCons("\n", g, later);
    if hasA && hasB {
      assert later == [a] + [b];
      JoinCons("\n", a, [b]);
    }
  }

  /** The joined context followed by a blank line and the base, regrouped part by part. */
  lemma ContextThenBase(g: string, a: string, b: string, hasA: bool, hasB: bool, base: string)
    ensures Join("\n", [g] + ((if hasA then [a] else []) + (if hasB then [b] else []))) + "\n\n" + base
      == g + ((if hasA then "\n" + a else "") + ((if hasB then "\n" + b else "") + ("\n\n" + base)))
  {
    JoinParts(g, a, b, hasA, hasB);
    Regroup(g, if hasA then "\n" + a else "", if hasB then "\n" + b else "", "\n\n", base);
  }

  lemma Regroup(g: string, p: string, q: string, x: string, y: string)
    ensures g + (p + q) + x + y == g + (p + (q + (x + y)))
  {
  }

  /** `enhance_base_instruction`: the context parts are collected in a list and joined by newlines. */
  method EnhanceBaseInstruction(config: DomainConfig, base: string) returns (enhanced: string)
    ensures enhanced == EnhancedInstruction(config, base)
  {
    var knowledge := config.knowledge;
    var greeting := Critique.Greeting(config.domainName);
    var principlesPart: seq<string> := [];
    if knowledge.principles != [] {
      principlesPart := [HeadedList(PrinciplesHeading, knowledge.principles)];
    }
    var constraintsPart: seq<string> := [];
    if knowledge.constraints != [] {
      constraintsPart := [HeadedList(ConstraintsHeading, knowledge.constraints)];
    }
    var parts := [greeting] + (principlesPart + constraintsPart);
    ContextThenBase(greeting, HeadedList(PrinciplesHeading, knowledge.principles),
                    HeadedList(ConstraintsHeading, knowledge.constraints), knowledge.principles != [], knowledge.constraints != [], base);
    var context := Join("\n", parts);
    enhanced := context + "\n\n" + base;
  }

  /**
   * The enhanced instruction opens with the domain sentence and ends with
   * the base instruction after a blank line; with no principles and no
   * constraints it is exactly those two.
   */
  lemma EnhancedShape(config: DomainConfig, base: string)
    ensures var r := EnhancedInstruction(config, base);
      StartsWith(r, Critique.Greeting(config.domainName))
      && EndsWith(r, "\n\n" + base)
      && (config.knowledge.principles == [] && config.knowledge.constraints == [] ==>
            r == Critique.Greeting(config.domainName) + "\n\n" + base)
  {
    var g := Critique.Greeting(config.domainName);
    var p := ContextPart(PrinciplesHeading, config.knowledge.principles);
    var c := ContextPart(ConstraintsHeading, config.knowledge.constraints);
    Critique.PrefixOfConcat(g, p + (c + ("\n\n" + base)));
    Critique.SuffixOfConcat(g + (p + c), "\n\n" + base);
    assert g + (p + (c + ("\n\n" + base))) == g + (p + c) + ("\n\n" + base);
  }

  lemma ContainsTail(a: string, b: string)
    ensures Contains(a + b, b)
  {
    Critique.ContainsMiddle(a, b, "");
    assert b + "" == b;
  }

  /** Each non-empty list shows up as its heading followed by its first bullet lines. */
  lemma EnhancedListsParts(config: DomainConfig, base: string)
    ensures var r := EnhancedInstruction(config, base);
      (config.knowledge.principles != [] ==> Contains(r, HeadedList(PrinciplesHeading, config.knowledge.principles)))
      && (config.knowledge.constraints != [] ==> Contains(r, HeadedList(ConstraintsHeading, config.knowledge.constraints)))
  {
    var g := Critique.Greeting(config.domainName);
    var p := ContextPart(PrinciplesHeading, config.knowledge.principles);
    var c := ContextPart(ConstraintsHeading, config.knowledge.constraints);
    var tail := "\n\n" + base;
    if config.knowledge.principles != [] {
      var x := HeadedList(PrinciplesHeading, config.knowledge.principles);
      ContainsTail("\n", x);
      Critique.ContainsBefore(p, c + tail, x);
      Critique.ContainsAfter(g, p + (c + tail), x);
    }
    if config.knowledge.constraints != [] {
      var y := HeadedList(ConstraintsHeading, config.knowledge.constraints);
      ContainsTail("\n", y);
      Critique.ContainsBefore(c, tail, y);
      Critique.ContainsAfter(p, c + tail, y);
      Critique.ContainsAfter(g, p + (c + tail), y);
    }
  }

  /** Single-line items give one `- item` line each, for at most the first three items. */
  lemma TopBulletLines(items: seq<string>)
    requires items != []
    requires forall i | 0 <= i < |items| :: '\n' !in items[i]
    ensures SplitOn(TopBullets(items), '\n') == Bullets(SliceTo(items, 3))
    ensures |Bullets(SliceTo(items, 3))| == (if |items| < 3 then |items| else 3)
    ensures forall i | 0 <= i < |SliceTo(items, 3)| :: Bullets(SliceTo(items, 3))[i] == "- " + items[i]
  {
    var top := SliceTo(items, 3);
    var lines := Bullets(top);
    forall i | 0 <= i < |lines|
      ensures '\n' !in lines[i]
    {
      assert top[i] == items[i];
      assert lines[i] == "- " + items[i];
    }
    SplitJoin(lines, '\n');
  }

  // ---------------------------------------------------------------------
  // `get_domain_expert_prompt`.

  function RoleSentence(role: string): string {
    "당신은 " + role + "입니다."
  }

  /** The four lines describing a persona. */
  function PersonaPrompt(p: ExpertPersona): string {
    RoleSentence(p.role) + (("\n전문 분야: " + p.focus) + (("\n배경: " + p.background) + ("\n접근 방식: " + p.thinkingApproach)))
  }

  function DomainExpertPrompt(config: DomainConfig): string {
    if config.knowledge.expertPersonas == [] then Critique.Greeting(config.domainName)
    else PersonaPrompt(config.knowledge.expertPersonas[0])
  }

  /**
   * Without personas the prompt is the generic domain sentence; otherwise it
   * introduces the first persona's role and carries its focus, background
   * and approach, the approach last.
   */
  lemma ExpertPromptShape(config: DomainConfig)
    ensures var r := DomainExpertPrompt(config);
      (config.knowledge.expertPersonas == [] ==> r == Critique.Greeting(config.domainName))
      && (config.knowledge.expertPersonas != [] ==>
            var p := config.knowledge.expertPersonas[0];
            StartsWith(r, RoleSentence(p.role))
            && Contains(r, "\n전문 분야: " + p.focus)
            && Contains(r, "\n배경: " + p.background)
            && EndsWith(r, "\n접근 방식: " + p.thinkingApproach))
  {
    if config.knowledge.expertPersonas != [] {
      var p := config.knowledge.expertPersonas[0];
      PartsShape(RoleSentence(p.role), "\n전문 분야: " + p.focus, "\n배경: " + p.background, "\n접근 방식: " + p.thinkingApproach);
    }
  }

  /** Four parts joined in order: the first leads, the middle two occur, the last ends. */
  lemma PartsShape(s: string, f: string, b: string, a: string)
    ensures var r := s + (f + (b + a));
      StartsWith(r, s) && Contains(r, f) && Contains(r, b) && EndsWith(r, a)
  {
    Critique.PrefixOfConcat(s, f + (b + a));
    Critique.ContainsMiddle(s, f, b + a);
    Critique.ContainsMiddle(f, b, a);
    Critique.ContainsAfter(s, f + (b + a), b);
    Critique.SuffixOfConcat(s + (f + b), a);
    assert s + (f + (b + a)) == s + (f + b) + a;
  }

  // ---------------------------------------------------------------------
  // `_check_basic_constraints` and `_extract_terms`.

  /** The words longer than two characters, in order. */
  function LongWords(ws: seq<string>): (r: seq<string>)
    ensures forall w :: w in r <==> w in ws && |w| > 2
  {
    if ws == [] then []
    else (if |ws[0]| > 2 then [ws[0]] else []) + LongWords(ws[1..])
  }

  /** `_extract_terms`: the whitespace-separated words of more than two characters. */
  function ExtractTerms(text: string): (terms: seq<string>)
    ensures forall w :: w in terms <==> w in Words(text) && |w| > 2
  {
    LongWords(Words(text))
  }

  /** A constraint that says "금지" is violated when one of its terms, lowercased, occurs in the lowercased response. */
  predicate BasicViolated(responseLower: string, constraint: string) {
    Contains(constraint, "금지")
    && exists t | t in ExtractTerms(constraint) :: Contains(responseLower, Lower(t))
  }

  /** How many constraints are violated; each counts once. */
  function CountBasicViolated(responseLower: string, constraints: seq<string>): (n: nat)
    ensures n <= |constraints|
    decreases |constraints|
  {
    if constraints == [] then 0
    else
      CountBasicViolated(responseLower, constraints[..|constraints| - 1])
      + (if BasicViolated(responseLower, constraints[|constraints| - 1]) then 1 else 0)
  }

  /** `max(0, 1 - violations / len(constraints))`, and 1.0 with no constraints. */
  function BasicConstraintScore(response: string, constraints: seq<string>): (r: real)
    ensures 0.0 <= r <= 1.0
    ensures constraints == [] ==> r == 1.0
    ensures r == 1.0 <==> CountBasicViolated(Lower(response), constraints) == 0
    ensures constraints != [] ==> (r == 0.0 <==> CountBasicViolated(Lower(response), constraints) == |constraints|)
  {
    if constraints == [] then 1.0
    else
      var v := CountBasicViolated(Lower(response), constraints);
      Medical.FractionAtMostOne(v, |constraints|);
      Medical.FractionExtremes(v, |constraints|);
      Max(0.0, 1.0 - (v as real) / (|constraints| as real))
  }

  /** The term scan of `_check_basic_constraints`, which stops at the first term found. */
  method AnyTermOccurs(responseLower: string, terms: seq<string>) returns (found: bool)
    ensures found <==> exists t | t in terms :: Contains(responseLower, Lower(t))
  {
    found := false;
    var j := 0;
    while j < |terms|
      invariant 0 <= j <= |terms|
      invariant forall k | 0 <= k < j :: !Contains(responseLower, Lower(terms[k]))
    {
      if Contains(responseLower, Lower(terms[j])) {
        found := true;
        break;
      }
      j := j + 1;
    }
    if found {
      assert terms[j] in terms;
    } else {
      forall t | t in terms
        ensures !Contains(responseLower, Lower(t))
      {
        var k :| 0 <= k < |terms| && terms[k] == t;
      }
    }
  }

  /** One constraint of `_check_basic_constraints`: only a prohibition has its terms scanned. */
  method ProhibitionViolated(responseLower: string, constraint: string) returns (violated: bool)
    ensures violated == BasicViolated(responseLower, constraint)
  {
    violated := false;
    if Contains(constraint, "금지") {
      violated := AnyTermOccurs(responseLower, ExtractTerms(constraint));
    }
  }

  lemma CountBasicViolatedStep(responseLower: string, constraints: seq<string>, i: nat)
    requires i < |constraints|
    ensures CountBasicViolated(responseLower, constraints[..i + 1])
      == CountBasicViolated(responseLower, constraints[..i]) + (if BasicViolated(responseLower, constraints[i]) then 1 else 0)
  {
    assert constraints[..i + 1][..i] == constraints[..i];
  }

  /** `_check_basic_constraints`: for each prohibition, the first occurring term counts and ends the term scan. */
  method CheckBasicConstraints(response: string, constraints: seq<string>) returns (r: real)
    ensures r == BasicConstraintScore(response, constraints)
  {
    if constraints == [] {
      return 1.0;
    }
    var responseLower := Lower(response);
    var violations := 0;
    var i := 0;
    while i < |constraints|
      invariant 0 <= i <= |constraints|
      invariant violations == CountBasicViolated(responseLower, constraints[..i])
    {
      CountBasicViolatedStep(responseLower, constraints, i);
      var violated := ProhibitionViolated(responseLower, constraints[i]);
      if violated {
        violations := violations + 1;
      }
      i := i + 1;
    }
    assert constraints[..i] == constraints;
    r := Max(0.0, 1.0 - (violations as real) / (|constraints| as real));
  }

  /** Only constraints that say "금지" can be violated: with none of them the score is 1.0. */
  lemma {:induction false} NoProhibitionNoViolation(responseLower: string, constraints: seq<string>)
    requires forall i | 0 <= i < |constraints| :: !Contains(constraints[i], "금지")
    ensures CountBasicViolated(responseLower, constraints) == 0
    decreases |constraints|
  {
    if constraints != [] {
      var init := constraints[..|constraints| - 1];
      assert forall i | 0 <= i < |init| :: init[i] == constraints[i];
      NoProhibitionNoViolation(responseLower, init);
    }
  }

  /** Every constraint violated gives 0.0. */
  lemma {:induction false} AllViolated(responseLower: string, constraints: seq<string>)
    requires forall i | 0 <= i < |constraints| :: BasicViolated(responseLower, constraints[i])
    ensures CountBasicViolated(responseLower, constraints) == |constraints|
    decreases |constraints|
  {
    if constraints != [] {
      var init := constraints[..|constraints| - 1];
      assert forall i | 0 <= i < |init| :: init[i] == constraints[i];
      AllViolated(responseLower, init);
    }
  }

  lemma ProhibitionFreeScore(response: string, constraints: seq<string>)
    requires forall i | 0 <= i < |constraints| :: !Contains(constraints[i], "금지")
    ensures BasicConstraintScore(response, constraints) == 1.0
  {
    NoProhibitionNoViolation(Lower(response), constraints);
  }

  lemma AllViolatedScore(response: string, constraints: seq<string>)
    requires constraints != []
    requires forall i | 0 <= i < |constraints| :: BasicViolated(Lower(response), constraints[i])
    ensures BasicConstraintScore(response, constraints) == 0.0
  {
    AllViolated(Lower(response), constraints);
    var n := |constraints| as real;
    DivSelf(CountBasicViolated(Lower(response), constraints) as real, n);
  }

  // ---------------------------------------------------------------------
  // `_default_evaluate` and `evaluate_response`.

  /** The share of distinct lowercased ground-truth words that the lowercased response also uses; 0.5 for none. */
  function DefaultAccuracy(response: string, groundTruth: string): (r: real)
    ensures 0.0 <= r <= 1.0
    ensures |WordSet(Lower(groundTruth))| == 0 ==> r == 0.5
  {
    if |WordSet(Lower(groundTruth))| > 0 then Medical.WordOverlap(response, groundTruth) else 0.5
  }

  /** A response using every ground-truth word scores 1.0. */
  lemma DefaultAccuracyAllWords(response: string, groundTruth: string)
    requires |WordSet(Lower(groundTruth))| > 0
    requires WordSet(Lower(groundTruth)) <= WordSet(Lower(response))
    ensures DefaultAccuracy(response, groundTruth) == 1.0
  {
    var t := WordSet(Lower(groundTruth));
    var w := WordSet(Lower(response));
    assert t * w == t;
    var n := |t| as real;
    assert Medical.WordOverlap(response, groundTruth) == (|t * w| as real) / n;
    DivSelf(|t * w| as real, n);
  }

  /** A response sharing no ground-truth word scores 0.0. */
  lemma DefaultAccuracyNoWords(response: string, groundTruth: string)
    requires |WordSet(Lower(groundTruth))| > 0
    requires WordSet(Lower(groundTruth)) * WordSet(Lower(response)) == {}
    ensures DefaultAccuracy(response, groundTruth) == 0.0
  {
    var t := WordSet(Lower(groundTruth));
    var w := WordSet(Lower(groundTruth)) * WordSet(Lower(response));
    var n := |t| as real;
    assert Medical.WordOverlap(response, groundTruth) == (|w| as real) / n;
    assert |w| == 0;
    ZeroOver(n);
  }

  lemma ZeroOver(n: real)
    requires n > 0.0
    ensures 0.0 / n == 0.0
  {
  }

  lemma DivSelf(a: real, n: real)
    requires a == n && n > 0.0
    ensures a / n == 1.0
  {
  }

  function ValueSum(vs: seq<real>): real {
    if vs == [] then 0.0 else ValueSum(vs[..|vs| - 1]) + vs[|vs| - 1]
  }

  /** `sum(scores.values()) / len(scores)`, or 0.5 for an empty map. */
  function MeanScore(scores: Scoring.ScoreMap): real {
    if scores != [] then ValueSum(Assoc.Values(scores)) / (|scores| as real) else 0.5
  }

  /** The fallback score map: `accuracy` when computed, `constraint_compliance`, then their mean as `overall`. */
  function FallbackScores(accuracy: Option<real>, compliance: real): Scoring.ScoreMap {
    var s1: Scoring.ScoreMap := if accuracy.Some? then [("accuracy", accuracy.value)] else [];
    var s2 := Assoc.Put(s1, "constraint_compliance", compliance);
    Assoc.Put(s2, "overall", MeanScore(s2))
  }

  /** What `_default_evaluate` returns; the question plays no part. */
  function DefaultScores(config: DomainConfig, response: string, groundTruth: string): Scoring.ScoreMap {
    FallbackScores(if groundTruth != [] then Some(DefaultAccuracy(response, groundTruth)) else None,
                   BasicConstraintScore(response, config.knowledge.constraints))
  }

  /** `_default_evaluate`. */
  method DefaultEvaluate(config: DomainConfig, response: string, groundTruth: string) returns (scores: Scoring.ScoreMap)
    ensures scores == DefaultScores(config, response, groundTruth)
  {
    scores := [];
    if groundTruth != [] {
      scores := Assoc.Put(scores, "accuracy", DefaultAccuracy(response, groundTruth));
    }
    var compliance := CheckBasicConstraints(response, config.knowledge.constraints);
    scores := Assoc.Put(scores, "constraint_compliance", compliance);
    scores := Assoc.Put(scores, "overall", MeanScore(scores));
  }

  lemma FallbackScoresExplicit(accuracy: Option<real>, compliance: real)
    ensures FallbackScores(accuracy, compliance) ==
      if accuracy.Some? then
        [("accuracy", accuracy.value), ("constraint_compliance", compliance),
         ("overall", (accuracy.value + compliance) / 2.0)]
      else [("constraint_compliance", compliance), ("overall", compliance)]
  {
    var c := compliance;
    if accuracy.Some? {
      var a := accuracy.value;
      var s1: Scoring.ScoreMap := [("accuracy", a)];
      var s2: Scoring.ScoreMap := [("accuracy", a), ("constraint_compliance", c)];
      assert s1[0].0 != "constraint_compliance";
      assert Assoc.Put(s1, "constraint_compliance", c) == [s1[0]] + Assoc.Put(s1[1..], "constraint_compliance", c);
      assert Assoc.Put(s1, "constraint_compliance", c) == s2;
      assert Assoc.Values(s2) == [a, c];
      assert [a, c][..1] == [a];
      assert [a][..0] == [];
      assert ValueSum([a]) == a;
      assert ValueSum([a, c]) == a + c;
      assert MeanScore(s2) == (a + c) / 2.0;
      assert s2[0].0 != "overall" && s2[1].0 != "overall";
      assert Assoc.Put(s2[1..], "overall", (a + c) / 2.0) == [s2[1]] + Assoc.Put(s2[2..], "overall", (a + c) / 2.0);
    } else {
      var s2: Scoring.ScoreMap := [("constraint_compliance", c)];
      assert Assoc.Put([], "constraint_compliance", c) == s2;
      assert Assoc.Values(s2) == [c];
      assert [c][..0] == [];
      assert ValueSum([c]) == c;
      assert MeanScore(s2) == c;
      assert s2[0].0 != "overall";
      assert Assoc.Put(s2, "overall", c) == [s2[0]] + Assoc.Put(s2[1..], "overall", c);
      assert s2[1..] == [];
    }
  }

  /** The arithmetic mean of two scores. */
  function Mean(x: real, y: real): (m: real)
    ensures Min(x, y) <= m <= Max(x, y)
  {
    (x + y) / 2.0
  }

  lemma FallbackScoresWithAccuracy(a: real, c: real)
    ensures FallbackScores(Some(a), c) == [("accuracy", a), ("constraint_compliance", c), ("overall", Mean(a, c))]
  {
    FallbackScoresExplicit(Some(a), c);
  }

  /** Every score of a fallback map built from values in [0, 1] lies in [0, 1]. */
  lemma FallbackScoresWithin(accuracy: Option<real>, compliance: real)
    requires accuracy.Some? ==> 0.0 <= accuracy.value <= 1.0
    requires 0.0 <= compliance <= 1.0
    ensures forall i | 0 <= i < |FallbackScores(accuracy, compliance)| :: 0.0 <= FallbackScores(accuracy, compliance)[i].1 <= 1.0
  {
    FallbackScoresExplicit(accuracy, compliance);
  }

  /** With a ground truth: `accuracy`, `constraint_compliance`, then `overall`, the mean of the two. */
  lemma DefaultScoresWithTruth(config: DomainConfig, response: string, groundTruth: string)
    requires groundTruth != []
    ensures DefaultScores(config, response, groundTruth) ==
      [("accuracy", DefaultAccuracy(response, groundTruth)),
       ("constraint_compliance", BasicConstraintScore(response, config.knowledge.constraints)),
       ("overall", Mean(DefaultAccuracy(response, groundTruth), BasicConstraintScore(response, config.knowledge.constraints)))]
  {
    var a := DefaultAccuracy(response, groundTruth);
    var c := BasicConstraintScore(response, config.knowledge.constraints);
    assert DefaultScores(config, response, groundTruth) == FallbackScores(Some(a), c);
    FallbackScoresWithAccuracy(a, c);
  }

  /** Without a ground truth there is no `accuracy`, and `overall` equals `constraint_compliance`. */
  lemma DefaultScoresWithoutTruth(config: DomainConfig, response: string)
    ensures DefaultScores(config, response, []) ==
      [("constraint_compliance", BasicConstraintScore(response, config.knowledge.constraints)),
       ("overall", BasicConstraintScore(response, config.knowledge.constraints))]
  {
    var c := BasicConstraintScore(response, config.knowledge.constraints);
    assert DefaultScores(config, response, []) == FallbackScores(None, c);
    FallbackScoresExplicit(None, c);
  }

  /** Every fallback score lies in [0, 1]. */
  lemma DefaultScoresWithin(config: DomainConfig, response: string, groundTruth: string)
    ensures forall i | 0 <= i < |DefaultScores(config, response, groundTruth)| ::
      0.0 <= DefaultScores(config, response, groundTruth)[i].1 <= 1.0
  {
    var acc := if groundTruth != [] then Some(DefaultAccuracy(response, groundTruth)) else None;
    var c := BasicConstraintScore(response, config.knowledge.constraints);
    assert DefaultScores(config, response, groundTruth) == FallbackScores(acc, c);
    FallbackScoresWithin(acc, c);
  }

  /** `evaluate_response`: the optimizer's evaluator when it has one, else the fallback. */
  function ResponseScores(o: Optimizer, response: string, groundTruth: string, question: string): Scoring.ScoreMap {
    if o.evaluator.Some? then Evaluation.Evaluation(o.evaluator.value, response, groundTruth, question)
    else DefaultScores(o.config, response, groundTruth)
  }

  method EvaluateResponse(o: Optimizer, response: string, groundTruth: string, question: string)
    returns (scores: Scoring.ScoreMap)
    ensures scores == ResponseScores(o, response, groundTruth, question)
  {
    if o.evaluator.Some? {
      scores := Evaluation.Evaluate(o.evaluator.value, response, groundTruth, question);
    } else {
      scores := DefaultEvaluate(o.config, response, groundTruth);
    }
  }

  // ---------------------------------------------------------------------
  // `generate_domain_thinking_styles`, `generate_domain_critique`,
  // `generate_domain_refinement`: direct delegations.

  function ThinkingStyles(o: Optimizer): seq<string> {
    o.config.knowledge.thinkingStyles
  }

  function DomainCritique(o: Optimizer, instruction: string, examples: string,
                          scores: Option<Scoring.ScoreMap>): Result<string> {
    Critique.GenerateCritiquePrompt(o.config, instruction, examples, scores)
  }

  function DomainRefinement(o: Optimizer, instruction: string, examples: string, critique: string): Result<string> {
    Critique.GenerateRefinementPrompt(o.config, instruction, examples, critique)
  }

  // ---------------------------------------------------------------------
  // `get_critical_test_cases`.

  /** The dict describing one case; the explanation is not exported. */
  function CaseEntries(c: CaseExample): seq<(string, Value)> {
    [("question", Str(c.question)),
     ("expected_elements", List(StrList(c.expectedElements))),
     ("forbidden_elements", List(StrList(c.forbiddenElements))),
     ("category", Str(c.category)),
     ("difficulty", Str(c.difficulty))]
  }

  /** `get_critical_test_cases`: one dict per critical case, in order. */
  method CriticalTestCases(o: Optimizer) returns (cases: seq<Value>)
    ensures |cases| == |o.config.caseLibrary.criticalCases|
    ensures forall i | 0 <= i < |cases| :: cases[i] == Dict(CaseEntries(o.config.caseLibrary.criticalCases[i]))
  {
    var critical := o.config.caseLibrary.criticalCases;
    cases := [];
    var i := 0;
    while i < |critical|
      invariant 0 <= i <= |critical|
      invariant |cases| == i
      invariant forall k | 0 <= k < i :: cases[k] == Dict(CaseEntries(critical[k]))
    {
      var c := critical[i];
      cases := cases + [Dict([("question", Str(c.question)),
                              ("expected_elements", List(StrList(c.expectedElements))),
                              ("forbidden_elements", List(StrList(c.forbiddenElements))),
                              ("category", Str(c.category)),
                              ("difficulty", Str(c.difficulty))])];
      i := i + 1;
    }
  }

  /** Passing an exported dict back to `CaseExample(**d)` rebuilds the case, without its explanation. */
  lemma CaseEntriesRoundTrip(c: CaseExample)
    ensures Serialization.CaseFromKwargs(CaseEntries(c)) == Success(c.(explanation := ""))
  {
    CaseEntriesFit(c);
    CaseEntriesLookups(c);
    Serialization.StringsRoundTrip(c.expectedElements);
    Serialization.StringsRoundTrip(c.forbiddenElements);
  }

  lemma CaseEntriesFit(c: CaseExample)
    ensures Serialization.KwargsFit(CaseEntries(c),
      {"question", "expected_elements", "forbidden_elements", "category", "difficulty", "explanation"}, {"question"})
  {
    assert CaseEntries(c)[0].0 == "question";
  }

  lemma CaseEntriesLookups(c: CaseExample)
    ensures var e := CaseEntries(c);
      Get(e, "question", Null) == Str(c.question)
      && Get(e, "expected_elements", List([])) == List(StrList(c.expectedElements))
      && Get(e, "forbidden_elements", List([])) == List(StrList(c.forbiddenElements))
      && Get(e, "category", Str("")) == Str(c.category)
      && Get(e, "difficulty", Str("medium")) == Str(c.difficulty)
      && Get(e, "explanation", Str("")) == Str("")
  {
    var e := CaseEntries(c);
    Assoc.LookupAt(e, 0);
    Assoc.LookupAt(e, 1);
    Assoc.LookupAt(e, 2);
    Assoc.LookupAt(e, 3);
    Assoc.LookupAt(e, 4);
    Assoc.LookupAbsent(e, "explanation");
  }

  // ---------------------------------------------------------------------
  // `_evaluate_case_response`.

  /** 0.0 for an empty response; otherwise expected-element recall less 0.25 per forbidden element found, never below 0. */
  function CaseResponseScore(response: string, c: CaseExample): (r: real)
    ensures 0.0 <= r <= 1.0
    ensures response == [] ==> r == 0.0
  {
    if response == [] then 0.0
    else
      var expected := Evaluation.FoundFraction(response, c.expectedElements, 1.0);
      var penalty := (Evaluation.CountFound(response, c.forbiddenElements) as real) * 0.25;
      Max(0.0, expected - penalty)
  }

  /** Without forbidden hits the score is the base evaluator's single-case score: the expected recall. */
  lemma CaseResponseWithoutForbidden(response: string, c: CaseExample)
    requires response != []
    requires Evaluation.CountFound(response, c.forbiddenElements) == 0
    ensures CaseResponseScore(response, c) == Evaluation.SingleCaseScore(response, c)
  {
  }

  /** Four forbidden hits wipe out any recall. */
  lemma CaseResponseFourForbidden(response: string, c: CaseExample)
    requires Evaluation.CountFound(response, c.forbiddenElements) >= 4
    ensures CaseResponseScore(response, c) == 0.0
  {
  }

  /** Every expected element and no forbidden one gives full marks. */
  lemma CaseResponsePerfect(response: string, c: CaseExample)
    requires response != []
    requires forall k | 0 <= k < |c.expectedElements| :: Contains(Lower(response), Lower(c.expectedElements[k]))
    requires forall k | 0 <= k < |c.forbiddenElements| :: !Contains(Lower(response), Lower(c.forbiddenElements[k]))
    ensures CaseResponseScore(response, c) == 1.0
  {
    Evaluation.AllFound(response, c.expectedElements);
    Evaluation.NoneFound(response, c.forbiddenElements);
    assert Evaluation.FoundFraction(response, c.expectedElements, 1.0) == 1.0 by {
      if c.expectedElements != [] {
        var n := |c.expectedElements| as real;
        DivSelf(Evaluation.CountFound(response, c.expectedElements) as real, n);
      }
    }
  }

  // ---------------------------------------------------------------------
  // `validate_against_cases`.

  datatype CaseResult = CaseResult(question: string, category: string, score: real, response: string)

  /** The stored response: the first 200 characters and "..." when it is longer. */
  function Preview(response: string): (r: string)
    ensures |response| <= 200 ==> r == response
    ensures |response| > 200 ==> |r| == 203 && r[..200] == response[..200] && r[200..] == "..."
  {
    if |response| > 200 then response[..200] + "..." else response
  }

  /** The callback's answer; an exception leaves the empty response. */
  function ResponseOf(answer: Result<string>): string {
    if answer.Success? then answer.value else ""
  }

  function CaseOutcome(prompt: string, generate: (string, string) -> Result<string>, c: CaseExample): CaseResult {
    var response := ResponseOf(generate(prompt, c.question));
    CaseResult(c.question, c.category, CaseResponseScore(response, c), Preview(response))
  }

  function CaseOutcomes(prompt: string, generate: (string, string) -> Result<string>, cases: seq<CaseExample>)
    : (rs: seq<CaseResult>)
    ensures |rs| == |cases|
    ensures forall i | 0 <= i < |cases| :: rs[i] == CaseOutcome(prompt, generate, cases[i])
    decreases |cases|
  {
    if cases == [] then []
    else CaseOutcomes(prompt, generate, cases[..|cases| - 1]) + [CaseOutcome(prompt, generate, cases[|cases| - 1])]
  }

  function ScoreTotal(rs: seq<CaseResult>): real
    decreases |rs|
  {
    if rs == [] then 0.0 else ScoreTotal(rs[..|rs| - 1]) + rs[|rs| - 1].score
  }

  /** The overall score and the per-case results of `validate_against_cases`. */
  function Validation(config: DomainConfig, prompt: string, generate: (string, string) -> Result<string>)
    : (real, seq<CaseResult>)
  {
    var cases := AllCases(config.caseLibrary);
    if cases == [] then (1.0, [])
    else
      var rs := CaseOutcomes(prompt, generate, cases);
      (ScoreTotal(rs) / (|cases| as real), rs)
  }

  /** The loop of `validate_against_cases`: one response per case, scored, stored and summed. */
  method ScoreCases(prompt: string, generate: (string, string) -> Result<string>, cases: seq<CaseExample>)
    returns (total: real, results: seq<CaseResult>)
    ensures results == CaseOutcomes(prompt, generate, cases)
    ensures total == ScoreTotal(results)
  {
    results := [];
    total := 0.0;
    var i := 0;
    while i < |cases|
      invariant 0 <= i <= |cases|
      invariant results == CaseOutcomes(prompt, generate, cases[..i])
      invariant total == ScoreTotal(results)
    {
      var c := cases[i];
      var response := ResponseOf(generate(prompt, c.question));
      var caseScore := CaseResponseScore(response, c);
      total := total + caseScore;
      var outcome := CaseResult(c.question, c.category, caseScore, Preview(response));
      CaseOutcomesSnoc(prompt, generate, cases, i);
      ScoreTotalSnoc(results, outcome);
      results := results + [outcome];
      i := i + 1;
    }
    assert cases[..i] == cases;
  }

  /** `validate_against_cases`: (1.0, []) for an empty library, else the mean case score and the results. */
  method ValidateAgainstCases(o: Optimizer, prompt: string, generate: (string, string) -> Result<string>)
    returns (overall: real, results: seq<CaseResult>)
    ensures (overall, results) == Validation(o.config, prompt, generate)
  {
    var cases := AllCases(o.config.caseLibrary);
    if cases == [] {
      return 1.0, [];
    }
    var total;
    total, results := ScoreCases(prompt, generate, cases);
    overall := total / (|cases| as real);
  }

  lemma CaseOutcomesSnoc(prompt: string, generate: (string, string) -> Result<string>, cases: seq<CaseExample>, i: nat)
    requires i < |cases|
    ensures CaseOutcomes(prompt, generate, cases[..i + 1])
      == CaseOutcomes(prompt, generate, cases[..i]) + [CaseOutcome(prompt, generate, cases[i])]
  {
    assert cases[..i + 1][..i] == cases[..i];
  }

  lemma ScoreTotalSnoc(rs: seq<CaseResult>, x: CaseResult)
    ensures ScoreTotal(rs + [x]) == ScoreTotal(rs) + x.score
  {
    assert (rs + [x])[..|rs|] == rs;
  }

  lemma {:induction false} ScoreTotalBounds(rs: seq<CaseResult>)
    requires forall i | 0 <= i < |rs| :: 0.0 <= rs[i].score <= 1.0
    ensures 0.0 <= ScoreTotal(rs) <= |rs| as real
    decreases |rs|
  {
    if rs != [] {
      var init := rs[..|rs| - 1];
      assert forall i | 0 <= i < |init| :: init[i] == rs[i];
      ScoreTotalBounds(init);
    }
  }

  /**
   * An empty library gives (1.0, []); otherwise there is one result per case
   * in `get_all_cases` order, carrying the case's question and category and
   * the score of the callback's response, and a failed callback scores 0.0
   * with an empty stored response.
   */
  lemma ValidationResults(config: DomainConfig, prompt: string, generate: (string, string) -> Result<string>)
    ensures var cases := AllCases(config.caseLibrary);
      var results := Validation(config, prompt, generate).1;
      (cases == [] ==> Validation(config, prompt, generate) == (1.0, []))
      && |results| == |cases|
      && (forall i | 0 <= i < |cases| ::
            results[i].question == cases[i].question
            && results[i].category == cases[i].category
            && results[i].score == CaseResponseScore(ResponseOf(generate(prompt, cases[i].question)), cases[i])
            && results[i].response == Preview(ResponseOf(generate(prompt, cases[i].question))))
      && (forall i | 0 <= i < |cases| && generate(prompt, cases[i].question).Failure? ::
            results[i].score == 0.0 && results[i].response == "")
  {
  }

  /** The overall validation score is the mean of the case scores, so it lies in [0, 1]. */
  lemma ValidationOverall(config: DomainConfig, prompt: string, generate: (string, string) -> Result<string>)
    ensures 0.0 <= Validation(config, prompt, generate).0 <= 1.0
  {
    var cases := AllCases(config.caseLibrary);
    if cases != [] {
      var rs := CaseOutcomes(prompt, generate, cases);
      ScoreTotalBounds(rs);
      Medical.FractionAtMostOneReal(ScoreTotal(rs), |cases| as real);
    }
  }

  // ---------------------------------------------------------------------
  // `get_domain_summary`.

  datatype Summary = Summary(
    domainType: string, domainName: string, description: string,
    numPrinciples: nat, numConstraints: nat, numQualityCriteria: nat,
    numThinkingStyles: nat, numExpertPersonas: nat,
    numCriticalCases: nat, numEdgeCases: nat,
    hasCustomCritiqueTemplate: bool, hasCustomRefinementTemplate: bool)

  function DomainSummary(config: DomainConfig): Summary {
    var k := config.knowledge;
    Summary(config.domainType, config.domainName, config.description,
            |k.principles|, |k.constraints|, |k.qualityCriteria|, |k.thinkingStyles|, |k.expertPersonas|,
            |config.caseLibrary.criticalCases|, |config.caseLibrary.edgeCases|,
            config.critiqueTemplate != "", config.refinementTemplate != "")
  }

  /** A configuration passed through `to_dict` and `from_dict` has the same summary, except that it has no cases. */
  lemma SummaryAfterRoundTrip(c: DomainConfig)
    ensures Serialization.ConfigFromDict(Serialization.ConfigToDict(c)).Success?
    ensures DomainSummary(Serialization.ConfigFromDict(Serialization.ConfigToDict(c)).value)
      == DomainSummary(c).(numCriticalCases := 0, numEdgeCases := 0)
  {
    Serialization.ConfigRoundTrip(c);
  }

  // ---------------------------------------------------------------------
  // `create_domain_optimizer`.

  /** The built-in configuration the factory falls back to; there is none for any other type. */
  function BuiltinConfig(domainType: string): Option<DomainConfig> {
    if domainType == "medical" then Some(Fixtures.MedicalConfig)
    else if domainType == "legal" then Some(Fixtures.LegalConfig)
    else if domainType == "finance" then Some(Fixtures.FinanceConfig)
    else None
  }

  /** The custom configuration, else the registered one, else the built-in one, else `ValueError`. */
  function ResolveConfig(domainType: string, custom: Option<DomainConfig>, reg: Registry.Contents): Result<DomainConfig> {
    if custom.Some? then Success(custom.value)
    else if Registry.Domain(reg, domainType).Some? then Success(Registry.Domain(reg, domainType).value)
    else if BuiltinConfig(domainType).Some? then Success(BuiltinConfig(domainType).value)
    else Failure(ValueError("Unknown domain type: " + domainType))
  }

  /** `create_domain_optimizer`: a medical evaluator is passed for the type "medical", otherwise none. */
  function CreateOptimizer(domainType: string, custom: Option<DomainConfig>, reg: Registry.Contents): Result<Optimizer> {
    match ResolveConfig(domainType, custom, reg)
    case Failure(e) => Failure(e)
    case Success(config) =>
      var explicit := if domainType == "medical" then Some(Evaluation.Evaluator(Evaluation.MedicalStrategy, config)) else None;
      Success(Construct(config, explicit, reg))
  }

  method CreateDomainOptimizer(domainType: string, custom: Option<DomainConfig>, registry: Registry.DomainRegistry)
    returns (r: Result<Optimizer>)
    ensures r == CreateOptimizer(domainType, custom, registry.State())
  {
    var config: DomainConfig;
    if custom.Some? {
      config := custom.value;
    } else {
      var registered := registry.GetDomain(domainType);
      if registered.Some? {
        config := registered.value;
      } else if domainType == "medical" {
        config := Fixtures.MedicalConfig;
      } else if domainType == "legal" {
        config := Fixtures.LegalConfig;
      } else if domainType == "finance" {
        config := Fixtures.FinanceConfig;
      } else {
        return Failure(ValueError("Unknown domain type: " + domainType));
      }
    }
    var evaluator: Option<Evaluation.Evaluator> := None;
    if domainType == "medical" {
      evaluator := Some(Evaluation.Evaluator(Evaluation.MedicalStrategy, config));
    }
    var o := NewOptimizer(config, evaluator, registry);
    r := Success(o);
  }

  /**
   * Resolution order: the custom configuration, then the registry, then the
   * three built-ins; only an unknown, unregistered type without a custom
   * configuration fails, with `ValueError`.
   */
  lemma ResolutionOrder(domainType: string, custom: Option<DomainConfig>, reg: Registry.Contents)
    ensures var r := CreateOptimizer(domainType, custom, reg);
      (custom.Some? ==> r.Success? && r.value.config == custom.value)
      && (custom.None? && domainType in reg.domains ==> r.Success? && r.value.config == reg.domains[domainType])
      && (custom.None? && domainType !in reg.domains && domainType in {"medical", "legal", "finance"} ==>
            r.Success? && Some(r.value.config) == BuiltinConfig(domainType))
      && (r.Failure? <==> custom.None? && domainType !in reg.domains && domainType !in {"medical", "legal", "finance"})
      && (r.Failure? ==> r.error == ValueError("Unknown domain type: " + domainType))
  {
  }

  /** The type "medical" always gets a medical evaluator, on whichever configuration was resolved. */
  lemma MedicalGetsMedicalEvaluator(custom: Option<DomainConfig>, reg: Registry.Contents)
    ensures var r := CreateOptimizer("medical", custom, reg);
      r.Success? && r.value.evaluator == Some(Evaluation.Evaluator(Evaluation.MedicalStrategy, r.value.config))
  {
  }

  /** "english_question" has no built-in fallback: without a custom configuration it resolves only through the registry. */
  lemma EnglishOnlyThroughRegistry(reg: Registry.Contents)
    ensures CreateOptimizer("english_question", None, reg).Success? <==> "english_question" in reg.domains
  {
  }

  /** With the registry as the package leaves it, "legal" resolves to its registered configuration without an evaluator. */
  lemma DefaultRegistryLegal()
    ensures CreateOptimizer("legal", None, Fixtures.DefaultRegistry) == Success(Optimizer(Fixtures.LegalConfig, None))
  {
    Fixtures.DefaultRegistryDomains();
    Fixtures.DefaultRegistryEvaluators("legal");
  }

  /** So does "english_question", which has no built-in fallback. */
  lemma DefaultRegistryEnglish()
    ensures CreateOptimizer("english_question", None, Fixtures.DefaultRegistry)
      == Success(Optimizer(Fixtures.EnglishQuestionConfig, None))
  {
    Fixtures.DefaultRegistryDomains();
    Fixtures.DefaultRegistryEvaluators("english_question");
  }

  /** Any type the package does not register fails. */
  lemma DefaultRegistryUnknownFails(domainType: string)
    requires domainType != "medical" && domainType != "legal" && domainType != "finance" && domainType != "english_question"
    ensures CreateOptimizer(domainType, None, Fixtures.DefaultRegistry) == Failure(ValueError("Unknown domain type: " + domainType))
  {
    Fixtures.DefaultRegistryUnknown(domainType);
  }
}
