/**
 * `DomainEvaluator`: the template method `evaluate` and its hooks.
 *
 * The Python class hierarchy becomes a tagged strategy: `Base` is a
 * subclass that only supplies the abstract `check_accuracy` (passed in as
 * a function) and keeps every default hook; `Medical` is
 * `MedicalDomainEvaluator`, which overrides accuracy, constraints,
 * principles and criteria.
 */
module Evaluation {
  import opened Wrappers
  import opened Text
  import opened Knowledge
  import opened Scoring
  import Medical
  import Assoc

  datatype Strategy =
    | Base(accuracy: (string, string) -> real)
    | MedicalStrategy

  datatype Evaluator = Evaluator(strategy: Strategy, config: DomainConfig)

  // ---------------------------------------------------------------------
  // Default hooks.

  /** `_extract_forbidden_keywords`: the default extracts nothing. */
  function ExtractForbiddenKeywords(constraint: string): (ks: seq<string>)
    ensures |ks| == 0
  {
    []
  }

  /** The default `_violates_constraint`: a forbidden keyword under a negation phrase. */
  predicate ViolatesConstraint(response: string, constraint: string) {
    var c := Lower(constraint);
    (Contains(c, "금지") || Contains(c, "하지 않"))
      && exists k | k in ExtractForbiddenKeywords(constraint) :: Contains(Lower(response), Lower(k))
  }

  function CountBaseViolated(response: string, constraints: seq<string>): (n: nat)
    ensures n <= |constraints|
  {
    if constraints == [] then 0
    else (if ViolatesConstraint(response, constraints[0]) then 1 else 0) + CountBaseViolated(response, constraints[1..])
  }

  lemma {:induction false} CountBaseViolatedSnoc(s: string, cs: seq<string>, c: string)
    ensures CountBaseViolated(s, cs + [c]) == CountBaseViolated(s, cs) + (if ViolatesConstraint(s, c) then 1 else 0)
  {
    if cs != [] {
      assert (cs + [c])[1..] == cs[1..] + [c];
      CountBaseViolatedSnoc(s, cs[1..], c);
    } else {
      assert (cs + [c])[1..] == [];
    }
  }

  /** The default `check_constraints`: 1.0 without constraints, else one minus the violated fraction. */
  function BaseConstraintScore(response: string, constraints: seq<string>): (r: real)
    ensures constraints == [] ==> r == 1.0
    ensures r == 1.0 <==> CountBaseViolated(response, constraints) == 0
    ensures constraints != [] ==> (r == 0.0 <==> CountBaseViolated(response, constraints) == |constraints|)
    ensures 0.0 <= r <= 1.0
  {
    if constraints == [] then 1.0
    else
      Medical.FractionAtMostOne(CountBaseViolated(response, constraints), |constraints|);
      Medical.FractionExtremes(CountBaseViolated(response, constraints), |constraints|);
      1.0 - (CountBaseViolated(response, constraints) as real) / (|constraints| as real)
  }

  /** The default `check_constraints` loop. */
  method CheckConstraints(response: string, constraints: seq<string>) returns (r: real)
    ensures r == BaseConstraintScore(response, constraints)
  {
    if |constraints| == 0 {
      return 1.0;
    }
    var violations := 0;
    var i := 0;
    while i < |constraints|
      invariant 0 <= i <= |constraints|
      invariant violations == CountBaseViolated(response, constraints[..i])
    {
      CountBaseViolatedSnoc(response, constraints[..i], constraints[i]);
      assert constraints[..i + 1] == constraints[..i] + [constraints[i]];
      if ViolatesConstraint(response, constraints[i]) {
        violations := violations + 1;
      }
      i := i + 1;
    }
    assert constraints[..i] == constraints;
    r := 1.0 - (violations as real) / (|constraints| as real);
  }

  /** With no forbidden keywords ever extracted, no constraint is violated. */
  lemma {:induction false} BaseNeverViolates(response: string, constraints: seq<string>)
    ensures CountBaseViolated(response, constraints) == 0
  {
    if constraints != [] {
      BaseNeverViolates(response, constraints[1..]);
    }
  }

  /** So the default constraint compliance is 1.0 for every response. */
  lemma BaseConstraintsPerfect(response: string, constraints: seq<string>)
    ensures BaseConstraintScore(response, constraints) == 1.0
  {
    BaseNeverViolates(response, constraints);
  }

  /** The default `_aligns_with_principle` accepts every principle. */
  predicate AlignsWithPrinciple(response: string, principle: string) {
    true
  }

  function CountBaseAligned(response: string, principles: seq<string>): (n: nat)
    ensures n <= |principles|
  {
    if principles == [] then 0
    else (if AlignsWithPrinciple(response, principles[0]) then 1 else 0) + CountBaseAligned(response, principles[1..])
  }

  lemma {:induction false} CountBaseAlignedSnoc(s: string, ps: seq<string>, p: string)
    ensures CountBaseAligned(s, ps + [p]) == CountBaseAligned(s, ps) + (if AlignsWithPrinciple(s, p) then 1 else 0)
  {
    if ps != [] {
      assert (ps + [p])[1..] == ps[1..] + [p];
      CountBaseAlignedSnoc(s, ps[1..], p);
    } else {
      assert (ps + [p])[1..] == [];
    }
  }

  /** The default `check_principles`: 1.0 without principles, else the aligned fraction. */
  function BasePrincipleScore(response: string, principles: seq<string>): (r: real)
    ensures principles == [] ==> r == 1.0
    ensures r == 1.0 <==> CountBaseAligned(response, principles) == |principles|
    ensures principles != [] ==> (r == 0.0 <==> CountBaseAligned(response, principles) == 0)
    ensures 0.0 <= r <= 1.0
  {
    if principles == [] then 1.0
    else
      Medical.FractionAtMostOne(CountBaseAligned(response, principles), |principles|);
      Medical.FractionExtremes(CountBaseAligned(response, principles), |principles|);
      (CountBaseAligned(response, principles) as real) / (|principles| as real)
  }

  /** The default `check_principles` loop. */
  method CheckPrinciples(response: string, principles: seq<string>) returns (r: real)
    ensures r == BasePrincipleScore(response, principles)
  {
    if |principles| == 0 {
      return 1.0;
    }
    var aligned := 0;
    var i := 0;
    while i < |principles|
      invariant 0 <= i <= |principles|
      invariant aligned == CountBaseAligned(response, principles[..i])
    {
      CountBaseAlignedSnoc(response, principles[..i], principles[i]);
      assert principles[..i + 1] == principles[..i] + [principles[i]];
      if AlignsWithPrinciple(response, principles[i]) {
        aligned := aligned + 1;
      }
      i := i + 1;
    }
    assert principles[..i] == principles;
    r := (aligned as real) / (|principles| as real);
  }

  lemma {:induction false} BaseAllAligned(response: string, principles: seq<string>)
    ensures CountBaseAligned(response, principles) == |principles|
  {
    if principles != [] {
      BaseAllAligned(response, principles[1..]);
    }
  }

  /** The default principle alignment is 1.0 for every response. */
  lemma BasePrinciplesPerfect(response: string, principles: seq<string>)
    ensures BasePrincipleScore(response, principles) == 1.0
  {
    BaseAllAligned(response, principles);
  }

  // ---------------------------------------------------------------------
  // The hooks, dispatched on the strategy.

  function CheckAccuracy(ev: Evaluator, response: string, groundTruth: string): real {
    match ev.strategy
    case Base(accuracy) => accuracy(response, groundTruth)
    case MedicalStrategy => Medical.CheckAccuracy(response, groundTruth)
  }

  function ConstraintCompliance(ev: Evaluator, response: string): (r: real)
    ensures 0.0 <= r <= 1.0
    ensures ev.strategy.Base? ==> r == 1.0
  {
    match ev.strategy
    case Base(_) =>
      BaseConstraintsPerfect(response, ev.config.knowledge.constraints);
      BaseConstraintScore(response, ev.config.knowledge.constraints)
    case MedicalStrategy => Medical.ConstraintScore(response, ev.config.knowledge.constraints)
  }

  function PrincipleAlignment(ev: Evaluator, response: string): (r: real)
    ensures 0.0 <= r <= 1.0
    ensures ev.strategy.Base? ==> r == 1.0
  {
    match ev.strategy
    case Base(_) =>
      BasePrinciplesPerfect(response, ev.config.knowledge.principles);
      BasePrincipleScore(response, ev.config.knowledge.principles)
    case MedicalStrategy => Medical.PrincipleScore(response, ev.config.knowledge.principles)
  }

  /** `evaluate_criterion`: the default scores every criterion 0.5. */
  function CriterionScore(ev: Evaluator, response: string, criterion: QualityCriterion): (r: real)
    ensures 0.0 <= r <= 1.0
    ensures ev.strategy.Base? ==> r == 0.5
  {
    match ev.strategy
    case Base(_) => 0.5
    case MedicalStrategy => Medical.CriterionScore(response, criterion)
  }

  // ---------------------------------------------------------------------
  // Case matching and case coverage.

  /** `_questions_match`: more than half of the smaller word set is shared. */
  predicate QuestionsMatch(q1: string, q2: string) {
    var w1 := WordSet(q1);
    var w2 := WordSet(q2);
    var minLen := if |w1| <= |w2| then |w1| else |w2|;
    minLen != 0 && (|w1 * w2| as real) / (minLen as real) > 0.5
  }

  /** The ratio test is the integer test "twice the overlap exceeds the smaller set", and empty sets never match. */
  lemma QuestionsMatchCharacterised(q1: string, q2: string)
    ensures QuestionsMatch(q1, q2) <==>
      var w1 := WordSet(q1);
      var w2 := WordSet(q2);
      |w1| > 0 && |w2| > 0 && 2 * |w1 * w2| > (if |w1| <= |w2| then |w1| else |w2|)
  {
    var w1 := WordSet(q1);
    var w2 := WordSet(q2);
    var m := if |w1| <= |w2| then |w1| else |w2|;
    if m != 0 {
      RatioAboveHalf(|w1 * w2| as real, m as real);
    }
  }

  lemma RatioAboveHalf(o: real, m: real)
    requires m > 0.0
    ensures o / m > 0.5 <==> 2.0 * o > m
  {
    var q := o / m;
    assert o == q * m;
    if q > 0.5 {
      assert (q - 0.5) * m > 0.0;
    } else {
      assert (0.5 - q) * m >= 0.0;
    }
  }

  /** Matching does not depend on the order of the two questions. */
  lemma QuestionsMatchSymmetric(q1: string, q2: string)
    ensures QuestionsMatch(q1, q2) <==> QuestionsMatch(q2, q1)
  {
    assert WordSet(q1) * WordSet(q2) == WordSet(q2) * WordSet(q1);
  }

  /** A question with no words matches nothing. */
  lemma EmptyQuestionMatchesNothing(q1: string, q2: string)
    requires |WordSet(q1)| == 0
    ensures !QuestionsMatch(q1, q2) && !QuestionsMatch(q2, q1)
  {
  }

  /** The cases of `cases` whose lowercased question matches `question`, in order. */
  function MatchingCases(question: string, cases: seq<CaseExample>): seq<CaseExample>
    decreases |cases|
  {
    if cases == [] then []
    else
      var rest := MatchingCases(question, cases[..|cases| - 1]);
      var last := cases[|cases| - 1];
      if QuestionsMatch(question, Lower(last.question)) then rest + [last] else rest
  }

  lemma MatchingCasesStep(question: string, cases: seq<CaseExample>, i: nat)
    requires i < |cases|
    ensures MatchingCases(question, cases[..i + 1])
      == if QuestionsMatch(question, Lower(cases[i].question)) then MatchingCases(question, cases[..i]) + [cases[i]]
         else MatchingCases(question, cases[..i])
  {
    assert cases[..i + 1][..i] == cases[..i];
  }

  /** The matching cases are kept and no other. */
  lemma {:induction false} MatchingCasesExactly(question: string, cases: seq<CaseExample>)
    ensures |MatchingCases(question, cases)| <= |cases|
    ensures forall c | c in MatchingCases(question, cases) :: c in cases && QuestionsMatch(question, Lower(c.question))
    ensures forall c | c in cases && QuestionsMatch(question, Lower(c.question)) :: c in MatchingCases(question, cases)
  {
    MatchingCasesLength(question, cases);
    MatchingCasesSound(question, cases);
    MatchingCasesComplete(question, cases);
  }

  lemma {:induction false} MatchingCasesLength(question: string, cases: seq<CaseExample>)
    ensures |MatchingCases(question, cases)| <= |cases|
    decreases |cases|
  {
    if cases != [] {
      MatchingCasesLength(question, cases[..|cases| - 1]);
    }
  }

  lemma {:induction false} MatchingCasesSound(question: string, cases: seq<CaseExample>)
    ensures forall c | c in MatchingCases(question, cases) :: c in cases && QuestionsMatch(question, Lower(c.question))
    decreases |cases|
  {
    if cases != [] {
      var init := cases[..|cases| - 1];
      MatchingCasesSound(question, init);
      assert cases == init + [cases[|cases| - 1]];
    }
  }

  lemma {:induction false} MatchingCasesComplete(question: string, cases: seq<CaseExample>)
    ensures forall c | c in cases && QuestionsMatch(question, Lower(c.question)) :: c in MatchingCases(question, cases)
    decreases |cases|
  {
    if cases != [] {
      var init := cases[..|cases| - 1];
      MatchingCasesComplete(question, init);
      assert cases == init + [cases[|cases| - 1]];
    }
  }

  /** `_find_matching_cases`: one pass over `get_all_cases`, appending every match. */
  method FindMatchingCases(lib: CaseLibrary, question: string) returns (matching: seq<CaseExample>)
    ensures matching == MatchingCases(Lower(question), AllCases(lib))
  {
    matching := KeepMatching(Lower(question), AllCases(lib));
  }

  /** The loop of `_find_matching_cases`. */
  method KeepMatching(q: string, cases: seq<CaseExample>) returns (matching: seq<CaseExample>)
    ensures matching == MatchingCases(q, cases)
  {
    matching := [];
    var i := 0;
    while i < |cases|
      invariant 0 <= i <= |cases|
      invariant matching == MatchingCases(q, cases[..i])
    {
      MatchingCasesStep(q, cases, i);
      var hit := QuestionsMatch(q, Lower(cases[i].question));
      if hit {
        matching := matching + [cases[i]];
      }
      i := i + 1;
    }
    assert cases[..i] == cases;
  }

  /** How many of `elements` occur, lowercased, in the lowercased response. */
  function CountFound(response: string, elements: seq<string>): (n: nat)
    ensures n <= |elements|
  {
    if elements == [] then 0
    else (if Contains(Lower(response), Lower(elements[0])) then 1 else 0) + CountFound(response, elements[1..])
  }

  lemma {:induction false} CountFoundSnoc(s: string, es: seq<string>, e: string)
    ensures CountFound(s, es + [e]) == CountFound(s, es) + (if Contains(Lower(s), Lower(e)) then 1 else 0)
  {
    if es != [] {
      assert (es + [e])[1..] == es[1..] + [e];
      CountFoundSnoc(s, es[1..], e);
    } else {
      assert (es + [e])[1..] == [];
    }
  }

  /** The found fraction of `elements`, or `ifEmpty` when there are none. */
  function FoundFraction(response: string, elements: seq<string>, ifEmpty: real): (f: real)
    ensures elements == [] ==> f == ifEmpty
    ensures elements != [] ==> 0.0 <= f <= 1.0
  {
    if elements == [] then ifEmpty
    else
      Medical.FractionAtMostOne(CountFound(response, elements), |elements|);
      (CountFound(response, elements) as real) / (|elements| as real)
  }

  /** `_evaluate_single_case`: expected-element recall minus the forbidden-element fraction, never below 0. */
  function SingleCaseScore(response: string, c: CaseExample): (r: real)
    ensures 0.0 <= r <= 1.0
    ensures CountFound(response, c.forbiddenElements) == 0 ==> r == FoundFraction(response, c.expectedElements, 1.0)
    ensures c.expectedElements != [] && CountFound(response, c.expectedElements) == 0 ==> r == 0.0
  {
    var expected := FoundFraction(response, c.expectedElements, 1.0);
    var penalty := FoundFraction(response, c.forbiddenElements, 0.0);
    Max(0.0, expected - penalty)
  }

  /** Every expected element present and no forbidden one gives full marks. */
  lemma {:induction false} PerfectCase(response: string, c: CaseExample)
    requires forall k | 0 <= k < |c.expectedElements| :: Contains(Lower(response), Lower(c.expectedElements[k]))
    requires forall k | 0 <= k < |c.forbiddenElements| :: !Contains(Lower(response), Lower(c.forbiddenElements[k]))
    ensures SingleCaseScore(response, c) == 1.0
  {
    AllFound(response, c.expectedElements);
    NoneFound(response, c.forbiddenElements);
  }

  lemma {:induction false} AllFound(response: string, es: seq<string>)
    requires forall k | 0 <= k < |es| :: Contains(Lower(response), Lower(es[k]))
    ensures CountFound(response, es) == |es|
  {
    if es != [] {
      assert forall k | 0 <= k < |es[1..]| :: es[1..][k] == es[k + 1];
      AllFound(response, es[1..]);
    }
  }

  lemma {:induction false} NoneFound(response: string, es: seq<string>)
    requires forall k | 0 <= k < |es| :: !Contains(Lower(response), Lower(es[k]))
    ensures CountFound(response, es) == 0
  {
    if es != [] {
      assert forall k | 0 <= k < |es[1..]| :: es[1..][k] == es[k + 1];
      NoneFound(response, es[1..]);
    }
  }

  /** The `_evaluate_single_case` loops. */
  method EvaluateSingleCase(response: string, c: CaseExample) returns (r: real)
    ensures r == SingleCaseScore(response, c)
  {
    var expectedFound := 0;
    var i := 0;
    while i < |c.expectedElements|
      invariant 0 <= i <= |c.expectedElements|
      invariant expectedFound == CountFound(response, c.expectedElements[..i])
    {
      CountFoundSnoc(response, c.expectedElements[..i], c.expectedElements[i]);
      assert c.expectedElements[..i + 1] == c.expectedElements[..i] + [c.expectedElements[i]];
      if Contains(Lower(response), Lower(c.expectedElements[i])) {
        expectedFound := expectedFound + 1;
      }
      i := i + 1;
    }
    assert c.expectedElements[..i] == c.expectedElements;
    var expectedScore := if |c.expectedElements| > 0 then (expectedFound as real) / (|c.expectedElements| as real) else 1.0;
    var forbiddenFound := 0;
    var j := 0;
    while j < |c.forbiddenElements|
      invariant 0 <= j <= |c.forbiddenElements|
      invariant forbiddenFound == CountFound(response, c.forbiddenElements[..j])
    {
      CountFoundSnoc(response, c.forbiddenElements[..j], c.forbiddenElements[j]);
      assert c.forbiddenElements[..j + 1] == c.forbiddenElements[..j] + [c.forbiddenElements[j]];
      if Contains(Lower(response), Lower(c.forbiddenElements[j])) {
        forbiddenFound := forbiddenFound + 1;
      }
      j := j + 1;
    }
    assert c.forbiddenElements[..j] == c.forbiddenElements;
    var forbiddenPenalty := if |c.forbiddenElements| > 0 then (forbiddenFound as real) / (|c.forbiddenElements| as real) else 0.0;
    r := Max(0.0, expectedScore - forbiddenPenalty);
  }

  /** The sum of the single-case scores. */
  function CaseScoreSum(response: string, cases: seq<CaseExample>): (t: real)
    ensures 0.0 <= t <= |cases| as real
    decreases |cases|
  {
    if cases == [] then 0.0
    else CaseScoreSum(response, cases[..|cases| - 1]) + SingleCaseScore(response, cases[|cases| - 1])
  }

  /**
   * `evaluate_against_cases`: `None` without a question or without a
   * matching case, else the mean single-case score. (The source also tests
   * `not case_library`, which a dataclass instance never satisfies.)
   */
  function CaseCoverage(ev: Evaluator, response: string, question: string): (r: Option<real>)
    ensures r.Some? <==> question != [] && MatchingCases(Lower(question), AllCases(ev.config.caseLibrary)) != []
    ensures r.Some? ==> 0.0 <= r.value <= 1.0
  {
    if question == [] then None
    else
      var matching := MatchingCases(Lower(question), AllCases(ev.config.caseLibrary));
      if matching == [] then None
      else
        var t := CaseScoreSum(response, matching);
        Medical.FractionAtMostOneReal(t, |matching| as real);
        Some(t / (|matching| as real))
  }

  /** The accumulation loop of `evaluate_against_cases`. */
  method SumCaseScores(response: string, cases: seq<CaseExample>) returns (total: real)
    ensures total == CaseScoreSum(response, cases)
  {
    total := 0.0;
    var i := 0;
    while i < |cases|
      invariant 0 <= i <= |cases|
      invariant total == CaseScoreSum(response, cases[..i])
    {
      assert cases[..i + 1][..i] == cases[..i];
      var caseScore := EvaluateSingleCase(response, cases[i]);
      total := total + caseScore;
      i := i + 1;
    }
    assert cases[..i] == cases;
  }

  /** `evaluate_against_cases`. */
  method EvaluateAgainstCases(ev: Evaluator, response: string, question: string) returns (r: Option<real>)
    ensures r == CaseCoverage(ev, response, question)
  {
    if |question| == 0 {
      return None;
    }
    var matching := FindMatchingCases(ev.config.caseLibrary, question);
    if |matching| == 0 {
      return None;
    }
    var totalScore := SumCaseScores(response, matching);
    r := Some(totalScore / (|matching| as real));
  }

  // ---------------------------------------------------------------------
  // The template method.

  /** `[(c.name, evaluate_criterion(response, c)) for c in criteria]`. */
  function CriterionEntries(ev: Evaluator, response: string, criteria: seq<QualityCriterion>): (es: ScoreMap)
    ensures |es| == |criteria|
    ensures forall i | 0 <= i < |criteria| :: es[i] == (criteria[i].name, CriterionScore(ev, response, criteria[i]))
  {
    if criteria == [] then []
    else [(criteria[0].name, CriterionScore(ev, response, criteria[0]))] + CriterionEntries(ev, response, criteria[1..])
  }

  /** `scores[k] = v` for each entry, in order. */
  function PutAll(scores: ScoreMap, es: ScoreMap): ScoreMap
    decreases |es|
  {
    if es == [] then scores
    else Assoc.Put(PutAll(scores, es[..|es| - 1]), es[|es| - 1].0, es[|es| - 1].1)
  }

  /** The score map `evaluate` builds before `overall`, from the hooks' results. */
  function Assemble(accuracy: Option<real>, compliance: real, alignment: real, criteria: ScoreMap, coverage: Option<real>): ScoreMap {
    var s1: ScoreMap := if accuracy.Some? then [("accuracy", accuracy.value)] else [];
    var s2 := Assoc.Put(s1, "constraint_compliance", compliance);
    var s3 := Assoc.Put(s2, "principle_alignment", alignment);
    var s4 := PutAll(s3, criteria);
    if coverage.Some? then Assoc.Put(s4, "case_coverage", coverage.value) else s4
  }

  /** The score map before `overall` is added. */
  function PartialScores(ev: Evaluator, response: string, groundTruth: string, question: string): ScoreMap {
    Assemble(
      if groundTruth != [] then Some(CheckAccuracy(ev, response, groundTruth)) else None,
      ConstraintCompliance(ev, response),
      PrincipleAlignment(ev, response),
      CriterionEntries(ev, response, ev.config.knowledge.qualityCriteria),
      CaseCoverage(ev, response, question))
  }

  /** What `evaluate` returns. */
  function Evaluation(ev: Evaluator, response: string, groundTruth: string, question: string): ScoreMap {
    var partial := PartialScores(ev, response, groundTruth, question);
    Assoc.Put(partial, "overall", WeightedScore(partial, ev.config.knowledge.qualityCriteria))
  }

  /** The loop of `evaluate` that writes one score per quality criterion. */
  method PutCriterionScores(start: ScoreMap, ev: Evaluator, response: string, criteria: seq<QualityCriterion>)
    returns (scores: ScoreMap)
    ensures scores == PutAll(start, CriterionEntries(ev, response, criteria))
  {
    ghost var entries := CriterionEntries(ev, response, criteria);
    scores := start;
    var i := 0;
    while i < |criteria|
      invariant 0 <= i <= |criteria|
      invariant scores == PutAll(start, entries[..i])
    {
      assert entries[..i + 1][..i] == entries[..i];
      assert entries[i] == (criteria[i].name, CriterionScore(ev, response, criteria[i]));
      scores := Assoc.Put(scores, criteria[i].name, CriterionScore(ev, response, criteria[i]));
      i := i + 1;
    }
    assert entries[..i] == entries;
  }

  /** The `_check_constraints` and `_check_principles` hooks of the evaluator's class. */
  method ComplianceAndAlignment(ev: Evaluator, response: string) returns (compliance: real, alignment: real)
    ensures compliance == ConstraintCompliance(ev, response)
    ensures alignment == PrincipleAlignment(ev, response)
  {
    match ev.strategy {
      case Base(_) =>
        compliance := CheckConstraints(response, ev.config.knowledge.constraints);
        alignment := CheckPrinciples(response, ev.config.knowledge.principles);
      case MedicalStrategy =>
        compliance := Medical.CheckConstraints(response, ev.config.knowledge.constraints);
        alignment := Medical.CheckPrinciples(response, ev.config.knowledge.principles);
    }
  }

  /** `evaluate`: the hooks called in source order, then the weighted `overall`. */
  method Evaluate(ev: Evaluator, response: string, groundTruth: string, question: string) returns (scores: ScoreMap)
    ensures scores == Evaluation(ev, response, groundTruth, question)
  {
    scores := EvaluateHooks(ev, response, groundTruth, question);
    var overall := CalculateWeightedScore(scores, ev.config.knowledge.qualityCriteria);
    scores := Assoc.Put(scores, "overall", overall);
  }

  /** The part of `evaluate` before `overall`: each hook's score written in turn. */
  method EvaluateHooks(ev: Evaluator, response: string, groundTruth: string, question: string) returns (scores: ScoreMap)
    ensures scores == PartialScores(ev, response, groundTruth, question)
  {
    var accuracy: Option<real> := None;
    scores := [];
    if |groundTruth| > 0 {
      accuracy := Some(CheckAccuracy(ev, response, groundTruth));
      scores := Assoc.Put(scores, "accuracy", accuracy.value);
    }
    assert scores == if accuracy.Some? then [("accuracy", accuracy.value)] else [];
    var compliance, alignment := ComplianceAndAlignment(ev, response);
    scores := Assoc.Put(scores, "constraint_compliance", compliance);
    scores := Assoc.Put(scores, "principle_alignment", alignment);
    var criteria := ev.config.knowledge.qualityCriteria;
    scores := PutCriterionScores(scores, ev, response, criteria);
    var caseScore := EvaluateAgainstCases(ev, response, question);
    if caseScore.Some? {
      scores := Assoc.Put(scores, "case_coverage", caseScore.value);
    }
    assert scores == Assemble(accuracy, compliance, alignment, CriterionEntries(ev, response, criteria), caseScore);
  }

  // ---------------------------------------------------------------------
  // What `evaluate` promises about its keys and values.

  lemma {:induction false} PutAllKeys(scores: ScoreMap, es: ScoreMap, k: string)
    ensures Assoc.HasKey(PutAll(scores, es), k) <==> Assoc.HasKey(scores, k) || Assoc.HasKey(es, k)
    decreases |es|
  {
    if es != [] {
      var prefix := es[..|es| - 1];
      var last := es[|es| - 1];
      PutAllKeys(scores, prefix, k);
      Assoc.PutHasKey(PutAll(scores, prefix), last.0, last.1, k);
      Assoc.HasKeySnoc(es, k);
    }
  }

  lemma {:induction false} PutAllOther(scores: ScoreMap, es: ScoreMap, k: string)
    requires !Assoc.HasKey(es, k)
    ensures Assoc.Lookup(PutAll(scores, es), k) == Assoc.Lookup(scores, k)
    decreases |es|
  {
    if es != [] {
      var prefix := es[..|es| - 1];
      var last := es[|es| - 1];
      Assoc.HasKeySnoc(es, k);
      PutAllOther(scores, prefix, k);
      Assoc.PutLookupOther(PutAll(scores, prefix), last.0, last.1, k);
    }
  }

  /** Every score, `overall` included, lies between `lo` and `hi`. */
  predicate AllWithin(scores: ScoreMap, lo: real, hi: real) {
    forall i | 0 <= i < |scores| :: lo <= scores[i].1 <= hi
  }

  /** Writing a score inside the bounds keeps every score inside them. */
  lemma {:induction false} PutWithin(scores: ScoreMap, k: string, v: real, lo: real, hi: real)
    requires AllWithin(scores, lo, hi) && lo <= v <= hi
    ensures AllWithin(Assoc.Put(scores, k, v), lo, hi)
  {
    if scores != [] && scores[0].0 != k {
      assert AllWithin(scores[1..], lo, hi) by {
        forall i | 0 <= i < |scores[1..]| ensures lo <= scores[1..][i].1 <= hi {
          assert scores[1..][i] == scores[i + 1];
        }
      }
      PutWithin(scores[1..], k, v, lo, hi);
      var r := Assoc.Put(scores, k, v);
      assert r == [scores[0]] + Assoc.Put(scores[1..], k, v);
      forall i | 0 <= i < |r| ensures lo <= r[i].1 <= hi {
        if i > 0 {
          assert r[i] == Assoc.Put(scores[1..], k, v)[i - 1];
        }
      }
    } else if scores != [] {
      var r := Assoc.Put(scores, k, v);
      forall i | 0 <= i < |r| ensures lo <= r[i].1 <= hi {
        if i > 0 {
          assert r[i] == scores[i];
        }
      }
    }
  }

  lemma {:induction false} PutAllWithin(scores: ScoreMap, es: ScoreMap, lo: real, hi: real)
    requires AllWithin(scores, lo, hi) && AllWithin(es, lo, hi)
    ensures AllWithin(PutAll(scores, es), lo, hi)
    decreases |es|
  {
    if es != [] {
      var prefix := es[..|es| - 1];
      assert AllWithin(prefix, lo, hi) by {
        forall i | 0 <= i < |prefix| ensures lo <= prefix[i].1 <= hi {
          assert prefix[i] == es[i];
        }
      }
      PutAllWithin(scores, prefix, lo, hi);
      PutWithin(PutAll(scores, prefix), es[|es| - 1].0, es[|es| - 1].1, lo, hi);
    }
  }

  /** The keys of the assembled map. */
  lemma AssembleKeys(accuracy: Option<real>, compliance: real, alignment: real, criteria: ScoreMap, coverage: Option<real>, k: string)
    ensures Assoc.HasKey(Assemble(accuracy, compliance, alignment, criteria, coverage), k) <==>
      k == "constraint_compliance" || k == "principle_alignment" || Assoc.HasKey(criteria, k)
      || (k == "accuracy" && accuracy.Some?) || (k == "case_coverage" && coverage.Some?)
  {
    var s1: ScoreMap := if accuracy.Some? then [("accuracy", accuracy.value)] else [];
    assert Assoc.Keys(s1) == if accuracy.Some? then ["accuracy"] else [];
    var s2 := Assoc.Put(s1, "constraint_compliance", compliance);
    Assoc.PutHasKey(s1, "constraint_compliance", compliance, k);
    var s3 := Assoc.Put(s2, "principle_alignment", alignment);
    Assoc.PutHasKey(s2, "principle_alignment", alignment, k);
    var s4 := PutAll(s3, criteria);
    PutAllKeys(s3, criteria, k);
    if coverage.Some? {
      Assoc.PutHasKey(s4, "case_coverage", coverage.value, k);
    }
  }

  /** With no criterion named like a standard metric, each standard metric holds its hook's value. */
  lemma AssembleValues(accuracy: Option<real>, compliance: real, alignment: real, criteria: ScoreMap, coverage: Option<real>)
    requires !Assoc.HasKey(criteria, "accuracy") && !Assoc.HasKey(criteria, "constraint_compliance")
    requires !Assoc.HasKey(criteria, "principle_alignment") && !Assoc.HasKey(criteria, "case_coverage")
    ensures var r := Assemble(accuracy, compliance, alignment, criteria, coverage);
      && Assoc.Lookup(r, "accuracy") == accuracy
      && Assoc.Lookup(r, "constraint_compliance") == Some(compliance)
      && Assoc.Lookup(r, "principle_alignment") == Some(alignment)
      && Assoc.Lookup(r, "case_coverage") == coverage
  {
    var s1: ScoreMap := if accuracy.Some? then [("accuracy", accuracy.value)] else [];
    var s2 := Assoc.Put(s1, "constraint_compliance", compliance);
    var s3 := Assoc.Put(s2, "principle_alignment", alignment);
    var s4 := PutAll(s3, criteria);
    assert Assoc.Lookup(s3, "accuracy") == accuracy by {
      Assoc.PutLookupOther(s1, "constraint_compliance", compliance, "accuracy");
      Assoc.PutLookupOther(s2, "principle_alignment", alignment, "accuracy");
    }
    assert Assoc.Lookup(s3, "constraint_compliance") == Some(compliance) by {
      Assoc.PutLookup(s1, "constraint_compliance", compliance);
      Assoc.PutLookupOther(s2, "principle_alignment", alignment, "constraint_compliance");
    }
    assert Assoc.Lookup(s3, "principle_alignment") == Some(alignment) by {
      Assoc.PutLookup(s2, "principle_alignment", alignment);
    }
    assert Assoc.Lookup(s3, "case_coverage") == None by {
      Assoc.PutLookupOther(s1, "constraint_compliance", compliance, "case_coverage");
      Assoc.PutLookupOther(s2, "principle_alignment", alignment, "case_coverage");
    }
    PutAllOther(s3, criteria, "accuracy");
    PutAllOther(s3, criteria, "constraint_compliance");
    PutAllOther(s3, criteria, "principle_alignment");
    PutAllOther(s3, criteria, "case_coverage");
    if coverage.Some? {
      Assoc.PutLookup(s4, "case_coverage", coverage.value);
      Assoc.PutLookupOther(s4, "case_coverage", coverage.value, "accuracy");
      Assoc.PutLookupOther(s4, "case_coverage", coverage.value, "constraint_compliance");
      Assoc.PutLookupOther(s4, "case_coverage", coverage.value, "principle_alignment");
    }
  }

  lemma AssembleWithin(accuracy: Option<real>, compliance: real, alignment: real, criteria: ScoreMap, coverage: Option<real>, lo: real, hi: real)
    requires accuracy.Some? ==> lo <= accuracy.value <= hi
    requires lo <= compliance <= hi && lo <= alignment <= hi && AllWithin(criteria, lo, hi)
    requires coverage.Some? ==> lo <= coverage.value <= hi
    ensures AllWithin(Assemble(accuracy, compliance, alignment, criteria, coverage), lo, hi)
  {
    var s1: ScoreMap := if accuracy.Some? then [("accuracy", accuracy.value)] else [];
    var s2 := Assoc.Put(s1, "constraint_compliance", compliance);
    PutWithin(s1, "constraint_compliance", compliance, lo, hi);
    var s3 := Assoc.Put(s2, "principle_alignment", alignment);
    PutWithin(s2, "principle_alignment", alignment, lo, hi);
    var s4 := PutAll(s3, criteria);
    PutAllWithin(s3, criteria, lo, hi);
    if coverage.Some? {
      PutWithin(s4, "case_coverage", coverage.value, lo, hi);
    }
  }

  predicate NamesCriterion(criteria: seq<QualityCriterion>, k: string) {
    exists i | 0 <= i < |criteria| :: criteria[i].name == k
  }

  lemma CriterionEntriesKeys(ev: Evaluator, response: string, criteria: seq<QualityCriterion>, k: string)
    ensures Assoc.HasKey(CriterionEntries(ev, response, criteria), k) <==> NamesCriterion(criteria, k)
  {
    var es := CriterionEntries(ev, response, criteria);
    if NamesCriterion(criteria, k) {
      var i :| 0 <= i < |criteria| && criteria[i].name == k;
      assert Assoc.Keys(es)[i] == k;
    }
    if Assoc.HasKey(es, k) {
      var i :| 0 <= i < |Assoc.Keys(es)| && Assoc.Keys(es)[i] == k;
      assert criteria[i].name == k;
    }
  }

  /**
   * The keys of `evaluate`: `constraint_compliance`, `principle_alignment`,
   * every criterion name and `overall` always; `accuracy` exactly with a
   * ground truth and `case_coverage` exactly with a matching case (unless a
   * criterion carries that name).
   */
  lemma EvaluationKeys(ev: Evaluator, response: string, groundTruth: string, question: string, k: string)
    ensures var r := Evaluation(ev, response, groundTruth, question);
      Assoc.HasKey(r, k) <==>
        k == "overall" || k == "constraint_compliance" || k == "principle_alignment"
        || NamesCriterion(ev.config.knowledge.qualityCriteria, k)
        || (k == "accuracy" && groundTruth != [])
        || (k == "case_coverage" && question != [] && MatchingCases(Lower(question), AllCases(ev.config.caseLibrary)) != [])
  {
    var es := CriterionEntries(ev, response, ev.config.knowledge.qualityCriteria);
    var acc := if groundTruth != [] then Some(CheckAccuracy(ev, response, groundTruth)) else None;
    var cov := CaseCoverage(ev, response, question);
    AssembleKeys(acc, ConstraintCompliance(ev, response), PrincipleAlignment(ev, response), es, cov, k);
    CriterionEntriesKeys(ev, response, ev.config.knowledge.qualityCriteria, k);
    var partial := PartialScores(ev, response, groundTruth, question);
    Assoc.PutHasKey(partial, "overall", WeightedScore(partial, ev.config.knowledge.qualityCriteria), k);
  }

  /** `overall` is the weighted score of everything computed before it. */
  lemma EvaluationOverall(ev: Evaluator, response: string, groundTruth: string, question: string)
    ensures Assoc.Lookup(Evaluation(ev, response, groundTruth, question), "overall")
         == Some(WeightedScore(PartialScores(ev, response, groundTruth, question), ev.config.knowledge.qualityCriteria))
  {
    var partial := PartialScores(ev, response, groundTruth, question);
    Assoc.PutLookup(partial, "overall", WeightedScore(partial, ev.config.knowledge.qualityCriteria));
  }

  /** Unless a criterion is named like them, the standard metrics hold the hooks' results. */
  lemma EvaluationStandardValues(ev: Evaluator, response: string, groundTruth: string, question: string)
    requires !NamesCriterion(ev.config.knowledge.qualityCriteria, "accuracy")
    requires !NamesCriterion(ev.config.knowledge.qualityCriteria, "constraint_compliance")
    requires !NamesCriterion(ev.config.knowledge.qualityCriteria, "principle_alignment")
    requires !NamesCriterion(ev.config.knowledge.qualityCriteria, "case_coverage")
    ensures var r := Evaluation(ev, response, groundTruth, question);
      && (groundTruth != [] ==> Assoc.Lookup(r, "accuracy") == Some(CheckAccuracy(ev, response, groundTruth)))
      && (groundTruth == [] ==> Assoc.Lookup(r, "accuracy") == None)
      && Assoc.Lookup(r, "constraint_compliance") == Some(ConstraintCompliance(ev, response))
      && Assoc.Lookup(r, "principle_alignment") == Some(PrincipleAlignment(ev, response))
      && Assoc.Lookup(r, "case_coverage") == CaseCoverage(ev, response, question)
  {
    var criteria := ev.config.knowledge.qualityCriteria;
    var es := CriterionEntries(ev, response, criteria);
    var acc := if groundTruth != [] then Some(CheckAccuracy(ev, response, groundTruth)) else None;
    CriterionEntriesKeys(ev, response, criteria, "accuracy");
    CriterionEntriesKeys(ev, response, criteria, "constraint_compliance");
    CriterionEntriesKeys(ev, response, criteria, "principle_alignment");
    CriterionEntriesKeys(ev, response, criteria, "case_coverage");
    AssembleValues(acc, ConstraintCompliance(ev, response), PrincipleAlignment(ev, response), es, CaseCoverage(ev, response, question));
    var partial := PartialScores(ev, response, groundTruth, question);
    var ov := WeightedScore(partial, criteria);
    Assoc.PutLookupOther(partial, "overall", ov, "accuracy");
    Assoc.PutLookupOther(partial, "overall", ov, "constraint_compliance");
    Assoc.PutLookupOther(partial, "overall", ov, "principle_alignment");
    Assoc.PutLookupOther(partial, "overall", ov, "case_coverage");
  }

  /** For the medical evaluator with non-negative weights, every score and `overall` lie in [0,1]. */
  lemma MedicalScoresUnit(ev: Evaluator, response: string, groundTruth: string, question: string)
    requires ev.strategy == MedicalStrategy
    requires NonNegativeWeights(ev.config.knowledge.qualityCriteria)
    ensures AllWithin(Evaluation(ev, response, groundTruth, question), 0.0, 1.0)
  {
    var criteria := ev.config.knowledge.qualityCriteria;
    var es := CriterionEntries(ev, response, criteria);
    assert AllWithin(es, 0.0, 1.0);
    var acc := if groundTruth != [] then Some(CheckAccuracy(ev, response, groundTruth)) else None;
    AssembleWithin(acc, ConstraintCompliance(ev, response), PrincipleAlignment(ev, response), es, CaseCoverage(ev, response, question), 0.0, 1.0);
    var partial := PartialScores(ev, response, groundTruth, question);
    assert ScoresWithin(partial, 0.0, 1.0);
    var ov := WeightedScore(partial, criteria);
    WeightedScoreUnit(partial, criteria);
    PutWithin(partial, "overall", ov, 0.0, 1.0);
  }
}
