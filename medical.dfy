/**
 * `MedicalDomainEvaluator`: the fixed pattern tables, the regular
 * expressions, decided as predicates, and the medical overrides of the evaluator hooks.
 */
module Medical {
  import opened Text
  import opened Knowledge

  /** `DANGEROUS_PATTERNS`: each `A.*B` as the pair `(A, B)`. */
  const DangerousPatterns: seq<(string, string)> := [
    ("반드시", "복용"), ("무조건", "먹"), ("확실히", "병"), ("틀림없이", "진단"),
    ("100%", "효과"), ("부작용", "없"), ("안전", "보장")]

  const SafetyKeywords: seq<string> := ["전문의", "의사", "상담", "진료", "검사", "주의", "확인", "모니터링", "관찰"]

  const EmergencyKeywords: seq<string> := ["응급", "즉시", "119", "응급실", "긴급"]

  const EvidenceKeywords: seq<string> := ["연구", "임상", "가이드라인", "권고", "근거", "논문", "메타분석", "체계적 고찰"]

  // ---------------------------------------------------------------------
  // The regular expression `A.*B` without DOTALL: `.` is any character but '\n'.

  /** No newline in `s[lo..hi]`. */
  predicate NoNewlineBetween(s: string, lo: int, hi: int) {
    forall k | lo <= k < hi && 0 <= k < |s| :: s[k] != '\n'
  }

  predicate NoNewline(s: string) {
    NoNewlineBetween(s, 0, |s|)
  }

  /** The regex matches with `A` at `i` and `B` at `j`. */
  predicate DotStarMatchAt(s: string, a: string, b: string, i: int, j: int) {
    OccursAt(s, a, i) && i + |a| <= j && OccursAt(s, b, j) && NoNewlineBetween(s, i + |a|, j)
  }

  /** `re.search("A.*B", s)` succeeds: `A` occurs, and `B` occurs after it on the same line. */
  predicate DotStarSearch(s: string, a: string, b: string) {
    exists i, j | 0 <= i <= j <= |s| :: DotStarMatchAt(s, a, b, i, j)
  }

  /** The end of the line that contains position `p`. */
  function LineEnd(s: string, p: int): (e: int)
    requires 0 <= p <= |s|
    ensures p <= e <= |s|
    ensures NoNewlineBetween(s, p, e)
    ensures e < |s| ==> s[e] == '\n'
    decreases |s| - p
  {
    if p == |s| || s[p] == '\n' then p else LineEnd(s, p + 1)
  }

  /**
   * A left-to-right scanner for `A.*B`: try `A` at each start `i` onwards,
   * then look for `B` in the rest of that line.
   */
  function DotStarScanFrom(s: string, a: string, b: string, i: int): bool
    requires 0 <= i <= |s|
    decreases |s| - i
  {
    if i + |a| > |s| then false
    else
      (OccursAt(s, a, i) && Contains(s[i + |a|..LineEnd(s, i + |a|)], b))
      || (i < |s| && DotStarScanFrom(s, a, b, i + 1))
  }

  function DotStarScan(s: string, a: string, b: string): bool {
    DotStarScanFrom(s, a, b, 0)
  }

  /** An occurrence in a slice is an occurrence in the whole string, shifted. */
  lemma SliceOccurs(s: string, b: string, p: int, e: int, k: int)
    requires 0 <= p <= e <= |s|
    ensures OccursAt(s[p..e], b, k) <==> 0 <= k && p + k + |b| <= e && OccursAt(s, b, p + k)
  {
    if 0 <= k && p + k + |b| <= e {
      var x, y := s[p..e][k..k + |b|], s[p + k..p + k + |b|];
      forall t | 0 <= t < |b| ensures x[t] == y[t] {
        assert s[p..e][k + t] == s[p + k + t];
      }
      assert x == y;
    }
  }

  /** `B` occurs in the rest of the line from `p` exactly when it occurs at some `j` with no newline in between. */
  lemma RestOfLineContains(s: string, b: string, p: int)
    requires 0 <= p <= |s| && NoNewline(b)
    ensures Contains(s[p..LineEnd(s, p)], b)
        <==> exists j | p <= j <= |s| :: OccursAt(s, b, j) && NoNewlineBetween(s, p, j)
  {
    var e := LineEnd(s, p);
    if Contains(s[p..e], b) {
      var k :| 0 <= k <= |s[p..e]| - |b| && OccursAt(s[p..e], b, k);
      SliceOccurs(s, b, p, e, k);
      assert OccursAt(s, b, p + k) && NoNewlineBetween(s, p, p + k);
    }
    if exists j | p <= j <= |s| :: OccursAt(s, b, j) && NoNewlineBetween(s, p, j) {
      var j :| p <= j <= |s| && OccursAt(s, b, j) && NoNewlineBetween(s, p, j);
      SliceOccurs(s, b, p, e, j - p);
      assert OccursAt(s[p..e], b, j - p);
    }
  }

  /** The scanner from `i` finds exactly the matches whose `A` starts at `i` or later. */
  lemma DotStarScanFromCorrect(s: string, a: string, b: string, i: int)
    requires 0 <= i <= |s| && NoNewline(b)
    ensures DotStarScanFrom(s, a, b, i) <==> exists i', j | i <= i' <= j <= |s| :: DotStarMatchAt(s, a, b, i', j)
  {
    DotStarScanFromSound(s, a, b, i);
    DotStarScanFromComplete(s, a, b, i);
  }

  lemma {:induction false} DotStarScanFromSound(s: string, a: string, b: string, i: int)
    requires 0 <= i <= |s| && NoNewline(b)
    ensures DotStarScanFrom(s, a, b, i) ==> exists i', j | i <= i' <= j <= |s| :: DotStarMatchAt(s, a, b, i', j)
    decreases |s| - i
  {
    if i + |a| <= |s| {
      if OccursAt(s, a, i) && Contains(s[i + |a|..LineEnd(s, i + |a|)], b) {
        RestOfLineContains(s, b, i + |a|);
        var j :| i + |a| <= j <= |s| && OccursAt(s, b, j) && NoNewlineBetween(s, i + |a|, j);
        assert DotStarMatchAt(s, a, b, i, j);
      } else if i < |s| {
        DotStarScanFromSound(s, a, b, i + 1);
      }
    }
  }

  lemma {:induction false} DotStarScanFromComplete(s: string, a: string, b: string, i: int)
    requires 0 <= i <= |s| && NoNewline(b)
    ensures (exists i', j | i <= i' <= j <= |s| :: DotStarMatchAt(s, a, b, i', j)) ==> DotStarScanFrom(s, a, b, i)
    decreases |s| - i
  {
    if exists i', j | i <= i' <= j <= |s| :: DotStarMatchAt(s, a, b, i', j) {
      var i', j :| i <= i' <= j <= |s| && DotStarMatchAt(s, a, b, i', j);
      if i' == i {
        MatchHereScans(s, a, b, i, j);
      } else {
        DotStarScanFromComplete(s, a, b, i + 1);
        assert i + 1 <= i' <= j <= |s| && DotStarMatchAt(s, a, b, i', j);
      }
    }
  }

  /** A match whose `A` starts at `i` is found by the scan from `i`. */
  lemma MatchHereScans(s: string, a: string, b: string, i: int, j: int)
    requires 0 <= i <= j <= |s| && NoNewline(b) && DotStarMatchAt(s, a, b, i, j)
    ensures DotStarScanFrom(s, a, b, i)
  {
    RestOfLineContains(s, b, i + |a|);
    assert OccursAt(s, b, j) && NoNewlineBetween(s, i + |a|, j);
  }

  /** The scanner decides exactly the regex semantics (for a `B` without newlines, as in every pattern of the table). */
  lemma DotStarScanCorrect(s: string, a: string, b: string)
    requires NoNewline(b)
    ensures DotStarScan(s, a, b) <==> DotStarSearch(s, a, b)
  {
    DotStarScanFromCorrect(s, a, b, 0);
  }

  /** Every pattern of the table has a newline-free second half. */
  lemma DangerousPatternsLineLocal(k: nat)
    requires k < |DangerousPatterns|
    ensures NoNewline(DangerousPatterns[k].1)
  {
  }

  /** `sum(1 for p in self._dangerous_patterns if p.search(s))`. */
  function CountDangerous(s: string, patterns: seq<(string, string)>): (n: nat)
    ensures n <= |patterns|
  {
    if patterns == [] then 0
    else (if DotStarScan(s, patterns[0].0, patterns[0].1) then 1 else 0) + CountDangerous(s, patterns[1..])
  }

  // ---------------------------------------------------------------------
  // Other fixed regular expressions.

  /** `re.search(r"입니다\s*\.", s)`: after some "입니다" the first non-whitespace character is a period. */
  predicate PeriodAfterStatement(s: string) {
    exists i | 0 <= i <= |s| - 3 :: OccursAt(s, "입니다", i)
      && var t := s[i + 3..]; SpaceLength(t) < |t| && t[SpaceLength(t)] == '.'
  }

  /** The four `diagnosis_patterns`: a definitive-diagnosis phrasing. */
  predicate DefinitiveDiagnosis(s: string) {
    PeriodAfterStatement(s) || Contains(s, "확실합니다") || Contains(s, "틀림없이") || DotStarScan(s, "분명히", "병")
  }

  const DosageUnits: seq<string> := ["mg", "ml", "정", "알", "캡슐"]

  /** `\d+\s*(mg|ml|정|알|캡슐)` matches with its digit run ending at `j`. */
  predicate DosageAt(s: string, j: int) {
    0 < j <= |s| && IsDigit(s[j - 1])
      && var t := s[j..]; exists u | u in DosageUnits :: StartsWith(t[SpaceLength(t)..], u)
  }

  predicate HasDosage(s: string) {
    exists j | 0 < j <= |s| :: DosageAt(s, j)
  }

  /** Number of leading digits. */
  function DigitRun(s: string): (n: nat)
    ensures n <= |s|
    ensures forall k | 0 <= k < n :: IsDigit(s[k])
    ensures n < |s| ==> !IsDigit(s[n])
  {
    if s == [] || !IsDigit(s[0]) then 0 else 1 + DigitRun(s[1..])
  }

  /** `re.findall(r'\d+(?:\.\d+)?', s)`: the numbers of `s`, left to right. */
  function Numbers(s: string): (ns: seq<string>)
    ensures forall n | n in ns :: n != [] && IsDigit(n[0])
    decreases |s|
  {
    if s == [] then []
    else if !IsDigit(s[0]) then Numbers(s[1..])
    else
      var n := DigitRun(s);
      var m := if n + 1 < |s| && s[n] == '.' && IsDigit(s[n + 1]) then n + 1 + DigitRun(s[n + 1..]) else n;
      [s[..m]] + Numbers(s[m..])
  }

  /** `_contains_key_elements`: some number of the ground truth is also a number of the response. */
  predicate ContainsKeyElements(response: string, groundTruth: string) {
    exists n | n in Numbers(groundTruth) :: n in Numbers(response)
  }

  // ---------------------------------------------------------------------
  // Accuracy.

  /** The fraction of ground-truth words that the response also uses. */
  function WordOverlap(response: string, groundTruth: string): (f: real)
    requires |WordSet(Lower(groundTruth))| > 0
    ensures 0.0 <= f <= 1.0
  {
    var truthWords := WordSet(Lower(groundTruth));
    var responseWords := WordSet(Lower(response));
    var shared := truthWords * responseWords;
    SubsetCard(shared, truthWords);
    FractionAtMostOne(|shared|, |truthWords|);
    (|shared| as real) / (|truthWords| as real)
  }

  lemma SubsetCard<T>(a: set<T>, b: set<T>)
    requires a <= b
    ensures |a| <= |b|
  {
    if a != {} {
      var x :| x in a;
      SubsetCard(a - {x}, b - {x});
    }
  }

  /**
   * `check_accuracy`: 0.5 without a ground truth or with one of no words,
   * else the word overlap, raised by 0.2 (capped at 1.0) when a ground-truth
   * number reappears in the response.
   */
  function CheckAccuracy(response: string, groundTruth: string): (r: real)
    ensures 0.0 <= r <= 1.0
    ensures groundTruth == [] || |WordSet(Lower(groundTruth))| == 0 ==> r == 0.5
    ensures groundTruth != [] && |WordSet(Lower(groundTruth))| > 0 ==>
      WordOverlap(response, groundTruth) <= r <= WordOverlap(response, groundTruth) + 0.2
    ensures groundTruth != [] && |WordSet(Lower(groundTruth))| > 0 && !ContainsKeyElements(response, groundTruth) ==>
      r == WordOverlap(response, groundTruth)
  {
    if groundTruth == [] then 0.5
    else if |WordSet(Lower(groundTruth))| == 0 then 0.5
    else
      var base := WordOverlap(response, groundTruth);
      if ContainsKeyElements(response, groundTruth) then Min(1.0, base + 0.2) else base
  }

  // ---------------------------------------------------------------------
  // Constraints.

  const Qualifiers: seq<string> := ["권장", "일반적", "보통", "의사", "처방"]

  const ConsultationKeywords: seq<string> := ["의사", "전문의", "상담", "진료", "병원"]

  predicate DiagnosisTrigger(c: string) { Contains(c, "확정 진단") || Contains(c, "진단 금지") }

  predicate DosageTrigger(c: string) { Contains(c, "용량") }

  predicate ConsultationTrigger(c: string) { Contains(c, "전문가 상담") || Contains(c, "의사 확인") }

  /** `_violates_medical_constraint`: the three checks, in source order; any one firing is a violation. */
  predicate ViolatesMedicalConstraint(response: string, constraint: string) {
    var r := Lower(response);
    var c := Lower(constraint);
    (DiagnosisTrigger(c) && DefinitiveDiagnosis(r))
    || (DosageTrigger(c) && HasDosage(r) && !ContainsAny(r, Qualifiers))
    || (ConsultationTrigger(c) && !ContainsAny(r, ConsultationKeywords))
  }

  /** A constraint that mentions none of the trigger phrases is never violated. */
  lemma UntriggeredNeverViolated(response: string, constraint: string)
    requires !DiagnosisTrigger(Lower(constraint)) && !DosageTrigger(Lower(constraint))
    requires !ConsultationTrigger(Lower(constraint))
    ensures !ViolatesMedicalConstraint(response, constraint)
  {
  }

  function CountViolated(response: string, constraints: seq<string>): (n: nat)
    ensures n <= |constraints|
  {
    if constraints == [] then 0
    else (if ViolatesMedicalConstraint(response, constraints[0]) then 1 else 0) + CountViolated(response, constraints[1..])
  }

  /** The medical `check_constraints` score: every pattern and every constraint is one check. */
  function ConstraintScore(response: string, constraints: seq<string>): (r: real)
    ensures 0.0 <= r <= 1.0
    ensures r == 1.0 <==> CountDangerous(response, DangerousPatterns) == 0 && CountViolated(response, constraints) == 0
    ensures r == 0.0 <==> CountDangerous(response, DangerousPatterns) == |DangerousPatterns|
                          && CountViolated(response, constraints) == |constraints|
  {
    var violations := CountDangerous(response, DangerousPatterns) + CountViolated(response, constraints);
    var total := |DangerousPatterns| + |constraints|;
    FractionAtMostOne(violations, total);
    FractionExtremes(violations, total);
    Max(0.0, 1.0 - (violations as real) / (total as real))
  }

  /** A count out of a positive total is the whole exactly when it is all of them, and nothing exactly when it is none. */
  lemma FractionExtremes(v: nat, t: nat)
    requires 0 < t && v <= t
    ensures (v as real) / (t as real) == 1.0 <==> v == t
    ensures (v as real) / (t as real) == 0.0 <==> v == 0
  {
    var q := (v as real) / (t as real);
    assert q * (t as real) == v as real;
  }

  lemma FractionAtMostOne(v: nat, t: nat)
    requires 0 < t && v <= t
    ensures 0.0 <= (v as real) / (t as real) <= 1.0
  {
    FractionAtMostOneReal(v as real, t as real);
  }

  lemma FractionAtMostOneReal(v: real, t: real)
    requires 0.0 < t && 0.0 <= v <= t
    ensures 0.0 <= v / t <= 1.0
  {
    var q := v / t;
    assert q * t == v;
  }

  /**
   * `check_constraints`. The source returns 1.0 when there are no checks;
   * with seven fixed patterns that branch cannot be taken.
   */
  method CheckConstraints(response: string, constraints: seq<string>) returns (r: real)
    ensures r == ConstraintScore(response, constraints)
  {
    var violations := 0;
    var totalChecks := |DangerousPatterns| + |constraints|;
    var i := 0;
    while i < |DangerousPatterns|
      invariant 0 <= i <= |DangerousPatterns|
      invariant violations == CountDangerous(response, DangerousPatterns[..i])
    {
      CountDangerousSnoc(response, DangerousPatterns[..i], DangerousPatterns[i]);
      assert DangerousPatterns[..i + 1] == DangerousPatterns[..i] + [DangerousPatterns[i]];
      if DotStarScan(response, DangerousPatterns[i].0, DangerousPatterns[i].1) {
        violations := violations + 1;
      }
      i := i + 1;
    }
    assert DangerousPatterns[..i] == DangerousPatterns;
    var j := 0;
    while j < |constraints|
      invariant 0 <= j <= |constraints|
      invariant violations == CountDangerous(response, DangerousPatterns) + CountViolated(response, constraints[..j])
    {
      CountViolatedSnoc(response, constraints[..j], constraints[j]);
      assert constraints[..j + 1] == constraints[..j] + [constraints[j]];
      if ViolatesMedicalConstraint(response, constraints[j]) {
        violations := violations + 1;
      }
      j := j + 1;
    }
    assert constraints[..j] == constraints;
    r := Max(0.0, 1.0 - (violations as real) / (totalChecks as real));
  }

  lemma {:induction false} CountDangerousSnoc(s: string, ps: seq<(string, string)>, p: (string, string))
    ensures CountDangerous(s, ps + [p]) == CountDangerous(s, ps) + (if DotStarScan(s, p.0, p.1) then 1 else 0)
  {
    if ps != [] {
      assert (ps + [p])[1..] == ps[1..] + [p];
      CountDangerousSnoc(s, ps[1..], p);
    } else {
      assert (ps + [p])[1..] == [];
    }
  }

  lemma {:induction false} CountViolatedSnoc(s: string, cs: seq<string>, c: string)
    ensures CountViolated(s, cs + [c]) == CountViolated(s, cs) + (if ViolatesMedicalConstraint(s, c) then 1 else 0)
  {
    if cs != [] {
      assert (cs + [c])[1..] == cs[1..] + [c];
      CountViolatedSnoc(s, cs[1..], c);
    } else {
      assert (cs + [c])[1..] == [];
    }
  }

  // ---------------------------------------------------------------------
  // Principles.

  const EmergencyContext: seq<string> := ["통증", "출혈", "호흡", "의식"]

  /** `_check_default_medical_principles`: 0.5 plus the safety, evidence and emergency bonuses. */
  function DefaultPrinciplesScore(response: string): (r: real)
    ensures 0.5 <= r <= 1.0
    ensures var s := Lower(response);
      r == 1.0 <==> ContainsAny(s, SafetyKeywords) && ContainsAny(s, EvidenceKeywords)
                    && ContainsAny(s, EmergencyContext) && ContainsAny(s, EmergencyKeywords)
    ensures var s := Lower(response);
      r == 0.5 <==> !ContainsAny(s, SafetyKeywords) && !ContainsAny(s, EvidenceKeywords)
                    && !(ContainsAny(s, EmergencyContext) && ContainsAny(s, EmergencyKeywords))
  {
    var s := Lower(response);
    var score := 0.5;
    var score := if ContainsAny(s, SafetyKeywords) then score + 0.2 else score;
    var score := if ContainsAny(s, EvidenceKeywords) then score + 0.15 else score;
    var score := if ContainsAny(s, EmergencyContext) && ContainsAny(s, EmergencyKeywords) then score + 0.15 else score;
    Min(1.0, score)
  }

  const DifferentialKeywords: seq<string> := ["가능성", "고려", "배제", "확인"]

  const InteractionKeywords: seq<string> := ["복용", "병용", "주의", "금기"]

  /** The principle category decided by the first matching test, in source order. */
  datatype PrincipleKind = SafetyPrinciple | EvidencePrinciple | DifferentialPrinciple | DrugPrinciple | OtherPrinciple

  function PrincipleKindOf(principle: string): PrincipleKind {
    var p := Lower(principle);
    if Contains(p, "안전") || Contains(p, "환자") then SafetyPrinciple
    else if Contains(p, "근거") || Contains(p, "evidence") then EvidencePrinciple
    else if Contains(p, "감별") || Contains(p, "진단") then DifferentialPrinciple
    else if Contains(p, "약물") || Contains(p, "상호작용") then DrugPrinciple
    else OtherPrinciple
  }

  /** `_aligns_with_medical_principle`: the category's keyword family must occur; other principles are aligned. */
  predicate AlignsWithMedicalPrinciple(response: string, principle: string) {
    var r := Lower(response);
    match PrincipleKindOf(principle)
    case SafetyPrinciple => ContainsAny(r, SafetyKeywords)
    case EvidencePrinciple => ContainsAny(r, EvidenceKeywords)
    case DifferentialPrinciple => ContainsAny(r, DifferentialKeywords)
    case DrugPrinciple => ContainsAny(r, InteractionKeywords)
    case OtherPrinciple => true
  }

  function CountAligned(response: string, principles: seq<string>): (n: nat)
    ensures n <= |principles|
  {
    if principles == [] then 0
    else (if AlignsWithMedicalPrinciple(response, principles[0]) then 1 else 0) + CountAligned(response, principles[1..])
  }

  lemma {:induction false} CountAlignedSnoc(s: string, ps: seq<string>, p: string)
    ensures CountAligned(s, ps + [p]) == CountAligned(s, ps) + (if AlignsWithMedicalPrinciple(s, p) then 1 else 0)
  {
    if ps != [] {
      assert (ps + [p])[1..] == ps[1..] + [p];
      CountAlignedSnoc(s, ps[1..], p);
    } else {
      assert (ps + [p])[1..] == [];
    }
  }

  /** The medical `check_principles` score. */
  function PrincipleScore(response: string, principles: seq<string>): (r: real)
    ensures 0.0 <= r <= 1.0
    ensures principles == [] ==> r == DefaultPrinciplesScore(response)
    ensures principles != [] ==> (r == 1.0 <==> CountAligned(response, principles) == |principles|)
    ensures principles != [] ==> (r == 0.0 <==> CountAligned(response, principles) == 0)
  {
    if principles == [] then DefaultPrinciplesScore(response)
    else
      FractionAtMostOne(CountAligned(response, principles), |principles|);
      FractionExtremes(CountAligned(response, principles), |principles|);
      (CountAligned(response, principles) as real) / (|principles| as real)
  }

  /** `check_principles`. */
  method CheckPrinciples(response: string, principles: seq<string>) returns (r: real)
    ensures r == PrincipleScore(response, principles)
  {
    if |principles| == 0 {
      return DefaultPrinciplesScore(response);
    }
    var aligned := 0;
    var i := 0;
    while i < |principles|
      invariant 0 <= i <= |principles|
      invariant aligned == CountAligned(response, principles[..i])
    {
      CountAlignedSnoc(response, principles[..i], principles[i]);
      assert principles[..i + 1] == principles[..i] + [principles[i]];
      if AlignsWithMedicalPrinciple(response, principles[i]) {
        aligned := aligned + 1;
      }
      i := i + 1;
    }
    assert principles[..i] == principles;
    r := (aligned as real) / (|principles| as real);
  }

  /** Principles that name no recognised category are all aligned, so they score 1.0. */
  lemma {:induction false} UnrecognisedPrinciplesAligned(response: string, principles: seq<string>)
    requires forall k | 0 <= k < |principles| :: PrincipleKindOf(principles[k]) == OtherPrinciple
    ensures CountAligned(response, principles) == |principles|
  {
    if principles != [] {
      UnrecognisedPrinciplesAligned(response, principles[1..]);
    }
  }

  // ---------------------------------------------------------------------
  // Quality criteria.

  /** `_evaluate_safety` on a lowercased response: 0.5, up to 0.3 for safety words, 0.2 off per dangerous pattern, 0.1 for a caveat. */
  function SafetyScore(s: string): (r: real)
    ensures 0.0 <= r <= 1.0
  {
    var score := 0.5;
    var score := score + Min(0.3, 0.1 * CountPresent(s, SafetyKeywords) as real);
    var score := score - 0.2 * CountDangerous(s, DangerousPatterns) as real;
    var score := if ContainsAny(s, CaveatKeywords) then score + 0.1 else score;
    Clamp01(score)
  }

  /** Without a dangerous pattern the safety score never falls below its 0.5 start. */
  lemma SafeResponseAtLeastHalf(s: string)
    requires CountDangerous(s, DangerousPatterns) == 0
    ensures SafetyScore(s) >= 0.5
  {
  }

  /** A response matching three or more dangerous patterns and no caveat scores at most 0.2. */
  lemma DangerousResponseLow(s: string)
    requires CountDangerous(s, DangerousPatterns) >= 3 && !ContainsAny(s, CaveatKeywords)
    ensures SafetyScore(s) <= 0.2
  {
  }

  const CaveatKeywords: seq<string> := ["다만", "그러나", "주의", "제한", "예외"]

  const HedgingKeywords: seq<string> := ["가능성", "일반적으로", "연구에 따르면", "권고"]

  /** `_evaluate_evidence_basis` on a lowercased response: never above 0.3 + 0.4 + 0.3. */
  function EvidenceScore(s: string): (r: real)
    ensures 0.3 <= r <= 1.0
  {
    var evidence := Min(0.4, 0.1 * CountPresent(s, EvidenceKeywords) as real);
    var hedging := Min(0.3, 0.1 * CountPresent(s, HedgingKeywords) as real);
    CappedSum(0.3, evidence, 0.4, hedging, 0.3);
    Min(1.0, 0.3 + evidence + hedging)
  }

  /** A base plus two non-negative bonuses, each capped, stays within base plus the caps. */
  lemma CappedSum(base: real, x: real, xCap: real, y: real, yCap: real)
    requires 0.0 <= x <= xCap && 0.0 <= y <= yCap && base + xCap + yCap <= 1.0
    ensures base <= base + x + y <= 1.0
    ensures Min(1.0, base + x + y) == base + x + y
  {
  }

  const StructureMarkers: seq<string> := ["첫째", "둘째", "1.", "2.", "•", "-", "다음으로"]

  const ConclusionMarkers: seq<string> := ["따라서", "결론적으로", "요약하면", "정리하면"]

  /** `sum(len(s.split()) for s in sentences)`. */
  function TotalWords(sentences: seq<string>): nat {
    if sentences == [] then 0 else |Words(sentences[0])| + TotalWords(sentences[1..])
  }

  /** Mean number of words per '.'-separated piece; `split('.')` always yields a piece. */
  function AverageSentenceLength(response: string): real {
    var sentences := SplitOn(response, '.');
    (TotalWords(sentences) as real) / (|sentences| as real)
  }

  /** `_evaluate_clarity` on the original response. */
  function ClarityScore(response: string): (r: real)
    ensures 0.3 <= r <= 1.0
    ensures var avg := AverageSentenceLength(response);
      r == 1.0 <==> 10.0 <= avg <= 25.0 && ContainsAny(response, StructureMarkers) && ContainsAny(response, ConclusionMarkers)
    ensures var avg := AverageSentenceLength(response);
      r == 0.3 <==> avg > 40.0 && !ContainsAny(response, StructureMarkers) && !ContainsAny(response, ConclusionMarkers)
  {
    var avg := AverageSentenceLength(response);
    var score := 0.5;
    var score := if 10.0 <= avg <= 25.0 then score + 0.2 else if avg > 40.0 then score - 0.2 else score;
    var score := if ContainsAny(response, StructureMarkers) then score + 0.2 else score;
    var score := if ContainsAny(response, ConclusionMarkers) then score + 0.1 else score;
    Min(1.0, Max(0.0, score))
  }

  /** The five `coverage_aspects` and their keyword families. */
  const CoverageAspects: seq<(string, seq<string>)> := [
    ("원인", ["원인", "이유", "때문"]),
    ("증상", ["증상", "징후", "나타"]),
    ("치료", ["치료", "처치", "관리"]),
    ("예방", ["예방", "방지", "피하"]),
    ("주의사항", ["주의", "조심", "금기"])]

  function CoveredAspects(s: string, aspects: seq<(string, seq<string>)>): (k: nat)
    ensures k <= |aspects|
  {
    if aspects == [] then 0
    else (if ContainsAny(s, aspects[0].1) then 1 else 0) + CoveredAspects(s, aspects[1..])
  }

  lemma {:induction false} CoveredAspectsSnoc(s: string, xs: seq<(string, seq<string>)>, x: (string, seq<string>))
    ensures CoveredAspects(s, xs + [x]) == CoveredAspects(s, xs) + (if ContainsAny(s, x.1) then 1 else 0)
  {
    if xs != [] {
      assert (xs + [x])[1..] == xs[1..] + [x];
      CoveredAspectsSnoc(s, xs[1..], x);
    } else {
      assert (xs + [x])[1..] == [];
    }
  }

  /** `_evaluate_completeness`: 0.3 plus 0.14 per covered aspect, at most five, capped at 1.0. */
  function CompletenessScore(s: string): (r: real)
    ensures 0.3 <= r <= 1.0
    ensures r == 0.3 <==> CoveredAspects(s, CoverageAspects) == 0
    ensures r == 1.0 <==> CoveredAspects(s, CoverageAspects) == |CoverageAspects|
  {
    Min(1.0, 0.3 + 0.14 * CoveredAspects(s, CoverageAspects) as real)
  }

  /** `_evaluate_completeness` as the source writes it: a loop adding 0.14 per covered aspect. */
  method EvaluateCompleteness(s: string) returns (r: real)
    ensures r == CompletenessScore(s)
  {
    var score := 0.3;
    var i := 0;
    while i < |CoverageAspects|
      invariant 0 <= i <= |CoverageAspects|
      invariant score == 0.3 + 0.14 * CoveredAspects(s, CoverageAspects[..i]) as real
    {
      CoveredAspectsSnoc(s, CoverageAspects[..i], CoverageAspects[i]);
      assert CoverageAspects[..i + 1] == CoverageAspects[..i] + [CoverageAspects[i]];
      if ContainsAny(s, CoverageAspects[i].1) {
        score := score + 0.14;
      }
      i := i + 1;
    }
    assert CoverageAspects[..i] == CoverageAspects;
    r := Min(1.0, score);
  }

  const EmpathyIndicators: seq<string> := ["이해합니다", "걱정되시", "불안하시", "힘드시", "도움", "함께", "천천히", "괜찮"]

  const PatientCentered: seq<string> := ["환자분", "본인", "귀하", "고객님"]

  /** `_evaluate_empathy` on a lowercased response. */
  function EmpathyScore(s: string): (r: real)
    ensures 0.4 <= r <= 1.0
  {
    var indicators := Min(0.4, 0.1 * CountPresent(s, EmpathyIndicators) as real);
    var centered := if ContainsAny(s, PatientCentered) then 0.2 else 0.0;
    CappedSum(0.4, indicators, 0.4, centered, 0.2);
    Min(1.0, 0.4 + indicators + centered)
  }

  /** The evidence score is its floor exactly when neither keyword family occurs, and full from four evidence and three hedging keywords on. */
  lemma EvidenceScoreExtremes(s: string)
    ensures EvidenceScore(s) == 0.3 <==> !ContainsAny(s, EvidenceKeywords) && !ContainsAny(s, HedgingKeywords)
    ensures CountPresent(s, EvidenceKeywords) >= 4 && CountPresent(s, HedgingKeywords) >= 3 ==> EvidenceScore(s) == 1.0
  {
    var e := CountPresent(s, EvidenceKeywords);
    var h := CountPresent(s, HedgingKeywords);
    assert EvidenceScore(s) == 0.3 + Min(0.4, 0.1 * e as real) + Min(0.3, 0.1 * h as real);
  }

  /** The empathy score is its floor exactly when no indicator and no patient-centred word occurs; a patient-centred word alone adds 0.2. */
  lemma EmpathyScoreExtremes(s: string)
    ensures EmpathyScore(s) == 0.4 <==> !ContainsAny(s, EmpathyIndicators) && !ContainsAny(s, PatientCentered)
    ensures !ContainsAny(s, EmpathyIndicators) && ContainsAny(s, PatientCentered) ==> EmpathyScore(s) == 0.6
    ensures CountPresent(s, EmpathyIndicators) >= 4 && ContainsAny(s, PatientCentered) ==> EmpathyScore(s) == 1.0
  {
    var k := CountPresent(s, EmpathyIndicators);
    var c := if ContainsAny(s, PatientCentered) then 0.2 else 0.0;
    assert EmpathyScore(s) == 0.4 + Min(0.4, 0.1 * k as real) + c;
  }

  /** Which heuristic a criterion name selects: the first matching test wins. */
  datatype CriterionKind = SafetyCriterion | EvidenceCriterion | ClarityCriterion
                         | CompletenessCriterion | EmpathyCriterion | OtherCriterion

  function CriterionKindOf(name: string): CriterionKind {
    var n := Lower(name);
    if Contains(n, "안전") || Contains(n, "safety") then SafetyCriterion
    else if Contains(n, "근거") || Contains(n, "evidence") then EvidenceCriterion
    else if Contains(n, "명확") || Contains(n, "clarity") then ClarityCriterion
    else if Contains(n, "완전") || Contains(n, "completeness") then CompletenessCriterion
    else if Contains(n, "공감") || Contains(n, "empathy") then EmpathyCriterion
    else OtherCriterion
  }

  /** The medical `evaluate_criterion`: clarity reads the original text, the others the lowercased one. */
  function CriterionScore(response: string, criterion: QualityCriterion): (r: real)
    ensures 0.0 <= r <= 1.0
    ensures CriterionKindOf(criterion.name) == OtherCriterion ==> r == 0.5
    ensures CriterionKindOf(criterion.name) == SafetyCriterion ==> r == SafetyScore(Lower(response))
    ensures CriterionKindOf(criterion.name) == EvidenceCriterion ==> r == EvidenceScore(Lower(response))
    ensures CriterionKindOf(criterion.name) == ClarityCriterion ==> r == ClarityScore(response)
    ensures CriterionKindOf(criterion.name) == CompletenessCriterion ==> r == CompletenessScore(Lower(response))
    ensures CriterionKindOf(criterion.name) == EmpathyCriterion ==> r == EmpathyScore(Lower(response))
  {
    var s := Lower(response);
    match CriterionKindOf(criterion.name)
    case SafetyCriterion => SafetyScore(s)
    case EvidenceCriterion => EvidenceScore(s)
    case ClarityCriterion => ClarityScore(response)
    case CompletenessCriterion => CompletenessScore(s)
    case EmpathyCriterion => EmpathyScore(s)
    case OtherCriterion => 0.5
  }

  // ---------------------------------------------------------------------
  // Emergency handling.

  const EmergencyIndicators: seq<string> := ["갑자기", "심한", "극심한", "참을 수 없", "의식", "호흡곤란", "출혈", "마비", "발작"]

  const EmergencyVenues: seq<string> := ["119", "응급실", "응급"]

  const UrgencyWords: seq<string> := ["즉시", "바로", "지금", "빨리"]

  const EarlyMentions: seq<string> := ["119", "응급", "즉시"]

  predicate IsEmergency(question: string) {
    ContainsAny(Lower(question), EmergencyIndicators)
  }

  /**
   * `evaluate_emergency_handling`: 1.0 when the question is not an emergency;
   * otherwise 0.5 for naming emergency services, 0.3 for urgency, and 0.2 when
   * an emergency word appears within the first 100 characters.
   */
  function EmergencyHandlingScore(response: string, question: string): (r: real)
    ensures 0.0 <= r <= 1.0
    ensures !IsEmergency(question) ==> r == 1.0
    ensures IsEmergency(question) ==> var s := Lower(response);
      r == 1.0 <==> ContainsAny(s, EmergencyVenues) && ContainsAny(s, UrgencyWords) && ContainsAny(Take(s, 100), EarlyMentions)
    ensures IsEmergency(question) ==> var s := Lower(response);
      r == 0.0 <==> !ContainsAny(s, EmergencyVenues) && !ContainsAny(s, UrgencyWords) && !ContainsAny(Take(s, 100), EarlyMentions)
    ensures IsEmergency(question) && ContainsAny(Lower(response), EmergencyVenues) ==> r >= 0.5
  {
    var s := Lower(response);
    if !IsEmergency(question) then 1.0
    else
      var score := 0.0;
      var score := if ContainsAny(s, EmergencyVenues) then score + 0.5 else score;
      var score := if ContainsAny(s, UrgencyWords) then score + 0.3 else score;
      var score := if ContainsAny(Take(s, 100), EarlyMentions) then score + 0.2 else score;
      score
  }

  /** An early emergency word is also a venue or urgency word, so the 0.2 is never earned alone. */
  lemma EarlyMentionImpliesVenueOrUrgency(response: string, question: string)
    requires IsEmergency(question)
    requires ContainsAny(Take(Lower(response), 100), EarlyMentions)
    ensures EmergencyHandlingScore(response, question) >= 0.5
  {
    var s := Lower(response);
    var t := Take(s, 100);
    var k :| k in EarlyMentions && Contains(t, k);
    var i :| 0 <= i <= |t| - |k| && OccursAt(t, k, i);
    assert s[..|t|] == t;
    assert s[i..i + |k|] == t[i..i + |k|];
    assert OccursAt(s, k, i);
    if k == "즉시" {
      assert Contains(s, "즉시");
      assert ContainsAny(s, UrgencyWords);
    } else {
      assert k in EmergencyVenues;
      assert ContainsAny(s, EmergencyVenues);
    }
  }
}
