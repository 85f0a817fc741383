/**
 * The domain knowledge records: quality criteria, expert personas, the
 * knowledge aggregate, test cases, the three-bucket case library and the
 * complete domain configuration.
 */
module Knowledge {
  import opened Document

  datatype QualityCriterion = QualityCriterion(
    name: string, weight: real, description: string, evaluationPrompt: string)

  datatype ExpertPersona = ExpertPersona(
    role: string, focus: string, background: string, thinkingApproach: string)

  datatype DomainKnowledge = DomainKnowledge(
    principles: seq<string>,
    constraints: seq<string>,
    qualityCriteria: seq<QualityCriterion>,
    thinkingStyles: seq<string>,
    expertPersonas: seq<ExpertPersona>,
    terminology: seq<(string, string)>,
    patterns: seq<string>,
    antiPatterns: seq<string>)

  /** Every list field empty: the `DomainKnowledge()` default. */
  const EmptyKnowledge := DomainKnowledge([], [], [], [], [], [], [], [])

  datatype CaseExample = CaseExample(
    question: string,
    expectedElements: seq<string>,
    forbiddenElements: seq<string>,
    category: string,
    difficulty: string,
    explanation: string)

  datatype CaseLibrary = CaseLibrary(
    criticalCases: seq<CaseExample>,
    edgeCases: seq<CaseExample>,
    commonCases: seq<CaseExample>)

  const EmptyLibrary := CaseLibrary([], [], [])

  /**
   * The full domain configuration. `validators` holds validator specification
   * documents; nothing in the core reads it (see the configuration finding in
   * the README).
   */
  datatype DomainConfig = DomainConfig(
    domainType: string,
    domainName: string,
    description: string,
    knowledge: DomainKnowledge,
    critiqueTemplate: string,
    refinementTemplate: string,
    caseLibrary: CaseLibrary,
    metadata: seq<(string, Value)>,
    validators: seq<Value>)

  /** `CaseLibrary.get_all_cases`: critical, then edge, then common cases. */
  function AllCases(lib: CaseLibrary): (r: seq<CaseExample>)
    ensures |r| == |lib.criticalCases| + |lib.edgeCases| + |lib.commonCases|
    ensures r[..|lib.criticalCases|] == lib.criticalCases
    ensures r[|lib.criticalCases|..|lib.criticalCases| + |lib.edgeCases|] == lib.edgeCases
    ensures r[|lib.criticalCases| + |lib.edgeCases|..] == lib.commonCases
  {
    lib.criticalCases + lib.edgeCases + lib.commonCases
  }

  /** The order-preserving filter `[c for c in cases if c.category == category]`. */
  function FilterCategory(cases: seq<CaseExample>, category: string): (r: seq<CaseExample>)
    ensures |r| <= |cases|
    ensures forall c | c in r :: c in cases && c.category == category
    ensures forall c | c in cases && c.category == category :: c in r
  {
    if cases == [] then []
    else if cases[0].category == category then [cases[0]] + FilterCategory(cases[1..], category)
    else FilterCategory(cases[1..], category)
  }

  /** `CaseLibrary.get_cases_by_category`. */
  function CasesByCategory(lib: CaseLibrary, category: string): (r: seq<CaseExample>)
    ensures forall c | c in r :: c.category == category
    ensures forall c | c in AllCases(lib) :: c in r <==> c.category == category
  {
    FilterCategory(AllCases(lib), category)
  }

  /** `r` is `xs` with some elements removed, the rest kept in their order. */
  predicate IsSubsequence<T(==)>(r: seq<T>, xs: seq<T>)
    decreases |xs|
  {
    if r == [] then true
    else if xs == [] then false
    else if r[0] == xs[0] then IsSubsequence(r[1..], xs[1..])
    else IsSubsequence(r, xs[1..])
  }

  /** The filter keeps the matching cases in their original order, and filters distribute over concatenation. */
  lemma {:induction false} FilterCategoryOrder(cases: seq<CaseExample>, category: string)
    ensures IsSubsequence(FilterCategory(cases, category), cases)
  {
    if cases != [] {
      FilterCategoryOrder(cases[1..], category);
    }
  }

  lemma {:induction false} FilterCategoryAppend(a: seq<CaseExample>, b: seq<CaseExample>, category: string)
    ensures FilterCategory(a + b, category) == FilterCategory(a, category) + FilterCategory(b, category)
  {
    if a == [] {
      assert a + b == b;
    } else {
      assert (a + b)[1..] == a[1..] + b;
      FilterCategoryAppend(a[1..], b, category);
    }
  }

  /** Filtering the library by category is filtering each bucket, in bucket order. */
  lemma CasesByCategoryBuckets(lib: CaseLibrary, category: string)
    ensures CasesByCategory(lib, category)
         == FilterCategory(lib.criticalCases, category)
          + FilterCategory(lib.edgeCases, category)
          + FilterCategory(lib.commonCases, category)
    ensures IsSubsequence(CasesByCategory(lib, category), AllCases(lib))
  {
    FilterCategoryAppend(lib.criticalCases + lib.edgeCases, lib.commonCases, category);
    FilterCategoryAppend(lib.criticalCases, lib.edgeCases, category);
    FilterCategoryOrder(AllCases(lib), category);
  }
}
