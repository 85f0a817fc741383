/**
 * The four pre-configured domains and the registry as the package
 * initialisation leaves it. Only each configuration's identity (type, name,
 * description), its validator documents and the English refinement
 * template are reproduced; the knowledge lists, the other templates, the
 * case libraries and the metadata are static content.
 */
module Fixtures {
  import opened Wrappers
  import opened Document
  import opened Knowledge
  import Template
  import EnglishTemplate
  import Evaluation
  import Registry

  /** The validator documents of `medical/config.py`. */
  const MedicalValidators: seq<Value> := [
    Dict([("type", Str("KeywordValidator")),
          ("keywords", List(StrList(["상담", "전문가", "의사", "병원"]))),
          ("must_include", Bool(true)),
          ("name", Str("Expert Referral Check")),
          ("description", Str("Must recommend consulting a professional")),
          ("failure_message", Str("응답에 전문가 상담(의사, 병원 등) 권고가 포함되어야 합니다."))]),
    Dict([("type", Str("RegexValidator")),
          ("pattern", Str("(?i)(error|bug|fail)")),
          ("name", Str("Error Keyword Check")),
          ("description", Str("Must not contain error keywords")),
          ("failure_message", Str("응답에 'error', 'bug', 'fail' 단어가 포함되었습니다."))])]

  /**
   * The validator documents of `english_question/config.py`, abridged: the
   * keyword list and both `PatternValidator` entries lose their patterns and
   * descriptions; `PatternValidator` and `min_matches` have no implementation.
   */
  const EnglishValidators: seq<Value> := [
    Dict([("type", Str("KeywordValidator")),
          ("keywords", List(StrList(["정답", "선택지", "지문", "문항"]))),
          ("must_include", Bool(true)),
          ("min_matches", Num(2.0))]),
    Dict([("type", Str("PatternValidator")),
          ("should_match", Bool(true))])]

  const MedicalConfig: DomainConfig := DomainConfig(
    "medical", "의료/헬스케어",
    "의료 및 건강 관련 질의응답을 위한 도메인 설정. 환자 안전을 최우선으로 하며, 근거 기반 의학 원칙을 따릅니다.",
    EmptyKnowledge, "", "", EmptyLibrary, [], MedicalValidators)

  const LegalConfig: DomainConfig := DomainConfig(
    "legal", "법률",
    "법률 관련 질의응답을 위한 도메인 설정. 법률 정보 제공과 법률 자문의 경계를 준수합니다.",
    EmptyKnowledge, "", "", EmptyLibrary, [], [])

  const FinanceConfig: DomainConfig := DomainConfig(
    "finance", "금융/투자",
    "금융 및 투자 관련 질의응답을 위한 도메인 설정. 투자자 보호와 금융 규제 준수를 최우선으로 합니다.",
    EmptyKnowledge, "", "", EmptyLibrary, [], [])

  const EnglishQuestionConfig: DomainConfig := DomainConfig(
    "english_question", "영어문항생성", "",
    EmptyKnowledge, "", Template.TemplateText(EnglishTemplate.EnglishRefinementSegments),
    EmptyLibrary, [], EnglishValidators)

  /** The registry after each of the package's four registrations; only medical comes with an evaluator class. */
  const AfterMedical: Registry.Contents := Registry.Register(Registry.Empty, MedicalConfig, Some(Evaluation.MedicalStrategy))

  const AfterLegal: Registry.Contents := Registry.Register(AfterMedical, LegalConfig, None)

  const AfterFinance: Registry.Contents := Registry.Register(AfterLegal, FinanceConfig, None)

  const DefaultRegistry: Registry.Contents := Registry.Register(AfterFinance, EnglishQuestionConfig, None)

  /** The four types in registration order, each once. */
  lemma DefaultRegistryOrder()
    ensures Registry.Ordered(DefaultRegistry)
    ensures DefaultRegistry.order == ["medical", "legal", "finance", "english_question"]
  {
    assert "medical"[0] != "legal"[0] && "medical"[0] != "finance"[0] && "medical"[0] != "english_question"[0];
    assert "legal"[0] != "finance"[0] && "legal"[0] != "english_question"[0] && "finance"[0] != "english_question"[0];
    Registry.RegisterFour(MedicalConfig, LegalConfig, FinanceConfig, EnglishQuestionConfig, Some(Evaluation.MedicalStrategy));
  }

  /** Each type finds its own configuration. */
  lemma DefaultRegistryDomains()
    ensures Registry.Domain(DefaultRegistry, "medical") == Some(MedicalConfig)
    ensures Registry.Domain(DefaultRegistry, "legal") == Some(LegalConfig)
    ensures Registry.Domain(DefaultRegistry, "finance") == Some(FinanceConfig)
    ensures Registry.Domain(DefaultRegistry, "english_question") == Some(EnglishQuestionConfig)
  {
    Registry.RegisterThenGet(AfterFinance, EnglishQuestionConfig, None, "medical");
    Registry.RegisterThenGet(AfterFinance, EnglishQuestionConfig, None, "legal");
    Registry.RegisterThenGet(AfterFinance, EnglishQuestionConfig, None, "finance");
    Registry.RegisterThenGet(AfterLegal, FinanceConfig, None, "medical");
    Registry.RegisterThenGet(AfterLegal, FinanceConfig, None, "legal");
    Registry.RegisterThenGet(AfterMedical, LegalConfig, None, "medical");
  }

  /** No other type is registered. */
  lemma DefaultRegistryUnknown(t: string)
    requires t != "medical" && t != "legal" && t != "finance" && t != "english_question"
    ensures t !in DefaultRegistry.domains
  {
    assert t !in AfterMedical.domains;
    assert t !in AfterLegal.domains;
    assert t !in AfterFinance.domains;
  }

  /** Only medical has an evaluator class. */
  lemma DefaultRegistryEvaluators(t: string)
    ensures Registry.EvaluatorOf(DefaultRegistry, t) ==
      if t == "medical" then Some(Evaluation.MedicalStrategy) else None
  {
  }

  // ---------------------------------------------------------------------
  // The `validators` keyword (see the configuration finding in the README).

  /**
   * `DomainConfig(...)` called the way the medical and English configuration
   * modules call it: the dataclass declares no `validators` field, so passing
   * one raises `TypeError`.
   */
  function NewConfigAsWritten(fields: DomainConfig, validators: Option<seq<Value>>): (r: Result<DomainConfig>)
    ensures r.Failure? <==> validators.Some?
    ensures r.Failure? ==> r.error.TypeError?
    ensures r.Success? ==> r.value.validators == []
  {
    if validators.Some? then Failure(TypeError("DomainConfig.__init__() got an unexpected keyword argument 'validators'"))
    else Success(fields.(validators := []))
  }

  /** The evidently intended constructor: the validator documents are kept, every other field as given. */
  function NewConfig(fields: DomainConfig, validators: seq<Value>): (c: DomainConfig)
    ensures c.validators == validators
    ensures c.(validators := fields.validators) == fields
  {
    fields.(validators := validators)
  }

  /** As written, building the medical configuration fails; the corrected constructor keeps its two validators. */
  lemma MedicalConfigValidators()
    ensures NewConfigAsWritten(MedicalConfig, Some(MedicalValidators)) ==
      Failure(TypeError("DomainConfig.__init__() got an unexpected keyword argument 'validators'"))
    ensures NewConfig(MedicalConfig.(validators := []), MedicalValidators) == MedicalConfig
    ensures |MedicalConfig.validators| == 2
  {
  }
}
