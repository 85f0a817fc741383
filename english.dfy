/**
 * The refinement template of the English question-writing domain
 * (`english_question/config.py`), which names a placeholder that is not a
 * refinement variable.
 */
module EnglishTemplate {
  import opened Wrappers
  import opened Text
  import opened Template
  import opened Knowledge
  import Critique

  /** The template's literal text, line by line. */
  const EnglishOpeningLines: seq<string> :=
    ["당신은 영어 평가 전문가입니다. ",
      "다음 비평을 바탕으로 프롬프트를 개선해주세요.\n\n",
      "## 원본 프롬프트:\n"]

  const EnglishClosingLines: seq<string> :=
    ["\n\n## 도메인 원칙 (반드시 반영):\n",
      "- 문항은 측정 목표에 정확히 부합해야 함\n",
      "- 오답 선택지는 그럴듯하지만 명확히 틀려야 함\n",
      "- 정답이 2개 이상이거나 없는 문항은 금지\n",
      "- 문화적 편향 요소 배제\n",
      "- 교육과정 성취기준 연계\n\n",
      "## 개선된 프롬프트:\n",
      "위 비평과 원칙을 반영하여 개선된 프롬프트를 작성하세요.\n"]

  /** The concatenation of a list of strings. */
  function Concat(xs: seq<string>): string {
    if xs == [] then "" else xs[0] + Concat(xs[1..])
  }

  lemma {:induction false} ConcatBraceFree(xs: seq<string>)
    requires forall i | 0 <= i < |xs| :: BraceFree(xs[i])
    ensures BraceFree(Concat(xs))
  {
    if xs != [] {
      ConcatBraceFree(xs[1..]);
    }
  }

  const EnglishRefinementOpening: string := Concat(EnglishOpeningLines)

  const EnglishRefinementMiddle: string := "\n\n## 받은 비평:\n"

  const EnglishRefinementClosing: string := Concat(EnglishClosingLines)

  /** A template of two fields, `{original_instruction}` and `{critique}`, between literal texts. */
  function PlaceholderSegments(opening: string, middle: string, closing: string): seq<Segment> {
    [Lit(opening), Field("original_instruction"), Lit(middle), Field("critique"), Lit(closing)]
  }

  /** The template, as literal text and fields. */
  const EnglishRefinementSegments: seq<Segment> :=
    PlaceholderSegments(EnglishRefinementOpening, EnglishRefinementMiddle, EnglishRefinementClosing)

  lemma EnglishOpeningBraceFree()
    ensures BraceFree(EnglishRefinementOpening)
  {
    var o := EnglishOpeningLines;
    assert BraceFree(o[0]);
    assert BraceFree(o[1]);
    assert BraceFree(o[2]);
    ConcatBraceFree(o);
  }

  lemma ClosingLine0()
    ensures BraceFree(EnglishClosingLines[0])
  {
  }

  lemma ClosingLine1()
    ensures BraceFree(EnglishClosingLines[1])
  {
  }

  lemma ClosingLine2()
    ensures BraceFree(EnglishClosingLines[2])
  {
  }

  lemma ClosingLine3()
    ensures BraceFree(EnglishClosingLines[3])
  {
  }

  lemma ClosingLine4()
    ensures BraceFree(EnglishClosingLines[4])
  {
  }

  lemma ClosingLine5()
    ensures BraceFree(EnglishClosingLines[5])
  {
  }

  lemma ClosingLine6()
    ensures BraceFree(EnglishClosingLines[6])
  {
  }

  lemma ClosingLine7()
    ensures BraceFree(EnglishClosingLines[7])
  {
  }

  lemma EnglishClosingBraceFree()
    ensures BraceFree(EnglishRefinementClosing)
  {
    ClosingLine0();
    ClosingLine1();
    ClosingLine2();
    ClosingLine3();
    ClosingLine4();
    ClosingLine5();
    ClosingLine6();
    ClosingLine7();
    ConcatBraceFree(EnglishClosingLines);
  }

  lemma FieldNames()
    ensures ValidName("original_instruction") && ValidName("critique")
  {
    LowerName("original_instruction");
    LowerName("critique");
  }

  lemma PlaceholderWellFormed(opening: string, middle: string, closing: string)
    requires BraceFree(opening) && BraceFree(middle) && BraceFree(closing)
    ensures WellFormed(PlaceholderSegments(opening, middle, closing))
  {
    FieldNames();
  }

  lemma PlaceholderSubstituteTail(opening: string, middle: string, closing: string, vars: Variables, critique: string)
    requires Assoc.Lookup(vars, "critique") == Some(critique)
    ensures Substitute(PlaceholderSegments(opening, middle, closing)[2..], vars) == middle + (critique + closing)
  {
    var s := PlaceholderSegments(opening, middle, closing);
    assert s[4..][1..] == [];
    assert Substitute(s[4..], vars) == closing;
    assert Substitute(s[3..], vars) == critique + closing by { assert s[3..][1..] == s[4..]; }
    assert s[2..][1..] == s[3..];
  }

  lemma PlaceholderSubstitute(opening: string, middle: string, closing: string, vars: Variables, critique: string)
    requires Assoc.Lookup(vars, "original_instruction") == None
    requires Assoc.Lookup(vars, "critique") == Some(critique)
    ensures Substitute(PlaceholderSegments(opening, middle, closing), vars)
            == opening + (("{" + "original_instruction" + "}") + (middle + (critique + closing)))
  {
    var s := PlaceholderSegments(opening, middle, closing);
    PlaceholderSubstituteTail(opening, middle, closing, vars, critique);
    assert s[1..][0] == Field("original_instruction");
    assert s[1..][1..] == s[2..];
  }

  lemma RefinementVariablesLookup(config: DomainConfig, instruction: string, examples: string, critique: string)
    ensures var vars := Critique.RefinementVariables(config, instruction, examples, critique);
      Assoc.Lookup(vars, "critique") == Some(critique) && Assoc.Lookup(vars, "original_instruction") == None
  {
    var vars := Critique.RefinementVariables(config, instruction, examples, critique);
    Assoc.LookupAt(vars, 2);
    forall i | 0 <= i < |vars| ensures vars[i].0 != "original_instruction" {
      assert |vars[i].0| < 20;
    }
    Assoc.LookupAbsent(vars, "original_instruction");
  }

  /**
   * A refinement template naming `{original_instruction}`, which is not a
   * refinement variable: formatting raises `KeyError`, and the fallback
   * substitutes the critique and keeps `{original_instruction}` verbatim.
   */
  lemma PlaceholderKept(config: DomainConfig, instruction: string, examples: string, critique: string,
                        opening: string, middle: string, closing: string)
    requires BraceFree(opening) && BraceFree(middle) && BraceFree(closing)
    requires config.refinementTemplate == TemplateText(PlaceholderSegments(opening, middle, closing))
    requires ValuesBraceFree(Critique.RefinementVariables(config, instruction, examples, critique))
    ensures Format(config.refinementTemplate, Critique.RefinementVariables(config, instruction, examples, critique)).Failure?
    ensures Critique.GenerateRefinementPrompt(config, instruction, examples, critique)
            == Success(opening + (("{" + "original_instruction" + "}") + (middle + (critique + closing))))
  {
    var segs := PlaceholderSegments(opening, middle, closing);
    var vars := Critique.RefinementVariables(config, instruction, examples, critique);
    PlaceholderWellFormed(opening, middle, closing);
    RefinementVariablesLookup(config, instruction, examples, critique);
    assert !AllKnown(segs, vars) by {
      Assoc.LookupFound(vars, "original_instruction");
      assert segs[1] == Field("original_instruction");
    }
    RenderSubstitutes(segs, vars);
    PlaceholderSubstitute(opening, middle, closing, vars, critique);
    assert TemplateText(segs) != "";
  }

  /** The English question-writing domain's refinement template keeps `{original_instruction}`. */
  lemma EnglishRefinementKeepsPlaceholder(config: DomainConfig, instruction: string, examples: string,
                                          critique: string)
    requires config.refinementTemplate == TemplateText(EnglishRefinementSegments)
    requires ValuesBraceFree(Critique.RefinementVariables(config, instruction, examples, critique))
    ensures Critique.GenerateRefinementPrompt(config, instruction, examples, critique)
            == Success(EnglishRefinementOpening + (("{" + "original_instruction" + "}") + (EnglishRefinementMiddle
                       + (critique + EnglishRefinementClosing))))
  {
    EnglishOpeningBraceFree();
    EnglishClosingBraceFree();
    assert BraceFree(EnglishRefinementMiddle);
    PlaceholderKept(config, instruction, examples, critique,
                    EnglishRefinementOpening, EnglishRefinementMiddle, EnglishRefinementClosing);
  }
}
