/**
 * The web application's logic: the change report comparing an original and
 * an enhanced prompt, the built-in configuration lookup, and the in-memory
 * part of the prompt library (id assignment, appending, deleting).
 */
module App {
  import opened Wrappers
  import opened Text
  import opened Knowledge
  import Registry
  import Fixtures

  // ---------------------------------------------------------------------
  // `analyze_prompt_differences`.

  /** The report; `summary` holds the human-readable lines. */
  datatype Differences = Differences(
    addedPrinciples: seq<string>,
    addedConstraints: seq<string>,
    addedExpertContext: bool,
    addedQualityCriteria: bool,
    lengthIncrease: int,
    summary: seq<string>)

  /** Some word of `words` occurs, case-sensitively, in `hay`. */
  predicate SomeWordOccurs(hay: string, words: seq<string>)
    decreases |words|
  {
    words != [] && (Contains(hay, words[0]) || SomeWordOccurs(hay, words[1..]))
  }

  /** Some of the first three words of `item` occurs in `enhanced`. */
  predicate LeadingWordOccurs(item: string, enhanced: string) {
    SomeWordOccurs(enhanced, SliceTo(Words(item), 3))
  }

  /** A constraint counts as added when one of its first three words occurs. */
  predicate ConstraintAdded(constraint: string, enhanced: string) {
    LeadingWordOccurs(constraint, enhanced)
  }

  /** A principle counts as added when its lowercased 20-character prefix, or one of its first three words, occurs. */
  predicate PrincipleAdded(principle: string, enhanced: string) {
    Contains(Lower(enhanced), Take(Lower(principle), 20)) || LeadingWordOccurs(principle, enhanced)
  }

  /** How an added item is recorded: its first 50 characters and an ellipsis. */
  function Noted(item: string): string {
    Take(item, 50) + "..."
  }

  /** The items that `keep` selects, noted, in order. */
  function NotedWhere(items: seq<string>, keep: string -> bool): seq<string> {
    if items == [] then []
    else
      var prev := NotedWhere(items[..|items| - 1], keep);
      var x := items[|items| - 1];
      if keep(x) then prev + [Noted(x)] else prev
  }

  /** The noted principles that count as added, in order. */
  function AddedPrinciples(principles: seq<string>, enhanced: string): seq<string> {
    NotedWhere(principles, p => PrincipleAdded(p, enhanced))
  }

  /** The noted constraints some of whose first three words occur, in order. */
  function AddedConstraints(constraints: seq<string>, enhanced: string): seq<string> {
    NotedWhere(constraints, c => ConstraintAdded(c, enhanced))
  }

  predicate ExpertContextAdded(personas: seq<ExpertPersona>, enhanced: string) {
    exists p | p in personas :: Contains(enhanced, p.role)
  }

  predicate QualityCriteriaAdded(criteria: seq<QualityCriterion>, enhanced: string) {
    exists qc | qc in criteria :: Contains(enhanced, qc.name)
  }

  function PrinciplesLine(n: nat): string { "✅ " + IntToString(n) + "개의 도메인 원칙 반영" }

  function ConstraintsLine(n: nat): string { "🚫 " + IntToString(n) + "개의 제약조건 추가" }

  const ExpertLine := "👤 전문가 관점 추가"

  const QualityLine := "📊 품질 기준 반영"

  /** The length line always carries a `+`, whatever the sign of the change. */
  function LengthLine(increase: int): string { "📝 텍스트 길이: +" + IntToString(increase) + " 문자" }

  /** The summary lines in their fixed order, the length line last. */
  function SummaryLines(principles: seq<string>, constraints: seq<string>, expert: bool, quality: bool, increase: int): seq<string> {
    (if principles != [] then [PrinciplesLine(|principles|)] else [])
    + (if constraints != [] then [ConstraintsLine(|constraints|)] else [])
    + (if expert then [ExpertLine] else [])
    + (if quality then [QualityLine] else [])
    + [LengthLine(increase)]
  }

  /** The report for a configuration. */
  function Report(original: string, enhanced: string, config: DomainConfig): Differences {
    var k := config.knowledge;
    var ps := AddedPrinciples(k.principles, enhanced);
    var cs := AddedConstraints(k.constraints, enhanced);
    var expert := ExpertContextAdded(k.expertPersonas, enhanced);
    var quality := QualityCriteriaAdded(k.qualityCriteria, enhanced);
    var increase := |enhanced| - |original|;
    Differences(ps, cs, expert, quality, increase, SummaryLines(ps, cs, expert, quality, increase))
  }

  /** `any(word in enhanced for word in item.split()[:3])`, as the generator runs: the first hit ends the scan. */
  method AnyLeadingWord(item: string, enhanced: string) returns (found: bool)
    ensures found <==> LeadingWordOccurs(item, enhanced)
    ensures found <==> ConstraintAdded(item, enhanced)
  {
    var words := SliceTo(Words(item), 3);
    found := false;
    var i := 0;
    while i < |words|
      invariant 0 <= i <= |words|
      invariant SomeWordOccurs(enhanced, words) <==> SomeWordOccurs(enhanced, words[i..])
    {
      assert words[i..][1..] == words[i + 1..];
      if Contains(enhanced, words[i]) {
        found := true;
        return;
      }
      i := i + 1;
    }
  }

  /** The test a principle passes to be recorded. */
  method PrincipleCounts(principle: string, enhanced: string) returns (hit: bool)
    ensures hit <==> PrincipleAdded(principle, enhanced)
  {
    var wordHit := AnyLeadingWord(principle, enhanced);
    hit := Contains(Lower(enhanced), Take(Lower(principle), 20)) || wordHit;
  }

  /** One more item of the principle loop. */
  lemma AddedPrinciplesStep(principles: seq<string>, enhanced: string, i: nat)
    requires i < |principles|
    ensures AddedPrinciples(principles[..i + 1], enhanced)
      == if PrincipleAdded(principles[i], enhanced) then AddedPrinciples(principles[..i], enhanced) + [Noted(principles[i])]
         else AddedPrinciples(principles[..i], enhanced)
  {
    assert principles[..i + 1][..i] == principles[..i];
  }

  /** The principle loop of `analyze_prompt_differences`. */
  method CollectPrinciples(principles: seq<string>, enhanced: string) returns (added: seq<string>)
    ensures added == AddedPrinciples(principles, enhanced)
  {
    added := [];
    var i := 0;
    while i < |principles|
      invariant 0 <= i <= |principles|
      invariant added == AddedPrinciples(principles[..i], enhanced)
    {
      AddedPrinciplesStep(principles, enhanced, i);
      var hit := PrincipleCounts(principles[i], enhanced);
      if hit {
        added := added + [Noted(principles[i])];
      }
      i := i + 1;
    }
    assert principles[..i] == principles;
  }

  /** One more item of the constraint loop. */
  lemma AddedConstraintsStep(constraints: seq<string>, enhanced: string, i: nat)
    requires i < |constraints|
    ensures AddedConstraints(constraints[..i + 1], enhanced)
      == if ConstraintAdded(constraints[i], enhanced) then AddedConstraints(constraints[..i], enhanced) + [Noted(constraints[i])]
         else AddedConstraints(constraints[..i], enhanced)
  {
    assert constraints[..i + 1][..i] == constraints[..i];
  }

  /** The constraint loop of `analyze_prompt_differences`. */
  method CollectConstraints(constraints: seq<string>, enhanced: string) returns (added: seq<string>)
    ensures added == AddedConstraints(constraints, enhanced)
  {
    added := [];
    var i := 0;
    while i < |constraints|
      invariant 0 <= i <= |constraints|
      invariant added == AddedConstraints(constraints[..i], enhanced)
    {
      AddedConstraintsStep(constraints, enhanced, i);
      var hit := AnyLeadingWord(constraints[i], enhanced);
      if hit {
        added := added + [Noted(constraints[i])];
      }
      i := i + 1;
    }
    assert constraints[..i] == constraints;
  }

  /** The summary lines, appended one finding at a time. */
  method Summarize(principles: seq<string>, constraints: seq<string>, expert: bool, quality: bool, increase: int)
    returns (summary: seq<string>)
    ensures summary == SummaryLines(principles, constraints, expert, quality, increase)
  {
    ghost var a := if principles != [] then [PrinciplesLine(|principles|)] else [];
    ghost var b := if constraints != [] then [ConstraintsLine(|constraints|)] else [];
    ghost var c := if expert then [ExpertLine] else [];
    ghost var e := if quality then [QualityLine] else [];
    summary := [];
    if principles != [] {
      summary := summary + [PrinciplesLine(|principles|)];
    }
    assert summary == a;
    if constraints != [] {
      summary := summary + [ConstraintsLine(|constraints|)];
    }
    assert summary == a + b;
    if expert {
      summary := summary + [ExpertLine];
    }
    assert summary == a + b + c;
    if quality {
      summary := summary + [QualityLine];
    }
    assert summary == a + b + c + e;
    summary := summary + [LengthLine(increase)];
  }

  /** `analyze_prompt_differences`. */
  method AnalyzePromptDifferences(original: string, enhanced: string, config: DomainConfig) returns (d: Differences)
    ensures d == Report(original, enhanced, config)
  {
    var k := config.knowledge;
    var principles := CollectPrinciples(k.principles, enhanced);
    var constraints := CollectConstraints(k.constraints, enhanced);
    var expert := ExpertContextAdded(k.expertPersonas, enhanced);
    var quality := QualityCriteriaAdded(k.qualityCriteria, enhanced);
    var increase := |enhanced| - |original|;
    var summary := Summarize(principles, constraints, expert, quality, increase);
    d := Differences(principles, constraints, expert, quality, increase, summary);
    assert Report(original, enhanced, config) == Differences(principles, constraints, expert, quality, increase, summary);
  }

  /** Each recorded item is a selected item, noted. */
  lemma {:induction false} NotedWhereSound(items: seq<string>, keep: string -> bool)
    ensures |NotedWhere(items, keep)| <= |items|
    ensures forall x | x in NotedWhere(items, keep) ::
      exists i | 0 <= i < |items| :: keep(items[i]) && x == Noted(items[i])
    decreases |items|
  {
    if items != [] {
      var init := items[..|items| - 1];
      NotedWhereSound(init, keep);
      forall x | x in NotedWhere(items, keep)
        ensures exists i | 0 <= i < |items| :: keep(items[i]) && x == Noted(items[i])
      {
        if x in NotedWhere(init, keep) {
          var i :| 0 <= i < |init| && keep(init[i]) && x == Noted(init[i]);
          assert items[i] == init[i];
        } else {
          assert x == Noted(items[|items| - 1]);
        }
      }
    }
  }

  /** The item at index `i`, when selected, is recorded. */
  lemma {:induction false} NotedWhereAt(items: seq<string>, keep: string -> bool, i: nat)
    requires i < |items| && keep(items[i])
    ensures Noted(items[i]) in NotedWhere(items, keep)
    decreases |items|
  {
    var init := items[..|items| - 1];
    if i < |init| {
      assert init[i] == items[i];
      NotedWhereAt(init, keep, i);
    }
  }

  /** The recorded principles are exactly the counted ones, noted. */
  lemma AddedPrinciplesExactly(principles: seq<string>, enhanced: string)
    ensures |AddedPrinciples(principles, enhanced)| <= |principles|
    ensures forall x | x in AddedPrinciples(principles, enhanced) ::
      exists i | 0 <= i < |principles| :: PrincipleAdded(principles[i], enhanced) && x == Noted(principles[i])
    ensures forall i | 0 <= i < |principles| && PrincipleAdded(principles[i], enhanced) ::
      Noted(principles[i]) in AddedPrinciples(principles, enhanced)
  {
    var keep := p => PrincipleAdded(p, enhanced);
    NotedWhereSound(principles, keep);
    forall i | 0 <= i < |principles| && PrincipleAdded(principles[i], enhanced)
      ensures Noted(principles[i]) in AddedPrinciples(principles, enhanced)
    {
      NotedWhereAt(principles, keep, i);
    }
  }

  /** The recorded constraints are exactly those whose leading words occur, noted. */
  lemma AddedConstraintsExactly(constraints: seq<string>, enhanced: string)
    ensures |AddedConstraints(constraints, enhanced)| <= |constraints|
    ensures forall x | x in AddedConstraints(constraints, enhanced) ::
      exists i | 0 <= i < |constraints| :: ConstraintAdded(constraints[i], enhanced) && x == Noted(constraints[i])
    ensures forall i | 0 <= i < |constraints| && ConstraintAdded(constraints[i], enhanced) ::
      Noted(constraints[i]) in AddedConstraints(constraints, enhanced)
  {
    var keep := c => ConstraintAdded(c, enhanced);
    NotedWhereSound(constraints, keep);
    forall i | 0 <= i < |constraints| && ConstraintAdded(constraints[i], enhanced)
      ensures Noted(constraints[i]) in AddedConstraints(constraints, enhanced)
    {
      NotedWhereAt(constraints, keep, i);
    }
  }

  /** A noted item is at most 53 characters and starts with the item's own text. */
  lemma NotedShape(item: string)
    ensures |Noted(item)| <= 53
    ensures StartsWith(item, Noted(item)[..|Noted(item)| - 3])
    ensures EndsWith(Noted(item), "...")
  {
    var n := Noted(item);
    assert n[..|n| - 3] == Take(item, 50);
    assert n[|n| - 3..] == "...";
  }

  /**
   * The summary is never empty and ends with the length line; it has one
   * line per present finding, in the order principles, constraints,
   * expert, criteria.
   */
  lemma SummaryShape(original: string, enhanced: string, config: DomainConfig)
    ensures var d := Report(original, enhanced, config);
      d.summary != [] && d.summary[|d.summary| - 1] == LengthLine(|enhanced| - |original|)
      && |d.summary| == 1 + (if d.addedPrinciples != [] then 1 else 0) + (if d.addedConstraints != [] then 1 else 0)
                          + (if d.addedExpertContext then 1 else 0) + (if d.addedQualityCriteria then 1 else 0)
      && (d.addedPrinciples != [] ==> d.summary[0] == PrinciplesLine(|d.addedPrinciples|))
      && (d.addedPrinciples == [] && d.addedConstraints != [] ==> d.summary[0] == ConstraintsLine(|d.addedConstraints|))
  {
  }

  /** A shorter enhanced prompt is still reported with a `+`, followed by the minus sign. */
  lemma ShrinkReportedWithPlus(original: string, enhanced: string, config: DomainConfig)
    requires |enhanced| < |original|
    ensures var d := Report(original, enhanced, config);
      d.lengthIncrease < 0 && Contains(d.summary[|d.summary| - 1], "+-")
  {
    var n := |enhanced| - |original|;
    var line := LengthLine(n);
    var head := "📝 텍스트 길이: ";
    assert line == head + ("+-" + (NatToString(-n) + " 문자"));
    assert line[|head|..|head| + 2] == "+-";
    assert OccursAt(line, "+-", |head|);
  }

  // ---------------------------------------------------------------------
  // `get_domain_config`.

  /** One of the four built-in configurations, or None for any other type. */
  function DomainConfigFor(domainType: string): Option<DomainConfig> {
    if domainType == "medical" then Some(Fixtures.MedicalConfig)
    else if domainType == "legal" then Some(Fixtures.LegalConfig)
    else if domainType == "finance" then Some(Fixtures.FinanceConfig)
    else if domainType == "english_question" then Some(Fixtures.EnglishQuestionConfig)
    else None
  }

  /** The lookup agrees with the registry as the package initialisation leaves it. */
  lemma DomainConfigMatchesRegistry(domainType: string)
    ensures DomainConfigFor(domainType) == Registry.Domain(Fixtures.DefaultRegistry, domainType)
    ensures DomainConfigFor(domainType).Some? ==> DomainConfigFor(domainType).value.domainType == domainType
  {
    if domainType != "medical" && domainType != "legal" && domainType != "finance" && domainType != "english_question" {
      Fixtures.DefaultRegistryUnknown(domainType);
    } else {
      Fixtures.DefaultRegistryDomains();
    }
  }

  // ---------------------------------------------------------------------
  // The prompt library.

  datatype Entry = Entry(
    id: int, name: string, domain: string, originalPrompt: string, enhancedPrompt: string,
    differences: seq<string>, createdAt: string)

  /** The library after `add_to_library` as written: the new id is one more than the number of entries. */
  function AddAsWritten(library: seq<Entry>, name: string, domain: string, original: string, enhanced: string,
                        differences: seq<string>, createdAt: string): (r: seq<Entry>)
    ensures |r| == |library| + 1 && r[..|library|] == library && r[|library|].id == |library| + 1
  {
    library + [Entry(|library| + 1, name, domain, original, enhanced, differences, createdAt)]
  }

  /** Deleting keeps exactly the entries with another id, in order. */
  function Deleted(library: seq<Entry>, id: int): (r: seq<Entry>)
    ensures |r| <= |library|
    ensures forall e | e in r :: e in library && e.id != id
    ensures forall e | e in library && e.id != id :: e in r
  {
    if library == [] then []
    else
      var prev := Deleted(library[..|library| - 1], id);
      var e := library[|library| - 1];
      if e.id != id then prev + [e] else prev
  }

  predicate DistinctIds(library: seq<Entry>) {
    forall i, j | 0 <= i < j < |library| :: library[i].id != library[j].id
  }

  /**
   * As written, ids can repeat: add two entries, delete the first, add
   * another, and the last two entries share id 2, so deleting one deletes
   * both.
   */
  lemma AsWrittenIdsRepeat()
    ensures var one := AddAsWritten([], "a", "d", "", "", [], "");
      var two := AddAsWritten(one, "b", "d", "", "", [], "");
      var three := AddAsWritten(Deleted(two, 1), "c", "d", "", "", [], "");
      !DistinctIds(three) && three[0].id == 2 && three[1].id == 2
  {
    var one := AddAsWritten([], "a", "d", "", "", [], "");
    var two := AddAsWritten(one, "b", "d", "", "", [], "");
    assert two[0].id == 1 && two[1].id == 2;
    assert Deleted(two[..1], 1) == [];
    assert Deleted(two, 1) == [two[1]];
  }

  /** The largest id in the library, or 0 for none. */
  function MaxId(library: seq<Entry>): (m: int)
    ensures forall e | e in library :: e.id <= m
    ensures library == [] ==> m == 0
    ensures library != [] && (forall e | e in library :: e.id >= 0) ==> exists e | e in library :: e.id == m
  {
    if library == [] then 0
    else
      var prev := MaxId(library[..|library| - 1]);
      var last := library[|library| - 1].id;
      if last > prev then last else prev
  }

  /** The evidently intended id: one more than every id in use, which is `len + 1` as long as nothing was deleted. */
  function NextId(library: seq<Entry>): (id: int)
    ensures forall e | e in library :: e.id < id
  {
    if library == [] then 1 else MaxId(library) + 1
  }

  /** Ids numbered 1, 2, ... in order, as adding without deleting leaves them. */
  predicate NumberedInOrder(library: seq<Entry>) {
    forall i | 0 <= i < |library| :: library[i].id == i + 1
  }

  /** Without deletions the corrected id agrees with the code's `len(library) + 1`. */
  lemma {:induction false} NextIdWithoutDeletes(library: seq<Entry>)
    requires NumberedInOrder(library)
    ensures NextId(library) == |library| + 1
  {
    if library != [] {
      MaxIdNumbered(library);
    }
  }

  lemma {:induction false} MaxIdNumbered(library: seq<Entry>)
    requires NumberedInOrder(library)
    ensures MaxId(library) == |library|
    decreases |library|
  {
    if library != [] {
      var init := library[..|library| - 1];
      assert NumberedInOrder(init) by {
        forall i | 0 <= i < |init| ensures init[i].id == i + 1 {
          assert init[i] == library[i];
        }
      }
      MaxIdNumbered(init);
    }
  }

  /** The prompt library kept in memory; loading and saving the file are not part of this model. */
  class PromptLibrary {
    var entries: seq<Entry>

    ghost predicate Valid()
      reads this
    {
      DistinctIds(entries)
    }

    constructor ()
      ensures Valid() && entries == []
    {
      entries := [];
    }

    /** `add_to_library`, with the intended fresh id: the entry is appended and nothing else changes. */
    method Add(name: string, domain: string, original: string, enhanced: string, differences: seq<string>,
               createdAt: string)
      returns (entry: Entry)
      requires Valid()
      modifies this
      ensures Valid()
      ensures entry == Entry(NextId(old(entries)), name, domain, original, enhanced, differences, createdAt)
      ensures entries == old(entries) + [entry]
    {
      entry := Entry(NextId(entries), name, domain, original, enhanced, differences, createdAt);
      entries := entries + [entry];
    }

    /** The delete button: keeps exactly the entries whose id differs. */
    method Delete(id: int)
      requires Valid()
      modifies this
      ensures Valid()
      ensures entries == Deleted(old(entries), id)
    {
      var kept: seq<Entry> := [];
      var i := 0;
      while i < |entries|
        invariant 0 <= i <= |entries|
        invariant kept == Deleted(entries[..i], id)
      {
        assert entries[..i + 1][..i] == entries[..i];
        if entries[i].id != id {
          kept := kept + [entries[i]];
        }
        i := i + 1;
      }
      assert entries[..i] == entries;
      DeletedDistinct(entries, id);
      entries := kept;
    }
  }

  /** Ids stay distinct when an entry with a fresh id is added. */
  lemma AddKeepsDistinct(library: seq<Entry>, e: Entry)
    requires DistinctIds(library) && e.id == NextId(library)
    ensures DistinctIds(library + [e])
  {
    var r := library + [e];
    forall i, j | 0 <= i < j < |r| ensures r[i].id != r[j].id {
      if j == |library| {
        assert r[i] in library;
      } else {
        assert r[i] == library[i] && r[j] == library[j];
      }
    }
  }

  /** Deleting keeps the survivors in their order, so distinct ids stay distinct. */
  lemma {:induction false} DeletedDistinct(library: seq<Entry>, id: int)
    requires DistinctIds(library)
    ensures DistinctIds(Deleted(library, id))
    decreases |library|
  {
    if library != [] {
      var init := library[..|library| - 1];
      var last := library[|library| - 1];
      assert DistinctIds(init) by {
        forall i, j | 0 <= i < j < |init| ensures init[i].id != init[j].id {
          assert init[i] == library[i] && init[j] == library[j];
        }
      }
      DeletedDistinct(init, id);
      var prev := Deleted(init, id);
      if last.id != id {
        var r := prev + [last];
        forall i, j | 0 <= i < j < |r| ensures r[i].id != r[j].id {
          if j == |prev| {
            assert r[i] in prev;
            assert r[i] in init;
            var k :| 0 <= k < |init| && init[k] == r[i];
            assert library[k] == r[i];
          } else {
            assert r[i] == prev[i] && r[j] == prev[j];
          }
        }
      }
    }
  }

  /** After a delete, no entry has the deleted id; with distinct ids exactly one entry fewer remains when it was present. */
  lemma DeleteRemovesId(library: seq<Entry>, id: int)
    ensures forall e | e in Deleted(library, id) :: e.id != id
    ensures (forall e | e in library :: e.id != id) ==> Deleted(library, id) == library
  {
    if forall e | e in library :: e.id != id {
      DeletedAll(library, id);
    }
  }

  lemma {:induction false} DeletedAll(library: seq<Entry>, id: int)
    requires forall e | e in library :: e.id != id
    ensures Deleted(library, id) == library
    decreases |library|
  {
    if library != [] {
      var init := library[..|library| - 1];
      assert forall e | e in init :: e in library;
      DeletedAll(init, id);
      assert init + [library[|library| - 1]] == library;
    }
  }
}
