# PromptWizard domain knowledge, modelled in Dafny

This project models the domain-knowledge layer of PromptWizard, a prompt
optimizer that rewrites a task prompt with a language model. The layer
gives the optimizer knowledge about a domain:

- **Domain configuration.** A domain (medical, legal, finance, English test
  items) is described by a `DomainConfig`. It holds:
  - tacit knowledge: principles, constraints, weighted quality criteria,
    thinking styles, expert personas, terminology, patterns and
    anti-patterns;
  - a case library of critical, edge and common test cases;
  - optional custom critique and refinement templates;
  - metadata.
- **Dict round trip.** Configurations are read from dicts (`from_dict`) and
  summarised back to dicts (`to_dict`).
- **Registry.** A process-wide `DomainRegistry` maps a domain type to its
  configuration and, optionally, an evaluator class. It keeps them in
  registration order.
- **Evaluator.** The `DomainEvaluator` scores a response. It computes:
  - accuracy against ground truth;
  - constraint compliance;
  - principle alignment;
  - one score per quality criterion;
  - coverage of matching test cases;
  - a weighted `overall`.

  The medical evaluator overrides every hook with keyword- and
  pattern-based heuristics.
- **Domain-aware optimizer.** It turns a configuration into:
  - an enhanced instruction;
  - an expert persona prompt;
  - critique and refinement prompts;
  - fallback scores;
  - a validation run over the case library;
  - a summary.

  `create_domain_optimizer` resolves a domain type to a configuration.
- **Validators.** Keyword, regex and JSON validators of generated content.
- **Domain-enhanced critique-and-refine technique.** It routes its style
  generation, critique, refinement, evaluation and final prompt through
  the domain optimizer when it has one.
- **Application.** The pure part of the Streamlit application:
  - the prompt-difference report;
  - the domain lookup;
  - the prompt library (adding and deleting entries).

How Python is represented:

- Python dicts read from YAML or JSON are a `Value` document type whose
  dicts are association lists. Lookups return the first entry with that
  key, and dict assignment overwrites in place or appends.
- Score maps are association lists with the same assignment rule. So a
  quality criterion named like a standard metric overwrites that metric's
  score, as in Python.
- Strings are sequences of code points, as Python's `len` and slicing see
  them.
- The language model, the dataset processor, the regex and JSON engines,
  the base technique and the file system are parameters of the model.

Module layout, one module per file:

- `Wrappers`, `Text`, `Assoc`, `Document`: results, string helpers,
  association lists, documents.
- `Knowledge`: the dataclasses of the configuration and the case library
  queries.
- `Serialization`: `from_dict` and `to_dict`.
- `Scoring`: the weighted score.
- `Evaluation`: the evaluator.
- `Medical`: the medical evaluator.
- `Template`: `str.format` and its `replace` fallback.
- `Critique`: critique and refinement prompts.
- `EnglishTemplate`: the English question refinement template.
- `Registry`: the domain registry.
- `Fixtures`: the package's registered configurations.
- `Optimizer`: the domain-aware optimizer.
- `Validators`: the validators.
- `Enhanced`: the domain-enhanced technique.
- `App`: the application's pure parts.

Where the code and its documentation disagree, the model follows the
code, except where a Findings row shows the code cannot do what it evidently
means: there an as-written member models the code and the rest of the model
uses the corrected member:

- `DomainConfig` has no `validators` field, although the medical and
  English configurations pass one (see Findings). The model adds the field
  through the corrected constructor `Fixtures.NewConfig`.
- An `<IMPROVED_PROMPT>` tag fallback is described, but as written it can
  never succeed (see Findings). `critique_and_refine` is modelled with the
  corrected extraction; its contract states that it agrees with the code
  whenever the delimited pattern matches.
- A new library entry's id is `len(library) + 1`, which repeats an id after
  a deletion (see Findings). `App.PromptLibrary.Add` uses the corrected id
  `App.NextId`, one more than the largest id in use; it agrees with
  `len(library) + 1` while nothing was deleted.
- `not self.domain_config.case_library` is always false, because the case
  library dataclass defines no length. So only the question decides
  whether `case_coverage` is computed.
- A document field of the wrong type makes the typed `from_dict` fail,
  where Python would store the value unchecked.

## Model

| member | source | states |
|---|---|---|
| Knowledge.AllCases | promptwizard/glue/promptopt/domains/base_domain.py:124-126 | all cases are the critical, then the edge, then the common cases, each bucket intact and in order |
| Knowledge.FilterCategory | promptwizard/glue/promptopt/domains/base_domain.py:128-131 | the result holds exactly the given cases of that category, and no more of them than there are |
| Knowledge.CasesByCategory | promptwizard/glue/promptopt/domains/base_domain.py:128-131 | a case of the library is returned iff its category is the one asked for |
| Knowledge.FilterCategoryOrder | promptwizard/glue/promptopt/domains/base_domain.py:131 | the filtered cases are a subsequence of the input, so their order is kept |
| Knowledge.CasesByCategoryBuckets | promptwizard/glue/promptopt/domains/base_domain.py:128-131 | filtering all cases is filtering each bucket in turn, and the result is a subsequence of all cases |
| Document.Iterate | promptwizard/glue/promptopt/domains/base_domain.py:66-73 | iterating a list yields its items; iterating null, a boolean or a number fails as in Python |
| Serialization.AsStrings | promptwizard/glue/promptopt/domains/base_domain.py:76-83 | a list is accepted as strings only when it is exactly the document of those strings |
| Serialization.StringItems | promptwizard/glue/promptopt/domains/base_domain.py:76-83 | accepted items are exactly the documents of the strings returned |
| Serialization.StringsRoundTrip | promptwizard/glue/promptopt/domains/base_domain.py:76-83 | reading back a list of strings written as a document returns the same strings |
| Serialization.StrMapRoundTrip | promptwizard/glue/promptopt/domains/base_domain.py:81 | reading back the terminology dict written as a document returns the same entries in order |
| Serialization.CriteriaRoundTrip | promptwizard/glue/promptopt/domains/base_domain.py:66-68 | criteria written by `to_dict` and read back keep name, weight and description; the evaluation prompt comes back empty |
| Serialization.PersonasRoundTrip | promptwizard/glue/promptopt/domains/base_domain.py:71-73 | personas written by `to_dict` and read back keep role, focus and background; the thinking approach comes back empty |
| Serialization.GroupCasesStampCategory | promptwizard/glue/promptopt/domains/base_domain.py:110-115 | every case parsed from a category's dict carries that category, and there is one case per dict |
| Serialization.ConfigFromDict | promptwizard/glue/promptopt/domains/base_domain.py:167-184 | a non-dict fails; the domain type defaults to "general" and the name to the type; knowledge is read from `tacit_knowledge` when present, else from `knowledge`, else empty; no validators are read |
| Serialization.StripPrompts | promptwizard/glue/promptopt/domains/base_domain.py:195-198 | each criterion is kept with only its evaluation prompt cleared |
| Serialization.StripApproaches | promptwizard/glue/promptopt/domains/base_domain.py:200-203 | each persona is kept with only its thinking approach cleared |
| Serialization.KnowledgeDocFields | promptwizard/glue/promptopt/domains/base_domain.py:192-207 | each knowledge list sits under its own key of the `to_dict` document |
| Serialization.KnowledgeRoundTrip | promptwizard/glue/promptopt/domains/base_domain.py:63-84 | `from_dict` inverts the knowledge part of `to_dict`, up to the cleared prompts and approaches |
| Serialization.ConfigDocFields | promptwizard/glue/promptopt/domains/base_domain.py:186-211 | each configuration field sits under its own key of the document, and there is no case library key |
| Serialization.ConfigRoundTrip | promptwizard/glue/promptopt/domains/base_domain.py:167-211 | `from_dict(to_dict(c))` succeeds and gives `c` without cases, validators, evaluation prompts or thinking approaches |
| Scoring.WeightMapLookup | promptwizard/glue/promptopt/domains/base_domain.py:416-419 | the weight dict maps a name to the weight of the last criterion with that name, and has no entry for other names |
| Scoring.LastWeight | promptwizard/glue/promptopt/domains/base_domain.py:416-419 | a weight is found iff some criterion has that name, and it is that criterion's weight |
| Scoring.MetricWeightCases | promptwizard/glue/promptopt/domains/base_domain.py:436 | a metric weighs its criterion's weight if there is one, else its default weight |
| Scoring.CriterionWeightWins | promptwizard/glue/promptopt/domains/base_domain.py:416-419 | a criterion not overridden by a later one of the same name supplies its metric's weight |
| Scoring.CalculateWeightedScore | promptwizard/glue/promptopt/domains/base_domain.py:410-440 | the loop computes the weighted mean of the non-overall scores |
| Scoring.SumsBounded | promptwizard/glue/promptopt/domains/base_domain.py:429-438 | with non-negative weights, the weighted sum lies between the total weight times the lowest and the highest score |
| Scoring.SumAbove | promptwizard/glue/promptopt/domains/base_domain.py:429-438 | the weighted sum is at least the total weight times the lower bound |
| Scoring.SumBelow | promptwizard/glue/promptopt/domains/base_domain.py:429-438 | the weighted sum is at most the total weight times the upper bound |
| Scoring.WeightedScoreBetween | promptwizard/glue/promptopt/domains/base_domain.py:410-440 | the weighted score of scores in [lo, hi] lies in [lo, hi] |
| Scoring.WeightedScoreUnit | promptwizard/glue/promptopt/domains/base_domain.py:440 | scores in [0, 1] give a weighted score in [0, 1], including the zero-weight result 0 |
| Scoring.OverallIgnored | promptwizard/glue/promptopt/domains/base_domain.py:433-434 | an `overall` entry does not change the weighted score |
| Evaluation.ExtractForbiddenKeywords | promptwizard/glue/promptopt/domains/base_domain.py:305-308 | the default extracts no keywords |
| Evaluation.BaseNeverViolates | promptwizard/glue/promptopt/domains/base_domain.py:285-308 | with no forbidden keywords, no constraint is ever violated |
| Evaluation.BaseConstraintScore | promptwizard/glue/promptopt/domains/base_domain.py:268-283 | 1.0 exactly when no constraint is violated; with constraints, 0.0 exactly when every one is violated; always in [0, 1] |
| Evaluation.CheckConstraints | promptwizard/glue/promptopt/domains/base_domain.py:276-283 | the counting loop returns the constraint score |
| Evaluation.BaseConstraintsPerfect | promptwizard/glue/promptopt/domains/base_domain.py:268-308 | the default constraint check always scores 1.0 |
| Evaluation.BasePrincipleScore | promptwizard/glue/promptopt/domains/base_domain.py:310-325 | 1.0 exactly when every principle is aligned; with principles, 0.0 exactly when none is; always in [0, 1] |
| Evaluation.CheckPrinciples | promptwizard/glue/promptopt/domains/base_domain.py:318-325 | the counting loop returns the principle score |
| Evaluation.BasePrinciplesPerfect | promptwizard/glue/promptopt/domains/base_domain.py:327-333 | the default alignment check always scores 1.0 |
| Evaluation.ConstraintCompliance | promptwizard/glue/promptopt/domains/base_domain.py:244-245 | compliance lies in [0, 1] and is 1.0 for the default evaluator |
| Evaluation.PrincipleAlignment | promptwizard/glue/promptopt/domains/base_domain.py:246-247 | alignment lies in [0, 1] and is 1.0 for the default evaluator |
| Evaluation.CriterionScore | promptwizard/glue/promptopt/domains/base_domain.py:335-341 | a criterion score lies in [0, 1] and is 0.5 for the default evaluator |
| Evaluation.QuestionsMatchCharacterised | promptwizard/glue/promptopt/domains/base_domain.py:375-386 | two questions match iff both have words and they share more than half of the smaller word set |
| Evaluation.QuestionsMatchSymmetric | promptwizard/glue/promptopt/domains/base_domain.py:375-386 | matching does not depend on argument order |
| Evaluation.EmptyQuestionMatchesNothing | promptwizard/glue/promptopt/domains/base_domain.py:383-384 | a question without words matches no question |
| Evaluation.MatchingCasesExactly | promptwizard/glue/promptopt/domains/base_domain.py:361-373 | the matching cases are exactly the given cases whose lowered question matches |
| Evaluation.FindMatchingCases | promptwizard/glue/promptopt/domains/base_domain.py:361-373 | the search over all cases returns the matching cases of the lowered question |
| Evaluation.KeepMatching | promptwizard/glue/promptopt/domains/base_domain.py:367-371 | the filtering loop returns the matching cases in order |
| Evaluation.FoundFraction | promptwizard/glue/promptopt/domains/base_domain.py:398-406 | the fraction of elements found lies in [0, 1], with the given value for no elements |
| Evaluation.SingleCaseScore | promptwizard/glue/promptopt/domains/base_domain.py:388-408 | the case score lies in [0, 1]; without forbidden hits it is the expected fraction; with none of the expected elements it is 0 |
| Evaluation.PerfectCase | promptwizard/glue/promptopt/domains/base_domain.py:388-408 | every expected element present and no forbidden one scores 1.0 |
| Evaluation.EvaluateSingleCase | promptwizard/glue/promptopt/domains/base_domain.py:388-408 | the method returns the case score |
| Evaluation.CaseCoverage | promptwizard/glue/promptopt/domains/base_domain.py:343-359 | coverage exists iff the question is non-empty and some case matches it, and it lies in [0, 1] |
| Evaluation.SumCaseScores | promptwizard/glue/promptopt/domains/base_domain.py:354-357 | the loop sums the case scores |
| Evaluation.EvaluateAgainstCases | promptwizard/glue/promptopt/domains/base_domain.py:343-359 | the method returns the coverage |
| Evaluation.CriterionEntries | promptwizard/glue/promptopt/domains/base_domain.py:250-251 | one entry per quality criterion, under its name, with its criterion score |
| Evaluation.PutCriterionScores | promptwizard/glue/promptopt/domains/base_domain.py:250-251 | the loop writes the criterion entries in order with dict assignment |
| Evaluation.ComplianceAndAlignment | promptwizard/glue/promptopt/domains/base_domain.py:244-247 | the two hooks return compliance and alignment |
| Evaluation.EvaluateHooks | promptwizard/glue/promptopt/domains/base_domain.py:237-256 | the hooks are called and stored in source order |
| Evaluation.Evaluate | promptwizard/glue/promptopt/domains/base_domain.py:224-261 | `evaluate` returns the hook scores with the weighted `overall` added |
| Evaluation.AssembleKeys | promptwizard/glue/promptopt/domains/base_domain.py:237-256 | the assembled map has compliance, alignment, each criterion, and accuracy and coverage exactly when computed |
| Evaluation.AssembleValues | promptwizard/glue/promptopt/domains/base_domain.py:237-256 | when no criterion shadows them, each standard key holds the value of its hook |
| Evaluation.AssembleWithin | promptwizard/glue/promptopt/domains/base_domain.py:237-256 | bounded hook values give a bounded map |
| Evaluation.EvaluationKeys | promptwizard/glue/promptopt/domains/base_domain.py:237-259 | a key is in the result iff it is `overall`, compliance, alignment, a criterion name, accuracy given ground truth, or coverage given a matching question |
| Evaluation.EvaluationOverall | promptwizard/glue/promptopt/domains/base_domain.py:259 | `overall` is the weighted score of the other scores |
| Evaluation.EvaluationStandardValues | promptwizard/glue/promptopt/domains/base_domain.py:240-256 | when no criterion shadows them, the standard keys hold the hook values |
| Evaluation.MedicalScoresUnit | promptwizard/glue/promptopt/domains/medical/evaluator.py:60-378 | with non-negative weights every score of the medical evaluator lies in [0, 1] |
| Medical.DotStarScanCorrect | promptwizard/glue/promptopt/domains/medical/evaluator.py:22-30 | the line-by-line scan finds a dangerous pattern `a.*b` iff `a` is followed by `b` on the same line |
| Medical.DangerousPatternsLineLocal | promptwizard/glue/promptopt/domains/medical/evaluator.py:22-30 | no dangerous pattern's second part contains a newline, so the scan applies to all of them |
| Medical.LineEnd | promptwizard/glue/promptopt/domains/medical/evaluator.py:22-30 | the end of the line is the next newline or the end of the text |
| Medical.Numbers | promptwizard/glue/promptopt/domains/medical/evaluator.py:93-94 | every number extracted is a non-empty run starting with a digit |
| Medical.DigitRun | promptwizard/glue/promptopt/domains/medical/evaluator.py:93-94 | the run is the longest prefix of digits |
| Medical.WordOverlap | promptwizard/glue/promptopt/domains/medical/evaluator.py:72-82 | the fraction of ground-truth words in the response lies in [0, 1] |
| Medical.CheckAccuracy | promptwizard/glue/promptopt/domains/medical/evaluator.py:60-88 | no ground-truth words score 0.5; otherwise between the word overlap and the overlap plus 0.2, and exactly the overlap when the key elements are missing; in [0, 1] |
| Medical.UntriggeredNeverViolated | promptwizard/glue/promptopt/domains/medical/evaluator.py:125-158 | a constraint mentioning no diagnosis, dosage or consultation trigger is never violated |
| Medical.ConstraintScore | promptwizard/glue/promptopt/domains/medical/evaluator.py:102-123 | in [0, 1]; 1.0 exactly when no dangerous pattern and no constraint matches, 0.0 exactly when all of them match |
| Medical.CheckConstraints | promptwizard/glue/promptopt/domains/medical/evaluator.py:102-123 | the two counting loops return the constraint score |
| Medical.DefaultPrinciplesScore | promptwizard/glue/promptopt/domains/medical/evaluator.py:176-196 | in [0.5, 1]; 1.0 exactly when safety, evidence and emergency-context-with-keyword all appear, 0.5 exactly when none of the three bonuses applies |
| Medical.PrincipleScore | promptwizard/glue/promptopt/domains/medical/evaluator.py:160-174 | no principles give the default score; otherwise in [0, 1], 1.0 exactly when all are aligned and 0.0 exactly when none is |
| Medical.CheckPrinciples | promptwizard/glue/promptopt/domains/medical/evaluator.py:160-174 | the counting loop returns the principle score |
| Medical.UnrecognisedPrinciplesAligned | promptwizard/glue/promptopt/domains/medical/evaluator.py:221 | a principle of no recognised kind always counts as aligned |
| Medical.SafetyScore | promptwizard/glue/promptopt/domains/medical/evaluator.py:245-262 | the safety score lies in [0, 1] |
| Medical.SafeResponseAtLeastHalf | promptwizard/glue/promptopt/domains/medical/evaluator.py:247-262 | a response matching no dangerous pattern scores at least 0.5 for safety |
| Medical.DangerousResponseLow | promptwizard/glue/promptopt/domains/medical/evaluator.py:254-262 | three dangerous patterns and no caveat score at most 0.2 for safety |
| Medical.EvidenceScore | promptwizard/glue/promptopt/domains/medical/evaluator.py:264-277 | the evidence score lies in [0.3, 1] |
| Medical.EvidenceScoreExtremes | promptwizard/glue/promptopt/domains/medical/evaluator.py:264-277 | the floor 0.3 is reached iff no evidence or hedging word occurs; four evidence and three hedging words reach 1.0 |
| Medical.ClarityScore | promptwizard/glue/promptopt/domains/medical/evaluator.py:279-303 | in [0.3, 1]; 1.0 exactly for sentences of 10 to 25 words with structure and conclusion markers, 0.3 exactly for sentences over 40 words with neither marker |
| Medical.CompletenessScore | promptwizard/glue/promptopt/domains/medical/evaluator.py:305-322 | in [0.3, 1]; 0.3 exactly when no coverage aspect is covered, 1.0 exactly when all five are |
| Medical.EvaluateCompleteness | promptwizard/glue/promptopt/domains/medical/evaluator.py:305-322 | the aspect loop returns the completeness score |
| Medical.EmpathyScore | promptwizard/glue/promptopt/domains/medical/evaluator.py:324-341 | the empathy score lies in [0.4, 1] |
| Medical.EmpathyScoreExtremes | promptwizard/glue/promptopt/domains/medical/evaluator.py:324-341 | the floor 0.4 is reached iff no indicator and no patient-centred word occurs; patient-centred words alone give 0.6; four indicators with them give 1.0 |
| Medical.CriterionScore | promptwizard/glue/promptopt/domains/medical/evaluator.py:223-243 | each recognised criterion kind is scored by its own function of the response, any other criterion 0.5 |
| Medical.EmergencyHandlingScore | promptwizard/glue/promptopt/domains/medical/evaluator.py:343-378 | a non-emergency question scores 1.0; for an emergency, 1.0 exactly when venue, urgency and an early mention all appear, 0.0 exactly when none does, and at least 0.5 with a venue |
| Medical.EarlyMentionImpliesVenueOrUrgency | promptwizard/glue/promptopt/domains/medical/evaluator.py:373-376 | an emergency answer that mentions help in its first 100 characters scores at least 0.5 |
| Template.IndexOf | promptwizard/glue/promptopt/domains/base_domain.py:493 | the index found is the first occurrence of the character, and none means it is absent |
| Template.NameLength | promptwizard/glue/promptopt/domains/base_domain.py:493 | the field name extends to the first `.`, `[`, `!` or `:` |
| Template.RenderTemplate | promptwizard/glue/promptopt/domains/base_domain.py:492-498 | `format` is used when it succeeds; a `KeyError` falls back to replacing each `{name}`; any other format error propagates |
| Template.ReplaceVariables | promptwizard/glue/promptopt/domains/base_domain.py:496-497 | the replace loop applies every variable's replacement in order |
| Template.FormatAllKnown | promptwizard/glue/promptopt/domains/base_domain.py:493 | a template whose every field is a known variable formats to its substitution |
| Template.FormatSomeUnknown | promptwizard/glue/promptopt/domains/base_domain.py:493-494 | a template with an unknown field fails with `KeyError` |
| Template.ReplaceOnSegments | promptwizard/glue/promptopt/domains/base_domain.py:497 | replacing `{k}` rewrites exactly the fields named `k` |
| Template.ReplaceEachSubstitutes | promptwizard/glue/promptopt/domains/base_domain.py:496-498 | with brace-free values the replace fallback substitutes the known fields and keeps the unknown ones |
| Template.RenderSubstitutes | promptwizard/glue/promptopt/domains/base_domain.py:491-498 | rendering substitutes the known fields whichever path is taken, and `format` succeeds iff every field is known |
| Template.ChainedFormat | promptwizard/glue/promptopt/domains/base_domain.py:493-494 | `format` of a template with an unknown field fails with `KeyError` even when another field is known |
| Template.ChainedReplace | promptwizard/glue/promptopt/domains/base_domain.py:496-497 | a value that holds another variable's field is rewritten by the later replacement |
| Template.FallbackRewritesInsertedText | promptwizard/glue/promptopt/domains/base_domain.py:496-497 | the fallback can differ from one-pass substitution when a value contains a later variable's field |
| Critique.NumberedFrom | promptwizard/glue/promptopt/domains/base_domain.py:626 | one line per item, numbered from one, in order |
| Critique.CollectCriterionLines | promptwizard/glue/promptopt/domains/base_domain.py:634-638 | the loop builds one line per criterion, in order |
| Critique.CollectScoreLines | promptwizard/glue/promptopt/domains/base_domain.py:647-650 | the loop builds one line per score, in order |
| Critique.FormatListEmpty | promptwizard/glue/promptopt/domains/base_domain.py:624-626 | the list reads "(없음)" iff it is empty |
| Critique.FormatListLines | promptwizard/glue/promptopt/domains/base_domain.py:622-626 | splitting a formatted list at newlines gives back its numbered items |
| Critique.FormatCriteriaLines | promptwizard/glue/promptopt/domains/base_domain.py:628-640 | splitting the formatted criteria gives one line per criterion |
| Critique.FormatScoresLines | promptwizard/glue/promptopt/domains/base_domain.py:642-652 | splitting the formatted scores gives one line per score |
| Critique.CritiqueVariables | promptwizard/glue/promptopt/domains/base_domain.py:479-489 | the critique template sees nine variables, in this order |
| Critique.RefinementVariables | promptwizard/glue/promptopt/domains/base_domain.py:565-574 | the refinement template sees eight variables, in this order |
| Critique.DefaultCritiqueShape | promptwizard/glue/promptopt/domains/base_domain.py:500-540 | the default critique opens with the domain sentence, carries the instruction section and ends with the requests |
| Critique.DefaultCritiqueScoreBlock | promptwizard/glue/promptopt/domains/base_domain.py:523-527 | with scores the block is inserted before the requests; without scores the prompt is unchanged |
| Critique.CustomCritiqueSubstitutes | promptwizard/glue/promptopt/domains/base_domain.py:466-498 | a custom critique template is rendered by substituting its variables |
| Critique.DefaultRefinementShape | promptwizard/glue/promptopt/domains/base_domain.py:583-620 | the default refinement opens with the first persona, or with the domain sentence without one, holds the tags and ends with the request |
| EnglishTemplate.PlaceholderKept | promptwizard/glue/promptopt/domains/base_domain.py:576-581 | a refinement template with a field that is not a refinement variable keeps that field verbatim and substitutes the critique |
| EnglishTemplate.EnglishRefinementKeepsPlaceholder | promptwizard/glue/promptopt/domains/english_question/config.py:969-986 | the English refinement prompt keeps `{original_instruction}` literally and substitutes only the critique |
| Registry.RegisterOrdered | promptwizard/glue/promptopt/domains/base_domain.py:665-670 | registering keeps the order list duplicate-free and equal to the registered types |
| Registry.RegisterAppends | promptwizard/glue/promptopt/domains/base_domain.py:668 | a new type is appended at the end of the order |
| Registry.RegisterFour | promptwizard/glue/promptopt/domains/__init__.py:54-57 | four distinct registrations list their types in registration order |
| Registry.RegisterThenGet | promptwizard/glue/promptopt/domains/base_domain.py:665-680 | a registered configuration is found under its type, its evaluator replaces the old one only when given, and other types are unchanged |
| Registry.ReRegisterKeepsEvaluator | promptwizard/glue/promptopt/domains/base_domain.py:668-670 | re-registering a type without an evaluator replaces its configuration, keeps its evaluator and its place in the order |
| Registry.LoadAllEvaluators | promptwizard/glue/promptopt/domains/base_domain.py:688-700 | loading a directory registers no evaluator |
| Registry.LoadAllOrdered | promptwizard/glue/promptopt/domains/base_domain.py:688-700 | loading keeps the order invariant |
| Registry.LoadAllFinds | promptwizard/glue/promptopt/domains/base_domain.py:688-700 | a parsed YAML file not overridden by a later one is found under its type |
| Registry.LoadAllSkips | promptwizard/glue/promptopt/domains/base_domain.py:688-700 | files that are not YAML or do not parse change nothing |
| Registry.DomainRegistry.constructor | promptwizard/glue/promptopt/domains/base_domain.py:661-662 | the registry starts empty |
| Registry.DomainRegistry.RegisterDomain | promptwizard/glue/promptopt/domains/base_domain.py:665-670 | the new state is the registration of the configuration and evaluator |
| Registry.DomainRegistry.GetDomain | promptwizard/glue/promptopt/domains/base_domain.py:673-675 | a configuration is returned iff its type is registered, and it is the registered one |
| Registry.DomainRegistry.GetEvaluator | promptwizard/glue/promptopt/domains/base_domain.py:678-680 | an evaluator class is returned iff one was registered for the type |
| Registry.DomainRegistry.ListDomains | promptwizard/glue/promptopt/domains/base_domain.py:683-685 | the registered types, each once, in registration order |
| Registry.DomainRegistry.Clear | promptwizard/glue/promptopt/domains/base_domain.py:703-706 | the registry is empty again |
| Registry.DomainRegistry.LoadFile | promptwizard/glue/promptopt/domains/base_domain.py:693-700 | one file is registered when it is YAML and parses |
| Registry.DomainRegistry.LoadFromDirectory | promptwizard/glue/promptopt/domains/base_domain.py:688-700 | a missing directory changes nothing; otherwise each listed file is loaded in turn |
| Fixtures.DefaultRegistryOrder | promptwizard/glue/promptopt/domains/__init__.py:54-57 | the package registers medical, legal, finance and english_question, in that order |
| Fixtures.DefaultRegistryDomains | promptwizard/glue/promptopt/domains/__init__.py:54-57 | each registered type maps to its configuration |
| Fixtures.DefaultRegistryUnknown | promptwizard/glue/promptopt/domains/__init__.py:54-57 | no other type is registered |
| Fixtures.DefaultRegistryEvaluators | promptwizard/glue/promptopt/domains/__init__.py:54 | only medical has an evaluator, the medical one |
| Fixtures.NewConfigAsWritten | promptwizard/glue/promptopt/domains/base_domain.py:134-157 | passing `validators` to `DomainConfig` fails with `TypeError`, and otherwise there are none |
| Fixtures.NewConfig | promptwizard/glue/promptopt/domains/base_domain.py:134-157 | the corrected constructor stores the validators and every other field as given |
| Fixtures.MedicalConfigValidators | promptwizard/glue/promptopt/domains/medical/config.py:374-391 | the medical configuration as written fails to construct; corrected, it has its two validators |
| Optimizer.NewOptimizer | promptwizard/glue/promptopt/domains/domain_aware_optimizer.py:26-58 | the optimizer keeps the configuration and the evaluator chosen against the registry |
| Optimizer.ConstructEvaluator | promptwizard/glue/promptopt/domains/domain_aware_optimizer.py:46-55 | an explicit evaluator wins; else the registered class is instantiated on the configuration; else there is none |
| Optimizer.Bullets | promptwizard/glue/promptopt/domains/domain_aware_optimizer.py:82 | one "- " line per item, in order |
| Optimizer.EnhanceBaseInstruction | promptwizard/glue/promptopt/domains/domain_aware_optimizer.py:60-95 | the method returns the enhanced instruction |
| Optimizer.EnhancedShape | promptwizard/glue/promptopt/domains/domain_aware_optimizer.py:60-95 | the enhanced instruction opens with the domain sentence and ends with the base instruction; without lists it is exactly those two |
| Optimizer.EnhancedListsParts | promptwizard/glue/promptopt/domains/domain_aware_optimizer.py:81-88 | each non-empty list appears under its heading |
| Optimizer.TopBulletLines | promptwizard/glue/promptopt/domains/domain_aware_optimizer.py:82-87 | the bullet block splits into the first three items as bullets |
| Optimizer.ExpertPromptShape | promptwizard/glue/promptopt/domains/domain_aware_optimizer.py:106-124 | without personas the prompt is the domain sentence; otherwise it introduces the first persona and ends with its approach |
| Optimizer.LongWords | promptwizard/glue/promptopt/domains/domain_aware_optimizer.py:197-201 | a word is kept iff it is longer than two characters |
| Optimizer.ExtractTerms | promptwizard/glue/promptopt/domains/domain_aware_optimizer.py:197-201 | the terms are the words of the text longer than two characters |
| Optimizer.BasicConstraintScore | promptwizard/glue/promptopt/domains/domain_aware_optimizer.py:176-195 | 1.0 exactly when no constraint is violated in the lowered response; with constraints, 0.0 exactly when all are violated; in [0, 1] |
| Optimizer.AnyTermOccurs | promptwizard/glue/promptopt/domains/domain_aware_optimizer.py:190-193 | the search finds a term iff some term occurs in the lowered response |
| Optimizer.ProhibitionViolated | promptwizard/glue/promptopt/domains/domain_aware_optimizer.py:187-193 | the method decides whether a prohibition is violated |
| Optimizer.CheckBasicConstraints | promptwizard/glue/promptopt/domains/domain_aware_optimizer.py:176-195 | the counting loop returns the constraint score |
| Optimizer.NoProhibitionNoViolation | promptwizard/glue/promptopt/domains/domain_aware_optimizer.py:187 | constraints without "금지" are never counted as violated |
| Optimizer.ProhibitionFreeScore | promptwizard/glue/promptopt/domains/domain_aware_optimizer.py:187 | a configuration without prohibitions scores 1.0 |
| Optimizer.AllViolatedScore | promptwizard/glue/promptopt/domains/domain_aware_optimizer.py:195 | every constraint violated scores 0.0 |
| Optimizer.DefaultAccuracy | promptwizard/glue/promptopt/domains/domain_aware_optimizer.py:158-163 | accuracy lies in [0, 1] and is 0.5 when the ground truth has no words |
| Optimizer.DefaultAccuracyAllWords | promptwizard/glue/promptopt/domains/domain_aware_optimizer.py:161-163 | a response containing every ground-truth word scores 1.0 |
| Optimizer.DefaultAccuracyNoWords | promptwizard/glue/promptopt/domains/domain_aware_optimizer.py:161-163 | a response sharing no ground-truth word scores 0.0 |
| Optimizer.DefaultEvaluate | promptwizard/glue/promptopt/domains/domain_aware_optimizer.py:149-174 | the method returns the fallback scores |
| Optimizer.Mean | promptwizard/glue/promptopt/domains/domain_aware_optimizer.py:170 | the mean lies between the two values |
| Optimizer.FallbackScoresWithAccuracy | promptwizard/glue/promptopt/domains/domain_aware_optimizer.py:155-174 | with accuracy, the keys are accuracy, compliance and their mean as `overall` |
| Optimizer.DefaultScoresWithTruth | promptwizard/glue/promptopt/domains/domain_aware_optimizer.py:155-174 | with ground truth the fallback reports accuracy, compliance and their mean |
| Optimizer.DefaultScoresWithoutTruth | promptwizard/glue/promptopt/domains/domain_aware_optimizer.py:155-174 | without ground truth `overall` is the compliance |
| Optimizer.DefaultScoresWithin | promptwizard/glue/promptopt/domains/domain_aware_optimizer.py:155-174 | every fallback score lies in [0, 1] |
| Optimizer.EvaluateResponse | promptwizard/glue/promptopt/domains/domain_aware_optimizer.py:126-147 | the evaluator's scores when there is one, else the fallback scores |
| Optimizer.CriticalTestCases | promptwizard/glue/promptopt/domains/domain_aware_optimizer.py:245-261 | one dict per critical case, in order |
| Optimizer.CaseEntriesRoundTrip | promptwizard/glue/promptopt/domains/domain_aware_optimizer.py:253-260 | reading a critical-case dict back as a test case gives the case without its explanation |
| Optimizer.CaseResponseScore | promptwizard/glue/promptopt/domains/domain_aware_optimizer.py:308-329 | the case score lies in [0, 1] and an empty response scores 0 |
| Optimizer.CaseResponseWithoutForbidden | promptwizard/glue/promptopt/domains/domain_aware_optimizer.py:308-329 | without forbidden elements it agrees with the evaluator's single-case score |
| Optimizer.CaseResponseFourForbidden | promptwizard/glue/promptopt/domains/domain_aware_optimizer.py:321-329 | four forbidden elements bring the score to 0 |
| Optimizer.CaseResponsePerfect | promptwizard/glue/promptopt/domains/domain_aware_optimizer.py:308-329 | every expected element and no forbidden one score 1.0 |
| Optimizer.Preview | promptwizard/glue/promptopt/domains/domain_aware_optimizer.py:302 | a response up to 200 characters is stored whole; a longer one as its first 200 characters and "..." |
| Optimizer.CaseOutcomes | promptwizard/glue/promptopt/domains/domain_aware_optimizer.py:285-303 | one outcome per case, in order |
| Optimizer.ScoreCases | promptwizard/glue/promptopt/domains/domain_aware_optimizer.py:282-303 | the loop returns the outcomes and their score total |
| Optimizer.ValidateAgainstCases | promptwizard/glue/promptopt/domains/domain_aware_optimizer.py:263-306 | the method returns the validation result |
| Optimizer.ValidationResults | promptwizard/glue/promptopt/domains/domain_aware_optimizer.py:278-306 | no cases give (1.0, []); otherwise one result per case, with its question, category, score and preview, a failed call scoring 0 |
| Optimizer.ValidationOverall | promptwizard/glue/promptopt/domains/domain_aware_optimizer.py:305 | the overall validation score lies in [0, 1] |
| Optimizer.SummaryAfterRoundTrip | promptwizard/glue/promptopt/domains/domain_aware_optimizer.py:331-353 | a configuration through `to_dict` and `from_dict` has the same summary with zero cases |
| Optimizer.CreateDomainOptimizer | promptwizard/glue/promptopt/domains/domain_aware_optimizer.py:356-405 | the factory method returns the resolved optimizer or the error |
| Optimizer.ResolutionOrder | promptwizard/glue/promptopt/domains/domain_aware_optimizer.py:374-392 | custom, then registered, then built-in configuration; it fails with `ValueError` iff none applies |
| Optimizer.MedicalGetsMedicalEvaluator | promptwizard/glue/promptopt/domains/domain_aware_optimizer.py:395-398 | the medical type always gets a medical evaluator on the resolved configuration |
| Optimizer.EnglishOnlyThroughRegistry | promptwizard/glue/promptopt/domains/domain_aware_optimizer.py:380-392 | english_question resolves iff it is registered |
| Optimizer.DefaultRegistryLegal | promptwizard/glue/promptopt/domains/domain_aware_optimizer.py:374-392 | with the package's registry, legal resolves to its configuration without an evaluator |
| Optimizer.DefaultRegistryEnglish | promptwizard/glue/promptopt/domains/domain_aware_optimizer.py:374-392 | with the package's registry, english_question resolves to its configuration |
| Optimizer.DefaultRegistryUnknownFails | promptwizard/glue/promptopt/domains/domain_aware_optimizer.py:390-392 | with the package's registry, any other type fails with `ValueError` |
| Validators.ToDict | promptwizard/glue/promptopt/domains/validators.py:26-31 | the dict has name, type and description, in that order |
| Validators.ToDictDeterminedBy | promptwizard/glue/promptopt/domains/validators.py:26-31 | two validators give the same dict iff they agree on name, description and class |
| Validators.ErrorMessageIsFailureMessage | promptwizard/glue/promptopt/domains/validators.py:23-24 | the error message is the given failure message, with each class's default otherwise |
| Validators.FoundKeywords | promptwizard/glue/promptopt/domains/validators.py:55 | found keywords are given keywords occurring in the lowered content |
| Validators.FoundAll | promptwizard/glue/promptopt/domains/validators.py:55-59 | every keyword is found iff every keyword occurs |
| Validators.FoundNone | promptwizard/glue/promptopt/domains/validators.py:55-62 | no keyword is found iff none occurs |
| Validators.MustIncludeIff | promptwizard/glue/promptopt/domains/validators.py:57-59 | an including validator passes iff every keyword occurs, ignoring case |
| Validators.MustExcludeIff | promptwizard/glue/promptopt/domains/validators.py:60-62 | an excluding validator passes iff no keyword occurs, ignoring case |
| Validators.EmptyKeywordsPass | promptwizard/glue/promptopt/domains/validators.py:53-62 | no keywords pass both ways |
| Validators.SingleKeywordOpposite | promptwizard/glue/promptopt/domains/validators.py:53-62 | for one keyword, including and excluding give opposite verdicts |
| Validators.SearchFrom | promptwizard/glue/promptopt/domains/validators.py:41-42 | the search succeeds iff some match starts at or after the position |
| Validators.RegexValid | promptwizard/glue/promptopt/domains/validators.py:41-42 | `re.search` succeeds iff the pattern matches some span of the content |
| Validators.IndexFrom | promptwizard/glue/promptopt/domains/validators.py:75-77 | the index found is the first occurrence at or after the position |
| Validators.UnfencedIsWhole | promptwizard/glue/promptopt/domains/validators.py:78-79 | content without a JSON fence is parsed whole |
| Validators.FencedBody | promptwizard/glue/promptopt/domains/validators.py:75-77 | a fenced JSON block yields its body without surrounding spaces |
| Validators.FenceRoundTrip | promptwizard/glue/promptopt/domains/validators.py:75-77 | wrapping a body in a fence and extracting it gives back the body |
| Validators.SchemaIgnored | promptwizard/glue/promptopt/domains/validators.py:72-91 | the verdict does not depend on the schema, only on whether the text parses |
| Validators.FencedJsonJudgedByBody | promptwizard/glue/promptopt/domains/validators.py:72-91 | a fenced reply is judged by its body |
| Enhanced.Resolve | promptwizard/glue/promptopt/techniques/critique_n_refine/domain_enhanced.py:61-78 | construction leaves a configuration exactly when it leaves an optimizer, and it is the optimizer's |
| Enhanced.FactoryFailsWithValueError | promptwizard/glue/promptopt/techniques/critique_n_refine/domain_enhanced.py:71-78 | the factory fails only with `ValueError`, the error the constructor catches |
| Enhanced.ResolveOutcomes | promptwizard/glue/promptopt/techniques/critique_n_refine/domain_enhanced.py:61-78 | construction never fails; a configuration gives an optimizer on it; no type gives neither |
| Enhanced.UnknownTypeSwallowed | promptwizard/glue/promptopt/techniques/critique_n_refine/domain_enhanced.py:77-78 | an unknown type leaves the technique without an optimizer |
| Enhanced.KnownTypeUsesFactory | promptwizard/glue/promptopt/techniques/critique_n_refine/domain_enhanced.py:70-76 | a known type gives the factory's optimizer |
| Enhanced.CombinedStyles | promptwizard/glue/promptopt/techniques/critique_n_refine/domain_enhanced.py:100-109 | every style comes from the domain or the pool |
| Enhanced.CombinedStylesShape | promptwizard/glue/promptopt/techniques/critique_n_refine/domain_enhanced.py:100-109 | domain styles come first, and the pool fills up to the count, using Python's negative-slice rule when the count is smaller |
| Enhanced.CombinedStylesPoolOnly | promptwizard/glue/promptopt/techniques/critique_n_refine/domain_enhanced.py:109 | without domain styles the first count pool styles are used |
| Enhanced.MutationRounds | promptwizard/glue/promptopt/techniques/critique_n_refine/domain_enhanced.py:113-126 | the loop returns the first candidate and each round's extracted prompts |
| Enhanced.RoundOutputsExtend | promptwizard/glue/promptopt/techniques/critique_n_refine/domain_enhanced.py:126 | more rounds only extend the candidate list |
| Enhanced.CandidatesFirst | promptwizard/glue/promptopt/techniques/critique_n_refine/domain_enhanced.py:111 | the candidates start with the task and enhanced instruction |
| Enhanced.CritiqueScoresFirstOnly | promptwizard/glue/promptopt/techniques/critique_n_refine/domain_enhanced.py:155-162 | only the first example is scored, and there are scores iff it has an answer |
| Enhanced.ExtractRefinedAsWritten | promptwizard/glue/promptopt/techniques/critique_n_refine/domain_enhanced.py:207-222 | the first delimited match is the refined prompt |
| Enhanced.AsWrittenFallbackDead | promptwizard/glue/promptopt/techniques/critique_n_refine/domain_enhanced.py:216-222 | as written, a reply without delimited matches always fails |
| Enhanced.ExtractRefined | promptwizard/glue/promptopt/techniques/critique_n_refine/domain_enhanced.py:213-222 | the first match, else the first tagged prompt; it fails with `ValueError` iff neither exists |
| Enhanced.TaggedRecovered | promptwizard/glue/promptopt/techniques/critique_n_refine/domain_enhanced.py:217-220 | a tagged prompt is recovered stripped |
| Enhanced.TaggedReplyDiscrepancy | promptwizard/glue/promptopt/techniques/critique_n_refine/domain_enhanced.py:216-222 | a tagged reply fails as written and succeeds once corrected |
| Enhanced.CriterionBullets | promptwizard/glue/promptopt/techniques/critique_n_refine/domain_enhanced.py:353-356 | one quality line per criterion, in order |
| Enhanced.FinalPromptShape | promptwizard/glue/promptopt/techniques/critique_n_refine/domain_enhanced.py:337-358 | the final prompt starts with the base prompt, and is the base prompt without an optimizer or without constraints and criteria |
| Enhanced.QualityLinesJoin | promptwizard/glue/promptopt/techniques/critique_n_refine/domain_enhanced.py:353-356 | the quality lines are the criterion bullets joined and terminated by newlines |
| Enhanced.QualitySectionLines | promptwizard/glue/promptopt/techniques/critique_n_refine/domain_enhanced.py:352-356 | the quality section lists the first three criteria, one line each |
| Enhanced.ConstraintsSectionLines | promptwizard/glue/promptopt/techniques/critique_n_refine/domain_enhanced.py:346-349 | the constraints section lists the first three constraints as bullets |
| Enhanced.FlaggedAppends | promptwizard/glue/promptopt/techniques/critique_n_refine/domain_enhanced.py:243-264 | the base wrong examples are kept first, and only new, distinct, violating examples are appended |
| Enhanced.FlaggedComplete | promptwizard/glue/promptopt/techniques/critique_n_refine/domain_enhanced.py:243-264 | every violating example of the subset ends up in the wrong list |
| Enhanced.BuildQualitySection | promptwizard/glue/promptopt/techniques/critique_n_refine/domain_enhanced.py:352-356 | the loop builds the quality section |
| Enhanced.NoOptimizerBasePaths | promptwizard/glue/promptopt/techniques/critique_n_refine/domain_enhanced.py:93-98 | without an optimizer the instruction, identity, profile, styles and evaluation are the base technique's |
| Enhanced.DomainEnhancedCritiqueNRefine.constructor | promptwizard/glue/promptopt/techniques/critique_n_refine/domain_enhanced.py:28-78 | the fields are the resolved optimizer and configuration, which are consistent |
| Enhanced.DomainEnhancedCritiqueNRefine.GenDifferentStyles | promptwizard/glue/promptopt/techniques/critique_n_refine/domain_enhanced.py:80-134 | the candidates from the enhanced instruction and combined styles |
| Enhanced.DomainEnhancedCritiqueNRefine.CritiqueAndRefine | promptwizard/glue/promptopt/techniques/critique_n_refine/domain_enhanced.py:136-231 | a template error propagates; otherwise the result is the corrected extraction from the model's refinement reply: the first delimited match, which is what the code as written returns too, else the tagged prompt, failing with `ValueError` exactly when neither is present |
| Enhanced.DomainEnhancedCritiqueNRefine.Evaluate | promptwizard/glue/promptopt/techniques/critique_n_refine/domain_enhanced.py:233-266 | the base wrong examples with the flagged violations appended |
| Enhanced.DomainEnhancedCritiqueNRefine.DomainEnhancedFinalPrompt | promptwizard/glue/promptopt/techniques/critique_n_refine/domain_enhanced.py:322-358 | the method returns the final prompt |
| App.AnyLeadingWord | app/domain_prompt_optimizer.py:110 | found iff some leading word of the constraint occurs in the enhanced prompt |
| App.PrincipleCounts | app/domain_prompt_optimizer.py:105 | a principle counts iff its lowered first 20 characters occur in the lowered enhanced prompt, or one of its first three words occurs in it case-sensitively |
| App.CollectPrinciples | app/domain_prompt_optimizer.py:104-106 | the loop returns the added principles |
| App.CollectConstraints | app/domain_prompt_optimizer.py:109-111 | the loop returns the added constraints |
| App.Summarize | app/domain_prompt_optimizer.py:122-130 | the loop returns the summary lines |
| App.AnalyzePromptDifferences | app/domain_prompt_optimizer.py:92-132 | the method returns the difference report |
| App.AddedPrinciplesExactly | app/domain_prompt_optimizer.py:104-106 | the added principles are exactly the noted principles that occur |
| App.AddedConstraintsExactly | app/domain_prompt_optimizer.py:109-111 | the added constraints are exactly the noted constraints that occur |
| App.NotedShape | app/domain_prompt_optimizer.py:106 | a noted item has at most 53 characters, is a prefix of the item and ends in "..." |
| App.SummaryShape | app/domain_prompt_optimizer.py:121-130 | one line per detected change, then the length line last |
| App.ShrinkReportedWithPlus | app/domain_prompt_optimizer.py:130 | a shorter enhanced prompt is reported as "+-" |
| App.DomainConfigMatchesRegistry | app/domain_prompt_optimizer.py:184-192 | the application's lookup agrees with the package's registry |
| App.AddAsWritten | app/domain_prompt_optimizer.py:75-90 | as written, the new entry is appended with id one more than the library's length |
| App.AsWrittenIdsRepeat | app/domain_prompt_optimizer.py:80 | adding, deleting and adding again repeats an id |
| App.Deleted | app/domain_prompt_optimizer.py:737 | deleting keeps exactly the entries with another id |
| App.DeleteRemovesId | app/domain_prompt_optimizer.py:737 | no entry with the deleted id remains, and a missing id changes nothing |
| App.DeletedDistinct | app/domain_prompt_optimizer.py:737 | deleting keeps ids distinct |
| App.NextId | app/domain_prompt_optimizer.py:80 | the corrected id is larger than every existing id |
| App.NextIdWithoutDeletes | app/domain_prompt_optimizer.py:80 | for ids numbered 1 to n in order, as adding without deleting leaves them, the corrected id is n + 1, the code's `len(library) + 1` |
| App.AddKeepsDistinct | app/domain_prompt_optimizer.py:80 | adding with the corrected id keeps ids distinct |
| App.PromptLibrary.constructor | app/domain_prompt_optimizer.py:63-68 | the library starts empty |
| App.PromptLibrary.Add | app/domain_prompt_optimizer.py:75-90 | the entry with the corrected id is appended, and ids stay distinct |
| App.PromptLibrary.Delete | app/domain_prompt_optimizer.py:736-738 | the entries with that id are removed, and ids stay distinct |

## Left out

- File and directory I/O (`from_yaml`, `load_from_directory`, the prompt library file), logging and the Streamlit UI: the registry takes the directory listing and a YAML parser as parameters, and the library is a field.
- The `createdAt` clock of library entries: it is a parameter.
- The language model, the dataset processor's delimiter patterns and example collation, and the base critique-and-refine technique: they are parameters (`Enhanced.Services`, `Enhanced.PromptPool`).
- General regular expressions and JSON parsing: the regex validator's matcher and the JSON parser are parameters. Only the medical evaluator's dangerous patterns, all of the form `a.*b`, are decided in the model.
- `re.IGNORECASE` and Unicode case folding: lowering is ASCII only.
- Unicode digits in `\d`: `Text.IsDigit` accepts `0`-`9` only, so `Medical.Numbers` and `Medical.DosageAt` do not see numbers written in other decimal digits, such as full-width `５mg`, which Python's `\d` matches.
- Floating-point rounding: Python floats are modelled as exact reals. Where the source truncates, the model can differ by one: `int(0.29 * 100)` is 28 in Python, but `Critique.CriterionLine` prints 29%. The exact 0.0 and 1.0 values stated for the scores hold of the reals; floating-point sums may miss them by rounding.
- `str.format` format specs, conversions and attribute or index access (`{x:>4}`, `{x!r}`, `{x.y}`): a field name ends at the first `.`, `[`, `!` or `:`. On a known name such a field makes the model fail with `NotImplementedError` where Python formats the value; on an unknown name it raises `KeyError`, as Python does.
- The fixture contents beyond what the model uses: the configurations' identities, validators and the English refinement template are modelled; their remaining knowledge lists and case libraries are not reproduced.
- The `if not scores` branch of the weighted score cannot be reached from `evaluate`, which always writes compliance and alignment; it is modelled but not given its own lemma.
- `generate_domain_thinking_styles`, `generate_domain_critique`, `generate_domain_refinement` and `create_domain_enhanced_optimizer` only delegate: they are modelled as `Optimizer.ThinkingStyles`, `Optimizer.DomainCritique`, `Optimizer.DomainRefinement` and the `Enhanced` constructor, without contracts of their own.
- `PatternValidator` and `min_matches` appear only in fixture dicts and have no implementation.
- `get_best_prompt` and `_log_domain_validation`: they only call the base technique and log.
- `CaseLibrary.from_dict` stores the category into the caller's dicts in place: the model writes it into the parsed case only.
- Enhanced.DomainEnhancedCritiqueNRefine.GenDifferentStyles: the mutation prompt is formatted once rather than once per round; the rounds see the same prompt, so the candidates are the same.
- Enhanced.DomainEnhancedCritiqueNRefine.CritiqueAndRefine: uses the corrected extraction `Enhanced.ExtractRefined`, not the code as written; when the reply has no delimited match but a tagged prompt, it returns that prompt where the code raises `ValueError` (first Findings row).
- Medical.EvidenceScore: its contract is the bounds; the extremes lemma states when the floor and the top are reached, not each intermediate value.
- Medical.EmpathyScore: its contract is the bounds; the extremes lemma states the floor, the patient-centred-only value and the top.
- `check_accuracy` is abstract in the base evaluator: a subclass other than the medical one is modelled by its accuracy function, a parameter of the `Base` strategy.

## Findings

| source | as written | input that shows it | evidently intended | confidence | as-written member | corrected member |
|---|---|---|---|---|---|---|
| promptwizard/glue/promptopt/techniques/critique_n_refine/domain_enhanced.py:216-222 | the `<IMPROVED_PROMPT>` fallback searches `str(refined_prompts)`, which is "[]" when there are no matches | a reply `<IMPROVED_PROMPT>x</IMPROVED_PROMPT>` without delimited matches raises `ValueError` | search the reply itself and return the stripped tagged prompt | not executed | Enhanced.ExtractRefinedAsWritten | Enhanced.ExtractRefined |
| promptwizard/glue/promptopt/domains/medical/config.py:374 | `DomainConfig(..., validators=[...])`, while `DomainConfig` declares no `validators` field (also english_question/config.py:1015) | building the medical configuration raises `TypeError` | `DomainConfig` carries a `validators` list | not executed | Fixtures.NewConfigAsWritten | Fixtures.NewConfig |
| app/domain_prompt_optimizer.py:80 | a new entry's id is `len(library) + 1`, while delete at lines 736-738 removes entries by id | add "a", add "b", delete id 1, add "c": two entries have id 2, so deleting one deletes both | ids are never reused | not executed | App.AsWrittenIdsRepeat | App.PromptLibrary.Add |
