/**
 * Score maps and `DomainEvaluator.calculate_weighted_score`.
 *
 * A score map is the Python dict `Dict[str, float]` that `evaluate` builds,
 * as an association list in insertion order.
 */
module Scoring {
  import opened Wrappers
  import opened Knowledge
  import Assoc

  type ScoreMap = seq<(string, real)>

  /** The `default_weights` table of the standard metrics, and 0.1 for any other metric. */
  function DefaultWeight(metric: string): real {
    if metric == "accuracy" then 0.3
    else if metric == "constraint_compliance" then 0.25
    else if metric == "principle_alignment" then 0.2
    else if metric == "case_coverage" then 0.25
    else 0.1
  }

  /** `{qc.name: qc.weight for qc in criteria}`, built entry by entry. */
  function WeightMap(criteria: seq<QualityCriterion>): seq<(string, real)>
    decreases |criteria|
  {
    if criteria == [] then []
    else
      var last := criteria[|criteria| - 1];
      Assoc.Put(WeightMap(criteria[..|criteria| - 1]), last.name, last.weight)
  }

  /** The weight of the last criterion called `name`, if there is one. */
  function LastWeight(criteria: seq<QualityCriterion>, name: string): (r: Option<real>)
    ensures r.Some? ==> exists i | 0 <= i < |criteria| :: criteria[i].name == name && criteria[i].weight == r.value
    ensures r.None? ==> forall i | 0 <= i < |criteria| :: criteria[i].name != name
    decreases |criteria|
  {
    if criteria == [] then None
    else if criteria[|criteria| - 1].name == name then Some(criteria[|criteria| - 1].weight)
    else LastWeight(criteria[..|criteria| - 1], name)
  }

  /** In the comprehension a later criterion with the same name overwrites an earlier one. */
  lemma {:induction false} WeightMapLookup(criteria: seq<QualityCriterion>, name: string)
    ensures Assoc.Lookup(WeightMap(criteria), name) == LastWeight(criteria, name)
    decreases |criteria|
  {
    if criteria != [] {
      var last := criteria[|criteria| - 1];
      var prefix := criteria[..|criteria| - 1];
      WeightMapLookup(prefix, name);
      if last.name == name {
        Assoc.PutLookup(WeightMap(prefix), name, last.weight);
      } else {
        Assoc.PutLookupOther(WeightMap(prefix), last.name, last.weight, name);
      }
    }
  }

  /** `weight_map.get(metric, default_weights.get(metric, 0.1))`. */
  function MetricWeight(criteria: seq<QualityCriterion>, metric: string): real {
    Assoc.Lookup(WeightMap(criteria), metric).GetOr(DefaultWeight(metric))
  }

  /** A metric's weight is the last criterion's of that name, else the default. */
  lemma MetricWeightCases(criteria: seq<QualityCriterion>, metric: string)
    ensures LastWeight(criteria, metric).Some? ==> MetricWeight(criteria, metric) == LastWeight(criteria, metric).value
    ensures LastWeight(criteria, metric).None? ==> MetricWeight(criteria, metric) == DefaultWeight(metric)
  {
    WeightMapLookup(criteria, metric);
  }

  /** What one entry adds to the weighted sum and to the total weight. */
  function SumTerm(entry: (string, real), criteria: seq<QualityCriterion>): real {
    if entry.0 == "overall" then 0.0 else entry.1 * MetricWeight(criteria, entry.0)
  }

  function WeightTerm(entry: (string, real), criteria: seq<QualityCriterion>): real {
    if entry.0 == "overall" then 0.0 else MetricWeight(criteria, entry.0)
  }

  /** The weighted sum over every metric but `overall`. */
  function WeightedSum(scores: ScoreMap, criteria: seq<QualityCriterion>): real
    decreases |scores|
  {
    if scores == [] then 0.0
    else WeightedSum(scores[..|scores| - 1], criteria) + SumTerm(scores[|scores| - 1], criteria)
  }

  /** The total weight over every metric but `overall`. */
  function TotalWeight(scores: ScoreMap, criteria: seq<QualityCriterion>): real
    decreases |scores|
  {
    if scores == [] then 0.0
    else TotalWeight(scores[..|scores| - 1], criteria) + WeightTerm(scores[|scores| - 1], criteria)
  }

  /** The value `calculate_weighted_score` returns. */
  function WeightedScore(scores: ScoreMap, criteria: seq<QualityCriterion>): real {
    if scores == [] then 0.0
    else if TotalWeight(scores, criteria) > 0.0 then WeightedSum(scores, criteria) / TotalWeight(scores, criteria)
    else 0.0
  }

  /** `calculate_weighted_score`: one pass over the score map, accumulating the two sums. */
  method CalculateWeightedScore(scores: ScoreMap, criteria: seq<QualityCriterion>) returns (r: real)
    ensures r == WeightedScore(scores, criteria)
  {
    if |scores| == 0 {
      return 0.0;
    }
    var totalWeight := 0.0;
    var weightedSum := 0.0;
    var i := 0;
    while i < |scores|
      invariant 0 <= i <= |scores|
      invariant weightedSum == WeightedSum(scores[..i], criteria)
      invariant totalWeight == TotalWeight(scores[..i], criteria)
    {
      var (metric, score) := scores[i];
      assert scores[..i + 1][..i] == scores[..i];
      assert WeightedSum(scores[..i + 1], criteria) == weightedSum + SumTerm(scores[i], criteria);
      assert TotalWeight(scores[..i + 1], criteria) == totalWeight + WeightTerm(scores[i], criteria);
      if metric != "overall" {
        var weight := MetricWeight(criteria, metric);
        assert SumTerm(scores[i], criteria) == score * weight;
        weightedSum := weightedSum + score * weight;
        totalWeight := totalWeight + weight;
      }
      i := i + 1;
    }
    assert scores[..i] == scores;
    r := if totalWeight > 0.0 then weightedSum / totalWeight else 0.0;
  }

  predicate NonNegativeWeights(criteria: seq<QualityCriterion>) {
    forall i | 0 <= i < |criteria| :: criteria[i].weight >= 0.0
  }

  /** Every metric but `overall` scores between `lo` and `hi`. */
  predicate ScoresWithin(scores: ScoreMap, lo: real, hi: real) {
    forall i | 0 <= i < |scores| && scores[i].0 != "overall" :: lo <= scores[i].1 <= hi
  }

  /** The total weight with every weight scaled by `c`, summed term by term. */
  function ScaledWeight(scores: ScoreMap, criteria: seq<QualityCriterion>, c: real): real
    decreases |scores|
  {
    if scores == [] then 0.0
    else ScaledWeight(scores[..|scores| - 1], criteria, c) + c * WeightTerm(scores[|scores| - 1], criteria)
  }

  lemma {:induction false} ScaledWeightIsProduct(scores: ScoreMap, criteria: seq<QualityCriterion>, c: real)
    ensures ScaledWeight(scores, criteria, c) == c * TotalWeight(scores, criteria)
    decreases |scores|
  {
    if scores != [] {
      var prefix := scores[..|scores| - 1];
      ScaledWeightIsProduct(prefix, criteria, c);
      Distribute(c, TotalWeight(prefix, criteria), WeightTerm(scores[|scores| - 1], criteria));
    }
  }

  lemma Distribute(c: real, a: real, b: real)
    ensures c * (a + b) == c * a + c * b
  {
  }

  /** Every term of the weighted sum lies between the correspondingly scaled weights. */
  lemma SumsBounded(scores: ScoreMap, criteria: seq<QualityCriterion>, lo: real, hi: real)
    requires NonNegativeWeights(criteria)
    requires lo <= hi && ScoresWithin(scores, lo, hi)
    ensures TotalWeight(scores, criteria) >= 0.0
    ensures ScaledWeight(scores, criteria, lo) <= WeightedSum(scores, criteria) <= ScaledWeight(scores, criteria, hi)
  {
    SumAbove(scores, criteria, lo, hi);
    SumBelow(scores, criteria, lo, hi);
  }

  lemma {:induction false} SumAbove(scores: ScoreMap, criteria: seq<QualityCriterion>, lo: real, hi: real)
    requires NonNegativeWeights(criteria)
    requires ScoresWithin(scores, lo, hi)
    ensures TotalWeight(scores, criteria) >= 0.0
    ensures ScaledWeight(scores, criteria, lo) <= WeightedSum(scores, criteria)
    decreases |scores|
  {
    if scores != [] {
      var prefix := scores[..|scores| - 1];
      var last := scores[|scores| - 1];
      ScoresWithinSplit(scores, lo, hi);
      SumAbove(prefix, criteria, lo, hi);
      TermBounded(last, criteria, lo, hi);
      assert WeightedSum(scores, criteria) == WeightedSum(prefix, criteria) + SumTerm(last, criteria);
      assert ScaledWeight(scores, criteria, lo) == ScaledWeight(prefix, criteria, lo) + lo * WeightTerm(last, criteria);
      assert TotalWeight(scores, criteria) == TotalWeight(prefix, criteria) + WeightTerm(last, criteria);
    }
  }

  lemma {:induction false} SumBelow(scores: ScoreMap, criteria: seq<QualityCriterion>, lo: real, hi: real)
    requires NonNegativeWeights(criteria)
    requires ScoresWithin(scores, lo, hi)
    ensures WeightedSum(scores, criteria) <= ScaledWeight(scores, criteria, hi)
    decreases |scores|
  {
    if scores != [] {
      var prefix := scores[..|scores| - 1];
      var last := scores[|scores| - 1];
      ScoresWithinSplit(scores, lo, hi);
      SumBelow(prefix, criteria, lo, hi);
      TermBounded(last, criteria, lo, hi);
      assert WeightedSum(scores, criteria) == WeightedSum(prefix, criteria) + SumTerm(last, criteria);
      assert ScaledWeight(scores, criteria, hi) == ScaledWeight(prefix, criteria, hi) + hi * WeightTerm(last, criteria);
    }
  }

  /** The bound on all entries is the bound on all but the last and on the last. */
  lemma ScoresWithinSplit(scores: ScoreMap, lo: real, hi: real)
    requires scores != [] && ScoresWithin(scores, lo, hi)
    ensures ScoresWithin(scores[..|scores| - 1], lo, hi)
    ensures scores[|scores| - 1].0 != "overall" ==> lo <= scores[|scores| - 1].1 <= hi
  {
    var prefix := scores[..|scores| - 1];
    forall i | 0 <= i < |prefix| && prefix[i].0 != "overall" ensures lo <= prefix[i].1 <= hi {
      assert prefix[i] == scores[i];
    }
  }

  /** One entry's contribution lies between its weight scaled by `lo` and by `hi`. */
  lemma TermBounded(entry: (string, real), criteria: seq<QualityCriterion>, lo: real, hi: real)
    requires NonNegativeWeights(criteria)
    requires entry.0 != "overall" ==> lo <= entry.1 <= hi
    ensures WeightTerm(entry, criteria) >= 0.0
    ensures lo * WeightTerm(entry, criteria) <= SumTerm(entry, criteria) <= hi * WeightTerm(entry, criteria)
  {
    if entry.0 != "overall" {
      var w := MetricWeight(criteria, entry.0);
      MetricWeightNonNegative(criteria, entry.0);
      MulMono(lo, entry.1, w);
      MulMono(entry.1, hi, w);
    }
  }

  lemma MetricWeightNonNegative(criteria: seq<QualityCriterion>, metric: string)
    requires NonNegativeWeights(criteria)
    ensures MetricWeight(criteria, metric) >= 0.0
  {
    MetricWeightCases(criteria, metric);
  }

  lemma MulMono(a: real, b: real, w: real)
    requires a <= b && w >= 0.0
    ensures a * w <= b * w
  {
    assert (b - a) * w >= 0.0;
  }

  lemma DivBound(s: real, t: real, lo: real, hi: real)
    requires t > 0.0 && lo * t <= s <= hi * t
    ensures lo <= s / t <= hi
  {
    var q := s / t;
    assert q * t == s;
  }

  /**
   * With non-negative criterion weights and a positive total weight, the
   * weighted score lies between the least and the greatest score it averages.
   */
  lemma WeightedScoreBetween(scores: ScoreMap, criteria: seq<QualityCriterion>, lo: real, hi: real)
    requires NonNegativeWeights(criteria)
    requires lo <= hi && ScoresWithin(scores, lo, hi)
    requires TotalWeight(scores, criteria) > 0.0
    ensures lo <= WeightedScore(scores, criteria) <= hi
  {
    var sum := WeightedSum(scores, criteria);
    var total := TotalWeight(scores, criteria);
    SumsBounded(scores, criteria, lo, hi);
    ScaledWeightIsProduct(scores, criteria, lo);
    ScaledWeightIsProduct(scores, criteria, hi);
    assert lo * total <= sum <= hi * total;
    DivBound(sum, total, lo, hi);
    assert scores != [];
  }

  /** Scores in [0,1] give an overall score in [0,1], whatever the total weight. */
  lemma WeightedScoreUnit(scores: ScoreMap, criteria: seq<QualityCriterion>)
    requires NonNegativeWeights(criteria)
    requires ScoresWithin(scores, 0.0, 1.0)
    ensures 0.0 <= WeightedScore(scores, criteria) <= 1.0
  {
    SumsBounded(scores, criteria, 0.0, 1.0);
    if scores != [] && TotalWeight(scores, criteria) > 0.0 {
      WeightedScoreBetween(scores, criteria, 0.0, 1.0);
    }
  }

  /** An `overall` entry contributes nothing. */
  lemma OverallIgnored(scores: ScoreMap, criteria: seq<QualityCriterion>, x: real)
    requires scores != []
    ensures WeightedScore(scores + [("overall", x)], criteria) == WeightedScore(scores, criteria)
  {
    var s := scores + [("overall", x)];
    assert s[..|s| - 1] == scores;
  }

  /** A criterion's own weight replaces the default of a standard metric of the same name. */
  lemma CriterionWeightWins(criteria: seq<QualityCriterion>, i: nat)
    requires i < |criteria|
    requires forall j | i < j < |criteria| :: criteria[j].name != criteria[i].name
    ensures MetricWeight(criteria, criteria[i].name) == criteria[i].weight
  {
    LastFromIndex(criteria, i);
    MetricWeightCases(criteria, criteria[i].name);
  }

  lemma {:induction false} LastFromIndex(criteria: seq<QualityCriterion>, i: nat)
    requires i < |criteria|
    requires forall j | i < j < |criteria| :: criteria[j].name != criteria[i].name
    ensures LastWeight(criteria, criteria[i].name) == Some(criteria[i].weight)
    decreases |criteria|
  {
    if i < |criteria| - 1 {
      var prefix := criteria[..|criteria| - 1];
      assert prefix[i] == criteria[i];
      LastFromIndex(prefix, i);
    }
  }
}
