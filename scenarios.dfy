/**
 * Demand scenarios (_Scenario) and the probabilities regenerate_stochastic_data assigns:
 * 1/n to each of the first n - 1 scenarios and the remainder to the last one.
 */
module Scenarios {
  import opened Sampling
  import opened Export

  /** The lower end of the demand interval for e end-product plants: (1 - 0.5) * 5000 * e. */
  function MinScenarioDemand(e: nat): int { 2500 * e }

  /** The upper end (exclusive) of the demand interval: 0.9 * 5000 * e. */
  function MaxScenarioDemand(e: nat): int { 4500 * e }

  /** How many distinct demands the interval [MinScenarioDemand(e), MaxScenarioDemand(e)) holds. */
  function DemandValues(e: nat): (n: nat)
    ensures |Interval(MinScenarioDemand(e), MaxScenarioDemand(e))| == n
  {
    IntervalSize(MinScenarioDemand(e), MaxScenarioDemand(e));
    2000 * e
  }

  datatype Scenario = Scenario(id: nat, probability: real, demand: int)

  /** Python's sum over the scenarios' probabilities, left to right. */
  function SumProbabilities(ss: seq<Scenario>): real
    decreases |ss|
  {
    if ss == [] then 0.0 else SumProbabilities(ss[..|ss| - 1]) + ss[|ss| - 1].probability
  }

  lemma {:induction false} UniformSum(ss: seq<Scenario>, q: real)
    requires forall i :: 0 <= i < |ss| ==> ss[i].probability == q
    ensures SumProbabilities(ss) == |ss| as real * q
    decreases |ss|
  {
    if ss != [] {
      UniformSum(ss[..|ss| - 1], q);
    }
  }

  /** The probability of the last of n scenarios, once the first n - 1 hold 1/n each. */
  function LeftProbability(n: nat, first: seq<Scenario>): (q: real)
    requires n >= 1 && |first| == n - 1
    requires forall i :: 0 <= i < |first| ==> first[i].probability == 1.0 / n as real
    ensures q == 1.0 / n as real && q > 0.0
  {
    UniformSum(first, 1.0 / n as real);
    1.0 - SumProbabilities(first)
  }

  /**
   * The scenarios regenerate_stochastic_data builds for n scenarios: ids 1..n, the first
   * n - 1 with probability 1/n, the last with what is left of 1.
   */
  ghost predicate Generated(ss: seq<Scenario>, n: nat) {
    && n >= 1 && |ss| == n
    && (forall i :: 0 <= i < n ==> ss[i].id == i + 1)
    && (forall i :: 0 <= i < n - 1 ==> ss[i].probability == 1.0 / n as real)
    && ss[n - 1].probability == 1.0 - SumProbabilities(ss[..n - 1])
  }

  /** The demands are pairwise distinct draws from [lo, hi). */
  ghost predicate DemandsDrawn(ss: seq<Scenario>, lo: int, hi: int) {
    && (forall i :: 0 <= i < |ss| ==> lo <= ss[i].demand < hi)
    && (forall i, j :: 0 <= i < j < |ss| ==> ss[i].demand != ss[j].demand)
  }

  /**
   * No num_scen larger than the interval can be served: num_scen pairwise distinct demands from
   * the interval number at most DemandValues(e), the bound regenerate_stochastic_data checks
   * before sampling.
   */
  lemma {:induction false} DrawnDemandsFit(ss: seq<Scenario>, e: nat)
    requires DemandsDrawn(ss, MinScenarioDemand(e), MaxScenarioDemand(e))
    ensures |ss| <= DemandValues(e)
  {
    var demands := seq(|ss|, i requires 0 <= i < |ss| => ss[i].demand);
    assert Distinct(demands) by {
      forall i, j | 0 <= i < j < |demands| ensures demands[i] != demands[j] {
        assert ss[i].demand != ss[j].demand;
      }
    }
    DistinctValuesFit(demands, MinScenarioDemand(e), MaxScenarioDemand(e));
  }

  /** The generated probabilities are positive and sum to one. */
  lemma {:induction false} GeneratedIsDistribution(ss: seq<Scenario>, n: nat)
    requires Generated(ss, n)
    ensures forall i :: 0 <= i < n ==> ss[i].probability > 0.0
    ensures SumProbabilities(ss) == 1.0
  {
    var first := ss[..n - 1];
    UniformSum(first, 1.0 / n as real);
    assert ss[..|ss| - 1] == first;
    assert (n - 1) as real * (1.0 / n as real) == 1.0 - 1.0 / n as real;
  }

  /**
   * Scenarios 1..n built as regenerate_stochastic_data builds them: probability 1/n but the
   * last, which takes what is left, and the sampled demands in order. They are generated,
   * form a distribution, and carry distinct demands from the sampled interval.
   */
  lemma {:induction false} UniformScenariosGenerated(ss: seq<Scenario>, n: nat, demands: seq<int>, lo: int, hi: int)
    requires n >= 1 && |ss| == n && |demands| == n
    requires forall i :: 0 <= i < n - 1 ==> ss[i] == Scenario(i + 1, 1.0 / n as real, demands[i])
    requires ss[n - 1] == Scenario(n, 1.0 - SumProbabilities(ss[..n - 1]), demands[n - 1])
    requires Distinct(demands) && forall i :: 0 <= i < n ==> lo <= demands[i] < hi
    ensures Generated(ss, n) && SumProbabilities(ss) == 1.0 && DemandsDrawn(ss, lo, hi)
  {
    GeneratedIsDistribution(ss, n);
  }

  /** With two scenarios both probabilities are one half. */
  lemma TwoScenariosAreEven(ss: seq<Scenario>)
    requires Generated(ss, 2)
    ensures ss[0].probability == 0.5 && ss[1].probability == 0.5
  {
    assert ss[..1] == [ss[0]];
    assert SumProbabilities([ss[0]]) == SumProbabilities([]) + ss[0].probability;
  }

  function ProbRowOf(s: Scenario): ProbRow {
    ProbRow(s.id, s.probability)
  }

  function DemandRowOf(s: Scenario): DemandRow {
    DemandRow(s.id, s.demand)
  }

  /** The Prob and Demand rows list the scenarios in order. */
  ghost predicate RowsMatch(ss: seq<Scenario>, prob: seq<ProbRow>, demand: seq<DemandRow>) {
    && |prob| == |ss| && |demand| == |ss|
    && (forall i :: 0 <= i < |ss| ==> prob[i] == ProbRowOf(ss[i]) && demand[i] == DemandRowOf(ss[i]))
  }

  /** Whether a Prob row is keyed by scenario id `id`. */
  predicate HasScenario(prob: seq<ProbRow>, id: nat) {
    exists i :: 0 <= i < |prob| && prob[i].scen == id
  }

  /** The Prob and Demand records are keyed alike. */
  ghost predicate RowsPaired(prob: seq<ProbRow>, demand: seq<DemandRow>) {
    |prob| == |demand| && forall i :: 0 <= i < |prob| ==> prob[i].scen == demand[i].scen
  }

  /** No two scenarios share an id. */
  ghost predicate IdsUnique(ss: seq<Scenario>) {
    forall i, j :: 0 <= i < j < |ss| ==> ss[i].id != ss[j].id
  }
}
