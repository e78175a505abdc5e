/** Bayesian fusion of member confidences into one cluster score: `calculateBayesianConfidence`
    (src/lib/bayesianFusion.ts). */
module Fusion {
  import opened MdadTypes
  import opened JsMath

  /** Prior probability that a cluster is a genuine threat. */
  const PriorThreat: real := 0.1

  /** P(signal | threat): the raw confidence rescaled into [0.1, 1]. */
  function Likelihood(s: Signal): real {
    s.confidence * 0.9 + 0.1
  }

  /** Product of the member likelihoods, multiplied in input order. */
  function LikelihoodProduct(signals: seq<Signal>): (p: real)
    requires ValidConfidences(signals)
    ensures 0.0 < p <= 1.0
  {
    if signals == [] then 1.0
    else
      var prefix := LikelihoodProduct(signals[..|signals| - 1]);
      var last := Likelihood(signals[|signals| - 1]);
      assert signals[|signals| - 1] in signals;
      ProductInUnit(prefix, last);
      prefix * last
  }

  lemma ProductStep(signals: seq<Signal>, i: nat)
    requires ValidConfidences(signals) && i < |signals|
    ensures LikelihoodProduct(signals[..i + 1]) == LikelihoodProduct(signals[..i]) * Likelihood(signals[i])
  {
    var next := signals[..i + 1];
    assert next[..|next| - 1] == signals[..i];
  }

  lemma ProductInUnit(a: real, b: real)
    requires 0.0 < a <= 1.0 && 0.0 < b <= 1.0
    ensures 0.0 < a * b <= a
  {
  }

  function SeverityWeight(sev: Severity): real {
    match sev
    case Low => 0.6
    case Medium => 0.8
    case High => 0.95
    case Critical => 1.0
  }

  /** Left-to-right sum of the severity weights. */
  function SeverityWeightSum(signals: seq<Signal>): (w: real)
    ensures 0.6 * |signals| as real <= w <= |signals| as real
  {
    if signals == [] then 0.0
    else SeverityWeightSum(signals[..|signals| - 1]) + SeverityWeight(signals[|signals| - 1].severity)
  }

  function AverageSeverityWeight(signals: seq<Signal>): (w: real)
    requires |signals| > 0
    ensures 0.6 <= w <= 1.0
  {
    var n := |signals| as real;
    var total := SeverityWeightSum(signals);
    assert total / n * n == total;
    total / n
  }

  /** More members, more confidence: up to 0.15, reached at five members. */
  function CountBonus(n: nat): (b: real)
    ensures 0.0 <= b <= 0.15
    ensures n >= 5 ==> b == 0.15
  {
    Min(n as real / 5.0, 1.0) * 0.15
  }

  function DomainBonus(crossDomain: bool): real {
    if crossDomain then 0.20 else 0.0
  }

  /** Bayes' rule with prior `PriorThreat` and likelihood `l`. */
  function Posterior(l: real): (p: real)
    requires 0.0 < l <= 1.0
    ensures 0.0 < p <= 1.0
    ensures l == 1.0 ==> p == 1.0
  {
    var numerator := l * PriorThreat;
    var evidence := numerator + (1.0 - l) * (1.0 - PriorThreat);
    assert evidence >= numerator > 0.0;
    assert numerator / evidence * evidence == numerator;
    numerator / evidence
  }

  /** The score before it is scaled to 0..100. */
  function FusedScore(signals: seq<Signal>, crossDomain: bool): (x: real)
    requires |signals| > 0 && ValidConfidences(signals)
    ensures 0.0 <= x <= 1.35
  {
    var posterior := Posterior(LikelihoodProduct(signals));
    var weight := AverageSeverityWeight(signals);
    Weighted(posterior, weight) + CountBonus(|signals|) + DomainBonus(crossDomain)
  }

  /** The posterior scaled by the average severity weight stays in [0, 1]. */
  function Weighted(posterior: real, weight: real): (x: real)
    requires 0.0 < posterior <= 1.0 && 0.6 <= weight <= 1.0
    ensures 0.0 < x <= posterior
  {
    ProductInUnit(posterior, weight);
    posterior * weight
  }

  /** The cluster's confidence score: 0 for no members, otherwise the rounded percentage,
      capped at 99. */
  function BayesianConfidence(signals: seq<Signal>, crossDomain: bool): (score: int)
    requires ValidConfidences(signals)
  {
    if |signals| == 0 then 0
    else MinInt(Round(FusedScore(signals, crossDomain) * 100.0), 99)
  }

  /** The scores are integers in [0, 99], and 0 for an empty member set. */
  lemma ScoreBounds(signals: seq<Signal>, crossDomain: bool)
    requires ValidConfidences(signals)
    ensures 0 <= BayesianConfidence(signals, crossDomain) <= 99
    ensures |signals| == 0 ==> BayesianConfidence(signals, crossDomain) == 0
  {
    if |signals| > 0 {
      RoundMonotone(0.0, FusedScore(signals, crossDomain) * 100.0);
    }
  }

  /** The cross-domain flag adds exactly 0.20 before scaling. */
  lemma CrossDomainAddsBonus(signals: seq<Signal>)
    requires |signals| > 0 && ValidConfidences(signals)
    ensures FusedScore(signals, true) == FusedScore(signals, false) + 0.20
  {
  }

  /** So the flag raises the final score by at most 20 points and never lowers it. */
  lemma CrossDomainRaisesScore(signals: seq<Signal>)
    requires ValidConfidences(signals)
    ensures BayesianConfidence(signals, false) <= BayesianConfidence(signals, true)
            <= BayesianConfidence(signals, false) + 20
  {
    if |signals| > 0 {
      var x := FusedScore(signals, false) * 100.0;
      CrossDomainAddsBonus(signals);
      assert FusedScore(signals, true) * 100.0 == x + 20 as real;
      RoundShift(x, 20);
    }
  }

  /** A higher combined likelihood never lowers the posterior. */
  lemma PosteriorMonotone(l1: real, l2: real)
    requires 0.0 < l1 <= l2 <= 1.0
    ensures Posterior(l1) <= Posterior(l2)
  {
    var e1 := l1 * PriorThreat + (1.0 - l1) * (1.0 - PriorThreat);
    var e2 := l2 * PriorThreat + (1.0 - l2) * (1.0 - PriorThreat);
    assert e1 == 0.9 - 0.8 * l1 && e2 == 0.9 - 0.8 * l2;
    assert Posterior(l1) * e1 == l1 * PriorThreat;
    assert Posterior(l2) * e2 == l2 * PriorThreat;
    // l1 * e2 <= l2 * e1, i.e. 0.9 * l1 <= 0.9 * l2
    assert l1 * e2 <= l2 * e1;
    CrossDivide(l1 * PriorThreat, e1, l2 * PriorThreat, e2);
  }

  lemma CrossDivide(a: real, b: real, c: real, d: real)
    requires b > 0.0 && d > 0.0 && a * d <= c * b
    ensures a / b <= c / d
  {
    assert a / b * b == a;
    assert c / d * d == c;
    assert (a / b) * (b * d) <= (c / d) * (b * d);
  }

  /** The `signals.forEach` loop that multiplies the member likelihoods together. */
  method CombineLikelihoods(signals: seq<Signal>) returns (combinedLikelihood: real)
    requires ValidConfidences(signals)
    ensures combinedLikelihood == LikelihoodProduct(signals)
    ensures 0.0 < combinedLikelihood <= 1.0
  {
    combinedLikelihood := 1.0;
    var i := 0;
    while i < |signals|
      invariant 0 <= i <= |signals|
      invariant combinedLikelihood == LikelihoodProduct(signals[..i])
    {
      ProductStep(signals, i);
      combinedLikelihood := combinedLikelihood * Likelihood(signals[i]);
      i := i + 1;
    }
    assert signals[..i] == signals;
  }

  /** `calculateBayesianConfidence`. */
  method CalculateBayesianConfidence(signals: seq<Signal>, crossDomainBonus: bool) returns (score: int)
    requires ValidConfidences(signals)
    ensures score == BayesianConfidence(signals, crossDomainBonus)
    ensures 0 <= score <= 99
  {
    ScoreBounds(signals, crossDomainBonus);
    if |signals| == 0 {
      return 0;
    }
    var combinedLikelihood := CombineLikelihoods(signals);
    var avgSeverityWeight := AverageSeverityWeight(signals);
    var countBonus := CountBonus(|signals|);
    var domainBonus := DomainBonus(crossDomainBonus);
    var posterior := Posterior(combinedLikelihood);
    posterior := Weighted(posterior, avgSeverityWeight) + countBonus + domainBonus;
    score := MinInt(Round(posterior * 100.0), 99);
  }
}
