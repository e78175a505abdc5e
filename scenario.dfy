/** A worked case of `clusterSignals`: two high-severity signals, one physical and one cyber,
    about 4.4 km (0.04 degrees of latitude) and one hour apart, under the default configuration. */
module Scenario {
  import opened MdadTypes
  import opened JsMath
  import opened StableSort
  import opened Geometry
  import opened Domains
  import opened Fusion
  import opened Intent
  import opened Clustering

  const Patrol := Signal("SIG-1", 0, 34.0, 44.0, Physical, 0.8, High, "armed team", "drone")
  const Intrusion := Signal("SIG-2", 3600000, 34.04, 44.0, Cyber, 0.7, High, "intrusion", "ids")
  const Batch: seq<Signal> := [Patrol, Intrusion]

  lemma {:induction false} ShortTextContainsNothing(text: string, pat: string)
    requires |text| < |pat|
    ensures !Contains(text, pat)
    decreases |text|
  {
    if |text| > 0 {
      ShortTextContainsNothing(text[1..], pat);
    }
  }

  lemma BatchIsNotRecon()
    ensures !IsRecon(Batch)
  {
    forall i | 0 <= i < |Batch| ensures !MentionsRecon(Batch[i].description) {
      var d := ToLower(Batch[i].description);
      forall k | 0 <= k < |ReconKeywords| ensures !Contains(d, ReconKeywords[k]) {
        ShortTextContainsNothing(d, ReconKeywords[k]);
      }
    }
  }

  /** The fused score: likelihoods 0.82 and 0.73, posterior about 0.1421, weighted by 0.95, plus
      0.06 for two members and 0.20 for the two domains, gives 39.5 %, rounded to 40. */
  lemma BatchScore()
    ensures BayesianConfidence(Batch, true) == 40
  {
    assert Batch[..1] == [Patrol];
    assert [Patrol][..0] == [];
    assert LikelihoodProduct([Patrol]) == LikelihoodProduct([]) * Likelihood(Patrol) == 0.82;
    assert LikelihoodProduct(Batch) == LikelihoodProduct([Patrol]) * Likelihood(Intrusion);
    assert LikelihoodProduct(Batch) == 0.82 * 0.73;
    assert SeverityWeightSum(Batch) == 1.9;
    assert AverageSeverityWeight(Batch) == 0.95;
    assert CountBonus(2) == 0.06;
    var l := 0.82 * 0.73;
    assert Posterior(l) == (l * 0.1) / (l * 0.1 + (1.0 - l) * 0.9);
    assert FusedScore(Batch, true) * 100.0 == ((l * 0.1) / (l * 0.1 + (1.0 - l) * 0.9) * 0.95 + 0.06 + 0.20) * 100.0;
  }

  /** The three fired rules, best first, rounded half up: cyber attack 0.5, physical assault
      0.425 rounded to 0.43, supply disruption 0.25. */
  lemma BatchIntents()
    ensures PredictIntent(Batch) == [
      PredictedIntent(CyberAttack, Communications, 0.5, NearTerm),
      PredictedIntent(PhysicalAssault, MilitaryBase, 0.43, NearTerm),
      PredictedIntent(SupplyDisruption, SupplyLine, 0.25, NearTerm)]
  {
    BatchIsNotRecon();
    assert Batch[..1] == [Patrol];
    assert [Patrol][..0] == [];
    assert CountDomain([Patrol], Physical) == 1 && CountDomain([Patrol], Cyber) == 0 && CountDomain([Patrol], Humint) == 0;
    assert DomainMixOf(Batch) == DomainMix(1, 1, 0);
    assert !AnyCritical(Batch);
    var cyber := PredictedIntent(CyberAttack, Communications, 0.5, NearTerm);
    var assault := PredictedIntent(PhysicalAssault, MilitaryBase, 0.425, NearTerm);
    var supply := PredictedIntent(SupplyDisruption, SupplyLine, 0.25, NearTerm);
    assert FiredIntents(Batch) == [cyber, assault, supply];
    var fired := [cyber, assault, supply];
    assert fired[..2] == [cyber, assault] && [cyber, assault][..1] == [cyber] && [cyber][..0] == [];
    assert SortDesc([cyber], ByProbability) == [cyber];
    assert [cyber][1..] == [] && [cyber, assault][1..] == [assault] && [assault][1..] == [];
    assert Insert([cyber], assault, ByProbability) == [cyber] + Insert([], assault, ByProbability);
    assert SortDesc([cyber, assault], ByProbability) == [cyber, assault];
    assert Insert([assault], supply, ByProbability) == [assault] + Insert([], supply, ByProbability);
    assert Insert([cyber, assault], supply, ByProbability) == [cyber] + Insert([assault], supply, ByProbability);
    assert SortDesc(fired, ByProbability) == fired;
    assert Round(42.5) == 43;
  }

  /** Both signals fall within 50 km and 72 h of the first one, which therefore forms one group
      of both; the second seed is then already processed. */
  lemma BatchGroups(dist: DistanceFn)
    requires dist(34.0, 44.0, 34.0, 44.0) == 0.0
    requires dist(34.0, 44.0, 34.04, 44.0) <= 50.0
    ensures Groups(Batch, DefaultConfig, dist) == [Group(0, Batch)]
  {
    assert Batch[1..] == [Intrusion] && [Intrusion][1..] == [];
    assert Near(DefaultConfig, dist, Patrol, Patrol);
    assert Near(DefaultConfig, dist, Patrol, Intrusion);
    assert Neighbors(Batch, Patrol, {}, DefaultConfig, dist) == Batch;
    assert IdsOf(Batch) == {"SIG-1", "SIG-2"};
    assert ScanAt(Batch, DefaultConfig, dist, 0) == ScanState({}, []);
    var st1 := ScanAt(Batch, DefaultConfig, dist, 1);
    assert st1 == Step(Batch, DefaultConfig, dist, ScanState({}, []), 0);
    assert st1 == ScanState({"SIG-1", "SIG-2"}, [Group(0, Batch)]);
  }

  /** So exactly one cluster comes out: two members, cross-domain, score 40, and therefore
      `monitoring`. */
  lemma BatchClusters(dist: DistanceFn, newId: nat -> string, clock: int)
    requires dist(34.0, 44.0, 34.0, 44.0) == 0.0
    requires dist(34.0, 44.0, 34.04, 44.0) <= 50.0
    ensures var out := ClusterSpec(Batch, DefaultConfig, dist, newId, clock);
            && |out| == 1
            && out[0].signals == Batch
            && out[0].signalCount == 2
            && out[0].crossDomainBonus
            && out[0].confidenceScore == 40
            && out[0].status == Monitoring
            && out[0].id == newId(0)
  {
    BatchGroups(dist);
    var gs := [Group(0, Batch)];
    GroupsOfScanUsable(Batch, DefaultConfig, dist, 2);
    EmitAllAt(gs, dist, newId, clock, 0);
    var c := BuildCluster(Batch, newId(0), clock, dist);
    CrossDomainIff(Batch);
    assert Batch[0].domain != Batch[1].domain;
    BatchScore();
    assert EmitAll(gs, dist, newId, clock) == [c];
    assert SortDesc([c], ConfidenceKey) == [c];
  }
}
