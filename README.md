# MDAD fusion engine in Dafny

This project models the clustering and Bayesian fusion engine of the MDAD threat platform
(`src/lib/bayesianFusion.ts`, with the records of `src/types/mdad.ts`) and proves properties of
that model.

The engine receives a batch of intelligence *signals*. A signal is a geolocated, timestamped
observation tagged with a domain (physical, cyber or HUMINT), a confidence and a severity. The
engine groups signals into *threat clusters*:

- Every signal in input order is tried as a seed.
- The signals near the seed (within the spatial radius and the time window) whose ids are not yet
  processed form its neighbourhood.
- A neighbourhood of two or more becomes a cluster, and its ids become processed.

Each cluster also gets the following derived fields:

- a fused confidence score, an integer from 0 to 99;
- the domain counts and a cross-domain flag;
- up to three predicted adversary intents;
- a center and a radius;
- a status.

The result is sorted by score, highest first. A second operation maps a score to a recommended
response.

Modules, one per concern of the source file:

- `MdadTypes` holds the records (`types.dfy`). `JsMath` holds the `Math` operations used: `min`,
  `max` and `round`.
- `StableSort` models `Array.prototype.sort` with a numeric comparator (`sorting.dfy`). It is a
  stable ordering by non-increasing key. The proofs show the result is ordered, a permutation, and
  stable per key, and that it keeps any symmetric pairwise relation.
- `Geometry` holds the temporal window, `calculateClusterCenter` and
  `calculateClusterRadius` (`geometry.dfy`).
- `Domains` holds `countDomains`, proved as a method with its counting loop, and
  `hasCrossDomainSignals` (`domains.dfy`).
- `Fusion` holds `calculateBayesianConfidence` (`fusion.dfy`). The method with its product loop is
  proved equal to the function `BayesianConfidence`. Bounds, the cross-domain bonus and
  monotonicity of the posterior are proved about that function.
- `Intent` holds `predictIntent` (`intent.dfy`). Each of the four rules is a separate function,
  and `FiredIntents` is their concatenation in rule order. The keyword test works on the
  lower-cased description.
- `Clustering` holds `clusterSignals` (`clustering.dfy`):
  - `ScanAt(n)` is the state after the first `n` seeds: the processed ids and the groups formed so
    far.
  - `ClusterSpec` builds the clusters from the final groups and sorts them.
  - The method `ClusterSignals` runs the source's loops: the `forEach` over seeds, with a mutable
    processed-id set, and the `forEach` that marks ids. It is proved equal to `ClusterSpec`.
    As in the source, the configuration can be omitted and defaults to `DefaultConfig`. It is the
    last parameter, after the distance, the id source and the clock.
- `Action` holds `getRecommendedAction` (`action.dfy`).
- `Scenario` works through two concrete signals (`scenario.dfy`): one physical, one cyber, both
  high severity, with confidences 0.8 and 0.7. They are 0.04 degrees of latitude apart, which
  haversine puts at about 4.4 km, so only "within 50 km" is assumed of the distance. They are one
  hour apart in time. Under the default configuration they give one cluster with score 40, status
  monitoring, and the intents 0.5, 0.43 and 0.25.

What proving the model showed about the code:

- A seed whose filter keeps fewer than two signals is not marked processed. Under a symmetric
  distance that is zero from a point to itself, with non-negative thresholds, such a signal is
  never collected by a later seed either. Any later seed that could reach it would have been its
  second neighbour (`Clustering.FailedSeedNeverJoinsLater`).
- The supply-disruption probability `0.15 + min(cyber, physical) * 0.1` has no cap. It exceeds 1
  exactly when both counts reach 9 (`Intent.SupplyProbabilityRange`). The user interface shows it
  as a percentage (src/components/ThreatPanel.tsx:178), so it would show more than 100%. The three
  share-based rules stay within [0.2, 0.7].
- The code does not validate the configuration or the confidences. The score is capped at 99 but
  has no explicit floor at 0.

## Model

| member | source | states |
|---|---|---|
| `StableSort.SortSorted` | src/lib/bayesianFusion.ts:235 | the comparator sort orders its output by non-increasing key |
| `StableSort.SortMultiset` | src/lib/bayesianFusion.ts:235 | the sort returns a permutation of its input |
| `StableSort.SortStable` | src/lib/bayesianFusion.ts:235 | for every key value, the elements with that key keep their input order (ties keep emission order) |
| `StableSort.SortPairwise` | src/lib/bayesianFusion.ts:235 | a symmetric relation holding between every two input elements still holds between every two output elements |
| `Geometry.WithinTemporalWindow` | src/lib/bayesianFusion.ts:34-37 | definition; properties in `Geometry.TemporalWindowSymmetric` and `Geometry.TemporalWindowReflexive` |
| `Geometry.TemporalWindowSymmetric` | src/lib/bayesianFusion.ts:34-37 | the temporal test gives the same answer with its two signals swapped |
| `Geometry.TemporalWindowReflexive` | src/lib/bayesianFusion.ts:34-37 | with a non-negative window, every signal is within the window of itself |
| `Geometry.ClusterCenter` | src/lib/bayesianFusion.ts:40-47 | definition; properties in `Geometry.CenterWithinBounds` |
| `Geometry.MeanBounds` | src/lib/bayesianFusion.ts:40-47 | the mean of a coordinate lies between any lower and upper bound of that coordinate over the members |
| `Geometry.CenterWithinBounds` | src/lib/bayesianFusion.ts:40-47 | the center lies inside every latitude/longitude box that holds all members |
| `Geometry.DistancesFromAt` | src/lib/bayesianFusion.ts:169-171 | position k of the distance list is the distance from the center to member k |
| `Geometry.SortAscendingProperties` | src/lib/bayesianFusion.ts:174 | the distance sort returns the same distances in non-decreasing order |
| `Geometry.PercentileIndex` | src/lib/bayesianFusion.ts:175 | floor(n * 0.9) is the integer i with 10i <= 9n < 10(i+1), and so always a valid position 0..n-1 |
| `Geometry.ClusterRadius` | src/lib/bayesianFusion.ts:166-177 | the radius is never below 15 km (25 km for at most one member) |
| `Geometry.RadiusIsPercentile` | src/lib/bayesianFusion.ts:169-176 | for two or more members, the radius is max(1.2 x the element at floor(0.9n) of the ascending distances, 15) |
| `Geometry.RadiusFromMember` | src/lib/bayesianFusion.ts:169-176 | that distance is the distance of an actual member from the center |
| `Geometry.DegenerateRadius` | src/lib/bayesianFusion.ts:176 | when every member sits at the center, the radius is exactly the 15 km floor |
| `Geometry.RadiusUpperBound` | src/lib/bayesianFusion.ts:166-177 | the radius never exceeds max(1.2 x any bound on the member distances, 15) |
| `Domains.CountDomains` | src/lib/bayesianFusion.ts:87-91 | the increment loop yields, for every domain, the number of members of that domain, and the counts add up to the member count |
| `Domains.DomainMixTotal` | src/lib/bayesianFusion.ts:87-91 | every member is counted in exactly one domain: the three counts sum to the number of members |
| `Domains.CountPositiveIff` | src/lib/bayesianFusion.ts:87-91 | a domain's count is positive exactly when some member has that domain |
| `Domains.HasCrossDomainSignals` | src/lib/bayesianFusion.ts:94-97 | definition; properties in `Domains.CrossDomainIff` and `Domains.CrossDomainFromCounts` |
| `Domains.CrossDomainIff` | src/lib/bayesianFusion.ts:94-97 | the set of domains has at least two elements exactly when two members differ in domain |
| `Domains.CrossDomainFromCounts` | src/lib/bayesianFusion.ts:94-97 | cross-domain exactly when at least two of the three domain counts are positive |
| `Fusion.LikelihoodProduct` | src/lib/bayesianFusion.ts:57-63 | the product of the per-signal likelihoods 0.9c + 0.1 lies in (0, 1] |
| `Fusion.SeverityWeightSum` | src/lib/bayesianFusion.ts:66-67 | the summed severity weights lie between 0.6n and n |
| `Fusion.AverageSeverityWeight` | src/lib/bayesianFusion.ts:66-67 | the average severity weight of a non-empty set lies in [0.6, 1] |
| `Fusion.CountBonus` | src/lib/bayesianFusion.ts:70 | the count bonus lies in [0, 0.15] and is 0.15 from five members on |
| `Fusion.Posterior` | src/lib/bayesianFusion.ts:76-77 | Bayes' rule with prior 0.1 gives a posterior in (0, 1], equal to 1 when the likelihood is 1 |
| `Fusion.PosteriorMonotone` | src/lib/bayesianFusion.ts:76-77 | a higher combined likelihood never lowers the posterior |
| `Fusion.Weighted` | src/lib/bayesianFusion.ts:80 | weighting by the severity average keeps the posterior positive and never raises it |
| `Fusion.FusedScore` | src/lib/bayesianFusion.ts:80 | the unscaled score lies in [0, 1.35] |
| `Fusion.ScoreBounds` | src/lib/bayesianFusion.ts:50-84 | the score is an integer in [0, 99], and 0 when there are no members |
| `Fusion.CrossDomainAddsBonus` | src/lib/bayesianFusion.ts:73-80 | the cross-domain flag adds exactly 0.20 to the unscaled score |
| `Fusion.CrossDomainRaisesScore` | src/lib/bayesianFusion.ts:73-83 | the flag never lowers the final score and raises it by at most 20 points |
| `Fusion.CombineLikelihoods` | src/lib/bayesianFusion.ts:57-63 | the multiplication loop computes the product of the member likelihoods, a value in (0, 1] |
| `Fusion.CalculateBayesianConfidence` | src/lib/bayesianFusion.ts:50-84 | the method returns the fused score of the model, so it is an integer in [0, 99] |
| `Fusion.BayesianConfidence` | src/lib/bayesianFusion.ts:50-84 | definition; properties in `Fusion.ScoreBounds`, `Fusion.CrossDomainAddsBonus` and `Fusion.CrossDomainRaisesScore` |
| `Intent.ContainsIff` | src/lib/bayesianFusion.ts:121-125 | `includes` holds exactly when the pattern occurs at some position of the text |
| `Intent.KeywordInAnyCase` | src/lib/bayesianFusion.ts:120-125 | a reconnaissance keyword written in any letter case anywhere in a description is recognised |
| `Intent.MentionsReconIgnoresCase` | src/lib/bayesianFusion.ts:120-125 | recognition depends on the description only up to letter case |
| `Intent.CyberRule` | src/lib/bayesianFusion.ts:110-117 | definition; properties in `Intent.CyberRuleOutcome` and `Intent.ShareRuleProbabilityBounds` |
| `Intent.PhysicalRule` | src/lib/bayesianFusion.ts:120-133 | definition; properties in `Intent.PhysicalRuleOutcome` and `Intent.ShareRuleProbabilityBounds` |
| `Intent.HumintRule` | src/lib/bayesianFusion.ts:136-143 | definition; properties in `Intent.HumintAndSupplyRuleOutcome` and `Intent.ShareRuleProbabilityBounds` |
| `Intent.SupplyRule` | src/lib/bayesianFusion.ts:146-153 | definition; properties in `Intent.HumintAndSupplyRuleOutcome` and `Intent.SupplyProbabilityRange` |
| `Intent.FiredIntents` | src/lib/bayesianFusion.ts:100-153 | definition: the four rules' outcomes in rule order; properties in the rule lemmas below |
| `Intent.PredictIntent` | src/lib/bayesianFusion.ts:100-163 | definition; properties in `Intent.PredictIntentShape` and `Intent.PredictIntentIsTopThree` |
| `Intent.PredictIntentShape` | src/lib/bayesianFusion.ts:156-162 | at most three intents, in non-increasing probability, each a fired intent with its probability rounded; none is dropped while at most three rules fire |
| `Intent.PredictIntentIsTopThree` | src/lib/bayesianFusion.ts:156-162 | the prediction is the rounded first three of an ordering of all fired intents by non-increasing probability |
| `Intent.RoundProbabilityMonotone` | src/lib/bayesianFusion.ts:161 | rounding to two decimals keeps the order of probabilities |
| `Intent.PredictIntentKeepsRuleOutcome` | src/lib/bayesianFusion.ts:156-162 | every predicted intent repeats the vector, target and timeline of a rule that fired |
| `Intent.CyberRuleOutcome` | src/lib/bayesianFusion.ts:110-117 | a cyber attack is predicted exactly when cyber signals exist and are at least as many as physical ones, against communications, imminent exactly when a member is critical |
| `Intent.PhysicalRuleOutcome` | src/lib/bayesianFusion.ts:120-133 | a military-base intent exactly when a physical signal exists; it is reconnaissance/medium-term exactly when a keyword matches, otherwise physical assault/near-term |
| `Intent.HumintAndSupplyRuleOutcome` | src/lib/bayesianFusion.ts:136-153 | infiltration exactly when at least two HUMINT signals; supply disruption exactly when both cyber and physical signals exist |
| `Intent.ShareRuleProbabilityBounds` | src/lib/bayesianFusion.ts:110-143 | the three share-based rules give probabilities within [0.2, 0.7] |
| `Intent.SupplyProbabilityRange` | src/lib/bayesianFusion.ts:146-153 | the supply-disruption probability is at least 0.25 and exceeds 1 exactly when both cyber and physical counts are at least 9 |
| `Intent.NoSignalsNoIntent` | src/lib/bayesianFusion.ts:100-163 | no members, no intent; the sabotage vector is never predicted |
| `Clustering.NearIsInclusive` | src/lib/bayesianFusion.ts:199-202 | a signal exactly at the radius and exactly at the window's edge is still a neighbour |
| `Clustering.NearSymmetric` | src/lib/bayesianFusion.ts:194-202 | with a symmetric distance, the neighbour test is symmetric |
| `Clustering.NearSelf` | src/lib/bayesianFusion.ts:194-202 | with a distance zero on a point and non-negative thresholds, every signal is its own neighbour |
| `Clustering.Near` | src/lib/bayesianFusion.ts:194-202 | definition; properties in `Clustering.NearIsInclusive`, `Clustering.NearSymmetric` and `Clustering.NearSelf` |
| `Clustering.Neighbors` | src/lib/bayesianFusion.ts:191-203 | the filter keeps exactly the input signals whose id is unprocessed and that are near the seed |
| `Clustering.NeighborsTwo` | src/lib/bayesianFusion.ts:191-206 | two different input positions passing the filter give a neighbourhood of at least two |
| `Clustering.Step` | src/lib/bayesianFusion.ts:187-232 | definition of one `forEach` callback on the state; properties in `Clustering.StepGrows` and `Clustering.ScanStep` |
| `Clustering.ScanAt` | src/lib/bayesianFusion.ts:187-232 | definition of the state after the first n seeds; properties in `Clustering.ScanAtInvariant`, `Clustering.ScanPrefix` and `Clustering.GroupsDisjoint` |
| `Clustering.ScanAtInvariant` | src/lib/bayesianFusion.ts:187-232 | after every seed, the processed ids are exactly the ids of the grouped signals, and each group was formed by its seed from the then-unprocessed signals near it |
| `Clustering.StepGrows` | src/lib/bayesianFusion.ts:187-232 | one seed never removes a processed id or a group |
| `Clustering.ScanPrefix` | src/lib/bayesianFusion.ts:187-232 | groups formed earlier stay, in order, and processed ids stay processed |
| `Clustering.GroupMembership` | src/lib/bayesianFusion.ts:191-208 | a group has at least two members, which are exactly the input signals near its seed whose ids were unprocessed when it was tried |
| `Clustering.GroupsDisjoint` | src/lib/bayesianFusion.ts:188-208 | no signal id belongs to two groups |
| `Clustering.GroupIdsProcessed` | src/lib/bayesianFusion.ts:206-208 | the ids of a group are processed from its seed's step on |
| `Clustering.SeedInOwnGroup` | src/lib/bayesianFusion.ts:191-206 | with a distance zero on a point and non-negative thresholds, every seed is a member of its own group |
| `Clustering.DefaultSeedInOwnGroup` | src/lib/bayesianFusion.ts:12-18 | the default configuration (50 km, 72 h) has non-negative thresholds, so under it every seed is in its own group |
| `Clustering.LaterSeedWasNeighbor` | src/lib/bayesianFusion.ts:191-206 | an unprocessed later seed near an earlier seed was itself a neighbour of that earlier seed |
| `Clustering.FailedSeedNeverJoinsLater` | src/lib/bayesianFusion.ts:188-208 | a seed with fewer than two neighbours changes nothing (nothing is marked processed), and with a symmetric distance it is never pulled into a later group |
| `Clustering.BuildCluster` | src/lib/bayesianFusion.ts:210-228 | a cluster of two or more members has a signal count equal to the member count, a score in [0, 99], status active exactly when the score is at least 70 (else monitoring), the cross-domain flag exactly when two members differ in domain, domain counts summing to the member count, a radius of at least 15 km, and at most three intents in non-increasing probability |
| `Clustering.EmitAllAt` | src/lib/bayesianFusion.ts:214-230 | the k-th emitted cluster is built from the k-th group and is named by the k-th id |
| `Clustering.EmittedClusters` | src/lib/bayesianFusion.ts:187-232 | every emitted cluster is well formed, reached from one input seed, and shares no signal id with another |
| `Clustering.ClusterSpec` | src/lib/bayesianFusion.ts:180-236 | definition of the result; properties in `Clustering.ClusterOutput` |
| `Clustering.ClusterOutput` | src/lib/bayesianFusion.ts:180-236 | the result is sorted by non-increasing score, a permutation of the emitted clusters that keeps emission order among equal scores, every cluster well formed and seeded, and no id in two clusters |
| `Clustering.MarkProcessed` | src/lib/bayesianFusion.ts:208 | the marking loop adds exactly the members' ids to the processed set |
| `Clustering.MakeCluster` | src/lib/bayesianFusion.ts:210-228 | the cluster literal, whose score and domain counts come from their loops, is the specified cluster |
| `Clustering.ScanStep` | src/lib/bayesianFusion.ts:187-232 | a seed either forms a group, which adds its members' ids and one cluster, or leaves state and output unchanged |
| `Clustering.TrySeed` | src/lib/bayesianFusion.ts:187-231 | one `forEach` callback takes the processed set and the emitted clusters from the state after seed i to the state after seed i+1 |
| `Clustering.ScanSignals` | src/lib/bayesianFusion.ts:184-232 | the seed loop emits exactly the clusters of the specified scan, in formation order |
| `Clustering.ClusterSignals` | src/lib/bayesianFusion.ts:180-236 | `clusterSignals` returns the specified clusters: sorted by non-increasing score, each well formed, no id in two clusters |
| `Action.GetRecommendedAction` | src/lib/bayesianFusion.ts:239-269 | definition; properties in `Action.Bands`, `Action.PriorityMonotone` and `Action.ConsistentTriple` |
| `Action.Bands` | src/lib/bayesianFusion.ts:239-269 | LOW exactly below 40, MEDIUM exactly on [40, 70), HIGH exactly on [70, 90), CRITICAL exactly from 90 |
| `Action.PriorityMonotone` | src/lib/bayesianFusion.ts:239-269 | a higher score never gets a lower priority |
| `Action.ConsistentTriple` | src/lib/bayesianFusion.ts:239-269 | the action, priority and color always come from one of the four fixed recommendations |
| `Action.ActionMatchesStatus` | src/lib/bayesianFusion.ts:239-269 | for a produced cluster, active means HIGH or CRITICAL and monitoring means LOW or MEDIUM |
| `Scenario.BatchScore` | src/lib/bayesianFusion.ts:50-84 | confidences 0.8 and 0.7, both high, cross-domain: the score is 40 |
| `Scenario.BatchIntents` | src/lib/bayesianFusion.ts:100-163 | for that pair: cyber attack 0.5, physical assault 0.43 (0.425 rounded half up), supply disruption 0.25, all near term |
| `Scenario.BatchGroups` | src/lib/bayesianFusion.ts:187-208 | with the default configuration and any distance within 50 km between the two, the first seed takes both signals into one group |
| `Scenario.BatchClusters` | src/lib/bayesianFusion.ts:180-236 | so exactly one cluster is returned: two members, cross-domain, score 40, monitoring |

## Left out

- The haversine formula `calculateDistance` (src/lib/bayesianFusion.ts:21-31) is floating-point
  trigonometry. The model takes the distance as a parameter `dist`. Facts about it (zero from a
  point to itself, symmetry) are stated as requirements of the lemmas that need them.
- Floating point: numbers are exact reals. `Math.round` is floor(x + 0.5) and `Math.floor(n * 0.9)`
  is (9n) div 10. Rounding errors of IEEE arithmetic in the score, the center and the percentile
  are not modelled.
- Ids and times are parameters, because they come from the clock and the random generator.
  `Date.now()`, `Math.random()` and the `THR-…` id format become a function `newId` (the k-th
  emitted cluster gets `newId(k)`). `new Date()` becomes one `clock` value used for both
  `createdAt` and `updatedAt`. So the model does not capture the two timestamps differing by a
  millisecond, or ids being random.
- `toLowerCase` is modelled for ASCII letters only; Unicode case mapping is not modelled.
- The sort algorithm itself: any correct stable comparator sort gives the same result. The model
  uses a stable insertion sort and proves it ordered, a permutation and stable.
- `Signal.processed`, `AlertConfig.minConfidenceThreshold`, `enableAutoRefresh` and
  `refreshIntervalSeconds` are not read by the engine, so they play no part in the model.
- `DashboardMetrics` and the remaining types of src/types/mdad.ts are not part of this model.
- The `resolved` status, the `sabotage` vector and the `infrastructure` and `civilian-area`
  targets are declared, but the engine never produces them. The model declares them too.
- Fusion.CalculateBayesianConfidence: requires every member confidence to lie in [0, 1], as
  src/types/mdad.ts:15 documents. Outside that range the source can divide by a zero evidence and
  yield NaN or Infinity, which reals do not represent.
- Clustering.ClusterSignals: requires the same confidence range, for the same reason.
- Each seed's neighbourhood is computed by the function `Neighbors` rather than by an explicit
  loop, matching the source's `filter` expression.
