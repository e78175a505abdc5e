/** The DBSCAN-like grouping of signals into threat clusters: `clusterSignals`
    (src/lib/bayesianFusion.ts).

    The specification is a scan over the input positions. `ScanAt(n)` is the state after the
    first `n` seeds have been tried: the set of ids already taken by a cluster and the groups
    formed so far. `ClusterSpec` turns the final groups into clusters and sorts them. The
    method `ClusterSignals` computes the same thing with the source's loops. */
module Clustering {
  import opened MdadTypes
  import opened StableSort
  import opened Geometry
  import opened Domains
  import opened Fusion
  import opened Intent

  /** `DEFAULT_CONFIG`. */
  const DefaultConfig: AlertConfig := AlertConfig(40.0, 50.0, 72.0, true, 30.0)

  // ---------------------------------------------------------------- neighbourhoods

  /** `s` may join the cluster seeded by `seed`: within the spatial radius of the seed and within
      its time window, both boundaries included. */
  predicate Near(config: AlertConfig, dist: DistanceFn, seed: Signal, s: Signal) {
    dist(seed.latitude, seed.longitude, s.latitude, s.longitude) <= config.spatialRadiusKm
    && WithinTemporalWindow(seed, s, config.temporalWindowHours)
  }

  /** A signal at exactly the radius and exactly the window's edge is still near. */
  lemma NearIsInclusive(config: AlertConfig, dist: DistanceFn, seed: Signal, s: Signal)
    requires dist(seed.latitude, seed.longitude, s.latitude, s.longitude) == config.spatialRadiusKm
    requires Abs(seed.timestamp - s.timestamp) as real == config.temporalWindowHours * MillisPerHour
    ensures Near(config, dist, seed, s)
  {
  }

  lemma NearSymmetric(config: AlertConfig, dist: DistanceFn, a: Signal, b: Signal)
    requires Symmetric(dist)
    ensures Near(config, dist, a, b) == Near(config, dist, b, a)
  {
    TemporalWindowSymmetric(a, b, config.temporalWindowHours);
  }

  lemma NearSelf(config: AlertConfig, dist: DistanceFn, a: Signal)
    requires ZeroOnSelf(dist)
    requires config.spatialRadiusKm >= 0.0 && config.temporalWindowHours >= 0.0
    ensures Near(config, dist, a, a)
  {
    TemporalWindowReflexive(a, config.temporalWindowHours);
  }

  /** The ids of a list of signals. */
  function IdsOf(ss: seq<Signal>): set<string> {
    set s | s in ss :: s.id
  }

  /** `signals.filter(...)`: the signals whose id is not yet processed and that are near `seed`,
      in input order. */
  function Neighbors(signals: seq<Signal>, seed: Signal, processed: set<string>,
                     config: AlertConfig, dist: DistanceFn): (r: seq<Signal>)
    ensures |r| <= |signals|
    ensures forall x :: x in r <==> x in signals && x.id !in processed && Near(config, dist, seed, x)
  {
    if signals == [] then []
    else
      var head := signals[0];
      var rest := Neighbors(signals[1..], seed, processed, config, dist);
      assert forall x :: x in signals <==> x == head || x in signals[1..];
      (if head.id !in processed && Near(config, dist, seed, head) then [head] else []) + rest
  }

  /** Position `a` of the input passes the filter. */
  ghost predicate Admissible(signals: seq<Signal>, a: nat, seed: Signal, processed: set<string>,
                             config: AlertConfig, dist: DistanceFn)
  {
    a < |signals| && signals[a].id !in processed && Near(config, dist, seed, signals[a])
  }

  /** Two different positions that pass the filter give at least two neighbours (also when the
      two positions hold equal signals). */
  lemma {:induction false} NeighborsTwo(signals: seq<Signal>, seed: Signal, processed: set<string>,
                                        config: AlertConfig, dist: DistanceFn, a: nat, b: nat)
    requires a != b
    requires Admissible(signals, a, seed, processed, config, dist)
    requires Admissible(signals, b, seed, processed, config, dist)
    ensures |Neighbors(signals, seed, processed, config, dist)| >= 2
  {
    var rest := Neighbors(signals[1..], seed, processed, config, dist);
    if a == 0 {
      assert signals[1..][b - 1] in signals[1..];
      assert |rest| >= 1;
    } else if b == 0 {
      assert signals[1..][a - 1] in signals[1..];
      assert |rest| >= 1;
    } else {
      assert signals[1..][a - 1] == signals[a] && signals[1..][b - 1] == signals[b];
      NeighborsTwo(signals[1..], seed, processed, config, dist, a - 1, b - 1);
    }
  }

  // ---------------------------------------------------------------- the scan

  /** A group of neighbours formed around the signal at input position `seed`. */
  datatype Group = Group(seed: nat, members: seq<Signal>)

  datatype ScanState = ScanState(processed: set<string>, groups: seq<Group>)

  /** The ids of all members of all groups. */
  function UnionIds(gs: seq<Group>): set<string> {
    if gs == [] then {} else UnionIds(gs[..|gs| - 1]) + IdsOf(gs[|gs| - 1].members)
  }

  /** One iteration of `signals.forEach`: skip a processed seed; otherwise form a group when the
      filter keeps at least two signals, and only then mark their ids processed. */
  function Step(signals: seq<Signal>, config: AlertConfig, dist: DistanceFn, st: ScanState, i: nat): ScanState
    requires i < |signals|
  {
    var seed := signals[i];
    if seed.id in st.processed then st
    else
      var nb := Neighbors(signals, seed, st.processed, config, dist);
      if |nb| >= 2 then ScanState(st.processed + IdsOf(nb), st.groups + [Group(i, nb)])
      else st
  }

  /** The state after the seeds at positions `0 .. n-1` have been tried. */
  function ScanAt(signals: seq<Signal>, config: AlertConfig, dist: DistanceFn, n: nat): ScanState
    requires n <= |signals|
  {
    if n == 0 then ScanState({}, []) else Step(signals, config, dist, ScanAt(signals, config, dist, n - 1), n - 1)
  }

  function Groups(signals: seq<Signal>, config: AlertConfig, dist: DistanceFn): seq<Group> {
    ScanAt(signals, config, dist, |signals|).groups
  }

  /** What the scan maintains after `n` seeds: the processed ids are exactly the ids of the
      grouped signals, and the group at position `k` was formed by the seed `g.seed`, from the
      state in which exactly the first `k` groups existed, out of the signals near the seed whose
      ids were then unprocessed. */
  ghost predicate ScanInvariant(signals: seq<Signal>, config: AlertConfig, dist: DistanceFn, n: nat)
    requires n <= |signals|
  {
    var st := ScanAt(signals, config, dist, n);
    && st.processed == UnionIds(st.groups)
    && forall k :: 0 <= k < |st.groups| ==> GroupFormed(signals, config, dist, st.groups, k)
  }

  ghost predicate GroupFormed(signals: seq<Signal>, config: AlertConfig, dist: DistanceFn, gs: seq<Group>, k: nat)
    requires k < |gs|
  {
    var g := gs[k];
    && g.seed < |signals|
    && ScanAt(signals, config, dist, g.seed).groups == gs[..k]
    && ScanAt(signals, config, dist, g.seed + 1).groups == gs[..k + 1]
    && signals[g.seed].id !in ScanAt(signals, config, dist, g.seed).processed
    && g.members == Neighbors(signals, signals[g.seed], ScanAt(signals, config, dist, g.seed).processed, config, dist)
    && |g.members| >= 2
  }

  lemma UnionIdsAppend(gs: seq<Group>, g: Group)
    ensures UnionIds(gs + [g]) == UnionIds(gs) + IdsOf(g.members)
  {
    assert (gs + [g])[..|gs|] == gs;
  }

  lemma GroupFormedExtend(signals: seq<Signal>, config: AlertConfig, dist: DistanceFn, gs: seq<Group>, g: Group, k: nat)
    requires k < |gs| && GroupFormed(signals, config, dist, gs, k)
    ensures GroupFormed(signals, config, dist, gs + [g], k)
  {
    assert (gs + [g])[k] == gs[k];
    assert (gs + [g])[..k] == gs[..k];
    assert (gs + [g])[..k + 1] == gs[..k + 1];
  }

  /** A seed that changes the state appends the group it formed. */
  lemma GroupFormedLast(signals: seq<Signal>, config: AlertConfig, dist: DistanceFn, n: nat)
    requires 0 < n <= |signals|
    requires ScanAt(signals, config, dist, n) != ScanAt(signals, config, dist, n - 1)
    ensures var prev := ScanAt(signals, config, dist, n - 1);
            var g := Group(n - 1, Neighbors(signals, signals[n - 1], prev.processed, config, dist));
            && ScanAt(signals, config, dist, n).groups == prev.groups + [g]
            && ScanAt(signals, config, dist, n).processed == prev.processed + IdsOf(g.members)
            && GroupFormed(signals, config, dist, prev.groups + [g], |prev.groups|)
  {
    var prev := ScanAt(signals, config, dist, n - 1);
    var g := Group(n - 1, Neighbors(signals, signals[n - 1], prev.processed, config, dist));
    var gs := prev.groups + [g];
    assert gs[|prev.groups|] == g;
    assert gs[..|prev.groups|] == prev.groups;
    assert gs[..|prev.groups| + 1] == gs;
  }

  lemma {:induction false} ScanAtInvariant(signals: seq<Signal>, config: AlertConfig, dist: DistanceFn, n: nat)
    requires n <= |signals|
    ensures ScanInvariant(signals, config, dist, n)
  {
    if n > 0 {
      ScanAtInvariant(signals, config, dist, n - 1);
      var prev := ScanAt(signals, config, dist, n - 1);
      var st := ScanAt(signals, config, dist, n);
      if st != prev {
        GroupFormedLast(signals, config, dist, n);
        var g := Group(n - 1, Neighbors(signals, signals[n - 1], prev.processed, config, dist));
        UnionIdsAppend(prev.groups, g);
        forall k | 0 <= k < |prev.groups| ensures GroupFormed(signals, config, dist, st.groups, k) {
          GroupFormedExtend(signals, config, dist, prev.groups, g, k);
        }
      }
    }
  }

  /** One seed only ever adds. */
  lemma StepGrows(signals: seq<Signal>, config: AlertConfig, dist: DistanceFn, n: nat)
    requires 0 < n <= |signals|
    ensures var prev := ScanAt(signals, config, dist, n - 1);
            var st := ScanAt(signals, config, dist, n);
            && prev.processed <= st.processed
            && |prev.groups| <= |st.groups|
            && st.groups[..|prev.groups|] == prev.groups
  {
    var prev := ScanAt(signals, config, dist, n - 1);
    var st := ScanAt(signals, config, dist, n);
    if st != prev {
      assert st.groups[..|prev.groups|] == prev.groups;
    } else {
      assert st.groups[..|st.groups|] == st.groups;
    }
  }

  /** The scan only ever adds: earlier groups stay, in order, and processed ids stay processed. */
  lemma {:induction false} ScanPrefix(signals: seq<Signal>, config: AlertConfig, dist: DistanceFn, m: nat, n: nat)
    requires m <= n <= |signals|
    ensures ScanAt(signals, config, dist, m).processed <= ScanAt(signals, config, dist, n).processed
    ensures |ScanAt(signals, config, dist, m).groups| <= |ScanAt(signals, config, dist, n).groups|
    ensures ScanAt(signals, config, dist, m).groups
         == ScanAt(signals, config, dist, n).groups[..|ScanAt(signals, config, dist, m).groups|]
  {
    var a := ScanAt(signals, config, dist, m).groups;
    if m == n {
      assert a[..|a|] == a;
    } else {
      ScanPrefix(signals, config, dist, m, n - 1);
      StepGrows(signals, config, dist, n);
      PrefixTrans(a, ScanAt(signals, config, dist, n - 1).groups, ScanAt(signals, config, dist, n).groups);
    }
  }

  lemma PrefixTrans<T>(a: seq<T>, b: seq<T>, c: seq<T>)
    requires |a| <= |b| <= |c| && a == b[..|a|] && b == c[..|b|]
    ensures a == c[..|a|]
  {
  }

  lemma {:induction false} UnionIdsContains(gs: seq<Group>, k: nat)
    requires k < |gs|
    ensures IdsOf(gs[k].members) <= UnionIds(gs)
  {
    if k < |gs| - 1 {
      UnionIdsContains(gs[..|gs| - 1], k);
    }
  }

  /** A group holds exactly the input signals near its seed whose ids were unprocessed when the
      seed was tried. */
  lemma GroupMembership(signals: seq<Signal>, config: AlertConfig, dist: DistanceFn, n: nat, k: nat)
    requires n <= |signals| && k < |ScanAt(signals, config, dist, n).groups|
    ensures var g := ScanAt(signals, config, dist, n).groups[k];
            && g.seed < n
            && |g.members| >= 2
            && forall x :: x in g.members
                 <==> x in signals && x.id !in ScanAt(signals, config, dist, g.seed).processed
                      && Near(config, dist, signals[g.seed], x)
  {
    ScanAtInvariant(signals, config, dist, n);
    var gs := ScanAt(signals, config, dist, n).groups;
    assert GroupFormed(signals, config, dist, gs, k);
    var s := gs[k].seed;
    if s >= n {
      ScanPrefix(signals, config, dist, n, s);
      assert false;
    }
  }

  /** No signal id belongs to two groups. */
  lemma GroupsDisjoint(signals: seq<Signal>, config: AlertConfig, dist: DistanceFn, n: nat, k: nat, l: nat)
    requires n <= |signals| && k < l < |ScanAt(signals, config, dist, n).groups|
    ensures IdsOf(ScanAt(signals, config, dist, n).groups[k].members)
         !! IdsOf(ScanAt(signals, config, dist, n).groups[l].members)
  {
    ScanAtInvariant(signals, config, dist, n);
    var gs := ScanAt(signals, config, dist, n).groups;
    assert GroupFormed(signals, config, dist, gs, l);
    var s := gs[l].seed;
    ScanAtInvariant(signals, config, dist, s);
    assert gs[..l][k] == gs[k];
    UnionIdsContains(gs[..l], k);
    var before := ScanAt(signals, config, dist, s).processed;
    assert IdsOf(gs[k].members) <= before;
    forall id | id in IdsOf(gs[l].members) ensures id !in before {
      var y :| y in gs[l].members && y.id == id;
    }
  }

  /** With a distance that is zero from a point to itself and non-negative thresholds, every seed
      belongs to the group it formed. */
  lemma SeedInOwnGroup(signals: seq<Signal>, config: AlertConfig, dist: DistanceFn, n: nat, k: nat)
    requires ZeroOnSelf(dist) && config.spatialRadiusKm >= 0.0 && config.temporalWindowHours >= 0.0
    requires n <= |signals| && k < |ScanAt(signals, config, dist, n).groups|
    ensures var g := ScanAt(signals, config, dist, n).groups[k];
            g.seed < |signals| && signals[g.seed] in g.members
  {
    ScanAtInvariant(signals, config, dist, n);
    var gs := ScanAt(signals, config, dist, n).groups;
    assert GroupFormed(signals, config, dist, gs, k);
    NearSelf(config, dist, signals[gs[k].seed]);
  }

  /** The default radius and window are non-negative, so under the defaults every seed is a
      member of its own group. */
  lemma DefaultSeedInOwnGroup(signals: seq<Signal>, dist: DistanceFn, k: nat)
    requires ZeroOnSelf(dist)
    requires k < |Groups(signals, DefaultConfig, dist)|
    ensures Groups(signals, DefaultConfig, dist)[k].seed < |signals|
    ensures signals[Groups(signals, DefaultConfig, dist)[k].seed] in Groups(signals, DefaultConfig, dist)[k].members
  {
    SeedInOwnGroup(signals, DefaultConfig, dist, |signals|, k);
  }

  /** The ids of a group are processed from the step of its seed on. */
  lemma GroupIdsProcessed(signals: seq<Signal>, config: AlertConfig, dist: DistanceFn, n: nat, l: nat)
    requires n <= |signals| && l < |ScanAt(signals, config, dist, n).groups|
    ensures var g := ScanAt(signals, config, dist, n).groups[l];
            && GroupFormed(signals, config, dist, ScanAt(signals, config, dist, n).groups, l)
            && IdsOf(g.members) <= ScanAt(signals, config, dist, g.seed + 1).processed
  {
    ScanAtInvariant(signals, config, dist, n);
    var gs := ScanAt(signals, config, dist, n).groups;
    assert GroupFormed(signals, config, dist, gs, l);
    var j := gs[l].seed;
    assert |ScanAt(signals, config, dist, j + 1).groups| == l + 1;
    assert |ScanAt(signals, config, dist, j).groups| == l;
    GroupFormedLast(signals, config, dist, j + 1);
  }

  /** A signal at a later position `j` that is near the signal at position `i` and was still
      unprocessed when `i` was tried was admissible for `i` then, beside `i` itself. */
  lemma LaterSeedWasNeighbor(signals: seq<Signal>, config: AlertConfig, dist: DistanceFn, i: nat, j: nat)
    requires Symmetric(dist) && ZeroOnSelf(dist)
    requires config.spatialRadiusKm >= 0.0 && config.temporalWindowHours >= 0.0
    requires i < j < |signals|
    requires signals[i].id !in ScanAt(signals, config, dist, i).processed
    requires signals[j].id !in ScanAt(signals, config, dist, i).processed
    requires Near(config, dist, signals[j], signals[i])
    ensures |Neighbors(signals, signals[i], ScanAt(signals, config, dist, i).processed, config, dist)| >= 2
  {
    var s := signals[i];
    var atI := ScanAt(signals, config, dist, i);
    NearSymmetric(config, dist, signals[j], s);
    NearSelf(config, dist, s);
    assert Admissible(signals, i, s, atI.processed, config, dist);
    assert Admissible(signals, j, s, atI.processed, config, dist);
    NeighborsTwo(signals, s, atI.processed, config, dist, i, j);
  }

  /** A seed whose filter keeps fewer than two signals changes nothing, and, when the distance
      is symmetric and zero on a point, that signal is never pulled into a later group either:
      whichever later seed could reach it would have been its second neighbour. */
  lemma FailedSeedNeverJoinsLater(signals: seq<Signal>, config: AlertConfig, dist: DistanceFn, i: nat, n: nat)
    requires Symmetric(dist) && ZeroOnSelf(dist)
    requires config.spatialRadiusKm >= 0.0 && config.temporalWindowHours >= 0.0
    requires i < n <= |signals|
    requires signals[i].id !in ScanAt(signals, config, dist, i).processed
    requires |Neighbors(signals, signals[i], ScanAt(signals, config, dist, i).processed, config, dist)| < 2
    ensures ScanAt(signals, config, dist, i + 1) == ScanAt(signals, config, dist, i)
    ensures forall g :: g in ScanAt(signals, config, dist, n).groups ==> signals[i] !in g.members
  {
    var s := signals[i];
    var gs := ScanAt(signals, config, dist, n).groups;
    forall g | g in gs ensures s !in g.members {
      var l :| 0 <= l < |gs| && gs[l] == g;
      GroupIdsProcessed(signals, config, dist, n, l);
      var j := g.seed;
      if s in g.members {
        if j < i {
          assert s.id in IdsOf(g.members);
          ScanPrefix(signals, config, dist, j + 1, i);
          assert false;
        } else if j == i {
          assert false;
        } else {
          ScanPrefix(signals, config, dist, i, j);
          LaterSeedWasNeighbor(signals, config, dist, i, j);
          assert false;
        }
      }
    }
  }

  // ---------------------------------------------------------------- clusters

  /** `cluster` holds what `clusterSignals` promises about every cluster it returns. */
  ghost predicate WellFormed(c: ThreatCluster, dist: DistanceFn) {
    && |c.signals| >= 2
    && c.signalCount == |c.signals|
    && ValidConfidences(c.signals)
    && c.createdAt == c.updatedAt
    && c.centerLat == ClusterCenter(c.signals).lat
    && c.centerLon == ClusterCenter(c.signals).lon
    && 0 <= c.confidenceScore <= 99
    && c.confidenceScore == BayesianConfidence(c.signals, c.crossDomainBonus)
    && (c.status == Active <==> c.confidenceScore >= 70)
    && (c.status == Monitoring <==> c.confidenceScore < 70)
    && (c.crossDomainBonus <==> exists i, j :: 0 <= i < |c.signals| && 0 <= j < |c.signals|
                                                && c.signals[i].domain != c.signals[j].domain)
    && c.domainMix == DomainMixOf(c.signals)
    && c.domainMix.Total() == c.signalCount
    && c.radiusKm >= 15.0
    && c.radiusKm == ClusterRadius(c.signals, ClusterCenter(c.signals), dist)
    && c.predictedIntents == PredictIntent(c.signals)
    && |c.predictedIntents| <= 3
    && NonIncreasing(c.predictedIntents, ByProbability)
  }

  function StatusFor(confidence: int): ClusterStatus {
    if confidence >= 70 then Active else Monitoring
  }

  /** The cluster record built from a group of neighbours. */
  function BuildCluster(members: seq<Signal>, id: string, clock: int, dist: DistanceFn): (c: ThreatCluster)
    requires |members| >= 2 && ValidConfidences(members)
    ensures WellFormed(c, dist)
    ensures c.signals == members && c.id == id && c.createdAt == clock
  {
    var center := ClusterCenter(members);
    var crossDomain := HasCrossDomainSignals(members);
    var confidence := BayesianConfidence(members, crossDomain);
    ScoreBounds(members, crossDomain);
    CrossDomainIff(members);
    DomainMixTotal(members);
    PredictIntentShape(members);
    ThreatCluster(id, clock, clock, center.lat, center.lon, confidence, |members|, DomainMixOf(members),
                  members, PredictIntent(members), StatusFor(confidence),
                  ClusterRadius(members, center, dist), crossDomain)
  }

  ghost predicate GroupsUsable(gs: seq<Group>) {
    forall k :: 0 <= k < |gs| ==> |gs[k].members| >= 2 && ValidConfidences(gs[k].members)
  }

  lemma GroupsOfScanUsable(signals: seq<Signal>, config: AlertConfig, dist: DistanceFn, n: nat)
    requires ValidConfidences(signals) && n <= |signals|
    ensures GroupsUsable(ScanAt(signals, config, dist, n).groups)
  {
    var gs := ScanAt(signals, config, dist, n).groups;
    forall k | 0 <= k < |gs| ensures |gs[k].members| >= 2 && ValidConfidences(gs[k].members) {
      GroupMembership(signals, config, dist, n, k);
    }
  }

  /** The clusters in the order their groups were formed; the `k`-th one gets id `newId(k)`. */
  function EmitAll(gs: seq<Group>, dist: DistanceFn, newId: nat -> string, clock: int): (cs: seq<ThreatCluster>)
    requires GroupsUsable(gs)
    ensures |cs| == |gs|
  {
    if gs == [] then []
    else
      var p := gs[..|gs| - 1];
      assert GroupsUsable(p) by {
        forall k | 0 <= k < |p| ensures |p[k].members| >= 2 && ValidConfidences(p[k].members) {
          assert p[k] == gs[k];
        }
      }
      EmitAll(p, dist, newId, clock) + [BuildCluster(gs[|gs| - 1].members, newId(|gs| - 1), clock, dist)]
  }

  lemma GroupsUsablePrefix(gs: seq<Group>, m: nat)
    requires GroupsUsable(gs) && m <= |gs|
    ensures GroupsUsable(gs[..m])
  {
    forall k | 0 <= k < m ensures |gs[..m][k].members| >= 2 && ValidConfidences(gs[..m][k].members) {
      assert gs[..m][k] == gs[k];
    }
  }

  /** The `k`-th emitted cluster is built from the `k`-th group and is named `newId(k)`. */
  lemma {:induction false} EmitAllAt(gs: seq<Group>, dist: DistanceFn, newId: nat -> string, clock: int, k: nat)
    requires GroupsUsable(gs) && k < |gs|
    ensures EmitAll(gs, dist, newId, clock)[k] == BuildCluster(gs[k].members, newId(k), clock, dist)
  {
    var p := gs[..|gs| - 1];
    GroupsUsablePrefix(gs, |gs| - 1);
    if k < |gs| - 1 {
      EmitAllAt(p, dist, newId, clock, k);
      assert p[k] == gs[k];
    }
  }

  function ConfidenceKey(c: ThreatCluster): real { c.confidenceScore as real }

  /** `clusters.sort((a, b) => b.confidenceScore - a.confidenceScore)`. */
  function SortByConfidence(cs: seq<ThreatCluster>): (r: seq<ThreatCluster>)
    ensures |r| == |cs|
  {
    SortDesc(cs, ConfidenceKey)
  }

  /** What `clusterSignals(signals, config)` returns. */
  function ClusterSpec(signals: seq<Signal>, config: AlertConfig, dist: DistanceFn,
                       newId: nat -> string, clock: int): seq<ThreatCluster>
    requires ValidConfidences(signals)
  {
    GroupsOfScanUsable(signals, config, dist, |signals|);
    SortByConfidence(EmitAll(Groups(signals, config, dist), dist, newId, clock))
  }

  /** Two clusters share no signal id. */
  predicate DisjointClusters(a: ThreatCluster, b: ThreatCluster) {
    IdsOf(a.signals) !! IdsOf(b.signals)
  }

  /** The seed at input position `i` reaches every member of `c`. */
  ghost predicate SeededAt(c: ThreatCluster, signals: seq<Signal>, i: nat, config: AlertConfig, dist: DistanceFn) {
    i < |signals| && forall x :: x in c.signals ==> x in signals && Near(config, dist, signals[i], x)
  }

  /** The emitted clusters, before sorting, are well formed, seeded by an input signal, and
      pairwise disjoint. */
  lemma EmittedClusters(signals: seq<Signal>, config: AlertConfig, dist: DistanceFn, newId: nat -> string, clock: int)
    requires ValidConfidences(signals)
    ensures GroupsUsable(Groups(signals, config, dist))
    ensures var cs := EmitAll(Groups(signals, config, dist), dist, newId, clock);
            && (forall c :: c in cs ==> WellFormed(c, dist) && exists i :: SeededAt(c, signals, i, config, dist))
            && Pairwise(cs, DisjointClusters)
  {
    var n := |signals|;
    GroupsOfScanUsable(signals, config, dist, n);
    var gs := Groups(signals, config, dist);
    var cs := EmitAll(gs, dist, newId, clock);
    forall c | c in cs ensures WellFormed(c, dist) && exists i :: SeededAt(c, signals, i, config, dist) {
      var k :| 0 <= k < |cs| && cs[k] == c;
      EmitAllAt(gs, dist, newId, clock, k);
      GroupMembership(signals, config, dist, n, k);
      assert SeededAt(c, signals, gs[k].seed, config, dist);
    }
    forall k, l | 0 <= k < l < |cs| ensures DisjointClusters(cs[k], cs[l]) {
      EmitAllAt(gs, dist, newId, clock, k);
      EmitAllAt(gs, dist, newId, clock, l);
      GroupsDisjoint(signals, config, dist, n, k, l);
    }
  }

  lemma DisjointClustersSymmetric()
    ensures SymmetricRel(DisjointClusters)
  {
  }

  /** The result of `clusterSignals`: sorted by non-increasing confidence, a permutation of the
      clusters in formation order that keeps that order among equal scores, every cluster well
      formed and reached from one input seed, and no signal id in two clusters. */
  lemma ClusterOutput(signals: seq<Signal>, config: AlertConfig, dist: DistanceFn, newId: nat -> string, clock: int)
    requires ValidConfidences(signals)
    ensures GroupsUsable(Groups(signals, config, dist))
    ensures var emitted := EmitAll(Groups(signals, config, dist), dist, newId, clock);
            var out := ClusterSpec(signals, config, dist, newId, clock);
            && NonIncreasing(out, ConfidenceKey)
            && multiset(out) == multiset(emitted)
            && (forall v :: WithKey(out, ConfidenceKey, v) == WithKey(emitted, ConfidenceKey, v))
            && (forall c :: c in out ==> WellFormed(c, dist) && exists i :: SeededAt(c, signals, i, config, dist))
            && Pairwise(out, DisjointClusters)
  {
    EmittedClusters(signals, config, dist, newId, clock);
    var emitted := EmitAll(Groups(signals, config, dist), dist, newId, clock);
    SortSorted(emitted, ConfidenceKey);
    SortMultiset(emitted, ConfidenceKey);
    SortMembers(emitted, ConfidenceKey);
    forall v ensures WithKey(SortByConfidence(emitted), ConfidenceKey, v) == WithKey(emitted, ConfidenceKey, v) {
      SortStable(emitted, ConfidenceKey, v);
    }
    DisjointClustersSymmetric();
    SortPairwise(emitted, ConfidenceKey, DisjointClusters);
  }

  // ---------------------------------------------------------------- the algorithm

  lemma IdsOfSnoc(ss: seq<Signal>, j: nat)
    requires j < |ss|
    ensures IdsOf(ss[..j + 1]) == IdsOf(ss[..j]) + {ss[j].id}
  {
    assert ss[..j + 1] == ss[..j] + [ss[j]];
  }

  /** `neighborSignals.forEach(s => processedIds.add(s.id))`. */
  method MarkProcessed(processed: set<string>, members: seq<Signal>) returns (result: set<string>)
    ensures result == processed + IdsOf(members)
  {
    result := processed;
    var j := 0;
    while j < |members|
      invariant 0 <= j <= |members|
      invariant result == processed + IdsOf(members[..j])
    {
      IdsOfSnoc(members, j);
      result := result + {members[j].id};
      j := j + 1;
    }
    assert members[..j] == members;
  }

  /** The cluster literal of `clusterSignals`, with the score and the domain counts computed by
      their loops. */
  method MakeCluster(members: seq<Signal>, id: string, clock: int, dist: DistanceFn) returns (cluster: ThreatCluster)
    requires |members| >= 2 && ValidConfidences(members)
    ensures cluster == BuildCluster(members, id, clock, dist)
  {
    var center := ClusterCenter(members);
    var crossDomain := HasCrossDomainSignals(members);
    var confidence := CalculateBayesianConfidence(members, crossDomain);
    var mix := CountDomains(members);
    cluster := ThreatCluster(id, clock, clock, center.lat, center.lon, confidence,
                             |members|, mix, members, PredictIntent(members),
                             if confidence >= 70 then Active else Monitoring,
                             ClusterRadius(members, center, dist), crossDomain);
  }

  lemma EmitAllSnoc(gs: seq<Group>, g: Group, dist: DistanceFn, newId: nat -> string, clock: int)
    requires GroupsUsable(gs + [g]) && |g.members| >= 2 && ValidConfidences(g.members)
    ensures GroupsUsable(gs)
    ensures EmitAll(gs + [g], dist, newId, clock)
         == EmitAll(gs, dist, newId, clock) + [BuildCluster(g.members, newId(|gs|), clock, dist)]
  {
    GroupsUsablePrefix(gs + [g], |gs|);
    assert (gs + [g])[..|gs|] == gs;
  }

  /** The clusters emitted by the first `n` seeds, in formation order. */
  function EmittedAt(signals: seq<Signal>, config: AlertConfig, dist: DistanceFn, n: nat,
                     newId: nat -> string, clock: int): seq<ThreatCluster>
    requires ValidConfidences(signals) && n <= |signals|
  {
    GroupsOfScanUsable(signals, config, dist, n);
    EmitAll(ScanAt(signals, config, dist, n).groups, dist, newId, clock)
  }

  /** How one seed changes the scan state and the emitted clusters. */
  lemma ScanStep(signals: seq<Signal>, config: AlertConfig, dist: DistanceFn, i: nat,
                 newId: nat -> string, clock: int)
    requires ValidConfidences(signals) && i < |signals|
    ensures var st := ScanAt(signals, config, dist, i);
            var nb := Neighbors(signals, signals[i], st.processed, config, dist);
            if signals[i].id !in st.processed && |nb| >= 2 then
              && |nb| >= 2 && ValidConfidences(nb)
              && ScanAt(signals, config, dist, i + 1).processed == st.processed + IdsOf(nb)
              && EmittedAt(signals, config, dist, i + 1, newId, clock)
                 == EmittedAt(signals, config, dist, i, newId, clock) + [BuildCluster(nb, newId(|st.groups|), clock, dist)]
              && |EmittedAt(signals, config, dist, i, newId, clock)| == |st.groups|
            else
              ScanAt(signals, config, dist, i + 1) == st
              && EmittedAt(signals, config, dist, i + 1, newId, clock) == EmittedAt(signals, config, dist, i, newId, clock)
  {
    var st := ScanAt(signals, config, dist, i);
    var nb := Neighbors(signals, signals[i], st.processed, config, dist);
    GroupsOfScanUsable(signals, config, dist, i);
    GroupsOfScanUsable(signals, config, dist, i + 1);
    if signals[i].id !in st.processed && |nb| >= 2 {
      assert forall s :: s in nb ==> s in signals;
      EmitAllSnoc(st.groups, Group(i, nb), dist, newId, clock);
    }
  }

  /** The `forEach` callback of `clusterSignals` for the seed at position `i`. */
  method TrySeed(signals: seq<Signal>, config: AlertConfig, dist: DistanceFn, newId: nat -> string, clock: int,
                 i: nat, processed: set<string>, emitted: seq<ThreatCluster>)
    returns (processed': set<string>, emitted': seq<ThreatCluster>)
    requires ValidConfidences(signals) && i < |signals|
    requires processed == ScanAt(signals, config, dist, i).processed
    requires emitted == EmittedAt(signals, config, dist, i, newId, clock)
    ensures processed' == ScanAt(signals, config, dist, i + 1).processed
    ensures emitted' == EmittedAt(signals, config, dist, i + 1, newId, clock)
  {
    ScanStep(signals, config, dist, i, newId, clock);
    processed', emitted' := processed, emitted;
    var signal := signals[i];
    if signal.id in processed {
      return;
    }
    var neighborSignals := Neighbors(signals, signal, processed, config, dist);
    if |neighborSignals| >= 2 {
      processed' := MarkProcessed(processed, neighborSignals);
      var cluster := MakeCluster(neighborSignals, newId(|emitted|), clock, dist);
      emitted' := emitted + [cluster];
    }
  }

  /** The `signals.forEach` loop of `clusterSignals`, with its mutable processed-id set. */
  method ScanSignals(signals: seq<Signal>, config: AlertConfig, dist: DistanceFn,
                     newId: nat -> string, clock: int) returns (emitted: seq<ThreatCluster>)
    requires ValidConfidences(signals)
    ensures emitted == EmittedAt(signals, config, dist, |signals|, newId, clock)
  {
    var processed: set<string> := {};
    emitted := [];
    var i := 0;
    while i < |signals|
      invariant 0 <= i <= |signals|
      invariant processed == ScanAt(signals, config, dist, i).processed
      invariant emitted == EmittedAt(signals, config, dist, i, newId, clock)
    {
      processed, emitted := TrySeed(signals, config, dist, newId, clock, i, processed, emitted);
      i := i + 1;
    }
  }

  /** `clusterSignals`: the scan, then the sort by confidence. */
  method ClusterSignals(signals: seq<Signal>, dist: DistanceFn, newId: nat -> string, clock: int,
                        config: AlertConfig := DefaultConfig) returns (clusters: seq<ThreatCluster>)
    requires ValidConfidences(signals)
    ensures clusters == ClusterSpec(signals, config, dist, newId, clock)
    ensures NonIncreasing(clusters, ConfidenceKey)
    ensures forall c :: c in clusters ==> WellFormed(c, dist)
    ensures Pairwise(clusters, DisjointClusters)
  {
    var emitted := ScanSignals(signals, config, dist, newId, clock);
    clusters := SortByConfidence(emitted);
    ClusterOutput(signals, config, dist, newId, clock);
  }
}
