/** The response recommended for a threat's confidence score: `getRecommendedAction`
    (src/lib/bayesianFusion.ts). */
module Action {
  import opened MdadTypes
  import opened Geometry
  import opened Clustering

  datatype Recommendation = Recommendation(action: string, priority: string, color: string)

  const MonitorOnly := Recommendation("Monitor Only - Continue passive surveillance", "LOW", "text-threat-low")
  const PrepareAssets :=
    Recommendation("Prepare Assets - Increase surveillance, brief response units", "MEDIUM", "text-threat-medium")
  const DeployReconnaissance :=
    Recommendation("Deploy Reconnaissance - Alert units, position assets", "HIGH", "text-threat-high")
  const ImmediateResponse :=
    Recommendation("Immediate Response - Activate protocols, engage command", "CRITICAL", "text-threat-critical")

  function GetRecommendedAction(confidence: real): Recommendation {
    if confidence < 40.0 then MonitorOnly
    else if confidence < 70.0 then PrepareAssets
    else if confidence < 90.0 then DeployReconnaissance
    else ImmediateResponse
  }

  /** 0 for LOW up to 3 for CRITICAL. */
  function PriorityRank(r: Recommendation): (rank: nat)
    ensures rank <= 3
  {
    if r.priority == "LOW" then 0
    else if r.priority == "MEDIUM" then 1
    else if r.priority == "HIGH" then 2
    else 3
  }

  /** Each band is half open: the lower bound is included, the upper bound excluded. */
  lemma Bands(confidence: real)
    ensures GetRecommendedAction(confidence).priority == "LOW" <==> confidence < 40.0
    ensures GetRecommendedAction(confidence).priority == "MEDIUM" <==> 40.0 <= confidence < 70.0
    ensures GetRecommendedAction(confidence).priority == "HIGH" <==> 70.0 <= confidence < 90.0
    ensures GetRecommendedAction(confidence).priority == "CRITICAL" <==> 90.0 <= confidence
  {
  }

  /** A higher score never gets a lower priority. */
  lemma PriorityMonotone(c1: real, c2: real)
    requires c1 <= c2
    ensures PriorityRank(GetRecommendedAction(c1)) <= PriorityRank(GetRecommendedAction(c2))
  {
  }

  /** Action, priority and color always belong together. */
  lemma ConsistentTriple(confidence: real)
    ensures GetRecommendedAction(confidence) in {MonitorOnly, PrepareAssets, DeployReconnaissance, ImmediateResponse}
  {
  }

  /** For a cluster from `clusterSignals`, an `active` status means HIGH or CRITICAL and a
      `monitoring` one means LOW or MEDIUM; the cap at 99 still leaves CRITICAL reachable. */
  lemma ActionMatchesStatus(c: ThreatCluster, dist: DistanceFn)
    requires WellFormed(c, dist)
    ensures var rank := PriorityRank(GetRecommendedAction(c.confidenceScore as real));
            (c.status == Active <==> rank >= 2) && (c.status == Monitoring <==> rank <= 1)
  {
  }
}
