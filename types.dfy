/** The records the fusion engine reads and produces (src/types/mdad.ts). */
module MdadTypes {

  /** Intelligence discipline of a signal. */
  datatype Domain = Physical | Cyber | Humint

  datatype Severity = Low | Medium | High | Critical

  datatype ThreatTimeline = Imminent | NearTerm | MediumTerm

  datatype AttackVector =
    | CyberAttack | PhysicalAssault | Reconnaissance
    | SupplyDisruption | Infiltration | Sabotage

  datatype TargetType =
    | MilitaryBase | Infrastructure | CivilianArea
    | Communications | SupplyLine | CommandCenter

  /** One observation. `timestamp` is the instant in milliseconds, as `Date.getTime()` gives it;
      coordinates are decimal degrees. */
  datatype Signal = Signal(
    id: string,
    timestamp: int,
    latitude: real,
    longitude: real,
    domain: Domain,
    confidence: real,
    severity: Severity,
    description: string,
    sourceType: string)

  datatype PredictedIntent = PredictedIntent(
    vector: AttackVector,
    target: TargetType,
    probability: real,
    timeline: ThreatTimeline)

  /** The count of member signals per domain (a `Record<Domain, number>`). */
  datatype DomainMix = DomainMix(physical: nat, cyber: nat, humint: nat)
  {
    function Get(d: Domain): nat {
      match d
      case Physical => physical
      case Cyber => cyber
      case Humint => humint
    }

    function Total(): nat {
      physical + cyber + humint
    }
  }

  datatype ClusterStatus = Active | Monitoring | Resolved

  datatype ThreatCluster = ThreatCluster(
    id: string,
    createdAt: int,
    updatedAt: int,
    centerLat: real,
    centerLon: real,
    confidenceScore: int,
    signalCount: nat,
    domainMix: DomainMix,
    signals: seq<Signal>,
    predictedIntents: seq<PredictedIntent>,
    status: ClusterStatus,
    radiusKm: real,
    crossDomainBonus: bool)

  datatype AlertConfig = AlertConfig(
    minConfidenceThreshold: real,
    spatialRadiusKm: real,
    temporalWindowHours: real,
    enableAutoRefresh: bool,
    refreshIntervalSeconds: real)

  /** Every signal's own reliability estimate lies in [0, 1]. */
  predicate ValidConfidences(signals: seq<Signal>) {
    forall s :: s in signals ==> 0.0 <= s.confidence <= 1.0
  }
}

/** The few `Math` operations the engine uses, on exact reals. */
module JsMath {

  function Min(a: real, b: real): real { if a <= b then a else b }

  function Max(a: real, b: real): real { if a >= b then a else b }

  function MinInt(a: int, b: int): int { if a <= b then a else b }

  /** `Math.round`: the nearest integer, halves rounded toward positive infinity. */
  function Round(x: real): int { (x + 0.5).Floor }

  lemma RoundMonotone(x: real, y: real)
    requires x <= y
    ensures Round(x) <= Round(y)
  {
  }

  lemma RoundShift(x: real, k: int)
    ensures Round(x + k as real) == Round(x) + k
  {
  }
}
