/** Spatial and temporal helpers of the fusion engine (src/lib/bayesianFusion.ts). */
module Geometry {
  import opened MdadTypes
  import opened JsMath
  import opened StableSort

  /** Great-circle distance in km between (lat1, lon1) and (lat2, lon2). The haversine formula
      itself is floating-point trigonometry and is supplied by the caller. */
  type DistanceFn = (real, real, real, real) -> real

  ghost predicate ZeroOnSelf(dist: DistanceFn) {
    forall lat, lon :: dist(lat, lon, lat, lon) == 0.0
  }

  ghost predicate NonNegative(dist: DistanceFn) {
    forall a, b, c, d :: dist(a, b, c, d) >= 0.0
  }

  ghost predicate Symmetric(dist: DistanceFn) {
    forall a, b, c, d :: dist(a, b, c, d) == dist(c, d, a, b)
  }

  const MillisPerHour: real := 3600000.0

  function Abs(x: int): nat { if x < 0 then -x else x }

  /** The two instants are at most `windowHours` apart, boundary included. */
  predicate WithinTemporalWindow(a: Signal, b: Signal, windowHours: real) {
    Abs(a.timestamp - b.timestamp) as real <= windowHours * MillisPerHour
  }

  lemma TemporalWindowSymmetric(a: Signal, b: Signal, windowHours: real)
    ensures WithinTemporalWindow(a, b, windowHours) == WithinTemporalWindow(b, a, windowHours)
  {
  }

  /** With a non-negative window every signal is within the window of itself. */
  lemma TemporalWindowReflexive(a: Signal, windowHours: real)
    requires windowHours >= 0.0
    ensures WithinTemporalWindow(a, a, windowHours)
  {
  }

  datatype Point = Point(lat: real, lon: real)

  /** Left-to-right sum of one coordinate, as `reduce((sum, s) => sum + f(s), 0)` computes it. */
  function Sum(signals: seq<Signal>, f: Signal -> real): real {
    if signals == [] then 0.0 else Sum(signals[..|signals| - 1], f) + f(signals[|signals| - 1])
  }

  function Latitude(s: Signal): real { s.latitude }

  function Longitude(s: Signal): real { s.longitude }

  /** Unweighted mean of the member coordinates. */
  function ClusterCenter(signals: seq<Signal>): Point
    requires |signals| > 0
  {
    var n := |signals| as real;
    Point(Sum(signals, Latitude) / n, Sum(signals, Longitude) / n)
  }

  lemma {:induction false} SumBounds(signals: seq<Signal>, f: Signal -> real, lo: real, hi: real)
    requires forall s :: s in signals ==> lo <= f(s) <= hi
    ensures |signals| as real * lo <= Sum(signals, f) <= |signals| as real * hi
  {
    if signals != [] {
      var p := signals[..|signals| - 1];
      var last := signals[|signals| - 1];
      assert forall s :: s in p ==> s in signals;
      SumBounds(p, f, lo, hi);
      assert last in signals;
      var n := |p| as real;
      assert |signals| as real * lo == n * lo + lo;
      assert |signals| as real * hi == n * hi + hi;
    }
  }

  /** The mean of one coordinate lies within any bounds of that coordinate. */
  lemma MeanBounds(signals: seq<Signal>, f: Signal -> real, lo: real, hi: real)
    requires |signals| > 0
    requires forall s :: s in signals ==> lo <= f(s) <= hi
    ensures lo <= Sum(signals, f) / |signals| as real <= hi
  {
    SumBounds(signals, f, lo, hi);
    DivBounds(Sum(signals, f), |signals| as real, lo, hi);
  }

  /** The center lies in every latitude/longitude box that holds all members. */
  lemma CenterWithinBounds(signals: seq<Signal>, latLo: real, latHi: real, lonLo: real, lonHi: real)
    requires |signals| > 0
    requires forall s :: s in signals ==> latLo <= s.latitude <= latHi && lonLo <= s.longitude <= lonHi
    ensures latLo <= ClusterCenter(signals).lat <= latHi
    ensures lonLo <= ClusterCenter(signals).lon <= lonHi
  {
    MeanBounds(signals, Latitude, latLo, latHi);
    MeanBounds(signals, Longitude, lonLo, lonHi);
  }

  lemma DivBounds(total: real, n: real, lo: real, hi: real)
    requires n > 0.0 && n * lo <= total <= n * hi
    ensures lo <= total / n <= hi
  {
    assert total / n * n == total;
  }

  /** Distance from the center to each member, in member order. */
  function DistancesFrom(signals: seq<Signal>, center: Point, dist: DistanceFn): (ds: seq<real>)
    ensures |ds| == |signals|
  {
    if signals == [] then []
    else DistancesFrom(signals[..|signals| - 1], center, dist)
         + [dist(center.lat, center.lon, signals[|signals| - 1].latitude, signals[|signals| - 1].longitude)]
  }

  lemma {:induction false} DistancesFromAt(signals: seq<Signal>, center: Point, dist: DistanceFn, k: nat)
    requires k < |signals|
    ensures DistancesFrom(signals, center, dist)[k]
         == dist(center.lat, center.lon, signals[k].latitude, signals[k].longitude)
  {
    if k < |signals| - 1 {
      DistancesFromAt(signals[..|signals| - 1], center, dist, k);
    }
  }

  function Negate(d: real): real { -d }

  /** `distances.sort((a, b) => a - b)`. */
  function SortAscending(ds: seq<real>): (r: seq<real>)
    ensures |r| == |ds|
  {
    SortDesc(ds, Negate)
  }

  lemma SortAscendingProperties(ds: seq<real>)
    ensures forall i, j :: 0 <= i < j < |ds| ==> SortAscending(ds)[i] <= SortAscending(ds)[j]
    ensures multiset(SortAscending(ds)) == multiset(ds)
  {
    SortSorted(ds, Negate);
    SortMultiset(ds, Negate);
  }

  /** `Math.floor(n * 0.9)`: the 90th-percentile position. */
  function PercentileIndex(n: nat): (i: nat)
    requires n > 0
    ensures i < n
    ensures 10 * i <= 9 * n < 10 * (i + 1)
  {
    (9 * n) / 10
  }

  /** 1.2 times the 90th-percentile distance from the center, at least 15 km. */
  function ClusterRadius(signals: seq<Signal>, center: Point, dist: DistanceFn): (r: real)
    ensures r >= 15.0
    ensures |signals| <= 1 ==> r == 25.0
  {
    if |signals| <= 1 then 25.0
    else
      var sorted := SortAscending(DistancesFrom(signals, center, dist));
      Max(sorted[PercentileIndex(|sorted|)] * 1.2, 15.0)
  }

  /** The radius is taken from the ascending order statistic at the percentile position. */
  lemma RadiusIsPercentile(signals: seq<Signal>, center: Point, dist: DistanceFn)
    requires |signals| >= 2
    ensures var ds := DistancesFrom(signals, center, dist);
            var sorted := SortAscending(ds);
            && (forall a, b :: 0 <= a < b < |sorted| ==> sorted[a] <= sorted[b])
            && multiset(sorted) == multiset(ds)
            && ClusterRadius(signals, center, dist) == Max(sorted[PercentileIndex(|signals|)] * 1.2, 15.0)
  {
    SortAscendingProperties(DistancesFrom(signals, center, dist));
  }

  /** That order statistic is the distance of an actual member. */
  lemma RadiusFromMember(signals: seq<Signal>, center: Point, dist: DistanceFn)
    requires |signals| >= 2
    ensures exists k :: 0 <= k < |signals|
              && ClusterRadius(signals, center, dist)
                 == Max(dist(center.lat, center.lon, signals[k].latitude, signals[k].longitude) * 1.2, 15.0)
  {
    var ds := DistancesFrom(signals, center, dist);
    var sorted := SortAscending(ds);
    var i := PercentileIndex(|signals|);
    RadiusIsPercentile(signals, center, dist);
    assert sorted[i] in multiset(ds);
    var k :| 0 <= k < |ds| && ds[k] == sorted[i];
    DistancesFromAt(signals, center, dist, k);
  }

  /** All members at the center: the radius is the 15 km floor. */
  lemma DegenerateRadius(signals: seq<Signal>, center: Point, dist: DistanceFn)
    requires |signals| >= 2
    requires forall s :: s in signals ==> dist(center.lat, center.lon, s.latitude, s.longitude) == 0.0
    ensures ClusterRadius(signals, center, dist) == 15.0
  {
    RadiusFromMember(signals, center, dist);
    var k :| 0 <= k < |signals|
      && ClusterRadius(signals, center, dist)
         == Max(dist(center.lat, center.lon, signals[k].latitude, signals[k].longitude) * 1.2, 15.0);
    assert signals[k] in signals;
  }

  /** The radius never exceeds 1.2 times the largest member distance (or the floor). */
  lemma RadiusUpperBound(signals: seq<Signal>, center: Point, dist: DistanceFn, bound: real)
    requires |signals| >= 2
    requires forall s :: s in signals ==> dist(center.lat, center.lon, s.latitude, s.longitude) <= bound
    ensures ClusterRadius(signals, center, dist) <= Max(bound * 1.2, 15.0)
  {
    RadiusFromMember(signals, center, dist);
    var k :| 0 <= k < |signals|
      && ClusterRadius(signals, center, dist)
         == Max(dist(center.lat, center.lon, signals[k].latitude, signals[k].longitude) * 1.2, 15.0);
    assert signals[k] in signals;
  }
}
