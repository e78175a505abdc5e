/** Domain composition of a member set: `countDomains` and `hasCrossDomainSignals`
    (src/lib/bayesianFusion.ts). */
module Domains {
  import opened MdadTypes

  /** Number of signals of domain `d`. */
  function CountDomain(signals: seq<Signal>, d: Domain): (n: nat)
    ensures n <= |signals|
  {
    if signals == [] then 0
    else CountDomain(signals[..|signals| - 1], d) + (if signals[|signals| - 1].domain == d then 1 else 0)
  }

  function DomainMixOf(signals: seq<Signal>): DomainMix {
    DomainMix(CountDomain(signals, Physical), CountDomain(signals, Cyber), CountDomain(signals, Humint))
  }

  /** Every signal is counted in exactly one domain. */
  lemma {:induction false} DomainMixTotal(signals: seq<Signal>)
    ensures DomainMixOf(signals).Total() == |signals|
  {
    if signals != [] {
      DomainMixTotal(signals[..|signals| - 1]);
    }
  }

  /** A domain has a positive count exactly when some member is of that domain. */
  lemma {:induction false} CountPositiveIff(signals: seq<Signal>, d: Domain)
    ensures CountDomain(signals, d) > 0 <==> exists i :: 0 <= i < |signals| && signals[i].domain == d
  {
    if signals != [] {
      var p := signals[..|signals| - 1];
      CountPositiveIff(p, d);
      if CountDomain(p, d) > 0 {
        var i :| 0 <= i < |p| && p[i].domain == d;
        assert signals[i].domain == d;
      }
      if exists i :: 0 <= i < |signals| && signals[i].domain == d {
        var i :| 0 <= i < |signals| && signals[i].domain == d;
        if i < |p| {
          assert p[i].domain == d;
        }
      }
    }
  }

  /** `counts[s.domain]++` for every signal, in input order. */
  method CountDomains(signals: seq<Signal>) returns (counts: DomainMix)
    ensures counts == DomainMixOf(signals)
    ensures forall d :: counts.Get(d) == CountDomain(signals, d)
    ensures counts.Total() == |signals|
  {
    counts := DomainMix(0, 0, 0);
    var i := 0;
    while i < |signals|
      invariant 0 <= i <= |signals|
      invariant counts == DomainMixOf(signals[..i])
    {
      var s := signals[i];
      ghost var next := signals[..i + 1];
      assert next[..i] == signals[..i] && next[i] == s;
      assert CountDomain(next, Physical) == CountDomain(signals[..i], Physical) + (if s.domain == Physical then 1 else 0);
      assert CountDomain(next, Cyber) == CountDomain(signals[..i], Cyber) + (if s.domain == Cyber then 1 else 0);
      assert CountDomain(next, Humint) == CountDomain(signals[..i], Humint) + (if s.domain == Humint then 1 else 0);
      match s.domain {
        case Physical => counts := counts.(physical := counts.physical + 1);
        case Cyber => counts := counts.(cyber := counts.cyber + 1);
        case Humint => counts := counts.(humint := counts.humint + 1);
      }
      i := i + 1;
    }
    assert signals[..i] == signals;
    DomainMixTotal(signals);
  }

  /** The distinct domains among the members. */
  function DomainsOf(signals: seq<Signal>): set<Domain> {
    set s | s in signals :: s.domain
  }

  predicate HasCrossDomainSignals(signals: seq<Signal>) {
    |DomainsOf(signals)| >= 2
  }

  /** Cross-domain exactly when two members differ in domain. */
  lemma CrossDomainIff(signals: seq<Signal>)
    ensures HasCrossDomainSignals(signals)
        <==> exists i, j :: 0 <= i < |signals| && 0 <= j < |signals| && signals[i].domain != signals[j].domain
  {
    var ds := DomainsOf(signals);
    if |ds| >= 2 {
      var a :| a in ds;
      assert |ds - {a}| == |ds| - 1;
      var b :| b in ds - {a};
      var x :| x in signals && x.domain == a;
      var y :| y in signals && y.domain == b;
      var i :| 0 <= i < |signals| && signals[i] == x;
      var j :| 0 <= j < |signals| && signals[j] == y;
      assert signals[i].domain != signals[j].domain;
    }
    if exists i, j :: 0 <= i < |signals| && 0 <= j < |signals| && signals[i].domain != signals[j].domain {
      var i, j :| 0 <= i < |signals| && 0 <= j < |signals| && signals[i].domain != signals[j].domain;
      assert signals[i] in signals && signals[j] in signals;
      var pair := {signals[i].domain, signals[j].domain};
      assert pair <= ds;
      assert |pair| == 2;
      SubsetCard(pair, ds);
    }
  }

  lemma SubsetCard(a: set<Domain>, b: set<Domain>)
    requires a <= b
    ensures |a| <= |b|
  {
    assert b == a + (b - a);
  }

  /** Cross-domain exactly when at least two of the domain counts are positive. */
  lemma CrossDomainFromCounts(signals: seq<Signal>)
    ensures var mix := DomainMixOf(signals);
            HasCrossDomainSignals(signals)
            <==> (if mix.physical > 0 then 1 else 0) + (if mix.cyber > 0 then 1 else 0)
                 + (if mix.humint > 0 then 1 else 0) >= 2
  {
    CountPositiveIff(signals, Physical);
    CountPositiveIff(signals, Cyber);
    CountPositiveIff(signals, Humint);
    CrossDomainIff(signals);
  }
}
