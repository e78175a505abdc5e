/** Rule-based prediction of adversary intent from a cluster's domain mix and text:
    `predictIntent` (src/lib/bayesianFusion.ts). */
module Intent {
  import opened MdadTypes
  import opened JsMath
  import opened StableSort
  import opened Domains

  // ---------------------------------------------------------------- text matching

  /** `toLowerCase` on one character (ASCII letters). */
  function LowerChar(c: char): char {
    if 'A' <= c <= 'Z' then (c as int + 32) as char else c
  }

  function ToLower(s: string): string {
    seq(|s|, i requires 0 <= i < |s| => LowerChar(s[i]))
  }

  /** `a` and `b` spell the same word up to letter case. */
  ghost predicate SameUpToCase(a: string, b: string) {
    |a| == |b| && forall i :: 0 <= i < |a| ==> LowerChar(a[i]) == LowerChar(b[i])
  }

  predicate StartsWith(text: string, pat: string) {
    |pat| <= |text| && text[..|pat|] == pat
  }

  /** `text.includes(pat)`. */
  predicate Contains(text: string, pat: string)
    decreases |text|
  {
    StartsWith(text, pat) || (|text| > 0 && Contains(text[1..], pat))
  }

  /** `pat` occurs in `text` starting at position `i`. */
  predicate OccursAt(text: string, pat: string, i: nat) {
    i + |pat| <= |text| && text[i..i + |pat|] == pat
  }

  /** `includes` finds `pat` exactly when it occurs at some position of `text`. */
  lemma {:induction false} ContainsIff(text: string, pat: string)
    ensures Contains(text, pat) <==> exists i: nat :: OccursAt(text, pat, i)
    decreases |text|
  {
    if StartsWith(text, pat) {
      assert OccursAt(text, pat, 0);
    } else if |text| > 0 {
      var tail := text[1..];
      ContainsIff(tail, pat);
      if Contains(tail, pat) {
        var i: nat :| OccursAt(tail, pat, i);
        assert text[i + 1..i + 1 + |pat|] == tail[i..i + |pat|];
        assert OccursAt(text, pat, i + 1);
      }
      if exists i: nat :: OccursAt(text, pat, i) {
        var i: nat :| OccursAt(text, pat, i);
        if i > 0 {
          assert tail[i - 1..i - 1 + |pat|] == text[i..i + |pat|];
          assert OccursAt(tail, pat, i - 1);
        }
      }
    }
  }

  const ReconKeywords: seq<string> := ["reconnaissance", "surveillance", "photographing"]

  /** The lower-cased description mentions one of the reconnaissance keywords. */
  predicate MentionsRecon(description: string) {
    exists k :: 0 <= k < |ReconKeywords| && Contains(ToLower(description), ReconKeywords[k])
  }

  predicate IsRecon(signals: seq<Signal>) {
    exists i :: 0 <= i < |signals| && MentionsRecon(signals[i].description)
  }

  predicate AnyCritical(signals: seq<Signal>) {
    exists i :: 0 <= i < |signals| && signals[i].severity == Critical
  }

  lemma ToLowerAppend(a: string, b: string)
    ensures ToLower(a + b) == ToLower(a) + ToLower(b)
  {
  }

  /** A keyword written in any letter case inside a description is recognised. */
  lemma KeywordInAnyCase(prefix: string, word: string, suffix: string, k: nat)
    requires k < |ReconKeywords| && SameUpToCase(word, ReconKeywords[k])
    ensures MentionsRecon(prefix + word + suffix)
  {
    var kw := ReconKeywords[k];
    assert ToLower(kw) == kw;
    assert ToLower(word) == kw;
    ToLowerAppend(prefix + word, suffix);
    ToLowerAppend(prefix, word);
    var d := ToLower(prefix + word + suffix);
    assert d == ToLower(prefix) + kw + ToLower(suffix);
    var i := |prefix|;
    assert d[i..i + |kw|] == kw;
    assert OccursAt(d, kw, i);
    ContainsIff(d, kw);
    assert Contains(ToLower(prefix + word + suffix), ReconKeywords[k]);
  }

  /** The recognition depends on the description only up to letter case. */
  lemma MentionsReconIgnoresCase(a: string, b: string)
    requires SameUpToCase(a, b)
    ensures MentionsRecon(a) == MentionsRecon(b)
  {
    assert ToLower(a) == ToLower(b);
  }

  // ---------------------------------------------------------------- the four rules

  /** Cyber-heavy clusters suggest an attack on communications. */
  function CyberRule(signals: seq<Signal>): seq<PredictedIntent> {
    var mix := DomainMixOf(signals);
    if mix.cyber > 0 && mix.cyber >= mix.physical then
      [PredictedIntent(CyberAttack, Communications,
                       0.3 + (mix.cyber as real / |signals| as real) * 0.4,
                       if AnyCritical(signals) then Imminent else NearTerm)]
    else []
  }

  /** Physical signals suggest reconnaissance (keyword match) or an assault on a base. */
  function PhysicalRule(signals: seq<Signal>): seq<PredictedIntent> {
    var mix := DomainMixOf(signals);
    if mix.physical > 0 then
      var recon := IsRecon(signals);
      [PredictedIntent(if recon then Reconnaissance else PhysicalAssault, MilitaryBase,
                       0.25 + (mix.physical as real / |signals| as real) * 0.35,
                       if recon then MediumTerm else NearTerm)]
    else []
  }

  /** Two or more HUMINT reports suggest infiltration of a command center. */
  function HumintRule(signals: seq<Signal>): seq<PredictedIntent> {
    var mix := DomainMixOf(signals);
    if mix.humint > 0 && mix.humint >= 2 then
      [PredictedIntent(Infiltration, CommandCenter,
                       0.2 + (mix.humint as real / |signals| as real) * 0.3, NearTerm)]
    else []
  }

  /** Cyber and physical together suggest a coordinated supply disruption. */
  function SupplyRule(signals: seq<Signal>): seq<PredictedIntent> {
    var mix := DomainMixOf(signals);
    if mix.cyber > 0 && mix.physical > 0 then
      var m := if mix.cyber <= mix.physical then mix.cyber else mix.physical;
      [PredictedIntent(SupplyDisruption, SupplyLine, 0.15 + m as real * 0.1, NearTerm)]
    else []
  }

  /** Every rule that fires, in rule order (the `intents` array before sorting). */
  function FiredIntents(signals: seq<Signal>): seq<PredictedIntent> {
    CyberRule(signals) + PhysicalRule(signals) + HumintRule(signals) + SupplyRule(signals)
  }

  function ByProbability(p: PredictedIntent): real { p.probability }

  /** `Math.round(p * 100) / 100`. */
  function RoundProbability(p: PredictedIntent): PredictedIntent {
    p.(probability := Round(p.probability * 100.0) as real / 100.0)
  }

  function RoundAll(ps: seq<PredictedIntent>): seq<PredictedIntent> {
    seq(|ps|, i requires 0 <= i < |ps| => RoundProbability(ps[i]))
  }

  /** Sort by probability (stable), keep the first three, round to two decimals. */
  function PredictIntent(signals: seq<Signal>): seq<PredictedIntent> {
    var sorted := SortDesc(FiredIntents(signals), ByProbability);
    RoundAll(sorted[..if |sorted| < 3 then |sorted| else 3])
  }

  // ---------------------------------------------------------------- properties

  lemma RoundProbabilityMonotone(p: PredictedIntent, q: PredictedIntent)
    requires p.probability <= q.probability
    ensures RoundProbability(p).probability <= RoundProbability(q).probability
  {
    RoundMonotone(p.probability * 100.0, q.probability * 100.0);
  }

  /** `x` is some fired intent with its probability rounded. */
  ghost predicate RoundedFrom(x: PredictedIntent, fired: seq<PredictedIntent>) {
    exists p :: p in fired && x == RoundProbability(p)
  }

  /** At most three intents, ordered by non-increasing probability; each is a fired intent with
      its probability rounded, and nothing is dropped while at most three rules fire. */
  lemma PredictIntentShape(signals: seq<Signal>)
    ensures |PredictIntent(signals)| <= 3
    ensures |FiredIntents(signals)| <= 3 ==> |PredictIntent(signals)| == |FiredIntents(signals)|
    ensures NonIncreasing(PredictIntent(signals), ByProbability)
    ensures forall k :: 0 <= k < |PredictIntent(signals)| ==>
              RoundedFrom(PredictIntent(signals)[k], FiredIntents(signals))
  {
    var fired := FiredIntents(signals);
    var sorted := SortDesc(fired, ByProbability);
    var top := sorted[..if |sorted| < 3 then |sorted| else 3];
    var r := PredictIntent(signals);
    SortSorted(fired, ByProbability);
    SortMembers(fired, ByProbability);
    forall i, j | 0 <= i < j < |r| ensures ByProbability(r[i]) >= ByProbability(r[j]) {
      assert ByProbability(top[i]) >= ByProbability(top[j]);
      RoundProbabilityMonotone(top[j], top[i]);
    }
    forall k | 0 <= k < |r| ensures RoundedFrom(r[k], fired) {
      assert top[k] in sorted;
      assert r[k] == RoundProbability(top[k]);
    }
  }

  /** The first `min(3, |ps|)` elements of `ps`, rounded. */
  function TopThreeRounded(ps: seq<PredictedIntent>): seq<PredictedIntent> {
    RoundAll(ps[..if |ps| < 3 then |ps| else 3])
  }

  /** The prediction is the rounded first three of an ordering of all fired intents by
      non-increasing probability: nothing with a higher probability than a kept intent is
      dropped. */
  lemma PredictIntentIsTopThree(signals: seq<Signal>)
    ensures exists ordered :: multiset(ordered) == multiset(FiredIntents(signals))
              && NonIncreasing(ordered, ByProbability)
              && PredictIntent(signals) == TopThreeRounded(ordered)
  {
    var ordered := SortDesc(FiredIntents(signals), ByProbability);
    SortSorted(FiredIntents(signals), ByProbability);
    SortMultiset(FiredIntents(signals), ByProbability);
    assert PredictIntent(signals) == TopThreeRounded(ordered);
  }

  /** Rounding keeps vector, target and timeline: every predicted intent repeats the outcome of
      a rule that fired. */
  lemma PredictIntentKeepsRuleOutcome(signals: seq<Signal>, k: nat)
    requires k < |PredictIntent(signals)|
    ensures exists p :: p in FiredIntents(signals)
              && PredictIntent(signals)[k].vector == p.vector
              && PredictIntent(signals)[k].target == p.target
              && PredictIntent(signals)[k].timeline == p.timeline
  {
    PredictIntentShape(signals);
    assert RoundedFrom(PredictIntent(signals)[k], FiredIntents(signals));
  }

  /** The physical rule fires exactly when a physical signal is present; it names
      reconnaissance (medium term) exactly when a keyword matches, and otherwise an assault
      (near term). No other rule names reconnaissance or a military base. */
  lemma PhysicalRuleOutcome(signals: seq<Signal>)
    ensures (exists p :: p in FiredIntents(signals) && p.target == MilitaryBase)
            <==> DomainMixOf(signals).physical > 0
    ensures forall p :: p in FiredIntents(signals) && p.target == MilitaryBase ==>
              if IsRecon(signals) then p.vector == Reconnaissance && p.timeline == MediumTerm
              else p.vector == PhysicalAssault && p.timeline == NearTerm
    ensures forall p :: p in FiredIntents(signals) ==>
              (p.vector == Reconnaissance <==> p.target == MilitaryBase && IsRecon(signals))
  {
    var f := FiredIntents(signals);
    if DomainMixOf(signals).physical > 0 {
      assert PhysicalRule(signals)[0] in f;
    }
  }

  /** The cyber rule fires exactly when cyber signals are present and at least as many as
      physical ones; it is imminent exactly when some member is critical. */
  lemma CyberRuleOutcome(signals: seq<Signal>)
    ensures var mix := DomainMixOf(signals);
            (exists p :: p in FiredIntents(signals) && p.vector == CyberAttack)
            <==> mix.cyber > 0 && mix.cyber >= mix.physical
    ensures forall p :: p in FiredIntents(signals) && p.vector == CyberAttack ==>
              p.target == Communications && (p.timeline == Imminent <==> AnyCritical(signals))
  {
    var f := FiredIntents(signals);
    var mix := DomainMixOf(signals);
    if mix.cyber > 0 && mix.cyber >= mix.physical {
      assert CyberRule(signals)[0] in f;
    }
  }

  /** Infiltration exactly when at least two HUMINT signals; supply disruption exactly when
      both cyber and physical signals are present. */
  lemma HumintAndSupplyRuleOutcome(signals: seq<Signal>)
    ensures (exists p :: p in FiredIntents(signals) && p.vector == Infiltration)
            <==> DomainMixOf(signals).humint >= 2
    ensures (exists p :: p in FiredIntents(signals) && p.vector == SupplyDisruption)
            <==> DomainMixOf(signals).cyber > 0 && DomainMixOf(signals).physical > 0
  {
    var f := FiredIntents(signals);
    var mix := DomainMixOf(signals);
    if mix.humint >= 2 {
      assert HumintRule(signals)[0] in f;
    }
    if mix.cyber > 0 && mix.physical > 0 {
      assert SupplyRule(signals)[0] in f;
    }
  }

  /** No member, no intent; the sabotage vector is never predicted. */
  lemma NoSignalsNoIntent(signals: seq<Signal>)
    ensures |signals| == 0 ==> PredictIntent(signals) == []
    ensures forall p :: p in FiredIntents(signals) ==> p.vector != Sabotage
  {
    if |signals| == 0 {
      assert FiredIntents(signals) == [];
    }
  }

  lemma FractionInUnit(part: nat, total: nat)
    requires 0 < part <= total
    ensures 0.0 < part as real / total as real <= 1.0
  {
    assert part as real / total as real * total as real == part as real;
  }

  /** The share-based rules give probabilities inside [0.2, 0.7]. */
  lemma ShareRuleProbabilityBounds(signals: seq<Signal>)
    ensures forall p :: p in FiredIntents(signals) && p.vector != SupplyDisruption ==>
              0.2 <= p.probability <= 0.7
  {
    var mix := DomainMixOf(signals);
    if mix.cyber > 0 { FractionInUnit(mix.cyber, |signals|); }
    if mix.physical > 0 { FractionInUnit(mix.physical, |signals|); }
    if mix.humint > 0 { FractionInUnit(mix.humint, |signals|); }
  }

  /** The supply-disruption score grows with the smaller of the cyber and physical counts and is
      not capped: it exceeds 1 exactly when both counts reach 9. */
  lemma SupplyProbabilityRange(signals: seq<Signal>)
    ensures forall p :: p in FiredIntents(signals) && p.vector == SupplyDisruption ==>
              p.probability >= 0.25
              && (p.probability > 1.0 <==> DomainMixOf(signals).cyber >= 9 && DomainMixOf(signals).physical >= 9)
  {
  }
}
