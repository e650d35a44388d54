/** The fusion of detector scores into one risk score, with its decision trace. */
module Fusion {
  import opened Wrappers
  import opened CampaignPolicy

  datatype Component = MarketScore | SocialScore | CoordinationScore | TemporalScore | ClaimRisk | GraphScore

  const COMPONENTS := [MarketScore, SocialScore, CoordinationScore, TemporalScore, ClaimRisk, GraphScore]

  datatype Weights = Weights(market: real, social: real, coordination: real, temporal: real, claim: real, graph: real) {
    function Of(c: Component): real {
      match c
      case MarketScore => market case SocialScore => social case CoordinationScore => coordination
      case TemporalScore => temporal case ClaimRisk => claim case GraphScore => graph
    }
  }

  datatype Thresholds = Thresholds(watch: real, high: real, critical: real)

  /** A calibrator sees the score; the regime and liquidity it also sees stay fixed here. */
  datatype Engine = Engine(weights: Weights, thresholds: Thresholds, calibrator: Option<real -> real>, cap: real)

  datatype ThreatStatus = Disabled | Unavailable | Stale | NoMatch | Matched

  datatype Threat = Threat(status: ThreatStatus, score: Option<real>, confidence: Option<real>)

  const NO_THREAT := Threat(Disabled, None, None)

  datatype Inputs = Inputs(
    market: Option<real>, social: Option<real>, coordination: Option<real>, temporal: Option<real>,
    claim: Option<real>, graph: Option<real>, legitimate: Option<real>, threat: Threat,
    baseline: real, quality: real)
  {
    function Of(c: Component): Option<real> {
      match c
      case MarketScore => market case SocialScore => social case CoordinationScore => coordination
      case TemporalScore => temporal case ClaimRisk => claim case GraphScore => graph
    }
  }

  function Clamp(x: real): real { if x < 0.0 then 0.0 else if x > 1.0 then 1.0 else x }
  function Smaller(x: real, y: real): real { if x <= y then x else y }

  predicate AtLeast(x: Option<real>, bound: real) { x.Some? && x.value >= bound }

  // ---------------------------------------------------------------- the score, stage by stage

  function Part(w: Weights, i: Inputs, c: Component): real {
    if i.Of(c).Some? then w.Of(c) * i.Of(c).value else 0.0
  }

  function WeightedSum(w: Weights, i: Inputs, cs: seq<Component>): real {
    if cs == [] then 0.0
    else WeightedSum(w, i, cs[..|cs| - 1]) + Part(w, i, cs[|cs| - 1])
  }

  function AvailableWeight(w: Weights, i: Inputs, cs: seq<Component>): real {
    if cs == [] then 0.0
    else
      var c := cs[|cs| - 1];
      AvailableWeight(w, i, cs[..|cs| - 1]) + (if i.Of(c).Some? then w.Of(c) else 0.0)
  }

  /** The mean of the present components, their weights renormalised. */
  function Weighted(e: Engine, i: Inputs): real {
    var available := AvailableWeight(e.weights, i, COMPONENTS);
    if available == 0.0 then 0.0 else WeightedSum(e.weights, i, COMPONENTS) / available
  }

  predicate Calibrates(e: Engine, i: Inputs) { e.calibrator.Some? && i.baseline >= 0.5 }

  function Calibrated(e: Engine, i: Inputs): real {
    var raw := Clamp(Weighted(e, i));
    if Calibrates(e, i) then Clamp(e.calibrator.value(raw)) else raw
  }

  function Discount(i: Inputs): real { 1.0 - 0.35 * Clamp(i.legitimate.GetOr(0.0)) }

  function Scaled(score: real, factor: real): real { score * factor }

  function Adjusted(e: Engine, i: Inputs): real { Scaled(Calibrated(e, i), Discount(i)) }

  predicate Uplifts(i: Inputs) { i.threat.status == Matched && i.threat.score.Some? }

  function Uplift(e: Engine, i: Inputs): real {
    if Uplifts(i) then Smaller(e.cap, i.threat.score.value * i.threat.confidence.GetOr(0.0) * e.cap) else 0.0
  }

  function Uplifted(e: Engine, i: Inputs): real {
    if Uplifts(i) then Smaller(1.0, Adjusted(e, i) + Uplift(e, i)) else Adjusted(e, i)
  }

  function Floored(e: Engine, i: Inputs): real {
    if AtLeast(i.market, 0.65) && AtLeast(i.coordination, 0.65) then Larger(Uplifted(e, i), e.thresholds.watch)
    else Uplifted(e, i)
  }

  /** Just under HIGH: where scores are held that may not be HIGH. */
  function Ceiling(e: Engine): real { e.thresholds.high - 0.01 }

  function Capped(e: Engine, i: Inputs): real {
    if AtLeast(i.market, 0.35) then Floored(e, i) else Smaller(Floored(e, i), Ceiling(e))
  }

  function FusionScore(e: Engine, i: Inputs): real {
    if i.threat.status == Matched && Adjusted(e, i) < e.thresholds.high then Smaller(Capped(e, i), Ceiling(e))
    else Capped(e, i)
  }

  // ---------------------------------------------------------------- confidence and severity

  function One(missing: bool): nat { if missing then 1 else 0 }

  function Missing(i: Inputs): nat {
    One(i.market.None?) + One(i.social.None?) + One(i.coordination.None?) + One(i.temporal.None?)
    + One(i.claim.None?) + One(i.legitimate.None?) + One(i.graph.None?)
  }

  function BaseConfidence(missing: nat, baseline: real, quality: real): real {
    var available := 1.0 - missing as real / 7.0;
    Clamp(available * (0.4 + 0.35 * baseline + 0.25 * quality))
  }

  function Confidence(i: Inputs): real {
    var base := BaseConfidence(Missing(i), i.baseline, i.quality);
    if i.threat.status in {Unavailable, Stale} then base * 0.85 else base
  }

  function SeverityOf(t: Thresholds, score: real): Risk {
    if score >= t.critical then Critical
    else if score >= t.high then High
    else if score >= t.watch then Watch
    else Normal
  }

  predicate Corroborated(i: Inputs) {
    AtLeast(i.social, 0.55) || AtLeast(i.coordination, 0.55) || AtLeast(i.temporal, 0.55)
    || AtLeast(i.claim, 0.55) || AtLeast(i.graph, 0.55)
  }

  predicate MayBeCritical(i: Inputs) {
    AtLeast(i.market, 0.65) && Corroborated(i) && Confidence(i) >= 0.4
  }

  function Severity(e: Engine, i: Inputs): Risk {
    var s := SeverityOf(e.thresholds, FusionScore(e, i));
    var held := if s == Critical && !MayBeCritical(i) then High else s;
    if i.market.None? && Rank(held) >= Rank(High) then Watch else held
  }

  function ProfileOf(i: Inputs): (Profile, int) {
    var verified := i.claim.Some? || i.legitimate.Some?;
    if i.graph.Some? && verified then (GraphAndVerification, 3)
    else if i.graph.Some? then (Graph, 2)
    else if verified then (Verification, 2)
    else (Base, 1)
  }

  function SocialRisk(i: Inputs): Option<real> {
    var weight := (if i.social.Some? then 0.30 else 0.0) + (if i.coordination.Some? then 0.70 else 0.0);
    if weight == 0.0 then None
    else Some((i.social.GetOr(0.0) * 0.30 + i.coordination.GetOr(0.0) * 0.70) / weight)
  }

  // ---------------------------------------------------------------- the decision trace

  datatype Direction = Increasing | Reducing | Neutral

  function DirectionOf(delta: real): Direction {
    if delta > 0.0 then Increasing else if delta < 0.0 then Reducing else Neutral
  }

  datatype TraceComponent = TraceComponent(
    name: Component, value: Option<real>, configured: real, effective: real, contribution: real, direction: Direction)

  datatype AdjustmentKind = Calibration | LegitimateEvent | ThreatUplift

  datatype Adjustment = Adjustment(
    kind: AdjustmentKind, before: real, factor: Option<real>, delta: real, after: real, direction: Direction)

  datatype PolicyKind =
    | CorroboratedWatchFloor | MarketEvidenceHighCap | ThreatCannotRaiseHigh | CriticalRequiresCorroboration
    | MissingMarketDemotion

  datatype Decision = Decision(kind: PolicyKind, applied: bool, before: real, after: real)

  datatype Trace = Trace(
    components: seq<TraceComponent>, adjustments: seq<Adjustment>, decisions: seq<Decision>, raw: real, final: real)

  datatype Fused = Fused(
    score: real, confidence: real, severity: Risk, raw: real, calibrated: bool, profile: Profile, revision: int,
    marketSeverity: Risk, socialRisk: Option<real>, socialSeverity: Risk, trace: Trace)

  /** Going through the adjustments: each starts where the last one ended and moves by its delta. */
  function ReplayAdjustments(from: real, adjustments: seq<Adjustment>): Option<real> {
    if adjustments == [] then Some(from)
    else
      var before, a := ReplayAdjustments(from, adjustments[..|adjustments| - 1]), adjustments[|adjustments| - 1];
      if before == Some(a.before) && a.after == a.before + a.delta then Some(a.after) else None
  }

  /** Going through the decisions: each starts where the last one ended, and one not applied changes nothing. */
  function ReplayDecisions(from: Option<real>, decisions: seq<Decision>): Option<real> {
    if decisions == [] then from
    else
      var before, d := ReplayDecisions(from, decisions[..|decisions| - 1]), decisions[|decisions| - 1];
      if before == Some(d.before) && (!d.applied ==> d.after == d.before) then Some(d.after) else None
  }

  function Replay(t: Trace): Option<real> {
    ReplayDecisions(ReplayAdjustments(Clamp(t.raw), t.adjustments), t.decisions)
  }

  function Contributions(cs: seq<TraceComponent>): real {
    if cs == [] then 0.0 else Contributions(cs[..|cs| - 1]) + cs[|cs| - 1].contribution
  }

  function EffectiveWeights(cs: seq<TraceComponent>): real {
    if cs == [] then 0.0 else EffectiveWeights(cs[..|cs| - 1]) + cs[|cs| - 1].effective
  }

  ghost predicate ReadsInputs(cs: seq<TraceComponent>, e: Engine, i: Inputs) {
    |cs| <= |COMPONENTS| && forall k :: 0 <= k < |cs| ==>
      cs[k].name == COMPONENTS[k] && cs[k].value == i.Of(COMPONENTS[k])
          && cs[k].configured == e.weights.Of(COMPONENTS[k])
  }

  function AdjustmentKinds(adjustments: seq<Adjustment>): (r: seq<AdjustmentKind>)
    ensures |r| == |adjustments| && forall k :: 0 <= k < |r| ==> r[k] == adjustments[k].kind
  {
    seq(|adjustments|, k requires 0 <= k < |adjustments| => adjustments[k].kind)
  }

  function PolicyKinds(decisions: seq<Decision>): (r: seq<PolicyKind>)
    ensures |r| == |decisions| && forall k :: 0 <= k < |r| ==> r[k] == decisions[k].kind
  {
    seq(|decisions|, k requires 0 <= k < |decisions| => decisions[k].kind)
  }

  /** The adjustments a trace lists, whatever they change. */
  function AdjustmentsDue(e: Engine, i: Inputs): seq<AdjustmentKind> {
    (if e.calibrator.Some? && i.baseline >= 0.5 then [Calibration] else []) + [LegitimateEvent]
    + (if i.threat.status == Matched && i.threat.score.Some? then [ThreatUplift] else [])
  }

  /** The floor and caps a trace lists; the market cap is listed always. */
  function CapsDue(e: Engine, i: Inputs): seq<PolicyKind> {
    (if AtLeast(i.market, 0.65) && AtLeast(i.coordination, 0.65) then [CorroboratedWatchFloor] else [])
    + [MarketEvidenceHighCap]
    + (if i.threat.status == Matched && Adjusted(e, i) < e.thresholds.high then [ThreatCannotRaiseHigh] else [])
  }

  /** The demotions a trace lists. */
  function DemotionsDue(e: Engine, i: Inputs): seq<PolicyKind> {
    (if FusionScore(e, i) >= e.thresholds.critical && !MayBeCritical(i) then [CriticalRequiresCorroboration] else [])
    + (if i.market.None? && Rank(SeverityOf(e.thresholds, FusionScore(e, i))) >= Rank(High)
       then [MissingMarketDemotion] else [])
  }

  /** A cap counts as applied when it changed the score; a floor or demotion that is listed has been applied. */
  predicate SaysIfApplied(d: Decision) {
    d.applied <==> d.kind !in {MarketEvidenceHighCap, ThreatCannotRaiseHigh} || d.before != d.after
  }

  /** Each component has its share of the weight there is, and contributes its value by that share. */
  predicate SharesTell(cs: seq<TraceComponent>, available: real) {
    forall c :: c in cs ==>
      && (if c.value.None? then c.effective == 0.0 && c.contribution == 0.0
          else available != 0.0 && c.effective == c.configured / available
               && c.contribution == c.value.value * c.effective)
      && c.direction == (if c.contribution > 0.0 then Increasing else Neutral)
  }

  predicate Points(d: Direction, before: real, after: real) {
    (d == Increasing <==> after > before) && (d == Reducing <==> after < before)
  }

  /** Each adjustment takes the score from the stage it names to the next; an uplift counts as increasing. */
  predicate AdjustmentTells(e: Engine, i: Inputs, a: Adjustment) {
    match a.kind
    case Calibration =>
      && a.before == Clamp(Weighted(e, i)) && a.after == Calibrated(e, i) && a.factor == None
      && Points(a.direction, a.before, a.after)
    case LegitimateEvent =>
      && a.before == Calibrated(e, i) && a.after == Adjusted(e, i) && a.factor == Some(Discount(i))
      && Points(a.direction, a.before, a.after)
    case ThreatUplift =>
      a.before == Adjusted(e, i) && a.after == Uplifted(e, i) && a.factor == None && a.direction == Increasing
  }

  /** Each decision takes the score from the stage it names to the next, and a demotion leaves it. */
  predicate DecisionTells(e: Engine, i: Inputs, d: Decision) {
    match d.kind
    case CorroboratedWatchFloor => d.before == Uplifted(e, i) && d.after == Floored(e, i)
    case MarketEvidenceHighCap => d.before == Floored(e, i) && d.after == Capped(e, i)
    case ThreatCannotRaiseHigh => d.before == Capped(e, i) && d.after == FusionScore(e, i)
    case _ => d.before == d.after == FusionScore(e, i)
  }

  // ---------------------------------------------------------------- the engine's procedure

  lemma NothingReplayed(from: real)
    ensures ReplayAdjustments(from, []) == Some(from)
  {
  }

  lemma OneMoreAdjustment(from: real, adjustments: seq<Adjustment>, a: Adjustment)
    requires ReplayAdjustments(from, adjustments) == Some(a.before) && a.after == a.before + a.delta
    ensures ReplayAdjustments(from, adjustments + [a]) == Some(a.after)
  {
    assert (adjustments + [a])[..|adjustments|] == adjustments;
  }

  lemma OneMoreDecision(from: Option<real>, decisions: seq<Decision>, d: Decision)
    requires ReplayDecisions(from, decisions) == Some(d.before) && (!d.applied ==> d.after == d.before)
    ensures ReplayDecisions(from, decisions + [d]) == Some(d.after)
  {
    assert (decisions + [d])[..|decisions|] == decisions;
  }

  method Sum(e: Engine, i: Inputs) returns (sum: real, available: real)
    ensures sum == WeightedSum(e.weights, i, COMPONENTS) && available == AvailableWeight(e.weights, i, COMPONENTS)
  {
    sum, available := 0.0, 0.0;
    for k := 0 to |COMPONENTS|
      invariant sum == WeightedSum(e.weights, i, COMPONENTS[..k])
      invariant available == AvailableWeight(e.weights, i, COMPONENTS[..k])
    {
      assert COMPONENTS[..k + 1][..k] == COMPONENTS[..k];
      if i.Of(COMPONENTS[k]).Some? {
        sum := sum + Part(e.weights, i, COMPONENTS[k]);
        available := available + e.weights.Of(COMPONENTS[k]);
      }
    }
    assert COMPONENTS[..|COMPONENTS|] == COMPONENTS;
  }

  ghost predicate AnyPresent(i: Inputs) { exists c :: i.Of(c).Some? }

  /** What each component contributes to the weighted mean; dividing by no weight fails. */
  method Explain(e: Engine, i: Inputs, available: real) returns (cs: Option<seq<TraceComponent>>)
    requires available == AvailableWeight(e.weights, i, COMPONENTS)
    ensures cs.None? <==> available == 0.0 && AnyPresent(i)
    ensures cs.Some? ==>
            |cs.value| == |COMPONENTS| && ReadsInputs(cs.value, e, i) && Contributions(cs.value) == Weighted(e, i)
    ensures cs.Some? ==> EffectiveWeights(cs.value) == if AnyPresent(i) then 1.0 else 0.0
    ensures cs.Some? ==> SharesTell(cs.value, available)
  {
    hide Quotient, Weighted, WeightedSum, AvailableWeight, Contributions, EffectiveWeights;
    var list := [];
    NothingExplained(e, i, available);
    for k := 0 to |COMPONENTS|
      invariant |list| == k && ReadsInputs(list, e, i) && SharesTell(list, available)
      invariant available == 0.0 ==> forall j :: 0 <= j < k ==> i.Of(COMPONENTS[j]).None?
      invariant Contributions(list) == Quotient(WeightedSum(e.weights, i, COMPONENTS[..k]), available)
      invariant EffectiveWeights(list) == Quotient(AvailableWeight(e.weights, i, COMPONENTS[..k]), available)
    {
      var name, value := COMPONENTS[k], i.Of(COMPONENTS[k]);
      if value.Some? && available == 0.0 {
        assert i.Of(name).Some?;
        return None;
      }
      var weight := e.weights.Of(name);
      var effective := if value.Some? then weight / available else 0.0;
      var contribution := if value.Some? then value.value * effective else 0.0;
      var direction := if contribution > 0.0 then Increasing else Neutral;
      var component := TraceComponent(name, value, weight, effective, contribution, direction);
      OneMoreShare(e, i, available, k, list, component);
      list := list + [component];
    }
    assert COMPONENTS[..|COMPONENTS|] == COMPONENTS;
    SharesAddUp(e, i);
    return Some(list);
  }

  lemma SharesAddUp(e: Engine, i: Inputs)
    ensures var available := AvailableWeight(e.weights, i, COMPONENTS);
            && Quotient(WeightedSum(e.weights, i, COMPONENTS), available) == Weighted(e, i)
            && (available != 0.0 ==> AnyPresent(i) && Quotient(available, available) == 1.0)
            && (available == 0.0 ==> Quotient(available, available) == 0.0)
            && (AnyPresent(i) ==> exists j :: 0 <= j < |COMPONENTS| && i.Of(COMPONENTS[j]).Some?)
  {
    NonePresent(e.weights, i, COMPONENTS);
    if c :| i.Of(c).Some? {
      EveryComponent(c);
    }
  }

  function Quotient(sum: real, available: real): real { if available == 0.0 then 0.0 else sum / available }

  lemma NothingExplained(e: Engine, i: Inputs, available: real)
    ensures COMPONENTS[..0] == []
    ensures Contributions([]) == Quotient(WeightedSum(e.weights, i, []), available)
    ensures EffectiveWeights([]) == Quotient(AvailableWeight(e.weights, i, []), available)
  {
  }

  lemma OneMoreShare(e: Engine, i: Inputs, available: real, k: nat, list: seq<TraceComponent>, c: TraceComponent)
    requires k < |COMPONENTS| && |list| == k
    requires i.Of(COMPONENTS[k]).Some? ==> available != 0.0
    requires c.effective == (if i.Of(COMPONENTS[k]).Some? then e.weights.Of(COMPONENTS[k]) / available else 0.0)
    requires c.contribution == (if i.Of(COMPONENTS[k]).Some? then i.Of(COMPONENTS[k]).value * c.effective else 0.0)
    ensures COMPONENTS[..k + 1][..k] == COMPONENTS[..k]
    ensures Contributions(list) == Quotient(WeightedSum(e.weights, i, COMPONENTS[..k]), available) ==>
              Contributions(list + [c]) == Quotient(WeightedSum(e.weights, i, COMPONENTS[..k + 1]), available)
    ensures EffectiveWeights(list) == Quotient(AvailableWeight(e.weights, i, COMPONENTS[..k]), available) ==>
              EffectiveWeights(list + [c]) == Quotient(AvailableWeight(e.weights, i, COMPONENTS[..k + 1]), available)
  {
    assert COMPONENTS[..k + 1][..k] == COMPONENTS[..k];
    assert (list + [c])[..k] == list;
    var value, weight := i.Of(COMPONENTS[k]), e.weights.Of(COMPONENTS[k]);
    if value.Some? {
      Shares(WeightedSum(e.weights, i, COMPONENTS[..k]), weight, value.value, available);
      Shares(AvailableWeight(e.weights, i, COMPONENTS[..k]), weight, value.value, available);
    }
  }

  lemma {:induction false} NonePresent(w: Weights, i: Inputs, cs: seq<Component>)
    ensures !AnyPresent(i) ==> AvailableWeight(w, i, cs) == 0.0
  {
    if cs != [] {
      NonePresent(w, i, cs[..|cs| - 1]);
    }
  }

  lemma EveryComponent(c: Component)
    ensures exists k :: 0 <= k < |COMPONENTS| && COMPONENTS[k] == c
  {
    var k := match c case MarketScore => 0 case SocialScore => 1 case CoordinationScore => 2
                     case TemporalScore => 3 case ClaimRisk => 4 case GraphScore => 5;
    assert COMPONENTS[k] == c;
  }

  lemma Shares(sum: real, weight: real, value: real, available: real)
    requires available != 0.0
    ensures (sum + weight * value) / available == sum / available + value * (weight / available)
    ensures (sum + weight) / available == sum / available + weight / available
  {
    assert (weight * value) / available == value * (weight / available);
  }

  /** Fuses the inputs; it fails when components are present but their weights sum to nothing. */
  method Fuse(e: Engine, i: Inputs) returns (r: Option<Fused>)
    ensures r.None? <==> AvailableWeight(e.weights, i, COMPONENTS) == 0.0 && AnyPresent(i)
    ensures r.Some? ==>
              && r.value.score == FusionScore(e, i) && r.value.severity == Severity(e, i)
              && r.value.confidence == Confidence(i)
              && r.value.raw == Calibrated(e, i) && r.value.calibrated == Calibrates(e, i)
              && (r.value.profile, r.value.revision) == ProfileOf(i)
              && r.value.marketSeverity == SeverityOf(e.thresholds, i.market.GetOr(0.0))
              && r.value.socialRisk == SocialRisk(i)
              && r.value.socialSeverity == SeverityOf(e.thresholds, SocialRisk(i).GetOr(0.0))
    ensures r.Some? ==> Replay(r.value.trace) == Some(r.value.score) && r.value.trace.final == r.value.score
    ensures r.Some? ==> r.value.trace.raw == Weighted(e, i) && Contributions(r.value.trace.components) == Weighted(e, i)
                        && |r.value.trace.components| == |COMPONENTS| && ReadsInputs(r.value.trace.components, e, i)
    ensures r.Some? ==> EffectiveWeights(r.value.trace.components) == if AnyPresent(i) then 1.0 else 0.0
    ensures r.Some? ==>
              && AdjustmentKinds(r.value.trace.adjustments) == AdjustmentsDue(e, i)
              && PolicyKinds(r.value.trace.decisions) == CapsDue(e, i) + DemotionsDue(e, i)
              && (forall a :: a in r.value.trace.adjustments ==> AdjustmentTells(e, i, a))
              && (forall d :: d in r.value.trace.decisions ==> SaysIfApplied(d) && DecisionTells(e, i, d))
              && SharesTell(r.value.trace.components, AvailableWeight(e.weights, i, COMPONENTS))
  {
    hide AdjustmentsDue, CapsDue, DemotionsDue, SharesTell, AdjustmentTells, DecisionTells, SaysIfApplied;
    hide ReplayDecisions, ReplayAdjustments, Severity, Confidence, FusionScore, ReadsInputs;
    var sum, available := Sum(e, i);
    var raw := if available != 0.0 then sum / available else 0.0;
    var components := Explain(e, i, available);
    if components.None? {
      return None;
    }
    var score, confidence, adjustments := Adjust(e, i, raw);
    var decisions;
    score, decisions := Decide(e, i, score, Adjusted(e, i));
    var severity, demotions := Grade(e, i, score, confidence);
    Concatenated(ReplayAdjustments(Clamp(raw), adjustments), decisions, demotions);
    var social := SocialRisk(i);
    var (profile, revision) := ProfileOf(i);
    return Some(Fused(score, confidence, severity, Calibrated(e, i), Calibrates(e, i), profile, revision,
                      SeverityOf(e.thresholds, i.market.GetOr(0.0)),
                      social, SeverityOf(e.thresholds, social.GetOr(0.0)),
                      Trace(components.value, adjustments, decisions + demotions, raw, score)));
  }

  /** Calibration, the discount for a legitimate event and the uplift for threat context. */
  method Adjust(e: Engine, i: Inputs, raw: real) returns (score: real, confidence: real, adjustments: seq<Adjustment>)
    requires raw == Weighted(e, i)
    ensures score == Uplifted(e, i) && confidence == Confidence(i)
    ensures ReplayAdjustments(Clamp(raw), adjustments) == Some(score)
    ensures AdjustmentKinds(adjustments) == AdjustmentsDue(e, i)
    ensures forall a :: a in adjustments ==> AdjustmentTells(e, i, a)
  {
    hide Scaled, BaseConfidence, Weighted, Uplift, Clamp, ReplayAdjustments;
    score, adjustments := Clamp(raw), [];
    NothingReplayed(Clamp(raw));
    confidence := BaseConfidence(Missing(i), i.baseline, i.quality);
    if e.calibrator.Some? && i.baseline >= 0.5 {
      var before := score;
      score := Clamp(e.calibrator.value(score));
      var a := Adjustment(Calibration, before, None, score - before, score, DirectionOf(score - before));
      OneMoreAdjustment(Clamp(raw), adjustments, a);
      adjustments := adjustments + [a];
    }
    var factor, calibrated := Discount(i), score;
    score := Scaled(calibrated, factor);
    var l := Adjustment(LegitimateEvent, calibrated, Some(factor), score - calibrated, score,
        DirectionOf(score - calibrated));
    OneMoreAdjustment(Clamp(raw), adjustments, l);
    adjustments := adjustments + [l];
    if i.threat.status == Matched && i.threat.score.Some? {
      var before := score;
      score := Smaller(1.0, score + Uplift(e, i));
      var t := Adjustment(ThreatUplift, before, None, score - before, score, Increasing);
      OneMoreAdjustment(Clamp(raw), adjustments, t);
      adjustments := adjustments + [t];
    } else if i.threat.status == Unavailable || i.threat.status == Stale {
      confidence := confidence * 0.85;
    }
  }

  /** The floor and the caps. */
  method Decide(
      e: Engine, i: Inputs, uplifted: real, threatBefore: real) returns (score: real, decisions: seq<Decision>)
    requires uplifted == Uplifted(e, i) && threatBefore == Adjusted(e, i)
    ensures score == FusionScore(e, i) && ReplayDecisions(Some(uplifted), decisions) == Some(score)
    ensures PolicyKinds(decisions) == CapsDue(e, i)
    ensures forall d :: d in decisions ==> SaysIfApplied(d) && DecisionTells(e, i, d)
  {
    score, decisions := uplifted, [];
    ghost var kinds: seq<PolicyKind> := [];
    hide Adjusted, Uplifted, Accounted, ReplayDecisions, PolicyKinds;
    NothingDecided(e, i, uplifted);
    if AtLeast(i.market, 0.65) && AtLeast(i.coordination, 0.65) {
      var before := score;
      score := Larger(score, e.thresholds.watch);
      var d := Decision(CorroboratedWatchFloor, true, before, score);
      OneMoreAccounted(e, i, uplifted, decisions, kinds, d);
      decisions, kinds := decisions + [d], kinds + [d.kind];
    }
    assert score == Floored(e, i);
    hide Floored;
    var before := score;
    if i.market.None? || i.market.value < 0.35 {
      score := Smaller(score, e.thresholds.high - 0.01);
    }
    var c := Decision(MarketEvidenceHighCap, before != score, before, score);
    OneMoreAccounted(e, i, uplifted, decisions, kinds, c);
    decisions, kinds := decisions + [c], kinds + [c.kind];
    assert score == Capped(e, i);
    hide Capped;
    if i.threat.status == Matched && threatBefore < e.thresholds.high {
      before := score;
      score := Smaller(score, e.thresholds.high - 0.01);
      var d := Decision(ThreatCannotRaiseHigh, before != score, before, score);
      OneMoreAccounted(e, i, uplifted, decisions, kinds, d);
      decisions, kinds := decisions + [d], kinds + [d.kind];
    }
    AccountedFor(e, i, uplifted, decisions, kinds, score);
  }

  /** The decisions are of these kinds, replay to the score, and tell of the stages they go between. */
  ghost predicate Accounted(
      e: Engine, i: Inputs, from: real, decisions: seq<Decision>, kinds: seq<PolicyKind>, score: real) {
    && ReplayDecisions(Some(from), decisions) == Some(score) && PolicyKinds(decisions) == kinds
    && forall d :: d in decisions ==> SaysIfApplied(d) && DecisionTells(e, i, d)
  }

  lemma NothingDecided(e: Engine, i: Inputs, from: real)
    ensures Accounted(e, i, from, [], [], from)
  {
  }

  lemma OneMoreAccounted(
      e: Engine, i: Inputs, from: real, decisions: seq<Decision>, kinds: seq<PolicyKind>, d: Decision)
    requires Accounted(e, i, from, decisions, kinds, d.before)
    requires SaysIfApplied(d) && DecisionTells(e, i, d) && (!d.applied ==> d.after == d.before)
    ensures Accounted(e, i, from, decisions + [d], kinds + [d.kind], d.after)
  {
    OneMoreDecision(Some(from), decisions, d);
    hide ReplayDecisions, SaysIfApplied, DecisionTells;
  }

  lemma AccountedFor(e: Engine, i: Inputs, from: real, decisions: seq<Decision>, kinds: seq<PolicyKind>, score: real)
    requires Accounted(e, i, from, decisions, kinds, score)
    ensures ReplayDecisions(Some(from), decisions) == Some(score) && PolicyKinds(decisions) == kinds
    ensures forall d :: d in decisions ==> SaysIfApplied(d) && DecisionTells(e, i, d)
  {
    hide ReplayDecisions, SaysIfApplied, DecisionTells;
  }

  /** The severity, demoted where the evidence does not carry it. */
  method Grade(e: Engine, i: Inputs, score: real, confidence: real) returns (severity: Risk, decisions: seq<Decision>)
    requires score == FusionScore(e, i) && confidence == Confidence(i)
    ensures severity == Severity(e, i)
    ensures ReplayDecisions(Some(score), decisions) == Some(score)
    ensures PolicyKinds(decisions) == DemotionsDue(e, i)
    ensures forall d :: d in decisions ==> SaysIfApplied(d) && DecisionTells(e, i, d)
  {
    severity, decisions := SeverityOf(e.thresholds, score), [];
    ghost var kinds: seq<PolicyKind> := [];
    hide FusionScore, Confidence, Accounted, ReplayDecisions, PolicyKinds;
    NothingDecided(e, i, score);
    if severity == Critical && !(AtLeast(i.market, 0.65) && Corroborated(i) && confidence >= 0.4) {
      var d := Decision(CriticalRequiresCorroboration, true, score, score);
      OneMoreAccounted(e, i, score, decisions, kinds, d);
      decisions, kinds := decisions + [d], kinds + [d.kind];
      severity := High;
    }
    if i.market.None? && (severity == High || severity == Critical) {
      var d := Decision(MissingMarketDemotion, true, score, score);
      OneMoreAccounted(e, i, score, decisions, kinds, d);
      decisions, kinds := decisions + [d], kinds + [d.kind];
      severity := Watch;
    }
    AccountedFor(e, i, score, decisions, kinds, score);
  }

  lemma {:induction false} Concatenated(from: Option<real>, first: seq<Decision>, second: seq<Decision>)
    ensures ReplayDecisions(from, first + second) == ReplayDecisions(ReplayDecisions(from, first), second)
  {
    if second == [] {
      assert first + second == first;
    } else {
      var n := |second| - 1;
      assert (first + second)[..|first| + n] == first + second[..n];
      Concatenated(from, first, second[..n]);
    }
  }
}
