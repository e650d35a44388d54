/** The campaign stage machine and the alerts a fused score triggers. */
module CampaignPolicy {
  import opened Wrappers

  datatype Risk = Normal | Watch | High | Critical

  function Rank(r: Risk): nat {
    match r case Normal => 0 case Watch => 1 case High => 2 case Critical => 3
  }

  function MaxRisk(left: Risk, right: Risk): Risk {
    if Rank(left) >= Rank(right) then left else right
  }

  datatype Stage =
    | Quiet | EarlySocialSeeding | CoordinatedAmplification | MarketPump | PossibleDistribution | Dump | PostEvent

  /** The place of a stage in the life of a campaign. */
  function Progress(s: Stage): nat {
    match s
    case Quiet => 0 case EarlySocialSeeding => 1 case CoordinatedAmplification => 2 case MarketPump => 3
    case PossibleDistribution => 4 case Dump => 5 case PostEvent => 6
  }

  datatype Profile = Base | Graph | Verification | GraphAndVerification

  function Priority(p: Profile): nat {
    match p case Base => 0 case Graph => 1 case Verification => 2 case GraphAndVerification => 3
  }

  /** The part of a fusion result the campaign engine reads. */
  datatype Score = Score(
    scope: string, asset: string, featureRevision: int, fusionRevision: int, profile: Profile, cutoff: Option<int>,
    marketRisk: Option<real>, marketSeverity: Risk, socialRisk: Option<real>, socialSeverity: Risk,
    socialScore: Option<real>, coordination: Option<real>, claimRisk: Option<real>,
    fusionScore: real, confidence: real, severity: Risk,
    priceReturn: Option<real>, relativeVolume: Option<real>, spread: Option<real>,
    imbalance: Option<real>, pressure: Option<real>)

  function OrZero(x: Option<real>): real { x.GetOr(0.0) }

  function Abs(x: real): real { if x >= 0.0 then x else -x }
  function Larger(x: real, y: real): real { if x >= y then x else y }

  /** Python's `a or b or 0.0`: a zero falls through like a missing value. */
  function SocialActivity(score: Score): real {
    if OrZero(score.socialRisk) != 0.0 then OrZero(score.socialRisk) else OrZero(score.socialScore)
  }

  const TRANSITIONS: map<Stage, set<Stage>> := map[
    Quiet := {Quiet, EarlySocialSeeding},
    EarlySocialSeeding := {Quiet, EarlySocialSeeding, CoordinatedAmplification, MarketPump, PostEvent},
    CoordinatedAmplification := {CoordinatedAmplification, MarketPump, Dump, PostEvent},
    MarketPump := {MarketPump, PossibleDistribution, Dump},
    PossibleDistribution := {PossibleDistribution, Dump, PostEvent},
    Dump := {Dump, PostEvent},
    PostEvent := {PostEvent}]

  function NextStage(current: Stage, score: Score): Stage {
    var priceReturn, pressure := OrZero(score.priceReturn), OrZero(score.pressure);
    var social, coordination, market := SocialActivity(score), OrZero(score.coordination), OrZero(score.marketRisk);
    match current
    case Quiet => if social >= 0.35 then EarlySocialSeeding else current
    case EarlySocialSeeding =>
      if market >= 0.60 && Rank(score.severity) >= Rank(High) then MarketPump
      else if coordination >= 0.55 then CoordinatedAmplification
      else if score.severity == Normal && social < 0.20 then Quiet
      else current
    case CoordinatedAmplification =>
      if priceReturn <= -0.08 then Dump
      else if market >= 0.60 && Rank(score.severity) >= Rank(High) then MarketPump
      else if score.severity == Normal && social < 0.20 then PostEvent
      else current
    case MarketPump =>
      if priceReturn <= -0.08 then Dump
      else if pressure <= -0.25 || priceReturn < -0.02 then PossibleDistribution
      else current
    case PossibleDistribution =>
      if priceReturn <= -0.08 || pressure <= -0.50 then Dump
      else if score.severity == Normal then PostEvent
      else current
    case Dump => if score.severity == Normal then PostEvent else current
    case PostEvent => current
  }

  function StageConfidence(stage: Stage, score: Score): real {
    var market, social, coordination := OrZero(score.marketRisk), OrZero(score.socialRisk), OrZero(score.coordination);
    match stage
    case Quiet => Larger(0.0, 1.0 - score.fusionScore)
    case EarlySocialSeeding => social
    case CoordinatedAmplification => Larger(social, coordination)
    case MarketPump => Larger(market, score.confidence)
    case PossibleDistribution => Larger(market, score.confidence)
    case Dump => Larger(market, score.confidence)
    case PostEvent => score.confidence
  }

  datatype AlertType =
    | SocialHypeSurge | CoordinatedPromotion | UnverifiedNarrative | MarketVolumeAnomaly
    | MarketPriceAnomaly | MarketMicrostructureAnomaly | CrossDomainManipulationRisk | PossibleDumpPhase

  datatype Trigger = Trigger(kind: AlertType, severity: Risk)

  /** Every kind of alert in the order it is considered, with the condition that triggers it. */
  function Considered(score: Score): seq<(bool, Trigger)> {
    var market, social, coordination := OrZero(score.marketRisk), OrZero(score.socialRisk), OrZero(score.coordination);
    var priceReturn, pressure := OrZero(score.priceReturn), OrZero(score.pressure);
    [ (social >= 0.35, Trigger(SocialHypeSurge, score.socialSeverity)),
      (coordination >= 0.55, Trigger(CoordinatedPromotion, score.socialSeverity)),
      (OrZero(score.claimRisk) >= 0.60, Trigger(UnverifiedNarrative, MaxRisk(Watch, score.severity))),
      (market >= 0.35 && OrZero(score.relativeVolume) >= 2.5, Trigger(MarketVolumeAnomaly, score.marketSeverity)),
      (Abs(priceReturn) >= 0.08, Trigger(MarketPriceAnomaly, score.marketSeverity)),
      (OrZero(score.spread) >= 0.02 || Abs(OrZero(score.imbalance)) >= 0.70,
       Trigger(MarketMicrostructureAnomaly, score.marketSeverity)),
      (score.fusionScore >= 0.35 && market >= 0.35 && social >= 0.35,
       Trigger(CrossDomainManipulationRisk, score.severity)),
      (priceReturn <= -0.05 || pressure <= -0.35,
       Trigger(PossibleDumpPhase, MaxRisk(Watch, score.marketSeverity))) ]
  }

  function Kept(considered: seq<(bool, Trigger)>): seq<Trigger> {
    if considered == [] then []
    else (if considered[0].0 then [considered[0].1] else []) + Kept(considered[1..])
  }

  function Alerts(score: Score): seq<Trigger> {
    Kept(Considered(score))
  }

  datatype Assessment = Assessment(next: Stage, confidence: real, alerts: seq<Trigger>)

  datatype PolicyError = InvalidTransition(from: Stage, to: Stage)

  function Assess(current: Stage, score: Score): Result<Assessment, PolicyError> {
    var target := NextStage(current, score);
    if target !in TRANSITIONS[current] then Failure(InvalidTransition(current, target))
    else Success(Assessment(target, StageConfidence(target, score), Alerts(score)))
  }

  /** The stage machine never raises: it only proposes transitions its own table allows. */
  lemma AssessSucceeds(current: Stage, score: Score)
    ensures Assess(current, score).Success?
  {
  }

  /** Campaigns only move forwards, except that early seeding may fade away again. */
  lemma OnlySeedingFades(current: Stage, score: Score)
    ensures Progress(NextStage(current, score)) < Progress(current) ==>
              current == EarlySocialSeeding && NextStage(current, score) == Quiet
              && score.severity == Normal && SocialActivity(score) < 0.20
    ensures NextStage(current, score) == PossibleDistribution ==> current in {MarketPump, PossibleDistribution}
  {
  }

  predicate DistinctKinds(triggers: seq<Trigger>) {
    forall i, j :: 0 <= i < j < |triggers| ==> triggers[i].kind != triggers[j].kind
  }

  function Ordinal(kind: AlertType): nat {
    match kind
    case SocialHypeSurge => 0 case CoordinatedPromotion => 1 case UnverifiedNarrative => 2
    case MarketVolumeAnomaly => 3 case MarketPriceAnomaly => 4 case MarketMicrostructureAnomaly => 5
    case CrossDomainManipulationRisk => 6 case PossibleDumpPhase => 7
  }

  lemma {:induction false} KeptAreConsidered(considered: seq<(bool, Trigger)>)
    requires forall i, j :: 0 <= i < j < |considered| ==> considered[i].1.kind != considered[j].1.kind
    ensures DistinctKinds(Kept(considered))
    ensures forall t :: t in Kept(considered) <==> exists i :: 0 <= i < |considered| && considered[i] == (true, t)
  {
    if considered != [] {
      KeptAreConsidered(considered[1..]);
      var rest := Kept(considered[1..]);
      forall t | t in rest ensures t.kind != considered[0].1.kind {
        var i :| 0 <= i < |considered[1..]| && considered[1..][i] == (true, t);
        assert considered[i + 1] == (true, t);
      }
      forall t ensures t in Kept(considered) <==> exists i :: 0 <= i < |considered| && considered[i] == (true, t) {
        if i :| 0 <= i < |considered| && considered[i] == (true, t) {
          assert i == 0 || considered[1..][i - 1] == (true, t);
        }
      }
    }
  }

  /** One score triggers at most one alert of a kind, and just those whose condition holds. */
  lemma AlertsAreDistinct(score: Score)
    ensures DistinctKinds(Alerts(score))
    ensures forall t :: t in Alerts(score) <==> (true, t) in Considered(score)
  {
    var c := Considered(score);
    assert forall i :: 0 <= i < |c| ==> Ordinal(c[i].1.kind) == i;
    KeptAreConsidered(c);
  }
}
