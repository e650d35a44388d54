/** When a campaign moves to a stage, and when an alert of a kind is triggered, read from the fused score as it is. */
module CampaignRules {
  import opened Wrappers
  import opened CampaignPolicy

  ghost predicate AtLeast(x: Option<real>, bound: real) { x.Some? && x.value >= bound }
  ghost predicate AtMost(x: Option<real>, bound: real) { x.Some? && x.value <= bound }

  /** Social activity reaches the bound: the coordination risk does, or without one the social score. */
  ghost predicate SociallyActive(score: Score, bound: real) {
    if score.socialRisk.Some? && score.socialRisk.value != 0.0 then score.socialRisk.value >= bound
    else AtLeast(score.socialScore, bound)
  }

  ghost predicate Pumps(score: Score) { AtLeast(score.marketRisk, 0.60) && score.severity in {High, Critical} }
  ghost predicate Falls(score: Score) { AtMost(score.priceReturn, -0.08) }

  /** A campaign leaves its stage for another on exactly these conditions, and otherwise stays. */
  lemma EnteredIff(current: Stage, score: Score)
    ensures var next := NextStage(current, score);
            && (next == EarlySocialSeeding != current <==> current == Quiet && SociallyActive(score, 0.35))
            && (next == CoordinatedAmplification != current <==>
                  current == EarlySocialSeeding && AtLeast(score.coordination, 0.55) && !Pumps(score))
            && (next == MarketPump != current <==>
                  Pumps(score) && (current == EarlySocialSeeding
                                   || (current == CoordinatedAmplification && !Falls(score))))
            && (next == PossibleDistribution != current <==>
                  current == MarketPump && !Falls(score)
                  && (AtMost(score.pressure, -0.25) || (score.priceReturn.Some? && score.priceReturn.value < -0.02)))
            && (next == Dump != current <==>
                  (current in {CoordinatedAmplification, MarketPump, PossibleDistribution} && Falls(score))
                  || (current == PossibleDistribution && AtMost(score.pressure, -0.50)))
    ensures var next := NextStage(current, score);
            && (next == Quiet != current <==>
                  current == EarlySocialSeeding && score.severity == Normal && !SociallyActive(score, 0.20)
                  && !AtLeast(score.coordination, 0.55))
            && (next == PostEvent != current <==>
                  score.severity == Normal
                  && (current == Dump
                      || (current == CoordinatedAmplification && !Falls(score) && !SociallyActive(score, 0.20))
                      || (current == PossibleDistribution && !Falls(score) && !AtMost(score.pressure, -0.50))))
  {
    ActivityIs(score, 0.35);
    ActivityIs(score, 0.20);
  }

  lemma ActivityIs(score: Score, bound: real)
    requires bound > 0.0
    ensures SocialActivity(score) >= bound <==> SociallyActive(score, bound)
  {
  }

  ghost predicate IsLargest(x: real, xs: set<real>) { x in xs && forall y :: y in xs ==> y <= x }

  /** The confidence in a stage is the largest of what speaks for it; a missing risk speaks with zero. */
  lemma ConfidenceIsLargest(stage: Stage, score: Score)
    ensures var market := if score.marketRisk.Some? then score.marketRisk.value else 0.0;
            var social := if score.socialRisk.Some? then score.socialRisk.value else 0.0;
            var coordination := if score.coordination.Some? then score.coordination.value else 0.0;
            IsLargest(StageConfidence(stage, score),
                      match stage
                      case Quiet => {0.0, 1.0 - score.fusionScore}
                      case EarlySocialSeeding => {social}
                      case CoordinatedAmplification => {social, coordination}
                      case PostEvent => {score.confidence}
                      case _ => {market, score.confidence})
  {
  }

  /** WATCH at least. */
  function Watched(r: Risk): Risk { if r == Normal then Watch else r }

  /** The condition under which an alert of a kind is triggered. */
  ghost predicate Triggers(score: Score, kind: AlertType) {
    match kind
    case SocialHypeSurge => AtLeast(score.socialRisk, 0.35)
    case CoordinatedPromotion => AtLeast(score.coordination, 0.55)
    case UnverifiedNarrative => AtLeast(score.claimRisk, 0.60)
    case MarketVolumeAnomaly => AtLeast(score.marketRisk, 0.35) && AtLeast(score.relativeVolume, 2.5)
    case MarketPriceAnomaly => AtLeast(score.priceReturn, 0.08) || AtMost(score.priceReturn, -0.08)
    case MarketMicrostructureAnomaly =>
      AtLeast(score.spread, 0.02) || AtLeast(score.imbalance, 0.70) || AtMost(score.imbalance, -0.70)
    case CrossDomainManipulationRisk =>
      score.fusionScore >= 0.35 && AtLeast(score.marketRisk, 0.35) && AtLeast(score.socialRisk, 0.35)
    case PossibleDumpPhase => AtMost(score.priceReturn, -0.05) || AtMost(score.pressure, -0.35)
  }

  ghost function SeverityFor(score: Score, kind: AlertType): Risk {
    match kind
    case SocialHypeSurge => score.socialSeverity
    case CoordinatedPromotion => score.socialSeverity
    case UnverifiedNarrative => Watched(score.severity)
    case CrossDomainManipulationRisk => score.severity
    case PossibleDumpPhase => Watched(score.marketSeverity)
    case _ => score.marketSeverity
  }

  /** A score triggers exactly the alerts whose condition it meets, each with its severity, and once. */
  lemma TriggeredIff(score: Score, t: Trigger)
    ensures t in Alerts(score) <==> Triggers(score, t.kind) && t.severity == SeverityFor(score, t.kind)
  {
    AlertsAreDistinct(score);
    var c := Considered(score);
    forall i | 0 <= i < |c| ensures Ordinal(c[i].1.kind) == i {
    }
    assert c[Ordinal(t.kind)].1.kind == t.kind;
    assert c[Ordinal(t.kind)].0 == Triggers(score, t.kind);
    assert c[Ordinal(t.kind)].1.severity == SeverityFor(score, t.kind);
    hide Considered, Triggers, SeverityFor, Alerts;
    if (true, t) in c {
      var i :| 0 <= i < |c| && c[i] == (true, t);
    }
    if c[Ordinal(t.kind)] == (true, t) {
      assert (true, t) in c;
    }
  }

  // ---------------------------------------------------------------- the table of transitions

  function Plain(social: real, coordination: real, market: real, severity: Risk, change: real, pressure: real): Score {
    Score("", "", 0, 0, Base, None, Some(market), Normal, Some(social), Normal, None, Some(coordination), None,
          0.0, 0.0, severity, Some(change), None, None, None, Some(pressure))
  }

  /** A score that takes a campaign from one stage to another, where one does. */
  function Leading(from: Stage, to: Stage): Score {
    if from == to then Plain(0.0, 0.0, 0.0, if from == Quiet then Normal else Watch, 0.0, 0.0)
    else
      match to
      case EarlySocialSeeding => Plain(0.5, 0.0, 0.0, Normal, 0.0, 0.0)
      case CoordinatedAmplification => Plain(0.0, 0.6, 0.0, Normal, 0.0, 0.0)
      case MarketPump => Plain(0.0, 0.0, 0.7, High, 0.0, 0.0)
      case PossibleDistribution => Plain(0.0, 0.0, 0.0, Normal, 0.0, -0.3)
      case Dump => Plain(0.0, 0.0, 0.0, Normal, -0.1, 0.0)
      case Quiet => Plain(0.0, 0.0, 0.0, Normal, 0.0, 0.0)
      case PostEvent => Plain(0.0, 0.0, 0.0, Normal, 0.0, 0.0)
  }

  /**
   * The table of transitions holds those that some score leads to, and one that none does: early seeding never
   * goes straight to post-event.
   */
  lemma TableIsReached(from: Stage, to: Stage)
    ensures to in TRANSITIONS[from] <==>
            (exists score :: NextStage(from, score) == to) || (from == EarlySocialSeeding && to == PostEvent)
    ensures forall score :: NextStage(EarlySocialSeeding, score) != PostEvent
  {
    if to in TRANSITIONS[from] && !(from == EarlySocialSeeding && to == PostEvent) {
      assert NextStage(from, Leading(from, to)) == to;
    }
    if score :| NextStage(from, score) == to {
      AssessSucceeds(from, score);
    }
  }
}
