/** The numbers behind a fused score: its bands, its stages and its confidence, told without the engine's own steps. */
module FusionBands {
  import opened Wrappers
  import opened CampaignPolicy
  import opened Fusion
  import opened FusionLaws

  // ---------------------------------------------------------------- severity

  /** The thresholds divide the scores: under watch, from watch to high, from high to critical, and beyond. */
  ghost predicate Rising(t: Thresholds) { t.watch <= t.high <= t.critical }

  lemma BandIff(t: Thresholds, score: real)
    requires Rising(t)
    ensures SeverityOf(t, score) == Normal <==> score < t.watch
    ensures SeverityOf(t, score) == Watch <==> t.watch <= score < t.high
    ensures SeverityOf(t, score) == High <==> t.high <= score < t.critical
    ensures SeverityOf(t, score) == Critical <==> t.critical <= score
  {
  }

  ghost predicate Reaches(x: Option<real>, bound: real) { x.Some? && x.value >= bound }

  /** Market evidence, a corroborating score and confidence enough for CRITICAL. */
  ghost predicate Corroborates(i: Inputs) {
    && Reaches(i.market, 0.65) && Confidence(i) >= 0.4
    && exists x :: x in {i.social, i.coordination, i.temporal, i.claim, i.graph} && Reaches(x, 0.55)
  }

  /** The severity of a score by its bands; without a market score it stays at WATCH, and CRITICAL is corroborated. */
  lemma SeverityIff(e: Engine, i: Inputs)
    requires Rising(e.thresholds)
    ensures var t, score, severity := e.thresholds, FusionScore(e, i), Severity(e, i);
            && (severity == Normal <==> score < t.watch)
            && (severity == Watch <==> score >= t.watch && (score < t.high || i.market.None?))
            && (severity == Critical <==> score >= t.critical && Corroborates(i))
            && (severity == High <==> score >= t.high && i.market.Some? && !(score >= t.critical && Corroborates(i)))
  {
    assert Corroborated(i) <==>
             exists x :: x in {i.social, i.coordination, i.temporal, i.claim, i.graph} && Reaches(x, 0.55) by {
      if Corroborated(i) {
        var x := if AtLeast(i.social, 0.55) then i.social else if AtLeast(i.coordination, 0.55) then i.coordination
                 else if AtLeast(i.temporal, 0.55) then i.temporal else if AtLeast(i.claim, 0.55) then i.claim
                 else i.graph;
        assert x in {i.social, i.coordination, i.temporal, i.claim, i.graph} && Reaches(x, 0.55);
      }
    }
    hide FusionScore, Confidence, Corroborated;
  }

  // ---------------------------------------------------------------- the weighted mean

  function Value(x: Option<real>): real { if x.Some? then x.value else 0.0 }
  function IfThere(x: Option<real>, weight: real): real { if x.Some? then weight else 0.0 }

  ghost function TotalWeight(w: Weights, i: Inputs): real {
    IfThere(i.market, w.market) + IfThere(i.social, w.social) + IfThere(i.coordination, w.coordination)
    + IfThere(i.temporal, w.temporal) + IfThere(i.claim, w.claim) + IfThere(i.graph, w.graph)
  }

  ghost function TotalScore(w: Weights, i: Inputs): real {
    w.market * Value(i.market) + w.social * Value(i.social) + w.coordination * Value(i.coordination)
    + w.temporal * Value(i.temporal) + w.claim * Value(i.claim) + w.graph * Value(i.graph)
  }

  lemma PartsAre(w: Weights, i: Inputs)
    ensures Part(w, i, MarketScore) == w.market * Value(i.market)
    ensures Part(w, i, SocialScore) == w.social * Value(i.social)
    ensures Part(w, i, CoordinationScore) == w.coordination * Value(i.coordination)
    ensures Part(w, i, TemporalScore) == w.temporal * Value(i.temporal)
    ensures Part(w, i, ClaimRisk) == w.claim * Value(i.claim)
    ensures Part(w, i, GraphScore) == w.graph * Value(i.graph)
  {
  }

  lemma SumOneMore(w: Weights, i: Inputs, n: nat)
    requires n < |COMPONENTS|
    ensures WeightedSum(w, i, COMPONENTS[..n + 1]) == WeightedSum(w, i, COMPONENTS[..n]) + Part(w, i, COMPONENTS[n])
  {
    hide Part;
    assert COMPONENTS[..n + 1][..n] == COMPONENTS[..n];
  }

  lemma SumIsTotal(w: Weights, i: Inputs)
    ensures WeightedSum(w, i, COMPONENTS) == TotalScore(w, i)
  {
    PartsAre(w, i);
    hide Part, Value;
    assert COMPONENTS[..0] == [] && COMPONENTS[..6] == COMPONENTS;
    assert WeightedSum(w, i, COMPONENTS[..0]) == 0.0;
    hide WeightedSum;
    SumOneMore(w, i, 0);
    SumOneMore(w, i, 1);
    SumOneMore(w, i, 2);
    SumOneMore(w, i, 3);
    SumOneMore(w, i, 4);
    SumOneMore(w, i, 5);
  }

  lemma WeightOneMore(w: Weights, i: Inputs, n: nat)
    requires n < |COMPONENTS|
    ensures AvailableWeight(w, i, COMPONENTS[..n + 1])
            == AvailableWeight(w, i, COMPONENTS[..n]) + IfThere(i.Of(COMPONENTS[n]), w.Of(COMPONENTS[n]))
  {
    assert COMPONENTS[..n + 1][..n] == COMPONENTS[..n];
  }

  lemma WeightIsTotal(w: Weights, i: Inputs)
    ensures AvailableWeight(w, i, COMPONENTS) == TotalWeight(w, i)
  {
    assert COMPONENTS[..0] == [] && COMPONENTS[..6] == COMPONENTS;
    assert AvailableWeight(w, i, COMPONENTS[..0]) == 0.0;
    hide AvailableWeight, IfThere;
    WeightOneMore(w, i, 0);
    WeightOneMore(w, i, 1);
    WeightOneMore(w, i, 2);
    WeightOneMore(w, i, 3);
    WeightOneMore(w, i, 4);
    WeightOneMore(w, i, 5);
  }

  /** The score starts as the mean of the components there are, each by its weight. */
  lemma WeightedIsMean(e: Engine, i: Inputs)
    ensures TotalWeight(e.weights, i) == 0.0 ==> Weighted(e, i) == 0.0
    ensures TotalWeight(e.weights, i) != 0.0 ==>
            Weighted(e, i) * TotalWeight(e.weights, i) == TotalScore(e.weights, i)
  {
    SumIsTotal(e.weights, i);
    WeightIsTotal(e.weights, i);
    hide TotalScore, TotalWeight, WeightedSum, AvailableWeight;
    if TotalWeight(e.weights, i) != 0.0 {
      TimesBack(TotalScore(e.weights, i), TotalWeight(e.weights, i));
    }
  }

  lemma TimesBack(x: real, y: real)
    requires y != 0.0
    ensures x / y * y == x
  {
  }

  // ---------------------------------------------------------------- calibration, discount and uplift

  /** x held to [0, 1]. */
  ghost predicate IsHeld(y: real, x: real) {
    0.0 <= y <= 1.0 && (0.0 <= x <= 1.0 ==> y == x) && (x < 0.0 ==> y == 0.0) && (x > 1.0 ==> y == 1.0)
  }

  /** A calibrator is used from a baseline confidence of one half on, and on a score held to [0, 1]. */
  lemma CalibratedIs(e: Engine, i: Inputs) returns (start: real)
    ensures IsHeld(start, Weighted(e, i))
    ensures if e.calibrator.Some? && i.baseline >= 0.5 then IsHeld(Calibrated(e, i), e.calibrator.value(start))
            else Calibrated(e, i) == start
  {
    start := Clamp(Weighted(e, i));
  }

  /** A legitimate event takes off 35% of the score for its full score, in proportion, and nothing if there is none. */
  lemma LegitimacyDiscounts(e: Engine, i: Inputs, part: real)
    requires i.legitimate.Some? ==> IsHeld(part, i.legitimate.value)
    ensures i.legitimate.None? ==> Adjusted(e, i) == Calibrated(e, i)
    ensures i.legitimate.Some? ==> Calibrated(e, i) - Adjusted(e, i) == 0.35 * (part * Calibrated(e, i))
  {
    hide Calibrated;
    var x := Calibrated(e, i);
    if i.legitimate.Some? {
      assert Clamp(i.legitimate.value) == part;
      assert x * (1.0 - 0.35 * part) == x - 0.35 * (part * x);
    }
  }

  /** A match lifts the score by the cap, times its score and its confidence, and to 1 at most; nothing else does. */
  lemma MatchLifts(e: Engine, i: Inputs)
    requires e.cap >= 0.0 && ThreatInRange(i.threat)
    ensures if i.threat.status == Matched && i.threat.score.Some?
            then var lifted := Adjusted(e, i) + e.cap * (i.threat.score.value * Value(i.threat.confidence));
                 Uplifted(e, i) == if lifted <= 1.0 then lifted else 1.0
            else Uplifted(e, i) == Adjusted(e, i)
  {
    hide Adjusted;
    if Uplifts(i) {
      var s, c := i.threat.score.value, Value(i.threat.confidence);
      assert c == i.threat.confidence.GetOr(0.0);
      ProductInRange(s, c);
      ProductRises(e.cap, s * c, 1.0);
      assert e.cap * 1.0 == e.cap && s * c * e.cap == e.cap * (s * c);
    }
  }

  // ---------------------------------------------------------------- floor and caps

  /** Market and coordination evidence corroborate each other. */
  ghost predicate Pairs(i: Inputs) { Reaches(i.market, 0.65) && Reaches(i.coordination, 0.65) }

  /** The score may not be HIGH: for want of market evidence, or because only threat context would make it so. */
  ghost predicate HeldUnderHigh(e: Engine, i: Inputs) {
    !Reaches(i.market, 0.35) || (i.threat.status == Matched && Adjusted(e, i) < e.thresholds.high)
  }

  /**
   * The fused score is the least that is not under the lifted score, nor under WATCH where market and coordination
   * pair; unless it may not be HIGH, when it is that or the ceiling 0.01 under HIGH, whichever is lower.
   */
  lemma ScoreIsHeld(e: Engine, i: Inputs) returns (least: real)
    ensures least >= Uplifted(e, i) && (Pairs(i) ==> least >= e.thresholds.watch)
    ensures least == Uplifted(e, i) || (Pairs(i) && least == e.thresholds.watch)
    ensures var score, ceiling := FusionScore(e, i), e.thresholds.high - 0.01;
            if HeldUnderHigh(e, i) then score <= least && score <= ceiling && score in {least, ceiling}
            else score == least
  {
    hide Uplifted, Adjusted;
    least := Floored(e, i);
  }

  /** With ordered thresholds HIGH or above takes market evidence of 0.35 and a score of HIGH before threat context. */
  lemma HighIff(e: Engine, i: Inputs)
    requires Ordered(e.thresholds) && e.cap >= 0.0 && ThreatInRange(i.threat)
    ensures HighOrAbove(Severity(e, i)) <==> Reaches(i.market, 0.35) && Adjusted(e, i) >= e.thresholds.high
  {
    HighMeansScore(e, i);
    UpliftInRange(e, i);
    CalibratedInRange(e, i);
    hide Adjusted, Uplift, Severity;
  }

  // ---------------------------------------------------------------- confidence

  /** How many of the seven inputs are there. */
  ghost function InputsThere(i: Inputs): nat {
    One(i.market.Some?) + One(i.social.Some?) + One(i.coordination.Some?) + One(i.temporal.Some?)
    + One(i.claim.Some?) + One(i.legitimate.Some?) + One(i.graph.Some?)
  }

  /** What the inputs there are weigh: 0.4 each, 0.35 more for a full baseline and 0.25 for full data quality. */
  ghost function Trust(there: nat, baseline: real, quality: real): real {
    there as real * (0.4 + 0.35 * baseline + 0.25 * quality)
  }

  lemma BaseConfidenceIs(there: nat, missing: nat, baseline: real, quality: real)
    requires there + missing == 7 && 0.0 <= baseline <= 1.0 && 0.0 <= quality <= 1.0
    ensures 7.0 * BaseConfidence(missing, baseline, quality) == Trust(there, baseline, quality)
  {
    var share, k := 1.0 - missing as real / 7.0, 0.4 + 0.35 * baseline + 0.25 * quality;
    assert 7.0 * share == there as real;
    ProductInRange(share, k);
    assert BaseConfidence(missing, baseline, quality) == share * k;
    SevenTimes(share, k);
  }

  lemma SevenTimes(x: real, y: real)
    ensures 7.0 * (x * y) == 7.0 * x * y
  {
  }

  /**
   * Confidence is a seventh of what the inputs there are weigh, and 15% less where threat context should have been
   * but was unavailable or stale.
   */
  lemma ConfidenceIs(i: Inputs)
    requires 0.0 <= i.baseline <= 1.0 && 0.0 <= i.quality <= 1.0
    ensures var trust := Trust(InputsThere(i), i.baseline, i.quality);
            7.0 * Confidence(i) == if i.threat.status in {Unavailable, Stale} then 0.85 * trust else trust
  {
    assert InputsThere(i) + Missing(i) == 7;
    hide InputsThere, Missing, BaseConfidence, Trust;
    BaseConfidenceIs(InputsThere(i), Missing(i), i.baseline, i.quality);
  }

  // ---------------------------------------------------------------- social risk and profile

  /** Social risk is 30% social and 70% coordination; with one of them missing it is the other. */
  lemma SocialRiskIs(i: Inputs)
    ensures SocialRisk(i) == match (i.social, i.coordination)
                             case (None, None) => None
                             case (Some(s), None) => Some(s)
                             case (None, Some(c)) => Some(c)
                             case (Some(s), Some(c)) => Some(0.3 * s + 0.7 * c)
  {
  }

  /** Each enrichment, of graph or of verification, that the inputs have raises the revision by one. */
  lemma ProfileTells(i: Inputs)
    ensures var (profile, revision) := ProfileOf(i);
            && (profile in {Graph, GraphAndVerification} <==> i.graph.Some?)
            && (profile in {Verification, GraphAndVerification} <==> i.claim.Some? || i.legitimate.Some?)
            && revision == 1 + (if i.graph.Some? then 1 else 0) + (if i.claim.Some? || i.legitimate.Some? then 1 else 0)
  {
  }
}
