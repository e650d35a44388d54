/** How the fused score and severity respond to their inputs. */
module FusionLaws {
  import opened Wrappers
  import opened CampaignPolicy
  import opened CampaignStores
  import opened Fusion

  ghost predicate NoNegativeWeights(w: Weights) { forall c :: w.Of(c) >= 0.0 }

  ghost predicate Monotone(f: Option<real -> real>) {
    f.Some? ==> forall x, y :: x <= y ==> f.value(x) <= f.value(y)
  }

  /**
   * Settings as they are meant: no negative weight (a weight of zero switches its component off), a calibrator
   * that keeps order, bounds in [0, 1], an uplift cap that lifts.
   */
  ghost predicate Sane(e: Engine) {
    NoNegativeWeights(e.weights) && Monotone(e.calibrator) && 0.0 <= e.thresholds.high <= 1.0 && e.cap >= 0.0
  }

  predicate InRange(x: Option<real>) { x.Some? ==> 0.0 <= x.value <= 1.0 }

  predicate ThreatInRange(t: Threat) { InRange(t.score) && InRange(t.confidence) }

  // ---------------------------------------------------------------- raising a component

  /** The same inputs, present ones present, with no component lower. */
  ghost predicate Raised(low: Inputs, high: Inputs) {
    && (forall c :: low.Of(c).Some? <==> high.Of(c).Some?)
    && (forall c :: low.Of(c).Some? ==> low.Of(c).value <= high.Of(c).value)
    && high.legitimate == low.legitimate && high.threat == low.threat
    && high.baseline == low.baseline && high.quality == low.quality
  }

  /** The same inputs but for a higher legitimate-event score. */
  predicate MoreLegitimate(less: Inputs, more: Inputs) {
    && less.legitimate.Some? && more.legitimate.Some? && less.legitimate.value <= more.legitimate.value
    && more == less.(legitimate := more.legitimate)
  }

  lemma {:induction false} SumsRise(w: Weights, low: Inputs, high: Inputs, cs: seq<Component>)
    requires NoNegativeWeights(w) && Raised(low, high)
    ensures WeightedSum(w, low, cs) <= WeightedSum(w, high, cs)
    ensures AvailableWeight(w, low, cs) == AvailableWeight(w, high, cs) >= 0.0
  {
    hide Part;
    if cs != [] {
      var c := cs[|cs| - 1];
      SumsRise(w, low, high, cs[..|cs| - 1]);
      PartRises(w, low, high, c);
    }
  }

  lemma PartRises(w: Weights, low: Inputs, high: Inputs, c: Component)
    requires NoNegativeWeights(w) && Raised(low, high)
    ensures Part(w, low, c) <= Part(w, high, c)
  {
    if low.Of(c).Some? {
      ProductRises(w.Of(c), low.Of(c).value, high.Of(c).value);
    }
  }

  lemma ProductRises(w: real, x: real, y: real)
    requires w >= 0.0 && x <= y
    ensures w * x <= w * y
  {
  }

  lemma QuotientRises(x: real, y: real, d: real)
    requires d > 0.0 && x <= y
    ensures x / d <= y / d
  {
  }

  lemma WeightedRises(e: Engine, low: Inputs, high: Inputs)
    requires Sane(e) && Raised(low, high)
    ensures Weighted(e, low) <= Weighted(e, high)
  {
    SumsRise(e.weights, low, high, COMPONENTS);
    var d := AvailableWeight(e.weights, low, COMPONENTS);
    if d > 0.0 {
      QuotientRises(WeightedSum(e.weights, low, COMPONENTS), WeightedSum(e.weights, high, COMPONENTS), d);
    }
  }

  lemma CalibratedInRange(e: Engine, i: Inputs)
    ensures 0.0 <= Calibrated(e, i) <= 1.0 && 0.65 <= Discount(i) <= 1.0
    ensures 0.0 <= Adjusted(e, i) <= 1.0
  {
    hide Weighted;
    ProductInRange(Calibrated(e, i), Discount(i));
  }

  lemma ProductInRange(x: real, y: real)
    requires 0.0 <= x <= 1.0 && 0.0 <= y <= 1.0
    ensures 0.0 <= x * y <= 1.0
  {
    assert 0.0 <= x * y by {
      ProductRises(x, 0.0, y);
    }
    assert x * y <= x by {
      ProductRises(x, y, 1.0);
      assert x * 1.0 == x;
    }
  }

  lemma ScalingRises(x: real, y: real, f: real, g: real)
    requires 0.0 <= x <= y && 0.0 <= f <= g
    ensures Scaled(x, f) <= Scaled(y, g)
  {
    ProductRises(f, x, y);
    ProductRises(y, f, g);
    assert x * f == f * x && y * f == f * y;
  }

  /** A higher weighted mean and a smaller or equal discount never lower the score before threat context. */
  lemma AdjustedRises(e: Engine, low: Inputs, high: Inputs)
    requires Sane(e) && Weighted(e, low) <= Weighted(e, high) && Discount(low) <= Discount(high)
            && low.baseline == high.baseline
    ensures Adjusted(e, low) <= Adjusted(e, high)
  {
    hide Weighted;
    CalibratedInRange(e, low);
    CalibratedInRange(e, high);
    var x, y := Calibrated(e, low), Calibrated(e, high);
    assert x <= y;
    ScalingRises(x, y, Discount(low), Discount(high));
  }

  /** From the score before threat context on, no later stage turns a rise into a fall. */
  lemma {:induction false} ScoreRises(e: Engine, low: Inputs, high: Inputs)
    requires Sane(e) && ThreatInRange(low.threat) && high.threat == low.threat
    requires Adjusted(e, low) <= Adjusted(e, high)
    requires AtLeast(low.market, 0.65) ==> AtLeast(high.market, 0.65)
    requires AtLeast(low.market, 0.35) ==> AtLeast(high.market, 0.35)
    requires AtLeast(low.coordination, 0.65) ==> AtLeast(high.coordination, 0.65)
    ensures FusionScore(e, low) <= FusionScore(e, high)
  {
    SameUplift(e, low, high);
    hide Adjusted, Uplift;
    UpliftInRange(e, low);
    assert Uplifted(e, low) <= Uplifted(e, high);
    assert Floored(e, low) <= Floored(e, high);
    assert Capped(e, low) <= Capped(e, high);
    CalibratedInRange(e, high);
    if low.threat.status == Matched && Adjusted(e, low) < e.thresholds.high <= Adjusted(e, high) {
      assert Uplifted(e, high) >= Ceiling(e);
    }
  }

  lemma SameUplift(e: Engine, i: Inputs, j: Inputs)
    requires i.threat == j.threat
    ensures Uplift(e, i) == Uplift(e, j)
  {
  }

  lemma UpliftInRange(e: Engine, i: Inputs)
    requires e.cap >= 0.0 && ThreatInRange(i.threat)
    ensures 0.0 <= Uplift(e, i) <= e.cap
  {
    if Uplifts(i) {
      var share := i.threat.score.value * i.threat.confidence.GetOr(0.0);
      ProductInRange(i.threat.score.value, i.threat.confidence.GetOr(0.0));
      ProductRises(e.cap, 0.0, share);
    }
  }

  lemma SeverityRises(e: Engine, low: Inputs, high: Inputs)
    requires FusionScore(e, low) <= FusionScore(e, high)
    requires MayBeCritical(low) ==> MayBeCritical(high)
    requires low.market.Some? <==> high.market.Some?
    ensures Rank(Severity(e, low)) <= Rank(Severity(e, high))
  {
    hide FusionScore, MayBeCritical;
  }

  /** Raising any present component never lowers the fusion score or the severity. */
  lemma RaisingNeverLowers(e: Engine, low: Inputs, high: Inputs)
    requires Sane(e) && ThreatInRange(low.threat) && Raised(low, high)
    ensures FusionScore(e, low) <= FusionScore(e, high)
    ensures Rank(Severity(e, low)) <= Rank(Severity(e, high))
    ensures Confidence(low) == Confidence(high)
  {
    WeightedRises(e, low, high);
    AdjustedRises(e, low, high);
    RaisedBounds(low, high);
    ScoreRises(e, low, high);
    SeverityRises(e, low, high);
  }

  lemma SameConfidence(i: Inputs, j: Inputs)
    requires Missing(i) == Missing(j) && i.baseline == j.baseline && i.quality == j.quality && i.threat == j.threat
    ensures Confidence(i) == Confidence(j)
  {
    hide BaseConfidence;
  }

  lemma RaisedBounds(low: Inputs, high: Inputs)
    requires Raised(low, high)
    ensures forall b :: AtLeast(low.market, b) ==> AtLeast(high.market, b)
    ensures forall b :: AtLeast(low.coordination, b) ==> AtLeast(high.coordination, b)
    ensures Missing(low) == Missing(high) && Confidence(low) == Confidence(high)
    ensures MayBeCritical(low) ==> MayBeCritical(high)
    ensures low.market.Some? <==> high.market.Some?
  {
    assert low.Of(MarketScore) == low.market && high.Of(MarketScore) == high.market;
    assert low.Of(SocialScore) == low.social && high.Of(SocialScore) == high.social;
    assert low.Of(CoordinationScore) == low.coordination && high.Of(CoordinationScore) == high.coordination;
    assert low.Of(TemporalScore) == low.temporal && high.Of(TemporalScore) == high.temporal;
    assert low.Of(ClaimRisk) == low.claim && high.Of(ClaimRisk) == high.claim;
    assert low.Of(GraphScore) == low.graph && high.Of(GraphScore) == high.graph;
    SameConfidence(low, high);
  }

  /** Raising the legitimate-event score never raises them. */
  lemma {:induction false} LegitimacyNeverRaises(e: Engine, less: Inputs, more: Inputs)
    requires Sane(e) && ThreatInRange(less.threat) && MoreLegitimate(less, more)
    ensures FusionScore(e, more) <= FusionScore(e, less)
    ensures Rank(Severity(e, more)) <= Rank(Severity(e, less))
    ensures Confidence(less) == Confidence(more)
  {
    SameSums(e.weights, more, less, COMPONENTS);
    SameConfidence(more, less);
    AdjustedRises(e, more, less);
    ScoreRises(e, more, less);
    SeverityRises(e, more, less);
  }

  lemma {:induction false} SameSums(w: Weights, i: Inputs, j: Inputs, cs: seq<Component>)
    requires forall c :: i.Of(c) == j.Of(c)
    ensures WeightedSum(w, i, cs) == WeightedSum(w, j, cs) && AvailableWeight(w, i, cs) == AvailableWeight(w, j, cs)
  {
    if cs != [] {
      SameSums(w, i, j, cs[..|cs| - 1]);
    }
  }

  // ---------------------------------------------------------------- threat context

  function Without(i: Inputs): Inputs { i.(threat := NO_THREAT) }

  lemma SameWithout(e: Engine, i: Inputs)
    ensures Adjusted(e, Without(i)) == Adjusted(e, i)
  {
    SameSums(e.weights, i, Without(i), COMPONENTS);
  }

  ghost predicate Ordered(t: Thresholds) { 0.0 <= t.watch < t.high <= t.critical && t.high <= 1.0 }

  predicate HighOrAbove(r: Risk) { Rank(r) >= Rank(High) }

  lemma HighMeansScore(e: Engine, i: Inputs)
    requires Ordered(e.thresholds)
    ensures HighOrAbove(Severity(e, i)) <==> i.market.Some? && FusionScore(e, i) >= e.thresholds.high
  {
    hide FusionScore, MayBeCritical;
  }

  /** Threat context corroborates: with it a score is HIGH or above exactly when it is without. */
  lemma ThreatNeverDecidesHigh(e: Engine, i: Inputs)
    requires Ordered(e.thresholds) && e.cap >= 0.0 && ThreatInRange(i.threat) && i.threat.status == Matched
    ensures HighOrAbove(Severity(e, i)) <==> HighOrAbove(Severity(e, Without(i)))
  {
    HighMeansScore(e, i);
    HighMeansScore(e, Without(i));
    MatchedScore(e, i);
  }

  lemma MatchedScore(e: Engine, i: Inputs)
    requires e.cap >= 0.0 && ThreatInRange(i.threat) && i.threat.status == Matched && e.thresholds.high <= 1.0
    ensures var with, without := FusionScore(e, i), FusionScore(e, Without(i));
            && (Adjusted(e, i) < e.thresholds.high ==>
                  with <= Ceiling(e) && (without <= Ceiling(e) ==> without <= with))
            && (Adjusted(e, i) >= e.thresholds.high ==> without <= with)
            && (Ordered(e.thresholds) ==>
                  (Adjusted(e, i) < e.thresholds.high ==> without < e.thresholds.high)
                  && (Adjusted(e, i) >= e.thresholds.high && AtLeast(i.market, 0.35) ==> without >= e.thresholds.high)
                  && (Adjusted(e, i) >= e.thresholds.high && !AtLeast(i.market, 0.35) ==> with < e.thresholds.high))
  {
    hide Adjusted, Uplift;
    SameWithout(e, i);
    UpliftInRange(e, i);
    CalibratedInRange(e, i);
    assert Uplifted(e, Without(i)) == Adjusted(e, i) <= Uplifted(e, i);
    assert Floored(e, Without(i)) <= Floored(e, i);
    assert Capped(e, Without(i)) <= Capped(e, i);
  }

  /** The score before threat context, with the floor for corroborated evidence. */
  function FlooredWithout(e: Engine, i: Inputs): real {
    if AtLeast(i.market, 0.65) && AtLeast(i.coordination, 0.65)
    then Larger(Adjusted(e, i), e.thresholds.watch) else Adjusted(e, i)
  }

  /**
   * A matched threat context lowers the score exactly when the score before it is under HIGH, the market
   * evidence lets it past the ceiling just under HIGH, and, floored, it is past it.
   */
  lemma MatchedLowersIff(e: Engine, i: Inputs)
    requires e.cap >= 0.0 && ThreatInRange(i.threat) && i.threat.status == Matched && e.thresholds.high <= 1.0
    ensures FusionScore(e, i) < FusionScore(e, Without(i)) <==>
            Adjusted(e, i) < e.thresholds.high && AtLeast(i.market, 0.35) && FlooredWithout(e, i) > Ceiling(e)
  {
    MatchedScore(e, i);
    SameWithout(e, i);
    hide Adjusted, Uplift;
  }

  const DEFAULTS := Engine(Weights(0.40, 0.10, 0.18, 0.10, 0.12, 0.10), Thresholds(0.35, 0.60, 0.80), None, 0.10)

  /** A score of 0.595 that full-strength threat intelligence brings down to 0.59. */
  lemma {:induction false} MatchedCanLower()
    ensures var threat := Threat(Matched, Some(1.0), Some(1.0));
            var i := Inputs(Some(0.595), None, None, None, None, None, None, threat, 0.0, 1.0);
            FusionScore(DEFAULTS, Without(i)) == 0.595 && FusionScore(DEFAULTS, i) == 0.59
  {
    var i := Inputs(Some(0.595), None, None, None, None, None, None, Threat(Matched, Some(1.0), Some(1.0)), 0.0, 1.0);
    assert Adjusted(DEFAULTS, i) == 0.595 by {
      WeighingOnlyMarket(DEFAULTS, i);
      hide Weighted;
      assert Discount(i) == 1.0;
    }
    MatchedAtCeiling(DEFAULTS, i);
  }

  lemma MatchedAtCeiling(e: Engine, i: Inputs)
    requires e.cap >= 0.0 && ThreatInRange(i.threat) && i.threat.status == Matched && e.thresholds.high <= 1.0
    requires AtLeast(i.market, 0.35) && i.coordination.None? && Ceiling(e) < Adjusted(e, i) < e.thresholds.high
    ensures FusionScore(e, Without(i)) == Adjusted(e, i) && FusionScore(e, i) == Ceiling(e)
  {
    hide Adjusted, Uplift;
    SameWithout(e, i);
    UpliftInRange(e, i);
  }

  lemma WeighingOnlyMarket(e: Engine, i: Inputs)
    requires i.market.Some? && e.weights.market > 0.0
    requires i.social.None? && i.coordination.None? && i.temporal.None? && i.claim.None? && i.graph.None?
    ensures Weighted(e, i) == i.market.value
  {
    OnlyMarket(e.weights, i, 6);
    assert COMPONENTS[..6] == COMPONENTS;
    var w, x := e.weights.market, i.market.value;
    assert w * x / w == x;
  }

  lemma {:induction false} OnlyMarket(w: Weights, i: Inputs, n: nat)
    requires n <= |COMPONENTS| && i.market.Some?
    requires i.social.None? && i.coordination.None? && i.temporal.None? && i.claim.None? && i.graph.None?
    ensures WeightedSum(w, i, COMPONENTS[..n]) == if n == 0 then 0.0 else w.market * i.market.value
    ensures AvailableWeight(w, i, COMPONENTS[..n]) == if n == 0 then 0.0 else w.market
  {
    if n > 0 {
      OnlyMarket(w, i, n - 1);
      assert COMPONENTS[..n][..n - 1] == COMPONENTS[..n - 1];
    }
  }

  // ---------------------------------------------------------------- range, and superseding

  /** The score is a proper one unless the ceiling under HIGH is below zero. */
  lemma {:induction false} ScoreInRange(e: Engine, i: Inputs)
    requires 0.01 <= e.thresholds.high <= 1.0 && 0.0 <= e.thresholds.watch <= 1.0 && e.cap >= 0.0
            && ThreatInRange(i.threat)
    ensures 0.0 <= FusionScore(e, i) <= 1.0 && 0.0 <= Confidence(i) <= 1.0
    ensures !AtLeast(i.market, 0.35) ==> FusionScore(e, i) < e.thresholds.high
  {
    hide Adjusted, Uplift;
    CalibratedInRange(e, i);
    UpliftInRange(e, i);
  }

  /** Missing or weak market evidence keeps the severity under HIGH, whatever everything else says. */
  lemma MarketEvidenceIsNeeded(e: Engine, i: Inputs)
    requires Ordered(e.thresholds)
    ensures HighOrAbove(Severity(e, i)) ==> AtLeast(i.market, 0.35)
    ensures Severity(e, i) == Critical ==> AtLeast(i.market, 0.65) && Corroborated(i) && Confidence(i) >= 0.4
  {
    hide Floored, Adjusted, Confidence, Corroborated;
    HighMeansScore(e, i);
  }

  predicate Provides(few: Inputs, more: Inputs) {
    && (few.graph.Some? ==> more.graph.Some?)
    && (few.claim.Some? || few.legitimate.Some? ==> more.claim.Some? || more.legitimate.Some?)
  }

  /**
   * Scoring the same window revision again with enrichment it lacked comes later in the order in which
   * campaigns apply evidence, and scoring it with no more never does.
   */
  lemma EnrichmentSupersedes(few: Inputs, more: Inputs, cutoff: int, revision: int)
    requires Provides(few, more)
    ensures var a := Order(cutoff, revision, ProfileOf(few).1, Priority(ProfileOf(few).0));
            var b := Order(cutoff, revision, ProfileOf(more).1, Priority(ProfileOf(more).0));
            OrderLe(a, b) && (OrderLe(b, a) <==> Provides(more, few))
  {
  }
}
