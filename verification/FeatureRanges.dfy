/** What the features of a window mean, and the ranges they keep to. */
module FeatureRanges {
  import opened Wrappers
  import opened FeatureSignals

  // ---------------------------------------------------------------- concentration

  /** The count is that of a most frequent value. */
  lemma {:induction false} MaxCountIsHighest(among: seq<string>, values: seq<string>)
    ensures forall v :: v in among ==> multiset(values)[v] <= MaxCount(among, values)
    ensures among != [] ==> exists v :: v in among && multiset(values)[v] == MaxCount(among, values)
  {
    if among != [] {
      MaxCountIsHighest(among[1..], values);
      assert among == [among[0]] + among[1..];
      assert among[0] in among;
    }
  }

  lemma {:induction false} CountOf(values: seq<string>, v: string)
    ensures multiset(values)[v] <= |values|
    ensures multiset(values)[v] == |values| <==> forall w :: w in values ==> w == v
  {
    if values != [] {
      var first, rest := values[0], values[1..];
      assert values == [first] + rest;
      CountOf(rest, v);
      assert multiset(values)[v] == (if first == v then 1 else 0) + multiset(rest)[v];
      if multiset(values)[v] == |values| {
        forall w | w in values ensures w == v {
          assert w == first || w in rest;
        }
      }
      if forall w :: w in values ==> w == v {
        assert first in values;
        assert forall w :: w in rest ==> w in values;
      }
    }
  }

  lemma QuotientInRange(x: real, y: real)
    requires 0.0 <= x <= y && y > 0.0
    ensures 0.0 <= x / y <= 1.0 && (x / y == 1.0 <==> x == y)
  {
  }

  /** The concentration is the share of a most frequent value: 1 exactly when all values are the same. */
  lemma ConcentrationIsAShare(values: seq<string>)
    ensures 0.0 <= Concentration(values) <= 1.0
    ensures values != [] ==>
            exists v :: v in values && Concentration(values) == multiset(values)[v] as real / |values| as real
    ensures forall v :: v in values ==> multiset(values)[v] as real / |values| as real <= Concentration(values)
    ensures Concentration(values) == 1.0 <==> values != [] && forall v, w :: v in values && w in values ==> v == w
  {
    if values != [] {
      MaxCountIsHighest(values, values);
      var n := |values| as real;
      var top :| top in values && multiset(values)[top] == MaxCount(values, values);
      CountOf(values, top);
      QuotientInRange(MaxCount(values, values) as real, n);
      forall v | v in values ensures multiset(values)[v] as real / n <= Concentration(values) {
        QuotientGrows(multiset(values)[v] as real, MaxCount(values, values) as real, n);
      }
      if forall v, w :: v in values && w in values ==> v == w {
        assert forall w :: w in values ==> w == top;
      }
    }
  }

  lemma QuotientGrows(x: real, y: real, d: real)
    requires x <= y && d > 0.0
    ensures x / d <= y / d
  {
  }

  // ---------------------------------------------------------------- pressure

  /**
   * Pressure weighs buys against sells: antisymmetric, within [-1, 1], and at an end exactly when one
   * side is absent.
   */
  lemma PressureIsBalanced(buys: real, sells: real)
    requires buys >= 0.0 && sells >= 0.0
    ensures -1.0 <= Pressure(buys, sells) <= 1.0
    ensures Pressure(sells, buys) == -Pressure(buys, sells)
    ensures Pressure(buys, sells) == 1.0 <==> buys > 0.0 && sells == 0.0
    ensures Pressure(buys, sells) > 0.0 <==> buys > sells
  {
    var total := buys + sells;
    if total != 0.0 {
      var share := buys / total;
      QuotientInRange(buys, total);
      PressureIsShare(buys, sells);
      PressureIsShare(sells, buys);
      QuotientInRange(sells, total);
      assert share + sells / total == 1.0 by {
        assert (buys + sells) / total == buys / total + sells / total;
        assert total / total == 1.0;
      }
      HalfShare(buys, total);
    }
  }

  lemma PressureIsShare(x: real, y: real)
    requires x + y > 0.0
    ensures (x - y) / (x + y) == 2.0 * (x / (x + y)) - 1.0
  {
    var total := x + y;
    assert (x - y) / total == (2.0 * x - total) / total;
    assert (2.0 * x - total) / total == (2.0 * x) / total - total / total;
    assert (2.0 * x) / total == 2.0 * (x / total);
    assert total / total == 1.0;
  }

  lemma HalfShare(x: real, total: real)
    requires total > 0.0
    ensures x / total > 0.5 <==> x > total - x
  {
    var share := x / total;
    assert x == share * total;
    if share > 0.5 {
      assert (share - 0.5) * total > 0.0;
    } else {
      assert (0.5 - share) * total >= 0.0;
    }
  }

  // ---------------------------------------------------------------- all features of a window

  lemma {:induction false} QuantitiesArePositive(events: seq<Signal>, side: string)
    requires forall e :: e in events ==> e.values.quantity.GetOr(0.0) >= 0.0
    ensures QuantityOn(events, side) >= 0.0
  {
    if events != [] {
      assert events[0] in events && forall e :: e in events[1..] ==> e in events;
      QuantitiesArePositive(events[1..], side);
    }
  }

  lemma {:induction false} RepostsAreSome(social: seq<Signal>)
    ensures RepostsAndReplies(social) <= |social|
  {
    if social != [] {
      RepostsAreSome(social[1..]);
    }
  }

  lemma RatioInRange(part: nat, whole: nat)
    requires part <= whole && whole > 0
    ensures 0.0 <= part as real / whole as real <= 1.0
  {
    QuotientInRange(part as real, whole as real);
  }

  lemma FewerNewcomers(distinct: set<string>, newcomers: set<string>)
    ensures |distinct * newcomers| <= |distinct|
  {
    assert distinct == distinct * newcomers + (distinct - newcomers);
  }

  ghost predicate SocialInRange(r: RawFeatures) {
    && 0.0 <= r.authorConcentration <= 1.0 && 0.0 <= r.urlConcentration <= 1.0
    && 0.0 <= r.newAuthorRatio <= 1.0 && 0.0 <= r.repostReplyRatio <= 1.0
  }

  ghost predicate MarketInRange(r: RawFeatures) {
    && -1.0 <= r.pressure <= 1.0 && r.marketFreshness >= 0.0
    && (r.socialFreshness.Some? ==> r.socialFreshness.value >= 0.0)
    && 0.0 <= r.baselineConfidence <= 1.0
  }

  lemma SecondsArePositive(x: int)
    requires x >= 0
    ensures Seconds(x) >= 0.0
  {
  }

  lemma SocialFeaturesKeepRange(key: Key, inputs: Inputs)
    ensures SocialInRange(Raw(key, inputs))
  {
    var social := OfKind(inputs.events, SocialPost);
    var authors := Authors(social);
    var distinct := set a | a in authors;
    ConcentrationIsAShare(authors);
    ConcentrationIsAShare(Urls(social));
    FewerNewcomers(distinct, inputs.newcomers);
    if distinct != {} {
      RatioInRange(|distinct * inputs.newcomers|, |distinct|);
    }
    RepostsAreSome(social);
    if social != [] {
      RatioInRange(RepostsAndReplies(social), |social|);
    }
  }

  lemma MarketFeaturesKeepRange(key: Key, inputs: Inputs)
    requires key.interval >= 0 && forall e :: e in inputs.events ==> e.values.quantity.GetOr(0.0) >= 0.0
    ensures MarketInRange(Raw(key, inputs))
  {
    hide Variance, RelativeVolume, Concentration, MaxReal, PriceReturn, MeanOrNone, RawVolume, Truncate;
    QuantitiesArePositive(inputs.events, "BUY");
    QuantitiesArePositive(inputs.events, "SELL");
    PressureIsBalanced(QuantityOn(inputs.events, "BUY"), QuantityOn(inputs.events, "SELL"));
    hide Pressure, QuantityOn;
    var market := Times(OfKind(inputs.events, MarketTrade) + OfKind(inputs.events, MarketCandle)
                        + OfKind(inputs.events, OrderBook));
    var social := Times(OfKind(inputs.events, SocialPost) + OfKind(inputs.events, AssetMention));
    if market != [] {
      SecondsArePositive(NonNegative(End(key) - MaxInt(market)));
    }
    if social != [] {
      SecondsArePositive(NonNegative(End(key) - MaxInt(social)));
    }
  }

  /** The data quality score is within [0, 1], and full exactly for fresh, undegraded sources without gaps. */
  lemma QualityInRange(r: RawFeatures, market: Flags, social: Flags)
    requires MarketInRange(r) && r.sourceGapCount >= 0
    ensures 0.0 <= DataQualityScore(r, market, social) <= 1.0
    ensures DataQualityScore(r, market, social) == 1.0 <==>
            r.marketFreshness == 0.0 && r.socialFreshness.GetOr(0.0) == 0.0 && r.sourceGapCount == 0
            && !market.degraded && !social.degraded
  {
    var freshness := r.marketFreshness + r.socialFreshness.GetOr(0.0);
    QuotientGrows(0.0, freshness, 600.0);
    assert freshness / 600.0 == 0.0 <==> freshness == 0.0;
  }
}
