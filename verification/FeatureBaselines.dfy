/** Windows, relative volume, volatility and the quality score, by laws that determine them. */
module FeatureBaselines {
  import opened Wrappers
  import opened FeatureSignals

  // ---------------------------------------------------------------- windows

  /** A time before the epoch, off a whole second, in the last second before a multiple of the interval. */
  predicate SlipsOut(time: int, interval: int)
    requires interval > 0
  {
    time < 0 && time % SECOND != 0 && WholeSeconds(time) % interval == 0
  }

  lemma WholeSecondsBound(time: int)
    ensures time >= 0 ==> WholeSeconds(time) * SECOND <= time < (WholeSeconds(time) + 1) * SECOND
    ensures time < 0 ==> (WholeSeconds(time) - 1) * SECOND < time <= WholeSeconds(time) * SECOND
    ensures time % SECOND == 0 <==> time == WholeSeconds(time) * SECOND
  {
  }

  /**
   * The window of a time starts at a multiple of the interval and holds the time, but for times before the epoch
   * that truncation towards zero takes into the next window: those, and only those, lie before their window.
   */
  lemma WindowHoldsIff(time: int, interval: int)
    requires interval > 0
    ensures var start := FloorWindow(time, interval);
            && (exists n :: start == n * interval * SECOND)
            && (start <= time < start + interval * SECOND <==> !SlipsOut(time, interval))
            && (SlipsOut(time, interval) ==> start - SECOND < time < start)
  {
    var e := WholeSeconds(time);
    var floor := e - e % interval;
    WholeSecondsBound(time);
    FlooredIsMultiple(e, interval);
    assert FloorWindow(time, interval) == (e / interval) * interval * SECOND;
    assert floor <= e < floor + interval;
    assert floor == e <==> e % interval == 0;
    hide WholeSeconds;
    if time >= 0 {
      assert floor * SECOND <= e * SECOND <= time;
      assert (e + 1) * SECOND <= (floor + interval) * SECOND;
    } else {
      assert time <= e * SECOND < (floor + interval) * SECOND;
      if e % interval != 0 {
        assert floor * SECOND <= (e - 1) * SECOND;
      }
    }
  }

  // ---------------------------------------------------------------- relative volume

  /** The sum of the positive ones, and how many they are. */
  ghost function Gains(xs: seq<real>): real {
    if xs == [] then 0.0 else (if xs[0] > 0.0 then xs[0] else 0.0) + Gains(xs[1..])
  }

  ghost function Risers(xs: seq<real>): nat {
    if xs == [] then 0 else (if xs[0] > 0.0 then 1 else 0) + Risers(xs[1..])
  }

  /** The mean of the positive stated baselines; without one, of the positive trailing volumes; else the volume. */
  ghost predicate IsBaseline(b: real, volume: real, stated: seq<real>, trailing: seq<real>) {
    if Risers(stated) > 0 then AveragesGains(b, stated)
    else if Risers(trailing) > 0 then AveragesGains(b, trailing)
    else b == volume
  }

  ghost predicate AveragesGains(b: real, xs: seq<real>) { b * Risers(xs) as real == Gains(xs) }

  ghost predicate IsRatio(ratio: real, x: real, base: real) {
    if base == 0.0 then ratio == 0.0 else ratio * base == x
  }

  lemma {:induction false} PositiveOnes(xs: seq<real>)
    ensures |Positive(xs)| == Risers(xs) && Sum(Positive(xs)) == Gains(xs)
  {
    if xs != [] {
      PositiveOnes(xs[1..]);
      if xs[0] > 0.0 {
        assert ([xs[0]] + Positive(xs[1..]))[1..] == Positive(xs[1..]);
      } else {
        assert [] + Positive(xs[1..]) == Positive(xs[1..]);
      }
    }
  }

  lemma MeanTimes(xs: seq<real>)
    requires xs != []
    ensures Mean(xs) * |xs| as real == Sum(xs)
  {
    hide Sum;
  }

  lemma MeanOfPositive(xs: seq<real>)
    ensures Positive(xs) != [] <==> Risers(xs) > 0
    ensures Positive(xs) != [] ==> AveragesGains(Mean(Positive(xs)), xs)
  {
    PositiveOnes(xs);
    hide Sum, Positive, Gains, Risers;
    if Positive(xs) != [] {
      MeanTimes(Positive(xs));
    }
  }

  /** The relative volume times the baseline is the volume; it is zero over a baseline of zero. */
  lemma RelativeVolumeIs(volume: real, events: seq<Signal>, trailing: seq<real>) returns (b: real)
    ensures IsBaseline(b, volume, Read(events, (v: Values) => v.baselineVolume), trailing)
    ensures IsRatio(RelativeVolume(volume, events, trailing), volume, b)
  {
    var all := Read(events, (v: Values) => v.baselineVolume);
    var stated, past := Positive(all), Positive(trailing);
    MeanOfPositive(all);
    MeanOfPositive(trailing);
    b := if stated != [] then Mean(stated) else if past != [] then Mean(past) else volume;
    assert RelativeVolume(volume, events, trailing) == if b != 0.0 then volume / b else 0.0;
    hide Mean, Positive, AveragesGains, Risers, Read, RelativeVolume, IsRatio;
    RatioIs(volume, b);
  }

  lemma RatioIs(x: real, base: real)
    ensures IsRatio(if base != 0.0 then x / base else 0.0, x, base)
  {
    if base != 0.0 {
      DivideBack(x, base);
    }
  }

  lemma DivideBack(x: real, y: real)
    requires y != 0.0
    ensures x / y * y == x
  {
  }

  lemma VolumesAreRelative(key: Key, inputs: Inputs) returns (b: real)
    ensures var r := Raw(key, inputs);
            && IsBaseline(b, r.volume, Read(inputs.events, (v: Values) => v.baselineVolume), inputs.trailing)
            && IsRatio(r.relativeVolume, r.volume, b)
  {
    b := RelativeVolumeIs(RawVolume(inputs.events), inputs.events, inputs.trailing);
    hide OfKind, ValidBooks, RelativeVolume, Variance, Concentration, QuantityOn, Pressure, MeanOrNone, PriceReturn;
    hide IsBaseline, RawVolume, Read, Authors, Urls, Times, MaxReal, Tags, Prices, Returns;
  }

  // ---------------------------------------------------------------- volatility

  ghost function Product(x: real, y: real): real { x * y }

  ghost function SumOfSquares(xs: seq<real>): real {
    if xs == [] then 0.0 else Product(xs[0], xs[0]) + SumOfSquares(xs[1..])
  }

  /** The squared deviations from m of n values with sum s and squares q sum up to d. */
  ghost predicate Expands(d: real, n: real, m: real, s: real, q: real) {
    d == q - 2.0 * Product(m, s) + Product(n, Product(m, m))
  }

  lemma ExpandsOneMore(x: real, d: real, n: real, m: real, s: real, q: real)
    requires Expands(d, n, m, s, q)
    ensures Expands(Product(x - m, x - m) + d, n + 1.0, m, x + s, Product(x, x) + q)
  {
    assert (x - m) * (x - m) == x * x - 2.0 * (m * x) + m * m;
    assert m * (x + s) == m * x + m * s;
    assert (n + 1.0) * (m * m) == n * (m * m) + m * m;
  }

  lemma DeviationsStep(xs: seq<real>, m: real)
    requires xs != []
    ensures Deviations(xs, m)[1..] == Deviations(xs[1..], m) && Deviations(xs, m)[0] == Product(xs[0] - m, xs[0] - m)
  {
    forall i | 0 <= i < |xs| - 1 ensures Deviations(xs, m)[1..][i] == Deviations(xs[1..], m)[i] {
      assert xs[1..][i] == xs[i + 1];
    }
  }

  lemma {:induction false} DeviationsExpand(xs: seq<real>, m: real)
    ensures Expands(Sum(Deviations(xs, m)), |xs| as real, m, Sum(xs), SumOfSquares(xs))
  {
    if xs == [] {
      assert Product(m, 0.0) == 0.0 && Product(0.0, Product(m, m)) == 0.0;
    } else {
      var rest := xs[1..];
      DeviationsExpand(rest, m);
      DeviationsStep(xs, m);
      hide Deviations, Expands, Product;
      assert |Deviations(xs, m)| == |xs| by { SameLength(xs, m); }
      assert Sum(Deviations(xs, m)) == Product(xs[0] - m, xs[0] - m) + Sum(Deviations(rest, m));
      ExpandsOneMore(xs[0], Sum(Deviations(rest, m)), |rest| as real, m, Sum(rest), SumOfSquares(rest));
      assert |xs| as real == |rest| as real + 1.0;
    }
  }

  lemma SameLength(xs: seq<real>, m: real)
    ensures |Deviations(xs, m)| == |xs|
  {
  }

  /** n squared times the variance is n times the sum of squares less the square of the sum. */
  ghost predicate IsVariance(v: real, n: real, s: real, q: real) { n * n * v == n * q - s * s }

  lemma VarianceIs(xs: seq<real>)
    ensures |xs| <= 1 ==> Variance(xs) == 0.0
    ensures |xs| > 1 ==> IsVariance(Variance(xs), |xs| as real, Sum(xs), SumOfSquares(xs))
  {
    if |xs| > 1 {
      var m := Mean(xs);
      var d := Deviations(xs, m);
      SameLength(xs, m);
      assert Variance(xs) == Mean(d);
      hide *;
      MeanIsProduct(xs);
      DeviationsExpand(xs, m);
      MeanIsProduct(d);
      Expanded(|xs| as real, m, Sum(xs), SumOfSquares(xs), Sum(d), Variance(xs));
    }
  }

  lemma MeanIsProduct(xs: seq<real>)
    requires xs != []
    ensures Product(Mean(xs), |xs| as real) == Sum(xs)
  {
    MeanTimes(xs);
    hide Mean, Sum;
  }

  lemma Expanded(n: real, m: real, s: real, q: real, d: real, v: real)
    requires Product(m, n) == s && Expands(d, n, m, s, q) && Product(v, n) == d
    ensures IsVariance(v, n, s, q)
  {
    assert n * (m * m) == m * s;
    assert d == q - m * s;
    assert n * n * v == n * d;
    assert n * (m * s) == s * s;
    assert n * (q - m * s) == n * q - n * (m * s);
  }

  /** A further price adds the change from the price before it, unless that was zero. */
  ghost predicate AddsChange(changes: seq<real>, more: seq<real>, before: real, last: real) {
    if before == 0.0 then more == changes
    else |more| == |changes| + 1 && more[..|changes|] == changes && before * (1.0 + more[|changes|]) == last
  }

  lemma ReturnsStep(prices: seq<real>)
    requires |prices| >= 2
    ensures Returns(prices)
            == (if prices[0] != 0.0 then [prices[1] / prices[0] - 1.0] else []) + Returns(prices[1..])
  {
  }

  lemma {:induction false} ReturnsOneMore(prices: seq<real>, before: real, last: real)
    ensures AddsChange(Returns(prices + [before]), Returns(prices + [before, last]), before, last)
  {
    var some, all := prices + [before], prices + [before, last];
    ReturnsStep(all);
    if prices == [] {
      assert some == [before] && all == [before, last] && all[1..] == [last];
      assert Returns(some) == [] && Returns([last]) == [];
      hide Returns;
      if before != 0.0 {
        DivideBack(last, before);
      }
    } else {
      ReturnsStep(some);
      assert some[1..] == prices[1..] + [before] && all[1..] == prices[1..] + [before, last];
      assert some[0] == all[0] && some[1] == all[1];
      ReturnsOneMore(prices[1..], before, last);
      hide Returns;
      var head := if some[0] != 0.0 then [some[1] / some[0] - 1.0] else [];
      Prefixed(head, Returns(some[1..]), Returns(all[1..]), before, last);
    }
  }

  lemma Prefixed(head: seq<real>, changes: seq<real>, more: seq<real>, before: real, last: real)
    requires AddsChange(changes, more, before, last)
    ensures AddsChange(head + changes, head + more, before, last)
  {
    if before != 0.0 {
      assert (head + more)[..|head + changes|] == head + changes;
      assert (head + more)[|head + changes|] == more[|changes|];
    }
  }

  // ---------------------------------------------------------------- the quality score

  function AtLeastZero(x: real): real { if x >= 0.0 then x else 0.0 }

  /** What is missing to full quality costs the same wherever it is missing from, until the score is used up. */
  lemma QualityCosts(r: RawFeatures, market: Flags, social: Flags)
    ensures var q := DataQualityScore(r, market.(degraded := false), social);
            DataQualityScore(r, market.(degraded := true), social) == AtLeastZero(q - 0.25)
    ensures var q := DataQualityScore(r, market, social.(degraded := false));
            DataQualityScore(r, market, social.(degraded := true)) == AtLeastZero(q - 0.25)
    ensures var more := r.(sourceGapCount := r.sourceGapCount + 1);
            DataQualityScore(more, market, social)
            == if r.sourceGapCount < 5 then AtLeastZero(DataQualityScore(r, market, social) - 0.1)
               else DataQualityScore(r, market, social)
  {
  }

  /** A minute staler costs a tenth, up to ten minutes in all, and it does not matter of which source. */
  lemma StalenessCosts(r: RawFeatures, market: Flags, social: Flags, minutes: real)
    requires minutes >= 0.0
    ensures var stale := r.marketFreshness + r.socialFreshness.GetOr(0.0);
            var q := DataQualityScore(r, market, social);
            var later := DataQualityScore(r.(marketFreshness := r.marketFreshness + 60.0 * minutes), market, social);
            && (stale + 60.0 * minutes <= 600.0 ==> later == AtLeastZero(q - minutes / 10.0))
            && (stale >= 600.0 ==> later == q)
    ensures r.socialFreshness.Some? ==>
            DataQualityScore(r.(marketFreshness := r.marketFreshness + 60.0 * minutes), market, social)
            == DataQualityScore(r.(socialFreshness := Some(r.socialFreshness.value + 60.0 * minutes)), market, social)
  {
  }
}
