/** Signals, window keys and the arithmetic that turns a window's signals into features. */
module FeatureSignals {
  import opened Wrappers
  import opened Sorting

  /** Times are integers counting microseconds since the epoch. */
  const SECOND := 1_000_000

  datatype Kind = MarketTrade | MarketCandle | OrderBook | SocialPost | AssetMention | DataQuality

  datatype Domain = Market | Social

  /** The entries of a signal's `values` dictionary that the engine reads. */
  datatype Values = Values(
    price: Option<real>, quantity: Option<real>, side: Option<string>,
    close: Option<real>, volume: Option<real>, baselineVolume: Option<real>,
    bookValid: Option<bool>, spread: Option<real>, topNDepth: Option<real>, imbalance: Option<real>,
    authorId: Option<string>, urls: seq<string>, hashtags: nat, cashtags: nat, repostOrReply: bool,
    sourceActive: Option<bool>, sourceIdle: Option<bool>, sourceDegraded: Option<bool>,
    sourceGapCount: Option<real>)

  datatype Signal = Signal(
    eventId: string, scope: string, asset: string, eventTime: int,
    kind: Kind, domain: Domain, values: Values)

  datatype Key = Key(scope: string, asset: string, start: int, interval: int)

  function End(key: Key): int { key.start + key.interval * SECOND }

  /** Whole seconds since the epoch; Python's int() truncates towards zero. */
  function WholeSeconds(time: int): int {
    if time >= 0 then time / SECOND else -((-time) / SECOND)
  }

  /** The start of the window of `interval` seconds around a time; intervals are always positive. */
  function FloorWindow(time: int, interval: int): int {
    if interval > 0 then (WholeSeconds(time) - WholeSeconds(time) % interval) * SECOND else time
  }

  function KeyOf(signal: Signal, interval: int): Key {
    Key(signal.scope, signal.asset, FloorWindow(signal.eventTime, interval), interval)
  }

  predicate SameSeries(a: Key, b: Key) {
    a.scope == b.scope && a.asset == b.asset && a.interval == b.interval
  }

  predicate SignalLe(a: Signal, b: Signal) {
    a.eventTime < b.eventTime || (a.eventTime == b.eventTime && StringLe(a.eventId, b.eventId))
  }

  lemma SignalOrdering()
    ensures Ordering(SignalLe)
  {
    forall x, y ensures SignalLe(x, y) || SignalLe(y, x) {
      StringLeTotal(x.eventId, y.eventId);
    }
    forall x, y, z | SignalLe(x, y) && SignalLe(y, z) ensures SignalLe(x, z) {
      if x.eventTime == z.eventTime {
        StringLeTransitive(x.eventId, y.eventId, z.eventId);
      }
    }
  }

  lemma PositiveMultiple(d: int, n: int)
    requires n > 0 && 0 < d * n
    ensures n <= d * n
  {
    assert 0 < d;
    assert 1 * n <= d * n;
  }

  lemma {:induction false} MultiplesApart(p: int, q: int, n: int)
    requires n > 0 && q * n < p * n
    ensures q * n + n <= p * n
  {
    assert (p - q) * n == p * n - q * n;
    PositiveMultiple(p - q, n);
  }

  lemma FlooredIsMultiple(e: int, interval: int)
    requires interval > 0
    ensures e - e % interval == (e / interval) * interval
  {
  }

  /** Nothing in a window is earlier than an earlier window's start. */
  lemma EarlierStartPrecedes(time: int, other: int, interval: int)
    requires FloorWindow(other, interval) < FloorWindow(time, interval)
    ensures FloorWindow(other, interval) <= time
  {
    if interval > 0 {
      var e, f := WholeSeconds(time), WholeSeconds(other);
      FlooredIsMultiple(e, interval);
      FlooredIsMultiple(f, interval);
      MultiplesApart(e / interval, f / interval, interval);
      var floor := f - f % interval;
      assert floor <= e - 1;
      assert (e - 1) * SECOND <= time;
    }
  }

  // ---------------------------------------------------------------- arithmetic on lists

  function Sum(xs: seq<real>): real {
    if xs == [] then 0.0 else xs[0] + Sum(xs[1..])
  }

  function Mean(xs: seq<real>): real
    requires xs != []
  {
    Sum(xs) / |xs| as real
  }

  function MeanOrNone(xs: seq<real>): Option<real> {
    if xs == [] then None else Some(Mean(xs))
  }

  function Positive(xs: seq<real>): seq<real> {
    if xs == [] then [] else (if xs[0] > 0.0 then [xs[0]] else []) + Positive(xs[1..])
  }

  function MaxInt(xs: seq<int>): int
    requires xs != []
  {
    if |xs| == 1 then xs[0] else if xs[0] >= MaxInt(xs[1..]) then xs[0] else MaxInt(xs[1..])
  }

  function MinInt(xs: seq<int>): int
    requires xs != []
  {
    if |xs| == 1 then xs[0] else if xs[0] <= MinInt(xs[1..]) then xs[0] else MinInt(xs[1..])
  }

  function MaxReal(xs: seq<real>, default: real): real {
    if xs == [] then default
    else if |xs| == 1 || xs[0] >= MaxReal(xs[1..], default) then xs[0] else MaxReal(xs[1..], default)
  }

  function Min2(x: real, y: real): real { if x <= y then x else y }
  function Max2(x: real, y: real): real { if x >= y then x else y }

  function Truncate(x: real): int {
    if x >= 0.0 then x.Floor else -((-x).Floor)
  }

  /** The largest number of times one of `among` occurs in `values`. */
  function MaxCount(among: seq<string>, values: seq<string>): nat {
    if among == [] then 0
    else
      var here, rest := multiset(values)[among[0]], MaxCount(among[1..], values);
      if here >= rest then here else rest
  }

  function Concentration(values: seq<string>): real {
    if values == [] then 0.0 else MaxCount(values, values) as real / |values| as real
  }

  function Seconds(micros: int): real { micros as real / SECOND as real }

  // ---------------------------------------------------------------- projections of a window

  function OfKind(events: seq<Signal>, kind: Kind): seq<Signal> {
    if events == [] then []
    else (if events[0].kind == kind then [events[0]] else []) + OfKind(events[1..], kind)
  }

  function ValidBooks(events: seq<Signal>): seq<Signal> {
    if events == [] then []
    else
      (if events[0].kind == OrderBook && events[0].values.bookValid.GetOr(true) then [events[0]] else [])
      + ValidBooks(events[1..])
  }

  function Read(events: seq<Signal>, entry: Values -> Option<real>): seq<real> {
    seq(|events|, i requires 0 <= i < |events| => entry(events[i].values).GetOr(0.0))
  }

  function Times(events: seq<Signal>): seq<int> {
    seq(|events|, i requires 0 <= i < |events| => events[i].eventTime)
  }

  /** What one signal adds to its window's traded volume; a missing price counts as 1. */
  function Traded(e: Signal): real {
    if e.kind == MarketTrade then e.values.quantity.GetOr(0.0) * e.values.price.GetOr(1.0) else 0.0
  }

  function CandleVolume(e: Signal): real {
    if e.kind == MarketCandle then e.values.volume.GetOr(0.0) else 0.0
  }

  function TotalTraded(events: seq<Signal>): real {
    if events == [] then 0.0 else Traded(events[0]) + TotalTraded(events[1..])
  }

  function TotalCandles(events: seq<Signal>): real {
    if events == [] then 0.0 else CandleVolume(events[0]) + TotalCandles(events[1..])
  }

  function RawVolume(events: seq<Signal>): real {
    if TotalTraded(events) != 0.0 then TotalTraded(events) else TotalCandles(events)
  }

  function QuantityOn(events: seq<Signal>, side: string): real {
    if events == [] then 0.0
    else
      (if events[0].kind == MarketTrade && events[0].values.side == Some(side)
       then events[0].values.quantity.GetOr(0.0) else 0.0) + QuantityOn(events[1..], side)
  }

  function Authors(social: seq<Signal>): seq<string> {
    if social == [] then []
    else
      (if social[0].values.authorId.Some? then [social[0].values.authorId.value] else [])
      + Authors(social[1..])
  }

  function Urls(social: seq<Signal>): seq<string> {
    if social == [] then [] else social[0].values.urls + Urls(social[1..])
  }

  function RepostsAndReplies(social: seq<Signal>): nat {
    if social == [] then 0
    else (if social[0].values.repostOrReply then 1 else 0) + RepostsAndReplies(social[1..])
  }

  function Tags(social: seq<Signal>): nat {
    if social == [] then 0
    else social[0].values.hashtags + social[0].values.cashtags + Tags(social[1..])
  }

  function Returns(prices: seq<real>): seq<real> {
    if |prices| < 2 then []
    else
      (if prices[0] != 0.0 then [prices[1] / prices[0] - 1.0] else []) + Returns(prices[1..])
  }

  function Deviations(xs: seq<real>, centre: real): seq<real> {
    seq(|xs|, i requires 0 <= i < |xs| => (xs[i] - centre) * (xs[i] - centre))
  }

  function Variance(xs: seq<real>): real {
    if |xs| > 1 then Mean(Deviations(xs, Mean(xs))) else 0.0
  }

  // ---------------------------------------------------------------- features

  datatype Flags = Flags(active: bool, idle: bool, degraded: bool)

  /** What a source is taken to be before it was first heard from. */
  const UNHEARD := Flags(false, false, true)

  /** The features before the source flags are applied. */
  datatype RawFeatures = RawFeatures(
    priceReturn: real, volume: real, relativeVolume: real, volatilitySquared: real,
    spread: Option<real>, topNDepth: Option<real>, imbalance: Option<real>, orderbookValid: Option<bool>,
    tradeCount: nat, pressure: real, marketFreshness: real,
    mentionCount: nat, uniqueAuthors: nat, authorConcentration: real, repostReplyRatio: real,
    hashtagVelocity: real, urlConcentration: real, newAuthorRatio: real,
    socialFreshness: Option<real>, socialLead: Option<real>, sourceGapCount: int, baselineConfidence: real)

  datatype SocialFeatures = SocialFeatures(
    mentionCount: nat, uniqueAuthors: nat, authorConcentration: real, repostReplyRatio: real,
    hashtagVelocity: real, urlConcentration: real, newAuthorRatio: real)

  datatype Features = Features(
    priceReturn: real, volume: real, relativeVolume: real, volatilitySquared: real,
    spread: Option<real>, topNDepth: Option<real>, imbalance: Option<real>, orderbookValid: Option<bool>,
    tradeCount: nat, pressure: real, marketFreshness: real, market: Flags,
    social: Option<SocialFeatures>, socialFreshness: Option<real>, socialFlags: Flags,
    socialLead: Option<real>, sourceGapCount: int, dataQuality: real, baselineConfidence: real)

  function RelativeVolume(volume: real, events: seq<Signal>, trailing: seq<real>): real {
    var stated := Positive(Read(events, (v: Values) => v.baselineVolume));
    var past := Positive(trailing);
    var baseline := if stated != [] then Mean(stated) else if past != [] then Mean(past) else volume;
    if baseline != 0.0 then volume / baseline else 0.0
  }

  function PriceReturn(prices: seq<real>): real {
    if |prices| > 1 && prices[0] != 0.0 then prices[|prices| - 1] / prices[0] - 1.0 else 0.0
  }

  function Prices(trades: seq<Signal>, candles: seq<Signal>): seq<real> {
    if trades != [] then Read(trades, (v: Values) => v.price) else Read(candles, (v: Values) => v.close)
  }

  function Pressure(buys: real, sells: real): real {
    if buys + sells != 0.0 then (buys - sells) / (buys + sells) else 0.0
  }

  function NonNegative(x: int): int { if x >= 0 then x else 0 }

  /**
   * What a window's features are computed from: its sorted signals, the volumes of up to twenty
   * earlier windows, the authors first seen no earlier than the window, and the number of earlier windows.
   */
  datatype Inputs = Inputs(events: seq<Signal>, trailing: seq<real>, newcomers: set<string>, earlier: nat)

  function Raw(key: Key, inputs: Inputs): RawFeatures {
    var events := inputs.events;
    var trades, candles := OfKind(events, MarketTrade), OfKind(events, MarketCandle);
    var books, valid := OfKind(events, OrderBook), ValidBooks(events);
    var social, mentions := OfKind(events, SocialPost), OfKind(events, AssetMention);
    var prices := Prices(trades, candles);
    var volume := RawVolume(events);
    var authors := Authors(social);
    var distinct := set a | a in authors;
    var marketTimes := Times(trades + candles + books);
    var socialTimes := Times(social + mentions);
    var seconds := key.interval as real;
    RawFeatures(
      PriceReturn(prices), volume, RelativeVolume(volume, events, inputs.trailing), Variance(Returns(prices)),
      MeanOrNone(Read(valid, (v: Values) => v.spread)),
      MeanOrNone(Read(valid, (v: Values) => v.topNDepth)),
      MeanOrNone(Read(valid, (v: Values) => v.imbalance)),
      if books != [] then Some(valid != []) else None,
      |trades|, Pressure(QuantityOn(events, "BUY"), QuantityOn(events, "SELL")),
      if marketTimes != [] then Seconds(NonNegative(End(key) - MaxInt(marketTimes))) else seconds,
      |mentions|, |distinct|, Concentration(authors),
      if social != [] then RepostsAndReplies(social) as real / |social| as real else 0.0,
      Tags(social) as real / Max2(1.0, seconds / 60.0),
      Concentration(Urls(social)),
      if distinct != {} then |distinct * inputs.newcomers| as real / |distinct| as real else 0.0,
      if socialTimes != [] then Some(Seconds(NonNegative(End(key) - MaxInt(socialTimes)))) else None,
      if marketTimes != [] && socialTimes != []
      then Some(Seconds(MinInt(marketTimes) - MinInt(socialTimes))) else None,
      Truncate(MaxReal(Read(OfKind(events, DataQuality), (v: Values) => v.sourceGapCount), 0.0)),
      Min2(1.0, inputs.earlier as real / 20.0))
  }

  function DataQualityScore(raw: RawFeatures, market: Flags, social: Flags): real {
    var freshness := raw.marketFreshness + raw.socialFreshness.GetOr(0.0);
    var degraded := (if market.degraded then 1.0 else 0.0) + (if social.degraded then 1.0 else 0.0);
    Max2(0.0, 1.0 - Min2(1.0, freshness / 600.0) - 0.25 * degraded
              - Min2(0.5, raw.sourceGapCount as real * 0.1))
  }

  /** Applies the source flags: social features are withheld unless the social source is usable. */
  function Mask(raw: RawFeatures, market: Flags, social: Flags): Features {
    Features(
      raw.priceReturn, raw.volume, raw.relativeVolume, raw.volatilitySquared,
      raw.spread, raw.topNDepth, raw.imbalance, raw.orderbookValid,
      raw.tradeCount, raw.pressure, raw.marketFreshness, market,
      if social.active && !social.degraded
      then Some(SocialFeatures(
                  raw.mentionCount, raw.uniqueAuthors, raw.authorConcentration, raw.repostReplyRatio,
                  raw.hashtagVelocity, raw.urlConcentration, raw.newAuthorRatio))
      else None,
      raw.socialFreshness, social, raw.socialLead, raw.sourceGapCount,
      DataQualityScore(raw, market, social), raw.baselineConfidence)
  }

  // ---------------------------------------------------------------- volume ignores arrival order

  lemma {:induction false} TotalsSplit(xs: seq<Signal>, ys: seq<Signal>)
    ensures TotalTraded(xs + ys) == TotalTraded(xs) + TotalTraded(ys)
    ensures TotalCandles(xs + ys) == TotalCandles(xs) + TotalCandles(ys)
  {
    if xs == [] {
      assert xs + ys == ys;
    } else {
      assert (xs + ys)[1..] == xs[1..] + ys;
      TotalsSplit(xs[1..], ys);
    }
  }

  lemma WithoutOne<T>(ys: seq<T>, i: nat)
    requires i < |ys|
    ensures multiset(ys[..i] + ys[i + 1..]) == multiset(ys) - multiset{ys[i]}
  {
    assert ys == ys[..i] + ([ys[i]] + ys[i + 1..]);
  }

  lemma TotalsWithoutOne(ys: seq<Signal>, i: nat)
    requires i < |ys|
    ensures TotalTraded(ys) == Traded(ys[i]) + TotalTraded(ys[..i] + ys[i + 1..])
    ensures TotalCandles(ys) == CandleVolume(ys[i]) + TotalCandles(ys[..i] + ys[i + 1..])
  {
    TotalsSplit(ys[..i], ys[i..]);
    TotalsSplit(ys[..i], ys[i + 1..]);
    assert ys == ys[..i] + ys[i..];
  }

  lemma Elsewhere<T>(xs: seq<T>, ys: seq<T>) returns (i: nat)
    requires xs != [] && multiset(xs) == multiset(ys)
    ensures i < |ys| && ys[i] == xs[0]
    ensures multiset(xs[1..]) == multiset(ys[..i] + ys[i + 1..])
  {
    assert xs[0] in multiset(ys);
    i :| 0 <= i < |ys| && ys[i] == xs[0];
    WithoutOne(ys, i);
    assert xs == [xs[0]] + xs[1..];
  }

  lemma {:induction false} TotalsIgnoreArrival(xs: seq<Signal>, ys: seq<Signal>)
    requires multiset(xs) == multiset(ys)
    ensures TotalTraded(xs) == TotalTraded(ys) && TotalCandles(xs) == TotalCandles(ys)
  {
    assert |xs| == |multiset(xs)| == |multiset(ys)| == |ys|;
    if xs != [] {
      var i := Elsewhere(xs, ys);
      var rest := ys[..i] + ys[i + 1..];
      TotalsIgnoreArrival(xs[1..], rest);
      TotalsWithoutOne(ys, i);
    }
  }

  lemma VolumeIgnoresArrival(xs: seq<Signal>, ys: seq<Signal>)
    requires multiset(xs) == multiset(ys)
    ensures RawVolume(xs) == RawVolume(ys)
  {
    TotalsIgnoreArrival(xs, ys);
  }
}
