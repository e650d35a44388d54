/** What each feature of a window says of its signals, by sums and counts over all of them. */
module FeatureMeanings {
  import opened Wrappers
  import opened FeatureSignals
  import FeatureRanges

  // ---------------------------------------------------------------- sums and counts over a window

  ghost function Total(events: seq<Signal>, f: Signal -> real): real {
    if events == [] then 0.0 else f(events[0]) + Total(events[1..], f)
  }

  ghost function Count(events: seq<Signal>, p: Signal -> bool): nat {
    if events == [] then 0 else (if p(events[0]) then 1 else 0) + Count(events[1..], p)
  }

  function KindIs(kind: Kind): Signal -> bool { (e: Signal) => e.kind == kind }

  /** An entry of the signals of a kind; one that is missing counts as zero. */
  function Entry(kind: Kind, entry: Values -> Option<real>): Signal -> real {
    (e: Signal) => if e.kind == kind then entry(e.values).GetOr(0.0) else 0.0
  }

  const BOOK_IS_VALID: Signal -> bool := (e: Signal) => e.kind == OrderBook && e.values.bookValid != Some(false)

  function BookEntry(entry: Values -> Option<real>): Signal -> real {
    (e: Signal) => if BOOK_IS_VALID(e) then entry(e.values).GetOr(0.0) else 0.0
  }

  const NOTIONAL: Signal -> real := (e: Signal) =>
    if e.kind == MarketTrade
    then (if e.values.quantity.Some? then e.values.quantity.value else 0.0)
         * (if e.values.price.Some? then e.values.price.value else 1.0)
    else 0.0

  function OnSide(side: string): Signal -> real {
    (e: Signal) => if e.kind == MarketTrade && e.values.side == Some(side) then e.values.quantity.GetOr(0.0) else 0.0
  }

  const REPOST: Signal -> bool := (e: Signal) => e.kind == SocialPost && e.values.repostOrReply
  const TAGS: Signal -> real := (e: Signal) =>
    if e.kind == SocialPost then (e.values.hashtags + e.values.cashtags) as real else 0.0
  const AUTHORED: Signal -> bool := (e: Signal) => e.kind == SocialPost && e.values.authorId.Some?

  function By(author: string): Signal -> bool {
    (e: Signal) => e.kind == SocialPost && e.values.authorId == Some(author)
  }

  const LINKS: Signal -> real := (e: Signal) => if e.kind == SocialPost then |e.values.urls| as real else 0.0

  function LinksTo(url: string): Signal -> real {
    (e: Signal) => if e.kind == SocialPost then multiset(e.values.urls)[url] as real else 0.0
  }

  const MARKET: Signal -> bool := (e: Signal) => e.kind in {MarketTrade, MarketCandle, OrderBook}
  const SOCIAL: Signal -> bool := (e: Signal) => e.kind in {SocialPost, AssetMention}

  // ---------------------------------------------------------------- the market

  /** The value is the mean of f over the signals that p picks, and absent without any. */
  ghost predicate IsMean(m: Option<real>, events: seq<Signal>, p: Signal -> bool, f: Signal -> real) {
    && (m.None? <==> Count(events, p) == 0)
    && (m.Some? ==> m.value * Count(events, p) as real == Total(events, f))
  }

  ghost predicate MarketTells(r: RawFeatures, events: seq<Signal>) {
    && r.tradeCount == Count(events, KindIs(MarketTrade))
    && r.volume == (if Total(events, NOTIONAL) != 0.0 then Total(events, NOTIONAL)
                    else Total(events, Entry(MarketCandle, (v: Values) => v.volume)))
    && (var buys, sells := Total(events, OnSide("BUY")), Total(events, OnSide("SELL"));
        r.pressure * (buys + sells) == (if buys + sells == 0.0 then 0.0 else buys - sells)
        && (buys + sells == 0.0 ==> r.pressure == 0.0))
  }

  ghost predicate BooksTell(r: RawFeatures, events: seq<Signal>) {
    && r.orderbookValid == (if Count(events, KindIs(OrderBook)) == 0 then None
                            else Some(Count(events, BOOK_IS_VALID) > 0))
    && IsMean(r.spread, events, BOOK_IS_VALID, BookEntry((v: Values) => v.spread))
    && IsMean(r.topNDepth, events, BOOK_IS_VALID, BookEntry((v: Values) => v.topNDepth))
    && IsMean(r.imbalance, events, BOOK_IS_VALID, BookEntry((v: Values) => v.imbalance))
  }

  lemma {:induction false} KindsCounted(events: seq<Signal>, kind: Kind)
    ensures |OfKind(events, kind)| == Count(events, KindIs(kind))
  {
    if events != [] {
      KindsCounted(events[1..], kind);
    }
  }

  lemma {:induction false} VolumesAreTotals(events: seq<Signal>)
    ensures TotalTraded(events) == Total(events, NOTIONAL)
    ensures TotalCandles(events) == Total(events, Entry(MarketCandle, (v: Values) => v.volume))
  {
    if events != [] {
      VolumesAreTotals(events[1..]);
    }
  }

  lemma {:induction false} QuantitiesAreTotals(events: seq<Signal>, side: string)
    ensures QuantityOn(events, side) == Total(events, OnSide(side))
  {
    if events != [] {
      QuantitiesAreTotals(events[1..], side);
    }
  }

  lemma ReadOneMore(first: Signal, rest: seq<Signal>, entry: Values -> Option<real>)
    ensures Sum(Read([first] + rest, entry)) == entry(first.values).GetOr(0.0) + Sum(Read(rest, entry))
  {
    var all := Read([first] + rest, entry);
    assert all[1..] == Read(rest, entry);
  }

  lemma {:induction false} BooksAreTotals(events: seq<Signal>, entry: Values -> Option<real>)
    ensures |ValidBooks(events)| == Count(events, BOOK_IS_VALID)
    ensures Sum(Read(ValidBooks(events), entry)) == Total(events, BookEntry(entry))
  {
    if events != [] {
      BooksAreTotals(events[1..], entry);
      ReadOneMore(events[0], ValidBooks(events[1..]), entry);
      assert [] + ValidBooks(events[1..]) == ValidBooks(events[1..]);
    }
  }

  lemma MeanOfBooks(events: seq<Signal>, entry: Values -> Option<real>)
    ensures IsMean(MeanOrNone(Read(ValidBooks(events), entry)), events, BOOK_IS_VALID, BookEntry(entry))
  {
    BooksAreTotals(events, entry);
  }

  lemma PressureBalances(buys: real, sells: real)
    ensures Pressure(buys, sells) * (buys + sells) == if buys + sells == 0.0 then 0.0 else buys - sells
    ensures buys + sells == 0.0 ==> Pressure(buys, sells) == 0.0
  {
  }

  lemma MarketIsTold(key: Key, inputs: Inputs)
    ensures MarketTells(Raw(key, inputs), inputs.events)
  {
    var events := inputs.events;
    KindsCounted(events, MarketTrade);
    VolumesAreTotals(events);
    QuantitiesAreTotals(events, "BUY");
    QuantitiesAreTotals(events, "SELL");
    PressureBalances(QuantityOn(events, "BUY"), QuantityOn(events, "SELL"));
    hide OfKind, ValidBooks, RelativeVolume, Variance, Concentration, QuantityOn, Pressure, MeanOrNone, PriceReturn;
  }

  lemma BooksAreTold(key: Key, inputs: Inputs)
    ensures BooksTell(Raw(key, inputs), inputs.events)
  {
    var events := inputs.events;
    KindsCounted(events, OrderBook);
    BooksAreTotals(events, (v: Values) => v.spread);
    MeanOfBooks(events, (v: Values) => v.spread);
    MeanOfBooks(events, (v: Values) => v.topNDepth);
    MeanOfBooks(events, (v: Values) => v.imbalance);
    hide OfKind, ValidBooks, RelativeVolume, Variance, Concentration, QuantityOn, Pressure, MeanOrNone, PriceReturn;
    hide IsMean;
  }

  // ---------------------------------------------------------------- social activity

  /** The distinct authors of a window's posts. */
  ghost function AuthorsOf(events: seq<Signal>): set<string> {
    set e | e in events && AUTHORED(e) :: e.values.authorId.value
  }

  ghost predicate IsTop(top: real, of: string -> real) {
    (exists v :: of(v) == top) && forall v :: of(v) <= top
  }

  /** The share of the most frequent of some things in the whole; zero of nothing. */
  ghost predicate IsTopShare(share: real, whole: real, of: string -> real) {
    (whole == 0.0 ==> share == 0.0) && (whole > 0.0 ==> IsTop(share * whole, of))
  }

  ghost function PostsBy(events: seq<Signal>): string -> real { (author: string) => Count(events, By(author)) as real }
  ghost function LinksIn(events: seq<Signal>): string -> real { (url: string) => Total(events, LinksTo(url)) }

  ghost predicate PostsTell(r: RawFeatures, key: Key, events: seq<Signal>) {
    && r.mentionCount == Count(events, KindIs(AssetMention))
    && r.repostReplyRatio * Count(events, KindIs(SocialPost)) as real == Count(events, REPOST) as real
    && (Count(events, KindIs(SocialPost)) == 0 ==> r.repostReplyRatio == 0.0)
    && r.hashtagVelocity * (if key.interval >= 60 then key.interval as real / 60.0 else 1.0) == Total(events, TAGS)
  }

  ghost predicate AuthorsTell(r: RawFeatures, inputs: Inputs) {
    var authors := AuthorsOf(inputs.events);
    && r.uniqueAuthors == |authors| && r.newAuthorRatio * |authors| as real == |authors * inputs.newcomers| as real
    && (authors == {} ==> r.newAuthorRatio == 0.0)
  }

  ghost predicate SharesTell(r: RawFeatures, events: seq<Signal>) {
    && IsTopShare(r.authorConcentration, Count(events, AUTHORED) as real, PostsBy(events))
    && IsTopShare(r.urlConcentration, Total(events, LINKS), LinksIn(events))
  }

  lemma {:induction false} PostsAreTotals(events: seq<Signal>)
    ensures RepostsAndReplies(OfKind(events, SocialPost)) == Count(events, REPOST)
    ensures Tags(OfKind(events, SocialPost)) as real == Total(events, TAGS)
    ensures forall a :: a in Authors(OfKind(events, SocialPost)) <==> a in AuthorsOf(events)
    ensures |Authors(OfKind(events, SocialPost))| == Count(events, AUTHORED)
    ensures |Urls(OfKind(events, SocialPost))| as real == Total(events, LINKS)
  {
    if events != [] {
      PostsAreTotals(events[1..]);
      var e := events[0];
      assert events == [e] + events[1..];
      if e.kind == SocialPost {
        assert ([e] + OfKind(events[1..], SocialPost))[1..] == OfKind(events[1..], SocialPost);
      } else {
        assert OfKind(events, SocialPost) == OfKind(events[1..], SocialPost);
      }
    }
  }

  lemma {:induction false} FrequenciesAreTotals(events: seq<Signal>, v: string)
    ensures multiset(Authors(OfKind(events, SocialPost)))[v] == Count(events, By(v))
    ensures multiset(Urls(OfKind(events, SocialPost)))[v] as real == Total(events, LinksTo(v))
  {
    if events != [] {
      FrequenciesAreTotals(events[1..], v);
      var e := events[0];
      if e.kind == SocialPost {
        assert ([e] + OfKind(events[1..], SocialPost))[1..] == OfKind(events[1..], SocialPost);
      } else {
        assert OfKind(events, SocialPost) == OfKind(events[1..], SocialPost);
      }
    }
  }

  lemma ConcentrationCounts(values: seq<string>)
    ensures Concentration(values) * |values| as real == MaxCount(values, values) as real
    ensures values == [] ==> Concentration(values) == 0.0
  {
    hide MaxCount;
    if values != [] {
      Quotient(MaxCount(values, values) as real, |values| as real);
    } else {
      assert MaxCount([], []) == 0 by {
        NothingCounted();
      }
    }
  }

  lemma NothingCounted()
    ensures MaxCount([], []) == 0
  {
  }

  /** Concentration is the top share of a list's values. */
  lemma ConcentrationIsTop(values: seq<string>, of: string -> real)
    requires forall v :: of(v) == multiset(values)[v] as real
    ensures IsTopShare(Concentration(values), |values| as real, of)
  {
    ConcentrationCounts(values);
    hide Concentration, MaxCount;
    if values != [] {
      MaxCountIsTop(values, of);
    }
  }

  lemma MaxCountIsTop(values: seq<string>, of: string -> real)
    requires values != [] && forall v :: of(v) == multiset(values)[v] as real
    ensures IsTop(MaxCount(values, values) as real, of)
  {
    FeatureRanges.MaxCountIsHighest(values, values);
    hide MaxCount;
    var top :| top in values && multiset(values)[top] == MaxCount(values, values);
    assert of(top) == MaxCount(values, values) as real;
    forall v ensures of(v) <= MaxCount(values, values) as real {
      assert v in values || multiset(values)[v] == 0;
    }
  }

  lemma SharesAreTold(key: Key, inputs: Inputs)
    ensures SharesTell(Raw(key, inputs), inputs.events)
  {
    var events := inputs.events;
    var social := OfKind(events, SocialPost);
    PostsAreTotals(events);
    forall v ensures PostsBy(events)(v) == multiset(Authors(social))[v] as real
             ensures LinksIn(events)(v) == multiset(Urls(social))[v] as real {
      FrequenciesAreTotals(events, v);
    }
    ConcentrationIsTop(Authors(social), PostsBy(events));
    ConcentrationIsTop(Urls(social), LinksIn(events));
    hide OfKind, Authors, Urls, RelativeVolume, Variance, Concentration, Pressure, MeanOrNone, PriceReturn;
    hide IsTopShare, IsTop;
  }

  lemma Quotient(x: real, y: real)
    requires y != 0.0
    ensures x / y * y == x
  {
  }

  /** How the engine computes what SocialTells speaks of. */
  lemma SocialIsComputed(key: Key, inputs: Inputs)
    ensures var r, social := Raw(key, inputs), OfKind(inputs.events, SocialPost);
            var distinct := set a | a in Authors(social);
            && r.mentionCount == |OfKind(inputs.events, AssetMention)| && r.uniqueAuthors == |distinct|
            && r.repostReplyRatio
               == (if social != [] then RepostsAndReplies(social) as real / |social| as real else 0.0)
            && r.newAuthorRatio
               == (if distinct != {} then |distinct * inputs.newcomers| as real / |distinct| as real else 0.0)
            && r.hashtagVelocity == Tags(social) as real / Max2(1.0, key.interval as real / 60.0)
  {
    hide OfKind, Authors, Urls, RelativeVolume, Variance, Concentration, Pressure, MeanOrNone, PriceReturn, Tags;
    hide RawVolume, Prices, Times, Returns, ValidBooks, Truncate, MaxReal, Read, RepostsAndReplies, Max2;
  }

  lemma Ratio(part: nat, whole: nat)
    requires part <= whole
    ensures (if whole > 0 then part as real / whole as real else 0.0) * whole as real == part as real
  {
    if whole > 0 {
      Quotient(part as real, whole as real);
    }
  }

  lemma PostsAreTold(key: Key, inputs: Inputs)
    ensures PostsTell(Raw(key, inputs), key, inputs.events)
  {
    var events := inputs.events;
    var social := OfKind(events, SocialPost);
    SocialIsComputed(key, inputs);
    PostsAreTotals(events);
    KindsCounted(events, SocialPost);
    KindsCounted(events, AssetMention);
    FeatureRanges.RepostsAreSome(social);
    hide Raw, OfKind, Authors, AuthorsOf, Tags, RepostsAndReplies, Count, Total;
    Ratio(RepostsAndReplies(social), |social|);
    Quotient(Tags(social) as real, Max2(1.0, key.interval as real / 60.0));
    assert key.interval as real / 60.0 >= 1.0 <==> key.interval >= 60;
  }

  lemma AuthorsAreTold(key: Key, inputs: Inputs)
    ensures AuthorsTell(Raw(key, inputs), inputs)
  {
    SocialIsComputed(key, inputs);
    hide *;
    RatioTells(Raw(key, inputs), inputs);
  }

  lemma RatioTells(r: RawFeatures, inputs: Inputs)
    requires var distinct := set a | a in Authors(OfKind(inputs.events, SocialPost));
             && r.uniqueAuthors == |distinct|
             && r.newAuthorRatio
                == (if distinct != {} then |distinct * inputs.newcomers| as real / |distinct| as real else 0.0)
    ensures AuthorsTell(r, inputs)
  {
    var distinct := set a | a in Authors(OfKind(inputs.events, SocialPost));
    PostsAreTotals(inputs.events);
    assert distinct == AuthorsOf(inputs.events);
    hide OfKind, Authors, AuthorsOf, Tags, RepostsAndReplies, Count, Total;
    FeatureRanges.FewerNewcomers(distinct, inputs.newcomers);
    Ratio(|distinct * inputs.newcomers|, |distinct|);
    assert distinct == {} <==> |distinct| == 0;
  }

  // ---------------------------------------------------------------- times

  ghost predicate IsLast(events: seq<Signal>, p: Signal -> bool, time: int) {
    (exists e :: e in events && p(e) && e.eventTime == time) && forall e :: e in events && p(e) ==> e.eventTime <= time
  }

  ghost predicate IsFirst(events: seq<Signal>, p: Signal -> bool, time: int) {
    (exists e :: e in events && p(e) && e.eventTime == time) && forall e :: e in events && p(e) ==> time <= e.eventTime
  }

  /** Microseconds as seconds, from a moment to a later one; zero if it is not later. */
  ghost function Until(from: int, to: int): real { if to >= from then (to - from) as real / 1000000.0 else 0.0 }

  ghost predicate FreshnessTells(r: RawFeatures, key: Key, events: seq<Signal>) {
    var end := key.start + key.interval * 1_000_000;
    && ((forall e :: e in events ==> !MARKET(e)) ==> r.marketFreshness == key.interval as real)
    && (forall t :: IsLast(events, MARKET, t) ==> r.marketFreshness == Until(t, end))
    && (r.socialFreshness.None? <==> forall e :: e in events ==> !SOCIAL(e))
    && (forall t :: IsLast(events, SOCIAL, t) ==> r.socialFreshness == Some(Until(t, end)))
  }

  ghost predicate LeadTells(r: RawFeatures, events: seq<Signal>) {
    && (r.socialLead.Some? <==> (exists e :: e in events && MARKET(e)) && exists e :: e in events && SOCIAL(e))
    && (forall m, s :: IsFirst(events, MARKET, m) && IsFirst(events, SOCIAL, s) ==>
          r.socialLead == Some((m - s) as real / 1000000.0))
  }

  lemma {:induction false} KindsHeld(events: seq<Signal>, kind: Kind)
    ensures forall e :: e in OfKind(events, kind) <==> e in events && e.kind == kind
  {
    if events != [] {
      KindsHeld(events[1..], kind);
      assert events == [events[0]] + events[1..];
    }
  }

  lemma {:induction false} MaxIsLast(xs: seq<int>)
    requires xs != []
    ensures MaxInt(xs) in xs && MinInt(xs) in xs && forall x :: x in xs ==> MinInt(xs) <= x <= MaxInt(xs)
  {
    assert xs == [xs[0]] + xs[1..];
    if |xs| > 1 {
      MaxIsLast(xs[1..]);
    }
  }

  /** The times of a selection of a window's signals, at their ends. */
  lemma EndsOfTimes(events: seq<Signal>, chosen: seq<Signal>, p: Signal -> bool)
    requires forall e :: e in chosen <==> e in events && p(e)
    ensures chosen != [] <==> exists e :: e in events && p(e)
    ensures chosen != [] ==> IsLast(events, p, MaxInt(Times(chosen))) && IsFirst(events, p, MinInt(Times(chosen)))
    ensures forall t :: IsLast(events, p, t) ==> chosen != [] && t == MaxInt(Times(chosen))
    ensures forall t :: IsFirst(events, p, t) ==> chosen != [] && t == MinInt(Times(chosen))
  {
    var times := Times(chosen);
    if e :| e in events && p(e) {
      assert e in chosen;
    }
    if chosen != [] {
      assert chosen[0] in chosen;
      MaxIsLast(times);
      assert forall i :: 0 <= i < |chosen| ==> times[i] == chosen[i].eventTime && chosen[i] in chosen;
      forall e | e in events && p(e) ensures e.eventTime in times {
        var i :| 0 <= i < |chosen| && chosen[i] == e;
        assert times[i] == e.eventTime;
      }
      var i :| 0 <= i < |times| && times[i] == MaxInt(times);
      var j :| 0 <= j < |times| && times[j] == MinInt(times);
      assert chosen[i] in chosen && chosen[j] in chosen;
      assert IsLast(events, p, MaxInt(times)) && IsFirst(events, p, MinInt(times));
    }
  }

  function MarketSignals(events: seq<Signal>): seq<Signal> {
    OfKind(events, MarketTrade) + OfKind(events, MarketCandle) + OfKind(events, OrderBook)
  }

  function SocialSignals(events: seq<Signal>): seq<Signal> { OfKind(events, SocialPost) + OfKind(events, AssetMention) }

  ghost predicate TimesComputed(r: RawFeatures, key: Key, market: seq<Signal>, social: seq<Signal>) {
    var end := key.start + key.interval * SECOND;
    && r.marketFreshness == (if market != [] then Seconds(NonNegative(end - MaxInt(Times(market))))
                             else key.interval as real)
    && r.socialFreshness
       == (if social != [] then Some(Seconds(NonNegative(end - MaxInt(Times(social))))) else None)
    && r.socialLead == (if market != [] && social != []
                        then Some(Seconds(MinInt(Times(market)) - MinInt(Times(social)))) else None)
  }

  lemma TimesAreComputed(key: Key, inputs: Inputs)
    ensures TimesComputed(Raw(key, inputs), key, MarketSignals(inputs.events), SocialSignals(inputs.events))
  {
    hide OfKind, Authors, Urls, RelativeVolume, Variance, Concentration, Pressure, MeanOrNone, PriceReturn, Tags;
    hide RawVolume, Prices, Returns, ValidBooks, Truncate, MaxReal, Read, RepostsAndReplies, Max2, MaxInt, MinInt;
    hide NonNegative, Seconds;
  }

  /** The two selections of a window's signals and their ends. */
  lemma MarketTimes(events: seq<Signal>)
    ensures var market := MarketSignals(events);
            && (market != [] <==> exists e :: e in events && MARKET(e))
            && (forall t :: IsLast(events, MARKET, t) ==> market != [] && t == MaxInt(Times(market)))
            && (forall t :: IsFirst(events, MARKET, t) ==> market != [] && t == MinInt(Times(market)))
  {
    KindsHeld(events, MarketTrade);
    KindsHeld(events, MarketCandle);
    KindsHeld(events, OrderBook);
    hide OfKind;
    EndsOfTimes(events, MarketSignals(events), MARKET);
  }

  lemma SocialTimes(events: seq<Signal>)
    ensures var social := SocialSignals(events);
            && (social != [] <==> exists e :: e in events && SOCIAL(e))
            && (forall t :: IsLast(events, SOCIAL, t) ==> social != [] && t == MaxInt(Times(social)))
            && (forall t :: IsFirst(events, SOCIAL, t) ==> social != [] && t == MinInt(Times(social)))
  {
    KindsHeld(events, SocialPost);
    KindsHeld(events, AssetMention);
    hide OfKind;
    EndsOfTimes(events, SocialSignals(events), SOCIAL);
  }

  lemma TimesAreTold(key: Key, inputs: Inputs)
    ensures FreshnessTells(Raw(key, inputs), key, inputs.events) && LeadTells(Raw(key, inputs), inputs.events)
  {
    TimesAreComputed(key, inputs);
    hide *;
    FreshnessTold(Raw(key, inputs), key, inputs.events);
    LeadTold(Raw(key, inputs), key, inputs.events);
  }

  lemma FreshnessTold(r: RawFeatures, key: Key, events: seq<Signal>)
    requires TimesComputed(r, key, MarketSignals(events), SocialSignals(events))
    ensures FreshnessTells(r, key, events)
  {
    MarketTimes(events);
    SocialTimes(events);
    hide IsLast, IsFirst, MaxInt, MinInt, Times, MarketSignals, SocialSignals;
  }

  lemma LeadTold(r: RawFeatures, key: Key, events: seq<Signal>)
    requires TimesComputed(r, key, MarketSignals(events), SocialSignals(events))
    ensures LeadTells(r, events)
  {
    MarketTimes(events);
    SocialTimes(events);
    hide IsLast, IsFirst, MaxInt, MinInt, Times, MarketSignals, SocialSignals;
  }

  // ---------------------------------------------------------------- gaps, and how much is known

  ghost predicate GapsTell(r: RawFeatures, inputs: Inputs) {
    var gap := Entry(DataQuality, (v: Values) => v.sourceGapCount);
    && ((forall e :: e in inputs.events ==> e.kind != DataQuality) ==> r.sourceGapCount == 0)
    && (forall e :: e in inputs.events && e.kind == DataQuality
                    && (forall x :: x in inputs.events && x.kind == DataQuality ==> gap(x) <= gap(e)) ==>
          if gap(e) >= 0.0 then r.sourceGapCount as real <= gap(e) < (r.sourceGapCount + 1) as real
          else (r.sourceGapCount - 1) as real < gap(e) <= r.sourceGapCount as real)
    && 20.0 * r.baselineConfidence == (if inputs.earlier >= 20 then 20.0 else inputs.earlier as real)
  }

  lemma {:induction false} MaxIsHighest(xs: seq<real>)
    ensures xs == [] ==> MaxReal(xs, 0.0) == 0.0
    ensures xs != [] ==> MaxReal(xs, 0.0) in xs && forall x :: x in xs ==> x <= MaxReal(xs, 0.0)
  {
    if xs != [] {
      assert xs == [xs[0]] + xs[1..];
      MaxIsHighest(xs[1..]);
    }
  }

  lemma GapsAreComputed(key: Key, inputs: Inputs)
    ensures var r := Raw(key, inputs);
            && r.sourceGapCount
               == Truncate(MaxReal(Read(OfKind(inputs.events, DataQuality), (v: Values) => v.sourceGapCount), 0.0))
            && r.baselineConfidence == Min2(1.0, inputs.earlier as real / 20.0)
  {
    hide OfKind, Authors, Urls, RelativeVolume, Variance, Concentration, Pressure, MeanOrNone, PriceReturn, Tags;
    hide RawVolume, Prices, Returns, ValidBooks, Truncate, MaxReal, Read, RepostsAndReplies, Max2, Min2, Times;
  }

  lemma GapsAreTold(key: Key, inputs: Inputs)
    ensures GapsTell(Raw(key, inputs), inputs)
  {
    var events := inputs.events;
    var quality := OfKind(events, DataQuality);
    var gaps := Read(quality, (v: Values) => v.sourceGapCount);
    var gap := Entry(DataQuality, (v: Values) => v.sourceGapCount);
    GapsAreComputed(key, inputs);
    KindsHeld(events, DataQuality);
    MaxIsHighest(gaps);
    hide Raw, OfKind, MaxReal;
    assert quality != [] ==> quality[0] in quality;
    assert forall i :: 0 <= i < |quality| ==> gaps[i] == gap(quality[i]) && quality[i] in quality;
    forall e | e in events && e.kind == DataQuality
               && forall x :: x in events && x.kind == DataQuality ==> gap(x) <= gap(e)
      ensures MaxReal(gaps, 0.0) == gap(e)
    {
      var i :| 0 <= i < |quality| && quality[i] == e;
      assert gaps[i] in gaps;
      var j :| 0 <= j < |gaps| && gaps[j] == MaxReal(gaps, 0.0);
      assert quality[j] in quality;
    }
  }

  // ---------------------------------------------------------------- prices

  /** The signals a window's prices are read from: its trades if it has any, and otherwise its candles. */
  ghost predicate IsPriced(events: seq<Signal>, e: Signal) {
    if exists t :: t in events && t.kind == MarketTrade then e.kind == MarketTrade else e.kind == MarketCandle
  }

  ghost function PriceOf(e: Signal): real {
    if e.kind == MarketTrade then e.values.price.GetOr(0.0) else e.values.close.GetOr(0.0)
  }

  /** The i-th signal is the first and the j-th the last that is priced. */
  ghost predicate PricedFromTo(events: seq<Signal>, i: nat, j: nat)
    requires i < |events| && j < |events|
  {
    && IsPriced(events, events[i]) && IsPriced(events, events[j])
    && forall k :: 0 <= k < |events| && IsPriced(events, events[k]) ==> i <= k <= j
  }

  /** The return takes the first price to the last; without two prices, or from zero, it is zero. */
  ghost predicate Moves(change: real, first: real, last: real, several: bool) {
    if several && first != 0.0 then first * (1.0 + change) == last else change == 0.0
  }

  ghost predicate PriceTells(r: RawFeatures, events: seq<Signal>) {
    && ((forall e :: e in events ==> !IsPriced(events, e)) ==> r.priceReturn == 0.0)
    && (forall i, j :: 0 <= i < |events| && 0 <= j < |events| && PricedFromTo(events, i, j) ==>
          Moves(r.priceReturn, PriceOf(events[i]), PriceOf(events[j]), i < j))
  }

  lemma {:induction false} FirstOfKind(events: seq<Signal>, kind: Kind, i: nat)
    requires i < |events| && events[i].kind == kind && forall k :: 0 <= k < i ==> events[k].kind != kind
    ensures OfKind(events, kind) != [] && OfKind(events, kind)[0] == events[i]
  {
    if i > 0 {
      FirstOfKind(events[1..], kind, i - 1);
    }
  }

  lemma {:induction false} NoneOfKind(events: seq<Signal>, kind: Kind)
    requires forall k :: 0 <= k < |events| ==> events[k].kind != kind
    ensures OfKind(events, kind) == []
  {
    if events != [] {
      NoneOfKind(events[1..], kind);
    }
  }

  lemma {:induction false} LastOfKind(events: seq<Signal>, kind: Kind, j: nat)
    requires j < |events| && events[j].kind == kind && forall k :: j < k < |events| ==> events[k].kind != kind
    ensures OfKind(events, kind) != [] && OfKind(events, kind)[|OfKind(events, kind)| - 1] == events[j]
    ensures |OfKind(events, kind)| == 1 <==> forall k :: 0 <= k < j ==> events[k].kind != kind
  {
    if j > 0 {
      LastOfKind(events[1..], kind, j - 1);
      assert forall k :: 0 < k < |events| ==> events[k] == events[1..][k - 1];
    } else {
      NoneOfKind(events[1..], kind);
    }
  }

  lemma PriceIsComputed(key: Key, inputs: Inputs)
    ensures Raw(key, inputs).priceReturn
            == PriceReturn(Prices(OfKind(inputs.events, MarketTrade), OfKind(inputs.events, MarketCandle)))
  {
    hide OfKind, Authors, Urls, RelativeVolume, Variance, Concentration, Pressure, MeanOrNone, PriceReturn, Tags;
    hide RawVolume, Prices, Returns, ValidBooks, Truncate, MaxReal, Read, RepostsAndReplies, Max2, Min2, Times;
  }

  /** The prices are those of the signals of one kind, in order. */
  lemma PricesOfKind(events: seq<Signal>) returns (kind: Kind)
    ensures forall e :: IsPriced(events, e) <==> e.kind == kind
    ensures var prices := Prices(OfKind(events, MarketTrade), OfKind(events, MarketCandle));
            var priced := OfKind(events, kind);
            |prices| == |priced| && forall n :: 0 <= n < |priced| ==> prices[n] == PriceOf(priced[n])
  {
    KindsHeld(events, MarketTrade);
    var trades := OfKind(events, MarketTrade);
    assert trades != [] ==> trades[0] in trades;
    kind := if trades != [] then MarketTrade else MarketCandle;
    KindsHeld(events, kind);
    var priced := OfKind(events, kind);
    hide OfKind;
    assert forall n :: 0 <= n < |priced| ==> priced[n] in priced;
  }

  lemma PriceIsTold(key: Key, inputs: Inputs)
    ensures PriceTells(Raw(key, inputs), inputs.events)
  {
    PriceIsComputed(key, inputs);
    hide *;
    ReturnTells(Raw(key, inputs), inputs.events);
  }

  lemma ReturnTells(r: RawFeatures, events: seq<Signal>)
    requires r.priceReturn == PriceReturn(Prices(OfKind(events, MarketTrade), OfKind(events, MarketCandle)))
    ensures PriceTells(r, events)
  {
    var prices := Prices(OfKind(events, MarketTrade), OfKind(events, MarketCandle));
    var kind := PricesOfKind(events);
    hide Raw, Prices, IsPriced;
    if forall e :: e in events ==> !IsPriced(events, e) {
      assert forall k :: 0 <= k < |events| ==> events[k] in events;
      NoneOfKind(events, kind);
    }
    assert (forall e :: e in events ==> !IsPriced(events, e)) ==> PriceReturn(prices) == 0.0;
    hide OfKind, PriceOf, PricedFromTo, PriceReturn, Moves;
    forall i, j | 0 <= i < |events| && 0 <= j < |events| && PricedFromTo(events, i, j)
      ensures Moves(PriceReturn(prices), PriceOf(events[i]), PriceOf(events[j]), i < j)
    {
      PriceMoves(events, kind, prices, i, j);
    }
  }

  lemma PriceMoves(events: seq<Signal>, kind: Kind, prices: seq<real>, i: nat, j: nat)
    requires i < |events| && j < |events| && PricedFromTo(events, i, j)
    requires forall e :: IsPriced(events, e) <==> e.kind == kind
    requires |prices| == |OfKind(events, kind)|
    requires forall n :: 0 <= n < |prices| ==> prices[n] == PriceOf(OfKind(events, kind)[n])
    ensures Moves(PriceReturn(prices), PriceOf(events[i]), PriceOf(events[j]), i < j)
  {
    FirstOfKind(events, kind, i);
    LastOfKind(events, kind, j);
    hide OfKind, PriceOf, IsPriced;
    assert prices[0] == PriceOf(events[i]) && prices[|prices| - 1] == PriceOf(events[j]);
    if i < j && PriceOf(events[i]) != 0.0 {
      assert |prices| > 1;
      Quotient(prices[|prices| - 1], prices[0]);
    }
  }
}
