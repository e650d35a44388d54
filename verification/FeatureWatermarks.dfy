/** When a fusion watermark falls: exactly when a source has woken from idleness behind it. */
module FeatureWatermarks {
  import opened Wrappers
  import opened FeatureSignals
  import opened FeatureWindows
  import opened FeatureLaws
  import opened FeatureBuilding
  import opened FeatureRuns
  import opened FeatureTheorems

  // ---------------------------------------------------------------- over a run

  /** A source that was idle is awake, and what it has heard of is behind the watermark. */
  ghost predicate AwakeBehind(cfg: Config, before: State, after: State, src: Source, watermark: int) {
    && src.domain in cfg.required
    && src in before.flags && before.flags[src].idle
    && src in after.flags && !after.flags[src].idle
    && src in after.maxTime && after.maxTime[src] - cfg.lateness * SECOND < watermark
  }

  ghost predicate NoOlder(before: State, after: State) {
    forall src :: src in before.maxTime ==> src in after.maxTime && before.maxTime[src] <= after.maxTime[src]
  }

  /** What a source has heard of last only ever moves on. */
  lemma {:induction false} MaxTimeGrows(cfg: Config, ops: seq<Op>, more: seq<Op>)
    requires ValidConfig(cfg)
    ensures NoOlder(Run(cfg, ops), Run(cfg, ops + more))
  {
    if more == [] {
      assert ops + more == ops;
    } else {
      var init, last := more[..|more| - 1], more[|more| - 1];
      assert (ops + more)[..|ops + more| - 1] == ops + init;
      MaxTimeGrows(cfg, ops, init);
      RunsAreSound(cfg, ops + init);
      if last.Arrive? {
        IngestLogs(cfg, Run(cfg, ops + init), last.signal);
      }
    }
  }

  /** What the watermark of a required domain is, once reading has settled which sources are idle. */
  lemma DomainIs(cfg: Config, st: State, src: Source)
    requires ValidConfig(cfg) && SettledFor(cfg, st, src.scope, src.asset) && src.domain in cfg.required
    requires DomainWatermark(cfg, st.maxTime, st.flags, src).Some?
    ensures src in st.flags
    ensures var newest := Newest(st.maxTime, src.scope, src.asset);
            var here := DomainWatermark(cfg, st.maxTime, st.flags, src);
            if st.flags[src].idle then newest.Some? && here.value == newest.value - cfg.lateness * SECOND
            else src in st.maxTime && here.value == st.maxTime[src] - cfg.lateness * SECOND
  {
    assert src == Source(src.scope, src.asset, Market) || src == Source(src.scope, src.asset, Social) by {
      assert src.domain.Market? || src.domain.Social?;
    }
  }

  lemma NewestGrows(before: State, after: State, scope: string, asset: string)
    requires NoOlder(before, after) && Newest(before.maxTime, scope, asset).Some?
    ensures Newest(after.maxTime, scope, asset).Some?
    ensures Newest(before.maxTime, scope, asset).value <= Newest(after.maxTime, scope, asset).value
  {
  }

  lemma FallsIff(cfg: Config, before: State, after: State, scope: string, asset: string)
    requires ValidConfig(cfg) && NoOlder(before, after)
    requires SettledFor(cfg, before, scope, asset) && SettledFor(cfg, after, scope, asset)
    requires Watermark(cfg, before, scope, asset).Some? && Watermark(cfg, after, scope, asset).Some?
    ensures var first := Watermark(cfg, before, scope, asset).value;
            Watermark(cfg, after, scope, asset).value < first
            <==> exists d :: AwakeBehind(cfg, before, after, Source(scope, asset, d), first)
  {
    WatermarkIsLeast(cfg, before, scope, asset);
    WatermarkIsLeast(cfg, after, scope, asset);
    WatermarkLagsNewest(cfg, before, scope, asset);
    NewestGrows(before, after, scope, asset);
    var first, second := Watermark(cfg, before, scope, asset).value, Watermark(cfg, after, scope, asset).value;
    forall d | d in cfg.required
      ensures var src := Source(scope, asset, d);
              DomainWatermark(cfg, after.maxTime, after.flags, src).value < first
              <==> AwakeBehind(cfg, before, after, src, first)
    {
      DomainIs(cfg, before, Source(scope, asset, d));
      DomainIs(cfg, after, Source(scope, asset, d));
    }
    hide Watermark, DomainWatermark;
    var d :| d in cfg.required
        && DomainWatermark(cfg, after.maxTime, after.flags, Source(scope, asset, d)) == Some(second);
  }

  /**
   * Of two readings of a fusion watermark in a run, whatever came between them, the second is lower exactly
   * when a required source that was idle at the first is awake at the second, behind the first.
   */
  lemma WatermarkFallsIff(cfg: Config, ops: seq<Op>, more: seq<Op>, scope: string, asset: string)
    requires ValidConfig(cfg)
    requires Watermark(cfg, Run(cfg, ops), scope, asset).Some?
            && Watermark(cfg, Run(cfg, ops + more), scope, asset).Some?
    ensures var before, after := Run(cfg, ops), Run(cfg, ops + more);
            var first := Watermark(cfg, before, scope, asset).value;
            Watermark(cfg, after, scope, asset).value < first
            <==> exists d :: AwakeBehind(cfg, before, after, Source(scope, asset, d), first)
  {
    RunsAreSound(cfg, ops);
    RunsAreSound(cfg, ops + more);
    MaxTimeGrows(cfg, ops, more);
    hide Run;
    FallsIff(cfg, Run(cfg, ops), Run(cfg, ops + more), scope, asset);
  }

  // ---------------------------------------------------------------- by one signal

  /** An ingest leaves the watermarks that its bookkeeping alone leaves. */
  lemma IngestedWatermark(cfg: Config, st: State, signal: Signal)
    requires ValidConfig(cfg) && Quiet(cfg, st) && IsNewSignal(st, signal)
    ensures SameWatermarks(cfg, Record(st, signal), Ingest(cfg, st, signal).state)
  {
    var recorded, placed := Record(st, signal), Placed(cfg, st, signal);
    IngestQuiets(cfg, st, signal);
    WindowsOfOneAsset(cfg, signal);
    PlaceEachReturns(cfg, recorded, signal, WindowsOf(cfg, signal));
    FinalizeReturns(cfg, placed.state, signal);
    FaithfulBoth(cfg, recorded, signal, placed, Finalize(cfg, placed.state, signal.scope, signal.asset));
  }

  /**
   * The source was idle and hears of something again, not so old that it goes idle at once, but behind
   * the watermark.
   */
  ghost predicate WakesBehind(cfg: Config, st: State, signal: Signal, watermark: int) {
    var src, next := Source(signal.scope, signal.asset, signal.domain), Record(st, signal);
    && src.domain in cfg.required
    && src in st.flags && st.flags[src].idle && !next.flags[src].idle
    && Newest(next.maxTime, src.scope, src.asset).Some?
    && Newest(next.maxTime, src.scope, src.asset).value - next.maxTime[src] < cfg.idleAfter * SECOND
    && next.maxTime[src] - cfg.lateness * SECOND < watermark
  }

  /** What a signal does to the watermark of a domain of its asset. */
  lemma DomainMoves(cfg: Config, st: State, signal: Signal, domain: Domain)
    requires ValidConfig(cfg) && SettledFor(cfg, st, signal.scope, signal.asset) && domain in cfg.required
    requires DomainWatermark(cfg, st.maxTime, st.flags, Source(signal.scope, signal.asset, domain)).Some?
    ensures var src, next := Source(signal.scope, signal.asset, domain), Record(st, signal);
            var before := DomainWatermark(cfg, st.maxTime, st.flags, src).value;
            var after := DomainWatermark(cfg, next.maxTime, next.flags, src);
            && src in st.flags && src in next.flags
            && (domain != signal.domain ==> after.Some? && after.value >= before)
            && (domain == signal.domain && after.Some? ==>
                  src in next.maxTime && Newest(next.maxTime, src.scope, src.asset).Some?)
            && (domain == signal.domain && after.Some? ==>
                  if st.flags[src].idle && !next.flags[src].idle
                     && Newest(next.maxTime, src.scope, src.asset).value - next.maxTime[src] < cfg.idleAfter * SECOND
                  then after.value == next.maxTime[src] - cfg.lateness * SECOND
                  else after.value >= before)
  {
  }

  /**
   * From a reachable state a new signal lowers the fusion watermark of its asset exactly when it wakes a
   * required source from idleness behind it.
   */
  lemma {:induction false} SignalLowersIff(cfg: Config, ops: seq<Op>, signal: Signal)
    requires ValidConfig(cfg)
    requires IsNewSignal(Run(cfg, ops), signal)
    requires Watermark(cfg, Run(cfg, ops), signal.scope, signal.asset).Some?
    requires Watermark(cfg, Ingest(cfg, Run(cfg, ops), signal).state, signal.scope, signal.asset).Some?
    ensures var st := Run(cfg, ops);
            var before := Watermark(cfg, st, signal.scope, signal.asset).value;
            Watermark(cfg, Ingest(cfg, st, signal).state, signal.scope, signal.asset).value < before
            <==> WakesBehind(cfg, st, signal, before)
  {
    RunsAreSound(cfg, ops);
    IngestedWatermark(cfg, Run(cfg, ops), signal);
    RecordedWatermark(cfg, Run(cfg, ops), signal);
  }

  lemma RecordedWatermark(cfg: Config, st: State, signal: Signal)
    requires ValidConfig(cfg) && SettledFor(cfg, st, signal.scope, signal.asset)
    requires Watermark(cfg, st, signal.scope, signal.asset).Some?
    requires Watermark(cfg, Record(st, signal), signal.scope, signal.asset).Some?
    ensures var before := Watermark(cfg, st, signal.scope, signal.asset).value;
            Watermark(cfg, Record(st, signal), signal.scope, signal.asset).value < before
            <==> WakesBehind(cfg, st, signal, before)
  {
    var scope, asset, next := signal.scope, signal.asset, Record(st, signal);
    WatermarkIsLeast(cfg, st, scope, asset);
    WatermarkIsLeast(cfg, next, scope, asset);
    var before, after := Watermark(cfg, st, scope, asset).value, Watermark(cfg, next, scope, asset).value;
    hide Record, DomainWatermark, Fusion;
    forall d | d in cfg.required && d != signal.domain
      ensures DomainWatermark(cfg, next.maxTime, next.flags, Source(scope, asset, d)).value >= before
    {
      DomainMoves(cfg, st, signal, d);
    }
    if signal.domain in cfg.required {
      DomainMoves(cfg, st, signal, signal.domain);
    }
    var d :| d in cfg.required
        && DomainWatermark(cfg, next.maxTime, next.flags, Source(scope, asset, d)) == Some(after);
  }

  // ---------------------------------------------------------------- a run in which it falls

  /** Flags as they were, but for sources that have been marked idle. */
  ghost predicate OnlyIdled(st: State, next: State) {
    && next.flags.Keys == st.flags.Keys
    && forall src :: src in st.flags ==>
       next.flags[src] == st.flags[src] || (!st.flags[src].degraded && next.flags[src] == Flags(true, true, false))
  }

  lemma BuildOnlyIdles(cfg: Config, st: State, key: Key, force: bool)
    requires ValidConfig(cfg)
    ensures OnlyIdled(st, Build(cfg, st, key, force))
  {
    SettleFromWrites(cfg, st.maxTime, st.flags, key.scope, key.asset, 0);
    hide NextSnapshot;
  }

  lemma {:induction false} BuildEachOnlyIdles(cfg: Config, st: State, keys: seq<Key>, force: bool)
    requires ValidConfig(cfg)
    ensures OnlyIdled(st, BuildEach(cfg, st, keys, force).state)
    decreases |keys|
  {
    if keys != [] {
      BuildOnlyIdles(cfg, st, keys[0], force);
      BuildEachOnlyIdles(cfg, Build(cfg, st, keys[0], force), keys[1..], force);
    }
  }

  lemma {:induction false} PlaceEachOnlyIdles(cfg: Config, st: State, signal: Signal, keys: seq<Key>)
    requires ValidConfig(cfg)
    ensures OnlyIdled(st, PlaceEach(cfg, st, signal, keys).state)
    decreases |keys|
  {
    if keys != [] {
      BuildEachOnlyIdles(cfg, File(st, keys[0], signal), Rebuilt(st.order, keys[0]), false);
      PlaceEachOnlyIdles(cfg, Place(cfg, st, signal, keys[0]).state, signal, keys[1..]);
    }
  }

  /** An ingest marks sources idle, and otherwise leaves the flags its bookkeeping leaves. */
  lemma IngestOnlyIdles(cfg: Config, st: State, signal: Signal)
    requires ValidConfig(cfg) && IsNewSignal(st, signal)
    ensures OnlyIdled(Record(st, signal), Ingest(cfg, st, signal).state)
  {
    var placed := Placed(cfg, st, signal).state;
    PlaceEachOnlyIdles(cfg, Record(st, signal), signal, WindowsOf(cfg, signal));
    var settled := Settle(cfg, placed, signal.scope, signal.asset);
    SettleFromWrites(cfg, placed.maxTime, placed.flags, signal.scope, signal.asset, 0);
    BuildEachOnlyIdles(cfg, settled,
      Overdue(settled, settled.order, signal.scope, signal.asset, Watermark(cfg, settled, signal.scope, signal.asset)),
      true);
  }

  const NOTHING :=
    Values(None, None, None, None, None, None, None, None, None, None, None, [], 0, 0, false, None, None, None, None)

  function Post(id: string, seconds: int): Signal {
    Signal(id, "LIVE", "asset", seconds * SECOND, SocialPost, Social, NOTHING)
  }
  function Trade(id: string, seconds: int): Signal {
    Signal(id, "LIVE", "asset", seconds * SECOND, MarketTrade, Market, NOTHING)
  }

  const SOCIAL := Source("LIVE", "asset", Social)
  const MARKET := Source("LIVE", "asset", Market)

  function Usual(extract: (Key, Inputs) -> RawFeatures): Config {
    Config([60, 300], 120, 600, [Market, Social], extract)
  }

  lemma RunOneMore(cfg: Config, ops: seq<Op>, signal: Signal)
    requires ValidConfig(cfg)
    ensures Run(cfg, ops + [Arrive(signal)]) == Ingest(cfg, Run(cfg, ops), signal).state
  {
    assert (ops + [Arrive(signal)])[..|ops|] == ops;
  }

  /** What an ingest leaves of the books. */
  ghost predicate Booked(cfg: Config, st: State, signal: Signal, next: State) {
    && next.maxTime == Record(st, signal).maxTime && next.seen == st.seen + {SeenId(signal.scope, signal.eventId)}
    && OnlyIdled(Record(st, signal), next) && SettledFor(cfg, next, signal.scope, signal.asset)
  }

  lemma IngestBooks(cfg: Config, ops: seq<Op>, signal: Signal)
    requires ValidConfig(cfg) && IsNewSignal(Run(cfg, ops), signal)
    ensures Booked(cfg, Run(cfg, ops), signal, Run(cfg, ops + [Arrive(signal)]))
    ensures SameWatermarks(cfg, Record(Run(cfg, ops), signal), Run(cfg, ops + [Arrive(signal)]))
  {
    RunsAreSound(cfg, ops);
    RunOneMore(cfg, ops, signal);
    IngestLogs(cfg, Run(cfg, ops), signal);
    IngestOnlyIdles(cfg, Run(cfg, ops), signal);
    IngestQuiets(cfg, Run(cfg, ops), signal);
    IngestedWatermark(cfg, Run(cfg, ops), signal);
    hide Ingest, Run, Record, OnlyIdled;
  }

  /** The books after a post at 0 s, whether or not it has been taken for idle. */
  ghost predicate Posted(st: State) {
    && st.maxTime == map[SOCIAL := 0] && st.flags.Keys == {SOCIAL} && !st.flags[SOCIAL].degraded
    && st.seen == {SeenId("LIVE", "a")}
  }

  lemma PostBooks(cfg: Config, next: State)
    requires Booked(cfg, EMPTY, Post("a", 0), next)
    ensures Posted(next)
  {
  }

  /** And after a trade at 1000 s, by when the social source has gone idle. */
  ghost predicate Traded(st: State) {
    && st.maxTime == map[SOCIAL := 0, MARKET := 1000 * SECOND] && st.flags.Keys == {SOCIAL, MARKET}
    && st.flags[SOCIAL] == Flags(true, true, false) && !st.flags[MARKET].degraded
    && st.seen == {SeenId("LIVE", "a"), SeenId("LIVE", "b")}
  }

  lemma TradeBooks(cfg: Config, st: State, next: State)
    requires Posted(st) && cfg.required == [Market, Social] && cfg.idleAfter == 600
            && Booked(cfg, st, Trade("b", 1000), next)
    ensures Traded(next)
  {
    var recorded := Record(st, Trade("b", 1000));
    assert recorded.maxTime == map[SOCIAL := 0, MARKET := 1000 * SECOND];
    assert recorded.flags.Keys == {SOCIAL, MARKET} && recorded.flags[SOCIAL] == st.flags[SOCIAL];
    assert SOCIAL in next.flags && !next.flags[SOCIAL].degraded;
    assert Social in cfg.required && GoneIdle(cfg, next.maxTime, next.flags, SOCIAL);
  }

  lemma TradedWatermark(cfg: Config, st: State)
    requires Traded(st) && ValidConfig(cfg) && cfg.required == [Market, Social] && cfg.idleAfter == 600
            && cfg.lateness == 120
    ensures Watermark(cfg, st, "LIVE", "asset") == Some(880 * SECOND)
    ensures Watermark(cfg, Record(st, Post("c", 500)), "LIVE", "asset") == Some(380 * SECOND)
  {
    TwoDomains(cfg, st.maxTime, st.flags);
    var woken := Record(st, Post("c", 500));
    assert woken.maxTime == map[SOCIAL := 500 * SECOND, MARKET := 1000 * SECOND];
    assert woken.flags[SOCIAL] == Flags(true, false, false) && woken.flags[MARKET] == st.flags[MARKET];
    TwoDomains(cfg, woken.maxTime, woken.flags);
  }

  /**
   * A post at 0 s and a trade at 1000 s take the social source for idle and the watermark to 880 s; a post
   * from 500 s then wakes the source, and the watermark falls to 380 s.
   */
  lemma WatermarkCanFall(extract: (Key, Inputs) -> RawFeatures)
    ensures var cfg := Usual(extract);
            var ops := [] + [Arrive(Post("a", 0))] + [Arrive(Trade("b", 1000))];
            && ValidConfig(cfg)
            && Watermark(cfg, Run(cfg, ops), "LIVE", "asset") == Some(880 * SECOND)
            && Watermark(cfg, Run(cfg, ops + [Arrive(Post("c", 500))]), "LIVE", "asset") == Some(380 * SECOND)
  {
    FallingRun(Usual(extract));
  }

  lemma FallingRun(cfg: Config)
    requires ValidConfig(cfg) && cfg.required == [Market, Social] && cfg.idleAfter == 600 && cfg.lateness == 120
    ensures var ops := [] + [Arrive(Post("a", 0))] + [Arrive(Trade("b", 1000))];
            && Watermark(cfg, Run(cfg, ops), "LIVE", "asset") == Some(880 * SECOND)
            && Watermark(cfg, Run(cfg, ops + [Arrive(Post("c", 500))]), "LIVE", "asset") == Some(380 * SECOND)
  {
    var second := [] + [Arrive(Post("a", 0))] + [Arrive(Trade("b", 1000))];
    TradedRun(cfg);
    hide Run, Record, Booked, Watermark, ValidConfig;
    AreNew(EMPTY, Run(cfg, second));
    IngestBooks(cfg, second, Post("c", 500));
    TradedWatermark(cfg, Run(cfg, second));
  }

  /** The books of a run of a post and a trade. */
  lemma TradedRun(cfg: Config)
    requires ValidConfig(cfg) && cfg.required == [Market, Social] && cfg.idleAfter == 600
    ensures Traded(Run(cfg, [] + [Arrive(Post("a", 0))] + [Arrive(Trade("b", 1000))]))
  {
    var first := [] + [Arrive(Post("a", 0))];
    var second := first + [Arrive(Trade("b", 1000))];
    assert Run(cfg, []) == EMPTY;
    hide Run, Record, Booked, Watermark, ValidConfig;
    IngestBooks(cfg, [], Post("a", 0));
    PostBooks(cfg, Run(cfg, first));
    AreNew(Run(cfg, first), EMPTY);
    IngestBooks(cfg, first, Trade("b", 1000));
    TradeBooks(cfg, Run(cfg, first), Run(cfg, second));
  }

  lemma AreNew(posted: State, traded: State)
    ensures Posted(posted) ==> IsNewSignal(posted, Trade("b", 1000))
    ensures Traded(traded) ==> IsNewSignal(traded, Post("c", 500))
  {
    assert "a"[0] != "b"[0] && "a"[0] != "c"[0] && "b"[0] != "c"[0];
  }

  function Health(id: string, seconds: int, degraded: bool): Signal {
    Signal(id, "LIVE", "asset", seconds * SECOND, DataQuality, Social, NOTHING.(sourceDegraded := Some(degraded)))
  }

  /** The books after the social source has been reported degraded. */
  ghost predicate Reported(st: State) {
    && st.maxTime == map[SOCIAL := 0, MARKET := 1000 * SECOND] && st.flags.Keys == {SOCIAL, MARKET}
    && st.flags[SOCIAL] == Flags(true, false, true) && !st.flags[MARKET].degraded
    && st.seen == {SeenId("LIVE", "a"), SeenId("LIVE", "b"), SeenId("LIVE", "c")}
  }

  lemma ReportBooks(cfg: Config, st: State, next: State)
    requires Traded(st) && Booked(cfg, st, Health("c", 0, true), next)
    ensures Reported(next)
  {
    var recorded := Record(st, Health("c", 0, true));
    assert recorded.maxTime == st.maxTime;
    assert recorded.flags[SOCIAL] == Flags(true, false, true) && recorded.flags[MARKET] == st.flags[MARKET];
  }

  lemma ReportedWatermark(cfg: Config, st: State)
    requires Reported(st) && ValidConfig(cfg) && cfg.required == [Market, Social] && cfg.idleAfter == 600
            && cfg.lateness == 120
    ensures Watermark(cfg, st, "LIVE", "asset") == None
    ensures Watermark(cfg, Record(st, Health("d", 500, false)), "LIVE", "asset") == Some(380 * SECOND)
  {
    var cleared := Record(st, Health("d", 500, false));
    assert cleared.maxTime == map[SOCIAL := 500 * SECOND, MARKET := 1000 * SECOND];
    assert cleared.flags[SOCIAL] == Flags(true, false, false) && cleared.flags[MARKET] == st.flags[MARKET];
    TwoDomains(cfg, cleared.maxTime, cleared.flags);
    assert Available(cfg, st.maxTime, st.flags, "LIVE", "asset", Social) == [];
  }

  lemma ReportsAreNew(traded: State, reported: State)
    ensures Traded(traded) ==> IsNewSignal(traded, Health("c", 0, true))
    ensures Reported(reported) ==> IsNewSignal(reported, Health("d", 500, false))
  {
    assert "a"[0] != "c"[0] && "b"[0] != "c"[0] && "d"[0] != "a"[0] && "d"[0] != "b"[0] && "d"[0] != "c"[0];
  }

  /**
   * It also falls across a reading that has none: the idle source is reported degraded, which takes the
   * watermark away, and then sound again at 500 s, which brings it back at 380 s. No single signal lowers it.
   */
  lemma WatermarkCanFallUnseen(cfg: Config)
    requires ValidConfig(cfg) && cfg.required == [Market, Social] && cfg.idleAfter == 600 && cfg.lateness == 120
    ensures var ops := [] + [Arrive(Post("a", 0))] + [Arrive(Trade("b", 1000))];
            var degraded := ops + [Arrive(Health("c", 0, true))];
            && Watermark(cfg, Run(cfg, ops), "LIVE", "asset") == Some(880 * SECOND)
            && Watermark(cfg, Run(cfg, degraded), "LIVE", "asset") == None
            && Watermark(cfg, Run(cfg, degraded + [Arrive(Health("d", 500, false))]), "LIVE", "asset")
               == Some(380 * SECOND)
  {
    var ops := [] + [Arrive(Post("a", 0))] + [Arrive(Trade("b", 1000))];
    var degraded := ops + [Arrive(Health("c", 0, true))];
    TradedRun(cfg);
    hide Run, Record, Booked, Watermark, ValidConfig;
    TradedWatermark(cfg, Run(cfg, ops));
    ReportsAreNew(Run(cfg, ops), Run(cfg, degraded));
    IngestBooks(cfg, ops, Health("c", 0, true));
    ReportBooks(cfg, Run(cfg, ops), Run(cfg, degraded));
    ReportsAreNew(Run(cfg, ops), Run(cfg, degraded));
    IngestBooks(cfg, degraded, Health("d", 500, false));
    ReportedWatermark(cfg, Run(cfg, degraded));
  }

  /** With both domains required and available the fusion watermark is the lesser. */
  lemma TwoDomains(cfg: Config, maxTime: map<Source, int>, flags: map<Source, Flags>)
    requires ValidConfig(cfg) && cfg.required == [Market, Social]
    requires DomainWatermark(cfg, maxTime, flags, MARKET).Some? && DomainWatermark(cfg, maxTime, flags, SOCIAL).Some?
    ensures var m := DomainWatermark(cfg, maxTime, flags, MARKET).value;
            var s := DomainWatermark(cfg, maxTime, flags, SOCIAL).value;
            Fusion(cfg, maxTime, flags, "LIVE", "asset") == Some(if m <= s then m else s)
  {
    var m, s := DomainWatermark(cfg, maxTime, flags, MARKET).value, DomainWatermark(cfg, maxTime, flags, SOCIAL).value;
    LeastOfTwo([m], [s]);
  }
}
