/** What the log of a run says of each source, and of the watermarks and flags that rest on it. */
module FeatureSources {
  import opened Wrappers
  import opened FeatureSignals
  import opened FeatureWindows
  import opened FeatureLaws
  import opened FeatureRuns
  import opened FeatureTheorems

  // ---------------------------------------------------------------- the flags an ingest leaves

  lemma SettleAgain(cfg: Config, st: State, scope: string, asset: string)
    requires ValidConfig(cfg)
    ensures Settle(cfg, Settle(cfg, st, scope, asset), scope, asset) == Settle(cfg, st, scope, asset)
  {
    SettleChangesNoWatermark(cfg, st, scope, asset);
    SettledMeansNoWrite(cfg, Settle(cfg, st, scope, asset), scope, asset);
  }

  /** The flags of both sources of the asset, as a snapshot records them. */
  ghost predicate Records(s: Snapshot, st: State) {
    s.features.market == FlagsOf(st, s.key, Market) && s.features.socialFlags == FlagsOf(st, s.key, Social)
  }

  ghost predicate AllRecord(changed: seq<Snapshot>, settled: State) {
    forall s :: s in changed ==> Records(s, settled)
  }

  lemma BuildRecords(cfg: Config, st: State, key: Key, force: bool)
    requires ValidConfig(cfg)
    ensures var settled, next := Settle(cfg, st, key.scope, key.asset), Build(cfg, st, key, force);
            && next.flags == settled.flags && next.maxTime == st.maxTime
            && Settle(cfg, next, key.scope, key.asset).flags == settled.flags
            && Records(Latest(next, key), settled)
  {
    SettleAgain(cfg, st, key.scope, key.asset);
    hide SettleFrom, InputsOf, LineageOf, Fusion;
  }

  lemma {:induction false} BuildEachRecords(
      cfg: Config, st: State, keys: seq<Key>, force: bool, scope: string, asset: string)
    requires ValidConfig(cfg) && forall k :: k in keys ==> k.scope == scope && k.asset == asset
    ensures var settled, r := Settle(cfg, st, scope, asset), BuildEach(cfg, st, keys, force);
            && r.state.flags == (if keys == [] then st.flags else settled.flags) && r.state.maxTime == st.maxTime
            && Settle(cfg, r.state, scope, asset).flags == settled.flags && AllRecord(r.changed, settled)
    decreases |keys|
  {
    if keys != [] {
      var next := Build(cfg, st, keys[0], force);
      BuildRecords(cfg, st, keys[0], force);
      BuildEachRecords(cfg, next, keys[1..], force, scope, asset);
      hide Build, SettleFrom, Records;
      var settled, again := Settle(cfg, st, scope, asset), Settle(cfg, next, scope, asset);
      var rest := BuildEach(cfg, next, keys[1..], force);
      assert AllRecord([Latest(next, keys[0])], settled);
      hide AllRecord;
      SameRecords(rest.changed, again, settled);
      BothRecord([Latest(next, keys[0])], rest.changed, settled);
    }
  }

  lemma PlaceRecords(cfg: Config, st: State, signal: Signal, key: Key)
    requires ValidConfig(cfg) && key.scope == signal.scope && key.asset == signal.asset
    ensures var settled, r := Settle(cfg, st, signal.scope, signal.asset), Place(cfg, st, signal, key);
            && r.state.flags == settled.flags && r.state.maxTime == st.maxTime
            && Settle(cfg, r.state, signal.scope, signal.asset).flags == settled.flags
            && AllRecord(r.changed, settled)
  {
    var filed := File(st, key, signal);
    BuildEachRecords(cfg, filed, Rebuilt(st.order, key), false, signal.scope, signal.asset);
    SameRecords(Place(cfg, st, signal, key).changed, Settle(cfg, filed, signal.scope, signal.asset),
                Settle(cfg, st, signal.scope, signal.asset));
    hide BuildEach, SettleFrom, AllRecord;
  }

  lemma SameRecords(changed: seq<Snapshot>, st: State, next: State)
    requires st.flags == next.flags
    ensures AllRecord(changed, st) <==> AllRecord(changed, next)
  {
  }

  lemma {:induction false} PlaceEachRecords(cfg: Config, st: State, signal: Signal, keys: seq<Key>)
    requires ValidConfig(cfg) && forall k :: k in keys ==> k.scope == signal.scope && k.asset == signal.asset
    ensures var settled, r := Settle(cfg, st, signal.scope, signal.asset), PlaceEach(cfg, st, signal, keys);
            && r.state.flags == (if keys == [] then st.flags else settled.flags) && r.state.maxTime == st.maxTime
            && Settle(cfg, r.state, signal.scope, signal.asset).flags == settled.flags
            && AllRecord(r.changed, settled)
    decreases |keys|
  {
    if keys != [] {
      var here := Place(cfg, st, signal, keys[0]);
      PlaceRecords(cfg, st, signal, keys[0]);
      PlaceEachRecords(cfg, here.state, signal, keys[1..]);
      var rest := PlaceEach(cfg, here.state, signal, keys[1..]);
      hide Place, SettleFrom, AllRecord;
      var settled, again :=
        Settle(cfg, st, signal.scope, signal.asset), Settle(cfg, here.state, signal.scope, signal.asset);
      SameRecords(rest.changed, again, settled);
      BothRecord(here.changed, rest.changed, settled);
    }
  }

  lemma BothRecord(xs: seq<Snapshot>, ys: seq<Snapshot>, settled: State)
    requires AllRecord(xs, settled) && AllRecord(ys, settled)
    ensures AllRecord(xs + ys, settled)
  {
  }

  lemma FinalizeRecords(cfg: Config, st: State, scope: string, asset: string)
    requires ValidConfig(cfg)
    ensures var settled, r := Settle(cfg, st, scope, asset), Finalize(cfg, st, scope, asset);
            r.state.flags == settled.flags && AllRecord(r.changed, settled)
  {
    var settled := Settle(cfg, st, scope, asset);
    var watermark := Watermark(cfg, settled, scope, asset);
    var keys := Overdue(settled, settled.order, scope, asset, watermark);
    OverdueMembers(settled, settled.order, scope, asset, watermark);
    SettleAgain(cfg, st, scope, asset);
    hide BuildEach, SettleFrom, Fusion, Overdue, AllRecord;
    BuildEachRecords(cfg, settled, keys, true, scope, asset);
  }

  /** An ingest leaves the flags that its bookkeeping and one reading of the watermarks leave. */
  lemma IngestSettles(cfg: Config, st: State, signal: Signal)
    requires ValidConfig(cfg) && IsNewSignal(st, signal)
    ensures var r := Ingest(cfg, st, signal);
            && r.state.flags == Settle(cfg, Record(st, signal), signal.scope, signal.asset).flags
            && AllRecord(r.changed, r.state)
  {
    var recorded, placed := Record(st, signal), Placed(cfg, st, signal);
    var settled, again := Settle(cfg, recorded, signal.scope, signal.asset),
                          Settle(cfg, placed.state, signal.scope, signal.asset);
    var finalized := Finalize(cfg, placed.state, signal.scope, signal.asset);
    hide PlaceEach, Record, SettleFrom, Finalize, AllRecord;
    PlaceEachRecords(cfg, recorded, signal, WindowsOf(cfg, signal));
    FinalizeRecords(cfg, placed.state, signal.scope, signal.asset);
    SameRecords(placed.changed, settled, finalized.state);
    SameRecords(finalized.changed, again, finalized.state);
    BothRecord(placed.changed, finalized.changed, finalized.state);
  }

  // ---------------------------------------------------------------- what a source has said

  predicate From(s: Signal, src: Source) { s.scope == src.scope && s.asset == src.asset && s.domain == src.domain }

  /** The signals of a source, in order of arrival. */
  function Heard(log: seq<Signal>, src: Source): seq<Signal> {
    if log == [] then []
    else
      var last := log[|log| - 1];
      Heard(log[..|log| - 1], src) + (if From(last, src) then [last] else [])
  }

  /** The time is that of some of these signals, and of none is it later. */
  ghost predicate IsLatest(signals: seq<Signal>, time: int) {
    && (exists i :: 0 <= i < |signals| && signals[i].eventTime == time)
    && forall i :: 0 <= i < |signals| ==> signals[i].eventTime <= time
  }

  /** The latest quality report says that the source is degraded; only another report takes that back. */
  ghost predicate SaidDegraded(heard: seq<Signal>) {
    exists n :: 0 <= n < |heard| && heard[n].kind == DataQuality && heard[n].values.sourceDegraded == Some(true)
                && forall m :: n < m < |heard| ==> heard[m].kind != DataQuality
  }

  /** The last thing heard of the source is a report that it is idle. */
  ghost predicate SaidIdle(heard: seq<Signal>) {
    heard != [] && heard[|heard| - 1].kind == DataQuality && heard[|heard| - 1].values.sourceIdle == Some(true)
  }

  /** The last thing heard of the source is a report that it is not active. */
  ghost predicate SaidInactive(heard: seq<Signal>) {
    heard != [] && heard[|heard| - 1].kind == DataQuality && heard[|heard| - 1].values.sourceActive == Some(false)
  }

  /** The latest event time of either source of the asset. */
  ghost predicate IsNewest(log: seq<Signal>, scope: string, asset: string, time: int) {
    IsLatest(Heard(log, Source(scope, asset, Market)) + Heard(log, Source(scope, asset, Social)), time)
  }

  /** The source is behind the newest event of its asset by the idle limit. */
  ghost predicate Lags(cfg: Config, log: seq<Signal>, src: Source) {
    exists own, newest ::
      && IsLatest(Heard(log, src), own) && IsNewest(log, src.scope, src.asset, newest)
      && newest - own >= cfg.idleAfter * 1_000_000
  }

  /** What the books hold of a source by what it has said, but for a mark of idleness. */
  ghost predicate BookedButMarks(maxTime: map<Source, int>, flags: map<Source, Flags>, log: seq<Signal>, src: Source) {
    var heard := Heard(log, src);
    && (src in flags <==> heard != []) && (src in maxTime <==> heard != [])
    && (heard != [] ==>
          && IsLatest(heard, maxTime[src]) && (flags[src].degraded <==> SaidDegraded(heard))
          && (SaidIdle(heard) ==> flags[src].idle) && (!SaidInactive(heard) ==> flags[src].active))
  }

  /** The flags differ from what the source has said by a mark of idleness. */
  ghost predicate Marked(flags: map<Source, Flags>, heard: seq<Signal>, src: Source) {
    src in flags && ((flags[src].idle && !SaidIdle(heard)) || (flags[src].active && SaidInactive(heard)))
  }

  ghost predicate Booked(cfg: Config, st: State, src: Source) {
    && BookedButMarks(st.maxTime, st.flags, st.log, src)
    && (Marked(st.flags, Heard(st.log, src), src) ==>
          src.domain in cfg.required && !st.flags[src].degraded && Lags(cfg, st.log, src))
  }

  ghost predicate AllBooked(cfg: Config, st: State) { forall src :: Booked(cfg, st, src) }

  lemma HeardOneMore(log: seq<Signal>, signal: Signal, src: Source)
    ensures Heard(log + [signal], src) == Heard(log, src) + (if From(signal, src) then [signal] else [])
  {
    assert (log + [signal])[..|log|] == log;
  }

  lemma LatestOneMore(signals: seq<Signal>, s: Signal, time: int)
    requires signals != [] ==> IsLatest(signals, time)
    ensures IsLatest(signals + [s], if signals != [] && time > s.eventTime then time else s.eventTime)
  {
    var more := signals + [s];
    assert more[|signals|] == s && forall i :: 0 <= i < |signals| ==> more[i] == signals[i];
    if signals != [] {
      var i :| 0 <= i < |signals| && signals[i].eventTime == time;
      assert more[i].eventTime == time;
    }
  }

  lemma DegradedOneMore(heard: seq<Signal>, s: Signal)
    ensures SaidDegraded(heard + [s]) <==>
            if s.kind == DataQuality then s.values.sourceDegraded == Some(true) else SaidDegraded(heard)
  {
    var more := heard + [s];
    assert more[|heard|] == s && forall i :: 0 <= i < |heard| ==> more[i] == heard[i];
    if s.kind != DataQuality && SaidDegraded(heard) {
      var n :| && 0 <= n < |heard| && heard[n].kind == DataQuality && heard[n].values.sourceDegraded == Some(true)
               && forall m :: n < m < |heard| ==> heard[m].kind != DataQuality;
      assert more[n].kind == DataQuality;
    }
    if s.kind == DataQuality && SaidDegraded(more) {
      var n :| && 0 <= n < |more| && more[n].kind == DataQuality && more[n].values.sourceDegraded == Some(true)
               && forall m :: n < m < |more| ==> more[m].kind != DataQuality;
      assert n == |heard|;
    }
  }

  ghost predicate Times(maxTime: map<Source, int>, log: seq<Signal>, src: Source) {
    (src in maxTime <==> Heard(log, src) != []) && (src in maxTime ==> IsLatest(Heard(log, src), maxTime[src]))
  }

  /** The latest time of signals, if there are any. */
  ghost predicate LatestThereIs(signals: seq<Signal>, time: Option<int>) {
    (time.Some? <==> signals != []) && (time.Some? ==> IsLatest(signals, time.value))
  }

  lemma LatestOfBoth(xs: seq<Signal>, ys: seq<Signal>, x: Option<int>, y: Option<int>, time: int)
    requires LatestThereIs(xs, x) && LatestThereIs(ys, y)
    ensures var newest := if x.Some? && y.Some? then Some(if x.value >= y.value then x.value else y.value)
                          else if x.Some? then x else y;
            IsLatest(xs + ys, time) <==> newest == Some(time)
  {
    var both := xs + ys;
    assert forall i :: 0 <= i < |xs| ==> both[i] == xs[i];
    assert forall i :: 0 <= i < |ys| ==> both[|xs| + i] == ys[i];
  }

  /** The newest time of the books is the newest of the log. */
  lemma NewestIsOfLog(maxTime: map<Source, int>, log: seq<Signal>, scope: string, asset: string)
    requires Times(maxTime, log, Source(scope, asset, Market)) && Times(maxTime, log, Source(scope, asset, Social))
    ensures forall time :: IsNewest(log, scope, asset, time) <==> Newest(maxTime, scope, asset) == Some(time)
  {
    var market, social := Source(scope, asset, Market), Source(scope, asset, Social);
    var m := if market in maxTime then Some(maxTime[market]) else None;
    var s := if social in maxTime then Some(maxTime[social]) else None;
    hide Heard, IsLatest;
    forall time ensures IsNewest(log, scope, asset, time) <==> Newest(maxTime, scope, asset) == Some(time) {
      LatestOfBoth(Heard(log, market), Heard(log, social), m, s, time);
    }
  }

  /** A source lags exactly when its books say so. */
  lemma LagsByBooks(cfg: Config, maxTime: map<Source, int>, log: seq<Signal>, src: Source)
    requires forall d :: Times(maxTime, log, Source(src.scope, src.asset, d))
    ensures var newest := Newest(maxTime, src.scope, src.asset);
            Lags(cfg, log, src) <==>
            src in maxTime && newest.Some? && newest.value - maxTime[src] >= cfg.idleAfter * SECOND
  {
    assert Times(maxTime, log, Source(src.scope, src.asset, src.domain));
    assert Times(maxTime, log, Source(src.scope, src.asset, Market));
    assert Times(maxTime, log, Source(src.scope, src.asset, Social));
    NewestIsOfLog(maxTime, log, src.scope, src.asset);
    if Lags(cfg, log, src) {
      var own, newest :| IsLatest(Heard(log, src), own) && IsNewest(log, src.scope, src.asset, newest)
                         && newest - own >= cfg.idleAfter * 1_000_000;
      assert own == maxTime[src];
    }
  }

  // ---------------------------------------------------------------- over every run

  /** Recording a signal rewrites the books of its own source by what it says. */
  lemma RecordedOwn(cfg: Config, st: State, signal: Signal)
    requires Booked(cfg, st, Source(signal.scope, signal.asset, signal.domain))
    ensures var src, next := Source(signal.scope, signal.asset, signal.domain), Record(st, signal);
            && BookedButMarks(next.maxTime, next.flags, next.log, src)
            && !Marked(next.flags, Heard(next.log, src), src)
            && (src in st.maxTime ==> src in next.maxTime && st.maxTime[src] <= next.maxTime[src])
  {
    var src := Source(signal.scope, signal.asset, signal.domain);
    HeardOneMore(st.log, signal, src);
    var before := Heard(st.log, src);
    LatestOneMore(before, signal, if before != [] then st.maxTime[src] else 0);
    SaidNext(before, if src in st.flags then st.flags[src] else Flags(true, false, false), signal);
    hide SaidDegraded, SaidIdle, SaidInactive, IsLatest, Heard, FlagsAfter;
  }

  /** The flags a signal leaves are what the source, with it, has said. */
  lemma SaidNext(before: seq<Signal>, flags: Flags, signal: Signal)
    requires if before == [] then !flags.degraded else flags.degraded <==> SaidDegraded(before)
    ensures var next, heard := FlagsAfter(flags, signal), before + [signal];
            && (next.degraded <==> SaidDegraded(heard)) && (next.idle <==> SaidIdle(heard))
            && (next.active <==> !SaidInactive(heard))
  {
    DegradedOneMore(before, signal);
    assert before == [] ==> !SaidDegraded(before);
    hide SaidDegraded;
  }

  /** And leaves those of the others. */
  lemma RecordedOther(cfg: Config, st: State, signal: Signal, src: Source)
    requires Booked(cfg, st, src) && !From(signal, src)
    ensures var next := Record(st, signal);
            && BookedButMarks(next.maxTime, next.flags, next.log, src) && Heard(next.log, src) == Heard(st.log, src)
            && (src in next.flags <==> src in st.flags) && (src in next.maxTime <==> src in st.maxTime)
            && (src in st.flags ==> next.flags[src] == st.flags[src])
            && (src in st.maxTime ==> next.maxTime[src] == st.maxTime[src])
  {
    HeardOneMore(st.log, signal, src);
    assert src != Source(signal.scope, signal.asset, signal.domain);
    assert Record(st, signal).log == st.log + [signal];
    assert Heard(st.log, src) + [] == Heard(st.log, src);
    hide SaidDegraded, IsLatest, Heard;
  }

  lemma RecordedSource(cfg: Config, st: State, signal: Signal, src: Source)
    requires Booked(cfg, st, src)
    ensures var next := Record(st, signal);
            && BookedButMarks(next.maxTime, next.flags, next.log, src)
            && (src in st.maxTime ==> src in next.maxTime && st.maxTime[src] <= next.maxTime[src])
  {
    if From(signal, src) {
      assert src == Source(signal.scope, signal.asset, signal.domain);
      RecordedOwn(cfg, st, signal);
    } else {
      RecordedOther(cfg, st, signal, src);
    }
  }

  /** A source that lagged lags still, if it has not been heard of again. */
  lemma StillLags(cfg: Config, st: State, signal: Signal, src: Source)
    requires AllBooked(cfg, st) && !From(signal, src) && Lags(cfg, st.log, src)
    requires forall s :: BookedButMarks(Record(st, signal).maxTime, Record(st, signal).flags, Record(st, signal).log, s)
    ensures Lags(cfg, Record(st, signal).log, src)
  {
    var next := Record(st, signal);
    RecordedOther(cfg, st, signal, src);
    var market, social := Source(src.scope, src.asset, Market), Source(src.scope, src.asset, Social);
    assert Booked(cfg, st, market) && Booked(cfg, st, social);
    RecordedSource(cfg, st, signal, market);
    RecordedSource(cfg, st, signal, social);
    hide Record, Lags, Heard, IsLatest, SaidDegraded;
    forall d ensures Times(st.maxTime, st.log, Source(src.scope, src.asset, d))
             ensures Times(next.maxTime, next.log, Source(src.scope, src.asset, d)) {
      assert Booked(cfg, st, Source(src.scope, src.asset, d));
      assert BookedButMarks(next.maxTime, next.flags, next.log, Source(src.scope, src.asset, d));
    }
    LagsByBooks(cfg, st.maxTime, st.log, src);
    LagsByBooks(cfg, next.maxTime, next.log, src);
  }

  lemma IngestBooksSource(cfg: Config, st: State, signal: Signal, src: Source)
    requires ValidConfig(cfg) && AllBooked(cfg, st) && Quiet(cfg, st) && IsNewSignal(st, signal)
    ensures Booked(cfg, Ingest(cfg, st, signal).state, src)
  {
    var recorded, next := Record(st, signal), Ingest(cfg, st, signal).state;
    IngestLogs(cfg, st, signal);
    IngestSettles(cfg, st, signal);
    hide Ingest, Record, SettleFrom, IsLatest, SaidDegraded, SaidIdle, SaidInactive, Lags, Heard;
    forall s ensures BookedButMarks(recorded.maxTime, recorded.flags, recorded.log, s) {
      assert Booked(cfg, st, s);
      RecordedSource(cfg, st, signal, s);
    }
    assert Booked(cfg, st, src);
    if From(signal, src) {
      assert src == Source(signal.scope, signal.asset, signal.domain);
      RecordedOwn(cfg, st, signal);
    } else {
      RecordedOther(cfg, st, signal, src);
    }
    SettleFromWrites(cfg, recorded.maxTime, recorded.flags, signal.scope, signal.asset, 0);
    assert cfg.required[0..] == cfg.required;
    if src in next.flags && next.flags[src] != recorded.flags[src] {
      forall d ensures Times(next.maxTime, next.log, Source(src.scope, src.asset, d)) {
        assert BookedButMarks(recorded.maxTime, recorded.flags, recorded.log, Source(src.scope, src.asset, d));
      }
      LagsByBooks(cfg, next.maxTime, next.log, src);
    } else if Marked(next.flags, Heard(next.log, src), src) {
      StillLags(cfg, st, signal, src);
    }
  }

  /** In every reachable state the books hold of each source what the log tells. */
  lemma {:induction false} BooksTellLog(cfg: Config, ops: seq<Op>)
    requires ValidConfig(cfg)
    ensures AllBooked(cfg, Run(cfg, ops))
  {
    if ops != [] {
      var init, st := ops[..|ops| - 1], Run(cfg, ops[..|ops| - 1]);
      BooksTellLog(cfg, init);
      RunsAreSound(cfg, init);
      match ops[|ops| - 1]
      case Query(scope, asset) => QueryKeepsSound(cfg, st, scope, asset);
      case Arrive(signal) =>
        if IsNewSignal(st, signal) {
          forall src ensures Booked(cfg, Ingest(cfg, st, signal).state, src) {
            IngestBooksSource(cfg, st, signal, src);
          }
        }
    } else {
      assert forall src :: Heard([], src) == [];
    }
  }

  // ---------------------------------------------------------------- the watermark, from the log alone

  /**
   * The watermark of a source: it has one if it was heard of and its latest report does not say degraded; it
   * is the lateness behind the newest event of the asset if the source lags or says it is idle, and behind its
   * own latest if not.
   */
  ghost predicate Stands(cfg: Config, log: seq<Signal>, src: Source, watermark: int) {
    var heard := Heard(log, src);
    && heard != [] && !SaidDegraded(heard)
    && if Lags(cfg, log, src) || SaidIdle(heard)
       then IsNewest(log, src.scope, src.asset, watermark + cfg.lateness * 1_000_000)
       else IsLatest(heard, watermark + cfg.lateness * 1_000_000)
  }

  lemma LatestIsOne(signals: seq<Signal>, time: int)
    requires IsLatest(signals, time)
    ensures forall t :: IsLatest(signals, t) <==> t == time
  {
  }

  /** What the books of a source say of its signals. */
  lemma BooksOf(cfg: Config, st: State, src: Source)
    requires AllBooked(cfg, st)
    ensures var heard := Heard(st.log, src);
            && (src in st.flags <==> heard != []) && (src in st.maxTime <==> heard != [])
            && (heard != [] ==>
                  && (forall t :: IsLatest(heard, t) <==> t == st.maxTime[src])
                  && (st.flags[src].degraded <==> SaidDegraded(heard)) && (SaidIdle(heard) ==> st.flags[src].idle)
                  && (st.flags[src].idle && !SaidIdle(heard) ==> Lags(cfg, st.log, src)))
  {
    assert Booked(cfg, st, src);
    hide Lags, IsLatest, SaidDegraded, SaidIdle, SaidInactive, Heard;
    if Heard(st.log, src) != [] {
      LatestIsOne(Heard(st.log, src), st.maxTime[src]);
    }
  }

  lemma NewestBooked(cfg: Config, st: State, src: Source)
    requires AllBooked(cfg, st)
    ensures var newest := Newest(st.maxTime, src.scope, src.asset);
            && (forall time :: IsNewest(st.log, src.scope, src.asset, time) <==> newest == Some(time))
            && (Lags(cfg, st.log, src) <==>
                src in st.maxTime && newest.Some? && newest.value - st.maxTime[src] >= cfg.idleAfter * SECOND)
  {
    forall d ensures Times(st.maxTime, st.log, Source(src.scope, src.asset, d)) {
      assert Booked(cfg, st, Source(src.scope, src.asset, d));
    }
    hide Booked, Times, IsNewest, Newest, Lags;
    NewestIsOfLog(st.maxTime, st.log, src.scope, src.asset);
    LagsByBooks(cfg, st.maxTime, st.log, src);
  }

  lemma SourceStands(cfg: Config, st: State, src: Source, watermark: int)
    requires ValidConfig(cfg) && AllBooked(cfg, st)
    ensures DomainWatermark(cfg, st.maxTime, st.flags, src) == Some(watermark) <==> Stands(cfg, st.log, src, watermark)
  {
    hide AllBooked, Lags, IsNewest, IsLatest, SaidDegraded, SaidIdle, Heard, Newest;
    BooksOf(cfg, st, src);
    NewestBooked(cfg, st, src);
    HasNewest(st.maxTime, src);
  }

  lemma HasNewest(maxTime: map<Source, int>, src: Source)
    ensures src in maxTime ==> Newest(maxTime, src.scope, src.asset).Some?
  {
    assert src == Source(src.scope, src.asset, Market) || src == Source(src.scope, src.asset, Social) by {
      assert src.domain.Market? || src.domain.Social?;
    }
  }

  /** Each required source has a watermark, none under this one, and this is the watermark of one of them. */
  ghost predicate LeastStands(cfg: Config, log: seq<Signal>, scope: string, asset: string, watermark: int) {
    && (forall d :: d in cfg.required ==>
          exists w :: watermark <= w && Stands(cfg, log, Source(scope, asset, d), w))
    && exists d :: d in cfg.required && Stands(cfg, log, Source(scope, asset, d), watermark)
  }

  ghost predicate StandAsBooked(cfg: Config, st: State, scope: string, asset: string) {
    forall d, w :: DomainWatermark(cfg, st.maxTime, st.flags, Source(scope, asset, d)) == Some(w)
                   <==> Stands(cfg, st.log, Source(scope, asset, d), w)
  }

  lemma LeastOfBooked(cfg: Config, st: State, scope: string, asset: string, watermark: int)
    requires StandAsBooked(cfg, st, scope, asset)
    ensures IsLeastOfRequired(cfg, st, scope, asset, watermark) <==> LeastStands(cfg, st.log, scope, asset, watermark)
  {
    hide DomainWatermark, Stands;
    if IsLeastOfRequired(cfg, st, scope, asset, watermark) {
      forall d | d in cfg.required
        ensures exists w :: watermark <= w && Stands(cfg, st.log, Source(scope, asset, d), w)
      {
        var here := DomainWatermark(cfg, st.maxTime, st.flags, Source(scope, asset, d));
        assert Stands(cfg, st.log, Source(scope, asset, d), here.value);
      }
    }
    if LeastStands(cfg, st.log, scope, asset, watermark) {
      forall d | d in cfg.required
        ensures var here := DomainWatermark(cfg, st.maxTime, st.flags, Source(scope, asset, d));
                here.Some? && watermark <= here.value
      {
        var w :| watermark <= w && Stands(cfg, st.log, Source(scope, asset, d), w);
        assert DomainWatermark(cfg, st.maxTime, st.flags, Source(scope, asset, d)) == Some(w);
      }
    }
  }

  lemma LeastIsOne(cfg: Config, st: State, scope: string, asset: string, v: int, w: int)
    requires IsLeastOfRequired(cfg, st, scope, asset, v) && IsLeastOfRequired(cfg, st, scope, asset, w)
    ensures v == w
  {
    hide DomainWatermark;
  }

  /**
   * The watermark of a run is a matter of its log alone: it is there exactly when no domain is required twice
   * and each required source has one, and it is the least of theirs.
   */
  lemma WatermarkIsOfLog(cfg: Config, ops: seq<Op>, scope: string, asset: string, watermark: int)
    requires ValidConfig(cfg)
    ensures Watermark(cfg, Run(cfg, ops), scope, asset) == Some(watermark)
            <==> Distinct(cfg.required) && LeastStands(cfg, Run(cfg, ops).log, scope, asset, watermark)
  {
    var st := Run(cfg, ops);
    BooksTellLog(cfg, ops);
    WatermarkIsLeast(cfg, st, scope, asset);
    forall d, w
      ensures DomainWatermark(cfg, st.maxTime, st.flags, Source(scope, asset, d)) == Some(w)
              <==> Stands(cfg, st.log, Source(scope, asset, d), w)
    {
      SourceStands(cfg, st, Source(scope, asset, d), w);
    }
    LeastOfBooked(cfg, st, scope, asset, watermark);
    hide DomainWatermark, Fusion, Run, LeastStands, Distinct;
    if IsLeastOfRequired(cfg, st, scope, asset, watermark) && Watermark(cfg, st, scope, asset).Some? {
      LeastIsOne(cfg, st, scope, asset, watermark, Watermark(cfg, st, scope, asset).value);
    }
  }

  /**
   * A source's flags as the log tells them. One not heard of yet counts as degraded; one that lags, is required
   * and not degraded is idle and active; otherwise a source is what it last said of itself.
   */
  ghost predicate FlagsTell(cfg: Config, log: seq<Signal>, src: Source, f: Flags) {
    var heard := Heard(log, src);
    if heard == [] then f == Flags(false, false, true)
    else
      && (f.degraded <==> SaidDegraded(heard))
      && var marked := src.domain in cfg.required && !SaidDegraded(heard) && Lags(cfg, log, src);
         (f.idle <==> SaidIdle(heard) || marked) && (f.active <==> !SaidInactive(heard) || marked)
  }

  lemma FlagsAreTold(cfg: Config, st: State, key: Key, domain: Domain)
    requires ValidConfig(cfg) && AllBooked(cfg, st) && SettledFor(cfg, st, key.scope, key.asset)
    ensures FlagsTell(cfg, st.log, Source(key.scope, key.asset, domain), FlagsOf(st, key, domain))
  {
    var src := Source(key.scope, key.asset, domain);
    forall d ensures Times(st.maxTime, st.log, Source(src.scope, src.asset, d)) {
      assert Booked(cfg, st, Source(src.scope, src.asset, d));
    }
    assert Booked(cfg, st, src);
    LagsByBooks(cfg, st.maxTime, st.log, src);
    hide Lags, IsNewest, IsLatest, SaidDegraded, Heard, Times, AllBooked;
  }

  /** Every revision records the flags of both sources as the log tells them when it is made. */
  lemma RevisionsRecordFlags(cfg: Config, ops: seq<Op>, signal: Signal, s: Snapshot)
    requires ValidConfig(cfg) && s in Ingest(cfg, Run(cfg, ops), signal).changed
    ensures var log := Run(cfg, ops + [Arrive(signal)]).log;
            && FlagsTell(cfg, log, Source(s.key.scope, s.key.asset, Market), s.features.market)
            && FlagsTell(cfg, log, Source(s.key.scope, s.key.asset, Social), s.features.socialFlags)
  {
    var all := ops + [Arrive(signal)];
    assert all[..|ops|] == ops;
    RunsAreSound(cfg, all);
    BooksTellLog(cfg, all);
    IngestSettles(cfg, Run(cfg, ops), signal);
    FlagsAreTold(cfg, Run(cfg, all), s.key, Market);
    FlagsAreTold(cfg, Run(cfg, all), s.key, Social);
  }
}
