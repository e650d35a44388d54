/** The feature window engine as the object the source has, its fields updated in place. */
module FeatureEngine {
  import opened Wrappers
  import opened Sorting
  import opened FeatureSignals
  import opened FeatureWindows
  import opened FeatureLaws
  import opened FeatureBuilding
  import opened FeatureIndex
  import opened FeatureRuns
  import opened FeatureTheorems
  import opened FeatureTraces

  const STATE_VERSION := "feature-engine-state-v1"

  /** An exported state; `signals` is absent when the entry is missing or is not a list. */
  datatype Checkpoint = Checkpoint(version: string, signals: Option<seq<Signal>>)

  datatype EngineError = NonPositiveInterval | NotEmpty | UnsupportedVersion | MalformedSignals

  class FeatureWindowEngine {
    const cfg: Config
    var events: map<Key, seq<Signal>>
    var order: seq<Key>
    var revisions: map<Key, seq<Snapshot>>
    var maxTime: map<Source, int>
    var flags: map<Source, Flags>
    var seen: set<SeenId>
    var firstSeen: map<Author, int>
    var log: seq<Signal>

    function View(): State
      reads this
    {
      State(events, order, revisions, maxTime, flags, seen, firstSeen, log)
    }

    /** The state is one that some run of arrivals and watermark queries leads to. */
    ghost predicate Valid()
      reads this
    {
      ValidConfig(cfg) && Reachable(cfg, View())
    }

    constructor (cfg: Config)
      ensures this.cfg == cfg && View() == EMPTY && (ValidConfig(cfg) ==> Valid())
    {
      this.cfg := cfg;
      events, order, revisions := map[], [], map[];
      maxTime, flags, seen, firstSeen, log := map[], map[], {}, map[], [];
      new;
      if ValidConfig(cfg) {
        assert View() == Run(cfg, []);
      }
    }

    /**
     * The checked construction: intervals must be given and positive. An engine without required domains
     * can be made, but not used: its first watermark is the least of nothing.
     */
    static method Create(intervals: seq<int>, lateness: int, idleAfter: int, required: seq<Domain>)
      returns (r: Result<FeatureWindowEngine, EngineError>)
      ensures r.Failure? <==> intervals == [] || exists i :: i in intervals && i <= 0
      ensures r.Failure? ==> r.error == NonPositiveInterval
      ensures r.Success? ==>
                && fresh(r.value) && r.value.View() == EMPTY && (required != [] ==> r.value.Valid())
                && r.value.cfg == Config(intervals, lateness, idleAfter, required, Raw)
    {
      if intervals == [] {
        return Failure(NonPositiveInterval);
      }
      for n := 0 to |intervals|
        invariant forall i :: i in intervals[..n] ==> i > 0
      {
        if intervals[n] <= 0 {
          assert intervals[n] in intervals;
          return Failure(NonPositiveInterval);
        }
        assert intervals[..n + 1] == intervals[..n] + [intervals[n]];
      }
      assert intervals[..|intervals|] == intervals;
      var engine := new FeatureWindowEngine(Config(intervals, lateness, idleAfter, required, Raw));
      r := Success(engine);
    }

    /** The watermark of each required domain and of their fusion; idle sources get marked. */
    method Watermarks(scope: string, asset: string) returns (domains: map<Domain, Option<int>>, fusion: Option<int>)
      requires ValidConfig(cfg)
      modifies this`flags
      ensures View() == Settle(cfg, old(View()), scope, asset)
      ensures fusion == Watermark(cfg, old(View()), scope, asset)
      ensures domains.Keys == set d | d in cfg.required
      ensures forall d :: d in domains ==>
                domains[d] == DomainWatermark(cfg, old(maxTime), old(flags), Source(scope, asset, d))
    {
      domains := map[];
      var newest := Newest(maxTime, scope, asset);
      for n := 0 to |cfg.required|
        invariant SettleFrom(cfg, maxTime, flags, scope, asset, n)
               == SettleFrom(cfg, maxTime, old(flags), scope, asset, 0)
        invariant forall src: Source ::
                DomainWatermark(cfg, maxTime, flags, src) == DomainWatermark(cfg, maxTime, old(flags), src)
        invariant domains.Keys == set d | d in cfg.required[..n]
        invariant forall d :: d in domains ==>
                    domains[d] == DomainWatermark(cfg, maxTime, old(flags), Source(scope, asset, d))
      {
        var src := Source(scope, asset, cfg.required[n]);
        var here: Option<int> := None;
        if src in flags && !flags[src].degraded {
          if newest.Some? && src in maxTime && newest.value - maxTime[src] >= cfg.idleAfter * SECOND {
            here := Some(newest.value - cfg.lateness * SECOND);
          } else if flags[src].idle && newest.Some? {
            here := Some(newest.value - cfg.lateness * SECOND);
          } else if src in maxTime {
            here := Some(maxTime[src] - cfg.lateness * SECOND);
          }
        }
        assert here == DomainWatermark(cfg, maxTime, flags, src);
        hide DomainWatermark, SettleFrom;
        MarkingStep(cfg, maxTime, flags, scope, asset, n);
        domains := domains[cfg.required[n] := here];
        assert cfg.required[..n + 1] == cfg.required[..n] + [cfg.required[n]];
        if GoneIdle(cfg, maxTime, flags, src) {
          flags := flags[src := Flags(true, true, false)];
        }
      }
      assert cfg.required[..|cfg.required|] == cfg.required;
      var available := ValueOf(domains, Market) + ValueOf(domains, Social);
      fusion := if |available| == |cfg.required| then Some(MinInt(available)) else None;
    }

    static function ValueOf(domains: map<Domain, Option<int>>, domain: Domain): seq<int> {
      if domain in domains && domains[domain].Some? then [domains[domain].value] else []
    }

    static method Classify(prior: seq<Snapshot>, finalize: bool) returns (state: RevisionState, supersedes: Option<nat>)
      ensures state == NextState(prior, finalize)
      ensures supersedes == if state == Corrected then Some(prior[|prior| - 1].revision) else None
    {
      state, supersedes := Provisional, None;
      if prior != [] && prior[|prior| - 1].state != Provisional {
        state, supersedes := Corrected, Some(prior[|prior| - 1].revision);
      } else if finalize {
        state := Final;
      }
    }

    /** The next snapshot of a window as the index and the source flags stand. */
    method Describe(key: Key, force: bool, watermark: Option<int>) returns (snapshot: Snapshot)
      requires ValidConfig(cfg) && watermark == Watermark(cfg, View(), key.scope, key.asset)
      ensures snapshot == NextSnapshot(cfg, View(), key, force)
    {
      var inputs := InputsOf(events, order, firstSeen, key);
      var prior := if key in revisions then revisions[key] else [];
      var state, supersedes := Classify(prior, force || Passed(watermark, key));
      var market, social := FlagsOf(View(), key, Market), FlagsOf(View(), key, Social);
      snapshot := Snapshot(
        key, End(key), |prior| + 1, state != Provisional, state, supersedes,
        FeaturesOf(cfg, key, inputs, market, social), LineageOf(inputs.events));
    }

    method BuildRevision(key: Key, force: bool) returns (snapshot: Snapshot)
      requires ValidConfig(cfg)
      modifies this`flags, this`revisions
      ensures View() == Build(cfg, old(View()), key, force)
      ensures key in revisions && revisions[key] != [] && snapshot == Latest(View(), key)
      ensures forall k :: k in old(revisions) ==> k in revisions && (k != key ==> revisions[k] == old(revisions[k]))
    {
      hide NextSnapshot;
      SettleKeepsWatermark(cfg, View(), key.scope, key.asset);
      var domains, watermark := Watermarks(key.scope, key.asset);
      snapshot := Describe(key, force, watermark);
      revisions := revisions[key := (if key in revisions then revisions[key] else []) + [snapshot]];
    }

    /** Rebuilds windows that have been built before, in order, keeping final what is final. */
    method RebuildEach(keys: seq<Key>) returns (changed: seq<Snapshot>)
      requires ValidConfig(cfg) && ValidHistories(revisions) && forall k :: k in keys ==> k in revisions
      modifies this`flags, this`revisions
      ensures Outcome(View(), changed) == BuildEach(cfg, old(View()), keys, false)
    {
      hide Build, BuildEach, ValidHistory;
      changed := [];
      ghost var total := BuildEach(cfg, View(), keys, false);
      assert keys[0..] == keys;
      for n := 0 to |keys|
        invariant ValidHistories(revisions) && forall k :: k in keys ==> k in revisions
        invariant total == After(changed, BuildEach(cfg, View(), keys[n..], false))
      {
        assert keys[n..][0] == keys[n] && keys[n..][1..] == keys[n + 1..];
        ForceIsRedundant(cfg, View(), keys[n]);
        BuildKeepsHistories(cfg, View(), keys[n], false);
        BuildEachStep(cfg, View(), keys[n..], false, changed);
        var snapshot := BuildRevision(keys[n], revisions[keys[n]][|revisions[keys[n]]| - 1].isFinal);
        changed := changed + [snapshot];
      }
      assert keys[|keys|..] == [];
      NothingBuilt(cfg, View(), false);
    }

    /** Files a signal into one window and rebuilds that window and those after it. */
    method PlaceInto(signal: Signal, key: Key) returns (changed: seq<Snapshot>)
      requires ValidConfig(cfg) && Listed(View()) && ValidHistories(revisions)
      modifies this`events, this`order, this`flags, this`revisions
      ensures Outcome(View(), changed) == Place(cfg, old(View()), signal, key)
    {
      hide NextSnapshot;
      OwnStartIsNotLater(order, key);
      DownstreamMembers(order, key);
      order := if key in events then order else order + [key];
      events := events[key := EventsOf(events, key) + [signal]];
      assert View() == File(old(View()), key, signal);
      BuildKeepsHistories(cfg, View(), key, false);
      var first := BuildRevision(key, false);
      var later := Downstream(order, key);
      var rest := RebuildEach(later);
      changed := [first] + rest;
      assert Rebuilt(old(order), key)[1..] == later;
    }

    /** Makes final what the watermark has passed; windows are visited in the order they were opened. */
    method FinalizeEligible(scope: string, asset: string) returns (finalized: seq<Snapshot>)
      requires ValidConfig(cfg) && Listed(View()) && ValidHistories(revisions)
      modifies this`flags, this`revisions
      ensures Outcome(View(), finalized) == Finalize(cfg, old(View()), scope, asset)
    {
      hide NextSnapshot;
      SettleKeepsWatermark(cfg, View(), scope, asset);
      ghost var total := Finalize(cfg, View(), scope, asset);
      finalized := [];
      var domains, watermark := Watermarks(scope, asset);
      ghost var settled := View();
      if watermark.None? {
        NoneOverdueYet(settled, order, scope, asset);
        return;
      }
      finalized := FinalizePassed(scope, asset, watermark);
    }

    method FinalizePassed(scope: string, asset: string, watermark: Option<int>) returns (finalized: seq<Snapshot>)
      requires ValidConfig(cfg) && Listed(View()) && ValidHistories(revisions)
      modifies this`flags, this`revisions
      ensures Outcome(View(), finalized)
           == BuildEach(cfg, old(View()), Overdue(old(View()), order, scope, asset, watermark), true)
    {
      hide Build, BuildEach, Overdue, Passed, ValidHistory;
      finalized := [];
      ghost var start := View();
      ghost var total := BuildEach(cfg, start, Overdue(start, order, scope, asset, watermark), true);
      assert order[0..] == order;
      for n := 0 to |order|
        invariant forall k :: k in start.revisions ==> k in revisions
        invariant forall m :: n <= m < |order| ==> revisions[order[m]] == start.revisions[order[m]]
        invariant total
               == After(finalized, BuildEach(cfg, View(), Overdue(start, order[n..], scope, asset, watermark), true))
      {
        var key := order[n];
        assert key in order;
        FinalizeStep(cfg, start, View(), n, scope, asset, watermark, finalized);
        if key.scope == scope && key.asset == asset && !revisions[key][|revisions[key]| - 1].isFinal
           && Passed(watermark, key) {
          var snapshot := BuildRevision(key, true);
          finalized := finalized + [snapshot];
        }
      }
      assert order[|order|..] == [];
      NothingOverdue(start, scope, asset, watermark);
      NothingBuilt(cfg, View(), true);
    }

    /** Notes a new signal in the log, the source table and the author table. */
    method RecordSignal(signal: Signal)
      modifies this`seen, this`log, this`maxTime, this`flags, this`firstSeen
      ensures View() == Record(old(View()), signal)
    {
      seen := seen + {SeenId(signal.scope, signal.eventId)};
      log := log + [signal];
      var src := Source(signal.scope, signal.asset, signal.domain);
      maxTime := maxTime[src := if src in maxTime && maxTime[src] > signal.eventTime then maxTime[src]
                                else signal.eventTime];
      flags := flags[src := FlagsAfter(if src in flags then flags[src] else Flags(true, false, false), signal)];
      if signal.values.authorId.Some? {
        var author := Author(signal.scope, signal.asset, signal.values.authorId.value);
        firstSeen := firstSeen[author := if author in firstSeen && firstSeen[author] < signal.eventTime
                                         then firstSeen[author] else signal.eventTime];
      }
    }

    /** Files a signal into its window of every interval. */
    method PlaceIntoEach(signal: Signal) returns (changed: seq<Snapshot>)
      requires ValidConfig(cfg) && Listed(View()) && ValidHistories(revisions)
      modifies this`events, this`order, this`flags, this`revisions
      ensures Outcome(View(), changed) == PlaceEach(cfg, old(View()), signal, WindowsOf(cfg, signal))
      ensures Listed(View()) && ValidHistories(revisions)
    {
      changed := [];
      ghost var keys := WindowsOf(cfg, signal);
      ghost var total := PlaceEach(cfg, View(), signal, keys);
      assert keys[0..] == keys;
      for n := 0 to |cfg.intervals|
        invariant Listed(View()) && ValidHistories(revisions)
        invariant total == After(changed, PlaceEach(cfg, View(), signal, keys[n..]))
      {
        var key := KeyOf(signal, cfg.intervals[n]);
        PlaceEachStep(cfg, View(), signal, keys, n, changed);
        PlaceKeepsListed(cfg, View(), signal, key);
        BuildEachHistories(cfg, File(View(), key, signal), Rebuilt(order, key), false);
        var placed := PlaceInto(signal, key);
        changed := changed + placed;
      }
    }

    /** Takes in one signal; a signal seen before changes nothing. */
    method IngestSignal(signal: Signal) returns (changed: seq<Snapshot>)
      requires Valid()
      modifies this
      ensures Valid()
      ensures Outcome(View(), changed) == Ingest(cfg, old(View()), signal)
    {
      ReachableIsSound(cfg, View());
      IngestStaysReachable(cfg, View(), signal);
      changed := [];
      if SeenId(signal.scope, signal.eventId) in seen {
        return;
      }
      RecordSignal(signal);
      changed := PlaceIntoEach(signal);
      var finalized := FinalizeEligible(signal.scope, signal.asset);
      changed := changed + finalized;
    }

    method ExportState() returns (c: Checkpoint)
      ensures c == Checkpoint(STATE_VERSION, Some(log))
    {
      c := Checkpoint(STATE_VERSION, Some(log));
    }

    /** Replays a checkpoint's signals into an engine that has seen none. */
    method RestoreState(c: Checkpoint) returns (r: Result<nat, EngineError>)
      requires Valid()
      modifies this
      ensures Valid()
      ensures r == if old(log) != [] then Failure(NotEmpty)
                   else if c.version != STATE_VERSION then Failure(UnsupportedVersion)
                   else if c.signals.None? then Failure(MalformedSignals)
                   else Success(|c.signals.value|)
      ensures View() == if r.Failure? then old(View()) else Run(cfg, Arrivals(c.signals.value))
    {
      hide Ingest, Sound;
      if log != [] {
        return Failure(NotEmpty);
      }
      if c.version != STATE_VERSION {
        return Failure(UnsupportedVersion);
      }
      if c.signals.None? {
        return Failure(MalformedSignals);
      }
      ReachableIsSound(cfg, View());
      var signals := c.signals.value;
      assert Arrivals(signals[..0]) == [];
      for n := 0 to |signals|
        invariant Valid()
        invariant View() == Run(cfg, Arrivals(signals[..n]))
      {
        ReplayOneMore(cfg, signals[..n], signals[n]);
        assert signals[..n + 1] == signals[..n] + [signals[n]];
        var changed := IngestSignal(signals[n]);
      }
      assert signals[..|signals|] == signals;
      r := Success(|signals|);
    }
  }

  /** Exporting any engine a run can produce and restoring it into a new one copies its whole state. */
  method CheckpointRoundTrip(engine: FeatureWindowEngine, ghost ops: seq<Op>) returns (copy: FeatureWindowEngine)
    requires ValidConfig(engine.cfg) && engine.View() == Run(engine.cfg, ops)
    ensures fresh(copy) && copy.cfg == engine.cfg && copy.Valid()
    ensures copy.View() == engine.View()
  {
    var checkpoint := engine.ExportState();
    copy := new FeatureWindowEngine(engine.cfg);
    var restored := copy.RestoreState(checkpoint);
    ReplayRestores(engine.cfg, ops);
  }
}
