/** What every run of the engine keeps, whatever arrives and whenever watermarks are read. */
module FeatureRuns {
  import opened Wrappers
  import opened Sorting
  import opened FeatureSignals
  import opened FeatureWindows
  import opened FeatureLaws
  import opened FeatureBuilding
  import opened FeatureIndex

  datatype Op = Arrive(signal: Signal) | Query(scope: string, asset: string)

  function Step(cfg: Config, st: State, op: Op): State
    requires ValidConfig(cfg)
  {
    match op
    case Arrive(signal) => Ingest(cfg, st, signal).state
    case Query(scope, asset) => Settle(cfg, st, scope, asset)
  }

  function Run(cfg: Config, ops: seq<Op>): State
    requires ValidConfig(cfg)
  {
    if ops == [] then EMPTY else Step(cfg, Run(cfg, ops[..|ops| - 1]), ops[|ops| - 1])
  }

  // ---------------------------------------------------------------- elsewhere

  /** Sources of other assets are as they were. */
  ghost predicate SameElsewhere(st: State, next: State, scope: string, asset: string) {
    forall src: Source :: src.scope != scope || src.asset != asset ==>
      && (src in next.maxTime <==> src in st.maxTime)
      && (src in st.maxTime ==> next.maxTime[src] == st.maxTime[src])
      && (src in next.flags <==> src in st.flags)
      && (src in st.flags ==> next.flags[src] == st.flags[src])
  }

  lemma WatermarkElsewhere(cfg: Config, st: State, next: State, scope: string, asset: string, s: string, a: string)
    requires ValidConfig(cfg) && SameElsewhere(st, next, scope, asset) && (s != scope || a != asset)
    ensures Watermark(cfg, next, s, a) == Watermark(cfg, st, s, a)
  {
    assert Newest(next.maxTime, s, a) == Newest(st.maxTime, s, a);
  }

  lemma SettledElsewhere(cfg: Config, st: State, next: State, scope: string, asset: string, s: string, a: string)
    requires SameElsewhere(st, next, scope, asset) && (s != scope || a != asset) && SettledFor(cfg, st, s, a)
    ensures SettledFor(cfg, next, s, a)
  {
    assert Newest(next.maxTime, s, a) == Newest(st.maxTime, s, a);
  }

  // ---------------------------------------------------------------- placing a signal

  ghost predicate About(changed: seq<Snapshot>, signal: Signal) {
    forall s :: s in changed ==> s.key.scope == signal.scope && s.key.asset == signal.asset
  }

  ghost predicate AllTimely(cfg: Config, st: State, changed: seq<Snapshot>)
    requires ValidConfig(cfg)
  {
    forall s :: s in changed ==> Timely(cfg, st, false, s)
  }

  lemma ReturnedBothAt(st: State, a: Outcome, b: Outcome, k: Key)
    requires Returned(st, a) && Returned(a.state, b)
    ensures History(b.state, k) == History(st, k) + Of(a.changed + b.changed, k)
  {
    var x, y, z := History(st, k), Of(a.changed, k), Of(b.changed, k);
    assert Of(a.changed + b.changed, k) == y + z by {
      OfSplits(a.changed, b.changed, k);
    }
    assert (x + y) + z == x + (y + z);
  }

  lemma ReturnedBoth(st: State, a: Outcome, b: Outcome)
    requires Returned(st, a) && Returned(a.state, b)
    ensures Returned(st, Outcome(b.state, a.changed + b.changed))
  {
    forall k ensures History(b.state, k) == History(st, k) + Of(a.changed + b.changed, k) {
      ReturnedBothAt(st, a, b, k);
    }
  }

  lemma TimelyCarries(cfg: Config, st: State, next: State, changed: seq<Snapshot>)
    requires ValidConfig(cfg) && SameWatermarks(cfg, st, next) && AllTimely(cfg, st, changed)
    ensures AllTimely(cfg, next, changed)
  {
    forall s | s in changed ensures Timely(cfg, next, false, s) {
      assert Timely(cfg, st, false, s);
    }
  }

  lemma FilingKeepsReturned(st: State, signal: Signal, w: Key, r: Outcome)
    requires Returned(File(st, w, signal), r)
    ensures Returned(st, r)
  {
    forall k ensures History(r.state, k) == History(st, k) + Of(r.changed, k) {
      assert History(File(st, w, signal), k) == History(st, k);
    }
  }

  lemma FilingKeepsWatermarks(cfg: Config, st: State, signal: Signal, w: Key, next: State)
    requires ValidConfig(cfg) && SameWatermarks(cfg, File(st, w, signal), next)
    ensures SameWatermarks(cfg, st, next)
  {
    forall s, a ensures Watermark(cfg, next, s, a) == Watermark(cfg, st, s, a) {
      assert Watermark(cfg, File(st, w, signal), s, a) == Watermark(cfg, st, s, a);
    }
  }

  /** Returns what it appends, all of the signal's asset, final only where the watermark allows. */
  ghost predicate Faithful(cfg: Config, st: State, signal: Signal, r: Outcome)
    requires ValidConfig(cfg)
  {
    && Returned(st, r) && About(r.changed, signal)
    && AllTimely(cfg, st, r.changed) && SameWatermarks(cfg, st, r.state)
  }

  lemma FaithfulBoth(cfg: Config, st: State, signal: Signal, a: Outcome, b: Outcome)
    requires ValidConfig(cfg) && Faithful(cfg, st, signal, a) && Faithful(cfg, a.state, signal, b)
    ensures Faithful(cfg, st, signal, Outcome(b.state, a.changed + b.changed))
  {
    ReturnedBoth(st, a, b);
    TimelyCarries(cfg, a.state, st, b.changed);
  }

  lemma FaithfulFiled(cfg: Config, st: State, signal: Signal, w: Key, r: Outcome)
    requires ValidConfig(cfg) && Faithful(cfg, File(st, w, signal), signal, r)
    ensures Faithful(cfg, st, signal, r)
  {
    var filed := File(st, w, signal);
    FilingKeepsReturned(st, signal, w, r);
    FilingKeepsWatermarks(cfg, st, signal, w, r.state);
    FilingKeepsWatermarks(cfg, st, signal, w, filed);
    TimelyCarries(cfg, filed, st, r.changed);
  }

  lemma {:induction false} BuiltFaithfully(cfg: Config, st: State, signal: Signal, keys: seq<Key>)
    requires ValidConfig(cfg) && OneAsset(keys, signal.scope, signal.asset)
    ensures Faithful(cfg, st, signal, BuildEach(cfg, st, keys, false))
  {
    BuildEachReturns(cfg, st, keys, false);
    BuildEachOnly(cfg, st, keys, false);
  }

  lemma {:induction false} PlaceReturns(cfg: Config, st: State, signal: Signal, w: Key)
    requires ValidConfig(cfg) && w.scope == signal.scope && w.asset == signal.asset
    ensures Faithful(cfg, st, signal, Place(cfg, st, signal, w))
  {
    RebuiltMembers(st.order, w);
    BuiltFaithfully(cfg, File(st, w, signal), signal, Rebuilt(st.order, w));
    FaithfulFiled(cfg, st, signal, w, BuildEach(cfg, File(st, w, signal), Rebuilt(st.order, w), false));
  }

  lemma {:induction false} PlaceEachReturns(cfg: Config, st: State, signal: Signal, keys: seq<Key>)
    requires ValidConfig(cfg) && OneAsset(keys, signal.scope, signal.asset)
    ensures Faithful(cfg, st, signal, PlaceEach(cfg, st, signal, keys))
    decreases |keys|
  {
    if keys != [] {
      var here := Place(cfg, st, signal, keys[0]);
      PlaceReturns(cfg, st, signal, keys[0]);
      PlaceEachReturns(cfg, here.state, signal, keys[1..]);
      FaithfulBoth(cfg, st, signal, here, PlaceEach(cfg, here.state, signal, keys[1..]));
    } else {
      assert forall k :: Of([], k) == [];
    }
  }

  lemma PlaceSettles(cfg: Config, st: State, signal: Signal, w: Key)
    requires ValidConfig(cfg) && w.scope == signal.scope && w.asset == signal.asset
    ensures var r := Place(cfg, st, signal, w);
            SettledFor(cfg, r.state, signal.scope, signal.asset)
            && SameElsewhere(st, r.state, signal.scope, signal.asset)
  {
    RebuiltMembers(st.order, w);
    BuildEachSettles(cfg, File(st, w, signal), Rebuilt(st.order, w), false, signal.scope, signal.asset);
    BuildingKeepsIndex(cfg, File(st, w, signal), Rebuilt(st.order, w), false);
  }

  lemma {:induction false} PlaceEachSettles(cfg: Config, st: State, signal: Signal, keys: seq<Key>)
    requires ValidConfig(cfg) && OneAsset(keys, signal.scope, signal.asset)
    ensures var r := PlaceEach(cfg, st, signal, keys);
            && SameElsewhere(st, r.state, signal.scope, signal.asset)
            && (keys != [] || SettledFor(cfg, st, signal.scope, signal.asset) ==>
                  SettledFor(cfg, r.state, signal.scope, signal.asset))
    decreases |keys|
  {
    if keys != [] {
      PlaceSettles(cfg, st, signal, keys[0]);
      PlaceEachSettles(cfg, Place(cfg, st, signal, keys[0]).state, signal, keys[1..]);
    }
  }

  lemma {:induction false} PlaceEachHistories(cfg: Config, st: State, signal: Signal, keys: seq<Key>)
    requires ValidConfig(cfg) && ValidHistories(st.revisions)
    ensures ValidHistories(PlaceEach(cfg, st, signal, keys).state.revisions)
    decreases |keys|
  {
    if keys != [] {
      var w := keys[0];
      BuildEachHistories(cfg, File(st, w, signal), Rebuilt(st.order, w), false);
      PlaceEachHistories(cfg, Place(cfg, st, signal, keys[0]).state, signal, keys[1..]);
    }
  }

  // ---------------------------------------------------------------- finalising

  ghost predicate IsOverdue(st: State, k: Key, watermark: Option<int>) {
    k in st.revisions && st.revisions[k] != [] && !Latest(st, k).isFinal && Passed(watermark, k)
  }

  lemma {:induction false} OverdueMembers(
      st: State, keys: seq<Key>, scope: string, asset: string, watermark: Option<int>)
    ensures forall k :: k in Overdue(st, keys, scope, asset, watermark) <==>
              k in keys && k.scope == scope && k.asset == asset && IsOverdue(st, k, watermark)
  {
    if keys != [] {
      OverdueMembers(st, keys[1..], scope, asset, watermark);
    }
  }

  /** No provisional window of the asset is left whose end the watermark has passed. */
  ghost predicate NoneOverdueFor(cfg: Config, st: State, scope: string, asset: string)
    requires ValidConfig(cfg)
  {
    forall k: Key :: k.scope == scope && k.asset == asset ==> !IsOverdue(st, k, Watermark(cfg, st, scope, asset))
  }

  function OverdueIn(cfg: Config, st: State, scope: string, asset: string): seq<Key>
    requires ValidConfig(cfg)
  {
    Overdue(st, st.order, scope, asset, Watermark(cfg, st, scope, asset))
  }

  lemma FinalizeIsBuilding(cfg: Config, st: State, scope: string, asset: string)
    requires ValidConfig(cfg) && SettledFor(cfg, st, scope, asset)
    ensures Finalize(cfg, st, scope, asset) == BuildEach(cfg, st, OverdueIn(cfg, st, scope, asset), true)
  {
    SettledMeansNoWrite(cfg, st, scope, asset);
  }

  lemma FinalizeReturns(cfg: Config, st: State, signal: Signal)
    requires ValidConfig(cfg) && SettledFor(cfg, st, signal.scope, signal.asset)
    ensures Faithful(cfg, st, signal, Finalize(cfg, st, signal.scope, signal.asset))
  {
    var keys := OverdueIn(cfg, st, signal.scope, signal.asset);
    FinalizeIsBuilding(cfg, st, signal.scope, signal.asset);
    OverdueMembers(st, st.order, signal.scope, signal.asset, Watermark(cfg, st, signal.scope, signal.asset));
    BuildEachReturns(cfg, st, keys, true);
    BuildEachOnly(cfg, st, keys, true);
  }

  lemma FinalizeLeavesNoneOverdue(cfg: Config, st: State, scope: string, asset: string)
    requires ValidConfig(cfg) && SettledFor(cfg, st, scope, asset) && Listed(st)
    ensures NoneOverdueFor(cfg, Finalize(cfg, st, scope, asset).state, scope, asset)
  {
    var keys := OverdueIn(cfg, st, scope, asset);
    FinalizeIsBuilding(cfg, st, scope, asset);
    OverdueMembers(st, st.order, scope, asset, Watermark(cfg, st, scope, asset));
    BuildEachOnly(cfg, st, keys, true);
    ForcedIsFinal(cfg, st, keys);
    var next := BuildEach(cfg, st, keys, true).state;
    forall k: Key | k.scope == scope && k.asset == asset
      ensures !IsOverdue(next, k, Watermark(cfg, next, scope, asset))
    {
      if k in next.revisions && k !in keys {
        assert k in st.order;
        assert next.revisions[k] == st.revisions[k];
      }
    }
  }

  lemma FinalizeKeepsListed(cfg: Config, st: State, scope: string, asset: string)
    requires ValidConfig(cfg) && SettledFor(cfg, st, scope, asset) && Listed(st)
    ensures Listed(Finalize(cfg, st, scope, asset).state)
  {
    FinalizeIsBuilding(cfg, st, scope, asset);
    OverdueMembers(st, st.order, scope, asset, Watermark(cfg, st, scope, asset));
    BuildEachOnly(cfg, st, OverdueIn(cfg, st, scope, asset), true);
  }

  lemma FinalizeSettles(cfg: Config, st: State, scope: string, asset: string)
    requires ValidConfig(cfg) && SettledFor(cfg, st, scope, asset)
    ensures var next := Finalize(cfg, st, scope, asset).state;
            SettledFor(cfg, next, scope, asset) && SameElsewhere(st, next, scope, asset)
  {
    FinalizeIsBuilding(cfg, st, scope, asset);
    OverdueMembers(st, st.order, scope, asset, Watermark(cfg, st, scope, asset));
    BuildEachSettles(cfg, st, OverdueIn(cfg, st, scope, asset), true, scope, asset);
    BuildingKeepsIndex(cfg, st, OverdueIn(cfg, st, scope, asset), true);
  }

  // ---------------------------------------------------------------- invariants of every run

  ghost predicate Quiet(cfg: Config, st: State) {
    forall s, a :: SettledFor(cfg, st, s, a)
  }

  ghost predicate NoneOverdue(cfg: Config, st: State)
    requires ValidConfig(cfg)
  {
    forall s, a :: NoneOverdueFor(cfg, st, s, a)
  }

  ghost predicate AllFresh(cfg: Config, st: State) {
    forall k :: k in st.revisions ==> Fresh(cfg, st, k)
  }

  ghost predicate AllAligned(st: State) {
    forall k :: k in st.events ==> Aligned(k)
  }

  ghost predicate OfConfiguredIntervals(cfg: Config, st: State) {
    forall k :: k in st.events ==> k.interval in cfg.intervals
  }

  lemma WindowsOfOneAsset(cfg: Config, signal: Signal)
    ensures OneAsset(WindowsOf(cfg, signal), signal.scope, signal.asset)
    ensures ValidConfig(cfg) ==> WindowsOf(cfg, signal) != []
  {
  }

  /** A new signal, after its duplicate check: recorded, placed, and overdue windows finalised. */
  function Placed(cfg: Config, st: State, signal: Signal): Outcome
    requires ValidConfig(cfg)
  {
    PlaceEach(cfg, Record(st, signal), signal, WindowsOf(cfg, signal))
  }

  ghost predicate IsNewSignal(st: State, signal: Signal) {
    SeenId(signal.scope, signal.eventId) !in st.seen
  }

  lemma PlacedSettles(cfg: Config, st: State, signal: Signal)
    requires ValidConfig(cfg)
    ensures var placed := Placed(cfg, st, signal).state;
            SettledFor(cfg, placed, signal.scope, signal.asset)
            && SameElsewhere(Record(st, signal), placed, signal.scope, signal.asset)
  {
    WindowsOfOneAsset(cfg, signal);
    PlaceEachSettles(cfg, Record(st, signal), signal, WindowsOf(cfg, signal));
  }

  lemma QuietElsewhere(cfg: Config, st: State, next: State, scope: string, asset: string)
    requires Quiet(cfg, st) && SameElsewhere(st, next, scope, asset) && SettledFor(cfg, next, scope, asset)
    ensures Quiet(cfg, next)
  {
    forall s, a ensures SettledFor(cfg, next, s, a) {
      if s != scope || a != asset {
        SettledElsewhere(cfg, st, next, scope, asset, s, a);
      }
    }
  }

  lemma IngestQuiets(cfg: Config, st: State, signal: Signal)
    requires ValidConfig(cfg) && Quiet(cfg, st) && IsNewSignal(st, signal)
    ensures Quiet(cfg, Ingest(cfg, st, signal).state)
    ensures SettledFor(cfg, Placed(cfg, st, signal).state, signal.scope, signal.asset)
    ensures SameElsewhere(st, Ingest(cfg, st, signal).state, signal.scope, signal.asset)
  {
    var placed, next := Placed(cfg, st, signal).state, Ingest(cfg, st, signal).state;
    PlacedSettles(cfg, st, signal);
    FinalizeSettles(cfg, placed, signal.scope, signal.asset);
    assert SameElsewhere(st, Record(st, signal), signal.scope, signal.asset);
    QuietElsewhere(cfg, st, next, signal.scope, signal.asset);
  }

  /**
   * An ingest returns exactly the revisions it appends, all of the signal's own asset, and calls one
   * FINAL only if the watermark it leaves behind has passed the window's end.
   */
  lemma IngestReturns(cfg: Config, st: State, signal: Signal)
    requires ValidConfig(cfg) && Quiet(cfg, st)
    ensures var r := Ingest(cfg, st, signal);
            && Returned(st, r) && About(r.changed, signal)
            && forall s :: s in r.changed && s.state == Final ==>
                 Passed(Watermark(cfg, r.state, s.key.scope, s.key.asset), s.key)
  {
    if IsNewSignal(st, signal) {
      var recorded, placed := Record(st, signal), Placed(cfg, st, signal);
      IngestQuiets(cfg, st, signal);
      WindowsOfOneAsset(cfg, signal);
      PlaceEachReturns(cfg, recorded, signal, WindowsOf(cfg, signal));
      FinalizeReturns(cfg, placed.state, signal);
      var done := Finalize(cfg, placed.state, signal.scope, signal.asset);
      FaithfulBoth(cfg, recorded, signal, placed, done);
      TimelyCarries(cfg, recorded, done.state, placed.changed + done.changed);
      forall k ensures History(done.state, k) == History(st, k) + Of(placed.changed + done.changed, k) {
        assert History(recorded, k) == History(st, k);
      }
      forall s | s in placed.changed + done.changed && s.state == Final
        ensures Passed(Watermark(cfg, done.state, s.key.scope, s.key.asset), s.key)
      {
        assert Timely(cfg, done.state, false, s);
      }
    } else {
      assert forall k :: Of([], k) == [];
    }
  }

  lemma {:induction false} IngestKeepsListed(cfg: Config, st: State, signal: Signal)
    requires ValidConfig(cfg) && Quiet(cfg, st) && Listed(st)
    ensures Listed(Ingest(cfg, st, signal).state)
  {
    if IsNewSignal(st, signal) {
      IngestQuiets(cfg, st, signal);
      PlaceEachFreshens(cfg, Record(st, signal), signal, WindowsOf(cfg, signal));
      FinalizeKeepsListed(cfg, Placed(cfg, st, signal).state, signal.scope, signal.asset);
    }
  }

  lemma {:induction false} OtherAssetsUntouched(cfg: Config, st: State, signal: Signal, k: Key)
    requires ValidConfig(cfg) && Quiet(cfg, st) && (k.scope != signal.scope || k.asset != signal.asset)
    ensures History(Ingest(cfg, st, signal).state, k) == History(st, k)
  {
    var r := Ingest(cfg, st, signal);
    IngestReturns(cfg, st, signal);
    NothingOf(r.changed, k);
  }

  lemma {:induction false} NothingOf(changed: seq<Snapshot>, k: Key)
    requires forall s :: s in changed ==> s.key != k
    ensures Of(changed, k) == []
  {
    if changed != [] {
      assert changed[0] in changed;
      NothingOf(changed[1..], k);
    }
  }

  lemma SameHistorySameDue(st: State, next: State, k: Key, watermark: Option<int>)
    requires History(next, k) == History(st, k) && !IsOverdue(st, k, watermark)
    ensures !IsOverdue(next, k, watermark)
  {
  }

  lemma {:induction false} ElsewhereNotOverdue(cfg: Config, st: State, signal: Signal, k: Key)
    requires ValidConfig(cfg) && Quiet(cfg, st) && NoneOverdue(cfg, st) && IsNewSignal(st, signal)
    requires k.scope != signal.scope || k.asset != signal.asset
    ensures var next := Ingest(cfg, st, signal).state; !IsOverdue(next, k, Watermark(cfg, next, k.scope, k.asset))
  {
    var next := Ingest(cfg, st, signal).state;
    IngestQuiets(cfg, st, signal);
    OtherAssetsUntouched(cfg, st, signal, k);
    WatermarkElsewhere(cfg, st, next, signal.scope, signal.asset, k.scope, k.asset);
    assert NoneOverdueFor(cfg, st, k.scope, k.asset);
    SameHistorySameDue(st, next, k, Watermark(cfg, st, k.scope, k.asset));
  }

  lemma {:induction false} IngestLeavesNoneOverdue(cfg: Config, st: State, signal: Signal)
    requires ValidConfig(cfg) && Quiet(cfg, st) && Listed(st) && NoneOverdue(cfg, st)
    ensures NoneOverdue(cfg, Ingest(cfg, st, signal).state)
  {
    if IsNewSignal(st, signal) {
      var placed, next := Placed(cfg, st, signal).state, Ingest(cfg, st, signal).state;
      IngestQuiets(cfg, st, signal);
      PlaceEachFreshens(cfg, Record(st, signal), signal, WindowsOf(cfg, signal));
      FinalizeLeavesNoneOverdue(cfg, placed, signal.scope, signal.asset);
      forall s, a ensures NoneOverdueFor(cfg, next, s, a) {
        forall k: Key | k.scope == s && k.asset == a ensures !IsOverdue(next, k, Watermark(cfg, next, s, a)) {
          if s != signal.scope || a != signal.asset {
            ElsewhereNotOverdue(cfg, st, signal, k);
          }
        }
      }
    }
  }

  lemma {:induction false} IngestKeepsHistories(cfg: Config, st: State, signal: Signal)
    requires ValidConfig(cfg) && ValidHistories(st.revisions)
    ensures ValidHistories(Ingest(cfg, st, signal).state.revisions)
  {
    if IsNewSignal(st, signal) {
      var placed := Placed(cfg, st, signal).state;
      PlaceEachHistories(cfg, Record(st, signal), signal, WindowsOf(cfg, signal));
      var settled := Settle(cfg, placed, signal.scope, signal.asset);
      BuildEachHistories(cfg, settled, OverdueIn(cfg, settled, signal.scope, signal.asset), true);
    }
  }

  lemma IngestKeepsAligned(cfg: Config, st: State, signal: Signal)
    requires ValidConfig(cfg) && Quiet(cfg, st) && AllAligned(st)
    ensures AllAligned(Ingest(cfg, st, signal).state)
    ensures OfConfiguredIntervals(cfg, st) ==> OfConfiguredIntervals(cfg, Ingest(cfg, st, signal).state)
  {
    if IsNewSignal(st, signal) {
      var placed := Placed(cfg, st, signal).state;
      IngestQuiets(cfg, st, signal);
      PlaceEachOpens(cfg, Record(st, signal), signal, WindowsOf(cfg, signal));
      WindowsOfMembers(cfg, signal);
      FinalizeIsBuilding(cfg, placed, signal.scope, signal.asset);
      BuildingKeepsIndex(cfg, placed, OverdueIn(cfg, placed, signal.scope, signal.asset), true);
      forall k | k in WindowsOf(cfg, signal) ensures Aligned(k) {
        assert k.start == FloorWindow(signal.eventTime, k.interval);
      }
    }
  }

  lemma {:induction false} RecordLeavesPending(cfg: Config, st: State, signal: Signal)
    requires AllFresh(cfg, st) && AllAligned(st) && Listed(st)
    requires OfConfiguredIntervals(cfg, st)
    ensures Pending(cfg, Record(st, signal), WindowsOf(cfg, signal))
  {
    forall k | k in Record(st, signal).revisions
      ensures FreshOrDue(cfg, Record(st, signal), WindowsOf(cfg, signal), k)
    {
      if !Due(WindowsOf(cfg, signal), k) {
        RecordKeepsFresh(cfg, st, signal, k);
      }
    }
  }

  lemma FinalizeKeepsFresh(cfg: Config, st: State, scope: string, asset: string)
    requires ValidConfig(cfg) && SettledFor(cfg, st, scope, asset) && AllFresh(cfg, st)
    ensures AllFresh(cfg, Finalize(cfg, st, scope, asset).state)
  {
    var keys := OverdueIn(cfg, st, scope, asset);
    FinalizeIsBuilding(cfg, st, scope, asset);
    BuildEachOnly(cfg, st, keys, true);
    BuildEachFresh(cfg, st, keys, true);
    var next := BuildEach(cfg, st, keys, true).state;
    forall k | k in next.revisions ensures Fresh(cfg, next, k) {
      if k !in keys {
        UntouchedStaysFresh(cfg, st, next, keys, k);
      }
    }
  }

  /** Rebuilding only the touched window and those after it is enough. */
  lemma IngestFreshens(cfg: Config, st: State, signal: Signal)
    requires ValidConfig(cfg) && Quiet(cfg, st) && Listed(st) && AllFresh(cfg, st) && AllAligned(st)
    requires OfConfiguredIntervals(cfg, st)
    ensures AllFresh(cfg, Ingest(cfg, st, signal).state)
  {
    if IsNewSignal(st, signal) {
      var placed := Placed(cfg, st, signal).state;
      IngestQuiets(cfg, st, signal);
      RecordLeavesPending(cfg, st, signal);
      PlaceEachFreshens(cfg, Record(st, signal), signal, WindowsOf(cfg, signal));
      assert AllFresh(cfg, placed) by {
        forall k | k in placed.revisions ensures Fresh(cfg, placed, k) {
          assert FreshOrDue(cfg, placed, [], k);
        }
      }
      FinalizeKeepsFresh(cfg, placed, signal.scope, signal.asset);
    }
  }
}
