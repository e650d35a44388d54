/**
 * The main results about the feature engine: in every reachable state each window's latest revision
 * is a batch recomputation from the signals held, arrival order does not matter, a checkpoint
 * restores the whole state, and revisions are numbered, ordered and finalised as designed.
 */
module FeatureTheorems {
  import opened Wrappers
  import opened Sorting
  import opened FeatureSignals
  import opened FeatureWindows
  import opened FeatureLaws
  import opened FeatureBuilding
  import opened FeatureIndex
  import opened FeatureRuns

  // ---------------------------------------------------------------- invariants that need nothing

  ghost predicate Sound(cfg: Config, st: State)
    requires ValidConfig(cfg)
  {
    && Quiet(cfg, st) && Listed(st) && NoneOverdue(cfg, st) && ValidHistories(st.revisions)
    && AllAligned(st) && OfConfiguredIntervals(cfg, st) && AllFresh(cfg, st)
  }

  lemma QueryKeepsSound(cfg: Config, st: State, scope: string, asset: string)
    requires ValidConfig(cfg) && Sound(cfg, st)
    ensures Settle(cfg, st, scope, asset) == st
  {
    SettledMeansNoWrite(cfg, st, scope, asset);
  }

  lemma {:induction false} IngestKeepsSound(cfg: Config, st: State, signal: Signal)
    requires ValidConfig(cfg) && Sound(cfg, st)
    ensures Sound(cfg, Ingest(cfg, st, signal).state)
  {
    if IsNewSignal(st, signal) {
      IngestQuiets(cfg, st, signal);
      IngestKeepsListed(cfg, st, signal);
      IngestLeavesNoneOverdue(cfg, st, signal);
      IngestKeepsHistories(cfg, st, signal);
      IngestKeepsAligned(cfg, st, signal);
      IngestFreshens(cfg, st, signal);
    }
  }

  lemma {:induction false} RunsAreSound(cfg: Config, ops: seq<Op>)
    requires ValidConfig(cfg)
    ensures Sound(cfg, Run(cfg, ops))
  {
    if ops != [] {
      var before := Run(cfg, ops[..|ops| - 1]);
      RunsAreSound(cfg, ops[..|ops| - 1]);
      match ops[|ops| - 1]
      case Arrive(signal) => IngestKeepsSound(cfg, before, signal);
      case Query(scope, asset) => QueryKeepsSound(cfg, before, scope, asset);
    }
  }

  // ---------------------------------------------------------------- histories and finalisation

  /** In every reachable state each window's revisions read PROVISIONAL* (FINAL CORRECTED*)?. */
  lemma {:induction false} HistoriesReadInOrder(cfg: Config, ops: seq<Op>, k: Key) returns (turn: nat)
    requires ValidConfig(cfg) && k in Run(cfg, ops).revisions
    ensures ValidHistory(k, Run(cfg, ops).revisions[k]) && ReadsAs(Run(cfg, ops).revisions[k], turn)
  {
    RunsAreSound(cfg, ops);
    turn := HistoryShape(k, Run(cfg, ops).revisions[k]);
  }

  /** No reachable state holds a provisional window whose end the current watermark has passed. */
  lemma {:induction false} NoReachableWindowIsOverdue(cfg: Config, ops: seq<Op>, k: Key)
    requires ValidConfig(cfg) && k in Run(cfg, ops).revisions
    ensures var st := Run(cfg, ops);
            st.revisions[k] != []
            && (Latest(st, k).state == Provisional ==> !Passed(Watermark(cfg, st, k.scope, k.asset), k))
  {
    var st := Run(cfg, ops);
    RunsAreSound(cfg, ops);
    assert NoneOverdueFor(cfg, st, k.scope, k.asset);
    var h := st.revisions[k];
    assert ValidHistory(k, h);
    assert h[|h| - 1].isFinal <==> h[|h| - 1].state != Provisional;
  }

  /** A window turns FINAL only once its end lies behind the newest signal by the allowed lateness. */
  lemma {:induction false} FinalOnlyBehindLateness(cfg: Config, ops: seq<Op>, signal: Signal, s: Snapshot)
    requires ValidConfig(cfg)
    requires var r := Ingest(cfg, Run(cfg, ops), signal); s in r.changed && s.state == Final
    ensures var next := Ingest(cfg, Run(cfg, ops), signal).state;
            && s.key.scope == signal.scope && s.key.asset == signal.asset
            && Passed(Watermark(cfg, next, signal.scope, signal.asset), s.key)
            && Newest(next.maxTime, signal.scope, signal.asset).Some?
            && End(s.key) <= Newest(next.maxTime, signal.scope, signal.asset).value - cfg.lateness * SECOND
  {
    RunsAreSound(cfg, ops);
    IngestReturns(cfg, Run(cfg, ops), signal);
    WatermarkLagsNewest(cfg, Ingest(cfg, Run(cfg, ops), signal).state, signal.scope, signal.asset);
  }

  // ---------------------------------------------------------------- checkpoints

  function Arrivals(signals: seq<Signal>): seq<Op> {
    seq(|signals|, i requires 0 <= i < |signals| => Arrive(signals[i]))
  }

  lemma ReplayOneMore(cfg: Config, log: seq<Signal>, signal: Signal)
    requires ValidConfig(cfg)
    ensures Run(cfg, Arrivals(log + [signal])) == Ingest(cfg, Run(cfg, Arrivals(log)), signal).state
  {
    var ops := Arrivals(log + [signal]);
    assert ops[..|ops| - 1] == Arrivals(log);
  }

  lemma IngestLogs(cfg: Config, st: State, signal: Signal)
    requires ValidConfig(cfg) && Quiet(cfg, st)
    ensures var next := Ingest(cfg, st, signal).state;
            if IsNewSignal(st, signal)
            then next.log == st.log + [signal] && next.seen == st.seen + {SeenId(signal.scope, signal.eventId)}
                 && next.firstSeen == Record(st, signal).firstSeen && next.maxTime == Record(st, signal).maxTime
                 && next.events == Placed(cfg, st, signal).state.events
                 && next.order == Placed(cfg, st, signal).state.order
            else next == st
  {
    if IsNewSignal(st, signal) {
      var placed := Placed(cfg, st, signal).state;
      IngestQuiets(cfg, st, signal);
      PlaceEachKeepsRecord(cfg, Record(st, signal), signal, WindowsOf(cfg, signal));
      FinalizeIsBuilding(cfg, placed, signal.scope, signal.asset);
      BuildingKeepsIndex(cfg, placed, OverdueIn(cfg, placed, signal.scope, signal.asset), true);
    }
  }

  /**
   * Whatever the run, duplicates and watermark queries included, ingesting its log into an empty
   * engine gives the very same state: histories, flags, watermarks and all.
   */
  lemma {:induction false} ReplayRestores(cfg: Config, ops: seq<Op>)
    requires ValidConfig(cfg)
    ensures Run(cfg, Arrivals(Run(cfg, ops).log)) == Run(cfg, ops)
  {
    if ops == [] {
      assert Arrivals(EMPTY.log) == [];
    } else {
      var init, last := ops[..|ops| - 1], ops[|ops| - 1];
      var before := Run(cfg, init);
      ReplayRestores(cfg, init);
      RunsAreSound(cfg, init);
      match last
      case Query(scope, asset) => QueryKeepsSound(cfg, before, scope, asset);
      case Arrive(signal) =>
        IngestLogs(cfg, before, signal);
        if IsNewSignal(before, signal) {
          ReplayOneMore(cfg, before.log, signal);
        }
    }
  }

  // ---------------------------------------------------------------- what the log says

  /** The signals of the log that fall into a window, in order of arrival. */
  function Filed(log: seq<Signal>, key: Key): seq<Signal> {
    if log == [] then []
    else
      var last := log[|log| - 1];
      Filed(log[..|log| - 1], key) + (if KeyOf(last, key.interval) == key then [last] else [])
  }

  ghost function Ascending(s: set<int>): seq<int> {
    Sort(Enumerate(s), IntLe)
  }

  predicate InSeries(s: Signal, key: Key) {
    s.scope == key.scope && s.asset == key.asset
  }

  /** The starts of the windows of the series that hold a signal and precede this one. */
  ghost function EarlierStarts(log: seq<Signal>, key: Key): set<int> {
    set s | s in log && InSeries(s, key) && FloorWindow(s.eventTime, key.interval) < key.start
      :: FloorWindow(s.eventTime, key.interval)
  }

  ghost predicate NeverSeenBefore(log: seq<Signal>, key: Key, author: string) {
    forall s :: s in log && InSeries(s, key) && s.values.authorId == Some(author) ==> s.eventTime >= key.start
  }

  ghost function SortedVolumes(log: seq<Signal>, key: Key, starts: seq<int>): seq<real> {
    seq(|starts|, i requires 0 <= i < |starts| => RawVolume(Sort(Filed(log, key.(start := starts[i])), SignalLe)))
  }

  /** A recomputation of a window's inputs from the signals held so far, ignoring how they arrived. */
  ghost function Batch(log: seq<Signal>, key: Key): Inputs {
    var sorted := Sort(Filed(log, key), SignalLe);
    var earlier := EarlierStarts(log, key);
    Inputs(sorted, SortedVolumes(log, key, LastTwenty(Ascending(earlier))),
           set a | a in Authors(OfKind(sorted, SocialPost)) && NeverSeenBefore(log, key, a), |earlier|)
  }

  // ---------------------------------------------------------------- the index against the log

  ghost predicate EventsMatchLog(cfg: Config, st: State) {
    && (forall k :: k in st.events <==> k.interval in cfg.intervals && Filed(st.log, k) != [])
    && (forall k :: k in st.events ==> st.events[k] == Filed(st.log, k))
  }

  ghost predicate By(s: Signal, a: Author) {
    s.scope == a.scope && s.asset == a.asset && s.values.authorId == Some(a.id)
  }

  ghost predicate FirstSeenMatchesLog(firstSeen: map<Author, int>, log: seq<Signal>) {
    && (forall s, a :: s in log && By(s, a) ==> a in firstSeen && firstSeen[a] <= s.eventTime)
    && (forall a :: a in firstSeen ==> exists s :: s in log && By(s, a) && s.eventTime == firstSeen[a])
  }

  ghost predicate SeenMatchesLog(seen: set<SeenId>, log: seq<Signal>) {
    && (forall s :: s in log ==> SeenId(s.scope, s.eventId) in seen)
    && (forall id :: id in seen ==> exists s :: s in log && SeenId(s.scope, s.eventId) == id)
    && (forall i, j :: 0 <= i < j < |log| ==>
          SeenId(log[i].scope, log[i].eventId) != SeenId(log[j].scope, log[j].eventId))
  }

  ghost predicate MatchesLog(cfg: Config, st: State) {
    EventsMatchLog(cfg, st) && FirstSeenMatchesLog(st.firstSeen, st.log) && SeenMatchesLog(st.seen, st.log)
  }

  lemma FiledOneMore(log: seq<Signal>, signal: Signal, k: Key)
    ensures Filed(log + [signal], k) == Filed(log, k) + (if KeyOf(signal, k.interval) == k then [signal] else [])
  {
    assert (log + [signal])[..|log|] == log;
  }

  lemma {:induction false} EventsStayMatched(cfg: Config, st: State, next: State, signal: Signal)
    requires ValidConfig(cfg) && EventsMatchLog(cfg, st) && next.log == st.log + [signal]
    requires FiledInto(st.events, next.events, signal, WindowsOf(cfg, signal))
    ensures EventsMatchLog(cfg, next)
  {
    WindowsOfMembers(cfg, signal);
    forall k
      ensures k in next.events <==> k.interval in cfg.intervals && Filed(next.log, k) != []
      ensures k in next.events ==> next.events[k] == Filed(next.log, k)
    {
      FiledOneMore(st.log, signal, k);
      assert EventsOf(next.events, k)
             == EventsOf(st.events, k) + (if k in WindowsOf(cfg, signal) then [signal] else []);
    }
  }

  lemma FirstSeenIsWitnessed(st: State, signal: Signal, a: Author)
    requires FirstSeenMatchesLog(st.firstSeen, st.log) && a in Record(st, signal).firstSeen
    ensures exists s :: s in st.log + [signal] && By(s, a) && s.eventTime == Record(st, signal).firstSeen[a]
  {
    var next, log := Record(st, signal).firstSeen, st.log + [signal];
    if By(signal, a) && next[a] == signal.eventTime {
      assert signal in log;
    } else {
      var s :| s in st.log && By(s, a) && s.eventTime == st.firstSeen[a];
      assert s in log;
    }
  }

  lemma FirstSeenStaysMatched(st: State, signal: Signal)
    requires FirstSeenMatchesLog(st.firstSeen, st.log)
    ensures FirstSeenMatchesLog(Record(st, signal).firstSeen, st.log + [signal])
  {
    var next, log := Record(st, signal).firstSeen, st.log + [signal];
    forall a | a in next ensures exists s :: s in log && By(s, a) && s.eventTime == next[a] {
      FirstSeenIsWitnessed(st, signal, a);
    }
    forall s, a | s in log && By(s, a) ensures a in next && next[a] <= s.eventTime {
      assert s in st.log || s == signal;
    }
  }

  lemma SeenStaysMatched(st: State, signal: Signal)
    requires SeenMatchesLog(st.seen, st.log) && IsNewSignal(st, signal)
    ensures SeenMatchesLog(st.seen + {SeenId(signal.scope, signal.eventId)}, st.log + [signal])
  {
    var id := SeenId(signal.scope, signal.eventId);
    var log := st.log + [signal];
    assert log[|st.log|] == signal;
    forall x | x in st.seen + {id} ensures exists s :: s in log && SeenId(s.scope, s.eventId) == x {
      if x in st.seen {
        var s :| s in st.log && SeenId(s.scope, s.eventId) == x;
        assert s in log;
      }
    }
    forall i | 0 <= i < |st.log| ensures SeenId(log[i].scope, log[i].eventId) != id {
      assert log[i] in st.log;
    }
  }

  lemma {:induction false} IngestStaysMatched(cfg: Config, st: State, signal: Signal)
    requires ValidConfig(cfg) && Distinct(cfg.intervals) && Quiet(cfg, st) && MatchesLog(cfg, st)
    ensures MatchesLog(cfg, Ingest(cfg, st, signal).state)
  {
    IngestLogs(cfg, st, signal);
    if IsNewSignal(st, signal) {
      WindowsOfMembers(cfg, signal);
      PlaceEachFiles(cfg, Record(st, signal), signal, WindowsOf(cfg, signal));
      EventsStayMatched(cfg, st, Ingest(cfg, st, signal).state, signal);
      FirstSeenStaysMatched(st, signal);
      SeenStaysMatched(st, signal);
    }
  }

  lemma {:induction false} RunsMatchLog(cfg: Config, ops: seq<Op>)
    requires ValidConfig(cfg) && Distinct(cfg.intervals)
    ensures MatchesLog(cfg, Run(cfg, ops))
  {
    if ops != [] {
      var before := Run(cfg, ops[..|ops| - 1]);
      RunsMatchLog(cfg, ops[..|ops| - 1]);
      RunsAreSound(cfg, ops[..|ops| - 1]);
      match ops[|ops| - 1]
      case Arrive(signal) => IngestStaysMatched(cfg, before, signal);
      case Query(scope, asset) => QueryKeepsSound(cfg, before, scope, asset);
    }
  }

  // ---------------------------------------------------------------- the index is a batch recomputation

  lemma {:induction false} FiledMembers(log: seq<Signal>, k: Key)
    ensures forall s :: s in Filed(log, k) <==> s in log && KeyOf(s, k.interval) == k
  {
    if log != [] {
      FiledMembers(log[..|log| - 1], k);
      assert log == log[..|log| - 1] + [log[|log| - 1]];
    }
  }

  lemma {:induction false} StartsMatchLog(cfg: Config, st: State, k: Key, x: int)
    requires MatchesLog(cfg, st) && Listed(st) && k.interval in cfg.intervals
    ensures x in StartsBefore(st.order, k) <==> x in EarlierStarts(st.log, k)
  {
    var e := k.(start := x);
    StartsBeforeMembers(st.order, k);
    FiledMembers(st.log, e);
    if x in StartsBefore(st.order, k) {
      assert e in st.events;
      var s := Filed(st.log, e)[0];
      assert s in Filed(st.log, e);
      assert InSeries(s, k) && FloorWindow(s.eventTime, k.interval) == x;
    }
    if x in EarlierStarts(st.log, k) {
      var s :| s in st.log && InSeries(s, k) && FloorWindow(s.eventTime, k.interval) == x;
      assert s in Filed(st.log, e);
      assert e in st.events;
    }
  }

  lemma IntOrdering()
    ensures Ordering(IntLe)
  {
  }

  lemma {:induction false} EarlierMatchesLog(cfg: Config, st: State, k: Key)
    requires MatchesLog(cfg, st) && Listed(st) && k.interval in cfg.intervals
    ensures Sort(StartsBefore(st.order, k), IntLe) == Ascending(EarlierStarts(st.log, k))
    ensures |Sort(StartsBefore(st.order, k), IntLe)| == |EarlierStarts(st.log, k)|
  {
    var xs, s := StartsBefore(st.order, k), EarlierStarts(st.log, k);
    StartsBeforeMembers(st.order, k);
    forall x ensures x in xs <==> x in s {
      StartsMatchLog(cfg, st, k, x);
    }
    DistinctIsSet(xs, s);
    IntOrdering();
    SortIgnoresArrival(xs, Enumerate(s), IntLe);
    SortPermutes(xs, IntLe);
  }

  lemma VolumesMatchLog(cfg: Config, st: State, k: Key, starts: seq<int>)
    requires MatchesLog(cfg, st) && k.interval in cfg.intervals
    ensures Volumes(st.events, k, starts) == SortedVolumes(st.log, k, starts)
  {
    forall i | 0 <= i < |starts|
      ensures RawVolume(EventsOf(st.events, k.(start := starts[i])))
           == RawVolume(Sort(Filed(st.log, k.(start := starts[i])), SignalLe))
    {
      var e := k.(start := starts[i]);
      assert EventsOf(st.events, e) == Filed(st.log, e);
      SortPermutes(Filed(st.log, e), SignalLe);
      VolumeIgnoresArrival(Filed(st.log, e), Sort(Filed(st.log, e), SignalLe));
    }
  }

  lemma NewcomersMatchLog(firstSeen: map<Author, int>, log: seq<Signal>, k: Key, author: string)
    requires FirstSeenMatchesLog(firstSeen, log)
    ensures IsNew(firstSeen, k, author) <==> NeverSeenBefore(log, k, author)
  {
    var a := Author(k.scope, k.asset, author);
    if a in firstSeen {
      var s :| s in log && By(s, a) && s.eventTime == firstSeen[a];
      assert InSeries(s, k) && s.values.authorId == Some(author);
    }
    forall s | s in log && InSeries(s, k) && s.values.authorId == Some(author)
      ensures a in firstSeen && firstSeen[a] <= s.eventTime
    {
      assert By(s, a);
    }
  }

  lemma {:induction false} IndexIsBatch(cfg: Config, st: State, k: Key)
    requires MatchesLog(cfg, st) && Listed(st) && k in st.events
    ensures Indexed(st, k) == Batch(st.log, k)
  {
    EarlierMatchesLog(cfg, st, k);
    VolumesMatchLog(cfg, st, k, LastTwenty(Ascending(EarlierStarts(st.log, k))));
    var sorted := Sort(Filed(st.log, k), SignalLe);
    var authors := Authors(OfKind(sorted, SocialPost));
    forall a ensures IsNew(st.firstSeen, k, a) <==> NeverSeenBefore(st.log, k, a) {
      NewcomersMatchLog(st.firstSeen, st.log, k, a);
    }
    assert Newcomers(st.firstSeen, k, authors) == set a | a in authors && NeverSeenBefore(st.log, k, a);
  }

  /**
   * In every reachable state the latest revision of every window is what a recomputation from all
   * signals held so far gives, under the source flags the revision recorded.
   */
  lemma {:induction false} LatestIsBatch(cfg: Config, ops: seq<Op>, k: Key)
    requires ValidConfig(cfg) && Distinct(cfg.intervals) && k in Run(cfg, ops).revisions
    ensures var st := Run(cfg, ops);
            st.revisions[k] != [] && Reports(cfg, Latest(st, k), k, Batch(st.log, k))
  {
    RunsAreSound(cfg, ops);
    RunsMatchLog(cfg, ops);
    IndexIsBatch(cfg, Run(cfg, ops), k);
    assert Fresh(cfg, Run(cfg, ops), k);
  }

  // ---------------------------------------------------------------- order of arrival

  function Arrived(ops: seq<Op>): seq<Signal> {
    if ops == [] then []
    else
      Arrived(ops[..|ops| - 1])
      + (match ops[|ops| - 1] case Arrive(signal) => [signal] case Query(_, _) => [])
  }

  ghost predicate IdsDetermine(signals: seq<Signal>) {
    forall s, t :: s in signals && t in signals && s.scope == t.scope && s.eventId == t.eventId ==> s == t
  }

  lemma {:induction false} LogIsArrived(cfg: Config, ops: seq<Op>)
    requires ValidConfig(cfg) && Distinct(cfg.intervals) && IdsDetermine(Arrived(ops))
    ensures forall s :: s in Run(cfg, ops).log <==> s in Arrived(ops)
  {
    if ops != [] {
      var init, last := ops[..|ops| - 1], ops[|ops| - 1];
      var before := Run(cfg, init);
      LogIsArrived(cfg, init);
      RunsAreSound(cfg, init);
      RunsMatchLog(cfg, init);
      match last
      case Query(scope, asset) => QueryKeepsSound(cfg, before, scope, asset);
      case Arrive(signal) =>
        IngestLogs(cfg, before, signal);
        if !IsNewSignal(before, signal) {
          var s :| s in before.log && SeenId(s.scope, s.eventId) == SeenId(signal.scope, signal.eventId);
          assert s == signal;
        }
    }
  }

  lemma {:induction false} DistinctMultiplicity(log: seq<Signal>, s: Signal)
    requires forall i, j :: 0 <= i < j < |log| ==> log[i] != log[j]
    ensures multiset(log)[s] == if s in log then 1 else 0
  {
    if log != [] {
      assert log == [log[0]] + log[1..];
      DistinctMultiplicity(log[1..], s);
    }
  }

  lemma SameMembersSameMultiset(seen1: set<SeenId>, xs: seq<Signal>, seen2: set<SeenId>, ys: seq<Signal>)
    requires SeenMatchesLog(seen1, xs) && SeenMatchesLog(seen2, ys) && forall s :: s in xs <==> s in ys
    ensures multiset(xs) == multiset(ys)
  {
    forall s ensures multiset(xs)[s] == multiset(ys)[s] {
      DistinctMultiplicity(xs, s);
      DistinctMultiplicity(ys, s);
    }
  }

  lemma {:induction false} FiledMultiplicity(log: seq<Signal>, k: Key, s: Signal)
    ensures multiset(Filed(log, k))[s] == if KeyOf(s, k.interval) == k then multiset(log)[s] else 0
  {
    if log != [] {
      FiledMultiplicity(log[..|log| - 1], k, s);
      assert log == log[..|log| - 1] + [log[|log| - 1]];
    }
  }

  lemma IdsDistinguish(seen: set<SeenId>, log: seq<Signal>, k: Key)
    requires SeenMatchesLog(seen, log)
    ensures Distinguishes(SignalLe, Filed(log, k))
  {
    FiledMembers(log, k);
    forall x, y | x in Filed(log, k) && y in Filed(log, k) && SignalLe(x, y) && SignalLe(y, x) ensures x == y {
      StringLeAntisymmetric(x.eventId, y.eventId);
      var i :| 0 <= i < |log| && log[i] == x;
      var j :| 0 <= j < |log| && log[j] == y;
      assert x.scope == k.scope == y.scope;
      assert i == j;
    }
  }

  lemma {:induction false} CanonicalIgnoresArrival(seen: set<SeenId>, xs: seq<Signal>, ys: seq<Signal>, k: Key)
    requires SeenMatchesLog(seen, xs) && multiset(xs) == multiset(ys)
    ensures Sort(Filed(xs, k), SignalLe) == Sort(Filed(ys, k), SignalLe)
  {
    assert multiset(Filed(xs, k)) == multiset(Filed(ys, k)) by {
      forall s ensures multiset(Filed(xs, k))[s] == multiset(Filed(ys, k))[s] {
        FiledMultiplicity(xs, k, s);
        FiledMultiplicity(ys, k, s);
      }
    }
    IdsDistinguish(seen, xs, k);
    SignalOrdering();
    SortIgnoresArrival(Filed(xs, k), Filed(ys, k), SignalLe);
  }

  lemma BatchIgnoresArrival(seen: set<SeenId>, xs: seq<Signal>, ys: seq<Signal>, k: Key)
    requires SeenMatchesLog(seen, xs) && multiset(xs) == multiset(ys)
    ensures Batch(xs, k) == Batch(ys, k)
  {
    SameElements(xs, ys);
    CanonicalIgnoresArrival(seen, xs, ys, k);
    assert EarlierStarts(xs, k) == EarlierStarts(ys, k);
    VolumesIgnoreArrival(seen, xs, ys, k, LastTwenty(Ascending(EarlierStarts(xs, k))));
    NewcomersIgnoreArrival(xs, ys, k);
    hide SortedVolumes, NeverSeenBefore, EarlierStarts;
  }

  lemma VolumesIgnoreArrival(seen: set<SeenId>, xs: seq<Signal>, ys: seq<Signal>, k: Key, starts: seq<int>)
    requires SeenMatchesLog(seen, xs) && multiset(xs) == multiset(ys)
    ensures SortedVolumes(xs, k, starts) == SortedVolumes(ys, k, starts)
  {
    forall i | 0 <= i < |starts| ensures SortedVolumes(xs, k, starts)[i] == SortedVolumes(ys, k, starts)[i] {
      CanonicalIgnoresArrival(seen, xs, ys, k.(start := starts[i]));
    }
  }

  lemma NewcomersIgnoreArrival(xs: seq<Signal>, ys: seq<Signal>, k: Key)
    requires forall s :: s in xs <==> s in ys
    ensures forall a :: NeverSeenBefore(xs, k, a) <==> NeverSeenBefore(ys, k, a)
  {
  }

  /** Equal but for the source flags, what is computed from them, and what they withhold. */
  ghost predicate Agree(f: Features, g: Features) {
    && f.(market := g.market, socialFlags := g.socialFlags, social := g.social, dataQuality := g.dataQuality) == g
    && (f.social.Some? && g.social.Some? ==> f.social == g.social)
  }

  /**
   * Two runs in which the same signals arrive, in whatever order, with whatever duplicates and
   * queries, end with the same windows, the same lineage in each, and agreeing features.
   */
  lemma {:induction false} ArrivalOrderIsIrrelevant(cfg: Config, xs: seq<Op>, ys: seq<Op>, k: Key)
    requires ValidConfig(cfg) && Distinct(cfg.intervals)
    requires IdsDetermine(Arrived(xs)) && forall s :: s in Arrived(xs) <==> s in Arrived(ys)
    ensures k in Run(cfg, xs).revisions <==> k in Run(cfg, ys).revisions
    ensures k in Run(cfg, xs).revisions ==>
              && Run(cfg, xs).revisions[k] != [] && Run(cfg, ys).revisions[k] != []
              && Latest(Run(cfg, xs), k).lineage == Latest(Run(cfg, ys), k).lineage
              && Agree(Latest(Run(cfg, xs), k).features, Latest(Run(cfg, ys), k).features)
  {
    var a, b := Run(cfg, xs), Run(cfg, ys);
    assert IdsDetermine(Arrived(ys));
    LogIsArrived(cfg, xs);
    LogIsArrived(cfg, ys);
    RunsMatchLog(cfg, xs);
    RunsMatchLog(cfg, ys);
    RunsAreSound(cfg, xs);
    RunsAreSound(cfg, ys);
    SameMembersSameMultiset(a.seen, a.log, b.seen, b.log);
    FiledMembers(a.log, k);
    FiledMembers(b.log, k);
    assert Filed(a.log, k) != [] <==> Filed(b.log, k) != [] by {
      if Filed(a.log, k) != [] { assert Filed(a.log, k)[0] in Filed(b.log, k); }
      if Filed(b.log, k) != [] { assert Filed(b.log, k)[0] in Filed(a.log, k); }
    }
    assert k in a.events <==> k in b.events;
    if k in a.revisions {
      LatestIsBatch(cfg, xs, k);
      LatestIsBatch(cfg, ys, k);
      BatchIgnoresArrival(a.seen, a.log, b.log, k);
      ReportsAgree(cfg, Latest(a, k), Latest(b, k), k, Batch(a.log, k));
    }
  }

  lemma ReportsAgree(cfg: Config, s: Snapshot, t: Snapshot, k: Key, inputs: Inputs)
    requires Reports(cfg, s, k, inputs) && Reports(cfg, t, k, inputs)
    ensures s.lineage == t.lineage && Agree(s.features, t.features)
  {
  }
}
