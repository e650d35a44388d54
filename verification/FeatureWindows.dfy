/**
 * The state of the event-time feature engine and what each of its steps does to it. The class
 * FeatureEngine.FeatureWindowEngine is proved to take exactly these steps.
 */
module FeatureWindows {
  import opened Wrappers
  import opened Sorting
  import opened FeatureSignals

  datatype RevisionState = Provisional | Final | Corrected

  /** The lineage of a revision. `material` is what the source hash is taken over. */
  datatype Lineage = Lineage(
    eventIds: seq<string>, firstTime: Option<int>, lastTime: Option<int>, count: nat, material: seq<Signal>)

  datatype Snapshot = Snapshot(
    key: Key, windowEnd: int, revision: nat, isFinal: bool, state: RevisionState,
    supersedes: Option<nat>, features: Features, lineage: Lineage)

  /**
   * The engine's settings. `extract` is the arithmetic that turns a window's inputs into features;
   * the engine uses FeatureSignals.Raw, and everything below holds whatever it computes.
   */
  datatype Config = Config(
    intervals: seq<int>, lateness: int, idleAfter: int, required: seq<Domain>, extract: (Key, Inputs) -> RawFeatures)

  /** What the constructor checks, and the required domains without which every call fails. */
  predicate ValidConfig(cfg: Config) {
    cfg.intervals != [] && (forall i | i in cfg.intervals :: i > 0) && cfg.required != []
  }

  predicate Distinct<T(==)>(xs: seq<T>) {
    forall i, j :: 0 <= i < j < |xs| ==> xs[i] != xs[j]
  }

  datatype Source = Source(scope: string, asset: string, domain: Domain)
  datatype Author = Author(scope: string, asset: string, id: string)
  datatype SeenId = SeenId(scope: string, eventId: string)

  /** `order` is the insertion order of the window dictionaries. */
  datatype State = State(
    events: map<Key, seq<Signal>>, order: seq<Key>, revisions: map<Key, seq<Snapshot>>,
    maxTime: map<Source, int>, flags: map<Source, Flags>, seen: set<SeenId>,
    firstSeen: map<Author, int>, log: seq<Signal>)

  const EMPTY := State(map[], [], map[], map[], map[], {}, map[], [])

  /** A new state together with the snapshots a step returns. */
  datatype Outcome = Outcome(state: State, changed: seq<Snapshot>)

  // ---------------------------------------------------------------- watermarks

  function Newest(maxTime: map<Source, int>, scope: string, asset: string): Option<int> {
    var m, s := Source(scope, asset, Market), Source(scope, asset, Social);
    if m in maxTime && s in maxTime then Some(if maxTime[m] >= maxTime[s] then maxTime[m] else maxTime[s])
    else if m in maxTime then Some(maxTime[m])
    else if s in maxTime then Some(maxTime[s])
    else None
  }

  /** The source has lagged behind the newest signal long enough to be taken for idle. */
  predicate GoneIdle(cfg: Config, maxTime: map<Source, int>, flags: map<Source, Flags>, src: Source) {
    && src in flags && !flags[src].degraded && src in maxTime
    && Newest(maxTime, src.scope, src.asset).Some?
    && Newest(maxTime, src.scope, src.asset).value - maxTime[src] >= cfg.idleAfter * SECOND
  }

  function DomainWatermark(
      cfg: Config, maxTime: map<Source, int>, flags: map<Source, Flags>, src: Source): Option<int> {
    var newest := Newest(maxTime, src.scope, src.asset);
    if src !in flags || flags[src].degraded then None
    else if GoneIdle(cfg, maxTime, flags, src) then Some(newest.value - cfg.lateness * SECOND)
    else if flags[src].idle && newest.Some? then Some(newest.value - cfg.lateness * SECOND)
    else if src in maxTime then Some(maxTime[src] - cfg.lateness * SECOND)
    else None
  }

  /** What `watermarks()` writes: sources found to have gone idle are marked so. */
  function SettleFrom(cfg: Config, maxTime: map<Source, int>, flags: map<Source, Flags>,
                      scope: string, asset: string, n: nat): map<Source, Flags>
    requires n <= |cfg.required|
    decreases |cfg.required| - n
  {
    if n == |cfg.required| then flags
    else
      var src := Source(scope, asset, cfg.required[n]);
      var next := if GoneIdle(cfg, maxTime, flags, src) then flags[src := Flags(true, true, false)] else flags;
      SettleFrom(cfg, maxTime, next, scope, asset, n + 1)
  }

  function Settle(cfg: Config, st: State, scope: string, asset: string): State {
    st.(flags := SettleFrom(cfg, st.maxTime, st.flags, scope, asset, 0))
  }

  /** The domain's watermark as a list: empty if it is not required or has none. */
  function Available(cfg: Config, maxTime: map<Source, int>, flags: map<Source, Flags>,
                     scope: string, asset: string, domain: Domain): seq<int> {
    var here := DomainWatermark(cfg, maxTime, flags, Source(scope, asset, domain));
    if domain in cfg.required && here.Some? then [here.value] else []
  }

  /** The watermark the fusion of all required domains may rely on: the least, once all are there. */
  function Fusion(
      cfg: Config, maxTime: map<Source, int>, flags: map<Source, Flags>, scope: string, asset: string): Option<int>
    requires ValidConfig(cfg)
  {
    var available := Available(cfg, maxTime, flags, scope, asset, Market)
                     + Available(cfg, maxTime, flags, scope, asset, Social);
    if |available| == |cfg.required| then Some(MinInt(available)) else None
  }

  function Watermark(cfg: Config, st: State, scope: string, asset: string): Option<int>
    requires ValidConfig(cfg)
  {
    Fusion(cfg, st.maxTime, st.flags, scope, asset)
  }

  predicate Passed(watermark: Option<int>, key: Key) {
    watermark.Some? && End(key) <= watermark.value
  }

  // ---------------------------------------------------------------- reading the index

  function StartsBefore(order: seq<Key>, key: Key): seq<int> {
    if order == [] then []
    else
      (if SameSeries(order[0], key) && order[0].start < key.start then [order[0].start] else [])
      + StartsBefore(order[1..], key)
  }

  function StartsAfter(order: seq<Key>, key: Key): seq<int> {
    if order == [] then []
    else
      (if SameSeries(order[0], key) && order[0].start > key.start then [order[0].start] else [])
      + StartsAfter(order[1..], key)
  }

  predicate IntLe(a: int, b: int) { a <= b }

  function LastTwenty<T>(xs: seq<T>): seq<T> {
    if |xs| <= 20 then xs else xs[|xs| - 20..]
  }

  function EventsOf(events: map<Key, seq<Signal>>, key: Key): seq<Signal> {
    if key in events then events[key] else []
  }

  function Volumes(events: map<Key, seq<Signal>>, key: Key, starts: seq<int>): seq<real> {
    seq(|starts|, i requires 0 <= i < |starts| => RawVolume(EventsOf(events, key.(start := starts[i]))))
  }

  /** The author was not seen on this asset before the window; one never seen counts as new. */
  predicate IsNew(firstSeen: map<Author, int>, key: Key, author: string) {
    var a := Author(key.scope, key.asset, author);
    a in firstSeen ==> firstSeen[a] >= key.start
  }

  function Newcomers(firstSeen: map<Author, int>, key: Key, authors: seq<string>): set<string> {
    set a | a in authors && IsNew(firstSeen, key, a)
  }

  function InputsOf(events: map<Key, seq<Signal>>, order: seq<Key>, firstSeen: map<Author, int>, key: Key): Inputs {
    var sorted := Sort(EventsOf(events, key), SignalLe);
    var earlier := Sort(StartsBefore(order, key), IntLe);
    Inputs(sorted, Volumes(events, key, LastTwenty(earlier)),
           Newcomers(firstSeen, key, Authors(OfKind(sorted, SocialPost))), |earlier|)
  }

  function Indexed(st: State, key: Key): Inputs {
    InputsOf(st.events, st.order, st.firstSeen, key)
  }

  function FlagsOf(st: State, key: Key, domain: Domain): Flags {
    var src := Source(key.scope, key.asset, domain);
    if src in st.flags then st.flags[src] else UNHEARD
  }

  // ---------------------------------------------------------------- building a revision

  function History(st: State, key: Key): seq<Snapshot> {
    if key in st.revisions then st.revisions[key] else []
  }

  function Latest(st: State, key: Key): Snapshot
    requires key in st.revisions && st.revisions[key] != []
  {
    st.revisions[key][|st.revisions[key]| - 1]
  }

  function EventIds(events: seq<Signal>): seq<string> {
    seq(|events|, i requires 0 <= i < |events| => events[i].eventId)
  }

  function LineageOf(sorted: seq<Signal>): Lineage {
    Lineage(EventIds(sorted),
            if sorted != [] then Some(sorted[0].eventTime) else None,
            if sorted != [] then Some(sorted[|sorted| - 1].eventTime) else None,
            |sorted|, sorted)
  }

  function FeaturesOf(cfg: Config, key: Key, inputs: Inputs, market: Flags, social: Flags): Features {
    Mask(cfg.extract(key, inputs), market, social)
  }

  /** A revision after a final one is a correction; otherwise it is final or still provisional. */
  function NextState(prior: seq<Snapshot>, finalize: bool): RevisionState {
    if prior != [] && prior[|prior| - 1].state != Provisional then Corrected
    else if finalize then Final else Provisional
  }

  function NextSnapshot(cfg: Config, st: State, key: Key, force: bool): Snapshot
    requires ValidConfig(cfg)
  {
    var prior := History(st, key);
    var finalize := force || Passed(Watermark(cfg, st, key.scope, key.asset), key);
    var state := NextState(prior, finalize);
    Snapshot(
      key, End(key), |prior| + 1, state != Provisional, state,
      if state == Corrected then Some(prior[|prior| - 1].revision) else None,
      FeaturesOf(cfg, key, Indexed(st, key), FlagsOf(st, key, Market), FlagsOf(st, key, Social)),
      LineageOf(Indexed(st, key).events))
  }

  /** Appends one revision. Reading the watermark first may mark sources idle. */
  function Build(cfg: Config, st: State, key: Key, force: bool): (next: State)
    requires ValidConfig(cfg)
    ensures next == st.(revisions := next.revisions, flags := next.flags)
  {
    var settled := Settle(cfg, st, key.scope, key.asset);
    settled.(revisions := settled.revisions[key := History(settled, key) + [NextSnapshot(cfg, settled, key, force)]])
  }

  function BuildEach(cfg: Config, st: State, keys: seq<Key>, force: bool): Outcome
    requires ValidConfig(cfg)
    decreases |keys|
  {
    if keys == [] then Outcome(st, [])
    else
      var next := Build(cfg, st, keys[0], force);
      var rest := BuildEach(cfg, next, keys[1..], force);
      Outcome(rest.state, [Latest(next, keys[0])] + rest.changed)
  }

  // ---------------------------------------------------------------- ingesting a signal

  function FlagsAfter(previous: Flags, signal: Signal): Flags {
    if signal.kind == DataQuality
    then Flags(signal.values.sourceActive.GetOr(true), signal.values.sourceIdle.GetOr(false),
               signal.values.sourceDegraded.GetOr(false))
    else previous.(active := true, idle := false)
  }

  /** The bookkeeping before any window is touched. */
  function Record(st: State, signal: Signal): State {
    var src := Source(signal.scope, signal.asset, signal.domain);
    var author := Author(signal.scope, signal.asset, signal.values.authorId.GetOr(""));
    st.(
      seen := st.seen + {SeenId(signal.scope, signal.eventId)},
      log := st.log + [signal],
      maxTime := st.maxTime[src := if src in st.maxTime && st.maxTime[src] > signal.eventTime
                                   then st.maxTime[src] else signal.eventTime],
      flags := st.flags[src :=
                          FlagsAfter(if src in st.flags then st.flags[src] else Flags(true, false, false), signal)],
      firstSeen := if signal.values.authorId.None? then st.firstSeen
                   else st.firstSeen[author := if author in st.firstSeen && st.firstSeen[author] < signal.eventTime
                                               then st.firstSeen[author] else signal.eventTime])
  }

  /** Adds the signal to a window, opening the window if it is new. */
  function File(st: State, key: Key, signal: Signal): State {
    st.(events := st.events[key := EventsOf(st.events, key) + [signal]],
        order := if key in st.events then st.order else st.order + [key])
  }

  function WithStarts(key: Key, starts: seq<int>): seq<Key> {
    seq(|starts|, i requires 0 <= i < |starts| => key.(start := starts[i]))
  }

  /** The later windows of the same series, earliest first. */
  function Downstream(order: seq<Key>, key: Key): seq<Key> {
    WithStarts(key, Sort(StartsAfter(order, key), IntLe))
  }

  /** The windows a signal falls into, one for each interval. */
  function WindowsOf(cfg: Config, signal: Signal): seq<Key> {
    seq(|cfg.intervals|, i requires 0 <= i < |cfg.intervals| => KeyOf(signal, cfg.intervals[i]))
  }

  /** The window itself and those after it. */
  function Rebuilt(order: seq<Key>, key: Key): seq<Key> {
    [key] + Downstream(order, key)
  }

  /** Files the signal into one window and rebuilds that window and those after it. */
  function Place(cfg: Config, st: State, signal: Signal, key: Key): Outcome
    requires ValidConfig(cfg)
  {
    BuildEach(cfg, File(st, key, signal), Rebuilt(st.order, key), false)
  }

  function PlaceEach(cfg: Config, st: State, signal: Signal, keys: seq<Key>): Outcome
    requires ValidConfig(cfg)
    decreases |keys|
  {
    if keys == [] then Outcome(st, [])
    else
      var here := Place(cfg, st, signal, keys[0]);
      var rest := PlaceEach(cfg, here.state, signal, keys[1..]);
      Outcome(rest.state, here.changed + rest.changed)
  }

  /** The windows of an asset whose last revision is provisional though the watermark has passed. */
  function Overdue(st: State, keys: seq<Key>, scope: string, asset: string, watermark: Option<int>): seq<Key> {
    if keys == [] then []
    else
      var k := keys[0];
      (if k.scope == scope && k.asset == asset && History(st, k) != []
          && !History(st, k)[|History(st, k)| - 1].isFinal && Passed(watermark, k)
       then [k] else [])
      + Overdue(st, keys[1..], scope, asset, watermark)
  }

  function Finalize(cfg: Config, st: State, scope: string, asset: string): Outcome
    requires ValidConfig(cfg)
  {
    var settled := Settle(cfg, st, scope, asset);
    BuildEach(cfg, settled, Overdue(settled, settled.order, scope, asset, Watermark(cfg, settled, scope, asset)), true)
  }

  /** Building revisions touches neither the index nor the bookkeeping, source flags aside. */
  lemma {:induction false} BuildingKeepsIndex(cfg: Config, st: State, keys: seq<Key>, force: bool)
    requires ValidConfig(cfg)
    ensures var s := BuildEach(cfg, st, keys, force).state;
            s == st.(revisions := s.revisions, flags := s.flags)
    decreases |keys|
  {
    if keys != [] {
      BuildingKeepsIndex(cfg, Build(cfg, st, keys[0], force), keys[1..], force);
    }
  }

  function Ingest(cfg: Config, st: State, signal: Signal): Outcome
    requires ValidConfig(cfg)
  {
    if SeenId(signal.scope, signal.eventId) in st.seen then Outcome(st, [])
    else
      var placed := PlaceEach(cfg, Record(st, signal), signal, WindowsOf(cfg, signal));
      var finalized := Finalize(cfg, placed.state, signal.scope, signal.asset);
      Outcome(finalized.state, placed.changed + finalized.changed)
  }
}
