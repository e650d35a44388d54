/** The window index after a signal has been filed: what it holds and which windows stay fresh. */
module FeatureIndex {
  import opened Wrappers
  import opened Sorting
  import opened FeatureSignals
  import opened FeatureWindows
  import opened FeatureLaws
  import opened FeatureBuilding

  ghost predicate Listed(st: State) {
    && Distinct(st.order)
    && (forall k :: k in st.order <==> k in st.events)
    && (forall k :: k in st.revisions <==> k in st.events)
  }

  // ---------------------------------------------------------------- listing windows of a series

  lemma {:induction false} StartsBeforeSplits(a: seq<Key>, b: seq<Key>, key: Key)
    ensures StartsBefore(a + b, key) == StartsBefore(a, key) + StartsBefore(b, key)
  {
    if a == [] {
      assert a + b == b;
    } else {
      assert (a + b)[1..] == a[1..] + b;
      StartsBeforeSplits(a[1..], b, key);
    }
  }

  lemma {:induction false} StartsBeforeMembers(order: seq<Key>, key: Key)
    requires Distinct(order)
    ensures forall x :: x in StartsBefore(order, key) <==> x < key.start && key.(start := x) in order
    ensures Distinct(StartsBefore(order, key))
  {
    if order != [] {
      StartsBeforeMembers(order[1..], key);
      var rest := StartsBefore(order[1..], key);
      if SameSeries(order[0], key) && order[0].start < key.start {
        assert key.(start := order[0].start) == order[0];
        assert order[0] !in order[1..];
        assert order[0].start !in rest;
      }
    }
  }

  lemma {:induction false} StartsBeforeAreBefore(order: seq<Key>, key: Key)
    ensures forall x :: x in StartsBefore(order, key) ==> x < key.start
  {
    if order != [] {
      StartsBeforeAreBefore(order[1..], key);
    }
  }

  lemma {:induction false} StartsAfterMembers(order: seq<Key>, key: Key)
    ensures forall x :: x in StartsAfter(order, key) <==> x > key.start && key.(start := x) in order
  {
    if order != [] {
      StartsAfterMembers(order[1..], key);
      forall x ensures x in StartsAfter(order, key) <==> x > key.start && key.(start := x) in order {
        assert key.(start := x) == order[0] <==> SameSeries(order[0], key) && order[0].start == x;
      }
    }
  }

  lemma DownstreamMembers(order: seq<Key>, w: Key)
    ensures forall k :: k in Downstream(order, w) <==> SameSeries(k, w) && k.start > w.start && k in order
  {
    var starts := StartsAfter(order, w);
    StartsAfterMembers(order, w);
    SortPermutes(starts, IntLe);
    var sorted := Sort(starts, IntLe);
    forall k ensures k in Downstream(order, w) <==> SameSeries(k, w) && k.start > w.start && k in order {
      if k in Downstream(order, w) {
        var i :| 0 <= i < |sorted| && Downstream(order, w)[i] == k;
        assert k == w.(start := sorted[i]) && sorted[i] in starts;
      }
      if SameSeries(k, w) && k.start > w.start && k in order {
        assert w.(start := k.start) == k;
        assert k.start in sorted;
        var i :| 0 <= i < |sorted| && sorted[i] == k.start;
        assert Downstream(order, w)[i] == k;
      }
    }
  }

  // ---------------------------------------------------------------- freshness of other windows

  /** The index holds the same for every window of k's series up to k itself. */
  ghost predicate SameUpTo(st: State, next: State, k: Key) {
    && StartsBefore(next.order, k) == StartsBefore(st.order, k)
    && (forall e :: SameSeries(e, k) && e.start <= k.start ==> EventsOf(next.events, e) == EventsOf(st.events, e))
    && (forall a :: IsNew(next.firstSeen, k, a) == IsNew(st.firstSeen, k, a))
  }

  lemma SameVolumes(st: State, next: State, k: Key, starts: seq<int>)
    requires SameUpTo(st, next, k) && forall x :: x in starts ==> x < k.start
    ensures Volumes(next.events, k, starts) == Volumes(st.events, k, starts)
  {
    forall i | 0 <= i < |starts|
      ensures EventsOf(next.events, k.(start := starts[i])) == EventsOf(st.events, k.(start := starts[i]))
    {
      assert starts[i] in starts;
    }
  }

  /** A window's features depend only on its own and earlier windows of its series and on its authors. */
  lemma InputsStable(st: State, next: State, k: Key)
    requires SameUpTo(st, next, k)
    ensures Indexed(next, k) == Indexed(st, k)
  {
    var earlier := Sort(StartsBefore(st.order, k), IntLe);
    SortPermutes(StartsBefore(st.order, k), IntLe);
    StartsBeforeAreBefore(st.order, k);
    assert forall x :: x in LastTwenty(earlier) ==> x in earlier;
    SameVolumes(st, next, k, LastTwenty(earlier));
    assert SameSeries(k, k);
    var authors := Authors(OfKind(Sort(EventsOf(st.events, k), SignalLe), SocialPost));
    assert Newcomers(next.firstSeen, k, authors) == Newcomers(st.firstSeen, k, authors);
  }

  lemma StaysFresh(cfg: Config, st: State, next: State, k: Key)
    requires Fresh(cfg, st, k) && SameUpTo(st, next, k)
    requires k in next.revisions && next.revisions[k] == st.revisions[k]
    ensures Fresh(cfg, next, k)
  {
    InputsStable(st, next, k);
    assert Latest(next, k) == Latest(st, k);
  }

  /** The window lies at or after one of these in its series. */
  ghost predicate Due(keys: seq<Key>, k: Key) {
    exists w :: w in keys && SameSeries(k, w) && k.start >= w.start
  }

  ghost predicate Aligned(k: Key) {
    exists t :: k.start == FloorWindow(t, k.interval)
  }

  /** A new sighting of an author cannot make him older for a window that precedes it. */
  lemma RecordSameUpTo(cfg: Config, st: State, signal: Signal, k: Key)
    requires Aligned(k) && k.interval in cfg.intervals && !Due(WindowsOf(cfg, signal), k)
    ensures SameUpTo(st, Record(st, signal), k)
  {
    var next := Record(st, signal);
    forall a ensures IsNew(next.firstSeen, k, a) == IsNew(st.firstSeen, k, a) {
      if k.scope == signal.scope && k.asset == signal.asset {
        var t :| k.start == FloorWindow(t, k.interval);
        var i :| 0 <= i < |cfg.intervals| && cfg.intervals[i] == k.interval;
        assert WindowsOf(cfg, signal)[i] == KeyOf(signal, k.interval);
        EarlierStartPrecedes(signal.eventTime, t, k.interval);
      }
    }
  }

  lemma RecordKeepsFresh(cfg: Config, st: State, signal: Signal, k: Key)
    requires Fresh(cfg, st, k) && Aligned(k) && k.interval in cfg.intervals && !Due(WindowsOf(cfg, signal), k)
    ensures Fresh(cfg, Record(st, signal), k)
  {
    RecordSameUpTo(cfg, st, signal, k);
    StaysFresh(cfg, st, Record(st, signal), k);
  }

  lemma FileSameUpTo(st: State, signal: Signal, w: Key, k: Key)
    requires !(SameSeries(k, w) && k.start >= w.start)
    ensures SameUpTo(st, File(st, w, signal), k)
  {
    StartsBeforeSplits(st.order, [w], k);
    assert [w][1..] == [];
  }

  lemma FileKeepsFresh(cfg: Config, st: State, signal: Signal, w: Key, k: Key)
    requires Fresh(cfg, st, k) && !(SameSeries(k, w) && k.start >= w.start)
    ensures Fresh(cfg, File(st, w, signal), k)
  {
    FileSameUpTo(st, signal, w, k);
    StaysFresh(cfg, st, File(st, w, signal), k);
  }

  lemma RebuiltMembers(order: seq<Key>, w: Key)
    ensures forall k :: k in Rebuilt(order, w) <==> k == w || (SameSeries(k, w) && k.start > w.start && k in order)
  {
    DownstreamMembers(order, w);
  }

  lemma BuiltIsListed(st: State, signal: Signal, w: Key, next: State)
    requires Listed(st) && OnlyBuilt(File(st, w, signal), next, Rebuilt(st.order, w))
    ensures Listed(next)
  {
    RebuiltMembers(st.order, w);
    forall k ensures k in next.revisions <==> k in next.events {
      assert k in next.revisions <==> k in st.revisions || k in Rebuilt(st.order, w);
    }
  }

  lemma {:induction false} PlaceKeepsListed(cfg: Config, st: State, signal: Signal, w: Key)
    requires ValidConfig(cfg) && Listed(st)
    ensures Listed(Place(cfg, st, signal, w).state)
  {
    BuildEachOnly(cfg, File(st, w, signal), Rebuilt(st.order, w), false);
    BuiltIsListed(st, signal, w, Place(cfg, st, signal, w).state);
  }

  /** A window that was fresh and is not rebuilt was not concerned. */
  lemma {:induction false} UnbuiltStaysFresh(cfg: Config, st: State, signal: Signal, w: Key, next: State, k: Key)
    requires Listed(st) && OnlyBuilt(File(st, w, signal), next, Rebuilt(st.order, w))
    requires Fresh(cfg, st, k) && k !in Rebuilt(st.order, w)
    ensures Fresh(cfg, next, k)
  {
    var filed := File(st, w, signal);
    RebuiltMembers(st.order, w);
    assert k != w && k in st.order;
    FileKeepsFresh(cfg, st, signal, w, k);
    assert SameUpTo(filed, next, k);
    StaysFresh(cfg, filed, next, k);
  }

  /** The window is fresh, or the signal still has to be filed into it or ahead of it. */
  ghost predicate FreshOrDue(cfg: Config, st: State, keys: seq<Key>, k: Key) {
    Fresh(cfg, st, k) || Due(keys, k)
  }

  ghost predicate Pending(cfg: Config, st: State, keys: seq<Key>) {
    forall k :: k in st.revisions ==> FreshOrDue(cfg, st, keys, k)
  }

  lemma UnbuiltNotDueHere(order: seq<Key>, keys: seq<Key>, k: Key)
    requires keys != [] && Due(keys, k) && k in order && k !in Rebuilt(order, keys[0])
    ensures Due(keys[1..], k)
  {
    RebuiltMembers(order, keys[0]);
    var w :| w in keys && SameSeries(k, w) && k.start >= w.start;
    assert w != keys[0];
  }

  lemma {:induction false} UnbuiltFreshOrDue(
      cfg: Config, st: State, signal: Signal, keys: seq<Key>, next: State, k: Key)
    requires keys != [] && Listed(st) && k in st.revisions && k !in Rebuilt(st.order, keys[0])
    requires OnlyBuilt(File(st, keys[0], signal), next, Rebuilt(st.order, keys[0]))
    requires FreshOrDue(cfg, st, keys, k)
    ensures FreshOrDue(cfg, next, keys[1..], k)
  {
    if Fresh(cfg, st, k) {
      UnbuiltStaysFresh(cfg, st, signal, keys[0], next, k);
    } else {
      UnbuiltNotDueHere(st.order, keys, k);
    }
  }

  lemma PlaceFreshens(cfg: Config, st: State, signal: Signal, keys: seq<Key>)
    requires ValidConfig(cfg) && keys != [] && Listed(st) && Pending(cfg, st, keys)
    ensures Pending(cfg, Place(cfg, st, signal, keys[0]).state, keys[1..])
  {
    var w := keys[0];
    var next := Place(cfg, st, signal, w).state;
    BuildEachOnly(cfg, File(st, w, signal), Rebuilt(st.order, w), false);
    BuildEachFresh(cfg, File(st, w, signal), Rebuilt(st.order, w), false);
    forall k | k in next.revisions ensures FreshOrDue(cfg, next, keys[1..], k) {
      if k !in Rebuilt(st.order, w) {
        UnbuiltFreshOrDue(cfg, st, signal, keys, next, k);
      }
    }
  }

  lemma {:induction false} PlaceEachFreshens(cfg: Config, st: State, signal: Signal, keys: seq<Key>)
    requires ValidConfig(cfg) && Listed(st)
    ensures Listed(PlaceEach(cfg, st, signal, keys).state)
    ensures Pending(cfg, st, keys) ==> Pending(cfg, PlaceEach(cfg, st, signal, keys).state, [])
    decreases |keys|
  {
    if keys != [] {
      PlaceKeepsListed(cfg, st, signal, keys[0]);
      if Pending(cfg, st, keys) {
        PlaceFreshens(cfg, st, signal, keys);
      }
      PlaceEachFreshens(cfg, Place(cfg, st, signal, keys[0]).state, signal, keys[1..]);
    }
  }

  // ---------------------------------------------------------------- what filing leaves in the index

  lemma WindowsOfMembers(cfg: Config, signal: Signal)
    ensures forall k :: k in WindowsOf(cfg, signal) <==> k.interval in cfg.intervals && KeyOf(signal, k.interval) == k
    ensures Distinct(cfg.intervals) ==> Distinct(WindowsOf(cfg, signal))
  {
    var keys := WindowsOf(cfg, signal);
    forall k ensures k in keys <==> k.interval in cfg.intervals && KeyOf(signal, k.interval) == k {
      if k.interval in cfg.intervals {
        var i :| 0 <= i < |cfg.intervals| && cfg.intervals[i] == k.interval;
        assert keys[i] == KeyOf(signal, k.interval);
      }
    }
    if Distinct(cfg.intervals) {
      forall i, j | 0 <= i < j < |keys| ensures keys[i] != keys[j] {
        assert keys[i].interval == cfg.intervals[i] && keys[j].interval == cfg.intervals[j];
      }
    }
  }

  /** The next index is the old one with the signal appended to each of these windows. */
  ghost predicate FiledInto(
      events: map<Key, seq<Signal>>, next: map<Key, seq<Signal>>, signal: Signal, hits: seq<Key>) {
    && (forall k :: k in next <==> k in events || k in hits)
    && (forall k :: EventsOf(next, k) == EventsOf(events, k) + (if k in hits then [signal] else []))
  }

  lemma FiledIntoBoth(
      a: map<Key, seq<Signal>>, b: map<Key, seq<Signal>>, c: map<Key, seq<Signal>>, signal: Signal, hits: seq<Key>)
    requires hits != [] && hits[0] !in hits[1..]
    requires FiledInto(a, b, signal, [hits[0]]) && FiledInto(b, c, signal, hits[1..])
    ensures FiledInto(a, c, signal, hits)
  {
    forall k ensures EventsOf(c, k) == EventsOf(a, k) + (if k in hits then [signal] else []) {
      assert EventsOf(c, k) == EventsOf(b, k) + (if k in hits[1..] then [signal] else []);
      assert EventsOf(b, k) == EventsOf(a, k) + (if k in [hits[0]] then [signal] else []);
    }
  }

  lemma FileFiles(st: State, w: Key, signal: Signal)
    ensures FiledInto(st.events, File(st, w, signal).events, signal, [w])
  {
  }

  lemma {:induction false} PlaceEachFiles(cfg: Config, st: State, signal: Signal, keys: seq<Key>)
    requires ValidConfig(cfg) && Distinct(keys)
    ensures FiledInto(st.events, PlaceEach(cfg, st, signal, keys).state.events, signal, keys)
    decreases |keys|
  {
    if keys != [] {
      var here := Place(cfg, st, signal, keys[0]).state;
      BuildingKeepsIndex(cfg, File(st, keys[0], signal), Rebuilt(st.order, keys[0]), false);
      FileFiles(st, keys[0], signal);
      PlaceEachFiles(cfg, here, signal, keys[1..]);
      FiledIntoBoth(st.events, here.events, PlaceEach(cfg, st, signal, keys).state.events, signal, keys);
    }
  }

  lemma {:induction false} PlaceEachOpens(cfg: Config, st: State, signal: Signal, keys: seq<Key>)
    requires ValidConfig(cfg)
    ensures forall k :: k in PlaceEach(cfg, st, signal, keys).state.events <==> k in st.events || k in keys
    decreases |keys|
  {
    if keys != [] {
      BuildingKeepsIndex(cfg, File(st, keys[0], signal), Rebuilt(st.order, keys[0]), false);
      PlaceEachOpens(cfg, Place(cfg, st, signal, keys[0]).state, signal, keys[1..]);
    }
  }

  /** Placing a signal leaves the bookkeeping done for it alone. */
  lemma {:induction false} PlaceEachKeepsRecord(cfg: Config, st: State, signal: Signal, keys: seq<Key>)
    requires ValidConfig(cfg)
    ensures var next := PlaceEach(cfg, st, signal, keys).state;
            next == st.(events := next.events, order := next.order, revisions := next.revisions, flags := next.flags)
    decreases |keys|
  {
    if keys != [] {
      BuildingKeepsIndex(cfg, File(st, keys[0], signal), Rebuilt(st.order, keys[0]), false);
      PlaceEachKeepsRecord(cfg, Place(cfg, st, signal, keys[0]).state, signal, keys[1..]);
    }
  }
}
