/** Where the engine's snapshots are stored, and what a store holds however they are delivered. */
module FeatureStores {
  import opened Wrappers
  import opened FeatureSignals
  import opened FeatureWindows
  import opened FeatureLaws
  import opened FeatureBuilding
  import opened FeatureRuns
  import opened FeatureTheorems
  import opened FeatureEngine

  /** The row of a window: its current revision. */
  datatype Row = Row(current: nat, isFinal: bool, state: RevisionState)

  function RowOf(s: Snapshot): Row { Row(s.revision, s.isFinal, s.state) }

  datatype Tables = Tables(rows: map<Key, Row>, stored: seq<Snapshot>)

  const NO_TABLES := Tables(map[], [])

  /** A snapshot no newer than the window's current revision is refused. */
  predicate Refused(t: Tables, s: Snapshot) { s.key in t.rows && t.rows[s.key].current >= s.revision }

  function Persisted(t: Tables, s: Snapshot): Tables {
    if Refused(t, s) then t else Tables(t.rows[s.key := RowOf(s)], t.stored + [s])
  }

  function PersistedEach(t: Tables, snaps: seq<Snapshot>): Tables {
    if snaps == [] then t else Persisted(PersistedEach(t, snaps[..|snaps| - 1]), snaps[|snaps| - 1])
  }

  class SqlFeatureRepository {
    var rows: map<Key, Row>
    var stored: seq<Snapshot>

    function View(): Tables
      reads this
    {
      Tables(rows, stored)
    }

    constructor ()
      ensures View() == NO_TABLES
    {
      rows, stored := map[], [];
    }

    method Persist(s: Snapshot) returns (done: bool)
      modifies this
      ensures View() == Persisted(old(View()), s) && done == !Refused(old(View()), s)
    {
      if s.key !in rows {
        rows := rows[s.key := Row(s.revision, s.isFinal, s.state)];
      } else if rows[s.key].current >= s.revision {
        return false;
      } else {
        rows := rows[s.key := rows[s.key].(current := s.revision, isFinal := s.isFinal, state := s.state)];
      }
      stored := stored + [s];
      return true;
    }

    /** Persists what one call of the engine returned, in that order. */
    method PersistEach(snaps: seq<Snapshot>)
      modifies this
      ensures View() == PersistedEach(old(View()), snaps)
    {
      for i := 0 to |snaps|
        invariant View() == PersistedEach(old(View()), snaps[..i])
      {
        assert snaps[..i + 1][..i] == snaps[..i];
        var _ := Persist(snaps[i]);
      }
      assert snaps[..|snaps|] == snaps;
    }
  }

  /** The engine in front of its store. */
  class FeatureWindowService {
    const engine: FeatureWindowEngine
    const repository: SqlFeatureRepository

    constructor (e: FeatureWindowEngine, r: SqlFeatureRepository)
      ensures engine == e && repository == r
    {
      engine, repository := e, r;
    }

    method Process(signal: Signal) returns (changed: seq<Snapshot>)
      requires engine.Valid()
      modifies engine, repository
      ensures engine.Valid() && Outcome(engine.View(), changed) == Ingest(engine.cfg, old(engine.View()), signal)
      ensures repository.View() == PersistedEach(old(repository.View()), changed)
    {
      changed := engine.IngestSignal(signal);
      repository.PersistEach(changed);
    }
  }

  // ---------------------------------------------------------------- deliveries in any order

  lemma OfOneMore(snaps: seq<Snapshot>, s: Snapshot, k: Key)
    ensures Of(snaps + [s], k) == if s.key == k then Of(snaps, k) + [s] else Of(snaps, k)
  {
    OfSplits(snaps, [s], k);
    assert [s][1..] == [];
  }

  ghost predicate Ascending(h: seq<Snapshot>) {
    forall i, j :: 0 <= i < j < |h| ==> h[i].revision < h[j].revision
  }

  ghost predicate HoldsNewest(t: Tables, delivered: seq<Snapshot>, k: Key) {
    var kept := Of(t.stored, k);
    && Ascending(kept) && (forall s :: s in kept ==> s in delivered)
    && (k in t.rows <==> kept != []) && (kept == [] <==> Of(delivered, k) == [])
    && (k in t.rows ==> t.rows[k] == RowOf(kept[|kept| - 1])
                        && forall s :: s in Of(delivered, k) ==> s.revision <= t.rows[k].current)
  }

  /**
   * However snapshots are delivered, late, twice or out of order, a window's row is at the highest
   * revision delivered, and its stored revisions only ever rise to it.
   */
  lemma {:induction false} AnyDeliveryKeepsNewest(delivered: seq<Snapshot>, k: Key)
    ensures HoldsNewest(PersistedEach(NO_TABLES, delivered), delivered, k)
  {
    if delivered != [] {
      var init, s := delivered[..|delivered| - 1], delivered[|delivered| - 1];
      AnyDeliveryKeepsNewest(init, k);
      assert delivered == init + [s];
      OneMoreKeepsNewest(PersistedEach(NO_TABLES, init), init, s, k);
    }
  }

  lemma OneMoreKeepsNewest(t: Tables, init: seq<Snapshot>, s: Snapshot, k: Key)
    requires HoldsNewest(t, init, k)
    ensures HoldsNewest(Persisted(t, s), init + [s], k)
  {
    OfOneMore(init, s, k);
    OfOneMore(t.stored, s, k);
    hide Of;
    if s.key == k && !Refused(t, s) {
      NewestIsKept(t, init, s);
    }
  }

  lemma NewestIsKept(t: Tables, init: seq<Snapshot>, s: Snapshot)
    requires HoldsNewest(t, init, s.key) && !Refused(t, s)
    requires Of(init + [s], s.key) == Of(init, s.key) + [s] && Of(t.stored + [s], s.key) == Of(t.stored, s.key) + [s]
    ensures HoldsNewest(Persisted(t, s), init + [s], s.key)
  {
    hide Of;
    var kept := Of(t.stored, s.key);
    forall i | 0 <= i < |kept| ensures kept[i].revision < s.revision {
      assert i < |kept| - 1 ==> kept[i].revision < kept[|kept| - 1].revision;
    }
  }

  // ---------------------------------------------------------------- deliveries by the engine

  /** All snapshots a run of the engine returns, in order. */
  function Emitted(cfg: Config, ops: seq<Op>): seq<Snapshot>
    requires ValidConfig(cfg)
  {
    if ops == [] then []
    else
      var st, op := Run(cfg, ops[..|ops| - 1]), ops[|ops| - 1];
      Emitted(cfg, ops[..|ops| - 1])
      + (match op case Arrive(signal) => Ingest(cfg, st, signal).changed case Query(_, _) => [])
  }

  /** A run returns every revision it makes, once, in order. */
  lemma {:induction false} EmittedIsHistory(cfg: Config, ops: seq<Op>, k: Key)
    requires ValidConfig(cfg)
    ensures Of(Emitted(cfg, ops), k) == History(Run(cfg, ops), k)
  {
    if ops != [] {
      var init, op := ops[..|ops| - 1], ops[|ops| - 1];
      EmittedIsHistory(cfg, init, k);
      match op {
        case Arrive(signal) =>
          RunsAreSound(cfg, init);
          IngestReturns(cfg, Run(cfg, init), signal);
          OfSplits(Emitted(cfg, init), Ingest(cfg, Run(cfg, init), signal).changed, k);
        case Query(_, _) =>
          assert Emitted(cfg, init) + [] == Emitted(cfg, init);
      }
    }
  }

  ghost predicate Numbered(snaps: seq<Snapshot>) {
    forall k {:trigger Of(snaps, k)} :: forall i :: 0 <= i < |Of(snaps, k)| ==> Of(snaps, k)[i].revision == i + 1
  }

  lemma {:induction false} NumberedIsStored(snaps: seq<Snapshot>)
    requires Numbered(snaps)
    ensures PersistedEach(NO_TABLES, snaps).stored == snaps
  {
    if snaps != [] {
      var init, s := snaps[..|snaps| - 1], snaps[|snaps| - 1];
      assert snaps == init + [s];
      forall k | true ensures forall i :: 0 <= i < |Of(init, k)| ==> Of(init, k)[i].revision == i + 1 {
        OfOneMore(init, s, k);
        assert forall i :: 0 <= i < |Of(init, k)| ==> Of(snaps, k)[i] == Of(init, k)[i];
      }
      NumberedIsStored(init);
      AnyDeliveryKeepsNewest(init, s.key);
      OfOneMore(init, s, s.key);
      assert Of(snaps, s.key)[|Of(init, s.key)|] == s;
    }
  }

  /** Fed by the engine, the store holds every window's whole history, and its row the latest revision. */
  lemma EngineFillsStore(cfg: Config, ops: seq<Op>, k: Key)
    requires ValidConfig(cfg)
    ensures var t, st := PersistedEach(NO_TABLES, Emitted(cfg, ops)), Run(cfg, ops);
            && Of(t.stored, k) == History(st, k)
            && (k in t.rows <==> History(st, k) != [])
            && (k in t.rows ==>
                  t.rows[k] == RowOf(History(st, k)[|History(st, k)| - 1]) && t.rows[k].current == |History(st, k)|)
  {
    var snaps := Emitted(cfg, ops);
    RunsAreSound(cfg, ops);
    forall key | true ensures forall i :: 0 <= i < |Of(snaps, key)| ==> Of(snaps, key)[i].revision == i + 1 {
      EmittedIsHistory(cfg, ops, key);
    }
    NumberedIsStored(snaps);
    EmittedIsHistory(cfg, ops, k);
    AnyDeliveryKeepsNewest(snaps, k);
  }

  /** Delivering again anything that was delivered before changes nothing, as after a crash and a replay. */
  lemma RedeliveryChangesNothing(delivered: seq<Snapshot>, s: Snapshot)
    requires s in delivered
    ensures Persisted(PersistedEach(NO_TABLES, delivered), s) == PersistedEach(NO_TABLES, delivered)
  {
    AnyDeliveryKeepsNewest(delivered, s.key);
    OfHolds(delivered, s);
  }

  lemma {:induction false} OfHolds(snaps: seq<Snapshot>, s: Snapshot)
    requires s in snaps
    ensures s in Of(snaps, s.key)
  {
    if snaps[0] != s {
      OfHolds(snaps[1..], s);
    }
  }
}
