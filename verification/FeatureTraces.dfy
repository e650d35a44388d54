/** The engine's loops step by step, as the states and snapshots they pass through. */
module FeatureTraces {
  import opened Wrappers
  import opened Sorting
  import opened FeatureSignals
  import opened FeatureWindows
  import opened FeatureLaws
  import opened FeatureBuilding
  import opened FeatureIndex
  import opened FeatureRuns
  import opened FeatureTheorems

  /** Asking for finality changes nothing for a window whose last revision is final already. */
  lemma ForceIsRedundant(cfg: Config, st: State, k: Key)
    requires ValidConfig(cfg) && k in st.revisions && st.revisions[k] != [] && ValidHistory(k, st.revisions[k])
    ensures Build(cfg, st, k, Latest(st, k).isFinal) == Build(cfg, st, k, false)
  {
    hide InputsOf, FeaturesOf, LineageOf, Fusion, SettleFrom;
    var h := st.revisions[k];
    assert h[|h| - 1].isFinal <==> h[|h| - 1].state != Provisional;
  }

  lemma {:induction false} OwnStartIsNotLater(order: seq<Key>, w: Key)
    ensures StartsAfter(order + [w], w) == StartsAfter(order, w)
  {
    if order == [] {
      assert ([] + [w])[1..] == [];
    } else {
      assert (order + [w])[1..] == order[1..] + [w];
      OwnStartIsNotLater(order[1..], w);
    }
  }

  lemma SettleKeepsWatermark(cfg: Config, st: State, scope: string, asset: string)
    requires ValidConfig(cfg)
    ensures Watermark(cfg, Settle(cfg, st, scope, asset), scope, asset) == Watermark(cfg, st, scope, asset)
  {
    SettleChangesNoWatermark(cfg, st, scope, asset);
  }

  /** A source found to have gone idle, marked so. */
  function Marked(cfg: Config, maxTime: map<Source, int>, flags: map<Source, Flags>, src: Source): map<Source, Flags> {
    if GoneIdle(cfg, maxTime, flags, src) then flags[src := Flags(true, true, false)] else flags
  }

  /** Marking a source changes no source's watermark, and is the first step of the rest of the reading. */
  lemma MarkingStep(
      cfg: Config, maxTime: map<Source, int>, flags: map<Source, Flags>, scope: string, asset: string, n: nat)
    requires n < |cfg.required|
    ensures var next := Marked(cfg, maxTime, flags, Source(scope, asset, cfg.required[n]));
            && SettleFrom(cfg, maxTime, flags, scope, asset, n) == SettleFrom(cfg, maxTime, next, scope, asset, n + 1)
            && forall src :: DomainWatermark(cfg, maxTime, next, src) == DomainWatermark(cfg, maxTime, flags, src)
  {
  }

  /** An outcome whose first snapshots have been returned already. */
  function After(changed: seq<Snapshot>, rest: Outcome): Outcome {
    Outcome(rest.state, changed + rest.changed)
  }

  lemma BuildEachStep(cfg: Config, st: State, keys: seq<Key>, force: bool, changed: seq<Snapshot>)
    requires ValidConfig(cfg) && keys != []
    ensures var next := Build(cfg, st, keys[0], force);
            After(changed, BuildEach(cfg, st, keys, force))
            == After(changed + [Latest(next, keys[0])], BuildEach(cfg, next, keys[1..], force))
  {
    hide NextSnapshot;
    var next := Build(cfg, st, keys[0], force);
    var rest := BuildEach(cfg, next, keys[1..], force);
    assert changed + ([Latest(next, keys[0])] + rest.changed) == (changed + [Latest(next, keys[0])]) + rest.changed;
  }

  lemma PlaceEachStep(cfg: Config, st: State, signal: Signal, keys: seq<Key>, n: nat, changed: seq<Snapshot>)
    requires ValidConfig(cfg) && n < |keys|
    ensures var here := Place(cfg, st, signal, keys[n]);
            After(changed, PlaceEach(cfg, st, signal, keys[n..]))
            == After(changed + here.changed, PlaceEach(cfg, here.state, signal, keys[n + 1..]))
  {
    hide Place;
    var here := Place(cfg, st, signal, keys[n]);
    var rest := PlaceEach(cfg, here.state, signal, keys[n + 1..]);
    assert keys[n..][0] == keys[n] && keys[n..][1..] == keys[n + 1..];
    assert changed + (here.changed + rest.changed) == (changed + here.changed) + rest.changed;
  }

  lemma OverdueStep(st: State, keys: seq<Key>, n: nat, scope: string, asset: string, watermark: Option<int>)
    requires n < |keys|
    ensures var here, later := keys[n], Overdue(st, keys[n + 1..], scope, asset, watermark);
            Overdue(st, keys[n..], scope, asset, watermark)
            == if here.scope == scope && here.asset == asset && IsOverdue(st, here, watermark) then [here] + later
               else later
  {
    assert keys[n..][0] == keys[n] && keys[n..][1..] == keys[n + 1..];
  }

  /** One window looked at by the closing pass: built when it is overdue, left alone otherwise. */
  lemma FinalizeStep(
      cfg: Config, start: State, st: State, n: nat,
      scope: string, asset: string, watermark: Option<int>, changed: seq<Snapshot>)
    requires ValidConfig(cfg) && n < |start.order|
    requires start.order[n] in start.revisions && start.revisions[start.order[n]] != []
    ensures var key, rest := start.order[n], Overdue(start, start.order[n + 1..], scope, asset, watermark);
            var next := Build(cfg, st, key, true);
            After(changed, BuildEach(cfg, st, Overdue(start, start.order[n..], scope, asset, watermark), true))
            == if key.scope == scope && key.asset == asset && !Latest(start, key).isFinal && Passed(watermark, key)
               then After(changed + [Latest(next, key)], BuildEach(cfg, next, rest, true))
               else After(changed, BuildEach(cfg, st, rest, true))
  {
    hide Build, BuildEach, Overdue;
    OverdueStep(start, start.order, n, scope, asset, watermark);
    var rest := Overdue(start, start.order[n + 1..], scope, asset, watermark);
    BuildEachStep(cfg, st, [start.order[n]] + rest, true, changed);
    assert ([start.order[n]] + rest)[1..] == rest;
  }

  lemma NothingBuilt(cfg: Config, st: State, force: bool)
    requires ValidConfig(cfg)
    ensures BuildEach(cfg, st, [], force) == Outcome(st, [])
  {
  }

  lemma NothingOverdue(st: State, scope: string, asset: string, watermark: Option<int>)
    ensures Overdue(st, [], scope, asset, watermark) == []
  {
  }

  lemma {:induction false} NoneOverdueYet(st: State, keys: seq<Key>, scope: string, asset: string)
    ensures Overdue(st, keys, scope, asset, None) == []
  {
    if keys != [] {
      NoneOverdueYet(st, keys[1..], scope, asset);
    }
  }

  ghost predicate Reachable(cfg: Config, st: State)
    requires ValidConfig(cfg)
  {
    exists ops :: st == Run(cfg, ops)
  }

  lemma ReachableIsSound(cfg: Config, st: State)
    requires ValidConfig(cfg) && Reachable(cfg, st)
    ensures Sound(cfg, st)
    ensures st.log == [] ==> st == EMPTY
    ensures st == Run(cfg, Arrivals(st.log))
  {
    var ops :| st == Run(cfg, ops);
    RunsAreSound(cfg, ops);
    ReplayRestores(cfg, ops);
  }

  lemma IngestStaysReachable(cfg: Config, st: State, signal: Signal)
    requires ValidConfig(cfg) && Reachable(cfg, st)
    ensures Reachable(cfg, Ingest(cfg, st, signal).state)
  {
    var ops :| st == Run(cfg, ops);
    var more := ops + [Arrive(signal)];
    assert more[..|more| - 1] == ops;
    assert Run(cfg, more) == Ingest(cfg, st, signal).state;
  }

}
