/** The effect of building revisions, one window at a time and window after window. */
module FeatureBuilding {
  import opened Wrappers
  import opened Sorting
  import opened FeatureSignals
  import opened FeatureWindows
  import opened FeatureLaws

  /** The snapshot is what these inputs give under the source flags it recorded itself. */
  ghost predicate Reports(cfg: Config, s: Snapshot, key: Key, inputs: Inputs) {
    && s.features == FeaturesOf(cfg, key, inputs, s.features.market, s.features.socialFlags)
    && s.lineage == LineageOf(inputs.events)
  }

  /** A snapshot says what the index says now. */
  ghost predicate Matches(cfg: Config, st: State, key: Key, s: Snapshot) {
    Reports(cfg, s, key, Indexed(st, key))
  }

  ghost predicate Fresh(cfg: Config, st: State, key: Key) {
    key in st.revisions && st.revisions[key] != [] && Matches(cfg, st, key, Latest(st, key))
  }

  /** Nothing outside the given windows and the source flags differs. */
  ghost predicate OnlyBuilt(st: State, next: State, keys: seq<Key>) {
    && next == st.(revisions := next.revisions, flags := next.flags)
    && (forall k :: k in next.revisions <==> k in st.revisions || k in keys)
    && (forall k :: k in st.revisions && k !in keys ==> next.revisions[k] == st.revisions[k])
  }

  ghost predicate SameWatermarks(cfg: Config, st: State, next: State)
    requires ValidConfig(cfg)
  {
    forall s, a :: Watermark(cfg, next, s, a) == Watermark(cfg, st, s, a)
  }

  /** FINAL is given only to a window the watermark has passed, unless the caller insists. */
  ghost predicate Timely(cfg: Config, st: State, force: bool, s: Snapshot)
    requires ValidConfig(cfg)
  {
    s.state == Final ==> force || Passed(Watermark(cfg, st, s.key.scope, s.key.asset), s.key)
  }

  lemma NextMatches(cfg: Config, st: State, key: Key, force: bool)
    requires ValidConfig(cfg)
    ensures var s := NextSnapshot(cfg, st, key, force);
            && s.key == key && Matches(cfg, st, key, s) && Timely(cfg, st, force, s) && (force ==> s.isFinal)
  {
  }

  lemma BuildEffect(cfg: Config, st: State, key: Key, force: bool)
    requires ValidConfig(cfg)
    ensures var next := Build(cfg, st, key, force);
            && OnlyBuilt(st, next, [key]) && Fresh(cfg, next, key) && SameWatermarks(cfg, st, next)
            && next.revisions[key] == History(st, key) + [Latest(next, key)]
            && SettledFor(cfg, next, key.scope, key.asset)
            && Latest(next, key).key == key && Timely(cfg, st, force, Latest(next, key))
            && (force ==> Latest(next, key).isFinal)
  {
    var settled := Settle(cfg, st, key.scope, key.asset);
    SettleChangesNoWatermark(cfg, st, key.scope, key.asset);
    var s := NextSnapshot(cfg, settled, key, force);
    NextMatches(cfg, settled, key, force);
    var next := Build(cfg, st, key, force);
    assert next == settled.(revisions := st.revisions[key := History(st, key) + [s]]);
    assert Latest(next, key) == s;
  }

  /** The snapshots among `changed` that belong to one window, in order. */
  function Of(changed: seq<Snapshot>, key: Key): seq<Snapshot> {
    if changed == [] then []
    else (if changed[0].key == key then [changed[0]] else []) + Of(changed[1..], key)
  }

  lemma {:induction false} OfSplits(xs: seq<Snapshot>, ys: seq<Snapshot>, key: Key)
    ensures Of(xs + ys, key) == Of(xs, key) + Of(ys, key)
  {
    if xs == [] {
      assert xs + ys == ys;
    } else {
      assert (xs + ys)[1..] == xs[1..] + ys;
      OfSplits(xs[1..], ys, key);
    }
  }

  ghost predicate OneAsset(keys: seq<Key>, scope: string, asset: string) {
    forall k :: k in keys ==> k.scope == scope && k.asset == asset
  }

  /** What is returned is exactly what was appended to the histories. */
  ghost predicate Returned(st: State, r: Outcome) {
    forall k :: History(r.state, k) == History(st, k) + Of(r.changed, k)
  }

  lemma {:induction false} BuildEachOnly(cfg: Config, st: State, keys: seq<Key>, force: bool)
    requires ValidConfig(cfg)
    ensures var r := BuildEach(cfg, st, keys, force);
            OnlyBuilt(st, r.state, keys) && SameWatermarks(cfg, st, r.state)
    decreases |keys|
  {
    if keys != [] {
      var next := Build(cfg, st, keys[0], force);
      BuildEffect(cfg, st, keys[0], force);
      BuildEachOnly(cfg, next, keys[1..], force);
    }
  }

  lemma UntouchedStaysFresh(cfg: Config, st: State, next: State, keys: seq<Key>, k: Key)
    requires OnlyBuilt(st, next, keys) && k !in keys && Fresh(cfg, st, k)
    ensures Fresh(cfg, next, k)
  {
    assert Latest(next, k) == Latest(st, k);
    assert Indexed(next, k) == Indexed(st, k);
  }

  lemma {:induction false} BuildEachFresh(cfg: Config, st: State, keys: seq<Key>, force: bool)
    requires ValidConfig(cfg)
    ensures forall k :: k in keys ==> Fresh(cfg, BuildEach(cfg, st, keys, force).state, k)
    decreases |keys|
  {
    if keys != [] {
      var next := Build(cfg, st, keys[0], force);
      BuildEffect(cfg, st, keys[0], force);
      BuildEachFresh(cfg, next, keys[1..], force);
      var last := BuildEach(cfg, next, keys[1..], force).state;
      forall k | k in keys ensures Fresh(cfg, last, k) {
        if k !in keys[1..] {
          BuildEachOnly(cfg, next, keys[1..], force);
          UntouchedStaysFresh(cfg, next, last, keys[1..], k);
        }
      }
    }
  }

  lemma {:induction false} BuildEachHistories(cfg: Config, st: State, keys: seq<Key>, force: bool)
    requires ValidConfig(cfg)
    requires ValidHistories(st.revisions)
    ensures ValidHistories(BuildEach(cfg, st, keys, force).state.revisions)
    decreases |keys|
  {
    if keys != [] {
      BuildKeepsHistories(cfg, st, keys[0], force);
      BuildEachHistories(cfg, Build(cfg, st, keys[0], force), keys[1..], force);
    }
  }

  lemma PrependReturned(st: State, next: State, key: Key, rest: Outcome)
    requires OnlyBuilt(st, next, [key]) && key in next.revisions && next.revisions[key] != []
    requires next.revisions[key] == History(st, key) + [Latest(next, key)] && Latest(next, key).key == key
    requires Returned(next, rest)
    ensures Returned(st, Outcome(rest.state, [Latest(next, key)] + rest.changed))
  {
    var changed := [Latest(next, key)] + rest.changed;
    assert changed[1..] == rest.changed;
    forall k ensures History(rest.state, k) == History(st, k) + Of(changed, k) {
      assert History(rest.state, k) == History(next, k) + Of(rest.changed, k);
      if k != key {
        assert k !in [key];
        assert History(next, k) == History(st, k);
      }
    }
  }

  lemma {:induction false} BuildEachReturns(cfg: Config, st: State, keys: seq<Key>, force: bool)
    requires ValidConfig(cfg)
    ensures var r := BuildEach(cfg, st, keys, force);
            && Returned(st, r) && (forall s :: s in r.changed ==> s.key in keys && Timely(cfg, st, force, s))
    decreases |keys|
  {
    if keys != [] {
      var next := Build(cfg, st, keys[0], force);
      BuildEffect(cfg, st, keys[0], force);
      var rest := BuildEach(cfg, next, keys[1..], force);
      BuildEachReturns(cfg, next, keys[1..], force);
      PrependReturned(st, next, keys[0], rest);
      forall s | s in [Latest(next, keys[0])] + rest.changed ensures s.key in keys && Timely(cfg, st, force, s) {
        if s != Latest(next, keys[0]) {
          assert s in rest.changed;
        }
      }
    }
  }

  /** Building forcibly leaves every window built with a final revision. */
  lemma {:induction false} ForcedIsFinal(cfg: Config, st: State, keys: seq<Key>)
    requires ValidConfig(cfg)
    ensures var r := BuildEach(cfg, st, keys, true);
            forall k :: k in keys ==> k in r.state.revisions && r.state.revisions[k] != [] && Latest(r.state, k).isFinal
    decreases |keys|
  {
    if keys != [] {
      var next := Build(cfg, st, keys[0], true);
      BuildEffect(cfg, st, keys[0], true);
      ForcedIsFinal(cfg, next, keys[1..]);
      BuildEachOnly(cfg, next, keys[1..], true);
    }
  }

  /** Once anything is built for an asset, its idle sources are marked. */
  lemma {:induction false} BuildEachSettles(
      cfg: Config, st: State, keys: seq<Key>, force: bool, scope: string, asset: string)
    requires ValidConfig(cfg) && OneAsset(keys, scope, asset)
    ensures var r := BuildEach(cfg, st, keys, force);
            && (keys != [] || SettledFor(cfg, st, scope, asset) ==> SettledFor(cfg, r.state, scope, asset))
            && (forall src: Source :: src.scope != scope || src.asset != asset ==>
                  ((src in r.state.flags <==> src in st.flags)
                   && (src in st.flags ==> r.state.flags[src] == st.flags[src])))
    decreases |keys|
  {
    if keys != [] {
      var next := Build(cfg, st, keys[0], force);
      assert keys[0] in keys;
      BuildEffect(cfg, st, keys[0], force);
      SettleFromWrites(cfg, st.maxTime, st.flags, scope, asset, 0);
      assert next.flags == SettleFrom(cfg, st.maxTime, st.flags, scope, asset, 0);
      BuildEachSettles(cfg, next, keys[1..], force, scope, asset);
    }
  }
}
