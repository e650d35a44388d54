/** What reading the watermarks and building revisions can and cannot change. */
module FeatureLaws {
  import opened Wrappers
  import opened Sorting
  import opened FeatureSignals
  import opened FeatureWindows

  // ---------------------------------------------------------------- watermarks

  /** Every required source that has gone idle is already marked so: reading writes nothing. */
  ghost predicate SettledFor(cfg: Config, st: State, scope: string, asset: string) {
    forall d :: d in cfg.required && GoneIdle(cfg, st.maxTime, st.flags, Source(scope, asset, d)) ==>
      st.flags[Source(scope, asset, d)] == Flags(true, true, false)
  }

  lemma {:induction false} SettleFromWrites(cfg: Config, maxTime: map<Source, int>, flags: map<Source, Flags>,
                                            scope: string, asset: string, n: nat)
    requires n <= |cfg.required|
    ensures var r := SettleFrom(cfg, maxTime, flags, scope, asset, n);
            && r.Keys == flags.Keys
            && forall src :: src in flags ==>
                 r[src] == if src.scope == scope && src.asset == asset && src.domain in cfg.required[n..]
                              && GoneIdle(cfg, maxTime, flags, src)
                           then Flags(true, true, false) else flags[src]
    decreases |cfg.required| - n
  {
    if n < |cfg.required| {
      var src := Source(scope, asset, cfg.required[n]);
      var next := if GoneIdle(cfg, maxTime, flags, src) then flags[src := Flags(true, true, false)] else flags;
      SettleFromWrites(cfg, maxTime, next, scope, asset, n + 1);
      assert cfg.required[n..] == [cfg.required[n]] + cfg.required[n + 1..];
    }
  }

  /** Reading a watermark changes no watermark, and a second reading changes nothing at all. */
  lemma SettleChangesNoWatermark(cfg: Config, st: State, scope: string, asset: string)
    requires ValidConfig(cfg)
    ensures SettledFor(cfg, Settle(cfg, st, scope, asset), scope, asset)
    ensures forall s, a :: Watermark(cfg, Settle(cfg, st, scope, asset), s, a) == Watermark(cfg, st, s, a)
    ensures forall s, a :: SettledFor(cfg, st, s, a) ==> SettledFor(cfg, Settle(cfg, st, scope, asset), s, a)
  {
    var next := Settle(cfg, st, scope, asset);
    SettleFromWrites(cfg, st.maxTime, st.flags, scope, asset, 0);
    assert cfg.required[0..] == cfg.required;
    forall src: Source
      ensures DomainWatermark(cfg, st.maxTime, next.flags, src) == DomainWatermark(cfg, st.maxTime, st.flags, src)
      ensures GoneIdle(cfg, st.maxTime, next.flags, src) == GoneIdle(cfg, st.maxTime, st.flags, src)
    {
    }
  }

  lemma SettledMeansNoWrite(cfg: Config, st: State, scope: string, asset: string)
    requires SettledFor(cfg, st, scope, asset)
    ensures Settle(cfg, st, scope, asset) == st
  {
    SettleFromWrites(cfg, st.maxTime, st.flags, scope, asset, 0);
    assert cfg.required[0..] == cfg.required;
    assert Settle(cfg, st, scope, asset).flags == st.flags;
  }

  /** Every required domain has a watermark, `w` is none above them, and it is one of them. */
  ghost predicate IsLeastOfRequired(cfg: Config, st: State, scope: string, asset: string, w: int) {
    && (forall d :: d in cfg.required ==>
          var here := DomainWatermark(cfg, st.maxTime, st.flags, Source(scope, asset, d));
          here.Some? && w <= here.value)
    && (exists d :: d in cfg.required && DomainWatermark(cfg, st.maxTime, st.flags, Source(scope, asset, d)) == Some(w))
  }

  ghost predicate AllAvailable(cfg: Config, st: State, scope: string, asset: string) {
    forall d :: d in cfg.required ==> DomainWatermark(cfg, st.maxTime, st.flags, Source(scope, asset, d)).Some?
  }

  /**
   * The fusion watermark is the least required domain watermark; it is there exactly when all of them
   * are and no domain is listed twice.
   */
  lemma WatermarkIsLeast(cfg: Config, st: State, scope: string, asset: string)
    requires ValidConfig(cfg)
    ensures Watermark(cfg, st, scope, asset).Some? <==> Distinct(cfg.required) && AllAvailable(cfg, st, scope, asset)
    ensures Watermark(cfg, st, scope, asset).Some? ==>
              IsLeastOfRequired(cfg, st, scope, asset, Watermark(cfg, st, scope, asset).value)
  {
    DomainLists(cfg.required);
    var m := Available(cfg, st.maxTime, st.flags, scope, asset, Market);
    var s := Available(cfg, st.maxTime, st.flags, scope, asset, Social);
    forall d | d in cfg.required ensures d == Market || d == Social {
      assert d.Market? || d.Social?;
    }
    LeastOfTwo(m, s);
  }

  lemma LeastOfTwo(m: seq<int>, s: seq<int>)
    requires |m| <= 1 && |s| <= 1
    ensures m != [] && s != [] ==> MinInt(m + s) == if m[0] <= s[0] then m[0] else s[0]
    ensures m != [] && s == [] ==> MinInt(m + s) == m[0]
    ensures m == [] && s != [] ==> MinInt(m + s) == s[0]
  {
    if m != [] && s != [] {
      assert (m + s)[1..] == s;
    }
  }

  /** A list over the two domains without repetitions names one or both, once each. */
  lemma DomainLists(required: seq<Domain>)
    requires required != []
    ensures Distinct(required) <==>
              |required| == (if Market in required then 1 else 0) + (if Social in required then 1 else 0)
    ensures Market in required || Social in required
  {
    assert required[0] in required && (required[0].Market? || required[0].Social?);
    if |required| >= 2 {
      assert required[1] in required && (required[1].Market? || required[1].Social?);
      if |required| > 2 {
        assert required[2].Market? || required[2].Social?;
      }
    }
  }

  /** No watermark runs ahead of the newest signal less the allowed lateness. */
  lemma WatermarkLagsNewest(cfg: Config, st: State, scope: string, asset: string)
    requires ValidConfig(cfg) && Watermark(cfg, st, scope, asset).Some?
    ensures Newest(st.maxTime, scope, asset).Some?
    ensures Watermark(cfg, st, scope, asset).value <= Newest(st.maxTime, scope, asset).value - cfg.lateness * SECOND
  {
    WatermarkIsLeast(cfg, st, scope, asset);
    var d :| d in cfg.required && Watermark(cfg, st, scope, asset) ==
      DomainWatermark(cfg, st.maxTime, st.flags, Source(scope, asset, d));
    assert d == Market || d == Social;
  }

  // ---------------------------------------------------------------- histories

  /**
   * Revisions are numbered from 1, PROVISIONAL ones come first, then at most one FINAL, and every
   * later one is CORRECTED and supersedes the revision before it.
   */
  ghost predicate ValidHistory(key: Key, h: seq<Snapshot>) {
    && (forall i {:trigger h[i]} :: 0 <= i < |h| ==>
          && h[i].key == key && h[i].windowEnd == End(key) && h[i].revision == i + 1
          && (h[i].isFinal <==> h[i].state != Provisional)
          && (i == 0 ==> h[i].state != Corrected)
          && h[i].supersedes == (if h[i].state == Corrected then Some(i) else None))
    && (forall i, j {:trigger h[i], h[j]} :: 0 <= i && i + 1 == j < |h| ==>
          (h[j].state == Corrected <==> h[i].state != Provisional))
  }

  /** The shape PROVISIONAL* (FINAL CORRECTED*)? with the turning point made explicit. */
  ghost predicate ReadsAs(h: seq<Snapshot>, turn: nat) {
    && turn <= |h|
    && (forall i :: 0 <= i < turn ==> h[i].state == Provisional)
    && (turn < |h| ==> h[turn].state == Final)
    && forall i :: turn < i < |h| ==> h[i].state == Corrected
  }

  lemma {:induction false} HistoryShape(key: Key, h: seq<Snapshot>) returns (turn: nat)
    requires ValidHistory(key, h)
    ensures ReadsAs(h, turn)
  {
    if h == [] {
      turn := 0;
    } else {
      var n := |h| - 1;
      assert ValidHistory(key, h[..n]) by {
        forall i | 0 <= i < n ensures h[..n][i] == h[i] {}
      }
      turn := HistoryShape(key, h[..n]);
      assert forall i :: 0 <= i < n ==> h[..n][i] == h[i];
      assert n > 0 ==> (h[n].state == Corrected <==> h[n - 1].state != Provisional);
      if turn == n && h[n].state == Provisional {
        turn := n + 1;
      }
    }
  }

  ghost predicate ValidHistories(revisions: map<Key, seq<Snapshot>>) {
    forall k :: k in revisions ==> revisions[k] != [] && ValidHistory(k, revisions[k])
  }

  ghost predicate Follows(key: Key, prior: seq<Snapshot>, snap: Snapshot) {
    && snap.key == key && snap.windowEnd == End(key) && snap.revision == |prior| + 1
    && (snap.isFinal <==> snap.state != Provisional)
    && (snap.state == Corrected <==> prior != [] && prior[|prior| - 1].state != Provisional)
    && snap.supersedes == (if snap.state == Corrected then Some(|prior|) else None)
  }

  lemma NextFollows(cfg: Config, st: State, key: Key, force: bool)
    requires ValidConfig(cfg) && ValidHistory(key, History(st, key))
    ensures Follows(key, History(st, key), NextSnapshot(cfg, st, key, force))
  {
    var prior := History(st, key);
    assert prior != [] ==> prior[|prior| - 1].revision == |prior|;
  }

  lemma ExtendHistory(key: Key, prior: seq<Snapshot>, snap: Snapshot)
    requires ValidHistory(key, prior) && Follows(key, prior, snap)
    ensures ValidHistory(key, prior + [snap])
  {
    var h := prior + [snap];
    assert forall i {:trigger h[i]} :: 0 <= i < |prior| ==> h[i] == prior[i];
  }

  lemma AppendKeepsHistories(revisions: map<Key, seq<Snapshot>>, key: Key, snap: Snapshot)
    requires ValidHistories(revisions)
    requires var prior := if key in revisions then revisions[key] else []; Follows(key, prior, snap)
    ensures var prior := if key in revisions then revisions[key] else [];
            ValidHistories(revisions[key := prior + [snap]])
  {
    ExtendHistory(key, if key in revisions then revisions[key] else [], snap);
  }

  lemma {:induction false} BuildKeepsHistories(cfg: Config, st: State, key: Key, force: bool)
    requires ValidConfig(cfg) && ValidHistories(st.revisions)
    ensures ValidHistories(Build(cfg, st, key, force).revisions)
  {
    var settled := Settle(cfg, st, key.scope, key.asset);
    var snap := NextSnapshot(cfg, settled, key, force);
    assert Follows(key, History(settled, key), snap) by {
      NextFollows(cfg, settled, key, force);
    }
    AppendKeepsHistories(st.revisions, key, snap);
  }
}
