/** When a window turns final: exactly once the watermark has reached its end. */
module FeatureFinality {
  import opened Wrappers
  import opened FeatureSignals
  import opened FeatureWindows
  import opened FeatureLaws
  import opened FeatureBuilding
  import opened FeatureRuns
  import opened FeatureTheorems
  import opened FeatureSources
  import opened FeatureWatermarks

  ghost predicate HasFinal(h: seq<Snapshot>) {
    exists i :: 0 <= i < |h| && h[i].state == Final
  }

  /** The run holds the window, and its watermark is at or past the window's end. */
  ghost predicate Reaches(cfg: Config, ops: seq<Op>, k: Key)
    requires ValidConfig(cfg)
  {
    && k in Run(cfg, ops).revisions && Watermark(cfg, Run(cfg, ops), k.scope, k.asset).Some?
    && k.start + k.interval * 1_000_000 <= Watermark(cfg, Run(cfg, ops), k.scope, k.asset).value
  }

  /** A history has a final revision exactly when its latest is no longer provisional. */
  lemma FinalIsPast(k: Key, h: seq<Snapshot>)
    requires h != [] && ValidHistory(k, h)
    ensures HasFinal(h) <==> h[|h| - 1].state != Provisional
  {
    var turn := HistoryShape(k, h);
    if turn < |h| {
      assert h[turn].state == Final;
    }
  }

  lemma ReachedIsFinal(cfg: Config, ops: seq<Op>, k: Key)
    requires ValidConfig(cfg) && Reaches(cfg, ops, k)
    ensures HasFinal(History(Run(cfg, ops), k))
  {
    RunsAreSound(cfg, ops);
    NoReachableWindowIsOverdue(cfg, ops, k);
    FinalIsPast(k, History(Run(cfg, ops), k));
  }

  /** What a step adds to a history, and that a final revision is added only at or past the window's end. */
  lemma StepAdds(cfg: Config, init: seq<Op>, op: Op, k: Key)
    requires ValidConfig(cfg)
    ensures var h, more := History(Run(cfg, init), k), History(Run(cfg, init + [op]), k);
            && h <= more
            && (forall i :: |h| <= i < |more| && more[i].state == Final ==> Reaches(cfg, init + [op], k))
  {
    var st := Run(cfg, init);
    assert (init + [op])[..|init|] == init;
    RunsAreSound(cfg, init);
    RunsAreSound(cfg, init + [op]);
    match op
    case Query(scope, asset) => QueryKeepsSound(cfg, st, scope, asset);
    case Arrive(signal) =>
      var r := Ingest(cfg, st, signal);
      IngestReturns(cfg, st, signal);
      var h, more := History(st, k), History(r.state, k);
      assert more == h + Of(r.changed, k);
      OfAreOf(r.changed, k);
      hide Ingest, Run, Watermark;
      forall i | |h| <= i < |more| && more[i].state == Final ensures Reaches(cfg, init + [op], k) {
        assert more[i] in Of(r.changed, k);
      }
  }

  lemma {:induction false} OfAreOf(changed: seq<Snapshot>, k: Key)
    ensures forall s :: s in Of(changed, k) ==> s in changed && s.key == k
  {
    if changed != [] {
      OfAreOf(changed[1..], k);
    }
  }

  /** The window has been reached at some point of the run. */
  ghost predicate ReachedIn(cfg: Config, ops: seq<Op>, k: Key)
    requires ValidConfig(cfg)
  {
    exists n :: 0 <= n <= |ops| && Reaches(cfg, ops[..n], k)
  }

  lemma ReachedOneMore(cfg: Config, init: seq<Op>, op: Op, k: Key)
    requires ValidConfig(cfg)
    ensures ReachedIn(cfg, init + [op], k) <==> ReachedIn(cfg, init, k) || Reaches(cfg, init + [op], k)
  {
    hide Reaches;
    var ops := init + [op];
    assert forall n :: 0 <= n <= |init| ==> ops[..n] == init[..n];
    assert ops[..|ops|] == ops;
    if n :| 0 <= n <= |init| && Reaches(cfg, init[..n], k) {
      assert Reaches(cfg, ops[..n], k);
    }
    if Reaches(cfg, ops, k) {
      assert Reaches(cfg, ops[..|ops|], k);
    }
    if n :| 0 <= n <= |ops| && Reaches(cfg, ops[..n], k) {
      if n <= |init| {
        assert Reaches(cfg, init[..n], k);
      }
    }
  }

  /** A history that is extended keeps its final revision, and gets one only from what is added. */
  lemma FinalOneMore(h: seq<Snapshot>, more: seq<Snapshot>)
    requires h <= more
    ensures HasFinal(more) <==> HasFinal(h) || exists i :: |h| <= i < |more| && more[i].state == Final
  {
    if i :| 0 <= i < |h| && h[i].state == Final {
      assert more[i].state == Final;
    }
    if i :| 0 <= i < |more| && more[i].state == Final {
      assert i < |h| ==> h[i].state == Final;
    }
  }

  /**
   * Over every run a window has a final revision exactly when, at some point of the run, it was held and the
   * watermark of its asset was at or past its end.
   */
  lemma {:induction false} FinalIffReached(cfg: Config, ops: seq<Op>, k: Key)
    requires ValidConfig(cfg)
    ensures HasFinal(History(Run(cfg, ops), k)) <==> ReachedIn(cfg, ops, k)
  {
    if ops == [] {
      assert ops[..0] == [] && History(Run(cfg, ops), k) == [];
    } else {
      var init, op := ops[..|ops| - 1], ops[|ops| - 1];
      assert ops == init + [op];
      FinalIffReached(cfg, init, k);
      StepAdds(cfg, init, op, k);
      ReachedOneMore(cfg, init, op, k);
      FinalOneMore(History(Run(cfg, init), k), History(Run(cfg, ops), k));
      hide Run, History, ReachedIn, HasFinal;
      if Reaches(cfg, ops, k) {
        ReachedIsFinal(cfg, ops, k);
      }
      hide Reaches;
    }
  }

  /** So a window that is still provisional ends after the watermark. */
  lemma ProvisionalEndsLater(cfg: Config, ops: seq<Op>, k: Key)
    requires ValidConfig(cfg) && k in Run(cfg, ops).revisions
    requires Watermark(cfg, Run(cfg, ops), k.scope, k.asset).Some?
    ensures var st := Run(cfg, ops);
            && st.revisions[k] != []
            && (Latest(st, k).state == Provisional ==>
                  Watermark(cfg, st, k.scope, k.asset).value < k.start + k.interval * 1_000_000)
  {
    RunsAreSound(cfg, ops);
    NoReachableWindowIsOverdue(cfg, ops, k);
  }

  // ---------------------------------------------------------------- a run in which a window turns final

  const FIRST := Trade("a", 10)
  const SECOND_TRADE := Trade("b", 200)
  const LAST := Post("c", 200)

  predicate IdApart(s: Signal, t: Signal) { s.scope != t.scope || s.eventId != t.eventId }

  lemma LogOneMore(cfg: Config, ops: seq<Op>, signal: Signal)
    requires ValidConfig(cfg) && Distinct(cfg.intervals) && forall s :: s in Run(cfg, ops).log ==> IdApart(s, signal)
    ensures Run(cfg, ops + [Arrive(signal)]).log == Run(cfg, ops).log + [signal]
  {
    assert (ops + [Arrive(signal)])[..|ops|] == ops;
    RunsAreSound(cfg, ops);
    RunsMatchLog(cfg, ops);
    IngestLogs(cfg, Run(cfg, ops), signal);
  }

  lemma NothingLogged(cfg: Config)
    requires ValidConfig(cfg)
    ensures Run(cfg, []).log == []
  {
  }

  lemma LogOfThree(cfg: Config, a: Signal, b: Signal, c: Signal)
    requires ValidConfig(cfg) && Distinct(cfg.intervals) && IdApart(a, b) && IdApart(a, c) && IdApart(b, c)
    ensures Run(cfg, [Arrive(a)] + [Arrive(b)] + [Arrive(c)]).log == [a, b, c]
  {
    hide *;
    NothingLogged(cfg);
    LogOneMore(cfg, [], a);
    assert [] + [Arrive(a)] == [Arrive(a)];
    LogOneMore(cfg, [Arrive(a)], b);
    LogOneMore(cfg, [Arrive(a)] + [Arrive(b)], c);
  }

  /** A signal held is held in its window. */
  lemma WindowIsHeld(cfg: Config, ops: seq<Op>, signal: Signal, interval: int)
    requires ValidConfig(cfg) && Distinct(cfg.intervals) && interval in cfg.intervals && signal in Run(cfg, ops).log
    ensures KeyOf(signal, interval) in Run(cfg, ops).revisions
  {
    RunsAreSound(cfg, ops);
    RunsMatchLog(cfg, ops);
    FiledMembers(Run(cfg, ops).log, KeyOf(signal, interval));
  }

  /** What the two sources have said in the log of a trade at 10 s, a trade at 200 s and a post at 200 s. */
  lemma SourcesOfThree()
    ensures Heard([FIRST, SECOND_TRADE, LAST], MARKET) == [FIRST, SECOND_TRADE]
    ensures Heard([FIRST, SECOND_TRADE, LAST], SOCIAL) == [LAST]
  {
    var one, two, three := [FIRST], [FIRST, SECOND_TRADE], [FIRST, SECOND_TRADE, LAST];
    assert one[..0] == [] && two[..1] == one && three[..2] == two;
    assert Heard([], MARKET) == [] && Heard([], SOCIAL) == [];
    assert Heard(one, MARKET) == [FIRST] && Heard(one, SOCIAL) == [];
    assert Heard(two, MARKET) == two && Heard(two, SOCIAL) == [];
  }

  /** Neither lags, so both stand 120 s behind 200 s. */
  lemma BothStandAtEighty(cfg: Config)
    requires cfg.lateness == 120 && cfg.idleAfter == 600
    ensures Stands(cfg, [FIRST, SECOND_TRADE, LAST], MARKET, 80 * SECOND)
    ensures Stands(cfg, [FIRST, SECOND_TRADE, LAST], SOCIAL, 80 * SECOND)
    ensures forall w :: Stands(cfg, [FIRST, SECOND_TRADE, LAST], MARKET, w) ==> w == 80 * SECOND
  {
    var log := [FIRST, SECOND_TRADE, LAST];
    SourcesOfThree();
    hide Heard;
    var m, s := [FIRST, SECOND_TRADE], [LAST];
    assert m[1].eventTime == s[0].eventTime == 200 * SECOND;
    assert IsLatest(m, 200 * SECOND) && IsLatest(s, 200 * SECOND);
    assert !Lags(cfg, log, MARKET) && !Lags(cfg, log, SOCIAL) by {
      forall newest | IsLatest(m + s, newest) ensures newest == 200 * SECOND {
        assert (m + s)[1].eventTime == 200 * SECOND;
      }
    }
  }

  const THREE := [Arrive(FIRST)] + [Arrive(SECOND_TRADE)] + [Arrive(LAST)]

  /**
   * With windows of a minute and both domains required, a trade at 10 s, a trade at 200 s and a post at 200 s take
   * the watermark to 80 s, and the window of the first minute has a final revision.
   */
  lemma FinalAtEighty(cfg: Config)
    requires ValidConfig(cfg) && cfg.intervals == [60] && cfg.required == [Market, Social]
    requires cfg.lateness == 120 && cfg.idleAfter == 600
    ensures Watermark(cfg, Run(cfg, THREE), "LIVE", "asset") == Some(80 * SECOND)
    ensures HasFinal(History(Run(cfg, THREE), Key("LIVE", "asset", 0, 60)))
  {
    assert Distinct(cfg.intervals) && KeyOf(FIRST, 60) == Key("LIVE", "asset", 0, 60);
    hide Run, ValidConfig, Watermark, History, HasFinal, KeyOf;
    WatermarkOfThree(cfg);
    FinalOnceReached(cfg, THREE, FIRST, 60, 80 * SECOND);
  }

  lemma WatermarkOfThree(cfg: Config)
    requires ValidConfig(cfg) && Distinct(cfg.intervals) && cfg.required == [Market, Social]
    requires cfg.lateness == 120 && cfg.idleAfter == 600
    ensures Run(cfg, THREE).log == [FIRST, SECOND_TRADE, LAST]
    ensures Watermark(cfg, Run(cfg, THREE), "LIVE", "asset") == Some(80 * SECOND)
  {
    assert "a"[0] != "b"[0] && "a"[0] != "c"[0] && "b"[0] != "c"[0];
    LogOfThree(cfg, FIRST, SECOND_TRADE, LAST);
    BothStandAtEighty(cfg);
    WatermarkIsOfLog(cfg, THREE, "LIVE", "asset", 80 * SECOND);
    hide Run, Watermark, Stands, ValidConfig;
  }

  lemma FinalOnceReached(cfg: Config, ops: seq<Op>, signal: Signal, interval: int, watermark: int)
    requires ValidConfig(cfg) && Distinct(cfg.intervals) && interval in cfg.intervals && signal in Run(cfg, ops).log
    requires Watermark(cfg, Run(cfg, ops), signal.scope, signal.asset) == Some(watermark)
    requires KeyOf(signal, interval).start + interval * SECOND <= watermark
    ensures HasFinal(History(Run(cfg, ops), KeyOf(signal, interval)))
  {
    WindowIsHeld(cfg, ops, signal, interval);
    ReachedIsFinal(cfg, ops, KeyOf(signal, interval));
  }
}
