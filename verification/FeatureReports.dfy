/** What the latest revision of a window reports, in every reachable state, told from the log. */
module FeatureReports {
  import opened Wrappers
  import opened Sorting
  import opened FeatureSignals
  import opened FeatureWindows
  import opened FeatureBuilding
  import opened FeatureRuns
  import opened FeatureTheorems
  import FeatureMeanings
  import FeatureBaselines

  // ---------------------------------------------------------------- lineage

  ghost predicate InWindow(s: Signal, k: Key) { KeyOf(s, k.interval) == k }

  /** The lineage lists the ids of the window's signals, each once, by time, with the first and the last time. */
  ghost predicate LineageTells(l: Lineage, log: seq<Signal>, k: Key) {
    && l.count == |l.eventIds| == |l.material| && l.count > 0
    && (forall s :: s in l.material <==> s in log && InWindow(s, k))
    && (forall i, j :: 0 <= i < j < |l.material| ==>
          l.material[i] != l.material[j] && l.material[i].eventTime <= l.material[j].eventTime)
    && (forall i :: 0 <= i < |l.eventIds| ==> l.eventIds[i] == l.material[i].eventId)
    && l.firstTime == Some(l.material[0].eventTime) && l.lastTime == Some(l.material[l.count - 1].eventTime)
  }

  lemma FiledOnce(seen: set<SeenId>, log: seq<Signal>, k: Key)
    requires SeenMatchesLog(seen, log)
    ensures var sorted := Sort(Filed(log, k), SignalLe);
            forall i, j :: 0 <= i < j < |sorted| ==> sorted[i] != sorted[j]
  {
    var filed, sorted := Filed(log, k), Sort(Filed(log, k), SignalLe);
    SortPermutes(filed, SignalLe);
    forall i, j | 0 <= i < j < |sorted| ensures sorted[i] != sorted[j] {
      var s := sorted[i];
      FiledMultiplicity(log, k, s);
      DistinctMultiplicity(log, s);
      assert multiset(filed)[s] <= 1;
      hide Filed, Sort;
      if sorted[j] == s {
        TwiceCounted(sorted, i, j);
      }
    }
  }

  lemma TwiceCounted<T>(xs: seq<T>, i: nat, j: nat)
    requires i < j < |xs| && xs[i] == xs[j]
    ensures multiset(xs)[xs[i]] >= 2
  {
    assert xs == xs[..j] + ([xs[j]] + xs[j + 1..]);
    assert xs[i] in xs[..j] by {
      assert xs[..j][i] == xs[i];
    }
    assert xs[i] in multiset(xs[..j]);
  }

  lemma SortedLineage(seen: set<SeenId>, log: seq<Signal>, k: Key)
    requires SeenMatchesLog(seen, log) && Filed(log, k) != []
    ensures LineageTells(LineageOf(Sort(Filed(log, k), SignalLe)), log, k)
  {
    FiledOnce(seen, log, k);
    FiledMembers(log, k);
    SortPermutes(Filed(log, k), SignalLe);
    SignalOrdering();
    SortSorts(Filed(log, k), SignalLe);
    hide Filed, Sort, Ordering, SeenMatchesLog;
  }

  // ---------------------------------------------------------------- trailing windows

  /** The trailing volumes are those of the latest earlier windows of the series, twenty if there are as many. */
  ghost predicate TrailingTells(inputs: Inputs, log: seq<Signal>, k: Key, starts: seq<int>) {
    && inputs.earlier == |EarlierStarts(log, k)|
    && |starts| == (if inputs.earlier >= 20 then 20 else inputs.earlier) && |inputs.trailing| == |starts|
    && (forall i, j :: 0 <= i < j < |starts| ==> starts[i] < starts[j])
    && (forall i :: 0 <= i < |starts| ==>
          && starts[i] in EarlierStarts(log, k)
          && inputs.trailing[i] == RawVolume(Sort(Filed(log, k.(start := starts[i])), SignalLe)))
    && (forall x, i :: x in EarlierStarts(log, k) && x !in starts && 0 <= i < |starts| ==> x < starts[i])
  }

  lemma AscendingMembers(s: set<int>)
    ensures multiset(Ascending(s)) == multiset(s) && |Ascending(s)| == |s|
    ensures forall x :: x in Ascending(s) <==> x in s
  {
    SortPermutes(Enumerate(s), IntLe);
    assert |multiset(Enumerate(s))| == |multiset(s)|;
    forall x ensures x in Ascending(s) <==> x in s {
      assert x in multiset(Ascending(s)) <==> x in multiset(s);
    }
  }

  lemma AscendingLists(s: set<int>)
    ensures |Ascending(s)| == |s| && forall x :: x in Ascending(s) <==> x in s
    ensures forall i, j :: 0 <= i < j < |Ascending(s)| ==> Ascending(s)[i] < Ascending(s)[j]
  {
    var sorted := Ascending(s);
    AscendingMembers(s);
    IntOrdering();
    SortSorts(Enumerate(s), IntLe);
    assert Sorted(sorted, IntLe);
    hide Ascending, Sort, Ordering;
    forall i, j | 0 <= i < j < |sorted| ensures sorted[i] < sorted[j] {
      assert sorted[i] <= sorted[j] && multiset(s)[sorted[i]] <= 1;
      if sorted[i] == sorted[j] {
        TwiceCounted(sorted, i, j);
      }
    }
  }

  lemma TrailingIsTold(log: seq<Signal>, k: Key) returns (starts: seq<int>)
    ensures TrailingTells(Batch(log, k), log, k, starts)
  {
    var all := Ascending(EarlierStarts(log, k));
    starts := LastTwenty(all);
    AscendingLists(EarlierStarts(log, k));
    hide Ascending, EarlierStarts;
    var skipped := |all| - |starts|;
    assert forall i :: 0 <= i < |starts| ==> starts[i] == all[skipped + i];
    forall n | skipped <= n < |all| ensures all[n] in starts {
      assert starts[n - skipped] == all[n];
    }
    forall x, i | x in all && x !in starts && 0 <= i < |starts| ensures x < starts[i] {
      var n :| 0 <= n < |all| && all[n] == x;
    }
  }

  // ---------------------------------------------------------------- the whole revision

  /** Features carry what was computed; the social ones are withheld from a source that is not active, or degraded. */
  ghost predicate Carries(f: Features, r: RawFeatures) {
    && (f.priceReturn, f.volume, f.relativeVolume, f.volatilitySquared)
       == (r.priceReturn, r.volume, r.relativeVolume, r.volatilitySquared)
    && (f.spread, f.topNDepth, f.imbalance, f.orderbookValid)
       == (r.spread, r.topNDepth, r.imbalance, r.orderbookValid)
    && (f.tradeCount, f.pressure, f.marketFreshness, f.socialFreshness)
       == (r.tradeCount, r.pressure, r.marketFreshness, r.socialFreshness)
    && (f.socialLead, f.sourceGapCount, f.baselineConfidence) == (r.socialLead, r.sourceGapCount, r.baselineConfidence)
    && (f.social.None? <==> !f.socialFlags.active || f.socialFlags.degraded)
    && (f.social.Some? ==>
          var s := f.social.value;
          && (s.mentionCount, s.uniqueAuthors, s.authorConcentration, s.repostReplyRatio)
             == (r.mentionCount, r.uniqueAuthors, r.authorConcentration, r.repostReplyRatio)
          && (s.hashtagVelocity, s.urlConcentration, s.newAuthorRatio)
             == (r.hashtagVelocity, r.urlConcentration, r.newAuthorRatio))
  }

  /** All that the computed features say of the inputs; for volatility and quality see FeatureBaselines. */
  ghost predicate AllTell(r: RawFeatures, k: Key, inputs: Inputs) {
    && FeatureMeanings.MarketTells(r, inputs.events) && FeatureMeanings.BooksTell(r, inputs.events)
    && FeatureMeanings.PostsTell(r, k, inputs.events) && FeatureMeanings.AuthorsTell(r, inputs)
    && FeatureMeanings.SharesTell(r, inputs.events) && FeatureMeanings.FreshnessTells(r, k, inputs.events)
    && FeatureMeanings.LeadTells(r, inputs.events) && FeatureMeanings.GapsTell(r, inputs)
    && FeatureMeanings.PriceTells(r, inputs.events)
  }

  lemma RawTells(k: Key, inputs: Inputs)
    ensures AllTell(Raw(k, inputs), k, inputs)
  {
    FeatureMeanings.MarketIsTold(k, inputs);
    FeatureMeanings.BooksAreTold(k, inputs);
    FeatureMeanings.PostsAreTold(k, inputs);
    FeatureMeanings.AuthorsAreTold(k, inputs);
    FeatureMeanings.SharesAreTold(k, inputs);
    FeatureMeanings.TimesAreTold(k, inputs);
    FeatureMeanings.GapsAreTold(k, inputs);
    FeatureMeanings.PriceIsTold(k, inputs);
    hide Raw;
    hide FeatureMeanings.MarketTells, FeatureMeanings.BooksTell, FeatureMeanings.PostsTell, FeatureMeanings.AuthorsTell;
    hide FeatureMeanings.SharesTell, FeatureMeanings.FreshnessTells, FeatureMeanings.LeadTells;
    hide FeatureMeanings.GapsTell, FeatureMeanings.PriceTells;
  }

  lemma MaskCarries(r: RawFeatures, market: Flags, social: Flags)
    ensures Carries(Mask(r, market, social), r)
    ensures Mask(r, market, social).market == market && Mask(r, market, social).socialFlags == social
    ensures Mask(r, market, social).dataQuality == DataQualityScore(r, market, social)
  {
  }

  /**
   * In every reachable state the latest revision of a window reports the signals of the log that fall into it:
   * its lineage lists them, its features say of them what AllTell says, and the volumes they are measured against
   * are those of the latest earlier windows.
   */
  lemma LatestReports(cfg: Config, ops: seq<Op>, k: Key) returns (r: RawFeatures, starts: seq<int>)
    requires ValidConfig(cfg) && Distinct(cfg.intervals) && k in Run(cfg, ops).revisions
    requires forall key, inputs :: cfg.extract(key, inputs) == Raw(key, inputs)
    ensures var st := Run(cfg, ops);
            && st.revisions[k] != []
            && LineageTells(Latest(st, k).lineage, st.log, k)
            && Carries(Latest(st, k).features, r) && AllTell(r, k, Batch(st.log, k))
            && TrailingTells(Batch(st.log, k), st.log, k, starts)
            && Latest(st, k).features.dataQuality
               == DataQualityScore(r, Latest(st, k).features.market, Latest(st, k).features.socialFlags)
  {
    var st := Run(cfg, ops);
    LatestIsBatch(cfg, ops, k);
    RunsMatchLog(cfg, ops);
    RunsAreSound(cfg, ops);
    assert Filed(st.log, k) != [];
    hide Run, Filed, Sort, Batch;
    var inputs := Batch(st.log, k);
    r := Raw(k, inputs);
    RawTells(k, inputs);
    var f := Latest(st, k).features;
    MaskCarries(r, f.market, f.socialFlags);
    BatchEvents(st.log, k);
    SortedLineage(st.seen, st.log, k);
    starts := TrailingIsTold(st.log, k);
    hide *;
    FromParts(cfg, st, k, inputs, r);
  }

  lemma BatchEvents(log: seq<Signal>, k: Key)
    ensures Batch(log, k).events == Sort(Filed(log, k), SignalLe)
  {
  }

  lemma FromParts(cfg: Config, st: State, k: Key, inputs: Inputs, r: RawFeatures)
    requires k in st.revisions && st.revisions[k] != [] && Reports(cfg, Latest(st, k), k, inputs)
    requires cfg.extract(k, inputs) == r
    ensures var s := Latest(st, k);
            s.features == Mask(r, s.features.market, s.features.socialFlags) && s.lineage == LineageOf(inputs.events)
  {
  }
}
