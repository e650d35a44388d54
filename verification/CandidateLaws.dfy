/** Which disclosures a claim is judged by, what is cited as evidence, and how verdicts add up. */
module CandidateLaws {
  import opened Wrappers
  import opened Disclosures
  import opened ClaimVerifier
  import opened HindsightLaws
  import Sorting

  // ---------------------------------------------------------------- candidates

  /** The document is about the asset, or about none, and was published from lookback before to future after. */
  ghost predicate Concerns(d: Document, q: Query) {
    (d.asset.Some? ==> d.asset.value == q.asset) && d.published - q.at <= q.future && q.at - d.published <= q.lookback
  }

  /** The candidate is the i-th chunk of the entry, with what the entry's document says of itself. */
  ghost predicate IsChunk(c: Candidate, e: Entry, i: nat) {
    var d := e.doc;
    var observed := if d.firstObserved.Some? then d.firstObserved.value else d.retrieved;
    var ingested := if d.ingested.Some? then d.ingested.value else d.retrieved;
    && i < |e.chunks| && c.index == i && c.text == e.chunks[i]
    && (c.id, c.source, c.sourceDocument, c.title) == (d.id, d.source, d.sourceDocument, d.title)
    && (c.published, c.version, c.reliability, c.policy) == (d.published, d.version, d.reliability, d.policy)
    && c.firstObserved == observed && c.ingested == ingested
    && (if d.available.Some? then c.available == d.available.value
        else c.available >= observed && c.available >= ingested && c.available in {observed, ingested})
  }

  function When(d: Document): int { if d.available.Some? then d.available.value else d.retrieved }

  ghost predicate InTime(entries: seq<Entry>, g: Group, at: int, i: nat)
    requires i < |entries|
  {
    GroupOf(entries[i].doc) == g && When(entries[i].doc) <= at
  }

  /** Of the entries of a document that are in time, the i-th has the highest version, and is the first that has. */
  ghost predicate IsTopEntry(entries: seq<Entry>, g: Group, at: int, i: nat)
    requires i < |entries|
  {
    && InTime(entries, g, at, i)
    && forall j :: 0 <= j < |entries| && InTime(entries, g, at, j) ==>
         if j < i then entries[j].doc.version < entries[i].doc.version
         else entries[j].doc.version <= entries[i].doc.version
  }

  /** The entry is later than the time, or of its document's entries that are not the first with the highest version. */
  ghost predicate Chosen(entries: seq<Entry>, at: int, e: Entry) {
    exists i :: 0 <= i < |entries| && entries[i] == e
                && (When(e.doc) > at || IsTopEntry(entries, GroupOf(e.doc), at, i))
  }

  lemma BestOneMore(init: seq<Entry>, x: Entry, g: Group, at: int)
    ensures var best := BestEligible(init, g, at);
            BestEligible(init + [x], g, at)
            == if GroupOf(x.doc) != g || When(x.doc) > at then best
               else if best.Some? && x.doc.version <= best.value.doc.version then best else Some(x)
  {
    var versions := Of(init, g);
    assert (init + [x])[..|init|] == init;
    assert (versions + [x])[..|versions|] == versions;
    var eligible := Eligible(versions, at);
    assert (eligible + [x])[..|eligible|] == eligible;
    assert versions + [] == versions && eligible + [] == eligible;
  }

  lemma StaysInTime(init: seq<Entry>, x: Entry, g: Group, at: int)
    ensures forall i :: 0 <= i < |init| ==> (InTime(init + [x], g, at, i) <==> InTime(init, g, at, i))
    ensures InTime(init + [x], g, at, |init|) <==> GroupOf(x.doc) == g && When(x.doc) <= at
  {
  }

  /** One entry more is the first with the highest version exactly if it is higher than those before it. */
  lemma TopOneMore(init: seq<Entry>, x: Entry, g: Group, at: int, best: Option<Entry>)
    requires best.None? <==> forall i :: 0 <= i < |init| ==> !InTime(init, g, at, i)
    requires best.Some? ==> exists i :: 0 <= i < |init| && IsTopEntry(init, g, at, i) && best == Some(init[i])
    ensures var all, next :=
              init + [x], if GroupOf(x.doc) != g || When(x.doc) > at then best
                          else if best.Some? && x.doc.version <= best.value.doc.version then best else Some(x);
            && (next.None? <==> forall i :: 0 <= i < |all| ==> !InTime(all, g, at, i))
            && (next.Some? ==> exists i :: 0 <= i < |all| && IsTopEntry(all, g, at, i) && next == Some(all[i]))
  {
    var all, n := init + [x], |init|;
    StaysInTime(init, x, g, at);
    hide InTime, GroupOf, When;
    if best.Some? {
      var i :| 0 <= i < n && IsTopEntry(init, g, at, i) && best == Some(init[i]);
      if InTime(all, g, at, n) && x.doc.version > best.value.doc.version {
        assert IsTopEntry(all, g, at, n);
      } else {
        assert IsTopEntry(all, g, at, i);
      }
    } else if InTime(all, g, at, n) {
      assert IsTopEntry(all, g, at, n);
    }
  }

  lemma {:induction false} BestIsTop(entries: seq<Entry>, g: Group, at: int)
    ensures BestEligible(entries, g, at).None? <==> forall i :: 0 <= i < |entries| ==> !InTime(entries, g, at, i)
    ensures BestEligible(entries, g, at).Some? ==>
            exists i :: 0 <= i < |entries| && IsTopEntry(entries, g, at, i)
                        && BestEligible(entries, g, at) == Some(entries[i])
  {
    if entries != [] {
      var n := |entries| - 1;
      var init, x := entries[..n], entries[n];
      assert entries == init + [x];
      BestIsTop(init, g, at);
      BestOneMore(init, x, g, at);
      hide BestEligible, InTime, IsTopEntry;
      TopOneMore(init, x, g, at, BestEligible(init, g, at));
    }
  }

  lemma TopIsOne(entries: seq<Entry>, g: Group, at: int, i: nat, j: nat)
    requires i < |entries| && j < |entries| && IsTopEntry(entries, g, at, i) && IsTopEntry(entries, g, at, j)
    ensures i == j
  {
  }

  /** The selection takes exactly what is chosen. */
  lemma SelectedIsChosen(entries: seq<Entry>, at: int, e: Entry)
    ensures e in Selected(entries, at) <==> Chosen(entries, at, e)
  {
    var g := GroupOf(e.doc);
    SelectedIff(entries, at, e);
    BestIsTop(entries, g, at);
    hide Selected, BestEligible;
    if When(e.doc) <= at {
      if i :| 0 <= i < |entries| && entries[i] == e && IsTopEntry(entries, g, at, i) {
        assert InTime(entries, g, at, i);
        var j :| 0 <= j < |entries| && IsTopEntry(entries, g, at, j)
                 && BestEligible(entries, g, at) == Some(entries[j]);
        TopIsOne(entries, g, at, i, j);
      }
    }
  }

  lemma CandidateIsChunk(e: Entry, i: nat, q: Query, c: Candidate)
    requires i < |e.chunks|
    ensures c == CandidateOf(e, i) <==> IsChunk(c, e, i)
    ensures Relevant(e.doc, q) <==> Concerns(e.doc, q)
  {
  }

  /** The candidates for a claim are the chunks of the chosen documents that concern it, and no others. */
  lemma CandidatesAreChunks(entries: seq<Entry>, q: Query, c: Candidate)
    ensures c in Candidates(entries, q) <==>
            exists e, i: nat :: Chosen(entries, q.at, e) && Concerns(e.doc, q) && IsChunk(c, e, i)
  {
    CandidatesHold(entries, q, c);
    if c in Candidates(entries, q) {
      var e, i :|
        e in Selected(entries, q.at) && Relevant(e.doc, q) && 0 <= i < |e.chunks| && c == CandidateOf(e, i);
      SelectedIsChosen(entries, q.at, e);
      CandidateIsChunk(e, i, q, c);
    }
    if e, i: nat :| Chosen(entries, q.at, e) && Concerns(e.doc, q) && IsChunk(c, e, i) {
      SelectedIsChosen(entries, q.at, e);
      CandidateIsChunk(e, i, q, c);
      CandidatesInclude(entries, q, e, i);
    }
  }

  lemma CandidatesInclude(entries: seq<Entry>, q: Query, e: Entry, i: nat)
    requires e in Selected(entries, q.at) && Relevant(e.doc, q) && i < |e.chunks|
    ensures CandidateOf(e, i) in Candidates(entries, q)
  {
    CandidatesHold(entries, q, CandidateOf(e, i));
  }

  /** They come in the order of their publication. */
  lemma CandidatesAreSorted(entries: seq<Entry>, q: Query)
    ensures var cs := Candidates(entries, q);
            forall i, j :: 0 <= i < j < |cs| ==>
              cs[i].published < cs[j].published
              || (cs[i].published == cs[j].published
                  && Sorting.StringLe(q.idName(cs[i].id, cs[i].index), q.idName(cs[j].id, cs[j].index)))
  {
    var le := Earlier(q);
    forall x, y ensures le(x, y) || le(y, x) {
      Sorting.StringLeTotal(q.idName(x.id, x.index), q.idName(y.id, y.index));
    }
    forall x, y, z | le(x, y) && le(y, z) ensures le(x, z) {
      if x.published == z.published {
        Sorting.StringLeTransitive(q.idName(x.id, x.index), q.idName(y.id, y.index), q.idName(z.id, z.index));
      }
    }
    Sorting.SortSorts(Gather(Selected(entries, q.at), q), le);
  }

  /** A document belongs to its logical key, else its source policy, else its source; an empty logical key is none. */
  lemma GroupNames(d: Document)
    ensures var g := GroupOf(d);
            && (d.logicalKey.Some? && d.logicalKey.value != "" ==> g.source == d.logicalKey.value)
            && (d.logicalKey.None? || d.logicalKey.value == "" ==>
                  g.source == if d.policy.Some? then d.policy.value else d.source)
            && (d.documentKey.Some? && d.documentKey.value != "" ==> g.document == d.documentKey.value)
            && (d.documentKey.None? || d.documentKey.value == "" ==> g.document == d.sourceDocument)
  {
  }

  // ---------------------------------------------------------------- evidence

  /** Support in time first, then conflict in time, then what came later. */
  function Place(c: Candidate, judge: Judge, at: int): nat {
    if c.available > at then 2 else if judge.conflicts(c) then 1 else 0
  }

  lemma FilterOnce(p: Candidate -> bool, xs: seq<Candidate>, c: Candidate)
    requires xs != []
    ensures multiset(Filter(p, xs))[c]
            == (if xs[0] == c && p(c) then 1 else 0) + multiset(Filter(p, xs[1..]))[c]
  {
  }

  lemma {:induction false} FilterCounts(p: Candidate -> bool, xs: seq<Candidate>, c: Candidate)
    ensures multiset(Filter(p, xs))[c] == if p(c) then multiset(xs)[c] else 0
  {
    if xs != [] {
      FilterCounts(p, xs[1..], c);
      FilterOnce(p, xs, c);
      hide Filter;
      assert xs == [xs[0]] + xs[1..];
      assert multiset(xs)[c] == (if xs[0] == c then 1 else 0) + multiset(xs[1..])[c];
    }
  }

  lemma SplitCounts(cs: seq<Candidate>, judge: Judge, threshold: real, at: int, c: Candidate)
    ensures var matching := Matching(cs, judge, threshold);
            var before := Before(matching, at);
            var counted := if judge.similarity(c) * c.reliability >= threshold then multiset(cs)[c] else 0;
            && multiset(Support(before, judge))[c] == (if Place(c, judge, at) == 0 then counted else 0)
            && multiset(Against(before, judge))[c] == (if Place(c, judge, at) == 1 then counted else 0)
            && multiset(Future(matching, at))[c] == (if Place(c, judge, at) == 2 then counted else 0)
  {
    var matching := Matching(cs, judge, threshold);
    FilterCounts(x => Matches(judge, threshold, x), cs, c);
    FilterCounts((x: Candidate) => x.available <= at, matching, c);
    FilterCounts((x: Candidate) => x.available > at, matching, c);
    FilterCounts((x: Candidate) => judge.conflicts(x), Before(matching, at), c);
    FilterCounts((x: Candidate) => !judge.conflicts(x), Before(matching, at), c);
    hide Filter;
  }

  lemma EvidenceParts(cs: seq<Candidate>, judge: Judge, threshold: real, at: int, complete: bool)
    ensures var matching := Matching(cs, judge, threshold);
            var before := Before(matching, at);
            Verify(cs, judge, threshold, at, complete).evidence
            == Support(before, judge) + Against(before, judge) + Future(matching, at)
  {
    hide Matching, Before, Future, Support, Against, Highest;
    var matching := Matching(cs, judge, threshold);
    var future := Future(matching, at);
    assert [] + [] + future == future;
    assert Support(Before(matching, at), judge) + [] == Support(Before(matching, at), judge);
  }

  ghost predicate InPlaces(evidence: seq<Candidate>, judge: Judge, at: int) {
    forall i, j :: 0 <= i < j < |evidence| ==> Place(evidence[i], judge, at) <= Place(evidence[j], judge, at)
  }

  lemma PartsInPlaces(xs: seq<Candidate>, ys: seq<Candidate>, zs: seq<Candidate>, judge: Judge, at: int)
    requires forall c :: c in xs ==> Place(c, judge, at) == 0
    requires forall c :: c in ys ==> Place(c, judge, at) == 1
    requires forall c :: c in zs ==> Place(c, judge, at) == 2
    ensures InPlaces(xs + ys + zs, judge, at)
  {
    hide Place;
    var all := xs + ys + zs;
    forall i | 0 <= i < |all|
      ensures Place(all[i], judge, at) == if i < |xs| then 0 else if i < |xs| + |ys| then 1 else 2
    {
      assert i < |xs| ==> all[i] in xs;
      assert |xs| <= i < |xs| + |ys| ==> all[i] in ys;
      assert |xs| + |ys| <= i ==> all[i] in zs;
    }
  }

  /**
   * Whatever the verdict, its evidence is exactly the candidates similar and reliable enough, each as often as it is a
   * candidate: first support in time, then conflict in time, then what came later.
   */
  lemma EvidenceIsMatching(cs: seq<Candidate>, judge: Judge, threshold: real, at: int, complete: bool)
    ensures var evidence := Verify(cs, judge, threshold, at, complete).evidence;
            && (forall c :: multiset(evidence)[c]
                            == if judge.similarity(c) * c.reliability >= threshold then multiset(cs)[c] else 0)
            && InPlaces(evidence, judge, at)
  {
    var matching := Matching(cs, judge, threshold);
    var before, future := Before(matching, at), Future(matching, at);
    var support, conflict := Support(before, judge), Against(before, judge);
    EvidenceParts(cs, judge, threshold, at, complete);
    PartsInPlaces(support, conflict, future, judge, at);
    hide Verify, Matching, Before, Future, Support, Against, InPlaces;
    var evidence := Verify(cs, judge, threshold, at, complete).evidence;
    forall c ensures multiset(evidence)[c]
                     == if judge.similarity(c) * c.reliability >= threshold then multiset(cs)[c] else 0 {
      SplitCounts(cs, judge, threshold, at, c);
      assert multiset(evidence) == multiset(support) + multiset(conflict) + multiset(future);
    }
  }

  /** An item scores the similarity weighed by reliability, held to [0, 1], and tells whether it was there in time. */
  lemma ItemTells(judge: Judge, at: int, c: Candidate, rank: nat)
    ensures var item, weighed := ItemOf(judge, at, c, rank), judge.similarity(c) * c.reliability;
            && item.id == c.id && item.rank == rank && (item.eligible <==> c.available <= at)
            && item.relation == (match Place(c, judge, at)
                                 case 0 => Supports case 1 => Conflicts case _ => Retrospective)
            && 0.0 <= item.score <= 1.0 && (0.0 <= weighed <= 1.0 ==> item.score == weighed)
            && (weighed < 0.0 ==> item.score == 0.0) && (weighed > 1.0 ==> item.score == 1.0)
  {
    var weighed := judge.similarity(c) * c.reliability;
    assert ItemOf(judge, at, c, rank).score == Clamp(weighed);
  }

  // ---------------------------------------------------------------- a narrative's claims together

  /** Outcomes from the mildest to the gravest. */
  const GRAVITY := [SupportedBefore, Unknown, SupportedAfter, Unsupported, Conflicting]

  ghost predicate NoGraver(x: Outcome, y: Outcome) {
    exists i, j :: 0 <= i <= j < |GRAVITY| && GRAVITY[i] == x && GRAVITY[j] == y
  }

  lemma GravityIs(x: Outcome, y: Outcome)
    ensures NoGraver(x, y) <==> Precedence(x) <= Precedence(y)
  {
    assert GRAVITY[Precedence(x) - 1] == x && GRAVITY[Precedence(y) - 1] == y;
  }

  ghost predicate Gravest(verdicts: seq<Verdict>, o: Outcome) {
    (exists v :: v in verdicts && v.outcome == o) && forall v :: v in verdicts ==> NoGraver(v.outcome, o)
  }

  ghost predicate Greatest(verdicts: seq<Verdict>, risk: real, legitimate: real) {
    && (exists v :: v in verdicts && v.risk == risk) && (exists v :: v in verdicts && v.legitimate == legitimate)
    && forall v :: v in verdicts ==> v.risk <= risk && v.legitimate <= legitimate
  }

  lemma {:induction false} GravestIs(verdicts: seq<Verdict>)
    requires verdicts != []
    ensures exists v :: v in verdicts && v.outcome == Summarise(verdicts).outcome
    ensures forall v :: v in verdicts ==> Precedence(v.outcome) <= Precedence(Summarise(verdicts).outcome)
  {
    var init, last := verdicts[..|verdicts| - 1], verdicts[|verdicts| - 1];
    assert verdicts == init + [last] && last in verdicts;
    if init != [] {
      GravestIs(init);
      var v :| v in init && v.outcome == Summarise(init).outcome;
      assert v in verdicts;
    }
  }

  lemma {:induction false} GreatestIs(verdicts: seq<Verdict>)
    requires verdicts != []
    ensures Greatest(verdicts, Summarise(verdicts).risk, Summarise(verdicts).legitimate)
  {
    var init, last := verdicts[..|verdicts| - 1], verdicts[|verdicts| - 1];
    assert verdicts == init + [last] && last in verdicts;
    if init != [] {
      GreatestIs(init);
      var v :| v in init && v.risk == Summarise(init).risk;
      var w :| w in init && w.legitimate == Summarise(init).legitimate;
      assert v in verdicts && w in verdicts;
    }
  }

  /** A summary has the gravest outcome, the greatest risk and the greatest legitimate-event score of its claims. */
  lemma SummaryIsGravest(verdicts: seq<Verdict>)
    requires verdicts != []
    ensures var s := Summarise(verdicts);
            Gravest(verdicts, s.outcome) && Greatest(verdicts, s.risk, s.legitimate)
  {
    GravestIs(verdicts);
    GreatestIs(verdicts);
    hide Summarise, Greatest, NoGraver;
    forall v | v in verdicts ensures NoGraver(v.outcome, Summarise(verdicts).outcome) {
      GravityIs(v.outcome, Summarise(verdicts).outcome);
    }
  }
}
