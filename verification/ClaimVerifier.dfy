/** The time-bounded claim verifier, and what disclosures that came later can and cannot change. */
module ClaimVerifier {
  import opened Wrappers
  import opened Disclosures
  import DisclosureLaws
  import Sorting

  /** What text comparison says of a claim and each candidate. */
  datatype Judge = Judge(similarity: Candidate -> real, conflicts: Candidate -> bool)

  datatype Outcome = SupportedBefore | SupportedAfter | Unsupported | Conflicting | Unknown

  datatype Verdict = Verdict(
    outcome: Outcome, risk: real, legitimate: real, retrospective: bool, evidence: seq<Candidate>)

  function Filter<T(!new)>(p: T -> bool, xs: seq<T>): (r: seq<T>)
    ensures forall x :: x in r <==> x in xs && p(x)
  {
    if xs == [] then []
    else
      assert forall x :: x in xs <==> x == xs[0] || x in xs[1..];
      (if p(xs[0]) then [xs[0]] else []) + Filter(p, xs[1..])
  }

  lemma {:induction false} NoneKept<T(!new)>(p: T -> bool, xs: seq<T>)
    requires forall x :: x in xs ==> !p(x)
    ensures Filter(p, xs) == []
  {
    if xs != [] {
      assert xs[0] in xs;
      NoneKept(p, xs[1..]);
    }
  }

  function Highest(cs: seq<Candidate>): (r: real)
    requires cs != []
    ensures exists c :: c in cs && c.reliability == r
    ensures forall c :: c in cs ==> c.reliability <= r
  {
    if |cs| == 1 then cs[0].reliability
    else
      var rest := Highest(cs[1..]);
      assert cs == [cs[0]] + cs[1..];
      if cs[0].reliability >= rest then cs[0].reliability else rest
  }

  predicate Matches(judge: Judge, threshold: real, c: Candidate) {
    judge.similarity(c) * c.reliability >= threshold
  }

  function Matching(cs: seq<Candidate>, judge: Judge, threshold: real): seq<Candidate> {
    Filter(c => Matches(judge, threshold, c), cs)
  }

  function Before(cs: seq<Candidate>, at: int): seq<Candidate> { Filter((c: Candidate) => c.available <= at, cs) }
  function Future(cs: seq<Candidate>, at: int): seq<Candidate> { Filter((c: Candidate) => c.available > at, cs) }
  function Against(cs: seq<Candidate>, judge: Judge): seq<Candidate> {
    Filter((c: Candidate) => judge.conflicts(c), cs)
  }
  function Support(cs: seq<Candidate>, judge: Judge): seq<Candidate> {
    Filter((c: Candidate) => !judge.conflicts(c), cs)
  }

  function Verify(cs: seq<Candidate>, judge: Judge, threshold: real, at: int, complete: bool): Verdict {
    var matching := Matching(cs, judge, threshold);
    var before, future := Before(matching, at), Future(matching, at);
    var conflict, support := Against(before, judge), Support(before, judge);
    if conflict != [] then Verdict(Conflicting, 1.0, 0.0, false, support + conflict + future)
    else if support != [] then Verdict(SupportedBefore, 0.15, Highest(support), false, support + future)
    else if future != [] then Verdict(SupportedAfter, 0.75, 0.0, true, future)
    else if !complete then Verdict(Unknown, 0.50, 0.0, false, [])
    else if cs != [] then Verdict(Unsupported, 0.90, 0.0, false, [])
    else Verdict(Unknown, 0.50, 0.0, false, [])
  }

  ghost predicate Opposed(cs: seq<Candidate>, judge: Judge, threshold: real, at: int) {
    exists c :: c in cs && Matches(judge, threshold, c) && c.available <= at && judge.conflicts(c)
  }

  ghost predicate Backed(cs: seq<Candidate>, judge: Judge, threshold: real, at: int) {
    exists c :: c in cs && Matches(judge, threshold, c) && c.available <= at && !judge.conflicts(c)
  }

  ghost predicate Followed(cs: seq<Candidate>, judge: Judge, threshold: real, at: int) {
    exists c :: c in cs && Matches(judge, threshold, c) && c.available > at
  }

  /**
   * Each verdict, and its risk, with the exact condition for it: a conflict in time outweighs support in time, and
   * that all that came later.
   */
  lemma VerdictIff(cs: seq<Candidate>, judge: Judge, threshold: real, at: int, complete: bool)
    ensures var v := Verify(cs, judge, threshold, at, complete);
            var opposed, backed := Opposed(cs, judge, threshold, at), Backed(cs, judge, threshold, at);
            var followed := Followed(cs, judge, threshold, at);
            && (v.outcome == Conflicting <==> opposed)
            && (v.outcome == SupportedBefore <==> backed && !opposed)
            && (v.outcome == SupportedAfter <==> followed && !backed && !opposed)
            && (v.outcome == Unsupported <==> complete && cs != [] && !followed && !backed && !opposed)
            && (v.retrospective <==> v.outcome == SupportedAfter)
            && (v.legitimate != 0.0 ==> v.outcome == SupportedBefore)
            && v.risk == (if opposed then 1.0 else if backed then 0.15 else if followed then 0.75
                          else if complete && cs != [] then 0.90 else 0.50)
    ensures var v := Verify(cs, judge, threshold, at, complete);
            v.outcome == SupportedBefore ==>
              && (forall c :: c in cs && Matches(judge, threshold, c) && c.available <= at ==>
                 c.reliability <= v.legitimate)
              && (exists c ::
                 c in cs && Matches(judge, threshold, c) && c.available <= at && c.reliability == v.legitimate)
  {
    var matching := Matching(cs, judge, threshold);
    var before, future := Before(matching, at), Future(matching, at);
    SomeIffNotEmpty(Against(before, judge));
    SomeIffNotEmpty(Support(before, judge));
    SomeIffNotEmpty(future);
    assert forall c ::
        c in Against(before, judge) <==>
          c in cs && Matches(judge, threshold, c) && c.available <= at && judge.conflicts(c);
    assert forall c ::
        c in Support(before, judge) <==>
          c in cs && Matches(judge, threshold, c) && c.available <= at && !judge.conflicts(c);
    assert forall c :: c in future <==> c in cs && Matches(judge, threshold, c) && c.available > at;
  }

  lemma SomeIffNotEmpty(cs: seq<Candidate>)
    ensures cs != [] <==> exists c :: c in cs
  {
    assert cs != [] ==> cs[0] in cs;
  }

  // ---------------------------------------------------------------- structured evidence

  datatype Relation = Supports | Conflicts | Retrospective

  datatype Item = Item(id: Id, relation: Relation, score: real, rank: nat, eligible: bool)

  function RelationOf(judge: Judge, at: int, c: Candidate): Relation {
    if c.available > at then Retrospective else if judge.conflicts(c) then Conflicts else Supports
  }

  function Clamp(x: real): real { if x < 0.0 then 0.0 else if x > 1.0 then 1.0 else x }

  predicate Listed(items: seq<Item>, id: Id, relation: Relation) {
    exists i :: 0 <= i < |items| && items[i].id == id && items[i].relation == relation
  }

  /** Most similar first; the identity of the chunk breaks ties. */
  function MoreSimilar(judge: Judge, idName: (Id, nat) -> string): (Candidate, Candidate) -> bool {
    (x: Candidate, y: Candidate) =>
      judge.similarity(x) > judge.similarity(y)
      || (judge.similarity(x) == judge.similarity(y) && Sorting.StringLe(idName(x.id, x.index), idName(y.id, y.index)))
  }

  function ItemOf(judge: Judge, at: int, c: Candidate, rank: nat): Item {
    Item(c.id, RelationOf(judge, at, c), Clamp(judge.similarity(c) * c.reliability), rank, c.available <= at)
  }

  /** One item for each disclosure and relation, made of its first candidate in the ranking. */
  ghost predicate Evidences(items: seq<Item>, ranked: seq<Candidate>, judge: Judge, at: int) {
    && (forall i :: 0 <= i < |items| ==> items[i].rank == i + 1)
    && (forall i, j :: 0 <= i < j < |items| ==> items[i].id != items[j].id || items[i].relation != items[j].relation)
    && (forall k :: 0 <= k < |ranked| ==> Listed(items, ranked[k].id, RelationOf(judge, at, ranked[k])))
    && (forall i :: 0 <= i < |items| ==> HasMaker(items[i], ranked, judge, at))
  }

  ghost predicate MadeOf(item: Item, ranked: seq<Candidate>, k: nat, judge: Judge, at: int)
    requires k < |ranked|
  {
    && item == ItemOf(judge, at, ranked[k], item.rank)
    && forall j :: 0 <= j < k ==> ranked[j].id != item.id || RelationOf(judge, at, ranked[j]) != item.relation
  }

  ghost predicate HasMaker(item: Item, ranked: seq<Candidate>, judge: Judge, at: int) {
    exists k :: 0 <= k < |ranked| && MadeOf(item, ranked, k, judge, at)
  }

  lemma MakerStays(item: Item, ranked: seq<Candidate>, c: Candidate, judge: Judge, at: int)
    requires HasMaker(item, ranked, judge, at)
    ensures HasMaker(item, ranked + [c], judge, at)
  {
    var k :| 0 <= k < |ranked| && MadeOf(item, ranked, k, judge, at);
    assert MadeOf(item, ranked + [c], k, judge, at);
  }

  method BuildEvidence(ranked: seq<Candidate>, judge: Judge, at: int) returns (items: seq<Item>)
    ensures Evidences(items, ranked, judge, at)
  {
    items := [];
    var seen: set<(Id, Relation)> := {};
    for n := 0 to |ranked|
      invariant Evidences(items, ranked[..n], judge, at)
      invariant forall id, relation :: (id, relation) in seen <==> Listed(items, id, relation)
    {
      var c := ranked[n];
      var relation := RelationOf(judge, at, c);
      assert ranked[..n + 1] == ranked[..n] + [c];
      if (c.id, relation) in seen {
        SeenAgain(items, ranked[..n], c, judge, at);
      } else {
        SeenFirst(items, ranked[..n], c, judge, at);
        seen := seen + {(c.id, relation)};
        items := items + [ItemOf(judge, at, c, |items| + 1)];
      }
    }
    assert ranked[..|ranked|] == ranked;
  }

  lemma SeenAgain(items: seq<Item>, ranked: seq<Candidate>, c: Candidate, judge: Judge, at: int)
    requires Evidences(items, ranked, judge, at) && Listed(items, c.id, RelationOf(judge, at, c))
    ensures Evidences(items, ranked + [c], judge, at)
  {
    forall i | 0 <= i < |items| ensures HasMaker(items[i], ranked + [c], judge, at) {
      MakerStays(items[i], ranked, c, judge, at);
    }
  }

  lemma ListedMore(items: seq<Item>, item: Item)
    ensures forall id, relation ::
              Listed(items + [item], id, relation)
              <==> Listed(items, id, relation) || (id == item.id && relation == item.relation)
  {
    forall id, relation
      ensures Listed(items + [item], id, relation)
              <==> Listed(items, id, relation) || (id == item.id && relation == item.relation)
    {
      if i :| 0 <= i < |items| && items[i].id == id && items[i].relation == relation {
        assert (items + [item])[i] == items[i];
      }
      assert (items + [item])[|items|] == item;
    }
  }

  lemma SeenFirst(items: seq<Item>, ranked: seq<Candidate>, c: Candidate, judge: Judge, at: int)
    requires Evidences(items, ranked, judge, at) && !Listed(items, c.id, RelationOf(judge, at, c))
    ensures var item := ItemOf(judge, at, c, |items| + 1);
            && Evidences(items + [item], ranked + [c], judge, at)
            && forall id, relation ::
                 Listed(items + [item], id, relation)
                 <==> Listed(items, id, relation) || (id == item.id && relation == item.relation)
  {
    var item := ItemOf(judge, at, c, |items| + 1);
    var more, all := items + [item], ranked + [c];
    ListedMore(items, item);
    forall k | 0 <= k < |ranked| ensures all[k].id != item.id || RelationOf(judge, at, all[k]) != item.relation {
      assert all[k] == ranked[k] && Listed(items, ranked[k].id, RelationOf(judge, at, ranked[k]));
    }
    forall i | 0 <= i < |more| ensures HasMaker(more[i], all, judge, at) {
      if i < |items| {
        MakerStays(items[i], ranked, c, judge, at);
      } else {
        assert MadeOf(more[i], all, |ranked|, judge, at);
      }
    }
  }

  /** The item kept for a disclosure and relation is as similar to the claim as any of its chunks. */
  lemma EvidenceIsTheClosest(
      items: seq<Item>, matching: seq<Candidate>, judge: Judge, idName: (Id, nat) -> string, at: int, c: Candidate)
    returns (i: nat, best: Candidate)
    requires Evidences(items, Sorting.Sort(matching, MoreSimilar(judge, idName)), judge, at) && c in matching
    ensures i < |items| && best in matching && items[i] == ItemOf(judge, at, best, i + 1)
    ensures items[i].id == c.id && items[i].relation == RelationOf(judge, at, c)
    ensures judge.similarity(best) >= judge.similarity(c)
  {
    var le := MoreSimilar(judge, idName);
    var ranked := Sorting.Sort(matching, le);
    Sorting.SortPermutes(matching, le);
    SimilarityOrders(judge, idName);
    Sorting.SortSorts(matching, le);
    var k, n;
    i, k, n := MakerOf(items, ranked, judge, at, c);
    best := ranked[k];
    assert k < n ==> le(ranked[k], ranked[n]);
  }

  lemma MakerOf(
      items: seq<Item>, ranked: seq<Candidate>, judge: Judge, at: int, c: Candidate) returns (i: nat, k: nat, n: nat)
    requires Evidences(items, ranked, judge, at) && c in ranked
    ensures i < |items| && k <= n < |ranked| && ranked[n] == c && items[i] == ItemOf(judge, at, ranked[k], i + 1)
    ensures items[i].id == c.id && items[i].relation == RelationOf(judge, at, c)
  {
    n :| 0 <= n < |ranked| && ranked[n] == c;
    assert Listed(items, ranked[n].id, RelationOf(judge, at, ranked[n]));
    i :| 0 <= i < |items| && items[i].id == c.id && items[i].relation == RelationOf(judge, at, c);
    assert HasMaker(items[i], ranked, judge, at);
    k :| 0 <= k < |ranked| && MadeOf(items[i], ranked, k, judge, at);
  }

  lemma SimilarityOrders(judge: Judge, idName: (Id, nat) -> string)
    ensures Sorting.Ordering(MoreSimilar(judge, idName))
  {
    var le := MoreSimilar(judge, idName);
    forall x, y ensures le(x, y) || le(y, x) {
      Sorting.StringLeTotal(idName(x.id, x.index), idName(y.id, y.index));
    }
    forall x, y, z | le(x, y) && le(y, z) ensures le(x, z) {
      if judge.similarity(x) == judge.similarity(y) == judge.similarity(z) {
        Sorting.StringLeTransitive(idName(x.id, x.index), idName(y.id, y.index), idName(z.id, z.index));
      }
    }
  }

  // ---------------------------------------------------------------- what was known by the alert

  ghost predicate Known(entries: seq<Entry>, at: int, x: Entry) {
    exists e :: e in entries && AvailableAt(e.doc) <= at && DisclosureLaws.Unretired(e) == x
  }

  /** The two stores hold the same disclosures available by the time, whatever has retired them since. */
  ghost predicate Agree(left: seq<Entry>, right: seq<Entry>, at: int) {
    forall x :: Known(left, at, x) <==> Known(right, at, x)
  }

  lemma {:induction false} BestIsHighest(entries: seq<Entry>)
    ensures Best(entries).None? <==> entries == []
    ensures Best(entries).Some? ==> Best(entries).value in entries
    ensures forall e :: e in entries ==> Best(entries).Some? && e.doc.version <= Best(entries).value.doc.version
  {
    if entries != [] {
      BestIsHighest(entries[..|entries| - 1]);
      assert entries == entries[..|entries| - 1] + [entries[|entries| - 1]];
    }
  }

  lemma {:induction false} SplitByTime(entries: seq<Entry>, at: int)
    ensures forall e :: e in Eligible(entries, at) <==> e in entries && SelectedAt(e.doc) <= at
    ensures forall e :: e in Afterwards(entries, at) <==> e in entries && SelectedAt(e.doc) > at
  {
    if entries != [] {
      SplitByTime(entries[..|entries| - 1], at);
      assert entries == entries[..|entries| - 1] + [entries[|entries| - 1]];
    }
  }

  lemma {:induction false} GroupsAreAll(entries: seq<Entry>)
    ensures forall e :: e in entries ==> GroupOf(e.doc) in GroupsOf(entries)
  {
    if entries != [] {
      GroupsAreAll(entries[..|entries| - 1]);
      assert entries == entries[..|entries| - 1] + [entries[|entries| - 1]];
    }
  }

  lemma SelectEachAdds(entries: seq<Entry>, init: seq<Group>, last: Group, at: int, e: Entry)
    ensures e in SelectEach(entries, init + [last], at)
            <==> e in SelectEach(entries, init, at) || e in SelectFrom(Of(entries, last), at)
  {
    assert (init + [last])[..|init|] == init;
  }

  lemma {:induction false} SelectEachHolds(entries: seq<Entry>, groups: seq<Group>, at: int, e: Entry)
    ensures e in SelectEach(entries, groups, at) <==> exists g :: g in groups && e in SelectFrom(Of(entries, g), at)
  {
    if groups != [] {
      var init, last := groups[..|groups| - 1], groups[|groups| - 1];
      assert groups == init + [last];
      SelectEachHolds(entries, init, at, e);
      SelectEachAdds(entries, init, last, at, e);
    }
  }

  /** What of a document the selection takes to be available: the best of its eligible versions. */
  function BestEligible(entries: seq<Entry>, g: Group, at: int): Option<Entry> {
    Best(Eligible(Of(entries, g), at))
  }

  lemma BestEligibleIs(entries: seq<Entry>, g: Group, at: int)
    ensures var b := BestEligible(entries, g, at);
            && (b.Some? ==> b.value in entries && GroupOf(b.value.doc) == g && SelectedAt(b.value.doc) <= at)
            && forall e :: e in entries && GroupOf(e.doc) == g && SelectedAt(e.doc) <= at ==>
                 b.Some? && e.doc.version <= b.value.doc.version
  {
    SplitByTime(Of(entries, g), at);
    DisclosureLaws.OfHolds(entries, g);
    BestIsHighest(Eligible(Of(entries, g), at));
  }

  /** Selected is what came later, and of what is eligible the best of each document. */
  lemma {:induction false} SelectedIff(entries: seq<Entry>, at: int, e: Entry)
    ensures e in Selected(entries, at) <==>
            e in entries && (SelectedAt(e.doc) > at || BestEligible(entries, GroupOf(e.doc), at) == Some(e))
  {
    SelectEachHolds(entries, GroupsOf(entries), at, e);
    GroupsAreAll(entries);
    forall g ensures e in SelectFrom(Of(entries, g), at) <==>
                     (e in entries && GroupOf(e.doc) == g && SelectedAt(e.doc) > at)
                     || BestEligible(entries, g, at) == Some(e) {
      SelectFromHolds(entries, g, at, e);
    }
    BestEligibleIs(entries, GroupOf(e.doc), at);
    if e in Selected(entries, at) {
      var g :| g in GroupsOf(entries) && e in SelectFrom(Of(entries, g), at);
      BestEligibleIs(entries, g, at);
    }
  }

  lemma SelectFromHolds(entries: seq<Entry>, g: Group, at: int, e: Entry)
    ensures e in SelectFrom(Of(entries, g), at) <==>
            (e in entries && GroupOf(e.doc) == g && SelectedAt(e.doc) > at) || BestEligible(entries, g, at) == Some(e)
  {
    SplitByTime(Of(entries, g), at);
    DisclosureLaws.OfHolds(entries, g);
  }

  lemma {:induction false} GatherHolds(selected: seq<Entry>, q: Query, c: Candidate)
    ensures c in Gather(selected, q) <==>
            exists e, i :: e in selected && Relevant(e.doc, q) && 0 <= i < |e.chunks| && c == CandidateOf(e, i)
  {
    if selected != [] {
      var init, last := selected[..|selected| - 1], selected[|selected| - 1];
      assert selected == init + [last];
      GatherHolds(init, q, c);
      if c in CandidatesFrom(last) {
        var i :| 0 <= i < |last.chunks| && CandidatesFrom(last)[i] == c;
        assert last in selected && c == CandidateOf(last, i);
      }
      if e, i :| e in selected && Relevant(e.doc, q) && 0 <= i < |e.chunks| && c == CandidateOf(e, i) {
        if e == last {
          assert CandidatesFrom(last)[i] == c;
        } else {
          assert e in init;
        }
      }
    }
  }

  lemma CandidatesHold(entries: seq<Entry>, q: Query, c: Candidate)
    ensures c in Candidates(entries, q) <==>
            exists e, i ::
                e in Selected(entries, q.at) && Relevant(e.doc, q) && 0 <= i < |e.chunks| && c == CandidateOf(e, i)
  {
    Sorting.SortPermutes(Gather(Selected(entries, q.at), q), Earlier(q));
    GatherHolds(Selected(entries, q.at), q, c);
  }

  lemma UnretiredReads(o: Entry, e: Entry, q: Query, i: nat)
    requires DisclosureLaws.Unretired(o) == DisclosureLaws.Unretired(e) && i < |e.chunks|
    ensures i < |o.chunks| && CandidateOf(o, i) == CandidateOf(e, i) && (Relevant(o.doc, q) <==> Relevant(e.doc, q))
  {
    var x, y := DisclosureLaws.Unretired(o), DisclosureLaws.Unretired(e);
    assert x.chunks == o.chunks && y.chunks == e.chunks;
    assert x.doc == o.doc.(status := Current) && y.doc == e.doc.(status := Current);
  }

  // ---------------------------------------------------------------- no lookahead

  ghost predicate Decisive(v: Verdict) { v.outcome in {Conflicting, SupportedBefore} }

  /** The same legitimate-event score; and the same outcome and risk if either is decisive. */
  ghost predicate SameHindsight(v: Verdict, w: Verdict) {
    && v.legitimate == w.legitimate
    && (Decisive(v) || Decisive(w) ==> v.outcome == w.outcome && v.risk == w.risk && v.retrospective == w.retrospective)
  }

  lemma {:induction false} SameBeforeSameVerdict(
      cs: seq<Candidate>, ds: seq<Candidate>, judge: Judge, threshold: real, at: int, c1: bool, c2: bool)
    requires forall c: Candidate :: c.available <= at ==> (c in cs <==> c in ds)
    ensures SameHindsight(Verify(cs, judge, threshold, at, c1), Verify(ds, judge, threshold, at, c2))
  {
    var b1, b2 := Before(Matching(cs, judge, threshold), at), Before(Matching(ds, judge, threshold), at);
    assert forall c :: c in b1 <==> c in b2;
    var support1, support2 := Support(b1, judge), Support(b2, judge);
    SameEmptiness(Against(b1, judge), Against(b2, judge));
    SameEmptiness(support1, support2);
    if support1 != [] {
      assert Highest(support1) == Highest(support2);
    }
  }

  lemma SameEmptiness(xs: seq<Candidate>, ys: seq<Candidate>)
    requires forall c :: c in xs <==> c in ys
    ensures xs == [] <==> ys == []
  {
    assert xs != [] ==> xs[0] in ys;
    assert ys != [] ==> ys[0] in xs;
  }
}
