/** What can and cannot change a verdict in hindsight, with the exact conditions. */
module Lookahead {
  import opened Wrappers
  import opened Disclosures
  import opened DisclosureLaws
  import opened ClaimVerifier

  // ---------------------------------------------------------------- the disclosures available by the alert

  predicate WasAvailable(e: Entry, at: int) { AvailableAt(e.doc) <= at }

  /** The store as it would be had it only ever held what was available by the time. */
  function KnownOf(entries: seq<Entry>, at: int): seq<Entry> {
    if entries == [] then []
    else
      var e := entries[|entries| - 1];
      KnownOf(entries[..|entries| - 1], at) + (if WasAvailable(e, at) then [e] else [])
  }

  lemma {:induction false} KnownOfHolds(entries: seq<Entry>, at: int)
    ensures forall e :: e in KnownOf(entries, at) <==> e in entries && WasAvailable(e, at)
  {
    if entries != [] {
      KnownOfHolds(entries[..|entries| - 1], at);
      assert entries == entries[..|entries| - 1] + [entries[|entries| - 1]];
    }
  }

  lemma KnownOneMore(entries: seq<Entry>, e: Entry, at: int)
    ensures KnownOf(entries + [e], at)
            == if WasAvailable(e, at) then KnownOf(entries, at) + [e] else KnownOf(entries, at)
  {
    assert (entries + [e])[..|entries|] == entries;
  }

  lemma EligibleOneMore(entries: seq<Entry>, e: Entry, at: int)
    ensures Eligible(entries + [e], at)
            == if SelectedAt(e.doc) <= at then Eligible(entries, at) + [e] else Eligible(entries, at)
  {
    assert (entries + [e])[..|entries|] == entries;
  }

  lemma {:induction false} KnownOfGroup(entries: seq<Entry>, g: Group, at: int)
    ensures Of(KnownOf(entries, at), g) == KnownOf(Of(entries, g), at)
  {
    if entries != [] {
      var init, e := entries[..|entries| - 1], entries[|entries| - 1];
      assert entries == init + [e];
      KnownOfGroup(init, g, at);
      KnownOneMore(init, e, at);
      AddedTo(init, e, g);
      AddedTo(KnownOf(init, at), e, g);
      KnownOneMore(Of(init, g), e, at);
    }
  }

  lemma {:induction false} KnownOfEligible(entries: seq<Entry>, at: int)
    ensures Eligible(KnownOf(entries, at), at) == KnownOf(Eligible(entries, at), at)
  {
    if entries != [] {
      var init, e := entries[..|entries| - 1], entries[|entries| - 1];
      assert entries == init + [e];
      KnownOfEligible(init, at);
      KnownOneMore(init, e, at);
      EligibleOneMore(init, e, at);
      EligibleOneMore(KnownOf(init, at), e, at);
      KnownOneMore(Eligible(init, at), e, at);
    }
  }

  lemma {:induction false} BestSurvives(entries: seq<Entry>, at: int)
    requires Best(entries).Some? && WasAvailable(Best(entries).value, at)
    ensures Best(KnownOf(entries, at)) == Best(entries)
  {
    var init, e := entries[..|entries| - 1], entries[|entries| - 1];
    assert entries == init + [e];
    KnownOneMore(init, e, at);
    BestOneMore(init, e);
    BestOneMore(KnownOf(init, at), e);
    NoHigherKnown(init, at);
    hide Best, KnownOf, WasAvailable;
    if Best(init).Some? && e.doc.version <= Best(init).value.doc.version {
      BestSurvives(init, at);
    }
  }

  lemma NoHigherKnown(entries: seq<Entry>, at: int)
    ensures var all, known := Best(entries), Best(KnownOf(entries, at));
            known.Some? ==> all.Some? && known.value.doc.version <= all.value.doc.version
  {
    KnownOfHolds(entries, at);
    BestIsHighest(entries);
    BestIsHighest(KnownOf(entries, at));
  }

  lemma BestOneMore(entries: seq<Entry>, e: Entry)
    ensures Best(entries + [e])
            == if Best(entries).Some? && e.doc.version <= Best(entries).value.doc.version then Best(entries)
               else Some(e)
  {
    assert (entries + [e])[..|entries|] == entries;
  }

  /** An available best of all eligible versions is the best of those available too. */
  lemma BestWasKnown(entries: seq<Entry>, g: Group, at: int)
    requires BestEligible(entries, g, at).Some? && WasAvailable(BestEligible(entries, g, at).value, at)
    ensures BestEligible(KnownOf(entries, at), g, at) == BestEligible(entries, g, at)
  {
    KnownOfGroup(entries, g, at);
    KnownOfEligible(Of(entries, g), at);
    BestSurvives(Eligible(Of(entries, g), at), at);
  }

  // ---------------------------------------------------------------- documents that hide what was available

  /** A version not yet available is chosen over one that was, and that has something to say. */
  ghost predicate HidesIn(entries: seq<Entry>, at: int, g: Group) {
    var chosen, known := BestEligible(entries, g, at), BestEligible(KnownOf(entries, at), g, at);
    chosen.Some? && !WasAvailable(chosen.value, at) && known.Some? && known.value.chunks != []
  }

  ghost predicate Hides(entries: seq<Entry>, at: int) {
    exists g :: HidesIn(entries, at, g)
  }

  /** Identities name documents, as the primary key of the relational store has it. */
  ghost predicate Identified(entries: seq<Entry>) {
    forall e, f :: e in entries && f in entries && e.doc.id == f.doc.id ==> e == f
  }

  /** Two stores offer the same candidates available by the time. */
  ghost predicate SameCandidates(left: seq<Entry>, right: seq<Entry>, at: int) {
    forall q: Query, c: Candidate :: q.at == at && c.available <= at ==>
        (c in Candidates(left, q) <==> c in Candidates(right, q))
  }

  /** Every claim, however judged, comes to the same in hindsight. */
  ghost predicate SameVerdicts(left: seq<Entry>, right: seq<Entry>, at: int) {
    forall q: Query, judge: Judge, threshold: real, c1: bool, c2: bool :: q.at == at ==>
      SameHindsight(Verify(Candidates(left, q), judge, threshold, at, c1),
                    Verify(Candidates(right, q), judge, threshold, at, c2))
  }

  lemma SameCandidatesSameVerdicts(left: seq<Entry>, right: seq<Entry>, at: int)
    requires SameCandidates(left, right, at)
    ensures SameVerdicts(left, right, at)
  {
    forall q: Query, judge: Judge, threshold: real, c1: bool, c2: bool | q.at == at
      ensures SameHindsight(Verify(Candidates(left, q), judge, threshold, at, c1),
                            Verify(Candidates(right, q), judge, threshold, at, c2))
    {
      SameBeforeSameVerdict(Candidates(left, q), Candidates(right, q), judge, threshold, at, c1, c2);
    }
  }

  /** A candidate available by the time comes from a document that was. */
  lemma CandidateSource(entries: seq<Entry>, q: Query, c: Candidate) returns (e: Entry, i: nat)
    requires c in Candidates(entries, q)
    ensures e in Selected(entries, q.at) && Relevant(e.doc, q) && i < |e.chunks| && c == CandidateOf(e, i)
    ensures e in entries && c.available == AvailableAt(e.doc)
  {
    CandidatesHold(entries, q, c);
    e, i :| e in Selected(entries, q.at) && Relevant(e.doc, q) && 0 <= i < |e.chunks| && c == CandidateOf(e, i);
    SelectedIff(entries, q.at, e);
  }

  lemma SelectedOffers(entries: seq<Entry>, q: Query, e: Entry, i: nat)
    requires e in Selected(entries, q.at) && Relevant(e.doc, q) && i < |e.chunks|
    ensures CandidateOf(e, i) in Candidates(entries, q)
  {
    CandidatesHold(entries, q, CandidateOf(e, i));
  }

  /** What the store offers of the time, it would offer had it held nothing else. */
  lemma OffersAreKnown(entries: seq<Entry>, q: Query, c: Candidate)
    requires c in Candidates(entries, q) && c.available <= q.at
    ensures c in Candidates(KnownOf(entries, q.at), q)
  {
    var e, i := CandidateSource(entries, q, c);
    var known := KnownOf(entries, q.at);
    KnownOfHolds(entries, q.at);
    SelectedIff(entries, q.at, e);
    SelectedIff(known, q.at, e);
    if SelectedAt(e.doc) <= q.at {
      BestWasKnown(entries, GroupOf(e.doc), q.at);
    }
    SelectedOffers(known, q, e, i);
  }

  /** And conversely where nothing is hidden. */
  lemma KnownAreOffered(entries: seq<Entry>, q: Query, c: Candidate)
    requires !Hides(entries, q.at) && c in Candidates(KnownOf(entries, q.at), q)
    ensures c in Candidates(entries, q)
  {
    var known := KnownOf(entries, q.at);
    var e, i := CandidateSource(known, q, c);
    var g := GroupOf(e.doc);
    KnownOfHolds(entries, q.at);
    SelectedIff(entries, q.at, e);
    SelectedIff(known, q.at, e);
    if SelectedAt(e.doc) <= q.at {
      BestEligibleIs(entries, g, q.at);
      assert !HidesIn(entries, q.at, g);
      BestWasKnown(entries, g, q.at);
    }
    SelectedOffers(entries, q, e, i);
  }

  /** A query for which the document is relevant. */
  function Seeking(e: Entry, at: int): Query {
    Query(e.doc.asset.GetOr(""), at, Larger(0, at - e.doc.published), Larger(0, e.doc.published - at),
          (id: Id, i: nat) => "")
  }

  /** In an identified store the first chunk of a document is a candidate exactly when the document is selected. */
  lemma OfferedIffSelected(entries: seq<Entry>, at: int, e: Entry)
    requires e in entries && Identified(entries) && e.chunks != []
    ensures CandidateOf(e, 0) in Candidates(entries, Seeking(e, at)) <==> e in Selected(entries, at)
  {
    var q, c := Seeking(e, at), CandidateOf(e, 0);
    if c in Candidates(entries, q) {
      var f, i := CandidateSource(entries, q, c);
      assert f.doc.id == c.id == e.doc.id;
    }
    if e in Selected(entries, at) {
      SelectedOffers(entries, q, e, 0);
    }
  }

  /** Opposed by one candidate alone, a claim tells whether that candidate is there. */
  function Against1(c: Candidate): Judge {
    Judge((x: Candidate) => 0.0, (x: Candidate) => x == c)
  }

  lemma ConflictTells(cs: seq<Candidate>, c: Candidate, at: int, complete: bool)
    requires c.available <= at
    ensures Verify(cs, Against1(c), 0.0, at, complete).outcome == Conflicting <==> c in cs
  {
    VerdictIff(cs, Against1(c), 0.0, at, complete);
    assert forall x: Candidate :: Matches(Against1(c), 0.0, x);
    if c in cs {
      assert Opposed(cs, Against1(c), 0.0, at);
    }
  }

  /** Stores of which one offers a candidate of the time and the other does not, judge some claim differently. */
  lemma DifferentVerdicts(left: seq<Entry>, right: seq<Entry>, q: Query, c: Candidate)
    requires c.available <= q.at && (c in Candidates(left, q) <==> c !in Candidates(right, q))
    ensures !SameVerdicts(left, right, q.at)
  {
    ConflictTells(Candidates(left, q), c, q.at, true);
    ConflictTells(Candidates(right, q), c, q.at, true);
    assert !SameHindsight(Verify(Candidates(left, q), Against1(c), 0.0, q.at, true),
                          Verify(Candidates(right, q), Against1(c), 0.0, q.at, true));
  }

  /** What is hidden makes a difference. */
  lemma HidingTells(entries: seq<Entry>, at: int)
    requires Identified(entries) && Hides(entries, at)
    ensures !SameVerdicts(entries, KnownOf(entries, at), at)
  {
    var g :| HidesIn(entries, at, g);
    var known := KnownOf(entries, at);
    var e := BestEligible(known, g, at).value;
    KnownOfHolds(entries, at);
    BestEligibleIs(known, g, at);
    SelectedIff(entries, at, e);
    SelectedIff(known, at, e);
    OfferedIffSelected(entries, at, e);
    OfferedIffSelected(known, at, e);
    DifferentVerdicts(entries, known, Seeking(e, at), CandidateOf(e, 0));
  }

  /**
   * One store, exactly: its candidates available by the time are those of the documents available by then,
   * and its verdicts are theirs in hindsight, just when no document that was not available hides one that was.
   * Only for the converse need identities name documents.
   */
  lemma {:induction false} KnownAloneCountsIff(entries: seq<Entry>, at: int)
    ensures !Hides(entries, at) ==>
            SameCandidates(entries, KnownOf(entries, at), at) && SameVerdicts(entries, KnownOf(entries, at), at)
    ensures Identified(entries) ==>
              && (SameCandidates(entries, KnownOf(entries, at), at) <==> !Hides(entries, at))
              && (SameVerdicts(entries, KnownOf(entries, at), at) <==> !Hides(entries, at))
  {
    var known := KnownOf(entries, at);
    if !Hides(entries, at) {
      forall q: Query, c: Candidate | q.at == at && c.available <= at
        ensures c in Candidates(entries, q) <==> c in Candidates(known, q)
      {
        if c in Candidates(entries, q) {
          OffersAreKnown(entries, q, c);
        }
        if c in Candidates(known, q) {
          KnownAreOffered(entries, q, c);
        }
      }
      SameCandidatesSameVerdicts(entries, known, at);
    } else if Identified(entries) {
      HidingTells(entries, at);
      if SameCandidates(entries, known, at) {
        SameCandidatesSameVerdicts(entries, known, at);
      }
    }
  }

  // ---------------------------------------------------------------- documents that tie

  /** Of its document's versions that were available and eligible, none is higher. */
  ghost predicate Top(entries: seq<Entry>, at: int, e: Entry) {
    && e in entries && WasAvailable(e, at) && SelectedAt(e.doc) <= at
    && forall o ::
       o in entries && WasAvailable(o, at) && SelectedAt(o.doc) <= at && GroupOf(o.doc) == GroupOf(e.doc) ==>
         o.doc.version <= e.doc.version
  }

  ghost predicate Ties(entries: seq<Entry>, at: int, x: Entry, y: Entry) {
    Top(entries, at, x) && Top(entries, at, y) && GroupOf(x.doc) == GroupOf(y.doc) && Unretired(x) != Unretired(y)
    && x.chunks != []
  }

  /** Two different documents share the highest available version, so that their order decides. */
  ghost predicate Ambiguous(entries: seq<Entry>, at: int) {
    exists x, y :: Ties(entries, at, x, y)
  }

  lemma UnretiredKeeps(e: Entry)
    ensures var x := Unretired(e);
            && x.doc.version == e.doc.version && GroupOf(x.doc) == GroupOf(e.doc)
            && SelectedAt(x.doc) == SelectedAt(e.doc)
            && AvailableAt(x.doc) == AvailableAt(e.doc) && x.chunks == e.chunks
  {
  }

  lemma AgreeingTop(left: seq<Entry>, right: seq<Entry>, at: int, e: Entry) returns (o: Entry)
    requires Agree(left, right, at) && Top(left, at, e)
    ensures Top(right, at, o) && Unretired(o) == Unretired(e) && o.chunks == e.chunks
            && GroupOf(o.doc) == GroupOf(e.doc)
  {
    UnretiredKeeps(e);
    assert Known(left, at, Unretired(e));
    o :| o in right && AvailableAt(o.doc) <= at && Unretired(o) == Unretired(e);
    UnretiredKeeps(o);
    forall p | p in right && WasAvailable(p, at) && SelectedAt(p.doc) <= at && GroupOf(p.doc) == GroupOf(o.doc)
      ensures p.doc.version <= o.doc.version
    {
      UnretiredKeeps(p);
      assert Known(right, at, Unretired(p));
      var p1 :| p1 in left && AvailableAt(p1.doc) <= at && Unretired(p1) == Unretired(p);
      UnretiredKeeps(p1);
    }
  }

  lemma AgreeingAmbiguity(left: seq<Entry>, right: seq<Entry>, at: int)
    requires Agree(left, right, at) && Ambiguous(right, at)
    ensures Ambiguous(left, at)
  {
    var x, y :| Ties(right, at, x, y);
    assert Agree(right, left, at);
    var x1 := AgreeingTop(right, left, at, x);
    var y1 := AgreeingTop(right, left, at, y);
    assert Ties(left, at, x1, y1);
  }

  lemma ChosenIsTop(entries: seq<Entry>, at: int, e: Entry)
    requires BestEligible(entries, GroupOf(e.doc), at) == Some(e) && WasAvailable(e, at)
    ensures Top(entries, at, e)
  {
    BestEligibleIs(entries, GroupOf(e.doc), at);
  }

  /** What one store offers of the time, an agreeing one does that neither hides nor is ambiguous. */
  lemma OffersCarry(left: seq<Entry>, right: seq<Entry>, q: Query, c: Candidate)
    requires Agree(left, right, q.at) && !Hides(right, q.at) && !Ambiguous(right, q.at)
    requires c in Candidates(left, q) && c.available <= q.at
    ensures c in Candidates(right, q)
  {
    var e, i := CandidateSource(left, q, c);
    SelectedIff(left, q.at, e);
    UnretiredKeeps(e);
    var o: Entry;
    if SelectedAt(e.doc) > q.at {
      assert Known(left, q.at, Unretired(e));
      o :| o in right && AvailableAt(o.doc) <= q.at && Unretired(o) == Unretired(e);
      UnretiredKeeps(o);
    } else {
      ChosenIsTop(left, q.at, e);
      var f := AgreeingTop(left, right, q.at, e);
      o := OnlyTopIsChosen(right, q.at, f);
    }
    SelectedIff(right, q.at, o);
    UnretiredReads(o, e, q, i);
    SelectedOffers(right, q, o, i);
  }

  /** Where nothing hides or ties, a top document with something to say is the one chosen. */
  lemma OnlyTopIsChosen(entries: seq<Entry>, at: int, e: Entry) returns (o: Entry)
    requires !Hides(entries, at) && !Ambiguous(entries, at) && Top(entries, at, e) && e.chunks != []
    ensures o in entries && BestEligible(entries, GroupOf(o.doc), at) == Some(o) && Unretired(o) == Unretired(e)
  {
    var g, known := GroupOf(e.doc), KnownOf(entries, at);
    KnownOfHolds(entries, at);
    BestEligibleIs(known, g, at);
    BestEligibleIs(entries, g, at);
    o := BestEligible(known, g, at).value;
    assert Top(entries, at, o);
    assert !Ties(entries, at, e, o);
    UnretiredKeeps(o);
    UnretiredKeeps(e);
    assert !HidesIn(entries, at, g);
    BestWasKnown(entries, g, at);
  }

  /**
   * No lookahead: stores that agree on what was available by the alert, and hide nothing of it, give every
   * claim the same legitimate-event score and the same decisive outcomes, whatever else they hold.
   */
  lemma NoLookahead(left: seq<Entry>, right: seq<Entry>, at: int)
    requires Agree(left, right, at) && !Hides(left, at) && !Hides(right, at) && !Ambiguous(left, at)
    ensures SameCandidates(left, right, at) && SameVerdicts(left, right, at)
  {
    assert Agree(right, left, at);
    if Ambiguous(right, at) {
      AgreeingAmbiguity(left, right, at);
    }
    forall q: Query, c: Candidate | q.at == at && c.available <= at
      ensures c in Candidates(left, q) <==> c in Candidates(right, q)
    {
      if c in Candidates(left, q) {
        OffersCarry(left, right, q, c);
      }
      if c in Candidates(right, q) {
        OffersCarry(right, left, q, c);
      }
    }
    SameCandidatesSameVerdicts(left, right, at);
  }

  // ---------------------------------------------------------------- exactly which stores are free of lookahead

  /** Every store that agrees with this one on what was available, and hides nothing of it, gives the same verdicts. */
  ghost predicate FreeOfLookahead(entries: seq<Entry>, at: int) {
    forall other :: Agree(entries, other, at) && !Hides(other, at) ==> SameVerdicts(entries, other, at)
  }

  lemma KnownOfAgrees(entries: seq<Entry>, at: int)
    ensures Agree(entries, KnownOf(entries, at), at) && !Hides(KnownOf(entries, at), at)
  {
    var known := KnownOf(entries, at);
    KnownOfHolds(entries, at);
    forall x ensures Known(entries, at, x) <==> Known(known, at, x) {
      if e :| e in entries && AvailableAt(e.doc) <= at && Unretired(e) == x {
        assert e in known;
      }
    }
    AllAvailableHidesNothing(known, at);
  }

  /** A store without documents that are eligible and yet were not available hides nothing. */
  lemma AllAvailableHidesNothing(entries: seq<Entry>, at: int)
    requires forall e :: e in entries && SelectedAt(e.doc) <= at ==> WasAvailable(e, at)
    ensures !Hides(entries, at)
  {
    forall g ensures !HidesIn(entries, at, g) {
      BestEligibleIs(entries, g, at);
    }
  }

  /** A dictionary: no key twice. */
  ghost predicate Keyed(entries: seq<Entry>) {
    forall i, j :: 0 <= i < j < |entries| ==> entries[i].key != entries[j].key
  }

  function Others(entries: seq<Entry>, e: Entry): seq<Entry> {
    if entries == [] then []
    else
      var last := entries[|entries| - 1];
      Others(entries[..|entries| - 1], e) + (if last == e then [] else [last])
  }

  lemma {:induction false} OthersHold(entries: seq<Entry>, e: Entry)
    ensures forall x :: x in Others(entries, e) <==> x in entries && x != e
    ensures Keyed(entries) ==> Keyed(Others(entries, e))
  {
    if entries != [] {
      var init, last := entries[..|entries| - 1], entries[|entries| - 1];
      assert entries == init + [last];
      OthersHold(init, e);
      if Keyed(entries) {
        LastKey(entries);
      }
    }
  }

  lemma LastKey(entries: seq<Entry>)
    requires entries != [] && Keyed(entries)
    ensures var init, last := entries[..|entries| - 1], entries[|entries| - 1];
            Keyed(init) && forall x :: x in init ==> x.key != last.key
  {
  }

  lemma {:induction false} KnownOfKeyed(entries: seq<Entry>, at: int)
    requires Keyed(entries)
    ensures Keyed(KnownOf(entries, at))
  {
    if entries != [] {
      var init := entries[..|entries| - 1];
      LastKey(entries);
      KnownOfKeyed(init, at);
      KnownOfHolds(init, at);
    }
  }

  /** The known documents, with one of them told first. */
  function Leading(e: Entry, entries: seq<Entry>, at: int): seq<Entry> { [e] + Others(KnownOf(entries, at), e) }

  lemma LeadingAgrees(e: Entry, entries: seq<Entry>, at: int)
    requires e in entries && WasAvailable(e, at)
    ensures Agree(entries, Leading(e, entries, at), at) && !Hides(Leading(e, entries, at), at)
    ensures forall x :: x in Leading(e, entries, at) <==> x in entries && WasAvailable(x, at)
    ensures Keyed(entries) ==> Keyed(Leading(e, entries, at))
  {
    var known, led := KnownOf(entries, at), Leading(e, entries, at);
    KnownOfHolds(entries, at);
    OthersHold(known, e);
    forall x ensures Known(entries, at, x) <==> Known(led, at, x) {
      if f :| f in entries && AvailableAt(f.doc) <= at && Unretired(f) == x {
        assert f in led;
      }
    }
    AllAvailableHidesNothing(led, at);
    if Keyed(entries) {
      KnownOfKeyed(entries, at);
      KeysApart(known, e);
    }
  }

  lemma KeysApart(entries: seq<Entry>, e: Entry)
    requires Keyed(entries) && e in entries
    ensures Keyed([e] + Others(entries, e))
  {
    OthersHold(entries, e);
    var k :| 0 <= k < |entries| && entries[k] == e;
    forall x | x in Others(entries, e) ensures x.key != e.key {
      var j :| 0 <= j < |entries| && entries[j] == x;
    }
  }

  lemma {:induction false} LeadingOf(e: Entry, entries: seq<Entry>, g: Group)
    requires GroupOf(e.doc) == g
    ensures Of([e] + entries, g) == [e] + Of(entries, g)
  {
    if entries == [] {
      AddedTo([], e, g);
      assert [] + [e] == [e] + [];
    } else {
      var init, last := entries[..|entries| - 1], entries[|entries| - 1];
      LeadingOf(e, init, g);
      assert [e] + entries == ([e] + init) + [last] && entries == init + [last];
      AddedTo([e] + init, last, g);
      AddedTo(init, last, g);
    }
  }

  lemma {:induction false} LeadingEligible(e: Entry, entries: seq<Entry>, at: int)
    requires SelectedAt(e.doc) <= at
    ensures Eligible([e] + entries, at) == [e] + Eligible(entries, at)
  {
    if entries == [] {
      EligibleOneMore([], e, at);
      assert [] + [e] == [e] + [];
    } else {
      var init, last := entries[..|entries| - 1], entries[|entries| - 1];
      LeadingEligible(e, init, at);
      assert [e] + entries == ([e] + init) + [last] && entries == init + [last];
      EligibleOneMore([e] + init, last, at);
      EligibleOneMore(init, last, at);
    }
  }

  lemma {:induction false} FirstIsBest(e: Entry, entries: seq<Entry>)
    requires forall x :: x in entries ==> x.doc.version <= e.doc.version
    ensures Best([e] + entries) == Some(e)
  {
    if entries == [] {
      BestOneMore([], e);
      assert [] + [e] == [e] + [];
    } else {
      var init, last := entries[..|entries| - 1], entries[|entries| - 1];
      assert entries == init + [last];
      FirstIsBest(e, init);
      assert [e] + entries == ([e] + init) + [last];
      BestOneMore([e] + init, last);
    }
  }

  /** A top document that comes first is chosen. */
  lemma LeaderIsChosen(e: Entry, entries: seq<Entry>, at: int)
    requires Top(entries, at, e)
    ensures BestEligible(Leading(e, entries, at), GroupOf(e.doc), at) == Some(e)
  {
    var g, known := GroupOf(e.doc), KnownOf(entries, at);
    var others := Others(known, e);
    KnownOfHolds(entries, at);
    OthersHold(known, e);
    LeadingOf(e, others, g);
    LeadingEligible(e, Of(others, g), at);
    OfHolds(others, g);
    SplitByTime(Of(others, g), at);
    FirstIsBest(e, Eligible(Of(others, g), at));
  }

  lemma OfferedByLeader(x: Entry, y: Entry, entries: seq<Entry>, at: int)
    requires Identified(entries) && Ties(entries, at, x, y)
    ensures CandidateOf(x, 0) in Candidates(Leading(x, entries, at), Seeking(x, at))
    ensures CandidateOf(x, 0) !in Candidates(Leading(y, entries, at), Seeking(x, at))
  {
    LeadingAgrees(x, entries, at);
    LeadingAgrees(y, entries, at);
    LeaderIsChosen(x, entries, at);
    LeaderIsChosen(y, entries, at);
    var first, second := Leading(x, entries, at), Leading(y, entries, at);
    SelectedIff(first, at, x);
    SelectedIff(second, at, x);
    OfferedIffSelected(first, at, x);
    OfferedIffSelected(second, at, x);
  }

  /** And the same of dictionaries only. */
  ghost predicate FreeAmongDictionaries(entries: seq<Entry>, at: int) {
    forall other :: Keyed(other) && Agree(entries, other, at) && !Hides(other, at) ==> SameVerdicts(entries, other, at)
  }

  /** Of two orders of tied documents, not both can agree with the store. */
  lemma TiesTell(entries: seq<Entry>, at: int)
    requires Identified(entries) && Ambiguous(entries, at)
    ensures !FreeOfLookahead(entries, at) && (Keyed(entries) ==> !FreeAmongDictionaries(entries, at))
  {
    var x, y :| Ties(entries, at, x, y);
    OfferedByLeader(x, y, entries, at);
    LeadingAgrees(x, entries, at);
    LeadingAgrees(y, entries, at);
    var q, c := Seeking(x, at), CandidateOf(x, 0);
    if c in Candidates(entries, q) {
      DifferentVerdicts(entries, Leading(y, entries, at), q, c);
    } else {
      DifferentVerdicts(entries, Leading(x, entries, at), q, c);
    }
  }

  /**
   * The stores free of lookahead are, where identities name documents, exactly those that hide nothing that
   * was available and in which no two different documents tie for the highest available version. For a
   * dictionary it is enough to look at other dictionaries.
   */
  lemma {:induction false} NoLookaheadIff(entries: seq<Entry>, at: int)
    ensures !Hides(entries, at) && !Ambiguous(entries, at) ==> FreeOfLookahead(entries, at)
    ensures Identified(entries) ==> (FreeOfLookahead(entries, at) <==> !Hides(entries, at) && !Ambiguous(entries, at))
    ensures Identified(entries) && Keyed(entries) ==>
              (FreeAmongDictionaries(entries, at) <==> !Hides(entries, at) && !Ambiguous(entries, at))
  {
    if !Hides(entries, at) && !Ambiguous(entries, at) {
      forall other | Agree(entries, other, at) && !Hides(other, at) ensures SameVerdicts(entries, other, at) {
        NoLookahead(entries, other, at);
      }
    } else if Identified(entries) {
      if Hides(entries, at) {
        HidingTells(entries, at);
        KnownOfAgrees(entries, at);
        if Keyed(entries) {
          KnownOfKeyed(entries, at);
        }
      } else {
        TiesTell(entries, at);
      }
    }
  }

  // ---------------------------------------------------------------- stamped documents

  /** Versioned ingestion prepares documents that are stamped already. */
  lemma PreparedIsStamped(a: Arrival, version: int, supersedes: Option<Id>)
    ensures Stamped(Prepared(a, version, supersedes)) == Prepared(a, version, supersedes)
  {
  }

  /** A store of documents stamped on ingestion hides nothing at any time, however they are versioned. */
  lemma StampedHidesNothing(entries: seq<Entry>, at: int)
    requires forall e :: e in entries ==> Stamped(e.doc) == e.doc
    ensures !Hides(entries, at)
  {
    forall e | e in entries && SelectedAt(e.doc) <= at ensures WasAvailable(e, at) {
      assert e.doc.available == Stamped(e.doc).available;
    }
    AllAvailableHidesNothing(entries, at);
  }
}
