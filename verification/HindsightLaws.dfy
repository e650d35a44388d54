/** No lookahead through the ingestion of disclosures and up to the summary of a narrative's claims. */
module HindsightLaws {
  import opened Wrappers
  import opened Disclosures
  import opened DisclosureLaws
  import opened ClaimVerifier
  import opened Lookahead
  import Sorting

  // ---------------------------------------------------------------- stores built by live ingestion

  /** A disclosure as some live history had made it known. */
  ghost predicate Told(known: seq<Arrival>, limit: int, x: Entry) {
    var changes := Changes(known, GroupOf(x.doc));
    exists i :: 0 <= i < |changes| && x == Unretired(Version(changes, i, limit))
  }

  ghost predicate Continues(known: seq<Arrival>, later: seq<Arrival>, at: int) {
    && Live(known + later)
    && (forall a :: a in known ==> a.now <= at)
    && (forall a :: a in later ==> a.now > at)
  }

  lemma SomeVersion(changes: seq<Arrival>, n: nat, i: nat, limit: int)
    requires i < n <= |changes|
    ensures Unretired(Version(changes, i, limit)) == Unretired(Version(changes[..n], i, limit))
  {
  }

  lemma KnownDivides(known: seq<Arrival>, later: seq<Arrival>, at: int)
    requires Continues(known, later, at)
    ensures (known + later)[..|known|] == known && Divides(known + later, |known|, at)
  {
    var all := known + later;
    forall i | 0 <= i < |all| ensures all[i].now <= at <==> i < |known| {
      assert if i < |known| then all[i] in known else all[i] in later;
    }
  }

  /** A version stored from a live arrival became available when it arrived. */
  lemma VersionIsLive(changes: seq<Arrival>, i: nat, limit: int)
    requires i < |changes| && !changes[i].keep && ObservedAt(changes[i].doc) <= changes[i].now
    ensures var e := Version(changes, i, limit);
            && AvailableAt(e.doc) == changes[i].now && e.doc.available.Some?
            && GroupOf(e.doc) == GroupOf(changes[i].doc)
  {
    VersionFacts(changes, i, limit);
  }

  lemma StoredVersions(known: seq<Arrival>, later: seq<Arrival>, at: int, limit: int, g: Group)
    requires Continues(known, later, at)
    ensures var vs, some := Of(Run(known + later, limit), g), Changes(known, g);
            && |some| <= |vs|
            && (forall i :: 0 <= i < |vs| ==> (AvailableAt(vs[i].doc) <= at <==> i < |some|))
            && (forall i :: 0 <= i < |some| ==> Unretired(vs[i]) == Unretired(Version(some, i, limit)))
            && (forall i :: 0 <= i < |vs| ==> GroupOf(vs[i].doc) == g && vs[i].doc.available.Some?)
  {
    hide Run, Changes, Version, Of, GroupOf, AvailableAt, Unretired;
    var all := known + later;
    KnownDivides(known, later, at);
    ChangesBy(all, |known|, at, g);
    RunHoldsChains(all, limit);
    ChangesChange(all, g);
    var changes, n := Changes(all, g), |Changes(known, g)|;
    assert Of(Run(all, limit), g) == Chain(changes, limit);
    forall i | 0 <= i < |changes|
      ensures var e := Version(changes, i, limit);
              (AvailableAt(e.doc) <= at <==> i < n) && GroupOf(e.doc) == g && e.doc.available.Some?
    {
      assert changes[i] in all;
      VersionIsLive(changes, i, limit);
    }
    forall i | 0 <= i < n
      ensures Unretired(Version(changes, i, limit)) == Unretired(Version(Changes(known, g), i, limit))
    {
      SomeVersion(changes, n, i, limit);
    }
  }

  /** What such a store knows by the time is what it had been told by then. */
  lemma KnownIsTold(known: seq<Arrival>, later: seq<Arrival>, at: int, limit: int, x: Entry)
    requires Continues(known, later, at)
    ensures Known(Run(known + later, limit), at, x) <==> Told(known, limit, x)
  {
    hide Run, Of, Version;
    var entries := Run(known + later, limit);
    var g := GroupOf(x.doc);
    OfHolds(entries, g);
    StoredVersions(known, later, at, limit, g);
    if Known(entries, at, x) {
      var e :| e in entries && AvailableAt(e.doc) <= at && Unretired(e) == x;
      assert GroupOf(e.doc) == g;
      var i :| 0 <= i < |Of(entries, g)| && Of(entries, g)[i] == e;
      assert x == Unretired(Version(Changes(known, g), i, limit));
    }
    if Told(known, limit, x) {
      var i :| 0 <= i < |Changes(known, g)| && x == Unretired(Version(Changes(known, g), i, limit));
      var e := Of(entries, g)[i];
      assert e in entries && AvailableAt(e.doc) <= at && Unretired(e) == x;
    }
  }

  /** Live stores hide nothing and have one document for each version, so they are free of lookahead. */
  lemma {:induction false} LiveStoresAreSound(known: seq<Arrival>, later: seq<Arrival>, at: int, limit: int)
    requires Continues(known, later, at)
    ensures !Hides(Run(known + later, limit), at) && !Ambiguous(Run(known + later, limit), at)
    ensures FreeOfLookahead(Run(known + later, limit), at)
  {
    var entries := Run(known + later, limit);
    forall e | e in entries ensures e.doc.available.Some? {
      OfHolds(entries, GroupOf(e.doc));
      StoredVersions(known, later, at, limit, GroupOf(e.doc));
    }
    AllAvailableHidesNothing(entries, at);
    forall x, y ensures !Ties(entries, at, x, y) {
      if Top(entries, at, x) && Top(entries, at, y) && GroupOf(x.doc) == GroupOf(y.doc) {
        OneTopPerGroup(known, later, at, limit, x, y);
      }
    }
    NoLookaheadIff(entries, at);
  }

  lemma OneTopPerGroup(known: seq<Arrival>, later: seq<Arrival>, at: int, limit: int, x: Entry, y: Entry)
    requires Continues(known, later, at)
    requires var entries := Run(known + later, limit);
             Top(entries, at, x) && Top(entries, at, y) && GroupOf(x.doc) == GroupOf(y.doc)
    ensures Unretired(x) == Unretired(y)
  {
    UnretiredKeeps(x);
    UnretiredKeeps(y);
    hide Run;
    KnownIsTold(known, later, at, limit, Unretired(x));
    KnownIsTold(known, later, at, limit, Unretired(y));
    OneToldPerVersion(known, limit, Unretired(x), Unretired(y));
  }

  lemma ToldByVersion(known: seq<Arrival>, limit: int, x: Entry)
    requires Told(known, limit, x)
    ensures var changes, i := Changes(known, GroupOf(x.doc)), x.doc.version - 1;
            0 <= i < |changes| && x == Unretired(Version(changes, i, limit))
  {
    var changes := Changes(known, GroupOf(x.doc));
    var i :| 0 <= i < |changes| && x == Unretired(Version(changes, i, limit));
    hide Version;
    VersionFacts(changes, i, limit);
    UnretiredFacts(Version(changes, i, limit));
  }

  lemma UnretiredFacts(e: Entry)
    ensures Unretired(e).doc.version == e.doc.version && GroupOf(Unretired(e).doc) == GroupOf(e.doc)
  {
  }

  lemma OneToldPerVersion(known: seq<Arrival>, limit: int, x: Entry, y: Entry)
    requires Told(known, limit, x) && Told(known, limit, y)
    requires GroupOf(x.doc) == GroupOf(y.doc) && x.doc.version == y.doc.version
    ensures x == y
  {
    ToldByVersion(known, limit, x);
    ToldByVersion(known, limit, y);
  }

  /** Whatever disclosures arrive after the alert, the verdict on a claim is the same in hindsight. */
  lemma {:induction false} LaterArrivalsChangeNothing(
      known: seq<Arrival>, later: seq<Arrival>, instead: seq<Arrival>, limit: int,
      q: Query, judge: Judge, threshold: real, c1: bool, c2: bool)
    requires Continues(known, later, q.at) && Continues(known, instead, q.at)
    ensures SameHindsight(Verify(Candidates(Run(known + later, limit), q), judge, threshold, q.at, c1),
                          Verify(Candidates(Run(known + instead, limit), q), judge, threshold, q.at, c2))
  {
    var left, right := Run(known + later, limit), Run(known + instead, limit);
    LiveStoresAreSound(known, later, q.at, limit);
    LiveStoresAreSound(known, instead, q.at, limit);
    forall x ensures Known(left, q.at, x) <==> Known(right, q.at, x) {
      KnownIsTold(known, later, q.at, limit, x);
      KnownIsTold(known, instead, q.at, limit, x);
    }
    NoLookahead(left, right, q.at);
  }

  // ---------------------------------------------------------------- why documents must be stamped

  function Announcement(version: int, observed: int): Entry {
    Entry(Key("exchange", "notice", version),
          Document(Given(if version == 1 then "first" else "second"), "exchange", "notice", None, "", "",
                   0, 0, Some(observed),
                   None, None, version, None, 1.0, if version == 1 then "a" else "b", None, None, None, Current),
          ["text"])
  }

  const GENERIC := Query("asset", 10, 30, 7, (id: Id, i: nat) => "")
  const AGREEING := Judge((c: Candidate) => 1.0, (c: Candidate) => false)

  /**
   * Without a stamp, selection goes by retrieval and the candidate by observation. A document retrieved
   * before the alert and observed after it hides the earlier version that was available at the alert.
   */
  lemma {:induction false} UnstampedLookahead()
    ensures var first, second := Announcement(1, 0), Announcement(2, 20);
            && Agree([first], [first, second], 10) && Hides([first, second], 10)
            && Verify(Candidates([first], GENERIC), AGREEING, 0.34, 10, true).outcome == SupportedBefore
            && Verify(Candidates([first, second], GENERIC), AGREEING, 0.34, 10, true).outcome == SupportedAfter
  {
    var first, second := Announcement(1, 0), Announcement(2, 20);
    forall x ensures Known([first], 10, x) <==> Known([first, second], 10, x) {
      assert first in [first] && first in [first, second];
    }
    FirstAlone();
    SecondHidesFirst();
    SingleVerdict(CandidateOf(first, 0));
    SingleVerdict(CandidateOf(second, 0));
    NewerHides(first, second, 10);
  }

  lemma NewerHides(first: Entry, second: Entry, at: int)
    requires GroupOf(first.doc) == GroupOf(second.doc) && first.doc.version < second.doc.version && first.chunks != []
    requires SelectedAt(first.doc) <= at && SelectedAt(second.doc) <= at
    requires WasAvailable(first, at) && !WasAvailable(second, at)
    ensures Hides([first, second], at)
  {
    NewerIsChosen(first, second, at);
    FirstIsKnown(first, second, at);
    hide BestEligible, KnownOf;
    assert HidesIn([first, second], at, GroupOf(first.doc));
  }

  lemma FirstIsKnown(first: Entry, second: Entry, at: int)
    requires SelectedAt(first.doc) <= at && WasAvailable(first, at) && !WasAvailable(second, at)
    ensures BestEligible(KnownOf([first, second], at), GroupOf(first.doc), at) == Some(first)
  {
    assert [] + [first] == [first] && [first] + [second] == [first, second];
    KnownOneMore([], first, at);
    KnownOneMore([first], second, at);
    assert KnownOf([first, second], at) == [first];
    OneMoreEntry([], first);
    OneMoreSelected([], first, at);
    hide KnownOf, Of, Eligible;
  }

  lemma SingleVerdict(c: Candidate)
    requires c.reliability == 1.0
    ensures Verify([c], AGREEING, 0.34, 10, true).outcome
            == if c.available <= 10 then SupportedBefore else SupportedAfter
  {
    var matching := Matching([c], AGREEING, 0.34);
    var before := Before(matching, 10);
    assert c in matching && c in [c];
    NoneKept((x: Candidate) => AGREEING.conflicts(x), before);
    assert Against(before, AGREEING) == [];
    if c.available <= 10 {
      assert c in Support(before, AGREEING);
    } else {
      NoneKept((x: Candidate) => x.available <= 10, matching);
      assert c in Future(matching, 10) && before == [];
    }
  }

  lemma FirstAlone()
    ensures Candidates([Announcement(1, 0)], GENERIC) == [CandidateOf(Announcement(1, 0), 0)]
  {
    var first := Announcement(1, 0);
    OneMoreEntry([], first);
    OneMoreSelected([], first, 10);
    assert [] + [first] == [first];
    OnlySelected([first], first, GENERIC);
  }

  lemma {:induction false} SecondHidesFirst()
    ensures Candidates([Announcement(1, 0), Announcement(2, 20)], GENERIC) == [CandidateOf(Announcement(2, 20), 0)]
  {
    var first, second := Announcement(1, 0), Announcement(2, 20);
    assert GroupOf(first.doc) == GroupOf(second.doc);
    OnlyNewer(first, second, GENERIC);
  }

  lemma NewerIsChosen(first: Entry, second: Entry, at: int)
    requires GroupOf(first.doc) == GroupOf(second.doc) && first.doc.version < second.doc.version
    requires SelectedAt(first.doc) <= at && SelectedAt(second.doc) <= at
    ensures BestEligible([first, second], GroupOf(first.doc), at) == Some(second)
    ensures SelectFrom([first, second], at) == [second]
  {
    OneNotice(first, second);
    OneMoreSelected([], first, at);
    OneMoreSelected([first], second, at);
    assert [] + [first] == [first] && [first] + [second] == [first, second];
  }

  lemma OnlyNewer(first: Entry, second: Entry, q: Query)
    requires GroupOf(first.doc) == GroupOf(second.doc) && first.doc.version < second.doc.version
    requires SelectedAt(first.doc) <= q.at && SelectedAt(second.doc) <= q.at
    requires Relevant(second.doc, q) && |second.chunks| == 1
    ensures Candidates([first, second], q) == [CandidateOf(second, 0)]
  {
    OneNotice(first, second);
    NewerIsChosen(first, second, q.at);
    OnlySelected([first, second], second, q);
  }

  lemma OneNotice(first: Entry, second: Entry)
    requires GroupOf(first.doc) == GroupOf(second.doc)
    ensures var g, both := GroupOf(first.doc), [first, second]; GroupsOf(both) == [g] && Of(both, g) == both
  {
    OneMoreEntry([], first);
    OneMoreEntry([first], second);
    assert [] + [first] == [first] && [first] + [second] == [first, second];
  }

  lemma OneMoreSelected(entries: seq<Entry>, e: Entry, at: int)
    requires SelectedAt(e.doc) <= at
    ensures Eligible(entries + [e], at) == Eligible(entries, at) + [e]
    ensures Afterwards(entries + [e], at) == Afterwards(entries, at)
    ensures Best(Eligible(entries, at) + [e])
            == var best := Best(Eligible(entries, at));
               if best.Some? && e.doc.version <= best.value.doc.version then best else Some(e)
  {
    assert (entries + [e])[..|entries|] == entries;
    var some := Eligible(entries, at);
    assert (some + [e])[..|some|] == some;
  }

  lemma SortingOne(c: Candidate, le: (Candidate, Candidate) -> bool)
    ensures Sorting.Sort([c], le) == [c]
  {
    assert [c][1..] == [];
    assert Sorting.Sort([], le) == [];
    assert Sorting.Insert(c, [], le) == [c];
  }

  lemma OnlySelected(entries: seq<Entry>, e: Entry, q: Query)
    requires GroupsOf(entries) == [GroupOf(e.doc)] && SelectFrom(Of(entries, GroupOf(e.doc)), q.at) == [e]
    requires Relevant(e.doc, q) && |e.chunks| == 1
    ensures Candidates(entries, q) == [CandidateOf(e, 0)]
  {
    var g := GroupOf(e.doc);
    assert [g][..0] == [] && [e][..0] == [];
    assert SelectEach(entries, [g], q.at) == [] + [e];
    assert CandidatesFrom(e) == [CandidateOf(e, 0)];
    assert Selected(entries, q.at) == [e];
    assert Gather([e][..0], q) == [];
    assert Gather([e], q) == [CandidateOf(e, 0)];
    SortingOne(CandidateOf(e, 0), Earlier(q));
  }

  // ---------------------------------------------------------------- why versions must not be shared

  /** A stamped first version of one notice of one source policy, as two feeds of it deliver it. */
  function Delivered(feed: string, text: string, reliability: real): Entry {
    Entry(Key(feed, "notice", 1),
          Document(Given(feed), feed, "notice", None, "", "", 0, 0, Some(0), Some(0), Some(0), 1, None, reliability,
                   text, Some("policy"), Some("notice"), None, Current),
          [text])
  }

  /** Their keys differ and their group does not: the order of arrival decides which is read, and how reliable it is. */
  lemma {:induction false} TiedLookahead()
    ensures var a, b := Delivered("a", "yes", 1.0), Delivered("b", "no", 0.5);
            && a.key != b.key && GroupOf(a.doc) == GroupOf(b.doc)
            && Agree([a, b], [b, a], 10) && Ambiguous([a, b], 10)
            && Verify(Candidates([a, b], GENERIC), AGREEING, 0.34, 10, true).legitimate == 1.0
            && Verify(Candidates([b, a], GENERIC), AGREEING, 0.34, 10, true).legitimate == 0.5
  {
    var a, b := Delivered("a", "yes", 1.0), Delivered("b", "no", 0.5);
    assert a.doc.source[0] != b.doc.source[0];
    forall x ensures Known([a, b], 10, x) <==> Known([b, a], 10, x) {
      assert a in [a, b] && b in [a, b] && a in [b, a] && b in [b, a];
    }
    assert Unretired(a).doc.source != Unretired(b).doc.source;
    assert Ties([a, b], 10, a, b);
    OnlyOlder(a, b, GENERIC);
    OnlyOlder(b, a, GENERIC);
    SingleLegitimate(CandidateOf(a, 0));
    SingleLegitimate(CandidateOf(b, 0));
  }

  lemma OnlyOlder(first: Entry, second: Entry, q: Query)
    requires GroupOf(first.doc) == GroupOf(second.doc) && first.doc.version == second.doc.version
    requires SelectedAt(first.doc) <= q.at && SelectedAt(second.doc) <= q.at
    requires Relevant(first.doc, q) && |first.chunks| == 1
    ensures Candidates([first, second], q) == [CandidateOf(first, 0)]
  {
    OneNotice(first, second);
    assert SelectFrom([first, second], q.at) == [first] by {
      OneMoreSelected([], first, q.at);
      OneMoreSelected([first], second, q.at);
      assert [] + [first] == [first] && [first] + [second] == [first, second];
    }
    OnlySelected([first, second], first, q);
  }

  lemma SingleLegitimate(c: Candidate)
    requires c.reliability >= 0.34 && c.available <= 10
    ensures Verify([c], AGREEING, 0.34, 10, true).legitimate == c.reliability
  {
    VerdictIff([c], AGREEING, 0.34, 10, true);
    assert c in [c] && Matches(AGREEING, 0.34, c);
    assert Backed([c], AGREEING, 0.34, 10);
  }

  // ---------------------------------------------------------------- a narrative's claims together

  function Precedence(o: Outcome): nat {
    match o
    case Conflicting => 5 case Unsupported => 4 case SupportedAfter => 3 case Unknown => 2 case SupportedBefore => 1
  }

  datatype Summary = Summary(outcome: Outcome, risk: real, legitimate: real)

  function Greater(x: real, y: real): real { if x >= y then x else y }

  /** The outcome of highest precedence, the greatest risk and the greatest legitimate-event score. */
  function Summarise(verdicts: seq<Verdict>): Summary
    requires verdicts != []
  {
    var v := verdicts[|verdicts| - 1];
    if |verdicts| == 1 then Summary(v.outcome, v.risk, v.legitimate)
    else
      var s := Summarise(verdicts[..|verdicts| - 1]);
      Summary(if Precedence(v.outcome) > Precedence(s.outcome) then v.outcome else s.outcome,
              Greater(s.risk, v.risk), Greater(s.legitimate, v.legitimate))
  }

  /** One conflict decides the summary; support before the alert has to be unanimous. */
  lemma {:induction false} SummaryDecides(verdicts: seq<Verdict>)
    requires verdicts != []
    ensures Summarise(verdicts).outcome == Conflicting <==> exists v :: v in verdicts && v.outcome == Conflicting
    ensures Summarise(verdicts).outcome == SupportedBefore
            <==> forall v :: v in verdicts ==> v.outcome == SupportedBefore
  {
    var init, last := verdicts[..|verdicts| - 1], verdicts[|verdicts| - 1];
    assert verdicts == init + [last];
    if |verdicts| > 1 {
      SummaryDecides(init);
    }
  }

  ghost predicate AllSame(vs: seq<Verdict>, ws: seq<Verdict>) {
    |vs| == |ws| && forall i :: 0 <= i < |vs| ==> SameHindsight(vs[i], ws[i])
  }

  lemma {:induction false} SummaryLegitimate(vs: seq<Verdict>, ws: seq<Verdict>)
    requires vs != [] && AllSame(vs, ws)
    ensures Summarise(vs).legitimate == Summarise(ws).legitimate
  {
    assert SameHindsight(vs[|vs| - 1], ws[|vs| - 1]);
    if |vs| > 1 {
      SummaryLegitimate(vs[..|vs| - 1], ws[..|ws| - 1]);
    }
  }

  /** Claim by claim the same in hindsight, the summary of a narrative is too. */
  lemma SummaryHasNoLookahead(vs: seq<Verdict>, ws: seq<Verdict>)
    requires vs != [] && AllSame(vs, ws)
    ensures Summarise(vs).legitimate == Summarise(ws).legitimate
    ensures Summarise(vs).outcome == Conflicting <==> Summarise(ws).outcome == Conflicting
    ensures Summarise(vs).outcome == SupportedBefore <==> Summarise(ws).outcome == SupportedBefore
  {
    SummaryLegitimate(vs, ws);
    SummaryDecides(vs);
    SummaryDecides(ws);
    forall i | 0 <= i < |vs|
      ensures vs[i].outcome == Conflicting <==> ws[i].outcome == Conflicting
      ensures vs[i].outcome == SupportedBefore <==> ws[i].outcome == SupportedBefore
    {
      assert SameHindsight(vs[i], ws[i]);
    }
    if v :| v in vs && v.outcome == Conflicting {
      var i :| 0 <= i < |vs| && vs[i] == v;
      assert ws[i] in ws;
    }
    if w :| w in ws && w.outcome == Conflicting {
      var i :| 0 <= i < |ws| && ws[i] == w;
      assert vs[i] in vs;
    }
    if forall v :: v in vs ==> v.outcome == SupportedBefore {
      forall w | w in ws ensures w.outcome == SupportedBefore {
        var i :| 0 <= i < |ws| && ws[i] == w;
        assert vs[i] in vs;
      }
    }
    if forall w :: w in ws ==> w.outcome == SupportedBefore {
      forall v | v in vs ensures v.outcome == SupportedBefore {
        var i :| 0 <= i < |vs| && vs[i] == v;
        assert ws[i] in ws;
      }
    }
  }
}
