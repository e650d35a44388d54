/** Version chains: what the store holds after any run of versioned arrivals. */
module DisclosureLaws {
  import opened Wrappers
  import opened Disclosures
  import Chunker

  function Run(arrivals: seq<Arrival>, limit: int): seq<Entry> {
    if arrivals == [] then []
    else Persist(Run(arrivals[..|arrivals| - 1], limit), arrivals[|arrivals| - 1], limit).0
  }

  /** The arrivals of one document that changed its content. */
  function Changes(arrivals: seq<Arrival>, g: Group): seq<Arrival> {
    if arrivals == [] then []
    else
      var before, a := Changes(arrivals[..|arrivals| - 1], g), arrivals[|arrivals| - 1];
      if GroupOf(a.doc) == g && (before == [] || before[|before| - 1].doc.hash != a.doc.hash) then before + [a]
      else before
  }

  /** The entry the i-th change of a document is stored as, once `changes` have arrived. */
  function Version(changes: seq<Arrival>, i: nat, limit: int): Entry
    requires i < |changes|
  {
    var a := changes[i];
    var g := GroupOf(a.doc);
    var previous := if i == 0 then None else Some(Official(GroupOf(changes[i - 1].doc), i, changes[i - 1].doc.hash));
    var d := Prepared(a, i + 1, previous);
    Entry(Key(g.source, g.document, i + 1), if i < |changes| - 1 then d.(status := Superseded) else d,
          Chunker.Chunks(a.doc.body, limit))
  }

  function Chain(changes: seq<Arrival>, limit: int): (r: seq<Entry>)
    ensures |r| == |changes| && forall i :: 0 <= i < |r| ==> r[i] == Version(changes, i, limit)
  {
    seq(|changes|, i requires 0 <= i < |changes| => Version(changes, i, limit))
  }

  ghost predicate AllOf(changes: seq<Arrival>, g: Group) {
    forall i :: 0 <= i < |changes| ==> GroupOf(changes[i].doc) == g
  }

  ghost predicate EverChanging(changes: seq<Arrival>) {
    forall i :: 0 < i < |changes| ==> changes[i].doc.hash != changes[i - 1].doc.hash
  }

  lemma {:induction false} ChangesChange(arrivals: seq<Arrival>, g: Group)
    ensures AllOf(Changes(arrivals, g), g) && EverChanging(Changes(arrivals, g))
    ensures forall a :: a in Changes(arrivals, g) ==> a in arrivals
  {
    if arrivals != [] {
      ChangesChange(arrivals[..|arrivals| - 1], g);
    }
  }

  /** The store holds, for every document, the chain of its changes and nothing else. */
  ghost predicate HoldsChains(entries: seq<Entry>, arrivals: seq<Arrival>, limit: int) {
    forall g :: Of(entries, g) == Chain(Changes(arrivals, g), limit)
  }

  // ---------------------------------------------------------------- one arrival

  lemma {:induction false} OfHolds(entries: seq<Entry>, g: Group)
    ensures forall e :: e in Of(entries, g) <==> e in entries && GroupOf(e.doc) == g
  {
    if entries != [] {
      OfHolds(entries[..|entries| - 1], g);
      assert entries == entries[..|entries| - 1] + [entries[|entries| - 1]];
    }
  }

  lemma AddedTo(entries: seq<Entry>, e: Entry, g: Group)
    ensures Of(entries + [e], g) == if GroupOf(e.doc) == g then Of(entries, g) + [e] else Of(entries, g)
  {
    OneMoreEntry(entries, e);
  }

  lemma RetiringOneMore(entries: seq<Entry>, e: Entry, id: Id)
    ensures RetireAll(entries + [e], id) == RetireAll(entries, id) + [Retired(e, id)]
    ensures GroupOf(Retired(e, id).doc) == GroupOf(e.doc)
  {
  }

  lemma {:induction false} RetiringInGroup(entries: seq<Entry>, id: Id, g: Group)
    ensures Of(RetireAll(entries, id), g) == RetireAll(Of(entries, g), id)
  {
    if entries != [] {
      var init, e := entries[..|entries| - 1], entries[|entries| - 1];
      RetiringInGroup(init, id, g);
      assert entries == init + [e];
      RetiringOneMore(init, e, id);
      RetiringOneMore(Of(init, g), e, id);
      AddedTo(init, e, g);
      AddedTo(RetireAll(init, id), Retired(e, id), g);
    }
  }

  /** What the laws below need to know of a version. */
  lemma VersionFacts(changes: seq<Arrival>, i: nat, limit: int)
    requires i < |changes|
    ensures var e, a := Version(changes, i, limit), changes[i];
            && e.doc.version == i + 1 && e.doc.hash == a.doc.hash
            && e.doc.id == Official(GroupOf(a.doc), i + 1, a.doc.hash)
            && e.key == Key(GroupOf(a.doc).source, GroupOf(a.doc).document, i + 1)
            && GroupOf(e.doc) == GroupOf(a.doc)
            && (!a.keep ==> SelectedAt(e.doc) == Larger(ObservedAt(a.doc), a.now))
  {
  }

  lemma {:induction false} LastIsBest(entries: seq<Entry>)
    requires forall i :: 0 <= i < |entries| ==> entries[i].doc.version == i + 1
    ensures Best(entries) == if entries == [] then None else Some(entries[|entries| - 1])
  {
    if entries != [] {
      LastIsBest(entries[..|entries| - 1]);
    }
  }

  lemma ChainAscends(changes: seq<Arrival>, limit: int)
    ensures forall i :: 0 <= i < |changes| ==> Chain(changes, limit)[i].doc.version == i + 1
  {
    forall i | 0 <= i < |changes| ensures Chain(changes, limit)[i].doc.version == i + 1 {
      VersionFacts(changes, i, limit);
    }
  }

  /** Retiring the last version of a chain touches no other version of it. */
  lemma ChainRetires(changes: seq<Arrival>, g: Group, limit: int)
    requires AllOf(changes, g) && changes != []
    ensures var last := Version(changes, |changes| - 1, limit);
            RetireAll(Chain(changes, limit), last.doc.id)
            == Chain(changes, limit)[..|changes| - 1] + [Retired(last, last.doc.id)]
  {
    VersionFacts(changes, |changes| - 1, limit);
    forall i | 0 <= i < |changes| ensures Version(changes, i, limit).doc.id.version == i + 1 {
      VersionFacts(changes, i, limit);
    }
    hide Version;
  }

  /** Retiring a version of another document touches none. */
  lemma ChainIsSpared(changes: seq<Arrival>, g: Group, limit: int, id: Id)
    requires AllOf(changes, g) && id.Official? && id.group != g
    ensures RetireAll(Chain(changes, limit), id) == Chain(changes, limit)
  {
    forall i | 0 <= i < |changes| ensures Version(changes, i, limit).doc.id.group == g {
      VersionFacts(changes, i, limit);
    }
  }

  lemma ChainGrows(changes: seq<Arrival>, a: Arrival, limit: int)
    requires changes != []
    ensures var n := |changes|;
            var last := Version(changes, n - 1, limit);
            Chain(changes + [a], limit)
            == Chain(changes, limit)[..n - 1] + [Retired(last, last.doc.id)] + [Version(changes + [a], n, limit)]
  {
    var next, n := changes + [a], |changes|;
    var last := Version(changes, n - 1, limit);
    var r := Chain(changes, limit)[..n - 1] + [Retired(last, last.doc.id)] + [Version(next, n, limit)];
    forall i | 0 <= i <= n ensures Chain(next, limit)[i] == r[i] {
      assert i < n ==> next[i] == changes[i];
      assert 0 < i <= n ==> next[i - 1] == changes[i - 1];
    }
  }

  ghost predicate IsNew(key: Key, entries: seq<Entry>) {
    forall e :: e in entries ==> e.key != key
  }

  lemma {:induction false} NewKey(entries: seq<Entry>, arrivals: seq<Arrival>, limit: int, g: Group)
    requires HoldsChains(entries, arrivals, limit)
    ensures IsNew(Key(g.source, g.document, |Changes(arrivals, g)| + 1), entries)
  {
    forall e | e in entries ensures e.key != Key(g.source, g.document, |Changes(arrivals, g)| + 1) {
      var h := GroupOf(e.doc);
      OfHolds(entries, h);
      ChangesChange(arrivals, h);
      var changes := Changes(arrivals, h);
      var i :| 0 <= i < |changes| && Of(entries, h)[i] == e;
      VersionFacts(changes, i, limit);
    }
  }

  lemma PutAdds(entries: seq<Entry>, e: Entry)
    requires IsNew(e.key, entries)
    ensures Put(entries, e) == entries + [e]
  {
  }

  lemma RetiredKeys(entries: seq<Entry>, id: Id, key: Key)
    requires IsNew(key, entries)
    ensures IsNew(key, RetireAll(entries, id))
  {
    forall e | e in RetireAll(entries, id) ensures e.key != key {
      var i :| 0 <= i < |entries| && RetireAll(entries, id)[i] == e;
      assert entries[i] in entries;
    }
  }

  lemma OneMoreChange(arrivals: seq<Arrival>, a: Arrival, g: Group)
    ensures var before := Changes(arrivals, g);
            Changes(arrivals + [a], g)
            == if GroupOf(a.doc) == g && (before == [] || before[|before| - 1].doc.hash != a.doc.hash)
               then before + [a] else before
  {
    assert (arrivals + [a])[..|arrivals|] == arrivals;
  }

  lemma LatestIsLast(entries: seq<Entry>, arrivals: seq<Arrival>, limit: int, g: Group)
    requires HoldsChains(entries, arrivals, limit)
    ensures var changes := Changes(arrivals, g);
            Best(Of(entries, g)) == if changes == [] then None else Some(Version(changes, |changes| - 1, limit))
  {
    var changes := Changes(arrivals, g);
    assert Of(entries, g) == Chain(changes, limit);
    ChainAscends(changes, limit);
    LastIsBest(Chain(changes, limit));
  }

  lemma FirstIsAdded(entries: seq<Entry>, arrivals: seq<Arrival>, a: Arrival, limit: int)
    requires HoldsChains(entries, arrivals, limit) && Changes(arrivals, GroupOf(a.doc)) == []
    ensures Persist(entries, a, limit).0 == entries + [Version([a], 0, limit)]
  {
    var g := GroupOf(a.doc);
    LatestIsLast(entries, arrivals, limit, g);
    NewKey(entries, arrivals, limit, g);
    PutAdds(entries, Version([a], 0, limit));
  }

  /** The entry an arrival becomes after a last version. */
  function After(last: Entry, a: Arrival, limit: int): Entry {
    var g, version := GroupOf(a.doc), last.doc.version + 1;
    Entry(Key(g.source, g.document, version), Prepared(a, version, Some(last.doc.id)),
          Chunker.Chunks(a.doc.body, limit))
  }

  lemma PreparingKeepsBody(a: Arrival, version: int, supersedes: Option<Id>)
    ensures Prepared(a, version, supersedes).body == a.doc.body
  {
  }

  lemma PutAfter(entries: seq<Entry>, last: Entry, a: Arrival, limit: int)
    requires Best(Of(entries, GroupOf(a.doc))) == Some(last) && last.doc.hash != a.doc.hash
    ensures Persist(entries, a, limit).0 == Put(RetireAll(entries, last.doc.id), After(last, a, limit))
  {
    PreparingKeepsBody(a, last.doc.version + 1, Some(last.doc.id));
    hide RetireAll, Put, Best, Of, GroupOf, Prepared;
  }

  lemma VersionAfter(changes: seq<Arrival>, a: Arrival, limit: int)
    requires changes != []
    ensures Version(changes + [a], |changes|, limit) == After(Version(changes, |changes| - 1, limit), a, limit)
  {
    VersionFacts(changes, |changes| - 1, limit);
  }

  lemma ChangeIsAdded(entries: seq<Entry>, arrivals: seq<Arrival>, a: Arrival, limit: int)
    requires HoldsChains(entries, arrivals, limit)
    requires var changes := Changes(arrivals, GroupOf(a.doc));
             changes != [] && changes[|changes| - 1].doc.hash != a.doc.hash
    ensures var changes := Changes(arrivals, GroupOf(a.doc));
            var n := |changes|;
            Persist(entries, a, limit).0
            == RetireAll(entries, Version(changes, n - 1, limit).doc.id) + [Version(changes + [a], n, limit)]
  {
    hide *;
    var g := GroupOf(a.doc);
    var changes := Changes(arrivals, g);
    var n := |changes|;
    var id := Version(changes, n - 1, limit).doc.id;
    LatestIsLast(entries, arrivals, limit, g);
    VersionFacts(changes, n - 1, limit);
    VersionAfter(changes, a, limit);
    PutAfter(entries, Version(changes, n - 1, limit), a, limit);
    NewKey(entries, arrivals, limit, g);
    RetiredKeys(entries, id, Key(g.source, g.document, n + 1));
    VersionFacts(changes + [a], n, limit);
    PutAdds(RetireAll(entries, id), Version(changes + [a], n, limit));
  }

  lemma FirstKeepsChain(entries: seq<Entry>, arrivals: seq<Arrival>, a: Arrival, limit: int, h: Group)
    requires HoldsChains(entries, arrivals, limit) && Changes(arrivals, GroupOf(a.doc)) == []
    ensures Of(Persist(entries, a, limit).0, h) == Chain(Changes(arrivals + [a], h), limit)
  {
    FirstIsAdded(entries, arrivals, a, limit);
    OneMoreChange(arrivals, a, h);
    AddedTo(entries, Version([a], 0, limit), h);
    VersionFacts([a], 0, limit);
    assert Of(entries, h) == Chain(Changes(arrivals, h), limit);
    assert [] + [a] == [a];
    hide Version, Persist, Of, Changes, HoldsChains;
  }

  /** Storing a change extends the chain of its own document, whose last version it retires. */
  lemma {:induction false} ChangeExtendsChain(entries: seq<Entry>, changes: seq<Arrival>, a: Arrival, limit: int)
    requires changes != [] && AllOf(changes, GroupOf(a.doc)) && Of(entries, GroupOf(a.doc)) == Chain(changes, limit)
    ensures var n := |changes|;
            Of(RetireAll(entries, Version(changes, n - 1, limit).doc.id) + [Version(changes + [a], n, limit)],
               GroupOf(a.doc))
            == Chain(changes + [a], limit)
  {
    var g, n := GroupOf(a.doc), |changes|;
    var last, e := Version(changes, n - 1, limit), Version(changes + [a], n, limit);
    VersionFacts(changes + [a], n, limit);
    AddedTo(RetireAll(entries, last.doc.id), e, g);
    RetiringInGroup(entries, last.doc.id, g);
    ChainRetires(changes, g, limit);
    ChainGrows(changes, a, limit);
  }

  /** And leaves the chains of the others alone. */
  lemma ChangeSparesOthers(entries: seq<Entry>, id: Id, e: Entry, limit: int, h: Group, others: seq<Arrival>)
    requires id.Official? && id.group != h && GroupOf(e.doc) != h
    requires AllOf(others, h) && Of(entries, h) == Chain(others, limit)
    ensures Of(RetireAll(entries, id) + [e], h) == Chain(others, limit)
  {
    AddedTo(RetireAll(entries, id), e, h);
    RetiringInGroup(entries, id, h);
    ChainIsSpared(others, h, limit, id);
  }

  lemma {:induction false} ChangeKeepsChain(
      entries: seq<Entry>, arrivals: seq<Arrival>, a: Arrival, limit: int, h: Group)
    requires HoldsChains(entries, arrivals, limit)
    requires var changes := Changes(arrivals, GroupOf(a.doc));
             changes != [] && changes[|changes| - 1].doc.hash != a.doc.hash
    ensures Of(Persist(entries, a, limit).0, h) == Chain(Changes(arrivals + [a], h), limit)
  {
    hide Persist, Version, Of, Put;
    var changes := Changes(arrivals, GroupOf(a.doc));
    ChangeIsAdded(entries, arrivals, a, limit);
    OneMoreChange(arrivals, a, h);
    ChangesChange(arrivals, h);
    ChangesChange(arrivals, GroupOf(a.doc));
    if h == GroupOf(a.doc) {
      ChangeExtendsChain(entries, changes, a, limit);
    } else {
      var n := |changes|;
      VersionFacts(changes, n - 1, limit);
      VersionFacts(changes + [a], n, limit);
      var last, next := Version(changes, n - 1, limit), Version(changes + [a], n, limit);
      ChangeSparesOthers(entries, last.doc.id, next, limit, h, Changes(arrivals, h));
    }
  }

  lemma PersistKeepsChain(entries: seq<Entry>, arrivals: seq<Arrival>, a: Arrival, limit: int, h: Group)
    requires HoldsChains(entries, arrivals, limit)
    ensures Of(Persist(entries, a, limit).0, h) == Chain(Changes(arrivals + [a], h), limit)
  {
    var g := GroupOf(a.doc);
    var changes := Changes(arrivals, g);
    if changes == [] {
      FirstKeepsChain(entries, arrivals, a, limit, h);
    } else if changes[|changes| - 1].doc.hash != a.doc.hash {
      ChangeKeepsChain(entries, arrivals, a, limit, h);
    } else {
      LatestIsLast(entries, arrivals, limit, g);
      VersionFacts(changes, |changes| - 1, limit);
      OneMoreChange(arrivals, a, h);
    }
  }

  /** After every run the store holds, for each document, exactly the chain of its changes. */
  lemma {:induction false} RunHoldsChains(arrivals: seq<Arrival>, limit: int)
    ensures HoldsChains(Run(arrivals, limit), arrivals, limit)
  {
    if arrivals != [] {
      var init, a := arrivals[..|arrivals| - 1], arrivals[|arrivals| - 1];
      assert arrivals == init + [a];
      RunHoldsChains(init, limit);
      var before := Run(init, limit);
      forall h ensures Of(Persist(before, a, limit).0, h) == Chain(Changes(init + [a], h), limit) {
        PersistKeepsChain(before, init, a, limit, h);
      }
    }
  }

  lemma ChainIsSound(changes: seq<Arrival>, limit: int)
    requires EverChanging(changes)
    ensures var vs := Chain(changes, limit);
            && (forall i :: 0 <= i < |vs| ==> vs[i].doc.version == i + 1)
            && (forall i :: 0 < i < |vs| ==> vs[i].doc.hash != vs[i - 1].doc.hash)
            && (forall i :: 0 < i < |vs| ==> vs[i].doc.supersedes == Some(vs[i - 1].doc.id))
  {
    ChainAscends(changes, limit);
    forall i | 0 < i < |changes|
      ensures Chain(changes, limit)[i].doc.hash != Chain(changes, limit)[i - 1].doc.hash
      ensures Chain(changes, limit)[i].doc.supersedes == Some(Chain(changes, limit)[i - 1].doc.id)
    {
      VersionFacts(changes, i, limit);
      VersionFacts(changes, i - 1, limit);
    }
  }

  /** Versions are 1 to n, adjacent contents differ, each links to its predecessor, which it has superseded. */
  lemma {:induction false} VersionsAreSound(arrivals: seq<Arrival>, g: Group, limit: int)
    ensures var vs := Of(Run(arrivals, limit), g);
            && (forall i :: 0 <= i < |vs| ==> vs[i].doc.version == i + 1)
            && (forall i :: 0 < i < |vs| ==> vs[i].doc.hash != vs[i - 1].doc.hash)
            && (forall i :: 0 < i < |vs| ==> vs[i].doc.supersedes == Some(vs[i - 1].doc.id))
            && (vs != [] ==> vs[0].doc.supersedes == None)
            && (forall i :: 0 <= i < |vs| - 1 ==> vs[i].doc.status == Superseded)
  {
    RunHoldsChains(arrivals, limit);
    ChangesChange(arrivals, g);
    assert Of(Run(arrivals, limit), g) == Chain(Changes(arrivals, g), limit);
    ChainIsSound(Changes(arrivals, g), limit);
  }

  /** The last version keeps whatever status it arrived with: it is current just when it arrived so. */
  lemma {:induction false} LastStatusIsAsItCame(arrivals: seq<Arrival>, g: Group, limit: int)
    requires Of(Run(arrivals, limit), g) != []
    ensures var vs, changes := Of(Run(arrivals, limit), g), Changes(arrivals, g);
            |vs| == |changes| && vs[|vs| - 1].doc.status == changes[|vs| - 1].doc.status
  {
    RunHoldsChains(arrivals, limit);
    assert Of(Run(arrivals, limit), g) == Chain(Changes(arrivals, g), limit);
    hide Run, Of, Changes, HoldsChains, Version;
    LastVersionIsAsItCame(Changes(arrivals, g), limit);
  }

  lemma LastVersionIsAsItCame(changes: seq<Arrival>, limit: int)
    requires changes != []
    ensures Version(changes, |changes| - 1, limit).doc.status == changes[|changes| - 1].doc.status
  {
  }

  // ---------------------------------------------------------------- as-of reads

  /** Live ingestion: timestamps from a clock that does not run back, of documents observed before it. */
  ghost predicate Live(arrivals: seq<Arrival>) {
    && (forall i :: 0 <= i < |arrivals| ==> !arrivals[i].keep && ObservedAt(arrivals[i].doc) <= arrivals[i].now)
    && (forall i, j :: 0 <= i <= j < |arrivals| ==> arrivals[i].now <= arrivals[j].now)
  }

  /** How many arrivals have come by the time. */
  function By(arrivals: seq<Arrival>, at: int): (n: nat)
    ensures n <= |arrivals|
  {
    if arrivals == [] then 0
    else if arrivals[|arrivals| - 1].now <= at then |arrivals| else By(arrivals[..|arrivals| - 1], at)
  }

  lemma {:induction false} ByDivides(arrivals: seq<Arrival>, at: int)
    requires Live(arrivals)
    ensures forall i :: 0 <= i < |arrivals| ==> (arrivals[i].now <= at <==> i < By(arrivals, at))
  {
    if arrivals != [] && arrivals[|arrivals| - 1].now > at {
      ByDivides(arrivals[..|arrivals| - 1], at);
    }
  }

  /** The changes by a time are the first of all changes: those that came by it. */
  /** Exactly the first `k` arrived by then. */
  ghost predicate Divides(arrivals: seq<Arrival>, k: nat, at: int) {
    k <= |arrivals| && forall i :: 0 <= i < |arrivals| ==> (arrivals[i].now <= at <==> i < k)
  }

  lemma AllBy(some: seq<Arrival>, all: seq<Arrival>, at: int)
    requires Divides(all, |all|, at) && forall a :: a in some ==> a in all
    ensures Divides(some, |some|, at)
  {
    forall i | 0 <= i < |some| ensures some[i].now <= at {
      assert some[i] in all;
    }
  }

  lemma DividesOneMore(arrivals: seq<Arrival>, a: Arrival, k: nat, at: int)
    requires Divides(arrivals, k, at) && a.now > at
    ensures Divides(arrivals + [a], k, at)
  {
  }

  lemma {:induction false} ChangesBy(arrivals: seq<Arrival>, k: nat, at: int, g: Group)
    requires Divides(arrivals, k, at)
    ensures var all, some := Changes(arrivals, g), Changes(arrivals[..k], g);
            |some| <= |all| && all[..|some|] == some && Divides(all, |some|, at)
  {
    if k == |arrivals| {
      assert arrivals[..k] == arrivals;
      ChangesChange(arrivals, g);
      AllBy(Changes(arrivals, g), arrivals, at);
    } else {
      var init, last := arrivals[..|arrivals| - 1], arrivals[|arrivals| - 1];
      assert arrivals == init + [last] && init[..k] == arrivals[..k] && last.now > at;
      ChangesBy(init, k, at, g);
      OneMoreChange(init, last, g);
      DividesOneMore(Changes(init, g), last, |Changes(init[..k], g)|, at);
      hide Changes, Divides;
    }
  }

  lemma {:induction false} EligibleAre(entries: seq<Entry>, at: int, k: nat)
    requires k <= |entries| && forall i :: 0 <= i < |entries| ==> (SelectedAt(entries[i].doc) <= at <==> i < k)
    ensures Eligible(entries, at) == entries[..k]
  {
    if entries != [] {
      var n := |entries| - 1;
      if k == |entries| {
        EligibleAre(entries[..n], at, n);
        assert entries[..n][..n] + [entries[n]] == entries[..k];
      } else {
        EligibleAre(entries[..n], at, k);
        assert entries[..n][..k] == entries[..k];
      }
    }
  }

  /** A version as its document arrived, before any later version retired it. */
  function Unretired(e: Entry): Entry { e.(doc := e.doc.(status := Current)) }

  function UnretiredIf(e: Option<Entry>): Option<Entry> {
    if e.Some? then Some(Unretired(e.value)) else None
  }

  lemma EligibleVersions(arrivals: seq<Arrival>, at: int, g: Group, limit: int)
    requires Live(arrivals)
    ensures var vs, n := Of(Run(arrivals, limit), g), |Changes(arrivals[..By(arrivals, at)], g)|;
            n <= |vs| && Eligible(vs, at) == vs[..n]
  {
    var k := By(arrivals, at);
    ByDivides(arrivals, at);
    ChangesBy(arrivals, k, at, g);
    RunHoldsChains(arrivals, limit);
    ChangesChange(arrivals, g);
    var vs, changes := Of(Run(arrivals, limit), g), Changes(arrivals, g);
    assert vs == Chain(changes, limit);
    var n := |Changes(arrivals[..k], g)|;
    forall i | 0 <= i < |vs| ensures SelectedAt(vs[i].doc) <= at <==> i < n {
      assert changes[i] in arrivals;
    }
    EligibleAre(vs, at, n);
  }

  /**
   * Time travel: of each document, the version the store selects as available at a time is the one that
   * was its last version, the current one, when all that had arrived by then had been stored.
   */
  lemma {:induction false} AsOfReadsThePast(arrivals: seq<Arrival>, at: int, g: Group, limit: int)
    requires Live(arrivals) && forall a :: a in arrivals ==> a.doc.status == Current
    ensures var now, past := Of(Run(arrivals, limit), g), Of(Run(arrivals[..By(arrivals, at)], limit), g);
            && UnretiredIf(Best(Eligible(now, at))) == (if past == [] then None else Some(past[|past| - 1]))
            && (past != [] ==> past[|past| - 1].doc.status == Current)
  {
    var k := By(arrivals, at);
    ByDivides(arrivals, at);
    ChangesBy(arrivals, k, at, g);
    var all, some := Changes(arrivals, g), Changes(arrivals[..k], g);
    var n := |some|;
    RunHoldsChains(arrivals, limit);
    RunHoldsChains(arrivals[..k], limit);
    EligibleVersions(arrivals, at, g, limit);
    assert Of(Run(arrivals, limit), g) == Chain(all, limit) && Of(Run(arrivals[..k], limit), g) == Chain(some, limit);
    ChainAscends(all, limit);
    LastIsBest(Chain(all, limit)[..n]);
    if n > 0 {
      ChangesChange(arrivals[..k], g);
      assert some[n - 1] in arrivals[..k];
      VersionAsItWas(all, n, limit);
    }
  }

  lemma VersionAsItWas(all: seq<Arrival>, n: nat, limit: int)
    requires 0 < n <= |all| && all[n - 1].doc.status == Current
    ensures Unretired(Version(all, n - 1, limit)) == Version(all[..n], n - 1, limit)
    ensures Version(all[..n], n - 1, limit).doc.status == Current
  {
  }
}
