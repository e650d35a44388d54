/** The relational form of the disclosure store, which stamps every new version CURRENT. */
module DisclosureRows {
  import opened Wrappers
  import opened Disclosures
  import opened DisclosureLaws
  import Chunker

  /** One transaction: the highest version is superseded and the arrival inserted as the next one, CURRENT. */
  function PersistRow(rows: seq<Entry>, a: Arrival, limit: int): (seq<Entry>, Option<Document>) {
    var g := GroupOf(a.doc);
    var latest := Best(Of(rows, g));
    if latest.Some? && latest.value.doc.hash == a.doc.hash then (rows, None)
    else
      var version := if latest.Some? then latest.value.doc.version + 1 else 1;
      var supersedes := if latest.Some? then Some(latest.value.doc.id) else None;
      var prepared := Prepared(a, version, supersedes).(status := Current);
      var updated := if latest.Some? then RetireAll(rows, latest.value.doc.id) else rows;
      (updated + [Entry(Key(g.source, g.document, version), prepared, Chunker.Chunks(prepared.body, limit))],
       Some(prepared))
  }

  function RunRows(arrivals: seq<Arrival>, limit: int): seq<Entry> {
    if arrivals == [] then []
    else PersistRow(RunRows(arrivals[..|arrivals| - 1], limit), arrivals[|arrivals| - 1], limit).0
  }

  function AsCurrent(a: Arrival): Arrival { a.(doc := a.doc.(status := Current)) }

  function AllCurrent(arrivals: seq<Arrival>): (r: seq<Arrival>)
    ensures |r| == |arrivals| && forall i :: 0 <= i < |r| ==> r[i] == AsCurrent(arrivals[i])
  {
    seq(|arrivals|, i requires 0 <= i < |arrivals| => AsCurrent(arrivals[i]))
  }

  /** What is left of the entries by a change after `last`, if there is one, and the key it is stored under. */
  function Kept(entries: seq<Entry>, last: Option<Entry>): seq<Entry> {
    if last.Some? then RetireAll(entries, last.value.doc.id) else entries
  }

  function NextKey(g: Group, last: Option<Entry>): Key {
    Key(g.source, g.document, if last.Some? then last.value.doc.version + 1 else 1)
  }

  lemma NextIsNew(entries: seq<Entry>, arrivals: seq<Arrival>, limit: int, g: Group)
    requires HoldsChains(entries, arrivals, limit)
    ensures var last := Best(Of(entries, g)); IsNew(NextKey(g, last), Kept(entries, last))
  {
    hide Version, HoldsChains, Changes, RetireAll, Best, Of, IsNew;
    var changes, last := Changes(arrivals, g), Best(Of(entries, g));
    LatestIsLast(entries, arrivals, limit, g);
    NewKey(entries, arrivals, limit, g);
    if changes != [] {
      VersionFacts(changes, |changes| - 1, limit);
      RetiredKeys(entries, last.value.doc.id, NextKey(g, last));
    }
  }

  lemma CurrentIsPrepared(a: Arrival, version: int, supersedes: Option<Id>)
    ensures GroupOf(AsCurrent(a).doc) == GroupOf(a.doc) && AsCurrent(a).doc.hash == a.doc.hash
    ensures Prepared(AsCurrent(a), version, supersedes) == Prepared(a, version, supersedes).(status := Current)
  {
  }

  /** The in-memory store puts where the relational one inserts, which is the same while keys are new. */
  lemma NewIsPut(entries: seq<Entry>, a: Arrival, limit: int)
    requires var g := GroupOf(a.doc);
             var last := Best(Of(entries, g));
             IsNew(NextKey(g, last), Kept(entries, last))
    ensures PersistRow(entries, a, limit) == Persist(entries, AsCurrent(a), limit)
  {
    hide Best, Of, GroupOf, RetireAll, IsNew, Put, Prepared, AsCurrent;
    var last := Best(Of(entries, GroupOf(a.doc)));
    var key, supersedes := NextKey(GroupOf(a.doc), last), if last.Some? then Some(last.value.doc.id) else None;
    var prepared := Prepared(AsCurrent(a), key.version, supersedes);
    CurrentIsPrepared(a, key.version, supersedes);
    PutAdds(Kept(entries, last), Entry(key, prepared, Chunker.Chunks(prepared.body, limit)));
  }

  lemma RowIsPut(entries: seq<Entry>, arrivals: seq<Arrival>, a: Arrival, limit: int)
    requires HoldsChains(entries, arrivals, limit)
    ensures PersistRow(entries, a, limit) == Persist(entries, AsCurrent(a), limit)
  {
    hide *;
    NextIsNew(entries, arrivals, limit, GroupOf(a.doc));
    NewIsPut(entries, a, limit);
  }

  lemma AllCurrentOneMore(arrivals: seq<Arrival>)
    requires arrivals != []
    ensures var n, all := |arrivals| - 1, AllCurrent(arrivals);
            all[..n] == AllCurrent(arrivals[..n]) && all[n] == AsCurrent(arrivals[n])
  {
  }

  /** The relational store runs as the in-memory one would if every document arrived CURRENT. */
  lemma {:induction false} RowsAreMemory(arrivals: seq<Arrival>, limit: int)
    ensures RunRows(arrivals, limit) == Run(AllCurrent(arrivals), limit)
  {
    if arrivals != [] {
      var init, a := arrivals[..|arrivals| - 1], arrivals[|arrivals| - 1];
      RowsAreMemory(init, limit);
      RunHoldsChains(AllCurrent(init), limit);
      RowIsPut(RunRows(init, limit), AllCurrent(init), a, limit);
      AllCurrentOneMore(arrivals);
      hide PersistRow, Persist, AsCurrent, AllCurrent, HoldsChains;
    }
  }

  /** In the relational store exactly the last version of every document is CURRENT, however it arrived. */
  lemma OnlyLastIsCurrent(arrivals: seq<Arrival>, g: Group, limit: int)
    ensures var vs := Of(RunRows(arrivals, limit), g);
            forall i :: 0 <= i < |vs| ==> vs[i].doc.status == if i == |vs| - 1 then Current else Superseded
  {
    RowsAreMemory(arrivals, limit);
    var all := AllCurrent(arrivals);
    VersionsAreSound(all, g, limit);
    ChangesChange(all, g);
    if Of(Run(all, limit), g) != [] {
      LastStatusIsAsItCame(all, g, limit);
      var changes := Changes(all, g);
      assert changes[|changes| - 1] in all;
    }
  }

  lemma {:induction false} ByAllCurrent(arrivals: seq<Arrival>, at: int)
    ensures By(AllCurrent(arrivals), at) == By(arrivals, at)
  {
    if arrivals != [] {
      var init := arrivals[..|arrivals| - 1];
      ByAllCurrent(init, at);
      assert AllCurrent(arrivals)[..|init|] == AllCurrent(init);
    }
  }

  lemma AllCurrentIsLive(arrivals: seq<Arrival>)
    requires Live(arrivals)
    ensures Live(AllCurrent(arrivals)) && forall a :: a in AllCurrent(arrivals) ==> a.doc.status == Current
  {
  }

  /** Time travel holds in the relational store whatever statuses documents arrive with. */
  lemma {:induction false} RowsReadThePast(arrivals: seq<Arrival>, at: int, g: Group, limit: int)
    requires Live(arrivals)
    ensures var now, past := Of(RunRows(arrivals, limit), g), Of(RunRows(arrivals[..By(arrivals, at)], limit), g);
            && UnretiredIf(Best(Eligible(now, at))) == (if past == [] then None else Some(past[|past| - 1]))
            && (past != [] ==> past[|past| - 1].doc.status == Current)
  {
    var all, k := AllCurrent(arrivals), By(arrivals, at);
    ByAllCurrent(arrivals, at);
    RowsAreMemory(arrivals, limit);
    RowsAreMemory(arrivals[..k], limit);
    assert AllCurrent(arrivals[..k]) == all[..k];
    AllCurrentIsLive(arrivals);
    hide Run, RunRows, Of, Best, Eligible, By, Live, AllCurrent;
    AsOfReadsThePast(all, at, g, limit);
  }

  /** In memory only the last version is CURRENT exactly when the last change arrived so. */
  lemma OnlyLastIsCurrentInMemoryIff(arrivals: seq<Arrival>, g: Group, limit: int)
    requires Changes(arrivals, g) != []
    ensures var vs, changes := Of(Run(arrivals, limit), g), Changes(arrivals, g);
            (forall i :: 0 <= i < |vs| ==> (vs[i].doc.status == Current <==> i == |vs| - 1))
            <==> changes[|changes| - 1].doc.status == Current
  {
    RunHoldsChains(arrivals, limit);
    assert |Of(Run(arrivals, limit), g)| == |Chain(Changes(arrivals, g), limit)|;
    VersionsAreSound(arrivals, g, limit);
    LastStatusIsAsItCame(arrivals, g, limit);
  }

  /** A document that arrives SUPERSEDED is stored so in memory, and has no CURRENT version at all. */
  lemma MemoryCanHaveNoCurrent(a: Arrival, limit: int)
    requires a.doc.status == Superseded
    ensures var memory, rows := Of(Run([a], limit), GroupOf(a.doc)), Of(RunRows([a], limit), GroupOf(a.doc));
            |memory| == 1 && memory[0].doc.status == Superseded && |rows| == 1 && rows[0].doc.status == Current
  {
    var g := GroupOf(a.doc);
    assert [a][..0] == [];
    assert Changes([], g) == [];
    assert Changes([a], g) == [a];
    RunHoldsChains([a], limit);
    LastStatusIsAsItCame([a], g, limit) by {
      assert |Of(Run([a], limit), g)| == |Chain([a], limit)|;
    }
    RowsAreMemory([a], limit);
    OnlyLastIsCurrent([a], g, limit);
    RunHoldsChains(AllCurrent([a]), limit);
    var c := AsCurrent(a);
    assert AllCurrent([a]) == [c] && [c][..0] == [];
    assert Changes([c], g) == [c];
    assert |Of(Run([c], limit), g)| == |Chain([c], limit)|;
  }
}
